/**
 * The string handling of the `CryptoCommands` cog (cogs/crypto.py): the
 * pipe-separated coin list read from the configuration, the strategy word at
 * the head of a command's arguments, and the `add_product` /
 * `remove_product` rules on a strategy's product list, as written.
 */
module Commands {
  import opened Opt
  import opened Text
  import opened Config
  import opened ProductLists

  /** A product id as the coin-list parser returns it: non-empty, unpadded, without '|'. */
  predicate CleanId(id: string) {
    id != [] && Unpadded(id) && '|' !in id
  }

  /** `[p.strip() for p in pieces if p.strip()]` */
  function StrippedPieces(pieces: seq<string>): (ids: seq<string>)
    ensures |ids| <= |pieces|
    ensures forall k :: 0 <= k < |ids| ==> ids[k] != [] && Unpadded(ids[k])
    ensures pieces != [] && !AllSpace(pieces[0]) ==> ids != [] && ids[0] == Strip(pieces[0])
    ensures |pieces| == 1 ==> ids == (if AllSpace(pieces[0]) then [] else [Strip(pieces[0])])
  {
    if pieces == [] then []
    else
      var id := Strip(pieces[0]);
      var rest := StrippedPieces(pieces[1..]);
      assert |pieces| == 1 ==> rest == [];
      if id == "" then rest
      else
        PrependKept(id, rest);
        [id] + rest
  }

  lemma PrependKept(id: string, rest: seq<string>)
    requires id != [] && Unpadded(id)
    requires forall k :: 0 <= k < |rest| ==> rest[k] != [] && Unpadded(rest[k])
    ensures forall k :: 0 <= k < |[id] + rest| ==> ([id] + rest)[k] != [] && Unpadded(([id] + rest)[k])
  {
    var ids := [id] + rest;
    forall k | 0 <= k < |ids| ensures ids[k] != [] && Unpadded(ids[k]) {
      if k > 0 {
        assert ids[k] == rest[k - 1];
      }
    }
  }

  /**
   * `_get_product_ids_from_env`: `value` is the configuration attribute (None
   * when it is missing). An integer attribute gives the defaults too: 0 is
   * falsy, and any other integer has no `strip`, whose exception the method
   * catches and answers with the defaults.
   */
  function ProductIdsFromEnv(value: Option<ConfigValue>, defaults: seq<string>): (ids: seq<string>)
    ensures value.None? || value.value.IntValue? ==> ids == defaults
    ensures value.Some? && value.value.StrValue? && AllSpace(value.value.s) ==> ids == defaults
    ensures value.Some? && value.value.StrValue? ==>
              var kept := StrippedPieces(SplitOn(value.value.s, '|'));
              ids == if kept == [] then defaults else kept
  {
    match value
    case None => defaults
    case Some(IntValue(_)) => defaults
    case Some(StrValue(s)) =>
      if s == "" || Strip(s) == "" then
        PipesAndBlanksKeepNothing(s);
        defaults
      else
        var ids := StrippedPieces(SplitOn(s, '|'));
        if ids == [] then defaults else ids
  }

  /**
   * The comprehension works piece by piece: the ids kept from a list of
   * pieces are those kept from its first part followed by those kept from
   * the rest, so the kept ids appear in the order of their pieces.
   */
  lemma {:induction false} StrippedPiecesAppend(a: seq<string>, b: seq<string>)
    ensures StrippedPieces(a + b) == StrippedPieces(a) + StrippedPieces(b)
  {
    if a == [] {
      assert a + b == b;
    } else {
      assert (a + b)[0] == a[0];
      assert (a + b)[1..] == a[1..] + b;
      StrippedPiecesAppend(a[1..], b);
    }
  }

  /** Every id the parser keeps is clean. */
  lemma {:induction false} StrippedPiecesClean(pieces: seq<string>)
    requires forall k :: 0 <= k < |pieces| ==> '|' !in pieces[k]
    ensures forall k :: 0 <= k < |StrippedPieces(pieces)| ==> CleanId(StrippedPieces(pieces)[k])
  {
    if pieces != [] {
      var p, tail := pieces[0], pieces[1..];
      assert forall k :: 0 <= k < |tail| ==> '|' !in tail[k] by {
        forall k | 0 <= k < |tail| ensures '|' !in tail[k] {
          assert tail[k] == pieces[k + 1];
        }
      }
      StrippedPiecesClean(tail);
      var rest := StrippedPieces(tail);
      if Strip(p) != "" {
        StripClean(p);
        var ids := [Strip(p)] + rest;
        assert StrippedPieces(pieces) == ids;
        forall k | 0 <= k < |ids| ensures CleanId(ids[k]) {
          if k > 0 {
            assert ids[k] == rest[k - 1];
          }
        }
      } else {
        assert StrippedPieces(pieces) == rest;
      }
    }
  }

  /** A piece without '|' that is not blank strips to a clean id. */
  lemma StripClean(p: string)
    requires '|' !in p && Strip(p) != ""
    ensures CleanId(Strip(p))
  {
    StripIsInfix(p);
  }

  /** `s.strip()` is a contiguous part of `s`, so it has no character `s` lacks. */
  lemma StripIsInfix(s: string)
    ensures forall c :: c in Strip(s) ==> c in s
  {
    var l := StripLeft(s);
    assert forall c :: c in StripRight(l) ==> c in l;
    assert forall c :: c in l ==> c in s;
  }

  /** Pieces that are already clean survive the comprehension unchanged. */
  lemma {:induction false} StrippedCleanPieces(ids: seq<string>)
    requires forall k :: 0 <= k < |ids| ==> CleanId(ids[k])
    ensures StrippedPieces(ids) == ids
  {
    if ids != [] {
      StrippedCleanPieces(ids[1..]);
      assert ids == [ids[0]] + ids[1..];
    }
  }

  /** When the value yields at least one id, every returned id is clean (non-empty, unpadded, without '|'). */
  lemma ProductIdsClean(s: string, defaults: seq<string>)
    requires StrippedPieces(SplitOn(s, '|')) != []
    ensures ProductIdsFromEnv(Some(StrValue(s)), defaults) == StrippedPieces(SplitOn(s, '|'))
    ensures forall k :: 0 <= k < |ProductIdsFromEnv(Some(StrValue(s)), defaults)| ==>
              CleanId(ProductIdsFromEnv(Some(StrValue(s)), defaults)[k])
  {
    StrippedPiecesClean(SplitOn(s, '|'));
  }

  /** A value made only of whitespace and '|' keeps no piece, so the reader falls back to the defaults. */
  lemma PipesAndBlanksKeepNothing(s: string)
    requires forall i :: 0 <= i < |s| ==> IsSpace(s[i]) || s[i] == '|'
    ensures StrippedPieces(SplitOn(s, '|')) == []
  {
    BlankPieces(s);
    NoKeptPieces(SplitOn(s, '|'));
  }

  lemma {:induction false} BlankPieces(s: string)
    requires forall i :: 0 <= i < |s| ==> IsSpace(s[i]) || s[i] == '|'
    ensures forall k :: 0 <= k < |SplitOn(s, '|')| ==> AllSpace(SplitOn(s, '|')[k])
  {
    if s != [] {
      BlankPieces(s[1..]);
    }
  }

  /** A value such as " | " is not blank, yet it gives the defaults. */
  lemma SeparatorOnlyValue(defaults: seq<string>)
    ensures ProductIdsFromEnv(Some(StrValue(" | ")), defaults) == defaults
  {
    PipesAndBlanksKeepNothing(" | ");
  }

  lemma {:induction false} NoKeptPieces(pieces: seq<string>)
    requires forall k :: 0 <= k < |pieces| ==> AllSpace(pieces[k])
    ensures StrippedPieces(pieces) == []
  {
    if pieces != [] {
      NoKeptPieces(pieces[1..]);
    }
  }

  /** A value with no '|' that is not blank gives exactly one id: the stripped value. */
  lemma SingleProductId(s: string, defaults: seq<string>)
    requires '|' !in s && !AllSpace(s)
    ensures ProductIdsFromEnv(Some(StrValue(s)), defaults) == [Strip(s)]
  {
    SplitWithoutSep(s, '|');
    assert StrippedPieces([s]) == [Strip(s)];
  }

  /** Writing clean ids joined by '|' into the configuration reads back exactly those ids, in order. */
  lemma ProductIdsRoundTrip(ids: seq<string>, defaults: seq<string>)
    requires ids != []
    requires forall k :: 0 <= k < |ids| ==> CleanId(ids[k])
    ensures ProductIdsFromEnv(Some(StrValue(Join(ids, '|'))), defaults) == ids
  {
    var s := Join(ids, '|');
    SplitJoin(ids, '|');
    StrippedCleanPieces(ids);
    assert !AllSpace(s) by {
      JoinStartsWithFirst(ids, '|');
      assert s[0] == ids[0][0];
    }
  }

  /**
   * The setting left unset, as the defaults are written: the reader finds no
   * '|' and returns the whole comma-separated default as one product id
   * instead of five, and its own fallback list is not used either.
   */
  lemma CommaDefaultIsOneId(defaults: seq<string>)
    ensures var written := Join(CoinDefaultIds()["crypto_day_strategy_coins"], ',');
            ProductIdsFromEnv(AttributeAsWritten(map[], "crypto_day_strategy_coins"), defaults) == [Strip(written)]
  {
    var ids := CoinDefaultIds()["crypto_day_strategy_coins"];
    var s := Join(ids, ',');
    JoinAvoids(ids, ',', '|');
    JoinStartsWithFirst(ids, ',');
    assert !IsSpace(s[0]);
    SingleProductId(s, defaults);
  }

  lemma {:induction false} JoinAvoids(ps: seq<string>, sep: char, c: char)
    requires c != sep
    requires forall k :: 0 <= k < |ps| ==> c !in ps[k]
    ensures c !in Join(ps, sep)
  {
    if |ps| > 1 {
      JoinAvoids(ps[1..], sep, c);
    }
  }

  /** With '|'-separated defaults an unset setting reads back exactly its default ids. */
  lemma PipeDefaultsReadBack(name: string, defaults: seq<string>)
    requires name in CoinDefaultIds()
    ensures ProductIdsFromEnv(Attribute(map[], name), defaults) == CoinDefaultIds()[name]
  {
    var ids := CoinDefaultIds()[name];
    forall k | 0 <= k < |ids| ensures CleanId(ids[k]) {
    }
    ProductIdsRoundTrip(ids, defaults);
  }

  lemma JoinStartsWithFirst(ps: seq<string>, sep: char)
    requires ps != [] && ps[0] != []
    ensures Join(ps, sep) != [] && Join(ps, sep)[0] == ps[0][0]
  {
  }

  /** The strategy keys of `_create_strategies_from_env`. */
  const StrategyKeys: set<string> := {"day", "swing", "long"}

  /**
   * A bare strategy word splits into that one word, so the arguments left
   * after it are the empty string, which the commands answer with their usage
   * reply.
   */
  lemma BareStrategyWord()
    ensures Words("day") == ["day"]
    ensures Join(Words("day")[1..], ' ') == ""
  {
    WordsTakeWord("day", []);
    assert "day" + [] == "day";
  }

  /**
   * The head of `crypto_command`: when the first word of `args`, lower-cased,
   * names a strategy it is consumed; otherwise the strategy is "day". In both
   * cases the remaining words are rejoined with single spaces. Empty or
   * missing arguments, and arguments that are only whitespace, are passed on
   * untouched.
   */
  method SplitStrategyArgs(args: Option<string>) returns (strategy: string, rest: Option<string>)
    ensures strategy in StrategyKeys
    ensures args.None? || Words(args.value) == [] ==> strategy == "day" && rest == args
    ensures args.Some? && Words(args.value) != [] ==> var words := Words(args.value);
              if ToLower(words[0]) in StrategyKeys
              then strategy == ToLower(words[0]) && rest == Some(Join(words[1..], ' ')) && Words(rest.value) == words[1..]
              else strategy == "day" && rest == Some(Join(words, ' ')) && Words(rest.value) == words
  {
    strategy := "day";
    rest := args;
    if args.Some? && args.value != "" {
      var parts := Words(args.value);
      if parts != [] {
        var potential := ToLower(parts[0]);
        if potential in StrategyKeys {
          strategy := potential;
          rest := Some(Join(parts[1..], ' '));
          WordsOfJoin(parts[1..]);
        } else {
          rest := Some(Join(parts, ' '));
          WordsOfJoin(parts);
        }
      }
    }
  }

  /** What `add_product` / `remove_product` answer in the channel. */
  datatype Reply = Usage | Added(id: string) | AlreadyPresent(id: string) | Removed(id: string) | NotPresent(id: string)

  /** `args.strip().upper()` */
  function ProductId(args: string): (id: string)
    ensures |id| == |Strip(args)|
    ensures forall i :: 0 <= i < |id| ==> id[i] == UpperChar(Strip(args)[i])
    ensures id == [] <==> AllSpace(args)
  {
    ToUpper(Strip(args))
  }

  /**
   * The `config["PRODUCT_IDS"]` list of one strategy, changed in place by the
   * two commands. The rules are the ones the commands are written with; the
   * cog never builds `strategy_objects`, so in the cog itself the commands
   * fail before they reach them.
   */
  class StrategyProducts {
    var productIds: seq<string>

    constructor (ids: seq<string>)
      ensures productIds == ids
    {
      productIds := ids;
    }

    /** `!crypto add_product [strategy] <product_id>` */
    method AddProduct(args: Option<string>) returns (reply: Reply)
      modifies this
      ensures args.None? || args.value == "" ==> reply == Usage && productIds == old(productIds)
      ensures args.Some? && args.value != "" ==>
                var id := ProductId(args.value);
                && productIds == WithItem(old(productIds), id)
                && reply == (if id in old(productIds) then AlreadyPresent(id) else Added(id))
      ensures NoDuplicates(old(productIds)) ==> NoDuplicates(productIds)
    {
      if args.None? || args.value == "" {
        return Usage;
      }
      var id := ProductId(args.value);
      if id !in productIds {
        productIds := productIds + [id];
        reply := Added(id);
      } else {
        reply := AlreadyPresent(id);
      }
    }

    /** `!crypto remove_product [strategy] <product_id>` */
    method RemoveProduct(args: Option<string>) returns (reply: Reply)
      modifies this
      ensures args.None? || args.value == "" ==> reply == Usage && productIds == old(productIds)
      ensures args.Some? && args.value != "" ==>
                var id := ProductId(args.value);
                && productIds == RemoveFirst(old(productIds), id)
                && reply == (if id in old(productIds) then Removed(id) else NotPresent(id))
      ensures NoDuplicates(old(productIds)) ==> NoDuplicates(productIds)
      ensures args.Some? && args.value != "" && NoDuplicates(old(productIds)) ==> ProductId(args.value) !in productIds
    {
      if args.None? || args.value == "" {
        return Usage;
      }
      var id := ProductId(args.value);
      if id in productIds {
        RemoveFromDistinctIfDistinct(productIds, id);
        productIds := RemoveFirst(productIds, id);
        reply := Removed(id);
      } else {
        RemoveFromDistinctIfDistinct(productIds, id);
        reply := NotPresent(id);
      }
    }
  }

  lemma RemoveFromDistinctIfDistinct(xs: seq<string>, x: string)
    ensures NoDuplicates(xs) ==> x !in RemoveFirst(xs, x) && NoDuplicates(RemoveFirst(xs, x))
  {
    if NoDuplicates(xs) {
      RemoveFromDistinct(xs, x);
    }
  }
}
