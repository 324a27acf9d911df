/**
 * `Config.from_dict` (utils/config.py): every environment entry is stored
 * under a normalised field name, and a value made only of decimal digits is
 * converted to an integer.
 */
module Config {
  import opened Opt
  import opened Text

  /** A stored configuration value: `int(v)` or the string `v` itself. */
  datatype ConfigValue = IntValue(n: nat) | StrValue(s: string)

  /**
   * The environment-name to field-name rule, with its two explicit cases;
   * both agree with lower-casing, so every key is simply lower-cased.
   */
  function NormaliseKey(k: string): (field: string)
    ensures field == ToLower(k)
  {
    if k == "REQUEST_CHANNEL_NAME" then
      LowerOfConstant(k, "request_channel_name");
      "request_channel_name"
    else if k == "REQUEST_CHANNEL_PURGE_HOURS" then
      LowerOfConstant(k, "request_channel_purge_hours");
      "request_channel_purge_hours"
    else ToLower(k)
  }

  lemma LowerOfConstant(k: string, lower: string)
    requires |k| == |lower|
    requires forall i :: 0 <= i < |k| ==> LowerChar(k[i]) == lower[i]
    ensures ToLower(k) == lower
  {
  }

  predicate IsDigit(c: char) {
    '0' <= c <= '9'
  }

  /** `v.isdigit()`: non-empty and every character a decimal digit. */
  predicate IsDigits(v: string) {
    v != [] && forall i :: 0 <= i < |v| ==> IsDigit(v[i])
  }

  function DigitValue(c: char): (d: nat)
    requires IsDigit(c)
    ensures d < 10
  {
    c as int - '0' as int
  }

  function DigitChar(d: nat): (c: char)
    requires d < 10
    ensures IsDigit(c)
  {
    ('0' as int + d) as char
  }

  /** `int(v)` for a string of decimal digits (leading zeros allowed). */
  function DecimalValue(v: string): nat
    requires forall i :: 0 <= i < |v| ==> IsDigit(v[i])
  {
    if v == [] then 0
    else DecimalValue(v[..|v| - 1]) * 10 + DigitValue(v[|v| - 1])
  }

  /** `str(n)` for a natural number. */
  function DecimalString(n: nat): (v: string)
    ensures IsDigits(v)
    ensures |v| == 1 || v[0] != '0'
  {
    if n < 10 then [DigitChar(n)] else DecimalString(n / 10) + [DigitChar(n % 10)]
  }

  /** The value conversion of `from_dict`. */
  function ConvertValue(v: string): (c: ConfigValue)
    ensures c.IntValue? <==> IsDigits(v)
    ensures c.StrValue? ==> c.s == v
    ensures c.IntValue? && (|v| == 1 || v[0] != '0') ==> DecimalString(c.n) == v
  {
    if IsDigits(v) then
      if |v| == 1 || v[0] != '0' then RenderParsed(v); IntValue(DecimalValue(v))
      else IntValue(DecimalValue(v))
    else StrValue(v)
  }

  /** A string that is not all digits (empty, signed, decimal point, ...) is kept verbatim. */
  lemma NonDigitsStayStrings(v: string)
    requires v == [] || exists i :: 0 <= i < |v| && !IsDigit(v[i])
    ensures ConvertValue(v) == StrValue(v)
  {
  }

  /** Parsing the decimal rendering of a number gives the number back. */
  lemma {:induction false} ParseRendered(n: nat)
    ensures DecimalValue(DecimalString(n)) == n
  {
    if n >= 10 {
      var v := DecimalString(n);
      ParseRendered(n / 10);
      assert v[..|v| - 1] == DecimalString(n / 10);
    }
  }

  /** A digit string that does not start with '0' has a positive value. */
  lemma {:induction false} LeadingDigitPositive(v: string)
    requires IsDigits(v) && v[0] != '0'
    ensures DecimalValue(v) > 0
  {
    if |v| > 1 {
      LeadingDigitPositive(v[..|v| - 1]);
    }
  }

  /** Rendering a stored integer gives back the digit string it came from, when that string has no leading zero. */
  lemma {:induction false} RenderParsed(v: string)
    requires IsDigits(v)
    requires |v| == 1 || v[0] != '0'
    ensures DecimalString(DecimalValue(v)) == v
  {
    if |v| > 1 {
      var p := v[..|v| - 1];
      LeadingDigitPositive(p);
      RenderParsed(p);
      var n := DecimalValue(v);
      assert n / 10 == DecimalValue(p);
      assert v == p + [v[|v| - 1]];
    }
  }

  /** Converting the rendering of a number stores that number. */
  lemma ConvertRendered(n: nat)
    ensures ConvertValue(DecimalString(n)) == IntValue(n)
  {
    ParseRendered(n);
  }

  /** Each environment entry with its field name normalised and its value converted. */
  function Normalised(pairs: seq<(string, string)>): (entries: seq<(string, ConfigValue)>)
    ensures |entries| == |pairs|
    ensures forall i :: 0 <= i < |pairs| ==>
              entries[i].0 == ToLower(pairs[i].0) && entries[i].1 == ConvertValue(pairs[i].1)
  {
    seq(|pairs|, i requires 0 <= i < |pairs| => (NormaliseKey(pairs[i].0), ConvertValue(pairs[i].1)))
  }

  /**
   * The keyword arguments after storing `entries` in order: a later field
   * overwrites an earlier one, and the fields are exactly the entries' keys.
   */
  function Store(entries: seq<(string, ConfigValue)>): (fields: map<string, ConfigValue>)
    ensures fields.Keys == set i | 0 <= i < |entries| :: entries[i].0
    decreases |entries|
  {
    if entries == [] then map[]
    else
      var init := entries[..|entries| - 1];
      var last := entries[|entries| - 1];
      assert (set i | 0 <= i < |entries| :: entries[i].0)
             == (set i | 0 <= i < |init| :: init[i].0) + {last.0} by {
        forall i | 0 <= i < |init| ensures init[i] == entries[i] {
        }
      }
      Store(init)[last.0 := last.1]
  }

  /** Entry `i` is the last one for its field. */
  predicate LastWriter(entries: seq<(string, ConfigValue)>, i: nat)
    requires i < |entries|
  {
    forall j :: i < j < |entries| ==> entries[j].0 != entries[i].0
  }

  /** The value stored under a field is the value of the last entry for that field. */
  lemma {:induction false} StoreLastWins(entries: seq<(string, ConfigValue)>, i: nat)
    requires i < |entries| && LastWriter(entries, i)
    ensures entries[i].0 in Store(entries)
    ensures Store(entries)[entries[i].0] == entries[i].1
    decreases |entries|
  {
    var n := |entries| - 1;
    if i < n {
      var init := entries[..n];
      assert init[i] == entries[i];
      assert LastWriter(init, i) by {
        forall j | i < j < |init| ensures init[j].0 != init[i].0 {
          assert init[j] == entries[j];
        }
      }
      StoreLastWins(init, i);
    }
  }

  /**
   * `from_dict`'s loop over `kwargs.items()`, given as the sequence of pairs in
   * iteration order; returns the keyword arguments passed to `Config(...)`.
   */
  method FromDict(pairs: seq<(string, string)>) returns (fields: map<string, ConfigValue>)
    ensures fields == Store(Normalised(pairs))
  {
    ghost var entries := Normalised(pairs);
    fields := map[];
    for n := 0 to |pairs|
      invariant fields == Store(entries[..n])
    {
      var (k, v) := pairs[n];
      var newKey := NormaliseKey(k);
      if IsDigits(v) {
        fields := fields[newKey := IntValue(DecimalValue(v))];
      } else {
        fields := fields[newKey := StrValue(v)];
      }
      assert entries[..n + 1][..n] == entries[..n];
    }
    assert entries[..|pairs|] == entries;
  }

  /**
   * The product ids behind the dataclass defaults of the three strategy-coin
   * settings that the `CryptoCommands` cog reads.
   */
  function CoinDefaultIds(): map<string, seq<string>> {
    map[
      "crypto_day_strategy_coins" := ["AVAX-USD", "SOL-USD", "ADA-USD", "GRT-USD", "CRV-USD"],
      "crypto_swing_strategy_coins" := ["MATIC-USD", "QNT-USD", "LCX-USD"],
      "crypto_long_strategy_coins" := ["AVAX-USD", "CHZ-USD", "ICP-USD"]]
  }

  /** The dataclass default of a strategy-coin setting, its ids joined by `sep`. */
  function CoinDefault(name: string, sep: char): (v: Option<ConfigValue>)
    ensures v.Some? <==> name in CoinDefaultIds()
  {
    if name in CoinDefaultIds() then Some(StrValue(Join(CoinDefaultIds()[name], sep))) else None
  }

  /**
   * `getattr(config, name, None)` for a strategy-coin setting whose default
   * is written with separator `sep`: a value from the environment wins;
   * otherwise the default.
   */
  function GetAttr(fields: map<string, ConfigValue>, name: string, sep: char): (v: Option<ConfigValue>)
    ensures name in fields ==> v == Some(fields[name])
    ensures name !in fields ==> v == CoinDefault(name, sep)
  {
    if name in fields then Some(fields[name]) else CoinDefault(name, sep)
  }

  /** The lookup as the defaults are written: comma-separated. */
  function AttributeAsWritten(fields: map<string, ConfigValue>, name: string): Option<ConfigValue> {
    GetAttr(fields, name, ',')
  }

  /** The lookup with the defaults in the '|'-separated form the product-id reader splits on. */
  function Attribute(fields: map<string, ConfigValue>, name: string): Option<ConfigValue> {
    GetAttr(fields, name, '|')
  }
}
