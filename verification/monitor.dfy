/**
 * The virtual trader's `SignalMonitor`: once a minute, while running, it asks
 * the scanner for each strategy's signals, orders them strongest first,
 * records each actionable one and trades on it, spending at most the USD
 * balance it read when the batch started.
 */
module Monitor {
  import opened Opt
  import opened Ledger
  import opened Engine
  import opened Strategies

  /**
   * One signal as the scanner reports it. `strength` is `None` when the
   * report has no `signal_strength` entry.
   */
  datatype ScanSignal = ScanSignal(symbol: string, signalType: string, strength: Option<string>)

  /** `signal.get('signal_strength', 'Low')` */
  function StrengthOf(s: ScanSignal): (strength: string)
    ensures s.strength.None? ==> strength == "Low"
    ensures s.strength.Some? ==> strength == s.strength.value
  {
    if s.strength.Some? then s.strength.value else "Low"
  }

  /** The sort key: Strong 3, Medium 2, Low 1, anything else 0. */
  function Rank(s: ScanSignal): (r: nat)
    ensures r <= 3
    ensures s.strength.None? ==> r == 1
    ensures r == 0 <==> StrengthOf(s) != "Strong" && StrengthOf(s) != "Medium" && StrengthOf(s) != "Low"
  {
    var strength := StrengthOf(s);
    if strength == "Strong" then 3
    else if strength == "Medium" then 2
    else if strength == "Low" then 1
    else 0
  }

  /** The signals of rank `k`, in their original order. */
  function WithRank(xs: seq<ScanSignal>, k: nat): (r: seq<ScanSignal>)
    ensures forall i :: 0 <= i < |r| ==> Rank(r[i]) == k
    ensures forall s :: s in r ==> s in xs
  {
    if xs == [] then []
    else (if Rank(xs[0]) == k then [xs[0]] else []) + WithRank(xs[1..], k)
  }

  /**
   * `sorted(signals, key=rank, reverse=True)`: Python's sort is stable, also
   * when reversed, so the result is the rank-3 signals in their original
   * order, then rank 2, rank 1 and rank 0.
   */
  function SortByStrength(xs: seq<ScanSignal>): (r: seq<ScanSignal>)
    ensures forall s :: s in r <==> s in xs
  {
    assert forall s :: s in xs ==> s in WithRank(xs, Rank(s)) by {
      forall s | s in xs ensures s in WithRank(xs, Rank(s)) {
        WithRankKeeps(xs, Rank(s), s);
      }
    }
    WithRank(xs, 3) + WithRank(xs, 2) + WithRank(xs, 1) + WithRank(xs, 0)
  }

  /** Every signal of rank `k` is selected. */
  lemma {:induction false} WithRankKeeps(xs: seq<ScanSignal>, k: nat, s: ScanSignal)
    requires s in xs && Rank(s) == k
    ensures s in WithRank(xs, k)
  {
    if xs[0] != s {
      WithRankKeeps(xs[1..], k, s);
    }
  }

  predicate Descending(xs: seq<ScanSignal>) {
    forall i, j :: 0 <= i < j < |xs| ==> Rank(xs[i]) >= Rank(xs[j])
  }

  lemma {:induction false} WithRankAppend(a: seq<ScanSignal>, b: seq<ScanSignal>, k: nat)
    ensures WithRank(a + b, k) == WithRank(a, k) + WithRank(b, k)
  {
    if a == [] {
      assert a + b == b;
    } else {
      assert (a + b)[0] == a[0];
      assert (a + b)[1..] == a[1..] + b;
      WithRankAppend(a[1..], b, k);
    }
  }

  lemma {:induction false} WithRankOfRanked(xs: seq<ScanSignal>, j: nat, k: nat)
    ensures WithRank(WithRank(xs, j), k) == if j == k then WithRank(xs, j) else []
  {
    if xs != [] {
      WithRankOfRanked(xs[1..], j, k);
      var head := if Rank(xs[0]) == j then [xs[0]] else [];
      WithRankAppend(head, WithRank(xs[1..], j), k);
      if Rank(xs[0]) == j {
        assert WithRank(head, k) == (if j == k then [xs[0]] else []) + WithRank([], k);
      }
    }
  }

  /** A signal occurs in the rank-`k` selection as often as in the input when its rank is `k`, otherwise never. */
  lemma {:induction false} WithRankCount(xs: seq<ScanSignal>, k: nat, x: ScanSignal)
    ensures multiset(WithRank(xs, k))[x] == if Rank(x) == k then multiset(xs)[x] else 0
  {
    if xs != [] {
      WithRankCount(xs[1..], k, x);
      assert xs == [xs[0]] + xs[1..];
    }
  }

  /** The strength order puts the strongest signals first. */
  lemma SortDescending(xs: seq<ScanSignal>)
    ensures Descending(SortByStrength(xs))
  {
    var r := SortByStrength(xs);
    var a, b, c, d := WithRank(xs, 3), WithRank(xs, 2), WithRank(xs, 1), WithRank(xs, 0);
    assert r == a + b + c + d;
    forall i, j | 0 <= i < j < |r| ensures Rank(r[i]) >= Rank(r[j]) {
      assert i < |a| ==> r[i] == a[i];
    }
  }

  /** Sorting neither drops nor duplicates a signal. */
  lemma SortPermutes(xs: seq<ScanSignal>)
    ensures multiset(SortByStrength(xs)) == multiset(xs)
  {
    var a, b, c, d := WithRank(xs, 3), WithRank(xs, 2), WithRank(xs, 1), WithRank(xs, 0);
    assert multiset(SortByStrength(xs)) == multiset(a) + multiset(b) + multiset(c) + multiset(d);
    forall x ensures multiset(SortByStrength(xs))[x] == multiset(xs)[x] {
      WithRankCount(xs, 3, x);
      WithRankCount(xs, 2, x);
      WithRankCount(xs, 1, x);
      WithRankCount(xs, 0, x);
      assert Rank(x) <= 3;
    }
  }

  /** The sort is stable: the signals of each strength keep their relative order. */
  lemma SortStable(xs: seq<ScanSignal>, k: nat)
    ensures WithRank(SortByStrength(xs), k) == WithRank(xs, k)
  {
    var a, b, c, d := WithRank(xs, 3), WithRank(xs, 2), WithRank(xs, 1), WithRank(xs, 0);
    WithRankAppend(a + b + c, d, k);
    WithRankAppend(a + b, c, k);
    WithRankAppend(a, b, k);
    WithRankOfRanked(xs, 3, k);
    WithRankOfRanked(xs, 2, k);
    WithRankOfRanked(xs, 1, k);
    WithRankOfRanked(xs, 0, k);
    if k > 3 {
      WithRankNone(xs, k);
    }
  }

  lemma {:induction false} WithRankNone(xs: seq<ScanSignal>, k: nat)
    requires k > 3
    ensures WithRank(xs, k) == []
  {
    if xs != [] {
      WithRankNone(xs[1..], k);
    }
  }

  /** A price lookup: `get_current_price`, `None` when the request fails. */
  type Quote = string -> Option<real>

  /** `if not current_price: continue` also skips a price of exactly zero. */
  predicate PriceUsable(p: Option<real>) {
    p.Some? && p.value != 0.0
  }

  /** A signal the batch records and may trade on. */
  predicate Actionable(quote: Quote, s: ScanSignal) {
    (s.signalType == "BUY" || s.signalType == "SELL") && PriceUsable(quote(s.symbol))
  }

  /** `f"{strategy_key}_{coin_symbol}_{stamp}"` */
  function SignalId(key: string, symbol: string, stamp: string): string {
    key + "_" + symbol + "_" + stamp
  }

  function MinReal(a: real, b: real): real {
    if a <= b then a else b
  }

  /** The tables and the USD still unallocated in the batch. */
  datatype Progress = Progress(tables: Tables, remaining: real)

  /** The BUY branch: size the trade on the unallocated USD and buy `size / price` coins. */
  function BuyLeg(key: string, id: string, p: Progress, symbol: string, strength: string, price: real): (r: Progress)
    requires price != 0.0
    ensures r.tables.signals == p.tables.signals
    ensures r.remaining == p.remaining ==> r == p
    ensures r.remaining != p.remaining ==>
              && 0.0 < r.remaining < p.remaining
              && Balance(r.tables, BASE) == Balance(p.tables, BASE) - (p.remaining - r.remaining)
  {
    if p.remaining > 0.0 then
      var size := TradeSize(strength, p.remaining);
      if size <= p.remaining then
        var bought := Buy(p.tables, symbol, size / price, price, key, Some(id));
        QuotientTimesDivisor(size, price);
        Progress(bought.after, if bought.ok then p.remaining - size else p.remaining)
      else p
    else p
  }

  /** The SELL branch: size the trade on the coin balance and sell at most that balance. */
  function SellLeg(key: string, id: string, p: Progress, symbol: string, strength: string, price: real): (r: Progress)
    ensures r.remaining == p.remaining && r.tables.signals == p.tables.signals
    ensures Balance(p.tables, symbol) <= 0.0 || symbol == BASE ==> r == p
    ensures Balance(p.tables, symbol) > 0.0 && symbol != BASE ==>
              0.0 < Balance(r.tables, symbol) < Balance(p.tables, symbol)
  {
    var balance := Balance(p.tables, symbol);
    if balance > 0.0 then
      var size := TradeSize(strength, balance);
      Progress(Sell(p.tables, symbol, MinReal(size, balance), price, key, Some(id)).after, p.remaining)
    else p
  }

  /** The row `save_signal` writes for an actionable signal. */
  function Record(key: string, s: ScanSignal, price: real): SignalRecord {
    SignalRecord(key, s.symbol, s.signalType, StrengthOf(s), price)
  }

  /** One pass of the batch loop over signal `s`. */
  function Step(key: string, quote: Quote, stamp: string, p: Progress, s: ScanSignal): (r: Progress)
    ensures !Actionable(quote, s) ==> r == p
    ensures r.remaining == p.remaining || 0.0 < r.remaining < p.remaining
  {
    if !Actionable(quote, s) then p
    else
      var price := quote(s.symbol).value;
      var id := SignalId(key, s.symbol, stamp);
      var saved := Progress(p.tables.(signals := p.tables.signals + [Record(key, s, price)]), p.remaining);
      if s.signalType == "BUY" && p.remaining > 0.0 then BuyLeg(key, id, saved, s.symbol, StrengthOf(s), price)
      else if s.signalType == "SELL" then SellLeg(key, id, saved, s.symbol, StrengthOf(s), price)
      else saved
  }

  /** The loop over the signals `ss`, in the order given. */
  function Steps(key: string, quote: Quote, stamp: string, p: Progress, ss: seq<ScanSignal>): (r: Progress)
    ensures r.remaining <= p.remaining
    ensures p.remaining > 0.0 ==> r.remaining > 0.0
    decreases |ss|
  {
    if ss == [] then p else Steps(key, quote, stamp, Step(key, quote, stamp, p, ss[0]), ss[1..])
  }

  /** `_process_strategy_signals`: the tables after one strategy's batch. */
  function Batch(key: string, quote: Quote, stamp: string, t: Tables, signals: seq<ScanSignal>): (after: Tables)
    ensures after.signals == t.signals + Recorded(key, quote, SortByStrength(signals))
    ensures && |t.transactions| <= |after.transactions|
            && after.transactions[..|t.transactions|] == t.transactions
            && MatchedPairs(after.transactions[|t.transactions|..])
            && TaggedWith(after.transactions[|t.transactions|..], key)
  {
    var start := Progress(t, Balance(t, BASE));
    StepsRecord(key, quote, stamp, start, SortByStrength(signals));
    StepsAppendPairs(key, quote, stamp, start, SortByStrength(signals));
    Steps(key, quote, stamp, start, SortByStrength(signals)).tables
  }

  /** The signal rows a batch over `ss` records: one per actionable signal, in order. */
  function Recorded(key: string, quote: Quote, ss: seq<ScanSignal>): seq<SignalRecord>
    decreases |ss|
  {
    if ss == [] then []
    else
      var s := ss[0];
      (if Actionable(quote, s) then [Record(key, s, quote(s.symbol).value)] else []) + Recorded(key, quote, ss[1..])
  }

  /** Every actionable signal is recorded, before and whatever the outcome of its trade. */
  lemma {:induction false} StepsRecord(key: string, quote: Quote, stamp: string, p: Progress, ss: seq<ScanSignal>)
    ensures Steps(key, quote, stamp, p, ss).tables.signals == p.tables.signals + Recorded(key, quote, ss)
    decreases |ss|
  {
    if ss != [] {
      var p1 := Step(key, quote, stamp, p, ss[0]);
      StepsRecord(key, quote, stamp, p1, ss[1..]);
    }
  }

  /** A batch with no actionable signal changes nothing. */
  lemma {:induction false} StepsIdle(key: string, quote: Quote, stamp: string, p: Progress, ss: seq<ScanSignal>)
    requires forall i :: 0 <= i < |ss| ==> !Actionable(quote, ss[i])
    ensures Steps(key, quote, stamp, p, ss) == p
    decreases |ss|
  {
    if ss != [] {
      assert !Actionable(quote, ss[0]);
      StepsIdle(key, quote, stamp, p, ss[1..]);
    }
  }

  lemma BatchIdle(key: string, quote: Quote, stamp: string, t: Tables, signals: seq<ScanSignal>)
    requires forall s :: s in signals ==> !Actionable(quote, s)
    ensures Batch(key, quote, stamp, t, signals) == t
  {
    var sorted := SortByStrength(signals);
    SortPermutes(signals);
    forall i | 0 <= i < |sorted| ensures !Actionable(quote, sorted[i]) {
      assert sorted[i] in multiset(signals);
    }
    StepsIdle(key, quote, stamp, Progress(t, Balance(t, BASE)), sorted);
  }

  /** The USD a log records as spent: the sum of its SPEND rows. */
  function Spent(txs: seq<Transaction>): real
    decreases |txs|
  {
    if txs == [] then 0.0
    else Spent(txs[..|txs| - 1]) + (if txs[|txs| - 1].kind == SPEND then txs[|txs| - 1].totalValue else 0.0)
  }

  lemma SpentAppendPair(txs: seq<Transaction>, a: Transaction, b: Transaction)
    ensures Spent(txs + [a, b]) == Spent(txs) + (if a.kind == SPEND then a.totalValue else 0.0)
                                               + (if b.kind == SPEND then b.totalValue else 0.0)
  {
    assert (txs + [a, b])[..|txs| + 1] == txs + [a];
    assert (txs + [a])[..|txs|] == txs;
  }

  function Unspent(remaining: real): real {
    if remaining > 0.0 then remaining else 0.0
  }

  /** A buy adds its cost to the spent total; a sell adds nothing. */
  lemma TradesSpend(t: Tables, symbol: string, amount: real, price: real, strategy: string,
                    signalId: Option<string>)
    ensures var r := Buy(t, symbol, amount, price, strategy, signalId);
            Spent(r.after.transactions) == Spent(t.transactions) + (if r.ok then amount * price else 0.0)
    ensures Spent(Sell(t, symbol, amount, price, strategy, signalId).after.transactions) == Spent(t.transactions)
  {
    var value := amount * price;
    SpentAppendPair(t.transactions,
      Transaction(symbol, BUY, amount, price, value, strategy, signalId),
      Transaction(BASE, SPEND, value, 1.0, value, strategy, signalId));
    SpentAppendPair(t.transactions,
      Transaction(symbol, SELL, amount, price, value, strategy, signalId),
      Transaction(BASE, RECEIVE, value, 1.0, value, strategy, signalId));
  }

  lemma BuyLegConservesBudget(key: string, id: string, p: Progress, symbol: string, strength: string, price: real)
    requires price != 0.0
    ensures var q := BuyLeg(key, id, p, symbol, strength, price);
            Spent(q.tables.transactions) + Unspent(q.remaining)
            == Spent(p.tables.transactions) + Unspent(p.remaining)
  {
    if p.remaining > 0.0 {
      var size := TradeSize(strength, p.remaining);
      if size <= p.remaining {
        BuyWithinRemaining(p.tables, symbol, size, price, key, id, p.remaining);
      }
    }
  }

  /** A buy costing `size` either moves `size` from the remaining budget into SPEND rows or changes neither. */
  lemma BuyWithinRemaining(t: Tables, symbol: string, size: real, price: real, key: string, id: string, remaining: real)
    requires price != 0.0 && 0.0 <= size <= remaining
    ensures var bought := Buy(t, symbol, size / price, price, key, Some(id));
            Spent(bought.after.transactions) + Unspent(if bought.ok then remaining - size else remaining)
            == Spent(t.transactions) + Unspent(remaining)
  {
    TradesSpend(t, symbol, size / price, price, key, Some(id));
    QuotientTimesDivisor(size, price);
  }

  lemma QuotientTimesDivisor(x: real, y: real)
    requires y != 0.0
    ensures x / y * y == x
  {
  }

  lemma SellLegConservesBudget(key: string, id: string, p: Progress, symbol: string, strength: string, price: real)
    ensures var q := SellLeg(key, id, p, symbol, strength, price);
            Spent(q.tables.transactions) == Spent(p.tables.transactions) && q.remaining == p.remaining
  {
    var balance := Balance(p.tables, symbol);
    TradesSpend(p.tables, symbol, MinReal(TradeSize(strength, balance), balance), price, key, Some(id));
  }

  /**
   * One step moves USD from the unallocated budget into SPEND rows and
   * nowhere else: spent plus unallocated stays the same.
   */
  lemma StepConservesBudget(key: string, quote: Quote, stamp: string, p: Progress, s: ScanSignal)
    ensures var q := Step(key, quote, stamp, p, s);
            Spent(q.tables.transactions) + Unspent(q.remaining)
            == Spent(p.tables.transactions) + Unspent(p.remaining)
  {
    if Actionable(quote, s) {
      var price := quote(s.symbol).value;
      var id := SignalId(key, s.symbol, stamp);
      var saved := Progress(p.tables.(signals := p.tables.signals + [Record(key, s, price)]), p.remaining);
      BuyLegConservesBudget(key, id, saved, s.symbol, StrengthOf(s), price);
      SellLegConservesBudget(key, id, saved, s.symbol, StrengthOf(s), price);
    }
  }

  lemma {:induction false} StepsConserveBudget(key: string, quote: Quote, stamp: string, p: Progress, ss: seq<ScanSignal>)
    ensures var q := Steps(key, quote, stamp, p, ss);
            Spent(q.tables.transactions) + Unspent(q.remaining)
            == Spent(p.tables.transactions) + Unspent(p.remaining)
    decreases |ss|
  {
    if ss != [] {
      StepConservesBudget(key, quote, stamp, p, ss[0]);
      StepsConserveBudget(key, quote, stamp, Step(key, quote, stamp, p, ss[0]), ss[1..]);
    }
  }

  /**
   * The purpose of `remaining_usd`: one batch never spends more USD than the
   * balance it read when it started (nothing at all when that balance is not
   * positive), however many BUY signals it sees.
   */
  lemma BatchSpendsWithinBudget(key: string, quote: Quote, stamp: string, t: Tables, signals: seq<ScanSignal>)
    ensures Spent(Batch(key, quote, stamp, t, signals).transactions)
            <= Spent(t.transactions) + Unspent(Balance(t, BASE))
  {
    StepsConserveBudget(key, quote, stamp, Progress(t, Balance(t, BASE)), SortByStrength(signals));
  }

  /** Prices are never negative: what the price feed returns for real coins. */
  ghost predicate NonNegativePrices(quote: Quote) {
    forall sym :: quote(sym).Some? ==> quote(sym).value >= 0.0
  }

  lemma StepKeepsNonNegative(key: string, quote: Quote, stamp: string, p: Progress, s: ScanSignal)
    requires NonNegative(p.tables) && NonNegativePrices(quote)
    ensures NonNegative(Step(key, quote, stamp, p, s).tables)
  {
    if Actionable(quote, s) {
      var price := quote(s.symbol).value;
      var id := Some(SignalId(key, s.symbol, stamp));
      var saved := p.tables.(signals := p.tables.signals + [Record(key, s, price)]);
      assert NonNegative(saved);
      var size := TradeSize(StrengthOf(s), p.remaining);
      if p.remaining > 0.0 {
        assert size / price >= 0.0;
        BuyKeepsNonNegative(saved, s.symbol, size / price, price, key, id);
      }
      var balance := Balance(saved, s.symbol);
      if balance > 0.0 {
        SellKeepsNonNegative(saved, s.symbol, MinReal(TradeSize(StrengthOf(s), balance), balance), price, key, id);
      }
    }
  }

  lemma {:induction false} StepsKeepNonNegative(key: string, quote: Quote, stamp: string, p: Progress, ss: seq<ScanSignal>)
    requires NonNegative(p.tables) && NonNegativePrices(quote)
    ensures NonNegative(Steps(key, quote, stamp, p, ss).tables)
    decreases |ss|
  {
    if ss != [] {
      StepKeepsNonNegative(key, quote, stamp, p, ss[0]);
      StepsKeepNonNegative(key, quote, stamp, Step(key, quote, stamp, p, ss[0]), ss[1..]);
    }
  }

  /** With non-negative prices a batch keeps every balance non-negative. */
  lemma BatchKeepsNonNegative(key: string, quote: Quote, stamp: string, t: Tables, signals: seq<ScanSignal>)
    requires NonNegative(t) && NonNegativePrices(quote)
    ensures NonNegative(Batch(key, quote, stamp, t, signals))
  {
    StepsKeepNonNegative(key, quote, stamp, Progress(t, Balance(t, BASE)), SortByStrength(signals));
  }

  /** Each step appends nothing or one matched pair of rows tagged with the strategy key. */
  lemma StepAppendsPair(key: string, quote: Quote, stamp: string, p: Progress, s: ScanSignal)
    ensures var before := p.tables.transactions;
            var after := Step(key, quote, stamp, p, s).tables.transactions;
            || after == before
            || (&& |after| == |before| + 2
                && after[..|before|] == before
                && MatchedPair(after[|before|], after[|before| + 1])
                && after[|before|].strategy == key)
  {
    if Actionable(quote, s) {
      var price := quote(s.symbol).value;
      var id := Some(SignalId(key, s.symbol, stamp));
      var saved := p.tables.(signals := p.tables.signals + [Record(key, s, price)]);
      var size := TradeSize(StrengthOf(s), p.remaining);
      ApplyAppendsPair(saved, BuyOrder(s.symbol, size / price, price, key, id));
      var balance := Balance(saved, s.symbol);
      ApplyAppendsPair(saved, SellOrder(s.symbol, MinReal(TradeSize(StrengthOf(s), balance), balance), price, key, id));
    }
  }

  /** Rows that all carry the strategy key. */
  predicate TaggedWith(txs: seq<Transaction>, key: string) {
    forall i :: 0 <= i < |txs| ==> txs[i].strategy == key
  }

  /** A batch keeps the old log as a prefix and appends matched pairs tagged with its strategy. */
  lemma {:induction false} StepsAppendPairs(key: string, quote: Quote, stamp: string, p: Progress, ss: seq<ScanSignal>)
    ensures var before := p.tables.transactions;
            var after := Steps(key, quote, stamp, p, ss).tables.transactions;
            && |before| <= |after|
            && after[..|before|] == before
            && MatchedPairs(after[|before|..])
            && TaggedWith(after[|before|..], key)
    decreases |ss|
  {
    var before := p.tables.transactions;
    var n := |before|;
    var after := Steps(key, quote, stamp, p, ss).tables.transactions;
    if ss == [] {
      assert after[n..] == [];
    } else {
      var p1 := Step(key, quote, stamp, p, ss[0]);
      StepAppendsPair(key, quote, stamp, p, ss[0]);
      StepsAppendPairs(key, quote, stamp, p1, ss[1..]);
      var mid := p1.tables.transactions;
      if mid != before {
        var tail := after[n..];
        assert after[..n] == mid[..n];
        assert tail[0] == mid[n] && tail[1] == mid[n + 1];
        assert tail[2..] == after[n + 2..];
        assert mid[n + 1].strategy == key;
      }
    }
  }

  /** The scanner for one strategy: its signals, or `None` when it raises. */
  type Scanner = StrategyConfig -> Option<seq<ScanSignal>>

  /** One strategy's turn: a batch when its scan succeeds with at least one signal, otherwise nothing. */
  function Visit(r: Registry, scan: Scanner, quote: Quote, stamp: string, t: Tables, k: string): Tables {
    if k in r && scan(r[k]).Some? && scan(r[k]).value != [] then Batch(k, quote, stamp, t, scan(r[k]).value) else t
  }

  /**
   * `process_signals` while running: each strategy in turn, a batch when its
   * scan succeeds with at least one signal; a failing scan skips the strategy.
   */
  function Round(r: Registry, scan: Scanner, quote: Quote, stamp: string, t: Tables, keys: seq<string>): (after: Tables)
    ensures |t.transactions| <= |after.transactions| && after.transactions[..|t.transactions|] == t.transactions
    ensures |t.signals| <= |after.signals| && after.signals[..|t.signals|] == t.signals
    decreases |keys|
  {
    if keys == [] then t
    else
      var next := Visit(r, scan, quote, stamp, t, keys[0]);
      var after := Round(r, scan, quote, stamp, next, keys[1..]);
      assert after.transactions[..|t.transactions|] == next.transactions[..|t.transactions|];
      assert after.signals[..|t.signals|] == next.signals[..|t.signals|];
      after
  }

  /** With non-negative prices a whole round keeps every balance non-negative. */
  lemma {:induction false} RoundKeepsNonNegative(r: Registry, scan: Scanner, quote: Quote, stamp: string, t: Tables,
                                                 keys: seq<string>)
    requires NonNegative(t) && NonNegativePrices(quote)
    ensures NonNegative(Round(r, scan, quote, stamp, t, keys))
    decreases |keys|
  {
    if keys != [] {
      var k := keys[0];
      if k in r && scan(r[k]).Some? && scan(r[k]).value != [] {
        BatchKeepsNonNegative(k, quote, stamp, t, scan(r[k]).value);
      }
      RoundKeepsNonNegative(r, scan, quote, stamp, Visit(r, scan, quote, stamp, t, k), keys[1..]);
    }
  }

  /** `SignalMonitor`, acting on the ledger store it shares with the trading engine. */
  class SignalMonitor {
    const manager: StrategyManager
    const engine: TradingEngine
    const db: Database
    var isRunning: bool

    constructor (manager: StrategyManager, engine: TradingEngine, db: Database)
      ensures this.manager == manager && this.engine == engine && this.db == db
      ensures !isRunning
    {
      this.manager := manager;
      this.engine := engine;
      this.db := db;
      isRunning := false;
    }

    /** `start` */
    method Start()
      modifies this
      ensures isRunning
    {
      isRunning := true;
    }

    /** `stop` */
    method Stop()
      modifies this
      ensures !isRunning
    {
      isRunning := false;
    }

    /** One pass of the loop in `_process_strategy_signals`, over signal `s` with `remaining` USD unallocated. */
    method ProcessSignal(key: string, s: ScanSignal, quote: Quote, stamp: string, remaining: real) returns (left: real)
      requires engine.db == db
      modifies db
      ensures Progress(db.State(), left) == Step(key, quote, stamp, Progress(old(db.State()), remaining), s)
    {
      left := remaining;
      if s.signalType == "BUY" || s.signalType == "SELL" {
        var price := quote(s.symbol);
        if price.Some? && price.value != 0.0 {
          var strength := StrengthOf(s);
          var id := SignalId(key, s.symbol, stamp);
          db.SaveSignal(Record(key, s, price.value));
          ghost var saved := Progress(db.State(), remaining);
          if s.signalType == "BUY" && remaining > 0.0 {
            var size := TradeSize(strength, remaining);
            if size <= remaining {
              var amount := size / price.value;
              var ok := engine.ExecuteBuy(s.symbol, amount, price.value, key, Some(id));
              if ok {
                left := remaining - size;
              }
            }
            assert Progress(db.State(), left) == BuyLeg(key, id, saved, s.symbol, strength, price.value);
          } else if s.signalType == "SELL" {
            var coinBalance := db.GetCoinBalance(s.symbol);
            if coinBalance > 0.0 {
              var size := TradeSize(strength, coinBalance);
              var amount := MinReal(size, coinBalance);
              var _ := engine.ExecuteSell(s.symbol, amount, price.value, key, Some(id));
            }
            assert Progress(db.State(), left) == SellLeg(key, id, saved, s.symbol, strength, price.value);
          }
        }
      }
    }

    /** `_process_strategy_signals` */
    method ProcessStrategySignals(key: string, signals: seq<ScanSignal>, quote: Quote, stamp: string)
      requires engine.db == db
      modifies db
      ensures db.State() == Batch(key, quote, stamp, old(db.State()), signals)
    {
      var usdBalance := db.GetCoinBalance(BASE);
      var sorted := SortByStrength(signals);
      var remaining := usdBalance;
      ghost var start := Progress(db.State(), usdBalance);
      var i := 0;
      while i < |sorted|
        invariant 0 <= i <= |sorted|
        invariant Steps(key, quote, stamp, Progress(db.State(), remaining), sorted[i..])
                  == Steps(key, quote, stamp, start, sorted)
      {
        var s := sorted[i];
        remaining := ProcessSignal(key, s, quote, stamp, remaining);
        assert sorted[i..] == [s] + sorted[i + 1..];
        i := i + 1;
      }
    }

    /** `process_signals`: a no-op when stopped, otherwise one round over the strategies. */
    method ProcessSignals(scan: Scanner, quote: Quote, stamp: string)
      requires engine.db == db
      requires manager.Valid()
      modifies db
      ensures !isRunning ==> db.State() == old(db.State())
      ensures isRunning ==> db.State() == Round(manager.strategies, scan, quote, stamp, old(db.State()), STRATEGY_ORDER)
    {
      if !isRunning {
        return;
      }
      var keys := STRATEGY_ORDER;
      var i := 0;
      while i < |keys|
        invariant 0 <= i <= |keys|
        invariant Round(manager.strategies, scan, quote, stamp, db.State(), keys[i..])
                  == Round(manager.strategies, scan, quote, stamp, old(db.State()), keys)
      {
        var k := keys[i];
        ghost var before := db.State();
        if k in manager.strategies {
          var signals := scan(manager.strategies[k]);
          if signals.Some? && signals.value != [] {
            ProcessStrategySignals(k, signals.value, quote, stamp);
          }
        }
        assert db.State() == Visit(manager.strategies, scan, quote, stamp, before, k);
        assert keys[i..][0] == k && keys[i..][1..] == keys[i + 1..];
        i := i + 1;
      }
    }
  }
}
