/**
 * The virtual trader's ledger store (`DatabaseManager`): the `portfolio`,
 * `transactions` and `signals` tables, held in memory. Rows are kept in
 * insertion order; reading them back newest first is modelled as reverse
 * insertion order.
 */
module Ledger {
  import opened Opt

  /** The base currency: the counter-leg of every trade, never traded itself. */
  const BASE: string := "USD"

  /** The balance the base currency is seeded with on first start. */
  const INITIAL_USD: real := 10000.0

  /** The `transaction_type` column. */
  datatype TxKind = BUY | SELL | SPEND | RECEIVE | INITIAL

  /** A row of `transactions`. */
  datatype Transaction = Transaction(
    symbol: string,
    kind: TxKind,
    amount: real,
    price: real,
    totalValue: real,
    strategy: string,
    signalId: Option<string>)

  /** A row of `signals` as `save_signal` writes it: the signal id is not stored. */
  datatype SignalRecord = SignalRecord(
    strategyName: string,
    symbol: string,
    signalType: string,
    strength: string,
    price: real)

  /** The three tables; `portfolio` has one row per symbol. */
  datatype Tables = Tables(
    portfolio: map<string, real>,
    transactions: seq<Transaction>,
    signals: seq<SignalRecord>)

  const EMPTY: Tables := Tables(map[], [], [])

  /** `get_coin_balance`: the stored amount, 0 for a symbol without a row. */
  function Balance(t: Tables, symbol: string): real {
    if symbol in t.portfolio then t.portfolio[symbol] else 0.0
  }

  /** The row `log_transaction` inserts, with its computed `total_value`. */
  function Entry(symbol: string, kind: TxKind, amount: real, price: real, strategy: string,
                 signalId: Option<string>): Transaction
  {
    Transaction(symbol, kind, amount, price, amount * price, strategy, signalId)
  }

  /** The transaction the first-time setup logs. */
  const INITIAL_ENTRY: Transaction := Entry(BASE, INITIAL, INITIAL_USD, 1.0, "SYSTEM", Some("initial_setup"))

  /** `_initialize_portfolio`: seeds the base currency only when it has no row yet. */
  function Seed(t: Tables): (r: Tables)
    ensures BASE in r.portfolio && r.signals == t.signals
    ensures BASE in t.portfolio ==> r == t
    ensures BASE !in t.portfolio ==>
              Balance(r, BASE) == INITIAL_USD && r.transactions == t.transactions + [INITIAL_ENTRY]
    ensures forall s :: s != BASE ==> Balance(r, s) == Balance(t, s)
  {
    if BASE in t.portfolio then t
    else t.(portfolio := t.portfolio[BASE := INITIAL_USD], transactions := t.transactions + [INITIAL_ENTRY])
  }

  predicate NonNegative(t: Tables) {
    forall s :: s in t.portfolio ==> t.portfolio[s] >= 0.0
  }

  /** Number of INITIAL rows in a transaction log. */
  function CountInitial(txs: seq<Transaction>): nat {
    if txs == [] then 0
    else CountInitial(txs[..|txs| - 1]) + (if txs[|txs| - 1].kind == INITIAL then 1 else 0)
  }

  /** Seeding twice is seeding once, and it never adds more than one INITIAL row. */
  lemma SeedIdempotent(t: Tables)
    ensures Seed(Seed(t)) == Seed(t)
    ensures CountInitial(Seed(t).transactions) ==
              CountInitial(t.transactions) + (if BASE in t.portfolio then 0 else 1)
  {
    if BASE !in t.portfolio {
      var txs := t.transactions + [INITIAL_ENTRY];
      assert txs[..|txs| - 1] == t.transactions;
    }
  }

  /** A first start on empty tables leaves USD = 10000 and exactly one INITIAL row, however often it is repeated. */
  lemma FirstStart()
    ensures Seed(EMPTY).portfolio == map[BASE := INITIAL_USD]
    ensures Seed(EMPTY).transactions == [Transaction(BASE, INITIAL, 10000.0, 1.0, 10000.0, "SYSTEM", Some("initial_setup"))]
    ensures CountInitial(Seed(Seed(EMPTY)).transactions) == 1
  {
    SeedIdempotent(EMPTY);
  }

  /** Seeding keeps every balance non-negative. */
  lemma SeedKeepsNonNegative(t: Tables)
    requires NonNegative(t)
    ensures NonNegative(Seed(t))
  {
  }

  /** Python truthiness of an optional filter: None and "" both mean "no filter". */
  predicate Filtering(f: Option<string>) {
    f.Some? && f.value != ""
  }

  predicate Passes(f: Option<string>, v: string) {
    !Filtering(f) || f.value == v
  }

  function Min(a: nat, b: nat): nat {
    if a <= b then a else b
  }

  /** `ORDER BY timestamp DESC LIMIT limit` over rows kept oldest first. */
  function NewestFirst<T>(rows: seq<T>, limit: nat): (r: seq<T>)
    ensures |r| == Min(limit, |rows|)
    ensures forall i :: 0 <= i < |r| ==> r[i] == rows[|rows| - 1 - i]
  {
    if limit == 0 || rows == [] then []
    else [rows[|rows| - 1]] + NewestFirst(rows[..|rows| - 1], limit - 1)
  }

  /**
   * The `WHERE symbol = ?` selection: only matching rows; every matching
   * row, as often as it occurs (`TransactionsForCount`); in their relative
   * order (`TransactionsForAppend`).
   */
  function TransactionsFor(txs: seq<Transaction>, symbol: Option<string>): (r: seq<Transaction>)
    ensures forall i :: 0 <= i < |r| ==> r[i] in txs && Passes(symbol, r[i].symbol)
    ensures !Filtering(symbol) ==> r == txs
  {
    if txs == [] then []
    else
      var init := TransactionsFor(txs[..|txs| - 1], symbol);
      if Passes(symbol, txs[|txs| - 1].symbol) then init + [txs[|txs| - 1]] else init
  }

  /** A transaction occurs in the selection exactly as often as in the log when it matches, and never otherwise. */
  lemma {:induction false} TransactionsForCount(txs: seq<Transaction>, symbol: Option<string>, x: Transaction)
    ensures multiset(TransactionsFor(txs, symbol))[x] == if Passes(symbol, x.symbol) then multiset(txs)[x] else 0
    decreases |txs|
  {
    if txs != [] {
      var last := txs[|txs| - 1];
      assert txs == txs[..|txs| - 1] + [last];
      TransactionsForCount(txs[..|txs| - 1], symbol, x);
    }
  }

  /** Selecting from a concatenation selects from each part: the selection is order-preserving. */
  lemma {:induction false} TransactionsForAppend(a: seq<Transaction>, b: seq<Transaction>, symbol: Option<string>)
    ensures TransactionsFor(a + b, symbol) == TransactionsFor(a, symbol) + TransactionsFor(b, symbol)
    decreases |b|
  {
    if b != [] {
      var b' := b[..|b| - 1];
      assert (a + b)[..|a + b| - 1] == a + b';
      assert (a + b)[|a + b| - 1] == b[|b| - 1];
      TransactionsForAppend(a, b', symbol);
    } else {
      assert a + b == a;
    }
  }

  predicate SignalPasses(strategy: Option<string>, symbol: Option<string>, s: SignalRecord) {
    Passes(strategy, s.strategyName) && Passes(symbol, s.symbol)
  }

  /**
   * The `WHERE strategy_name = ? AND symbol = ?` selection: only rows
   * passing both filters; every such row, as often as it occurs
   * (`SignalsForCount`); in their relative order (`SignalsForAppend`).
   */
  function SignalsFor(rows: seq<SignalRecord>, strategy: Option<string>, symbol: Option<string>): (r: seq<SignalRecord>)
    ensures forall i :: 0 <= i < |r| ==> r[i] in rows && SignalPasses(strategy, symbol, r[i])
    ensures !Filtering(strategy) && !Filtering(symbol) ==> r == rows
  {
    if rows == [] then []
    else
      var init := SignalsFor(rows[..|rows| - 1], strategy, symbol);
      var last := rows[|rows| - 1];
      if SignalPasses(strategy, symbol, last) then init + [last] else init
  }

  /** A signal occurs in the selection exactly as often as in the table when it passes both filters, and never otherwise. */
  lemma {:induction false} SignalsForCount(rows: seq<SignalRecord>, strategy: Option<string>, symbol: Option<string>,
                                          x: SignalRecord)
    ensures multiset(SignalsFor(rows, strategy, symbol))[x] ==
              if SignalPasses(strategy, symbol, x) then multiset(rows)[x] else 0
    decreases |rows|
  {
    if rows != [] {
      var last := rows[|rows| - 1];
      assert rows == rows[..|rows| - 1] + [last];
      SignalsForCount(rows[..|rows| - 1], strategy, symbol, x);
    }
  }

  /** Selecting signals from a concatenation selects from each part: the selection is order-preserving. */
  lemma {:induction false} SignalsForAppend(a: seq<SignalRecord>, b: seq<SignalRecord>,
                                           strategy: Option<string>, symbol: Option<string>)
    ensures SignalsFor(a + b, strategy, symbol) == SignalsFor(a, strategy, symbol) + SignalsFor(b, strategy, symbol)
    decreases |b|
  {
    if b != [] {
      var b' := b[..|b| - 1];
      assert (a + b)[..|a + b| - 1] == a + b';
      assert (a + b)[|a + b| - 1] == b[|b| - 1];
      SignalsForAppend(a, b', strategy, symbol);
    } else {
      assert a + b == a;
    }
  }

  class Database {
    var portfolio: map<string, real>
    var transactions: seq<Transaction>
    var signals: seq<SignalRecord>

    function State(): Tables
      reads this
    {
      Tables(portfolio, transactions, signals)
    }

    /** Opens the store over the rows already persisted and runs the first-time setup. */
    constructor (stored: Tables)
      ensures State() == Seed(stored)
    {
      portfolio := stored.portfolio;
      transactions := stored.transactions;
      signals := stored.signals;
      new;
      InitializePortfolio();
    }

    /** `_initialize_portfolio` */
    method InitializePortfolio()
      modifies this
      ensures State() == Seed(old(State()))
    {
      if BASE !in portfolio {
        portfolio := portfolio[BASE := INITIAL_USD];
        LogTransaction(BASE, INITIAL, INITIAL_USD, 1.0, "SYSTEM", Some("initial_setup"));
      }
    }

    /** `get_coin_balance` */
    function GetCoinBalance(symbol: string): (amount: real)
      reads this
      ensures symbol in portfolio ==> amount == portfolio[symbol]
      ensures symbol !in portfolio ==> amount == 0.0
    {
      Balance(State(), symbol)
    }

    /** `update_coin_balance`: an upsert of one portfolio row. */
    method UpdateCoinBalance(symbol: string, newAmount: real)
      modifies this
      ensures portfolio == old(portfolio)[symbol := newAmount]
      ensures transactions == old(transactions) && signals == old(signals)
    {
      portfolio := portfolio[symbol := newAmount];
    }

    /** `log_transaction`: appends one row whose total value is amount * price. */
    method LogTransaction(symbol: string, kind: TxKind, amount: real, price: real, strategy: string,
                          signalId: Option<string>)
      modifies this
      ensures transactions == old(transactions) + [Entry(symbol, kind, amount, price, strategy, signalId)]
      ensures transactions[|transactions| - 1].totalValue == amount * price
      ensures portfolio == old(portfolio) && signals == old(signals)
    {
      var totalValue := amount * price;
      transactions := transactions + [Transaction(symbol, kind, amount, price, totalValue, strategy, signalId)];
    }

    /** `save_signal` */
    method SaveSignal(signal: SignalRecord)
      modifies this
      ensures signals == old(signals) + [signal]
      ensures portfolio == old(portfolio) && transactions == old(transactions)
    {
      signals := signals + [signal];
    }

    /** `get_portfolio_summary`: the holdings with a positive amount. */
    function GetPortfolioSummary(): (holdings: map<string, real>)
      reads this
      ensures forall s :: s in holdings <==> s in portfolio && portfolio[s] > 0.0
      ensures forall s :: s in holdings ==> holdings[s] == portfolio[s]
    {
      map s | s in portfolio && portfolio[s] > 0.0 :: portfolio[s]
    }

    /** `get_transaction_history`: at most `limit` rows, newest first, optionally for one symbol. */
    function GetTransactionHistory(symbol: Option<string>, limit: nat): (rows: seq<Transaction>)
      reads this
      ensures |rows| <= limit
      ensures forall i :: 0 <= i < |rows| ==> rows[i] in transactions && Passes(symbol, rows[i].symbol)
      ensures var m := TransactionsFor(transactions, symbol);
                |rows| == Min(limit, |m|) && forall i :: 0 <= i < |rows| ==> rows[i] == m[|m| - 1 - i]
      ensures !Filtering(symbol) ==> forall i :: 0 <= i < |rows| ==> rows[i] == transactions[|transactions| - 1 - i]
    {
      var matching := TransactionsFor(transactions, symbol);
      var rows := NewestFirst(matching, limit);
      assert forall i :: 0 <= i < |rows| ==> rows[i] in matching;
      rows
    }

    /** `get_signals`: at most `limit` rows, newest first, with optional strategy and symbol filters combined by AND. */
    function GetSignals(strategy: Option<string>, symbol: Option<string>, limit: nat): (rows: seq<SignalRecord>)
      reads this
      ensures |rows| <= limit
      ensures forall i :: 0 <= i < |rows| ==>
                rows[i] in signals && Passes(strategy, rows[i].strategyName) && Passes(symbol, rows[i].symbol)
      ensures var m := SignalsFor(signals, strategy, symbol);
                |rows| == Min(limit, |m|) && forall i :: 0 <= i < |rows| ==> rows[i] == m[|m| - 1 - i]
      ensures !Filtering(strategy) && !Filtering(symbol) ==>
                forall i :: 0 <= i < |rows| ==> rows[i] == signals[|signals| - 1 - i]
    {
      var matching := SignalsFor(signals, strategy, symbol);
      var rows := NewestFirst(matching, limit);
      assert forall i :: 0 <= i < |rows| ==> rows[i] in matching;
      rows
    }
  }
}
