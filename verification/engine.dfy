/**
 * The trading engine (`TradingEngine`): buys and sells against the ledger
 * with a balance check before any write, and a fixed sizing table from
 * signal strength to a fraction of a balance.
 */
module Engine {
  import opened Opt
  import opened Ledger

  /** A trade's boolean answer and the tables after it. */
  datatype TradeResult = TradeResult(ok: bool, after: Tables)

  /** `execute_buy` on the tables `t`. */
  function Buy(t: Tables, symbol: string, amount: real, price: real, strategy: string,
               signalId: Option<string>): (r: TradeResult)
    ensures r.ok <==> symbol != BASE && amount * price <= Balance(t, BASE)
    ensures !r.ok ==> r.after == t
    ensures r.ok ==> Balance(r.after, BASE) == Balance(t, BASE) - amount * price
    ensures r.ok ==> Balance(r.after, symbol) == Balance(t, symbol) + amount
    ensures forall s :: s != BASE && s != symbol ==> Balance(r.after, s) == Balance(t, s)
    ensures r.ok ==> r.after.transactions == t.transactions + [
              Transaction(symbol, BUY, amount, price, amount * price, strategy, signalId),
              Transaction(BASE, SPEND, amount * price, 1.0, amount * price, strategy, signalId)]
    ensures r.after.signals == t.signals
  {
    if symbol == BASE then TradeResult(false, t)
    else
      var cost := amount * price;
      var usd := Balance(t, BASE);
      if usd < cost then TradeResult(false, t)
      else
        var debited := t.(portfolio := t.portfolio[BASE := usd - cost]);
        var coin := Balance(debited, symbol);
        TradeResult(true, debited.(
          portfolio := debited.portfolio[symbol := coin + amount],
          transactions := t.transactions + [Entry(symbol, BUY, amount, price, strategy, signalId),
                                            Entry(BASE, SPEND, cost, 1.0, strategy, signalId)]))
  }

  /** `execute_sell` on the tables `t`. */
  function Sell(t: Tables, symbol: string, amount: real, price: real, strategy: string,
                signalId: Option<string>): (r: TradeResult)
    ensures r.ok <==> symbol != BASE && amount <= Balance(t, symbol)
    ensures !r.ok ==> r.after == t
    ensures r.ok ==> Balance(r.after, symbol) == Balance(t, symbol) - amount
    ensures r.ok ==> Balance(r.after, BASE) == Balance(t, BASE) + amount * price
    ensures forall s :: s != BASE && s != symbol ==> Balance(r.after, s) == Balance(t, s)
    ensures r.ok ==> r.after.transactions == t.transactions + [
              Transaction(symbol, SELL, amount, price, amount * price, strategy, signalId),
              Transaction(BASE, RECEIVE, amount * price, 1.0, amount * price, strategy, signalId)]
    ensures r.after.signals == t.signals
  {
    if symbol == BASE then TradeResult(false, t)
    else
      var coin := Balance(t, symbol);
      if coin < amount then TradeResult(false, t)
      else
        var value := amount * price;
        var debited := t.(portfolio := t.portfolio[symbol := coin - amount]);
        var usd := Balance(debited, BASE);
        TradeResult(true, debited.(
          portfolio := debited.portfolio[BASE := usd + value],
          transactions := t.transactions + [Entry(symbol, SELL, amount, price, strategy, signalId),
                                            Entry(BASE, RECEIVE, value, 1.0, strategy, signalId)]))
  }

  /** The sizing table of `calculate_trade_size`. */
  function Multiplier(strength: string): (m: real)
    ensures 0.25 <= m <= 0.75
    ensures strength != "Low" && strength != "Medium" && strength != "Strong" ==> m == 0.25
  {
    if strength == "Low" then 0.25
    else if strength == "Medium" then 0.50
    else if strength == "Strong" then 0.75
    else 0.25
  }

  /** `calculate_trade_size`: a fixed fraction of the balance, chosen by strength. */
  function TradeSize(strength: string, balance: real): (size: real)
    ensures strength == "Strong" ==> size == balance * 0.75
    ensures strength == "Medium" ==> size == balance * 0.5
    ensures strength != "Strong" && strength != "Medium" ==> size == balance * 0.25
    ensures balance >= 0.0 ==> 0.0 <= size <= balance
    ensures balance > 0.0 ==> 0.0 < size < balance
  {
    balance * Multiplier(strength)
  }

  /** The sizing examples: 1000 sizes to 750, 500, 250 and 250. */
  lemma TradeSizeExamples()
    ensures TradeSize("Strong", 1000.0) == 750.0
    ensures TradeSize("Medium", 1000.0) == 500.0
    ensures TradeSize("Low", 1000.0) == 250.0
    ensures TradeSize("unrecognized", 1000.0) == 250.0
  {
  }

  /** The worked example: from USD 10000, buying 0.1 BTC-USD at 50000 leaves USD 5000 and BTC-USD 0.1. */
  lemma BuyExample(t: Tables)
    requires Balance(t, BASE) == 10000.0 && Balance(t, "BTC-USD") == 0.0
    ensures var r := Buy(t, "BTC-USD", 0.1, 50000.0, "test", None);
            && r.ok
            && Balance(r.after, BASE) == 5000.0
            && Balance(r.after, "BTC-USD") == 0.1
            && r.after.transactions == t.transactions +
                 [Transaction("BTC-USD", BUY, 0.1, 50000.0, 5000.0, "test", None),
                  Transaction(BASE, SPEND, 5000.0, 1.0, 5000.0, "test", None)]
  {
  }

  /** Selling a coin that is not held is refused and changes nothing. */
  lemma SellWithoutHolding(t: Tables, symbol: string, amount: real, price: real, strategy: string,
                           signalId: Option<string>)
    requires Balance(t, symbol) == 0.0 && amount > 0.0
    ensures Sell(t, symbol, amount, price, strategy, signalId) == TradeResult(false, t)
  {
  }

  /** With a non-negative amount and price, a buy keeps every balance non-negative. */
  lemma BuyKeepsNonNegative(t: Tables, symbol: string, amount: real, price: real, strategy: string,
                            signalId: Option<string>)
    requires NonNegative(t) && amount >= 0.0 && price >= 0.0
    ensures NonNegative(Buy(t, symbol, amount, price, strategy, signalId).after)
  {
    var r := Buy(t, symbol, amount, price, strategy, signalId);
    forall s | s in r.after.portfolio ensures r.after.portfolio[s] >= 0.0 {
      assert Balance(r.after, s) == r.after.portfolio[s];
      assert Balance(t, s) >= 0.0;
    }
  }

  /** With a non-negative amount and price, a sell keeps every balance non-negative. */
  lemma SellKeepsNonNegative(t: Tables, symbol: string, amount: real, price: real, strategy: string,
                             signalId: Option<string>)
    requires NonNegative(t) && amount >= 0.0 && price >= 0.0
    ensures NonNegative(Sell(t, symbol, amount, price, strategy, signalId).after)
  {
    var r := Sell(t, symbol, amount, price, strategy, signalId);
    ProductNonNegative(amount, price);
    forall s | s in r.after.portfolio ensures r.after.portfolio[s] >= 0.0 {
      assert Balance(r.after, s) == r.after.portfolio[s];
      assert Balance(t, s) >= 0.0;
    }
  }

  lemma ProductNonNegative(a: real, b: real)
    requires a >= 0.0 && b >= 0.0
    ensures a * b >= 0.0
  {
  }

  /** Selling back what a buy bought, at the same price, restores every balance. */
  lemma SellUndoesBuy(t: Tables, symbol: string, amount: real, price: real, strategy: string,
                      signalId: Option<string>)
    requires Buy(t, symbol, amount, price, strategy, signalId).ok
    requires Balance(t, symbol) >= 0.0
    ensures var bought := Buy(t, symbol, amount, price, strategy, signalId).after;
            var sold := Sell(bought, symbol, amount, price, strategy, signalId);
            sold.ok && forall s :: Balance(sold.after, s) == Balance(t, s)
  {
  }

  /** The two legs of one trade: the asset leg, then the base-currency leg for the same value. */
  predicate MatchedPair(asset: Transaction, base: Transaction) {
    && ((asset.kind == BUY && base.kind == SPEND) || (asset.kind == SELL && base.kind == RECEIVE))
    && asset.symbol != BASE && base.symbol == BASE
    && base.amount == asset.totalValue && base.price == 1.0
    && asset.totalValue == base.totalValue
    && asset.strategy == base.strategy && asset.signalId == base.signalId
  }

  /** A log made of matched pairs, one after the other. */
  predicate MatchedPairs(txs: seq<Transaction>)
    decreases |txs|
  {
    txs == [] || (|txs| >= 2 && MatchedPair(txs[0], txs[1]) && MatchedPairs(txs[2..]))
  }

  /** A manual or scheduled trade request. */
  datatype Order =
    | BuyOrder(symbol: string, amount: real, price: real, strategy: string, signalId: Option<string>)
    | SellOrder(symbol: string, amount: real, price: real, strategy: string, signalId: Option<string>)

  /** One order, by its kind: refused with nothing changed, or one two-row trade appended to the log. */
  function Apply(t: Tables, o: Order): (r: TradeResult)
    ensures r.after.signals == t.signals
    ensures !r.ok ==> r.after == t
    ensures r.ok ==> |r.after.transactions| == |t.transactions| + 2
                     && r.after.transactions[..|t.transactions|] == t.transactions
  {
    match o
    case BuyOrder(s, a, p, st, id) => Buy(t, s, a, p, st, id)
    case SellOrder(s, a, p, st, id) => Sell(t, s, a, p, st, id)
  }

  /** The tables after the orders run one at a time, each to completion. */
  function Run(t: Tables, orders: seq<Order>): (r: Tables)
    ensures r.signals == t.signals
    ensures |t.transactions| <= |r.transactions| && r.transactions[..|t.transactions|] == t.transactions
    decreases |orders|
  {
    if orders == [] then t
    else
      var t1 := Apply(t, orders[0]).after;
      var r := Run(t1, orders[1..]);
      assert r.transactions[..|t.transactions|] == t1.transactions[..|t.transactions|];
      r
  }

  /** Every single trade appends nothing (refused) or exactly one matched pair. */
  lemma ApplyAppendsPair(t: Tables, o: Order)
    ensures var r := Apply(t, o).after;
            || r.transactions == t.transactions
            || (|r.transactions| == |t.transactions| + 2
                && r.transactions[..|t.transactions|] == t.transactions
                && MatchedPair(r.transactions[|t.transactions|], r.transactions[|t.transactions| + 1]))
  {
  }

  /** Any run of trades leaves the old log as a prefix and appends only matched pairs. */
  lemma {:induction false} RunAppendsMatchedPairs(t: Tables, orders: seq<Order>)
    ensures var r := Run(t, orders);
            && |t.transactions| <= |r.transactions|
            && r.transactions[..|t.transactions|] == t.transactions
            && MatchedPairs(r.transactions[|t.transactions|..])
    decreases |orders|
  {
    var r := Run(t, orders);
    if orders == [] {
      assert r.transactions[|t.transactions|..] == [];
    } else {
      var t1 := Apply(t, orders[0]).after;
      RunAppendsMatchedPairs(t1, orders[1..]);
      ApplyAppendsPair(t, orders[0]);
      var n := |t.transactions|;
      if t1.transactions != t.transactions {
        var tail := r.transactions[n..];
        assert r.transactions[..n] == t1.transactions[..n];
        assert tail[0] == t1.transactions[n] && tail[1] == t1.transactions[n + 1];
        assert tail[2..] == r.transactions[n + 2..];
      }
    }
  }

  /** With non-negative amounts and prices, no sequence of trades makes any balance negative. */
  lemma {:induction false} RunKeepsNonNegative(t: Tables, orders: seq<Order>)
    requires NonNegative(t)
    requires forall k :: 0 <= k < |orders| ==> orders[k].amount >= 0.0 && orders[k].price >= 0.0
    ensures NonNegative(Run(t, orders))
    decreases |orders|
  {
    if orders != [] {
      var o := orders[0];
      match o {
        case BuyOrder(s, a, p, st, id) => BuyKeepsNonNegative(t, s, a, p, st, id);
        case SellOrder(s, a, p, st, id) => SellKeepsNonNegative(t, s, a, p, st, id);
      }
      RunKeepsNonNegative(Apply(t, o).after, orders[1..]);
    }
  }

  /** `TradingEngine`, acting on the ledger store it was built with. */
  class TradingEngine {
    const db: Database

    constructor (db: Database)
      ensures this.db == db
    {
      this.db := db;
    }

    /** `execute_buy` */
    method ExecuteBuy(symbol: string, amount: real, price: real, strategy: string,
                      signalId: Option<string>) returns (ok: bool)
      modifies db
      ensures TradeResult(ok, db.State()) == Buy(old(db.State()), symbol, amount, price, strategy, signalId)
    {
      if symbol == BASE {
        return false;
      }
      var totalUsdCost := amount * price;
      var usdBalance := db.GetCoinBalance(BASE);
      if usdBalance < totalUsdCost {
        return false;
      }
      db.UpdateCoinBalance(BASE, usdBalance - totalUsdCost);
      var currentBalance := db.GetCoinBalance(symbol);
      db.UpdateCoinBalance(symbol, currentBalance + amount);
      db.LogTransaction(symbol, BUY, amount, price, strategy, signalId);
      db.LogTransaction(BASE, SPEND, totalUsdCost, 1.0, strategy, signalId);
      ok := true;
      assert db.transactions == old(db.transactions) + [
        Entry(symbol, BUY, amount, price, strategy, signalId),
        Entry(BASE, SPEND, totalUsdCost, 1.0, strategy, signalId)];
    }

    /** `execute_sell` */
    method ExecuteSell(symbol: string, amount: real, price: real, strategy: string,
                       signalId: Option<string>) returns (ok: bool)
      modifies db
      ensures TradeResult(ok, db.State()) == Sell(old(db.State()), symbol, amount, price, strategy, signalId)
    {
      if symbol == BASE {
        return false;
      }
      var currentBalance := db.GetCoinBalance(symbol);
      if currentBalance < amount {
        return false;
      }
      var totalUsdValue := amount * price;
      db.UpdateCoinBalance(symbol, currentBalance - amount);
      var usdBalance := db.GetCoinBalance(BASE);
      db.UpdateCoinBalance(BASE, usdBalance + totalUsdValue);
      db.LogTransaction(symbol, SELL, amount, price, strategy, signalId);
      db.LogTransaction(BASE, RECEIVE, totalUsdValue, 1.0, strategy, signalId);
      ok := true;
      assert db.transactions == old(db.transactions) + [
        Entry(symbol, SELL, amount, price, strategy, signalId),
        Entry(BASE, RECEIVE, totalUsdValue, 1.0, strategy, signalId)];
    }
  }
}
