/**
 * The virtual trader's `StrategyManager`: three built-in strategy
 * configurations, keyed "day", "swing" and "long", whose product lists
 * can be grown and shrunk at run time.
 */
module Strategies {
  import opened Opt
  import opened ProductLists

  /**
   * The part of `StrategyConfig` the trader itself reads: the display name,
   * the scanner's strategy name, the product list, the candle granularities
   * and the polling interval. The indicator parameters only travel to the
   * external scanner and are not modelled.
   */
  datatype StrategyConfig = StrategyConfig(
    name: string,
    strategyName: string,
    productIds: seq<string>,
    granularitySignal: string,
    granularityTrend: string,
    interval: nat)

  type Registry = map<string, StrategyConfig>

  const DEFAULT_PRODUCTS: seq<string> := ["BTC-USD", "ETH-USD", "AVAX-USD", "SOL-USD", "ADA-USD"]

  /** The keys in the order the monitor visits them (dictionary insertion order). */
  const STRATEGY_ORDER: seq<string> := ["day", "swing", "long"]

  /** `_create_default_strategies` */
  function Defaults(): (r: Registry)
    ensures r.Keys == {"day", "swing", "long"}
    ensures forall k :: k in r ==> r[k].productIds == DEFAULT_PRODUCTS
    ensures r["day"].interval == 5 && r["swing"].interval == 4 && r["long"].interval == 24
  {
    map[
      "day" := StrategyConfig("Day Trader", "Day Trader", DEFAULT_PRODUCTS, "FIVE_MINUTE", "ONE_HOUR", 5),
      "swing" := StrategyConfig("Swing Trader", "Aggressive Swing Trader", DEFAULT_PRODUCTS, "FOUR_HOUR", "ONE_DAY", 4),
      "long" := StrategyConfig("Long Term", "Long-Term Investor", DEFAULT_PRODUCTS, "ONE_DAY", "ONE_WEEK", 24)]
  }

  /** The registry invariant: the three keys, each with a duplicate-free product list. */
  predicate WellFormed(r: Registry) {
    && r.Keys == {"day", "swing", "long"}
    && forall k :: k in r ==> NoDuplicates(r[k].productIds)
  }

  /**
   * The fixed visiting order names each key of a well-formed registry exactly
   * once, so walking it visits the same strategies as walking the registry.
   */
  lemma StrategyOrderCoversRegistry(r: Registry)
    requires WellFormed(r)
    ensures forall k :: k in r <==> k in STRATEGY_ORDER
    ensures NoDuplicates(STRATEGY_ORDER)
  {
  }

  lemma DefaultsWellFormed()
    ensures WellFormed(Defaults())
  {
    assert NoDuplicates(DEFAULT_PRODUCTS);
  }

  /** `get_strategy_coins`: the product list, or empty for an unknown key. */
  function Coins(r: Registry, key: string): (coins: seq<string>)
    ensures key !in r ==> coins == []
    ensures key in r ==> coins == r[key].productIds
  {
    if key in r then r[key].productIds else []
  }

  datatype Update = Update(ok: bool, registry: Registry)

  /** `add_coin_to_strategy` */
  function AddCoin(r: Registry, key: string, coin: string): (u: Update)
    ensures u.ok <==> key in r && coin !in r[key].productIds
    ensures u.registry.Keys == r.Keys
    ensures forall k :: k in r && k != key ==> u.registry[k] == r[k]
    ensures key in r ==> u.registry[key] == r[key].(productIds := WithItem(r[key].productIds, coin))
    ensures coin in Coins(u.registry, key) <==> key in r
  {
    if key !in r || coin in r[key].productIds then Update(false, r)
    else Update(true, r[key := r[key].(productIds := r[key].productIds + [coin])])
  }

  /** `remove_coin_from_strategy` */
  function RemoveCoin(r: Registry, key: string, coin: string): (u: Update)
    ensures u.ok <==> key in r && coin in r[key].productIds
    ensures u.registry.Keys == r.Keys
    ensures forall k :: k in r && k != key ==> u.registry[k] == r[k]
    ensures key in r ==> u.registry[key] == r[key].(productIds := RemoveFirst(r[key].productIds, coin))
    ensures !u.ok ==> u.registry == r
  {
    if key !in r || coin !in r[key].productIds then Update(false, r)
    else Update(true, r[key := r[key].(productIds := RemoveFirst(r[key].productIds, coin))])
  }

  /** Both updates keep the registry invariant. */
  lemma AddKeepsWellFormed(r: Registry, key: string, coin: string)
    requires WellFormed(r)
    ensures WellFormed(AddCoin(r, key, coin).registry)
  {
  }

  lemma RemoveKeepsWellFormed(r: Registry, key: string, coin: string)
    requires WellFormed(r)
    ensures WellFormed(RemoveCoin(r, key, coin).registry)
    ensures coin !in Coins(RemoveCoin(r, key, coin).registry, key)
  {
    if key in r {
      RemoveFromDistinct(r[key].productIds, coin);
    }
  }

  /** A second add of the same coin is refused and changes nothing. */
  lemma AddTwiceRefused(r: Registry, key: string, coin: string)
    ensures var u := AddCoin(r, key, coin).registry;
            !AddCoin(u, key, coin).ok && AddCoin(u, key, coin).registry == u
  {
  }

  /** Removing a coin that was just added restores the registry. */
  lemma RemoveUndoesAdd(r: Registry, key: string, coin: string)
    requires AddCoin(r, key, coin).ok
    ensures RemoveCoin(AddCoin(r, key, coin).registry, key, coin) == Update(true, r)
  {
    RemoveAfterAppend(r[key].productIds, coin);
    assert r[key].(productIds := r[key].productIds) == r[key];
  }

  /** `StrategyManager`: the registry the bot owns and the commands update. */
  class StrategyManager {
    var strategies: Registry

    predicate Valid()
      reads this
    {
      WellFormed(strategies)
    }

    constructor ()
      ensures strategies == Defaults()
      ensures Valid()
    {
      strategies := Defaults();
      DefaultsWellFormed();
    }

    /** `get_strategy` */
    function GetStrategy(key: string): (s: Option<StrategyConfig>)
      reads this
      ensures s.Some? <==> key in strategies
      ensures s.Some? ==> s.value == strategies[key]
    {
      if key in strategies then Some(strategies[key]) else None
    }

    /** `get_strategy_coins` */
    function GetStrategyCoins(key: string): (coins: seq<string>)
      reads this
      ensures key !in strategies ==> coins == []
      ensures key in strategies ==> coins == strategies[key].productIds
    {
      Coins(strategies, key)
    }

    /** `add_coin_to_strategy` */
    method AddCoinToStrategy(key: string, coin: string) returns (ok: bool)
      modifies this
      ensures Update(ok, strategies) == AddCoin(old(strategies), key, coin)
      ensures old(Valid()) ==> Valid()
    {
      if Valid() {
        AddKeepsWellFormed(strategies, key, coin);
      }
      if key !in strategies || coin in strategies[key].productIds {
        return false;
      }
      var s := strategies[key];
      strategies := strategies[key := s.(productIds := s.productIds + [coin])];
      ok := true;
    }

    /** `remove_coin_from_strategy` */
    method RemoveCoinFromStrategy(key: string, coin: string) returns (ok: bool)
      modifies this
      ensures Update(ok, strategies) == RemoveCoin(old(strategies), key, coin)
      ensures old(Valid()) ==> Valid()
    {
      if Valid() {
        RemoveKeepsWellFormed(strategies, key, coin);
      }
      if key !in strategies || coin !in strategies[key].productIds {
        return false;
      }
      var s := strategies[key];
      strategies := strategies[key := s.(productIds := RemoveFirst(s.productIds, coin))];
      ok := true;
    }
  }
}
