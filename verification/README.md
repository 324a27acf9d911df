# Virtual crypto trader: a Dafny model of the paper-trading ledger

This project models the paper-trading core of a Discord bot's crypto cogs.

- **The ledger** (`DatabaseManager`): a USD-seeded portfolio, a transaction log and a signal log.
- **The trading engine**: buy and sell against the ledger, with a balance check before any write, and the strength-based trade sizing.
- **The strategy manager**: the three built-in strategies ("day", "swing", "long") and their editable product lists.
- **The signal monitor**: once a round, while running, it scans every strategy. It orders the signals strongest first and records each actionable signal. It then trades on it, spending at most the USD balance it read when the batch started.
- **The command-side parsers**:
  - the pipe-separated coin lists read from the configuration;
  - the strategy word at the head of a `!crypto` command;
  - the `add_product` / `remove_product` rules, as written (the cog never reaches them; see "## Left out");
  - the key and value normalisation of `Config.from_dict`.

Layout, one module per file:

| file | module | models |
|---|---|---|
| `opt.dfy` | `Opt` | `Option` |
| `text.dfy` | `Text` | `str.strip`, `lower`, `upper`, `split()`, `split(sep)` and `join` on ASCII text |
| `product_lists.dfy` | `ProductLists` | append-if-absent and `list.remove` on product lists |
| `config.dfy` | `Config` | `Config.from_dict` and the coin-list defaults of `Config` |
| `commands.dfy` | `Commands` | the `CryptoCommands` parsers in `cogs/crypto.py` |
| `ledger.dfy` | `Ledger` | `DatabaseManager` as the class `Database` over in-memory tables |
| `engine.dfy` | `Engine` | `TradingEngine` |
| `strategies.dfy` | `Strategies` | `StrategyManager` |
| `monitor.dfy` | `Monitor` | `SignalMonitor` |

How the model is written:

- Every class that the source updates in place is a Dafny `class`. Each of its methods is proved equal to a pure function of the old state:
  - `Database` against `Seed` and the row appends;
  - `TradingEngine.ExecuteBuy` / `ExecuteSell` against `Buy` / `Sell`;
  - `StrategyManager` against `AddCoin` / `RemoveCoin`;
  - `SignalMonitor.ProcessStrategySignals` against `Batch`;
  - `SignalMonitor.ProcessSignals` against `Round`.
- The properties are proved as lemmas about those functions.

How the batch budget works, as the code does it:
- `_process_strategy_signals` reads the USD balance once, when the batch starts (`cogs/crypto_virtual_trader.py:780`).
- After that it sizes every BUY on `remaining_usd`, which it lowers only when a buy succeeds. It does not re-read the balance before each trade.
- `Monitor.BatchSpendsWithinBudget` states the resulting guarantee.

## Model

| member | source | states |
|---|---|---|
| `Text.Strip` | cogs/crypto.py:229 | the result has no leading or trailing whitespace; it is empty exactly when the input is all whitespace; an unpadded input is returned unchanged |
| `Text.StripLeft` | cogs/crypto.py:229 | the result is a suffix of the input that is empty or starts with a non-whitespace character, and only whitespace was removed in front of it |
| `Text.StripRight` | cogs/crypto.py:229 | the result is a prefix of the input that is empty or ends with a non-whitespace character, and only whitespace was removed after it |
| `Text.StripIdempotent` | cogs/crypto.py:234 | stripping twice is stripping once |
| `Text.ToLower` | cogs/crypto.py:473 | same length; each character lower-cased |
| `Text.ToUpper` | cogs/crypto.py:546 | same length; each character upper-cased |
| `Text.Words` | cogs/crypto.py:471 | every element of `split()` is a non-empty word without whitespace; the result is empty exactly when the string is all whitespace |
| `Text.WordsSkipGap` | cogs/crypto.py:471 | leading whitespace yields no word: `split()` of a gap followed by `t` is `split()` of `t` |
| `Text.WordsTakeWord` | cogs/crypto.py:471 | a word followed by whitespace or the end of the string is the first element of `split()`, and the splitting goes on after it |
| `Text.Join` | cogs/crypto.py:477-481 | the join starts with the first piece, followed by the separator when there are two pieces or more; every other character of the join comes from one of the pieces |
| `Text.SplitOn` | cogs/crypto.py:234 | splitting on a separator yields at least one piece and no piece contains the separator |
| `Text.JoinSplit` | cogs/crypto.py:234 | joining the pieces of a split with the separator gives back the string |
| `Text.SplitJoin` | cogs/crypto.py:234 | splitting a join of separator-free pieces gives back the pieces |
| `Text.WordsOfJoin` | cogs/crypto.py:477-481 | `" ".join(words).split()` gives back the words |
| `ProductLists.WithItem` | cogs/crypto_virtual_trader.py:672-679 | the old list is a prefix of the new one, which is one longer exactly when the item was absent; the item is present afterwards; nothing else is added; a duplicate-free list stays duplicate-free |
| `ProductLists.RemoveFirst` | cogs/crypto_virtual_trader.py:681-688 | `list.remove` leaves a list without the item unchanged and makes a list holding it one shorter, with no entry that was not there before |
| `ProductLists.IndexOf` | cogs/crypto_virtual_trader.py:687 | the position found holds the item and no earlier position does, so it is the first occurrence |
| `ProductLists.RemoveFirstAt` | cogs/crypto_virtual_trader.py:681-688 | removing a present item gives the entries before its first occurrence followed by those after it, in order |
| `ProductLists.RemoveFirstCounts` | cogs/crypto_virtual_trader.py:687 | removal takes exactly one copy of the item out of the multiset of entries |
| `ProductLists.AddTwiceIsAddOnce` | cogs/crypto_virtual_trader.py:675 | adding the same coin twice is adding it once |
| `ProductLists.RemoveFromDistinct` | cogs/crypto.py:558-560 | in a duplicate-free list, removal leaves the item absent, keeps every other entry and keeps the list duplicate-free |
| `ProductLists.RemoveAfterAppend` | cogs/crypto_virtual_trader.py:678 | removing a just-appended new coin restores the list |
| `Config.NormaliseKey` | utils/config.py:62-67 | the field name is the environment name lower-cased; the two explicit cases agree with that rule |
| `Config.DecimalString` | utils/config.py:69-70 | the rendering of a number is all digits, without a leading zero |
| `Config.ParseRendered` | utils/config.py:70 | `int` of the decimal rendering of `n` is `n` |
| `Config.RenderParsed` | utils/config.py:69-70 | a digit string without a leading zero is the rendering of its `int` value |
| `Config.ConvertRendered` | utils/config.py:69-70 | a value written as a decimal number becomes that integer |
| `Config.NonDigitsStayStrings` | utils/config.py:71-72 | an empty value or one with a non-digit character stays a string |
| `Config.ConvertValue` | utils/config.py:69-72 | a value becomes an integer exactly when it is a non-empty all-digit string, and otherwise stays the same string; a digit string without a leading zero is the decimal rendering of the integer it becomes |
| `Config.Normalised` | utils/config.py:60-72 | one entry per input pair, with the key lower-cased and the value converted |
| `Config.Store` | utils/config.py:60-74 | storing the entries one after another gives fields that are exactly the entries' keys |
| `Config.StoreLastWins` | utils/config.py:70-72 | when two variables normalise to the same field, the later one wins |
| `Config.FromDict` | utils/config.py:56-74 | the loop produces exactly the last-writer-wins map of the normalised pairs |
| `Config.CoinDefault` | utils/config.py:35-37 | a default exists exactly for the three strategy-coin settings the commands cog reads |
| `Config.GetAttr` | utils/config.py:35-37 | `getattr` gives the configured value when set, otherwise the strategy-coin default joined by the given separator (comma as written, pipe in the corrected lookup `Config.Attribute`) |
| `Commands.StrippedPieces` | cogs/crypto.py:234 | every kept id is non-empty and unpadded; a first piece that is not blank is kept first, stripped; a single piece gives no id when blank and its stripped form otherwise; there are no more ids than pieces |
| `Commands.StrippedPiecesAppend` | cogs/crypto.py:234 | the ids kept from two runs of pieces are those kept from the first followed by those kept from the second, so the comprehension keeps the pieces' order |
| `Commands.ProductIdsFromEnv` | cogs/crypto.py:223-241 | a missing, integer or blank value gives the defaults; a string value gives its stripped, non-blank pipe-separated pieces, or the defaults when no piece is left |
| `Commands.StrippedPiecesClean` | cogs/crypto.py:234 | every kept id is non-empty, unpadded and free of the pipe character |
| `Commands.StripIsInfix` | cogs/crypto.py:234 | stripping adds no character |
| `Commands.StrippedCleanPieces` | cogs/crypto.py:234 | clean pieces survive the comprehension unchanged |
| `Commands.ProductIdsClean` | cogs/crypto.py:234-237 | when the comprehension keeps an id, the result is that list and every id in it is clean |
| `Commands.PipesAndBlanksKeepNothing` | cogs/crypto.py:234-237 | a value made only of whitespace and pipe characters leaves nothing after the comprehension, so the reader falls back to the defaults |
| `Commands.SeparatorOnlyValue` | cogs/crypto.py:234-237 | the value " | " reads back as the defaults |
| `Commands.SingleProductId` | cogs/crypto.py:234-237 | a non-blank value without the pipe character gives exactly one id, the stripped value |
| `Commands.ProductIdsRoundTrip` | cogs/crypto.py:223-241 | clean ids written pipe-separated read back exactly, in order |
| `Commands.CommaDefaultIsOneId` | utils/config.py:35 | an unset day-coin setting reads back as one id holding the whole comma-separated default |
| `Commands.PipeDefaultsReadBack` | cogs/crypto.py:223-241 | with pipe-separated defaults, each unset strategy-coin setting reads back as its own list of ids |
| `Commands.SplitStrategyArgs` | cogs/crypto.py:467-481 | the strategy is always a known key. When the first word, lower-cased, names a strategy, it is taken and the arguments become the remaining words joined by single spaces. Otherwise the strategy is "day" and the arguments become all the words joined by single spaces. Either way the new arguments split back into exactly those words. Missing or blank arguments pass untouched, with "day" |
| `Commands.ProductId` | cogs/crypto.py:546 | the id is the stripped arguments upper-cased character by character; it is empty exactly when the arguments are blank |
| `Commands.StrategyProducts.AddProduct` | cogs/crypto.py:541-551 | empty arguments answer with usage and change nothing; otherwise the upper-cased, stripped id is appended unless present, the reply says which, and the list stays duplicate-free |
| `Commands.StrategyProducts.RemoveProduct` | cogs/crypto.py:553-563 | empty arguments answer with usage; otherwise the first occurrence of the id is removed if present, the reply says which, and a duplicate-free list no longer holds the id |
| `Ledger.Seed` | cogs/crypto_virtual_trader.py:265-313 | afterwards USD has a row. An existing USD row means nothing changes. Otherwise USD holds 10000 and the INITIAL row is appended. No other balance and no signal row changes |
| `Ledger.SeedIdempotent` | cogs/crypto_virtual_trader.py:265-313 | first-time setup runs only when USD has no row: seeding twice is seeding once, and it adds at most one INITIAL row |
| `Ledger.FirstStart` | cogs/crypto_virtual_trader.py:272-284 | on empty tables the setup leaves USD 10000 and the single INITIAL row (USD, 10000, 1.0, 10000, SYSTEM, initial_setup) |
| `Ledger.SeedKeepsNonNegative` | cogs/crypto_virtual_trader.py:265-313 | seeding keeps balances non-negative |
| `Ledger.NewestFirst` | cogs/crypto_virtual_trader.py:409 | `ORDER BY timestamp DESC LIMIT n`: min(n, rows) rows, the newest first |
| `Ledger.TransactionsFor` | cogs/crypto_virtual_trader.py:445-454 | only rows of the symbol when one is given; all rows otherwise |
| `Ledger.TransactionsForCount` | cogs/crypto_virtual_trader.py:445-454 | every row of the given symbol is selected as often as it occurs in the log, and no other row |
| `Ledger.TransactionsForAppend` | cogs/crypto_virtual_trader.py:445-454 | selecting from a concatenation selects from each part, so the selected rows keep their order in the log |
| `Ledger.SignalsFor` | cogs/crypto_virtual_trader.py:402-407 | only rows passing both optional filters; all rows without filters |
| `Ledger.SignalsForCount` | cogs/crypto_virtual_trader.py:396-407 | every signal row passing both filters is selected as often as it occurs, and no other row |
| `Ledger.SignalsForAppend` | cogs/crypto_virtual_trader.py:396-407 | selecting from a concatenation selects from each part, so the selected rows keep their order |
| `Ledger.Database.constructor` | cogs/crypto_virtual_trader.py:73-95 | opening the store runs the first-time setup over the stored rows |
| `Ledger.Database.InitializePortfolio` | cogs/crypto_virtual_trader.py:265-313 | the tables after setup are `Seed` of the tables before |
| `Ledger.Database.GetCoinBalance` | cogs/crypto_virtual_trader.py:315-329 | the stored amount, or 0 for a symbol without a row |
| `Ledger.Database.UpdateCoinBalance` | cogs/crypto_virtual_trader.py:331-350 | an upsert of one portfolio row; the logs are untouched |
| `Ledger.Database.LogTransaction` | cogs/crypto_virtual_trader.py:352-372 | appends exactly one row whose total value is amount × price; nothing else changes |
| `Ledger.Database.SaveSignal` | cogs/crypto_virtual_trader.py:374-394 | appends exactly one signal row; nothing else changes |
| `Ledger.Database.GetPortfolioSummary` | cogs/crypto_virtual_trader.py:425-438 | exactly the holdings with a positive amount, at their stored amounts |
| `Ledger.Database.GetTransactionHistory` | cogs/crypto_virtual_trader.py:440-471 | the newest min(limit, m) of the m rows matching the optional symbol, newest first; unfiltered, the newest rows of the whole log |
| `Ledger.Database.GetSignals` | cogs/crypto_virtual_trader.py:396-423 | the newest min(limit, m) of the m signal rows matching both optional filters, newest first; unfiltered, the newest rows of the whole table |
| `Engine.Buy` | cogs/crypto_virtual_trader.py:509-535 | succeeds iff the symbol is not USD and USD covers amount × price; on success USD drops and the coin rises by exactly that, the BUY and SPEND rows are appended and no other balance changes; on refusal nothing changes |
| `Engine.Sell` | cogs/crypto_virtual_trader.py:537-563 | succeeds iff the symbol is not USD and its balance covers the amount; the mirror image of `Buy` with SELL and RECEIVE rows |
| `Engine.TradeSize` | cogs/crypto_virtual_trader.py:565-573 | Strong 75 %, Medium 50 %, anything else 25 % of the balance; never more than the balance and positive for a positive balance |
| `Engine.Multiplier` | cogs/crypto_virtual_trader.py:565-573 | the fraction is between 25 % and 75 %, and 25 % for an unknown strength |
| `Engine.TradeSizeExamples` | cogs/crypto_virtual_trader.py:567-573 | the sizing of 1000 for each strength, including an unknown one |
| `Engine.BuyExample` | cogs/crypto_virtual_trader.py:509-535 | from USD 10000, buying 0.1 BTC-USD at 50000 leaves USD 5000, BTC-USD 0.1 and the two rows |
| `Engine.SellWithoutHolding` | cogs/crypto_virtual_trader.py:544-548 | selling a coin that is not held is refused and changes nothing |
| `Engine.BuyKeepsNonNegative` | cogs/crypto_virtual_trader.py:516-528 | with a non-negative amount and price, a buy keeps every balance non-negative |
| `Engine.SellKeepsNonNegative` | cogs/crypto_virtual_trader.py:544-556 | with a non-negative amount and price, a sell keeps every balance non-negative |
| `Engine.SellUndoesBuy` | cogs/crypto_virtual_trader.py:509-563 | selling back what a buy bought, at the same price, succeeds and restores every balance |
| `Engine.Apply` | cogs/crypto_virtual_trader.py:509-563 | an order is refused and changes nothing, or appends exactly two rows after the old log; the signal rows never change |
| `Engine.ApplyAppendsPair` | cogs/crypto_virtual_trader.py:530-532 | a trade appends either nothing or one matched asset/USD pair |
| `Engine.Run` | cogs/crypto_virtual_trader.py:509-563 | a sequence of orders keeps the old log as a prefix and never changes the signal rows |
| `Engine.RunAppendsMatchedPairs` | cogs/crypto_virtual_trader.py:530-560 | any sequence of trades keeps the old log as a prefix and appends only matched pairs |
| `Engine.RunKeepsNonNegative` | cogs/crypto_virtual_trader.py:509-563 | no sequence of trades with non-negative amounts and prices makes a balance negative |
| `Engine.TradingEngine.constructor` | cogs/crypto_virtual_trader.py:504-507 | the engine acts on the store it is given |
| `Engine.TradingEngine.ExecuteBuy` | cogs/crypto_virtual_trader.py:509-535 | the answer and the new tables are those of `Buy` on the old tables |
| `Engine.TradingEngine.ExecuteSell` | cogs/crypto_virtual_trader.py:537-563 | the answer and the new tables are those of `Sell` on the old tables |
| `Strategies.Defaults` | cogs/crypto_virtual_trader.py:585-666 | the three keys, each with the five default products, and intervals 5, 4 and 24 |
| `Strategies.DefaultsWellFormed` | cogs/crypto_virtual_trader.py:587-666 | the default registry has the three keys and duplicate-free product lists |
| `Strategies.StrategyOrderCoversRegistry` | cogs/crypto_virtual_trader.py:764 | a well-formed registry has exactly the keys day, swing and long, so the fixed visiting order names each of its keys once |
| `Strategies.Coins` | cogs/crypto_virtual_trader.py:690-693 | the product list of a known strategy, empty for an unknown one |
| `Strategies.AddCoin` | cogs/crypto_virtual_trader.py:672-679 | succeeds iff the strategy exists and lacks the coin; only that strategy's list changes, by appending the coin |
| `Strategies.RemoveCoin` | cogs/crypto_virtual_trader.py:681-688 | succeeds iff the strategy exists and holds the coin; only that strategy's list changes, by removing the first occurrence; a refusal changes nothing |
| `Strategies.AddKeepsWellFormed` | cogs/crypto_virtual_trader.py:675-678 | adding keeps the three keys and duplicate-free lists |
| `Strategies.RemoveKeepsWellFormed` | cogs/crypto_virtual_trader.py:684-687 | removing keeps the invariant and leaves the coin absent |
| `Strategies.AddTwiceRefused` | cogs/crypto_virtual_trader.py:675 | a second add of the same coin is refused and changes nothing |
| `Strategies.RemoveUndoesAdd` | cogs/crypto_virtual_trader.py:672-688 | removing a coin just added restores the registry |
| `Strategies.StrategyManager.constructor` | cogs/crypto_virtual_trader.py:582-583 | starts with the default registry, which satisfies the invariant |
| `Strategies.StrategyManager.GetStrategy` | cogs/crypto_virtual_trader.py:668-670 | the configuration of a known key, `None` otherwise |
| `Strategies.StrategyManager.GetStrategyCoins` | cogs/crypto_virtual_trader.py:690-693 | the product list of a known key, empty for an unknown one |
| `Strategies.StrategyManager.AddCoinToStrategy` | cogs/crypto_virtual_trader.py:672-679 | answer and new registry are those of `AddCoin`; the invariant is kept |
| `Strategies.StrategyManager.RemoveCoinFromStrategy` | cogs/crypto_virtual_trader.py:681-688 | answer and new registry are those of `RemoveCoin`; the invariant is kept |
| `Monitor.StrengthOf` | cogs/crypto_virtual_trader.py:784 | the reported strength, or "Low" when the report has none |
| `Monitor.Rank` | cogs/crypto_virtual_trader.py:783-784 | at most 3; a signal without a strength ranks as Low (1); rank 0 exactly for an unrecognised strength |
| `Monitor.WithRank` | cogs/crypto_virtual_trader.py:784 | the selected signals all have rank `k` and come from the input |
| `Monitor.WithRankKeeps` | cogs/crypto_virtual_trader.py:784 | every signal of rank `k` is selected |
| `Monitor.SortByStrength` | cogs/crypto_virtual_trader.py:784 | the sorted list holds exactly the signals of the input |
| `Monitor.WithRankAppend` | cogs/crypto_virtual_trader.py:784 | selecting by rank distributes over concatenation |
| `Monitor.WithRankCount` | cogs/crypto_virtual_trader.py:784 | a signal occurs in the rank-`k` selection as often as in the input if its rank is `k`, otherwise never |
| `Monitor.SortDescending` | cogs/crypto_virtual_trader.py:783-784 | the sorted signals are in non-increasing strength (Strong, Medium, Low, other) |
| `Monitor.SortPermutes` | cogs/crypto_virtual_trader.py:784 | the sort is a permutation of the signals |
| `Monitor.SortStable` | cogs/crypto_virtual_trader.py:784 | signals of equal strength keep their original order |
| `Monitor.BuyLeg` | cogs/crypto_virtual_trader.py:813-818 | the signal rows never change. An unchanged budget means nothing changed. A lowered budget stays positive, and the USD balance falls by exactly the amount taken from the budget |
| `Monitor.SellLeg` | cogs/crypto_virtual_trader.py:820-825 | the budget and the signal rows never change; with no holding (or for USD) nothing changes; otherwise the coin balance shrinks but stays positive |
| `Monitor.Step` | cogs/crypto_virtual_trader.py:788-825 | a signal that is not actionable changes nothing; the budget stays as it is or shrinks while staying positive |
| `Monitor.Steps` | cogs/crypto_virtual_trader.py:788-825 | the budget never grows, and a positive budget stays positive |
| `Monitor.StepsRecord` | cogs/crypto_virtual_trader.py:788-810 | the loop records exactly one signal row per actionable signal, in order, whatever its trade does |
| `Monitor.Batch` | cogs/crypto_virtual_trader.py:778-825 | a batch appends exactly the records of the actionable signals in sorted order; it keeps the old log as a prefix and appends only matched pairs tagged with the strategy key |
| `Monitor.StepsIdle` | cogs/crypto_virtual_trader.py:789-796 | signals that are not BUY/SELL or have no usable price change nothing |
| `Monitor.BatchIdle` | cogs/crypto_virtual_trader.py:778-796 | a batch without actionable signals changes nothing |
| `Monitor.SpentAppendPair` | cogs/crypto_virtual_trader.py:531-532 | the spent total grows by the SPEND rows appended |
| `Monitor.TradesSpend` | cogs/crypto_virtual_trader.py:509-563 | a successful buy adds its cost to the spent total; a sell adds nothing |
| `Monitor.BuyWithinRemaining` | cogs/crypto_virtual_trader.py:815-818 | a buy of `size / price` coins moves exactly `size` from the remaining budget to the spent total, or changes neither |
| `Monitor.BuyLegConservesBudget` | cogs/crypto_virtual_trader.py:813-818 | the BUY branch conserves spent plus unallocated USD |
| `Monitor.SellLegConservesBudget` | cogs/crypto_virtual_trader.py:820-825 | the SELL branch spends nothing and leaves the budget alone |
| `Monitor.StepConservesBudget` | cogs/crypto_virtual_trader.py:788-825 | one pass of the loop conserves spent plus unallocated USD |
| `Monitor.StepsConserveBudget` | cogs/crypto_virtual_trader.py:788-825 | the whole loop conserves spent plus unallocated USD |
| `Monitor.BatchSpendsWithinBudget` | cogs/crypto_virtual_trader.py:780-818 | one batch never spends more USD than the balance it read at its start (nothing when that balance is not positive) |
| `Monitor.StepKeepsNonNegative` | cogs/crypto_virtual_trader.py:788-825 | with non-negative prices one pass keeps every balance non-negative |
| `Monitor.StepsKeepNonNegative` | cogs/crypto_virtual_trader.py:788-825 | the same for the whole loop |
| `Monitor.BatchKeepsNonNegative` | cogs/crypto_virtual_trader.py:778-825 | the same for a batch |
| `Monitor.Round` | cogs/crypto_virtual_trader.py:759-776 | a round only appends: the transaction log and the signal table keep their old rows as a prefix |
| `Monitor.RoundKeepsNonNegative` | cogs/crypto_virtual_trader.py:759-776 | the same for a whole round over the strategies |
| `Monitor.StepAppendsPair` | cogs/crypto_virtual_trader.py:813-825 | one pass appends nothing or one matched pair tagged with the strategy key |
| `Monitor.StepsAppendPairs` | cogs/crypto_virtual_trader.py:788-825 | the loop keeps the old log as a prefix and appends only matched pairs tagged with the strategy |
| `Monitor.SignalMonitor.constructor` | cogs/crypto_virtual_trader.py:736-743 | wires the manager, engine and store; the monitor starts stopped |
| `Monitor.SignalMonitor.Start` | cogs/crypto_virtual_trader.py:745-748 | the monitor is running |
| `Monitor.SignalMonitor.Stop` | cogs/crypto_virtual_trader.py:750-753 | the monitor is stopped |
| `Monitor.SignalMonitor.ProcessSignal` | cogs/crypto_virtual_trader.py:788-825 | the tables and the remaining budget after one pass of the loop are those of `Step` |
| `Monitor.SignalMonitor.ProcessStrategySignals` | cogs/crypto_virtual_trader.py:778-825 | the tables afterwards are `Batch` of the tables before |
| `Monitor.SignalMonitor.ProcessSignals` | cogs/crypto_virtual_trader.py:759-776 | stopped: nothing changes; running, with the manager's invariant: the tables afterwards are `Round` over day, swing and long of the tables before |

## Left out

- The SQLite/PostgreSQL plumbing is not modelled: connections, the schema, the dual dialect and commits. The three tables are in-memory values, and rows are kept in insertion order.
- Ledger.NewestFirst: orders rows by reverse insertion order, for both tables. This matches the source's order up to ties:
  - Transaction rows take the column default `CURRENT_TIMESTAMP` (`cogs/crypto_virtual_trader.py:187`, `235`). On SQLite it has one-second resolution, so the rows of one trade, and often of a whole batch, tie under the SQLite queries' `ORDER BY timestamp DESC` (lines 462, 467). SQLite may return tied rows in any order, and the model picks one of those orders. The PostgreSQL default (lines 448, 453) is finer, so ties there need writes within the same clock tick.
  - Signal rows carry an explicit `datetime.now()` (line 805), written by `save_signal` (lines 381-384, 390-393), with microsecond resolution. Under line 409's `ORDER BY timestamp DESC` they come back in the order they were written, newest first, as long as the clock does not go back.
- A negative `LIMIT` is not modelled, because the two backends treat it differently; `limit` is a `nat`.
- Prices from the HTTP API (`PriceManager.get_current_price`) are a `Quote` parameter, a snapshot for the whole round, with `None` standing for a failed request. The Tokenometry scanner is a `Scanner` parameter, with `None` standing for a scan that raised.
- Floats are modelled as exact reals, so rounding is not modelled.
- `datetime.now()` in the signal id is one `stamp` parameter per round. The signal row's own timestamp is not stored; its position in the log stands for it.
- The periodic task, the Discord commands and embeds, logging, and concurrency between the loop task and command handlers are not modelled.
- `SignalMonitor.is_running()` is not modelled: the method is shadowed by the instance attribute of the same name, so only the attribute exists.
- The indicator parameters of `StrategyConfig`, `convert_to_tokenometry_config` and `TradeSignal`'s fields beyond those stored are not modelled; they only travel to the scanner.
- Monitor.SignalMonitor.ProcessStrategySignals: requires that the monitor's store is the engine's store. This is how the cog wires them (`cogs/crypto_virtual_trader.py:839-848`); two distinct stores are not modelled.
- Monitor.SignalMonitor.ProcessSignal: requires the same shared store; it is the body of the loop in `_process_strategy_signals`, written as its own method.
- Monitor.SignalMonitor.ProcessSignals: an exception inside `_process_strategy_signals`, such as a failed database write, is not modelled. Only a scan that raises is modelled, and it skips that strategy.
- Monitor.SignalMonitor.ProcessSignals: requires the manager's invariant (exactly the keys day, swing and long, with duplicate-free product lists). Its constructor and both coin commands keep that invariant. Under it, the fixed order day, swing, long visits every registry key once (`Strategies.StrategyOrderCoversRegistry`), in the registry's insertion order.
- Strategies.StrategyManager.GetStrategyCoins: returns the list by value. The source returns the live list, so a caller that mutates it is not modelled.
- Monitor.BuyLeg: requires a price other than 0. Its only caller reaches it after `if not current_price` has skipped a zero price.
- Engine.SellUndoesBuy: also requires a non-negative starting coin balance, which holds for every balance the engine produces (`Engine.RunKeepsNonNegative`).
- Monitor.StepKeepsNonNegative: requires non-negative prices, which is what the price API returns but not something the code checks.
- Whitespace and case are ASCII only. Python's `strip`, `split`, `lower`, `upper` and `isdigit` also act on Unicode whitespace, letters and digits.
- Config.FromDict: returns the field map. It does not model the `Config(**kwargs)` construction, which rejects unknown keys and requires the seven fields without defaults, nor `from_env`'s file handling and `None` values.
- Config.GetAttr: knows the defaults of the three `crypto_*_strategy_coins` settings only. Other fields' defaults are not modelled. That includes the `virtual_trader_*_strategy_coins` settings (`utils/config.py:51-53`), which no modelled code reads.
- Commands.StrategyProducts: models the `add_product` / `remove_product` rules as written (`cogs/crypto.py:541-563`), but in the cog they cannot run. `self.strategy_objects` is assigned only at `cogs/crypto.py:356`, which follows the `return` at line 245 and is never reached, so `crypto_command` raises `AttributeError` at line 424, 436 or 484 before it reaches them. `cog_unload`'s `hasattr` guard (line 413) allows for the missing attribute. The model keeps the rules so that their intended effect is stated.
- `_create_strategies_from_env` beyond the product lists is not modelled. Neither are the cog's other commands (`list_products`, channel lookup, the virtual trader's Discord commands).

## Findings

| source | as written | input that shows it | evidently intended | confidence | as-written member | corrected member |
|---|---|---|---|---|---|---|
| utils/config.py:35-37 | the defaults of the three settings `_get_product_ids_from_env` reads (`cogs/crypto.py:250`, `285`, `321`) are comma-separated, but `_get_product_ids_from_env` in cogs/crypto.py splits on the pipe character | `crypto_day_strategy_coins` not set: the reader gets one id, "AVAX-USD,SOL-USD,ADA-USD,GRT-USD,CRV-USD", and its own fallback list is never used | the defaults written pipe-separated, so that an unset setting yields its five ids | medium; not executed | `Commands.CommaDefaultIsOneId` | `Commands.PipeDefaultsReadBack` |
