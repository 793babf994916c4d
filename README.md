# A verified model of the jujili/exch backtester core

This project models, in Dafny, three sequential parts of the backtester of the Go repository jujili/exch:

- **Assets and balances** (`balances.go`). An `Asset` is a value object with a name, a free quantity and a locked quantity. A `Balance` maps asset names to assets. It is changed in place by batches of deltas and valued at a table of prices.
- **The order book of the backtester** (package `backtest`):
  - orders with a strict priority (`isLessThan`);
  - the singly linked `orderList` behind a sentinel head, with `push` and `pop`;
  - the price gate `canMatch`, on one order and on a list;
  - the SELL-side market fill `matchMarket`.
- **Balance snapshots** (`backtest/balanceService.go`):
  - `newBalanceSnap`, which values a balance at an alarm date;
  - the recording goroutine's loop, as a state machine fed with a sequence of events.

The implementation file of the order book is not part of this model. Only `backtest/orderList_test.go` is, so the order book is modelled on what its live tests assert.

## Modules

| file | module | models |
|---|---|---|
| `panics.dfy` | `Panics` | Go panics and nil dereferences, as `Result<T>` (`Ok` / `Panicked(reason)`) and `Outcome` (`Pass` / `Fail(reason)`) |
| `balances.dfy` | `Balances` | `Asset` (a datatype with `Change`, `UnlockAll`, `LockAll` and `Total`), `Balance` (a class with a `map` field), and `NewBalances` |
| `orders.dfy` | `Orders` | the `order` and `exch.Tick` objects, the priority, `canMatch` and `matchMarket` |
| `orderlist.dfy` | `OrderLists` | `orderList` as a class holding, as a sequence, the chain after its sentinel head |
| `balanceservice.dfy` | `BalanceService` | `balanceSnap`, `newBalanceSnap`, and the recording loop |

### How the main pieces are modelled

**Panics.** A Go panic becomes a `Panicked` value. That covers an explicit `panic`, and also a nil pointer that is dereferenced. Every operation that can panic returns a `Result` or an `Outcome`, and callers propagate it.

**Order priority.** `IsLessThan` is proved against a reference sort key `PriorityOf`. MARKET orders come first, ranked by id. LIMIT orders come next, ranked by price: highest first for BUY, lowest first for SELL. From that key follow the rules the tests state (`PriorityRules`) and the properties the list needs. The relation is strict and transitive, and "not ahead" is transitive too.

**The order list.** `orders[0]` is `head.next`, and each following element is the `next` of the one before it. The last element's `next` is nil.
- `Push` scans from the head and splices the new order in before the first order that is not ahead of it.
- The class invariant `Valid()` says three things:
  - the chain is sorted, so no order is strictly ahead of one placed before it;
  - all its orders can be compared with each other;
  - every order is chained at most once, since an order has a single `next` link (backtest/orderList_test.go:125, 136, 143-151).
- The tests' push and pop scenarios are replayed in `PushScenario` and `PushPopScenario`.

**Balances.**
- `Balance.Change` is a loop over the deltas. It is proved equal to the reference function `ApplyDeltas`, whose properties are lemmas.
- `Balance.Total` loops over the held names in an arbitrary order, as Go's map iteration does. It is proved equal to the order-independent sum `Worth`.

**The recording loop.**
- `Record` is the `for count < 2 { select … }` loop over a sequence of events. It is proved equal to the fold `Run` of the one-turn function `Step`.
- The event sequence stands for the order in which `select` happened to deliver messages.
- A close sets its channel to nil, so its topic is never selected again. `Step` therefore ignores any later event of a closed topic.

### Where the model departs from the text

- **`Balance.Total` returns its sum.** At `balances.go:45`, `Balance.Total` is declared without a result, and the sum it accumulates is discarded. Its doc comment (`balances.go:43`) and its caller (`backtest/balanceService.go:98`) both use it as returning the total. The model returns the total.
- **`Balance.Change` on a name the balance lacks** does not create a zero entry. The code reads the zero `Asset`, whose name is `""` (balances.go:39), so `Asset.Change` panics unless the delta's name is also `""` (balances.go:75-76). `ApplyDeltasPasses` states exactly when a batch completes.

## Model

| member | source | states |
|---|---|---|
| `Balances.Asset.Change` | balances.go:74-83 | panics (name mismatch) exactly when the names differ; otherwise keeps the name, adds free and locked component-wise, and adds the delta's total to the total |
| `Balances.ChangeTwice` | balances.go:74-83 | changing by d1 and then by d2 equals changing once by d1 changed by d2, their component-wise sum |
| `Balances.Asset.UnlockAll` | balances.go:86-92 | keeps the name, leaves nothing locked, keeps the total (free + locked, balances.go:104-106) |
| `Balances.Asset.LockAll` | balances.go:95-101 | keeps the name, leaves nothing free, keeps the total |
| `Balances.LockUnlockAbsorb` | balances.go:86-101 | locking after unlocking is locking, and unlocking after locking is unlocking |
| `Balances.KeyedKeys` | balances.go:13-19 | the balance built by NewBalances holds exactly the names of its arguments, each asset under its own name |
| `Balances.KeyedLatest` | balances.go:15-17 | the asset stored under a name is the last argument with that name; later ones overwrite earlier ones |
| `Balances.NewBalances` | balances.go:13-19 | the loop builds a fresh balance holding the keyed map of its arguments |
| `Balances.Balance.Change` | balances.go:37-41 | the loop leaves the balance and outcome that applying the deltas left to right gives, stopping at the first panicking delta with the earlier ones applied |
| `Balances.ApplyDeltasFrame` | balances.go:37-41 | an entry that no delta names is left as it was (present or absent), whether the batch completes or panics |
| `Balances.ApplyDeltasSums` | balances.go:37-41 | a completed batch adds to each entry the sums of the free and locked parts of the deltas with its name, and each named entry carries its own name |
| `Balances.ChangeOnWellKeyed` | balances.go:74-77 | the entry read for a delta (the lookup of balances.go:39) is changed without panic exactly when the name is held or is "" (the zero Asset's name), and the map stays keyed by name |
| `Balances.Lookup` | balances.go:39 | reading a held name gives its asset; reading a missing name gives the zero asset: empty name, nothing free, nothing locked |
| `Balances.ApplyDeltasWellKeyed` | balances.go:37-41 | every entry stays stored under its own name, whether the batch completes or panics |
| `Balances.AllHeldStore` | balances.go:39 | storing a new asset under a name that is held (or under "") does not change which delta names are held |
| `Balances.ApplyDeltasPassesHeld` | balances.go:37-41 | on a balance keyed by name, a batch completes exactly when, delta by delta, each names a held asset or "" |
| `Balances.AllHeldNames` | balances.go:39 | the delta-by-delta condition is the same as: every delta's name is held or is "" |
| `Balances.ApplyDeltasPasses` | balances.go:37-41 | on a balance keyed by name, a batch completes exactly when every delta names a held asset or "" |
| `Balances.ApplyDeltasConcat` | balances.go:37-41 | applying two batches in turn is applying their concatenation, and a panic in the first skips the second |
| `Balances.SumOverPick` | balances.go:47-54 | the sum of asset values does not depend on the order in which map iteration visits the names |
| `Balances.SumOverAgree` | balances.go:47-54 | two balances whose assets have equal totals are worth the same |
| `Balances.WorthUpdate` | balances.go:47-54 | replacing one held asset changes the worth by the difference of its old and new values |
| `Balances.WorthSingle` | balances.go:47-54 | a balance holding one priced asset is worth that asset's total times its price |
| `Balances.Balance.Total` | balances.go:45-55 | completes exactly when every held asset has a price, panics with a missing price otherwise, and returns the sum of (free + locked) times price over held assets |
| `Orders.IsLessThan` | backtest/orderList_test.go:46-109 | a nil receiver is never less; different sides panic; it completes exactly for same-side MARKET/LIMIT orders, and then agrees with the reference priority key |
| `Orders.PriorityRules` | backtest/orderList_test.go:55-98 | MARKET is ahead of LIMIT and never behind; MARKETs are ahead by ascending id, LIMIT BUY by descending price, LIMIT SELL by ascending price (each an if-and-only-if) |
| `Orders.PrecedesAsymmetric` | backtest/orderList_test.go:62-97 | priority is strict: never both a ahead of b and b ahead of a, and no order is ahead of itself |
| `Orders.PrecedesTransitive` | backtest/orderList_test.go:55-98 | being ahead is transitive |
| `Orders.NotPrecedesTransitive` | backtest/orderList_test.go:55-98 | among comparable orders, being tied or behind is transitive, so priority is a strict weak order |
| `Orders.PrecedesTrichotomy` | backtest/orderList_test.go:55-98 | two comparable orders are ordered one way or the other, or have the same priority key |
| `Orders.CanMatch` | backtest/orderList_test.go:439-453 | nil gives false, MARKET gives true, LIMIT BUY is true iff price <= its price, LIMIT SELL iff price >= its price, and any other type panics |
| `Orders.CanMatchFollowsPriority` | backtest/orderList_test.go:395-437 | an order not behind another trades at every price the other trades at |
| `Orders.SellFill` | backtest/orderList_test.go:471-523 | trades no more than the order's quantity and the tick's volume, equal to one of them; each remainder plus the traded amount is the original, and one remainder is zero |
| `Orders.SellFillExamples` | backtest/orderList_test.go:497-523 | the fills the source's test cases assert: 100 against volumes 75, 100 and 125 |
| `Orders.SellDeltas` | backtest/orderList_test.go:479-495 | two deltas, named after the order's asset and capital; the asset's free part and the capital's locked part are 0; the asset loses `traded`, the capital gains price times `traded` |
| `Orders.SellWorthSteps` | backtest/orderList_test.go:479-495 | the asset losing `traded` units at `price` and the capital, valued at 1, gaining `price * traded` leave the balance's worth unchanged |
| `Orders.SellDeltasKeepWorth` | backtest/orderList_test.go:479-495 | applying a SELL fill's deltas to a balance holding both assets completes and keeps its value, when the asset is priced at the fill price and the capital at 1 |
| `Orders.MatchMarket` | backtest/orderList_test.go:463-523 | a non-MARKET order panics, touching nothing; a nil tick panics; a MARKET SELL order and the tick are both decreased by the SellFill amount, and the asset and capital deltas are returned |
| `OrderLists.InsertionPoint` | backtest/orderList_test.go:113-153 | the splice position: every order before it is ahead of the new order, and the one at it is not |
| `OrderLists.InsertKeepsChain` | backtest/orderList_test.go:113-153 | splicing an order of the same book in at its insertion point keeps the chain sorted and comparable throughout |
| `OrderLists.InsertionPointTies` | backtest/orderList_test.go:113-153 | the splice point begins the new order's tie run: no order from it on is ahead of the new order, and every order tied with it stays behind it (newest first among ties) |
| `OrderLists.SpliceDistinct` | backtest/orderList_test.go:113-153 | splicing in an order that is not yet in the chain keeps every order chained at most once |
| `OrderLists.HeadGates` | backtest/orderList_test.go:395-437 | in a sorted chain of one book, the first order trades at a price exactly when some order of the chain does |
| `OrderLists.OrderList.constructor` | backtest/orderList_test.go:122 | a new list is empty and valid |
| `OrderLists.OrderList.Push` | backtest/orderList_test.go:113-153 | takes an order not yet chained; keeps the chain sorted, of one book, and with every order chained once; fails exactly when the new order cannot be compared with the chain, leaving it unchanged; otherwise splices the order in at its insertion point |
| `OrderLists.OrderList.Pop` | backtest/orderList_test.go:156-203 | returns nil on an empty list; otherwise returns the head order and removes it, keeping the chain sorted |
| `OrderLists.OrderList.CanMatch` | backtest/orderList_test.go:395-437 | an empty list gives false; the list trades at a price exactly when one of its orders does; it panics exactly when its first order is of an unsupported type, which only a one-order chain can hold; otherwise it gives false (the tests' `ShouldBeFalse`, backtest/orderList_test.go:405, 421, 433) |
| `OrderLists.PushScenarioPoints` | backtest/orderList_test.go:121-141 | where each push of the test splices its order |
| `OrderLists.PushScenarioFirstHalf` | backtest/orderList_test.go:121-130 | pushing the LIMIT BUY at 100000 and then the first MARKET BUY chains the MARKET order first |
| `OrderLists.PushScenario` | backtest/orderList_test.go:113-153 | pushing a LIMIT BUY at 100000, two MARKET BUYs and a LIMIT BUY at 90000 gives MARKET, MARKET (by id), LIMIT 100000, LIMIT 90000 |
| `OrderLists.PushPopScenario` | backtest/orderList_test.go:156-203 | that list pops in priority order, then yields nil, and nil again |
| `BalanceService.Snap` | backtest/balanceService.go:95-101 | a nil balance panics, a held asset without a price panics, and otherwise the snapshot carries the date, the balance's worth and the asset's price (0 when it has none) |
| `BalanceService.NewBalanceSnap` | backtest/balanceService.go:95-101 | yields that snapshot, or the panic, for the balance it is given |
| `BalanceService.Start` | backtest/balanceService.go:31-34 | the first tick adds the tracked asset's price and leaves every other price; no balance, no snapshot, both topics open |
| `BalanceService.Step` | backtest/balanceService.go:60-80 | a tick changes only the tracked price, a balance message only the balance, a close only the count and its open flag, each only while its topic is open; an alarm appends one snapshot or propagates its panic |
| `BalanceService.Record` | backtest/balanceService.go:52-82 | the loop yields the state that folding Step over the events gives, stopping once the count reaches 2 |
| `BalanceService.RunCountsCloses` | backtest/balanceService.go:55-74 | the count stays the number of closed topics, so it never passes 2, is 2 exactly when both topics are closed, and never goes down |
| `BalanceService.RunStopsAtTwo` | backtest/balanceService.go:55 | once the count is 2 no further event changes anything |
| `BalanceService.RunConcat` | backtest/balanceService.go:55-82 | delivering events in two batches is delivering them in one |
| `BalanceService.RunCountGrows` | backtest/balanceService.go:60-74 | the count never decreases |
| `BalanceService.RunSnapshots` | backtest/balanceService.go:77-80 | only alarms append, one snapshot each: earlier snapshots are kept, the new ones are dated by a prefix of the alarms in order, and by all of them if the loop ran out of events |
| `BalanceService.RunPrices` | backtest/balanceService.go:66-68 | every price other than the tracked asset's is kept; the tracked price is the old one or that of a delivered tick |
| `BalanceService.RunBalance` | backtest/balanceService.go:75 | the balance is the old one or one of the delivered balance messages |
| `BalanceService.OneBtcAlarm` | backtest/balanceService.go:77-80 | with one BTC held and BTC priced at p, an alarm appends a snapshot of amount p at price p and changes nothing else |
| `BalanceService.DailySnapshots` | backtest/balanceService.go:52-82 | with USDT at 1 and BTC first at 100, one BTC held and a tick at 110 between two alarms, the snapshots are worth 100 and 110, and the loop ends when both topics close |

## Left out

- Serialisation is not modelled: `exch.EncFunc`, `decOrderFunc`, `DecTickFunc` and the gob decoder `DecBalanceFunc` (balances.go:22-34). Messages arrive at the recording loop already decoded, and `Balance.FromMap` stands for a decoded balance. Decode errors are ignored in the source.
- Concurrency in `BalanceService` is not modelled: goroutines, channels, the nondeterministic choice of `select`, `ps.Subscribe`, `msg.Ack`, and `ctx.Done()` ending the process through `log.Fatalln`. The events are given as one sequence in delivery order.
- The simulated clock is outside the model. This covers `clock.NewSimulator`, `EveryDay` and the goroutine that advances it with `SetOrPanic`. Alarm dates are abstract integers carried by the `Alarm` events.
- The caller's `prices` map is shared with the goroutine and written by it. The model passes it in and keeps it as part of the loop state; aliasing with the caller is not modelled.
- Logging (the `log.Println` calls of backtest/balanceService.go) and the `String` methods are not modelled: they read the state and print it, but never change it.
- float64 rounding is not modelled: all quantities are `real`.
- MatchMarket: BUY-side market fills are not modelled: it requires a MARKET order to be a SELL order. Only commented-out tests (backtest/orderList_test.go:206-393) describe BUY fills and LIMIT fills (`order.match`), and the implementation is not part of this model. No live test fixes the order's `CapitalQuantity` after a SELL market fill either. Keeping it unchanged is the model's choice; the commented-out SELL test (backtest/orderList_test.go:333-336) expects it to change.
- Push: the relative order of orders with equal priority is a choice of the model, not something the source fixes. Examples of ties are LIMIT orders at the same price and MARKET orders with the same id. No test has ties, and the implementation of `push` is not part of this model. The model's scan stops at the first order that is not ahead of the new one. So `Push` puts a new order in front of the orders it ties with: newest first among ties, as `InsertionPointTies` states. Arrival order among ties is therefore not preserved. `Valid()` itself allows ties in either order.
- `IsLessThan` with a nil argument and a non-nil receiver appears in no test case. The model treats it as a nil dereference.
- `push(nil)` is not modelled: `Push` takes a non-nil order.
- Push: pushing an order that is already chained is not modelled. An order has one `next` link, so `Push` requires the order not to be in the list, and `Valid()` keeps every order chained at most once.
- `Asset.Total` is the plain sum `free + locked`. It appears in the contracts of `Change`, `UnlockAll`, `LockAll` and `Balance.Total` rather than having one of its own, and `NewAsset` is the datatype constructor `Asset(name, free, locked)`.
