# Pastofi trading, order book and execution: a model with proofs

The repository trades short-lived signals on crypto futures. A collector keeps a local order book in
step with the exchange and publishes the best levels. A feed turns those records and the public
trades into input for one incremental signal engine per symbol and day, live and in replay. A trader
turns the engine's signals into orders behind a risk guard, and a simulated exchange fills them.
This project models those parts and proves what they promise.

## What is proved, part by part

**Signal engine, feed and replay** (`Basics`, `Tape`, `Signal`, `Causality`, `LogicViews`,
`Decisions`, `VolumeIndex`, `Engine`, `Schedules`, `DayData`, `Callbacks`, `Feed`, `Replay`, `CutDay`). `Signal`
defines every decision and exit on complete streams, one logic at a time, without incremental state, and
`Decisions` says in quotes, volumes and prices what that definition comes to. The class
`SymbolEngine` has the arrays, late insertions, pruning and position machine of the code; each of its
methods keeps it equal to that definition. From this follow confluence over arbitrary legal schedules,
transparency of pruning, independence of the two logics, and the equality of the live path (`RunDay`)
and the batch loop (`RunBatch`).

**Order book** (`Ladders`, `OrderBook`, `BookSync`, `BufferRuns`, `TopOfBook`). The exchange is a history of absolute
level changes; events and snapshots are true statements about it, delivered, lost or delayed at will.
The synchroniser's coroutine is a state machine with one step per stretch between two suspensions.

**Swing labels** (`Swings`), **position and simulated exchange** (`Positions`, `Paper`, `BookWalk`,
`Polling`, `PriceRules`), **risk guard** (`RiskGuards`, `GuardRuns`, `CapBounds`), **trader** (`Ledger`,
`Accounts`, `LedgerAgrees`, `StopLooks`, `LeftoverRun`, `Lifecycle`, `Traders`), **working a night's order**
(`NightWork`) and **order sizes** (`Sizing`).

Where the code changes state, a class has its fields and each method's contract equates the new state
with a pure function of the old one; the theorems about runs are lemmas about those functions.

## Where a promise needs a condition

- Live and batch return the same trades exactly if no entry is cut off: a deadline at midnight, no crossing
  before the day's last second and a quote in that second (`Replay.LiveIsBatch`; a day on which they differ:
  `CutDay.LoopsDiffer`). The frozen parameters end entries 300 s before it.
- A resting order meets every later trade exactly if no trade already read for other orders would have
  fired it when it was placed (`Polling.TrackingIsExact`); a clock that is not behind the trades read is
  enough (`Polling.InTimeHeeds`). A lagging clock: `Polling.ClockBehind`.
- The position limit holds over runs whose entries are on one side, as both strategies' are. In general the
  position on a side can still reach what is held there plus the entries resting there: a position against
  that side can be closed by reduce-only orders first, which the guard never stops (`CapBounds.ReachIsExact`).
  So the limit stays out of reach exactly if each entry that is taken leaves room for it on its own side
  (`CapBounds.RoomIsExactForRuns`). The guard's test nets the sides (`CapBounds.GuardNets`) and passes orders
  that reduce; two runs it lets through end at twice the limit (`CapBounds.MixedRun`, `CapBounds.ReducedRun`).
- A trade that reaches the feed after its second was handed over is not lost: with whole quantities the day's
  exits are those of the definition if it is newer than the windows already used and a tick follows
  (`Feed.SymbolFeed.FinishDay`). Fractions of a unit are rounded at each hand-over, so parts of one second that
  are handed over apart need not add up.
- Ledger and broker agree, and no order outlives its record, after every step of a run exactly if no
  periodic look at the emergency stop finds it filled while the maker exit rests
  (`LedgerAgrees.EveryRunAgrees`), which can be told before the look (`StopLooks.SafeLook`): `_check_stop`
  books the stop without cancelling that order. After an unsafe look they differ by exactly what the order
  left behind earns on a later short, which may be nothing (`LedgerAgrees.LedgerAgainstBroker`); a run in
  which they differ: `LeftoverRun.LedgerDrifts`.
- Working an order leaves the market order its number, 99, at every venue exactly if the window is at most
  99 seconds (`NightWork.Work`, `NightWork.HundredOrders`).
- The rule for rising swing phases holds for a completed falling one exactly if it holds up to the fall's
  confirmation (`Swings.MirrorRule`); a series in which it does not: `Swings.NoMirrorRule`.

## Conventions

Times are integer milliseconds within one UTC day, seconds are integers. Prices and quantities are exact
reals; rounding to eight decimals and the tolerances of 1e-9 and 1e-12 disappear with the
floating-point error they guard against, except the one in the size formula. The logarithm and the
tick-size table are function parameters. Clocks, market answers and the kill switch are parameters of the
operation that asks for them. Strings that only explain (reasons, alerts) are shortened or dropped.

## Model

| member | source | states |
|---|---|---|
| `Tape.WindowIsDifference` | src/strategies/pastofi_crypto/engine.py:314-315 | for quotes in time order, the order-flow imbalance summed over a window is the difference of two running totals looked up by bisection |
| `Tape.AddVolumeIn` | src/strategies/pastofi_crypto/engine.py:146-161 | a trade adds its quantity to exactly the windows that contain its second |
| `VolumeIndex.RecordedShifts` | src/strategies/pastofi_crypto/engine.py:155-165 | inserting a trade at any position, late or not, raises the cumulative lookup by its quantity from its second on and nowhere else |
| `VolumeIndex.RecordedIncreasing` | src/strategies/pastofi_crypto/engine.py:150-161 | the list of seconds stays strictly increasing for any arrival order |
| `VolumeIndex.RecordKeepsIndex` | src/strategies/pastofi_crypto/engine.py:146-165 | after a trade of any age every window that starts at or after the pruning floor is still the plain sum |
| `VolumeIndex.DropKeepsIndex` | src/strategies/pastofi_crypto/engine.py:404-407 | deleting old seconds leaves every window from the new floor on equal to the plain sum |
| `Engine.MeasurementsExact` | src/strategies/pastofi_crypto/engine.py:300-321 | the two mids, the imbalance and the volume measured on the pruned arrays are those of the complete streams, given windows that fit into the kept history |
| `Engine.SymbolEngine.FeaturesNow` | src/strategies/pastofi_crypto/engine.py:300-321 | the indicator values, or none, are the ones defined on every quote and trade ever accepted |
| `Engine.SymbolEngine.OnTrade` | src/strategies/pastofi_crypto/engine.py:146-161 | adds to the complete volume record unless side or quantity excludes the trade; what the engine has decided still follows the definition when the trade is not late |
| `Engine.SymbolEngine.OnQuote` | src/strategies/pastofi_crypto/engine.py:167-198 | appends exactly the quotes that change the best levels, counts the others, keeps the running imbalance |
| `Engine.SymbolEngine.OnFutQuote` | src/strategies/pastofi_crypto/engine.py:200-216 | appends two-sided futures quotes and closes each open position exactly when the quote crosses its take-profit or stop |
| `Engine.SymbolEngine.CheckExit` | src/strategies/pastofi_crypto/engine.py:263-278 | a position closes on this quote exactly if it crosses, for the reason it crosses |
| `Engine.SymbolEngine.TimeExit` | src/strategies/pastofi_crypto/engine.py:280-287 | the deadline closes at the last futures quote at or before it |
| `Engine.SymbolEngine.Enter` | src/strategies/pastofi_crypto/engine.py:375-382 | a new position is closed at once when its exit quote had already arrived, and not otherwise |
| `Engine.SymbolEngine.Consider` | src/strategies/pastofi_crypto/engine.py:347-382 | the entry rules in order (chain of skipped signals, stock quote, futures quote, limit band, futures filter) change exactly the counters and the position the rules name |
| `Engine.SymbolEngine.Judge` | src/strategies/pastofi_crypto/engine.py:335-382 | the shared loop over both logics, with its shared cache and its common break, does to each logic what that logic alone would do |
| `Engine.SymbolEngine.Second` | src/strategies/pastofi_crypto/engine.py:323-383 | one second maps each logic's state by a function of the complete streams alone, pruning included |
| `Engine.SymbolEngine.Prune` | src/strategies/pastofi_crypto/engine.py:385-407 | deletes only what no later lookup can ask for: the arrays still represent the complete streams |
| `Engine.SymbolEngine.Advance` | src/strategies/pastofi_crypto/engine.py:220-223 | decides every second up to T and leaves each logic in step with its definition |
| `Engine.SymbolEngine.Finish` | src/strategies/pastofi_crypto/engine.py:225-235 | no position is left open and each logic's trades are the day's trades by definition |
| `Causality.RunCausal` | src/strategies/pastofi_crypto/engine.py:21-24 | no look-ahead: the decisions up to second t depend only on quotes up to t and trades up to second t - guard - ofi_win |
| `Causality.InputsCausal` | src/strategies/pastofi_crypto/engine.py:300-321 | the four measured quantities at t are a function of quotes up to t and of trades up to second t - guard - ofi_win |
| `Causality.ExitCausal` | src/strategies/pastofi_crypto/engine.py:263-298 | an exit that is decided, by a crossing or by the deadline, is not changed by later quotes |
| `Causality.ExitIsDeclarative` | src/strategies/pastofi_crypto/engine.py:263-298 | a trade closes at the first quote in (t_in, t_sig + hold] whose exit-side price reaches the target (take-profit) or else the stop (stop-loss), otherwise at the last quote up to t_sig + hold, and its times lie in that order |
| `Causality.DayInOrder` | src/strategies/pastofi_crypto/engine.py:335-382 | in every day's trades t_in <= t_sig, t_in <= t_out <= t_sig + hold, signals strictly increase and each trade is over before the next signal |
| `Decisions.ImbalanceIsSum` | src/strategies/pastofi_crypto/engine.py:184-193 | the imbalance of a window is the sum, over its quotes after the first of the day, of what each adds after its predecessor, given for all nine cases of the two prices |
| `Decisions.SignalIs` | src/strategies/pastofi_crypto/engine.py:300-343 | a second signals exactly if its windows lie in the session and the mids at their ends moved by move_bp while the imbalance, with the quotient multiplied out, is beyond ofi_th times the volume per minute on the other side; and the entry remembers these quantities |
| `Decisions.StepIs` | src/strategies/pastofi_crypto/engine.py:323-382 | a second does nothing unless it is in the entry window, the logic holds nothing (no closing quote so far, time not up) and there is a signal; then it prolongs the skip chain, counts a missing futures quote or the limit band, is skipped by size or spread in ticks, or enters at the bid or ask in force |
| `Decisions.DayIs` | src/strategies/pastofi_crypto/engine.py:323-383 | the run that every execution is measured against starts fresh and takes exactly these decisions second by second |
| `Decisions.ExitIs` | src/strategies/pastofi_crypto/engine.py:263-298 | every figure of a trade: the first quote after the entry and within the holding time that reaches target or stop closes it, else the last by then; at the ask for a short and the bid for a long; reason, gross by the logarithm with the sign of the side, net of the cost |
| `Decisions.TradesAre` | src/strategies/pastofi_crypto/engine.py:225-298 | the trades of a day are its entries, one for one, with these figures |
| `LogicViews.HeldIsBusy` | src/strategies/pastofi_crypto/engine.py:336-337 | the engine's cheap test (a position, or a last exit in the future) agrees with the definition of a busy logic, whether or not the exit quote was already fed |
| `LogicViews.FollowsFuture` | src/strategies/pastofi_crypto/engine.py:200-216 | a futures quote of any later time keeps the incremental state equal to the definition over the longer stream |
| `LogicViews.FollowsStock` | src/strategies/pastofi_crypto/engine.py:167-198 | so does a stock quote that is later than the last decided second |
| `LogicViews.FollowsVolume` | src/strategies/pastofi_crypto/engine.py:146-161 | so does a trade that no past decision could use, however old |
| `LogicViews.SecondFollows` | src/strategies/pastofi_crypto/engine.py:323-383 | so does deciding one more second |
| `LogicViews.FollowsToTheEnd` | src/strategies/pastofi_crypto/engine.py:225-235 | at the close the state contains exactly the trades of the definition |
| `Schedules.RunSchedule` | src/strategies/pastofi_crypto/engine.py:21-24 | confluence: any interleaving of quotes, trades and clock steps in which data precede the decisions that use them gives, for each logic, the trades defined by the three streams; neither early data, nor pruning, nor the other logic shows |
| `Feed.SymbolFeed.OnL1` | src/strategies/pastofi_crypto/feed.py:96-114 | a record starts the day's engine with its mid as reference, is skipped if it repeats the best levels, and is otherwise both a stock and a futures quote |
| `Feed.SymbolFeed.RecordCounts` | src/strategies/pastofi_crypto/feed.py:107-114 | behind the feed's own duplicate test the engine's never fires, and the engine sees exactly the kept records, scaled |
| `DayData.KeptIs` | src/strategies/pastofi_crypto/feed.py:107-114 | one more record: dropped if all four values repeat the one before, else kept with both quantities scaled; a futures quote if its ask is above a positive bid |
| `DayData.QtyIs` | src/strategies/pastofi_crypto/feed.py:119-131 | one more trade record counts in its own second on the aggressor's side and nowhere else |
| `DayData.UnitsIs` | src/strategies/pastofi_crypto/feed.py:139-143 | the engine gets the nearest whole number of units, ties to even, or nothing below one |
| `Feed.ConfigIs` | src/strategies/pastofi_crypto/feed.py:103-106 | the day's reference price is the mean of its first best bid and ask |
| `Feed.SymbolFeed.OnTrade` | src/strategies/pastofi_crypto/feed.py:119-131 | quantities are added per second and side, before and after the engine exists, and late ones are counted; a whole quantity newer than the windows in use keeps engine and feed together equal to the records, late or not |
| `Feed.GiveSeconds` | src/strategies/pastofi_crypto/feed.py:139-143 | the totals of the seconds before T go to the engine, in any order, and only those |
| `Feed.AllGiven` | src/strategies/pastofi_crypto/feed.py:139-143 | after that the engine's volume is the rounded volume of all records of the seconds before T |
| `Feed.SymbolFeed.Tick` | src/strategies/pastofi_crypto/feed.py:134-146 | trades before T first, then the decisions up to T, then the callbacks |
| `Feed.SymbolFeed.Emit` | src/strategies/pastofi_crypto/feed.py:188-204 | the callbacks made so far are those the engine state calls for, including a position opened and closed in one call |
| `Feed.SymbolFeed.CallbacksTellTheTrades` | src/strategies/pastofi_crypto/feed.py:188-204 | at any moment entries and exits alternate, each exit answers the entry before it, and the exits are the engine's trades of the traded logic |
| `Callbacks.StreamAlternates` | src/strategies/pastofi_crypto/feed.py:188-204 | the callback stream of any state alternates entry and exit |
| `Callbacks.ExitsOfStream` | src/strategies/pastofi_crypto/feed.py:188-204 | its exits are the closed trades one for one |
| `Feed.SymbolFeed.FinishDay` | src/strategies/pastofi_crypto/feed.py:148-156 | the day's exit callbacks are the day's trades by definition, with late whole quantities too once a tick has handed them over, and the engine is dropped |
| `Replay.RunDay` | src/strategies/pastofi_crypto/replay.py:53-85 | merging records by time and ticking each second after its delay returns the day's trades by definition, for all inputs |
| `Replay.RunBatch` | tests/test_pastofi_crypto_feed.py:50-83 | the plain batch loop (quotes up to T, trades up to T - 1, decide T) returns the trades defined by the quotes it feeds; these are the live path's if and only if no entry is cut off |
| `Replay.LiveIsBatch` | tests/test_pastofi_crypto_feed.py:68-78 | live path and batch loop return the same trades if and only if no entry of the day is cut off: deadline at midnight, no crossing before the last second, a quote in it |
| `Replay.CutExact` | tests/test_pastofi_crypto_feed.py:68-78 | leaving out the last second's quotes changes the exit of an entry exactly if it is cut off |
| `Replay.NeverCutOff` | tests/test_pastofi_crypto_feed.py:68-78 | parameters that put no deadline on midnight always give the same trades |
| `Replay.LastSecondIsEnough` | tests/test_pastofi_crypto_feed.py:68-78 | quotes after 86399.0 s, which the batch loop never feeds, change no trade when no deadline falls on midnight |
| `Replay.FrozenFits` | src/strategies/pastofi_crypto/spec_v3.yaml:23-41 | the frozen parameters meet the window conditions and put no deadline on midnight |
| `CutDay.LoopsDiffer` | tests/test_pastofi_crypto_feed.py:68-78 | a concrete day of four quotes and one trade on which the two loops return different trades |
| `OrderBook.LocalOrderBook.ApplySnapshot` | src/exchange/orderbook.py:44-53 | the sides are the snapshot's positive levels and the copy waits for its first event |
| `OrderBook.LocalOrderBook.ApplyDiff` | src/exchange/orderbook.py:55-77 | applies, drops or reports a gap as the sequence rule says; only an applied event changes the copy |
| `OrderBook.LocalOrderBook.ApplyLevels` | src/exchange/orderbook.py:79-86 | absolute quantities replace, zero removes |
| `OrderBook.SnapshotIsExact` | src/exchange/orderbook.py:44-53 | a snapshot of State(L), of any age, makes the copy State(L) |
| `OrderBook.DiffKeepsExact` | src/exchange/orderbook.py:55-77 | an event that passes the sequence rule takes an exact copy at update k to the exact copy at its own last update |
| `OrderBook.CheckIsNeeded` | src/exchange/orderbook.py:68-70 | without the rule it would not: a skipped update is lost |
| `Ladders.Top` | src/exchange/orderbook.py:101-105 | the n best levels, best first |
| `Ladders.TopListIsTop` | src/exchange/orderbook.py:101-105 | in strict price order, with the book's quantities, and no better level is left out |
| `Ladders.TopBids` | src/exchange/orderbook.py:101-105 | in prices: bids from the highest down, all if there are fewer than asked for, none left out that is above one shown |
| `Ladders.TopAsks` | src/exchange/orderbook.py:101-105 | asks from the lowest up, none left out that is below one shown |
| `BookSync.BookSynchronizer.OnDiff` | src/exchange/ws.py:114-125 | buffers (dropping the oldest beyond the limit) while not synchronised, otherwise applies or starts over on a gap |
| `BookSync.BookSynchronizer.Reset` | src/exchange/ws.py:127-132 | cancels the task, empties buffer and copy |
| `BookSync.BookSynchronizer.SnapshotCame` | src/exchange/ws.py:160-181 | snapshot and replay are one step that ends synchronised or keeps the events from the first gap on |
| `BookSync.EveryRunIsSound` | src/exchange/ws.py:114-184 | in every run with lost events, old snapshots, cut buffers, gaps and resets: a copy that stands at update k is the exchange's State(k); synchronised means an empty buffer; a copy that follows the stream stands at the last delivered event |
| `BookSync.LossIsNoticed` | src/exchange/ws.py:134-142 | while following, the next delivery is a gap exactly when an event in between was lost |
| `BookSync.ReplayFinishes` | src/exchange/ws.py:167-181 | for any buffer: exactly when a snapshot and the buffered events fit together |
| `BookSync.ContiguousFinishes` | src/exchange/ws.py:167-181 | with nothing lost from the buffer: exactly if the snapshot is newer than all of it or lies inside one of its events |
| `BookSync.DenseFinishes` | src/exchange/ws.py:148-184 | when events leave no update id out, only a snapshot older than the first buffered event fails |
| `BufferRuns.BufferIs` | src/exchange/ws.py:114-121 | in every run, while a resynchronisation is pending, the newest events delivered since it began wait in order, as many as the limit allows, less those a failed replay has used up |
| `BufferRuns.SnapshotLeaves` | src/exchange/ws.py:164-179 | a snapshot that does not end the attempt leaves exactly the events from the first one on that does not fit it |
| `BufferRuns.TaskIs` | src/exchange/ws.py:127-184 | a failed fetch waits and keeps the buffer, waking fetches again, a reset drops task, buffer and book |
| `BufferRuns.SnapshotIsEnough` | src/exchange/ws.py:114-184 | over runs with nothing lost since the start or a reset and no more events than the buffer holds: a snapshot inside one of them, not older than earlier ones, ends synchronised at the last event |
| `TopOfBook.OrderBookCollector.HandleDepth` | src/exchange/ws.py:292-304 | publishes after an event only while synchronised and following, and only a change |
| `TopOfBook.EveryRecordIsTrue` | src/exchange/ws.py:312-322 | every published record of every run shows the exchange's own best levels after the update it names |
| `TopOfBook.RecordsAreChanges` | src/exchange/ws.py:315-322 | in every run two neighbouring records show the same levels only if the connection was lost between them |
| `TopOfBook.LatestIsShown` | src/exchange/ws.py:302-322 | no change goes unpublished: after a delivery that leaves the book synchronised and following, the last record shows its best levels |
| `TopOfBook.PublishedOnly` | src/exchange/ws.py:302-322 | nothing else is published |
| `Swings.Pass` | research/overnight/common.py:154-166 | the pass computes the fold that the lemmas are about |
| `Swings.PassFits` | research/overnight/common.py:154-166 | after any number of prices: turns alternate, each completed phase after the first moved by the threshold and ends at its first extreme, no rising phase contains a fall of the threshold, and the open phase is described by its extreme |
| `Swings.TurnsAlternateAndGrow` | research/overnight/common.py:154-166 | turns alternate and, after the first, strictly increase |
| `Swings.NoMirrorRule` | research/overnight/common.py:162-166 | one price series shows that the mirror image of the rule for rising phases can fail: before a fall is confirmed the price rises by the threshold inside the falling phase |
| `Swings.MirrorRule` | research/overnight/common.py:162-166 | a completed falling phase obeys the mirror image exactly if its prices before the confirmation (the first price fallen by the threshold) do; from the confirmation on nothing can break it |
| `Swings.TurnsOrdered` | research/overnight/common.py:154-166 | the turns are in order for any prices and any threshold |
| `Swings.Label` | research/overnight/common.py:154-171 | every day carries the phase of the turn that governs it |
| `Swings.EveryDayPainted` | research/overnight/common.py:167-170 | every day lies in some phase, so no label is left unset |
| `Positions.Position.Apply` | src/execution/types.py:103-121 | the new position, and what the fill realized |
| `Positions.FillsBook` | src/execution/types.py:103-121 | over any fills (adds, partial closes, reversals): realized - qty * entry equals the cash flow; quantity and fees are sums; flat means entry 0 |
| `Positions.FillDoes` | src/execution/types.py:103-121 | adding averages the entry and realizes nothing, closing a part realizes on it and keeps the entry, closing all leaves none, turning over opens the rest at the new price |
| `Positions.MarkedToMarket` | src/execution/types.py:103-121 | at every mark realized plus unrealized gains are the cash flow plus the marked position |
| `Paper.PaperExchange.PlaceMarket` | src/execution/paper.py:75-82 | one order per id; filled at once against the book, or expired if reduce-only and not reducing |
| `Paper.PaperExchange.PlaceLimitGtx` | src/execution/paper.py:84-97 | rests, or expires when it would cross or does not reduce |
| `Paper.PaperExchange.PlaceStopMarket` | src/execution/paper.py:99-108 | rests, or is rejected when the last price is already past the stop |
| `Paper.PaperExchange.Cancel` | src/execution/paper.py:110-114 | closes an open order; refused for unknown or closed ones |
| `Paper.PaperExchange.CancelAll` | src/execution/paper.py:116-117 | closes every open order |
| `Paper.PaperExchange.Poll` | src/execution/paper.py:120-139 | every resting order meets every unread trade in order |
| `Paper.PaperExchange.RecordFill` | src/execution/paper.py:199-210 | the fill is whole: order, fills, position and fees move together, and the average is the price |
| `Paper.Walk` | src/execution/paper.py:165-176 | the cost of walking the levels, the excess at the worst one |
| `BookWalk.WalkIsCheapest` | src/execution/paper.py:165-176 | no way of taking the quantity from the levels costs a buyer less than the walk |
| `BookWalk.WalkIsAllowed` | src/execution/paper.py:165-176 | the walk is itself such a way |
| `BookWalk.WalkEarnsMost` | src/execution/paper.py:165-176 | no way earns a seller more |
| `Polling.NewsUpTo` | src/execution/market.py:70-82 | the market query returns exactly the trades after the reading position, in order |
| `Polling.PollSplits` | src/execution/paper.py:120-139 | two polls over growing data end with the same statuses, quantities, position, touches and reading position as one; with no stop open also with the same prices and money |
| `Polling.AnyPolling` | src/execution/paper.py:120-139 | so does any number of polls at any moments, with any books and clocks: these decide only the price, fee and time of a fired stop |
| `Polling.FiredDone` | src/execution/paper.py:120-197 | the first of the trades read that fires an order settles it with the position held at that moment: expired if it is reduce-only and no longer reduces, otherwise filled whole, a limit order as maker at its own price and the time of the trade, a stop as taker at the walk price of the book |
| `Polling.RestingByDefinition` | src/execution/paper.py:120-197 | after any heedful run ending in a poll: a resting order is open only if no trade since it was placed fires it, and a filled limit order was filled whole, at its own price, as maker, by the first trade that went through it |
| `Polling.RestedByDefinition` | src/execution/paper.py:120-197 | any order, limit or stop, that ever rested: later it rests unchanged, was cancelled, or was closed by a poll that read the first trade of the whole tape that fires it; the position held when they met decides between expiry and a whole fill, whose id, quantity, price, fee and time are on record |
| `Polling.TrackingIsExact` | src/execution/paper.py:120-151 | after every step of a run every order has heeded every trade read, if and only if every placement that comes to rest was heedful: no trade already read for other orders would have fired it |
| `Polling.InTimeHeeds` | src/execution/paper.py:212-215 | a clock that is not behind the trades read makes a placement heedful |
| `Polling.MissedTrade` | src/execution/paper.py:212-215 | an order stamped before a trade already read that would fire it never meets that trade |
| `Polling.ClockBehind` | src/execution/paper.py:212-215 | a run in which that happens: the bid stays open although a later trade went through it |
| `Polling.GtxNeverTakes` | src/execution/paper.py:84-97 | placing a post-only order fills nothing; it rests exactly if it does not cross and, when reduce-only, reduces |
| `Polling.StopNeverFillsAtOnce` | src/execution/paper.py:99-108 | a stop already reached is rejected, any other rests; neither fills when placed |
| `Polling.RepeatedId` | src/execution/paper.py:76-77 | a repeated id places nothing and answers with the order it names |
| `PriceRules.OnArrival` | src/execution/paper.py:75-108 | a new order in prices: post-only rests strictly inside the opposite best, a stop is rejected if the last price has reached it, a reduce-only order the position does not allow expires |
| `PriceRules.CancelIs` | src/execution/paper.py:110-118 | cancelling closes the open order of that id and nothing else; any other id changes nothing |
| `PriceRules.RestingInPrices` | src/execution/paper.py:120-197 | after a heedful run ending in a poll: a bid is open only if no later trade printed below it, an offer only if none above, a stop only if none reached it; a limit order filled whole at its own price, as maker, at the first trade strictly beyond it |
| `PriceRules.RestedInPrices` | src/execution/paper.py:120-197 | whatever ever rested is unchanged, cancelled, or left by a poll that read the first trade taking it: filled whole, a stop at the walk of that poll's book, or expired as an excess reduction |
| `PriceRules.TouchIsFirst` | src/execution/paper.py:178-187 | after a run in time ending in a poll: an open limit order has a touch on record exactly if some later trade printed at its very price, with the time of the first |
| `RiskGuards.RiskGuard.PlaceMarket` | src/execution/risk.py:184-186 | the guard's check, the exchange's step and the refusal count, in that order |
| `RiskGuards.RiskGuard.PlaceLimitGtx` | src/execution/risk.py:188-191 | the same for post-only orders |
| `RiskGuards.RiskGuard.PlaceStopMarket` | src/execution/risk.py:193-197 | stops pass in any status if they reduce the position |
| `RiskGuards.RiskGuard.PreTrade` | src/execution/risk.py:143-155 | reducing orders always pass; others need an active guard and room for the worst case |
| `RiskGuards.LetsIs` | src/execution/risk.py:139-155 | in numbers: any status passes stops and plain orders that are against the position and no larger, and all reduce-only orders; other orders need an active guard and position, pending and order within the limit |
| `RiskGuards.RiskGuard.After` | src/execution/risk.py:157-169 | halted afterwards if and only if halted before or the refusals in a row have reached the limit; anything but a refusal clears the count |
| `RiskGuards.RiskGuard.SetStatus` | src/execution/risk.py:76-83 | a halt is not overwritten by a lower status |
| `RiskGuards.RiskGuard.Unhalt` | src/execution/risk.py:88-95 | the only way out of a halt, refused while the kill switch is on |
| `RiskGuards.RiskGuard.CheckHealth` | src/execution/risk.py:109-115 | halted afterwards if and only if halted before, or the kill switch is on, the clock is too far off or the data too old; otherwise the status stays |
| `RiskGuards.RiskGuard.RecordNight` | src/execution/risk.py:122-132 | halted if and only if halted before or the total is at the loss line; paused if and only if not halted and paused before or the losing streak is long enough |
| `GuardRuns.LossesAreTrailing` | src/execution/risk.py:97-132 | over any run the losing nights counted are those since the last night that did not lose or the last resume |
| `GuardRuns.RejectsAreTrailing` | src/execution/risk.py:157-169 | over any run the refusals counted are those since the exchange last took an order or somebody last reset |
| `GuardRuns.TotalIsSum` | src/execution/risk.py:122-132 | the recorded total is the sum of the nights |
| `GuardRuns.LossLineStops` | src/execution/risk.py:122-155 | from the night on that takes the total to the loss line no order that could add to the position reaches the exchange until somebody resets |
| `RiskGuards.HaltedToTheEnd` | src/execution/risk.py:76-95 | a run that stands halted stays so until somebody resets it |
| `RiskGuards.ReduceOnlyMeets` | src/execution/paper.py:153-197 | a resting reduce-only order never grows or flips the position |
| `RiskGuards.ReduceOnlyMarket` | src/execution/paper.py:75-82 | nor does a reduce-only market order |
| `RiskGuards.StepKeepsCap` | src/execution/risk.py:139-197 | each guarded step keeps the limit, and while the guard is not active the exposure does not grow |
| `RiskGuards.RunKeepsCap` | src/execution/risk.py:139-197 | over any run whose entries are on one side, the position stays on that side and, with every resting entry filled, within the limit |
| `RiskGuards.MixedSidesBreakTheCap` | src/execution/risk.py:143-155 | with entries on both sides it can break: a resting opposite order makes room for a second entry that doubles the position |
| `CapBounds.ReachIsExact` | src/execution/risk.py:139-197 | in any state, with reduce-only orders and stops resting too, and whatever the status of the guard: cancels, reduce-only orders, stops and polls can take the position beyond a bound on one side if and only if what is held there plus the entries resting there exceed it |
| `CapBounds.RoomIsExact` | src/execution/risk.py:143-155 | one guarded step of any kind keeps the limit out of that reach on both sides if and only if an entry that the exchange takes leaves it so on its own side, told before the step |
| `CapBounds.RoomIsExactForRuns` | src/execution/risk.py:139-197 | over any run of guarded orders of every kind: after no step can the steps the guard never stops take the position beyond the limit, if and only if every entry that was taken left that room |
| `CapBounds.GuardNets` | src/execution/risk.py:150-155 | what the guard compares is how far one side can be taken with the order less how far the other can |
| `CapBounds.MixedRun` | src/execution/risk.py:143-155 | three orders from the empty exchange, each passed by the guard, that end at twice the limit |
| `CapBounds.ReducedRun` | src/execution/risk.py:143-155 | a run that breaks it through a reduce-only order: that order closes a short, the two bids that reduced it stay, and one trade fills both |
| `Traders.Trader.OnEntry` | src/strategies/pastofi_crypto/trader.py:184-242 | a signal is taken only when nothing is halted, the guard is active, no record is open and the other gates agree; then a record is opened and its entry queued |
| `Traders.Trader.OnExit` | src/strategies/pastofi_crypto/trader.py:298-311 | an engine exit marks the record it belongs to and queues its exit |
| `Traders.Trader.Periodic` | src/strategies/pastofi_crypto/trader.py:527-560 | retries, maker order, late exit and stop check are queued as the clock asks |
| `Traders.Trader.EnterNow` | src/strategies/pastofi_crypto/trader.py:244-289 | sell at market, rest the emergency stop; without a fill the record is dropped |
| `Traders.Trader.ExitNow` | src/strategies/pastofi_crypto/trader.py:324-367 | clear the maker order, buy back the rest, book the fills |
| `Traders.Trader.PlaceMakerNow` | src/strategies/pastofi_crypto/trader.py:370-397 | one reduce-only bid, known to the record only if it rests |
| `Traders.Trader.PollMakerNow` | src/strategies/pastofi_crypto/trader.py:399-417 | a full maker fill cancels the stop and is booked |
| `Traders.Trader.CheckStopNow` | src/strategies/pastofi_crypto/trader.py:451-473 | a filled emergency stop is booked |
| `Traders.Trader.Finalize` | src/strategies/pastofi_crypto/trader.py:475-512 | the result goes to the shared totals once, the record is closed, the stop line halts |
| `Traders.Trader.WorkOne` | src/strategies/pastofi_crypto/trader.py:244-473 | the next queued task; it keeps ledger and broker in exact agreement if and only if it is not an unsafe look |
| `Lifecycle.SignalIs` | src/strategies/pastofi_crypto/trader.py:184-242 | a signal makes a waiting record exactly if nothing is halted, the guard is active and not killed, no record is there and the gates agree |
| `Lifecycle.EntryOpens` | src/strategies/pastofi_crypto/trader.py:244-289 | the entry of a waiting record that may trade sells all of it at the bids and rests a reduce-only stop for it the set percentage above, rejected only if the last price is there already |
| `Lifecycle.EntryDrops` | src/strategies/pastofi_crypto/trader.py:244-272 | one that may not trade drops its record and orders nothing |
| `Lifecycle.MakerRests` | src/strategies/pastofi_crypto/trader.py:370-397 | below the best ask the reduce-only bid rests and the record knows it, otherwise it expires and the record does not |
| `Lifecycle.MakerFillIsBooked` | src/strategies/pastofi_crypto/trader.py:399-417 | a poll that reads a trade below the resting bid, and none at the stop, books the result at the bid once; nothing is open or held any more |
| `Lifecycle.StopIsBooked` | src/strategies/pastofi_crypto/trader.py:451-473 | a look books the stop's one fill if there is one by then, and else changes nothing |
| `Lifecycle.ExitIs` | src/strategies/pastofi_crypto/trader.py:324-367 | an exit reads, cancels the maker exit and reads again; then it is booked at the maker's fill, at the asks for all of it, or at the stop's fill, as the position tells, with nothing open or held afterwards |
| `Lifecycle.ExitEnds` | src/strategies/pastofi_crypto/trader.py:324-367 | whatever was left over from before and whatever is read meanwhile, an exit leaves no record and books exactly one result |
| `Lifecycle.ClockIs` | src/strategies/pastofi_crypto/trader.py:527-560 | what a second of the clock adds to the queue of an open record, and that it marks the one attempt and the overdue exit |
| `Lifecycle.ClockThenMaker` | src/strategies/pastofi_crypto/trader.py:399-560 | a resting maker exit, one second of the clock and the work it queues, with a trade below the bid: the result is booked at the bid |
| `Lifecycle.ClockThenExit` | src/strategies/pastofi_crypto/trader.py:324-560 | past the deadline, or with an exit to retry: one second of the clock and the work it queues leave no record and one booked result |
| `Lifecycle.ExitSignalIs` | src/strategies/pastofi_crypto/trader.py:298-311 | an engine exit marks the record of its own signal only |
| `Lifecycle.ResumeIs` | src/strategies/pastofi_crypto/trader.py:577-596 | resuming by hand lifts the halt and makes every guard active, unless the kill switch is on |
| `Ledger.VwapGrows` | src/strategies/pastofi_crypto/trader.py:324-367 | the exit price is the average by quantity of the fills, their fees the sum |
| `Traders.Trade` | src/strategies/pastofi_crypto/trader.py:184-596 | the trader run from its start with real objects: with no record open its saved totals are the brokers' but for stray purchases, and exactly theirs, with nothing held, if every look was safe |
| `LedgerAgrees.EntryDoneOk` | src/strategies/pastofi_crypto/trader.py:244-289 | after an entry the record and the broker agree on size, price, fee and stop, or both are flat |
| `LedgerAgrees.ExitDoneOk` | src/strategies/pastofi_crypto/trader.py:324-367 | after an exit the ledger has booked what the broker realized, whichever of maker, market or stop bought back |
| `LedgerAgrees.MakerPlacedOk` | src/strategies/pastofi_crypto/trader.py:370-397 | placing the maker exit keeps record and broker tied together |
| `LedgerAgrees.MakerPolledOk` | src/strategies/pastofi_crypto/trader.py:399-417 | so does polling it |
| `LedgerAgrees.StopAloneIsExact` | src/strategies/pastofi_crypto/trader.py:451-473 | a periodic look at the stop keeps them in exact agreement if and only if the maker exit is not resting when the stop turns out to have filled |
| `StopLooks.SafeLook` | src/strategies/pastofi_crypto/trader.py:451-473 | told before the look, from resting orders and unread trades: it is unsafe exactly if the maker exit rests, none of those trades fires it, and the stop has filled or one of them fires it |
| `LeftoverRun.LedgerDrifts` | src/strategies/pastofi_crypto/trader.py:451-473 | a run with one unsafe look: the maker exit left behind buys back the next signal's short, and with no record open and nothing held the ledger says -2 and the broker -1 |
| `LedgerAgrees.EveryRunAgrees` | src/strategies/pastofi_crypto/trader.py:184-596 | over any interleaving of main-thread steps, resumes and queued tasks, for any number of symbols: every step leaves each record tied to its broker and the totals the sums of what was booked, if and only if every look at a stop is safe |
| `LedgerAgrees.LedgerAgainstBroker` | src/strategies/pastofi_crypto/trader.py:475-512 | for all runs, safe or not, whenever no record is open: the brokers realized and charged what the ledger booked plus exactly what stray purchases (orders that outlived their record) earned and cost; a symbol has one if and only if a signal had both its stop and its maker exit filled; without any the totals agree |
| `LedgerAgrees.LedgerIsBroker` | src/strategies/pastofi_crypto/trader.py:475-512 | in runs whose looks are safe, when no record is open, cum_gross, cum_fees and cum_net are what the brokers realized and charged, and no broker holds a position or an open order |
| `LedgerAgrees.BookedAtMostOnce` | src/strategies/pastofi_crypto/trader.py:475-500 | in every run whose signals come in order each accepted entry is booked at most once |
| `LedgerAgrees.StopLineHolds` | src/strategies/pastofi_crypto/trader.py:510-512 | once something is booked, a net at or below the stop line means halted |
| `LedgerAgrees.HaltTakesNoSignals` | src/strategies/pastofi_crypto/trader.py:229-242 | from a halt on no symbol takes a signal until somebody resumes |
| `NightWork.Work` | src/overnight/runner.py:160-217 | for any venue, partial fills included: never more than qty, a bounded number of post-only orders, at most 99 of them whenever the window is at most 99 s, and all of it filled unless the guard refuses, the remainder is below the minimum notional, the market order does not fill whole or number 99 is already taken |
| `NightWork.HundredOrders` | src/overnight/runner.py:183-216 | a window of 99.001 s at a venue whose orders expire: the hundredth post-only order takes the market order's number and nothing is filled |
| `NightWork.Chase` | src/overnight/runner.py:183-203 | every order is placed at the best price just seen for all that is left; a resting one is looked at after each full interval, dropped as soon as another price is best, and before the time only then; one at a time and one per second at most |
| `NightWork.Venue.CancelQuietly` | src/overnight/runner.py:230-235 | after it nothing rests, whatever filled on the way |
| `NightWork.LastReplaced` | src/overnight/runner.py:169-170 | fills and closes never raise filled plus open |
| `Sizing.OrderUnits` | src/strategies/pastofi_crypto/spec.py:116-126 | the least number of steps that meets step, minimum size and minimum notional; refused without a price |
| `Sizing.LeastIs` | src/strategies/pastofi_crypto/spec.py:116-126 | least and tradable in the exchange's own numbers: a whole number of steps, the minimum size up to the allowance, the minimum notional times the factor |
| `Sizing.GuessNotAbove` | src/strategies/pastofi_crypto/spec.py:120-122 | the first guess is never above the least admissible size, so the loop only corrects upwards |
| `Sizing.Target` | src/strategies/pastofi_crypto/spec.py:129-132 | the largest of the symbols' least notionals |
| `Sizing.EqualNotionalUnits` | src/strategies/pastofi_crypto/spec.py:129-136 | the size nearest to the common target; the final maximum changes nothing |
| `Sizing.SizesAreEqual` | src/strategies/pastofi_crypto/spec.py:129-136 | every symbol ends within half a step's notional of the target, admissible and not below its own minimum |

## Left out

- Engine.SymbolEngine.OnFutQuote: not for one-sided (limit-locked) quotes, which the feed never supplies; with
  them the exit waits for an unlocked price and then depends on when later quotes arrive.
- Engine.SymbolEngine.OnQuote: continuous in-session frames only, in time order; auction frames are left out.
- Feed.SymbolFeed.OnL1: for records of one symbol and one UTC day in exchange order; the feed class is one
  entry of the code's day dictionary.
- RiskGuards.RunKeepsCap: for entries on one side; for both sides see `CapBounds.RoomIsExactForRuns`.
- LedgerAgrees.EveryRunAgrees: for signals that come in order, which the engine guarantees.
- Engine.SymbolEngine.Consider: without the auction test before an entry, because the feed's frames are
  continuous, and with the skipped signals counted but not listed.
- Traders.Trader.OnEntry: daily limit, data gate, size and margin checks enter as one yes or no, so the
  theorems hold whatever they answer.
- Traders.Trader.Periodic: positions taken over from an earlier process and their soft exits are left out;
  with them the record would carry a guessed entry.
- Traders.Trader.ExitNow: without the numbered retry of a failed exit order, which needs missing market data
  or a remote broker.
- The list of skipped signals with its display fields; only its counters are kept.
- The order in which a feed hands over the totals of one tick (sorted in the code): any order is allowed.
- Web snapshot of the indicators, aggTrade sequence statistics, outage records and status lines.
- Snapshots cut at 1000 levels: the model's snapshots are complete.
- Retry delays of the resynchronisation; a failed fetch or replay is followed by a wake-up of its own.
- Order objects are values in the exchange's list: that a caller's reference sees later fills is not captured.
- Order events, subscribers, update times, order reasons and the saved state files.
- A book that changes between two stop orders fired by one poll: one book per poll.
- Missing or stale market data in the middle of an order, which leaves a new order registered.
- `src/execution/live.py`: its behaviour is the remote exchange's.
- `Trader.recover`, resetting totals on resume, and positions taken over from an earlier process.
- The trader's records, notifications, slippage figures and per-day statistics.
- Interleaving inside a queued task: a task is one step, as only its worker uses the broker.
- One trader object per symbol with shared totals stands for the code's dictionary by symbol.
- `sized`: the cap per symbol is a comparison after `EqualNotionalUnits`.
- Night scheduling, calendar, accounts, reports, storage, charts and the other research code.
