# A verified model of the trading core

This project models the order, market-data and risk logic of the trading platform in
Dafny and proves what that logic keeps over whole runs, under failures and under
interleaving. One module stands for each source component:

| module | source component |
|---|---|
| `Values` | prices, quantities, sides; sums and weighted averages |
| `Fills` | `Fill`, `FillAggregation` |
| `Orders` | `OrderStatus`, `Order` |
| `Positions` | `Position`, `ClosedPosition` |
| `OrderStore` | the order repository shared by the lifecycle tasks and the trading service |
| `FillOutcomes` | what becomes of a delivered fill: applied, or lost |
| `FillRaces` | the same among any other handlers |
| `UpdateOutcomes` | what becomes of an order update, and of a fill delivered again |
| `LostUpdates` | what late writes to the order repository undo, and when they do no harm |
| `Handlers` | the lifecycle manager's fill and order-update handlers, run one at a time |
| `Lifecycle` | retries, deduplication and position updates of `OrderLifecycleManager` |
| `CircuitBreakers` | the pipeline's `CircuitBreaker` |
| `Pipelines` | distribution, persistence and shutdown of `DataPipeline` |
| `RiskMetrics` | `RiskMetricsCalculator` |
| `RiskEngines` | `RiskEngine`, `RiskState` |
| `TradingServices` | `TradingService` |
| `ServiceSteps` | the trading service's calls as runs of the order repository's steps |

Entities whose methods change their fields are classes with those fields. Each of their
methods is specified by a function on a value, and the results over runs, histories and
interleavings are lemmas about those functions. Concurrency is modelled as steps: one
lock-protected section or one awaited call per step, any interleaving. Repository and
gateway answers are inputs, and a write that reports an error may or may not have taken
effect, except for `save_batch`, which stores a batch entirely or not at all.

`Decimal` is an exact real; `Fills.RoundedAverageError` adds one rounding error per
division. A `Price` or `Quantity` that is an input is positive, as their checked
constructors ensure. Instants of the pipeline are monotone; wall-clock times of the risk
engine may go back. Fills are identified by their value, and the fill repository refuses
one it already holds, as its trait documents (crates/domain/src/repositories.rs:372).

Where the code and its own comments differ, the model follows the code:

- `update_status` takes any PartiallyFilled payload, so the order's average can be wrong
  (`Orders.ForeignPayloadBreaksAverage`); over any run it is exact if and only if the
  last such payload's average was exact when it arrived (`Orders.AverageExactOverRuns`).
- A fill is applied at most once but not exactly once. One failed load after the save
  loses it for good (`FillOutcomes.FailedLoadLosesFill`); its handler, retries included,
  applies it if and only if the first save that is not a clean failure succeeds and the
  same attempt loads an order that accepts the fill and writes with effect
  (`FillOutcomes.ProcessedFillAppliedIff`), and otherwise, once saved, nothing ever
  applies it (`FillOutcomes.SavedButNotStoredIsLost`). The condition on load and write is
  the same whatever other handlers do in between (`FillRaces.SavedFillAppliedIff`).
- A fill counts as a duplicate of any handled fill of the same order, time and quantity,
  be it another one at another price (`UpdateOutcomes.DeliveryRefusedIff`).
- Load, change and write are not one transaction, so a late write erases what others
  stored: a stored cancellation can come back as Pending (`LostUpdates.CancellationErased`).
  A handler's change is applied to what is stored if and only if the order is still, at
  the write, the version it loaded (`LostUpdates.ReadModifyWriteIsAtomicIff`), and nothing
  stored is undone if and only if the stored history is a prefix of the written one
  (`LostUpdates.WriteKeepsStoredIff`).
- `update_position` nets exactly when it scales in or flips (`Lifecycle.NettingIff`), it
  can open no position (`Lifecycle.FillsNeverOpenPositions`), and a flip forgets the
  realized P&L (`Lifecycle.RealizedPnlIff`).
- A save can be allowed and succeed while the pipeline breaker is Open
  (`CircuitBreakers.SuccessWhileOpen`), and that leaves it Open for good, as long as
  nothing fails again (`CircuitBreakers.OpenSuccessIsFinal`).
- Shutdown can store newer bars before older ones, both when it overtakes a batch in
  flight (`Pipelines.ShutdownReorders`) and when a drain overtakes it
  (`Pipelines.DrainDuringFlushReorders`). Runs that keep the two flushes apart are in
  order (`Pipelines.SeparateFlushesKeepOrder`); two that overlap are exactly when the batch
  is answered first or a save fails (`Pipelines.OverlapOrderIff`); and any run is exactly
  when each batch saved starts after the newest bar already saved
  (`Pipelines.PersistedInOrderIff`).
- The risk engine refuses cumulative losses, so its daily loss gate cannot fire
  (`RiskEngines.DailyLossNeverRejects`); its pre-trade check is not atomic
  (`RiskEngines.TornAllow`, and when it behaves as if it were: `RiskEngines.UntornAllow`);
  and its recovery timeout does not hold when the clock goes back (`RiskEngines.RecoversIff`).
- Ten Newton steps are not always enough. `decimal_sqrt` returns at least twice the root
  exactly when the overshoot relative to v, followed through ten steps, is still 3 or more
  (`RiskMetrics.DecimalSqrt`), that is when ((s-2)/(s+2))^1024 is a third or more, s being
  the root (`RiskMetrics.FarOffClosedForm`). So it is from 2^24 on and for every value up
  to 2^-20, such as the variance of small returns, and it is not while
  (v/4-1)^2 < 786432 v (`RiskMetrics.FarOffRegions`).

## Model

| member | source | states |
|---|---|---|
| Fills.Aggregated | crates/domain/src/entities.rs:1721-1767 | The aggregate's quantity, notional, commission and count are the sums over all fills, whatever the rounding of the averages |
| Fills.RunningAverageIsWeightedMean | crates/domain/src/entities.rs:1750-1764 | In exact arithmetic the running average times the total quantity is the total notional after any fills |
| Fills.AggregationIgnoresOrder | crates/domain/src/entities.rs:1721-1767 | Permuting the fills changes no field of the aggregate |
| Fills.RoundedAverageError | crates/domain/src/entities.rs:1756-1764 | With each division within eps, n fills leave the average within (n-1) eps of total notional over total quantity |
| Fills.PnlIsGainOfOtherSide | crates/domain/src/entities.rs:1538-1553 | A fill's profit is what a position on the other side gains on its quantity, less its commission |
| Fills.FillAggregation.Add | crates/domain/src/entities.rs:1730-1767 | Adding a fill in place gives the specified aggregate |
| Fills.FromFills | crates/domain/src/entities.rs:1721-1727 | The loop's result holds the sums, and its average is notional over quantity |
| Orders.IsValidTransition | crates/domain/src/entities.rs:1027-1062 | The transition table is: stay, cancel or reject while active, advance by one active status, or become Filled from Pending on |
| Orders.Order.UpdateStatus | crates/domain/src/entities.rs:1010-1024 | The status becomes the given one if the transition is valid; otherwise an error and no change |
| Orders.Order.Fill | crates/domain/src/entities.rs:1079-1115 | Accepted exactly for active orders with enough remaining; adds the quantity, keeps the order sound; an error changes nothing |
| Orders.Order.Cancel | crates/domain/src/entities.rs:1146-1160 | Cancels an active order; an error changes nothing |
| Orders.Order.Reject | crates/domain/src/entities.rs:1167-1181 | Rejects a non-terminal order; an error changes nothing |
| Orders.StepKeepsSound | crates/domain/src/entities.rs:690-690 | No operation breaks 0 <= filled <= quantity, nor lets an active order with fills be anything but PartiallyFilled, which keeps the average-price fallback unreachable |
| Orders.RunAccounting | crates/domain/src/entities.rs:1079-1139 | In every run the order stays sound and its filled quantity is the sum of the fills it accepted |
| Orders.ValidIff | crates/domain/src/entities.rs:933-968 | An order may be submitted exactly when it names a symbol, is Created, has a limit price unless it is a market or stop order, and a stop price unless it is a market or limit order |
| Orders.FillOutcome | crates/domain/src/entities.rs:1079-1115 | Terminal orders are refused first and then excess quantity; an accepted fill gives Filled exactly when nothing remains, and otherwise PartiallyFilled with what is filled and what remains |
| Orders.FilledIff | crates/domain/src/entities.rs:1010-1115 | Over every run an order is Filled exactly when its fills add up to its quantity or an accepted update from outside declared it Filled before they did |
| Orders.AcceptedIff | crates/domain/src/entities.rs:1010-1181 | For each operation, exactly when it is accepted; otherwise nothing changes |
| Orders.StatusIsLastAccepted | crates/domain/src/entities.rs:1010-1181 | Over every run, status, payload, reason and time of change are those of the last operation accepted |
| Orders.FillDrivenAverage | crates/domain/src/entities.rs:1098-1139 | When PartiallyFilled is entered only through `fill`, its payload agrees with the order, something remains, and average times filled is the sum of price times quantity, as in FillAggregation |
| Orders.AverageExactIff | crates/domain/src/entities.rs:1118-1139 | One fill leaves an exact average if and only if the payload it started from was exact |
| Orders.AverageExactOverRuns | crates/domain/src/entities.rs:1010-1139 | Over any run of any operations a partially filled order's average is off by exactly what the last accepted foreign payload was off when it arrived, so it is exact if and only if that payload was (or there was none) |
| Orders.ForeignPayloadBreaksAverage | crates/domain/src/entities.rs:1010-1024 | A run in which a status update leaves a payload and an average that do not describe the fills |
| Orders.ProgressIsBounded | crates/domain/src/entities.rs:1026-1062 | Over any run the rank never falls, terminal variants are final, and the variant changes at most four times |
| Positions.Position.MarkTo | crates/domain/src/entities.rs:2105-2112 | Marking sets the price and the signed gain |
| Positions.Position.Add | crates/domain/src/entities.rs:2121-2143 | Accepts exactly fills of its side; otherwise nothing changes |
| Positions.Position.CloseAt | crates/domain/src/entities.rs:2163-2195 | Books the gain, zeroes quantity and unrealized P&L, and reports what was booked |
| Positions.GainIsHistoryPnl | crates/domain/src/entities.rs:2108-2110 | Average-cost gain equals the signed profit of the entries taken one by one |
| Positions.PositionMatchesHistory | crates/domain/src/entities.rs:2105-2195 | After any run, the price is the last mark, quantity and cost are those of the open entries, unrealized P&L is their signed profit, realized P&L what the closes booked entry by entry, and their sum is cash plus signed market value |
| Positions.CloseBooksHistoryOnce | crates/domain/src/entities.rs:2163-2195 | `close(x)` books the signed profit of the whole history at x, and a second close books nothing |
| OrderStore.NextKeepsInv | crates/application/src/order_lifecycle.rs:517-703 | Every step of every handler keeps: copies are runs of their placed order with distinct saved fills, and a saved, not yet applied fill has one owner |
| OrderStore.NoFillCountsTwice | crates/application/src/order_lifecycle.rs:636-675 | Under every interleaving, failure, retry, redelivery and eviction, a stored order's filled quantity is the sum of distinct fills saved for it, and at most its quantity |
| OrderStore.NoFillIsBookedTwice | crates/application/src/order_lifecycle.rs:677-702 | Under the same conditions a fill's position write takes effect at most once, and its handlers publish OrderFilled at most once, after that write |
| OrderStore.NextKeepsHands | crates/application/src/order_lifecycle.rs:636-703 | Every step keeps: a fill past its save is in one handler's hands, unannounced, and booked exactly when its handler is announcing |
| OrderStore.LostFillStaysLost | crates/application/src/order_lifecycle.rs:640-668 | A fill that is saved while in no copy and owned by no handler is never applied later, whatever runs and however often it is redelivered |
| FillOutcomes.UninterruptedFill | crates/application/src/order_lifecycle.rs:595-703 | For every pattern of answers to one attempt: what is saved, stored, booked, published and remembered, and exactly when the handler waits for another try |
| FillOutcomes.AppliedIff | crates/application/src/order_lifecycle.rs:636-675 | After one attempt the fill is in its stored order if and only if the save succeeded, the load succeeded, the order exists, is active and has room, and the write took effect |
| FillOutcomes.ProcessedFillAppliedIff | crates/application/src/order_lifecycle.rs:595-703 | With all retries: the fill is applied if and only if, within the retry limit, the first attempt whose save is not a failure without effect meets that condition |
| FillOutcomes.SavedButNotStoredIsLost | crates/application/src/order_lifecycle.rs:636-675 | An attempt that saved the fill without storing it in the order has lost it: no continuation applies it |
| FillOutcomes.FailedLoadLosesFill | crates/application/src/order_lifecycle.rs:640-668 | The failing run: saved, load failed, retry refused as a duplicate; the handler has ended, no order has changed and the fill is never applied |
| FillRaces.SavedFillAppliedIff | crates/application/src/order_lifecycle.rs:636-675 | With any steps of other handlers between save, load and write: a fill just saved is in the stored order after the write if and only if the load succeeded, the order stored at the load accepts it and the write took effect; otherwise nothing later applies it |
| UpdateOutcomes.UninterruptedUpdate | crates/application/src/order_lifecycle.rs:517-554 | For every pattern of answers to one attempt: the status is stored exactly when the load succeeds, the order takes it and the write has effect; it is tried again exactly after a failed load or write within the limit |
| UpdateOutcomes.ArrivedUpdateStoredIff | crates/application/src/order_lifecycle.rs:488-554 | With all retries: an arriving update makes history in the stored order if and only if the order takes the status and some attempt within the limit loads and writes with effect; then it has that status, and otherwise no order changes |
| UpdateOutcomes.DeliveryRefusedIff | crates/application/src/order_lifecycle.rs:595-633 | Over every run without eviction, a delivered fill is turned away if and only if a fill of the same order, time and quantity was handled to the end; otherwise its handler starts |
| UpdateOutcomes.EvictedFillIsRefusedLater | crates/application/src/order_lifecycle.rs:617-629 | A handled fill that was evicted and comes again starts a handler, and the fill repository refuses it: only the memory has changed |
| LostUpdates.StaleWriteWins | crates/application/src/order_lifecycle.rs:520-554 | Whichever handler writes, its copy replaces whatever was stored for that order in between, and no other order changes |
| LostUpdates.CancellationErased | crates/application/src/trading_service.rs:523-572 | A run in which the update task's late write turns a stored Cancelled order back into Pending |
| LostUpdates.ReadModifyWriteIsAtomicIff | crates/application/src/order_lifecycle.rs:640-675 | For fills, status updates and rollbacks: the write is the operation on the stored order if and only if the stored version is still the loaded one, which holds when nobody else writes that order in between |
| LostUpdates.CancelIsAtomicIff | crates/application/src/trading_service.rs:523-572 | The same for a cancellation, whose change waits for the gateway |
| LostUpdates.WriteKeepsStoredIff | crates/application/src/order_lifecycle.rs:520-554 | A write continues what is stored if and only if the stored history is a prefix of the written one; then no applied fill is dropped and a terminal status keeps its variant |
| Handlers.OrderHandlers.HandleFill | crates/application/src/order_lifecycle.rs:636-675 | The code's save, load, fill and update, for every pattern of answers, is its steps in the store, and its result leads the retry loop where they lead |
| Handlers.OrderHandlers.HandleOrderUpdate | crates/application/src/order_lifecycle.rs:517-554 | The same for load, status update and write |
| Lifecycle.ExecuteWithRetry | crates/application/src/order_lifecycle.rs:828-878 | Goes on after repository, publishing and timeout errors only, stops at a success, any other error or attempt max_retries + 1, sleeps the capped doubling delays within the total bound, and sends one dead letter exactly when it fails with a queue |
| Lifecycle.BackoffDoubles | crates/application/src/order_lifecycle.rs:853-857 | The first sleep is the configured delay, and each further one is twice the one before, or the cap if that is less |
| Lifecycle.UncappedTotal | crates/application/src/order_lifecycle.rs:853-857 | Below the cap, n sleeps take 2^n - 1 times the first |
| Lifecycle.TotalSleepBound | crates/application/src/order_lifecycle.rs:853-857 | The sleeps of a run, as ExecuteWithRetry returns them, sum to at most max_retries times max_retry_delay when the first delay is within the cap, and else to at most the first delay more |
| Lifecycle.NoIdSucceedsTwice | crates/application/src/order_lifecycle.rs:598-630 | The set holds at most 10000 ids, and until more than 10000 distinct ids succeeded none succeeds twice |
| Lifecycle.FillProcessor.ProcessFill | crates/application/src/order_lifecycle.rs:595-633 | A known id is refused, a failure is not remembered, a success is, and overflow gives up some 5000 entries |
| Lifecycle.NettingIff | crates/application/src/order_lifecycle.rs:708-825 | The signed net position moves by the signed fill exactly when the fill scales in or flips; opening and exact closing are errors |
| Lifecycle.UpdateMatchesAccount | crates/application/src/order_lifecycle.rs:708-825 | Each fill does to the stored quantity, average, price and P&L what it does to the account of entries: scaling in adds an entry, a flip opens the other side with the rest and nothing booked, a reduction books its share of the history's profit and closes nothing |
| Lifecycle.BookMatchesAccounts | crates/application/src/order_lifecycle.rs:708-825 | Over every run of fills, flips, reductions and refusals included, each stored position goes on describing its account |
| Lifecycle.ChangeKindIff | crates/application/src/order_lifecycle.rs:744-752 | Opened, Increased, Flipped or Decreased exactly as the signed net position was zero, moves away from zero, reaches or passes it, or moves towards it |
| Lifecycle.RealizedPnlIff | crates/application/src/order_lifecycle.rs:763-810 | An opposite fill keeps the account of realized P&L exactly for partial reductions, or flips whose total is zero |
| Lifecycle.RealizedPnlAgrees | crates/application/src/order_lifecycle.rs:897-927 | The manager's P&L is what `Position::close` books, and `Fill::pnl` before commission exactly for closing fills |
| Lifecycle.FillsNeverOpenPositions | crates/application/src/order_lifecycle.rs:725-741 | No run of fills opens a position that was not stored before |
| Lifecycle.NetFollowsFills | crates/application/src/order_lifecycle.rs:756-785 | Over a run of scaling and flipping fills the net position is the initial one plus all signed quantities |
| Lifecycle.PositionManager.UpdatePosition | crates/application/src/order_lifecycle.rs:708-825 | The stored book and the reported change are the specified ones, for every answer to the read and the upsert; a failed read stores nothing, and a failed upsert may have taken effect |
| CircuitBreakers.CircuitBreaker.RecordSuccess | crates/application/src/data_pipeline.rs:221-228 | Forgets the failures, closes a half-open breaker and leaves an open one open |
| CircuitBreakers.CircuitBreaker.RecordFailure | crates/application/src/data_pipeline.rs:235-252 | Counts and dates the failure; afterwards Open unless it was closed and stays below the threshold |
| CircuitBreakers.CircuitBreaker.TryReset | crates/application/src/data_pipeline.rs:279-290 | Becomes half-open exactly when open and timed out |
| CircuitBreakers.AllowedIff | crates/application/src/data_pipeline.rs:201-303 | Over every run of a new breaker, a flush is allowed exactly when fewer saves in a row have failed than the limit or the last failure is at least the timeout ago; the limit is the threshold (0 acts as 1), and 1 after a success while Open |
| CircuitBreakers.HalfOpensIff | crates/application/src/data_pipeline.rs:279-290 | In every run it is Closed exactly below the threshold unless stuck open, and a tick half-opens exactly an open breaker whose last failure is at least the timeout ago |
| CircuitBreakers.AllowedFailuresAreSpaced | crates/application/src/data_pipeline.rs:259-290 | In every run, failures in a row beyond the limit are at least the timeout apart |
| CircuitBreakers.FailureRateBound | crates/application/src/data_pipeline.rs:201-303 | In every run, the failures since the last success are at most limit + L / timeout, L being the time from the limit-th to the last |
| CircuitBreakers.OpenSuccessIsFinal | crates/application/src/data_pipeline.rs:221-228 | After a success while Open, no successes and half-open ticks ever close the breaker, and it allows every flush at every instant |
| CircuitBreakers.SuccessWhileOpen | crates/application/src/data_pipeline.rs:259-274 | A possible run of a new breaker in which a save is allowed while Open, succeeds, and leaves it Open |
| Pipelines.PushesKeepNewest | crates/application/src/data_pipeline.rs:1031-1040 | Any pushes keep exactly the most recent bars that fit |
| Pipelines.Pipeline.Push | crates/application/src/data_pipeline.rs:1029-1040 | The new bar is last, the oldest goes if the buffer is full |
| Pipelines.Pipeline.Restore | crates/application/src/data_pipeline.rs:1197-1206 | The two loops leave the first buffer_size bars of batch ++ buffer |
| Pipelines.Pipeline.FlushToRepository | crates/application/src/data_pipeline.rs:1113-1217 | A refused or too small flush touches nothing; a saved one persists the oldest batch in order; a failed one puts it back, with the pushes made meanwhile |
| Pipelines.Pipeline.FlushBuffer | crates/application/src/data_pipeline.rs:791-820 | Takes the whole buffer, whatever the breaker says; saved, it is persisted and counted; not saved, it is gone |
| Pipelines.QuietFailureRestores | crates/application/src/data_pipeline.rs:1197-1206 | A failed flush without pushes restores a buffer within capacity exactly |
| Pipelines.BusyFailureLoses | crates/application/src/data_pipeline.rs:1031-1040 | With pushes, exactly the oldest unbatched overflow and the newest excess are lost |
| Pipelines.FlushIsItsSteps | crates/application/src/data_pipeline.rs:1113-1217 | What one flush does to buffer, repository and counter is what its interleavable steps do |
| Pipelines.ShutdownFlushIsItsSteps | crates/application/src/data_pipeline.rs:791-820 | So is what the shutdown flush does, whatever the persister is doing |
| Pipelines.SeparateFlushesKeepOrder | crates/application/src/data_pipeline.rs:791-820 | In every run where shutdown takes the buffer only with no batch out, and no batch is drained while the shutdown flush is out, persisted ++ in flight ++ in the shutdown flush ++ buffer is an in-order duplicate-free subsequence of the bars delivered |
| Pipelines.PipelineKeepsOrder | crates/application/src/data_pipeline.rs:1026-1217 | In particular before shutdown, in every interleaving |
| Pipelines.ShutdownReorders | crates/application/src/data_pipeline.rs:791-820 | A shutdown flush answered before a batch in flight persists newer bars first |
| Pipelines.DrainDuringFlushReorders | crates/application/src/data_pipeline.rs:791-820 | A bar drained and saved while the shutdown flush is out is persisted before the older ones |
| Pipelines.OverlapOrderIff | crates/application/src/data_pipeline.rs:791-820 | With both saves out, the repository ends in arrival order if and only if the batch is answered first or one of the saves fails |
| Pipelines.PersistedInOrderIff | crates/application/src/data_pipeline.rs:1113-1217 | In every run the repository is in arrival order if and only if each batch saved starts after the newest bar already saved |
| Pipelines.EveryBarIsSomewhereOnce | crates/application/src/data_pipeline.rs:791-820 | In every run, shutdown included, each delivered bar is in exactly one place, and bars_persisted is the number persisted less what is saved but uncounted |
| Pipelines.BufferIsBounded | crates/application/src/data_pipeline.rs:1031-1040 | The buffer never exceeds max(1000, buffer_size) |
| RiskEngines.AllowIff | crates/application/src/risk/engine.rs:379-446 | On real positions the gate never errs, and it allows exactly when switches, daily loss and drawdown hold at the reads that look at them, and what is held of the symbol plus the open quantity, and what is held in all and of the symbol at market plus price times the open quantity, are within their limits |
| RiskEngines.RejectionIsTruthful | crates/application/src/risk/engine.rs:388-440 | The gate rejects for a reason exactly when that is the first thing violated and no position limit with room comes before it; an allowed order violates nothing |
| RiskEngines.ReduceIff | crates/application/src/risk/engine.rs:387-508 | The gate answers Reduce(q) exactly when no switch is thrown at its first read and the order exceeds a position limit with room q > 0, whatever its other limits |
| RiskEngines.ReduceIsTheLargestAllowed | crates/application/src/risk/engine.rs:463-508 | A reduction is positive, below the order, fills the limit exactly and is the largest quantity let through |
| RiskEngines.AllowedOrderStaysWithinLimit | crates/application/src/risk/engine.rs:463-508 | After Allow no sequence of the order's fills takes the symbol's absolute net quantity above its limit |
| RiskEngines.AllowedOrderStaysWithinExposure | crates/application/src/risk/engine.rs:572-640 | Nor does any such sequence take market value held plus price times quantity bought above the total or the symbol's exposure limit |
| RiskEngines.ReachableState | crates/application/src/risk/engine.rs:660-890 | In every reachable state breaker, opening time and failures agree, the peak is the highest equity, realized P&L the non-negative sum of accepted P&Ls since reset, the history the last 100 decisions |
| RiskEngines.DrawdownAgrees | crates/application/src/risk/engine.rs:284-293 | Reachable drawdowns are non-negative and equal the calculator's clamped form |
| RiskEngines.DrawdownIsShareOfPeak | crates/application/src/risk/engine.rs:284-293 | The drawdown times a positive peak is what the peak has lost; without one it is zero |
| RiskEngines.KillSwitchIff | crates/application/src/risk/engine.rs:736-767 | In every reachable state the kill switch is on exactly when it is enabled and was triggered since it was last reset |
| RiskEngines.FailuresAreInARow | crates/application/src/risk/engine.rs:664-889 | In every reachable state the counter holds the failures since the last accepted fill, new day or confirmed recovery |
| RiskEngines.BreakerMoves | crates/application/src/risk/engine.rs:783-846 | After any history: the breaker opens, dated, exactly at the failure that completes the row while closed, half-opens exactly at a timely recovery check while open, and closes exactly when confirmed while half-open |
| RiskEngines.NewDay | crates/application/src/risk/engine.rs:875-889 | A daily reset zeroes P&L and failures and leaves breaker, kill switch, equity and history alone |
| RiskEngines.DailyLossNeverRejects | crates/application/src/risk/engine.rs:511-533 | The daily loss gate cannot fire in a reachable state |
| RiskEngines.RecoversIff | crates/application/src/risk/engine.rs:811-827 | For timeouts and distances below 2^63, recovery starts exactly after the timeout, or when the clock is a second or more behind, or when the timeout is zero |
| RiskEngines.KillSwitchRejects | crates/application/src/risk/engine.rs:387-409 | Whatever other threads do, a check begun with the kill switch on is rejected unless it is reset before the first read |
| RiskEngines.InterleavedAllowIff | crates/application/src/risk/engine.rs:388-441 | With other threads between the reads, Allow is decided by the switches at the first read, the drawdown at the third, and the static limits |
| RiskEngines.TornAllow | crates/application/src/risk/engine.rs:388-441 | An order can be allowed that the gate would reject at every instant of the call |
| RiskEngines.UntornAllow | crates/application/src/risk/engine.rs:388-441 | With no switch thrown between the reads an Allow is the gate's answer at the last; with no equity reported between them the call allows exactly what the gate allows at the first |
| RiskEngines.RiskEngine.CheckPreTrade | crates/application/src/risk/engine.rs:379-446 | Returns the gate's answer and records it; an error records nothing |
| RiskEngines.RiskEngine.Record | crates/application/src/risk/engine.rs:449-460 | Appends the decision and keeps at most 100 |
| RiskEngines.RiskEngine.OnFilled | crates/application/src/risk/engine.rs:664-687 | Refuses exactly what would make the daily figure negative, and then changes nothing |
| RiskEngines.RiskEngine.ReportEquity | crates/application/src/risk/engine.rs:693-730 | Stores the equity and raises the peak |
| RiskEngines.RiskEngine.Fail | crates/application/src/risk/engine.rs:783-806 | Opens a closed breaker at the threshold and leaves a half-open one half-open |
| RiskEngines.RiskEngine.TryRecover | crates/application/src/risk/engine.rs:811-827 | Half-opens an open breaker after the timeout |
| RiskEngines.RiskEngine.Confirm | crates/application/src/risk/engine.rs:833-846 | Closes a half-open breaker and forgets its failures |
| RiskEngines.RiskEngine.SetKillSwitch | crates/application/src/risk/engine.rs:736-767 | Triggers if enabled; always resets |
| RiskEngines.RiskEngine.ResetDay | crates/application/src/risk/engine.rs:875-889 | Zeroes the daily figures and the failures, not the breaker |
| RiskMetrics.ExposuresAddUp | crates/application/src/risk/metrics.rs:286-303 | Long plus short is the total market value, long minus short the signed total, and the counts add up |
| RiskMetrics.MetricsAgree | crates/application/src/risk/metrics.rs:209-275 | Gross exposure is the engine's total, net is within it, capital splits into margin and buying power, and concentration lies in [1/n, 1] |
| RiskMetrics.TotalsDetermined | crates/application/src/risk/metrics.rs:209-303 | Sum and difference of long and short exposure, and of the counts, are the totals over all positions; the unrealized P&L of marked positions is their value over their cost |
| RiskMetrics.MarginDetermined | crates/application/src/risk/metrics.rs:240-253 | The margin is its share of gross exposure, and utilization is the margin's share of a positive capital |
| RiskMetrics.ConcentrationIsLargestShare | crates/application/src/risk/metrics.rs:227-238 | The concentration is the share of a position that no other exceeds |
| RiskMetrics.CalculateSectorExposure | crates/application/src/risk/metrics.rs:457-480 | Every sector that occurs gets its positions' total, and the sectors together the total exposure |
| RiskMetrics.StepOvershoot | crates/application/src/risk/metrics.rs:434-436 | The overshoot of a Newton step is the square of the step |
| RiskMetrics.StepContracts | crates/application/src/risk/metrics.rs:434-436 | From above the root each further step shrinks the overshoot at least fourfold |
| RiskMetrics.DecimalSqrt | crates/application/src/risk/metrics.rs:421-443 | None exactly below zero; for v > 0 the first Newton iterate within 10^-10 of its predecessor, or the tenth; r*r - v lies between 0 and 10^-20 after an early exit and (v/4-1)^2/4^9 after ten steps, the result is at least (v/4+1)/2^9, and it is at least twice the root if and only if the relative overshoot (v/4-1)^2/v, taken nine times through w^2/(4(1+w)), is 3 or more |
| RiskMetrics.FarOffRegions | crates/application/src/risk/metrics.rs:421-443 | That condition holds for every v >= 2^24 and every v <= 2^-20, and fails while (v/4-1)^2 < 786432 v |
| RiskMetrics.FarOffClosedForm | crates/application/src/risk/metrics.rs:421-443 | With s the root of v, that condition is ((s-2)/(s+2))^1024 >= 1/3 |
| TradingServices.TradingService.PlaceOrder | crates/application/src/trading_service.rs:406-498 | Result, effects and stored orders are the specified ones for every pattern of failures |
| TradingServices.TradingService.RollbackOrderSubmission | crates/application/src/trading_service.rs:661-680 | Loads, rejects and updates the order, doing nothing if the load fails |
| TradingServices.TradingService.CancelOrder | crates/application/src/trading_service.rs:523-572 | Effects and stored orders are the specified ones; Ok exactly when the cancellation is published |
| TradingServices.OkIffAccepted | crates/application/src/trading_service.rs:470-498 | Ok exactly when the gateway accepted, and then exactly one OrderSubmitted |
| TradingServices.SubmittedIffAllowed | crates/application/src/trading_service.rs:406-498 | For every answer of the gate: an order is saved, sent or answered Ok only after Allow; a rejection and a reduction alike publish exactly one OrderRejected for it and nothing else; Ok carries the gateway's id; the log tells the gate's answer |
| TradingServices.PlaceFailsWith | crates/application/src/trading_service.rs:406-498 | Which error is reported, exactly: the one of the first call that failed |
| TradingServices.RollbackOutcome | crates/application/src/trading_service.rs:477-487 | After a gateway failure the stored order is Rejected, or still Submitted exactly when the rollback's load failed or its update failed without effect; other orders are untouched |
| TradingServices.PlaceIsWriteAhead | crates/application/src/trading_service.rs:458-475 | Whatever fails, an order is sent only after it was Created, allowed and saved as Submitted |
| TradingServices.ActsAtEachTurn | crates/application/src/trading_service.rs:406-498 | In an interleaving each placement has performed as many of its effects as it had turns, or all |
| TradingServices.InterleavedWriteAhead | crates/application/src/trading_service.rs:406-498 | The same over every interleaving of any number of placements |
| TradingServices.CancelOutcome | crates/application/src/trading_service.rs:523-572 | The gateway is asked exactly for active stored orders, and the store disagrees with its cancellation exactly when the update had no effect |
| ServiceSteps.PlaceIsItsSteps | crates/application/src/trading_service.rs:458-487 | From the allowed order on, `place_order` with its rollback does to the stored orders what its steps in the shared store do, for every pattern of answers |
| ServiceSteps.CancelIsItsSteps | crates/application/src/trading_service.rs:523-572 | The same for `cancel_order` |

## Left out

- Database adapters, Redis, HTTP and WebSocket servers, metrics export, logging, configuration and the command line: input and output only.
- The fill repository adapter, whose conflict clause names an id it never supplies (crates/infrastructure/src/database/fill_repo.rs:294): the model takes the trait's documented contract.
- Rounding of `Decimal` other than one error per division of the fill average, its overflow, and overflow of u32 and u64 counters and durations.
- Error messages, log output, identifiers generated at random, and fields no operation reads (account, time in force, creation time).
- Error variants of the trading service are merged by the call that failed: the repository's not-found and the gateway's order-state errors are not told apart.
- Lock poisoning in the risk engine: the locks are taken as never poisoned.
- Panics, task aborts on `stop`, and channel capacity: a handler that stops in the middle is one that takes no further step.
- OrderStore.NoFillIsBookedTwice: leaves open what the position write stores, which is the subject of Lifecycle.UpdatedPosition, and the OrderFilled events that the order-update handler makes up from a status.
- RiskEngines.InterleavedAllowIff: takes the loss limit as non-negative, as the checked constructor of Money makes it, and positions with non-negative quantities and prices.
- Value at Risk, the Sharpe ratio around `decimal_sqrt`, daily P&L from fills, health status and processing rates: little beyond one formula.
- Other bar consumers and non-bar events of the distribution task: they do not touch the buffer.
