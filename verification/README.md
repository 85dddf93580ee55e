# Stinger-Fx: a verified model of the trading engine's core

Stinger-Fx is a trading engine with a backtester. This project models the parts of it whose correctness
depends on whole runs rather than on one call, and proves what they promise. `dafny verify dfyconfig.toml`
checks everything.

Times are integers: microseconds since 1970-01-01 00:00 UTC. Prices, volumes and money are exact reals.

## What is modelled

- **Bars.** `TradingDay` holds the bucket keys and the session calendars, `MultiTimeframe` the streaming fold
  of H1 bars into H4 and D1 bars, `MultiTimeframeBatch` the batch specification it must equal.
  `BarAggregator` turns ticks into bars, calendar months (`CivilMonths`) included; `Composition` proves that
  going through H1 and going directly agree.
- **Broker.** `SimBroker` is the in-memory broker, as an object over a value of its books. `BrokerRuns` holds
  its ledger and ticket laws over every sequence of operations, `BrokerLaws` what fills, closes and triggers
  come to in plain prices and money, `StandingOrders` the tables against what was asked for, `Rollover` and
  `SwapNights` the swap arithmetic.
- **Risk.** `RiskMonitor` is the monitor with its counters, daily figures and two latches; `RiskRuns` says
  what the latches mean over a run and what each verdict complains of, `SwitchOverLives` what the kill switch means when restarts come in between.
- **The composed engine.** `OrderRouter` glues the two; `Engine` runs router, broker, bus delivery and monitor
  as one machine, over the law of its event log in `EventLog`; `Ownership` says what a strategy's requests can
  touch; `TradeLog` and `Restart` cover what survives a restart, and `Lives` any number of restarts. `Backlog`
  covers a restart with events still queued, `OpeningBalance` the day's opening balance and the daily-loss gate
  (example histories in `OpeningRuns`), and `MonitorQueues` the monitor behind the queues of the bus.
- **Protocols.** `OrderQueue` and `OutboxProtocol` are the transactional outbox with crashes at any point,
  `EventBus` the bounded queues with both overflow policies.
- **Backtests.** `BacktestRun` is the replay loop on the broker in both modes, from the stored rows to the closing
  step, with stop checks and equity samples.
- **Fast forms.** `FileBacktester` (day-chunked replay), `HistoryView` (streaming indicators), `Portfolio`
  (pointer-advancing merge) and `Pareto` (frontier extraction), each against its plain definition.
  `Sorting` is the stable sort they share.

An object of the program is a class whose methods are proved equal to a function on values; the laws over
runs are lemmas about those functions. A raised exception is a result value (`None`, `ok == false`, `Raised`).

## What the proofs found

- A position cap can be exceeded in two ways: by pending orders, which trigger without consulting any cap
  (`Engine.PendingsExceedCap`, exact condition in `Engine.CheckKeepsCap`), and by a signal judged while a fill
  is still queued on the bus (`Engine.LagExceedsCap`). The second is avoided exactly when the counter plus the
  undelivered fills less the undelivered closes is below the cap (`Engine.AllowedSignalCap`).
- Replaying the outbox while a submission is in flight can send its order twice with nothing interrupted
  (`OutboxProtocol.UnguardedReplayCallsTwice`); that no submission is in flight is exactly what makes it safe
  (`OutboxProtocol.ReplaySafeIffQuiet`). Nothing in the runtime enforces it: `src/stinger_fx/runtime.py:317-318`
  replays after `engine.start()`, which has run the `on_start` of every strategy.
- After a restart the owner of a position is found through its magic number, in the reversed strategy table. Of
  the strategies that share a number, one is kept there and its positions keep their owner; the others, and
  every strategy without an entry, lose theirs (`Restart.OwnersSurviveIffOwnersWin`, a run in
  `Restart.OwnerLostOnRestart`). The per-symbol counts survive regardless (`Restart.RehydratedSymbolsAgree`).
- Rehydrating also happens after `engine.start()`, so fills and closes may still be queued. Handling them afterwards
  counts twice (`Backlog.CountedTwice`), except exactly when none of them filled a position that is still open and
  none closes an older position of a symbol that still has one (`Backlog.RehydratedWithBacklog`). The profit of
  a late close that is in the trade table already is counted twice as well (`Backlog.LoggedProfitCountsTwice`).
- The day's opening balance rests on one snapshot (`OpeningBalance.OpeningIsExplained`). A restart changes the snapshot,
  and the figure with it for any of four reasons: there was none before the day began, it was older than the last
  close of the day before, a profit it reported was handled only on the new day, or commission is held in open
  positions (`OpeningRuns.MissingSnapshot`, `StaleSnapshot`, `ProfitInFlight`, `CommissionHeld`). The exact
  condition is `OpeningBalance.OpeningBalancesAgreeIff`.
- A signal or close that is handled before the first snapshot switches the daily-loss gate off for the rest of that
  day (`OpeningBalance.GateOffAllDay`, `OpeningRuns.GateOffAfterSnapshot`, exact condition in
  `OpeningBalance.LossGateInForceIff`).
- A kill-switch reset issued between a restart and the first snapshot keeps the old peak, and the next snapshot may
  trip again (`SwitchOverLives.EarlyResetTripsAgain`, exact condition in `SwitchOverLives.NextTripsIff`).
- The monitor's queues drop the oldest event when they are full. What that costs is exact: the ticket map is right if
  and only if the fill of every open position got through and every other fill was evicted or followed by its close
  (`MonitorQueues.OwnersMirrorIff`), so an eviction does not always hurt.
- Strategies with one magic number, or with none, can close each other's positions (`Ownership.ClosedByAnother`,
  exact condition in `Ownership.CloseRequestExact`).
- An indicator first requested after the history began to evict does not reflect every bar, although
  `src/stinger_fx/strategies/context.py:104-107` says so (`HistoryView.LateRequestMissesBars`, exact condition in
  `HistoryView.CounterRightIffNothingEvicted`).
- The tick-to-H1-to-H4 composition needs an anchor that is a multiple of four
  (`Composition.MisalignedNeverAgree`) and does not need ticks in time order.
- The drop branch for a queue that is full again after an eviction, `src/stinger_fx/core/event_bus.py:116-121`,
  is never taken: there is no suspension between the two steps (`EventBus.NewestAlwaysEnters`).

Where code and documentation disagree the model follows the code: in bar mode a stop-limit order fills exactly
at its trigger price, although `src/stinger_fx/backtest/replay_broker.py:421-424` announces slippage; a
stop-limit order triggers and fills without a separate limit price; a pending limit price of zero falls back to
the bid; tick-mode equity marks positions at the mid price, although
`src/stinger_fx/backtest/file_backtester.py:376-377` speaks of the bid.

## Model

| member | source | states |
|---|---|---|
| `TradingDay.AnchoredDayStartIsLatestAnchor` | src/stinger_fx/strategies/aggregation.py:40-47 | the anchored day start is the one anchor-hour instant in the 24 hours up to `t`, and nothing else is |
| `TradingDay.WeekOpenIsLatestSundayOpen` | src/stinger_fx/strategies/aggregation.py:93-101 | the week open is a Sunday at the open hour, at or before `t`, less than a week back |
| `TradingDay.D1KeyByCase` | src/stinger_fx/strategies/aggregation.py:128-146 | the merge arm keys the fragment after the week open by the next anchor; every other instant by the last one |
| `TradingDay.D1KeyIsNearbyAnchor` | src/stinger_fx/strategies/aggregation.py:128-146 | every daily key is an anchor instant strictly within 24 hours of what it keys |
| `TradingDay.D1BucketIsInterval` | src/stinger_fx/strategies/aggregation.py:128-146 | for every anchor and week-open hour, the instants with a given daily key are exactly one contiguous interval, between 24 hours before and 24 hours after the key |
| `TradingDay.D1KeyMonotone` | src/stinger_fx/strategies/aggregation.py:128-146 | daily keys never decrease in time, which is what "a bar from a later bucket" relies on |
| `TradingDay.H4KeyIsLatestBoundary` | src/stinger_fx/strategies/aggregation.py:120-125 | the four-hour key is an instant anchor + 4n hours, and `t` is within the four hours that follow it |
| `TradingDay.H4KeyMonotone` | src/stinger_fx/strategies/aggregation.py:120-125 | four-hour keys never decrease in time |
| `TradingDay.KeyWithinSpan` | src/stinger_fx/strategies/aggregation.py:270-289 | both kinds of key fall on whole hours, and what they key lies inside the span that is scanned for slots |
| `TradingDay.OpenUntilWeekClose` | src/stinger_fx/strategies/aggregation.py:60-91 | in the week that follows a Sunday opening the market is open up to that Friday close, five days less the open hour plus the close hour later, and shut from there on and in the break hours |
| `TradingDay.OpenIsMarketHours` | src/stinger_fx/strategies/aggregation.py:60-109 | an instant is open if and only if it lies between some Sunday opening and the Friday close of that week and its hour is no break hour; the 24x7 calendar never closes |
| `TradingDay.ExpectedSlotsExact` | src/stinger_fx/strategies/aggregation.py:149-166 | the scan of 26 hours either side (or of four hours) lists exactly the whole hours of the bucket that lie inside market hours: none missed, none foreign |
| `TradingDay.ExpectedOpenSlots` | src/stinger_fx/strategies/aggregation.py:149-166 | the scanning loop returns that list, in order |
| `MultiTimeframe.Bucketer.Feed` | src/stinger_fx/strategies/aggregation.py:193-206 | one bar appends to the open bucket, or closes it and starts the next; the whole new state and the bar handed back |
| `MultiTimeframe.Bucketer.FinalizeBucket` | src/stinger_fx/strategies/aggregation.py:208-226 | a bucket with an expected slot missing, or with none expected, is dropped; otherwise it is folded |
| `MultiTimeframe.MultiTimeframeAggregator.Feed` | src/stinger_fx/strategies/aggregation.py:291-300 | a foreign, unclosed, duplicate or stale bar changes nothing; an accepted one goes to both bucketers |
| `MultiTimeframe.FoldH1` | src/stinger_fx/strategies/aggregation.py:303-324 | the convenience fold is the streaming run over the whole sequence, for both timeframes |
| `MultiTimeframeBatch.AcceptedTimesAscend` | src/stinger_fx/strategies/aggregation.py:291-299 | what passes the filter is in strictly increasing time |
| `MultiTimeframeBatch.AcceptedAreRecords` | src/stinger_fx/strategies/aggregation.py:291-299 | a bar passes the filter if and only if it is a closed H1 bar of the symbol and later than every such bar before it |
| `MultiTimeframeBatch.StreamMeansBatch` | src/stinger_fx/strategies/aggregation.py:193-226 | after any input the open bucket holds all members of the last key and the output is the fold of all earlier keys |
| `MultiTimeframeBatch.StreamingEqualsBatch` | src/stinger_fx/strategies/aggregation.py:193-226 | for every input sequence, streaming equals grouping the accepted bars by key, dropping the last group and folding the rest |
| `MultiTimeframeBatch.FoldBarsIsTheFold` | src/stinger_fx/strategies/aggregation.py:216-226 | the first open, last close, greatest high, least low and summed volume determine the folded bar |
| `MultiTimeframeBatch.FinalizeExactly` | src/stinger_fx/strategies/aggregation.py:208-226 | a bucket is emitted if and only if some hour of it lies between a Sunday opening and its Friday close and each such hour, breaks aside, has a bar; the bar is the fold of its members, labelled H4 or D1 |
| `MultiTimeframeBatch.OutputExactly` | src/stinger_fx/strategies/aggregation.py:193-226 | a bar is in the output if and only if every market hour of its bucket has a bar, there is one, a later bucket has begun, and the bar is the fold of its members |
| `MultiTimeframeBatch.OutputTimesAscend` | src/stinger_fx/strategies/aggregation.py:193-206 | output times strictly increase, so no bucket is emitted twice |
| `MultiTimeframeBatch.NoLookahead` | src/stinger_fx/strategies/aggregation.py:291-300 | longer input only extends the output |
| `MultiTimeframeBatch.OutputWellFormed` | src/stinger_fx/domain/bars.py:29-35 | folding well-formed bars never builds a bar that its own constructor would reject |
| `BarAggregator.BarAggregator.OnTick` | src/stinger_fx/brokers/bar_aggregator.py:90-113 | one tick updates the bar in progress or closes it; silence suppresses what is published and nothing else |
| `BarAggregator.BarAggregator.Reset` | src/stinger_fx/brokers/bar_aggregator.py:115-119 | a new bar starts from the tick that opens it |
| `BarAggregator.BarAggregator.CopyStateInto` | src/stinger_fx/brokers/bar_aggregator.py:66-88 | the receiver takes over the whole accumulated state, or refuses when symbol or timeframe differ |
| `BarAggregator.BarAggregator.WarmUp` | src/stinger_fx/runtime.py:699-718 | the start-up backfill replays history silently and ends live |
| `BarAggregator.SilentPrefixLosesNothing` | src/stinger_fx/runtime.py:707-718 | a silent prefix followed by live ticks publishes exactly the suffix an always-live aggregator would still have published |
| `BarAggregator.OnlyOwnTicksMatter` | src/stinger_fx/brokers/bar_aggregator.py:90-93 | ticks of other symbols leave no trace |
| `BarAggregator.BarOpenTimeMonotone` | src/stinger_fx/brokers/bar_aggregator.py:24-38 | boundaries never decrease in time, weeks and calendar months included |
| `BarAggregator.BarOpenIsLatestOpening` | src/stinger_fx/brokers/bar_aggregator.py:24-38 | the boundary is the last multiple of the bar length since 1 January 1970, or since Monday, 5 January for weeks, up to the tick; lengths are stated in minutes for every timeframe |
| `CivilMonths.MonthsFollowTheCalendar` | src/stinger_fx/brokers/bar_aggregator.py:32-33 | month after month has the length the calendar gives it, leap years included, counted from 1 January 1970: this fixes the first day of every month |
| `CivilMonths.MonthStartHolds` | src/stinger_fx/brokers/bar_aggregator.py:32-33 | truncating to day 1 gives the first of the one month that holds the day |
| `CivilMonths.MonthStartMonotone` | src/stinger_fx/brokers/bar_aggregator.py:32-33 | which never decreases from day to day |
| `BarAggregator.MonthlyBoundary` | src/stinger_fx/brokers/bar_aggregator.py:32-33 | a monthly bar opens at midnight of the first of the month that holds the tick |
| `BarAggregator.ProgressIsFrontierGroup` | src/stinger_fx/brokers/bar_aggregator.py:90-119 | for ticks in any order, the bar in progress is the OHLC of the ticks that arrived at the latest boundary reached |
| `BarAggregator.EmittedTimesIncrease` | src/stinger_fx/brokers/bar_aggregator.py:90-119 | even out of order, emitted bar times strictly increase and stay behind the latest boundary |
| `BarAggregator.EmittedExactly` | src/stinger_fx/brokers/bar_aggregator.py:90-139 | a bar is emitted if and only if it has the first bid, greatest bid, least bid, last bid and count of a non-empty group behind the latest boundary |
| `BarAggregator.TicksConserved` | src/stinger_fx/brokers/bar_aggregator.py:90-139 | emitted tick volumes plus the count in progress equal the number of ticks of the symbol |
| `BarAggregator.EmittedWellFormed` | src/stinger_fx/domain/bars.py:29-35 | with positive bids every emitted bar has valid OHLC |
| `BarAggregator.OrderedGroupByBoundary` | src/stinger_fx/brokers/bar_aggregator.py:24-38 | for ticks in time order the groups are the ticks sharing a boundary |
| `Composition.H4OfH1` | src/stinger_fx/brokers/bar_aggregator.py:35-38 | with an aligned anchor, the four-hour key of an hour boundary is the four-hour boundary of the tick |
| `Composition.HourBarsFoldToGroup` | src/stinger_fx/strategies/aggregation.py:216-226 | for every four-hour bucket, folding its hour bars gives the same bar as folding its ticks |
| `Composition.FoldedExactly` | src/stinger_fx/strategies/aggregation.py:193-226 | a folded bar is a direct bar whose four hours all had a tick, once the first hour of a later bucket has closed |
| `Composition.AggregationComposes` | src/stinger_fx/strategies/aggregation.py:193-226 | for ticks in any order and an anchor that is a multiple of four, ticks to H1 to H4 equals ticks to H4 on the buckets whose four hours all had a tick, lacking at most the latest bar |
| `Composition.MisalignedNeverAgree` | src/stinger_fx/strategies/aggregation.py:120-125 | with any other anchor the two never share a bar, so the alignment is needed |
| `Rollover.CountByAnchors` | src/stinger_fx/backtest/replay_broker.py:45-61 | the closed form is the number of days between the two anchored day starts |
| `Rollover.CountIsInstants` | src/stinger_fx/backtest/replay_broker.py:45-61 | the count is the number of daily rollover instants in (open, close] |
| `Rollover.CountIsAdditive` | src/stinger_fx/backtest/replay_broker.py:45-61 | the count is additive over adjoining intervals: no night lost, none charged twice |
| `SimBroker.SimBroker.PlaceOrder` | src/stinger_fx/backtest/replay_broker.py:276-366 | market orders fill at the slipped price and are charged, other types are parked, both under a fresh ticket; an unpriced symbol or a pending order without a price is refused |
| `SimBroker.SimBroker.CheckPendingOrders` | src/stinger_fx/backtest/replay_broker.py:368-444 | one observation (a quote, or a bar range) promotes every triggered order of the symbol, in ticket order; which ones is `BrokerLaws.QuoteTakesTheReached` and `BarTakesTheTouched` |
| `SimBroker.SimBroker.PromotePending` | src/stinger_fx/backtest/replay_broker.py:446-478 | a pending order becomes a position under its own ticket, the opening commission is charged and the fill announced |
| `SimBroker.SimBroker.ModifyOrder` | src/stinger_fx/backtest/replay_broker.py:480-525 | only supplied fields change; a pending volume must be positive; positions change only their stops |
| `SimBroker.SimBroker.ClosePosition` | src/stinger_fx/backtest/replay_broker.py:527-647 | full or partial close at the opposite side of the slipped quote; refusals change nothing; the money is `BrokerLaws.CloseExactly` |
| `SimBroker.SimBroker.SettleClose` | src/stinger_fx/backtest/replay_broker.py:590-636 | a full close removes the position and its owner, a partial close leaves the remainder; the record, the balance and the announcements |
| `SimBroker.SimBroker.RecordTrade` | src/stinger_fx/backtest/replay_broker.py:553-588 | the record is net of both commissions and swap, the balance moves by gross less the closing commission plus swap |
| `SimBroker.SimBroker.CancelOrder` | src/stinger_fx/backtest/replay_broker.py:648-658 | a pending order disappears and is announced as cancelled; anything else is refused |
| `SimBroker.SimBroker.SetMarketQuote` | src/stinger_fx/backtest/replay_broker.py:149-154 | the mark is the bid |
| `BrokerLaws.PricedIsQuoted` | src/stinger_fx/backtest/replay_broker.py:143-154 | the close of a bar is bid, ask and mark at once, as a quote without spread |
| `BrokerRuns.PlaceKeeps` | src/stinger_fx/backtest/replay_broker.py:276-366 | placing keeps tables, tickets and ledger, and moves tickets only forward |
| `BrokerRuns.SettleKeepsLedger` | src/stinger_fx/backtest/replay_broker.py:542-589 | a close of any part moves the balance so that the ledger law still holds |
| `BrokerRuns.CloseKeeps` | src/stinger_fx/backtest/replay_broker.py:527-647 | closing keeps tables, tickets and ledger, and moves tickets only forward |
| `BrokerRuns.StepKeeps` | src/stinger_fx/backtest/replay_broker.py:276-658 | every broker operation keeps all three and moves tickets only forward |
| `BrokerRuns.ReachableIsSound` | src/stinger_fx/backtest/replay_broker.py:166-172 | in every reachable state, for any slippage function: strategy-id keys equal position keys, every position has a market price, every issued ticket is in exactly one of pending, open, closed, cancelled, and balance = initial balance + sum of trade profits - commission per lot times open volume |
| `BrokerRuns.TicketsOnlyMoveForward` | src/stinger_fx/backtest/replay_broker.py:383-658 | from any state of a run to any later one, a ticket never goes back |
| `BrokerRuns.PendingFillIsFillPrice` | src/stinger_fx/backtest/replay_broker.py:387-395 | limits fill at their own price, stops at a slipped quote or at the slipped trigger price of a bar |
| `BrokerLaws.QuoteTakesTheReached` | src/stinger_fx/backtest/replay_broker.py:64-82 | after a quote an order of the symbol is still pending if and only if: buy limit, its price is below the ask; sell limit, above the bid; buy stop or stop-limit, above the ask; sell stop or stop-limit, below the bid. A limit that left was reached and filled at its price |
| `BrokerLaws.BarTakesTheTouched` | src/stinger_fx/backtest/replay_broker.py:400-444 | after a bar an order of the symbol is still pending if and only if its price lies outside low to high |
| `BrokerLaws.OthersWait` | src/stinger_fx/backtest/replay_broker.py:387-391 | orders of other symbols and orders without a price stay as they are |
| `BrokerLaws.MarketOrderFills` | src/stinger_fx/backtest/replay_broker.py:318-366 | a market order takes its own side of the quote and becomes a position with everything the request asked for, for one commission |
| `BrokerLaws.CloseExactly` | src/stinger_fx/backtest/replay_broker.py:527-636 | a close of any part gets the price of the other side; a long gains what the price rose and a short what it fell, times volume and contract size; balance, record and announcements carry that, both commissions and the nights between |
| `BrokerLaws.RoundTrip` | src/stinger_fx/backtest/replay_broker.py:276-589 | open at the market, let quote and clock move, close: without slippage a long has gained from its ask to the later bid, a short from its bid to the later ask, less both commissions plus swap |
| `BrokerLaws.RoundTripCostsTheSpread` | src/stinger_fx/backtest/replay_broker.py:276-589 | on one quote either side loses exactly spread times volume times contract size and both commissions |
| `StandingOrders.PlaceTakes` | src/stinger_fx/backtest/replay_broker.py:276-366 | a request is accepted if and only if its symbol is quoted and, unless at market, it names a price; a refused one changes nothing |
| `StandingOrders.TablesHoldRequests` | src/stinger_fx/backtest/replay_broker.py:276-525 | in every state of every run a pending order carries side, type, volume, price, stop, target, tag and owner last asked for its ticket, and a position the same less price, with the volume asked for less what partial closes announced |
| `BrokerRuns.CheckPendingExact` | src/stinger_fx/backtest/replay_broker.py:368-478 | after a check exactly the triggered orders of that symbol have left the pending table, each into a position at a price it allows; every other pending order is unchanged |
| `BrokerRuns.FillsInTicketOrder` | src/stinger_fx/backtest/replay_broker.py:383-398 | one check announces nothing but its fills, in the order of their tickets |
| `BrokerRuns.CloseAllRemoves` | src/stinger_fx/backtest/file_backtester.py:166-168 | closing any listing of open positions takes away exactly those |
| `BrokerRuns.CloseAllSettles` | src/stinger_fx/backtest/file_backtester.py:166-168 | the closing loop is never refused, leaves nothing open, and final - initial balance is the sum of the trade profits |
| `SwapNights.SwapSplits` | src/stinger_fx/backtest/replay_broker.py:560-567 | splitting a close in two splits its swap |
| `SwapNights.ClosedBasis` | src/stinger_fx/backtest/replay_broker.py:542-589 | closing a part books exactly the swap that part had outstanding |
| `SwapNights.SwapIsNightly` | src/stinger_fx/backtest/replay_broker.py:542-589 | over any run, the swap in the records of a ticket plus what is outstanding equals rate times the sum, over rollovers crossed, of the volume held just before each |
| `SwapNights.ClosedPositionSwap` | src/stinger_fx/backtest/replay_broker.py:542-589 | once a position is gone, however it was closed in parts, its records carry exactly that nightly charge |
| `RiskMonitor.RiskMonitor.HandleFilled` | src/stinger_fx/risk/monitor.py:413-422 | a fill counts for its strategy and symbol and, when it has a ticket, remembers the owner |
| `RiskMonitor.RiskMonitor.HandleClosed` | src/stinger_fx/risk/monitor.py:424-451 | a close uncounts the remembered owner (never below zero), uncounts the symbol, and books the profit on the rolled day |
| `RiskMonitor.RiskMonitor.HandlePartialClosed` | src/stinger_fx/risk/monitor.py:453-460 | a partial close books profit and touches no counter |
| `RiskMonitor.RiskMonitor.HandleSnapshot` | src/stinger_fx/risk/monitor.py:462-530 | a snapshot moves equity, peak, opening balance, both latches, and persists exactly when something durable changed |
| `RiskMonitor.RiskMonitor.CheckSignal` | src/stinger_fx/risk/monitor.py:277-355 | the verdict is decided by the gates in the written order, after rolling the day when neither latch is set; what each gate asks is `RiskRuns.VerdictIsFirstComplaint` |
| `RiskRuns.VerdictIsFirstComplaint` | src/stinger_fx/risk/monitor.py:277-355 | a signal gets the first complaint in a fixed order and is allowed if and only if there is none; each complaint is a plain comparison of a reported figure with a limit, so the day is lost at a profit of minus the percentage of the opening balance or less, never at a gain |
| `RiskRuns.CheckRollsUnlessTripped` | src/stinger_fx/risk/monitor.py:277-287 | a signal refused by a tripped switch leaves the monitor as it was; any other makes its daily figures those of the day of the check and changes nothing else |
| `RiskRuns.FiguresAreLastReported` | src/stinger_fx/risk/monitor.py:462-467 | balance, margin level and free margin are those of the latest snapshot, unknown before the first |
| `RiskMonitor.RiskMonitor.MaybeRollDaily` | src/stinger_fx/risk/monitor.py:402-409 | on a new UTC day the daily figures restart from the current balance |
| `RiskMonitor.RiskMonitor.ResetKill` | src/stinger_fx/risk/monitor.py:164-180 | an operator reset clears the kill switch, rebases the peak and persists |
| `RiskMonitor.RiskMonitor.ResetLock` | src/stinger_fx/risk/monitor.py:182-193 | an operator reset clears the profit lock, rebases its baseline and persists |
| `RiskMonitor.RiskMonitor.Rehydrate` | src/stinger_fx/risk/monitor.py:195-259 | the state rebuilt from the broker listing, the daily figures and the state row |
| `RiskMonitor.RiskMonitor.PersistState` | src/stinger_fx/risk/monitor.py:261-273 | the row saved is peak and both latches; without a repository nothing happens |
| `RiskMonitor.RiskStateRepo.Save` | src/stinger_fx/data/repositories.py:201-226 | the single row is overwritten |
| `RiskRuns.KillSwitchMeansBreach` | src/stinger_fx/risk/monitor.py:462-502 | in the first life: peak is the running maximum since start or last kill-switch reset, and the switch is tripped if and only if some snapshot since then met the drawdown limit; with restarts in between it is `SwitchOverLives.SwitchMeansBreach` |
| `SwitchOverLives.SwitchMeansBreach` | src/stinger_fx/risk/monitor.py:164-180 | over any number of restarts: the peak is the maximum over the equities since start or since the last reset that found an equity in its life, and the switch is tripped if and only if one of them that came after the last reset met the limit |
| `SwitchOverLives.NextTripsIff` | src/stinger_fx/risk/monitor.py:164-180 | the snapshot after a reset trips if and only if it has lost the limit on the equity last seen in this life, or on the old peak when none was seen yet |
| `SwitchOverLives.EarlyResetTripsAgain` | src/stinger_fx/risk/monitor.py:164-180 | a history in which a reset right after a restart is undone by the next snapshot, although equity has not moved |
| `RiskRuns.DrawdownMet` | src/stinger_fx/risk/monitor.py:395-400 | the limit is met if and only if the peak is positive and equity is at or below its share of the peak |
| `RiskRuns.BreachBlocksEverySignal` | src/stinger_fx/risk/monitor.py:277-282 | after a breach every signal is refused, for any strategy, symbol and time |
| `RiskRuns.BreachLastsUntilReset` | src/stinger_fx/risk/monitor.py:164-180 | no input but a kill-switch reset lifts a breach |
| `RiskRuns.ProfitLockMeansGaveBack` | src/stinger_fx/risk/monitor.py:503-527 | session open and high-water mark are the first and greatest equity since the last lock reset, and the lock is tripped if and only if some snapshot fell through the floor of an armed lock |
| `RiskRuns.LockInMoney` | src/stinger_fx/risk/monitor.py:510-518 | armed means a gain of the activation percentage of the session open, fallen through means that more than the giveback percentage of the greatest gain is gone |
| `RiskRuns.FloorNeverFalls` | src/stinger_fx/risk/monitor.py:514-518 | once armed the lock stays armed; its floor only rises and never lies below session-open equity |
| `RiskRuns.LockedInWhileUntripped` | src/stinger_fx/risk/monitor.py:503-527 | while armed and untripped, current equity is at or above the floor and the session open |
| `OrderRouter.OrderRouter.OnSignal` | src/stinger_fx/execution/order_router.py:262-329 | filter, risk check, exposure cap, then decision, submission and result events, in that order |
| `OrderRouter.OrderRouter.SubmitRequest` | src/stinger_fx/execution/order_router.py:344-389 | a fill is announced here, a parked order is not, a refusal is announced as rejected |
| `OrderRouter.OrderRouter.OnClose` | src/stinger_fx/execution/order_router.py:532-563 | only a position with the requester tag is closed |
| `OrderRouter.OrderRouter.OnPartialClose` | src/stinger_fx/execution/order_router.py:474-530 | a chunk as large as the position is refused |
| `OrderRouter.OrderRouter.OnCancel` | src/stinger_fx/execution/order_router.py:565-593 | only a pending order with the requester tag is cancelled |
| `OrderRouter.OrderRouter.OnModify` | src/stinger_fx/execution/order_router.py:391-472 | pending orders first, then positions; unsupplied fields keep their value; only a position change is announced |
| `Ownership.SignalExactly` | src/stinger_fx/execution/order_router.py:262-329 | a signal becomes an order if and only if filter, risk check and exposure cap all pass, announced either way; the order has the side, type, volume, price, stop, target and owner of the signal and its tag |
| `Ownership.ModifyRequestExact` | src/stinger_fx/execution/order_router.py:391-472 | what a modify request leaves in the tables: under the right tag what was supplied replaces what was there, unless the pending volume would not be positive; only a position change is announced |
| `Ownership.RequestsRespectOwners` | src/stinger_fx/execution/order_router.py:391-593 | in every run, close, partial-close, cancel and modify requests open nothing and leave every position and pending order of another tag exactly as it was |
| `Ownership.CloseRequestExact` | src/stinger_fx/execution/order_router.py:532-563 | a close request closes an open position if and only if requester and owner share a tag; with distinct tags, if and only if the owner asks |
| `Ownership.DistinctTagsSeparate` | src/stinger_fx/execution/order_router.py:532-563 | with distinct tags only the owner shares its tag |
| `Ownership.ClosedByAnother` | src/stinger_fx/execution/order_router.py:532-563 | a run in which a position is closed at the request of another strategy: neither has a tag, so both use 0 |
| `Ownership.PartialCloseRequestExact` | src/stinger_fx/execution/order_router.py:474-530 | a partial close takes its chunk off if and only if the tags agree and something would be left |
| `Ownership.CancelRequestExact` | src/stinger_fx/execution/order_router.py:565-593 | a cancel request cancels a pending order if and only if requester and owner share a tag |
| `Engine.FillAgrees` | src/stinger_fx/risk/monitor.py:413-422 | one position more and one fill event more keep counters and books in agreement |
| `Engine.CloseAgrees` | src/stinger_fx/risk/monitor.py:424-446 | one position less and one close event more keep them in agreement |
| `Engine.SubmitKeeps` | src/stinger_fx/execution/order_router.py:344-389 | exactly one fill is announced for a market fill, none for a parked or refused order |
| `Engine.PromoteMirrored` | src/stinger_fx/backtest/replay_broker.py:446-478 | a promotion announces exactly the position it opens |
| `Engine.NextKeeps` | src/stinger_fx/risk/monitor.py:413-460 | every step of router, broker, bus delivery and monitor keeps the composed invariant |
| `Engine.RunMirrors` | src/stinger_fx/risk/monitor.py:413-460 | in every state of every run the monitor has counted exactly the events delivered to it, the ledger laws hold, the event log fills a ticket once and closes it at most once and later, its live tickets are the open positions, and it announces every booked profit |
| `EventLog.OnlyOnce` | src/stinger_fx/backtest/replay_broker.py:446-478 | in such a log no two fills and no two closes have the same ticket |
| `Engine.MonitorMirrorsBroker` | src/stinger_fx/risk/monitor.py:277-297 | with everything delivered, per-strategy and per-symbol counts and the ticket map equal those computed from the broker positions |
| `Engine.CountIsFillsLessCloses` | src/stinger_fx/risk/monitor.py:413-446 | what later events add to the counter of a strategy is its fills less its closes, floors and forgotten tickets notwithstanding |
| `Engine.CountAndLag` | src/stinger_fx/risk/monitor.py:413-446 | in every state of a run the open positions of a strategy are what the monitor has counted plus its undelivered fills less its undelivered closes |
| `Engine.AllowedSignalCap` | src/stinger_fx/risk/monitor.py:290-297 | an allowed market signal leaves its strategy within the cap if and only if the counter plus undelivered fills less undelivered closes is below the cap |
| `Engine.CapNeverExceeded` | src/stinger_fx/risk/monitor.py:290-297 | with market signals and events handled in publish order no strategy ever exceeds a non-zero cap |
| `Engine.SymbolCapNeverExceeded` | src/stinger_fx/risk/monitor.py:335-344 | nor does any symbol exceed a non-zero cap of its own |
| `Engine.TriggeredAddUp` | src/stinger_fx/backtest/replay_broker.py:383-397 | a check opens for a strategy exactly as many positions as it has triggered pending orders; no cap is consulted |
| `Engine.CheckKeepsCap` | src/stinger_fx/backtest/replay_broker.py:383-397 | hence a check keeps the cap if and only if there was room for all it triggers |
| `Engine.LagExceedsCap` | src/stinger_fx/risk/monitor.py:290-297 | a run of market signals in which an undelivered fill lets a strategy exceed its cap |
| `Engine.PendingsExceedCap` | src/stinger_fx/backtest/replay_broker.py:383-397 | a run with every event delivered in time in which two stop orders exceed a cap of one |
| `TradeLog.TradeRepo.RealizedSince` | src/stinger_fx/data/repositories.py:155-171 | the loop returns the total and the per-symbol sums of the trades closed at or after the instant, with an entry for exactly the symbols that occur |
| `TradeLog.TradePersister.OnClosed` | src/stinger_fx/data/trade_persister.py:62-83 | one row for the whole position, the open price standing in for a missing close price |
| `TradeLog.TradePersister.OnPartialClosed` | src/stinger_fx/data/trade_persister.py:85-105 | one row for the closed chunk |
| `TradeLog.RowIsTheRecord` | src/stinger_fx/data/trade_persister.py:62-105 | the row written for a close, whole or partial, has ticket, symbol, side, times, prices, volume and profit of the record in the broker |
| `TradeLog.TotalIsSumOverSymbols` | src/stinger_fx/data/repositories.py:155-171 | the total is the sum of the per-symbol figures |
| `Restart.RowRestoresGates` | src/stinger_fx/risk/monitor.py:247-259 | loading the state row restores peak and both latches of the monitor that kept running |
| `Restart.DailyIsRealized` | src/stinger_fx/risk/monitor.py:402-460 | the daily figures are exactly the profits realised on the current UTC day |
| `Restart.TradeTableRestoresDaily` | src/stinger_fx/data/repositories.py:155-171 | the trade table since midnight holds exactly the daily figures of the live monitor, in total and by symbol; monitor and persister may read different instants of one UTC day |
| `Restart.LateStampIsMisdated` | src/stinger_fx/data/trade_persister.py:62-83 | a row stamped on the next day already makes that day wrong, unless its profit is zero |
| `Restart.RehydratedSymbolsAgree` | src/stinger_fx/risk/monitor.py:223-243 | counting the broker listing, in whatever order, gives the right per-symbol counts whatever the tags say |
| `Restart.RehydratedCountsAgree` | src/stinger_fx/risk/monitor.py:223-243 | and all the right counts when every tag resolves |
| `Backlog.BacklogKeepsCountsIff` | src/stinger_fx/risk/monitor.py:413-446 | counting a backlog on top of counters that are right already leaves them right if and only if no open position was filled in it and no symbol with an open position has a close in it of a position filled before, the floor at zero included |
| `Backlog.RehydratedWithBacklog` | src/stinger_fx/runtime.py:317-321 | hence in any state of any run, for a monitor that is rehydrated there and then handles what was still queued |
| `Backlog.CountedTwice` | src/stinger_fx/runtime.py:317-321 | a run in which the counter then says two and one position is open |
| `Backlog.LoggedProfitCountsTwice` | src/stinger_fx/runtime.py:412-421 | when the trade table already has the profit of the first of the late closes, the daily profit ends too high by just that, so it is right if and only if that is zero |
| `Restart.OwnersSurviveIffTagsResolve` | src/stinger_fx/risk/monitor.py:230-243 | for any broker, the rehydrated ticket map is right if and only if every tag leads back to the owner |
| `Restart.OwnersSurviveIffOwnersWin` | src/stinger_fx/runtime.py:405-409 | in terms of configuration: the ticket map survives a restart if and only if every strategy with an open position has a tag and is the one that the reversed table keeps for it |
| `Restart.AllWinIffTagsDistinct` | src/stinger_fx/runtime.py:405-409 | every configured strategy is kept if and only if no two share a tag |
| `Restart.OwnerLostOnRestart` | src/stinger_fx/runtime.py:405-409 | a run ending with one position, and a restart, in which the owner is lost: without a tag of its own, or with one that another strategy takes |
| `Restart.TagsResolveWhenDistinct` | src/stinger_fx/risk/monitor.py:230-243 | distinct tags suffice for that |
| `Restart.RunTagged` | src/stinger_fx/execution/order_router.py:301-313 | in every run positions and pending orders carry the tag of their owner |
| `Restart.MonitorIsItsInputs` | src/stinger_fx/risk/monitor.py:413-530 | the monitor in the engine is a function of what was delivered to it |
| `Restart.RestartIsTransparent` | src/stinger_fx/risk/monitor.py:195-273 | after any run with no write lost, the rehydrated monitor has the per-symbol counts, daily figures, peak and latches of the uninterrupted one; and its ticket map, hence all the counts, if and only if every strategy with an open position is kept in the reversed table |
| `Lives.AlwaysRecorded` | src/stinger_fx/risk/monitor.py:195-273 | over any number of restarts: the trade table lacks no profit, the daily figures are those of the day, and the state row is the state of the latches |
| `Lives.LivesMirror` | src/stinger_fx/risk/monitor.py:195-243 | over any number of restarts that keep the owners, the monitor has counted exactly what it was told |
| `Lives.EveryRestartKeepsMoney` | src/stinger_fx/risk/monitor.py:235-259 | at every restart of such a history the daily figures, peak and latches are those of the monitor before it, whatever the tags |
| `Lives.EveryRestartKeepsCounts` | src/stinger_fx/risk/monitor.py:223-243 | at every restart the per-symbol counts are kept, and all counts if and only if the owners are, provided the restarts before kept them |
| `OpeningBalance.OpeningIsExplained` | src/stinger_fx/risk/monitor.py:462-480 | in every state of every history, restarts included: the opening balance is what some snapshot reported less the profit of the day handled by then, and 0.0 when none set it; the same for the monitor that missed the last restart |
| `OpeningBalance.OpeningBalancesAgreeIff` | src/stinger_fx/risk/monitor.py:472-480 | the opening balance after a restart is the one the monitor would have had without it if and only if, between the two snapshots, profit of other days and profit in flight have together grown by as much as the commission held in open positions; when only one has a snapshot, if and only if that reported just the profit of the day |
| `OpeningBalance.FirstSnapshotAfterRestart` | src/stinger_fx/risk/monitor.py:472-480 | the first snapshot after a restart takes what was reported less the profit in the table since midnight; the old monitor would have taken a new figure only without an anchor or after a restart of its own |
| `OpeningBalance.ProfitIsHandled` | src/stinger_fx/risk/monitor.py:424-460 | over any history what was realised is exactly what the delivered events announced |
| `OpeningBalance.InFlightIsUndelivered` | src/stinger_fx/risk/monitor.py:424-460 | the profit in flight at a snapshot is exactly what the events announce that were published by then and handled later |
| `OpeningRuns.MissingSnapshot` | src/stinger_fx/risk/monitor.py:402-409 | a history without any ticket in which the two differ, 0 and 100: a signal was judged before the first snapshot |
| `OpeningRuns.StaleSnapshot` | src/stinger_fx/risk/monitor.py:402-409 | one without commission in which they differ, 100 and 101: the day was begun on a snapshot taken before the last close of the day before |
| `OpeningRuns.ProfitInFlight` | src/stinger_fx/risk/monitor.py:424-451 | one without commission in which they differ, 101 and 100: the snapshot had a profit that was handled on the next day |
| `OpeningRuns.CommissionHeld` | src/stinger_fx/backtest/replay_broker.py:166-172 | one without any close in which they differ, 100 and 99: commission is held in a position |
| `OpeningBalance.LossGateRefusesIff` | src/stinger_fx/risk/monitor.py:300-306 | a signal that no earlier gate stops is refused for the loss of the day if and only if the gate is in force and the profit of the day is at or below minus the percentage of the opening balance; then it is negative |
| `OpeningBalance.SymbolLossRefusesIff` | src/stinger_fx/risk/monitor.py:347-353 | a signal that nothing else stops is refused for the loss of its symbol if and only if that limit is set and the profit of the symbol is at or below minus the limit |
| `OpeningBalance.RefusedByTheDaysLoss` | src/stinger_fx/risk/monitor.py:300-353 | over any history with restarts both thresholds are met by the sum of the profits handled on the day of the signal, in all and for the symbol |
| `OpeningBalance.LossGateInForceIff` | src/stinger_fx/risk/monitor.py:300-306 | over any history the gate is in force if and only if a limit is set, some snapshot set the opening balance, and it reported more than the profit of the day handled by then |
| `OpeningBalance.GateOffAllDay` | src/stinger_fx/risk/monitor.py:402-409 | a day begun by a signal or close before the first snapshot has no gate until a reading on another day, whatever snapshots follow |
| `OpeningBalance.NextDayOpens` | src/stinger_fx/risk/monitor.py:402-409 | the first reading on another day takes the balance last reported |
| `OpeningRuns.GateOffAfterSnapshot` | src/stinger_fx/risk/monitor.py:300-306 | a history in which a snapshot has reported a positive balance, a limit is set, and the gate is off |
| `Lives.DeliverClosed` | src/stinger_fx/data/trade_persister.py:62-83 | monitor and persister handle one close: the new state of each, and no profit is missing from the table |
| `Lives.DeliverPartialClosed` | src/stinger_fx/data/trade_persister.py:85-105 | the same for a partial close |
| `Lives.SaveOn` | src/stinger_fx/risk/monitor.py:261-273 | on the object, the state row after a snapshot or reset is the one the history says |
| `Lives.RestartMonitor` | src/stinger_fx/runtime.py:392-430 | a new monitor over the old repository and trade table is in the state that the history gives it |
| `OrderQueue.OrderQueue.Submit` | src/stinger_fx/brokers/order_queue.py:69-116 | a known id is refused without a call; otherwise one row is added, sent under the returned ticket if and only if the call returned an accepted order, and failed if and only if it was refused or raised |
| `OrderQueue.OrderQueue.UpdateStatus` | src/stinger_fx/brokers/order_queue.py:181-198 | an accepted result makes the row sent and gives it the ticket, any other makes it failed; one attempt more, nothing else; an unknown row is ignored |
| `OrderQueue.OrderQueue.MarkFailed` | src/stinger_fx/brokers/order_queue.py:200-212 | a raised call makes the row failed and counts one attempt |
| `OrderQueue.OrderQueue.ReplayPendingResults` | src/stinger_fx/brokers/order_queue.py:120-152 | every row pending at the start is sent or failed as its own call ended, no other row changes, and the answers are those of the calls that returned, by ascending `enqueued_at` |
| `OrderQueue.AnswersExact` | src/stinger_fx/brokers/order_queue.py:139-152 | an answer is reported if and only if the call for one of those rows returned it |
| `OrderQueue.PendingIdsExact` | src/stinger_fx/brokers/order_queue.py:130-137 | the selected rows are exactly the pending ones, each once, by ascending `enqueued_at` |
| `OutboxProtocol.StepSafe` | src/stinger_fx/brokers/order_queue.py:69-152 | every step, crashes included, keeps ids unique, attempts zero exactly while pending and one afterwards, one holder per row, all calls accounted for, and each completed row showing the one answer recorded for it |
| `OutboxProtocol.RunSafe` | src/stinger_fx/brokers/order_queue.py:69-152 | hence in every state of every run |
| `OutboxProtocol.RunAdvances` | src/stinger_fx/brokers/order_queue.py:181-212 | a row keeps its id and request, and once sent or failed never changes again |
| `OutboxProtocol.StatusIsTheAnswer` | src/stinger_fx/brokers/order_queue.py:181-212 | in every state of every run a row is sent if and only if its one recorded answer is an accepted order, whose ticket it has, failed if and only if that is a refusal or an exception, and pending if and only if no call for it was answered |
| `OutboxProtocol.CallBounds` | src/stinger_fx/brokers/order_queue.py:94-116 | a completed row has had a broker call, and no row more than one plus the number of interruptions |
| `OutboxProtocol.CompletedReplayLeavesNothing` | src/stinger_fx/brokers/order_queue.py:120-152 | a replay that runs to its end leaves none of the rows it began with pending |
| `OutboxProtocol.ReplayReaches` | src/stinger_fx/brokers/order_queue.py:130-152 | a running replay works its way to every row it selected and calls the broker for it |
| `OutboxProtocol.ReplaySafeIffQuiet` | src/stinger_fx/brokers/order_queue.py:120-137 | after starting a replay no continuation calls a row more than once beyond the calls lost to interruptions, if and only if no submission is in flight |
| `OutboxProtocol.UnguardedReplayCallsTwice` | src/stinger_fx/brokers/order_queue.py:120-152 | in every safe state, whatever submission is in flight: a replay started there has a continuation without interruption in which its order is sent twice |
| `OutboxProtocol.OneSubmissionIsInFlight` | src/stinger_fx/brokers/order_queue.py:69-93 | such a state is one submission away from an empty queue |
| `EventBus.AsyncEventBus.AddSubscriber` | src/stinger_fx/core/event_bus.py:68-98 | a closed bus refuses; otherwise one empty queue is added |
| `EventBus.AsyncEventBus.PublishEvent` | src/stinger_fx/core/event_bus.py:100-121 | the loop offers the event to each subscriber in turn and may stop in front of a full blocking queue |
| `EventBus.AsyncEventBus.ResumePublish` | src/stinger_fx/core/event_bus.py:108-109 | a suspended publisher puts its event and continues with the rest |
| `EventBus.AsyncEventBus.ConsumerTakes` | src/stinger_fx/core/event_bus.py:129-131 | the consumer takes the head and its handler begins |
| `EventBus.AsyncEventBus.ConsumerEnds` | src/stinger_fx/core/event_bus.py:132-136 | the handler returns, or raises and is counted; either way the loop goes on |
| `EventBus.AsyncEventBus.Close` | src/stinger_fx/core/event_bus.py:138-146 | the loop closes every subscriber and cancels its consumer, in the middle of a handler or not; a second close changes nothing |
| `EventBus.WalkExact` | src/stinger_fx/core/event_bus.py:100-121 | exactly the live subscribers of that event type before the stopping point are offered the event, once each |
| `EventBus.PublishReaches` | src/stinger_fx/core/event_bus.py:100-121 | a published event enters the queue of every subscriber that is not closed and subscribes to its kind, up to the first blocking one whose queue is full, for which the publisher waits; no other subscriber is touched |
| `EventBus.SubscribersAsAsked` | src/stinger_fx/core/event_bus.py:68-102 | over any run the subscribers are those that subscribed, with the kinds, policy and size they asked for, each live until it is unsubscribed or the bus is closed |
| `EventBus.ErrorsAreRaises` | src/stinger_fx/core/event_bus.py:123-137 | over any run the error count is the number of handlers that raised and the other count the number that returned |
| `EventBus.NewestAlwaysEnters` | src/stinger_fx/core/event_bus.py:110-121 | the event being published always enters a drop-oldest queue, so its silent-drop arm is never taken; something is evicted only from a full queue |
| `EventBus.EveryQueueIsSound` | src/stinger_fx/core/event_bus.py:100-146 | over every interleaving, a queue holds the most recent events offered to it, everything before was consumed in order or evicted, each once, eviction needs a full backlog, and every consumed event was handled or raised, but for the last one, which may be at hand or have been cancelled |
| `EventBus.BlockLosesNothing` | src/stinger_fx/core/event_bus.py:108-109 | for a blocking subscriber, consumed followed by queued equals everything enqueued, and of what was consumed at most the last event was not handled to its end |
| `MonitorQueues.DeskStaysSound` | src/stinger_fx/risk/monitor.py:131-144 | over every interleaving of publishing and of the two consumers: each fill and close is handled at most once, and just when its own queue gives it out |
| `MonitorQueues.OwnersMirrorIff` | src/stinger_fx/risk/monitor.py:413-446 | once the queues are empty the ticket map is the broker table if and only if the fill of every open position got through and every other fill was evicted or followed by its close; the strategy counters are then right too |
| `MonitorQueues.CountersFollowTicketMap` | src/stinger_fx/risk/monitor.py:413-446 | in any order and with anything lost, the counter of a strategy is the number of tickets that the map gives it |
| `MonitorQueues.AllHandledMirrors` | src/stinger_fx/risk/monitor.py:413-446 | with nothing evicted and every close handled after its fill, all counters are the broker tables |
| `MonitorQueues.NoEvictionWithin` | src/stinger_fx/core/event_bus.py:110-121 | a queue that was offered no more than 1024 events has evicted nothing |
| `MonitorQueues.BurstEvicts` | src/stinger_fx/core/event_bus.py:110-121 | more fills than the queue holds, before the consumer runs, lose the first |
| `MonitorQueues.PhantomOwner` | src/stinger_fx/risk/monitor.py:424-432 | a close handled before its fill leaves an owner for a position that is gone |
| `FileBacktester.ReadIsRangeOfSorted` | src/stinger_fx/data/parquet_store.py:191-215 | reading a range and sorting it is taking that range of the sorted rows, ties in stored order |
| `FileBacktester.MergeSplits` | src/stinger_fx/backtest/file_backtester.py:358-378 | merging a range is merging what comes before a cut and then what comes after it, ties between symbols included |
| `FileBacktester.ChunkExtends` | src/stinger_fx/backtest/file_backtester.py:347-378 | one more chunk extends the replay to the merge of the longer range |
| `FileBacktester.MergeIsStableSort` | src/stinger_fx/backtest/file_backtester.py:372-378 | the merge is the stable sort by time of all symbols' ticks, or all feeds' bars, in their order |
| `FileBacktester.MergeInOrder` | src/stinger_fx/backtest/file_backtester.py:372-378 | the merge is in time order and within the range read |
| `FileBacktester.SimClock.Advance` | src/stinger_fx/core/clock.py:35-41 | the clock moves forward or stays, and raises otherwise without moving |
| `FileBacktester.ReplayTicks` | src/stinger_fx/backtest/file_backtester.py:347-431 | the day-chunked loop terminates, visits exactly the single merge of the whole range, in time order, and the clock never rejects |
| `FileBacktester.CloseRemaining` | src/stinger_fx/backtest/file_backtester.py:166-168 | closing everything on the object leaves no position and final - initial balance equal to the sum of profits |
| `BacktestRun.CheckStops` | src/stinger_fx/backtest/replay_broker.py:668-722 | the stop check returns exactly the positions of the symbol whose stop loss or take profit is met, longs judged at the bid, shorts at the ask, bars at their extremes |
| `BacktestRun.StopsCleared` | src/stinger_fx/backtest/file_backtester.py:381-384 | once they are closed no position of the symbol is still stopped, and every other position is unchanged |
| `BacktestRun.TickStops` | src/stinger_fx/backtest/replay_broker.py:693-722 | after the stop check on a tick a position of its symbol is still open if and only if, long: stop below and target above the bid; short: stop above and target below the ask |
| `BacktestRun.BarStops` | src/stinger_fx/backtest/replay_broker.py:668-691 | after the stop check on a bar it is still open if and only if, long: stop below the low and target above the high; short: stop above the high and target below the low |
| `BacktestRun.VisitMoment` | src/stinger_fx/backtest/file_backtester.py:253-270 | one pass of either loop up to the sample: clock, market, stops, pending orders, then whatever strategies do; a moment before the clock changes nothing |
| `BacktestRun.VisitAndSample` | src/stinger_fx/backtest/file_backtester.py:376-431 | the whole pass: the sample is taken on the books as they are then, and what strategies do later in the pass, at any suspension, comes after it |
| `BacktestRun.Replay` | src/stinger_fx/backtest/file_backtester.py:376-431 | the loop over ordered ticks or bars rejects nothing, its books are those of all passes in order, and its equity curve has exactly the due samples |
| `BacktestRun.MarkToMarket` | src/stinger_fx/backtest/file_backtester.py:400-410 | the loop computes the open profit of all positions with a reference price, in whatever order they are listed |
| `BacktestRun.ProfitIsCloseOut` | src/stinger_fx/backtest/file_backtester.py:400-410 | the open profit of a position is what closing it at the reference price would move the balance by, but for the closing commission and the swap |
| `BacktestRun.RefIsLatestPrice` | src/stinger_fx/backtest/file_backtester.py:376-380 | the reference is the middle of the latest quote of the symbol, or the close of its latest bar |
| `BacktestRun.TickSampledIffNewMinute` | src/stinger_fx/backtest/file_backtester.py:397-399 | a tick is sampled if and only if every earlier tick lies in an earlier minute |
| `BacktestRun.TickSampledIffMinuteTurned` | src/stinger_fx/backtest/file_backtester.py:397-399 | that is, if and only if the start of a minute on the UTC clock lies between every earlier tick and it |
| `BacktestRun.FirstIsSampled` | src/stinger_fx/backtest/file_backtester.py:433-435 | the first moment is always sampled, so the extra sample for an empty curve is never added |
| `BacktestRun.RefsCoverPrices` | src/stinger_fx/backtest/file_backtester.py:400-404 | every priced symbol has a reference, so no open position is ever skipped |
| `BacktestRun.EquityIsAccounted` | src/stinger_fx/backtest/file_backtester.py:400-412 | sampled equity = initial balance + booked profits - opening commission of what is open + open profit of every position |
| `BacktestRun.ReplayClockForward` | src/stinger_fx/backtest/file_backtester.py:374-376 | a replay in time order never turns the broker clock back, whatever strategies do |
| `BacktestRun.WallClockForgotten` | src/stinger_fx/backtest/replay_broker.py:121 | the wall-clock time a broker is created at has no effect on books or swap once the first moment was visited |
| `BacktestRun.BacktestAccounts` | src/stinger_fx/backtest/file_backtester.py:155-168 | for any strategies and slippage: after the closing step final - initial is the sum of profits and every ticket was charged exactly its nights |
| `BacktestRun.RunBacktest` | src/stinger_fx/backtest/file_backtester.py:155-168 | the same, on the object, from the replay to the closing step |
| `BacktestRun.RunStored` | src/stinger_fx/backtest/file_backtester.py:216-270 | and from the store: what is replayed is the stable sort by time of the rows in range, of ticks in day chunks or of bars |
| `HistoryView.HistoryView.AppendBar` | src/stinger_fx/strategies/context.py:82-96 | an unclosed, duplicate or stale bar changes nothing; otherwise the bar is buffered, the oldest may leave, and every indicator advances once |
| `HistoryView.HistoryView.Incremental` | src/stinger_fx/strategies/context.py:98-119 | a first request back-fills from the buffer; later ones return the kept state |
| `HistoryView.AcceptedAreRecords` | src/stinger_fx/strategies/context.py:82-94 | a delivery is accepted if and only if it is closed and newer than every closed bar delivered before |
| `HistoryView.BufferIsLatest` | src/stinger_fx/strategies/context.py:82-94 | the buffer is always the latest accepted bars, in strictly increasing time |
| `HistoryView.StateIsFold` | src/stinger_fx/strategies/context.py:94-119 | each indicator state is one left fold over all accepted bars but those evicted before its first request |
| `HistoryView.EarlyRequestSeesEveryBar` | src/stinger_fx/strategies/context.py:98-119 | requested before anything was evicted, the state is the fold over all accepted bars, whenever that was |
| `HistoryView.CounterRightIffNothingEvicted` | src/stinger_fx/strategies/context.py:98-119 | the guard is needed: the bar-counting indicator is right if and only if nothing had been evicted |
| `HistoryView.LateRequestMissesBars` | src/stinger_fx/strategies/context.py:98-119 | for instance: room for one bar, two bars, then the first request, and the count is one |
| `HistoryView.NoCapacityFeedsDuplicates` | src/stinger_fx/strategies/context.py:92-96 | with a capacity of zero a duplicate is fed twice |
| `Portfolio.LatestInForce` | src/stinger_fx/backtest/portfolio.py:224-228 | the value at an instant is that of the latest sample at or before it, the last one among equal timestamps |
| `Portfolio.SortKeepsLatest` | src/stinger_fx/backtest/portfolio.py:216-218 | sorting an unsorted curve changes no value |
| `Portfolio.UnionOfTimes` | src/stinger_fx/backtest/portfolio.py:207-213 | the union of timestamps, each once, ascending |
| `Portfolio.AdvancePointer` | src/stinger_fx/backtest/portfolio.py:226-228 | the pointer ends exactly past the samples at or before the timestamp, and the remembered equity is the value then |
| `Portfolio.MergeEquityCurves` | src/stinger_fx/backtest/portfolio.py:203-231 | at every timestamp of the union, and no other, the merged curve holds the sum of what each report was worth |
| `Portfolio.CurveMapIsLatest` | src/stinger_fx/backtest/portfolio.py:250-252 | the dictionary of a curve holds the value in force at its own timestamps |
| `Portfolio.ForwardFill` | src/stinger_fx/backtest/portfolio.py:250-257 | the fill loop computes the forward-filled series |
| `Portfolio.FilledIsValue` | src/stinger_fx/backtest/portfolio.py:250-257 | that series is the value in force at every timestamp, for unsorted curves and repeated timestamps |
| `Portfolio.MergedIsSumOfFilled` | src/stinger_fx/backtest/portfolio.py:203-257 | at every timestamp of the union the merged curve is the sum of the forward-filled series |
| `Portfolio.AggregateFinalBalance` | src/stinger_fx/backtest/portfolio.py:155-164 | without reports an error; otherwise the portfolio final balance is what all reports were last worth together, initial balances where there are no samples |
| `Pareto.Coerce` | src/stinger_fx/backtest/pareto.py:145-151 | a missing value or not-a-number is coerced to a value better than none |
| `Pareto.CheckDominates` | src/stinger_fx/backtest/pareto.py:119-142 | the loop decides "at least as good on every objective and strictly better on one" |
| `Pareto.DominatesIsStrictOrder` | src/stinger_fx/backtest/pareto.py:119-142 | dominance is irreflexive and transitive |
| `Pareto.DominatesOnNumbers` | src/stinger_fx/backtest/pareto.py:119-142 | on finite metrics a cell dominates another if and only if none of its maximised numbers is lower, none of its minimised ones higher, and one differs |
| `Pareto.MissingIsWorst` | src/stinger_fx/backtest/pareto.py:145-151 | a missing metric or not-a-number wins no objective and loses it to every finite number |
| `Pareto.DominatedByFrontier` | src/stinger_fx/backtest/pareto.py:101-116 | every dominated cell is dominated by an undominated one |
| `Pareto.FrontierNotEmpty` | src/stinger_fx/backtest/pareto.py:101-116 | some cell is undominated |
| `Pareto.ExtractParetoFrontier` | src/stinger_fx/backtest/pareto.py:81-116 | no objective is an error; otherwise marked are exactly the undominated cells, some cell is marked, and every unmarked cell is dominated by a marked one |

## Left out

- Floating point: all arithmetic is over exact reals, so rounding and overflow are not captured; only `Pareto` has infinities and not-a-number.
- Time zones: all times are UTC integers, and `TICK` has no boundary, which the source refuses too.
- Bar fields `spread` and `real_volume`, order comments, messages, reasons and client order ids inside the broker: they are carried along and decide nothing that is modelled.
- Slippage models: an arbitrary function of the side, the quote and how often it was asked before.
- OrderRouter.OrderRouter.OnSignal: the outcome of the trading filter, the resolved volume and the verdict of the aggregate exposure cap are inputs of a signal, because they depend on symbol data of the broker; what is modelled is the order of the gates and everything after them.
- Engine.RunMirrors: events reach the monitor in publish order, possibly late. Separate queues for fills and closes, with overflow and reordering, are `MonitorQueues`; there partial closes, which count nothing, and the queue of snapshots are left out, and which consumer runs first is open, where a scheduler would fix it.
- The router without a risk monitor, several brokers behind one router, and routing through the outbox: one broker, account `default`, and the direct call of a backtest.
- Restart.RestartIsTransparent: a restart happens once everything published was handled; what goes wrong otherwise is `Backlog`. The baseline of the profit lock starts anew with each life, as the source intends.
- Lives.AlwaysRecorded: no write is lost, the clocks do not run backwards, and monitor and persister handle one close on one UTC day and before the next event.
- Lives.LivesMirror: nothing is claimed about the counts after a restart that lost an owner.
- RiskRuns.KillSwitchMeansBreach: states the first life; `SwitchOverLives.SwitchMeansBreach` states all of them.
- SQLite, Parquet and lost writes: a table is a sequence or a single row with atomic commits, a range read is a filter followed by a stable sort.
- OrderQueue.OrderQueue.ReplayPendingResults: rows with one `enqueued_at` are taken as stored; the database leaves their order open.
- FileBacktester.ReplayTicks: visits ticks and advances the clock; what each visit does to the broker is `BacktestRun`, joined to the same read and merge in `BacktestRun.RunStored`.
- BacktestRun.Replay: what strategies do in a pass, before the equity sample or after it, is an arbitrary sequence of broker operations; playback throttling and the events published for user interfaces are left out.
- Account snapshots: equity, margin level and free margin are inputs of the monitor, not computed from positions; for the opening balance, the balance is that of the broker at some earlier time.
- EventBus.AsyncEventBus.Close: the subscriber list is kept rather than cleared, which no later operation can tell; a handler that does not let its cancellation through, and asyncio scheduling, are left out.
- MultiTimeframe.FoldH1: an anchor hour outside 0 to 23, which the constructor refuses, is a precondition.
- Indicator formulas, Pearson correlation, Sharpe and drawdown figures of a portfolio, position views, strategies, parameter search, configuration reload, live adapters, user interfaces and notifications.
