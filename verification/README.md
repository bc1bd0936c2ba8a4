# Verified model of the trading bot's core

This project models the parts of the bot in which many steps share one state,
and proves what those parts promise of whole runs:

- the **replay engine and its broker** (`Broker*`, `Slices`, `Engine*`): one loop
  over a sorted timeline, five phases a step, over a broker that fills, voids,
  closes early and settles. Causality, conservation, draining, the symmetry of YES
  and NO, that every trade was earned (`EngineTrace`) and that no exit, entry or
  market is missed (`EngineVigilance`) are proved of whole runs;
- the **restart-safe ledgers** (`PaperBroker`, `OrderTracker`, `TrackerLaws`,
  `ReconcileTwice`, `InterruptedPass`): what a process rebuilds from the rows it
  persisted;
- the **synthetic index** (`Medians`, `SyntheticIndex`): last trade per venue and
  second, then the median across venues;
- **linear perpetuals** (`PerpPaper`, `PerpLedger`, `PerpLaws`, `PerpAnswers`): leverage,
  liquidation and profit, written twice in the repository and shown to agree;
- **walk-forward validation** (`WalkForward`, `Calibration*`, `OneTradeRun`):
  fold geometry, what a fold's calibrator may be fitted on, and up to when a whole
  validation does not look ahead;
- the **council** (`Council*`, `Coordinator`, `Admission`, `TakenRun`) and the **paper run**
  (`PredictionAdapter`, `PaperRun`): gates driven by clients, feeds and strategies
  that may answer anything;
- two one-pass **statistics** and a restatement of results (`Metrics`).

Money is whole cents; perpetuals and statistics use real numbers. Code that works
by changing an object is a class whose methods are proved equal to a function of
the old state, or proved to promise their result outright; the laws are lemmas
about those functions. Beside them, lemmas named `...Iff` and `...Is` (many in the
`*Answers` modules) say what each operation answers in terms of rows, quotes,
prices and replies alone, whatever function it is computed by. Everything from
outside (strategies, sizers, guards, clients, feeds, clocks, fitting) is an
arbitrary function, so the theorems hold for whatever it answers.

`dafny verify dfyconfig.toml` checks the whole project.

## Where the code and its descriptions differ

The model follows the code. Each of these has its exact condition as a lemma, and
a concrete input at which the code does not do what is said of it.

- Every step is described as seeing no data from after its time. A run loads a market
  only when its result has been published, so databases that store the same up to a
  time load the same past exactly when results are published for the same markets of
  the run's range, later ones included (`LoadKeepsPast`, `LaterPublicationShows`).
- Placing an order and voiding it restores the account exactly when the market was
  not already held; otherwise the void drops the older position (`PlaceThenVoid`,
  `VoidDropsOlderPosition`).
- Folds described as non-overlapping in time overlap exactly when the step is
  shorter than a test window and there are two of them (`WindowsDisjointIff`,
  `ShortStepOverlaps`), and then a fold's calibrator can be fitted on a market that
  closes after the fold began to test (`ShortStepLeaks`).
- With disjoint windows a validation does not look ahead from the time a fold begins
  to test (`ArmNoLookAhead`). Before that it does: the fold's training segment is
  replayed with a calibrator that knows what closed after it (`TrainingLooksAhead`).
- A calibrator learns what a YES position was paid exactly when the result is not a
  YES in other letters, since only the validation ignores case
  (`OutcomeIsSettlementIff`, `SpelledYesSplits`).
- A missing provenance lookup is described as refusing fills; it does so exactly when
  there is one (`ProvenanceFailsClosedIff`, `NoLookupPermitsFills`).
- A fixed exit fills at a price that the candle traded exactly when the candle did
  not jump over its level (`ExitIsTradedUnlessGapped`): a stop fills above the
  range that gapped below it, a target below the range that gapped above it
  (`GappedStopFillsAboveTheBar`, `GappedTargetFillsBelowTheBar`).
- A gapped perpetual exit fills at the worse of level and mark, as the comment has
  it, exactly when it is a stop or the mark is the target itself (`GapFills`); a
  take-profit fills at the better (`GappedTargetFillsAtTheBetter`).
- An emergency halt closes a position exactly when there is a positive mark
  (`HaltNeedsMark`); without one it decides "close" and leaves the position open
  (`HaltWithoutMarkStaysOpen`).
- A paper ledger stays recoverable through a settlement exactly when the market had
  no second open row; with one, a restart revives a position (`SettleRecoverable`,
  `SecondOpenRowRevived`).
- Reconciling a snapshot a second time changes an order exactly when its last
  status word ends nothing and came before any fill, a fill reported after it covers
  part of the request, and the order had been ended before (`ReconcileTwiceIff`,
  `RepeatedIdNotIdempotent`). That takes a snapshot which repeats an order id. The
  same condition, with the fill among the records the disk has seen, is when a rerun
  of an interrupted pass ends otherwise (`RerunConvergesIff`, `RerunDiverges`).
- A specialist's reply is charged nothing exactly when no answer of it was accepted
  or the accepted one reports no usage, however long the text; the ledger's estimate
  from the length of a text never applies to a specialist
  (`OnlyAcceptedAnswersAreCharged`, `GarbageIsFree`).
- Restating results at a flat size treats a trade closed early as if it had
  settled. At its own size a trade sold early is restated exactly only when it was a
  win sold at 100, or a loss sold at nothing or for the one cent of its fee
  (`FlatSizingExactEarlyIff`); other early wins are overstated (`EarlyWinOverstated`).

## Model

| member | source | states |
|---|---|---|
| `Fees.EntryFee` | src/kalshi_bot/signals/fees.py:70-85 | the order's fee is the least whole cent at or above 7/100·P·(1−P) a contract, and never negative for a price in 0..100 |
| `Fees.FeeSymmetric` | src/kalshi_bot/signals/fees.py:17-20 | a price and its complement carry the same fee |
| `Fees.FeeWithinProceeds` | src/kalshi_bot/execution/backtest_broker.py:188-195 | the fee on a sale is covered by its proceeds exactly at prices of at least 0 (or at most −1329) |
| `Fees.SplittingNeverCheaper` | src/kalshi_bot/signals/fees.py:18-22 | rounding once per order: a split never lowers the total fee and adds at most a cent |
| `Broker.BacktestBroker.constructor` | src/kalshi_bot/execution/backtest_broker.py:105-125 | a broker starts with the given cash, no positions, no bars and no settlements |
| `Broker.BacktestBroker.SetCurrentBar` | src/kalshi_bot/execution/backtest_broker.py:129-131 | showing a bar changes that market's bar and nothing else |
| `Broker.BacktestBroker.PlaceOrder` | src/kalshi_bot/execution/backtest_broker.py:293-356 | placing equals the specified fill or refusal, in the source's order of checks |
| `Broker.BacktestBroker.VoidFill` | src/kalshi_bot/execution/backtest_broker.py:133-148 | voiding drops the position and refunds stake and fee, or does nothing |
| `Broker.BacktestBroker.ClosePositionEarly` | src/kalshi_bot/execution/backtest_broker.py:150-210 | an early close pays the proceeds less their fee and records the settlement |
| `Broker.BacktestBroker.SettleMarket` | src/kalshi_bot/execution/backtest_broker.py:212-243 | a settlement pays par or nothing, with no fee, and records it |
| `BrokerLaws.PrincipalPreserved` | src/kalshi_bot/execution/backtest_broker.py:133-356 | no broker operation creates or destroys money |
| `BrokerLaws.Conservation` | src/kalshi_bot/execution/backtest_broker.py:133-356 | after any operations, cash is starting cash plus settled net results minus stakes and entry fees of what is open |
| `BrokerLaws.EarlyCloseAddsCash` | src/kalshi_bot/execution/backtest_broker.py:188-195 | exactly which exit prices keep an early close from lowering cash |
| `BrokerLaws.SolventStep` | src/kalshi_bot/execution/backtest_broker.py:334-347 | each operation keeps cash non-negative and positions bought in 1..99 |
| `BrokerLaws.CashNeverNegative` | src/kalshi_bot/execution/backtest_broker.py:133-356 | cash is never negative under any interleaving with non-negative exit prices |
| `BrokerLaws.PlaceThenVoid` | src/kalshi_bot/execution/backtest_broker.py:133-148 | place then void is the identity on cash and positions if and only if the market was not held |
| `BrokerLaws.VoidDropsOlderPosition` | src/kalshi_bot/execution/backtest_broker.py:133-148 | a concrete refused order whose void pays back and drops the older position |
| `BrokerLaws.PessimisticNeverFlatters` | src/kalshi_bot/execution/backtest_broker.py:247-260 | the pessimistic fill is never better than the midpoint fill or the closing quote |
| `BrokerLaws.FillRespectsOrder` | src/kalshi_bot/execution/backtest_broker.py:322-356 | a fill keeps to the request, the limit, the liquidity cap and the cash, and is charged stake plus the exact fee |
| `BrokerLaws.PairSettlesToPar` | src/kalshi_bot/execution/backtest_broker.py:212-243 | a YES and a NO of one size, each settled by its own result, return par together if and only if exactly one of them wins |
| `BrokerLaws.FillsIff` | src/kalshi_bot/execution/backtest_broker.py:293-356 | exactly when an order fills and at what: in terms of the bar, the limit, the cap on its volume, the cash and the least sufficient fee |
| `BrokerLaws.FillIsBooked` | src/kalshi_bot/execution/backtest_broker.py:334-356 | what a fill leaves: stake and fee paid, the position held, nothing else moved |
| `BrokerLaws.RefusedBecause` | src/kalshi_bot/execution/backtest_broker.py:293-333 | which reason a refusal gives, as a condition on the bar and the order |
| `BrokerLaws.EarlyCloseIs` | src/kalshi_bot/execution/backtest_broker.py:150-210 | every figure of an early close: proceeds less the least sufficient fee, against stake and entry fee |
| `BrokerLaws.SettlementIs` | src/kalshi_bot/execution/backtest_broker.py:212-243 | every figure of a settlement: par for the side the result names and nothing for the other |
| `BrokerMirror.FillPriceMirrored` | src/kalshi_bot/execution/backtest_broker.py:247-260 | both fill modes price the mirrored bar's opposite side alike, rounding included |
| `BrokerMirror.PlaceMirrored` | src/kalshi_bot/execution/backtest_broker.py:293-356 | an order on the mirrored book has the same outcome and the mirrored state |
| `BrokerMirror.StepMirrored` | src/kalshi_bot/execution/backtest_broker.py:133-356 | every operation commutes with mirroring |
| `BrokerMirror.MirrorSymmetry` | src/kalshi_bot/execution/backtest_broker.py:133-356 | a mirrored history gives the mirrored state with the same cash, prices, fees and results |
| `Slices.SearchExactIffSorted` | src/kalshi_bot/backtest/engine.py:208-212 | the search admits exactly the rows at or before every cutoff if and only if the keys are in order, which is why a run orders what it loads |
| `Slices.LatestBeforeIs` | src/kalshi_bot/backtest/engine.py:208-212 | of ordered rows, the value shown is that of the last row keyed no later than the time, and none is shown if and only if every key is later |
| `Slices.HistoryHoldsEarlierRows` | src/kalshi_bot/backtest/engine.py:290-299 | the history shown is exactly the rows keyed before the time |
| `Slices.LastBeforeEndsHistory` | src/kalshi_bot/backtest/engine.py:290-299 | a bounded history is the last rows of that, all of them when there are fewer |
| `EngineLoad.OrderByKeepsTies` | src/kalshi_bot/backtest/engine.py:230-242 | ordering loses no row, invents none and leaves the rows of one key as stored |
| `EngineLoad.LastWriteWins` | src/kalshi_bot/backtest/engine.py:201-206 | of the bars of one opening time exactly the last stored one is loaded |
| `EngineLoad.LoadBars` | src/kalshi_bot/backtest/engine.py:264-287 | filling the dictionary bar by bar and sorting its keys gives the specified series |
| `EngineLoad.LoadedBarsAre` | src/kalshi_bot/backtest/engine.py:264-287 | each loaded bar is the last one stored for its opening time, once, in order |
| `EngineLoad.LoadedReadings` | src/kalshi_bot/backtest/engine.py:214-250 | exactly the stored readings in the range are loaded |
| `EngineLoad.LoadIsLoaded` | src/kalshi_bot/backtest/engine.py:488-509 | a run loads exactly published markets closing in its range and their candles |
| `EngineLoad.LoadedSeriesSorted` | src/kalshi_bot/backtest/engine.py:195-287 | every series that a run searches is in order |
| `EngineLoad.LoadKeepsPast` | src/kalshi_bot/backtest/engine.py:488-498 | databases that list the same markets and store the same rows up to T load archives with the same past if and only if the same markets closing in the run's range have a published result |
| `EngineLoad.LaterPublicationShows` | src/kalshi_bot/backtest/engine.py:488-498 | for every market closing after T: publishing its result later makes its candle before T an event, where without it nothing happens |
| `Slices.WindowHoldsUsableRows` | src/kalshi_bot/backtest/engine.py:251-262 | the index window is exactly the readings usable within it |
| `Slices.SlicesAgree` | src/kalshi_bot/backtest/engine.py:208-299 | two histories that agree up to a time give the same slices at every time up to it, though the whole lists are searched |
| `SortedTimes.SortTimes` | src/kalshi_bot/backtest/engine.py:530-530 | the timeline is every event time once, in increasing order |
| `EngineRun.GroupCandles` | src/kalshi_bot/backtest/engine.py:500-509 | each timestamp's list is exactly its candles, in load order |
| `EngineRun.GroupMarkets` | src/kalshi_bot/backtest/engine.py:511-513 | each closing time's list is exactly its markets |
| `EngineRun.BacktestEngine.CheckExits` | src/kalshi_bot/backtest/engine.py:554-582 | phase 1 closes what its candle's range crossed and rewrites the trade row |
| `EngineRun.BacktestEngine.SettleClosed` | src/kalshi_bot/backtest/engine.py:584-601 | phase 2 settles the closing markets and their open rows |
| `EngineRun.BacktestEngine.Execute` | src/kalshi_bot/backtest/engine.py:324-468 | executing an entry gates, sizes, places, checks the band, voids or records, in that order |
| `EngineRun.BacktestEngine.DrainPending` | src/kalshi_bot/backtest/engine.py:603-640 | phase 3 expires, keeps waiting or executes each queued entry of the snapshot |
| `EngineRun.BacktestEngine.CurrentEquity` | src/kalshi_bot/backtest/engine.py:642-645 | equity is cash plus every open position at entry cost |
| `EngineRun.BacktestEngine.RecordEquity` | src/kalshi_bot/backtest/engine.py:642-647 | phase 4 appends one equity point |
| `EngineRun.BacktestEngine.EvaluateOpen` | src/kalshi_bot/backtest/engine.py:649-806 | phase 5 evaluates open, unentered, unqueued markets at the stride and queues valid buys |
| `EngineRun.BacktestEngine.Advance` | src/kalshi_bot/backtest/engine.py:553-806 | one timestamp is the five phases in order |
| `EngineRun.BacktestEngine.VisitAll` | src/kalshi_bot/backtest/engine.py:535-806 | the loop visits every event time and ends in the specified replay |
| `EngineRun.BacktestEngine.Run` | src/kalshi_bot/backtest/engine.py:470-849 | a run refuses a split outside its range, ends with nothing open, and its final equity is starting cash plus the net of both segments |
| `EngineAnswers.ContextShowsSpot` | src/kalshi_bot/backtest/engine.py:664-694 | the spot price a strategy sees is that of the last hourly bar keyed by then, and the earlier one that of the last keyed a lookback before |
| `EngineAnswers.ContextShowsBars` | src/kalshi_bot/backtest/engine.py:664-720 | its daily closes are exactly those keyed before now, and its bars the last of them |
| `EngineAnswers.ContextShowsIndex` | src/kalshi_bot/backtest/engine.py:664-720 | its index readings are exactly those usable within the last half hour |
| `EngineAnswers.EvaluatesIff` | src/kalshi_bot/backtest/engine.py:649-806 | a market is evaluated exactly when listed, open, unentered, unqueued and past its stride; a buy is queued with what the strategy answered |
| `EngineAnswers.EntersIff` | src/kalshi_bot/backtest/engine.py:349-468 | an entry is entered if and only if the guard allows the equity curve, the throttle the entries, the quote is live, the size positive, and the broker fills inside the band |
| `EngineAnswers.EntryIsBooked` | src/kalshi_bot/backtest/engine.py:425-468 | what an entry leaves in the books and on every record |
| `EngineAnswers.RefusalLeaves` | src/kalshi_bot/backtest/engine.py:349-424 | what a refusal leaves, and which one is given |
| `EngineAnswers.DrainsIff` | src/kalshi_bot/backtest/engine.py:603-640 | a queued entry expires at its close, waits without a candle, and is else executed |
| `EngineAnswers.ClosesIff` | src/kalshi_bot/backtest/engine.py:554-582 | a held market is closed early exactly when a candle reaches a level, at the stop if that is reached and else at the target |
| `EngineAnswers.SettlesTo` | src/kalshi_bot/backtest/engine.py:584-601 | what the settlement of a closing market leaves |
| `EngineCausality.SameStep` | src/kalshi_bot/backtest/engine.py:553-806 | one timestamp depends only on the state and what both archives hold up to it |
| `EngineCausality.SameTimes` | src/kalshi_bot/backtest/engine.py:535-535 | archives with the same past visit the same times up to the limit |
| `EngineCausality.NoLookAhead` | src/kalshi_bot/backtest/engine.py:14-22 | archives that agree on everything keyed at or before T and on results published by T give identical states at every step up to T |
| `EngineLoad.NoLookAheadFromDatabase` | src/kalshi_bot/backtest/engine.py:14-22 | the same from the stored rows, in whatever order they were stored, given that results are published for the same markets closing in the run's range |
| `EngineLedger.ExecuteEffect` | src/kalshi_bot/backtest/engine.py:324-468 | an execution records exactly the broker's fill, or leaves every record and position alone |
| `EngineLedger.SettledMarketsGone` | src/kalshi_bot/backtest/engine.py:584-601 | after settlement every position still held is in a market that closes later |
| `EngineTheorems.StepKeepsLaws` | src/kalshi_bot/backtest/engine.py:553-806 | one timestamp keeps every market idle, held or finished with agreeing records across the engine's maps |
| `EngineTheorems.ReplayLawful` | src/kalshi_bot/backtest/engine.py:553-806 | every state of every run keeps those stages |
| `EngineTheorems.CausalOrder` | src/kalshi_bot/backtest/engine.py:425-466 | decided before filled before exited no later than the close; filled inside the band; one settlement at most; queued, open and entered markets keep their relations |
| `EngineTheorems.EntriesArePermanent` | src/kalshi_bot/backtest/engine.py:653-658 | an entry is never rewritten or repeated and a finished trade never changes |
| `EngineTrace.EveryTradeEarned` | src/kalshi_bot/backtest/engine.py:349-468 | over a run: every trade was decided by its strategy on what it was shown when it says, and entered when the guard allowed the equity curve and the throttle the entries of that moment, on a live quote, at the fill those books give, inside its band |
| `EngineTrace.EquityIsNetOfOpenFees` | src/kalshi_bot/backtest/engine.py:642-647 | over a run: the equity curve is starting cash plus settled net results less the entry fees of open trades |
| `EngineVigilance.NoExitMissed` | src/kalshi_bot/backtest/engine.py:554-582 | over a run: a trade with levels is open exactly while no later candle has reached one, and closed early by the first that does |
| `EngineVigilance.EntriesArePrompt` | src/kalshi_bot/backtest/engine.py:603-640 | over a run: an entry is executed on the next candle of its market or never |
| `EngineVigilance.NoMarketOverlooked` | src/kalshi_bot/backtest/engine.py:649-666 | over a run: every open market with a candle is in a trade, queued, or was evaluated within the stride |
| `EngineTheorems.ReplayConserves` | src/kalshi_bot/backtest/engine.py:553-647 | after every timestamp cash is starting cash plus settled results minus what is open, with one equity point per timestamp |
| `EngineTheorems.RunDrains` | src/kalshi_bot/backtest/engine.py:584-601 | at the end nothing is open, each trade row has exactly one settlement with its numbers, and final equity is starting cash plus total net |
| `EngineTheorems.RunNeverOverdrawn` | src/kalshi_bot/backtest/engine.py:553-647 | with non-negative exit levels cash never goes negative in a run |
| `EngineTheorems.SegmentsPartition` | src/kalshi_bot/backtest/engine.py:812-824 | the split puts every entered settlement in exactly one segment |
| `EngineTheorems.SplitAccountsForEquity` | src/kalshi_bot/backtest/engine.py:812-829 | final equity is starting cash plus both segments' net |
| `EngineExits.ExitTakesTheWorseLevel` | src/kalshi_bot/backtest/engine.py:852-889 | an exit happens exactly when the range reaches a level, at the worse one when it reaches both |
| `EngineExits.ExitIsTradedUnlessGapped` | src/kalshi_bot/backtest/engine.py:870-889 | the fill lies in the traded range if and only if the range did not jump over the level filled at, stop or target |
| `EngineExits.GappedStopFillsAboveTheBar` | src/kalshi_bot/backtest/engine.py:882-887 | a concrete gapped stop that fills above the bar |
| `EngineExits.GappedTargetFillsBelowTheBar` | src/kalshi_bot/backtest/engine.py:882-887 | a concrete gapped target that fills below the bar |
| `EngineExits.CandleMirrored` | src/kalshi_bot/backtest/engine.py:870-889 | the mirrored candle exits the opposite side at the same price and is live alike |
| `EngineMirror.StepMirrors` | src/kalshi_bot/backtest/engine.py:553-806 | one timestamp of the mirrored archive and strategy is the mirror of the original's, phase by phase |
| `EngineMirror.ReplayMirrored` | src/kalshi_bot/backtest/engine.py:553-806 | a whole mirrored run visits the same times, holds the mirrored records, and has the same cash, entry times and equity curve |
| `PaperBroker.PaperBroker.constructor` | src/kalshi_bot/execution/paper_broker.py:63-94 | starting over a ledger restores the open rows and rebuilds cash from all rows |
| `PaperBroker.PaperBroker.SetCurrentQuote` | src/kalshi_bot/execution/paper_broker.py:98-99 | a quote replaces that market's quote only |
| `PaperBroker.PaperBroker.PlaceOrder` | src/kalshi_bot/execution/paper_broker.py:149-221 | placing equals the specified refusal, or fill with its ledger row |
| `PaperBroker.PaperBroker.SettleMarket` | src/kalshi_bot/execution/paper_broker.py:101-124 | settling pops the position, pays it and closes its row in place |
| `PaperBroker.RestoredPositions` | src/kalshi_bot/execution/paper_broker.py:83-94 | a market is restored exactly when some row of it is open, at the last such row |
| `PaperBroker.PlaceRecoverable` | src/kalshi_bot/execution/paper_broker.py:149-221 | filled or refused, an order keeps the ledger able to rebuild the account |
| `PaperBroker.SettleRecoverable` | src/kalshi_bot/execution/paper_broker.py:101-124 | a settlement does so if and only if the market had no second open row |
| `PaperBroker.SecondOpenRowRevived` | src/kalshi_bot/execution/paper_broker.py:101-124 | a concrete ledger with two open rows of a market that is no longer recoverable after one settles |
| `PaperBroker.SoundStep` | src/kalshi_bot/execution/paper_broker.py:98-221 | every operation keeps the ledger recoverable with one open row a market |
| `PaperBroker.RestartRecovers` | src/kalshi_bot/execution/paper_broker.py:78-94 | after any operations a broker rebuilt from the rows has the live cash and positions |
| `PaperBroker.PaperMatchesReplay` | src/kalshi_bot/execution/paper_broker.py:177-201 | a limit order fills as the pessimistic replay fills it on that quote |
| `PaperBroker.PaperFillsIff` | src/kalshi_bot/execution/paper_broker.py:149-221 | exactly when a paper order fills and at what, by the quote, the limit and the cash |
| `PaperBroker.PaperRefusedBecause` | src/kalshi_bot/execution/paper_broker.py:149-201 | which reason a refusal gives |
| `PaperBroker.PaperFillIsBooked` | src/kalshi_bot/execution/paper_broker.py:202-221 | what a fill leaves in the account and the one row it adds |
| `PaperBroker.PaperSettlesTo` | src/kalshi_bot/execution/paper_broker.py:101-124 | what a settlement pays and writes on its row |
| `OrderTracker.OrderTracker.Register` | src/kalshi_bot/execution/order_tracker.py:68-90 | a retry returns the existing record, conflicting details are refused, a new id is saved |
| `OrderTracker.OrderTracker.RecordFill` | src/kalshi_bot/execution/order_tracker.py:92-103 | a fill grows within the request, sets the status and is saved |
| `OrderTracker.OrderTracker.MarkCancelled` | src/kalshi_bot/execution/order_tracker.py:105-112 | only an order with something left is cancelled |
| `OrderTracker.OrderTracker.StaleOrders` | src/kalshi_bot/execution/order_tracker.py:114-125 | exactly the working orders of the age asked for |
| `OrderTracker.OrderTracker.CancelStale` | src/kalshi_bot/execution/order_tracker.py:127-139 | exactly the orders before the first failing broker call are recorded cancelled |
| `OrderTracker.OrderTracker.Reconcile` | src/kalshi_bot/execution/order_tracker.py:141-178 | a pass merges each record in order, saves, and returns what is still working |
| `OrderTracker.MergeIs` | src/kalshi_bot/execution/order_tracker.py:163-176 | what merging a record makes of an order: its fill, its status by precedence, its stamp, and nothing else |
| `OrderTracker.RecordIs` | src/kalshi_bot/execution/order_tracker.py:150-176 | a record is passed over, merged in memory, or first registered on disk, exactly as its id and quantity say |
| `OrderTracker.FillAdds` | src/kalshi_bot/execution/order_tracker.py:92-103 | what a fill makes of an order, field by field |
| `TrackerLaws.FillsOnlyGrow` | src/kalshi_bot/execution/order_tracker.py:68-178 | over any operations fills only grow within the request, "filled" means nothing left, and identity never changes |
| `TrackerLaws.MergeIdempotent` | src/kalshi_bot/execution/order_tracker.py:163-176 | merging one record twice is merging it once |
| `TrackerLaws.ReconcileByOrder` | src/kalshi_bot/execution/order_tracker.py:150-178 | with distinct ids each order is merged with its own record and the rest are left alone |
| `TrackerLaws.ReconcileIdempotent` | src/kalshi_bot/execution/order_tracker.py:141-178 | a second pass over a snapshot with distinct ids changes nothing but timestamps |
| `TrackerLaws.DiskByOrder` | src/kalshi_bot/execution/order_tracker.py:157-162 | what a crash during a pass can leave of an order on disk |
| `TrackerLaws.InterruptedPassConverges` | src/kalshi_bot/execution/order_tracker.py:141-178 | re-running from any persisted mid-pass state reaches the uninterrupted pass's orders, timestamps aside |
| `ReconcileTwice.PassInClosedForm` | src/kalshi_bot/execution/order_tracker.py:150-176 | over any snapshot, repeated ids included, an order ends with the largest fill reported within the request, and the status that its last words and fills give |
| `ReconcileTwice.SecondPassOnOrder` | src/kalshi_bot/execution/order_tracker.py:141-178 | a second pass changes an order if and only if it is unstable, which is read off registry and snapshot |
| `ReconcileTwice.ReconcileTwiceIff` | src/kalshi_bot/execution/order_tracker.py:141-178 | reconciling a snapshot twice is reconciling it once, timestamps aside, if and only if no order is unstable |
| `ReconcileTwice.RepeatedIdNotIdempotent` | src/kalshi_bot/execution/order_tracker.py:163-176 | a concrete registry and snapshot whose second pass differs |
| `InterruptedPass.DiskFolds` | src/kalshi_bot/execution/order_tracker.py:157-162 | for any snapshot, what an interrupted pass has written of each order: where the last adoption found it |
| `InterruptedPass.RerunConvergesIff` | src/kalshi_bot/execution/order_tracker.py:141-178 | for any snapshot, a rerun reaches the uninterrupted pass's orders if and only if no order is unstable at what the disk had seen |
| `InterruptedPass.RerunDiverges` | src/kalshi_bot/execution/order_tracker.py:141-178 | a concrete interrupted pass whose rerun ends otherwise |
| `Medians.MedianRobust` | src/kalshi_bot/data/synthetic_brti.py:3-8 | replacing fewer than half the sample keeps the median between the least and greatest untouched value |
| `Medians.HalfBreaksMedian` | src/kalshi_bot/data/synthetic_brti.py:3-8 | half is too many: some replacement of any half drives the median past any bound |
| `Medians.MedianIsMiddle` | src/kalshi_bot/data/synthetic_brti.py:140-147 | the median is the middle value of any ordering of the sample, or half the sum of the middle two |
| `SyntheticIndex.ValidateInputs` | src/kalshi_bot/data/synthetic_brti.py:75-96 | venues are accepted or refused by their leading trade, empty ones passed over |
| `SyntheticIndex.KeepLast` | src/kalshi_bot/data/synthetic_brti.py:121-131 | one venue's pass keeps its last trade per second and touches no other venue |
| `SyntheticIndex.Compose` | src/kalshi_bot/data/synthetic_brti.py:99-158 | the one-pass composition equals the direct definition, and an empty range is refused |
| `SyntheticIndex.LatestIsLast` | src/kalshi_bot/data/synthetic_brti.py:124-131 | the kept trade is the latest of its second, later stream entries winning ties |
| `SyntheticIndex.SeriesInOrder` | src/kalshi_bot/data/synthetic_brti.py:133-151 | emitted and gap seconds increase; the first were priced by some venue, the others by none |
| `SyntheticIndex.SecondsAndGapsPartition` | src/kalshi_bot/data/synthetic_brti.py:133-151 | every second of the range is emitted once or a gap once |
| `SyntheticIndex.EmittedIs` | src/kalshi_bot/data/synthetic_brti.py:133-151 | a second is emitted exactly when some venue traded in it, with the median of the venues' last trades and their names |
| `SyntheticIndex.AcceptedIs` | src/kalshi_bot/data/synthetic_brti.py:75-96 | a venue is accepted exactly by the symbol and source of its leading trade |
| `SyntheticIndex.EmittedValueRobust` | src/kalshi_bot/data/synthetic_brti.py:133-151 | with fewer than half of a second's prices replaced the emitted value stays between untouched prices |
| `SyntheticIndex.LatestIgnoresOrder` | src/kalshi_bot/data/synthetic_brti.py:121-131 | reordering a stream with distinct timestamps keeps every second's last trade |
| `SyntheticIndex.CompositionIgnoresOrder` | src/kalshi_bot/data/synthetic_brti.py:99-158 | reordering the streams changes nothing if and only if every venue's leading trade is refused for the same reasons as before, or still accepted |
| `SyntheticIndex.LeadingTradeDecides` | src/kalshi_bot/data/synthetic_brti.py:83-96 | two streams equal up to order, one accepted and one refused |
| `SyntheticIndex.Persist` | src/kalshi_bot/data/synthetic_brti.py:169-213 | the keyed upsert writes each second's row and counts exactly the new ones |
| `SyntheticIndex.PersistIdempotent` | src/kalshi_bot/data/synthetic_brti.py:169-213 | persisting again adds no row and changes only the composition time |
| `PerpPaper.PerpPosition.constructor` | src/kalshi_bot/execution/perp_paper.py:398-408 | a position starts open, with the fill's numbers and nothing realized |
| `PerpPaper.PerpPaperAdapter.OpenPosition` | src/kalshi_bot/execution/perp_paper.py:353-433 | opening succeeds exactly for an admissible entry and records its fill and liquidation price; a refusal records nothing |
| `PerpPaper.PerpPaperAdapter.ApplyFunding` | src/kalshi_bot/execution/perp_adapter.py:507-546 | funding is credited and recorded only while the position is open |
| `PerpPaper.PerpPaperAdapter.Step` | src/kalshi_bot/execution/perp_paper.py:435-488 | a tick decides, closes when it has a price, and records what it did |
| `PerpPaper.PerpPaperAdapter.Close` | src/kalshi_bot/execution/perp_paper.py:490-536 | a close realizes the move, adds the exit fee and records both |
| `PerpLaws.LiquidationSound` | src/kalshi_bot/execution/perp_paper.py:181-210 | equity is below maintenance exactly on the adverse side of the liquidation price and equal exactly there; what an absent price means for either side |
| `PerpLaws.MarkedDistanceIsSolvency` | src/kalshi_bot/execution/perp_paper.py:111-133 | marking reports a positive distance exactly when the account is above maintenance |
| `PerpLaws.ShortHasLiquidation` | src/kalshi_bot/execution/perp_paper.py:181-210 | a short with collateral always has a liquidation price |
| `PerpLaws.EntryWithinCeiling` | src/kalshi_bot/execution/perp_paper.py:158-178 | no entry exceeds three times its collateral, whatever cap the caller set |
| `PerpLaws.OpenedIsSolvent` | src/kalshi_bot/execution/perp_paper.py:369-396 | an accepted position is strictly above maintenance at entry, for the default rate and any below one over the ceiling |
| `PerpLaws.LiquidationLeavesMaintenance` | src/kalshi_bot/execution/perp_paper.py:283-288 | a liquidation leaves collateral plus realized equal to maintenance, and positive |
| `PerpLaws.GapFills` | src/kalshi_bot/execution/perp_paper.py:290-312 | a gapped exit fills at the mark, which is the worse of level and mark if and only if it is a stop or the mark is the target |
| `PerpAnswers.StepDecidesIff` | src/kalshi_bot/execution/perp_paper.py:261-312 | for both sides, an unhalted, unliquidated step exits if and only if the mark has reached a level: ungapped at the stop on its adverse side and else at the target, gapped at the mark |
| `PerpAnswers.StoppedAtTheStop` | src/kalshi_bot/execution/perp_paper.py:303-303 | a concrete stopped long that fills at its stop |
| `PerpAnswers.LiquidatesIff` | src/kalshi_bot/execution/perp_paper.py:283-288 | a step liquidates if and only if the mark is on the adverse side of the liquidation price |
| `PerpAnswers.TickCloses` | src/kalshi_bot/execution/perp_paper.py:435-536 | what a tick that closes leaves of the position, figure by figure |
| `PerpAnswers.EntryOpensIff` | src/kalshi_bot/execution/perp_paper.py:353-396 | an entry is opened if and only if its order fills, its notional at the price taken is within the cap, and its bracket straddles that price |
| `PerpAnswers.OrderFillsIff` | src/kalshi_bot/execution/perp_paper.py:74-89 | an order fills if and only if size, contract, quote and tick allow it |
| `PerpAnswers.OrderFillIs` | src/kalshi_bot/execution/perp_paper.py:83-89 | it fills at the ask to buy and the bid to sell, with the fee on its notional |
| `PerpAnswers.LeverageIff` | src/kalshi_bot/execution/perp_paper.py:158-178 | an entry is allowed if and only if its notional is within the cap, three at most, times its collateral |
| `PerpAnswers.BracketSoundIff` | src/kalshi_bot/execution/perp_paper.py:51-57 | a bracket is sound if and only if its levels are positive and straddle the entry on the right sides |
| `PerpAnswers.TradeAcceptedIff` | src/kalshi_bot/backtest/perp_ledger.py:137-180 | the ledger accepts a trade if and only if quotes, multipliers, funding and leverage allow it |
| `PerpLaws.GappedTargetFillsAtTheBetter` | src/kalshi_bot/execution/perp_paper.py:305-308 | a concrete gapped target filled at the better of the two |
| `PerpLaws.HaltNeedsMark` | src/kalshi_bot/execution/perp_paper.py:278-279 | a halt closes exactly when there is a positive mark |
| `PerpLaws.HaltWithoutMarkStaysOpen` | src/kalshi_bot/execution/perp_paper.py:278-279 | a concrete halted tick that leaves the position open |
| `PerpLaws.LeavesOpenOnce` | src/kalshi_bot/execution/perp_paper.py:435-534 | over any funding and ticks a position leaves "open" at most once and is untouched after |
| `PerpLaws.CloseCostsOnlyTheFee` | src/kalshi_bot/execution/perp_paper.py:111-140 | closing changes marked equity by exactly the exit fee |
| `PerpLaws.ClosingAgainChargesAgain` | src/kalshi_bot/execution/perp_paper.py:490-534 | closing a closed position replaces its result and charges a second exit fee |
| `PerpLaws.LifeKeepsBooks` | src/kalshi_bot/execution/perp_paper.py:435-534 | over any life, funding is the sum of payments and fee and result are those of the one exit |
| `PerpLaws.LifeMatchesLedger` | src/kalshi_bot/backtest/perp_ledger.py:94-108 | realized plus funding minus fees equals the backtest ledger's net for the same fills and payments |
| `PerpLaws.TradeFigures` | src/kalshi_bot/backtest/perp_ledger.py:181-228 | an accepted ledger trade carries the quotes' fill prices and both fees |
| `PerpLaws.LiquidationFormulasAgree` | src/kalshi_bot/backtest/perp_ledger.py:115-135 | both liquidation formulas agree on every live position with collateral |
| `WalkForward.RollingFolds` | src/kalshi_bot/backtest/walkforward.py:25-60 | the loop refuses what the source refuses, and otherwise cuts exactly the closed-form folds, as many as the ceiling of the span over the step |
| `WalkForward.CountBounds` | src/kalshi_bot/backtest/walkforward.py:42-44 | a fold index starts before the end exactly when it is below the count |
| `WalkForward.FoldShape` | src/kalshi_bot/backtest/walkforward.py:45-57 | exact embargo and training width, training inside the range, a test window cut short only by the end |
| `WalkForward.WindowsPartition` | src/kalshi_bot/backtest/walkforward.py:38-59 | with the default step every instant from the first test start to the end is in exactly one window, and no other instant in any |
| `WalkForward.WindowsDisjointIff` | src/kalshi_bot/backtest/walkforward.py:34-34 | test windows are disjoint if and only if the step is at least the window or there are fewer than two |
| `WalkForward.ShortStepOverlaps` | src/kalshi_bot/backtest/walkforward.py:38-59 | a concrete geometry whose first two windows overlap |
| `WalkForward.PurgedFolds` | src/kalshi_bot/backtest/walkforward.py:63-98 | purged folds embargo lookback plus horizon, and expand from the start when asked |
| `WalkForward.ExpandingWindowsNest` | src/kalshi_bot/backtest/walkforward.py:75-98 | expanding training windows nest, and no training instant is within the purge of its test window |
| `Calibration.RunOneFold` | src/kalshi_bot/backtest/validation_run.py:199-273 | a fold is a fresh replay of its window, and yields the test segment's recorded probabilities and outcomes |
| `Calibration.CacheResults` | src/kalshi_bot/backtest/validation_run.py:332-335 | the cache gains the published result of every market of the fold and holds published results only |
| `Calibration.RollPairs` | src/kalshi_bot/backtest/validation_run.py:336-337 | a fold's pairs are appended in order, with the cached outcomes |
| `Calibration.CacheAgrees` | src/kalshi_bot/backtest/validation_run.py:332-337 | the cached outcomes are the published ones |
| `Calibration.OutcomeIsSettlementIff` | src/kalshi_bot/backtest/validation_run.py:276-285 | the learned outcome is what a YES position was paid if and only if the result is not a YES in other letters |
| `Calibration.SpelledYesSplits` | src/kalshi_bot/backtest/validation_run.py:276-285 | a concrete result that loses the YES position and is learned as a YES |
| `Calibration.RunArm` | src/kalshi_bot/backtest/validation_run.py:288-341 | fold k's calibrator is fitted on exactly the concatenated pairs of folds 0..k−1, or is the identity when there are none |
| `CalibrationLaws.RecorderMatchesFills` | src/kalshi_bot/backtest/validation_run.py:126-142 | the probability on record for a traded market is the one its filled decision carried |
| `CalibrationLaws.HarvestShape` | src/kalshi_bot/backtest/validation_run.py:236-257 | one entry per contributing settlement and no other, with the report's sample beside it |
| `CalibrationLaws.HarvestGrows` | src/kalshi_bot/backtest/validation_run.py:236-257 | entries stand in the order of their settlements |
| `CalibrationLaws.PairIs` | src/kalshi_bot/backtest/validation_run.py:332-341 | where each entry of each fold stands in the calibration set, with its probability and one exactly for a market that reads YES |
| `CalibrationLaws.CalibratorIs` | src/kalshi_bot/backtest/validation_run.py:304-318 | a fold is uncalibrated exactly while no earlier fold has contributed, and else fitted to all of them under its own index |
| `CalibrationLaws.FoldVisits` | src/kalshi_bot/backtest/validation_run.py:224-236 | a fold replays its training window too: it visits the close of every published market in it |
| `CalibrationLaws.FoldContributions` | src/kalshi_bot/backtest/validation_run.py:236-257 | every pair of a fold is of a distinct market that closed inside the fold's test window |
| `CalibrationLaws.CalibrationNeverLeaks` | src/kalshi_bot/backtest/validation_run.py:304-341 | with disjoint windows every pair fold k is fitted on is the outcome of a market that closed no later than fold k's test start |
| `CalibrationLaws.StepDecidesOverlap` | src/kalshi_bot/backtest/walkforward.py:38-59 | rolling folds, expanded or not, have disjoint windows if and only if the step is at least the window or there are fewer than two |
| `CalibrationLeak.ShortStepLeaks` | src/kalshi_bot/backtest/validation_run.py:304-341 | for every geometry with a shorter step and two folds, a database and an arm whose fold 1 is fitted on a market that closes after its test start |
| `CalibrationCausality.EndedFoldsAgree` | src/kalshi_bot/backtest/validation_run.py:304-341 | databases that store the same up to T give the same runs and the same pairs for folds that end by T |
| `CalibrationCausality.ArmNoLookAhead` | src/kalshi_bot/backtest/validation_run.py:304-341 | and, for a fold that has begun to test by T, the same calibrator and the same replay state after every step up to T |
| `CalibrationLeak.TrainingLooksAhead` | src/kalshi_bot/backtest/validation_run.py:224-236 | before that it fails: for every geometry whose fold 1 trains on what fold 0 tests, two databases that differ only after T, inside that training window, and an arm that by T has bought on one of them |
| `Council.ParseVerdict` | src/kalshi_bot/agents/coordinator.py:552-577 | a verdict is taken exactly from a completed, acceptable reply, stamped with its attempt |
| `CouncilAnswers.UnacceptableIff` | src/kalshi_bot/agents/validation.py:15-42 | a verdict is refused exactly for one of the listed reasons: role, run, bundle, unknown citation, proposed action, ceilings, invalid parse |
| `CouncilAnswers.FirstAttemptIs` | src/kalshi_bot/agents/coordinator.py:486-550 | an attempt carries the first acceptable answer's verdict, else the repaired one's, else a stand-in that neither votes nor says anything |
| `CouncilAnswers.AsksRepairIff` | src/kalshi_bot/agents/coordinator.py:505-511 | a repair is asked for exactly when a text came, it holds no acceptable verdict, and the profile allows a retry |
| `Coordinator.ReservationFits` | src/kalshi_bot/agents/coordinator.py:375-392 | what is reserved stays inside both budgets and every role is reserved or skipped |
| `CouncilAnswers.ReservesNext` | src/kalshi_bot/agents/coordinator.py:380-388 | a role is reserved exactly when it fits on top of those reserved before it |
| `CouncilAnswers.SpecialistsAre` | src/kalshi_bot/agents/coordinator.py:187-206 | every specialist to be asked ends in one attempt: what its own client's answer, given in its turn, ends in, or a stand-in never started when it was passed over |
| `CouncilAnswers.PriorIs` | src/kalshi_bot/agents/coordinator.py:160-173 | of the completed attempts of a role exactly the last is carried in, where the role first stood |
| `Coordinator.BudgetLedger.Record` | src/kalshi_bot/agents/coordinator.py:104-109 | an attempt is charged what its verdict reports, or the estimate from its text when it has none |
| `Coordinator.OnlyAcceptedAnswersAreCharged` | src/kalshi_bot/agents/coordinator.py:486-550 | for any answer and repair, the charge is exactly what the accepted one reports; it is nothing if and only if none was accepted or the accepted one reports nothing |
| `Coordinator.OnlyAcceptedRevisionsAreCharged` | src/kalshi_bot/agents/coordinator.py:680-694 | the same of a revision's one answer |
| `Coordinator.MadeAttemptsAreCharged` | src/kalshi_bot/agents/coordinator.py:104-109 | the same of every attempt that a run makes |
| `Coordinator.GarbageIsFree` | src/kalshi_bot/agents/coordinator.py:528-550 | a concrete long useless reply that is charged nothing, where the estimate would be a thousand tokens |
| `Coordinator.OverReportBreaksBudget` | src/kalshi_bot/agents/coordinator.py:98-109 | a concrete reserved role whose one over-reporting answer breaks the budget |
| `Coordinator.FallbackNeverCounts` | src/kalshi_bot/agents/coordinator.py:599-629 | a fallback never votes, and vetoes when its role is critical |
| `Coordinator.PriorBelong` | src/kalshi_bot/agents/coordinator.py:160-171 | every attempt carried in belongs to this run and evidence |
| `Coordinator.CouncilCoordinator.ReserveRoles` | src/kalshi_bot/agents/coordinator.py:375-392 | the greedy reservation in order, with the ledger reset after |
| `Coordinator.CouncilCoordinator.Invoke` | src/kalshi_bot/agents/coordinator.py:417-423 | a role without a client fails without a call; any other is answered by its client |
| `Coordinator.CouncilCoordinator.ParseOrRepair` | src/kalshi_bot/agents/coordinator.py:486-550 | a reply is taken as it stands, repaired at most once, or replaced by the fallback, never invented, and only the repair is asked for |
| `Coordinator.CouncilCoordinator.FirstRound` | src/kalshi_bot/agents/coordinator.py:425-455 | every reserved role gets an honest attempt and is charged for it |
| `Coordinator.CouncilCoordinator.Reconsider` | src/kalshi_bot/agents/coordinator.py:631-709 | at most two honest revisions, of the bull and bear theses only, none unless the policy allowed synthesis |
| `Coordinator.CouncilCoordinator.ExecuteMaster` | src/kalshi_bot/agents/coordinator.py:711-769 | the master is asked exactly when enabled, present and inside what is left of the budget, and then charged the estimate from its text |
| `Coordinator.SynthesisNeedsClearance` | src/kalshi_bot/agents/coordinator.py:809-867 | the policy allows synthesis if and only if every critical specialist's last verdict is usable and unobjecting and both theses vote |
| `CouncilAnswers.PolicyIs` | src/kalshi_bot/agents/coordinator.py:809-867 | every field of the policy, by the last word of each role |
| `CouncilAnswers.ReconsideredIs` | src/kalshi_bot/agents/coordinator.py:631-709 | the theses are reconsidered exactly when the policy is clear and both last made claims: the bull, then the bear on top of what that used |
| `Coordinator.LastWordIsSourced` | src/kalshi_bot/agents/coordinator.py:173-312 | a usable last word was carried in or said by that role's client in this run |
| `Coordinator.CouncilCoordinator.Run` | src/kalshi_bot/agents/coordinator.py:133-347 | the run is the closed form of asking, judging, revising and deciding over the replies; whatever the clients answer, in boundedly many calls: no enabled specialist is left out, the master's sound decision is the run's, and a take is earned (critical specialists clear, both theses vote, no unresolved disagreement, a budgeted error-free master with the candidate's action and no looser ceilings); the totals are what the attempts report plus the master's estimate; when no accepted answer reports more than its role's caps they stay within the budget, the master's part included if its text is brief |
| `Coordinator.TakeIff` | src/kalshi_bot/agents/coordinator.py:771-806 | a run takes if and only if the master said a take and that take is earned |
| `Coordinator.MasterIsHeeded` | src/kalshi_bot/agents/coordinator.py:771-806 | whenever the master is reached and its completed reply holds a decision that meets the schema and has no error, that is the run's decision, and the run else holds |
| `CouncilAnswers.DecisionIs` | src/kalshi_bot/agents/validation.py:45-62 | the same with schema and errors spelled out: run, citations, policy, action, and ceilings no looser than proposed |
| `CouncilAnswers.RefusalIs` | src/kalshi_bot/agents/coordinator.py:142-171 | which refusal a case gets before any client is called |
| `TakenRun.CouncilTakes` | src/kalshi_bot/agents/coordinator.py:133-347 | a concrete run whose decision is the master's take |
| `TakenRun.ReviewExecutes` | src/kalshi_bot/agents/admission.py:97-162 | and its review outside shadow mode, which calls the adapter at the proposed price and the master's size |
| `Admission.OpenIffAllPass` | src/kalshi_bot/agents/admission.py:40-55 | the wall is open exactly when every check passed |
| `Admission.FailuresKeepOrder` | src/kalshi_bot/agents/admission.py:40-55 | the reasons of a refusal are those of the failing checks, in order |
| `Admission.TightestRespectsBoth` | src/kalshi_bot/agents/admission.py:58-70 | tightening respects both bounds, uses a cap where nothing was proposed, and uses exactly the master's ceiling |
| `Admission.CouncilPaperBoundary.Review` | src/kalshi_bot/agents/admission.py:97-162 | the adapter is called exactly outside shadow mode on an earned take with every check passed, once, with price and size no looser than proposed |
| `PredictionAdapter.PredictionPaperAdapter.constructor` | src/kalshi_bot/execution/prediction_adapter.py:357-366 | over any ledger the adapter restores the broker and maps restored markets, in the order they were first open, to assets; sound when no market has two open rows |
| `PredictionAdapter.PredictionPaperAdapter.Reconcile` | src/kalshi_bot/execution/prediction_adapter.py:402-438 | settles the asset's open rows that have a result; resolved when none lacks one |
| `PredictionAdapter.PredictionPaperAdapter.Evaluate` | src/kalshi_bot/execution/prediction_adapter.py:440-541 | one evaluation, with the source's order of refusals |
| `PredictionAdapter.EvaluatedEffect` | src/kalshi_bot/execution/prediction_adapter.py:477-541 | only a permitted evaluation of an asset with nothing open adds a row, one, in the quoted market, in 1..99 and paid for |
| `PredictionAdapter.EvaluationFillsIff` | src/kalshi_bot/execution/prediction_adapter.py:440-541 | exactly when a permitted evaluation fills: asset free, quote of its series and fresh, signal valid, the side's own price within its limit, and the account able to pay |
| `PredictionAdapter.EvaluationBooks` | src/kalshi_bot/execution/prediction_adapter.py:497-541 | the new row is of the signal's side, at the ask for YES or 100 less the bid for NO, at most its limit, of its quantity and at least one |
| `PredictionAdapter.EvaluationAnswers` | src/kalshi_bot/execution/prediction_adapter.py:440-541 | which answer every other evaluation gives, and that it leaves the account alone |
| `PredictionAdapter.EvaluatedSound` | src/kalshi_bot/execution/prediction_adapter.py:497-541 | an evaluation keeps the ledger recoverable |
| `PredictionAdapter.ShadowMatchesPaper` | src/kalshi_bot/execution/prediction_adapter.py:545-553 | a shadow's would-fill price is the paper fill price unless cash is short |
| `PredictionAdapter.ReconciledEffect` | src/kalshi_bot/execution/prediction_adapter.py:402-438 | reconciling is resolved exactly when no row of the asset stays open, and touches no other row |
| `PredictionAdapter.ReconciledFrees` | src/kalshi_bot/execution/prediction_adapter.py:402-438 | each settled row is settled by its own market's result |
| `PaperRun.MayFillIff` | src/kalshi_bot/execution/orchestrator.py:262-310 | an asset may be filled if and only if mode, lifecycle, registry, data, report and provenance all allow it |
| `PaperRun.AdmissionIs` | src/kalshi_bot/execution/orchestrator.py:262-310 | an asset is admitted if and only if registered, tradable, recording decisions and with data; the reason is the first that fails |
| `PaperRun.ProvenanceFailsClosedIff` | src/kalshi_bot/execution/orchestrator.py:253-259 | for an asset otherwise allowed, fills are refused unless the lookup vouches if and only if there is a lookup |
| `PaperRun.NoLookupPermitsFills` | src/kalshi_bot/execution/orchestrator.py:253-259 | a concrete run without a lookup that may fill |
| `PaperRun.RunPreflight` | src/kalshi_bot/execution/orchestrator.py:206-323 | refusals in order, and otherwise one admission per asset with at least one admitted |
| `PaperRun.PaperOrchestrator.ReconcileAll` | src/kalshi_bot/execution/orchestrator.py:471-491 | rows are at most settled, and an unblocked asset has no row left open |
| `PaperRun.PaperOrchestrator.Cycle` | src/kalshi_bot/execution/orchestrator.py:572-620 | a cycle keeps the gate |
| `PaperRun.CycleAsksEach` | src/kalshi_bot/execution/orchestrator.py:572-620 | a cycle asks each admitted asset once, in order, and with leave to fill exactly when its admission and its reconciliation give it |
| `PaperRun.PaperOrchestrator.Run` | src/kalshi_bot/execution/orchestrator.py:495-570 | over any run every new row is of an asset meeting all fill conditions, one per asset, never beside a restored row still open |
| `PaperRun.OneOpenRowPerAsset` | src/kalshi_bot/execution/prediction_adapter.py:477-482 | with honest quotes no asset ends with two open rows of which one is new |
| `Metrics.Drawdown` | src/kalshi_bot/agents/evaluation.py:146-153 | the running pass computes the deepest fall from any running total, the empty one included, to a later one |
| `Metrics.SortIsStable` | src/kalshi_bot/backtest/metrics.py:234-234 | the sort orders by entry time and keeps the trades of each time as they were |
| `Metrics.MaxConsecutiveLosses` | src/kalshi_bot/backtest/metrics.py:230-242 | the counter is the length of the longest contiguous block of losses in entry order |
| `Metrics.FlatSizingNet` | src/kalshi_bot/backtest/metrics.py:262-281 | the loop sums each trade restated at the fixed size |
| `Metrics.FlatTotalAdds` | src/kalshi_bot/backtest/metrics.py:262-281 | totals of two samples add, and one trade adds its payout at the fixed size less its stake and the fee of buying it |
| `Metrics.FlatSizingExactWhenHeld` | src/kalshi_bot/backtest/metrics.py:270-281 | at its own size a trade held to settlement is restated exactly |
| `Metrics.FlatSizingMisstatesEarlyExits` | src/kalshi_bot/backtest/metrics.py:270-281 | by how much a trade closed early is misstated, and in which direction |
| `Metrics.FlatSizingExactEarlyIff` | src/kalshi_bot/backtest/metrics.py:270-281 | at its own size a trade closed early is restated exactly if and only if it was sold at the price it is taken to have settled at, or for a cent that its fee takes |
| `Metrics.EarlyWinOverstated` | src/kalshi_bot/backtest/metrics.py:270-281 | a concrete early win restated at more than twice what it made |

## Left out

- EntryFee: the source computes the ceiling in floating point, which can land a cent above the exact one; the model uses the exact integer ceiling.
- Load: spot series are keyed by a bar's opening time while the value read is its close, so causality is stated in those keys, not in wall-clock availability; rows that an ORDER BY leaves tied are taken in stored order, the candle table is the one of the run's period, and the filter on the index's source label is not modelled.
- Run: signal records, counters, logging and run rows of the replay are not part of its state; a sizer that raises is not distinguished from one that sizes to nothing.
- EvaluateOpen: volatility and the trend score are functions of the slices they are computed from, so the slices stand for them; the recorder is the wrapper that the validation run puts around the strategy.
- CancelStale: the order in which stale orders are visited is given, and a broker call either succeeds or stops the loop.
- Persist: one table is a map by key; sessions and provenance columns are not modelled, and the text format of a value is a parameter.
- Compose: the contributing venues of a second are a set.
- RunArm: fold reports, coverage counts and the promotion decision are not modelled; the isotonic fit is an arbitrary function of the pairs.
- FirstRound: calls are a sequence of arbitrary answers, timeouts among them; thread pools and deadlines are not modelled.
- Run of the council returns its attempts in the order they were made; the final sort by role and attempt, checkpoints, prompts, hashes and the text of errors are not modelled, only whether there are any.
- Review: audit callbacks are the list of stages; an adapter that raises is not modelled.
- Evaluate: the translation of a strategy's decision into a signal and the causal slices of its context are not repeated (the slices have the shape proved in `Slices`); a failure of the database while an order is written is not modelled.
- Reconcile of the adapter: with two open rows of one market the source raises after settling the first; the model goes on to the next row.
- Run of the paper run has no audit events or heartbeats, and its environment never interrupts it inside a cycle.
- Drawdown and the perpetual arithmetic are over real numbers; floating-point rounding is not modelled.
- Other statistics (ratios, confidence intervals, Brier scores, concentration, break-even rates), the promotion gate, lifecycle routing, discovery, parsers, network clients, storage and the scripts would only add single-branch facts or input and output.
