/** What the calibration set of a fold can hold. */
module CalibrationLaws {
  import opened Wrappers
  import opened Broker
  import opened Engine
  import opened EngineLoad
  import opened EngineLedger
  import opened EngineTheorems
  import opened WalkForward
  import opened Calibration

  // ---- the recorder: what it noted is what was filled ----

  predicate NotedFor(recorded: map<string, real>, ticker: string, d: Decision) {
    d.rawProbability.Some? ==> ticker in recorded && recorded[ticker] == d.rawProbability.value
  }

  /** Everything queued or filled has its own decision's probability on record. */
  ghost predicate RecorderAgrees(s: EngineState) {
    && (forall i :: 0 <= i < |s.pending| ==> NotedFor(s.recorded, s.pending[i].ticker, s.pending[i].decision))
    && (forall t :: t in s.trades ==> NotedFor(s.recorded, t, s.trades[t].decision))
  }

  lemma ExitOneKeepsRecord(s: EngineState, c: Candle, ts: int)
    requires RecorderAgrees(s)
    ensures RecorderAgrees(ExitOne(s, c, ts))
  {
    hide CloseEarly, EarlyClose, FixedRExitPrice;
  }

  lemma {:induction false} ExitsKeepRecord(s: EngineState, candles: seq<Candle>, ts: int, k: nat)
    requires k <= |candles| && RecorderAgrees(s)
    ensures RecorderAgrees(Exits(s, candles, ts, k))
  {
    hide ExitOne, RecorderAgrees;
    if k > 0 {
      ExitsKeepRecord(s, candles, ts, k - 1);
      ExitOneKeepsRecord(Exits(s, candles, ts, k - 1), candles[k - 1], ts);
    }
  }

  lemma SettleOneKeepsRecord(s: EngineState, m: Market, ts: int)
    requires RecorderAgrees(s)
    ensures RecorderAgrees(SettleOne(s, m, ts))
  {
    hide Settle;
  }

  lemma {:induction false} SettleAllKeepsRecord(s: EngineState, closing: seq<Market>, ts: int, k: nat)
    requires k <= |closing| && RecorderAgrees(s)
    ensures RecorderAgrees(SettleAll(s, closing, ts, k))
  {
    hide SettleOne, RecorderAgrees;
    if k > 0 {
      SettleAllKeepsRecord(s, closing, ts, k - 1);
      SettleOneKeepsRecord(SettleAll(s, closing, ts, k - 1), closing[k - 1], ts);
    }
  }

  lemma WithoutKeepsRecord(s: EngineState, ticker: string)
    requires RecorderAgrees(s)
    ensures RecorderAgrees(s.(pending := Without(s.pending, ticker)))
  {}

  lemma DrainOneKeepsRecord(cfg: EngineConfig, s: EngineState, p: PendingEntry, candles: seq<Candle>, ts: int)
    requires RecorderAgrees(s) && NotedFor(s.recorded, p.ticker, p.decision)
    ensures RecorderAgrees(DrainOne(cfg, s, p, candles, ts))
    ensures DrainOne(cfg, s, p, candles, ts).recorded == s.recorded
  {
    hide ExecutePending, Place, SetBar, BarOf, InBand;
    WithoutKeepsRecord(s, p.ticker);
    var c := CandleOf(candles, p.ticker);
    if c.Some? { ExecuteRecords(cfg, s.(pending := Without(s.pending, p.ticker)), p, c.value, ts); }
  }

  lemma {:induction false} DrainKeepsRecord(
      cfg: EngineConfig, s: EngineState, queue: seq<PendingEntry>, candles: seq<Candle>, ts: int, k: nat)
    requires k <= |queue| && RecorderAgrees(s)
    requires forall i :: 0 <= i < |queue| ==> NotedFor(s.recorded, queue[i].ticker, queue[i].decision)
    ensures RecorderAgrees(Drain(cfg, s, queue, candles, ts, k))
    ensures Drain(cfg, s, queue, candles, ts, k).recorded == s.recorded
  {
    hide DrainOne, RecorderAgrees, NotedFor;
    if k > 0 {
      DrainKeepsRecord(cfg, s, queue, candles, ts, k - 1);
      DrainOneKeepsRecord(cfg, Drain(cfg, s, queue, candles, ts, k - 1), queue[k - 1], candles, ts);
    }
  }

  lemma EvaluateOneKeepsRecord(cfg: EngineConfig, a: Archive, s: EngineState, c: Candle, ts: int)
    requires RecorderAgrees(s) && forall t :: t in s.trades ==> t in s.entryTs
    ensures RecorderAgrees(EvaluateOne(cfg, a, s, c, ts))
  {
    hide ContextAt, Decide, Queues, Noted, NotedFor;
    var found := MarketOf(a.markets, c.ticker);
    if found.Some? && found.value.series in cfg.symbolOf && c.ticker !in s.entryTs && !HasPending(s.pending, c.ticker) {
      var d := Decide(cfg, ContextAt(cfg, a, found.value, c, cfg.symbolOf[found.value.series], ts));
      BuysAreNoted(s.recorded, c.ticker, d);
      forall i | 0 <= i < |s.pending|
        ensures NotedFor(Noted(s.recorded, c.ticker, d), s.pending[i].ticker, s.pending[i].decision)
      {
        OthersKept(s.recorded, c.ticker, d, s.pending[i].ticker, s.pending[i].decision);
      }
      forall t | t in s.trades ensures NotedFor(Noted(s.recorded, c.ticker, d), t, s.trades[t].decision) {
        OthersKept(s.recorded, c.ticker, d, t, s.trades[t].decision);
      }
    }
  }

  lemma OthersKept(recorded: map<string, real>, ticker: string, d: Decision, other: string, e: Decision)
    requires other != ticker
    ensures NotedFor(recorded, other, e) ==> NotedFor(Noted(recorded, ticker, d), other, e)
  {}

  lemma BuysAreNoted(recorded: map<string, real>, ticker: string, d: Decision)
    ensures Queues(d) ==> NotedFor(Noted(recorded, ticker, d), ticker, d)
  {}

  lemma {:induction false} EvaluateKeepsRecord(
      cfg: EngineConfig, a: Archive, s: EngineState, candles: seq<Candle>, ts: int, k: nat)
    requires k <= |candles| && RecorderAgrees(s) && forall t :: t in s.trades ==> t in s.entryTs
    ensures RecorderAgrees(Evaluate(cfg, a, s, candles, ts, k))
    ensures var w := Evaluate(cfg, a, s, candles, ts, k); w.trades == s.trades && w.entryTs == s.entryTs
  {
    hide EvaluateOne, RecorderAgrees, QueuedOne;
    if k > 0 {
      EvaluateKeepsRecord(cfg, a, s, candles, ts, k - 1);
      EvaluateOneKeepsRecord(cfg, a, Evaluate(cfg, a, s, candles, ts, k - 1), candles[k - 1], ts);
      EvaluateOneEffect(cfg, a, Evaluate(cfg, a, s, candles, ts, k - 1), candles[k - 1], ts);
    }
  }

  lemma StepKeepsRecord(cfg: EngineConfig, a: Archive, s: EngineState, ts: int)
    requires DistinctTickers(a.markets) && Lawful(a, s, ts) && RecorderAgrees(s)
    ensures RecorderAgrees(Step(cfg, a, s, ts))
  {
    hide Exits, SettleAll, Drain, Evaluate, Stage, NotedFor;
    var candles := CandlesAt(a.candles, ts);
    var closing := ClosingAt(a.markets, ts);
    var exited := Exits(s, candles, ts, |candles|);
    var settled := SettleAll(exited, closing, ts, |closing|);
    var drained := Drained(cfg, a, s, ts);
    ExitsKeepRecord(s, candles, ts, |candles|);
    SettleAllKeepsRecord(exited, closing, ts, |closing|);
    DrainKeepsRecord(cfg, settled, settled.pending, candles, ts, |settled.pending|);
    DrainedKeepsLaws(cfg, a, s, ts);
    forall t | t in drained.trades ensures t in drained.entryTs {
      assert Stage(a, t, ViewOf(drained, t), ts + 1, ts + 1);
      TradedIsEntered(a, drained, t, ts + 1);
    }
    EvaluateKeepsRecord(cfg, a, MarkEquity(drained, ts), candles, ts, |candles|);
  }

  lemma TradedIsEntered(a: Archive, s: EngineState, t: string, bound: int)
    requires Stage(a, t, ViewOf(s, t), bound, bound) && t in s.trades
    ensures t in s.entryTs
  {}

  /** The probability on record for a market is the one its filled decision
      carried: nothing evaluated between the decision and the fill, or after the
      fill, can replace it. */
  lemma {:induction false} RecorderMatchesFills(
      cfg: EngineConfig, a: Archive, startingCash: int, timeline: seq<int>, k: nat)
    requires DistinctTickers(a.markets) && IsTimeline(a, timeline) && k <= |timeline|
    ensures RecorderAgrees(Replay(cfg, a, startingCash, timeline, k))
  {
    hide Step, RecorderAgrees;
    if k == 0 {
      assert RecorderAgrees(Start(startingCash)) by { NothingRecorded(startingCash); }
    } else {
      RecorderMatchesFills(cfg, a, startingCash, timeline, k - 1);
      ReplayLawful(cfg, a, startingCash, timeline, k - 1);
      StepKeepsRecord(cfg, a, Replay(cfg, a, startingCash, timeline, k - 1), timeline[k - 1]);
    }
  }

  lemma NothingRecorded(startingCash: int)
    ensures RecorderAgrees(Start(startingCash))
  {}

  // ---- one fold's harvest ----

  predicate DistinctEntries(entries: seq<RawEntry>) {
    forall i, j :: 0 <= i < j < |entries| ==> entries[i].ticker != entries[j].ticker
  }

  /** Setting a new key appends it. */
  lemma {:induction false} PutAppends(entries: seq<RawEntry>, ticker: string, raw: real)
    requires !HasEntry(entries, ticker)
    ensures Put(entries, ticker, raw) == entries + [RawEntry(ticker, raw)]
  {}

  predicate DistinctSettled(settlements: seq<Settlement>) {
    forall i, j :: 0 <= i < j < |settlements| ==> settlements[i].ticker != settlements[j].ticker
  }

  /** Entry `i` of a harvest: the settlement it came from. */
  predicate CameFrom(
      db: Database, settlements: seq<Settlement>, testStart: int, recorded: map<string, real>, entry: RawEntry,
      n: nat) {
    && n < |settlements| && Contributes(db, settlements[n], testStart, recorded)
    && entry == RawEntry(settlements[n].ticker, recorded[settlements[n].ticker])
  }

  ghost predicate Sourced(
      db: Database, settlements: seq<Settlement>, testStart: int, recorded: map<string, real>, entry: RawEntry,
      k: nat) {
    exists n: nat :: n < k && CameFrom(db, settlements, testStart, recorded, entry, n)
  }

  lemma SourcedLater(
      db: Database, settlements: seq<Settlement>, testStart: int, recorded: map<string, real>, entry: RawEntry,
      j: nat, k: nat)
    requires j <= k && Sourced(db, settlements, testStart, recorded, entry, j)
    ensures Sourced(db, settlements, testStart, recorded, entry, k)
  {}

  /** When no market is settled twice, a harvest holds one entry per contributing
      settlement, and its sample is the same probabilities beside the outcomes. */
  lemma {:induction false} HarvestShape(
      db: Database, settlements: seq<Settlement>, testStart: int, recorded: map<string, real>, k: nat)
    requires k <= |settlements| && DistinctSettled(settlements)
    ensures var run := Harvest(db, settlements, testStart, recorded, k);
      && |run.raw| == |run.probs| == |run.outcomes| && DistinctEntries(run.raw)
      && (forall i :: 0 <= i < |run.raw| ==>
            run.probs[i] == run.raw[i].raw && WonYes(db, run.raw[i].ticker) == Some(run.outcomes[i]))
      && (forall i :: 0 <= i < |run.raw| ==> Sourced(db, settlements, testStart, recorded, run.raw[i], k))
      && (forall n :: 0 <= n < k && Contributes(db, settlements[n], testStart, recorded) ==>
            HasEntry(run.raw, settlements[n].ticker))
  {
    hide Sourced, WonYes, HasEntry;
    if k > 0 {
      HarvestShape(db, settlements, testStart, recorded, k - 1);
      var before, x := Harvest(db, settlements, testStart, recorded, k - 1), settlements[k - 1];
      forall i | 0 <= i < |before.raw|
        ensures Sourced(db, settlements, testStart, recorded, before.raw[i], k) && before.raw[i].ticker != x.ticker
      {
        SourcedLater(db, settlements, testStart, recorded, before.raw[i], k - 1, k);
        SourcedEarlier(db, settlements, testStart, recorded, before.raw[i], k - 1);
      }
      if Contributes(db, x, testStart, recorded) {
        NoEntry(before.raw, x.ticker);
        PutAppends(before.raw, x.ticker, recorded[x.ticker]);
        var entry := RawEntry(x.ticker, recorded[x.ticker]);
        forall t ensures HasEntry(before.raw + [entry], t) <==> t == x.ticker || HasEntry(before.raw, t) {
          EntryAppended(before.raw, entry, t);
        }
        SourcedHere(db, settlements, testStart, recorded, k - 1);
      }
    }
  }

  /** A settlement contributes exactly when it was entered in the test window, a
      probability is on record for its market, and the market is stored. */
  lemma ContributesIff(db: Database, x: Settlement, testStart: int, recorded: map<string, real>)
    ensures Contributes(db, x, testStart, recorded) <==>
      testStart <= x.entryTs && x.ticker in recorded
      && exists i :: 0 <= i < |db.markets| && db.markets[i].ticker == x.ticker
  {
    var m := MarketOf(db.markets, x.ticker);
    if m.Some? { var i :| 0 <= i < |db.markets| && db.markets[i] == m.value; }
  }

  /** Entries stand in the order of their settlements: one more settlement leaves
      the earlier ones where they were. */
  lemma HarvestGrows(
      db: Database, settlements: seq<Settlement>, testStart: int, recorded: map<string, real>, k: nat)
    requires 0 < k <= |settlements| && DistinctSettled(settlements)
    ensures Harvest(db, settlements, testStart, recorded, k - 1).raw
         <= Harvest(db, settlements, testStart, recorded, k).raw
  {
    hide WonYes, HasEntry;
    var before, x := Harvest(db, settlements, testStart, recorded, k - 1), settlements[k - 1];
    HarvestShape(db, settlements, testStart, recorded, k - 1);
    if Contributes(db, x, testStart, recorded) {
      forall i | 0 <= i < |before.raw| ensures before.raw[i].ticker != x.ticker {
        SourcedEarlier(db, settlements, testStart, recorded, before.raw[i], k - 1);
      }
      NoEntry(before.raw, x.ticker);
      PutAppends(before.raw, x.ticker, recorded[x.ticker]);
    }
  }

  lemma NoEntry(entries: seq<RawEntry>, ticker: string)
    requires forall i :: 0 <= i < |entries| ==> entries[i].ticker != ticker
    ensures !HasEntry(entries, ticker)
  {}

  lemma EntryAppended(entries: seq<RawEntry>, entry: RawEntry, ticker: string)
    ensures HasEntry(entries + [entry], ticker) <==> ticker == entry.ticker || HasEntry(entries, ticker)
  {
    if HasEntry(entries, ticker) {
      var i :| 0 <= i < |entries| && entries[i].ticker == ticker;
      assert (entries + [entry])[i].ticker == ticker;
    }
    if ticker == entry.ticker { assert (entries + [entry])[|entries|].ticker == ticker; }
  }

  lemma SourcedHere(db: Database, settlements: seq<Settlement>, testStart: int, recorded: map<string, real>, n: nat)
    requires n < |settlements| && Contributes(db, settlements[n], testStart, recorded)
    ensures Sourced(db, settlements, testStart, recorded,
        RawEntry(settlements[n].ticker, recorded[settlements[n].ticker]), n + 1)
  {
    assert CameFrom(db, settlements, testStart, recorded,
        RawEntry(settlements[n].ticker, recorded[settlements[n].ticker]), n);
  }

  lemma SourcedEarlier(
      db: Database, settlements: seq<Settlement>, testStart: int, recorded: map<string, real>, entry: RawEntry,
      k: nat)
    requires DistinctSettled(settlements) && k < |settlements|
        && Sourced(db, settlements, testStart, recorded, entry, k)
    ensures entry.ticker != settlements[k].ticker
  {}

  lemma {:induction false} CountedTwice(settlements: seq<Settlement>, i: nat, j: nat)
    requires i < j < |settlements| && settlements[i].ticker == settlements[j].ticker
    ensures |SettledFor(settlements, settlements[i].ticker)| >= 2
  {
    var last := |settlements| - 1;
    if j < last { CountedTwice(settlements[..last], i, j); }
    else { SettlementIsFound(settlements[..last], i); }
  }

  /** A finished run settles no market twice. */
  lemma RunSettlesOnce(cfg: EngineConfig, a: Archive, startingCash: int, timeline: seq<int>)
    requires DistinctTickers(a.markets) && IsTimeline(a, timeline)
    ensures DistinctSettled(Replay(cfg, a, startingCash, timeline, |timeline|).broker.settlements)
  {
    hide Replay, InBand;
    var settlements := Replay(cfg, a, startingCash, timeline, |timeline|).broker.settlements;
    forall i, j | 0 <= i < j < |settlements| ensures settlements[i].ticker != settlements[j].ticker {
      CausalOrder(cfg, a, startingCash, timeline, |timeline|, settlements[i].ticker);
      if settlements[i].ticker == settlements[j].ticker { CountedTwice(settlements, i, j); }
    }
  }

  /** The market a settlement of a finished run belongs to closed after the entry
      and no later than the end of what was loaded. */
  lemma SettledWithin(
      cfg: EngineConfig, a: Archive, startingCash: int, timeline: seq<int>, start: int, end: int, n: nat)
    requires LoadedFor(a, start, end) && IsTimeline(a, timeline)
    requires n < |Replay(cfg, a, startingCash, timeline, |timeline|).broker.settlements|
    ensures var s := Replay(cfg, a, startingCash, timeline, |timeline|);
            var x := s.broker.settlements[n];
            var m := MarketOf(a.markets, x.ticker);
            m.Some? && m.value in a.markets && x.entryTs < m.value.closeTs <= end && x.ticker in s.trades
  {
    hide Replay;
    var s := Replay(cfg, a, startingCash, timeline, |timeline|);
    var t := s.broker.settlements[n].ticker;
    RunDrains(cfg, a, startingCash, timeline);
    RunSettlesOnce(cfg, a, startingCash, timeline);
    SettlementIsFound(s.broker.settlements, n);
    assert Finished(a, t, ViewOf(s, t));
    OnlySettlement(s.broker.settlements, n);
    var m := MarketOf(a.markets, t).value;
    var i :| 0 <= i < |a.markets| && a.markets[i] == m;
  }

  lemma {:induction false} OnlySettlement(settlements: seq<Settlement>, n: nat)
    requires n < |settlements| && |SettledFor(settlements, settlements[n].ticker)| == 1
    ensures SettledFor(settlements, settlements[n].ticker) == [settlements[n]]
  {
    var last := |settlements| - 1;
    if n < last {
      SettlementIsFound(settlements[..last], n);
      OnlySettlement(settlements[..last], n);
    }
  }

  // ---- no leak ----

  /** A calibration entry of a fold: a market of the database that closed inside
      the fold's test window, with the probability of the decision that was
      filled in it when that decision carried one. */
  predicate ClosedInside(db: Database, fold: Fold, entry: RawEntry) {
    var m := MarketOf(db.markets, entry.ticker);
    m.Some? && fold.testStart < m.value.closeTs <= fold.testEnd
  }

  lemma FoldContributions(db: Database, fold: Fold, cfg: EngineConfig, cash: int, timeline: seq<int>, run: FoldRun)
    requires DistinctTickers(db.markets) && IsFoldRun(db, fold, cfg, cash, timeline, run)
    ensures DistinctEntries(run.raw)
    ensures forall i :: 0 <= i < |run.raw| ==> ClosedInside(db, fold, run.raw[i])
    ensures var s := Replay(cfg, Load(db, fold.trainStart, fold.testEnd), cash, timeline, |timeline|);
            forall i :: 0 <= i < |run.raw| ==> FilledAs(s, fold, run.raw[i])
  {
    hide Replay, RecorderAgrees;
    var a := Load(db, fold.trainStart, fold.testEnd);
    var s := Replay(cfg, a, cash, timeline, |timeline|);
    LoadIsLoaded(db, fold.trainStart, fold.testEnd);
    RunSettlesOnce(cfg, a, cash, timeline);
    RecorderMatchesFills(cfg, a, cash, timeline, |timeline|);
    HarvestShape(db, s.broker.settlements, fold.testStart, s.recorded, |s.broker.settlements|);
    forall i | 0 <= i < |run.raw| ensures ClosedInside(db, fold, run.raw[i]) && FilledAs(s, fold, run.raw[i]) {
      assert Sourced(db, s.broker.settlements, fold.testStart, s.recorded, run.raw[i], |s.broker.settlements|);
      var n: nat :| n < |s.broker.settlements|
          && CameFrom(db, s.broker.settlements, fold.testStart, s.recorded, run.raw[i], n);
      SettledWithin(cfg, a, cash, timeline, fold.trainStart, fold.testEnd, n);
      MarketOfUnique(db.markets, MarketOf(a.markets, run.raw[i].ticker).value);
      OnRecord(s, run.raw[i].ticker);
    }
  }

  /** The entry's market was traded, and its probability is the filled decision's. */
  predicate FilledAs(s: EngineState, fold: Fold, entry: RawEntry) {
    entry.ticker in s.trades
    && (s.trades[entry.ticker].decision.rawProbability.Some? ==>
          s.trades[entry.ticker].decision.rawProbability == Some(entry.raw))
  }

  lemma OnRecord(s: EngineState, t: string)
    requires RecorderAgrees(s) && t in s.trades && t in s.recorded
    ensures s.trades[t].decision.rawProbability.Some? ==> s.trades[t].decision.rawProbability == Some(s.recorded[t])
  {}

  /** The markets behind the pairs of the first `k` runs, in the same order. */
  function SourcesBefore(runs: seq<FoldRun>, k: nat): seq<string>
    requires k <= |runs|
  {
    if k == 0 then []
    else
      var raw := runs[k - 1].raw;
      SourcesBefore(runs, k - 1) + seq(|raw|, i requires 0 <= i < |raw| => raw[i].ticker)
  }

  lemma {:induction false} PairsAre(db: Database, raw: seq<RawEntry>, k: nat)
    requires k <= |raw|
    ensures |PairsOf(db, raw, k)| == k
    ensures forall i :: 0 <= i < k ==> PairsOf(db, raw, k)[i] == Pair(raw[i].raw, OutcomeOf(db, raw[i].ticker))
  {
    if k > 0 { PairsAre(db, raw, k - 1); }
  }

  /** The entries of the first `k` runs. */
  function EntriesBefore(runs: seq<FoldRun>, k: nat): nat
    requires k <= |runs|
  {
    if k == 0 then 0 else EntriesBefore(runs, k - 1) + |runs[k - 1].raw|
  }

  /** Entry `j` of run `i` stands behind the entries of the runs before it, with its
      own probability, and is worth one exactly when its market reads YES. */
  lemma {:induction false} PairIs(db: Database, runs: seq<FoldRun>, k: nat, i: nat, j: nat)
    requires i < k <= |runs| && j < |runs[i].raw|
    ensures |PairsBefore(db, runs, k)| == EntriesBefore(runs, k)
    ensures EntriesBefore(runs, i) + j < EntriesBefore(runs, k)
    ensures var entry := runs[i].raw[j];
            var yes := exists m :: MarketOf(db.markets, entry.ticker) == Some(m)
                         && m.resolution in {ResolvedTo(Yes), Unrecognised(Some(Yes))};
      PairsBefore(db, runs, k)[EntriesBefore(runs, i) + j] == Pair(entry.raw, if yes then 1.0 else 0.0)
  {
    PairsCounted(db, runs, k);
    PairsCounted(db, runs, k - 1);
    PairsAre(db, runs[k - 1].raw, |runs[k - 1].raw|);
    if i < k - 1 { PairIs(db, runs, k - 1, i, j); }
  }

  lemma {:induction false} PairsCounted(db: Database, runs: seq<FoldRun>, k: nat)
    requires k <= |runs|
    ensures |PairsBefore(db, runs, k)| == EntriesBefore(runs, k)
  {
    if k > 0 {
      PairsCounted(db, runs, k - 1);
      PairsAre(db, runs[k - 1].raw, |runs[k - 1].raw|);
    }
  }

  /** A fold is run uncalibrated exactly while no earlier fold has contributed an
      entry, and is else fitted to all of them under its own index. */
  lemma CalibratorIs<C>(
      db: Database, folds: seq<Fold>, arm: Arm<C>, cash: int, runs: seq<FoldRun>, timelines: seq<seq<int>>, k: nat)
    requires RunsAre(db, folds, arm, cash, runs, timelines) && k < |runs|
    ensures var learned := PairsBefore(db, runs, k);
            var calibrator := if EntriesBefore(runs, k) == 0 then arm.identity else arm.fit(learned, folds[k].index);
      |learned| == EntriesBefore(runs, k)
      && IsFoldRun(db, folds[k], arm.engine(calibrator), cash, timelines[k], runs[k])
  {
    hide IsFoldRun;
    PairsCounted(db, runs, k);
    assert RunIs(db, folds[k], arm, cash, runs, timelines, k);
  }

  /** A fold replays its training window too: it visits the close of every published
      market from the start of training to the end of testing. */
  lemma FoldVisits(
      db: Database, fold: Fold, cfg: EngineConfig, cash: int, timeline: seq<int>, run: FoldRun, i: nat)
    requires IsFoldRun(db, fold, cfg, cash, timeline, run)
    requires i < |db.markets| && db.markets[i].resolution != Unresolved
    requires fold.trainStart < db.markets[i].closeTs <= fold.testEnd
    ensures db.markets[i].closeTs in timeline
  {
    hide Replay, Harvest;
    var a := Load(db, fold.trainStart, fold.testEnd);
    assert db.markets[i] in SelectMarkets(db.markets, fold.trainStart, fold.testEnd);
    var j :| 0 <= j < |a.markets| && a.markets[j] == db.markets[i];
    assert a.markets[j].closeTs in EventTimes(a);
  }

  predicate KnownBy(db: Database, ticker: string, ts: int) {
    MarketOf(db.markets, ticker).Some? && MarketOf(db.markets, ticker).value.closeTs <= ts
  }

  /** Calibration never leaks: with disjoint test windows, everything fold `k`'s
      calibrator is fitted on is the outcome of a market that closed no later
      than fold `k` starts testing. */
  lemma {:induction false} CalibrationNeverLeaks<C>(
      db: Database, folds: seq<Fold>, arm: Arm<C>, cash: int, runs: seq<FoldRun>, timelines: seq<seq<int>>,
      j: nat, k: nat)
    requires DistinctTickers(db.markets) && RunsAre(db, folds, arm, cash, runs, timelines)
    requires Disjoint(folds) && j <= k < |runs|
    ensures |SourcesBefore(runs, j)| == |PairsBefore(db, runs, j)|
    ensures forall i :: 0 <= i < |PairsBefore(db, runs, j)| ==>
      PairsBefore(db, runs, j)[i].outcome == OutcomeOf(db, SourcesBefore(runs, j)[i])
      && KnownBy(db, SourcesBefore(runs, j)[i], folds[k].testStart)
  {
    hide IsFoldRun, CalibratorFor, OutcomeOf, KnownBy, PairsOf;
    if j > 0 {
      CalibrationNeverLeaks(db, folds, arm, cash, runs, timelines, j - 1, k);
      var fold, run := folds[j - 1], runs[j - 1];
      assert RunIs(db, fold, arm, cash, runs, timelines, j - 1);
      var cfg := arm.engine(CalibratorFor(arm, fold, PairsBefore(db, runs, j - 1)));
      FoldKnownBy(db, fold, cfg, cash, timelines[j - 1], run, folds[k].testStart);
      PairsAre(db, run.raw, |run.raw|);
    }
  }

  lemma FoldKnownBy(db: Database, fold: Fold, cfg: EngineConfig, cash: int, timeline: seq<int>, run: FoldRun, ts: int)
    requires DistinctTickers(db.markets) && IsFoldRun(db, fold, cfg, cash, timeline, run) && fold.testEnd <= ts
    ensures forall i :: 0 <= i < |run.raw| ==> KnownBy(db, run.raw[i].ticker, ts)
  {
    hide Replay, IsFoldRun, FilledAs, DistinctEntries;
    FoldContributions(db, fold, cfg, cash, timeline, run);
    forall i | 0 <= i < |run.raw| ensures KnownBy(db, run.raw[i].ticker, ts) {
      assert ClosedInside(db, fold, run.raw[i]);
    }
  }

  /** For rolling folds, rolled or expanded, windows are disjoint exactly when the
      step is no shorter than a test window or there are fewer than two; otherwise
      fold 0 still tests when fold 1 begins to (`CalibrationLeak` has the run that
      leaks then). */
  lemma StepDecidesOverlap(g: Geometry, folds: seq<Fold>, trained: seq<Fold>)
    requires AreFolds(g, folds) && |trained| == |folds|
    requires forall i :: 0 <= i < |folds| ==>
        trained[i].testStart == folds[i].testStart && trained[i].testEnd == folds[i].testEnd
    ensures Disjoint(trained) <==> (g.step >= g.test || |folds| < 2)
    ensures g.step < g.test && |folds| >= 2 ==> folds[1].testStart < folds[0].testEnd
  {
    WindowsDisjointIff(g, folds);
    if g.step < g.test && |folds| >= 2 {
      CountBounds(g, 1);
    }
  }
}
