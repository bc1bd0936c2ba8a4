/** The theorems about a whole replay that its phase lemmas add up to. */
module EngineTheorems {
  import opened Wrappers
  import opened Broker
  import opened BrokerLaws
  import opened Engine
  import opened EngineLedger

  // ---- lifecycle over a run ----

  lemma WiderBounds(a: Archive, s: EngineState, entryBound: int, closeBound: int, laterEntry: int, earlierClose: int)
    requires AllStages(a, s, entryBound, closeBound) && entryBound <= laterEntry && earlierClose <= closeBound
    ensures AllStages(a, s, laterEntry, earlierClose)
  {}

  lemma PendingLater(a: Archive, s: EngineState, w: EngineState, bound: int, later: int)
    requires PendingSound(a, s, bound) && bound <= later
    requires w.pending == s.pending && w.entryTs == s.entryTs
    ensures PendingSound(a, w, later)
  {}

  lemma ViewsSurvive(a: Archive, s: EngineState, w: EngineState, bound: int)
    requires AllStages(a, s, bound, bound)
    requires w.broker == s.broker && w.entryTs == s.entryTs && w.trades == s.trades && w.exitLevels == s.exitLevels
    ensures AllStages(a, w, bound, bound)
    ensures forall t: string :: ViewOf(w, t) == ViewOf(s, t)
  {
    SameViews(a, s, w, bound);
  }

  /** The first three phases at `ts`. */
  ghost function Drained(cfg: EngineConfig, a: Archive, s: EngineState, ts: int): EngineState {
    var candles := CandlesAt(a.candles, ts);
    var closing := ClosingAt(a.markets, ts);
    var settled := SettleAll(Exits(s, candles, ts, |candles|), closing, ts, |closing|);
    Drain(cfg, settled, settled.pending, candles, ts, |settled.pending|)
  }

  ghost predicate Lawful(a: Archive, s: EngineState, bound: int) {
    AllStages(a, s, bound, bound) && PendingSound(a, s, bound)
  }

  lemma DrainedKeepsLaws(cfg: EngineConfig, a: Archive, s: EngineState, ts: int)
    requires DistinctTickers(a.markets) && Lawful(a, s, ts)
    ensures AllStages(a, Drained(cfg, a, s, ts), ts + 1, ts + 1) && PendingSound(a, Drained(cfg, a, s, ts), ts)
    ensures forall t: string :: Evolves(ViewOf(s, t), ViewOf(Drained(cfg, a, s, ts), t))
  {
    var candles := CandlesAt(a.candles, ts);
    var closing := ClosingAt(a.markets, ts);
    var exited := Exits(s, candles, ts, |candles|);
    ExitsKeepStages(a, s, candles, ts, |candles|);
    assert forall i :: 0 <= i < |closing| ==> closing[i] in closing;
    SettleAllKeepsStages(a, exited, closing, ts, |closing|);
    SettledMarketsGone(a, exited, ts);
    var settled := SettleAll(exited, closing, ts, |closing|);
    WiderBounds(a, settled, ts, ts + 1, ts + 1, ts + 1);
    PendingLater(a, s, settled, ts, ts);
    DrainKeepsStages(cfg, a, settled, candles, ts, |settled.pending|);
    var drained := Drained(cfg, a, s, ts);
    forall t: string ensures Evolves(ViewOf(s, t), ViewOf(drained, t)) {
      EvolvesTransitive(ViewOf(s, t), ViewOf(exited, t), ViewOf(settled, t));
      EvolvesTransitive(ViewOf(s, t), ViewOf(settled, t), ViewOf(drained, t));
    }
  }

  /** One timestamp keeps every market in a sound stage, and rewrites nothing
      that an earlier timestamp settled. */
  lemma StepKeepsLaws(cfg: EngineConfig, a: Archive, s: EngineState, ts: int)
    requires DistinctTickers(a.markets) && Lawful(a, s, ts)
    ensures Lawful(a, Step(cfg, a, s, ts), ts + 1)
    ensures forall t: string :: Evolves(ViewOf(s, t), ViewOf(Step(cfg, a, s, ts), t))
    ensures Step(cfg, a, s, ts).broker == Drained(cfg, a, s, ts).broker
    ensures Step(cfg, a, s, ts).equity == MarkEquity(Drained(cfg, a, s, ts), ts).equity
  {
    DrainedKeepsLaws(cfg, a, s, ts);
    var drained := Drained(cfg, a, s, ts);
    var marked := MarkEquity(drained, ts);
    PendingLater(a, drained, marked, ts, ts + 1);
    var candles := CandlesAt(a.candles, ts);
    EvaluateKeepsPending(cfg, a, marked, candles, ts, |candles|);
    ViewsSurvive(a, drained, Evaluate(cfg, a, marked, candles, ts, |candles|), ts + 1);
  }

  /** A market still held after one event time closes no earlier than the next. */
  lemma LawfulUntilNextEvent(a: Archive, s: EngineState, timeline: seq<int>, k: nat)
    requires IsTimeline(a, timeline) && 0 < k < |timeline| && Lawful(a, s, timeline[k - 1] + 1)
    ensures Lawful(a, s, timeline[k])
  {
    var bound, next := timeline[k - 1] + 1, timeline[k];
    PendingLater(a, s, s, bound, next);
    forall t: string ensures Stage(a, t, ViewOf(s, t), next, next) {
      assert Stage(a, t, ViewOf(s, t), bound, bound);
      if Holding(a, t, ViewOf(s, t), bound, bound) {
        CloseIsEvent(a, timeline, t);
      }
    }
  }

  lemma CloseIsEvent(a: Archive, timeline: seq<int>, t: string)
    requires IsTimeline(a, timeline) && MarketOf(a.markets, t).Some?
    ensures exists i :: 0 <= i < |timeline| && timeline[i] == MarketOf(a.markets, t).value.closeTs
  {
    var m := MarketOf(a.markets, t).value;
    assert m.closeTs in EventTimes(a);
    assert m.closeTs in timeline;
  }

  /** Every state of every run is lawful. */
  lemma {:induction false} ReplayLawful(cfg: EngineConfig, a: Archive, startingCash: int, timeline: seq<int>, k: nat)
    requires DistinctTickers(a.markets) && IsTimeline(a, timeline) && k <= |timeline|
    ensures k > 0 ==> Lawful(a, Replay(cfg, a, startingCash, timeline, k), timeline[k - 1] + 1)
    ensures k < |timeline| ==> Lawful(a, Replay(cfg, a, startingCash, timeline, k), timeline[k])
  {
    hide Step;
    var s := Replay(cfg, a, startingCash, timeline, k);
    if k == 0 {
      assert forall t: string :: ViewOf(s, t) == IDLE;
    } else {
      ReplayLawful(cfg, a, startingCash, timeline, k - 1);
      StepKeepsLaws(cfg, a, Replay(cfg, a, startingCash, timeline, k - 1), timeline[k - 1]);
      if k < |timeline| { LawfulUntilNextEvent(a, s, timeline, k); }
    }
  }

  /** Causal order and single entry: at every point of every run, each recorded
      trade was decided before it was filled, was filled inside its declared
      band and, once ended, ended after its fill and no later than its market's
      close; a market has at most one settlement, and a queued market has
      neither trade nor position. */
  lemma CausalOrder(cfg: EngineConfig, a: Archive, startingCash: int, timeline: seq<int>, k: nat, t: string)
    requires DistinctTickers(a.markets) && IsTimeline(a, timeline) && k <= |timeline|
    ensures var s := Replay(cfg, a, startingCash, timeline, k);
      && (t in s.trades <==> t in s.entryTs)
      && (t in s.broker.positions ==> t in s.trades && s.trades[t].status.StillOpen?)
      && (t in s.exitLevels ==> t in s.broker.positions)
      && |SettledFor(s.broker.settlements, t)| <= 1
      && (HasPending(s.pending, t) ==> t !in s.trades && t !in s.broker.positions)
      && (t in s.trades ==>
            var row := s.trades[t];
            && row.decidedTs < row.entryTs
            && InBand(row.decision, row.entryPrice)
            && (row.exit.Some? ==>
                  row.entryTs < row.exit.value.ts && MarketOf(a.markets, t).Some?
                  && row.exit.value.ts <= MarketOf(a.markets, t).value.closeTs))
  {
    var s := Replay(cfg, a, startingCash, timeline, k);
    ReplayLawful(cfg, a, startingCash, timeline, k);
    if k == 0 {
      assert ViewOf(s, t) == IDLE;
    } else {
      var bound := timeline[k - 1] + 1;
      assert Stage(a, t, ViewOf(s, t), bound, bound);
      if HasPending(s.pending, t) {
        var i :| 0 <= i < |s.pending| && s.pending[i].ticker == t;
        assert SoundPending(a, s, s.pending[i], bound);
      }
    }
  }

  lemma StepEvolves(cfg: EngineConfig, a: Archive, startingCash: int, timeline: seq<int>, k: nat, t: string)
    requires DistinctTickers(a.markets) && IsTimeline(a, timeline) && k < |timeline|
    ensures Evolves(ViewOf(Replay(cfg, a, startingCash, timeline, k), t),
                    ViewOf(Replay(cfg, a, startingCash, timeline, k + 1), t))
  {
    ReplayLawful(cfg, a, startingCash, timeline, k);
    StepKeepsLaws(cfg, a, Replay(cfg, a, startingCash, timeline, k), timeline[k]);
  }

  /** A recorded entry is never rewritten, and a finished trade never changes. */
  lemma {:induction false} EntriesArePermanent(
      cfg: EngineConfig, a: Archive, startingCash: int, timeline: seq<int>, j: nat, k: nat, t: string)
    requires DistinctTickers(a.markets) && IsTimeline(a, timeline) && j <= k <= |timeline|
    ensures Evolves(ViewOf(Replay(cfg, a, startingCash, timeline, j), t),
                    ViewOf(Replay(cfg, a, startingCash, timeline, k), t))
    decreases k
  {
    hide Step;
    if j < k {
      EntriesArePermanent(cfg, a, startingCash, timeline, j, k - 1, t);
      StepEvolves(cfg, a, startingCash, timeline, k - 1, t);
      EvolvesTransitive(ViewOf(Replay(cfg, a, startingCash, timeline, j), t),
                        ViewOf(Replay(cfg, a, startingCash, timeline, k - 1), t),
                        ViewOf(Replay(cfg, a, startingCash, timeline, k), t));
    }
  }

  // ---- conservation over a run ----

  lemma {:induction false} ExitsConserve(cfg: EngineConfig, s: EngineState, candles: seq<Candle>, ts: int, k: nat)
    requires k <= |candles|
    ensures Principal(Exits(s, candles, ts, k).broker) == Principal(s.broker)
    ensures Exits(s, candles, ts, k).equity == s.equity
  {
    hide ExitOne, Principal;
    if k > 0 {
      ExitsConserve(cfg, s, candles, ts, k - 1);
      ExitOneConserves(cfg, Exits(s, candles, ts, k - 1), candles[k - 1], ts);
    }
  }

  lemma ExitOneConserves(cfg: EngineConfig, s: EngineState, c: Candle, ts: int)
    ensures Principal(ExitOne(s, c, ts).broker) == Principal(s.broker)
    ensures ExitOne(s, c, ts).equity == s.equity
  {
    hide CloseEarly, Principal, FixedRExitPrice, ClosedRow;
    if c.ticker in s.exitLevels {
      var levels := s.exitLevels[c.ticker];
      var price := FixedRExitPrice(c, levels.side, levels.stop, levels.target);
      if price.Some? {
        PrincipalPreserved(cfg.broker, s.broker, ClosePosition(c.ticker, price.value, ts));
      }
    }
  }

  lemma {:induction false} SettleAllConserves(cfg: EngineConfig, s: EngineState, closing: seq<Market>, ts: int, k: nat)
    requires k <= |closing|
    ensures Principal(SettleAll(s, closing, ts, k).broker) == Principal(s.broker)
    ensures SettleAll(s, closing, ts, k).equity == s.equity
  {
    hide Settle, Principal;
    if k > 0 {
      SettleAllConserves(cfg, s, closing, ts, k - 1);
      var m := closing[k - 1];
      PrincipalPreserved(cfg.broker, SettleAll(s, closing, ts, k - 1).broker, SettleMarket(m.ticker, m.resolution, ts));
    }
  }

  lemma ExecuteConserves(cfg: EngineConfig, s: EngineState, p: PendingEntry, c: Candle, ts: int)
    ensures Principal(ExecutePending(cfg, s, p, c, ts).0.broker) == Principal(s.broker)
    ensures ExecutePending(cfg, s, p, c, ts).0.equity == s.equity
  {
    hide Place, SetBar, Void, Principal;
    var quantity := cfg.size(p.decision, s.broker.cash);
    if quantity > 0 {
      var shown := SetBar(s.broker, BarOf(p.ticker, c, ts));
      var order := OrderRequest(p.ticker, p.side, quantity, None, Taker);
      PrincipalPreserved(cfg.broker, s.broker, ShowBar(BarOf(p.ticker, c, ts)));
      PrincipalPreserved(cfg.broker, shown, PlaceOrder(order));
      PrincipalPreserved(cfg.broker, Place(cfg.broker, shown, order).0, VoidFill(p.ticker));
    }
  }

  lemma {:induction false} DrainConserves(
      cfg: EngineConfig, s: EngineState, queue: seq<PendingEntry>, candles: seq<Candle>, ts: int, k: nat)
    requires k <= |queue|
    ensures Principal(Drain(cfg, s, queue, candles, ts, k).broker) == Principal(s.broker)
    ensures Drain(cfg, s, queue, candles, ts, k).equity == s.equity
  {
    if k > 0 {
      DrainConserves(cfg, s, queue, candles, ts, k - 1);
      var before, p := Drain(cfg, s, queue, candles, ts, k - 1), queue[k - 1];
      var c := CandleOf(candles, p.ticker);
      if c.Some? {
        ExecuteConserves(cfg, before.(pending := Without(before.pending, p.ticker)), p, c.value, ts);
      }
    }
  }

  lemma StepConserves(cfg: EngineConfig, a: Archive, s: EngineState, ts: int)
    requires DistinctTickers(a.markets) && Lawful(a, s, ts)
    ensures Principal(Step(cfg, a, s, ts).broker) == Principal(s.broker)
    ensures Step(cfg, a, s, ts).equity == s.equity + [(ts, Equity(Step(cfg, a, s, ts).broker))]
  {
    StepKeepsLaws(cfg, a, s, ts);
    var candles := CandlesAt(a.candles, ts);
    var closing := ClosingAt(a.markets, ts);
    var exited := Exits(s, candles, ts, |candles|);
    var settled := SettleAll(exited, closing, ts, |closing|);
    ExitsConserve(cfg, s, candles, ts, |candles|);
    SettleAllConserves(cfg, exited, closing, ts, |closing|);
    DrainConserves(cfg, settled, settled.pending, candles, ts, |settled.pending|);
  }

  /** The books after `k` timestamps. */
  ghost predicate BooksBalance(s: EngineState, startingCash: int, timeline: seq<int>, k: nat)
    requires k <= |timeline|
  {
    && s.broker.cash == startingCash + NetTotal(s.broker.settlements) - Committed(s.broker.positions)
    && |s.equity| == k
    && (forall i :: 0 <= i < k ==> s.equity[i].0 == timeline[i])
    && (k > 0 ==> s.equity[k - 1].1 == Equity(s.broker))
  }

  lemma BooksBalanceNext(s: EngineState, w: EngineState, startingCash: int, timeline: seq<int>, k: nat)
    requires k < |timeline| && BooksBalance(s, startingCash, timeline, k)
    requires Principal(w.broker) == Principal(s.broker)
    requires w.equity == s.equity + [(timeline[k], Equity(w.broker))]
    ensures BooksBalance(w, startingCash, timeline, k + 1)
  {}

  /** Conservation: after every timestamp, cash is the starting cash plus the
      settled net results minus the stakes and entry fees of what is open, and
      the equity curve has one point per timestamp, the last marking the open
      positions at their entry cost. */
  lemma {:induction false} ReplayConserves(cfg: EngineConfig, a: Archive, startingCash: int, timeline: seq<int>, k: nat)
    requires DistinctTickers(a.markets) && IsTimeline(a, timeline) && k <= |timeline|
    ensures BooksBalance(Replay(cfg, a, startingCash, timeline, k), startingCash, timeline, k)
  {
    hide Step, Lawful, Equity, IsTimeline;
    if k > 0 {
      ReplayConserves(cfg, a, startingCash, timeline, k - 1);
      ReplayLawful(cfg, a, startingCash, timeline, k - 1);
      var before := Replay(cfg, a, startingCash, timeline, k - 1);
      StepConserves(cfg, a, before, timeline[k - 1]);
      BooksBalanceNext(before, Replay(cfg, a, startingCash, timeline, k), startingCash, timeline, k - 1);
    }
  }

  /** Drain: when the run ends no position is open, every trade row is closed
      with exactly one settlement whose numbers it carries, and the final equity
      is the starting cash plus the net results. */
  lemma RunDrains(cfg: EngineConfig, a: Archive, startingCash: int, timeline: seq<int>)
    requires DistinctTickers(a.markets) && IsTimeline(a, timeline)
    ensures var s := Replay(cfg, a, startingCash, timeline, |timeline|);
      && s.broker.positions == map[]
      && (forall t :: t in s.trades ==> Finished(a, t, ViewOf(s, t)))
      && (forall t: string :: SettledFor(s.broker.settlements, t) != [] ==> t in s.trades)
      && s.broker.cash == startingCash + NetTotal(s.broker.settlements)
      && FinalEquity(s, startingCash) == startingCash + NetTotal(s.broker.settlements)
  {
    hide Replay, Lawful, BooksBalance, Finished, FinalEquity, NetTotal, SettledFor;
    ReplayConserves(cfg, a, startingCash, timeline, |timeline|);
    ReplayLawful(cfg, a, startingCash, timeline, |timeline|);
    ReplayStarts(cfg, a, startingCash, timeline);
    DrainedAtEnd(a, Replay(cfg, a, startingCash, timeline, |timeline|), startingCash, timeline);
  }

  lemma ReplayStarts(cfg: EngineConfig, a: Archive, startingCash: int, timeline: seq<int>)
    ensures Replay(cfg, a, startingCash, timeline, 0) == Start(startingCash)
  {}

  lemma DrainedAtEnd(a: Archive, s: EngineState, startingCash: int, timeline: seq<int>)
    requires IsTimeline(a, timeline) && BooksBalance(s, startingCash, timeline, |timeline|)
    requires if timeline == [] then s == Start(startingCash) else Lawful(a, s, timeline[|timeline| - 1] + 1)
    ensures s.broker.positions == map[]
    ensures forall t :: t in s.trades ==> Finished(a, t, ViewOf(s, t))
    ensures forall t: string :: SettledFor(s.broker.settlements, t) != [] ==> t in s.trades
    ensures s.broker.cash == startingCash + NetTotal(s.broker.settlements)
    ensures FinalEquity(s, startingCash) == startingCash + NetTotal(s.broker.settlements)
  {
    forall t: string
      ensures t !in s.broker.positions
      ensures t in s.trades ==> Finished(a, t, ViewOf(s, t))
      ensures SettledFor(s.broker.settlements, t) != [] ==> t in s.trades
    {
      NothingHeldAtEnd(a, s, startingCash, timeline, t);
      if ViewOf(s, t) == IDLE { IdleMeans(s, t); }
    }
    assert s.broker.positions == map[];
  }

  lemma NothingHeldAtEnd(a: Archive, s: EngineState, startingCash: int, timeline: seq<int>, t: string)
    requires IsTimeline(a, timeline)
    requires if timeline == [] then s == Start(startingCash) else Lawful(a, s, timeline[|timeline| - 1] + 1)
    ensures ViewOf(s, t) == IDLE || Finished(a, t, ViewOf(s, t))
  {
    if timeline != [] {
      var bound := timeline[|timeline| - 1] + 1;
      assert Stage(a, t, ViewOf(s, t), bound, bound);
      if MarketOf(a.markets, t).Some? { CloseIsEvent(a, timeline, t); }
    }
  }

  // ---- cash over a run ----

  /** The strategy never asks for an exit at a negative contract price. */
  ghost predicate ExitLevelsCovered(cfg: EngineConfig) {
    forall ctx: Context :: CoveredLevels(cfg.strategy(ctx))
  }

  predicate CoveredLevels(d: Decision) {
    (d.stop.Some? ==> d.stop.value >= 0) && (d.target.Some? ==> d.target.value >= 0)
  }

  /** Cash is not negative, and no exit that could be taken is at a negative price. */
  ghost predicate Funded(s: EngineState) {
    && Solvent(s.broker)
    && (forall t :: t in s.exitLevels ==> s.exitLevels[t].stop >= 0 && s.exitLevels[t].target >= 0)
    && (forall p :: p in s.pending ==> CoveredLevels(p.decision))
  }

  lemma {:induction false} ExitsKeepFunds(cfg: EngineConfig, s: EngineState, candles: seq<Candle>, ts: int, k: nat)
    requires k <= |candles| && Funded(s)
    ensures Funded(Exits(s, candles, ts, k))
  {
    if k > 0 {
      ExitsKeepFunds(cfg, s, candles, ts, k - 1);
      var before, c := Exits(s, candles, ts, k - 1), candles[k - 1];
      if c.ticker in before.exitLevels {
        var levels := before.exitLevels[c.ticker];
        var price := FixedRExitPrice(c, levels.side, levels.stop, levels.target);
        if price.Some? {
          SolventStep(cfg.broker, before.broker, ClosePosition(c.ticker, price.value, ts));
        }
      }
    }
  }

  lemma SettleOneKeepsFunds(cfg: EngineConfig, s: EngineState, m: Market, ts: int)
    requires Funded(s)
    ensures Funded(SettleOne(s, m, ts))
  {
    hide Settle, Solvent, ClosedRow, CoveredLevels;
    SolventStep(cfg.broker, s.broker, SettleMarket(m.ticker, m.resolution, ts));
  }

  lemma {:induction false} SettleAllKeepsFunds(cfg: EngineConfig, s: EngineState, closing: seq<Market>, ts: int, k: nat)
    requires k <= |closing| && Funded(s)
    ensures Funded(SettleAll(s, closing, ts, k))
  {
    hide SettleOne, Funded;
    if k > 0 {
      SettleAllKeepsFunds(cfg, s, closing, ts, k - 1);
      SettleOneKeepsFunds(cfg, SettleAll(s, closing, ts, k - 1), closing[k - 1], ts);
    }
  }

  /** Every broker state an execution can end in is solvent. */
  lemma ExecuteSolvent(cfg: EngineConfig, s: EngineState, p: PendingEntry, c: Candle, ts: int)
    requires Solvent(s.broker)
    ensures Solvent(ExecutePending(cfg, s, p, c, ts).0.broker)
  {
    hide Place, SetBar, Void, Solvent, InBand, IsLiveQuote;
    var quantity := cfg.size(p.decision, s.broker.cash);
    if quantity > 0 {
      var shown := SetBar(s.broker, BarOf(p.ticker, c, ts));
      var order := OrderRequest(p.ticker, p.side, quantity, None, Taker);
      SolventStep(cfg.broker, s.broker, ShowBar(BarOf(p.ticker, c, ts)));
      SolventStep(cfg.broker, shown, PlaceOrder(order));
      SolventStep(cfg.broker, Place(cfg.broker, shown, order).0, VoidFill(p.ticker));
    }
  }

  lemma ExecuteKeepsFunds(cfg: EngineConfig, s: EngineState, p: PendingEntry, c: Candle, ts: int)
    requires Funded(s) && CoveredLevels(p.decision)
    ensures Funded(ExecutePending(cfg, s, p, c, ts).0)
  {
    hide Place, SetBar, Void, Solvent, InBand, IsLiveQuote, BarOf;
    ExecuteSolvent(cfg, s, p, c, ts);
  }

  lemma DrainOneKeepsFunds(cfg: EngineConfig, s: EngineState, p: PendingEntry, candles: seq<Candle>, ts: int)
    requires Funded(s) && CoveredLevels(p.decision)
    ensures Funded(DrainOne(cfg, s, p, candles, ts))
  {
    hide ExecutePending, Solvent, CoveredLevels;
    var c := CandleOf(candles, p.ticker);
    if c.Some? {
      ExecuteKeepsFunds(cfg, s.(pending := Without(s.pending, p.ticker)), p, c.value, ts);
    }
  }

  lemma {:induction false} DrainKeepsFunds(
      cfg: EngineConfig, s: EngineState, queue: seq<PendingEntry>, candles: seq<Candle>, ts: int, k: nat)
    requires k <= |queue| && Funded(s) && forall p :: p in queue ==> CoveredLevels(p.decision)
    ensures Funded(Drain(cfg, s, queue, candles, ts, k))
  {
    hide DrainOne, Funded, CoveredLevels;
    if k > 0 {
      DrainKeepsFunds(cfg, s, queue, candles, ts, k - 1);
      assert queue[k - 1] in queue;
      DrainOneKeepsFunds(cfg, Drain(cfg, s, queue, candles, ts, k - 1), queue[k - 1], candles, ts);
    }
  }

  lemma {:induction false} EvaluateKeepsFunds(
      cfg: EngineConfig, a: Archive, s: EngineState, candles: seq<Candle>, ts: int, k: nat)
    requires k <= |candles| && Funded(s) && ExitLevelsCovered(cfg)
    ensures Funded(Evaluate(cfg, a, s, candles, ts, k))
  {
    hide ContextAt;
    if k > 0 {
      EvaluateKeepsFunds(cfg, a, s, candles, ts, k - 1);
      var c := candles[k - 1];
      var found := MarketOf(a.markets, c.ticker);
      if found.Some? && found.value.series in cfg.symbolOf {
        DecidesCovered(cfg, ContextAt(cfg, a, found.value, c, cfg.symbolOf[found.value.series], ts));
      }
    }
  }

  lemma DecidesCovered(cfg: EngineConfig, ctx: Context)
    requires ExitLevelsCovered(cfg)
    ensures CoveredLevels(Decide(cfg, ctx))
  {}

  /** A run that starts with cash never goes below zero, as long as its strategy
      does not ask for an exit at a negative price. */
  lemma {:induction false} RunNeverOverdrawn(
      cfg: EngineConfig, a: Archive, startingCash: nat, timeline: seq<int>, k: nat)
    requires k <= |timeline| && ExitLevelsCovered(cfg)
    ensures Funded(Replay(cfg, a, startingCash, timeline, k))
  {
    hide Evaluate, Drain, SettleAll, Exits;
    if k > 0 {
      RunNeverOverdrawn(cfg, a, startingCash, timeline, k - 1);
      var s, ts := Replay(cfg, a, startingCash, timeline, k - 1), timeline[k - 1];
      var candles := CandlesAt(a.candles, ts);
      var closing := ClosingAt(a.markets, ts);
      ExitsKeepFunds(cfg, s, candles, ts, |candles|);
      var exited := Exits(s, candles, ts, |candles|);
      SettleAllKeepsFunds(cfg, exited, closing, ts, |closing|);
      var settled := SettleAll(exited, closing, ts, |closing|);
      DrainKeepsFunds(cfg, settled, settled.pending, candles, ts, |settled.pending|);
      EvaluateKeepsFunds(cfg, a, MarkEquity(Drained(cfg, a, s, ts), ts), candles, ts, |candles|);
    }
  }

  // ---- the train/test split ----

  /** Every settlement is counted on exactly one side of the split. */
  lemma {:induction false} SegmentsPartition(settlements: seq<Settlement>, entryTs: map<string, int>, splitTs: int)
    requires forall i :: 0 <= i < |settlements| ==> settlements[i].ticker in entryTs
    ensures NetTotal(Segment(settlements, entryTs, splitTs, false))
        + NetTotal(Segment(settlements, entryTs, splitTs, true))
         == NetTotal(settlements)
    ensures |Segment(settlements, entryTs, splitTs, false)| + |Segment(settlements, entryTs, splitTs, true)|
        == |settlements|
  {
    if settlements != [] {
      var front, last := settlements[..|settlements| - 1], settlements[|settlements| - 1];
      SegmentsPartition(front, entryTs, splitTs);
      NetTotalAppend(Segment(front, entryTs, splitTs, false), last);
      NetTotalAppend(Segment(front, entryTs, splitTs, true), last);
    }
  }

  lemma {:induction false} SettlementIsFound(settlements: seq<Settlement>, i: nat)
    requires i < |settlements|
    ensures SettledFor(settlements, settlements[i].ticker) != []
  {
    if i < |settlements| - 1 { SettlementIsFound(settlements[..|settlements| - 1], i); }
  }

  /** The out-of-sample split loses and repeats nothing: the final equity is the
      starting cash plus the net of both segments. */
  lemma SplitAccountsForEquity(cfg: EngineConfig, a: Archive, startingCash: int, timeline: seq<int>, splitTs: int)
    requires DistinctTickers(a.markets) && IsTimeline(a, timeline)
    ensures var s := Replay(cfg, a, startingCash, timeline, |timeline|);
            var train := Segment(s.broker.settlements, s.entryTs, splitTs, false);
            var test := Segment(s.broker.settlements, s.entryTs, splitTs, true);
            FinalEquity(s, startingCash) == startingCash + NetTotal(train) + NetTotal(test)
            && |train| + |test| == |s.broker.settlements|
  {
    var s := Replay(cfg, a, startingCash, timeline, |timeline|);
    RunDrains(cfg, a, startingCash, timeline);
    forall i | 0 <= i < |s.broker.settlements| ensures s.broker.settlements[i].ticker in s.entryTs {
      SettlementIsFound(s.broker.settlements, i);
      CausalOrder(cfg, a, startingCash, timeline, |timeline|, s.broker.settlements[i].ticker);
    }
    SegmentsPartition(s.broker.settlements, s.entryTs, splitTs);
  }
}
