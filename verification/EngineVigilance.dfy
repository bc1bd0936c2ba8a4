/** What a run never misses: a level that was reached while a position was held, the
    next candle of a queued market, and a market that could be evaluated. */
module EngineVigilance {
  import opened Wrappers
  import opened Engine
  import opened EngineExits
  import opened EngineLedger
  import opened EngineTheorems
  import opened EngineAnswers
  import opened EngineTrace

  // ---- levels ----

  predicate Levelled(row: TradeRow) { row.decision.stop.Some? && row.decision.target.Some? }

  /** The candle's range reaches one of the trade's levels. */
  predicate Reaches(c: Candle, row: TradeRow)
    requires Levelled(row)
  {
    ReachesStop(c, row.side, row.decision.stop.value) || ReachesTarget(c, row.side, row.decision.target.value)
  }

  /** No candle of the trade's market after `lo` and before `hi` reaches a level. */
  ghost predicate Untouched(a: Archive, row: TradeRow, lo: int, hi: int)
    requires Levelled(row)
  {
    forall c :: c in a.candles && c.ticker == row.ticker && lo < c.ts < hi ==> !Reaches(c, row)
  }

  /** It ended early at the level that a candle of that time reached, the stop first. */
  ghost predicate ClosedByCandle(a: Archive, row: TradeRow)
    requires Levelled(row)
  {
    row.exit.Some?
    && exists c :: c in a.candles && c.ticker == row.ticker && c.ts == row.exit.value.ts && Reaches(c, row)
         && row.exit.value.price == if ReachesStop(c, row.side, row.decision.stop.value)
                                    then row.decision.stop.value else row.decision.target.value
  }

  /** A trade with levels is open while no candle since its entry, those in `seen`
      included, has reached one; it is closed early by the first that does; and it is
      settled when none did. A trade without levels is never closed early. */
  ghost predicate Watched(a: Archive, v: View, bound: int, seen: seq<Candle>) {
    v.trade.Some? ==>
      var row := v.trade.value;
      if !Levelled(row) then v.levels.None? && row.status != ClosedEarly
      else
        match row.status
        case StillOpen =>
          && v.levels == Some(ExitLevels(row.decision.stop.value, row.decision.target.value, row.side))
          && Untouched(a, row, row.entryTs, bound)
          && (forall c :: c in seen && c.ticker == row.ticker ==> !Reaches(c, row))
        case ClosedEarly => ClosedByCandle(a, row) && Untouched(a, row, row.entryTs, row.exit.value.ts)
        case _ => row.exit.Some? && Untouched(a, row, row.entryTs, row.exit.value.ts + 1)
  }

  ghost predicate AllWatched(a: Archive, s: EngineState, bound: int, seen: seq<Candle>) {
    forall t: string :: Watched(a, ViewOf(s, t), bound, seen)
  }

  lemma ExitOneWatched(a: Archive, s: EngineState, c: Candle, ts: int, seen: seq<Candle>)
    requires Stage(a, c.ticker, ViewOf(s, c.ticker), ts, ts) && c in a.candles && c.ts == ts
    requires Watched(a, ViewOf(s, c.ticker), ts, seen)
    ensures Watched(a, ViewOf(ExitOne(s, c, ts), c.ticker), ts, seen + [c])
  {
    hide ExitOne, MarketOf, HeldLow, HeldHigh, Broker.CloseEarly;
    ClosesIff(s, c, ts);
    var v := ViewOf(s, c.ticker);
    if v.trade.Some? && v.trade.value.status == StillOpen && Levelled(v.trade.value) {
      var row := v.trade.value;
      var after := ExitOne(s, c, ts);
      if Reaches(c, row) {
        assert after.trades[c.ticker].status == ClosedEarly;
        assert ClosedByCandle(a, after.trades[c.ticker]);
        assert forall d :: Reaches(d, after.trades[c.ticker]) <==> Reaches(d, row);
      }
    }
  }

  lemma WatchedElsewhere(a: Archive, v: View, c: Candle, bound: int, seen: seq<Candle>, t: string)
    requires Watched(a, v, bound, seen) && c.ticker != t && (v.trade.Some? ==> v.trade.value.ticker == t)
    ensures Watched(a, v, bound, seen + [c])
  {
    hide Reaches, Untouched, ClosedByCandle;
  }

  lemma {:induction false} ExitsWatched(a: Archive, s: EngineState, ts: int, k: nat)
    requires k <= |CandlesAt(a.candles, ts)| && AllStages(a, s, ts, ts) && AllWatched(a, s, ts, [])
    ensures AllWatched(a, Exits(s, CandlesAt(a.candles, ts), ts, k), ts, CandlesAt(a.candles, ts)[..k])
  {
    hide ExitOne, Watched, Stage;
    var candles := CandlesAt(a.candles, ts);
    if k > 0 {
      ExitsWatched(a, s, ts, k - 1);
      ExitsKeepStages(a, s, candles, ts, k - 1);
      var before, c := Exits(s, candles, ts, k - 1), candles[k - 1];
      assert c in candles;
      assert candles[..k] == candles[..k - 1] + [c];
      forall t: string ensures Watched(a, ViewOf(ExitOne(before, c, ts), t), ts, candles[..k]) {
        assert Stage(a, t, ViewOf(before, t), ts, ts);
        if t == c.ticker {
          ExitOneWatched(a, before, c, ts, candles[..k - 1]);
        } else {
          ExitOneFrame(before, c, ts, t);
          StageNames(a, t, ViewOf(before, t), ts);
          WatchedElsewhere(a, ViewOf(before, t), c, ts, candles[..k - 1], t);
        }
      }
    }
  }

  lemma StageNames(a: Archive, t: string, v: View, bound: int)
    requires Stage(a, t, v, bound, bound)
    ensures v.trade.Some? ==> v.trade.value.ticker == t
  {}

  /** With all the candles of a timestamp seen, the watch reaches past it. */
  lemma SeenAll(a: Archive, v: View, ts: int)
    requires Watched(a, v, ts, CandlesAt(a.candles, ts))
    ensures Watched(a, v, ts + 1, [])
  {
    hide Reaches;
    var candles := CandlesAt(a.candles, ts);
    if v.trade.Some? && Levelled(v.trade.value) && v.trade.value.status == StillOpen {
      var row := v.trade.value;
      forall c | c in a.candles && c.ticker == row.ticker && row.entryTs < c.ts < ts + 1 ensures !Reaches(c, row) {
        if c.ts == ts { assert c in candles; }
      }
    }
  }

  lemma SettleOneWatched(a: Archive, s: EngineState, m: Market, ts: int)
    requires Stage(a, m.ticker, ViewOf(s, m.ticker), ts, ts) && Watched(a, ViewOf(s, m.ticker), ts + 1, [])
    ensures Watched(a, ViewOf(SettleOne(s, m, ts), m.ticker), ts + 1, [])
  {
    hide MarketOf, Reaches;
    var v := ViewOf(s, m.ticker);
    if m.ticker in s.broker.positions {
      hide SettleOne;
      SettlesTo(s, m, ts);
      var row, closed := s.trades[m.ticker], SettleOne(s, m, ts).trades[m.ticker];
      assert row.status == StillOpen;
      if Levelled(row) { assert forall c :: Reaches(c, closed) <==> Reaches(c, row) by { SameReach(row, closed); } }
    } else {
      assert ViewOf(SettleOne(s, m, ts), m.ticker) == v;
    }
  }

  lemma SameReach(row: TradeRow, closed: TradeRow)
    requires Levelled(row) && closed == row.(status := closed.status, exit := closed.exit)
    ensures forall c :: Reaches(c, closed) <==> Reaches(c, row)
  {}

  lemma {:induction false} SettleAllWatched(a: Archive, s: EngineState, closing: seq<Market>, ts: int, k: nat)
    requires DistinctTickers(a.markets) && k <= |closing|
    requires forall i :: 0 <= i < |closing| ==> closing[i] in a.markets && closing[i].closeTs == ts
    requires AllStages(a, s, ts, ts) && AllWatched(a, s, ts + 1, [])
    ensures AllWatched(a, SettleAll(s, closing, ts, k), ts + 1, [])
  {
    hide SettleOne, Watched, Stage;
    if k > 0 {
      SettleAllWatched(a, s, closing, ts, k - 1);
      SettleAllKeepsStages(a, s, closing, ts, k - 1);
      var before, m := SettleAll(s, closing, ts, k - 1), closing[k - 1];
      forall t: string ensures Watched(a, ViewOf(SettleOne(before, m, ts), t), ts + 1, []) {
        assert Stage(a, t, ViewOf(before, t), ts, ts);
        if t == m.ticker { SettleOneWatched(a, before, m, ts); } else { SettleOneFrame(before, m, ts, t); }
      }
    }
  }

  /** A new entry has nothing behind it yet. */
  lemma EntryWatched(cfg: EngineConfig, a: Archive, s: EngineState, p: PendingEntry, c: Candle, ts: int)
    requires ViewOf(s, p.ticker) == IDLE
    ensures Watched(a, ViewOf(ExecutePending(cfg, s, p, c, ts).0, p.ticker), ts + 1, [])
  {
    hide ExecutePending, Reaches, Broker.Place;
    ExecuteEffect(cfg, s, p, c, ts);
  }

  lemma DrainOneWatched(cfg: EngineConfig, a: Archive, s: EngineState, p: PendingEntry, candles: seq<Candle>, ts: int)
    requires AllStages(a, s, ts + 1, ts + 1) && PendingSound(a, s, ts) && p in s.pending && AllWatched(a, s, ts + 1, [])
    ensures AllWatched(a, DrainOne(cfg, s, p, candles, ts), ts + 1, [])
  {
    hide ExecutePending, Watched, MarketOf;
    var waiting := s.(pending := Without(s.pending, p.ticker));
    var c := CandleOf(candles, p.ticker);
    forall t: string ensures Watched(a, ViewOf(DrainOne(cfg, s, p, candles, ts), t), ts + 1, []) {
      assert ViewOf(waiting, t) == ViewOf(s, t);
      if p.closeTs > ts && c.Some? {
        if t == p.ticker {
          assert Stage(a, t, ViewOf(s, t), ts + 1, ts + 1);
          QueuedIsIdle(a, s, p, ts);
          EntryWatched(cfg, a, waiting, p, c.value, ts);
        } else {
          QueuedIsIdle(a, s, p, ts);
          ExecuteFrame(cfg, waiting, p, c.value, ts, t);
        }
      }
    }
  }

  lemma QueuedIsIdle(a: Archive, s: EngineState, p: PendingEntry, ts: int)
    requires AllStages(a, s, ts + 1, ts + 1) && PendingSound(a, s, ts) && p in s.pending
    ensures ViewOf(s, p.ticker) == IDLE
  {
    assert Stage(a, p.ticker, ViewOf(s, p.ticker), ts + 1, ts + 1);
  }

  lemma {:induction false} DrainWatched(
      cfg: EngineConfig, a: Archive, s: EngineState, candles: seq<Candle>, ts: int, k: nat)
    requires k <= |s.pending| && AllWatched(a, s, ts + 1, [])
    requires AllStages(a, s, ts + 1, ts + 1) && PendingSound(a, s, ts)
    ensures AllWatched(a, Drain(cfg, s, s.pending, candles, ts, k), ts + 1, [])
  {
    hide DrainOne, Watched, AllStages, PendingSound;
    if k > 0 {
      DrainWatched(cfg, a, s, candles, ts, k - 1);
      DrainKeepsStages(cfg, a, s, candles, ts, k - 1);
      DrainOneWatched(cfg, a, Drain(cfg, s, s.pending, candles, ts, k - 1), s.pending[k - 1], candles, ts);
    }
  }

  lemma StepWatched(cfg: EngineConfig, a: Archive, s: EngineState, ts: int)
    requires DistinctTickers(a.markets) && Lawful(a, s, ts) && AllWatched(a, s, ts, [])
    ensures AllWatched(a, Step(cfg, a, s, ts), ts + 1, [])
  {
    hide AllStages, PendingSound, Watched, Equity;
    var candles, closing := CandlesAt(a.candles, ts), ClosingAt(a.markets, ts);
    var exited := Exits(s, candles, ts, |candles|);
    var settled := SettleAll(exited, closing, ts, |closing|);
    var marked := MarkEquity(Drain(cfg, settled, settled.pending, candles, ts, |settled.pending|), ts);
    ExitsKeepStages(a, s, candles, ts, |candles|);
    ExitsWatched(a, s, ts, |candles|);
    assert candles[..|candles|] == candles;
    forall t: string ensures Watched(a, ViewOf(exited, t), ts + 1, []) { SeenAll(a, ViewOf(exited, t), ts); }
    assert forall i :: 0 <= i < |closing| ==> closing[i] in closing;
    SettleAllWatched(a, exited, closing, ts, |closing|);
    SettledKeepsLaws(cfg, a, s, ts);
    DrainWatched(cfg, a, settled, candles, ts, |settled.pending|);
    EvaluateKeepsBooks(cfg, a, marked, candles, ts, |candles|);
    SameBooksWatched(a, Drain(cfg, settled, settled.pending, candles, ts, |settled.pending|),
                     Evaluate(cfg, a, marked, candles, ts, |candles|), ts + 1);
  }

  lemma SameBooksWatched(a: Archive, s: EngineState, w: EngineState, bound: int)
    requires AllWatched(a, s, bound, [])
    requires w.broker == s.broker && w.entryTs == s.entryTs && w.trades == s.trades && w.exitLevels == s.exitLevels
    ensures AllWatched(a, w, bound, [])
  {
    hide Watched;
    forall t: string ensures Watched(a, ViewOf(w, t), bound, []) { assert ViewOf(w, t) == ViewOf(s, t); }
  }

  /** No candle falls between two event times. */
  lemma WatchedUntilNext(a: Archive, v: View, timeline: seq<int>, k: nat)
    requires IsTimeline(a, timeline) && 0 < k < |timeline| && Watched(a, v, timeline[k - 1] + 1, [])
    ensures Watched(a, v, timeline[k], [])
  {
    hide Reaches;
    if v.trade.Some? && Levelled(v.trade.value) && v.trade.value.status == StillOpen {
      var row := v.trade.value;
      forall c | c in a.candles && c.ticker == row.ticker && row.entryTs < c.ts < timeline[k] ensures !Reaches(c, row) {
        CandleIsEvent(a, timeline, c, k);
      }
    }
  }

  lemma CandleIsEvent(a: Archive, timeline: seq<int>, c: Candle, k: nat)
    requires IsTimeline(a, timeline) && 0 < k < |timeline| && c in a.candles && c.ts < timeline[k]
    ensures c.ts <= timeline[k - 1]
  {
    assert c.ts in EventTimes(a);
    var i :| 0 <= i < |timeline| && timeline[i] == c.ts;
  }

  /** No exit is missed: at every point of a run a trade with levels is open exactly
      while no candle since its entry has reached one, is closed early by the first that
      does, at that level, and is settled only when none had, the candles of the closing
      time included. */
  lemma {:induction false} NoExitMissed(cfg: EngineConfig, a: Archive, startingCash: int, timeline: seq<int>, k: nat)
    requires DistinctTickers(a.markets) && IsTimeline(a, timeline) && 0 < k <= |timeline|
    ensures AllWatched(a, Replay(cfg, a, startingCash, timeline, k), timeline[k - 1] + 1, [])
  {
    hide Step, Watched, Lawful, IsTimeline;
    var before := Replay(cfg, a, startingCash, timeline, k - 1);
    ReplayLawful(cfg, a, startingCash, timeline, k - 1);
    if k > 1 {
      NoExitMissed(cfg, a, startingCash, timeline, k - 1);
      forall t: string ensures Watched(a, ViewOf(before, t), timeline[k - 1], []) {
        WatchedUntilNext(a, ViewOf(before, t), timeline, k - 1);
      }
    } else {
      NothingToWatch(a, startingCash, timeline[0]);
    }
    StepWatched(cfg, a, before, timeline[k - 1]);
  }

  lemma NothingToWatch(a: Archive, startingCash: int, bound: int)
    ensures AllWatched(a, Start(startingCash), bound, [])
  {}

  // ---- queued entries ----

  /** No candle of the market after `lo` and before `hi`. */
  predicate Quiet(a: Archive, ticker: string, lo: int, hi: int) {
    forall c :: c in a.candles && c.ticker == ticker && lo < c.ts ==> hi <= c.ts
  }

  /** A queued entry has seen no candle of its market since its decision, and its market
      has not closed; a trade was entered on the first candle after its decision. */
  ghost predicate Prompt(a: Archive, s: EngineState, bound: int) {
    && (forall p :: p in s.pending ==> Quiet(a, p.ticker, p.decidedTs, bound) && bound <= p.closeTs)
    && (forall t :: t in s.trades ==> Quiet(a, t, s.trades[t].decidedTs, s.trades[t].entryTs))
  }

  ghost predicate Draining(a: Archive, s: EngineState, ts: int) {
    && (forall p :: p in s.pending ==> Quiet(a, p.ticker, p.decidedTs, ts))
    && (forall t :: t in s.trades ==> Quiet(a, t, s.trades[t].decidedTs, s.trades[t].entryTs))
  }

  /** Still in the queue after its turn: open, and without a candle now. */
  predicate Waits(a: Archive, p: PendingEntry, ts: int) {
    ts < p.closeTs && forall c :: c in a.candles && c.ts == ts ==> c.ticker != p.ticker
  }

  lemma DrainOnePrompt(cfg: EngineConfig, a: Archive, s: EngineState, p: PendingEntry, ts: int)
    requires Draining(a, s, ts) && Quiet(a, p.ticker, p.decidedTs, ts)
    ensures var after := DrainOne(cfg, s, p, CandlesAt(a.candles, ts), ts);
      && Draining(a, after, ts) && (forall q :: q in after.pending ==> q in s.pending)
      && (p in after.pending ==> Waits(a, p, ts))
  {
    hide ExecutePending, Quiet;
    var candles := CandlesAt(a.candles, ts);
    var waiting := s.(pending := Without(s.pending, p.ticker));
    var c := CandleOf(candles, p.ticker);
    if p.closeTs > ts {
      if c.Some? {
        ExecuteRecords(cfg, waiting, p, c.value, ts);
      } else {
        forall d | d in a.candles && d.ts == ts ensures d.ticker != p.ticker {
          assert d in candles;
          var i :| 0 <= i < |candles| && candles[i] == d;
        }
      }
    }
  }

  lemma {:induction false} DrainPrompt(cfg: EngineConfig, a: Archive, s: EngineState, ts: int, k: nat)
    requires k <= |s.pending| && Draining(a, s, ts)
    ensures var after := Drain(cfg, s, s.pending, CandlesAt(a.candles, ts), ts, k);
      && Draining(a, after, ts) && (forall q :: q in after.pending ==> q in s.pending)
      && (forall i :: 0 <= i < k && s.pending[i] in after.pending ==> Waits(a, s.pending[i], ts))
  {
    hide DrainOne, Quiet, Waits;
    if k > 0 {
      DrainPrompt(cfg, a, s, ts, k - 1);
      assert s.pending[k - 1] in s.pending;
      DrainOnePrompt(cfg, a, Drain(cfg, s, s.pending, CandlesAt(a.candles, ts), ts, k - 1), s.pending[k - 1], ts);
    }
  }

  lemma {:induction false} EvaluatePrompt(cfg: EngineConfig, a: Archive, s: EngineState, ts: int, k: nat)
    requires k <= |CandlesAt(a.candles, ts)| && Prompt(a, s, ts + 1)
    ensures Prompt(a, Evaluate(cfg, a, s, CandlesAt(a.candles, ts), ts, k), ts + 1)
  {
    hide EvaluateOne, Decide, ContextAt;
    var candles := CandlesAt(a.candles, ts);
    if k > 0 {
      EvaluatePrompt(cfg, a, s, ts, k - 1);
      var before := Evaluate(cfg, a, s, candles, ts, k - 1);
      EvaluatesIff(cfg, a, before, candles[k - 1], ts);
      EvaluateOneEffect(cfg, a, before, candles[k - 1], ts);
    }
  }

  lemma StepPrompt(cfg: EngineConfig, a: Archive, s: EngineState, ts: int)
    requires Draining(a, s, ts)
    ensures Prompt(a, Step(cfg, a, s, ts), ts + 1)
  {
    hide Exits, SettleAll, Drain, Evaluate, Quiet, Equity;
    var candles, closing := CandlesAt(a.candles, ts), ClosingAt(a.markets, ts);
    var exited := Exits(s, candles, ts, |candles|);
    var settled := SettleAll(exited, closing, ts, |closing|);
    var drained := Drain(cfg, settled, settled.pending, candles, ts, |settled.pending|);
    ExitsOnlyClose(s, candles, ts, |candles|);
    SettleAllOnlyCloses(exited, closing, ts, |closing|);
    QueueUntouched(s, candles, closing, ts);
    DrainPrompt(cfg, a, settled, ts, |settled.pending|);
    forall p | p in drained.pending ensures Quiet(a, p.ticker, p.decidedTs, ts + 1) && ts + 1 <= p.closeTs {
      var i :| 0 <= i < |settled.pending| && settled.pending[i] == p;
      QuietPast(a, p, ts);
    }
    EvaluatePrompt(cfg, a, MarkEquity(drained, ts), ts, |candles|);
  }

  lemma QuietPast(a: Archive, p: PendingEntry, ts: int)
    requires Quiet(a, p.ticker, p.decidedTs, ts) && Waits(a, p, ts)
    ensures Quiet(a, p.ticker, p.decidedTs, ts + 1)
  {}

  lemma QueueUntouched(s: EngineState, candles: seq<Candle>, closing: seq<Market>, ts: int)
    ensures SettleAll(Exits(s, candles, ts, |candles|), closing, ts, |closing|).pending == s.pending
  {
    ExitsKeepQueue(s, candles, ts, |candles|);
    SettleAllKeepsQueue(Exits(s, candles, ts, |candles|), closing, ts, |closing|);
  }

  lemma {:induction false} ExitsKeepQueue(s: EngineState, candles: seq<Candle>, ts: int, k: nat)
    requires k <= |candles|
    ensures Exits(s, candles, ts, k).pending == s.pending
  {
    hide FixedRExitPrice, Broker.CloseEarly;
    if k > 0 { ExitsKeepQueue(s, candles, ts, k - 1); }
  }

  lemma {:induction false} SettleAllKeepsQueue(s: EngineState, closing: seq<Market>, ts: int, k: nat)
    requires k <= |closing|
    ensures SettleAll(s, closing, ts, k).pending == s.pending
  {
    hide Broker.Settle;
    if k > 0 { SettleAllKeepsQueue(s, closing, ts, k - 1); }
  }

  /** An entry is executed on the next candle of its market or not at all: at every
      point of a run what is queued has seen no candle of its market since it was
      decided and its market is open, and every trade was entered on the first candle
      after its decision. */
  lemma {:induction false} EntriesArePrompt(
      cfg: EngineConfig, a: Archive, startingCash: int, timeline: seq<int>, k: nat)
    requires IsTimeline(a, timeline) && 0 < k <= |timeline|
    ensures Prompt(a, Replay(cfg, a, startingCash, timeline, k), timeline[k - 1] + 1)
  {
    hide Step, Quiet, IsTimeline;
    var before := Replay(cfg, a, startingCash, timeline, k - 1);
    if k > 1 {
      EntriesArePrompt(cfg, a, startingCash, timeline, k - 1);
      forall p | p in before.pending ensures Quiet(a, p.ticker, p.decidedTs, timeline[k - 1]) {
        QuietUntilNext(a, timeline, p, k - 1);
      }
    }
    StepPrompt(cfg, a, before, timeline[k - 1]);
  }

  lemma QuietUntilNext(a: Archive, timeline: seq<int>, p: PendingEntry, k: nat)
    requires IsTimeline(a, timeline) && 0 < k < |timeline| && Quiet(a, p.ticker, p.decidedTs, timeline[k - 1] + 1)
    ensures Quiet(a, p.ticker, p.decidedTs, timeline[k])
  {
    forall c | c in a.candles && c.ticker == p.ticker && p.decidedTs < c.ts ensures timeline[k] <= c.ts {
      if c.ts < timeline[k] { CandleIsEvent(a, timeline, c, k); }
    }
  }

  // ---- evaluation ----

  /** The market is in a trade, queued, or was evaluated within the stride. */
  predicate LookedAt(cfg: EngineConfig, s: EngineState, t: string, ts: int) {
    || t in s.entryTs || HasPending(s.pending, t)
    || (t in s.lastEval && (s.lastEval[t] == ts || ts - s.lastEval[t] < cfg.evalStride))
  }

  lemma {:induction false} EvaluateLooks(
      cfg: EngineConfig, a: Archive, s: EngineState, candles: seq<Candle>, ts: int, k: nat)
    requires k <= |candles|
    ensures forall i :: 0 <= i < k && OpenMarket(a, candles[i].ticker, ts) ==>
      LookedAt(cfg, Evaluate(cfg, a, s, candles, ts, k), candles[i].ticker, ts)
  {
    hide EvaluateOne, Decide, ContextAt, MarketOf;
    if k > 0 {
      EvaluateLooks(cfg, a, s, candles, ts, k - 1);
      var before, c := Evaluate(cfg, a, s, candles, ts, k - 1), candles[k - 1];
      forall i | 0 <= i < k && OpenMarket(a, candles[i].ticker, ts)
        ensures LookedAt(cfg, EvaluateOne(cfg, a, before, c, ts), candles[i].ticker, ts)
      {
        LooksOn(cfg, a, before, c, ts, candles[i].ticker);
      }
    }
  }

  predicate OpenMarket(a: Archive, t: string, ts: int) {
    MarketOf(a.markets, t).Some? && ts < MarketOf(a.markets, t).value.closeTs
  }

  lemma LooksOn(cfg: EngineConfig, a: Archive, s: EngineState, c: Candle, ts: int, t: string)
    requires OpenMarket(a, t, ts) && (t == c.ticker || LookedAt(cfg, s, t, ts))
    ensures LookedAt(cfg, EvaluateOne(cfg, a, s, c, ts), t, ts)
  {
    hide EvaluateOne, Decide, ContextAt;
    EvaluatesIff(cfg, a, s, c, ts);
    EvaluateOneEffect(cfg, a, s, c, ts);
    var after := EvaluateOne(cfg, a, s, c, ts);
    if HasPending(s.pending, t) {
      var i :| 0 <= i < |s.pending| && s.pending[i].ticker == t;
      assert after.pending[i].ticker == t;
    }
  }

  /** No market is overlooked: after every timestamp each open market with a candle
      then is in a trade, queued, or was evaluated then or within the stride. */
  lemma NoMarketOverlooked(
      cfg: EngineConfig, a: Archive, startingCash: int, timeline: seq<int>, k: nat, c: Candle)
    requires 0 < k <= |timeline| && c in a.candles && c.ts == timeline[k - 1] && OpenMarket(a, c.ticker, c.ts)
    ensures LookedAt(cfg, Replay(cfg, a, startingCash, timeline, k), c.ticker, c.ts)
  {
    hide Exits, SettleAll, Drain, Evaluate, MarkEquity, MarketOf;
    var s, ts := Replay(cfg, a, startingCash, timeline, k - 1), c.ts;
    var candles, closing := CandlesAt(a.candles, ts), ClosingAt(a.markets, ts);
    var settled := SettleAll(Exits(s, candles, ts, |candles|), closing, ts, |closing|);
    var marked := MarkEquity(Drain(cfg, settled, settled.pending, candles, ts, |settled.pending|), ts);
    EvaluateLooks(cfg, a, marked, candles, ts, |candles|);
    assert c in candles;
    var i :| 0 <= i < |candles| && candles[i] == c;
    assert Step(cfg, a, s, ts) == Evaluate(cfg, a, marked, candles, ts, |candles|);
  }
}
