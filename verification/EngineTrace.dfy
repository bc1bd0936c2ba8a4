/** Where every trade of a run came from: a decision its strategy made on what it was
    shown then, filled later at a moment at which every gate was open. */
module EngineTrace {
  import opened Wrappers
  import opened Broker
  import opened BrokerLaws
  import opened Engine
  import opened EngineLedger
  import opened EngineTheorems
  import opened EngineAnswers
  import Sums

  // ---- what a trade rests on ----

  /** The entry is what the strategy answered, at the time it says, about a candle of
      that time and market, while the market was open. */
  predicate DecidedOn(cfg: EngineConfig, a: Archive, p: PendingEntry, c: Candle, m: Market) {
    && c in a.candles && c.ticker == p.ticker && c.ts == p.decidedTs
    && MarketOf(a.markets, p.ticker) == Some(m)
    && m.series in cfg.symbolOf && p.series == m.series && p.closeTs == m.closeTs && p.decidedTs < m.closeTs
    && p.decision == Decide(cfg, ContextAt(cfg, a, m, c, cfg.symbolOf[m.series], p.decidedTs))
    && Buys(p.decision) && p.side == (if p.decision.action == BuyYes then Yes else No)
  }

  ghost predicate Decided(cfg: EngineConfig, a: Archive, p: PendingEntry) {
    exists c, m :: DecidedOn(cfg, a, p, c, m)
  }

  /** The books at a moment: the equity curve of the earlier timestamps, the entries
      made until then, all closed markets settled, and all money accounted for. */
  ghost predicate BooksAt(
      a: Archive, startingCash: int, s: EngineState, equity: seq<(int, int)>, entries: seq<(string, int)>,
      series: string, ts: int) {
    && |s.equity| < |equity| && s.equity == equity[..|s.equity|] && equity[|s.equity|].0 == ts
    && |s.entries| < |entries| && s.entries == entries[..|s.entries|] && entries[|s.entries|] == (series, ts)
    && (forall t :: t in s.broker.positions ==>
          MarketOf(a.markets, t).Some? && ts < MarketOf(a.markets, t).value.closeTs)
    && Principal(s.broker) == startingCash
  }

  /** The trade was entered from those books, through open gates, at that fill. */
  ghost predicate EnteredFrom(
      cfg: EngineConfig, a: Archive, startingCash: int, equity: seq<(int, int)>, entries: seq<(string, int)>,
      row: TradeRow, s: EngineState, p: PendingEntry, c: Candle, fill: Fill) {
    && p.ticker == row.ticker && p.decidedTs == row.decidedTs && p.decision == row.decision && p.side == row.side
    && Decided(cfg, a, p)
    && BooksAt(a, startingCash, s, equity, entries, p.series, row.entryTs)
    && c in a.candles && c.ticker == row.ticker && c.ts == row.entryTs
    && GatesOpen(cfg, s, p, c, row.entryTs) && p.ticker !in s.broker.positions
    && FillOn(cfg, s, p, c, row.entryTs, fill) && Banded(row.decision, fill.price)
    && row.quantity == fill.quantity && row.entryPrice == fill.price
  }

  ghost predicate Earned(
      cfg: EngineConfig, a: Archive, startingCash: int, equity: seq<(int, int)>, entries: seq<(string, int)>,
      row: TradeRow) {
    exists s, p, c, fill :: EnteredFrom(cfg, a, startingCash, equity, entries, row, s, p, c, fill)
  }

  ghost predicate AllEarned(cfg: EngineConfig, a: Archive, startingCash: int, s: EngineState, equity: seq<(int, int)>) {
    forall t :: t in s.trades ==> Earned(cfg, a, startingCash, equity, s.entries, s.trades[t])
  }

  ghost predicate AllDecided(cfg: EngineConfig, a: Archive, pending: seq<PendingEntry>) {
    forall p :: p in pending ==> Decided(cfg, a, p)
  }

  // ---- it stays so ----

  /** Later records only extend earlier ones, and closing a row does not change its entry. */
  lemma EarnedLater(
      cfg: EngineConfig, a: Archive, startingCash: int, equity: seq<(int, int)>, entries: seq<(string, int)>,
      row: TradeRow, moreEquity: seq<(int, int)>, moreEntries: seq<(string, int)>, closed: TradeRow)
    requires Earned(cfg, a, startingCash, equity, entries, row)
    requires equity <= moreEquity && entries <= moreEntries
    requires closed == row.(status := closed.status, exit := closed.exit)
    ensures Earned(cfg, a, startingCash, moreEquity, moreEntries, closed)
  {
    hide GatesOpen, FillOn, Decided, Principal;
    var s, p, c, fill :| EnteredFrom(cfg, a, startingCash, equity, entries, row, s, p, c, fill);
    assert s.equity == moreEquity[..|s.equity|] && s.entries == moreEntries[..|s.entries|];
    assert EnteredFrom(cfg, a, startingCash, moreEquity, moreEntries, closed, s, p, c, fill);
  }

  /** The same trades, entries and curve, with rows closed at most. */
  predicate OnlyCloses(s: EngineState, w: EngineState) {
    && w.entries == s.entries && w.trades.Keys == s.trades.Keys
    && forall t :: t in s.trades ==>
         w.trades[t] == s.trades[t].(status := w.trades[t].status, exit := w.trades[t].exit)
  }

  lemma ClosingKeepsEarned(
      cfg: EngineConfig, a: Archive, startingCash: int, s: EngineState, w: EngineState,
      equity: seq<(int, int)>, moreEquity: seq<(int, int)>)
    requires AllEarned(cfg, a, startingCash, s, equity) && equity <= moreEquity && OnlyCloses(s, w)
    ensures AllEarned(cfg, a, startingCash, w, moreEquity)
  {
    hide Earned;
    forall t | t in w.trades ensures Earned(cfg, a, startingCash, moreEquity, w.entries, w.trades[t]) {
      EarnedLater(cfg, a, startingCash, equity, s.entries, s.trades[t], moreEquity, w.entries, w.trades[t]);
    }
  }

  lemma ExitOnlyCloses(s: EngineState, c: Candle, ts: int)
    ensures OnlyCloses(s, ExitOne(s, c, ts))
  {
    hide CloseEarly, EarlyClose, FixedRExitPrice;
  }

  lemma {:induction false} ExitsOnlyClose(s: EngineState, candles: seq<Candle>, ts: int, k: nat)
    requires k <= |candles|
    ensures OnlyCloses(s, Exits(s, candles, ts, k))
  {
    hide ExitOne;
    if k > 0 {
      ExitsOnlyClose(s, candles, ts, k - 1);
      ExitOnlyCloses(Exits(s, candles, ts, k - 1), candles[k - 1], ts);
    }
  }

  lemma SettleOnlyCloses(s: EngineState, m: Market, ts: int)
    ensures OnlyCloses(s, SettleOne(s, m, ts))
  {
    hide Settle;
  }

  lemma {:induction false} SettleAllOnlyCloses(s: EngineState, closing: seq<Market>, ts: int, k: nat)
    requires k <= |closing|
    ensures OnlyCloses(s, SettleAll(s, closing, ts, k))
  {
    hide SettleOne;
    if k > 0 {
      SettleAllOnlyCloses(s, closing, ts, k - 1);
      SettleOnlyCloses(SettleAll(s, closing, ts, k - 1), closing[k - 1], ts);
    }
  }

  // ---- entries ----

  lemma HeldCloseLater(a: Archive, s: EngineState, ts: int)
    requires AllStages(a, s, ts + 1, ts + 1)
    ensures forall t :: t in s.broker.positions ==>
      MarketOf(a.markets, t).Some? && ts < MarketOf(a.markets, t).value.closeTs
  {
    forall t | t in s.broker.positions
      ensures MarketOf(a.markets, t).Some? && ts < MarketOf(a.markets, t).value.closeTs
    {
      assert Stage(a, t, ViewOf(s, t), ts + 1, ts + 1);
    }
  }

  /** An entry that is made rests on the state it is made from. */
  lemma EntryEarned(
      cfg: EngineConfig, a: Archive, startingCash: int, s: EngineState, p: PendingEntry, c: Candle, ts: int, e: int)
    requires Decided(cfg, a, p) && p.ticker == c.ticker && c in a.candles && c.ts == ts
    requires AllStages(a, s, ts + 1, ts + 1) && Principal(s.broker) == startingCash
    requires ExecutePending(cfg, s, p, c, ts).1.Entered?
    ensures var after := ExecutePending(cfg, s, p, c, ts).0;
      && after.trades.Keys == s.trades.Keys + {p.ticker}
      && (forall t :: t in s.trades && t != p.ticker ==> after.trades[t] == s.trades[t])
      && after.entries == s.entries
      && Earned(cfg, a, startingCash, s.equity + [(ts, e)], s.entries + [(p.series, ts)], after.trades[p.ticker])
  {
    hide ExecutePending, Decided, CanFill, Banded, Principal;
    EntersIff(cfg, s, p, c, ts);
    var fill :| FillOn(cfg, s, p, c, ts, fill) && Banded(p.decision, fill.price);
    EntryIsBooked(cfg, s, p, c, ts, fill);
    HeldCloseLater(a, s, ts);
    var row := ExecutePending(cfg, s, p, c, ts).0.trades[p.ticker];
    assert EnteredFrom(cfg, a, startingCash, s.equity + [(ts, e)], s.entries + [(p.series, ts)], row, s, p, c, fill);
  }

  /** What executing the queue one by one keeps. */
  ghost predicate Tracing(
      cfg: EngineConfig, a: Archive, startingCash: int, s: EngineState, equity: seq<(int, int)>, ts: int, e: int) {
    && s.equity == equity && Principal(s.broker) == startingCash
    && AllEarned(cfg, a, startingCash, s, equity + [(ts, e)])
    && AllDecided(cfg, a, s.pending)
  }

  lemma EarnedWithOneMore(
      cfg: EngineConfig, a: Archive, startingCash: int, s: EngineState, w: EngineState, t: string,
      equity: seq<(int, int)>)
    requires AllEarned(cfg, a, startingCash, s, equity) && s.entries <= w.entries
    requires w.trades.Keys == s.trades.Keys + {t}
    requires forall u :: u in s.trades && u != t ==> w.trades[u] == s.trades[u]
    requires Earned(cfg, a, startingCash, equity, w.entries, w.trades[t])
    ensures AllEarned(cfg, a, startingCash, w, equity)
  {
    hide Earned;
    forall u | u in w.trades ensures Earned(cfg, a, startingCash, equity, w.entries, w.trades[u]) {
      if u != t { EarnedLater(cfg, a, startingCash, equity, s.entries, s.trades[u], equity, w.entries, w.trades[u]); }
    }
  }

  lemma DrainOneTraced(
      cfg: EngineConfig, a: Archive, startingCash: int, s: EngineState, p: PendingEntry, ts: int, e: int)
    requires Tracing(cfg, a, startingCash, s, s.equity, ts, e) && Decided(cfg, a, p)
    requires AllStages(a, s, ts + 1, ts + 1)
    ensures Tracing(cfg, a, startingCash, DrainOne(cfg, s, p, CandlesAt(a.candles, ts), ts), s.equity, ts, e)
  {
    hide ExecutePending, Decided, Earned, Principal, MarketOf;
    var candles := CandlesAt(a.candles, ts);
    var waiting := s.(pending := Without(s.pending, p.ticker));
    if p.closeTs > ts && CandleOf(candles, p.ticker).Some? {
      var c := CandleOf(candles, p.ticker).value;
      ExecuteConserves(cfg, waiting, p, c, ts);
      ExecuteRecords(cfg, waiting, p, c, ts);
      SameViews(a, s, waiting, ts + 1);
      if ExecutePending(cfg, waiting, p, c, ts).1.Entered? {
        EntryEarned(cfg, a, startingCash, waiting, p, c, ts, e);
        EarnedWithOneMore(cfg, a, startingCash, waiting, DrainOne(cfg, s, p, candles, ts), p.ticker,
                          s.equity + [(ts, e)]);
      }
    }
  }

  lemma {:induction false} DrainTraced(
      cfg: EngineConfig, a: Archive, startingCash: int, s: EngineState, ts: int, e: int, k: nat)
    requires k <= |s.pending| && Tracing(cfg, a, startingCash, s, s.equity, ts, e)
    requires AllStages(a, s, ts + 1, ts + 1) && PendingSound(a, s, ts)
    ensures Tracing(cfg, a, startingCash, Drain(cfg, s, s.pending, CandlesAt(a.candles, ts), ts, k), s.equity, ts, e)
  {
    hide DrainOne, AllEarned, Principal, AllStages, Decided;
    if k > 0 {
      DrainTraced(cfg, a, startingCash, s, ts, e, k - 1);
      DrainKeepsStages(cfg, a, s, CandlesAt(a.candles, ts), ts, k - 1);
      assert s.pending[k - 1] in s.pending;
      DrainOneTraced(cfg, a, startingCash, Drain(cfg, s, s.pending, CandlesAt(a.candles, ts), ts, k - 1),
                     s.pending[k - 1], ts, e);
    }
  }

  // ---- decisions ----

  lemma EvaluateOneDecides(cfg: EngineConfig, a: Archive, s: EngineState, c: Candle, ts: int)
    requires AllDecided(cfg, a, s.pending) && c in a.candles && c.ts == ts
    ensures AllDecided(cfg, a, EvaluateOne(cfg, a, s, c, ts).pending)
    ensures EvaluateOne(cfg, a, s, c, ts).entries == s.entries
  {
    hide EvaluateOne, Decide, ContextAt, Decided;
    EvaluatesIff(cfg, a, s, c, ts);
    var found := MarketOf(a.markets, c.ticker);
    var after := EvaluateOne(cfg, a, s, c, ts);
    if found.Some? && after.pending != s.pending {
      var p := after.pending[|s.pending|];
      assert DecidedOn(cfg, a, p, c, found.value);
      assert Decided(cfg, a, p) by { DecidedBy(cfg, a, p, c, found.value); }
    }
  }

  lemma DecidedBy(cfg: EngineConfig, a: Archive, p: PendingEntry, c: Candle, m: Market)
    requires DecidedOn(cfg, a, p, c, m)
    ensures Decided(cfg, a, p)
  {}

  lemma {:induction false} EvaluateDecides(cfg: EngineConfig, a: Archive, s: EngineState, ts: int, k: nat)
    requires k <= |CandlesAt(a.candles, ts)| && AllDecided(cfg, a, s.pending)
    ensures AllDecided(cfg, a, Evaluate(cfg, a, s, CandlesAt(a.candles, ts), ts, k).pending)
    ensures Evaluate(cfg, a, s, CandlesAt(a.candles, ts), ts, k).entries == s.entries
  {
    hide EvaluateOne, AllDecided;
    var candles := CandlesAt(a.candles, ts);
    if k > 0 {
      EvaluateDecides(cfg, a, s, ts, k - 1);
      assert candles[k - 1] in candles;
      EvaluateOneDecides(cfg, a, Evaluate(cfg, a, s, candles, ts, k - 1), candles[k - 1], ts);
    }
  }

  // ---- a timestamp, and a run ----

  lemma StepTraced(cfg: EngineConfig, a: Archive, startingCash: int, s: EngineState, ts: int)
    requires DistinctTickers(a.markets) && Lawful(a, s, ts) && Principal(s.broker) == startingCash
    requires AllEarned(cfg, a, startingCash, s, s.equity) && AllDecided(cfg, a, s.pending)
    ensures var after := Step(cfg, a, s, ts);
      AllEarned(cfg, a, startingCash, after, after.equity) && AllDecided(cfg, a, after.pending)
  {
    hide AllEarned, AllDecided, Principal, AllStages, PendingSound, Equity;
    var candles, closing := CandlesAt(a.candles, ts), ClosingAt(a.markets, ts);
    var exited := Exits(s, candles, ts, |candles|);
    var settled := SettleAll(exited, closing, ts, |closing|);
    var drained := Drain(cfg, settled, settled.pending, candles, ts, |settled.pending|);
    var marked := MarkEquity(drained, ts);
    ExitsOnlyClose(s, candles, ts, |candles|);
    SettleAllOnlyCloses(exited, closing, ts, |closing|);
    ExitsConserve(cfg, s, candles, ts, |candles|);
    SettleAllConserves(cfg, exited, closing, ts, |closing|);
    var e := Equity(drained.broker);
    ClosingKeepsEarned(cfg, a, startingCash, s, exited, s.equity, s.equity + [(ts, e)]);
    ClosingKeepsEarned(cfg, a, startingCash, exited, settled, s.equity + [(ts, e)], s.equity + [(ts, e)]);
    SettledKeepsLaws(cfg, a, s, ts);
    DrainTraced(cfg, a, startingCash, settled, ts, e, |settled.pending|);
    EvaluateDecides(cfg, a, marked, ts, |candles|);
    EvaluateKeepsBooks(cfg, a, marked, candles, ts, |candles|);
    ClosingKeepsEarned(cfg, a, startingCash, drained, Evaluate(cfg, a, marked, candles, ts, |candles|),
                       marked.equity, marked.equity);
  }

  /** After the exits and settlements of a timestamp every held market closes later and
      the queue is as it was. */
  lemma SettledKeepsLaws(cfg: EngineConfig, a: Archive, s: EngineState, ts: int)
    requires DistinctTickers(a.markets) && Lawful(a, s, ts)
    ensures var candles, closing := CandlesAt(a.candles, ts), ClosingAt(a.markets, ts);
            var settled := SettleAll(Exits(s, candles, ts, |candles|), closing, ts, |closing|);
            AllStages(a, settled, ts + 1, ts + 1) && PendingSound(a, settled, ts) && settled.pending == s.pending
  {
    hide AllStages, PendingSound;
    var candles, closing := CandlesAt(a.candles, ts), ClosingAt(a.markets, ts);
    var exited := Exits(s, candles, ts, |candles|);
    var settled := SettleAll(exited, closing, ts, |closing|);
    ExitsKeepStages(a, s, candles, ts, |candles|);
    assert forall i :: 0 <= i < |closing| ==> closing[i] in closing;
    SettleAllKeepsStages(a, exited, closing, ts, |closing|);
    SettledMarketsGone(a, exited, ts);
    WiderBounds(a, settled, ts, ts + 1, ts + 1, ts + 1);
    PendingLater(a, s, settled, ts, ts);
  }

  lemma {:induction false} EvaluateKeepsBooks(
      cfg: EngineConfig, a: Archive, s: EngineState, candles: seq<Candle>, ts: int, k: nat)
    requires k <= |candles|
    ensures var after := Evaluate(cfg, a, s, candles, ts, k);
      after.trades == s.trades && after.equity == s.equity && after.broker == s.broker && after.entries == s.entries
      && after.exitLevels == s.exitLevels && after.entryTs == s.entryTs
  {
    hide EvaluateOne;
    if k > 0 {
      EvaluateKeepsBooks(cfg, a, s, candles, ts, k - 1);
      EvaluateOneEffect(cfg, a, Evaluate(cfg, a, s, candles, ts, k - 1), candles[k - 1], ts);
      EvaluatesIff(cfg, a, Evaluate(cfg, a, s, candles, ts, k - 1), candles[k - 1], ts);
    }
  }

  /** Every trade of a run was decided by its strategy on what it was shown at the time
      of the decision, and entered at a moment at which the guard allowed the equity
      curve so far and the throttle the entries so far, with every closed market
      settled and all money accounted for, on a live candle, at the fill that candle
      gives, inside its band. */
  lemma {:induction false} EveryTradeEarned(
      cfg: EngineConfig, a: Archive, startingCash: int, timeline: seq<int>, k: nat)
    requires DistinctTickers(a.markets) && IsTimeline(a, timeline) && k <= |timeline|
    ensures var s := Replay(cfg, a, startingCash, timeline, k);
      && AllDecided(cfg, a, s.pending)
      && forall t :: t in s.trades ==> Earned(cfg, a, startingCash, s.equity, s.entries, s.trades[t])
  {
    hide Step, Earned, AllDecided, Principal, Lawful;
    if k == 0 {
      NothingTraced(cfg, a, startingCash);
    } else {
      EveryTradeEarned(cfg, a, startingCash, timeline, k - 1);
      ReplayLawful(cfg, a, startingCash, timeline, k - 1);
      PrincipalIsStart(cfg, a, startingCash, timeline, k - 1);
      StepTraced(cfg, a, startingCash, Replay(cfg, a, startingCash, timeline, k - 1), timeline[k - 1]);
    }
  }

  lemma NothingTraced(cfg: EngineConfig, a: Archive, startingCash: int)
    ensures AllDecided(cfg, a, Start(startingCash).pending) && Start(startingCash).trades == map[]
  {}

  lemma PrincipalIsStart(cfg: EngineConfig, a: Archive, startingCash: int, timeline: seq<int>, k: nat)
    requires DistinctTickers(a.markets) && IsTimeline(a, timeline) && k <= |timeline|
    ensures Principal(Replay(cfg, a, startingCash, timeline, k).broker) == startingCash
  {
    hide Replay;
    ReplayConserves(cfg, a, startingCash, timeline, k);
  }

  // ---- the equity curve ----

  function FeeOf(pos: OpenPosition): int { pos.entryFee }

  lemma {:induction false} CapitalSplits(positions: map<string, OpenPosition>)
    ensures Committed(positions) == Sums.SumBy(positions, StakeOf) + Sums.SumBy(positions, FeeOf)
    decreases |positions|
  {
    if positions == map[] {
      Sums.SumByEmpty(StakeOf);
      Sums.SumByEmpty(FeeOf);
      Sums.SumByEmpty(CapitalOf);
    } else {
      var t :| t in positions;
      CapitalSplits(positions - {t});
      Sums.SumByRemove(positions, StakeOf, t);
      Sums.SumByRemove(positions, FeeOf, t);
      Sums.SumByRemove(positions, CapitalOf, t);
    }
  }

  /** The equity on the curve is the starting cash plus what the settled trades netted,
      less the entry fees of the trades still open, whose stakes count in full. */
  lemma EquityIsNetOfOpenFees(cfg: EngineConfig, a: Archive, startingCash: int, timeline: seq<int>, k: nat)
    requires DistinctTickers(a.markets) && IsTimeline(a, timeline) && 0 < k <= |timeline|
    ensures var s := Replay(cfg, a, startingCash, timeline, k);
      |s.equity| == k && s.equity[k - 1] ==
        (timeline[k - 1], startingCash + NetTotal(s.broker.settlements) - Sums.SumBy(s.broker.positions, FeeOf))
  {
    hide Replay;
    ReplayConserves(cfg, a, startingCash, timeline, k);
    CapitalSplits(Replay(cfg, a, startingCash, timeline, k).broker.positions);
  }
}
