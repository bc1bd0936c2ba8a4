/** The replay engine as the object that drives the broker: its dictionaries are
    fields that each phase updates, and each phase is proved to do what its
    function in `Engine` says. */
module EngineRun {
  import opened Wrappers
  import opened Broker
  import opened BrokerLaws
  import opened Engine
  import opened EngineTheorems
  import opened SortedTimes

  datatype BacktestResult = BacktestResult(train: seq<Settlement>, test: seq<Settlement>, finalEquity: int)

  datatype RunError = SplitOutsideRange

  lemma HasKey<V>(entries: map<string, V>)
    requires entries != map[]
    ensures exists t :: t in entries
  {}

  function Listed<T>(byTs: map<int, seq<T>>, ts: int): seq<T> {
    if ts in byTs then byTs[ts] else []
  }

  lemma CandlesAtNext(candles: seq<Candle>, i: nat, ts: int)
    requires i < |candles|
    ensures CandlesAt(candles[..i + 1], ts)
         == if candles[i].ts == ts then CandlesAt(candles[..i], ts) + [candles[i]] else CandlesAt(candles[..i], ts)
  {
    assert candles[..i + 1][..i] == candles[..i];
  }

  lemma ClosingAtNext(markets: seq<Market>, i: nat, ts: int)
    requires i < |markets|
    ensures ClosingAt(markets[..i + 1], ts)
         == if markets[i].closeTs == ts then ClosingAt(markets[..i], ts) + [markets[i]] else ClosingAt(markets[..i], ts)
  {
    assert markets[..i + 1][..i] == markets[..i];
  }

  /** Groups the candles by the timestamp they end at. */
  method GroupCandles(candles: seq<Candle>) returns (byTs: map<int, seq<Candle>>)
    ensures forall ts :: Listed(byTs, ts) == CandlesAt(candles, ts)
    ensures forall ts :: ts in byTs <==> CandlesAt(candles, ts) != []
  {
    byTs := map[];
    for i := 0 to |candles|
      invariant forall ts :: Listed(byTs, ts) == CandlesAt(candles[..i], ts)
      invariant forall ts :: ts in byTs <==> CandlesAt(candles[..i], ts) != []
    {
      var c := candles[i];
      forall ts { CandlesAtNext(candles, i, ts); }
      byTs := byTs[c.ts := Listed(byTs, c.ts) + [c]];
    }
    assert candles[..|candles|] == candles;
  }

  /** Groups the markets by the timestamp they close at. */
  method GroupMarkets(markets: seq<Market>) returns (byTs: map<int, seq<Market>>)
    ensures forall ts :: Listed(byTs, ts) == ClosingAt(markets, ts)
    ensures forall ts :: ts in byTs <==> ClosingAt(markets, ts) != []
  {
    byTs := map[];
    for i := 0 to |markets|
      invariant forall ts :: Listed(byTs, ts) == ClosingAt(markets[..i], ts)
      invariant forall ts :: ts in byTs <==> ClosingAt(markets[..i], ts) != []
    {
      var m := markets[i];
      forall ts { ClosingAtNext(markets, i, ts); }
      byTs := byTs[m.closeTs := Listed(byTs, m.closeTs) + [m]];
    }
    assert markets[..|markets|] == markets;
  }

  class BacktestEngine {
    const cfg: EngineConfig
    const broker: BacktestBroker
    const startingCash: int
    var pending: seq<PendingEntry>
    var exitLevels: map<string, ExitLevels>
    var entryTs: map<string, int>
    var lastEval: map<string, int>
    var trades: map<string, TradeRow>
    var equityCurve: seq<(int, int)>
    var entries: seq<(string, int)>
    var recorded: map<string, real>

    ghost function State(): EngineState
      reads this, broker
    {
      EngineState(broker.State(), pending, exitLevels, entryTs, lastEval, trades, equityCurve, entries, recorded)
    }

    constructor (cfg: EngineConfig, broker: BacktestBroker, startingCash: int)
      ensures this.cfg == cfg && this.broker == broker && this.startingCash == startingCash
      ensures pending == [] && exitLevels == map[] && entryTs == map[] && lastEval == map[]
      ensures trades == map[] && equityCurve == [] && entries == [] && recorded == map[]
    {
      this.cfg := cfg;
      this.broker := broker;
      this.startingCash := startingCash;
      pending := [];
      exitLevels := map[];
      entryTs := map[];
      lastEval := map[];
      trades := map[];
      equityCurve := [];
      entries := [];
      recorded := map[];
    }

    /** Phase 1: stop and target exits against this timestamp's candles. */
    method CheckExits(candles: seq<Candle>, ts: int)
      modifies this`exitLevels, this`trades, broker
      ensures State() == Exits(old(State()), candles, ts, |candles|)
    {
      for i := 0 to |candles|
        invariant State() == Exits(old(State()), candles, ts, i)
      {
        var c := candles[i];
        if c.ticker !in exitLevels { continue; }
        var levels := exitLevels[c.ticker];
        var price := FixedRExitPrice(c, levels.side, levels.stop, levels.target);
        if price.None? { continue; }
        var settlement := broker.ClosePositionEarly(c.ticker, price.value, ts);
        if settlement.None? { continue; }
        exitLevels := exitLevels - {c.ticker};
        if c.ticker in trades {
          trades := trades[c.ticker := ClosedRow(trades[c.ticker], settlement.value, price.value, ts, ClosedEarly)];
        }
      }
    }

    /** Phase 2: settle the markets that close now. */
    method SettleClosed(closing: seq<Market>, ts: int)
      modifies this`exitLevels, this`trades, broker
      ensures State() == SettleAll(old(State()), closing, ts, |closing|)
    {
      for i := 0 to |closing|
        invariant State() == SettleAll(old(State()), closing, ts, i)
      {
        var m := closing[i];
        exitLevels := exitLevels - {m.ticker};
        broker.SettleMarket(m.ticker, m.resolution, ts);
        if m.ticker in trades && |broker.settlements| > 0 {
          var x := broker.settlements[|broker.settlements| - 1];
          var row := trades[m.ticker];
          if x.ticker == m.ticker && row.status.StillOpen? {
            var status := if x.won then SettledWon else SettledLost;
            trades := trades[m.ticker := ClosedRow(row, x, if x.won then 100 else 0, ts, status)];
          }
        }
      }
    }

    /** Executes one queued entry against its market's candle, with every gate
        applied to the state at fill time. */
    method Execute(p: PendingEntry, c: Candle, ts: int) returns (outcome: Execution)
      requires broker.config == cfg.broker
      modifies this`exitLevels, this`trades, this`entryTs, broker
      ensures (State(), outcome) == ExecutePending(cfg, old(State()), p, c, ts)
    {
      if !cfg.guardAllows(equityCurve) { return NoFill; }
      if !cfg.throttleAllows(entries, p.series, ts) { return NoFill; }
      if !IsLiveQuote(c) { return DeadQuote; }
      var liveCash := broker.cash;
      var quantity := cfg.size(p.decision, liveCash);
      if quantity <= 0 { return NoFill; }
      broker.SetCurrentBar(BarOf(p.ticker, c, ts));
      var result := broker.PlaceOrder(OrderRequest(p.ticker, p.side, quantity, None, Taker));
      if result.Rejected? { return NoFill; }
      if !InBand(p.decision, result.price) {
        broker.VoidFill(p.ticker);
        return RejectedBand;
      }
      entryTs := entryTs[p.ticker := ts];
      if p.decision.stop.Some? && p.decision.target.Some? {
        exitLevels := exitLevels[p.ticker := ExitLevels(p.decision.stop.value, p.decision.target.value, p.side)];
      }
      trades := trades[p.ticker := TradeRow(p.ticker, p.decidedTs, p.decision, p.side, result.quantity,
                                            result.price, ts, StillOpen, None)];
      outcome := Entered;
    }

    /** Phase 3: execute the entries queued at earlier timestamps. */
    method DrainPending(candles: seq<Candle>, ts: int)
      requires broker.config == cfg.broker
      modifies this`pending, this`exitLevels, this`trades, this`entryTs, this`entries, broker
      ensures State() == Drain(cfg, old(State()), old(pending), candles, ts, |old(pending)|)
    {
      hide ExecutePending;
      var queue := pending;
      for i := 0 to |queue|
        invariant State() == Drain(cfg, old(State()), queue, candles, ts, i)
      {
        var p := queue[i];
        if p.closeTs <= ts {
          pending := Without(pending, p.ticker);
          continue;
        }
        var c := CandleOf(candles, p.ticker);
        if c.None? { continue; }
        pending := Without(pending, p.ticker);
        var outcome := Execute(p, c.value, ts);
        if outcome.Entered? {
          entries := entries + [(p.series, ts)];
        }
      }
    }

    /** Cash plus every open position at its entry cost. */
    method CurrentEquity() returns (equity: int)
      ensures equity == Equity(broker.State())
    {
      hide Sums.SumBy;
      Sums.SumByEmpty(StakeOf);
      equity := broker.cash;
      var rest := broker.positions;
      while rest != map[]
        invariant equity + Sums.SumBy(rest, StakeOf) == Equity(broker.State())
        decreases |rest|
      {
        HasKey(rest);
        var t :| t in rest;
        Sums.SumByRemove(rest, StakeOf, t);
        equity := equity + rest[t].quantity * rest[t].entryPrice;
        rest := rest - {t};
      }
    }

    /** Phase 4: one point on the equity curve. */
    method RecordEquity(ts: int)
      modifies this`equityCurve
      ensures State() == MarkEquity(old(State()), ts)
    {
      var equity := CurrentEquity();
      equityCurve := equityCurve + [(ts, equity)];
    }

    /** Phase 5: evaluate the open markets and queue what the strategy buys. */
    method EvaluateOpen(a: Archive, candles: seq<Candle>, ts: int)
      modifies this`pending, this`lastEval, this`recorded
      ensures State() == Evaluate(cfg, a, old(State()), candles, ts, |candles|)
    {
      for i := 0 to |candles|
        invariant State() == Evaluate(cfg, a, old(State()), candles, ts, i)
      {
        hide ContextAt, Decide;
        var c := candles[i];
        var found := MarketOf(a.markets, c.ticker);
        if found.None? { continue; }
        var m := found.value;
        if m.closeTs <= ts || m.ticker in entryTs || HasPending(pending, m.ticker) { continue; }
        if m.ticker in lastEval && ts - lastEval[m.ticker] < cfg.evalStride { continue; }
        lastEval := lastEval[m.ticker := ts];
        if m.series !in cfg.symbolOf { continue; }
        var d := Decide(cfg, ContextAt(cfg, a, m, c, cfg.symbolOf[m.series], ts));
        recorded := Noted(recorded, m.ticker, d);
        if Queues(d) {
          pending := pending + [PendingEntry(m.ticker, m.series, ts, m.closeTs, d, SideOf(d))];
        }
      }
    }

    /** One timestamp: the five phases in order. */
    method Advance(a: Archive, candles: seq<Candle>, closing: seq<Market>, ts: int)
      requires broker.config == cfg.broker
      requires candles == CandlesAt(a.candles, ts) && closing == ClosingAt(a.markets, ts)
      modifies this, broker
      ensures State() == Step(cfg, a, old(State()), ts)
    {
      hide Exits, SettleAll, Drain, Evaluate, MarkEquity;
      CheckExits(candles, ts);
      SettleClosed(closing, ts);
      DrainPending(candles, ts);
      RecordEquity(ts);
      EvaluateOpen(a, candles, ts);
    }

    /** Visits every event time in order. */
    method VisitAll(a: Archive) returns (ghost timeline: seq<int>)
      requires broker.config == cfg.broker && State() == Start(startingCash)
      modifies this, broker
      ensures IsTimeline(a, timeline)
      ensures State() == Replay(cfg, a, startingCash, timeline, |timeline|)
    {
      hide Step, CandlesAt, ClosingAt, IsTimeline, Start;
      var candlesByTs := GroupCandles(a.candles);
      var marketsByClose := GroupMarkets(a.markets);
      var times := SortTimes(candlesByTs.Keys + marketsByClose.Keys);
      timeline := times;
      TimelineOf(a, candlesByTs.Keys + marketsByClose.Keys, timeline);
      for k := 0 to |times|
        invariant State() == Replay(cfg, a, startingCash, timeline, k)
      {
        Advance(a, Listed(candlesByTs, times[k]), Listed(marketsByClose, times[k]), times[k]);
      }
    }

    /** Replays the archive on a fresh engine and broker: the final state is the
        specified replay of every event time, nothing is left open, and the
        final equity is the starting cash plus the net of both segments. */
    method Run(a: Archive, startTs: int, endTs: int, splitTs: int)
        returns (r: Result<BacktestResult, RunError>, ghost timeline: seq<int>)
      requires broker.config == cfg.broker
      requires State() == Start(startingCash) && LoadedFor(a, startTs, endTs)
      modifies this, broker
      ensures r.Err? <==> !(startTs < splitTs < endTs)
      ensures r.Err? ==> State() == old(State())
      ensures r.Ok? ==>
        && IsTimeline(a, timeline)
        && State() == Replay(cfg, a, startingCash, timeline, |timeline|)
        && r.value == BacktestResult(Segment(broker.settlements, entryTs, splitTs, false),
                                     Segment(broker.settlements, entryTs, splitTs, true),
                                     FinalEquity(State(), startingCash))
      ensures r.Ok? ==>
        && broker.positions == map[]
        && r.value.finalEquity == startingCash + NetTotal(r.value.train) + NetTotal(r.value.test)
    {
      hide Replay, Segment;
      timeline := [];
      if !(startTs < splitTs < endTs) { return Err(SplitOutsideRange), []; }
      timeline := VisitAll(a);
      RunDrains(cfg, a, startingCash, timeline);
      SplitAccountsForEquity(cfg, a, startingCash, timeline, splitTs);
      var finalEquity := if |equityCurve| == 0 then startingCash else equityCurve[|equityCurve| - 1].1;
      r := Ok(BacktestResult(Segment(broker.settlements, entryTs, splitTs, false),
                             Segment(broker.settlements, entryTs, splitTs, true), finalEquity));
    }
  }

  lemma TimelineOf(a: Archive, times: set<int>, timeline: seq<int>)
    requires Increasing(timeline) && forall t :: t in timeline <==> t in times
    requires forall t :: t in times <==> CandlesAt(a.candles, t) != [] || ClosingAt(a.markets, t) != []
    ensures IsTimeline(a, timeline)
  {
    forall t ensures t in timeline <==> t in EventTimes(a) {
      var candles, closing := CandlesAt(a.candles, t), ClosingAt(a.markets, t);
      assert candles != [] ==> candles[0] in candles;
      assert closing != [] ==> closing[0] in closing;
    }
  }
}
