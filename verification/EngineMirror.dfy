/** The whole replay treats YES and NO alike: mirroring the archive and the
    strategy mirrors the run, and leaves its cash and equity curve unchanged. */
module EngineMirror {
  import opened Wrappers
  import opened Broker
  import opened BrokerLaws
  import opened BrokerMirror
  import opened Slices
  import opened Engine
  import opened EngineExits

  // ---- mirroring sequences and maps ----

  function Each<T>(xs: seq<T>, f: T -> T): (ys: seq<T>)
    ensures |ys| == |xs| && forall i :: 0 <= i < |xs| ==> ys[i] == f(xs[i])
  {
    seq(|xs|, i requires 0 <= i < |xs| => f(xs[i]))
  }

  function EachValue<V>(m: map<string, V>, f: V -> V): map<string, V> {
    map t | t in m :: f(m[t])
  }

  lemma EachValueAt<V>(m: map<string, V>, f: V -> V, t: string)
    ensures t in EachValue(m, f) <==> t in m
    ensures t in m ==> EachValue(m, f)[t] == f(m[t])
  {}

  lemma EachPrefix<T>(xs: seq<T>, f: T -> T)
    requires xs != []
    ensures Each(xs, f)[..|xs| - 1] == Each(xs[..|xs| - 1], f)
  {}

  lemma EachAppend<T>(xs: seq<T>, x: T, f: T -> T)
    ensures Each(xs + [x], f) == Each(xs, f) + [f(x)]
  {}

  lemma EachValueInsert<V>(m: map<string, V>, f: V -> V, t: string, v: V)
    ensures EachValue(m[t := v], f) == EachValue(m, f)[t := f(v)]
  {}

  lemma EachValueRemove<V>(m: map<string, V>, f: V -> V, t: string)
    ensures EachValue(m - {t}, f) == EachValue(m, f) - {t}
  {}

  // ---- mirroring the replay's data ----

  /** The same trade of the opposite side. Prices and the win probability are of
      the side bought and stay; the raw probability is of YES and is complemented. */
  function MirrorDecision(d: Decision): Decision {
    d.(action := if d.action.BuyYes? then BuyNo else if d.action.BuyNo? then BuyYes else Hold,
       rawProbability := if d.rawProbability.Some? then Some(1.0 - d.rawProbability.value) else None)
  }

  function MirrorPending(p: PendingEntry): PendingEntry {
    p.(decision := MirrorDecision(p.decision), side := FlipSide(p.side))
  }

  function MirrorLevels(l: ExitLevels): ExitLevels { l.(side := FlipSide(l.side)) }

  function MirrorRow(row: TradeRow): TradeRow {
    row.(decision := MirrorDecision(row.decision), side := FlipSide(row.side))
  }

  function MirrorMarket(m: Market): Market { m.(resolution := FlipResolution(m.resolution)) }

  function MirrorArchive(a: Archive): Archive {
    a.(markets := Each(a.markets, MirrorMarket), candles := Each(a.candles, MirrorCandle))
  }

  function Complemented(p: real): real { 1.0 - p }

  function MirrorEngine(s: EngineState): EngineState {
    s.(broker := MirrorState(s.broker), pending := Each(s.pending, MirrorPending),
       exitLevels := EachValue(s.exitLevels, MirrorLevels), trades := EachValue(s.trades, MirrorRow),
       recorded := EachValue(s.recorded, Complemented))
  }

  function MirrorContext(ctx: Context): Context {
    ctx.(yesBid := Complement(ctx.yesAsk), yesAsk := Complement(ctx.yesBid))
  }

  /** The mirrored engine: the same parameters, a strategy that buys the other
      side of the mirrored market, and a sizer that does not look at the side. */
  ghost predicate Mirrors(cfg: EngineConfig, mirrored: EngineConfig) {
    && mirrored == cfg.(strategy := mirrored.strategy, size := mirrored.size)
    && (forall ctx: Context :: mirrored.strategy(MirrorContext(ctx)) == MirrorDecision(cfg.strategy(ctx)))
    && (forall d: Decision, cash: int :: mirrored.size(MirrorDecision(d), cash) == cfg.size(d, cash))
  }

  // ---- phases 1 and 2 ----

  lemma ClosedRowMirrored(row: TradeRow, x: Settlement, price: int, ts: int, status: TradeStatus)
    ensures ClosedRow(MirrorRow(row), MirrorSettlement(x), price, ts, status)
        == MirrorRow(ClosedRow(row, x, price, ts, status))
  {}

  lemma ExitOneMirrored(s: EngineState, c: Candle, ts: int)
    ensures ExitOne(MirrorEngine(s), MirrorCandle(c), ts) == MirrorEngine(ExitOne(s, c, ts))
  {
    hide CloseEarly, FixedRExitPrice, ClosedRow, MirrorState, Each, EachValue, MirrorRow;
    EachValueAt(s.exitLevels, MirrorLevels, c.ticker);
    if c.ticker in s.exitLevels {
      var levels := s.exitLevels[c.ticker];
      CandleMirrored(c, levels.side, levels.stop, levels.target, c.ticker, ts);
      var price := FixedRExitPrice(c, levels.side, levels.stop, levels.target);
      PositionMirrored(s.broker, c.ticker);
      if price.Some? && c.ticker in s.broker.positions {
        ClosedMirrored(s, c.ticker, price.value, ts);
      }
    }
  }

  lemma ClosedMirrored(s: EngineState, t: string, price: int, ts: int)
    requires t in s.broker.positions
    ensures t in MirrorState(s.broker).positions
    ensures CloseEarly(MirrorState(s.broker), t, price, ts) == MirrorState(CloseEarly(s.broker, t, price, ts))
    ensures EachValue(s.exitLevels - {t}, MirrorLevels) == EachValue(s.exitLevels, MirrorLevels) - {t}
    ensures t in EachValue(s.trades, MirrorRow) <==> t in s.trades
    ensures t in s.trades ==>
      EachValue(s.trades[t :=
          ClosedRow(s.trades[t], EarlyClose(t, s.broker.positions[t], price, ts), price, ts, ClosedEarly)], MirrorRow)
        == EachValue(s.trades, MirrorRow)[t := ClosedRow(EachValue(s.trades, MirrorRow)[t],
             EarlyClose(t, MirrorState(s.broker).positions[t], price, ts), price, ts, ClosedEarly)]
  {
    hide CloseEarly, MirrorState, EachValue, ClosedRow;
    PositionMirrored(s.broker, t);
    var x := EarlyClose(t, s.broker.positions[t], price, ts);
    assert EarlyClose(t, MirrorState(s.broker).positions[t], price, ts) == MirrorSettlement(x);
    CloseEarlyMirrored(s.broker, t, price, ts);
    EachValueRemove(s.exitLevels, MirrorLevels, t);
    EachValueAt(s.trades, MirrorRow, t);
    if t in s.trades {
      ClosedRowMirrored(s.trades[t], x, price, ts, ClosedEarly);
      EachValueInsert(s.trades, MirrorRow, t, ClosedRow(s.trades[t], x, price, ts, ClosedEarly));
    }
  }

  lemma PositionMirrored(b: BrokerState, t: string)
    ensures t in MirrorState(b).positions <==> t in b.positions
    ensures t in b.positions ==> MirrorState(b).positions[t] == MirrorPosition(b.positions[t])
    ensures MirrorState(b).cash == b.cash && |MirrorState(b).settlements| == |b.settlements|
    ensures b.settlements != [] ==>
      MirrorState(b).settlements[|b.settlements| - 1] == MirrorSettlement(b.settlements[|b.settlements| - 1])
  {}

  lemma {:induction false} ExitsMirrored(s: EngineState, candles: seq<Candle>, ts: int, k: nat)
    requires k <= |candles|
    ensures Exits(MirrorEngine(s), Each(candles, MirrorCandle), ts, k) == MirrorEngine(Exits(s, candles, ts, k))
  {
    hide ExitOne, MirrorEngine;
    if k > 0 {
      ExitsMirrored(s, candles, ts, k - 1);
      ExitOneMirrored(Exits(s, candles, ts, k - 1), candles[k - 1], ts);
    }
  }

  /** The trade rows after a settlement. */
  lemma SettledTradesMirrored(s: EngineState, m: Market, ts: int)
    ensures SettleOne(MirrorEngine(s), MirrorMarket(m), ts).trades == EachValue(SettleOne(s, m, ts).trades, MirrorRow)
  {
    hide Settle, ClosedRow, MirrorState, Each, EachValue;
    SettleMirrored(s.broker, m.ticker, m.resolution, ts);
    var broker := Settle(s.broker, m.ticker, m.resolution, ts);
    PositionMirrored(broker, m.ticker);
    EachValueAt(s.trades, MirrorRow, m.ticker);
    if m.ticker in s.trades && broker.settlements != [] {
      var x := broker.settlements[|broker.settlements| - 1];
      var status := if x.won then SettledWon else SettledLost;
      ClosedRowMirrored(s.trades[m.ticker], x, if x.won then 100 else 0, ts, status);
      EachValueInsert(s.trades, MirrorRow, m.ticker,
          ClosedRow(s.trades[m.ticker], x, if x.won then 100 else 0, ts, status));
    }
  }

  lemma SettleOneMirrored(s: EngineState, m: Market, ts: int)
    ensures SettleOne(MirrorEngine(s), MirrorMarket(m), ts) == MirrorEngine(SettleOne(s, m, ts))
  {
    hide Settle, ClosedRow, MirrorState, Each, EachValue, MirrorRow, MirrorLevels, FlipResolution;
    SettleMirrored(s.broker, m.ticker, m.resolution, ts);
    EachValueRemove(s.exitLevels, MirrorLevels, m.ticker);
    SettledTradesMirrored(s, m, ts);
  }

  lemma {:induction false} SettleAllMirrored(s: EngineState, closing: seq<Market>, ts: int, k: nat)
    requires k <= |closing|
    ensures SettleAll(MirrorEngine(s), Each(closing, MirrorMarket), ts, k) == MirrorEngine(SettleAll(s, closing, ts, k))
  {
    hide SettleOne, MirrorEngine;
    if k > 0 {
      SettleAllMirrored(s, closing, ts, k - 1);
      SettleOneMirrored(SettleAll(s, closing, ts, k - 1), closing[k - 1], ts);
    }
  }

  // ---- phase 3 ----

  lemma {:induction false} WithoutMirrored(pending: seq<PendingEntry>, ticker: string)
    ensures Without(Each(pending, MirrorPending), ticker) == Each(Without(pending, ticker), MirrorPending)
  {
    if pending != [] {
      EachPrefix(pending, MirrorPending);
      WithoutMirrored(pending[..|pending| - 1], ticker);
      EachAppend(Without(pending[..|pending| - 1], ticker), pending[|pending| - 1], MirrorPending);
    }
  }

  lemma {:induction false} CandleOfMirrored(candles: seq<Candle>, ticker: string)
    ensures CandleOf(Each(candles, MirrorCandle), ticker)
         == if CandleOf(candles, ticker).Some? then Some(MirrorCandle(CandleOf(candles, ticker).value)) else None
  {
    if candles != [] {
      EachPrefix(candles, MirrorCandle);
      CandleOfMirrored(candles[..|candles| - 1], ticker);
    }
  }

  lemma ExecuteMirrored(cfg: EngineConfig, mirrored: EngineConfig, s: EngineState, p: PendingEntry, c: Candle, ts: int)
    requires Mirrors(cfg, mirrored)
    ensures ExecutePending(mirrored, MirrorEngine(s), MirrorPending(p), MirrorCandle(c), ts)
         == (MirrorEngine(ExecutePending(cfg, s, p, c, ts).0), ExecutePending(cfg, s, p, c, ts).1)
  {
    hide Place, SetBar, Void, MirrorState, MirrorCandle, IsLiveQuote, BarOf, Each, EachValue;
    PositionMirrored(s.broker, p.ticker);
    CandleMirrored(c, p.side, 0, 0, p.ticker, ts);
    var quantity := cfg.size(p.decision, s.broker.cash);
    assert mirrored.size(MirrorDecision(p.decision), s.broker.cash) == quantity;
    if cfg.guardAllows(s.equity) && cfg.throttleAllows(s.entries, p.series, ts) && IsLiveQuote(c) && quantity > 0 {
      var bar := BarOf(p.ticker, c, ts);
      StepMirrored(cfg.broker, s.broker, ShowBar(bar));
      var shown := SetBar(s.broker, bar);
      var order := OrderRequest(p.ticker, p.side, quantity, None, Taker);
      PlaceMirrored(cfg.broker, shown, order);
      var (broker, result) := Place(cfg.broker, shown, order);
      StepMirrored(cfg.broker, broker, VoidFill(p.ticker));
      if result.Filled? && InBand(p.decision, result.price) {
        RecordsMirrored(s, p, result.quantity, result.price, ts);
      }
    }
  }

  lemma RecordsMirrored(s: EngineState, p: PendingEntry, quantity: int, price: int, ts: int)
    ensures var row := TradeRow(p.ticker, p.decidedTs, p.decision, p.side, quantity, price, ts, StillOpen, None);
            var mirrorRow := TradeRow(p.ticker, p.decidedTs, MirrorDecision(p.decision), FlipSide(p.side), quantity,
                price, ts, StillOpen, None);
            EachValue(s.trades[p.ticker := row], MirrorRow) == EachValue(s.trades, MirrorRow)[p.ticker := mirrorRow]
    ensures p.decision.stop.Some? && p.decision.target.Some? ==>
      EachValue(s.exitLevels[p.ticker := ExitLevels(p.decision.stop.value, p.decision.target.value, p.side)],
          MirrorLevels)
        == EachValue(s.exitLevels, MirrorLevels)[p.ticker :=
            ExitLevels(p.decision.stop.value, p.decision.target.value, FlipSide(p.side))]
  {}

  lemma DrainOneMirrored(
      cfg: EngineConfig, mirrored: EngineConfig, s: EngineState, p: PendingEntry, candles: seq<Candle>, ts: int)
    requires Mirrors(cfg, mirrored)
    ensures DrainOne(mirrored, MirrorEngine(s), MirrorPending(p), Each(candles, MirrorCandle), ts)
         == MirrorEngine(DrainOne(cfg, s, p, candles, ts))
  {
    hide ExecutePending, Mirrors, MirrorState, Each, EachValue, MirrorCandle, MirrorDecision;
    WithoutMirrored(s.pending, p.ticker);
    CandleOfMirrored(candles, p.ticker);
    var c := CandleOf(candles, p.ticker);
    if c.Some? {
      ExecuteMirrored(cfg, mirrored, s.(pending := Without(s.pending, p.ticker)), p, c.value, ts);
    }
  }

  lemma {:induction false} DrainMirrored(
      cfg: EngineConfig, mirrored: EngineConfig, s: EngineState, queue: seq<PendingEntry>, candles: seq<Candle>,
      ts: int, k: nat)
    requires Mirrors(cfg, mirrored) && k <= |queue|
    ensures Drain(mirrored, MirrorEngine(s), Each(queue, MirrorPending), Each(candles, MirrorCandle), ts, k)
         == MirrorEngine(Drain(cfg, s, queue, candles, ts, k))
  {
    hide DrainOne, MirrorEngine, Mirrors;
    if k > 0 {
      DrainMirrored(cfg, mirrored, s, queue, candles, ts, k - 1);
      DrainOneMirrored(cfg, mirrored, Drain(cfg, s, queue, candles, ts, k - 1), queue[k - 1], candles, ts);
    }
  }

  // ---- phase 4 ----

  lemma {:induction false} StakesMirrored(
      positions: map<string, OpenPosition>, mirrorPositions: map<string, OpenPosition>)
    requires mirrorPositions.Keys == positions.Keys
    requires forall t :: t in positions ==> mirrorPositions[t] == MirrorPosition(positions[t])
    ensures Sums.SumBy(mirrorPositions, StakeOf) == Sums.SumBy(positions, StakeOf)
    decreases |positions|
  {
    hide Sums.SumBy;
    if positions == map[] {
      assert mirrorPositions == map[];
    } else {
      var t :| t in positions;
      Sums.SumByRemove(positions, StakeOf, t);
      Sums.SumByRemove(mirrorPositions, StakeOf, t);
      StakesMirrored(positions - {t}, mirrorPositions - {t});
    }
  }

  lemma EquityMirrored(s: EngineState, ts: int)
    ensures MarkEquity(MirrorEngine(s), ts) == MirrorEngine(MarkEquity(s, ts))
  {
    StakesMirrored(s.broker.positions, MirrorState(s.broker).positions);
  }

  // ---- phase 5 ----

  lemma {:induction false} MarketOfMirrored(markets: seq<Market>, ticker: string)
    ensures MarketOf(Each(markets, MirrorMarket), ticker)
         == if MarketOf(markets, ticker).Some? then Some(MirrorMarket(MarketOf(markets, ticker).value)) else None
  {
    if markets != [] {
      EachPrefix(markets, MirrorMarket);
      MarketOfMirrored(markets[..|markets| - 1], ticker);
    }
  }

  lemma DecideMirrored(
      cfg: EngineConfig, mirrored: EngineConfig, a: Archive, m: Market, c: Candle, symbol: string, ts: int)
    requires Mirrors(cfg, mirrored)
    ensures Decide(mirrored, ContextAt(mirrored, MirrorArchive(a), MirrorMarket(m), MirrorCandle(c), symbol, ts))
         == MirrorDecision(Decide(cfg, ContextAt(cfg, a, m, c, symbol, ts)))
  {
    hide LatestBefore, HistoryBefore, LastBefore, WindowBefore, FeaturesBefore;
    assert ContextAt(mirrored, MirrorArchive(a), MirrorMarket(m), MirrorCandle(c), symbol, ts)
        == MirrorContext(ContextAt(cfg, a, m, c, symbol, ts));
  }

  lemma PendingMirrored(s: EngineState, ticker: string)
    ensures HasPending(Each(s.pending, MirrorPending), ticker) <==> HasPending(s.pending, ticker)
  {
    if HasPending(s.pending, ticker) {
      var i :| 0 <= i < |s.pending| && s.pending[i].ticker == ticker;
      assert Each(s.pending, MirrorPending)[i].ticker == ticker;
    }
    if HasPending(Each(s.pending, MirrorPending), ticker) {
      var i :| 0 <= i < |s.pending| && Each(s.pending, MirrorPending)[i].ticker == ticker;
      assert s.pending[i].ticker == ticker;
    }
  }

  lemma NotedMirrored(recorded: map<string, real>, ticker: string, d: Decision)
    ensures Noted(EachValue(recorded, Complemented), ticker, MirrorDecision(d))
         == EachValue(Noted(recorded, ticker, d), Complemented)
  {}

  lemma CandleKeepsTicker(c: Candle)
    ensures MirrorCandle(c).ticker == c.ticker
  {}

  lemma DecisionMirrored(d: Decision)
    ensures Queues(MirrorDecision(d)) <==> Queues(d)
    ensures Queues(d) ==> SideOf(MirrorDecision(d)) == FlipSide(SideOf(d))
  {}

  lemma AnsweredMirrored(s: EngineState, m: Market, d: Decision, ts: int)
    ensures Answered(MirrorEngine(s), MirrorMarket(m), MirrorDecision(d), ts) == MirrorEngine(Answered(s, m, d, ts))
  {
    hide Noted, Queues, SideOf, MirrorState, EachValue, Each, MirrorDecision;
    NotedMirrored(s.recorded, m.ticker, d);
    DecisionMirrored(d);
    EachAppend(s.pending, PendingEntry(m.ticker, m.series, ts, m.closeTs, d, SideOf(d)), MirrorPending);
  }

  lemma SameParameters(cfg: EngineConfig, mirrored: EngineConfig)
    requires Mirrors(cfg, mirrored)
    ensures mirrored.symbolOf == cfg.symbolOf && mirrored.evalStride == cfg.evalStride
  {}

  lemma SeenMirrored(s: EngineState, t: string, ts: int)
    ensures MirrorEngine(s).(lastEval := s.lastEval[t := ts]) == MirrorEngine(s.(lastEval := s.lastEval[t := ts]))
  {
    hide MirrorState, EachValue, Each;
  }

  lemma EvaluateOneMirrored(cfg: EngineConfig, mirrored: EngineConfig, a: Archive, s: EngineState, c: Candle, ts: int)
    requires Mirrors(cfg, mirrored)
    ensures EvaluateOne(mirrored, MirrorArchive(a), MirrorEngine(s), MirrorCandle(c), ts)
         == MirrorEngine(EvaluateOne(cfg, a, s, c, ts))
  {
    hide Mirrors, Decide, ContextAt, Answered, HasPending, MarketOf;
    hide MirrorState, EachValue, Each, MirrorDecision, MirrorCandle;
    SameParameters(cfg, mirrored);
    MarketOfMirrored(a.markets, c.ticker);
    CandleKeepsTicker(c);
    PendingMirrored(s, c.ticker);
    var found := MarketOf(a.markets, c.ticker);
    if found.Some? {
      var m := found.value;
      SeenMirrored(s, m.ticker, ts);
      if m.series in cfg.symbolOf {
        var symbol := cfg.symbolOf[m.series];
        var d := Decide(cfg, ContextAt(cfg, a, m, c, symbol, ts));
        DecideMirrored(cfg, mirrored, a, m, c, symbol, ts);
        AnsweredMirrored(s.(lastEval := s.lastEval[m.ticker := ts]), m, d, ts);
      }
    }
  }

  lemma {:induction false} EvaluateMirrored(
      cfg: EngineConfig, mirrored: EngineConfig, a: Archive, s: EngineState, candles: seq<Candle>, ts: int, k: nat)
    requires Mirrors(cfg, mirrored) && k <= |candles|
    ensures Evaluate(mirrored, MirrorArchive(a), MirrorEngine(s), Each(candles, MirrorCandle), ts, k)
         == MirrorEngine(Evaluate(cfg, a, s, candles, ts, k))
  {
    hide EvaluateOne, MirrorEngine, MirrorArchive, Mirrors;
    if k > 0 {
      EvaluateMirrored(cfg, mirrored, a, s, candles, ts, k - 1);
      EvaluateOneMirrored(cfg, mirrored, a, Evaluate(cfg, a, s, candles, ts, k - 1), candles[k - 1], ts);
    }
  }

  // ---- the run ----

  lemma {:induction false} CandlesAtMirrored(candles: seq<Candle>, ts: int)
    ensures CandlesAt(Each(candles, MirrorCandle), ts) == Each(CandlesAt(candles, ts), MirrorCandle)
  {
    if candles != [] {
      EachPrefix(candles, MirrorCandle);
      CandlesAtMirrored(candles[..|candles| - 1], ts);
      EachAppend(CandlesAt(candles[..|candles| - 1], ts), candles[|candles| - 1], MirrorCandle);
    }
  }

  lemma {:induction false} ClosingAtMirrored(markets: seq<Market>, ts: int)
    ensures ClosingAt(Each(markets, MirrorMarket), ts) == Each(ClosingAt(markets, ts), MirrorMarket)
  {
    if markets != [] {
      EachPrefix(markets, MirrorMarket);
      ClosingAtMirrored(markets[..|markets| - 1], ts);
      EachAppend(ClosingAt(markets[..|markets| - 1], ts), markets[|markets| - 1], MirrorMarket);
    }
  }

  lemma StepMirrors(cfg: EngineConfig, mirrored: EngineConfig, a: Archive, s: EngineState, ts: int)
    requires Mirrors(cfg, mirrored)
    ensures Step(mirrored, MirrorArchive(a), MirrorEngine(s), ts) == MirrorEngine(Step(cfg, a, s, ts))
  {
    hide Exits, SettleAll, Drain, Evaluate, MarkEquity, MirrorState, EachValue, Mirrors;
    var candles, closing := CandlesAt(a.candles, ts), ClosingAt(a.markets, ts);
    CandlesAtMirrored(a.candles, ts);
    ClosingAtMirrored(a.markets, ts);
    var exited := Exits(s, candles, ts, |candles|);
    var settled := SettleAll(exited, closing, ts, |closing|);
    var drained := Drain(cfg, settled, settled.pending, candles, ts, |settled.pending|);
    ExitsMirrored(s, candles, ts, |candles|);
    SettleAllMirrored(exited, closing, ts, |closing|);
    DrainMirrored(cfg, mirrored, settled, settled.pending, candles, ts, |settled.pending|);
    EquityMirrored(drained, ts);
    EvaluateMirrored(cfg, mirrored, a, MarkEquity(drained, ts), candles, ts, |candles|);
  }

  lemma SameEventTimes(a: Archive, b: Archive, t: int)
    requires |a.candles| == |b.candles| && forall i :: 0 <= i < |a.candles| ==> a.candles[i].ts == b.candles[i].ts
    requires |a.markets| == |b.markets| && forall i :: 0 <= i < |a.markets| ==>
        a.markets[i].closeTs == b.markets[i].closeTs
    requires t in EventTimes(a)
    ensures t in EventTimes(b)
  {
    if c :| c in a.candles && c.ts == t {
      var i :| 0 <= i < |a.candles| && a.candles[i] == c;
      assert b.candles[i] in b.candles;
    } else {
      var m :| m in a.markets && m.closeTs == t;
      var i :| 0 <= i < |a.markets| && a.markets[i] == m;
      assert b.markets[i] in b.markets;
    }
  }

  lemma TimelineMirrored(a: Archive, timeline: seq<int>)
    requires IsTimeline(a, timeline)
    ensures IsTimeline(MirrorArchive(a), timeline)
  {
    hide EventTimes;
    var b := MirrorArchive(a);
    forall t ensures t in EventTimes(b) <==> t in EventTimes(a) {
      if t in EventTimes(a) { SameEventTimes(a, b, t); }
      if t in EventTimes(b) { SameEventTimes(b, a, t); }
    }
  }

  /** Mirror symmetry of whole runs: the mirrored engine on the mirrored archive
      visits the same times, holds the mirrored records after each, and has the
      same cash, entry times and equity curve throughout. */
  lemma {:induction false} ReplayMirrored(
      cfg: EngineConfig, mirrored: EngineConfig, a: Archive, startingCash: int, timeline: seq<int>, k: nat)
    requires Mirrors(cfg, mirrored) && IsTimeline(a, timeline) && k <= |timeline|
    ensures IsTimeline(MirrorArchive(a), timeline)
    ensures var run, mirror :=
        Replay(cfg, a, startingCash, timeline, k), Replay(mirrored, MirrorArchive(a), startingCash, timeline, k);
      && mirror == MirrorEngine(run)
      && mirror.broker.cash == run.broker.cash && mirror.equity == run.equity && mirror.entryTs == run.entryTs
  {
    hide Step, Mirrors, IsTimeline;
    TimelineMirrored(a, timeline);
    if k > 0 {
      ReplayMirrored(cfg, mirrored, a, startingCash, timeline, k - 1);
      StepMirrors(cfg, mirrored, a, Replay(cfg, a, startingCash, timeline, k - 1), timeline[k - 1]);
    }
  }
}
