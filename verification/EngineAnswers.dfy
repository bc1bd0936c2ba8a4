/** What each step of the replay answers, said of candles, rows and figures: what is
    selected, what a strategy is shown, when a decision is queued, when a queued entry
    is filled and at what, and when a position is closed. */
module EngineAnswers {
  import opened Wrappers
  import opened Broker
  import opened BrokerLaws
  import opened Slices
  import opened Engine
  import opened EngineExits

  // ---- what is selected, in load order ----

  /** The candles of a timestamp: each of its own, in order, and no other. */
  lemma {:induction false} CandlesAtKeepsOrder(front: seq<Candle>, rest: seq<Candle>, c: Candle, ts: int)
    ensures CandlesAt(front + rest, ts) == CandlesAt(front, ts) + CandlesAt(rest, ts)
    ensures CandlesAt([c], ts) == if c.ts == ts then [c] else []
  {
    hide CandlesAt;
    CandleNext([], c, ts);
    assert [] + [c] == [c];
    if rest == [] {
      assert front + rest == front;
    } else {
      var init, last := rest[..|rest| - 1], rest[|rest| - 1];
      CandlesAtKeepsOrder(front, init, c, ts);
      CandleNext(init, last, ts);
      CandleNext(front + init, last, ts);
      assert rest == init + [last] && front + rest == (front + init) + [last];
    }
  }

  lemma {:induction false} ClosingAtKeepsOrder(front: seq<Market>, rest: seq<Market>, m: Market, ts: int)
    ensures ClosingAt(front + rest, ts) == ClosingAt(front, ts) + ClosingAt(rest, ts)
    ensures ClosingAt([m], ts) == if m.closeTs == ts then [m] else []
  {
    hide ClosingAt;
    ClosingNext([], m, ts);
    assert [] + [m] == [m];
    if rest == [] {
      assert front + rest == front;
    } else {
      var init, last := rest[..|rest| - 1], rest[|rest| - 1];
      ClosingAtKeepsOrder(front, init, m, ts);
      ClosingNext(init, last, ts);
      ClosingNext(front + init, last, ts);
      assert rest == init + [last] && front + rest == (front + init) + [last];
    }
  }

  lemma CandleNext(front: seq<Candle>, c: Candle, ts: int)
    ensures CandlesAt(front + [c], ts)
         == CandlesAt(front, ts)
            + (if c.ts == ts then [c] else [])
    ensures CandlesAt([], ts) == []
  {
    assert (front + [c])[..|front|] == front;
  }

  lemma ClosingNext(front: seq<Market>, m: Market, ts: int)
    ensures ClosingAt(front + [m], ts)
         == ClosingAt(front, ts)
            + (if m.closeTs == ts then [m] else [])
    ensures ClosingAt([], ts) == []
  {
    assert (front + [m])[..|front|] == front;
  }

  lemma FeatureNext(front: seq<Row<Feature>>, f: Row<Feature>, asset: Option<string>, ts: int)
    ensures FeaturesBefore(front + [f], asset, ts)
         == FeaturesBefore(front, asset, ts)
            + (if asset.Some? && f.value.asset == asset.value && f.value.available && f.key <= ts then [f.value]
               else [])
    ensures FeaturesBefore([], asset, ts) == []
  {
    assert (front + [f])[..|front|] == front;
  }

  /** The features of an asset: the available ones known by `ts`, in order. */
  lemma {:induction false} FeaturesKeepOrder(
      front: seq<Row<Feature>>, rest: seq<Row<Feature>>, f: Row<Feature>, asset: Option<string>, ts: int)
    ensures FeaturesBefore(front + rest, asset, ts)
        == FeaturesBefore(front, asset, ts) + FeaturesBefore(rest, asset, ts)
    ensures FeaturesBefore([f], asset, ts)
         == if asset.Some? && f.value.asset == asset.value && f.value.available && f.key <= ts then [f.value] else []
  {
    hide FeaturesBefore;
    FeatureNext([], f, asset, ts);
    assert [] + [f] == [f];
    if rest == [] {
      assert front + rest == front;
    } else {
      var init, last := rest[..|rest| - 1], rest[|rest| - 1];
      FeaturesKeepOrder(front, init, f, asset, ts);
      FeatureNext(init, last, asset, ts);
      FeatureNext(front + init, last, asset, ts);
      assert rest == init + [last] && front + rest == (front + init) + [last];
    }
  }

  /** The out-of-sample segment holds what was entered from the split on, the other
      what was entered before it, both in the order of settlement. */
  lemma {:induction false} SegmentKeepsOrder(
      front: seq<Settlement>, rest: seq<Settlement>, x: Settlement, entryTs: map<string, int>, splitTs: int, test: bool)
    ensures Segment(front + rest, entryTs, splitTs, test)
         == Segment(front, entryTs, splitTs, test) + Segment(rest, entryTs, splitTs, test)
    ensures Segment([x], entryTs, splitTs, test)
         == if x.ticker !in entryTs then []
            else if test then (if splitTs <= entryTs[x.ticker] then [x] else [])
            else if entryTs[x.ticker] < splitTs then [x] else []
  {
    hide Segment;
    SettledNext([], x, entryTs, splitTs, test);
    assert [] + [x] == [x];
    if rest == [] {
      assert front + rest == front;
    } else {
      var init, last := rest[..|rest| - 1], rest[|rest| - 1];
      SegmentKeepsOrder(front, init, x, entryTs, splitTs, test);
      SettledNext(init, last, entryTs, splitTs, test);
      SettledNext(front + init, last, entryTs, splitTs, test);
      assert rest == init + [last] && front + rest == (front + init) + [last];
    }
  }

  lemma SettledNext(front: seq<Settlement>, x: Settlement, entryTs: map<string, int>, splitTs: int, test: bool)
    ensures Segment(front + [x], entryTs, splitTs, test)
         == Segment(front, entryTs, splitTs, test)
            + (if x.ticker !in entryTs then []
                else if test then (if splitTs <= entryTs[x.ticker] then [x] else [])
                else if entryTs[x.ticker] < splitTs then [x] else [])
    ensures Segment([], entryTs, splitTs, test) == []
  {
    assert (front + [x])[..|front|] == front;
  }

  // ---- what a strategy is shown ----

  /** The value of the last row usable at `ts`, none when there is none. */
  ghost predicate ShowsLatest(rows: seq<Row<real>>, ts: int, shown: Option<real>) {
    match shown
    case None => forall i :: 0 <= i < |rows| ==> ts < rows[i].key
    case Some(v) => exists i :: IsLatest(rows, ts, i) && rows[i].value == v
  }

  /** Exactly the rows before `ts`. */
  predicate ShowsHistory<V(==)>(rows: seq<Row<V>>, ts: int, shown: seq<Row<V>>) {
    shown <= rows && forall i :: 0 <= i < |rows| ==> (i < |shown| <==> rows[i].key < ts)
  }

  /** The last `count` rows before `ts`, or all when there are fewer. */
  ghost predicate ShowsLast<V(!new)>(rows: seq<Row<V>>, ts: int, count: nat, shown: seq<Row<V>>) {
    exists history ::
      ShowsHistory(rows, ts, history) && |shown| == (if |history| < count then |history| else count)
      && shown == history[|history| - |shown|..]
  }

  /** The contiguous rows keyed within `window` of `ts`, `ts` included. */
  ghost predicate ShowsWindow<V>(rows: seq<Row<V>>, ts: int, window: nat, shown: seq<Row<V>>) {
    exists lo, hi :: 0 <= lo <= hi <= |rows| && shown == rows[lo..hi]
      && forall i :: 0 <= i < |rows| ==> (lo <= i < hi <==> ts - window <= rows[i].key <= ts)
  }

  /** What a strategy sees of a market at `ts`: its listing, the closing quotes of the
      candle, and the features known by then (see `FeaturesKeepOrder`). */
  lemma ContextNames(cfg: EngineConfig, a: Archive, m: Market, c: Candle, symbol: string, ts: int)
    ensures var shown := ContextAt(cfg, a, m, c, symbol, ts);
      && shown.ticker == m.ticker && shown.series == m.series && shown.strike == m.strike
      && shown.nowTs == ts && shown.closeTs == m.closeTs
      && shown.yesBid == c.yesBidClose && shown.yesAsk == c.yesAskClose
      && shown.features ==
           FeaturesBefore(a.features, if symbol in cfg.assetOf then Some(cfg.assetOf[symbol]) else None, ts)
  {}

  /** Its spot price is that of the last hourly bar usable now, and the one it is
      compared with that of the last usable a lookback earlier. */
  lemma ContextShowsSpot(cfg: EngineConfig, a: Archive, m: Market, c: Candle, symbol: string, ts: int)
    requires Sorted(SeriesOf(a.spotHourly, symbol))
    ensures var shown := ContextAt(cfg, a, m, c, symbol, ts);
      && ShowsLatest(SeriesOf(a.spotHourly, symbol), ts, shown.spot)
      && ShowsLatest(SeriesOf(a.spotHourly, symbol), ts - cfg.trendLookback, shown.spotThen)
  {
    hide LatestBefore, HistoryBefore, LastBefore, WindowBefore, FeaturesBefore;
    LatestIsShown(SeriesOf(a.spotHourly, symbol), ts);
    LatestIsShown(SeriesOf(a.spotHourly, symbol), ts - cfg.trendLookback);
  }

  /** Its daily closes are all that came before now, and its bars the last of them. */
  lemma ContextShowsBars(cfg: EngineConfig, a: Archive, m: Market, c: Candle, symbol: string, ts: int)
    requires Sorted(SeriesOf(a.spotDaily, symbol)) && Sorted(SeriesOf(a.spotBars, symbol))
    ensures ShowsHistory(SeriesOf(a.spotDaily, symbol), ts, ContextAt(cfg, a, m, c, symbol, ts).daily)
    ensures ShowsLast(SeriesOf(a.spotBars, symbol), ts, cfg.spotBarWindow, ContextAt(cfg, a, m, c, symbol, ts).bars)
  {
    hide LatestBefore, HistoryBefore, LastBefore, WindowBefore, FeaturesBefore, ShowsLast, ShowsHistory;
    HistoryIsShown(SeriesOf(a.spotDaily, symbol), ts, 0);
    HistoryIsShown(SeriesOf(a.spotBars, symbol), ts, cfg.spotBarWindow);
  }

  /** Its index readings are those usable within the last half hour. */
  lemma ContextShowsIndex(cfg: EngineConfig, a: Archive, m: Market, c: Candle, symbol: string, ts: int)
    requires Sorted(a.brti)
    ensures ShowsWindow(a.brti, ts, 1800, ContextAt(cfg, a, m, c, symbol, ts).brti)
  {
    hide LatestBefore, HistoryBefore, LastBefore, WindowBefore, FeaturesBefore, ShowsWindow;
    WindowIsShown(a.brti, ts, 1800);
  }

  lemma LatestIsShown(rows: seq<Row<real>>, ts: int)
    requires Sorted(rows)
    ensures ShowsLatest(rows, ts, LatestBefore(rows, ts))
  {
    hide LatestBefore;
    LatestBeforeIs(rows, ts);
  }

  lemma HistoryIsShown<V(!new)>(rows: seq<Row<V>>, ts: int, count: nat)
    requires Sorted(rows)
    ensures ShowsHistory(rows, ts, HistoryBefore(rows, ts)) && ShowsLast(rows, ts, count, LastBefore(rows, ts, count))
  {
    HistoryHoldsEarlierRows(rows, ts);
    LastBeforeEndsHistory(rows, ts, count);
    hide HistoryBefore, LastBefore;
    assert ShowsHistory(rows, ts, HistoryBefore(rows, ts));
  }

  lemma WindowIsShown<V>(rows: seq<Row<V>>, ts: int, window: nat)
    requires Sorted(rows)
    ensures ShowsWindow(rows, ts, window, WindowBefore(rows, ts, window))
  {
    hide WindowBefore;
    WindowHoldsUsableRows(rows, ts, window);
  }

  /** A strategy decides, except that a run which requires aligned sources holds when
      it has no feature or one that is not aligned. */
  lemma DecidesIff(cfg: EngineConfig, ctx: Context)
    ensures var aligned := ctx.features != [] && forall i :: 0 <= i < |ctx.features| ==> ctx.features[i].aligned;
      if cfg.requireAlignment && !aligned
      then Decide(cfg, ctx) == Decision(Hold, None, None, None, None, None, None, None)
      else Decide(cfg, ctx) == cfg.strategy(ctx)
  {}

  // ---- when a decision is queued ----

  /** The market can be evaluated with this candle. */
  predicate Evaluable(cfg: EngineConfig, s: EngineState, m: Market, ts: int) {
    && ts < m.closeTs && m.ticker !in s.entryTs
    && (forall i :: 0 <= i < |s.pending| ==> s.pending[i].ticker != m.ticker)
    && (m.ticker in s.lastEval ==> ts - s.lastEval[m.ticker] >= cfg.evalStride)
  }

  /** A buy with a probability between nought and one and an entry price. */
  predicate Buys(d: Decision) {
    && (d.action == BuyYes || d.action == BuyNo) && d.entryPrice.Some?
    && d.fairProbability.Some? && 0.0 <= d.fairProbability.value && d.fairProbability.value <= 1.0
  }

  /** An evaluable market is evaluated and nothing else is. What its strategy answers is
      queued exactly when it buys, for the side it buys; a raw probability that comes
      with a buy goes on record; and nothing but that changes. */
  lemma EvaluatesIff(cfg: EngineConfig, a: Archive, s: EngineState, c: Candle, ts: int)
    ensures var found := MarketOf(a.markets, c.ticker);
      var after := EvaluateOne(cfg, a, s, c, ts);
      if found.None? || !Evaluable(cfg, s, found.value, ts) then after == s
      else
        var m := found.value;
        if m.series !in cfg.symbolOf then after == s.(lastEval := s.lastEval[m.ticker := ts])
        else
          var d := Decide(cfg, ContextAt(cfg, a, m, c, cfg.symbolOf[m.series], ts));
          && after.lastEval == s.lastEval[m.ticker := ts]
          && after.pending == (if Buys(d) then
               s.pending + [PendingEntry(m.ticker, m.series, ts, m.closeTs, d, if d.action == BuyYes then Yes else No)]
               else s.pending)
          && after.recorded == (if d.action != Hold && d.rawProbability.Some?
                                then s.recorded[m.ticker := d.rawProbability.value] else s.recorded)
          && after == s.(lastEval := after.lastEval, pending := after.pending, recorded := after.recorded)
  {
    hide ContextAt, Decide;
  }

  // ---- when a queued entry is filled ----

  /** Two-sided, inside 1..99, with open interest behind it. */
  predicate Live(c: Candle) {
    && c.openInterest > 0 && c.yesBidClose.Some? && c.yesAskClose.Some?
    && 1 <= c.yesBidClose.value && c.yesBidClose.value <= 99
    && 1 <= c.yesAskClose.value && c.yesAskClose.value <= 99
  }

  predicate Banded(d: Decision, price: int) {
    !(d.minEntry.Some? && price < d.minEntry.value) && !(d.maxEntry.Some? && d.maxEntry.value < price)
  }

  /** The gates before any order is sent. */
  predicate GatesOpen(cfg: EngineConfig, s: EngineState, p: PendingEntry, c: Candle, ts: int) {
    && cfg.guardAllows(s.equity) && cfg.throttleAllows(s.entries, p.series, ts)
    && Live(c) && cfg.size(p.decision, s.broker.cash) > 0
  }

  /** The fill the broker would give on this candle, for the size and the cash there are. */
  predicate FillOn(cfg: EngineConfig, s: EngineState, p: PendingEntry, c: Candle, ts: int, fill: Fill)
    requires cfg.size(p.decision, s.broker.cash) > 0
  {
    CanFill(cfg.broker,
            MarketBar(p.ticker, ts, c.yesBidLow, c.yesBidClose, c.yesAskHigh, c.yesAskClose, c.volume),
            s.broker.cash, OrderRequest(p.ticker, p.side, cfg.size(p.decision, s.broker.cash), None, Taker), fill)
  }

  /** A queued entry is entered exactly when the guard allows the equity curve of the
      moment and the throttle its entries, the quote is live, there is a size, the
      market is not held, and the broker fills it inside its band. */
  lemma EntersIff(cfg: EngineConfig, s: EngineState, p: PendingEntry, c: Candle, ts: int)
    ensures ExecutePending(cfg, s, p, c, ts).1.Entered? <==>
      && GatesOpen(cfg, s, p, c, ts) && p.ticker !in s.broker.positions
      && exists fill :: FillOn(cfg, s, p, c, ts, fill) && Banded(p.decision, fill.price)
  {
    hide Place, CanFill;
    if GatesOpen(cfg, s, p, c, ts) {
      var shown := SetBar(s.broker, BarOf(p.ticker, c, ts));
      var order := OrderRequest(p.ticker, p.side, cfg.size(p.decision, s.broker.cash), None, Taker);
      FillsIff(cfg.broker, shown, order);
      forall fill | FillOn(cfg, s, p, c, ts, fill) && p.ticker !in s.broker.positions
        ensures Place(cfg.broker, shown, order).1
            == OrderResult.Filled(shown.nextOrderId, fill.quantity, fill.price, ts)
      {
        FillIsBooked(cfg.broker, shown, order, fill);
      }
      if Place(cfg.broker, shown, order).1.Filled? {
        var fill :| CanFill(cfg.broker, shown.bars[p.ticker], s.broker.cash, order, fill);
        assert FillOn(cfg, s, p, c, ts, fill);
      }
    }
  }

  /** What an entry leaves: the fill paid for and held, and its time, levels and trade
      row on record. */
  lemma EntryIsBooked(cfg: EngineConfig, s: EngineState, p: PendingEntry, c: Candle, ts: int, fill: Fill)
    requires GatesOpen(cfg, s, p, c, ts) && p.ticker !in s.broker.positions
    requires FillOn(cfg, s, p, c, ts, fill) && Banded(p.decision, fill.price)
    ensures var (after, outcome) := ExecutePending(cfg, s, p, c, ts);
      && outcome == Entered
      && after.broker.cash == s.broker.cash - (fill.price * fill.quantity + fill.fee)
      && after.broker.positions ==
           s.broker.positions[p.ticker := OpenPosition(p.side, fill.quantity, fill.price, ts, fill.fee)]
      && after.broker.settlements == s.broker.settlements
      && after.entryTs == s.entryTs[p.ticker := ts]
      && after.exitLevels == (if p.decision.stop.Some? && p.decision.target.Some?
           then s.exitLevels[p.ticker := ExitLevels(p.decision.stop.value, p.decision.target.value, p.side)]
           else s.exitLevels)
      && after.trades == s.trades[p.ticker := TradeRow(p.ticker, p.decidedTs, p.decision, p.side, fill.quantity,
                                                       fill.price, ts, StillOpen, None)]
      && after == s.(broker := after.broker, entryTs := after.entryTs, exitLevels := after.exitLevels,
                     trades := after.trades)
  {
    hide Place, CanFill;
    var shown := SetBar(s.broker, BarOf(p.ticker, c, ts));
    var order := OrderRequest(p.ticker, p.side, cfg.size(p.decision, s.broker.cash), None, Taker);
    FillIsBooked(cfg.broker, shown, order, fill);
  }

  /** What a refusal leaves: the same books and records, whatever the reason. A dead
      quote is named when guard and throttle allow, a band when the fill is outside it. */
  lemma RefusalLeaves(cfg: EngineConfig, s: EngineState, p: PendingEntry, c: Candle, ts: int)
    requires !ExecutePending(cfg, s, p, c, ts).1.Entered? && p.ticker !in s.broker.positions
    ensures var (after, outcome) := ExecutePending(cfg, s, p, c, ts);
      && after.broker.cash == s.broker.cash && after.broker.positions == s.broker.positions
      && after.broker.settlements == s.broker.settlements && after == s.(broker := after.broker)
      && (outcome == DeadQuote <==>
            cfg.guardAllows(s.equity) && cfg.throttleAllows(s.entries, p.series, ts) && !Live(c))
      && (outcome == RejectedBand <==>
            GatesOpen(cfg, s, p, c, ts) && exists fill :: FillOn(cfg, s, p, c, ts, fill))
  {
    hide Place, CanFill, Void;
    if GatesOpen(cfg, s, p, c, ts) {
      var shown := SetBar(s.broker, BarOf(p.ticker, c, ts));
      var order := OrderRequest(p.ticker, p.side, cfg.size(p.decision, s.broker.cash), None, Taker);
      FillsIff(cfg.broker, shown, order);
      PlaceThenVoid(cfg.broker, shown, order);
      if fill :| FillOn(cfg, s, p, c, ts, fill) { FillIsBooked(cfg.broker, shown, order, fill); }
      if Place(cfg.broker, shown, order).1.Filled? {
        var fill :| CanFill(cfg.broker, shown.bars[p.ticker], s.broker.cash, order, fill);
        assert FillOn(cfg, s, p, c, ts, fill);
      }
      if Place(cfg.broker, shown, order).1.Rejected? { RefusedBecause(cfg.broker, shown, order); }
    }
  }

  /** A queued entry expires when its market has closed, waits while its market has no
      candle, and otherwise leaves the queue and is executed against that candle; what
      enters is shown to the throttle from then on. */
  lemma DrainsIff(cfg: EngineConfig, s: EngineState, p: PendingEntry, candles: seq<Candle>, ts: int)
    ensures var waiting := Without(s.pending, p.ticker);
      var after := DrainOne(cfg, s, p, candles, ts);
      if p.closeTs <= ts then after == s.(pending := waiting)
      else if forall i :: 0 <= i < |candles| ==> candles[i].ticker != p.ticker then after == s
      else exists c :: c in candles && c.ticker == p.ticker
             && var (executed, outcome) := ExecutePending(cfg, s.(pending := waiting), p, c, ts);
                after == if outcome == Entered then executed.(entries := executed.entries + [(p.series, ts)])
                    else executed
  {
    hide ExecutePending;
    var c := CandleOf(candles, p.ticker);
    if c.Some? { assert c.value in candles; }
  }

  /** The rest of the queue, in order. */
  lemma {:induction false} WithoutKeepsOrder(
      front: seq<PendingEntry>, rest: seq<PendingEntry>, p: PendingEntry, ticker: string)
    ensures Without(front + rest, ticker) == Without(front, ticker) + Without(rest, ticker)
    ensures Without([p], ticker) == if p.ticker == ticker then [] else [p]
  {
    hide Without;
    QueuedNext([], p, ticker);
    assert [] + [p] == [p];
    if rest == [] {
      assert front + rest == front;
    } else {
      var init, last := rest[..|rest| - 1], rest[|rest| - 1];
      WithoutKeepsOrder(front, init, p, ticker);
      QueuedNext(init, last, ticker);
      QueuedNext(front + init, last, ticker);
      assert rest == init + [last] && front + rest == (front + init) + [last];
    }
  }

  lemma QueuedNext(front: seq<PendingEntry>, p: PendingEntry, ticker: string)
    ensures Without(front + [p], ticker)
         == Without(front, ticker)
            + (if p.ticker == ticker then [] else [p])
    ensures Without([], ticker) == []
  {
    assert (front + [p])[..|front|] == front;
  }

  // ---- when a position is closed at a level ----

  /** The candle traded, and its range in the price of the side held reaches the level. */
  predicate ReachesStop(c: Candle, side: Side, stop: int) {
    c.priceHigh.Some? && c.priceLow.Some? && HeldLow(c, side) <= stop
  }

  predicate ReachesTarget(c: Candle, side: Side, target: int) {
    c.priceHigh.Some? && c.priceLow.Some? && target <= HeldHigh(c, side)
  }

  /** A held market is closed at one of its levels exactly when a candle of it reaches
      one: at the stop when it reaches the stop, else at the target. */
  lemma ClosesIff(s: EngineState, c: Candle, ts: int)
    ensures var after := ExitOne(s, c, ts);
      if c.ticker in s.exitLevels && c.ticker in s.broker.positions
         && (ReachesStop(c, s.exitLevels[c.ticker].side, s.exitLevels[c.ticker].stop)
             || ReachesTarget(c, s.exitLevels[c.ticker].side, s.exitLevels[c.ticker].target))
      then
        var levels := s.exitLevels[c.ticker];
        var price := if ReachesStop(c, levels.side, levels.stop) then levels.stop else levels.target;
        && after.broker == CloseEarly(s.broker, c.ticker, price, ts)
        && after.exitLevels == s.exitLevels - {c.ticker}
        && |after.broker.settlements| == |s.broker.settlements| + 1
        && var x := after.broker.settlements[|s.broker.settlements|];
        && after.trades == (if c.ticker !in s.trades then s.trades
             else s.trades[c.ticker := s.trades[c.ticker].(status := ClosedEarly,
                    exit := Some(ExitRecord(ts, price, x.gross, x.entryFee, x.exitFee, x.net)))])
        && after == s.(broker := after.broker, exitLevels := after.exitLevels, trades := after.trades)
      else after == s
  {}

  /** A market that closes is settled by its result, its levels are dropped, and its
      open trade row takes the settlement's numbers. */
  lemma SettlesTo(s: EngineState, m: Market, ts: int)
    requires m.ticker in s.broker.positions
    ensures var after := SettleOne(s, m, ts);
      && after.broker == Settle(s.broker, m.ticker, m.resolution, ts)
      && after.exitLevels == s.exitLevels - {m.ticker}
      && |after.broker.settlements| == |s.broker.settlements| + 1
      && var x := after.broker.settlements[|s.broker.settlements|];
      && after.trades == (if m.ticker in s.trades && s.trades[m.ticker].status == StillOpen then
           s.trades[m.ticker := s.trades[m.ticker].(
             status := if x.won then SettledWon else SettledLost,
             exit := Some(ExitRecord(ts, if x.won then 100 else 0, x.gross, x.entryFee, x.exitFee, x.net)))]
           else s.trades)
      && after == s.(broker := after.broker, exitLevels := after.exitLevels, trades := after.trades)
  {}
}
