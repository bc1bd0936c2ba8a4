/** No look-ahead: what the replay has done by a given time does not depend on
    anything the archive holds about later times. */
module EngineCausality {
  import opened Wrappers
  import opened Slices
  import opened Engine

  /** The candles that end at or before `limit`, in their order. */
  function CandlesUpTo(candles: seq<Candle>, limit: int): seq<Candle> {
    if candles == [] then []
    else
      var rest := CandlesUpTo(candles[..|candles| - 1], limit);
      if candles[|candles| - 1].ts <= limit then rest + [candles[|candles| - 1]] else rest
  }

  /** The same market, with the same result if it has closed by `limit`. */
  predicate SameListing(m: Market, n: Market, limit: int) {
    && m.ticker == n.ticker && m.series == n.series && m.closeTs == n.closeTs && m.strike == n.strike
    && (m.closeTs <= limit ==> m.resolution == n.resolution)
  }

  predicate SameListings(a: seq<Market>, b: seq<Market>, limit: int) {
    |a| == |b| && forall i :: 0 <= i < |a| ==> SameListing(a[i], b[i], limit)
  }

  /** Two archives that hold the same markets and agree on every candle, spot
      row, index reading and feature keyed at or before `limit`, and on the
      results of the markets closed by then. Anything later may differ. */
  ghost predicate SamePast(a: Archive, b: Archive, limit: int) {
    && SameListings(a.markets, b.markets, limit)
    && CandlesUpTo(a.candles, limit) == CandlesUpTo(b.candles, limit)
    && (forall y: string :: AgreeUpTo(SeriesOf(a.spotHourly, y), SeriesOf(b.spotHourly, y), limit))
    && (forall y: string :: AgreeUpTo(SeriesOf(a.spotDaily, y), SeriesOf(b.spotDaily, y), limit))
    && (forall y: string :: AgreeUpTo(SeriesOf(a.spotBars, y), SeriesOf(b.spotBars, y), limit))
    && AgreeUpTo(a.brti, b.brti, limit)
    && KeyedUpTo(a.features, limit) == KeyedUpTo(b.features, limit)
  }

  // ---- candles and markets at one timestamp ----

  lemma {:induction false} CandlesAtFromPast(candles: seq<Candle>, limit: int, ts: int)
    requires ts <= limit
    ensures CandlesAt(CandlesUpTo(candles, limit), ts) == CandlesAt(candles, ts)
  {
    if candles != [] {
      var front, last := candles[..|candles| - 1], candles[|candles| - 1];
      CandlesAtFromPast(front, limit, ts);
      if last.ts <= limit {
        var past := CandlesUpTo(front, limit);
        assert (past + [last])[..|past|] == past;
      }
    }
  }

  lemma SameCandles(a: Archive, b: Archive, limit: int, ts: int)
    requires SamePast(a, b, limit) && ts <= limit
    ensures CandlesAt(a.candles, ts) == CandlesAt(b.candles, ts)
  {
    CandlesAtFromPast(a.candles, limit, ts);
    CandlesAtFromPast(b.candles, limit, ts);
  }

  lemma {:induction false} SameClosing(a: seq<Market>, b: seq<Market>, limit: int, ts: int)
    requires SameListings(a, b, limit) && ts <= limit
    ensures ClosingAt(a, ts) == ClosingAt(b, ts)
  {
    if a != [] {
      SameClosing(a[..|a| - 1], b[..|b| - 1], limit, ts);
      assert SameListing(a[|a| - 1], b[|b| - 1], limit);
    }
  }

  lemma {:induction false} SameMarket(a: seq<Market>, b: seq<Market>, limit: int, ticker: string)
    requires SameListings(a, b, limit)
    ensures MarketOf(a, ticker).Some? == MarketOf(b, ticker).Some?
    ensures MarketOf(a, ticker).Some? ==> SameListing(MarketOf(a, ticker).value, MarketOf(b, ticker).value, limit)
  {
    if a != [] {
      assert SameListing(a[|a| - 1], b[|b| - 1], limit);
      if a[|a| - 1].ticker != ticker {
        SameMarket(a[..|a| - 1], b[..|b| - 1], limit, ticker);
      }
    }
  }

  // ---- contexts ----

  lemma {:induction false} FeaturesFromPast(features: seq<Row<Feature>>, asset: Option<string>, limit: int, ts: int)
    requires ts <= limit
    ensures FeaturesBefore(KeyedUpTo(features, limit), asset, ts) == FeaturesBefore(features, asset, ts)
  {
    if features != [] {
      var front, last := features[..|features| - 1], features[|features| - 1];
      FeaturesFromPast(front, asset, limit, ts);
      if last.key <= limit {
        var past := KeyedUpTo(front, limit);
        assert (past + [last])[..|past|] == past;
      }
    }
  }

  lemma SameSpot(cfg: EngineConfig, a: Archive, b: Archive, limit: int, symbol: string, ts: int)
    requires SamePast(a, b, limit) && ts <= limit
    ensures var x, y := SeriesOf(a.spotHourly, symbol), SeriesOf(b.spotHourly, symbol);
            LatestBefore(x, ts) == LatestBefore(y, ts) &&
            LatestBefore(x, ts - cfg.trendLookback) == LatestBefore(y, ts - cfg.trendLookback)
  {
    SameLatest(SeriesOf(a.spotHourly, symbol), SeriesOf(b.spotHourly, symbol), limit, ts);
    SameLatest(SeriesOf(a.spotHourly, symbol), SeriesOf(b.spotHourly, symbol), limit, ts - cfg.trendLookback);
  }

  lemma SameHistory(cfg: EngineConfig, a: Archive, b: Archive, limit: int, symbol: string, ts: int)
    requires SamePast(a, b, limit) && ts <= limit
    ensures HistoryBefore(SeriesOf(a.spotDaily, symbol), ts) == HistoryBefore(SeriesOf(b.spotDaily, symbol), ts)
    ensures LastBefore(SeriesOf(a.spotBars, symbol), ts, cfg.spotBarWindow)
         == LastBefore(SeriesOf(b.spotBars, symbol), ts, cfg.spotBarWindow)
  {
    SameEarlier(SeriesOf(a.spotDaily, symbol), SeriesOf(b.spotDaily, symbol), limit, ts);
    SameTail(SeriesOf(a.spotBars, symbol), SeriesOf(b.spotBars, symbol), limit, ts, cfg.spotBarWindow);
  }

  lemma SameFeatures(a: Archive, b: Archive, limit: int, asset: Option<string>, ts: int)
    requires SamePast(a, b, limit) && ts <= limit
    ensures FeaturesBefore(a.features, asset, ts) == FeaturesBefore(b.features, asset, ts)
  {
    FeaturesFromPast(a.features, asset, limit, ts);
    FeaturesFromPast(b.features, asset, limit, ts);
  }

  lemma SameContext(
      cfg: EngineConfig, a: Archive, b: Archive, limit: int, m: Market, n: Market, c: Candle, symbol: string,
      ts: int)
    requires SamePast(a, b, limit) && ts <= limit && SameListing(m, n, limit)
    ensures ContextAt(cfg, a, m, c, symbol, ts) == ContextAt(cfg, b, n, c, symbol, ts)
  {
    SameSpot(cfg, a, b, limit, symbol, ts);
    SameHistory(cfg, a, b, limit, symbol, ts);
    SameWindow(a.brti, b.brti, limit, ts, BRTI_SLICE_WINDOW);
    SameFeatures(a, b, limit, if symbol in cfg.assetOf then Some(cfg.assetOf[symbol]) else None, ts);
    ContextFromSlices(cfg, a, b, limit, m, n, c, symbol, ts);
  }

  lemma ContextFromSlices(
      cfg: EngineConfig, a: Archive, b: Archive, limit: int, m: Market, n: Market, c: Candle, symbol: string,
      ts: int)
    requires SameListing(m, n, limit)
    requires var x, y := SeriesOf(a.spotHourly, symbol), SeriesOf(b.spotHourly, symbol);
             LatestBefore(x, ts) == LatestBefore(y, ts) &&
             LatestBefore(x, ts - cfg.trendLookback) == LatestBefore(y, ts - cfg.trendLookback)
    requires HistoryBefore(SeriesOf(a.spotDaily, symbol), ts) == HistoryBefore(SeriesOf(b.spotDaily, symbol), ts)
    requires LastBefore(SeriesOf(a.spotBars, symbol), ts, cfg.spotBarWindow)
          == LastBefore(SeriesOf(b.spotBars, symbol), ts, cfg.spotBarWindow)
    requires WindowBefore(a.brti, ts, BRTI_SLICE_WINDOW) == WindowBefore(b.brti, ts, BRTI_SLICE_WINDOW)
    requires var asset := if symbol in cfg.assetOf then Some(cfg.assetOf[symbol]) else None;
             FeaturesBefore(a.features, asset, ts) == FeaturesBefore(b.features, asset, ts)
    ensures ContextAt(cfg, a, m, c, symbol, ts) == ContextAt(cfg, b, n, c, symbol, ts)
  {}

  lemma SameEvaluation(cfg: EngineConfig, a: Archive, b: Archive, limit: int, s: EngineState, c: Candle, ts: int)
    requires SamePast(a, b, limit) && ts <= limit
    ensures EvaluateOne(cfg, a, s, c, ts) == EvaluateOne(cfg, b, s, c, ts)
  {
    hide ContextAt, Decide, Queues, HasPending;
    SameMarket(a.markets, b.markets, limit, c.ticker);
    var m, n := MarketOf(a.markets, c.ticker), MarketOf(b.markets, c.ticker);
    if m.Some? && m.value.series in cfg.symbolOf {
      SameContext(cfg, a, b, limit, m.value, n.value, c, cfg.symbolOf[m.value.series], ts);
    }
  }

  lemma {:induction false} SameEvaluations(
      cfg: EngineConfig, a: Archive, b: Archive, limit: int, s: EngineState, candles: seq<Candle>, ts: int, k: nat)
    requires SamePast(a, b, limit) && ts <= limit && k <= |candles|
    ensures Evaluate(cfg, a, s, candles, ts, k) == Evaluate(cfg, b, s, candles, ts, k)
  {
    if k > 0 {
      SameEvaluations(cfg, a, b, limit, s, candles, ts, k - 1);
      SameEvaluation(cfg, a, b, limit, Evaluate(cfg, a, s, candles, ts, k - 1), candles[k - 1], ts);
    }
  }

  /** One timestamp at or before `limit` does the same on both archives. */
  lemma SameStep(cfg: EngineConfig, a: Archive, b: Archive, limit: int, s: EngineState, ts: int)
    requires SamePast(a, b, limit) && ts <= limit
    ensures Step(cfg, a, s, ts) == Step(cfg, b, s, ts)
  {
    SameCandles(a, b, limit, ts);
    SameClosing(a.markets, b.markets, limit, ts);
    var candles := CandlesAt(a.candles, ts);
    var closing := ClosingAt(a.markets, ts);
    var settled := SettleAll(Exits(s, candles, ts, |candles|), closing, ts, |closing|);
    var marked := MarkEquity(Drain(cfg, settled, settled.pending, candles, ts, |settled.pending|), ts);
    SameEvaluations(cfg, a, b, limit, marked, candles, ts, |candles|);
  }

  // ---- the timelines ----

  lemma {:induction false} PastCandleKept(candles: seq<Candle>, limit: int, c: Candle)
    requires c in candles && c.ts <= limit
    ensures c in CandlesUpTo(candles, limit)
  {
    var front, last := candles[..|candles| - 1], candles[|candles| - 1];
    assert candles == front + [last];
    if c in front { PastCandleKept(front, limit, c); }
  }

  lemma {:induction false} PastCandleReal(candles: seq<Candle>, limit: int, c: Candle)
    requires c in CandlesUpTo(candles, limit)
    ensures c in candles
  {
    var front, last := candles[..|candles| - 1], candles[|candles| - 1];
    assert candles == front + [last];
    if c in CandlesUpTo(front, limit) { PastCandleReal(front, limit, c); }
  }

  lemma SameEvents(a: Archive, b: Archive, limit: int, t: int)
    requires SamePast(a, b, limit) && t <= limit && t in EventTimes(a)
    ensures t in EventTimes(b)
  {
    if c :| c in a.candles && c.ts == t {
      PastCandleKept(a.candles, limit, c);
      PastCandleReal(b.candles, limit, c);
    } else {
      var m :| m in a.markets && m.closeTs == t;
      var i :| 0 <= i < |a.markets| && a.markets[i] == m;
      assert SameListing(a.markets[i], b.markets[i], limit);
      assert b.markets[i] in b.markets;
    }
  }

  lemma SamePastSymmetric(a: Archive, b: Archive, limit: int)
    requires SamePast(a, b, limit)
    ensures SamePast(b, a, limit)
  {}

  /** Up to `limit` the two runs visit the same timestamps. */
  lemma {:induction false} SameTimes(a: Archive, b: Archive, limit: int, tlA: seq<int>, tlB: seq<int>, k: nat)
    requires SamePast(a, b, limit) && IsTimeline(a, tlA) && IsTimeline(b, tlB)
    requires k < |tlA| && tlA[k] <= limit
    ensures k < |tlB| && tlB[k] == tlA[k]
    ensures forall i :: 0 <= i < k ==> tlA[i] == tlB[i]
  {
    if k > 0 { SameTimes(a, b, limit, tlA, tlB, k - 1); }
    assert forall i :: 0 <= i < k ==> tlB[i] < tlA[k];
    SameEvents(a, b, limit, tlA[k]);
    assert tlA[k] in tlA;
    var j :| 0 <= j < |tlB| && tlB[j] == tlA[k];
    assert j >= k;
    SamePastSymmetric(a, b, limit);
    assert tlB[k] in tlB;
    SameEvents(b, a, limit, tlB[k]);
    var i :| 0 <= i < |tlA| && tlA[i] == tlB[k];
    assert forall i :: 0 <= i < k ==> tlA[i] < tlB[k];
  }

  /** No look-ahead: with the strategy, sizer, guard and throttle functions of
      what they are given, two archives with the same past up to `limit` put the
      replay in the same state, with the same cash, positions, pending orders,
      settlements, trade rows and equity curve, after every timestamp up to
      `limit`. */
  lemma {:induction false} NoLookAhead(
      cfg: EngineConfig, a: Archive, b: Archive, limit: int,
      startingCash: int, tlA: seq<int>, tlB: seq<int>, k: nat)
    requires SamePast(a, b, limit) && IsTimeline(a, tlA) && IsTimeline(b, tlB)
    requires k <= |tlA| && (k > 0 ==> tlA[k - 1] <= limit)
    ensures k <= |tlB| && forall i :: 0 <= i < k ==> tlA[i] == tlB[i]
    ensures Replay(cfg, a, startingCash, tlA, k) == Replay(cfg, b, startingCash, tlB, k)
  {
    hide Step, SamePast;
    if k > 0 {
      SameTimes(a, b, limit, tlA, tlB, k - 1);
      assert k > 1 ==> tlA[k - 2] < tlA[k - 1];
      NoLookAhead(cfg, a, b, limit, startingCash, tlA, tlB, k - 1);
      SameStep(cfg, a, b, limit, Replay(cfg, a, startingCash, tlA, k - 1), tlA[k - 1]);
    }
  }
}
