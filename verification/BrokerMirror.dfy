/** The broker treats YES and NO alike: a mirrored history leaves every price,
    fee, profit and cash figure unchanged. */
module BrokerMirror {
  import opened Wrappers
  import opened Broker
  import opened BrokerLaws

  function FlipSide(side: Side): Side { if side.Yes? then No else Yes }

  function FlipResolution(r: Resolution): Resolution {
    match r
    case Unresolved => r
    case ResolvedTo(side) => ResolvedTo(FlipSide(side))
    case Unrecognised(lowered) =>
      Unrecognised(if lowered.Some? then Some(FlipSide(lowered.value)) else None)
  }

  function Complement(price: Option<int>): Option<int> {
    if price.Some? then Some(100 - price.value) else None
  }

  /** Every price p becomes 100 - p, so bids trade places with asks and lows with highs. */
  function MirrorBar(bar: MarketBar): MarketBar {
    bar.(yesBidLow := Complement(bar.yesAskHigh), yesBidClose := Complement(bar.yesAskClose),
         yesAskHigh := Complement(bar.yesBidLow), yesAskClose := Complement(bar.yesBidClose))
  }

  function MirrorPosition(pos: OpenPosition): OpenPosition { pos.(side := FlipSide(pos.side)) }

  function MirrorSettlement(x: Settlement): Settlement { x.(side := FlipSide(x.side)) }

  function MirrorOrder(order: OrderRequest): OrderRequest { order.(side := FlipSide(order.side)) }

  function MirrorState(s: BrokerState): BrokerState {
    s.(positions := map t | t in s.positions :: MirrorPosition(s.positions[t]),
       bars := map t | t in s.bars :: MirrorBar(s.bars[t]),
       settlements := seq(|s.settlements|, i requires 0 <= i < |s.settlements| => MirrorSettlement(s.settlements[i])))
  }

  function MirrorOperation(op: Operation): Operation {
    match op
    case ShowBar(bar) => ShowBar(MirrorBar(bar))
    case PlaceOrder(order) => PlaceOrder(MirrorOrder(order))
    case VoidFill(_) => op
    case ClosePosition(_, _, _) => op
    case SettleMarket(ticker, resolution, ts) => SettleMarket(ticker, FlipResolution(resolution), ts)
  }

  function MirrorHistory(ops: seq<Operation>): seq<Operation> {
    seq(|ops|, i requires 0 <= i < |ops| => MirrorOperation(ops[i]))
  }

  /** Both fill modes quote the mirrored bar's opposite side at the same price. */
  lemma FillPriceMirrored(mode: FillMode, bar: MarketBar, side: Side)
    ensures FillPrice(mode, MirrorBar(bar), FlipSide(side)) == FillPrice(mode, bar, side)
  {}

  lemma PriceOrderMirrored(config: BrokerConfig, bar: MarketBar, cash: int, order: OrderRequest)
    ensures PriceOrder(config, MirrorBar(bar), cash, MirrorOrder(order)) == PriceOrder(config, bar, cash, order)
  {
    FillPriceMirrored(config.fillMode, bar, order.side);
    assert MaxFillable(config, MirrorBar(bar)) == MaxFillable(config, bar);
  }

  lemma AttemptMirrored(config: BrokerConfig, s: BrokerState, order: OrderRequest)
    ensures Attempt(config, MirrorState(s), MirrorOrder(order)) == Attempt(config, s, order)
  {
    if order.ticker in s.bars {
      PriceOrderMirrored(config, s.bars[order.ticker], s.cash, order);
    }
  }

  /** An order on the mirrored book has the same outcome, in the same words. */
  lemma PlaceMirrored(config: BrokerConfig, s: BrokerState, order: OrderRequest)
    ensures Place(config, MirrorState(s), MirrorOrder(order)).1 == Place(config, s, order).1
    ensures Place(config, MirrorState(s), MirrorOrder(order)).0 == MirrorState(Place(config, s, order).0)
  {
    AttemptMirrored(config, s, order);
    if Attempt(config, s, order).Ok? {
      assert Place(config, MirrorState(s), MirrorOrder(order)).0.positions
          == MirrorState(Place(config, s, order).0).positions;
    }
  }

  lemma RemovalMirrored(s: BrokerState, ticker: string)
    ensures MirrorState(s).positions - {ticker} == MirrorState(s.(positions := s.positions - {ticker})).positions
  {}

  lemma CloseEarlyMirrored(s: BrokerState, ticker: string, exitPrice: int, exitTs: int)
    ensures CloseEarly(MirrorState(s), ticker, exitPrice, exitTs)
        == MirrorState(CloseEarly(s, ticker, exitPrice, exitTs))
  {}

  lemma SettleMirrored(s: BrokerState, ticker: string, resolution: Resolution, ts: int)
    ensures Settle(MirrorState(s), ticker, FlipResolution(resolution), ts)
        == MirrorState(Settle(s, ticker, resolution, ts))
  {}

  lemma StepMirrored(config: BrokerConfig, s: BrokerState, op: Operation)
    ensures Apply(config, MirrorState(s), MirrorOperation(op)) == MirrorState(Apply(config, s, op))
  {
    match op
    case ShowBar(bar) =>
      assert SetBar(MirrorState(s), MirrorBar(bar)).bars == MirrorState(SetBar(s, bar)).bars;
    case PlaceOrder(order) =>
      PlaceMirrored(config, s, order);
    case VoidFill(ticker) =>
      RemovalMirrored(s, ticker);
    case ClosePosition(ticker, exitPrice, exitTs) =>
      CloseEarlyMirrored(s, ticker, exitPrice, exitTs);
    case SettleMarket(ticker, resolution, ts) =>
      SettleMirrored(s, ticker, resolution, ts);
  }

  /** Mirror symmetry: replaying the mirrored history gives the mirrored state,
      whose cash, prices, quantities, fees and results are those of the original. */
  lemma {:induction false} MirrorSymmetry(config: BrokerConfig, s: BrokerState, ops: seq<Operation>, k: nat)
    requires k <= |ops|
    ensures After(config, MirrorState(s), MirrorHistory(ops), k) == MirrorState(After(config, s, ops, k))
    ensures After(config, MirrorState(s), MirrorHistory(ops), k).cash == After(config, s, ops, k).cash
  {
    if k > 0 {
      MirrorSymmetry(config, s, ops, k - 1);
      StepMirrored(config, After(config, s, ops, k - 1), ops[k - 1]);
    }
  }
}
