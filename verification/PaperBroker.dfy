/** The paper broker over a persisted ledger, and its recovery after a restart.
    A trade row is identified by its place in the ledger, as by its primary key,
    so a held position and the ledger row it points to are one row. */
module PaperBroker {
  import opened Wrappers
  import opened Fees
  import opened Broker
  import opened BrokerLaws

  datatype RowStatus = RowOpen | RowSettledWon | RowSettledLost | RowClosedEarly

  datatype LedgerRow = LedgerRow(
    ticker: string, side: Side, quantity: int, entryPrice: int, entryTs: int, status: RowStatus,
    entryFee: Option<int>, exitTs: Option<int>, exitPrice: Option<int>,
    gross: Option<int>, exitFee: Option<int>, net: Option<int>)

  datatype Quote = Quote(ticker: string, ts: int, yesBid: Option<int>, yesAsk: Option<int>)

  datatype PaperState = PaperState(
    ledger: seq<LedgerRow>, positions: map<string, nat>, cash: int,
    quotes: map<string, Quote>, nextOrderId: nat)

  function OrZero(x: Option<int>): int { if x.Some? then x.value else 0 }

  // ---- restore ----

  datatype Account = Account(cash: int, positions: map<string, nat>)

  /** The account rebuilt from the first `k` rows. */
  function Restore(startingCash: int, ledger: seq<LedgerRow>, k: nat): Account
    requires k <= |ledger|
  {
    if k == 0 then Account(startingCash, map[])
    else
      var before := Restore(startingCash, ledger, k - 1);
      var row := ledger[k - 1];
      if row.status.RowOpen?
      then Account(before.cash - (Stake(row.entryPrice, row.quantity) + OrZero(row.entryFee)),
                   before.positions[row.ticker := k - 1])
      else before.(cash := before.cash + OrZero(row.net))
  }

  function Opened(startingCash: int, ledger: seq<LedgerRow>): PaperState {
    var account := Restore(startingCash, ledger, |ledger|);
    PaperState(ledger, account.positions, account.cash, map[], 1)
  }

  // ---- operations ----

  /** What the quote costs on each side; the same convention as the replay's. */
  function QuotePrice(quote: Quote, side: Side): Option<int> {
    if side.Yes? then quote.yesAsk
    else if quote.yesBid.None? then None else Some(100 - quote.yesBid.value)
  }

  function PriceQuote(quote: Quote, cash: int, order: OrderRequest): Result<Fill, RejectReason> {
    if order.style.Maker? then Err(MakerUnfilled)
    else if order.limit.None? then Err(LimitRequired)
    else
      var price := QuotePrice(quote, order.side);
      if price.None? || !(1 <= price.value <= 99) then Err(NoFillableQuote)
      else if price.value > order.limit.value then Err(LimitExceeded)
      else
        var fee := EntryFee(price.value, order.quantity);
        if Stake(price.value, order.quantity) + fee > cash then Err(InsufficientFunds)
        else Ok(Fill(price.value, order.quantity, fee))
  }

  function TryFill(s: PaperState, order: OrderRequest): Result<Fill, RejectReason> {
    if order.ticker !in s.quotes then Err(NoMarketData)
    else if order.ticker in s.positions then Err(PositionAlreadyOpen)
    else PriceQuote(s.quotes[order.ticker], s.cash, order)
  }

  function NewRow(order: OrderRequest, fill: Fill, filledAt: int): LedgerRow {
    LedgerRow(order.ticker, order.side, fill.quantity, fill.price, filledAt, RowOpen,
              Some(fill.fee), None, None, None, None, None)
  }

  function PaperPlace(s: PaperState, order: OrderRequest, now: int): (PaperState, OrderResult) {
    var issued := s.(nextOrderId := s.nextOrderId + 1);
    match TryFill(s, order)
    case Err(reason) => (issued, Rejected(s.nextOrderId, reason))
    case Ok(fill) =>
      var quoteTs := s.quotes[order.ticker].ts;
      var filledAt := if quoteTs != 0 then quoteTs else now;
      (issued.(cash := s.cash - (Stake(fill.price, fill.quantity) + fill.fee),
               ledger := s.ledger + [NewRow(order, fill, filledAt)],
               positions := s.positions[order.ticker := |s.ledger|]),
       Filled(s.nextOrderId, fill.quantity, fill.price, filledAt))
  }

  function SettledRow(row: LedgerRow, resolution: Resolution, settledTs: int): LedgerRow {
    var won := resolution == ResolvedTo(row.side);
    var gross := (if won then 100 - row.entryPrice else -row.entryPrice) * row.quantity;
    row.(status := if won then RowSettledWon else RowSettledLost,
         exitTs := Some(settledTs), exitPrice := Some(if won then 100 else 0),
         gross := Some(gross), exitFee := Some(0), net := Some(gross - OrZero(row.entryFee)))
  }

  function PaperSettle(s: PaperState, ticker: string, resolution: Resolution, settledTs: int): PaperState
    requires PointsIntoLedger(s)
  {
    if ticker !in s.positions then s
    else
      var id := s.positions[ticker];
      var row := s.ledger[id];
      s.(cash := s.cash + (if resolution == ResolvedTo(row.side) then 100 * row.quantity else 0),
         positions := s.positions - {ticker},
         ledger := s.ledger[id := SettledRow(row, resolution, settledTs)])
  }

  predicate PointsIntoLedger(s: PaperState) {
    forall t :: t in s.positions ==>
      s.positions[t] < |s.ledger| && s.ledger[s.positions[t]].ticker == t && s.ledger[s.positions[t]].status.RowOpen?
  }

  class PaperBroker {
    var ledger: seq<LedgerRow>
    var positions: map<string, nat>
    var cash: int
    var quotes: map<string, Quote>
    var nextOrderId: nat

    ghost function State(): PaperState
      reads this
    {
      PaperState(ledger, positions, cash, quotes, nextOrderId)
    }

    /** Starts over a persisted ledger: reloads the open rows and rebuilds cash
        from the whole history. */
    constructor (persisted: seq<LedgerRow>, startingCash: int)
      ensures State() == Opened(startingCash, persisted)
    {
      ledger := persisted;
      quotes := map[];
      nextOrderId := 1;
      positions := map[];
      cash := startingCash;
      new;
      for k := 0 to |persisted|
        invariant ledger == persisted && quotes == map[] && nextOrderId == 1
        invariant Account(cash, positions) == Restore(startingCash, persisted, k)
      {
        var row := persisted[k];
        if row.status.RowOpen? {
          positions := positions[row.ticker := k];
          var stake := row.entryPrice * row.quantity;
          cash := cash - (stake + OrZero(row.entryFee));
        } else {
          cash := cash + OrZero(row.net);
        }
      }
    }

    method SetCurrentQuote(quote: Quote)
      modifies this`quotes
      ensures State() == old(State()).(quotes := old(quotes)[quote.ticker := quote])
    {
      quotes := quotes[quote.ticker := quote];
    }

    /** Returns the realized net result, `None` when nothing was open. */
    method SettleMarket(ticker: string, resolution: Resolution, settledTs: int) returns (net: Option<int>)
      requires PointsIntoLedger(State())
      modifies this`ledger, this`positions, this`cash
      ensures State() == PaperSettle(old(State()), ticker, resolution, settledTs)
      ensures net == if ticker in old(positions) then ledger[old(positions)[ticker]].net else None
    {
      if ticker !in positions { return None; }
      var id := positions[ticker];
      positions := positions - {ticker};
      var row := ledger[id];
      var won := resolution == ResolvedTo(row.side);
      var gross;
      if won {
        gross := (100 - row.entryPrice) * row.quantity;
        cash := cash + 100 * row.quantity;
      } else {
        gross := -row.entryPrice * row.quantity;
      }
      net := Some(gross - OrZero(row.entryFee));
      ledger := ledger[id := row.(status := if won then RowSettledWon else RowSettledLost,
                                  exitTs := Some(settledTs), exitPrice := Some(if won then 100 else 0),
                                  gross := Some(gross), exitFee := Some(0), net := net)];
    }

    method PlaceOrder(order: OrderRequest, now: int) returns (result: OrderResult)
      modifies this`ledger, this`positions, this`cash, this`nextOrderId
      ensures (State(), result) == PaperPlace(old(State()), order, now)
    {
      var orderId := nextOrderId;
      nextOrderId := nextOrderId + 1;
      if order.ticker !in quotes { return Rejected(orderId, NoMarketData); }
      var quote := quotes[order.ticker];
      if order.ticker in positions { return Rejected(orderId, PositionAlreadyOpen); }
      if order.style.Maker? { return Rejected(orderId, MakerUnfilled); }
      if order.limit.None? { return Rejected(orderId, LimitRequired); }
      var price := QuotePrice(quote, order.side);
      if price.None? || !(1 <= price.value <= 99) { return Rejected(orderId, NoFillableQuote); }
      if price.value > order.limit.value { return Rejected(orderId, LimitExceeded); }
      var stake := price.value * order.quantity;
      var fee := EntryFee(price.value, order.quantity);
      if stake + fee > cash { return Rejected(orderId, InsufficientFunds); }
      cash := cash - (stake + fee);
      var filledAt := if quote.ts != 0 then quote.ts else now;
      positions := positions[order.ticker := |ledger|];
      ledger := ledger + [NewRow(order, Fill(price.value, order.quantity, fee), filledAt)];
      result := Filled(orderId, order.quantity, price.value, filledAt);
    }
  }

  // ---- what a restore yields ----

  lemma {:induction false} RestorePrefix(startingCash: int, ledger: seq<LedgerRow>, longer: seq<LedgerRow>, k: nat)
    requires k <= |ledger| <= |longer| && forall i :: 0 <= i < k ==> ledger[i] == longer[i]
    ensures Restore(startingCash, ledger, k) == Restore(startingCash, longer, k)
  {
    if k > 0 { RestorePrefix(startingCash, ledger, longer, k - 1); }
  }

  predicate IsOpenRow(ledger: seq<LedgerRow>, i: int, ticker: string) {
    0 <= i < |ledger| && ledger[i].status.RowOpen? && ledger[i].ticker == ticker
  }

  /** A ticker is restored exactly when some row of it is open, pointing at the last one. */
  lemma {:induction false} RestoredPositions(startingCash: int, ledger: seq<LedgerRow>, k: nat, t: string)
    requires k <= |ledger|
    ensures var positions := Restore(startingCash, ledger, k).positions;
      && (t in positions ==> positions[t] < k && IsOpenRow(ledger, positions[t], t)
                             && forall i :: positions[t] < i < k ==> !IsOpenRow(ledger, i, t))
      && (t !in positions ==> forall i :: 0 <= i < k ==> !IsOpenRow(ledger, i, t))
  {
    if k > 0 { RestoredPositions(startingCash, ledger, k - 1, t); }
  }

  /** One row's effect on cash. */
  function Contribution(row: LedgerRow): int {
    if row.status.RowOpen? then -(Stake(row.entryPrice, row.quantity) + OrZero(row.entryFee)) else OrZero(row.net)
  }

  lemma {:induction false} RestoredCashAfterUpdate(
      startingCash: int, ledger: seq<LedgerRow>, id: nat, row: LedgerRow, k: nat)
    requires id < |ledger| && k <= |ledger|
    ensures Restore(startingCash, ledger[id := row], k).cash
         == Restore(startingCash, ledger, k).cash + (if id < k then Contribution(row) - Contribution(ledger[id]) else 0)
  {
    if k > 0 { RestoredCashAfterUpdate(startingCash, ledger, id, row, k - 1); }
  }

  // ---- recovery ----

  /** Restarting now, from the persisted rows alone, would give this account. */
  predicate Recoverable(startingCash: int, s: PaperState) {
    Restore(startingCash, s.ledger, |s.ledger|) == Account(s.cash, s.positions)
  }

  lemma RecoverablePoints(startingCash: int, s: PaperState)
    requires Recoverable(startingCash, s)
    ensures PointsIntoLedger(s)
  {
    forall t | t in s.positions ensures IsOpenRow(s.ledger, s.positions[t], t) {
      RestoredPositions(startingCash, s.ledger, |s.ledger|, t);
    }
  }

  /** Orders, filled or refused, keep the ledger and the live account in step. */
  lemma PlaceRecoverable(startingCash: int, s: PaperState, order: OrderRequest, now: int)
    requires Recoverable(startingCash, s)
    ensures Recoverable(startingCash, PaperPlace(s, order, now).0)
  {
    var after := PaperPlace(s, order, now).0;
    RestorePrefix(startingCash, s.ledger, after.ledger, |s.ledger|);
  }

  lemma PositionsAfterSettle(
      startingCash: int, s: PaperState, ticker: string, resolution: Resolution, ts: int, t: string)
    requires Recoverable(startingCash, s) && PointsIntoLedger(s) && ticker in s.positions
    ensures var after := PaperSettle(s, ticker, resolution, ts);
            var restored := Restore(startingCash, after.ledger, |after.ledger|).positions;
            t != ticker ==> (t in restored <==> t in after.positions)
                            && (t in restored ==> restored[t] == after.positions[t])
    ensures var after := PaperSettle(s, ticker, resolution, ts);
            (ticker in Restore(startingCash, after.ledger, |after.ledger|).positions) <==>
            exists i :: i != s.positions[ticker] && IsOpenRow(s.ledger, i, ticker)
  {
    var after := PaperSettle(s, ticker, resolution, ts);
    var id := s.positions[ticker];
    assert forall i, u :: IsOpenRow(after.ledger, i, u) <==> i != id && IsOpenRow(s.ledger, i, u);
    RestoredPositions(startingCash, s.ledger, |s.ledger|, t);
    RestoredPositions(startingCash, after.ledger, |after.ledger|, t);
    RestoredPositions(startingCash, after.ledger, |after.ledger|, ticker);
  }

  /** A settlement keeps them in step exactly when the settled market had no
      second open row. With one, a restart would revive a position the live
      broker no longer holds. */
  lemma SettleRecoverable(startingCash: int, s: PaperState, ticker: string, resolution: Resolution, ts: int)
    requires Recoverable(startingCash, s) && PointsIntoLedger(s) && ticker in s.positions
    ensures Recoverable(startingCash, PaperSettle(s, ticker, resolution, ts)) <==>
            !exists i :: i != s.positions[ticker] && IsOpenRow(s.ledger, i, ticker)
  {
    var after := PaperSettle(s, ticker, resolution, ts);
    var id := s.positions[ticker];
    var restored := Restore(startingCash, after.ledger, |after.ledger|);
    forall t: string
      ensures t != ticker ==> (t in restored.positions <==> t in after.positions)
                              && (t in restored.positions ==> restored.positions[t] == after.positions[t])
      ensures ticker in restored.positions <==> exists i :: i != id && IsOpenRow(s.ledger, i, ticker)
    {
      PositionsAfterSettle(startingCash, s, ticker, resolution, ts, t);
    }
    SettledRowBalances(s.ledger[id], resolution, ts);
    RestoredCashAfterUpdate(startingCash, s.ledger, id, SettledRow(s.ledger[id], resolution, ts), |s.ledger|);
    assert restored.cash == after.cash;
    if ticker !in restored.positions {
      assert restored.positions == after.positions;
    }
  }

  /** Two open rows of one market: the live broker holds the later one, settles it
      and holds nothing; a restart would hold the earlier one. */
  lemma SecondOpenRowRevived()
    ensures var row := LedgerRow("a", Yes, 1, 40, 0, RowOpen, Some(2), None, None, None, None, None);
            var s := Opened(1000, [row, row]);
            Recoverable(1000, s) && PointsIntoLedger(s) && "a" in s.positions
            && !Recoverable(1000, PaperSettle(s, "a", ResolvedTo(Yes), 1))
  {
    var row := LedgerRow("a", Yes, 1, 40, 0, RowOpen, Some(2), None, None, None, None, None);
    var s := Opened(1000, [row, row]);
    RecoverablePoints(1000, s);
    RestoredPositions(1000, s.ledger, 2, "a");
    assert IsOpenRow(s.ledger, 1, "a") && IsOpenRow(s.ledger, 0, "a");
    SettleRecoverable(1000, s, "a", ResolvedTo(Yes), 1);
  }

  /** Closing a row moves cash by exactly what it pays out. */
  lemma SettledRowBalances(row: LedgerRow, resolution: Resolution, ts: int)
    requires row.status.RowOpen?
    ensures Contribution(SettledRow(row, resolution, ts)) - Contribution(row)
         == if resolution == ResolvedTo(row.side) then 100 * row.quantity else 0
  {}

  /** A ledger written by one broker: no market has two open rows. */
  predicate OneOpenRowEach(ledger: seq<LedgerRow>) {
    forall i, j :: 0 <= i < j < |ledger| && ledger[i].status.RowOpen? && ledger[j].status.RowOpen?
      ==> ledger[i].ticker != ledger[j].ticker
  }

  datatype PaperOperation =
    | SetQuote(quote: Quote)
    | PlacePaper(order: OrderRequest, now: int)
    | SettlePaper(ticker: string, resolution: Resolution, ts: int)

  ghost predicate Sound(startingCash: int, s: PaperState) {
    Recoverable(startingCash, s) && PointsIntoLedger(s) && OneOpenRowEach(s.ledger)
  }

  function ApplyPaper(s: PaperState, op: PaperOperation): PaperState
    requires PointsIntoLedger(s)
  {
    match op
    case SetQuote(quote) => s.(quotes := s.quotes[quote.ticker := quote])
    case PlacePaper(order, now) => PaperPlace(s, order, now).0
    case SettlePaper(ticker, resolution, ts) => PaperSettle(s, ticker, resolution, ts)
  }

  lemma OneOpenAfterPlace(startingCash: int, s: PaperState, order: OrderRequest, now: int)
    requires Sound(startingCash, s)
    ensures OneOpenRowEach(PaperPlace(s, order, now).0.ledger)
  {
    var after := PaperPlace(s, order, now).0;
    RestoredPositions(startingCash, s.ledger, |s.ledger|, order.ticker);
    if TryFill(s, order).Ok? {
      forall i | 0 <= i < |s.ledger| && after.ledger[i].status.RowOpen?
        ensures after.ledger[i].ticker != order.ticker
      {
        assert !IsOpenRow(s.ledger, i, order.ticker);
      }
    }
  }

  lemma SoundStep(startingCash: int, s: PaperState, op: PaperOperation)
    requires Sound(startingCash, s)
    ensures Sound(startingCash, ApplyPaper(s, op))
  {
    match op
    case SetQuote(_) =>
    case PlacePaper(order, now) =>
      PlaceRecoverable(startingCash, s, order, now);
      RecoverablePoints(startingCash, PaperPlace(s, order, now).0);
      OneOpenAfterPlace(startingCash, s, order, now);
    case SettlePaper(ticker, resolution, ts) =>
      if ticker in s.positions {
        SettleRecoverable(startingCash, s, ticker, resolution, ts);
        RecoverablePoints(startingCash, PaperSettle(s, ticker, resolution, ts));
      }
  }

  lemma OpenedIsSound(startingCash: int, persisted: seq<LedgerRow>)
    requires OneOpenRowEach(persisted)
    ensures Sound(startingCash, Opened(startingCash, persisted))
  {
    RecoverablePoints(startingCash, Opened(startingCash, persisted));
  }

  /** `states` are those of a live broker opened on `persisted` and driven by `ops`. */
  predicate IsRun(startingCash: int, persisted: seq<LedgerRow>, ops: seq<PaperOperation>, states: seq<PaperState>) {
    && |states| == |ops| + 1
    && states[0] == Opened(startingCash, persisted)
    && forall i :: 0 <= i < |ops| ==> PointsIntoLedger(states[i]) ==> states[i + 1] == ApplyPaper(states[i], ops[i])
  }

  /** Restart recovery: after any operations, refused ones included, a broker
      rebuilt from the persisted rows has the live broker's cash and positions. */
  lemma {:induction false} RestartRecovers(
      startingCash: int, persisted: seq<LedgerRow>, ops: seq<PaperOperation>, states: seq<PaperState>, k: nat)
    requires OneOpenRowEach(persisted) && IsRun(startingCash, persisted, ops, states) && k <= |ops|
    ensures Sound(startingCash, states[k])
    ensures var rebuilt := Opened(startingCash, states[k].ledger);
            rebuilt.cash == states[k].cash && rebuilt.positions == states[k].positions
  {
    if k == 0 {
      OpenedIsSound(startingCash, persisted);
    } else {
      RestartRecovers(startingCash, persisted, ops, states, k - 1);
      SoundStep(startingCash, states[k - 1], ops[k - 1]);
    }
  }

  // ---- agreement with the replay ----

  /** A paper order fills exactly as the replay fills it on a bar whose extremes
      are the quote, with no volume figure. */
  lemma PaperMatchesReplay(
      config: BrokerConfig, quote: Quote, cash: int, order: OrderRequest, bidClose: Option<int>,
      askClose: Option<int>)
    requires config.fillMode == Pessimistic && order.limit.Some? && order.style.Taker?
    ensures PriceQuote(quote, cash, order)
         == PriceOrder(config,
             MarketBar(quote.ticker, quote.ts, quote.yesBid, bidClose, quote.yesAsk, askClose, None), cash, order)
  {}

  // ---- what each operation answers ----

  /** The replay's terms for a quote: a bar whose extremes are its two sides. */
  function QuoteBar(quote: Quote): MarketBar {
    MarketBar(quote.ticker, quote.ts, quote.yesBid, None, quote.yesAsk, None, None)
  }

  const WORST := BrokerConfig(Pessimistic, 1.0)

  /** A paper order fills exactly when its market is quoted and not held, it is a limit
      order that takes, and the quote gives a fill within its limit that cash pays for. */
  lemma PaperFillsIff(s: PaperState, order: OrderRequest, now: int)
    ensures PaperPlace(s, order, now).1.Filled? <==>
      && order.ticker in s.quotes && order.ticker !in s.positions && order.style == Taker && order.limit.Some?
      && exists fill :: CanFill(WORST, QuoteBar(s.quotes[order.ticker]), s.cash, order, fill)
  {
    hide CanFill, PriceOrder;
    if order.ticker in s.quotes && order.style == Taker && order.limit.Some? {
      var quote := s.quotes[order.ticker];
      PaperMatchesReplay(WORST, quote, s.cash, order, None, None);
      forall fill ensures CanFill(WORST, QuoteBar(quote), s.cash, order, fill) <==>
                          PriceOrder(WORST, QuoteBar(quote), s.cash, order) == Ok(fill) {
        PricedIff(WORST, QuoteBar(quote), s.cash, order, fill);
      }
      var priced := PriceOrder(WORST, QuoteBar(quote), s.cash, order);
      if priced.Ok? { assert CanFill(WORST, QuoteBar(quote), s.cash, order, priced.value); }
    }
  }

  /** What a paper fill writes: cash pays, the position points at the new row, and the
      row says what was bought, when, and for which fee. */
  lemma PaperFillIsBooked(s: PaperState, order: OrderRequest, now: int, fill: Fill)
    requires order.ticker in s.quotes && order.ticker !in s.positions && order.style == Taker && order.limit.Some?
    requires CanFill(WORST, QuoteBar(s.quotes[order.ticker]), s.cash, order, fill)
    ensures var quoted := s.quotes[order.ticker].ts;
      var ts := if quoted != 0 then quoted else now;
      PaperPlace(s, order, now)
        == (s.(nextOrderId := s.nextOrderId + 1,
               cash := s.cash - (fill.price * fill.quantity + fill.fee),
               positions := s.positions[order.ticker := |s.ledger|],
               ledger := s.ledger + [LedgerRow(order.ticker, order.side, fill.quantity, fill.price, ts, RowOpen,
                                               Some(fill.fee), None, None, None, None, None)]),
            OrderResult.Filled(s.nextOrderId, fill.quantity, fill.price, ts))
    ensures fill.quantity == order.quantity
  {
    MostOfUnlimited(QuoteBar(s.quotes[order.ticker]), order.quantity, fill.quantity);
    hide CanFill, PriceOrder;
    PaperMatchesReplay(WORST, s.quotes[order.ticker], s.cash, order, None, None);
    PricedIff(WORST, QuoteBar(s.quotes[order.ticker]), s.cash, order, fill);
  }

  lemma MostOfUnlimited(bar: MarketBar, requested: int, quantity: int)
    requires MostOf(WORST, bar, requested, quantity) && bar.volume.None?
    ensures quantity == requested
  {}

  /** A refused paper order takes an order number and changes nothing else. */
  lemma PaperRefusedBecause(s: PaperState, order: OrderRequest, now: int)
    requires PaperPlace(s, order, now).1.Rejected?
    ensures PaperPlace(s, order, now).0 == s.(nextOrderId := s.nextOrderId + 1)
    ensures var reason := PaperPlace(s, order, now).1.reason;
      if order.ticker !in s.quotes then reason == NoMarketData
      else if order.ticker in s.positions then reason == PositionAlreadyOpen
      else if order.style == Maker then reason == MakerUnfilled
      else if order.limit.None? then reason == LimitRequired
      else
        var bar := QuoteBar(s.quotes[order.ticker]);
        if !Quoted(WORST, bar, order.side, 1, 99) then reason == NoFillableQuote
        else if !Quoted(WORST, bar, order.side, 1, order.limit.value) then reason == LimitExceeded
        else reason == InsufficientFunds
  {
    if order.ticker in s.quotes && order.limit.Some? && order.style == Taker {
      var quote := s.quotes[order.ticker];
      PaperMatchesReplay(WORST, quote, s.cash, order, None, None);
      QuotedIff(WORST, QuoteBar(quote), order.side, 1, 99);
      QuotedIff(WORST, QuoteBar(quote), order.side, 1, order.limit.value);
      hide Quoted, EntryFee;
    }
  }

  /** A settled market is paid par or nothing, no longer held, and its row says so. */
  lemma PaperSettlesTo(s: PaperState, ticker: string, resolution: Resolution, settledTs: int)
    requires PointsIntoLedger(s) && ticker in s.positions
    ensures var (id, after) := (s.positions[ticker], PaperSettle(s, ticker, resolution, settledTs));
      var row := s.ledger[id];
      var won := resolution.ResolvedTo? && resolution.side == row.side;
      var paid := if won then 100 * row.quantity else 0;
      var gross := paid - row.entryPrice * row.quantity;
      var fee := if row.entryFee.Some? then row.entryFee.value else 0;
      after == s.(cash := s.cash + paid, positions := s.positions - {ticker},
                  ledger := s.ledger[id := LedgerRow(
                    row.ticker, row.side, row.quantity, row.entryPrice, row.entryTs,
                    if won then RowSettledWon else RowSettledLost, row.entryFee, Some(settledTs),
                    Some(if won then 100 else 0), Some(gross), Some(0), Some(gross - fee))])
  {
    var row := s.ledger[s.positions[ticker]];
    assert (100 - row.entryPrice) * row.quantity == 100 * row.quantity - row.entryPrice * row.quantity;
  }
}
