/** What each operation on a perpetual answers, said of prices and sizes: when an order
    fills and at what, what an entry may be, when and where a step closes, and which
    round trips the ledger accepts. */
module PerpAnswers {
  import opened Wrappers
  import opened PerpPaper
  import opened PerpLaws
  import PerpLedger

  function Size(quantity: real): real { if quantity > 0.0 then quantity else -quantity }

  // ---- entry ----

  /** A price is on the grid when it is as near to a whole number of ticks as rounding
      of the quotient can tell. */
  lemma OnTickIff(price: real, tick: real)
    requires price > 0.0 && tick > 0.0
    ensures OnTick(price, tick) <==> exists n: int :: NearTicks(price, tick, n)
  {
    var ticks := price / tick;
    var nearest := (ticks + 0.5).Floor;
    SignOfQuotient(price, tick);
    if OnTick(price, tick) { assert NearTicks(price, tick, nearest); }
    if n: int :| NearTicks(price, tick, n) { NearestOnly(ticks, n); }
  }

  /** `n` ticks are nearest, within a billionth of either or a hundredth of a millionth. */
  predicate NearTicks(price: real, tick: real, n: int)
    requires tick != 0.0
  {
    var ticks := price / tick;
    var (off, n') := (if ticks >= n as real then ticks - n as real else n as real - ticks, n as real);
    && off <= 0.5
    && (off <= 0.000000001 * ticks || off <= 0.000000001 * n' || off <= 0.00000001)
  }

  lemma NearestOnly(ticks: real, n: int)
    requires ticks > 0.0 && n as real - 0.5 <= ticks <= n as real + 0.5
    ensures (ticks + 0.5).Floor == n || (ticks == n as real + 0.5 && (ticks + 0.5).Floor == n + 1)
  {}

  /** An order fills exactly when it has a size, its contract makes sense, the quote was
      available by then, and the side it takes is priced on the grid. */
  lemma OrderFillsIff(quantity: real, contract: Contract, quote: PerpQuote, decisionTs: int)
    ensures FillOrder(quantity, contract, quote, decisionTs).Ok? <==>
      && quantity != 0.0 && Size(quantity) >= contract.minimumSize
      && contract.tickSize > 0.0 && contract.multiplier > 0.0 && contract.feeRate >= 0.0
      && quote.availableAt <= decisionTs
      && (if quantity > 0.0 then quote.ask.Some? && quote.ask.value > 0.0 && OnTick(quote.ask.value, contract.tickSize)
          else quote.bid.Some? && quote.bid.value > 0.0 && OnTick(quote.bid.value, contract.tickSize))
  {}

  /** It fills at the ask when it buys and at the bid when it sells, and pays the fee
      rate on the notional. */
  lemma OrderFillIs(quantity: real, contract: Contract, quote: PerpQuote, decisionTs: int)
    requires FillOrder(quantity, contract, quote, decisionTs).Ok?
    ensures var fill := FillOrder(quantity, contract, quote, decisionTs).value;
      && Some(fill.price) == (if quantity > 0.0 then quote.ask else quote.bid)
      && fill.quantity == quantity && fill.observedAt == quote.observedAt
      && fill.fee == Size(quantity) * contract.multiplier * fill.price * contract.feeRate
  {}

  /** The first reason that applies. */
  lemma OrderRefusedBecause(quantity: real, contract: Contract, quote: PerpQuote, decisionTs: int)
    requires FillOrder(quantity, contract, quote, decisionTs).Err?
    ensures var error := FillOrder(quantity, contract, quote, decisionTs).error;
      var side := if quantity > 0.0 then quote.ask else quote.bid;
      if quantity == 0.0 || Size(quantity) < contract.minimumSize then error == MinimumSize
      else if contract.tickSize <= 0.0 || contract.multiplier <= 0.0 || contract.feeRate < 0.0
          then error == InvalidContract
      else if quote.availableAt > decisionTs then error == StaleQuote
      else if side.None? || side.value <= 0.0 then error == OneSidedQuote
      else error == OffTickQuote
  {}

  /** An entry's leverage is its notional over its collateral, and is allowed exactly up
      to the caller's cap or three, whichever is less. */
  lemma LeverageIff(quantity: real, multiplier: real, price: real, collateral: real, maxLeverage: real)
    ensures var leverage := EntryLeverage(quantity, multiplier, price, collateral, maxLeverage);
      var cap := if maxLeverage >= 3.0 then 3.0 else if maxLeverage >= 0.0 then maxLeverage else 0.0;
      var notional := Size(quantity) * multiplier * price;
      && (collateral <= 0.0 ==> leverage == Err(NoCollateral))
      && (collateral > 0.0 ==>
            && (leverage.Ok? <==> notional <= (cap + 0.000000001) * collateral)
            && (leverage.Ok? ==> leverage.value * collateral == notional)
            && (leverage.Err? ==> leverage.error == LeverageExceeded))
  {
    if collateral > 0.0 {
      var notional := Size(quantity) * multiplier * price;
      var cap := if maxLeverage >= 3.0 then 3.0 else if maxLeverage >= 0.0 then maxLeverage else 0.0;
      AtMost(notional, collateral, cap + 0.000000001);
    }
  }

  lemma AtMost(x: real, y: real, bound: real)
    requires y > 0.0
    ensures x / y <= bound <==> x <= bound * y
    ensures x / y * y == x
  {
    var q := x / y;
    assert q * y == x;
    if q <= bound { assert (bound - q) * y >= 0.0; } else { assert (q - bound) * y > 0.0; }
  }

  /** A bracket is sound when both levels are positive and lie on their own sides of the
      entry. */
  lemma BracketSoundIff(bracket: Bracket, entryPrice: real, quantity: real)
    ensures BracketFault(bracket, entryPrice, quantity).None? <==>
      && bracket.stopLoss > 0.0 && bracket.takeProfit > 0.0
      && ((quantity > 0.0 && bracket.stopLoss < entryPrice && entryPrice < bracket.takeProfit)
          || (quantity < 0.0 && bracket.takeProfit < entryPrice && entryPrice < bracket.stopLoss))
  {}

  lemma BracketRefusedBecause(bracket: Bracket, entryPrice: real, quantity: real)
    requires BracketFault(bracket, entryPrice, quantity).Some?
    ensures var fault := BracketFault(bracket, entryPrice, quantity).value;
      && (fault == LongBracketOrder ==> quantity > 0.0 && !(bracket.stopLoss < entryPrice < bracket.takeProfit))
      && (fault == ShortBracketOrder ==> quantity < 0.0 && !(bracket.takeProfit < entryPrice < bracket.stopLoss))
      && (fault == InvalidBracket <==> quantity == 0.0 || bracket.stopLoss <= 0.0 || bracket.takeProfit <= 0.0)
      && fault in {LongBracketOrder, ShortBracketOrder, InvalidBracket}
  {}

  /** An entry is opened exactly when its order fills, its notional at the price it takes
      is within the cap of its collateral, and its bracket straddles that price. */
  lemma EntryOpensIff(
      quantity: real, contract: Contract, quote: PerpQuote, decisionTs: int, bracket: Option<Bracket>,
      collateral: real, maxLeverage: real)
    ensures var cap := if maxLeverage >= 3.0 then 3.0 else if maxLeverage >= 0.0 then maxLeverage else 0.0;
            var side := if quantity > 0.0 then quote.ask else quote.bid;
      Admissible(quantity, contract, quote, decisionTs, bracket, collateral, maxLeverage) <==>
        && FillOrder(quantity, contract, quote, decisionTs).Ok?
        && side.Some? && collateral > 0.0
        && Size(quantity) * contract.multiplier * side.value <= (cap + 0.000000001) * collateral
        && bracket.Some? && bracket.value.stopLoss > 0.0 && bracket.value.takeProfit > 0.0
        && (if quantity > 0.0 then bracket.value.stopLoss < side.value < bracket.value.takeProfit
            else bracket.value.takeProfit < side.value < bracket.value.stopLoss)
  {
    hide FillOrder, EntryLeverage, BracketFault, Size;
    OrderFillsIff(quantity, contract, quote, decisionTs);
    if FillOrder(quantity, contract, quote, decisionTs).Ok? {
      OrderFillIs(quantity, contract, quote, decisionTs);
      var price := FillOrder(quantity, contract, quote, decisionTs).value.price;
      LeverageIff(quantity, contract.multiplier, price, collateral, maxLeverage);
      if bracket.Some? { BracketSoundIff(bracket.value, price, quantity); }
    }
  }

  // ---- marking and funding ----

  lemma MarkIs(account: AccountState, mark: real, liquidation: Option<real>)
    requires mark > 0.0 && account.multiplier > 0.0
    ensures MarkPosition(account, mark, liquidation).Ok?
    ensures var m := MarkPosition(account, mark, liquidation).value;
      && m.unrealized == account.quantity * account.multiplier * mark
                         - account.quantity * account.multiplier * account.entryPrice
      && m.equity == account.collateral + account.realized + account.funding - account.fees + m.unrealized
      && m.notional == Size(account.quantity) * account.multiplier * mark
      && (m.leverage.Some? <==> m.equity > 0.0)
      && (m.leverage.Some? ==> m.leverage.value * m.equity == m.notional)
      && (m.distance.Some? <==> liquidation.Some?)
      && (m.distance.Some? ==> IsDistance(m.distance.value, account.quantity, mark, liquidation.value))
  {
    var m := MarkPosition(account, mark, liquidation).value;
    if m.equity > 0.0 { AtMost(m.notional, m.equity, 0.0); }
    if liquidation.Some? {
      AtMost(if account.quantity > 0.0 then mark - liquidation.value else liquidation.value - mark, mark, 0.0);
    }
  }

  /** A positive rate is paid by the long and to the short, on the notional at the mark;
      a position that has left "open" is paid nothing. */
  lemma FundingIs(p: PositionState, rate: real, mark: real)
    ensures Funded(p, rate, mark) ==
      p.(funding := p.funding - if p.status == Open then p.quantity * p.multiplier * mark * rate else 0.0)
    ensures p.status == Open && p.multiplier > 0.0 && mark > 0.0 && rate > 0.0 ==>
      (p.quantity > 0.0 ==> Funded(p, rate, mark).funding < p.funding)
      && (p.quantity < 0.0 ==> Funded(p, rate, mark).funding > p.funding)
  {
    if p.multiplier > 0.0 && mark > 0.0 && rate > 0.0 {
      PositiveProduct(p.multiplier, mark);
      PositiveProduct(p.multiplier * mark, rate);
      if p.quantity > 0.0 { PositiveProduct(p.quantity, p.multiplier * mark * rate); }
      if p.quantity < 0.0 { PositiveProduct(-p.quantity, p.multiplier * mark * rate); }
      assert p.quantity * p.multiplier * mark * rate == p.quantity * (p.multiplier * mark * rate);
    }
  }

  // ---- the step ----

  /** The mark is on the adverse side of the level, or on it. */
  predicate Beyond(quantity: real, mark: real, level: real) {
    if quantity > 0.0 then mark <= level else mark >= level
  }

  /** The mark moved by more than a twentieth of the previous one. */
  predicate Jumped(mark: real, prevMark: Option<real>) {
    && prevMark.Some? && prevMark.value > 0.0
    && (20.0 * (mark - prevMark.value) > prevMark.value || 20.0 * (prevMark.value - mark) > prevMark.value)
  }

  lemma GappedIff(mark: real, prevMark: Option<real>)
    ensures Gapped(mark, prevMark) <==> Jumped(mark, prevMark)
  {
    if prevMark.Some? && prevMark.value > 0.0 {
      AtMost(Abs(mark - prevMark.value), prevMark.value, 0.05);
    }
  }

  /** A step, in order: a halt closes at whatever mark there is; without a positive mark
      it waits; at or beyond the liquidation price it is liquidated there; then, with a
      bracket, it exits at the stop when the mark is at or beyond it, else at the target
      when the mark has reached that, each at its own level unless the mark jumped,
      and then at the mark; otherwise it holds. */
  lemma StepDecidesIff(
      quantity: real, bracket: Option<Bracket>, mark: Option<real>, prevMark: Option<real>,
      liquidation: Option<real>, halted: bool)
    requires quantity != 0.0
    ensures var d := EvaluateStep(quantity, bracket, mark, prevMark, liquidation, halted);
      if halted then d == CloseStep(EmergencyHalt, mark)
      else if mark.None? || mark.value <= 0.0 then d == HoldForMark
      else if liquidation.Some? && Beyond(quantity, mark.value, liquidation.value)
      then d == CloseStep(Liquidation, liquidation)
      else if bracket.Some? && Beyond(quantity, mark.value, bracket.value.stopLoss)
      then d == (if Jumped(mark.value, prevMark) then CloseStep(StopLossGap, mark)
                 else CloseStep(StopLoss, Some(bracket.value.stopLoss)))
      else if bracket.Some? && Beyond(-quantity, mark.value, bracket.value.takeProfit)
      then d == (if Jumped(mark.value, prevMark) then CloseStep(TakeProfitGap, mark)
                 else CloseStep(TakeProfit, Some(bracket.value.takeProfit)))
      else d == HoldStep
  {
    if mark.Some? { GappedIff(mark.value, prevMark); }
    hide Gapped, Jumped;
  }

  /** A long of one stopped at 90 by a mark of 89 is closed at 90, not at its target. */
  lemma StoppedAtTheStop()
    ensures EvaluateStep(1.0, Some(Bracket(90.0, 110.0)), Some(89.0), Some(91.0), None, false)
         == CloseStep(StopLoss, Some(90.0))
  {
    GappedIff(89.0, Some(91.0));
  }

  /** What the position is worth at the mark no longer exceeds its maintenance. */
  predicate AtMaintenance(p: PositionState, collateral: real, rate: real, mark: real) {
    EquityOf(p.quantity, p.entryPrice, p.multiplier, collateral, mark)
      <= MaintenanceOf(p.quantity, p.multiplier, rate, mark)
  }

  /** An open position is liquidated at a positive mark exactly when what it is worth
      there no longer exceeds its maintenance, if there is a price at which it would be. */
  lemma LiquidatesIff(p: PositionState, rate: real, tick: Tick)
    requires p.status == Open && Live(p.quantity, p.entryPrice, p.multiplier) && -1.0 < rate < 1.0
    requires !tick.halted && tick.mark.Some? && tick.mark.value > 0.0
    ensures var d := DecideTick(p, rate, tick);
      var mark := tick.mark.value;
      var price := LiquidationPrice(p.quantity, p.entryPrice, p.multiplier, tick.collateral, rate);
      && (d.CloseStep? && d.reason == Liquidation <==> price.Some? && AtMaintenance(p, tick.collateral, rate, mark))
      && (d.CloseStep? && d.reason == Liquidation ==> d.exitPrice == price)
  {
    LiquidationSound(p.quantity, p.entryPrice, p.multiplier, tick.collateral, rate, tick.mark.value);
    var price := LiquidationPrice(p.quantity, p.entryPrice, p.multiplier, tick.collateral, rate);
    StepDecidesIff(p.quantity, tick.bracket, tick.mark, tick.prevMark, price, tick.halted);
    var d, mark := DecideTick(p, rate, tick), tick.mark.value;
    assert d == EvaluateStep(p.quantity, tick.bracket, tick.mark, tick.prevMark, price, tick.halted);
    assert d.CloseStep? && d.reason == Liquidation <==> price.Some? && Beyond(p.quantity, mark, price.value);
    assert price.Some? ==> (Beyond(p.quantity, mark, price.value) <==> AtMaintenance(p, tick.collateral, rate, mark));
  }

  /** Otherwise a tick does what the step decides with the position's own liquidation
      price, and a position that has left "open" holds. */
  lemma TickDecides(p: PositionState, rate: real, tick: Tick)
    requires rate != 1.0 && rate != -1.0
    ensures DecideTick(p, rate, tick) == if p.status != Open then HoldNotOpen
      else EvaluateStep(p.quantity, tick.bracket, tick.mark, tick.prevMark,
                        LiquidationPrice(p.quantity, p.entryPrice, p.multiplier, tick.collateral, rate), tick.halted)
  {}

  /** A close realizes the move from the entry, charges the fee rate on the notional it
      leaves at, and is a liquidation only when that is the reason. */
  lemma CloseIs(p: PositionState, feeRate: real, exitPrice: real, reason: ExitReason)
    ensures var closed := ClosedAt(p, feeRate, exitPrice, reason);
      if p.multiplier <= 0.0 || exitPrice <= 0.0 then closed == Err(InvalidClose)
      else
        && closed.Ok?
        && closed.value == p.(status := if reason == Liquidation then Liquidated else Closed,
                              fee := closed.value.fee, realized := closed.value.realized)
        && closed.value.fee == p.fee + Size(p.quantity) * p.multiplier * exitPrice * feeRate
        && closed.value.realized == p.quantity * p.multiplier * (exitPrice - p.entryPrice)
  {}

  /** A tick closes the position when its decision names a price other than zero, and
      leaves it otherwise. */
  lemma TickCloses(p: PositionState, feeRate: real, rate: real, tick: Tick)
    requires rate != 1.0 && rate != -1.0
    ensures var d := DecideTick(p, rate, tick);
      if d.CloseStep? && d.exitPrice.Some? && d.exitPrice.value != 0.0
      then Stepped(p, feeRate, rate, tick) == ClosedAt(p, feeRate, d.exitPrice.value, d.reason)
      else Stepped(p, feeRate, rate, tick) == Ok(p)
  {}

  // ---- the ledger's round trips ----

  /** A quote can be traded on when it was available at its time, has both sides in
      order, and a mark; a buy then pays the ask and a sale gets the bid. */
  lemma LedgerFillIs(quote: PerpLedger.LedgerQuote, size: real, opening: bool)
    ensures var filled := PerpLedger.QuoteFillPrice(quote, size, opening);
      && (filled.Ok? <==> quote.availableAt <= quote.ts && quote.bid.Some? && quote.ask.Some? && quote.mark > 0.0
                          && 0.0 < quote.bid.value && quote.bid.value <= quote.ask.value)
      && (filled.Ok? && opening ==> filled.value == if size > 0.0 then quote.ask.value else quote.bid.value)
      && (filled.Ok? && !opening ==> filled.value == if size > 0.0 then quote.bid.value else quote.ask.value)
  {}

  lemma {:induction false} FundingSoundIff(funding: seq<PerpLedger.Funding>, entryTs: int, exitTs: int)
    ensures PerpLedger.FundingFault(funding, entryTs, exitTs).None? <==>
      forall i :: 0 <= i < |funding| ==>
          entryTs <= funding[i].ts && funding[i].ts <= exitTs && funding[i].notional >= 0.0
  {
    if funding != [] { FundingSoundIff(funding[1..], entryTs, exitTs); }
  }

  /** A round trip is accepted exactly when it has a size and goes forward in time, its
      costs and rates make sense, both quotes can be traded on with one multiplier,
      its entry is within the leverage asked for, and its funding lies inside it. */
  lemma TradeAcceptedIff(
      entry: PerpLedger.LedgerQuote, exit: PerpLedger.LedgerQuote, size: real, collateral: real, feeRate: real,
      funding: seq<PerpLedger.Funding>, maxLeverage: real, rate: real)
    ensures PerpLedger.SimulateTrade(entry, exit, size, collateral, feeRate, funding, maxLeverage, rate).Ok? <==>
      && size != 0.0 && entry.ts < exit.ts && feeRate >= 0.0 && collateral > 0.0 && 0.0 < rate && rate < 1.0
      && maxLeverage > 0.0
      && PerpLedger.QuoteFillPrice(entry, size, true).Ok? && PerpLedger.QuoteFillPrice(exit, size, false).Ok?
      && entry.multiplier > 0.0 && entry.multiplier == exit.multiplier
      && Size(size) * entry.multiplier * PerpLedger.QuoteFillPrice(entry, size, true).value
           <= (maxLeverage + 0.000000001) * collateral
      && (forall i :: 0 <= i < |funding| ==>
          entry.ts <= funding[i].ts && funding[i].ts <= exit.ts && funding[i].notional >= 0.0)
  {
    hide PerpLedger.QuoteFillPrice, PerpLedger.FundingFault, PerpLedger.LedgerLiquidation, PerpLedger.MaxNotional;
    hide PerpLedger.Distance, PerpLedger.Notional, PerpLedger.Ratio, Size, Max, Min;
    FundingSoundIff(funding, entry.ts, exit.ts);
    var price := PerpLedger.QuoteFillPrice(entry, size, true);
    if collateral > 0.0 && price.Ok? {
      NotionalIs(size, entry.multiplier, price.value);
      RatioOf(PerpLedger.Notional(size, entry.multiplier, price.value), collateral, maxLeverage + LEVERAGE_TOLERANCE);
    }
  }

  lemma SameSize(quantity: real)
    ensures Abs(quantity) == Size(quantity)
  {}

  lemma {:induction false} MaxNotionalIs(funding: seq<PerpLedger.Funding>, least: real)
    ensures var most := PerpLedger.MaxNotional(funding, least);
      && least <= most && (forall i :: 0 <= i < |funding| ==> funding[i].notional <= most)
      && (most == least || exists i :: 0 <= i < |funding| && most == funding[i].notional)
  {
    if funding != [] {
      MaxNotionalIs(funding[1..], Max(least, funding[0].notional));
      var most := PerpLedger.MaxNotional(funding, least);
      assert forall i :: 1 <= i < |funding| ==> funding[i] == funding[1..][i - 1];
      if most != least && most != funding[0].notional {
        var i :| 0 <= i < |funding| - 1 && most == funding[1..][i].notional;
        assert funding[i + 1].notional == most;
      }
    }
  }

  /** The largest notional of a round trip: at entry, at the exit mark, or of a funding. */
  function LargestNotional(
      entry: PerpLedger.LedgerQuote, exit: PerpLedger.LedgerQuote, size: real, funding: seq<PerpLedger.Funding>): real
    requires PerpLedger.QuoteFillPrice(entry, size, true).Ok?
  {
    PerpLedger.MaxNotional(
      funding, Max(PerpLedger.Notional(size, entry.multiplier, PerpLedger.QuoteFillPrice(entry, size, true).value),
                   PerpLedger.Notional(size, entry.multiplier, exit.mark)))
  }

  lemma LargestNotionalIs(
      entry: PerpLedger.LedgerQuote, exit: PerpLedger.LedgerQuote, size: real, funding: seq<PerpLedger.Funding>)
    requires PerpLedger.QuoteFillPrice(entry, size, true).Ok?
    ensures var largest := LargestNotional(entry, exit, size, funding);
      var atEntry := PerpLedger.Notional(size, entry.multiplier, PerpLedger.QuoteFillPrice(entry, size, true).value);
      var atExit := PerpLedger.Notional(size, entry.multiplier, exit.mark);
      && atEntry <= largest && atExit <= largest && (forall i :: 0 <= i < |funding| ==> funding[i].notional <= largest)
      && (largest == atEntry || largest == atExit || exists i :: 0 <= i < |funding| && largest == funding[i].notional)
  {
    hide PerpLedger.Notional, PerpLedger.QuoteFillPrice;
    MaxNotionalIs(
      funding, Max(PerpLedger.Notional(size, entry.multiplier, PerpLedger.QuoteFillPrice(entry, size, true).value),
                   PerpLedger.Notional(size, entry.multiplier, exit.mark)));
  }

  lemma NotionalIs(size: real, multiplier: real, price: real)
    ensures PerpLedger.Notional(size, multiplier, price) == Size(size) * multiplier * price
  {}

  /** What an accepted round trip says of its risk: the leverage of its largest notional. */
  lemma TradeLeverageIs(
      entry: PerpLedger.LedgerQuote, exit: PerpLedger.LedgerQuote, size: real, collateral: real, feeRate: real,
      funding: seq<PerpLedger.Funding>, maxLeverage: real, rate: real)
    requires PerpLedger.SimulateTrade(entry, exit, size, collateral, feeRate, funding, maxLeverage, rate).Ok?
    ensures PerpLedger.QuoteFillPrice(entry, size, true).Ok?
    ensures var t := PerpLedger.SimulateTrade(entry, exit, size, collateral, feeRate, funding, maxLeverage, rate).value;
      t.maxLeverageUsed * collateral == LargestNotional(entry, exit, size, funding)
      && t.entryTs == entry.ts && t.exitTs == exit.ts
  {
    hide PerpLedger.Notional, PerpLedger.QuoteFillPrice, PerpLedger.Ratio, PerpLedger.MaxNotional,
        PerpLedger.FundingFault;
    hide PerpLedger.LedgerLiquidation, PerpLedger.Distance, Max, Min;
    RatioOf(LargestNotional(entry, exit, size, funding), collateral, 0.0);
  }

  lemma RatioOf(x: real, y: real, bound: real)
    requires y > 0.0
    ensures PerpLedger.Ratio(x, y) * y == x
    ensures PerpLedger.Ratio(x, y) <= bound <==> x <= bound * y
  {
    AtMost(x, y, bound);
  }

  /** And how near either of its two marks came to the liquidation price the venue gave,
      or else the one that follows from its collateral. */
  lemma TradeDistanceIs(
      entry: PerpLedger.LedgerQuote, exit: PerpLedger.LedgerQuote, size: real, collateral: real, feeRate: real,
      funding: seq<PerpLedger.Funding>, maxLeverage: real, rate: real)
    requires PerpLedger.SimulateTrade(entry, exit, size, collateral, feeRate, funding, maxLeverage, rate).Ok?
    ensures var t := PerpLedger.SimulateTrade(entry, exit, size, collateral, feeRate, funding, maxLeverage, rate).value;
      var given := entry.liquidation.Some? && entry.liquidation.value != 0.0;
      var liquidation := if given then entry.liquidation
                         else PerpLedger.LedgerLiquidation(size, t.entryMark, entry.multiplier, collateral, rate);
      && (t.minDistance.Some? <==> liquidation.Some?)
      && (liquidation.Some? ==> NearestOf(t.minDistance.value, size, entry.mark, exit.mark, liquidation.value))
  {
    hide PerpLedger.MaxNotional, PerpLedger.FundingFault, PerpLedger.LedgerLiquidation, NearestOf;
    hide PerpLedger.Distance, PerpLedger.QuoteFillPrice, Abs, Min, Max;
    var t := PerpLedger.SimulateTrade(entry, exit, size, collateral, feeRate, funding, maxLeverage, rate).value;
    QuotesAreMarked(entry, exit, size, collateral, feeRate, funding, maxLeverage, rate);
    if t.minDistance.Some? {
      var given := entry.liquidation.Some? && entry.liquidation.value != 0.0;
      var liquidation := if given then entry.liquidation
                         else PerpLedger.LedgerLiquidation(size, t.entryMark, entry.multiplier, collateral, rate);
      NearerOfTwo(size, entry.mark, exit.mark, liquidation.value);
    }
  }

  /** The distance from one of the marks, and no further than from the other. */
  predicate NearestOf(distance: real, size: real, one: real, other: real, price: real) {
    && Nearer(distance, size, one, price) && Nearer(distance, size, other, price)
    && (IsDistance(distance, size, one, price) || IsDistance(distance, size, other, price))
  }

  lemma QuotesAreMarked(
      entry: PerpLedger.LedgerQuote, exit: PerpLedger.LedgerQuote, size: real, collateral: real, feeRate: real,
      funding: seq<PerpLedger.Funding>, maxLeverage: real, rate: real)
    requires PerpLedger.SimulateTrade(entry, exit, size, collateral, feeRate, funding, maxLeverage, rate).Ok?
    ensures entry.mark > 0.0 && exit.mark > 0.0 && collateral > 0.0
  {
    hide PerpLedger.MaxNotional, PerpLedger.FundingFault, PerpLedger.LedgerLiquidation, PerpLedger.Distance, Abs;
  }

  predicate IsDistance(distance: real, size: real, mark: real, price: real) {
    distance * mark == if size > 0.0 then mark - price else price - mark
  }

  predicate Nearer(distance: real, size: real, mark: real, price: real) {
    distance * mark <= if size > 0.0 then mark - price else price - mark
  }

  lemma DistanceIs(size: real, mark: real, price: real)
    requires mark > 0.0
    ensures IsDistance(PerpLedger.Distance(size, mark, price), size, mark, price)
  {
    AtMost(if size > 0.0 then mark - price else price - mark, mark, 0.0);
  }

  lemma NearerOfTwo(size: real, one: real, other: real, price: real)
    requires one > 0.0 && other > 0.0
    ensures NearestOf(Min(PerpLedger.Distance(size, one, price), PerpLedger.Distance(size, other, price)),
                      size, one, other, price)
  {
    var x, y := PerpLedger.Distance(size, one, price), PerpLedger.Distance(size, other, price);
    DistanceIs(size, one, price);
    DistanceIs(size, other, price);
    var nearer := Min(x, y);
    assert (x - nearer) * one >= 0.0 && (y - nearer) * other >= 0.0;
  }
}
