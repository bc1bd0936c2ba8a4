/** The backtest's own ledger of linear perpetual round trips. */
module PerpLedger {
  import opened Wrappers
  import opened PerpPaper

  datatype LedgerError =
    | InvalidPosition | ExitNotAfterEntry | InvalidCostOrCollateral | InvalidMaintenance | InvalidMaxLeverage
    | QuoteUnavailable | QuoteOneSided | QuoteInvalid | IncompatibleMultiplier | EntryLeverageExceeded
    | FundingOutsideHold | InvalidFundingNotional

  datatype LedgerQuote = LedgerQuote(
    ts: int, availableAt: int, bid: Option<real>, ask: Option<real>, mark: real,
    multiplier: real, liquidation: Option<real>)

  /** One funding settlement, signed from the account's side. */
  datatype Funding = Funding(ts: int, rate: real, notional: real, payment: real)

  datatype PerpTrade = PerpTrade(
    entryTs: int, exitTs: int, size: real, entryMark: real, exitMark: real,
    entryFee: real, exitFee: real, funding: seq<Funding>,
    maxLeverageUsed: real, minDistance: Option<real>)

  function FundingTotal(funding: seq<Funding>): real {
    if funding == [] then 0.0 else FundingTotal(funding[..|funding| - 1]) + funding[|funding| - 1].payment
  }

  function GrossPnl(t: PerpTrade): real { t.size * (t.exitMark - t.entryMark) }

  function NetPnl(t: PerpTrade): real { GrossPnl(t) + FundingTotal(t.funding) - (t.entryFee + t.exitFee) }

  function LedgerLiquidation(size: real, entryPrice: real, multiplier: real, collateral: real, rate: real): Option<real>
    requires rate != 1.0 && rate != -1.0
  {
    var quantity := Units(size, multiplier);
    if quantity <= 0.0 || collateral <= 0.0 then None
    else
      var price := if size > 0.0 then Quotient(quantity * entryPrice - collateral, quantity, 1.0 - rate)
                   else Quotient(quantity * entryPrice + collateral, quantity, 1.0 + rate);
      if price > 0.0 then Some(price) else None
  }

  function QuoteFillPrice(quote: LedgerQuote, size: real, opening: bool): Result<real, LedgerError> {
    if quote.availableAt > quote.ts then Err(QuoteUnavailable)
    else if quote.bid.None? || quote.ask.None? then Err(QuoteOneSided)
    else if quote.bid.value <= 0.0 || quote.ask.value <= 0.0 || quote.bid.value > quote.ask.value || quote.mark <= 0.0
    then Err(QuoteInvalid)
    else Ok(if (size > 0.0) == opening then quote.ask.value else quote.bid.value)
  }

  function FundingFault(funding: seq<Funding>, entryTs: int, exitTs: int): Option<LedgerError> {
    if funding == [] then None
    else if !(entryTs <= funding[0].ts <= exitTs) then Some(FundingOutsideHold)
    else if funding[0].notional < 0.0 then Some(InvalidFundingNotional)
    else FundingFault(funding[1..], entryTs, exitTs)
  }

  function MaxNotional(funding: seq<Funding>, least: real): real {
    if funding == [] then least else MaxNotional(funding[1..], Max(least, funding[0].notional))
  }

  /** Distance of a mark from liquidation, as a share of the mark. */
  function Distance(size: real, mark: real, liquidation: real): real
    requires mark != 0.0
  {
    (if size > 0.0 then mark - liquidation else liquidation - mark) / mark
  }

  function Notional(size: real, multiplier: real, price: real): real { Abs(size) * multiplier * price }

  function Ratio(x: real, y: real): real
    requires y != 0.0
  {
    x / y
  }

  function SimulateTrade(
      entry: LedgerQuote, exit: LedgerQuote, size: real, collateral: real, feeRate: real,
      funding: seq<Funding>, maxLeverage: real, rate: real): Result<PerpTrade, LedgerError>
  {
    if size == 0.0 then Err(InvalidPosition)
    else if exit.ts <= entry.ts then Err(ExitNotAfterEntry)
    else if feeRate < 0.0 || collateral <= 0.0 then Err(InvalidCostOrCollateral)
    else if !(0.0 < rate < 1.0) then Err(InvalidMaintenance)
    else if maxLeverage <= 0.0 then Err(InvalidMaxLeverage)
    else
      var entryPrice := QuoteFillPrice(entry, size, true);
      var exitPrice := QuoteFillPrice(exit, size, false);
      if entryPrice.Err? then Err(entryPrice.error)
      else if exitPrice.Err? then Err(exitPrice.error)
      else if entry.multiplier <= 0.0 || entry.multiplier != exit.multiplier then Err(IncompatibleMultiplier)
      else
        var entryNotional := Notional(size, entry.multiplier, entryPrice.value);
        if Ratio(entryNotional, collateral) > maxLeverage + LEVERAGE_TOLERANCE then Err(EntryLeverageExceeded)
        else
          var fault := FundingFault(funding, entry.ts, exit.ts);
          if fault.Some? then Err(fault.value)
          else
            var liquidation :=
              if entry.liquidation.Some? && entry.liquidation.value != 0.0 then entry.liquidation
              else LedgerLiquidation(size, entryPrice.value, entry.multiplier, collateral, rate);
            Ok(PerpTrade(
              entry.ts, exit.ts, size * entry.multiplier, entryPrice.value, exitPrice.value,
              entryNotional * feeRate, Notional(size, entry.multiplier, exitPrice.value) * feeRate, funding,
              Ratio(MaxNotional(funding, Max(entryNotional, Notional(size, entry.multiplier, exit.mark))), collateral),
              if liquidation.None? then None
              else Some(Min(Distance(size, entry.mark, liquidation.value),
                  Distance(size, exit.mark, liquidation.value)))))
  }
}
