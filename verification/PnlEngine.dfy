/** Profit and loss of one position, its liquidation price and the cross-margin test. */
module PnlEngine {
  import opened Market

  datatype TradePnL = TradePnL(gross: real, fees: real, funding: real, net: real)

  function ComputeTradePnL(side: Side, quantity: real, entryPrice: real, exitPrice: real,
                           entryFee: real, exitFee: real, fundingPaid: real): TradePnL
  {
    var gross := (exitPrice - entryPrice) * quantity * Direction(side);
    var fees := entryFee + exitFee;
    TradePnL(gross, fees, fundingPaid, gross - fees - fundingPaid)
  }

  function UnrealizedPnL(side: Side, quantity: real, entryPrice: real, price: real): real {
    (price - entryPrice) * quantity * Direction(side)
  }

  function LiquidationPrice(side: Side, entryPrice: real, quantity: real, balance: real, mmr: Fraction): Option<real> {
    if quantity <= 0.0 then None
    else if side.Long? then
      var price := (quantity * entryPrice - balance) / (quantity * (1.0 - mmr));
      if price > 0.0 then Some(price) else None
    else Some((balance + quantity * entryPrice) / (quantity * (1.0 + mmr)))
  }

  function Equity(side: Side, entryPrice: real, quantity: real, balance: real, mark: real): real {
    balance + UnrealizedPnL(side, quantity, entryPrice, mark)
  }

  predicate Liquidatable(side: Side, entryPrice: real, quantity: real, balance: real, mmr: Fraction, mark: real) {
    Equity(side, entryPrice, quantity, balance, mark) <= mmr * mark * quantity
  }

  /** The mark has reached the level, going against the position. */
  predicate AtOrBeyond(side: Side, mark: real, level: real) {
    if side.Long? then mark <= level else mark >= level
  }

  lemma DivisionCancels(a: real, b: real)
    requires b != 0.0
    ensures a / b * b == a
  {}

  /** Equity above maintenance grows linearly with the distance from the liquidation price. */
  lemma ExcessOverMaintenance(side: Side, entryPrice: real, quantity: real, balance: real, mmr: Fraction, mark: real,
                              price: real)
    requires quantity > 0.0
    requires side.Long? ==> price * (quantity * (1.0 - mmr)) == quantity * entryPrice - balance
    requires side.Short? ==> price * (quantity * (1.0 + mmr)) == balance + quantity * entryPrice
    ensures Equity(side, entryPrice, quantity, balance, mark) - mmr * mark * quantity
         == if side.Long? then quantity * (1.0 - mmr) * (mark - price) else quantity * (1.0 + mmr) * (price - mark)
  {}

  lemma ProductSign(a: real, b: real)
    requires a > 0.0
    ensures a * b <= 0.0 <==> b <= 0.0
  {}

  /** The liquidation price is the exact margin threshold: an account is liquidatable at a positive mark if and only
      if that mark is at or beyond the price, and never when there is no such price. */
  lemma LiquidationPriceIsTheMarginThreshold(side: Side, entryPrice: real, quantity: real, balance: real,
                                             mmr: Fraction, mark: real)
    requires quantity > 0.0 && mark > 0.0
    ensures var p := LiquidationPrice(side, entryPrice, quantity, balance, mmr);
      Liquidatable(side, entryPrice, quantity, balance, mmr, mark) <==> p.Some? && AtOrBeyond(side, mark, p.value)
  {
    var divisor := if side.Long? then quantity * (1.0 - mmr) else quantity * (1.0 + mmr);
    var owed := if side.Long? then quantity * entryPrice - balance else balance + quantity * entryPrice;
    assert divisor > 0.0;
    DivisionCancels(owed, divisor);
    var price := owed / divisor;
    ExcessOverMaintenance(side, entryPrice, quantity, balance, mmr, mark, price);
    ProductSign(divisor, if side.Long? then mark - price else price - mark);
  }

  /** At the liquidation price itself equity equals the maintenance margin. */
  lemma AtLiquidationEquityIsMaintenance(side: Side, entryPrice: real, quantity: real, balance: real, mmr: Fraction)
    requires quantity > 0.0 && LiquidationPrice(side, entryPrice, quantity, balance, mmr).Some?
    ensures var p := LiquidationPrice(side, entryPrice, quantity, balance, mmr).value;
      Equity(side, entryPrice, quantity, balance, p) == mmr * p * quantity
  {}
}
