/** The one cost and cash model of paper, backtest and rollover: slippage, fees, funding, settlement, cooldown. */
module Accounting {
  import opened Market
  import opened PnlEngine
  import opened PositionManager

  datatype Costs = Costs(taker: real, maker: real, baseBps: real, impactBpsPer10k: real, stopMultiplier: real,
                         liquidationFee: real)

  datatype Config = Config(
    costs: Costs,
    mmr: Fraction,
    liquidationIsFatal: bool,
    bankruptcyFraction: real,
    sameBarExtreme: bool,
    forceSettleAfter: nat,
    minViableEquity: real,
    quantityStep: real -> real,             // rounds a quantity down to the lot size
    belowMinimum: (real, real) -> bool)     // (notional, price): refused by the exchange minimum

  function SlippageBps(kind: OrderKind, notional: real, c: Costs): real {
    if kind.TakeProfitOrder? then 0.0
    else
      var bps := c.baseBps + c.impactBpsPer10k * (notional / 10000.0);
      if kind.StopOrder? || kind.LiquidationOrder? then bps * c.stopMultiplier else bps
  }

  /** Opening a long or closing a short buys and pays up; the other two sell and receive less. */
  function SlippedPrice(reference: real, side: Side, reduceOnly: bool, bps: real): real {
    var adverse := if reduceOnly then -Direction(side) else Direction(side);
    reference * (1.0 + adverse * bps / 10000.0)
  }

  function FeeRate(kind: OrderKind, c: Costs): real { if kind.TakeProfitOrder? then c.maker else c.taker }

  function ExitPrice(side: Side, quantity: real, reference: real, kind: OrderKind, c: Costs): real {
    SlippedPrice(reference, side, true, SlippageBps(kind, reference * quantity, c))
  }

  function LiquidationPenalty(kind: OrderKind, exitPrice: real, quantity: real, c: Costs): real {
    if kind.LiquidationOrder? then exitPrice * quantity * c.liquidationFee else 0.0
  }

  /** The modelled fill of a closing order: its slipped price and its fee, without any liquidation penalty. */
  datatype Quote = Quote(price: real, fee: real)

  function ExitQuote(side: Side, quantity: real, reference: real, kind: OrderKind, c: Costs): Quote {
    var price := ExitPrice(side, quantity, reference, kind, c);
    Quote(price, price * quantity * FeeRate(kind, c))
  }

  /** The modelled fill of a market entry. */
  function EntryQuote(side: Side, quantity: real, reference: real, c: Costs): Quote {
    var price := SlippedPrice(reference, side, false, SlippageBps(MarketOrder, reference * quantity, c));
    Quote(price, price * quantity * c.taker)
  }

  function FundingPayment(side: Side, quantity: real, mark: real, rate: real): real {
    quantity * mark * rate * Direction(side)
  }

  datatype Settlement = Settlement(newBalance: real, badDebt: real)

  /** A shortfall is recorded, never hidden, and never while cash is left. */
  function SettleClose(balance: real, gross: real, exitFee: real): (s: Settlement)
    ensures s.newBalance - s.badDebt == balance + gross - exitFee
    ensures s.newBalance >= 0.0 && s.badDebt >= 0.0 && (s.newBalance == 0.0 || s.badDebt == 0.0)
  {
    var raw := balance + gross - exitFee;
    if raw >= 0.0 then Settlement(raw, 0.0) else Settlement(0.0, -raw)
  }

  /** Caps a notional so that its margin never exceeds what is available: what is granted is carried, and less than
      wanted only if no more is. */
  function ApproveAgainstMargin(notional: real, leverage: real, available: real): (granted: real)
    ensures 0.0 <= granted && (granted > 0.0 ==> granted <= notional && granted <= available * leverage)
    ensures granted < notional && leverage > 0.0 ==> available * leverage <= granted
    ensures leverage <= 0.0 ==> granted == 0.0
  {
    if leverage <= 0.0 then 0.0 else Max(0.0, Min(notional, available * leverage))
  }

  /** The exchange accepts an entry of this quantity. */
  predicate Tradeable(cfg: Config, quantity: real, reference: real) {
    quantity > 0.0 && !cfg.belowMinimum(quantity * reference, reference)
  }

  datatype Intent = Intent(atr: real, swingLow: Option<real>, swingHigh: Option<real>)

  datatype EntryLevels = EntryLevels(stopLoss: Option<real>, takeProfit: Option<real>, trailingDistance: Option<real>,
                                     trailingActive: bool)

  /** What the loop reads of a strategy's DNA. `levels` are the protective levels of a fresh fill. */
  datatype Dna = Dna(
    maxTradesPerDay: nat, cooldownAfterWin: nat, cooldownAfterLoss: nat,
    activationPct: real,                    // 0 when the trailing stop is disabled
    levels: (Side, real, Intent) -> EntryLevels)

  function Activation(dna: Option<Dna>): real { if dna.Some? then dna.value.activationPct else 0.0 }

  function CooldownBars(dna: Option<Dna>, net: real): nat {
    if dna.None? then 0 else if net >= 0.0 then dna.value.cooldownAfterWin else dna.value.cooldownAfterLoss
  }

  // ---------------------------------------------------------------- bad debt

  /** Slippage fraction of a closing order, and the fraction of its notional that fee and penalty take. */
  function SlippageFraction(kind: OrderKind, notional: real, c: Costs): real {
    SlippageBps(kind, notional, c) / 10000.0
  }

  /** The slippage fraction of an order of this quantity at this reference price. */
  function OrderSlippage(quantity: real, reference: real, kind: OrderKind, c: Costs): real {
    SlippageFraction(kind, reference * quantity, c)
  }

  function ChargeFraction(kind: OrderKind, c: Costs): real {
    FeeRate(kind, c) + (if kind.LiquidationOrder? then c.liquidationFee else 0.0)
  }

  /** The settlement of a close that slips by the fraction `s` and is charged the fraction `f` of its notional. */
  function SettleAt(side: Side, entryPrice: real, quantity: real, balance: real, reference: real, s: real, f: real)
    : Settlement
  {
    var exit := reference * (if side.Long? then 1.0 - s else 1.0 + s);
    SettleClose(balance, (exit - entryPrice) * quantity * Direction(side), exit * quantity * f)
  }

  /** At this price the account still holds its maintenance margin. */
  predicate Maintained(side: Side, entryPrice: real, quantity: real, balance: real, mmr: Fraction, mark: real) {
    Equity(side, entryPrice, quantity, balance, mark) >= mmr * mark * quantity
  }

  lemma MulMono(a: real, b: real, c: real)
    requires a <= b && 0.0 <= c
    ensures a * c <= b * c
  {}

  /** What is left after a close: equity at the reference, less slippage and charges. */
  lemma RemainderAtExit(side: Side, entryPrice: real, quantity: real, balance: real, reference: real, s: real, f: real)
    ensures var k := if side.Long? then 1.0 - s else 1.0 + s; var exit := reference * k;
      balance + (exit - entryPrice) * quantity * Direction(side) - exit * quantity * f
        == Equity(side, entryPrice, quantity, balance, reference) - reference * quantity * (s + k * f)
  {}

  lemma RawNonNegative(side: Side, entryPrice: real, quantity: real, balance: real, reference: real, mmr: Fraction,
                       s: real, f: real)
    requires quantity > 0.0 && reference > 0.0 && Maintained(side, entryPrice, quantity, balance, mmr, reference)
    requires 0.0 <= s && 0.0 <= f && s + f * (1.0 + s) <= mmr
    ensures var exit := reference * (if side.Long? then 1.0 - s else 1.0 + s);
      balance + (exit - entryPrice) * quantity * Direction(side) - exit * quantity * f >= 0.0
  {
    var k := if side.Long? then 1.0 - s else 1.0 + s;
    RemainderAtExit(side, entryPrice, quantity, balance, reference, s, f);
    MulMono(k, 1.0 + s, f);
    MulMono(s + k * f, mmr, reference * quantity);
    assert mmr * (reference * quantity) == mmr * reference * quantity;
    assert (s + k * f) * (reference * quantity) == reference * quantity * (s + k * f);
  }

  /** The cost model is of that form: it slips by `OrderSlippage` and charges `ChargeFraction`. */
  lemma CostsAreFractions(side: Side, quantity: real, reference: real, kind: OrderKind, c: Costs)
    ensures var s := OrderSlippage(quantity, reference, kind, c);
      var exit := ExitPrice(side, quantity, reference, kind, c);
      && exit == reference * (if side.Long? then 1.0 - s else 1.0 + s)
      && exit * quantity * FeeRate(kind, c) + LiquidationPenalty(kind, exit, quantity, c)
           == exit * quantity * ChargeFraction(kind, c)
  {}

  /** What each order kind costs: a market order slips by the base and by the impact of its notional, a stop or a
      liquidation by a multiple of that, a resting take-profit not at all; take-profits pay the maker fee, the others
      the taker fee, and a liquidation its penalty on top. */
  lemma CostsByKind(quantity: real, reference: real, kind: OrderKind, c: Costs)
    ensures var market := (c.baseBps + c.impactBpsPer10k * (reference * quantity / 10000.0)) / 10000.0;
      OrderSlippage(quantity, reference, kind, c)
        == match kind
           case MarketOrder => market
           case StopOrder => market * c.stopMultiplier
           case LiquidationOrder => market * c.stopMultiplier
           case TakeProfitOrder => 0.0
    ensures ChargeFraction(kind, c)
         == match kind
            case MarketOrder => c.taker
            case StopOrder => c.taker
            case LiquidationOrder => c.taker + c.liquidationFee
            case TakeProfitOrder => c.maker
  {}

  /** With costs that are not negative nobody is filled in their own favour: buyers pay the reference or more, sellers
      receive it or less. */
  lemma SlippageIsAdverse(side: Side, quantity: real, reference: real, kind: OrderKind, c: Costs)
    requires quantity > 0.0 && reference > 0.0
    requires c.baseBps >= 0.0 && c.impactBpsPer10k >= 0.0 && c.stopMultiplier >= 0.0
    ensures var entry, exit := EntryQuote(side, quantity, reference, c).price,
                               ExitPrice(side, quantity, reference, kind, c);
      if side.Long? then entry >= reference >= exit else entry <= reference <= exit
  {
    hide SlippageBps;
    var s := OrderSlippage(quantity, reference, kind, c);
    SlippageIsNotNegative(quantity, reference, MarketOrder, c);
    SlippageIsNotNegative(quantity, reference, kind, c);
    CostsAreFractions(side, quantity, reference, kind, c);
    EntrySlips(side, quantity, reference, c);
    MulMono(0.0, s, reference);
    MulMono(0.0, OrderSlippage(quantity, reference, MarketOrder, c), reference);
  }

  lemma EntrySlips(side: Side, quantity: real, reference: real, c: Costs)
    ensures var s := OrderSlippage(quantity, reference, MarketOrder, c);
      EntryQuote(side, quantity, reference, c).price == reference * (if side.Long? then 1.0 + s else 1.0 - s)
  {}

  lemma SlippageIsNotNegative(quantity: real, reference: real, kind: OrderKind, c: Costs)
    requires quantity > 0.0 && reference > 0.0
    requires c.baseBps >= 0.0 && c.impactBpsPer10k >= 0.0 && c.stopMultiplier >= 0.0
    ensures OrderSlippage(quantity, reference, kind, c) >= 0.0
  {
    var n := reference * quantity / 10000.0;
    assert reference * quantity > 0.0;
    MulMono(0.0, n, c.impactBpsPer10k);
    var bps := c.baseBps + c.impactBpsPer10k * n;
    MulMono(0.0, bps, c.stopMultiplier);
  }

  /** The threshold test in the other direction: at a price not beyond the liquidation price the margin holds. */
  lemma MaintainedUpToLiquidation(side: Side, entryPrice: real, quantity: real, balance: real, mmr: Fraction,
                                  mark: real)
    requires quantity > 0.0 && mark > 0.0
    requires var p := LiquidationPrice(side, entryPrice, quantity, balance, mmr);
      p.None? || mark == p.value || !AtOrBeyond(side, mark, p.value)
    ensures Maintained(side, entryPrice, quantity, balance, mmr, mark)
  {
    LiquidationPriceIsTheMarginThreshold(side, entryPrice, quantity, balance, mmr, mark);
    if LiquidationPrice(side, entryPrice, quantity, balance, mmr) == Some(mark) {
      AtLiquidationEquityIsMaintenance(side, entryPrice, quantity, balance, mmr);
    }
  }

  lemma CoveredBeforeLiquidation(side: Side, entryPrice: real, quantity: real, balance: real, reference: real,
                                 mmr: Fraction, s: real, f: real)
    requires quantity > 0.0 && reference > 0.0
    requires var p := LiquidationPrice(side, entryPrice, quantity, balance, mmr);
      p.None? || reference == p.value || !AtOrBeyond(side, reference, p.value)
    requires 0.0 <= s && 0.0 <= f && s + f * (1.0 + s) <= mmr
    ensures SettleAt(side, entryPrice, quantity, balance, reference, s, f).badDebt == 0.0
  {
    MaintainedUpToLiquidation(side, entryPrice, quantity, balance, mmr, reference);
    RawNonNegative(side, entryPrice, quantity, balance, reference, mmr, s, f);
  }

  /** The exit reference of an adverse trigger is never beyond the liquidation price unless the bar opened there. */
  lemma ReferenceBeforeLiquidation(l: Levels, bar: Bar, sameBarExtreme: bool, t: Trigger)
    requires Sane(bar)
    requires l.liquidation.Some? ==> !AtOrBeyond(l.side, bar.open, l.liquidation.value)
    requires EvaluateBar(l, bar, sameBarExtreme) == Some(t) && IsAdverse(t)
    ensures t.reference > 0.0
    ensures l.liquidation.Some? ==>
      t.reference == l.liquidation.value || !AtOrBeyond(l.side, t.reference, l.liquidation.value)
  {}

  /** An adverse exit leaves no bad debt: unless the bar opens beyond the liquidation price, whenever slippage, fee and
      liquidation penalty together fit in the maintenance margin, the account covers the loss. */
  lemma AdverseExitLeavesNoBadDebt(l: Levels, bar: Bar, sameBarExtreme: bool, t: Trigger, quantity: real, balance: real,
                                   mmr: Fraction, s: real, f: real)
    requires Sane(bar) && quantity > 0.0
    requires l.liquidation == LiquidationPrice(l.side, l.entryPrice, quantity, balance, mmr)
    requires l.liquidation.Some? ==> !AtOrBeyond(l.side, bar.open, l.liquidation.value)
    requires EvaluateBar(l, bar, sameBarExtreme) == Some(t) && IsAdverse(t)
    requires 0.0 <= s && 0.0 <= f && s + f * (1.0 + s) <= mmr
    ensures SettleAt(l.side, l.entryPrice, quantity, balance, t.reference, s, f).badDebt == 0.0
  {
    ReferenceBeforeLiquidation(l, bar, sameBarExtreme, t);
    CoveredBeforeLiquidation(l.side, l.entryPrice, quantity, balance, t.reference, mmr, s, f);
  }

  /** The bound is tight: a short liquidated exactly at its liquidation price leaves bad debt if and only if the costs
      exceed the maintenance margin. */
  lemma ShortLiquidationBoundIsExact(entryPrice: real, quantity: real, balance: real, mmr: Fraction, s: real, f: real)
    requires quantity > 0.0 && LiquidationPrice(Short, entryPrice, quantity, balance, mmr).value > 0.0
    ensures var price := LiquidationPrice(Short, entryPrice, quantity, balance, mmr).value;
      SettleAt(Short, entryPrice, quantity, balance, price, s, f).badDebt > 0.0 <==> s + f * (1.0 + s) > mmr
  {}
}
