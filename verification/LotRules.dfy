/** The lot size and the exchange minimum, and the notionals that a price refuses. */
module LotRules {
  import opened Accounting

  /** Guards the floor against quotients that fall just short of a whole number of lots. */
  const EPSILON := 0.000000001

  function Lots(step: real, quantity: real): int
    requires step > 0.0
  {
    (quantity / step + EPSILON).Floor
  }

  function FloorToStep(step: real, quantity: real): real {
    if step <= 0.0 then quantity else Lots(step, quantity) as real * step
  }

  function BelowMinOrderNotional(step: real, minimum: real, notional: real, price: real): bool {
    if minimum == 0.0 then false
    else if price <= 0.0 then true
    else FloorToStep(step, notional / price) * price < minimum
  }

  /** The configuration's rules are these. A minimum of zero switches the test off, a step of zero the rounding. */
  ghost predicate Follows(cfg: Config, step: real, minimum: real) {
    && minimum >= 0.0
    && (forall q :: cfg.quantityStep(q) == FloorToStep(step, q))
    && (forall notional, price ::
          cfg.belowMinimum(notional, price) == BelowMinOrderNotional(step, minimum, notional, price))
  }

  /** Lots round down, but for quotients that the guard lifts to the next whole number. */
  ghost predicate RoundsDown(cfg: Config) {
    forall q :: 0.0 <= q ==> (1.0 - EPSILON) * cfg.quantityStep(q) <= q
  }

  lemma FloorRoundsDown(step: real, quantity: real)
    requires 0.0 <= quantity
    ensures (1.0 - EPSILON) * FloorToStep(step, quantity) <= quantity
  {
    if step > 0.0 {
      var lots := Lots(step, quantity) as real;
      Quotient(quantity, step);
      if lots > 0.0 {
        assert (1.0 - EPSILON) * lots <= quantity / step;
        TimesPositive(quantity / step, (1.0 - EPSILON) * lots, step);
        assert (1.0 - EPSILON) * lots * step == (1.0 - EPSILON) * (lots * step);
      } else {
        TimesPositive(0.0, lots, step);
      }
    }
  }

  lemma FollowedRulesRoundDown(cfg: Config, step: real, minimum: real)
    requires Follows(cfg, step, minimum)
    ensures RoundsDown(cfg)
  {
    hide FloorToStep;
    forall q | 0.0 <= q ensures (1.0 - EPSILON) * cfg.quantityStep(q) <= q {
      FloorRoundsDown(step, q);
    }
  }

  /** The least number of lots that reaches the minimum at this price. */
  function LotsNeeded(step: real, minimum: real, price: real): int
    requires step > 0.0 && price > 0.0
  {
    -((-(minimum / (step * price))).Floor)
  }

  /** The least notional that buys as many lots. */
  function Threshold(step: real, minimum: real, price: real): real
    requires price > 0.0
  {
    if step <= 0.0 then minimum else (LotsNeeded(step, minimum, price) as real - 0.000000001) * (step * price)
  }

  lemma TimesPositive(a: real, b: real, c: real)
    requires c > 0.0
    ensures a < b <==> a * c < b * c
  {}

  lemma Quotient(a: real, c: real)
    requires c > 0.0
    ensures a / c * c == a
  {}

  /** Whole lots fall short of the minimum exactly when they are fewer than needed. */
  lemma LotsFallShortExactlyWhen(step: real, minimum: real, price: real, lots: int)
    requires step > 0.0 && price > 0.0
    ensures lots as real * step * price < minimum <==> lots < LotsNeeded(step, minimum, price)
  {
    var lot := step * price;
    Quotient(minimum, lot);
    TimesPositive(lots as real, minimum / lot, lot);
    assert lots as real * step * price == lots as real * lot;
  }

  /** A notional is refused exactly when there is a minimum and it is below the threshold of the price. */
  lemma RefusedExactlyBelow(step: real, minimum: real, notional: real, price: real)
    requires price > 0.0
    ensures BelowMinOrderNotional(step, minimum, notional, price)
            <==> minimum != 0.0 && notional < Threshold(step, minimum, price)
  {
    if step <= 0.0 {
      Quotient(notional, price);
    } else {
      RefusedByWholeLots(step, minimum, notional, price);
    }
  }

  lemma RefusedByWholeLots(step: real, minimum: real, notional: real, price: real)
    requires step > 0.0 && price > 0.0
    ensures FloorToStep(step, notional / price) * price < minimum <==> notional < Threshold(step, minimum, price)
  {
    var lot, needed := step * price, LotsNeeded(step, minimum, price);
    var lots := Lots(step, notional / price);
    LotsFallShortExactlyWhen(step, minimum, price, lots);
    assert lots < needed <==> notional / price / step + EPSILON < needed as real;
    Quotient(notional, price);
    Quotient(notional / price, step);
    assert notional / price / step * lot == notional;
    TimesPositive(notional / price / step, needed as real - EPSILON, lot);
  }

  /** A whole number of lots stays as it is. */
  lemma WholeLots(step: real, lots: int, quantity: real)
    requires step > 0.0 && quantity == lots as real * step
    ensures Lots(step, quantity) == lots
  {
    assert quantity / step == lots as real;
  }

  /** Rounding down to lots twice changes nothing. */
  lemma FlooredTwice(step: real, quantity: real, price: real, floored: real, notional: real)
    requires price > 0.0 && floored == FloorToStep(step, quantity) && notional == floored * price
    ensures FloorToStep(step, notional / price) == floored
  {
    if step > 0.0 {
      WholeLots(step, Lots(step, quantity), floored);
    }
    assert notional / price == floored;
    SameFloor(step, notional / price, floored);
  }

  lemma SameFloor(step: real, x: real, y: real)
    requires x == y
    ensures FloorToStep(step, x) == FloorToStep(step, y)
  {}

  lemma PositiveFactor(a: real, c: real)
    requires c > 0.0 && a * c > 0.0
    ensures a > 0.0
  {}

  /** The test on a notional is the test on its whole lots `q`. */
  lemma RefusedByLots(step: real, minimum: real, notional: real, price: real, q: real)
    requires price > 0.0 && q == FloorToStep(step, notional / price)
    ensures BelowMinOrderNotional(step, minimum, notional, price) <==> minimum != 0.0 && q * price < minimum
  {
    hide FloorToStep;
  }

  /** At one price the tests on a notional and on its whole lots decide alike, and a minimum never accepts nothing. */
  lemma AlikeAtOnePrice(step: real, minimum: real, notional: real, price: real, q: real, floored: real)
    requires minimum >= 0.0 && price > 0.0
    requires q == FloorToStep(step, notional / price) && floored == q * price
    ensures BelowMinOrderNotional(step, minimum, notional, price)
            <==> BelowMinOrderNotional(step, minimum, floored, price)
    ensures minimum > 0.0 && !BelowMinOrderNotional(step, minimum, notional, price) ==> q > 0.0
  {
    hide FloorToStep, BelowMinOrderNotional;
    FlooredTwice(step, notional / price, price, q, floored);
    RefusedByLots(step, minimum, notional, price, q);
    RefusedByLots(step, minimum, floored, price, q);
    if q * price >= minimum > 0.0 {
      PositiveFactor(q, price);
    }
  }

  lemma FollowedHere(cfg: Config, step: real, minimum: real, quantity: real, notional: real, price: real)
    requires Follows(cfg, step, minimum) && notional == quantity * price
    ensures Tradeable(cfg, quantity, price)
            <==> quantity > 0.0 && !BelowMinOrderNotional(step, minimum, notional, price)
  {
    hide FloorToStep, BelowMinOrderNotional;
  }

  /** So the fill trades exactly the notionals that the test would not refuse at its price; without a minimum, those
      that buy a lot. */
  lemma TradedExactlyFrom(cfg: Config, step: real, minimum: real, notional: real, price: real)
    requires Follows(cfg, step, minimum) && price > 0.0
    ensures Tradeable(cfg, cfg.quantityStep(notional / price), price)
            <==> if minimum > 0.0 then notional >= Threshold(step, minimum, price)
                 else cfg.quantityStep(notional / price) > 0.0
  {
    hide FloorToStep, Threshold, BelowMinOrderNotional, Tradeable;
    var q := cfg.quantityStep(notional / price);
    assert q == FloorToStep(step, notional / price);
    FollowedHere(cfg, step, minimum, q, q * price, price);
    RefusedExactlyBelow(step, minimum, notional, price);
    AlikeAtOnePrice(step, minimum, notional, price, q, q * price);
  }

  /** Whatever a close refuses the next open refuses too, exactly when there is no minimum or its threshold does not
      come down. */
  lemma RefusalsStandExactlyWhen(step: real, minimum: real, close: real, open: real)
    requires close > 0.0 && open > 0.0
    ensures (forall notional :: BelowMinOrderNotional(step, minimum, notional, close)
                                ==> BelowMinOrderNotional(step, minimum, notional, open))
      <==> minimum == 0.0 || Threshold(step, minimum, close) <= Threshold(step, minimum, open)
  {
    hide BelowMinOrderNotional, Threshold;
    forall notional: real
      ensures BelowMinOrderNotional(step, minimum, notional, close)
              <==> minimum != 0.0 && notional < Threshold(step, minimum, close)
      ensures BelowMinOrderNotional(step, minimum, notional, open)
              <==> minimum != 0.0 && notional < Threshold(step, minimum, open)
    {
      RefusedExactlyBelow(step, minimum, notional, close);
      RefusedExactlyBelow(step, minimum, notional, open);
    }
    if minimum != 0.0 && Threshold(step, minimum, open) < Threshold(step, minimum, close) {
      assert BelowMinOrderNotional(step, minimum, Threshold(step, minimum, open), close);
    }
  }

  /** With lots of 0.01 and a minimum of 10, a notional of 10.4999 is refused at 150 and accepted at 149.99. */
  lemma OneTickDownIsAccepted()
    ensures BelowMinOrderNotional(0.01, 10.0, 10.4999, 150.0)
    ensures !BelowMinOrderNotional(0.01, 10.0, 10.4999, 149.99)
  {
    assert Lots(0.01, 10.4999 / 150.0) == 6;
    assert Lots(0.01, 10.4999 / 149.99) == 7;
  }
}
