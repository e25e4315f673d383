/** The one-pass drawdowns, each against its quadratic definition over all pairs of points of the curve. */
module Drawdowns {
  import opened Market
  import opened Accounting
  import opened PnlEngine
  import opened PositionManager
  import opened PaperLoop
  import opened Backtest
  import opened BacktestOrder
  import opened LotRules
  import Survival

  // ---------------------------------------------------------------- the relative drawdown

  ghost predicate IsHighest(s: seq<real>, peak: real) {
    peak in s && forall k :: 0 <= k < |s| ==> s[k] <= peak
  }

  /** Point `i` is positive and the highest of the curve up to `j`. */
  ghost predicate PeakFor(s: seq<real>, i: int, j: int) {
    0 <= i <= j < |s| && s[i] > 0.0 && forall k :: 0 <= k <= j ==> s[k] <= s[i]
  }

  /** `w` is the largest relative fall from a peak to a point at or after it, zero when there is none. */
  ghost predicate WorstFall(s: seq<real>, w: real) {
    && w >= 0.0
    && (forall i, j :: PeakFor(s, i, j) ==> RelativeFall(s[i], s[j]) <= w)
    && (w == 0.0 || exists i, j :: PeakFor(s, i, j) && w == RelativeFall(s[i], s[j]))
  }

  lemma WorstFallExtends(s: seq<real>, peak: real, w: real, e: real)
    requires IsHighest(s, peak) && WorstFall(s, w)
    ensures IsHighest(s + [e], Max(peak, e))
    ensures WorstFall(s + [e], DrawdownAfter(w, Max(peak, e), e))
  {
    hide RelativeFall;
    var t, p := s + [e], Max(peak, e);
    var r := DrawdownAfter(w, p, e);
    var at :| 0 <= at < |s| && s[at] == peak;
    assert t[|s|] == e && t[at] == peak;
    forall i, j | PeakFor(t, i, j)
      ensures RelativeFall(t[i], t[j]) <= r
    {
      if j < |s| {
        assert PeakFor(s, i, j) by {
          forall k | 0 <= k <= j ensures s[k] <= s[i] { assert t[k] == s[k]; }
        }
      } else {
        assert t[i] == p;
      }
    }
    if r != w && r != 0.0 {
      var i := if e >= peak then |s| else at;
      assert PeakFor(t, i, |s|) by {
        forall k | 0 <= k <= |s| ensures t[k] <= t[i] {}
      }
      assert r == RelativeFall(t[i], t[|s|]);
    } else if r != 0.0 {
      var i, j :| PeakFor(s, i, j) && w == RelativeFall(s[i], s[j]);
      assert PeakFor(t, i, j) by {
        forall k | 0 <= k <= j ensures t[k] <= t[i] { assert t[k] == s[k]; }
      }
    }
  }

  lemma WorstFallOfOne(e: real)
    ensures IsHighest([e], e) && WorstFall([e], 0.0)
  {}

  method MaxDrawdownPct(startingEquity: real, curve: seq<real>) returns (worst: real)
    ensures WorstFall([startingEquity] + curve, worst)
  {
    hide RelativeFall, WorstFall, IsHighest;
    var peak := startingEquity;
    worst := 0.0;
    WorstFallOfOne(startingEquity);
    assert [startingEquity] + curve[..0] == [startingEquity];
    for k := 0 to |curve|
      invariant IsHighest([startingEquity] + curve[..k], peak)
      invariant WorstFall([startingEquity] + curve[..k], worst)
      invariant worst >= 0.0
    {
      var e := curve[k];
      WorstFallExtends([startingEquity] + curve[..k], peak, worst, e);
      assert [startingEquity] + curve[..k] + [e] == [startingEquity] + curve[..k + 1];
      peak := Max(peak, e);
      if peak > 0.0 {
        worst := Max(worst, RelativeFall(peak, e));
      }
    }
    assert curve[..|curve|] == curve;
  }

  /** As `WorstFall`, from any earlier positive point and not only from the peaks. */
  ghost predicate WorstFallAnywhere(s: seq<real>, w: real) {
    && w >= 0.0
    && (forall i, j :: 0 <= i <= j < |s| && s[i] > 0.0 ==> RelativeFall(s[i], s[j]) <= w)
    && (w == 0.0 || exists i, j :: 0 <= i <= j < |s| && s[i] > 0.0 && w == RelativeFall(s[i], s[j]))
  }

  /** From a higher point the fall to `e` is larger if `e` is not negative, and smaller if it is. */
  lemma FallFromHigher(low: real, high: real, e: real)
    requires 0.0 < low <= high
    ensures e >= 0.0 ==> RelativeFall(low, e) <= RelativeFall(high, e) <= 1.0
    ensures e < 0.0 ==> RelativeFall(low, e) >= RelativeFall(high, e) > 1.0
    ensures e < 0.0 && low < high ==> RelativeFall(low, e) > RelativeFall(high, e)
  {
    assert RelativeFall(low, e) == 1.0 - e / low && RelativeFall(high, e) == 1.0 - e / high;
    var u, v := 1.0 / low, 1.0 / high;
    assert e / low == e * u && e / high == e * v;
    assert u - v == (high - low) / (low * high);
    assert u >= v > 0.0 && (low < high ==> u > v);
    assert e * (u - v) == e * u - e * v;
    assert e >= 0.0 ==> e * v >= 0.0 && e * (u - v) >= 0.0;
    assert e < 0.0 ==> e * v < 0.0 && e * (u - v) <= 0.0;
  }

  lemma {:induction false} PeakExists(s: seq<real>, j: int)
    requires 0 <= j < |s|
    ensures exists i :: 0 <= i <= j && forall k :: 0 <= k <= j ==> s[k] <= s[i]
  {
    if j > 0 {
      PeakExists(s, j - 1);
      var i :| 0 <= i <= j - 1 && forall k :: 0 <= k <= j - 1 ==> s[k] <= s[i];
      var best := if s[j] > s[i] then j else i;
      assert forall k :: 0 <= k <= j ==> s[k] <= s[best];
    }
  }

  lemma PeaksSufficeWithoutLosses(s: seq<real>, i: int, j: int, w: real)
    requires 0 <= i <= j < |s| && s[i] > 0.0 && s[j] >= 0.0 && WorstFall(s, w)
    ensures RelativeFall(s[i], s[j]) <= w
  {
    PeakExists(s, j);
    var p :| 0 <= p <= j && forall k :: 0 <= k <= j ==> s[k] <= s[p];
    FallFromHigher(s[i], s[p], s[j]);
    assert PeakFor(s, p, j);
  }

  /** On a curve that ends with its first negative point, falls from peaks are the worst of all falls exactly when
      that point is not negative, or every positive point has the same height. */
  lemma PeaksSufficeExactlyWhen(s: seq<real>, w: real, v: real)
    requires |s| > 0 && WorstFall(s, w) && WorstFallAnywhere(s, v)
    requires forall k :: 0 <= k < |s| - 1 ==> s[k] >= 0.0
    ensures w == v <==>
      s[|s| - 1] >= 0.0
      || forall i, j :: 0 <= i < |s| && 0 <= j < |s| && s[i] > 0.0 && s[j] > 0.0 ==> s[i] == s[j]
  {
    hide RelativeFall, WorstFall, WorstFallAnywhere;
    PeaksAreAmongAll(s, w, v);
    if s[|s| - 1] >= 0.0 {
      AllAreBoundedByPeaks(s, w, v);
    } else if a, b :| 0 <= a < |s| && 0 <= b < |s| && 0.0 < s[a] < s[b] {
      LowerPointFallsFurther(s, w, v, a, b);
    } else {
      forall i, j | 0 <= i <= j < |s| && s[i] > 0.0 ensures PeakFor(s, i, j) {}
      AllAreBoundedByPeaks(s, w, v);
    }
  }

  /** From 1 the last point falls by 2, from the peak by only 3/2. */
  lemma PeaksDoNotAlwaysSuffice(s: seq<real>)
    requires s == [1.0, 2.0, -1.0]
    ensures WorstFall(s, 1.5) && WorstFallAnywhere(s, 2.0)
  {
    assert PeakFor(s, 1, 2) && RelativeFall(s[1], s[2]) == 1.5;
    assert RelativeFall(s[0], s[2]) == 2.0;
  }

  lemma PeaksAreAmongAll(s: seq<real>, w: real, v: real)
    requires WorstFall(s, w) && WorstFallAnywhere(s, v)
    ensures w <= v
  {}

  lemma AllAreBoundedByPeaks(s: seq<real>, w: real, v: real)
    requires WorstFall(s, w) && WorstFallAnywhere(s, v)
    requires forall i, j :: 0 <= i <= j < |s| && s[i] > 0.0 ==> s[j] >= 0.0 || PeakFor(s, i, j)
    ensures v <= w
  {
    hide RelativeFall;
    if v != 0.0 {
      var i, j :| 0 <= i <= j < |s| && s[i] > 0.0 && v == RelativeFall(s[i], s[j]);
      if s[j] >= 0.0 {
        PeaksSufficeWithoutLosses(s, i, j, w);
      }
    }
  }

  lemma LowerPointFallsFurther(s: seq<real>, w: real, v: real, a: int, b: int)
    requires WorstFall(s, w) && WorstFallAnywhere(s, v)
    requires 0 <= a < |s| && 0 <= b < |s| && 0.0 < s[a] < s[b] && s[|s| - 1] < 0.0
    requires forall k :: 0 <= k < |s| - 1 ==> s[k] >= 0.0
    ensures w < v
  {
    hide RelativeFall;
    FallFromHigher(s[a], s[a], s[|s| - 1]);
    assert RelativeFall(s[a], s[|s| - 1]) <= v;
    if w != 0.0 {
      var i, j :| PeakFor(s, i, j) && w == RelativeFall(s[i], s[j]);
      LowerPointBeatsPeak(s, a, b, i, j);
    }
  }

  lemma LowerPointBeatsPeak(s: seq<real>, a: int, b: int, i: int, j: int)
    requires 0 <= a < |s| && 0 <= b < |s| && 0.0 < s[a] < s[b] && s[|s| - 1] < 0.0
    requires forall k :: 0 <= k < |s| - 1 ==> s[k] >= 0.0
    requires PeakFor(s, i, j)
    ensures RelativeFall(s[i], s[j]) < RelativeFall(s[a], s[|s| - 1])
  {
    hide RelativeFall;
    var e := s[|s| - 1];
    FallFromHigher(s[a], s[b], e);
    FallFromHigher(s[i], s[i], s[j]);
    if j == |s| - 1 {
      assert s[b] <= s[i];
      FallFromHigher(s[a], s[i], e);
    }
  }

  // ---------------------------------------------------------------- the backtest's curve

  ghost predicate OnlyTheLastIsNotPositive(st: Bt) {
    forall k :: 0 <= k < |st.curve| ==> st.curve[k] > 0.0 || (st.stopped && k == |st.curve| - 1)
  }

  /** The loop breaks at the first equity that is not positive, so at most the last point of its curve is not. */
  lemma {:induction false} BacktestCurveStaysPositive(d: Data, cfg: Config, i: nat)
    requires i <= |d.bars|
    ensures OnlyTheLastIsNotPositive(BtRun(d, cfg, i))
  {
    hide BtIterate;
    if d.first < i {
      BacktestCurveStaysPositive(d, cfg, i - 1);
      var was := BtRun(d, cfg, i - 1);
      if was.stopped {
        StoppedStays(d, cfg, i - 1, i);
      } else {
        IterationAppendsOnePoint(was, d, cfg, i - 1);
      }
    }
  }

  lemma IterationAppendsOnePoint(st: Bt, d: Data, cfg: Config, i: nat)
    requires i < |d.bars| && !st.stopped
    ensures var r := BtIterate(st, d, cfg, i);
            r == st || exists e :: r.curve == st.curve + [e] && (r.stopped || e > 0.0)
  {
    hide BtManage, BtSignal, Held, BtUpnl;
    if d.strategy.context(d.Prefix(i)).Some? {
      var rolled := BtRollDay(st, d, i);
      var managed := BtManage(rolled, d, cfg, i);
      var intent := d.strategy.context(d.Prefix(i)).value;
      ManageAndSignalKeepCurve(rolled, d, cfg, i, Held(rolled, i) && managed.pos.None?, intent);
    }
  }

  lemma ManageAndSignalKeepCurve(st: Bt, d: Data, cfg: Config, i: nat, exited: bool, intent: Intent)
    requires i < |d.bars|
    ensures BtManage(st, d, cfg, i).curve == st.curve
    ensures BtSignal(BtManage(st, d, cfg, i), d, cfg, i, exited, intent).curve == st.curve
  {}

  lemma CloseKeepsCurve(d: Data, cfg: Config)
    ensures forall st: Bt, p, reference, kind, reason, at ::
      BtClose(st, d, cfg, p, reference, kind, reason, at).curve == st.curve
    ensures forall st: Bt, i, side, intent :: 0 <= i < |d.bars| ==>
      BtEnter(st, d, cfg, i, side, intent).curve == st.curve
    ensures forall st: Bt, p, i :: 0 <= i < |d.bars| ==>
      BtFunded(st, d, p, i).curve == st.curve && BtFunded(st, d, p, i).pos.Some?
  {}

  /** The equities of a finished backtest, its start included. */
  function Equities(d: Data, cfg: Config): seq<real>
    requires d.last <= |d.bars|
  {
    [d.start] + BtFinish(BtRun(d, cfg, d.last), d, cfg).curve
  }

  /** The reported drawdown of a backtest is the worst fall from any earlier equity exactly when its last equity is not
      negative, or no two of its positive equities differ. */
  lemma BacktestDrawdownExactlyWhen(d: Data, cfg: Config)
    requires d.last <= |d.bars| && d.start > 0.0
    ensures var s := Equities(d, cfg);
      forall w, v :: WorstFall(s, w) && WorstFallAnywhere(s, v) ==>
        (w == v <==> (s[|s| - 1] >= 0.0
                      || forall i, j :: 0 <= i < |s| && 0 <= j < |s| && s[i] > 0.0 && s[j] > 0.0 ==> s[i] == s[j]))
  {
    hide BtRun, BtClose, WorstFall, WorstFallAnywhere;
    BacktestCurveStaysPositive(d, cfg, d.last);
    CloseKeepsCurve(d, cfg);
    var s := Equities(d, cfg);
    forall w, v | WorstFall(s, w) && WorstFallAnywhere(s, v)
      ensures w == v <==> (s[|s| - 1] >= 0.0
                           || forall i, j :: 0 <= i < |s| && 0 <= j < |s| && s[i] > 0.0 && s[j] > 0.0 ==> s[i] == s[j])
    {
      PeaksSufficeExactlyWhen(s, w, v);
    }
  }

  // ---------------------------------------------------------------- when no equity is negative

  /** Leverage times the slipped taker fee is at most one, less the guard of the lot rounding, for the entry this bar
      would make. */
  ghost predicate FeeFits(st: Bt, d: Data, cfg: Config, i: nat, side: Side)
    requires i < |d.bars|
  {
    var reference := NextOpen(d, i);
    var slip := OrderSlippage(EntryQuantity(st, d, cfg, i, side, reference), reference, MarketOrder, cfg.costs);
    && 0.0 <= slip && 0.0 <= cfg.costs.taker
    && BtSize(st, d, i, side).leverage * ((1.0 + slip) * cfg.costs.taker) <= 1.0 - EPSILON
  }

  /** Bars as the candle store accepts them, and fees that fit on every bar of the run. */
  ghost predicate Affordable(d: Data, cfg: Config) {
    && d.Valid() && d.start >= 0.0 && RoundsDown(cfg)
    && (forall i :: 0 <= i < |d.bars| ==> Sane(d.bars[i]))
    && (forall i, side :: 0 <= i < |d.bars| ==>
          FeeFits(BtManage(BtRollDay(BtRun(d, cfg, i), d, i), d, cfg, i), d, cfg, i, side))
  }

  lemma Scaled(a: real, b: real, c: real)
    requires a <= b && 0.0 <= c
    ensures a * c <= b * c
  {}

  /** A fee of a notional that the margin carries is covered by the cash. */
  lemma FeeOfCarriedNotional(notional: real, cash: real, leverage: real, rate: real)
    requires (1.0 - EPSILON) * notional <= cash * leverage && 0.0 <= cash && 0.0 <= rate
    requires leverage * rate <= 1.0 - EPSILON
    ensures notional * rate <= cash
  {
    Scaled((1.0 - EPSILON) * notional, cash * leverage, rate);
    Scaled(leverage * rate, 1.0 - EPSILON, cash);
    assert cash * leverage * rate == leverage * rate * cash;
    assert (1.0 - EPSILON) * notional * rate == (1.0 - EPSILON) * (notional * rate);
  }

  lemma FeeOfEntry(side: Side, quantity: real, reference: real, c: Costs)
    requires quantity > 0.0 && reference > 0.0 && 0.0 <= c.taker
    requires 0.0 <= OrderSlippage(quantity, reference, MarketOrder, c)
    ensures var slip := OrderSlippage(quantity, reference, MarketOrder, c);
      EntryQuote(side, quantity, reference, c).fee <= reference * quantity * ((1.0 + slip) * c.taker)
  {
    var slip := OrderSlippage(quantity, reference, MarketOrder, c);
    var price := EntryQuote(side, quantity, reference, c).price;
    assert price == reference * (1.0 + Direction(side) * slip);
    Scaled(Direction(side) * slip, slip, reference);
    Scaled(price, reference * (1.0 + slip), quantity);
    Scaled(price * quantity, reference * (1.0 + slip) * quantity, c.taker);
    assert reference * (1.0 + slip) * quantity * c.taker == reference * quantity * ((1.0 + slip) * c.taker);
  }

  /** What the lots cost is within what the margin carries. */
  lemma EntryIsCarried(st: Bt, d: Data, cfg: Config, i: nat, side: Side, reference: real)
    requires i < |d.bars| && st.balance >= 0.0 && reference > 0.0 && RoundsDown(cfg)
    ensures (1.0 - EPSILON) * (reference * EntryQuantity(st, d, cfg, i, side, reference))
         <= st.balance * BtSize(st, d, i, side).leverage
  {
    var s := BtSize(st, d, i, side);
    var notional := ApproveAgainstMargin(s.notional, s.leverage, st.balance);
    var quantity := EntryQuantity(st, d, cfg, i, side, reference);
    Scaled(0.0, st.balance, s.leverage);
    assert notional / reference * reference == notional;
    Scaled((1.0 - EPSILON) * quantity, notional / reference, reference);
    assert (1.0 - EPSILON) * quantity * reference == (1.0 - EPSILON) * (reference * quantity);
  }

  /** An entry whose fee fits leaves no debt. */
  lemma EntryLeavesCash(st: Bt, d: Data, cfg: Config, i: nat, side: Side, intent: Intent)
    requires i < |d.bars| && st.balance >= 0.0 && NextOpen(d, i) > 0.0
    requires FeeFits(st, d, cfg, i, side) && RoundsDown(cfg)
    ensures BtEnter(st, d, cfg, i, side, intent).balance >= 0.0
  {
    hide EntryQuote, EntryQuantity, OrderSlippage, BtSize;
    var reference := NextOpen(d, i);
    var quantity := EntryQuantity(st, d, cfg, i, side, reference);
    if Tradeable(cfg, quantity, reference) {
      var slip := OrderSlippage(quantity, reference, MarketOrder, cfg.costs);
      EntryIsCarried(st, d, cfg, i, side, reference);
      FeeOfEntry(side, quantity, reference, cfg.costs);
      assert reference * quantity >= 0.0;
      Scaled(0.0, 1.0 + slip, cfg.costs.taker);
      FeeOfCarriedNotional(reference * quantity, st.balance, BtSize(st, d, i, side).leverage,
                           (1.0 + slip) * cfg.costs.taker);
      EntersWith(st, d, cfg, i, side, intent, quantity);
    }
  }

  lemma EntersWith(st: Bt, d: Data, cfg: Config, i: nat, side: Side, intent: Intent, quantity: real)
    requires i < |d.bars| && quantity == EntryQuantity(st, d, cfg, i, side, NextOpen(d, i))
    requires Tradeable(cfg, quantity, NextOpen(d, i))
    ensures BtEnter(st, d, cfg, i, side, intent).balance
         == st.balance - EntryQuote(side, quantity, NextOpen(d, i), cfg.costs).fee
  {
    hide EntryQuote, EntryQuantity;
  }

  /** No equity of the curve is negative, and a flat account has no debt. */
  ghost predicate Solvent(st: Bt) {
    (st.pos.None? ==> st.balance >= 0.0) && forall k :: 0 <= k < |st.curve| ==> st.curve[k] >= 0.0
  }

  lemma CloseLeavesCash(st: Bt, d: Data, cfg: Config, p: BtPos, reference: real, kind: OrderKind, reason: Reason,
                        at: int)
    ensures BtClose(st, d, cfg, p, reference, kind, reason, at).balance >= 0.0
    ensures BtClose(st, d, cfg, p, reference, kind, reason, at).pos.None?
  {
    hide ExitQuote, LiquidationPenalty, ComputeTradePnL, CooldownBars, BtBankruptcyLevel;
  }

  /** After its management the bar leaves cash, or a position whose margin is intact at the close. */
  lemma ManagedIsSolvent(st: Bt, d: Data, cfg: Config, i: nat)
    requires i < |d.bars| && Sane(d.bars[i]) && (st.pos.None? ==> st.balance >= 0.0)
    requires st.pos.Some? ==> st.pos.value.entryIndex <= i
    ensures var m := BtManage(st, d, cfg, i);
      if m.pos.None? then m.balance >= 0.0
      else m.pos.value.entryIndex <= i && m.balance + BtUpnl(m.pos.value, d.bars[i].close) > 0.0
  {
    hide EvaluateBar, BtClose, LiquidationPrice, Liquidatable, BtCharge;
    if st.pos.Some? {
      var h := BtCharge(BtHolding(st.balance, st.totalFunding, st.pos.value), d.funding, d.CloseMs(i), d.bars[i].close);
      BtChargeKeepsRest(BtHolding(st.balance, st.totalFunding, st.pos.value), d.funding, d.CloseMs(i), d.bars[i].close);
      ProtectedIsSolvent(BtFunded(st, d, st.pos.value, i), d, cfg, i);
    }
  }

  lemma ProtectedIsSolvent(st: Bt, d: Data, cfg: Config, i: nat)
    requires i < |d.bars| && Sane(d.bars[i]) && st.pos.Some? && st.pos.value.entryIndex <= i
    ensures var m := BtProtect(st, d, cfg, i);
      if m.pos.None? then m.balance >= 0.0
      else m.pos.value.entryIndex <= i && m.balance + BtUpnl(m.pos.value, d.bars[i].close) > 0.0
  {
    hide EvaluateBar, BtClose, LiquidationPrice, Liquidatable;
    var p, bar := st.pos.value, d.bars[i];
    var levels := BtLevels(p, st.balance, cfg, d.strategy.dna);
    var t := EvaluateBar(levels, bar, cfg.sameBarExtreme);
    if t.Some? {
      CloseLeavesCash(st, d, cfg, p, t.value.reference, t.value.kind, t.value.reason, i);
    } else {
      Survival.SurvivorHoldsItsMargin(levels, bar, cfg.sameBarExtreme, p.quantity, st.balance, cfg.mmr);
      Survival.MarginIsPositive(p.side, p.entryPrice, p.quantity, st.balance, cfg.mmr, bar.close);
    }
  }

  lemma SignalIsSolvent(m: Bt, d: Data, cfg: Config, i: nat, exited: bool, intent: Intent)
    requires i < |d.bars| && Sane(d.bars[i]) && (i + 1 < |d.bars| ==> Sane(d.bars[i + 1])) && d.Valid()
    requires RoundsDown(cfg) && forall side :: FeeFits(m, d, cfg, i, side)
    requires if m.pos.None? then m.balance >= 0.0
             else m.pos.value.entryIndex <= i && m.balance + BtUpnl(m.pos.value, d.bars[i].close) > 0.0
    ensures var s := BtSignal(m, d, cfg, i, exited, intent);
      && (s.pos.None? ==> s.balance >= 0.0)
      && s.balance + (if Held(s, i) then BtUpnl(s.pos.value, d.bars[i].close) else 0.0) >= 0.0
  {
    hide BtClose, EntryQuote, EntryQuantity, FeeFits, BtUpnl;
    var signal := d.strategy.signal(d.Prefix(i), if m.pos.Some? then Some(m.pos.value.side) else None);
    if m.pos.Some? {
      CloseLeavesCash(m, d, cfg, m.pos.value, NextOpen(d, i), MarketOrder, SignalExit, FillIndex(d, i));
    } else {
      EntryLeavesCash(m, d, cfg, i, signal.side, intent);
    }
  }

  lemma {:induction false} RunIsSolvent(d: Data, cfg: Config, i: nat)
    requires Affordable(d, cfg) && i <= d.last
    ensures Solvent(BtRun(d, cfg, i))
  {
    hide BtIterate, FeeFits;
    if d.first < i {
      RunIsSolvent(d, cfg, i - 1);
      RunIsOrdered(d, cfg, i - 1);
      IterationIsSolvent(BtRun(d, cfg, i - 1), d, cfg, i - 1);
    }
  }

  lemma IterationIsSolvent(st: Bt, d: Data, cfg: Config, i: nat)
    requires i + 1 <= d.last && Affordable(d, cfg) && Solvent(st) && st == BtRun(d, cfg, i)
    requires st.pos.Some? ==> st.pos.value.entryIndex <= i
    ensures Solvent(BtIterate(st, d, cfg, i))
  {
    hide BtManage, BtSignal, FeeFits, BtUpnl, BtRun;
    var context := d.strategy.context(d.Prefix(i));
    if !st.stopped && context.Some? {
      var rolled := BtRollDay(st, d, i);
      ManagedIsSolvent(rolled, d, cfg, i);
      var managed := BtManage(rolled, d, cfg, i);
      var exited := Held(rolled, i) && managed.pos.None?;
      ManageAndSignalKeepCurve(rolled, d, cfg, i, exited, context.value);
      SignalIsSolvent(managed, d, cfg, i, exited, context.value);
      DeadIsFlat(rolled, d, cfg, i);
    }
  }

  /** Management kills only by closing. */
  lemma DeadIsFlat(st: Bt, d: Data, cfg: Config, i: nat)
    requires i < |d.bars|
    ensures var m := BtManage(st, d, cfg, i); m.pos.Some? ==> m.dead == st.dead
  {
    hide EvaluateBar, BtClose, LiquidationPrice, Liquidatable, BtCharge;
    CloseKeepsCurve(d, cfg);
    forall s: Bt, p, reference, kind, reason, at ensures BtClose(s, d, cfg, p, reference, kind, reason, at).pos.None? {
      CloseLeavesCash(s, d, cfg, p, reference, kind, reason, at);
    }
  }

  /** If fees fit, no equity of a backtest is negative, so its reported drawdown is the worst fall from any equity. */
  lemma AffordableDrawdownIsTheWorst(d: Data, cfg: Config, w: real, v: real)
    requires Affordable(d, cfg) && d.start > 0.0
    requires WorstFall(Equities(d, cfg), w) && WorstFallAnywhere(Equities(d, cfg), v)
    ensures (forall k :: 0 <= k < |Equities(d, cfg)| ==> Equities(d, cfg)[k] >= 0.0) && w == v
  {
    hide BtRun, BtClose, WorstFall, WorstFallAnywhere, FeeFits;
    RunIsSolvent(d, cfg, d.last);
    CloseKeepsCurve(d, cfg);
    var end := BtRun(d, cfg, d.last);
    if end.pos.Some? && d.last > 0 {
      CloseLeavesCash(end, d, cfg, end.pos.value, d.bars[d.last - 1].close, MarketOrder, EndOfData, d.last - 1);
    }
    BacktestDrawdownExactlyWhen(d, cfg);
  }
}
