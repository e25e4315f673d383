/** Protective rules of one bar: which level closes the position, and from which price the exit fills. */
module PositionManager {
  import opened Market
  import Sorting

  datatype Levels = Levels(
    side: Side, entryPrice: real, stopLoss: Option<real>, takeProfit: Option<real>, trailingDistance: Option<real>,
    activationPct: real, trailingActive: bool, peak: Option<real>, trough: Option<real>, liquidation: Option<real>)

  datatype Trigger = Trigger(reason: Reason, kind: OrderKind, level: real, reference: real)

  datatype AdverseLevel = AdverseLevel(reason: Reason, price: real)

  function PeakOrEntry(l: Levels): real { if l.peak.Some? then l.peak.value else l.entryPrice }

  function TroughOrEntry(l: Levels): real { if l.trough.Some? then l.trough.value else l.entryPrice }

  predicate TrailingIsActive(l: Levels) {
    && l.trailingDistance.Some? && l.trailingDistance.value > 0.0
    && (|| l.trailingActive
        || l.activationPct <= 0.0
        || (if l.side.Long? then l.peak.Some? && l.peak.value >= l.entryPrice * (1.0 + l.activationPct / 100.0)
            else l.trough.Some? && l.trough.value <= l.entryPrice * (1.0 - l.activationPct / 100.0)))
  }

  /** The extremes with this bar folded in. */
  function WithExtremes(l: Levels, bar: Bar): Levels {
    l.(peak := Some(Max(PeakOrEntry(l), bar.high)), trough := Some(Min(TroughOrEntry(l), bar.low)))
  }

  predicate Hit(side: Side, bar: Bar, level: real) {
    if side.Long? then bar.low <= level else bar.high >= level
  }

  /** Where an armed trailing stop stands, if the side's extreme is known. */
  function TrailingLevel(l: Levels): Option<real> {
    if !TrailingIsActive(l) then None
    else if l.side.Long? then (if l.peak.Some? then Some(l.peak.value - l.trailingDistance.value) else None)
    else if l.trough.Some? then Some(l.trough.value + l.trailingDistance.value) else None
  }

  /** The level is reached strictly earlier by a price going against the position. */
  predicate Nearer(side: Side, a: real, b: real) {
    if side.Long? then a > b else a < b
  }

  function Reached(side: Side, bar: Bar, reason: Reason, level: Option<real>): Option<AdverseLevel> {
    if level.Some? && Hit(side, bar, level.value) then Some(AdverseLevel(reason, level.value)) else None
  }

  /** `b` replaces `a` only when it is strictly nearer. */
  function FirstOf(side: Side, a: Option<AdverseLevel>, b: Option<AdverseLevel>): Option<AdverseLevel> {
    if a.None? || (b.Some? && Nearer(side, b.value.price, a.value.price)) then b else a
  }

  /** The adverse level reached first; on equal prices liquidation precedes the stop, which precedes the trail. */
  function FirstAdverse(l: Levels, bar: Bar): Option<AdverseLevel> {
    FirstOf(l.side,
            Reached(l.side, bar, Liquidation, l.liquidation),
            FirstOf(l.side,
                    Reached(l.side, bar, StopLoss, l.stopLoss),
                    Reached(l.side, bar, TrailingStop, TrailingLevel(l))))
  }

  predicate Gapped(side: Side, bar: Bar, level: real) {
    if side.Long? then bar.open <= level else bar.open >= level
  }

  function AdverseTrigger(side: Side, bar: Bar, first: AdverseLevel): Trigger {
    Trigger(first.reason, if first.reason.Liquidation? then LiquidationOrder else StopOrder, first.price,
            if Gapped(side, bar, first.price) then bar.open else first.price)
  }

  predicate TakesProfit(l: Levels, bar: Bar) {
    l.takeProfit.Some? && (if l.side.Long? then bar.high >= l.takeProfit.value else bar.low <= l.takeProfit.value)
  }

  /** The levels a bar is judged against: with `sameBarExtreme` the bar's own rally counts. */
  function Judged(l: Levels, bar: Bar, sameBarExtreme: bool): Levels {
    if sameBarExtreme then WithExtremes(l, bar) else l
  }

  /** The protective exit of one bar, as a selection between at most three adverse levels and the take-profit. */
  function EvaluateBar(l: Levels, bar: Bar, sameBarExtreme: bool): Option<Trigger> {
    var first := FirstAdverse(Judged(l, bar, sameBarExtreme), bar);
    if first.Some? then Some(AdverseTrigger(l.side, bar, first.value))
    else if TakesProfit(l, bar) then
      Some(Trigger(TakeProfit, TakeProfitOrder, l.takeProfit.value, l.takeProfit.value))
    else None
  }

  /** The reasons a bar's own prices can give. */
  predicate IsProtective(r: Reason) { r.Liquidation? || r.StopLoss? || r.TrailingStop? || r.TakeProfit? }

  lemma TriggersAreProtective(l: Levels, bar: Bar, sameBarExtreme: bool)
    ensures var t := EvaluateBar(l, bar, sameBarExtreme); t.Some? ==> IsProtective(t.value.reason)
  {}

  function AdvanceExtremes(l: Levels, bar: Bar): (real, real, bool) {
    var updated := WithExtremes(l, bar);
    (updated.peak.value, updated.trough.value, TrailingIsActive(updated))
  }

  // ---------------------------------------------------------------- the list the code builds and sorts

  function Priority(r: Reason): int {
    if r.Liquidation? then 0 else if r.StopLoss? then 1 else 2
  }

  predicate Before(side: Side, a: AdverseLevel, b: AdverseLevel) {
    Nearer(side, a.price, b.price) || (a.price == b.price && Priority(a.reason) < Priority(b.reason))
  }

  method CollectAdverse(l: Levels, bar: Bar) returns (adverse: seq<AdverseLevel>)
    ensures adverse == AdverseList(l, bar)
  {
    adverse := [];
    if l.liquidation.Some? && Hit(l.side, bar, l.liquidation.value) {
      adverse := adverse + [AdverseLevel(Liquidation, l.liquidation.value)];
    }
    if l.stopLoss.Some? && Hit(l.side, bar, l.stopLoss.value) {
      adverse := adverse + [AdverseLevel(StopLoss, l.stopLoss.value)];
    }
    if TrailingIsActive(l) {
      var anchor := if l.side.Long? then l.peak else l.trough;
      if anchor.Some? {
        var trig := if l.side.Long? then anchor.value - l.trailingDistance.value
                    else anchor.value + l.trailingDistance.value;
        if Hit(l.side, bar, trig) {
          adverse := adverse + [AdverseLevel(TrailingStop, trig)];
        }
      }
    }
  }

  /** Collects the adverse levels in a list, sorts it by (price, priority) and takes the head. The result is the
      selection `EvaluateBar` describes without a list. */
  method EvaluateByList(l: Levels, bar: Bar, sameBarExtreme: bool) returns (t: Option<Trigger>)
    ensures t == EvaluateBar(l, bar, sameBarExtreme)
  {
    var levels := Judged(l, bar, sameBarExtreme);
    var adverse := CollectAdverse(levels, bar);
    if adverse != [] {
      ghost var unsorted := adverse;
      BeforeOrders(l.side);
      Sorting.StableSortSorts(adverse, ReachOrder(l.side));
      adverse := Sorting.StableSort(adverse, ReachOrder(l.side));
      HeadIsFirst(levels, bar, unsorted, adverse);
      return Some(AdverseTrigger(l.side, bar, adverse[0]));
    }
    NothingReached(levels, bar);
    if TakesProfit(l, bar) {
      return Some(Trigger(TakeProfit, TakeProfitOrder, l.takeProfit.value, l.takeProfit.value));
    }
    return None;
  }

  lemma NothingReached(l: Levels, bar: Bar)
    requires AdverseList(l, bar) == []
    ensures FirstAdverse(l, bar).None?
  {}

  function ReachOrder(side: Side): (AdverseLevel, AdverseLevel) -> bool {
    (a, b) => Before(side, a, b)
  }

  lemma BeforeOrders(side: Side)
    ensures Sorting.StrictWeakOrder(ReachOrder(side))
  {}

  function AsList(a: Option<AdverseLevel>): seq<AdverseLevel> { if a.Some? then [a.value] else [] }

  function AdverseList(l: Levels, bar: Bar): seq<AdverseLevel> {
    AsList(Reached(l.side, bar, Liquidation, l.liquidation))
    + AsList(Reached(l.side, bar, StopLoss, l.stopLoss))
    + AsList(Reached(l.side, bar, TrailingStop, TrailingLevel(l)))
  }

  lemma FirstAdverseIsLeast(l: Levels, bar: Bar)
    requires AdverseList(l, bar) != []
    ensures FirstAdverse(l, bar).Some? && FirstAdverse(l, bar).value in AdverseList(l, bar)
    ensures forall a :: a in AdverseList(l, bar) && a != FirstAdverse(l, bar).value
              ==> Before(l.side, FirstAdverse(l, bar).value, a)
  {}

  lemma HeadIsFirst(l: Levels, bar: Bar, unsorted: seq<AdverseLevel>, sorted: seq<AdverseLevel>)
    requires unsorted == AdverseList(l, bar) != []
    requires multiset(sorted) == multiset(unsorted) && |sorted| == |unsorted|
    requires Sorting.SortedBy(sorted, ReachOrder(l.side))
    ensures FirstAdverse(l, bar) == Some(sorted[0])
  {
    hide AdverseList, FirstAdverse, Before;
    FirstAdverseIsLeast(l, bar);
    SameMembers(unsorted, sorted);
    var first, head := FirstAdverse(l, bar).value, sorted[0];
    var i :| 0 <= i < |sorted| && sorted[i] == first;
    if i != 0 {
      assert !ReachOrder(l.side)(sorted[i], sorted[0]);
      assert !Before(l.side, first, head);
    }
  }

  lemma SameMembers(s: seq<AdverseLevel>, t: seq<AdverseLevel>)
    requires multiset(s) == multiset(t)
    ensures forall a :: a in s <==> a in t
  {
    forall a ensures a in s <==> a in t {
      assert a in s <==> a in multiset(s);
    }
  }

  // ---------------------------------------------------------------- the conservative path

  predicate IsAdverse(t: Trigger) { !t.kind.TakeProfitOrder? }

  /** The bar trades at this price. */
  ghost predicate TradesAt(bar: Bar, q: real) { bar.low <= q <= bar.high }

  /** Some price of the bar is at the level or beyond it, going against the position. */
  ghost predicate TradedAgainst(side: Side, bar: Bar, level: real) {
    exists q :: TradesAt(bar, q) && if side.Long? then q <= level else q >= level
  }

  /** Some price of the bar is at the level or beyond it, going with the position. */
  ghost predicate TradedWith(side: Side, bar: Bar, level: real) {
    exists q :: TradesAt(bar, q) && if side.Long? then q >= level else q <= level
  }

  /** The best price so far: of the bars before, or with `sameBarExtreme` of this bar too. */
  ghost predicate IsBest(l: Levels, bar: Bar, sameBarExtreme: bool, best: real) {
    if sameBarExtreme then
      (l.side.Long? ==> best == Max(if l.peak.Some? then l.peak.value else l.entryPrice, bar.high))
      && (l.side.Short? ==> best == Min(if l.trough.Some? then l.trough.value else l.entryPrice, bar.low))
    else
      (l.side.Long? ==> l.peak == Some(best)) && (l.side.Short? ==> l.trough == Some(best))
  }

  /** The best price arms the trailing stop, or something did before. */
  ghost predicate Arms(l: Levels, best: real) {
    || l.trailingActive || l.activationPct <= 0.0
    || (l.side.Long? && best >= l.entryPrice * (1.0 + l.activationPct / 100.0))
    || (l.side.Short? && best <= l.entryPrice * (1.0 - l.activationPct / 100.0))
  }

  /** An armed trailing stop stands at this price: its distance behind the best price. */
  ghost predicate TrailsAt(l: Levels, bar: Bar, sameBarExtreme: bool, price: real) {
    l.trailingDistance.Some? && l.trailingDistance.value > 0.0
    && exists best :: IsBest(l, bar, sameBarExtreme, best) && Arms(l, best)
         && price == if l.side.Long? then best - l.trailingDistance.value else best + l.trailingDistance.value
  }

  /** (reason, price) is an adverse level that the bar trades at or beyond. */
  ghost predicate ReachedLevel(l: Levels, bar: Bar, sameBarExtreme: bool, reason: Reason, price: real) {
    && TradedAgainst(l.side, bar, price)
    && (|| (reason.Liquidation? && l.liquidation == Some(price))
        || (reason.StopLoss? && l.stopLoss == Some(price))
        || (reason.TrailingStop? && TrailsAt(l, bar, sameBarExtreme, price)))
  }

  lemma TouchIsTraded(side: Side, bar: Bar, level: real)
    requires Sane(bar)
    ensures Hit(side, bar, level) <==> TradedAgainst(side, bar, level)
  {
    if Hit(side, bar, level) {
      var q := if side.Long? then bar.low else bar.high;
      assert TradesAt(bar, q);
    }
  }

  lemma ProfitIsTraded(l: Levels, bar: Bar)
    requires Sane(bar)
    ensures TakesProfit(l, bar) <==> l.takeProfit.Some? && TradedWith(l.side, bar, l.takeProfit.value)
  {
    if TakesProfit(l, bar) {
      var q := if l.side.Long? then bar.high else bar.low;
      assert TradesAt(bar, q);
    }
  }

  lemma TrailIsBehindTheBest(l: Levels, bar: Bar, sameBarExtreme: bool, price: real)
    ensures TrailingLevel(Judged(l, bar, sameBarExtreme)) == Some(price) <==> TrailsAt(l, bar, sameBarExtreme, price)
  {
    var j := Judged(l, bar, sameBarExtreme);
    var best := if l.side.Long? then j.peak else j.trough;
    if best.Some? {
      assert IsBest(l, bar, sameBarExtreme, best.value);
    }
  }

  /** `a` is one of the levels the selection sees. */
  predicate Seen(l: Levels, bar: Bar, a: AdverseLevel) {
    || Reached(l.side, bar, Liquidation, l.liquidation) == Some(a)
    || Reached(l.side, bar, StopLoss, l.stopLoss) == Some(a)
    || Reached(l.side, bar, TrailingStop, TrailingLevel(l)) == Some(a)
  }

  lemma ReachedIsSeen(l: Levels, bar: Bar, sameBarExtreme: bool, reason: Reason, price: real)
    requires Sane(bar)
    ensures ReachedLevel(l, bar, sameBarExtreme, reason, price)
            <==> Seen(Judged(l, bar, sameBarExtreme), bar, AdverseLevel(reason, price))
  {
    hide TrailsAt, TradedAgainst, TrailingLevel, Hit;
    TouchIsTraded(l.side, bar, price);
    TrailIsBehindTheBest(l, bar, sameBarExtreme, price);
  }

  /** Of two levels the bar reaches, the exit takes the one nearer to the open - the higher for a long, the lower for a
      short - and of equal ones liquidation before the stop before the trail. */
  ghost predicate ComesFirst(side: Side, a: AdverseLevel, b: AdverseLevel) {
    || (side.Long? && a.price > b.price) || (side.Short? && a.price < b.price)
    || (a.price == b.price
        && (a.reason == b.reason || a.reason.Liquidation? || (a.reason.StopLoss? && b.reason.TrailingStop?)))
  }

  lemma FirstIsSeenFirst(l: Levels, bar: Bar, a: AdverseLevel)
    ensures FirstAdverse(l, bar).Some? ==> Seen(l, bar, FirstAdverse(l, bar).value)
    ensures Seen(l, bar, a) ==> FirstAdverse(l, bar).Some? && ComesFirst(l.side, FirstAdverse(l, bar).value, a)
  {
    hide Hit, TrailingLevel;
  }

  /** A bar that trades at or beyond any adverse level exits on an adverse level whatever the take-profit says; it takes
      the level that comes first, fills at the worse of that level and the open, inside the bar. A bar that reaches none
      exits exactly if it trades at or beyond the take-profit, at that level. */
  lemma ConservativePath(l: Levels, bar: Bar, sameBarExtreme: bool)
    requires Sane(bar)
    ensures var t := EvaluateBar(l, bar, sameBarExtreme);
      && ((t.Some? && IsAdverse(t.value)) <==>
            exists reason, price :: ReachedLevel(l, bar, sameBarExtreme, reason, price))
      && (t.Some? && IsAdverse(t.value) ==>
            && ReachedLevel(l, bar, sameBarExtreme, t.value.reason, t.value.level)
            && (forall reason, price :: ReachedLevel(l, bar, sameBarExtreme, reason, price) ==>
                  ComesFirst(l.side, AdverseLevel(t.value.reason, t.value.level), AdverseLevel(reason, price)))
            && t.value.reference == (if l.side.Long? then Min(bar.open, t.value.level)
                                     else Max(bar.open, t.value.level))
            && bar.low <= t.value.reference <= bar.high
            && t.value.kind == (if t.value.reason.Liquidation? then LiquidationOrder else StopOrder))
      && ((t.Some? && !IsAdverse(t.value)) <==>
            && l.takeProfit.Some? && TradedWith(l.side, bar, l.takeProfit.value)
            && (forall reason, price :: !ReachedLevel(l, bar, sameBarExtreme, reason, price)))
      && (t.Some? && !IsAdverse(t.value) ==>
            t.value == Trigger(TakeProfit, TakeProfitOrder, l.takeProfit.value, l.takeProfit.value))
  {
    hide ReachedLevel, TakesProfit, TradedWith, FirstAdverse, Seen, ComesFirst, Judged;
    var j := Judged(l, bar, sameBarExtreme);
    JudgedKeepsSide(l, bar, sameBarExtreme);
    ProfitIsTraded(l, bar);
    var first := FirstAdverse(j, bar);
    forall reason, price
      ensures ReachedLevel(l, bar, sameBarExtreme, reason, price) ==>
        first.Some? && ComesFirst(l.side, first.value, AdverseLevel(reason, price))
    {
      ReachedIsSeen(l, bar, sameBarExtreme, reason, price);
      FirstIsSeenFirst(j, bar, AdverseLevel(reason, price));
    }
    if first.Some? {
      ReachedIsSeen(l, bar, sameBarExtreme, first.value.reason, first.value.price);
      FirstIsSeenFirst(j, bar, first.value);
      assert ReachedLevel(l, bar, sameBarExtreme, first.value.reason, first.value.price);
      ReachedFillsInside(l, bar, sameBarExtreme, first.value.reason, first.value.price);
    }
  }

  lemma JudgedKeepsSide(l: Levels, bar: Bar, sameBarExtreme: bool)
    ensures Judged(l, bar, sameBarExtreme).side == l.side
  {}

  lemma ReachedFillsInside(l: Levels, bar: Bar, sameBarExtreme: bool, reason: Reason, price: real)
    requires Sane(bar) && ReachedLevel(l, bar, sameBarExtreme, reason, price)
    ensures bar.low <= (if l.side.Long? then Min(bar.open, price) else Max(bar.open, price)) <= bar.high
  {
    hide TrailsAt;
  }

  /** Counting the bar's own extreme never loses an adverse exit: it fires on a superset of the bars. */
  lemma SameBarExtremeFiresOnASuperset(l: Levels, bar: Bar)
    requires EvaluateBar(l, bar, false).Some? && IsAdverse(EvaluateBar(l, bar, false).value)
    ensures EvaluateBar(l, bar, true).Some? && IsAdverse(EvaluateBar(l, bar, true).value)
  {
    var m := WithExtremes(l, bar);
    if TrailingLevel(l).Some? {
      ArmingNeverUndoes(l, bar);
    }
  }

  lemma ArmingNeverUndoes(l: Levels, bar: Bar)
    requires TrailingIsActive(l)
    ensures TrailingIsActive(WithExtremes(l, bar))
  {}

  /** The levels as the loop stores them after a bar the position survived. */
  function AfterBar(l: Levels, bar: Bar): Levels {
    var (peak, trough, active) := AdvanceExtremes(l, bar);
    l.(peak := Some(peak), trough := Some(trough), trailingActive := active)
  }

  function AfterBars(l: Levels, bars: seq<Bar>): Levels {
    if bars == [] then l else AfterBar(AfterBars(l, bars[..|bars| - 1]), bars[|bars| - 1])
  }

  /** Over any surviving run an armed trailing stop stays armed and its level never moves away from the price. */
  lemma {:induction false} TrailingNeverLoosens(l: Levels, bars: seq<Bar>)
    requires TrailingLevel(l).Some?
    ensures TrailingLevel(AfterBars(l, bars)).Some?
    ensures !Nearer(l.side, TrailingLevel(l).value, TrailingLevel(AfterBars(l, bars)).value)
    ensures AfterBars(l, bars).side == l.side && AfterBars(l, bars).trailingDistance == l.trailingDistance
  {
    if bars != [] {
      TrailingNeverLoosens(l, bars[..|bars| - 1]);
    }
  }

  /** After any run of survived bars the stored extremes are those of the bars, and the trailing stop is armed exactly
      if it was from the start or the best price of the run reached the activation. */
  lemma {:induction false} TrailFollowsTheBest(l: Levels, bars: seq<Bar>)
    requires l.peak.Some? && l.trough.Some? && bars != []
    ensures var m, high, low := AfterBars(l, bars), Highest(l.peak.value, bars), Lowest(l.trough.value, bars);
      && m == l.(peak := Some(high), trough := Some(low), trailingActive := m.trailingActive)
      && (m.trailingActive <==>
            && l.trailingDistance.Some? && l.trailingDistance.value > 0.0
            && Arms(l, if l.side.Long? then high else low))
  {
    hide AfterBar, Arms;
    var init, bar := bars[..|bars| - 1], bars[|bars| - 1];
    if init == [] {
      OneBarArms(l, l, bar);
    } else {
      TrailFollowsTheBest(l, init);
      OneBarArms(l, AfterBars(l, init), bar);
      BetterStillArms(l, Highest(l.peak.value, init), Lowest(l.trough.value, init),
                      Highest(l.peak.value, bars), Lowest(l.trough.value, bars));
    }
  }

  /** One survived bar, from levels `m` that differ from `l` in their extremes and their arming. */
  lemma OneBarArms(l: Levels, m: Levels, bar: Bar)
    requires m.peak.Some? && m.trough.Some?
    requires m == l.(peak := m.peak, trough := m.trough, trailingActive := m.trailingActive)
    ensures var high, low, n := Max(m.peak.value, bar.high), Min(m.trough.value, bar.low), AfterBar(m, bar);
      && n == l.(peak := Some(high), trough := Some(low), trailingActive := n.trailingActive)
      && (n.trailingActive <==>
            && l.trailingDistance.Some? && l.trailingDistance.value > 0.0
            && Arms(l.(trailingActive := m.trailingActive), if l.side.Long? then high else low))
    ensures m.trailingActive || !l.trailingActive ==>
      forall best :: Arms(l.(trailingActive := m.trailingActive), best) <==> m.trailingActive || Arms(l, best)
    ensures l.trailingActive ==> forall best :: Arms(l, best)
  {}

  /** What armed the stop once arms it ever after. */
  lemma BetterStillArms(l: Levels, high: real, low: real, higher: real, lower: real)
    requires high <= higher && lower <= low
    ensures Arms(l, if l.side.Long? then high else low) ==> Arms(l, if l.side.Long? then higher else lower)
  {}
}
