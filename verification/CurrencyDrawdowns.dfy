/** The three drawdowns in currency: of the realized curve, of a forward window and of a strategy-regime cell. */
module CurrencyDrawdowns {
  import opened Market
  import opened Sorting

  datatype TradePoint = TradePoint(closedAt: int, netPnl: real)

  predicate ClosedBefore(a: TradePoint, b: TradePoint) { a.closedAt < b.closedAt }

  function ByClose(trades: seq<TradePoint>): seq<TradePoint> { StableSort(trades, ClosedBefore) }

  function NetPnls(trades: seq<TradePoint>): seq<real> { Map(trades, (t: TradePoint) => t.netPnl) }

  /** The account after the first `k` results. */
  function Balance(base: real, pnls: seq<real>, k: nat): real
    requires k <= |pnls|
  {
    base + Sum(pnls[..k])
  }

  /** `w` is the least of all changes of the balance from one point of the first `n` to the same or a later one. */
  ghost predicate DeepestFallUpTo(base: real, pnls: seq<real>, n: nat, w: real)
    requires n <= |pnls|
  {
    && (forall i, j :: 0 <= i <= j <= n ==> w <= Balance(base, pnls, j) - Balance(base, pnls, i))
    && (exists i, j :: 0 <= i <= j <= n && w == Balance(base, pnls, j) - Balance(base, pnls, i))
  }

  ghost predicate DeepestFall(base: real, pnls: seq<real>, w: real) { DeepestFallUpTo(base, pnls, |pnls|, w) }

  ghost predicate HighestUpTo(base: real, pnls: seq<real>, n: nat, peak: real)
    requires n <= |pnls|
  {
    && (forall i :: 0 <= i <= n ==> Balance(base, pnls, i) <= peak)
    && (exists i :: 0 <= i <= n && Balance(base, pnls, i) == peak)
  }

  lemma BalanceStep(base: real, pnls: seq<real>, k: nat)
    requires k < |pnls|
    ensures Balance(base, pnls, k + 1) == Balance(base, pnls, k) + pnls[k]
  {
    assert pnls[..k + 1][..k] == pnls[..k];
  }

  lemma FallExtends(base: real, pnls: seq<real>, n: nat, peak: real, worst: real)
    requires n < |pnls| && HighestUpTo(base, pnls, n, peak) && DeepestFallUpTo(base, pnls, n, worst)
    ensures var cum := Balance(base, pnls, n + 1);
            && HighestUpTo(base, pnls, n + 1, Max(peak, cum))
            && DeepestFallUpTo(base, pnls, n + 1, Min(worst, cum - Max(peak, cum)))
  {
    hide Balance, HighestUpTo, DeepestFallUpTo;
    PeakExtends(base, pnls, n, peak);
    DeepestExtends(base, pnls, n, Max(peak, Balance(base, pnls, n + 1)), worst);
  }

  lemma PeakExtends(base: real, pnls: seq<real>, n: nat, peak: real)
    requires n < |pnls| && HighestUpTo(base, pnls, n, peak)
    ensures HighestUpTo(base, pnls, n + 1, Max(peak, Balance(base, pnls, n + 1)))
  {
    hide Balance;
    var cum := Balance(base, pnls, n + 1);
    var at :| 0 <= at <= n && Balance(base, pnls, at) == peak;
    assert Balance(base, pnls, if cum <= peak then at else n + 1) == Max(peak, cum);
  }

  lemma DeepestExtends(base: real, pnls: seq<real>, n: nat, top: real, worst: real)
    requires n < |pnls| && HighestUpTo(base, pnls, n + 1, top) && DeepestFallUpTo(base, pnls, n, worst)
    ensures DeepestFallUpTo(base, pnls, n + 1, Min(worst, Balance(base, pnls, n + 1) - top))
  {
    hide Balance;
    var at :| 0 <= at <= n + 1 && Balance(base, pnls, at) == top;
    var i, j :| 0 <= i <= j <= n && worst == Balance(base, pnls, j) - Balance(base, pnls, i);
    var w := Min(worst, Balance(base, pnls, n + 1) - top);
    var a, b := if w == worst then i else at, if w == worst then j else n + 1;
    assert w == Balance(base, pnls, b) - Balance(base, pnls, a);
  }

  /** The loop the three drawdowns share. */
  method DrawdownFromCurve(netPnls: seq<real>, base: real) returns (worst: real)
    ensures DeepestFall(base, netPnls, worst)
  {
    hide Balance, DeepestFallUpTo, HighestUpTo;
    var peak, cum := base, base;
    worst := 0.0;
    FallOfNothing(netPnls, base);
    for k := 0 to |netPnls|
      invariant cum == Balance(base, netPnls, k)
      invariant HighestUpTo(base, netPnls, k, peak) && DeepestFallUpTo(base, netPnls, k, worst)
      invariant worst <= 0.0
    {
      FallExtends(base, netPnls, k, peak, worst);
      BalanceStep(base, netPnls, k);
      cum := cum + netPnls[k];
      peak := Max(peak, cum);
      worst := Min(worst, cum - peak);
    }
    worst := if worst < 0.0 then worst else 0.0;
  }

  lemma FallOfNothing(pnls: seq<real>, base: real)
    ensures Balance(base, pnls, 0) == base
    ensures HighestUpTo(base, pnls, 0, base) && DeepestFallUpTo(base, pnls, 0, 0.0)
  {}

  // ---------------------------------------------------------------- the realized curve

  /** The account after each close, in the order of the closes. */
  method RealizedCurve(trades: seq<TradePoint>, startingBalance: real) returns (curve: seq<(int, real)>)
    ensures |curve| == |NetPnls(ByClose(trades))| == |ByClose(trades)|
    ensures forall k :: 0 <= k < |curve| ==>
      curve[k] == (ByClose(trades)[k].closedAt, Balance(startingBalance, NetPnls(ByClose(trades)), k + 1))
    ensures forall i, j :: 0 <= i < j < |curve| ==> curve[i].0 <= curve[j].0
  {
    hide Balance;
    ByCloseAscends(trades);
    var ordered := ByClose(trades);
    var cum := startingBalance;
    curve := [];
    FallOfNothing(NetPnls(ordered), startingBalance);
    for k := 0 to |ordered|
      invariant |curve| == k && cum == Balance(startingBalance, NetPnls(ordered), k)
      invariant forall i :: 0 <= i < k ==>
        curve[i] == (ordered[i].closedAt, Balance(startingBalance, NetPnls(ordered), i + 1))
    {
      BalanceStep(startingBalance, NetPnls(ordered), k);
      cum := cum + ordered[k].netPnl;
      curve := curve + [(ordered[k].closedAt, cum)];
    }
  }

  method MaxDrawdownCurrency(trades: seq<TradePoint>, startingBalance: real) returns (worst: real)
    ensures DeepestFall(startingBalance, NetPnls(ByClose(trades)), worst)
  {
    hide Balance, DeepestFallUpTo, HighestUpTo;
    var curve := RealizedCurve(trades, startingBalance);
    ghost var pnls := NetPnls(ByClose(trades));
    var peak := startingBalance;
    worst := 0.0;
    FallOfNothing(pnls, startingBalance);
    for k := 0 to |curve|
      invariant HighestUpTo(startingBalance, pnls, k, peak) && DeepestFallUpTo(startingBalance, pnls, k, worst)
      invariant worst <= 0.0
    {
      FallExtends(startingBalance, pnls, k, peak, worst);
      var equity := curve[k].1;
      peak := Max(peak, equity);
      worst := Min(worst, equity - peak);
    }
    worst := if worst < 0.0 then worst else 0.0;
  }

  // ---------------------------------------------------------------- the strategy-regime cell

  /** The trades of a cell, given as the parallel lists of its columns. */
  function Points(netPnls: seq<real>, closedAt: seq<int>): (r: seq<TradePoint>)
    requires |netPnls| == |closedAt|
    ensures |r| == |netPnls|
    ensures forall k :: 0 <= k < |r| ==> r[k] == TradePoint(closedAt[k], netPnls[k])
  {
    seq(|netPnls|, i requires 0 <= i < |netPnls| => TradePoint(closedAt[i], netPnls[i]))
  }

  /** The order in which the cell visits its trades: their positions, sorted by close time. */
  function CloseOrder(closedAt: seq<int>): seq<int> {
    StableSort(Indices(|closedAt|), (i, j) => At(closedAt, i, 0) < At(closedAt, j, 0))
  }

  lemma InOrderOfClose(netPnls: seq<real>, closedAt: seq<int>)
    requires |netPnls| == |closedAt|
    ensures var order, sorted := CloseOrder(closedAt), ByClose(Points(netPnls, closedAt));
            && |order| == |sorted| == |netPnls|
            && forall k :: 0 <= k < |order| ==> 0 <= order[k] < |netPnls| && netPnls[order[k]] == sorted[k].netPnl
  {
    var points := Points(netPnls, closedAt);
    var lookup := (i: int) => TradePoint(At(closedAt, i, 0), At(netPnls, i, 0.0));
    var less := (i: int, j: int) => At(closedAt, i, 0) < At(closedAt, j, 0);
    var order := CloseOrder(closedAt);
    assert Map(Indices(|closedAt|), lookup) == points;
    StableSortMap(Indices(|closedAt|), lookup, less, ClosedBefore);
    StableSortSorts(Indices(|closedAt|), less);
    forall k | 0 <= k < |order| ensures 0 <= order[k] < |netPnls| {
      assert order[k] in multiset(order);
      assert order[k] in multiset(Indices(|closedAt|));
    }
  }

  method CellDrawdown(netPnls: seq<real>, closedAt: seq<int>) returns (worst: real)
    requires |netPnls| == |closedAt|
    ensures DeepestFall(0.0, NetPnls(ByClose(Points(netPnls, closedAt))), worst)
  {
    hide Balance, DeepestFallUpTo, HighestUpTo, CloseOrder, ByClose;
    ghost var pnls := NetPnls(ByClose(Points(netPnls, closedAt)));
    InOrderOfClose(netPnls, closedAt);
    FallOfNothing(pnls, 0.0);
    if netPnls == [] {
      return 0.0;
    }
    var order := CloseOrder(closedAt);
    var peak, cum := 0.0, 0.0;
    worst := 0.0;
    for k := 0 to |order|
      invariant cum == Balance(0.0, pnls, k)
      invariant HighestUpTo(0.0, pnls, k, peak) && DeepestFallUpTo(0.0, pnls, k, worst)
      invariant worst <= 0.0
    {
      FallExtends(0.0, pnls, k, peak, worst);
      BalanceStep(0.0, pnls, k);
      cum := cum + netPnls[order[k]];
      peak := Max(peak, cum);
      worst := Min(worst, cum - peak);
    }
    worst := if worst < 0.0 then worst else 0.0;
  }

  // ---------------------------------------------------------------- agreement

  /** Whatever equity the curve starts from, its deepest fall is the same number. */
  lemma BaseDoesNotMatter(base: real, base': real, pnls: seq<real>, w: real, w': real)
    requires DeepestFall(base, pnls, w) && DeepestFall(base', pnls, w')
    ensures w == w'
  {
    forall i, j | 0 <= i <= j <= |pnls|
      ensures Balance(base, pnls, j) - Balance(base, pnls, i) == Balance(base', pnls, j) - Balance(base', pnls, i)
    {}
    var i, j :| 0 <= i <= j <= |pnls| && w == Balance(base, pnls, j) - Balance(base, pnls, i);
    var i', j' :| 0 <= i' <= j' <= |pnls| && w' == Balance(base', pnls, j') - Balance(base', pnls, i');
    assert w' <= Balance(base', pnls, j) - Balance(base', pnls, i);
    assert w <= Balance(base, pnls, j') - Balance(base, pnls, i');
  }

  /** On the same trades the realized drawdown, the forward drawdown and the cell drawdown are one number. */
  method ThreeDrawdowns(trades: seq<TradePoint>, starting: real, base: real)
    returns (realized: real, forward: real, cell: real)
    ensures realized == forward == cell
  {
    hide Balance, DeepestFallUpTo, HighestUpTo, CloseOrder, ByClose;
    realized := MaxDrawdownCurrency(trades, starting);
    forward := DrawdownFromCurve(NetPnls(ByClose(trades)), base);
    var times := Map(trades, (t: TradePoint) => t.closedAt);
    cell := CellDrawdown(NetPnls(trades), times);
    assert Points(NetPnls(trades), times) == trades;
    BaseDoesNotMatter(starting, base, NetPnls(ByClose(trades)), realized, forward);
    BaseDoesNotMatter(base, 0.0, NetPnls(ByClose(trades)), forward, cell);
  }

  // ---------------------------------------------------------------- windows of the curve

  predicate InWindow(t: TradePoint, from: int, to: int) { from < t.closedAt <= to }

  function Within(trades: seq<TradePoint>, from: int, to: int): seq<TradePoint> {
    if trades == [] then []
    else
      var kept := Within(trades[..|trades| - 1], from, to);
      if InWindow(trades[|trades| - 1], from, to) then kept + [trades[|trades| - 1]] else kept
  }

  lemma {:induction false} WithinInsert(s: seq<TradePoint>, t: TradePoint, from: int, to: int)
    requires SortedBy(s, ClosedBefore)
    ensures Within(Insert(s, t, ClosedBefore), from, to)
            == if InWindow(t, from, to) then Insert(Within(s, from, to), t, ClosedBefore) else Within(s, from, to)
  {
    if s != [] && ClosedBefore(t, s[|s| - 1]) {
      var init, last := s[..|s| - 1], s[|s| - 1];
      WithinInsert(init, t, from, to);
      var inserted := Insert(init, t, ClosedBefore);
      assert (inserted + [last])[..|inserted|] == inserted;
      var kept := Within(init, from, to);
      assert (kept + [last])[..|kept|] == kept;
      if !InWindow(last, from, to) && InWindow(t, from, to) {
        assert Within(s, from, to) == kept;
      }
    } else {
      assert (s + [t])[..|s|] == s;
      LastWithin(s, from, to);
      var kept := Within(s, from, to);
      if kept != [] {
        assert kept[|kept| - 1] in kept;
        assert !ClosedBefore(t, kept[|kept| - 1]);
      }
    }
  }

  lemma {:induction false} LastWithin(s: seq<TradePoint>, from: int, to: int)
    requires SortedBy(s, ClosedBefore)
    ensures forall t :: t in Within(s, from, to) ==> t in s && InWindow(t, from, to) && !ClosedBefore(s[|s| - 1], t)
  {
    if s != [] {
      var init := s[..|s| - 1];
      LastWithin(init, from, to);
      assert |s| > 1 ==> !ClosedBefore(s[|s| - 1], s[|s| - 2]);
    }
  }

  /** Choosing the trades of a window and sorting them is choosing them from the sorted list. */
  lemma {:induction false} WithinSorts(trades: seq<TradePoint>, from: int, to: int)
    ensures ByClose(Within(trades, from, to)) == Within(ByClose(trades), from, to)
  {
    if trades != [] {
      var init, last := trades[..|trades| - 1], trades[|trades| - 1];
      WithinSorts(init, from, to);
      StableSortSorts(init, ClosedBefore);
      WithinInsert(ByClose(init), last, from, to);
      var kept := Within(init, from, to);
      assert (kept + [last])[..|kept|] == kept;
    }
  }

  /** A stretch of the window, if the last trade is in the window too, goes up to it. */
  lemma StretchReachesTheEnd(s: seq<TradePoint>, from: int, to: int, lo: nat, hi: nat)
    requires SortedBy(s, ClosedBefore) && lo < hi < |s| && InWindow(s[|s| - 1], from, to)
    requires forall k :: 0 <= k < |s| - 1 ==> (lo <= k < hi <==> InWindow(s[k], from, to))
    ensures hi == |s| - 1
  {
    var next := s[hi];
    assert !ClosedBefore(next, s[lo]);
    assert hi < |s| - 1 ==> !ClosedBefore(s[|s| - 1], next);
  }

  /** In a sorted list a window is one contiguous stretch. */
  lemma {:induction false} WithinIsAStretch(s: seq<TradePoint>, from: int, to: int) returns (lo: nat, hi: nat)
    requires SortedBy(s, ClosedBefore)
    ensures lo <= hi <= |s| && Within(s, from, to) == s[lo..hi]
    ensures forall k :: 0 <= k < |s| ==> (lo <= k < hi <==> InWindow(s[k], from, to))
  {
    lo, hi := 0, 0;
    if s != [] {
      var init, last := s[..|s| - 1], s[|s| - 1];
      lo, hi := WithinIsAStretch(init, from, to);
      assert init[lo..hi] == s[lo..hi];
      assert forall k :: 0 <= k < |init| ==> init[k] == s[k] && !ClosedBefore(last, s[k]);
      if InWindow(last, from, to) {
        if lo == hi {
          lo, hi := |s| - 1, |s|;
        } else {
          StretchReachesTheEnd(s, from, to, lo, hi);
          hi := |s|;
        }
      }
    }
  }

  /** The drawdown reported for a window is the fall over one stretch of the lifetime curve, so nothing before the
      window can make it worse, and it is never worse than the lifetime drawdown. */
  lemma WindowNeverWorse(trades: seq<TradePoint>, from: int, to: int, base: real, starting: real, window: real,
                         life: real)
    requires DeepestFall(base, NetPnls(ByClose(Within(trades, from, to))), window)
    requires DeepestFall(starting, NetPnls(ByClose(trades)), life)
    ensures life <= window
  {
    hide ByClose;
    var all := ByClose(trades);
    WithinSorts(trades, from, to);
    ByCloseSorts(trades);
    var lo, hi := WithinIsAStretch(all, from, to);
    StretchNeverWorse(NetPnls(all), lo, hi, base, starting, window, life) by {
      assert NetPnls(all[lo..hi]) == NetPnls(all)[lo..hi];
    }
  }

  lemma ByCloseSorts(trades: seq<TradePoint>)
    ensures SortedBy(ByClose(trades), ClosedBefore)
  {
    StableSortSorts(trades, ClosedBefore);
  }

  lemma {:induction false} BalanceOfStretch(pnls: seq<real>, lo: nat, k: nat, base: real, starting: real)
    requires lo + k <= |pnls|
    ensures Balance(base, pnls[lo..], k) - base == Balance(starting, pnls, lo + k) - Balance(starting, pnls, lo)
  {
    if k > 0 {
      BalanceOfStretch(pnls, lo, k - 1, base, starting);
      BalanceStep(base, pnls[lo..], k - 1);
      BalanceStep(starting, pnls, lo + k - 1);
    }
  }

  lemma StretchNeverWorse(pnls: seq<real>, lo: nat, hi: nat, base: real, starting: real, part: real, whole: real)
    requires lo <= hi <= |pnls|
    requires DeepestFall(base, pnls[lo..hi], part) && DeepestFall(starting, pnls, whole)
    ensures whole <= part
  {
    hide Balance;
    var i, j :| 0 <= i <= j <= hi - lo && part == Balance(base, pnls[lo..hi], j) - Balance(base, pnls[lo..hi], i);
    forall k | 0 <= k <= hi - lo
      ensures Balance(base, pnls[lo..hi], k) == Balance(base, pnls[lo..], k)
    {
      SamePrefix(base, pnls[lo..hi], pnls[lo..], k);
    }
    BalanceOfStretch(pnls, lo, i, base, starting);
    BalanceOfStretch(pnls, lo, j, base, starting);
    assert whole <= Balance(starting, pnls, lo + j) - Balance(starting, pnls, lo + i);
  }

  lemma SamePrefix(base: real, s: seq<real>, t: seq<real>, k: nat)
    requires k <= |s| && k <= |t| && s[..k] == t[..k]
    ensures Balance(base, s, k) == Balance(base, t, k)
  {}

  /** Trades that closed at the same time keep the order they were listed in. */
  lemma TiesKeepTheirOrder(trades: seq<TradePoint>, time: int)
    ensures Within(ByClose(trades), time - 1, time) == Within(trades, time - 1, time)
  {
    WithinSorts(trades, time - 1, time);
    AllAtOnce(trades, time);
    StableSortIdentity(Within(trades, time - 1, time), ClosedBefore);
  }

  lemma {:induction false} AllAtOnce(trades: seq<TradePoint>, time: int)
    ensures forall t :: t in Within(trades, time - 1, time) ==> t.closedAt == time
    ensures SortedBy(Within(trades, time - 1, time), ClosedBefore)
  {
    if trades != [] {
      AllAtOnce(trades[..|trades| - 1], time);
    }
  }

  /** The sorted list holds the same trades, none before an earlier one. */
  lemma ByCloseAscends(trades: seq<TradePoint>)
    ensures multiset(ByClose(trades)) == multiset(trades)
    ensures forall i, j :: 0 <= i < j < |ByClose(trades)| ==> ByClose(trades)[i].closedAt <= ByClose(trades)[j].closedAt
  {
    StableSortSorts(trades, ClosedBefore);
  }
}
