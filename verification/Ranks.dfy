/** Average ranks, as the fitness report computes them. */
module Ranks {
  import opened Sorting

  /** How many elements of `s` are below `v`. */
  function Below(s: seq<real>, v: real): nat {
    if s == [] then 0 else Below(s[..|s| - 1], v) + (if s[|s| - 1] < v then 1 else 0)
  }

  function Equal(s: seq<real>, v: real): nat {
    if s == [] then 0 else Equal(s[..|s| - 1], v) + (if s[|s| - 1] == v then 1 else 0)
  }

  /** The mean of the places the elements equal to `v` take when `s` is sorted, counting from one. */
  function RankOf(s: seq<real>, v: real): real { Below(s, v) as real + (Equal(s, v) as real + 1.0) / 2.0 }

  // ---------------------------------------------------------------- counting in a sorted list

  predicate Ascending(a: real, b: real) { a < b }

  lemma {:induction false} InsertCounts(s: seq<real>, x: real, v: real)
    ensures Below(Insert(s, x, Ascending), v) == Below(s + [x], v)
    ensures Equal(Insert(s, x, Ascending), v) == Equal(s + [x], v)
  {
    assert (s + [x])[..|s|] == s;
    if s != [] && x < s[|s| - 1] {
      var init, last := s[..|s| - 1], s[|s| - 1];
      InsertCounts(init, x, v);
      assert (init + [x])[..|init|] == init;
      var r := Insert(init, x, Ascending);
      assert (r + [last])[..|r|] == r;
    }
  }

  lemma {:induction false} SortCounts(s: seq<real>, v: real)
    ensures Below(StableSort(s, Ascending), v) == Below(s, v) && Equal(StableSort(s, Ascending), v) == Equal(s, v)
  {
    if s != [] {
      var init := s[..|s| - 1];
      SortCounts(init, v);
      var r := StableSort(init, Ascending);
      InsertCounts(r, s[|s| - 1], v);
      assert (r + [s[|s| - 1]])[..|r|] == r;
    }
  }

  /** In a sorted list the run of elements equal to `v` starts after the elements below it. */
  lemma {:induction false} RunCounts(s: seq<real>, v: real, i: nat, j: nat)
    requires i <= j <= |s|
    requires forall k :: 0 <= k < i ==> s[k] < v
    requires forall k :: i <= k < j ==> s[k] == v
    requires forall k :: j <= k < |s| ==> s[k] > v
    ensures Below(s, v) == i && Equal(s, v) == j - i
  {
    if s != [] {
      var n := |s| - 1;
      RunCounts(s[..n], v, if i <= n then i else n, if j <= n then j else n);
    }
  }

  // ---------------------------------------------------------------- the algorithm

  /** The positions of `vals`, sorted by value. */
  function Order(vals: seq<real>): seq<int> {
    StableSort(Indices(|vals|), (i, j) => At(vals, i, 0.0) < At(vals, j, 0.0))
  }

  /** The positions in sorted order are all the positions, each once, and read the values in sorted order. */
  lemma OrderSorts(vals: seq<real>)
    ensures var order, sorted := Order(vals), StableSort(vals, Ascending);
            && |order| == |sorted| == |vals|
            && (forall k :: 0 <= k < |order| ==> 0 <= order[k] < |vals| && vals[order[k]] == sorted[k])
            && (forall x :: 0 <= x < |vals| ==> x in order)
            && (forall k, l :: 0 <= k < l < |order| ==> order[k] != order[l])
            && (forall k, l :: 0 <= k < l < |order| ==> sorted[k] <= sorted[l])
  {
    hide StableSort;
    OrderIsAPermutation(vals);
    OrderReadsSorted(vals);
  }

  lemma OrderIsAPermutation(vals: seq<real>)
    ensures var order := Order(vals);
            && |order| == |vals|
            && (forall k :: 0 <= k < |order| ==> 0 <= order[k] < |vals|)
            && (forall x :: 0 <= x < |vals| ==> x in order)
            && (forall k, l :: 0 <= k < l < |order| ==> order[k] != order[l])
  {
    hide StableSort;
    var all, order := Indices(|vals|), Order(vals);
    StableSortSorts(all, (i, j) => At(vals, i, 0.0) < At(vals, j, 0.0));
    forall k | 0 <= k < |order| ensures 0 <= order[k] < |vals| {
      assert order[k] in multiset(order);
      assert order[k] in multiset(all);
    }
    forall x | 0 <= x < |vals| ensures x in order {
      assert all[x] in multiset(all);
      assert x in multiset(order);
    }
    forall k, l | 0 <= k < l < |order| ensures order[k] != order[l] {
      DistinctStaysDistinct(all, order, k, l);
    }
  }

  lemma OrderReadsSorted(vals: seq<real>)
    ensures var order, sorted := Order(vals), StableSort(vals, Ascending);
            && |order| == |sorted| == |vals|
            && (forall k :: 0 <= k < |order| ==> At(vals, order[k], 0.0) == sorted[k])
            && (forall k, l :: 0 <= k < l < |order| ==> sorted[k] <= sorted[l])
  {
    hide StableSort;
    var less := (i: int, j: int) => At(vals, i, 0.0) < At(vals, j, 0.0);
    var lookup := (i: int) => At(vals, i, 0.0);
    var all := Indices(|vals|);
    assert Map(all, lookup) == vals;
    StableSortMap(all, lookup, less, Ascending);
    StableSortSorts(vals, Ascending);
    var sorted := StableSort(vals, Ascending);
    assert forall k, l :: 0 <= k < l < |sorted| ==> !Ascending(sorted[l], sorted[k]);
  }

  /** A permutation of a list without repetitions has none. */
  lemma DistinctStaysDistinct(s: seq<int>, t: seq<int>, k: int, l: int)
    requires multiset(s) == multiset(t) && (forall i, j :: 0 <= i < j < |s| ==> s[i] != s[j])
    requires 0 <= k < l < |t|
    ensures t[k] != t[l]
  {
    if t[k] == t[l] {
      var x := t[k];
      assert t == t[..l] + [t[l]] + t[l + 1..];
      assert multiset(t)[x] == multiset(t[..l])[x] + 1 + multiset(t[l + 1..])[x];
      assert t[..l][k] == x;
      assert multiset(t)[x] >= 2;
      OccursOnce(s, x);
    }
  }

  lemma {:induction false} OccursOnce(s: seq<int>, x: int)
    requires forall i, j :: 0 <= i < j < |s| ==> s[i] != s[j]
    ensures multiset(s)[x] <= 1
  {
    if s != [] {
      var n := |s| - 1;
      OccursOnce(s[..n], x);
      assert s == s[..n] + [s[n]];
      if s[n] == x {
        assert x !in s[..n];
        assert multiset(s[..n])[x] == 0;
      }
    }
  }

  /** Every element receives the mean place of its value. */
  method AverageRanks(vals: seq<real>) returns (ranks: array<real>)
    ensures fresh(ranks) && ranks.Length == |vals|
    ensures forall x :: 0 <= x < |vals| ==> ranks[x] == RankOf(vals, vals[x])
  {
    hide RankOf, Order, StableSort;
    OrderSorts(vals);
    var order := Order(vals);
    ghost var sorted := StableSort(vals, Ascending);
    ranks := new real[|vals|](_ => 0.0);
    var i := 0;
    while i < |order|
      invariant 0 <= i <= |order|
      invariant 0 < i < |order| ==> sorted[i - 1] < sorted[i]
      invariant forall p :: 0 <= p < i ==> ranks[order[p]] == RankOf(vals, sorted[p])
    {
      var j := i;
      while j + 1 < |order| && vals[order[j + 1]] == vals[order[i]]
        invariant i <= j < |order|
        invariant forall p :: i <= p <= j ==> sorted[p] == sorted[i]
      {
        j := j + 1;
      }
      var avg := (i + j) as real / 2.0 + 1.0;
      RunRank(vals, i, j);
      for k := i to j + 1
        invariant forall p :: 0 <= p < i ==> ranks[order[p]] == RankOf(vals, sorted[p])
        invariant forall p :: i <= p < k ==> ranks[order[p]] == avg
      {
        ranks[order[k]] := avg;
      }
      i := j + 1;
    }
    forall x | 0 <= x < |vals| ensures ranks[x] == RankOf(vals, vals[x]) {
      assert x in order;
      var p :| 0 <= p < |order| && order[p] == x;
    }
  }

  lemma RunRank(vals: seq<real>, i: nat, j: nat)
    requires var s := StableSort(vals, Ascending);
             && i <= j < |s|
             && (i > 0 ==> s[i - 1] < s[i])
             && (forall p :: i <= p <= j ==> s[p] == s[i])
             && (j + 1 < |s| ==> s[j + 1] != s[i])
    ensures RankOf(vals, StableSort(vals, Ascending)[i]) == (i + j) as real / 2.0 + 1.0
  {
    var s := StableSort(vals, Ascending);
    StableSortSorts(vals, Ascending);
    assert forall k, l :: 0 <= k < l < |s| ==> !Ascending(s[l], s[k]);
    RunCounts(s, s[i], i, j + 1);
    SortCounts(vals, s[i]);
  }

  // ---------------------------------------------------------------- what ranks are for

  lemma {:induction false} SmallerCounts(s: seq<real>, v: real, w: real)
    requires v < w
    ensures Below(s, w) >= Below(s, v) + Equal(s, v)
  {
    if s != [] {
      SmallerCounts(s[..|s| - 1], v, w);
    }
  }

  lemma {:induction false} OccurrenceCounts(s: seq<real>, k: int)
    requires 0 <= k < |s|
    ensures Equal(s, s[k]) >= 1
  {
    if k < |s| - 1 {
      OccurrenceCounts(s[..|s| - 1], k);
    }
  }

  /** Ranks order the elements as their values do: a smaller value ranks lower, and only equal values tie. */
  lemma RanksFollowTheValues(s: seq<real>, x: int, y: int)
    requires 0 <= x < |s| && 0 <= y < |s|
    ensures s[x] < s[y] <==> RankOf(s, s[x]) < RankOf(s, s[y])
    ensures s[x] == s[y] <==> RankOf(s, s[x]) == RankOf(s, s[y])
  {
    OccurrenceCounts(s, x);
    OccurrenceCounts(s, y);
    if s[x] < s[y] {
      SmallerCounts(s, s[x], s[y]);
    } else if s[y] < s[x] {
      SmallerCounts(s, s[y], s[x]);
    }
  }

  /** The ranks, with respect to `s`, of the elements of `t`. */
  function RankSum(s: seq<real>, t: seq<real>): real {
    if t == [] then 0.0 else RankSum(s, t[..|t| - 1]) + RankOf(s, t[|t| - 1])
  }

  /** A new element raises the ranks of the greater ones by 1 and of the equal ones by 1/2. */
  lemma {:induction false} NewElement(s: seq<real>, a: real, t: seq<real>)
    ensures RankSum(s + [a], t) == RankSum(s, t) + |t| as real - Below(t, a) as real - Equal(t, a) as real / 2.0
  {
    if t != [] {
      NewElement(s, a, t[..|t| - 1]);
      assert (s + [a])[..|s|] == s;
    }
  }

  lemma {:induction false} RanksSum(s: seq<real>)
    ensures RankSum(s, s) == (|s| * (|s| + 1)) as real / 2.0
  {
    if s != [] {
      var n := |s| - 1;
      var init, a := s[..n], s[n];
      RanksSum(init);
      NewElement(init, a, init);
      assert init + [a] == s;
      assert RankOf(s, a) == Below(init, a) as real + (Equal(init, a) as real + 2.0) / 2.0;
      assert (n * (n + 1)) as real / 2.0 + n as real + 1.0 == ((n + 1) * (n + 2)) as real / 2.0;
    }
  }
}
