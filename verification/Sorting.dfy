/** The stable sort behind every `sorted(..., key=...)` and `list.sort(key=...)` of the modelled code. */
module Sorting {

  /** `less` is a strict weak order: irreflexive, transitive, with transitive incomparability. */
  ghost predicate StrictWeakOrder<T(!new)>(less: (T, T) -> bool) {
    && (forall x :: !less(x, x))
    && (forall x, y, z :: less(x, y) && less(y, z) ==> less(x, z))
    && (forall x, y, z :: less(x, z) ==> less(x, y) || less(y, z))
  }

  ghost predicate SortedBy<T>(s: seq<T>, less: (T, T) -> bool) {
    forall i, j :: 0 <= i < j < |s| ==> !less(s[j], s[i])
  }

  /** `x` goes after every element that is not greater, so equal elements keep their order. */
  function Insert<T>(s: seq<T>, x: T, less: (T, T) -> bool): seq<T> {
    if s == [] || !less(x, s[|s| - 1]) then s + [x]
    else Insert(s[..|s| - 1], x, less) + [s[|s| - 1]]
  }

  function StableSort<T>(s: seq<T>, less: (T, T) -> bool): seq<T> {
    if s == [] then [] else Insert(StableSort(s[..|s| - 1], less), s[|s| - 1], less)
  }

  lemma {:induction false} InsertPermutes<T>(s: seq<T>, x: T, less: (T, T) -> bool)
    ensures multiset(Insert(s, x, less)) == multiset(s) + multiset{x}
  {
    if s != [] && less(x, s[|s| - 1]) {
      InsertPermutes(s[..|s| - 1], x, less);
      assert s == s[..|s| - 1] + [s[|s| - 1]];
    }
  }

  lemma {:induction false} InsertSorts<T(!new)>(s: seq<T>, x: T, less: (T, T) -> bool)
    requires StrictWeakOrder(less) && SortedBy(s, less)
    ensures SortedBy(Insert(s, x, less), less)
  {
    if s != [] && less(x, s[|s| - 1]) {
      var init, last := s[..|s| - 1], s[|s| - 1];
      InsertSorts(init, x, less);
      InsertPermutes(init, x, less);
      var r := Insert(init, x, less);
      forall i | 0 <= i < |r| ensures !less(last, r[i]) {
        assert r[i] in multiset(r);
        assert r[i] in multiset(init) || r[i] == x;
      }
    } else if s != [] {
      forall i | 0 <= i < |s| ensures !less(x, s[i]) {
        assert !less(s[|s| - 1], s[i]);
      }
    }
  }

  /** The result is a permutation of the input in order. */
  lemma {:induction false} StableSortSorts<T(!new)>(s: seq<T>, less: (T, T) -> bool)
    requires StrictWeakOrder(less)
    ensures multiset(StableSort(s, less)) == multiset(s)
    ensures |StableSort(s, less)| == |s|
    ensures SortedBy(StableSort(s, less), less)
  {
    if s != [] {
      var init, last := s[..|s| - 1], s[|s| - 1];
      StableSortSorts(init, less);
      InsertPermutes(StableSort(init, less), last, less);
      InsertSorts(StableSort(init, less), last, less);
      assert s == init + [last];
    }
    assert |multiset(StableSort(s, less))| == |multiset(s)|;
  }

  /** Sorting a list that is already in order changes nothing. */
  lemma {:induction false} StableSortIdentity<T>(s: seq<T>, less: (T, T) -> bool)
    requires SortedBy(s, less)
    ensures StableSort(s, less) == s
  {
    if s != [] {
      StableSortIdentity(s[..|s| - 1], less);
      if |s| > 1 {
        assert !less(s[|s| - 1], s[|s| - 2]);
      }
      assert s == s[..|s| - 1] + [s[|s| - 1]];
    }
  }

  /** Sorting positions by a key and then looking the values up is sorting the values by the key. */
  function Map<A, B>(s: seq<A>, f: A -> B): (r: seq<B>)
    ensures |r| == |s| && forall i :: 0 <= i < |s| ==> r[i] == f(s[i])
  {
    if s == [] then [] else Map(s[..|s| - 1], f) + [f(s[|s| - 1])]
  }

  lemma {:induction false} InsertMap<A(!new), B>(s: seq<A>, x: A, f: A -> B, lessA: (A, A) -> bool,
                                                 lessB: (B, B) -> bool)
    requires forall a, a' :: lessA(a, a') == lessB(f(a), f(a'))
    ensures Map(Insert(s, x, lessA), f) == Insert(Map(s, f), f(x), lessB)
  {
    if s != [] && lessA(x, s[|s| - 1]) {
      InsertMap(s[..|s| - 1], x, f, lessA, lessB);
      assert Map(s, f)[..|s| - 1] == Map(s[..|s| - 1], f);
    } else {
      assert (s + [x])[..|s|] == s;
    }
  }

  lemma {:induction false} StableSortMap<A(!new), B>(s: seq<A>, f: A -> B, lessA: (A, A) -> bool, lessB: (B, B) -> bool)
    requires forall a, a' :: lessA(a, a') == lessB(f(a), f(a'))
    ensures Map(StableSort(s, lessA), f) == StableSort(Map(s, f), lessB)
  {
    if s != [] {
      StableSortMap(s[..|s| - 1], f, lessA, lessB);
      InsertMap(StableSort(s[..|s| - 1], lessA), s[|s| - 1], f, lessA, lessB);
      assert Map(s, f)[..|s| - 1] == Map(s[..|s| - 1], f);
    }
  }

  /** The positions of a list of length `n`, and the element at a position. */
  function Indices(n: nat): (r: seq<int>)
    ensures |r| == n && forall k :: 0 <= k < n ==> r[k] == k
  {
    seq(n, i => i)
  }

  function At<T>(s: seq<T>, i: int, default: T): T { if 0 <= i < |s| then s[i] else default }
}
