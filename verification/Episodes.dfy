/** Regime episodes: the maximal runs of one regime in a series of bars. */
module Episodes {

  datatype Labelled = Labelled(openTime: int, regime: string)

  /** The number of the run that row `k` belongs to. */
  function Episode(rows: seq<Labelled>, k: nat): nat
    requires k < |rows|
  {
    if k == 0 then 1 else Episode(rows, k - 1) + (if rows[k].regime != rows[k - 1].regime then 1 else 0)
  }

  /** The dictionary: a later row with the same open time overwrites. */
  function Ids(rows: seq<Labelled>): map<int, nat> {
    if rows == [] then map[] else Ids(rows[..|rows| - 1])[rows[|rows| - 1].openTime := Episode(rows, |rows| - 1)]
  }

  lemma {:induction false} EpisodeOfPrefix(rows: seq<Labelled>, n: nat, k: nat)
    requires k < n <= |rows|
    ensures Episode(rows[..n], k) == Episode(rows, k)
  {
    if k > 0 {
      EpisodeOfPrefix(rows, n, k - 1);
    }
  }

  method EpisodeIds(rows: seq<Labelled>) returns (ids: map<int, nat>)
    ensures ids == Ids(rows)
  {
    ids := map[];
    var current: string, started, episode: nat := "", false, 0;
    for k := 0 to |rows|
      invariant ids == Ids(rows[..k])
      invariant started <==> k > 0
      invariant k > 0 ==> current == rows[k - 1].regime && episode == Episode(rows, k - 1)
      invariant k == 0 ==> episode == 0
    {
      if !started || rows[k].regime != current {
        episode := episode + 1;
        current := rows[k].regime;
        started := true;
      }
      ids := ids[rows[k].openTime := episode];
      assert rows[..k + 1][..k] == rows[..k];
      EpisodeOfPrefix(rows, k + 1, k);
    }
    assert rows[..|rows|] == rows;
  }

  /** Two rows share an episode exactly when the regime did not change anywhere between them. */
  lemma {:induction false} SameEpisodeExactlyWhen(rows: seq<Labelled>, i: nat, j: nat)
    requires i <= j < |rows|
    ensures 1 <= Episode(rows, i) <= Episode(rows, j)
    ensures Episode(rows, i) == Episode(rows, j) <==> forall k :: i <= k <= j ==> rows[k].regime == rows[i].regime
  {
    if i < j {
      SameEpisodeExactlyWhen(rows, i, j - 1);
    } else if i > 0 {
      SameEpisodeExactlyWhen(rows, 0, i - 1);
    }
  }

  /** Numbers are used without gaps. */
  lemma {:induction false} EveryNumberIsUsed(rows: seq<Labelled>, j: nat, number: nat) returns (i: nat)
    requires j < |rows| && 1 <= number <= Episode(rows, j)
    ensures i <= j && Episode(rows, i) == number
  {
    if number == Episode(rows, j) {
      i := j;
    } else {
      i := EveryNumberIsUsed(rows, j - 1, number);
    }
  }

  /** A bar that occurs once is numbered by its run. */
  lemma {:induction false} IdOfABar(rows: seq<Labelled>, k: nat)
    requires k < |rows| && forall l :: k < l < |rows| ==> rows[l].openTime != rows[k].openTime
    ensures rows[k].openTime in Ids(rows) && Ids(rows)[rows[k].openTime] == Episode(rows, k)
  {
    var n := |rows| - 1;
    if k < n {
      IdOfABar(rows[..n], k);
      EpisodeOfPrefix(rows, n, k);
    }
  }

  /** The last row that lists the bar. */
  lemma {:induction false} LastListing(rows: seq<Labelled>, time: int) returns (k: nat)
    requires time in Ids(rows)
    ensures k < |rows| && rows[k].openTime == time && forall l :: k < l < |rows| ==> rows[l].openTime != time
  {
    var n := |rows| - 1;
    if rows[n].openTime == time {
      k := n;
    } else {
      k := LastListing(rows[..n], time);
    }
  }

  /** The bar is new, or no row since its last listing has another regime. */
  ghost predicate NewOrUnchanged(rows: seq<Labelled>, row: Labelled) {
    forall k, l :: 0 <= k <= l < |rows| && rows[k].openTime == row.openTime
                   && (forall j :: k < j < |rows| ==> rows[j].openTime != row.openTime) ==>
      rows[l].regime == row.regime
  }

  /** Appending a bar keeps every number given before exactly when the bar is new, as the candle store guarantees, or
      the regime has not changed since the bar was last listed. */
  lemma OldNumbersStayExactlyWhen(rows: seq<Labelled>, row: Labelled)
    ensures (forall t :: t in Ids(rows) ==> t in Ids(rows + [row]) && Ids(rows + [row])[t] == Ids(rows)[t])
            <==> NewOrUnchanged(rows, row)
  {
    var all, n := rows + [row], |rows|;
    assert all[..n] == rows;
    assert forall t :: t in Ids(rows) && t != row.openTime ==> t in Ids(all) && Ids(all)[t] == Ids(rows)[t];
    if row.openTime in Ids(rows) {
      var k := LastListing(rows, row.openTime);
      IdOfABar(rows, k);
      EpisodeOfPrefix(all, n, k);
      SameEpisodeExactlyWhen(all, k, n);
      assert forall l :: k <= l < n ==> all[l] == rows[l];
    } else {
      NotListed(rows, row.openTime);
    }
  }

  lemma {:induction false} NotListed(rows: seq<Labelled>, time: int)
    requires time !in Ids(rows)
    ensures forall k :: 0 <= k < |rows| ==> rows[k].openTime != time
  {
    if rows != [] {
      NotListed(rows[..|rows| - 1], time);
    }
  }

  /** History that only grows by new bars is never renumbered. */
  lemma {:induction false} HistoryIsNotRenumbered(rows: seq<Labelled>, more: seq<Labelled>)
    requires forall k :: 0 <= k < |more| ==> more[k].openTime !in Ids(rows)
    ensures forall t :: t in Ids(rows) ==> t in Ids(rows + more) && Ids(rows + more)[t] == Ids(rows)[t]
  {
    if more == [] {
      assert rows + more == rows;
    } else {
      var init := more[..|more| - 1];
      HistoryIsNotRenumbered(rows, init);
      assert (rows + more)[..|rows + more| - 1] == rows + init;
    }
  }
}
