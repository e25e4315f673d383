/** Looking up the latest evidence of a strategy version: through an index, and by scanning the table. */
module Evidence {
  import opened Market

  datatype Row = Row(id: int, version: int, computedAt: int)

  ghost predicate DistinctIds(rows: seq<Row>) {
    forall i, j :: 0 <= i < j < |rows| ==> rows[i].id != rows[j].id
  }

  ghost predicate InOrder(rows: seq<Row>) {
    forall i, j :: 0 <= i < j < |rows| ==> rows[i].computedAt <= rows[j].computedAt
  }

  function Group(rows: seq<Row>, version: int): seq<Row> {
    if rows == [] then []
    else
      var init := Group(rows[..|rows| - 1], version);
      if rows[|rows| - 1].version == version then init + [rows[|rows| - 1]] else init
  }

  /** The last row of the version, in table order, that is not later than `t`. */
  function Scanned(rows: seq<Row>, version: int, t: int): Option<Row> {
    if rows == [] then None
    else if rows[|rows| - 1].version == version && rows[|rows| - 1].computedAt <= t then Some(rows[|rows| - 1])
    else Scanned(rows[..|rows| - 1], version, t)
  }

  /** The last row before the first that is later than `t`. */
  function Indexed(group: seq<Row>, t: int): Option<Row> {
    if group == [] || group[0].computedAt > t then None
    else
      var rest := Indexed(group[1..], t);
      if rest.Some? then rest else Some(group[0])
  }

  // ---------------------------------------------------------------- the loops

  method ScanUpTo(rows: seq<Row>, version: int, t: int) returns (latest: Option<Row>)
    ensures latest == Scanned(rows, version, t)
  {
    latest := None;
    for k := 0 to |rows|
      invariant latest == Scanned(rows[..k], version, t)
    {
      assert rows[..k + 1][..k] == rows[..k];
      if rows[k].version == version && rows[k].computedAt <= t {
        latest := Some(rows[k]);
      }
    }
    assert rows[..|rows|] == rows;
  }

  method ByVersion(rows: seq<Row>) returns (index: map<int, seq<Row>>)
    ensures forall v :: (v in index <==> Group(rows, v) != []) && (v in index ==> index[v] == Group(rows, v))
  {
    index := map[];
    for k := 0 to |rows|
      invariant forall v :: v in index <==> Group(rows[..k], v) != []
      invariant forall v :: v in index ==> index[v] == Group(rows[..k], v)
    {
      assert rows[..k + 1][..k] == rows[..k];
      var v := rows[k].version;
      index := index[v := (if v in index then index[v] else []) + [rows[k]]];
    }
    assert rows[..|rows|] == rows;
  }

  method LatestUpTo(index: map<int, seq<Row>>, version: int, t: int) returns (latest: Option<Row>)
    ensures latest == Indexed(if version in index then index[version] else [], t)
  {
    latest := None;
    var group := if version in index then index[version] else [];
    var k := 0;
    while k < |group|
      invariant 0 <= k <= |group|
      invariant Indexed(group, t) == (var rest := Indexed(group[k..], t); if rest.Some? then rest else latest)
    {
      if group[k].computedAt > t {
        break;
      }
      assert group[k..][1..] == group[k + 1..];
      latest := Some(group[k]);
      k := k + 1;
    }
  }

  // ---------------------------------------------------------------- agreement

  lemma {:induction false} GroupScans(rows: seq<Row>, version: int, t: int)
    ensures Scanned(rows, version, t) == Scanned(Group(rows, version), version, t)
  {
    if rows != [] {
      GroupScans(rows[..|rows| - 1], version, t);
      var init, last := Group(rows[..|rows| - 1], version), rows[|rows| - 1];
      assert (init + [last])[..|init|] == init;
    }
  }

  lemma {:induction false} GroupMembers(rows: seq<Row>, version: int)
    ensures forall r :: r in Group(rows, version) ==> r in rows && r.version == version
  {
    if rows != [] {
      GroupMembers(rows[..|rows| - 1], version);
    }
  }

  lemma {:induction false} GroupKeepsOrder(rows: seq<Row>, version: int)
    ensures InOrder(rows) ==> InOrder(Group(rows, version))
  {
    if rows != [] {
      var init := rows[..|rows| - 1];
      GroupKeepsOrder(init, version);
      GroupMembers(init, version);
      assert forall r :: r in init ==> exists i :: 0 <= i < |init| && rows[i] == r;
    }
  }

  lemma {:induction false} GroupKeepsIds(rows: seq<Row>, version: int)
    ensures DistinctIds(rows) ==> DistinctIds(Group(rows, version))
  {
    if rows != [] {
      var init := rows[..|rows| - 1];
      GroupKeepsIds(init, version);
      GroupMembers(init, version);
      assert forall r :: r in init ==> exists i :: 0 <= i < |init| && rows[i] == r;
    }
  }

  lemma GroupKeeps(rows: seq<Row>, version: int)
    ensures forall r :: r in Group(rows, version) ==> r in rows && r.version == version
    ensures InOrder(rows) ==> InOrder(Group(rows, version))
    ensures DistinctIds(rows) ==> DistinctIds(Group(rows, version))
  {
    GroupMembers(rows, version);
    GroupKeepsOrder(rows, version);
    GroupKeepsIds(rows, version);
  }

  /** What the scan finds in a list of one version: the row at `k`, with everything after it too late. */
  lemma {:induction false} ScanFinds(group: seq<Row>, version: int, t: int) returns (k: int)
    requires forall r :: r in group ==> r.version == version
    ensures -1 <= k < |group| && Scanned(group, version, t) == if k < 0 then None else Some(group[k])
    ensures k >= 0 ==> group[k].computedAt <= t
    ensures forall i :: k < i < |group| ==> group[i].computedAt > t
  {
    if group == [] {
      k := -1;
    } else if group[|group| - 1].computedAt <= t {
      assert group[|group| - 1] in group;
      k := |group| - 1;
    } else {
      k := ScanFinds(group[..|group| - 1], version, t);
    }
  }

  /** What the index finds: the row at `k`, with everything up to it in time and the next one too late. */
  lemma {:induction false} IndexFinds(group: seq<Row>, t: int) returns (k: int)
    ensures -1 <= k < |group| && Indexed(group, t) == if k < 0 then None else Some(group[k])
    ensures forall i :: 0 <= i <= k ==> group[i].computedAt <= t
    ensures k + 1 < |group| ==> group[k + 1].computedAt > t
  {
    if group == [] || group[0].computedAt > t {
      k := -1;
    } else {
      k := IndexFinds(group[1..], t);
      assert forall i :: 0 < i <= k + 1 ==> group[i] == group[1..][i - 1];
      k := k + 1;
    }
  }

  lemma LookupsAgreeInOrder(group: seq<Row>, version: int, t: int)
    requires InOrder(group) && forall r :: r in group ==> r.version == version
    ensures Scanned(group, version, t) == Indexed(group, t)
  {
    var s := ScanFinds(group, version, t);
    var k := IndexFinds(group, t);
    assert forall i :: k < i < |group| ==> group[i].computedAt > t;
  }

  lemma LookupsDisagreeOutOfOrder(group: seq<Row>, version: int, i: int, j: int)
    requires DistinctIds(group) && forall r :: r in group ==> r.version == version
    requires 0 <= i < j < |group| && group[i].computedAt > group[j].computedAt
    ensures Scanned(group, version, group[j].computedAt) != Indexed(group, group[j].computedAt)
  {
    var s := ScanFinds(group, version, group[j].computedAt);
    var k := IndexFinds(group, group[j].computedAt);
    assert k < i < j <= s;
  }

  /** For a version, the index finds the row the scan finds, whatever the time asked for, exactly when the table lists
      that version's rows in the order they were computed. */
  lemma LookupsAgreeExactlyWhen(rows: seq<Row>, version: int)
    requires DistinctIds(rows)
    ensures (forall t :: Scanned(rows, version, t) == Indexed(Group(rows, version), t))
            <==> InOrder(Group(rows, version))
  {
    var group := Group(rows, version);
    GroupKeeps(rows, version);
    forall t ensures Scanned(rows, version, t) == Scanned(group, version, t) {
      GroupScans(rows, version, t);
    }
    if InOrder(group) {
      forall t ensures Scanned(rows, version, t) == Indexed(group, t) {
        LookupsAgreeInOrder(group, version, t);
      }
    } else {
      var i, j :| 0 <= i < j < |group| && group[i].computedAt > group[j].computedAt;
      LookupsDisagreeOutOfOrder(group, version, i, j);
    }
  }

  /** On a table in the order of computation the index replaces the scan for every version and every time. */
  lemma IndexReplacesScan(rows: seq<Row>, version: int, t: int)
    requires InOrder(rows)
    ensures Indexed(Group(rows, version), t) == Scanned(rows, version, t)
  {
    GroupKeeps(rows, version);
    GroupScans(rows, version, t);
    LookupsAgreeInOrder(Group(rows, version), version, t);
  }

  /** What it finds is evidence of that version not later than `t`, and no evidence up to `t` is newer. */
  lemma NothingNewerUpTo(rows: seq<Row>, version: int, t: int)
    requires InOrder(rows)
    ensures match Scanned(rows, version, t)
      case Some(found) =>
        && found in rows && found.version == version && found.computedAt <= t
        && forall r :: r in rows && r.version == version && r.computedAt <= t ==> r.computedAt <= found.computedAt
      case None => forall r :: r in rows && r.version == version ==> r.computedAt > t
  {}
}
