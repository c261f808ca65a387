// Automatic episode-mapping reconciliation: pages over one representative
// acquisition per group, inside a window fixed by the first page, while the
// database keeps changing between the pages.
module Reconciliation {
  import opened Common
  import opened Paging

  // An acquisition that waits for a mapping.  `group` is its subscription, or the
  // acquisition itself when it does not come from RSS; neither the group nor the
  // creation time of an acquisition ever changes.
  datatype Row = Row(group: Uuid, created: Time, id: Uuid)

  predicate Less(a: Row, b: Row) {
    a.group < b.group || (a.group == b.group && (a.created < b.created || (a.created == b.created && a.id < b.id)))
  }

  lemma OrderIsStrict()
    ensures StrictOrder(Less)
  {
  }

  // DISTINCT ON (group) ... ORDER BY group, created_at, id over the window.
  predicate Canonical(db: set<Row>, before: Time, r: Row) {
    r in db && r.created < before && forall q | q in db && q.created < before && q.group == r.group :: !Less(q, r)
  }

  function Canon(db: set<Row>, before: Time): set<Row> { set r | r in db && Canonical(db, before, r) }

  predicate AtMost(r: Row, high: Row) { r == high || Less(r, high) }

  // The candidates of a page: the representatives up to the high-water mark.
  function Candidates(db: set<Row>, before: Time, high: Row): set<Row> {
    set r | r in Canon(db, before) && AtMost(r, high)
  }

  function LoadPage(db: set<Row>, before: Time, high: Row, cursor: Option<Row>, size: nat): (page: seq<Row>)
    ensures |page| <= size && Ascending(page, Less)
    ensures forall r | r in page :: r in Candidates(db, before, high) && (cursor.Some? ==> Less(cursor.value, r))
    ensures |page| < size ==>
              forall r | r in Candidates(db, before, high) && (cursor.Some? ==> Less(cursor.value, r)) :: r in page
    ensures forall r, p | r in Candidates(db, before, high) && (cursor.Some? ==> Less(cursor.value, r))
                          && r !in page && p in page :: Less(p, r)
  {
    OrderIsStrict();
    Page(Candidates(db, before, high), cursor, size, Less)
  }

  // The high-water mark: the last representative at the time of the first page.
  function High(db: set<Row>, before: Time): (high: Option<Row>)
    ensures high.None? <==> Canon(db, before) == {}
    ensures high.Some? ==> high.value in Canon(db, before) && Candidates(db, before, high.value) == Canon(db, before)
  {
    OrderIsStrict();
    var all := Sorted(Canon(db, before), Less);
    assert forall i | 0 <= i < |all| :: all[i] in Canon(db, before);
    assert all == [] ==> Canon(db, before) == {};
    if all == [] then None
    else
      var last := all[|all| - 1];
      assert forall r | r in Canon(db, before) :: r in all;
      assert forall r | r in all :: AtMost(r, last);
      assert Candidates(db, before, last) == Canon(db, before);
      Some(last)
  }

  // The waiting acquisitions when page n is read; past the end of the recorded
  // history the database no longer changes.  A run reads finitely many pages, so
  // a long enough history describes it.
  function At(load: seq<set<Row>>, n: nat): set<Row> {
    if load == [] then {} else if n < |load| then load[n] else load[|load| - 1]
  }

  // Rows created before the window are among finitely many; later ones are arbitrary.
  ghost predicate Bounded(load: seq<set<Row>>, before: Time, universe: set<Row>) {
    forall n: nat, r | r in At(load, n) && r.created < before :: r in universe
  }

  function Remaining(universe: set<Row>, cursor: Option<Row>): set<Row> {
    set r | r in universe && (cursor.Some? ==> Less(cursor.value, r))
  }

  predicate GroupsDistinct(rows: seq<Row>) {
    forall i, j :: 0 <= i < j < |rows| ==> rows[i].group != rows[j].group
  }

  // One representative per group in every snapshot.
  lemma CanonicalIsUnique(db: set<Row>, before: Time, r: Row, q: Row)
    requires Canonical(db, before, r) && Canonical(db, before, q) && r.group == q.group
    ensures r == q
  {
  }

  // The representative of a group is the acquisition that has waited longest, the smaller id deciding a tie.
  lemma CanonicalIff(db: set<Row>, before: Time, r: Row)
    ensures Canonical(db, before, r) <==>
              && r in db && r.created < before
              && forall q | q in db && q.created < before && q.group == r.group ::
                   r.created < q.created || (r.created == q.created && r.id <= q.id)
  {
  }

  // Rows of distinct groups in listing order are in the order of their groups.
  lemma GroupsAscend(rows: seq<Row>)
    requires Ascending(rows, Less) && GroupsDistinct(rows)
    ensures forall i, j | 0 <= i < j < |rows| :: rows[i].group < rows[j].group
  {
    forall i, j | 0 <= i < j < |rows| ensures rows[i].group < rows[j].group {
      assert Less(rows[i], rows[j]);
    }
  }

  function Groups(rows: seq<Row>): set<Uuid> {
    if rows == [] then {} else Groups(rows[..|rows| - 1]) + {rows[|rows| - 1].group}
  }

  lemma {:induction false} GroupsIff(rows: seq<Row>, g: Uuid)
    ensures g in Groups(rows) <==> exists v :: v in rows && v.group == g
  {
    if rows != [] {
      var rest, last := rows[..|rows| - 1], rows[|rows| - 1];
      GroupsIff(rest, g);
      assert forall v :: v in rows <==> v in rest || v == last;
    }
  }

  // `visited` holds, in order, one row of each group in `seen`, all of them rows of `read`.
  ghost predicate Tracks(visited: seq<Row>, read: seq<Row>, seen: set<Uuid>) {
    && Ascending(read, Less) && Ascending(visited, Less) && GroupsDistinct(visited)
    && (forall r | r in visited :: r in read)
    && seen == Groups(visited)
  }

  // One row: visited unless its group has been seen.
  method VisitRow(row: Row, sofar: seq<Row>, groups: set<Uuid>, broken: set<Uuid>, ghost read: seq<Row>)
    returns (visited: seq<Row>, seen: set<Uuid>, ok: bool)
    requires Tracks(sofar, read, groups) && Ascending(read + [row], Less)
    requires forall r | r in sofar :: r.id !in broken
    ensures Tracks(visited, read + [row], seen)
    ensures seen == if ok then groups + {row.group} else groups
    ensures !ok ==> row.id in broken
    ensures forall r | r in visited :: r.id !in broken
  {
    visited, seen, ok := sofar, groups, true;
    if row.group in groups {
      LongerRead(visited, read, read + [row], seen);
      assert groups + {row.group} == groups;
    } else if row.id in broken {
      LongerRead(visited, read, read + [row], seen);
      ok := false;
    } else {
      VisitNext(visited, read, groups, row);
      visited, seen := visited + [row], groups + {row.group};
    }
  }

  // The rows of one page in order, skipping groups already seen; stops at the
  // first acquisition that cannot be reconciled.
  method VisitPage(page: seq<Row>, sofar: seq<Row>, groups: set<Uuid>, broken: set<Uuid>, ghost read: seq<Row>)
    returns (visited: seq<Row>, seen: set<Uuid>, ok: bool)
    requires Tracks(sofar, read, groups) && Ascending(read + page, Less)
    requires forall r | r in sofar :: r.id !in broken
    ensures Tracks(visited, read + page, seen)
    ensures ok ==> groups <= seen && forall r | r in page :: r.group in seen
    ensures broken == {} ==> ok
    ensures forall r | r in visited :: r.id !in broken
  {
    visited, seen, ok := sofar, groups, true;
    var i := 0;
    assert read + page[..0] == read;
    while i < |page|
      invariant 0 <= i <= |page| && ok && groups <= seen
      invariant Tracks(visited, read + page[..i], seen)
      invariant forall k | 0 <= k < i :: page[k].group in seen
      invariant forall r | r in visited :: r.id !in broken
    {
      ghost var done := read + page[..i];
      assert read + page[..i + 1] == done + [page[i]];
      PrefixAscends(read, page, i + 1);
      visited, seen, ok := VisitRow(page[i], visited, seen, broken, done);
      if !ok {
        LongerRead(visited, done + [page[i]], read + page, seen);
        return;
      }
      i := i + 1;
    }
    assert page[..i] == page;
  }

  lemma PrefixAscends(read: seq<Row>, page: seq<Row>, k: nat)
    requires Ascending(read + page, Less) && k <= |page|
    ensures Ascending(read + page[..k], Less)
  {
    assert read + page[..k] == (read + page)[..|read| + k];
  }

  lemma LongerRead(visited: seq<Row>, read: seq<Row>, longer: seq<Row>, seen: set<Uuid>)
    requires Tracks(visited, read, seen) && Ascending(longer, Less) && (forall r | r in read :: r in longer)
    ensures Tracks(visited, longer, seen)
  {
  }

  lemma VisitNext(visited: seq<Row>, read: seq<Row>, seen: set<Uuid>, row: Row)
    requires Tracks(visited, read, seen) && row.group !in seen && Ascending(read + [row], Less)
    ensures Tracks(visited + [row], read + [row], seen + {row.group})
  {
    forall i | 0 <= i < |visited| ensures Less(visited[i], row) && visited[i].group != row.group {
      assert visited[i] in visited && visited[i] in read;
      GroupsIff(visited, row.group);
      var k :| 0 <= k < |read| && read[k] == visited[i];
      assert (read + [row])[k] == read[k] && (read + [row])[|read|] == row;
    }
    assert (visited + [row])[..|visited|] == visited;
  }

  ghost predicate SometimesCanonical(load: seq<set<Row>>, before: Time, pages: nat, r: Row) {
    exists n: nat :: n < pages && Canonical(At(load, n), before, r)
  }

  ghost predicate AlwaysCanonical(load: seq<set<Row>>, before: Time, pages: nat, r: Row) {
    forall n: nat :: n < pages ==> Canonical(At(load, n), before, r)
  }

  // What the rows read in the first `pages` pages satisfy, whatever the snapshots were.
  ghost predicate ReadSoFar(
    load: seq<set<Row>>, before: Time, pages: nat, cursor: Option<Row>, read: seq<Row>)
  {
    && cursor == (if read == [] then None else Some(read[|read| - 1]))
    && Ascending(read, Less)
    && (forall r | r in read :: SometimesCanonical(load, before, pages, r))
    && (forall r :: AlwaysCanonical(load, before, pages, r) ==> r in read || cursor.None? || Less(cursor.value, r))
  }

  ghost predicate AllRead(load: seq<set<Row>>, before: Time, pages: nat, read: seq<Row>) {
    forall r :: AlwaysCanonical(load, before, pages, r) ==> r in read
  }

  // Reading page `pages` keeps the listing ascending and loses no row that has
  // been the representative of its group all along.
  lemma ReadNext(
    load: seq<set<Row>>, before: Time, pages: nat, high: Row, cursor: Option<Row>, read: seq<Row>, size: nat)
    requires ReadSoFar(load, before, pages, cursor, read) && size > 0
    requires High(At(load, 0), before) == Some(high)
    ensures var page := LoadPage(At(load, pages), before, high, cursor, size);
            && Ascending(read + page, Less)
            && (page != [] ==> ReadSoFar(load, before, pages + 1, Some(page[|page| - 1]), read + page))
            && (|page| < size ==> AllRead(load, before, pages + 1, read + page))
  {
    var page := LoadPage(At(load, pages), before, high, cursor, size);
    JoinAscends(read, page, cursor);
    forall r | r in read + page ensures SometimesCanonical(load, before, pages + 1, r) {
      if r in read {
        var n: nat :| n < pages && Canonical(At(load, n), before, r);
        assert n < pages + 1;
      } else {
        assert r in page && Canonical(At(load, pages), before, r);
      }
    }
    forall r | AlwaysCanonical(load, before, pages + 1, r)
      ensures r in read + page || (|page| == size && Less(page[|page| - 1], r))
    {
      StillCandidate(load, before, pages, high, r);
    }
  }

  lemma StillCandidate(load: seq<set<Row>>, before: Time, pages: nat, high: Row, r: Row)
    requires High(At(load, 0), before) == Some(high) && AlwaysCanonical(load, before, pages + 1, r)
    ensures r in Candidates(At(load, pages), before, high) && AlwaysCanonical(load, before, pages, r)
  {
    assert Canonical(At(load, 0), before, r) && Canonical(At(load, pages), before, r);
    assert r in Candidates(At(load, 0), before, high);
  }

  lemma JoinAscends(read: seq<Row>, page: seq<Row>, cursor: Option<Row>)
    requires Ascending(read, Less) && Ascending(page, Less)
    requires cursor == (if read == [] then None else Some(read[|read| - 1]))
    requires forall r | r in page :: cursor.Some? ==> Less(cursor.value, r)
    ensures Ascending(read + page, Less)
  {
    var all := read + page;
    forall i, j | 0 <= i < j < |all| ensures Less(all[i], all[j]) {
      if i < |read| <= j {
        assert page[j - |read|] in page && Less(cursor.value, all[j]);
        assert i == |read| - 1 || Less(read[i], read[|read| - 1]);
      }
    }
  }

  // A group whose representative never changed is visited through that representative.
  lemma StableGroupsVisited(
    load: seq<set<Row>>, before: Time, pages: nat, read: seq<Row>, visited: seq<Row>, seen: set<Uuid>, r: Row)
    requires Tracks(visited, read, seen) && (forall q | q in read :: q.group in seen)
    requires forall q | q in read :: SometimesCanonical(load, before, pages, q)
    requires AllRead(load, before, pages, read) && AlwaysCanonical(load, before, pages, r)
    ensures r in visited
  {
    assert r in read;
    GroupsIff(visited, r.group);
    var v :| v in visited && v.group == r.group;
    assert v in read;
    var n: nat :| n < pages && Canonical(At(load, n), before, v);
    CanonicalIsUnique(At(load, n), before, v, r);
  }

  // What holds of the visited rows after any number of pages.
  ghost predicate Visits(load: seq<set<Row>>, before: Time, pages: nat, visited: seq<Row>, broken: set<Uuid>) {
    && Ascending(visited, Less) && GroupsDistinct(visited)
    && forall r | r in visited :: SometimesCanonical(load, before, pages, r) && r.id !in broken
  }

  ghost predicate Complete(load: seq<set<Row>>, before: Time, pages: nat, visited: seq<Row>) {
    forall r :: AlwaysCanonical(load, before, pages, r) ==> r in visited
  }

  ghost predicate Underway(
    load: seq<set<Row>>, before: Time, pages: nat, cursor: Option<Row>, read: seq<Row>,
    visited: seq<Row>, seen: set<Uuid>, broken: set<Uuid>)
  {
    && ReadSoFar(load, before, pages, cursor, read)
    && Tracks(visited, read, seen) && (forall q | q in read :: q.group in seen)
    && (forall r | r in visited :: r.id !in broken)
  }

  lemma CursorAdvances(
    load: seq<set<Row>>, before: Time, universe: set<Row>, n: nat, high: Row, cursor: Option<Row>, size: nat)
    requires Bounded(load, before, universe) && LoadPage(At(load, n), before, high, cursor, size) != []
    ensures var page := LoadPage(At(load, n), before, high, cursor, size);
            Remaining(universe, Some(page[|page| - 1])) < Remaining(universe, cursor)
  {
    var page := LoadPage(At(load, n), before, high, cursor, size);
    var last := page[|page| - 1];
    assert last in page && last in At(load, n) && last.created < before;
    assert last in Remaining(universe, cursor) && last !in Remaining(universe, Some(last));
  }

  // One turn of the loop: load a page, visit it, and advance the cursor.
  method NextPage(
    size: nat, load: seq<set<Row>>, before: Time, high: Row, pages: nat, cursor: Option<Row>,
    sofar: seq<Row>, groups: set<Uuid>, broken: set<Uuid>, ghost read: seq<Row>)
    returns (page: seq<Row>, visited: seq<Row>, seen: set<Uuid>, ok: bool)
    requires size > 0 && High(At(load, 0), before) == Some(high)
    requires Underway(load, before, pages, cursor, read, sofar, groups, broken)
    ensures page == LoadPage(At(load, pages), before, high, cursor, size)
    ensures Visits(load, before, pages + 1, visited, broken)
    ensures Ascending(read + page, Less) && (forall r | r in visited :: r in read + page)
    ensures forall r | r in read + page :: SometimesCanonical(load, before, pages + 1, r)
    ensures ok && |page| < size ==> Complete(load, before, pages + 1, visited)
    ensures ok && |page| == size ==>
              Underway(load, before, pages + 1, Some(page[|page| - 1]), read + page, visited, seen, broken)
    ensures broken == {} ==> ok
  {
    page := LoadPage(At(load, pages), before, high, cursor, size);
    ReadNext(load, before, pages, high, cursor, read, size);
    visited, seen, ok := VisitPage(page, sofar, groups, broken, read);
    ghost var all := read + page;
    forall r | r in all ensures SometimesCanonical(load, before, pages + 1, r) {
      if r in read {
        var n: nat :| n < pages && Canonical(At(load, n), before, r);
        assert n < pages + 1;
      } else {
        assert r in page && Canonical(At(load, pages), before, r);
      }
    }
    if ok {
      assert forall q | q in all :: q.group in seen;
      if |page| < size {
        forall r | AlwaysCanonical(load, before, pages + 1, r) ensures r in visited {
          StableGroupsVisited(load, before, pages + 1, all, visited, seen, r);
        }
      }
    }
  }

  // The reconciliation loop.  `pages` is the number of pages read, `read` the rows
  // they returned.  Whatever happens between the pages, the loop ends, no row is
  // returned twice, no group is visited twice, every visit is of a representative,
  // and a lasting representative is not missed.
  method ReconcilePages(
    size: int, load: seq<set<Row>>, before: Time, broken: set<Uuid>, ghost universe: set<Row>)
    returns (visited: seq<Row>, ok: bool, pages: nat, read: seq<Row>)
    requires Bounded(load, before, universe)
    ensures size <= 0 ==> !ok && visited == []
    ensures Ascending(read, Less) && (forall r | r in visited :: r in read)
    ensures forall r | r in read :: SometimesCanonical(load, before, pages, r)
    ensures Visits(load, before, pages, visited, broken)
    ensures ok ==> Complete(load, before, pages, visited)
    ensures broken == {} && size > 0 ==> ok
  {
    visited, ok, pages, read := [], false, 0, [];
    if size <= 0 { return; }
    var high := High(At(load, 0), before);
    if high.None? {
      assert forall r :: AlwaysCanonical(load, before, 1, r) ==>
                           Canonical(At(load, 0), before, r) && r in Canon(At(load, 0), before);
      return [], true, 1, [];
    }
    var seen: set<Uuid>, cursor: Option<Row>, page: seq<Row> := {}, None, [];
    while true
      invariant Underway(load, before, pages, cursor, read, visited, seen, broken)
      decreases Remaining(universe, cursor)
    {
      page, visited, seen, ok := NextPage(size, load, before, high.value, pages, cursor, visited, seen, broken, read);
      ghost var here := pages;
      pages, read := pages + 1, read + page;
      if !ok || |page| < size { return; }
      CursorAdvances(load, before, universe, here, high.value, cursor, size);
      cursor := Some(page[|page| - 1]);
    }
  }

  // With no change between the pages the result is the sorted list of the
  // earliest waiting acquisition of every group.
  method ReconcileUnchanged(size: int, db: set<Row>, before: Time) returns (visited: seq<Row>)
    requires size > 0
    ensures Lists(visited, Canon(db, before), Less)
    ensures forall r :: r in visited <==>
              && r in db && r.created < before
              && forall q | q in db && q.created < before && q.group == r.group ::
                   r.created < q.created || (r.created == q.created && r.id <= q.id)
    ensures forall i, j | 0 <= i < j < |visited| :: visited[i].group < visited[j].group
  {
    var ok, pages, read;
    var load := [db];
    visited, ok, pages, read := ReconcilePages(size, load, before, {}, db);
    forall r ensures r in visited <==> r in Canon(db, before) {
      if r in visited { assert SometimesCanonical(load, before, pages, r); }
      if r in Canon(db, before) { assert AlwaysCanonical(load, before, pages, r); }
    }
    GroupsAscend(visited);
    forall r ensures r in visited <==>
      && r in db && r.created < before
      && forall q | q in db && q.created < before && q.group == r.group ::
           r.created < q.created || (r.created == q.created && r.id <= q.id)
    {
      CanonicalIff(db, before, r);
    }
  }

  // Distinct rows are distinct acquisitions, so none is visited twice.
  lemma EachAcquisitionOnce(
    load: seq<set<Row>>, before: Time, pages: nat, visited: seq<Row>, broken: set<Uuid>, universe: set<Row>,
    i: nat, j: nat)
    requires Bounded(load, before, universe) && Visits(load, before, pages, visited, broken)
    requires forall r, q | r in universe && q in universe && r.id == q.id :: r == q
    requires i < j < |visited|
    ensures visited[i].id != visited[j].id
  {
    forall k | 0 <= k < |visited| ensures visited[k] in universe {
      assert visited[k] in visited;
      var n: nat :| n < pages && Canonical(At(load, n), before, visited[k]);
    }
    assert Less(visited[i], visited[j]);
  }
}
