// RSS target fulfilment: the per-target rows of rss_target_fulfillments and the two denormalised
// columns imported_at / fulfillment_source of rss_entries. Each statement is an atomic step; all
// parts of one data-modifying WITH read the snapshot taken before the statement.
module Fulfilment {
  import opened Common

  datatype Source = ManagedImport | EmbyCatalog

  // Primary key of rss_target_fulfillments.
  datatype Key = Key(entry: Uuid, target: Uuid, source: Source)

  datatype Row = Row(taskId: Option<Uuid>, verifiedAt: Time, invalidatedAt: Option<Time>)

  datatype Entry = Entry(
    importedAt: Option<Time>, fulfilment: Option<Source>,
    downloadable: bool, rejectionReasons: seq<string>)

  datatype Tables = Tables(entries: map<Uuid, Entry>, rows: map<Key, Row>)

  // What the joins on acquisitions, episode_tasks and episode_mappings say about one task:
  // `entry` is its acquisition's RSS entry, `target` the target of its mapping when that is mapped.
  datatype TaskFacts = TaskFacts(id: Uuid, imported: bool, entry: Option<Uuid>, target: Option<Uuid>)

  datatype Step =
    | Discover(entry: Uuid)
    | ClearCatalog(entry: Uuid, target: Uuid)
    | MarkImported(task: TaskFacts, now: Time)
    | MarkOccupied(entry: Uuid, fulfilled: bool, target: Uuid, reason: string,
                   source: Source, verifiedAt: Option<Time>, now: Time)
    | Refresh(target: Uuid, present: bool, at: Time)
    | Judge(entry: Uuid, downloadable: bool, reasons: seq<string>)   // any other verdict on a release

  // ---------------------------------------------------------------- row-level writes

  function NewRow(at: Time): Row {
    Row(None, at, None)
  }

  // The CASE expressions of the real-time refresh.
  function RefreshRow(r: Row, present: bool, at: Time): Row {
    if present then
      if r.invalidatedAt.None? || r.invalidatedAt.value <= at
      then r.(verifiedAt := Max(r.verifiedAt, at), invalidatedAt := None)
      else r
    else if r.verifiedAt <= at
    then r.(invalidatedAt := Some(Max(Coalesce(r.invalidatedAt, at), at)))
    else r
  }

  // The DO UPDATE of the occupied-target upsert.
  function UpsertRow(r: Row, at: Time): Row {
    r.(verifiedAt := Max(r.verifiedAt, at),
       invalidatedAt := if r.invalidatedAt.None? || r.invalidatedAt.value <= at then None else r.invalidatedAt)
  }

  // ---------------------------------------------------------------- table-level steps

  predicate Managed(rows: map<Key, Row>, e: Uuid) {
    exists k | k in rows :: k.entry == e && k.source == ManagedImport
  }

  predicate Catalogued(rows: map<Key, Row>, e: Uuid) {
    exists k | k in rows :: k.entry == e && k.source == EmbyCatalog
  }

  // The CTE of the clearing statement, evaluated on the snapshot `rows` taken before the delete.
  function ClearedEntry(entry: Entry, rows: map<Key, Row>, e: Uuid, x: Uuid): Entry {
    entry.(
      importedAt :=
        if exists k | k in rows :: k.entry == e && !(k.source == EmbyCatalog && k.target == x)
        then entry.importedAt else None,
      fulfilment :=
        if Managed(rows, e) then Some(ManagedImport)
        else if exists k | k in rows :: k.entry == e && k.source == EmbyCatalog && k.target != x
        then Some(EmbyCatalog) else None)
  }

  function Clear(t: Tables, e: Uuid, x: Uuid): Tables {
    var k := Key(e, x, EmbyCatalog);
    if k !in t.rows then t
    else
      Tables(
        if e in t.entries && t.entries[e].fulfilment == Some(EmbyCatalog)
        then t.entries[e := ClearedEntry(t.entries[e], t.rows, e, x)] else t.entries,
        t.rows - {k})
  }

  function Import(t: Tables, task: TaskFacts, now: Time): Tables {
    if !(task.imported && task.entry.Some? && task.entry.value in t.entries) then t
    else
      var e := task.entry.value;
      Tables(
        t.entries[e := t.entries[e].(
          importedAt := Some(Coalesce(t.entries[e].importedAt, now)),
          fulfilment := Some(ManagedImport))],
        if task.target.None? then t.rows
        else
          var k := Key(e, task.target.value, ManagedImport);
          t.rows[k :=
            if k in t.rows
            then t.rows[k].(taskId := Some(task.id), verifiedAt := Max(t.rows[k].verifiedAt, now))
            else Row(Some(task.id), now, None)])
  }

  // WHERE clause of the `updated` part of the occupied-target statement.
  predicate OccupiedGuard(entry: Entry, fulfilled: bool, reason: string, source: Source) {
    && !(entry.importedAt.Some? && entry.fulfilment == Some(ManagedImport))
    && (|| entry.downloadable
        || entry.rejectionReasons != [reason]
        || (fulfilled && entry.importedAt.None?)
        || (fulfilled && source == ManagedImport && entry.fulfilment != Some(ManagedImport)))
  }

  function OccupiedEntry(entry: Entry, fulfilled: bool, reason: string, source: Source, now: Time): Entry {
    entry.(
      downloadable := false,
      rejectionReasons := [reason],
      importedAt := if fulfilled then Some(Coalesce(entry.importedAt, now)) else entry.importedAt,
      fulfilment :=
        if fulfilled && source == ManagedImport then Some(ManagedImport)
        else if fulfilled then Some(Coalesce(entry.fulfilment, source))
        else entry.fulfilment)
  }

  // Catalogue rows of entry `e` for other targets are obsolete.
  function DropObsolete(rows: map<Key, Row>, e: Uuid, x: Uuid): map<Key, Row> {
    map k | k in rows && !(k.entry == e && k.source == EmbyCatalog && k.target != x) :: rows[k]
  }

  function Occupy(t: Tables, e: Uuid, fulfilled: bool, x: Uuid, reason: string,
                  source: Source, at: Time, now: Time): Tables
  {
    if e !in t.entries then t
    else
      Tables(
        if OccupiedGuard(t.entries[e], fulfilled, reason, source)
        then t.entries[e := OccupiedEntry(t.entries[e], fulfilled, reason, source, now)] else t.entries,
        if !fulfilled then t.rows
        else
          var k := Key(e, x, source);
          DropObsolete(t.rows, e, x)[k := if k in t.rows then UpsertRow(t.rows[k], at) else NewRow(at)])
  }

  function RefreshAll(rows: map<Key, Row>, x: Uuid, present: bool, at: Time): map<Key, Row> {
    map k | k in rows ::
      if k.target == x && k.source == EmbyCatalog then RefreshRow(rows[k], present, at) else rows[k]
  }

  function Apply(t: Tables, s: Step): Tables {
    match s
    case Discover(e) => if e in t.entries then t else t.(entries := t.entries[e := Entry(None, None, true, [])])
    case ClearCatalog(e, x) => Clear(t, e, x)
    case MarkImported(task, now) => Import(t, task, now)
    case MarkOccupied(e, f, x, reason, source, at, now) => Occupy(t, e, f, x, reason, source, Coalesce(at, now), now)
    case Refresh(x, present, at) => t.(rows := RefreshAll(t.rows, x, present, at))
    case Judge(e, downloadable, reasons) =>
      if e in t.entries
      then t.(entries := t.entries[e := t.entries[e].(downloadable := downloadable, rejectionReasons := reasons)])
      else t
  }

  // The tables after a run of statements, in order.
  function Run(t: Tables, steps: seq<Step>): Tables {
    if steps == [] then t else Apply(Run(t, steps[..|steps| - 1]), steps[|steps| - 1])
  }

  // ---------------------------------------------------------------- the statements in place

  // The two tables, updated in place one statement at a time.
  class Store {
    var entries: map<Uuid, Entry>
    var rows: map<Key, Row>

    ghost function Value(): Tables
      reads this
    {
      Tables(entries, rows)
    }

    constructor ()
      ensures Value() == Tables(map[], map[])
    {
      entries, rows := map[], map[];
    }

    method ClearCatalogFulfilment(e: Uuid, x: Uuid) returns (cleared: bool)
      modifies this
      ensures Value() == Apply(old(Value()), ClearCatalog(e, x))
      ensures cleared ==> Key(e, x, EmbyCatalog) in old(rows) && e in entries
    {
      cleared := false;
      var snapshot, k := rows, Key(e, x, EmbyCatalog);
      if k in rows {
        rows := rows - {k};
        if e in entries && entries[e].fulfilment == Some(EmbyCatalog) {
          entries := entries[e := ClearedEntry(entries[e], snapshot, e, x)];
          cleared := true;
        }
      }
    }

    method MarkImportedForTask(task: TaskFacts, now: Time) returns (updated: bool)
      modifies this
      ensures Value() == Apply(old(Value()), MarkImported(task, now))
      ensures updated <==> task.imported && task.entry.Some? && task.entry.value in old(entries)
    {
      updated := false;
      if task.imported && task.entry.Some? && task.entry.value in entries {
        var e := task.entry.value;
        var entry := entries[e];
        if entry.importedAt.None? {
          entry := entry.(importedAt := Some(now));
        }
        entries := entries[e := entry.(fulfilment := Some(ManagedImport))];
        updated := true;
        if task.target.Some? {
          var k := Key(e, task.target.value, ManagedImport);
          var row := Row(Some(task.id), now, None);
          if k in rows {
            row := rows[k].(taskId := Some(task.id), verifiedAt := Max(rows[k].verifiedAt, now));
          }
          rows := rows[k := row];
        }
      }
    }

    method MarkTargetOccupied(e: Uuid, fulfilled: bool, x: Uuid, reason: string,
                              source: Source, verifiedAt: Option<Time>, now: Time) returns (updated: bool)
      modifies this
      ensures Value() == Apply(old(Value()), MarkOccupied(e, fulfilled, x, reason, source, verifiedAt, now))
      ensures updated <==> e in old(entries) && OccupiedGuard(old(entries)[e], fulfilled, reason, source)
    {
      updated := false;
      if e in entries {
        if fulfilled {
          var k, at := Key(e, x, source), Coalesce(verifiedAt, now);
          var row := NewRow(at);
          if k in rows {
            row := UpsertRow(rows[k], at);
          }
          rows := DropObsolete(rows, e, x)[k := row];
        }
        updated := OccupiedGuard(entries[e], fulfilled, reason, source);
        if updated {
          entries := entries[e := OccupiedEntry(entries[e], fulfilled, reason, source, now)];
        }
      }
    }

    method RefreshForRealtimeTarget(x: Uuid, present: bool, at: Time)
      modifies `rows
      ensures Value() == Apply(old(Value()), Refresh(x, present, at))
    {
      var todo := set k | k in rows && k.target == x && k.source == EmbyCatalog;
      ghost var before, after, all := rows, RefreshAll(rows, x, present, at), todo;
      while todo != {}
        invariant todo <= all && rows.Keys == before.Keys == after.Keys
        invariant forall k | k in before :: rows[k] == if k in todo then before[k] else after[k]
        decreases |todo|
      {
        var k :| k in todo;
        rows := rows[k := RefreshRow(rows[k], present, at)];
        todo := todo - {k};
      }
      assert rows == after;
    }
  }

  // ---------------------------------------------------------------- denormalised columns

  // fulfillment_source recomputed from the rows.
  function Expected(rows: map<Key, Row>, e: Uuid): Option<Source> {
    if Managed(rows, e) then Some(ManagedImport)
    else if Catalogued(rows, e) then Some(EmbyCatalog)
    else None
  }

  predicate EntryAgrees(t: Tables, e: Uuid)
    requires e in t.entries
  {
    && (t.entries[e].importedAt.Some? <==> Expected(t.rows, e).Some?)
    && t.entries[e].fulfilment == Expected(t.rows, e)
  }

  // Foreign key plus agreement of both denormalised columns with the rows.
  ghost predicate Consistent(t: Tables) {
    && (forall k | k in t.rows :: k.entry in t.entries)
    && (forall e | e in t.entries :: EntryAgrees(t, e))
  }

  // The clearing statement computes, on the rows before the delete, exactly the columns
  // recomputed from the rows after it.
  lemma ClearSnapshotIsPostState(t: Tables, e: Uuid, x: Uuid)
    requires e in t.entries && t.entries[e].importedAt.Some?
    ensures
      var after := ClearedEntry(t.entries[e], t.rows, e, x);
      && after.fulfilment == Expected(t.rows - {Key(e, x, EmbyCatalog)}, e)
      && (after.importedAt.Some? <==> Expected(t.rows - {Key(e, x, EmbyCatalog)}, e).Some?)
  {
    var post := t.rows - {Key(e, x, EmbyCatalog)};
    assert Managed(t.rows, e) ==> Managed(post, e) by {
      if Managed(t.rows, e) {
        var k :| k in t.rows && k.entry == e && k.source == ManagedImport;
        assert k in post;
      }
    }
    if k :| k in t.rows && k.entry == e && k.source == EmbyCatalog && k.target != x {
      assert k in post;
    }
    if k :| k in t.rows && k.entry == e && !(k.source == EmbyCatalog && k.target == x) {
      assert k in post;
    }
  }

  // Other entries' columns depend on their own rows only.
  lemma ExpectedLocal(rows: map<Key, Row>, rows': map<Key, Row>, e: Uuid)
    requires forall k: Key | k.entry == e :: k in rows <==> k in rows'
    ensures Expected(rows, e) == Expected(rows', e)
  {
    forall k: Key | k.entry == e && (k in rows || k in rows')
      ensures k in rows && k in rows'
    {
    }
  }

  // The import step keeps the columns right exactly when its task is mapped, or the entry already
  // owns a managed row, or the step does nothing.
  lemma ImportConsistentIff(t: Tables, task: TaskFacts, now: Time)
    requires Consistent(t)
    ensures Consistent(Import(t, task, now)) <==>
            || !(task.imported && task.entry.Some? && task.entry.value in t.entries)
            || task.target.Some?
            || Managed(t.rows, task.entry.value)
  {
    if task.imported && task.entry.Some? && task.entry.value in t.entries {
      var e, t' := task.entry.value, Import(t, task, now);
      forall e' | e' in t.entries && e' != e ensures EntryAgrees(t', e') {
        ExpectedLocal(t.rows, t'.rows, e');
        assert EntryAgrees(t, e');
      }
      if task.target.Some? {
        assert Key(e, task.target.value, ManagedImport) in t'.rows;
      }
      assert EntryAgrees(t', e) <==> Managed(t'.rows, e);
    }
  }

  lemma OccupyConsistent(t: Tables, e: Uuid, fulfilled: bool, x: Uuid, reason: string,
                         source: Source, at: Time, now: Time)
    requires Consistent(t)
    ensures Consistent(Occupy(t, e, fulfilled, x, reason, source, at, now))
  {
    if e in t.entries {
      var t' := Occupy(t, e, fulfilled, x, reason, source, at, now);
      forall e' | e' in t.entries && e' != e ensures EntryAgrees(t', e') {
        ExpectedLocal(t.rows, t'.rows, e');
        assert EntryAgrees(t, e');
      }
      assert EntryAgrees(t, e);
      if fulfilled {
        assert Key(e, x, source) in t'.rows;
        assert Managed(t'.rows, e) <==> Managed(t.rows, e) || source == ManagedImport by {
          if k :| k in t.rows && k.entry == e && k.source == ManagedImport {
            assert k in t'.rows;
          }
        }
      }
    }
  }

  lemma RefreshConsistent(t: Tables, x: Uuid, present: bool, at: Time)
    requires Consistent(t)
    ensures Consistent(Apply(t, Refresh(x, present, at)))
  {
    var t' := Apply(t, Refresh(x, present, at));
    forall e | e in t.entries ensures EntryAgrees(t', e) {
      ExpectedLocal(t.rows, t'.rows, e);
      assert EntryAgrees(t, e);
    }
  }

  lemma ClearConsistent(t: Tables, e: Uuid, x: Uuid)
    requires Consistent(t)
    ensures Consistent(Clear(t, e, x))
  {
    var k := Key(e, x, EmbyCatalog);
    if k in t.rows {
      var t' := Clear(t, e, x);
      forall e' | e' in t.entries && e' != e ensures EntryAgrees(t', e') {
        ExpectedLocal(t.rows, t'.rows, e');
        assert EntryAgrees(t, e');
      }
      assert EntryAgrees(t, e);
      if t.entries[e].fulfilment == Some(EmbyCatalog) {
        ClearSnapshotIsPostState(t, e, x);
      } else {
        assert Managed(t.rows, e);
        var m :| m in t.rows && m.entry == e && m.source == ManagedImport;
        assert m in t'.rows;
      }
    }
  }

  predicate MappedImports(steps: seq<Step>) {
    forall i | 0 <= i < |steps| :: steps[i].MarkImported? ==> steps[i].task.target.Some?
  }

  // Over every run of the fulfilment statements on mapped tasks the denormalised columns equal
  // their values recomputed from the rows.
  lemma {:induction false} RunsStayConsistent(t: Tables, steps: seq<Step>)
    requires Consistent(t) && MappedImports(steps)
    ensures Consistent(Run(t, steps))
  {
    if steps != [] {
      var init, s := steps[..|steps| - 1], steps[|steps| - 1];
      RunsStayConsistent(t, init);
      var u := Run(t, init);
      match s
      case Discover(e) =>
        if e !in u.entries {
          var u' := Apply(u, s);
          assert Expected(u.rows, e).None?;
          forall e' | e' in u'.entries ensures EntryAgrees(u', e') {
            if e' != e { assert EntryAgrees(u, e'); }
          }
        }
      case ClearCatalog(e, x) => ClearConsistent(u, e, x);
      case MarkImported(task, now) => ImportConsistentIff(u, task, now);
      case MarkOccupied(e, f, x, reason, source, at, now) =>
        OccupyConsistent(u, e, f, x, reason, source, Coalesce(at, now), now);
      case Refresh(x, present, at) => RefreshConsistent(u, x, present, at);
      case Judge(e, _, _) => assert forall d | d in u.entries :: EntryAgrees(Apply(u, s), d) <==> EntryAgrees(u, d);
    }
  }

  // An unmapped task (a movie) breaks the columns: the entry claims a managed import it has no row for.
  lemma UnmappedImportBreaksColumns()
    ensures
      var t := Tables(map[1 := Entry(None, None, true, [])], map[]);
      Consistent(t) && !Consistent(Apply(t, MarkImported(TaskFacts(7, true, Some(1), None), 5)))
  {
    var t := Tables(map[1 := Entry(None, None, true, [])], map[]);
    assert forall e | e in t.entries :: EntryAgrees(t, e);
    ImportConsistentIff(t, TaskFacts(7, true, Some(1), None), 5);
  }

  // ---------------------------------------------------------------- rejections

  // The occupied-target statement reaches an entry that is not a managed import yet.
  predicate Reaches(t: Tables, s: Step, e: Uuid) {
    && s.MarkOccupied? && s.entry == e && e in t.entries
    && !(t.entries[e].importedAt.Some? && t.entries[e].fulfilment == Some(ManagedImport))
  }

  // What the last statement about entry e said: whether it may be downloaded, and why not.
  datatype Opinion = Opinion(downloadable: bool, reasons: seq<string>)

  function LastOpinion(t: Tables, steps: seq<Step>, e: Uuid): Opinion {
    if steps == [] then Opinion(true, [])
    else
      var init, s := steps[..|steps| - 1], steps[|steps| - 1];
      if Reaches(Run(t, init), s, e) then Opinion(false, [s.reason])
      else if s.Judge? && s.entry == e && e in Run(t, init).entries then Opinion(s.downloadable, s.reasons)
      else LastOpinion(t, init, e)
  }

  // Main result: after every run the two columns of an entry say what the last statement that reached it said; in
  // particular an occupied target forbids the download, with its reason alone, until another statement allows it.
  lemma {:induction false} LastOpinionStands(steps: seq<Step>, e: Uuid)
    requires e in Run(Tables(map[], map[]), steps).entries
    ensures
      var entry := Run(Tables(map[], map[]), steps).entries[e];
      Opinion(entry.downloadable, entry.rejectionReasons) == LastOpinion(Tables(map[], map[]), steps, e)
  {
    if steps != [] {
      var init := steps[..|steps| - 1];
      if e in Run(Tables(map[], map[]), init).entries {
        LastOpinionStands(init, e);
      } else {
        NeverReached(init, e);
      }
      OpinionStep(Run(Tables(map[], map[]), init), steps[|steps| - 1], e, LastOpinion(Tables(map[], map[]), init, e));
    }
  }

  lemma OpinionStep(t: Tables, s: Step, e: Uuid, last: Opinion)
    requires e in Apply(t, s).entries
    requires last == if e in t.entries then Opinion(t.entries[e].downloadable, t.entries[e].rejectionReasons)
                     else Opinion(true, [])
    ensures
      var entry := Apply(t, s).entries[e];
      Opinion(entry.downloadable, entry.rejectionReasons)
      == if Reaches(t, s, e) then Opinion(false, [s.reason])
         else if s.Judge? && s.entry == e && e in t.entries then Opinion(s.downloadable, s.reasons)
         else last
  {
  }

  lemma {:induction false} NeverReached(steps: seq<Step>, e: Uuid)
    requires e !in Run(Tables(map[], map[]), steps).entries
    ensures LastOpinion(Tables(map[], map[]), steps, e) == Opinion(true, [])
  {
    if steps != [] { NeverReached(steps[..|steps| - 1], e); }
  }

  // An entry exists exactly from its discovery on.
  lemma {:induction false} DiscoveredIff(steps: seq<Step>, e: Uuid)
    ensures e in Run(Tables(map[], map[]), steps).entries <==> Discover(e) in steps
  {
    if steps != [] {
      var init, s := steps[..|steps| - 1], steps[|steps| - 1];
      DiscoveredIff(init, e);
      assert Discover(e) in steps <==> Discover(e) in init || s == Discover(e);
    }
  }

  // The time of the first fulfilment is kept until the entry is cleared, and a new one is the statement's own time.
  lemma ImportTimeIsFirst(t: Tables, s: Step, e: Uuid)
    requires e in t.entries
    ensures
      var before, after := t.entries[e].importedAt, Apply(t, s).entries[e].importedAt;
      && (before.Some? && after.Some? ==> after == before)
      && (before.None? && after.Some? ==> (s.MarkImported? || s.MarkOccupied?) && after == Some(s.now))
      && (before.Some? && after.None? ==> s.ClearCatalog? && s.entry == e)
  {
  }

  // An import of a mapped task leaves a managed row that names the task, not older than the import; no other
  // statement changes a managed row's task.
  lemma ManagedRowNamesTask(t: Tables, s: Step, k: Key)
    requires k.source == ManagedImport
    ensures s.MarkImported? && s.task.imported && s.task.entry == Some(k.entry) && k.entry in t.entries
            && s.task.target == Some(k.target) ==>
              k in Apply(t, s).rows && Apply(t, s).rows[k].taskId == Some(s.task.id)
              && Apply(t, s).rows[k].verifiedAt >= s.now
    ensures k in t.rows && !(s.MarkImported? && s.task.entry == Some(k.entry) && s.task.target == Some(k.target)) ==>
              k in Apply(t, s).rows && Apply(t, s).rows[k].taskId == t.rows[k].taskId
  {
  }

  // ---------------------------------------------------------------- last writer wins

  // One presence or absence report that reached a catalogue row, through the refresh
  // statement or through the occupied-target upsert (always a presence).
  datatype Observation = Observation(present: bool, at: Time, upsert: bool)

  function Feed(r: Row, o: Observation): Row {
    if o.upsert && o.present then UpsertRow(r, o.at) else RefreshRow(r, o.present, o.at)
  }

  // The row built by inserting at h[0].at and feeding the later reports in arrival order.
  function RowAfter(h: seq<Observation>): Row
    requires h != []
  {
    if |h| == 1 then NewRow(h[0].at) else Feed(RowAfter(h[..|h| - 1]), h[|h| - 1])
  }

  // Position of the report with the latest timestamp; the later arrival wins a tie.
  function LatestIndex(h: seq<Observation>): (i: nat)
    requires h != []
    ensures i < |h| && forall j | 0 <= j < |h| :: h[j].at <= h[i].at && (i < j ==> h[j].at < h[i].at)
  {
    if |h| == 1 then 0
    else
      var best := LatestIndex(h[..|h| - 1]);
      if h[|h| - 1].at >= h[best].at then |h| - 1 else best
  }

  function Latest(h: seq<Observation>): Observation
    requires h != []
  {
    h[LatestIndex(h)]
  }

  // Validity, invalidation time and (while valid) verification time are those of the latest report.
  predicate Governs(o: Observation, r: Row) {
    if o.present then r.invalidatedAt.None? && r.verifiedAt == o.at
    else r.invalidatedAt == Some(o.at) && r.verifiedAt <= o.at
  }

  lemma {:induction false} LatestGoverns(h: seq<Observation>)
    requires h != [] && h[0].present
    ensures Governs(Latest(h), RowAfter(h))
  {
    if |h| > 1 {
      LatestGoverns(h[..|h| - 1]);
    }
  }

  // The reports a catalogue row has received since it was (last) inserted.
  function NextHistory(t: Tables, h: seq<Observation>, s: Step, k: Key): seq<Observation> {
    match s
    case ClearCatalog(e, x) => if k.entry == e && k.target == x then [] else h
    case MarkOccupied(e, f, x, _, source, at, now) =>
      if !f || e != k.entry || e !in t.entries then h
      else if x != k.target then []
      else if source == EmbyCatalog then h + [Observation(true, Coalesce(at, now), true)]
      else h
    case Refresh(x, present, at) =>
      if h == [] || x != k.target then h else h + [Observation(present, at, false)]
    case _ => h
  }

  function History(t: Tables, steps: seq<Step>, k: Key): seq<Observation> {
    if steps == [] then []
    else
      var init := steps[..|steps| - 1];
      NextHistory(Run(t, init), History(t, init, k), steps[|steps| - 1], k)
  }

  // In every run, a catalogue row exists exactly while it has a history, and it is the row that history builds.
  lemma {:induction false} RunFollowsHistory(t: Tables, steps: seq<Step>, k: Key)
    requires t.rows == map[] && k.source == EmbyCatalog
    ensures
      var h := History(t, steps, k);
      && (k in Run(t, steps).rows <==> h != [])
      && (h != [] ==> h[0].present && Run(t, steps).rows[k] == RowAfter(h))
  {
    if steps != [] {
      var init, s := steps[..|steps| - 1], steps[|steps| - 1];
      RunFollowsHistory(t, init, k);
      StepFollowsHistory(Run(t, init), History(t, init, k), s, k);
    }
  }

  // The row is the one the history builds, and exists exactly while there is one.
  predicate Follows(t: Tables, h: seq<Observation>, k: Key) {
    && (k in t.rows <==> h != [])
    && (h != [] ==> h[0].present && t.rows[k] == RowAfter(h))
  }

  lemma StepFollowsHistory(t: Tables, h: seq<Observation>, s: Step, k: Key)
    requires k.source == EmbyCatalog && Follows(t, h, k)
    ensures Follows(Apply(t, s), NextHistory(t, h, s, k), k)
  {
    match s
    case Refresh(_, present, at) => if h != [] { RowGrows(h, Observation(present, at, false)); }
    case MarkOccupied(_, _, _, _, _, at, now) => OccupyFollowsHistory(t, h, s, k);
    case _ =>
  }

  lemma OccupyFollowsHistory(t: Tables, h: seq<Observation>, s: Step, k: Key)
    requires k.source == EmbyCatalog && Follows(t, h, k) && s.MarkOccupied?
    ensures Follows(Apply(t, s), NextHistory(t, h, s, k), k)
  {
    if h != [] { RowGrows(h, Observation(true, Coalesce(s.verifiedAt, s.now), true)); }
  }

  lemma RowGrows(h: seq<Observation>, o: Observation)
    requires h != []
    ensures RowAfter(h + [o]) == Feed(RowAfter(h), o)
  {
    assert (h + [o])[..|h|] == h;
  }

  // Main result: after any run from an empty table, a catalogue row is valid exactly when the latest
  // report it received says present, and otherwise carries that report's time.
  lemma LatestReportDecides(t: Tables, steps: seq<Step>, k: Key)
    requires t.rows == map[] && k.source == EmbyCatalog && k in Run(t, steps).rows
    ensures History(t, steps, k) != []
    ensures
      var latest, row := Latest(History(t, steps, k)), Run(t, steps).rows[k];
      && (row.invalidatedAt.None? <==> latest.present)
      && (!latest.present ==> row.invalidatedAt == Some(latest.at))
      && (latest.present ==> row.verifiedAt == latest.at)
  {
    RunFollowsHistory(t, steps, k);
    LatestGoverns(History(t, steps, k));
  }

  // Among the reports after the insertion, those at the latest time do not contradict each other.
  ghost predicate Decisive(h: seq<Observation>)
    requires h != []
  {
    forall o, p | o in h[1..] && p in h[1..] && o.at == p.at == Latest(h).at :: o.present == p.present
  }

  // The invalidation time a history leaves behind; none means the row is valid.
  function Verdict(h: seq<Observation>): Option<Time>
    requires h != []
  {
    RowAfter(h).invalidatedAt
  }

  // `g` delivers the reports of `h`, after the same insertion, in some other order.
  ghost predicate Reordered(h: seq<Observation>, g: seq<Observation>)
    requires h != []
  {
    g != [] && g[0] == h[0] && multiset(g[1..]) == multiset(h[1..])
  }

  lemma SameReports(h: seq<Observation>, g: seq<Observation>)
    requires h != [] && Reordered(h, g)
    ensures forall o :: o in h[1..] <==> o in g[1..]
    ensures Latest(h).at == Latest(g).at
  {
    assert forall o :: o in h[1..] <==> o in multiset(h[1..]);
    assert forall o :: o in g[1..] <==> o in multiset(g[1..]);
    assert forall o :: o in h <==> o == h[0] || o in h[1..];
    assert forall o :: o in g <==> o == g[0] || o in g[1..];
    assert Latest(h) in g && Latest(g) in h;
  }

  // Arrival order does not matter for the validity a decisive history leaves behind, nor, while the row is
  // valid, for its verification time.
  lemma DecisiveIsOrderFree(h: seq<Observation>, g: seq<Observation>)
    requires h != [] && h[0].present && Reordered(h, g) && Decisive(h)
    ensures Verdict(h) == Verdict(g)
    ensures Verdict(h).None? ==> RowAfter(h).verifiedAt == RowAfter(g).verifiedAt == Latest(h).at
  {
    SameReports(h, g);
    LatestGoverns(h);
    LatestGoverns(g);
    if LatestIndex(h) > 0 {
      assert Latest(h) in h[1..];
      assert Latest(h) in g[1..];
    }
    if LatestIndex(g) > 0 {
      assert Latest(g) in g[1..];
      assert Latest(g) in h[1..];
    }
  }

  // The verification time of an invalid row does depend on the order: a presence that arrives after a later
  // absence is not recorded.
  lemma InvalidVerificationDependsOnOrder()
    ensures
      var inserted, seen := Observation(true, 0, false), Observation(true, 5, false);
      var gone := Observation(false, 10, false);
      && Reordered([inserted, seen, gone], [inserted, gone, seen]) && Decisive([inserted, seen, gone])
      && RowAfter([inserted, seen, gone]).verifiedAt == 5 && RowAfter([inserted, gone, seen]).verifiedAt == 0
  {
    var inserted, seen := Observation(true, 0, false), Observation(true, 5, false);
    var gone := Observation(false, 10, false);
    var h, g := [inserted, seen, gone], [inserted, gone, seen];
    assert h[1..] == [seen, gone] && g[1..] == [gone, seen];
    assert h[..2] == [inserted, seen] && g[..2] == [inserted, gone];
    assert h[..2][..1] == [inserted] && g[..2][..1] == [inserted];
    assert RowAfter([inserted]) == NewRow(0);
    assert RowAfter(h[..2]) == Row(None, 5, None) && RowAfter(g[..2]) == Row(None, 0, Some(10));
    assert LatestIndex(h) == 2;
  }

  // The report at index i, moved to the end of the arrival order.
  function Postpone(h: seq<Observation>, i: nat): (g: seq<Observation>)
    requires 0 < i < |h|
    ensures g != [] && g[0] == h[0] && multiset(g[1..]) == multiset(h[1..])
  {
    assert h[1..] == h[1..i] + [h[i]] + h[i + 1..];
    assert (h[..i] + h[i + 1..] + [h[i]])[1..] == h[1..i] + h[i + 1..] + [h[i]];
    h[..i] + h[i + 1..] + [h[i]]
  }

  lemma PostponedWins(h: seq<Observation>, i: nat)
    requires 0 < i < |h| && h[0].present && h[i].at == Latest(h).at
    ensures Governs(h[i], RowAfter(Postpone(h, i)))
  {
    var g := Postpone(h, i);
    SameReports(h, g);
    LatestGoverns(g);
    assert g[|g| - 1] == h[i] && LatestIndex(g) == |g| - 1;
  }

  // Exactly the decisive histories are order-independent: with an undecided tie, two arrival orders
  // of the same reports after the same insertion leave different verdicts.
  lemma OrderFreeIffDecisive(h: seq<Observation>)
    requires h != [] && h[0].present
    ensures Decisive(h) <==> forall g | Reordered(h, g) :: Verdict(g) == Verdict(h)
  {
    if Decisive(h) {
      forall g | Reordered(h, g) ensures Verdict(g) == Verdict(h) {
        DecisiveIsOrderFree(h, g);
      }
    } else {
      var o, p :| o in h[1..] && p in h[1..] && o.at == p.at == Latest(h).at && o.present && !p.present;
      var i, j :| 0 < i < |h| && 0 < j < |h| && h[i] == o && h[j] == p;
      PostponedWins(h, i);
      PostponedWins(h, j);
      assert Reordered(h, Postpone(h, i)) && Reordered(h, Postpone(h, j));
      assert Verdict(Postpone(h, i)) != Verdict(Postpone(h, j));
    }
  }
}
