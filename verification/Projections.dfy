// The two cached list projections: one row per acquisition and one row per RSS
// entry, the second calculated from the entry and from the first.  Triggers
// mark rows dirty and raise their source revision; a worker calculates a value
// at a revision and writes it back only if the revision is still the same.
//
// A cached value is kept as the inputs it was calculated from, so a statement
// that two views are equal holds for every calculation of the Go code.
module Projections {
  import opened Common

  datatype AcqView = AcqView(model: nat, source: nat)

  datatype Parent = NoParent | Parent(id: Uuid, view: AcqView)

  datatype EntryView = EntryView(model: nat, source: nat, parent: Parent)

  // acquisitions.rss_entry_id, a unique column.
  datatype Link = Unlinked | Linked(entry: Uuid)

  // A source row together with its projection row; the trigger creates both in one transaction.
  datatype Acq = Acq(source: nat, link: Link, revision: nat, model: nat, dirty: bool, dirtiedBy: nat, view: AcqView)

  datatype Entry = Entry(source: nat, revision: nat, model: nat, dirty: bool, dirtiedBy: nat, view: EntryView)

  datatype AcqCalc = AcqCalc(id: Uuid, revision: nat, view: AcqView)

  datatype EntryCalc = EntryCalc(id: Uuid, revision: nat, view: EntryView)

  // `acqCalcs` and `entryCalcs` are the calculations read but not yet written
  // back; `retired` holds the ids of deleted acquisitions, which are not reused.
  datatype World = World(
    acqs: map<Uuid, Acq>, entries: map<Uuid, Entry>,
    acqCalcs: set<AcqCalc>, entryCalcs: set<EntryCalc>, retired: set<Uuid>)

  const EMPTY := World(map[], map[], {}, {}, {})
  const BLANK := AcqView(0, 0)
  const BLANK_ENTRY := EntryView(0, 0, NoParent)

  // ------------------------------------------------------------------ triggers

  // Repeated writes of one transaction are coalesced into one invalidation.
  predicate AcqBumps(row: Acq, x: nat) { !row.dirty || row.dirtiedBy != x }

  predicate EntryBumps(row: Entry, x: nat) { !row.dirty || row.dirtiedBy != x }

  function MarkAcq(row: Acq, x: nat): Acq {
    if AcqBumps(row, x) then row.(revision := row.revision + 1, dirty := true, dirtiedBy := x) else row
  }

  function MarkEntry(row: Entry, x: nat): Entry {
    if EntryBumps(row, x) then row.(revision := row.revision + 1, dirty := true, dirtiedBy := x) else row
  }

  function MarkLinked(entries: map<Uuid, Entry>, link: Link, x: nat): map<Uuid, Entry> {
    if link.Linked? && link.entry in entries then entries[link.entry := MarkEntry(entries[link.entry], x)]
    else entries
  }

  predicate LinkFree(w: World, a: Uuid, link: Link) {
    link.Linked? ==> link.entry in w.entries && forall b | b in w.acqs && b != a :: w.acqs[b].link != link
  }

  // --------------------------------------------------------------------- steps

  // `x` is the transaction that performs the step.
  datatype Step =
    | WriteAcq(x: nat, id: Uuid, source: nat, link: Link)  // acquisitions row
    | WriteChild(x: nat, id: Uuid, source: nat)            // downloads, tasks, operations, ...
    | DeleteAcq(x: nat, id: Uuid)
    | WriteEntry(x: nat, id: Uuid, source: nat)
    | OutdateAcq(x: nat, id: Uuid, target: nat)
    | OutdateEntry(x: nat, id: Uuid, target: nat)
    | CalcAcq(id: Uuid, target: nat)
    | CalcEntry(id: Uuid, target: nat, parent: Parent)
    | UpdateAcq(x: nat, acq: AcqCalc)
    | UpdateEntry(entry: EntryCalc)
    | DropAcq(acq: AcqCalc)
    | DropEntry(entry: EntryCalc)

  function WroteAcq(w: World, x: nat, a: Uuid, source: nat, link: Link): World {
    if a in w.retired || !LinkFree(w, a, link) then w
    else if a !in w.acqs then
      w.(acqs := w.acqs[a := Acq(source, link, 1, 0, true, x, BLANK)], entries := MarkLinked(w.entries, link, x))
    else
      var was := w.acqs[a];
      w.(acqs := w.acqs[a := MarkAcq(was.(source := source, link := link), x)],
         entries := MarkLinked(MarkLinked(w.entries, was.link, x), link, x))
  }

  // The entry is reached only through the trigger on the acquisition projection,
  // which does not fire when the marking was coalesced.
  function Marked(w: World, x: nat, a: Uuid, row: Acq): World
    requires a in w.acqs
  {
    w.(acqs := w.acqs[a := MarkAcq(row, x)],
       entries := if AcqBumps(row, x) then MarkLinked(w.entries, row.link, x) else w.entries)
  }

  function WroteEntry(w: World, x: nat, e: Uuid, source: nat): World {
    if e !in w.entries then
      w.(entries := w.entries[e := Entry(source, 1, 0, true, x, BLANK_ENTRY)])
    else
      w.(entries := w.entries[e := MarkEntry(w.entries[e].(source := source), x)])
  }

  // The parent row an entry calculation reads, and the guards it checks.
  predicate ParentRead(w: World, e: Uuid, target: nat, parent: Parent) {
    match parent
    case NoParent => forall a | a in w.acqs :: w.acqs[a].link != Linked(e)
    case Parent(a, view) =>
      a in w.acqs && w.acqs[a].link == Linked(e) && !w.acqs[a].dirty && w.acqs[a].model == target
      && view == w.acqs[a].view
  }

  function UpdatedAcq(w: World, x: nat, c: AcqCalc): World {
    if c in w.acqCalcs && c.id in w.acqs && w.acqs[c.id].revision == c.revision then
      var row := w.acqs[c.id];
      w.(acqs := w.acqs[c.id := row.(view := c.view, model := c.view.model, dirty := false)],
         entries := MarkLinked(w.entries, row.link, x),
         acqCalcs := w.acqCalcs - {c})
    else w
  }

  function UpdatedEntry(w: World, c: EntryCalc): World {
    if c in w.entryCalcs && c.id in w.entries && w.entries[c.id].revision == c.revision then
      w.(entries := w.entries[c.id := w.entries[c.id].(view := c.view, model := c.view.model, dirty := false)],
         entryCalcs := w.entryCalcs - {c})
    else w
  }

  function Next(w: World, s: Step): World {
    match s
    case WriteAcq(x, a, source, link) => WroteAcq(w, x, a, source, link)
    case WriteChild(x, a, source) =>
      if a in w.acqs then Marked(w, x, a, w.acqs[a].(source := source)) else w
    case DeleteAcq(x, a) =>
      if a in w.acqs then
        w.(acqs := w.acqs - {a}, retired := w.retired + {a}, entries := MarkLinked(w.entries, w.acqs[a].link, x))
      else w
    case WriteEntry(x, e, source) => WroteEntry(w, x, e, source)
    case OutdateAcq(x, a, target) =>
      if a in w.acqs && !w.acqs[a].dirty && w.acqs[a].model < target then Marked(w, x, a, w.acqs[a]) else w
    case OutdateEntry(x, e, target) =>
      if e in w.entries && !w.entries[e].dirty && w.entries[e].model < target
      then w.(entries := w.entries[e := MarkEntry(w.entries[e], x)]) else w
    case CalcAcq(a, target) =>
      if a in w.acqs && w.acqs[a].model <= target
      then w.(acqCalcs := w.acqCalcs + {AcqCalc(a, w.acqs[a].revision, AcqView(target, w.acqs[a].source))}) else w
    case CalcEntry(e, target, parent) =>
      if e in w.entries && w.entries[e].model <= target && ParentRead(w, e, target, parent)
      then w.(entryCalcs := w.entryCalcs
                + {EntryCalc(e, w.entries[e].revision, EntryView(target, w.entries[e].source, parent))}) else w
    case UpdateAcq(x, c) => UpdatedAcq(w, x, c)
    case UpdateEntry(c) => UpdatedEntry(w, c)
    case DropAcq(c) => w.(acqCalcs := w.acqCalcs - {c})
    case DropEntry(c) => w.(entryCalcs := w.entryCalcs - {c})
  }

  function Run(w: World, steps: seq<Step>): World {
    if steps == [] then w else Next(Run(w, steps[..|steps| - 1]), steps[|steps| - 1])
  }

  // ---------------------------------------------------------------- invariants

  // The value is the projection of the entry and of its clean parent as they are now.
  predicate EntryCurrent(w: World, e: Uuid, v: EntryView)
    requires e in w.entries
  {
    && v.source == w.entries[e].source
    && match v.parent
       case NoParent => forall a | a in w.acqs :: w.acqs[a].link != Linked(e)
       case Parent(a, view) =>
         a in w.acqs && w.acqs[a].link == Linked(e) && !w.acqs[a].dirty && view == w.acqs[a].view
  }

  predicate LinksUnique(w: World) {
    && (forall a | a in w.acqs && w.acqs[a].link.Linked? :: w.acqs[a].link.entry in w.entries)
    && (forall a, b | a in w.acqs && b in w.acqs && a != b && w.acqs[a].link.Linked? ::
          w.acqs[a].link != w.acqs[b].link)
  }

  predicate AcqsCurrent(w: World) {
    forall a | a in w.acqs && !w.acqs[a].dirty :: w.acqs[a].view == AcqView(w.acqs[a].model, w.acqs[a].source)
  }

  predicate AcqCalcSound(w: World, c: AcqCalc) {
    && (c.id in w.acqs || c.id in w.retired)
    && (c.id in w.acqs ==>
          && c.revision <= w.acqs[c.id].revision
          && (c.revision == w.acqs[c.id].revision ==> c.view.source == w.acqs[c.id].source))
  }

  predicate EntriesCurrent(w: World) {
    forall e | e in w.entries && !w.entries[e].dirty ::
      w.entries[e].view.model == w.entries[e].model && EntryCurrent(w, e, w.entries[e].view)
  }

  predicate EntryCalcSound(w: World, c: EntryCalc) {
    && c.id in w.entries
    && c.revision <= w.entries[c.id].revision
    && (c.revision == w.entries[c.id].revision ==> EntryCurrent(w, c.id, c.view))
  }

  predicate Sound(w: World) {
    && LinksUnique(w)
    && w.acqs.Keys !! w.retired
    && AcqsCurrent(w)
    && (forall c | c in w.acqCalcs :: AcqCalcSound(w, c))
    && EntriesCurrent(w)
    && (forall c | c in w.entryCalcs :: EntryCalcSound(w, c))
  }

  // A write that the triggers coalesce while a calculation at the very same
  // revision is still waiting to be written back.
  predicate AcqRaces(w: World, a: Uuid, x: nat) {
    a in w.acqs && !AcqBumps(w.acqs[a], x)
    && exists c :: c in w.acqCalcs && c.id == a && c.revision == w.acqs[a].revision
  }

  predicate EntryRaces(w: World, e: Uuid, x: nat) {
    e in w.entries && !EntryBumps(w.entries[e], x)
    && exists c :: c in w.entryCalcs && c.id == e && c.revision == w.entries[e].revision
  }

  predicate LinkRaces(w: World, link: Link, x: nat) { link.Linked? && EntryRaces(w, link.entry, x) }

  predicate Coalesced(w: World, s: Step) {
    match s
    case WriteAcq(x, a, source, link) =>
      a !in w.retired && LinkFree(w, a, link)
      && (LinkRaces(w, link, x)
          || (a in w.acqs && (LinkRaces(w, w.acqs[a].link, x)
                              || (source != w.acqs[a].source && AcqRaces(w, a, x)))))
    case WriteChild(x, a, source) =>
      a in w.acqs && if AcqBumps(w.acqs[a], x) then LinkRaces(w, w.acqs[a].link, x)
                     else source != w.acqs[a].source && AcqRaces(w, a, x)
    case DeleteAcq(x, a) => a in w.acqs && LinkRaces(w, w.acqs[a].link, x)
    case WriteEntry(x, e, source) => e in w.entries && source != w.entries[e].source && EntryRaces(w, e, x)
    case OutdateAcq(x, a, target) =>
      a in w.acqs && !w.acqs[a].dirty && w.acqs[a].model < target && LinkRaces(w, w.acqs[a].link, x)
    case UpdateAcq(x, c) =>
      c in w.acqCalcs && c.id in w.acqs && w.acqs[c.id].revision == c.revision
      && c.view != w.acqs[c.id].view && LinkRaces(w, w.acqs[c.id].link, x)
    case _ => false
  }

  // Writing acquisition `a` leaves every entry it was not and is not linked to current.
  lemma OtherEntriesStay(w: World, n: World, a: Uuid, e: Uuid, v: EntryView)
    requires e in w.entries && EntryCurrent(w, e, v)
    requires e in n.entries && n.entries[e].source == w.entries[e].source
    requires a in n.acqs && n.acqs[a].link != Linked(e)
    requires a in w.acqs ==> w.acqs[a].link != Linked(e)
    requires forall b :: b != a ==> (b in n.acqs <==> b in w.acqs) && (b in w.acqs ==> n.acqs[b] == w.acqs[b])
    ensures EntryCurrent(n, e, v)
  {
    if v.parent.Parent? { assert v.parent.id != a; }
  }

  // The entry side of writing the row of acquisition `a` and marking its old and new entry.
  lemma EntriesAfterWrite(w: World, n: World, a: Uuid, x: nat, was: Link, now: Link)
    requires Sound(w) && a in n.acqs && n.acqs[a].link == now && n.acqs[a].dirty
    requires was == if a in w.acqs then w.acqs[a].link else Unlinked
    requires LinkFree(w, a, now)
    requires forall b :: b != a ==> (b in n.acqs <==> b in w.acqs) && (b in w.acqs ==> n.acqs[b] == w.acqs[b])
    requires n.entries == MarkLinked(MarkLinked(w.entries, was, x), now, x) && n.entryCalcs == w.entryCalcs
    requires !LinkRaces(w, was, x) && !LinkRaces(w, now, x)
    ensures EntriesCurrent(n) && forall c | c in n.entryCalcs :: EntryCalcSound(n, c)
  {
    forall e | e in n.entries && !n.entries[e].dirty
      ensures n.entries[e].view.model == n.entries[e].model && EntryCurrent(n, e, n.entries[e].view)
    {
      assert was != Linked(e) && now != Linked(e);
      OtherEntriesStay(w, n, a, e, n.entries[e].view);
    }
    forall c | c in n.entryCalcs ensures EntryCalcSound(n, c) {
      assert EntryCalcSound(w, c);
      if was != Linked(c.id) && now != Linked(c.id) && c.revision == w.entries[c.id].revision {
        OtherEntriesStay(w, n, a, c.id, c.view);
      }
    }
  }

  lemma SoundWriteAcq(w: World, s: Step)
    requires Sound(w) && s.WriteAcq? && !Coalesced(w, s)
    ensures Sound(Next(w, s))
  {
    var a, n := s.id, Next(w, s);
    if a !in w.retired && LinkFree(w, a, s.link) {
      var was := if a in w.acqs then w.acqs[a].link else Unlinked;
      EntriesAfterWrite(w, n, a, s.x, was, s.link);
      forall c | c in n.acqCalcs ensures AcqCalcSound(n, c) {
        assert AcqCalcSound(w, c);
      }
    }
  }

  // Marking a row that the triggers do not coalesce, with or without a new source.
  lemma SoundBump(w: World, x: nat, a: Uuid, row: Acq)
    requires Sound(w) && a in w.acqs && row == w.acqs[a].(source := row.source)
    requires AcqBumps(row, x) && !LinkRaces(w, row.link, x)
    ensures Sound(Marked(w, x, a, row))
  {
    var n := Marked(w, x, a, row);
    assert MarkLinked(MarkLinked(w.entries, row.link, x), row.link, x) == MarkLinked(w.entries, row.link, x);
    EntriesAfterWrite(w, n, a, x, row.link, row.link);
    forall c | c in n.acqCalcs ensures AcqCalcSound(n, c) { assert AcqCalcSound(w, c); }
  }

  // A coalesced write changes nothing but the source of a dirty row.
  lemma SoundCoalesced(w: World, x: nat, a: Uuid, source: nat)
    requires Sound(w) && a in w.acqs && !AcqBumps(w.acqs[a], x)
    requires source == w.acqs[a].source || !AcqRaces(w, a, x)
    ensures Sound(Marked(w, x, a, w.acqs[a].(source := source)))
  {
    var n := Marked(w, x, a, w.acqs[a].(source := source));
    forall c | c in n.acqCalcs ensures AcqCalcSound(n, c) { assert AcqCalcSound(w, c); }
    forall c | c in n.entryCalcs ensures EntryCalcSound(n, c) { assert EntryCalcSound(w, c); }
  }

  lemma SoundWriteChild(w: World, s: Step)
    requires Sound(w) && (s.WriteChild? || s.OutdateAcq?) && !Coalesced(w, s)
    ensures Sound(Next(w, s))
  {
    if s.id in w.acqs && Next(w, s) != w {
      var row := if s.WriteChild? then w.acqs[s.id].(source := s.source) else w.acqs[s.id];
      if AcqBumps(row, s.x) { SoundBump(w, s.x, s.id, row); } else { SoundCoalesced(w, s.x, s.id, row.source); }
    }
  }

  lemma SoundDelete(w: World, s: Step)
    requires Sound(w) && s.DeleteAcq? && !Coalesced(w, s)
    ensures Sound(Next(w, s))
  {
  }

  lemma SoundEntryStep(w: World, s: Step)
    requires Sound(w) && (s.WriteEntry? || s.OutdateEntry? || s.UpdateEntry?) && !Coalesced(w, s)
    ensures Sound(Next(w, s))
  {
  }

  lemma SoundCalc(w: World, s: Step)
    requires Sound(w) && (s.CalcAcq? || s.CalcEntry? || s.DropAcq? || s.DropEntry?)
    ensures Sound(Next(w, s))
  {
  }

  lemma SoundUpdateAcq(w: World, s: Step)
    requires Sound(w) && s.UpdateAcq? && !Coalesced(w, s)
    ensures Sound(Next(w, s))
  {
  }

  lemma StepKeepsSound(w: World, s: Step)
    requires Sound(w) && !Coalesced(w, s)
    ensures Sound(Next(w, s))
  {
    match s
    case WriteAcq(_, _, _, _) => SoundWriteAcq(w, s);
    case WriteChild(_, _, _) => SoundWriteChild(w, s);
    case OutdateAcq(_, _, _) => SoundWriteChild(w, s);
    case DeleteAcq(_, _) => SoundDelete(w, s);
    case WriteEntry(_, _, _) => SoundEntryStep(w, s);
    case OutdateEntry(_, _, _) => SoundEntryStep(w, s);
    case UpdateEntry(_) => SoundEntryStep(w, s);
    case UpdateAcq(_, _) => SoundUpdateAcq(w, s);
    case CalcAcq(_, _) => SoundCalc(w, s);
    case CalcEntry(_, _, _) => SoundCalc(w, s);
    case DropAcq(_) => SoundCalc(w, s);
    case DropEntry(_) => SoundCalc(w, s);
  }

  // What readers of the lists rely on.
  predicate CleanRowsCurrent(w: World) { AcqsCurrent(w) && EntriesCurrent(w) }

  // No calculation now waiting could be stored as a clean row that is not current.
  ghost predicate Robust(w: World) {
    && CleanRowsCurrent(w)
    && (forall x: nat, c :: CleanRowsCurrent(Next(w, UpdateAcq(x, c))))
    && (forall c :: CleanRowsCurrent(Next(w, UpdateEntry(c))))
  }

  lemma SoundIsRobust(w: World)
    requires Sound(w)
    ensures Robust(w)
  {
    forall c ensures CleanRowsCurrent(Next(w, UpdateEntry(c))) { StepKeepsSound(w, UpdateEntry(c)); }
    forall x: nat, c ensures CleanRowsCurrent(Next(w, UpdateAcq(x, c))) { UpdateKeepsCleanRows(w, x, c); }
  }

  // Even a write-back that races an entry calculation leaves no stale clean row by itself.
  lemma UpdateKeepsCleanRows(w: World, x: nat, c: AcqCalc)
    requires Sound(w)
    ensures CleanRowsCurrent(Next(w, UpdateAcq(x, c)))
  {
    var n := Next(w, UpdateAcq(x, c));
    if n != w {
      assert AcqCalcSound(w, c);
      forall e | e in n.entries && !n.entries[e].dirty
        ensures n.entries[e].view.model == n.entries[e].model && EntryCurrent(n, e, n.entries[e].view)
      {
        OtherEntriesStay(w, n, c.id, e, n.entries[e].view);
      }
    }
  }

  // A racing calculation survives the marking of its entry; once the entry's
  // parent has changed, storing it leaves a stale clean row.
  lemma RacingEntryStale(w: World, n: World, e: Uuid, x: nat, a: Uuid) returns (u: Step)
    requires Sound(w) && EntryRaces(w, e, x) && LinksUnique(n)
    requires n.entryCalcs == w.entryCalcs && e in n.entries && n.entries[e].revision == w.entries[e].revision
    requires a in w.acqs && w.acqs[a].link == Linked(e) ==>
               a !in n.acqs || n.acqs[a].link != Linked(e) || n.acqs[a].dirty || n.acqs[a].view != w.acqs[a].view
    requires !(a in w.acqs && w.acqs[a].link == Linked(e)) ==>
               a in n.acqs && n.acqs[a].link == Linked(e) && n.acqs[a].dirty
    requires forall b :: b != a ==> (b in n.acqs <==> b in w.acqs) && (b in w.acqs ==> n.acqs[b] == w.acqs[b])
    ensures u.UpdateEntry? && !CleanRowsCurrent(Next(n, u))
  {
    var c :| c in w.entryCalcs && c.id == e && c.revision == w.entries[e].revision;
    assert EntryCalcSound(w, c);
    assert !EntryCurrent(n, e, c.view);
    u := UpdateEntry(c);
    assert !EntryCurrent(Next(n, u), e, c.view);
  }

  lemma RacingAcqStale(w: World, n: World, a: Uuid, x: nat) returns (u: Step)
    requires Sound(w) && AcqRaces(w, a, x)
    requires a in n.acqs && n.acqs[a].revision == w.acqs[a].revision && n.acqs[a].source != w.acqs[a].source
    requires n.acqCalcs == w.acqCalcs
    ensures u.UpdateAcq? && !CleanRowsCurrent(Next(n, u))
  {
    var c :| c in w.acqCalcs && c.id == a && c.revision == w.acqs[a].revision;
    assert AcqCalcSound(w, c);
    u := UpdateAcq(x, c);
    assert a in Next(n, u).acqs && !Next(n, u).acqs[a].dirty;
    assert Next(n, u).acqs[a].view.source != Next(n, u).acqs[a].source;
  }

  lemma LinksStayUnique(w: World, s: Step)
    requires LinksUnique(w)
    ensures LinksUnique(Next(w, s))
  {
  }

  lemma CoalescedWriteStale(w: World, s: Step) returns (u: Step)
    requires Sound(w) && Coalesced(w, s) && s.WriteAcq?
    ensures (u.UpdateAcq? || u.UpdateEntry?) && !CleanRowsCurrent(Next(Next(w, s), u))
  {
    var n, a := Next(w, s), s.id;
    LinksStayUnique(w, s);
    if LinkRaces(w, s.link, s.x) {
      u := RacingEntryStale(w, n, s.link.entry, s.x, a);
    } else if LinkRaces(w, w.acqs[a].link, s.x) {
      u := RacingEntryStale(w, n, w.acqs[a].link.entry, s.x, a);
    } else {
      u := RacingAcqStale(w, n, a, s.x);
    }
  }

  // After every coalesced step one write-back stores a stale row as clean.
  lemma CoalescedStoresStale(w: World, s: Step) returns (u: Step)
    requires Sound(w) && Coalesced(w, s)
    ensures (u.UpdateAcq? || u.UpdateEntry?) && !CleanRowsCurrent(Next(Next(w, s), u))
  {
    var n := Next(w, s);
    LinksStayUnique(w, s);
    match s
    case WriteAcq(_, _, _, _) => u := CoalescedWriteStale(w, s);
    case WriteChild(x, a, source) =>
      if AcqBumps(w.acqs[a], x) {
        u := RacingEntryStale(w, n, w.acqs[a].link.entry, x, a);
      } else {
        u := RacingAcqStale(w, n, a, x);
      }
    case DeleteAcq(x, a) => u := RacingEntryStale(w, n, w.acqs[a].link.entry, x, a);
    case OutdateAcq(x, a, _) => u := RacingEntryStale(w, n, w.acqs[a].link.entry, x, a);
    case UpdateAcq(x, c) => u := RacingEntryStale(w, n, w.acqs[c.id].link.entry, x, c.id);
    case WriteEntry(x, e, source) => u := RacingSourceStale(w, n, e, x);
  }

  lemma RacingSourceStale(w: World, n: World, e: Uuid, x: nat) returns (u: Step)
    requires Sound(w) && EntryRaces(w, e, x) && n.entryCalcs == w.entryCalcs
    requires e in n.entries && n.entries[e].revision == w.entries[e].revision
    requires n.entries[e].source != w.entries[e].source
    ensures u.UpdateEntry? && !CleanRowsCurrent(Next(n, u))
  {
    var c :| c in w.entryCalcs && c.id == e && c.revision == w.entries[e].revision;
    assert EntryCalcSound(w, c);
    u := UpdateEntry(c);
    assert !EntryCurrent(Next(n, u), e, c.view);
  }

  lemma CoalescedBreaks(w: World, s: Step)
    requires Sound(w) && Coalesced(w, s)
    ensures !Robust(Next(w, s)) && !Sound(Next(w, s))
  {
    var u := CoalescedStoresStale(w, s);
    if Sound(Next(w, s)) { SoundIsRobust(Next(w, s)); }
  }

  predicate NeverCoalesced(w: World, steps: seq<Step>) {
    steps != [] ==>
      var before := steps[..|steps| - 1];
      NeverCoalesced(w, before) && !Coalesced(Run(w, before), steps[|steps| - 1])
  }

  predicate SoundThroughout(w: World, steps: seq<Step>) {
    Sound(Run(w, steps)) && (steps != [] ==> SoundThroughout(w, steps[..|steps| - 1]))
  }

  lemma {:induction false} NeverCoalescedIsSound(w: World, steps: seq<Step>)
    requires Sound(w) && NeverCoalesced(w, steps)
    ensures Sound(Run(w, steps))
  {
    if steps != [] {
      NeverCoalescedIsSound(w, steps[..|steps| - 1]);
      StepKeepsSound(Run(w, steps[..|steps| - 1]), steps[|steps| - 1]);
    }
  }

  ghost predicate RobustThroughout(w: World, steps: seq<Step>) {
    Robust(Run(w, steps)) && (steps != [] ==> RobustThroughout(w, steps[..|steps| - 1]))
  }

  // Over every interleaving of statements: at no point can a waiting calculation
  // be stored as a stale clean row, exactly when no write was coalesced under one.
  lemma {:induction false} RobustIffNeverCoalesced(w: World, steps: seq<Step>)
    requires Sound(w)
    ensures RobustThroughout(w, steps) <==> NeverCoalesced(w, steps)
  {
    if steps == [] {
      SoundIsRobust(w);
    } else {
      var before, s := steps[..|steps| - 1], steps[|steps| - 1];
      RobustIffNeverCoalesced(w, before);
      if NeverCoalesced(w, before) {
        NeverCoalescedIsSound(w, before);
        if Coalesced(Run(w, before), s) {
          CoalescedBreaks(Run(w, before), s);
        } else {
          StepKeepsSound(Run(w, before), s);
          SoundIsRobust(Run(w, steps));
        }
      }
    }
  }

  // -------------------------------------------------------------- transactions

  // What a statement writes or locks.  Row locks are kept until the transaction
  // ends, so no other transaction can touch, calculate or read those rows meanwhile.
  function TouchedAcqs(s: Step): set<Uuid> {
    match s
    case WriteAcq(_, a, _, _) => {a}
    case WriteChild(_, a, _) => {a}
    case DeleteAcq(_, a) => {a}
    case OutdateAcq(_, a, _) => {a}
    case CalcAcq(a, _) => {a}
    case CalcEntry(_, _, parent) => if parent.Parent? then {parent.id} else {}
    case UpdateAcq(_, c) => {c.id}
    case _ => {}
  }

  function LinkedEntry(link: Link): set<Uuid> { if link.Linked? then {link.entry} else {} }

  function EntryOf(w: World, a: Uuid): set<Uuid> { if a in w.acqs then LinkedEntry(w.acqs[a].link) else {} }

  function TouchedEntries(w: World, s: Step): set<Uuid> {
    match s
    case WriteAcq(_, a, _, link) => EntryOf(w, a) + LinkedEntry(link)
    case WriteChild(x, a, _) => if a in w.acqs && AcqBumps(w.acqs[a], x) then EntryOf(w, a) else {}
    case DeleteAcq(_, a) => EntryOf(w, a)
    case OutdateAcq(_, a, _) => EntryOf(w, a)
    case UpdateAcq(_, c) => EntryOf(w, c.id)
    case WriteEntry(_, e, _) => {e}
    case OutdateEntry(_, e, _) => {e}
    case CalcEntry(e, _, _) => {e}
    case UpdateEntry(c) => {c.id}
    case _ => {}
  }

  // The marking transaction recorded by a statement is the one that executes it.
  predicate By(s: Step, x: nat) {
    match s
    case WriteAcq(y, _, _, _) => x == y
    case WriteChild(y, _, _) => x == y
    case DeleteAcq(y, _) => x == y
    case WriteEntry(y, _, _) => x == y
    case OutdateAcq(y, _, _) => x == y
    case OutdateEntry(y, _, _) => x == y
    case UpdateAcq(y, _) => x == y
    case _ => true
  }

  // The open transactions: their row locks, and whose each waiting calculation is.
  datatype Db = Db(
    w: World, acqLocks: map<Uuid, nat>, entryLocks: map<Uuid, nat>,
    acqBy: map<AcqCalc, nat>, entryBy: map<EntryCalc, nat>)

  const EMPTY_DB := Db(EMPTY, map[], map[], map[], map[])

  // A transaction that rolls back leaves no trace and does not appear in a run.
  datatype Event = Act(x: nat, s: Step) | Commit(x: nat)

  // The transaction has stored or dropped everything it calculated.
  predicate Idle(db: Db, x: nat) { x !in db.acqBy.Values && x !in db.entryBy.Values }

  // The order of work: what a transaction calculated is stored before it writes again,
  // and its entry calculations are stored before it stores another acquisition.  The
  // hook before the commit and the reconciliation both calculate a batch of parents,
  // store it, calculate a batch of entries, store it, and start over.
  predicate InOrder(db: Db, x: nat, s: Step) {
    match s
    case UpdateAcq(_, _) => x !in db.entryBy.Values
    case CalcAcq(_, _) => true
    case CalcEntry(_, _, _) => true
    case UpdateEntry(_) => true
    case DropAcq(_) => true
    case DropEntry(_) => true
    case _ => Idle(db, x)
  }

  predicate Owns(db: Db, x: nat, s: Step) {
    match s
    case UpdateAcq(_, c) => c in db.acqBy && db.acqBy[c] == x
    case DropAcq(c) => c in db.acqBy && db.acqBy[c] == x
    case UpdateEntry(c) => c in db.entryBy && db.entryBy[c] == x
    case DropEntry(c) => c in db.entryBy && db.entryBy[c] == x
    case _ => true
  }

  // The lock manager lets the statement through, and the code issues it in order.
  predicate Allowed(db: Db, e: Event) {
    match e
    case Act(x, s) =>
      && By(s, x) && Owns(db, x, s) && InOrder(db, x, s)
      && (forall a | a in TouchedAcqs(s) && a in db.acqLocks :: db.acqLocks[a] == x)
      && (forall e | e in TouchedEntries(db.w, s) && e in db.entryLocks :: db.entryLocks[e] == x)
    case Commit(x) => Idle(db, x)
  }

  function After(db: Db, e: Event): Db {
    match e
    case Act(x, s) =>
      var n := Next(db.w, s);
      Db(n,
         map a | a in db.acqLocks.Keys + TouchedAcqs(s) :: if a in TouchedAcqs(s) then x else db.acqLocks[a],
         map e | e in db.entryLocks.Keys + TouchedEntries(db.w, s) ::
           if e in TouchedEntries(db.w, s) then x else db.entryLocks[e],
         map c | c in n.acqCalcs :: if c in db.acqBy then db.acqBy[c] else x,
         map c | c in n.entryCalcs :: if c in db.entryBy then db.entryBy[c] else x)
    case Commit(x) =>
      db.(acqLocks := map a | a in db.acqLocks && db.acqLocks[a] != x :: db.acqLocks[a],
          entryLocks := map e | e in db.entryLocks && db.entryLocks[e] != x :: db.entryLocks[e])
  }

  function Play(events: seq<Event>): Db {
    if events == [] then EMPTY_DB else After(Play(events[..|events| - 1]), events[|events| - 1])
  }

  predicate Disciplined(events: seq<Event>) {
    events != [] ==>
      var before := events[..|events| - 1];
      Disciplined(before) && Allowed(Play(before), events[|events| - 1])
  }

  // The statements of a run, transactions interleaved.
  function Statements(events: seq<Event>): seq<Step> {
    if events == [] then []
    else
      var before, e := Statements(events[..|events| - 1]), events[|events| - 1];
      if e.Act? then before + [e.s] else before
  }

  // A waiting calculation belongs to an open transaction that holds its row.
  predicate Guarded(db: Db) {
    && db.acqBy.Keys == db.w.acqCalcs && db.entryBy.Keys == db.w.entryCalcs
    && (forall c | c in db.acqBy :: c.id in db.acqLocks && db.acqLocks[c.id] == db.acqBy[c])
    && (forall c | c in db.entryBy :: c.id in db.entryLocks && db.entryLocks[c.id] == db.entryBy[c])
  }

  lemma NewCalculations(w: World, s: Step)
    ensures forall c | c in Next(w, s).acqCalcs && c !in w.acqCalcs :: s.CalcAcq? && c.id == s.id
    ensures forall c | c in Next(w, s).entryCalcs && c !in w.entryCalcs :: s.CalcEntry? && c.id == s.id
  {
  }

  lemma ActKeepsAcqs(db: Db, x: nat, s: Step)
    requires Guarded(db) && Allowed(db, Act(x, s))
    ensures var n := After(db, Act(x, s));
            forall c | c in n.acqBy :: c.id in n.acqLocks && n.acqLocks[c.id] == n.acqBy[c]
  {
    NewCalculations(db.w, s);
    var n := After(db, Act(x, s));
    forall c | c in n.acqBy
      ensures c.id in n.acqLocks && n.acqLocks[c.id] == n.acqBy[c]
    {
      assert c in n.w.acqCalcs;
    }
  }

  lemma ActKeepsEntries(db: Db, x: nat, s: Step)
    requires Guarded(db) && Allowed(db, Act(x, s))
    ensures var n := After(db, Act(x, s));
            forall c | c in n.entryBy ::
              c.id in n.entryLocks && n.entryLocks[c.id] == n.entryBy[c]
  {
    NewCalculations(db.w, s);
    var n := After(db, Act(x, s));
    forall c | c in n.entryBy
      ensures c.id in n.entryLocks && n.entryLocks[c.id] == n.entryBy[c]
    {
      assert c in n.w.entryCalcs;
    }
  }

  lemma CommitKeepsGuarded(db: Db, x: nat)
    requires Guarded(db) && Allowed(db, Commit(x))
    ensures Guarded(After(db, Commit(x)))
  {
    assert forall c | c in db.acqBy :: db.acqBy[c] in db.acqBy.Values;
    assert forall c | c in db.entryBy :: db.entryBy[c] in db.entryBy.Values;
  }

  lemma EventKeepsGuarded(db: Db, e: Event)
    requires Guarded(db) && Allowed(db, e)
    ensures Guarded(After(db, e))
  {
    match e
    case Act(x, s) =>
      ActKeepsAcqs(db, x, s);
      ActKeepsEntries(db, x, s);
    case Commit(x) => CommitKeepsGuarded(db, x);
  }

  // With its row locked against others and its own writes postponed, no calculation
  // can be overtaken by a coalesced write.
  lemma AllowedIsNotCoalesced(db: Db, x: nat, s: Step)
    requires Guarded(db) && Allowed(db, Act(x, s))
    ensures !Coalesced(db.w, s)
  {
  }

  // Main result: under row locks and in this order of work, no run of interleaved
  // transactions ever coalesces a write under a waiting calculation.
  lemma {:induction false} DisciplinedNeverCoalesces(events: seq<Event>)
    requires Disciplined(events)
    ensures NeverCoalesced(EMPTY, Statements(events))
    ensures Play(events).w == Run(EMPTY, Statements(events)) && Guarded(Play(events))
  {
    if events != [] {
      var before, e := events[..|events| - 1], events[|events| - 1];
      DisciplinedNeverCoalesces(before);
      EventKeepsGuarded(Play(before), e);
      if e.Act? {
        AllowedIsNotCoalesced(Play(before), e.x, e.s);
        var all := Statements(before) + [e.s];
        assert all[..|all| - 1] == Statements(before);
      }
    }
  }

  lemma DisciplinedIsSound(events: seq<Event>)
    requires Disciplined(events)
    ensures Sound(Play(events).w)
  {
    DisciplinedNeverCoalesces(events);
    NeverCoalescedIsSound(EMPTY, Statements(events));
  }

  // What a reader of the acquisition list sees, in every run of interleaved
  // transactions: a clean row shows the projection, at its own model version, of
  // its source as it is now.
  lemma CleanAcqIsCurrent(events: seq<Event>, a: Uuid)
    requires Disciplined(events)
    requires a in Play(events).w.acqs && !Play(events).w.acqs[a].dirty
    ensures var row := Play(events).w.acqs[a]; row.view == AcqView(row.model, row.source)
  {
    DisciplinedIsSound(events);
  }

  lemma SoundEntryIsCurrent(w: World, e: Uuid, a: Uuid)
    requires Sound(w) && e in w.entries && !w.entries[e].dirty && a in w.acqs && w.acqs[a].link == Linked(e)
    ensures var row, parent := w.entries[e], w.acqs[a];
            row.view == EntryView(row.model, row.source, Parent(a, AcqView(parent.model, parent.source)))
  {
    assert EntryCurrent(w, e, w.entries[e].view);
  }

  // A clean entry shows the projection of the current entry and of the current
  // source of its parent acquisition, across both cache levels.
  lemma CleanEntryIsCurrent(events: seq<Event>, e: Uuid, a: Uuid)
    requires Disciplined(events)
    requires e in Play(events).w.entries && !Play(events).w.entries[e].dirty
    requires a in Play(events).w.acqs && Play(events).w.acqs[a].link == Linked(e)
    ensures var row, parent := Play(events).w.entries[e], Play(events).w.acqs[a];
            row.view == EntryView(row.model, row.source, Parent(a, AcqView(parent.model, parent.source)))
  {
    DisciplinedIsSound(events);
    SoundEntryIsCurrent(Play(events).w, e, a);
  }

  lemma CleanOrphanIsCurrent(events: seq<Event>, e: Uuid)
    requires Disciplined(events)
    requires e in Play(events).w.entries && !Play(events).w.entries[e].dirty
    requires forall a | a in Play(events).w.acqs :: Play(events).w.acqs[a].link != Linked(e)
    ensures var row := Play(events).w.entries[e]; row.view == EntryView(row.model, row.source, NoParent)
  {
    DisciplinedIsSound(events);
    var w := Play(events).w;
    assert EntryCurrent(w, e, w.entries[e].view);
  }

  // A late writer never hides a newer change: once another transaction has
  // marked the row, the calculation no longer finds its revision.
  lemma LateCalculationIsRefused(w: World, writer: nat, source: nat, x: nat, c: AcqCalc)
    requires Sound(w) && c in w.acqCalcs && c.id in w.acqs && AcqBumps(w.acqs[c.id], writer)
    ensures var n := Next(w, WriteChild(writer, c.id, source)); Next(n, UpdateAcq(x, c)) == n
  {
    assert AcqCalcSound(w, c);
  }

  // The other case: transaction 1 creates an acquisition, a calculation is read,
  // transaction 1 writes again, and the old calculation is stored as clean.
  lemma CoalescedWriteIsLost()
    ensures var c := AcqCalc(7, 1, AcqView(1, 10));
            var w := Run(EMPTY, [WriteAcq(1, 7, 10, Unlinked), CalcAcq(7, 1), WriteChild(1, 7, 20), UpdateAcq(2, c)]);
            7 in w.acqs && !w.acqs[7].dirty && w.acqs[7].source == 20 && w.acqs[7].view.source == 10
  {
    var c := AcqCalc(7, 1, AcqView(1, 10));
    var steps := [WriteAcq(1, 7, 10, Unlinked), CalcAcq(7, 1), WriteChild(1, 7, 20), UpdateAcq(2, c)];
    assert steps[..3][..2][..1] == steps[..1] && steps[..3][..2] == steps[..2] && steps[..1][..0] == [];
    var w1 := Run(EMPTY, steps[..1]);
    assert Run(EMPTY, steps[..0]) == EMPTY && steps[..1][0] == WriteAcq(1, 7, 10, Unlinked);
    assert w1 == Next(EMPTY, WriteAcq(1, 7, 10, Unlinked));
    assert w1 == EMPTY.(acqs := map[7 := Acq(10, Unlinked, 1, 0, true, 1, BLANK)]);
    var w2 := Run(EMPTY, steps[..2]);
    assert w2 == w1.(acqCalcs := {c});
    var w3 := Run(EMPTY, steps[..3]);
    assert w3 == w2.(acqs := map[7 := Acq(20, Unlinked, 1, 0, true, 1, BLANK)]);
  }

  // ------------------------------------------------------------ reconciliation

  const VERSION: nat := 1
  const BATCH: nat := 100

  // A sound store with no calculation in flight, as at start-up.
  type QuietWorld = w: World | Sound(w) && w.acqCalcs == {} && w.entryCalcs == {} witness EMPTY

  function DirtyAcqs(w: World): set<Uuid> { set a | a in w.acqs && w.acqs[a].dirty }

  function DirtyEntries(w: World): set<Uuid> { set e | e in w.entries && w.entries[e].dirty }

  function OutdatedAcqs(w: World): set<Uuid> { set a | a in w.acqs && w.acqs[a].model < VERSION }

  function OutdatedEntries(w: World): set<Uuid> { set e | e in w.entries && w.entries[e].model < VERSION }

  // What reconciliation never touches: the sources, and the rows owned by a newer binary.
  datatype Fixed = Fixed(
    acqs: map<Uuid, (nat, Link)>, entries: map<Uuid, nat>, newerAcqs: set<Uuid>, newerEntries: set<Uuid>)

  function FixedOf(w: World): Fixed {
    Fixed(map a | a in w.acqs :: (w.acqs[a].source, w.acqs[a].link), map e | e in w.entries :: w.entries[e].source,
          set a | a in w.acqs && w.acqs[a].model > VERSION, set e | e in w.entries && w.entries[e].model > VERSION)
  }

  predicate AcqsReady(w: World) { DirtyAcqs(w) == {} && OutdatedAcqs(w) == {} }

  predicate EntriesReady(w: World) { DirtyEntries(w) == {} && OutdatedEntries(w) == {} }

  function OutdatedRow(w: QuietWorld, x: nat, a: Uuid): (n: QuietWorld)
    ensures n == Next(w, OutdateAcq(x, a, VERSION))
  {
    StepKeepsSound(w, OutdateAcq(x, a, VERSION));
    Next(w, OutdateAcq(x, a, VERSION))
  }

  lemma OutdateAcqEffect(w: World, x: nat, a: Uuid)
    requires a in w.acqs
    ensures var n := Next(w, OutdateAcq(x, a, VERSION));
            FixedOf(n) == FixedOf(w) && OutdatedAcqs(n) == OutdatedAcqs(w)
            && DirtyAcqs(n) == DirtyAcqs(w) + (OutdatedAcqs(w) * {a})
  {
  }

  function CurrentCalc(w: World, a: Uuid): AcqCalc
    requires a in w.acqs
  {
    AcqCalc(a, w.acqs[a].revision, AcqView(VERSION, w.acqs[a].source))
  }

  lemma OutdateEntryCleans(w: QuietWorld, x: nat, e: Uuid)
    requires e in w.entries
    ensures var n := Next(w, OutdateEntry(x, e, VERSION));
            Sound(n) && n.acqCalcs == {} && n.entryCalcs == {} && FixedOf(n) == FixedOf(w) && n.acqs == w.acqs
            && OutdatedEntries(n) == OutdatedEntries(w)
            && DirtyEntries(n) == DirtyEntries(w) + (OutdatedEntries(w) * {e})
  {
    StepKeepsSound(w, OutdateEntry(x, e, VERSION));
  }

  function RefreshAcq(w: World, x: nat, a: Uuid): World
    requires a in w.acqs
  {
    Next(Next(w, CalcAcq(a, VERSION)), UpdateAcq(x, AcqCalc(a, w.acqs[a].revision, AcqView(VERSION, w.acqs[a].source))))
  }

  lemma RefreshAcqCleans(w: QuietWorld, x: nat, a: Uuid)
    requires a in w.acqs && w.acqs[a].model <= VERSION
    ensures var n, row := RefreshAcq(w, x, a), w.acqs[a];
            Sound(n) && n.acqCalcs == {} && n.entryCalcs == {}
            && n.entries == MarkLinked(w.entries, row.link, x)
            && n.acqs == w.acqs[a := row.(dirty := false, model := VERSION, view := AcqView(VERSION, row.source))]
  {
    var c := AcqCalc(a, w.acqs[a].revision, AcqView(VERSION, w.acqs[a].source));
    var m := Next(w, CalcAcq(a, VERSION));
    assert m == w.(acqCalcs := {c});
    StepKeepsSound(w, CalcAcq(a, VERSION));
    StepKeepsSound(m, UpdateAcq(x, c));
  }

  lemma RefreshAcqEffect(w: QuietWorld, x: nat, a: Uuid)
    requires a in w.acqs && w.acqs[a].model <= VERSION
    ensures var n := RefreshAcq(w, x, a);
            FixedOf(n) == FixedOf(w)
            && DirtyAcqs(n) == DirtyAcqs(w) - {a} && OutdatedAcqs(n) == OutdatedAcqs(w) - {a}
            && OutdatedEntries(n) == OutdatedEntries(w)
  {
    RefreshAcqCleans(w, x, a);
  }

  function RefreshEntry(w: World, e: Uuid, parent: Parent): World
    requires e in w.entries
  {
    Next(Next(w, CalcEntry(e, VERSION, parent)),
         UpdateEntry(EntryCalc(e, w.entries[e].revision, EntryView(VERSION, w.entries[e].source, parent))))
  }

  lemma RefreshEntryCleans(w: QuietWorld, e: Uuid, parent: Parent)
    requires e in w.entries && w.entries[e].model <= VERSION && ParentRead(w, e, VERSION, parent)
    ensures var n := RefreshEntry(w, e, parent);
            Sound(n) && n.acqCalcs == {} && n.entryCalcs == {} && FixedOf(n) == FixedOf(w) && n.acqs == w.acqs
            && DirtyEntries(n) == DirtyEntries(w) - {e} && OutdatedEntries(n) == OutdatedEntries(w) - {e}
  {
    var c := EntryCalc(e, w.entries[e].revision, EntryView(VERSION, w.entries[e].source, parent));
    var m := Next(w, CalcEntry(e, VERSION, parent));
    assert m == w.(entryCalcs := {c});
    StepKeepsSound(w, CalcEntry(e, VERSION, parent));
    StepKeepsSound(m, UpdateEntry(c));
  }

  // ------------------------------------------------- refreshes in transactions

  predicate Lockable(locks: map<Uuid, nat>, x: nat, id: Uuid) { id in locks ==> locks[id] == x }

  // The transaction may lock the row and its entry.
  predicate MayRefresh(db: Db, x: nat, a: Uuid) {
    && a in db.w.acqs && db.w.acqs[a].model <= VERSION && Lockable(db.acqLocks, x, a)
    && (forall e | e in EntryOf(db.w, a) :: Lockable(db.entryLocks, x, e))
  }

  lemma StoreIsAllowed(db: Db, x: nat, a: Uuid)
    requires Guarded(db) && MayRefresh(db, x, a) && x !in db.entryBy.Values
    ensures var read := Act(x, CalcAcq(a, VERSION));
            Allowed(db, read) && Allowed(After(db, read), Act(x, UpdateAcq(x, CurrentCalc(db.w, a))))
  {
    var c, mid := CurrentCalc(db.w, a), After(db, Act(x, CalcAcq(a, VERSION)));
    assert c in mid.w.acqCalcs && c in mid.acqBy;
    assert c in db.acqBy ==> db.acqBy[c] == x;
    assert mid.acqBy[c] == x;
    assert mid.entryBy == db.entryBy && mid.entryLocks == db.entryLocks && mid.w.acqs == db.w.acqs;
    assert TouchedEntries(mid.w, UpdateAcq(x, c)) == EntryOf(db.w, a);
  }

  // Playing further events, and that each is allowed.
  function PlayFrom(db: Db, more: seq<Event>): Db {
    if more == [] then db else After(PlayFrom(db, more[..|more| - 1]), more[|more| - 1])
  }

  predicate Permitted(db: Db, more: seq<Event>) {
    more != [] ==>
      var before := more[..|more| - 1];
      Permitted(db, before) && Allowed(PlayFrom(db, before), more[|more| - 1])
  }

  lemma {:induction false} PlayConcat(db: Db, a: seq<Event>, b: seq<Event>)
    ensures PlayFrom(db, a + b) == PlayFrom(PlayFrom(db, a), b)
  {
    if b == [] {
      assert a + b == a;
    } else {
      PlayConcat(db, a, b[..|b| - 1]);
      assert (a + b)[..|a + b| - 1] == a + b[..|b| - 1];
    }
  }

  lemma PermittedThen(db: Db, more: seq<Event>, e: Event, at: Db)
    requires Permitted(db, more) && at == PlayFrom(db, more) && Allowed(at, e)
    ensures Permitted(db, more + [e])
  {
    assert (more + [e])[..|more + [e]| - 1] == more;
  }

  lemma {:induction false} PermittedConcat(db: Db, a: seq<Event>, b: seq<Event>)
    requires Permitted(db, a) && Permitted(PlayFrom(db, a), b)
    ensures Permitted(db, a + b)
  {
    if b == [] {
      assert a + b == a;
    } else {
      var before, e := b[..|b| - 1], b[|b| - 1];
      PermittedConcat(db, a, before);
      PlayConcat(db, a, before);
      PermittedThen(db, a + before, e, PlayFrom(PlayFrom(db, a), before));
      assert a + before + [e] == a + b;
    }
  }

  lemma {:induction false} PermittedExtends(events: seq<Event>, more: seq<Event>)
    requires Disciplined(events) && Permitted(Play(events), more)
    ensures Disciplined(events + more) && Play(events + more) == PlayFrom(Play(events), more)
  {
    if more == [] {
      assert events + more == events;
    } else {
      PermittedExtends(events, more[..|more| - 1]);
      assert (events + more)[..|events + more| - 1] == events + more[..|more| - 1];
    }
  }

  lemma Two(db: Db, a: Event, b: Event)
    requires Allowed(db, a) && Allowed(After(db, a), b)
    ensures Permitted(db, [a, b]) && PlayFrom(db, [a, b]) == After(After(db, a), b)
  {
    assert [a, b][..1] == [a] && [a][..0] == [];
    assert PlayFrom(db, [a]) == After(db, a);
  }

  // The transaction may start the next refresh.
  ghost predicate Ready(db: Db, x: nat) { Guarded(db) && Idle(db, x) && LinksUnique(db.w) }

  // What a refresh leaves to the rest of its transaction: the same rows and links, no
  // newer model, and no lock but its own in addition.
  predicate KeepsRows(w: World, n: World) {
    && n.acqs.Keys == w.acqs.Keys && n.entries.Keys == w.entries.Keys
    && (forall a | a in w.acqs :: n.acqs[a].link == w.acqs[a].link
                                  && (w.acqs[a].model <= VERSION ==> n.acqs[a].model <= VERSION))
    && (forall e | e in w.entries :: w.entries[e].model <= VERSION ==> n.entries[e].model <= VERSION)
  }

  predicate KeepsLocks(locks: map<Uuid, nat>, now: map<Uuid, nat>, x: nat) {
    forall id | id in now && now[id] != x :: id in locks && locks[id] == now[id]
  }

  predicate Widens(db: Db, n: Db, x: nat) {
    KeepsRows(db.w, n.w) && KeepsLocks(db.acqLocks, n.acqLocks, x) && KeepsLocks(db.entryLocks, n.entryLocks, x)
  }

  lemma WidensChains(a: Db, b: Db, c: Db, x: nat)
    requires Widens(a, b, x) && Widens(b, c, x)
    ensures Widens(a, c, x)
  {
  }

  lemma AcqReadLeaves(db: Db, x: nat, a: Uuid)
    requires Guarded(db) && Idle(db, x) && a in db.w.acqs && db.w.acqs[a].model <= VERSION
    ensures var mid := After(db, Act(x, CalcAcq(a, VERSION)));
            && mid.w == db.w.(acqCalcs := db.w.acqCalcs + {CurrentCalc(db.w, a)})
            && mid.entryBy == db.entryBy && mid.entryLocks == db.entryLocks
            && (forall c | c in mid.acqBy && c != CurrentCalc(db.w, a) :: mid.acqBy[c] != x)
  {
    var mid := After(db, Act(x, CalcAcq(a, VERSION)));
    forall c | c in mid.acqBy && c != CurrentCalc(db.w, a) ensures mid.acqBy[c] != x {
      assert c in db.acqBy && db.acqBy[c] in db.acqBy.Values;
    }
  }

  lemma AcqStoreLeaves(mid: Db, x: nat, c: AcqCalc)
    requires Guarded(mid) && x !in mid.entryBy.Values && c in mid.w.acqCalcs && c.id in mid.w.acqs
    requires c.revision == mid.w.acqs[c.id].revision && c.view.model <= VERSION
    requires forall d | d in mid.acqBy && d != c :: mid.acqBy[d] != x
    ensures var n := After(mid, Act(x, UpdateAcq(x, c))); Idle(n, x) && KeepsRows(mid.w, n.w)
  {
    var n := After(mid, Act(x, UpdateAcq(x, c)));
    assert n.w.acqCalcs == mid.w.acqCalcs - {c} && n.entryBy == mid.entryBy;
  }

  // The refresh of a row is two statements of one transaction, and they keep to the
  // order of work wherever the transaction may lock the row and its entry.
  lemma AcqRefreshRuns(db: Db, x: nat, a: Uuid) returns (more: seq<Event>)
    requires Ready(db, x) && MayRefresh(db, x, a)
    ensures Permitted(db, more) && PlayFrom(db, more).w == RefreshAcq(db.w, x, a)
    ensures Ready(PlayFrom(db, more), x) && Widens(db, PlayFrom(db, more), x)
  {
    var read, store := Act(x, CalcAcq(a, VERSION)), Act(x, UpdateAcq(x, CurrentCalc(db.w, a)));
    StoreIsAllowed(db, x, a);
    AcqReadLeaves(db, x, a);
    EventKeepsGuarded(db, read);
    AcqStoreLeaves(After(db, read), x, CurrentCalc(db.w, a));
    LinksStayUnique(After(db, read).w, UpdateAcq(x, CurrentCalc(db.w, a)));
    EventKeepsGuarded(After(db, read), store);
    Two(db, read, store);
    more := [read, store];
  }

  // The transaction may lock the entry and, as far as it has one, its parent.
  predicate MayRefreshEntry(db: Db, x: nat, e: Uuid) {
    && e in db.w.entries && db.w.entries[e].model <= VERSION && Lockable(db.entryLocks, x, e)
    && (forall a | a in db.w.acqs && db.w.acqs[a].link == Linked(e) :: MayRefresh(db, x, a))
  }

  function CurrentEntryCalc(w: World, e: Uuid, parent: Parent): EntryCalc
    requires e in w.entries
  {
    EntryCalc(e, w.entries[e].revision, EntryView(VERSION, w.entries[e].source, parent))
  }

  lemma StoreEntryIsAllowed(db: Db, x: nat, e: Uuid, parent: Parent)
    requires Guarded(db) && MayRefreshEntry(db, x, e) && ParentRead(db.w, e, VERSION, parent)
    ensures var read := Act(x, CalcEntry(e, VERSION, parent));
            Allowed(db, read) && Allowed(After(db, read), Act(x, UpdateEntry(CurrentEntryCalc(db.w, e, parent))))
  {
    var c, mid := CurrentEntryCalc(db.w, e, parent), After(db, Act(x, CalcEntry(e, VERSION, parent)));
    assert c in mid.w.entryCalcs && c in mid.entryBy;
    assert c in db.entryBy ==> db.entryBy[c] == x;
    assert mid.entryBy[c] == x;
  }

  lemma EntryReadLeaves(db: Db, x: nat, e: Uuid, parent: Parent)
    requires Guarded(db) && Idle(db, x) && MayRefreshEntry(db, x, e) && ParentRead(db.w, e, VERSION, parent)
    ensures var mid := After(db, Act(x, CalcEntry(e, VERSION, parent)));
            && mid.w == db.w.(entryCalcs := db.w.entryCalcs + {CurrentEntryCalc(db.w, e, parent)})
            && mid.acqBy == db.acqBy
            && (forall c | c in mid.entryBy && c != CurrentEntryCalc(db.w, e, parent) :: mid.entryBy[c] != x)
  {
    var mid := After(db, Act(x, CalcEntry(e, VERSION, parent)));
    forall c | c in mid.entryBy && c != CurrentEntryCalc(db.w, e, parent) ensures mid.entryBy[c] != x {
      assert c in db.entryBy && db.entryBy[c] in db.entryBy.Values;
    }
  }

  lemma EntryStoreLeaves(mid: Db, x: nat, c: EntryCalc)
    requires Guarded(mid) && x !in mid.acqBy.Values && c in mid.w.entryCalcs && c.id in mid.w.entries
    requires c.revision == mid.w.entries[c.id].revision && c.view.model <= VERSION
    requires forall d | d in mid.entryBy && d != c :: mid.entryBy[d] != x
    ensures var n := After(mid, Act(x, UpdateEntry(c))); Idle(n, x) && KeepsRows(mid.w, n.w)
  {
    var n := After(mid, Act(x, UpdateEntry(c)));
    assert n.w.entryCalcs == mid.w.entryCalcs - {c} && n.acqBy == mid.acqBy;
  }

  // The same for an entry whose parent is up to date.
  lemma EntryRefreshRuns(db: Db, x: nat, e: Uuid, parent: Parent) returns (more: seq<Event>)
    requires Ready(db, x) && MayRefreshEntry(db, x, e) && ParentRead(db.w, e, VERSION, parent)
    ensures Permitted(db, more) && PlayFrom(db, more).w == RefreshEntry(db.w, e, parent)
    ensures Ready(PlayFrom(db, more), x) && Widens(db, PlayFrom(db, more), x)
  {
    var c := CurrentEntryCalc(db.w, e, parent);
    var read, store := Act(x, CalcEntry(e, VERSION, parent)), Act(x, UpdateEntry(c));
    StoreEntryIsAllowed(db, x, e, parent);
    EntryReadLeaves(db, x, e, parent);
    EventKeepsGuarded(db, read);
    EntryStoreLeaves(After(db, read), x, c);
    LinksStayUnique(After(db, read).w, UpdateEntry(c));
    EventKeepsGuarded(After(db, read), store);
    Two(db, read, store);
    more := [read, store];
  }

  // A row to bring up to date.
  datatype Target = AcqRow(id: Uuid) | EntryRow(id: Uuid)

  predicate MayTouch(db: Db, x: nat, t: Target) {
    if t.AcqRow? then MayRefresh(db, x, t.id) else MayRefreshEntry(db, x, t.id)
  }

  lemma WidensKeepsAccess(db: Db, n: Db, x: nat, t: Target)
    requires Widens(db, n, x) && MayTouch(db, x, t)
    ensures MayTouch(n, x, t)
  {
    if t.AcqRow? {
      assert EntryOf(n.w, t.id) == EntryOf(db.w, t.id);
    } else {
      forall a | a in n.w.acqs && n.w.acqs[a].link == Linked(t.id) ensures MayRefresh(n, x, a) {
        assert MayRefresh(db, x, a);
        assert EntryOf(n.w, a) == EntryOf(db.w, a);
      }
    }
  }

  ghost function ParentOf(w: World, e: Uuid): Option<Uuid> {
    if exists a :: a in w.acqs && w.acqs[a].link == Linked(e)
    then var a :| a in w.acqs && w.acqs[a].link == Linked(e); Some(a) else None
  }

  predicate NeedsRefresh(row: Acq) { row.dirty || row.model < VERSION }

  // An entry's parent, brought up to date if it is not.
  ghost function WithParent(w: World, x: nat, e: Uuid): World {
    var p := ParentOf(w, e);
    if p.Some? && NeedsRefresh(w.acqs[p.value]) then RefreshAcq(w, x, p.value) else w
  }

  ghost function ParentView(w: World, e: Uuid): Parent {
    var p := ParentOf(w, e);
    if p.Some? then Parent(p.value, w.acqs[p.value].view) else NoParent
  }

  ghost function RefreshedRow(w: World, x: nat, t: Target): World {
    if t.AcqRow? then if t.id in w.acqs then RefreshAcq(w, x, t.id) else w
    else
      var up := WithParent(w, x, t.id);
      if t.id in up.entries then RefreshEntry(up, t.id, ParentView(up, t.id)) else up
  }

  ghost function Refreshed(w: World, x: nat, todo: seq<Target>): World {
    if todo == [] then w
    else RefreshedRow(Refreshed(w, x, todo[..|todo| - 1]), x, todo[|todo| - 1])
  }

  lemma ParentIsUnique(w: World, e: Uuid, a: Uuid)
    requires LinksUnique(w) && a in w.acqs && w.acqs[a].link == Linked(e)
    ensures ParentOf(w, e) == Some(a)
  {
  }

  // A refreshed acquisition is clean and at the current model.
  lemma RefreshedIsRead(w: World, x: nat, e: Uuid, a: Uuid)
    requires a in w.acqs && w.acqs[a].model <= VERSION && w.acqs[a].link == Linked(e)
    requires LinksUnique(RefreshAcq(w, x, a))
    ensures var n := RefreshAcq(w, x, a); ParentRead(n, e, VERSION, ParentView(n, e))
  {
    var c := CurrentCalc(w, a);
    assert c in Next(w, CalcAcq(a, VERSION)).acqCalcs;
    ParentIsUnique(RefreshAcq(w, x, a), e, a);
  }

  lemma ParentRuns(db: Db, x: nat, e: Uuid) returns (more: seq<Event>)
    requires Ready(db, x) && MayRefreshEntry(db, x, e)
    ensures Permitted(db, more) && PlayFrom(db, more).w == WithParent(db.w, x, e)
    ensures Ready(PlayFrom(db, more), x) && Widens(db, PlayFrom(db, more), x)
    ensures var w := PlayFrom(db, more).w; ParentRead(w, e, VERSION, ParentView(w, e))
  {
    var p := ParentOf(db.w, e);
    if p.Some? && NeedsRefresh(db.w.acqs[p.value]) {
      more := AcqRefreshRuns(db, x, p.value);
      RefreshedIsRead(db.w, x, e, p.value);
    } else {
      more := [];
      if p.Some? { assert MayRefresh(db, x, p.value); }
    }
  }

  lemma TargetRuns(db: Db, x: nat, t: Target) returns (more: seq<Event>)
    requires Ready(db, x) && MayTouch(db, x, t)
    ensures Permitted(db, more) && PlayFrom(db, more).w == RefreshedRow(db.w, x, t)
    ensures Ready(PlayFrom(db, more), x) && Widens(db, PlayFrom(db, more), x)
  {
    if t.AcqRow? {
      more := AcqRefreshRuns(db, x, t.id);
    } else {
      var first := ParentRuns(db, x, t.id);
      var mid := PlayFrom(db, first);
      WidensKeepsAccess(db, mid, x, t);
      var rest := EntryRefreshRuns(mid, x, t.id, ParentView(mid.w, t.id));
      WidensChains(db, mid, PlayFrom(mid, rest), x);
      PlayConcat(db, first, rest);
      PermittedConcat(db, first, rest);
      more := first + rest;
    }
  }

  lemma {:induction false} TargetsRun(db: Db, x: nat, todo: seq<Target>) returns (more: seq<Event>)
    requires Ready(db, x) && forall t | t in todo :: MayTouch(db, x, t)
    ensures Permitted(db, more) && PlayFrom(db, more).w == Refreshed(db.w, x, todo)
    ensures Ready(PlayFrom(db, more), x) && Widens(db, PlayFrom(db, more), x)
  {
    if todo == [] {
      more := [];
    } else {
      var t := todo[|todo| - 1];
      assert t in todo;
      var first := TargetsRun(db, x, todo[..|todo| - 1]);
      var mid := PlayFrom(db, first);
      WidensKeepsAccess(db, mid, x, t);
      var rest := TargetRuns(mid, x, t);
      WidensChains(db, mid, PlayFrom(mid, rest), x);
      PlayConcat(db, first, rest);
      PermittedConcat(db, first, rest);
      more := first + rest;
    }
  }

  // A whole refresh, acquisitions and entries in any order and as often as the batches
  // of the commit hook or of the reconciliation ask for, extends every disciplined run
  // to a disciplined run.
  lemma RefreshIsDisciplined(events: seq<Event>, x: nat, todo: seq<Target>) returns (more: seq<Event>)
    requires Disciplined(events) && Idle(Play(events), x)
    requires forall t | t in todo :: MayTouch(Play(events), x, t)
    ensures Disciplined(events + more) && Play(events + more).w == Refreshed(Play(events).w, x, todo)
    ensures Idle(Play(events + more), x)
  {
    DisciplinedNeverCoalesces(events);
    DisciplinedIsSound(events);
    more := TargetsRun(Play(events), x, todo);
    PermittedExtends(events, more);
  }

  // What readiness means to a reader: every acquisition row is clean, of the current model, and shows its source ...
  lemma ReadyAcqsAreCurrent(w: QuietWorld)
    requires AcqsReady(w) && FixedOf(w).newerAcqs == {}
    ensures forall a | a in w.acqs ::
              !w.acqs[a].dirty && w.acqs[a].model == VERSION && w.acqs[a].view == AcqView(VERSION, w.acqs[a].source)
  {
    forall a | a in w.acqs ensures !w.acqs[a].dirty && w.acqs[a].model == VERSION {
      assert a !in DirtyAcqs(w) && a !in OutdatedAcqs(w) && a !in FixedOf(w).newerAcqs;
    }
  }

  // ... and every entry row shows its own source and the current view of its parent, if it has one.
  lemma ReadyEntriesAreCurrent(w: QuietWorld)
    requires AcqsReady(w) && EntriesReady(w) && FixedOf(w).newerAcqs == {} && FixedOf(w).newerEntries == {}
    ensures forall e | e in w.entries :: !w.entries[e].dirty && w.entries[e].model == VERSION
    ensures forall e, a | e in w.entries && a in w.acqs && w.acqs[a].link == Linked(e) ::
              w.entries[e].view
              == EntryView(VERSION, w.entries[e].source, Parent(a, AcqView(VERSION, w.acqs[a].source)))
    ensures forall e | e in w.entries && (forall a | a in w.acqs :: w.acqs[a].link != Linked(e)) ::
              w.entries[e].view == EntryView(VERSION, w.entries[e].source, NoParent)
  {
    ReadyAcqsAreCurrent(w);
    forall e | e in w.entries ensures !w.entries[e].dirty && w.entries[e].model == VERSION {
      assert e !in DirtyEntries(w) && e !in OutdatedEntries(w) && e !in FixedOf(w).newerEntries;
    }
    forall e, a | e in w.entries && a in w.acqs && w.acqs[a].link == Linked(e)
      ensures w.entries[e].view
              == EntryView(VERSION, w.entries[e].source, Parent(a, AcqView(VERSION, w.acqs[a].source)))
    {
      SoundEntryIsCurrent(w, e, a);
    }
    forall e | e in w.entries && (forall a | a in w.acqs :: w.acqs[a].link != Linked(e))
      ensures w.entries[e].view == EntryView(VERSION, w.entries[e].source, NoParent)
    {
      assert EntryCurrent(w, e, w.entries[e].view);
    }
  }

  lemma NewerIff(w: World)
    ensures FixedOf(w).newerAcqs == {} <==> forall a | a in w.acqs :: w.acqs[a].model <= VERSION
    ensures FixedOf(w).newerEntries == {} <==> forall e | e in w.entries :: w.entries[e].model <= VERSION
  {
    forall a | a in w.acqs && w.acqs[a].model > VERSION ensures a in FixedOf(w).newerAcqs {}
    forall e | e in w.entries && w.entries[e].model > VERSION ensures e in FixedOf(w).newerEntries {}
    assert forall a | a in FixedOf(w).newerAcqs :: a in w.acqs && w.acqs[a].model > VERSION;
    assert forall e | e in FixedOf(w).newerEntries :: e in w.entries && w.entries[e].model > VERSION;
  }

  // Equal fixed parts: the same rows with the same sources and links.
  lemma SameSources(w: World, n: World)
    requires FixedOf(w) == FixedOf(n)
    ensures n.acqs.Keys == w.acqs.Keys && n.entries.Keys == w.entries.Keys
    ensures forall a | a in w.acqs :: n.acqs[a].source == w.acqs[a].source && n.acqs[a].link == w.acqs[a].link
    ensures forall e | e in w.entries :: n.entries[e].source == w.entries[e].source
  {
    assert FixedOf(w).acqs.Keys == w.acqs.Keys && FixedOf(n).acqs.Keys == n.acqs.Keys;
    assert FixedOf(w).entries.Keys == w.entries.Keys && FixedOf(n).entries.Keys == n.entries.Keys;
    forall a | a in w.acqs ensures n.acqs[a].source == w.acqs[a].source && n.acqs[a].link == w.acqs[a].link {
      assert FixedOf(w).acqs[a] == FixedOf(n).acqs[a];
    }
    forall e | e in w.entries ensures n.entries[e].source == w.entries[e].source {
      assert FixedOf(w).entries[e] == FixedOf(n).entries[e];
    }
  }

  class ProjectionStore {
    var w: QuietWorld
    var tx: nat

    // At most BATCH of the dirty rows, none only when there are none.  The
    // ORDER BY of the statement fixes the locking order, not the outcome.
    method LockBatch(dirty: set<Uuid>) returns (ids: set<Uuid>)
      ensures ids <= dirty && |ids| <= 100 && (ids == {} <==> dirty == {})
    {
      ids := {};
      var rest := dirty;
      while rest != {} && |ids| < BATCH
        invariant ids <= dirty && rest == dirty - ids && |ids| <= BATCH
        decreases rest
      {
        var id :| id in rest;
        ids, rest := ids + {id}, rest - {id};
      }
    }

    // One UPDATE over all rows of the kind.
    method OutdateAcqs()
      modifies this
      ensures FixedOf(w) == FixedOf(old(w)) && OutdatedAcqs(w) <= DirtyAcqs(w)
    {
      tx := tx + 1;
      var rest := OutdatedAcqs(w);
      while rest != {}
        invariant FixedOf(w) == FixedOf(old(w)) && rest <= OutdatedAcqs(w) <= DirtyAcqs(w) + rest
        decreases rest
      {
        var a :| a in rest;
        OutdateAcqEffect(w, tx, a);
        w := OutdatedRow(w, tx, a);
        rest := rest - {a};
      }
    }

    method OutdateEntries()
      modifies this
      ensures FixedOf(w) == FixedOf(old(w)) && w.acqs == old(w).acqs && OutdatedEntries(w) <= DirtyEntries(w)
    {
      tx := tx + 1;
      var rest := OutdatedEntries(w);
      while rest != {}
        invariant FixedOf(w) == FixedOf(old(w)) && w.acqs == old(w).acqs
        invariant rest <= OutdatedEntries(w) <= DirtyEntries(w) + rest
        decreases rest
      {
        var e :| e in rest;
        OutdateEntryCleans(w, tx, e);
        w := Next(w, OutdateEntry(tx, e, VERSION));
        rest := rest - {e};
      }
    }

    method RefreshOneAcq(a: Uuid)
      requires FixedOf(w).newerAcqs == {} && a in DirtyAcqs(w)
      modifies this`w
      ensures FixedOf(w) == FixedOf(old(w))
      ensures DirtyAcqs(w) == DirtyAcqs(old(w)) - {a} && OutdatedAcqs(w) == OutdatedAcqs(old(w)) - {a}
      ensures w == RefreshedRow(old(w), tx, AcqRow(a))
    {
      assert a !in FixedOf(w).newerAcqs;
      RefreshAcqCleans(w, tx, a);
      RefreshAcqEffect(w, tx, a);
      w := RefreshAcq(w, tx, a);
    }

    method RefreshAcqs(ids: set<Uuid>) returns (ghost todo: seq<Target>)
      requires FixedOf(w).newerAcqs == {} && ids <= DirtyAcqs(w)
      modifies this`w
      ensures FixedOf(w) == FixedOf(old(w))
      ensures DirtyAcqs(w) == DirtyAcqs(old(w)) - ids && OutdatedAcqs(w) == OutdatedAcqs(old(w)) - ids
      ensures w == Refreshed(old(w), tx, todo) && forall t :: t in todo <==> t.AcqRow? && t.id in ids
    {
      todo := [];
      ghost var fixed, dirty, outdated := FixedOf(w), DirtyAcqs(w), OutdatedAcqs(w);
      var rest := ids;
      while rest != {}
        invariant FixedOf(w) == fixed && rest <= ids <= dirty
        invariant DirtyAcqs(w) == dirty - (ids - rest) && OutdatedAcqs(w) == outdated - (ids - rest)
        invariant w == Refreshed(old(w), tx, todo) && forall t :: t in todo <==> t.AcqRow? && t.id in ids - rest
        decreases rest
      {
        var a :| a in rest;
        RefreshOneAcq(a);
        assert (todo + [AcqRow(a)])[..|todo|] == todo;
        todo := todo + [AcqRow(a)];
        assert ids - (rest - {a}) == (ids - rest) + {a};
        rest := rest - {a};
      }
      assert ids - rest == ids;
    }

    method RefreshAcqBatch() returns (done: set<Uuid>, ghost todo: seq<Target>)
      requires FixedOf(w).newerAcqs == {}
      modifies this
      ensures FixedOf(w) == FixedOf(old(w))
      ensures done <= DirtyAcqs(old(w)) && |done| <= BATCH && (done == {} <==> DirtyAcqs(old(w)) == {})
      ensures DirtyAcqs(w) == DirtyAcqs(old(w)) - done && OutdatedAcqs(w) == OutdatedAcqs(old(w)) - done
      ensures w == Refreshed(old(w), tx, todo) && forall t :: t in todo <==> t.AcqRow? && t.id in done
    {
      tx := tx + 1;
      done := LockBatch(DirtyAcqs(w));
      todo := RefreshAcqs(done);
    }

    // Brings the parent up to date first, then the entry.
    method RefreshOneEntry(e: Uuid)
      requires FixedOf(w).newerAcqs == {} && FixedOf(w).newerEntries == {} && e in DirtyEntries(w)
      modifies this`w
      ensures FixedOf(w) == FixedOf(old(w))
      ensures DirtyEntries(w) == DirtyEntries(old(w)) - {e} && OutdatedEntries(w) == OutdatedEntries(old(w)) - {e}
      ensures DirtyAcqs(w) <= DirtyAcqs(old(w)) && OutdatedAcqs(w) <= OutdatedAcqs(old(w))
      ensures w == RefreshedRow(old(w), tx, EntryRow(e))
    {
      var parent := NoParent;
      assert e !in FixedOf(w).newerEntries;
      if a :| a in w.acqs && w.acqs[a].link == Linked(e) {
        assert a !in FixedOf(w).newerAcqs;
        ParentIsUnique(w, e, a);
        if NeedsRefresh(w.acqs[a]) {
          RefreshAcqCleans(w, tx, a);
          RefreshAcqEffect(w, tx, a);
          w := RefreshAcq(w, tx, a);
          assert DirtyEntries(w) == DirtyEntries(old(w)) && OutdatedEntries(w) == OutdatedEntries(old(w));
        }
        parent := Parent(a, w.acqs[a].view);
        ParentIsUnique(w, e, a);
      }
      RefreshEntryCleans(w, e, parent);
      w := RefreshEntry(w, e, parent);
    }

    method RefreshEntries(ids: set<Uuid>) returns (ghost todo: seq<Target>)
      requires FixedOf(w).newerAcqs == {} && FixedOf(w).newerEntries == {} && ids <= DirtyEntries(w)
      modifies this`w
      ensures FixedOf(w) == FixedOf(old(w))
      ensures DirtyEntries(w) == DirtyEntries(old(w)) - ids && OutdatedEntries(w) == OutdatedEntries(old(w)) - ids
      ensures DirtyAcqs(w) <= DirtyAcqs(old(w)) && OutdatedAcqs(w) <= OutdatedAcqs(old(w))
      ensures w == Refreshed(old(w), tx, todo) && forall t :: t in todo <==> t.EntryRow? && t.id in ids
    {
      todo := [];
      ghost var was, fixed, dirty, outdated := w, FixedOf(w), DirtyEntries(w), OutdatedEntries(w);
      var rest := ids;
      while rest != {}
        invariant FixedOf(w) == fixed && rest <= ids <= dirty
        invariant DirtyEntries(w) == dirty - (ids - rest) && OutdatedEntries(w) == outdated - (ids - rest)
        invariant DirtyAcqs(w) <= DirtyAcqs(was) && OutdatedAcqs(w) <= OutdatedAcqs(was)
        invariant w == Refreshed(was, tx, todo) && forall t :: t in todo <==> t.EntryRow? && t.id in ids - rest
        decreases rest
      {
        var e :| e in rest;
        RefreshOneEntry(e);
        assert ids - (rest - {e}) == (ids - rest) + {e};
        assert (todo + [EntryRow(e)])[..|todo|] == todo;
        rest, todo := rest - {e}, todo + [EntryRow(e)];
      }
      assert ids - rest == ids;
    }

    method RefreshEntryBatch() returns (done: set<Uuid>, ghost todo: seq<Target>)
      requires FixedOf(w).newerAcqs == {} && FixedOf(w).newerEntries == {}
      modifies this
      ensures FixedOf(w) == FixedOf(old(w))
      ensures done <= DirtyEntries(old(w)) && |done| <= BATCH && (done == {} <==> DirtyEntries(old(w)) == {})
      ensures DirtyEntries(w) == DirtyEntries(old(w)) - done && OutdatedEntries(w) == OutdatedEntries(old(w)) - done
      ensures DirtyAcqs(w) <= DirtyAcqs(old(w)) && OutdatedAcqs(w) <= OutdatedAcqs(old(w))
      ensures w == Refreshed(old(w), tx, todo) && forall t :: t in todo <==> t.EntryRow? && t.id in done
    {
      tx := tx + 1;
      done := LockBatch(DirtyEntries(w));
      todo := RefreshEntries(done);
    }

    method ReconcileAcqs() returns (ok: bool)
      modifies this
      ensures FixedOf(w) == FixedOf(old(w))
      ensures ok <==> FixedOf(old(w)).newerAcqs == {}
      ensures ok ==> AcqsReady(w)
      ensures ok ==> forall a | a in w.acqs ::
                !w.acqs[a].dirty && w.acqs[a].model == VERSION && w.acqs[a].view == AcqView(VERSION, w.acqs[a].source)
    {
      if FixedOf(w).newerAcqs != {} { return false; }
      if AcqsReady(w) {
        ReadyAcqsAreCurrent(w);
        return true;
      }
      OutdateAcqs();
      var done, todo := RefreshAcqBatch();
      while done != {}
        invariant FixedOf(w) == FixedOf(old(w)) && OutdatedAcqs(w) <= DirtyAcqs(w)
        invariant done == {} ==> DirtyAcqs(w) == {}
        decreases DirtyAcqs(w), done
      {
        done, todo := RefreshAcqBatch();
      }
      ReadyAcqsAreCurrent(w);
      return true;
    }

    method ReconcileEntries() returns (ok: bool)
      requires FixedOf(w).newerAcqs == {} && AcqsReady(w)
      modifies this
      ensures FixedOf(w) == FixedOf(old(w)) && AcqsReady(w)
      ensures ok <==> FixedOf(old(w)).newerEntries == {}
      ensures ok ==> EntriesReady(w)
      ensures ok ==> forall e | e in w.entries :: !w.entries[e].dirty && w.entries[e].model == VERSION
      ensures ok ==> forall e, a | e in w.entries && a in w.acqs && w.acqs[a].link == Linked(e) ::
                w.entries[e].view
                == EntryView(VERSION, w.entries[e].source, Parent(a, AcqView(VERSION, w.acqs[a].source)))
    {
      if FixedOf(w).newerEntries != {} { return false; }
      if EntriesReady(w) {
        ReadyEntriesAreCurrent(w);
        return true;
      }
      OutdateEntries();
      var done, todo := RefreshEntryBatch();
      while done != {}
        invariant FixedOf(w) == FixedOf(old(w)) && AcqsReady(w) && OutdatedEntries(w) <= DirtyEntries(w)
        invariant done == {} ==> DirtyEntries(w) == {}
        decreases DirtyEntries(w), done
      {
        done, todo := RefreshEntryBatch();
      }
      ReadyEntriesAreCurrent(w);
      return true;
    }

    // Terminates; succeeds unless a newer binary owns a row; on success neither
    // list needs a refresh, and since the store is sound every row is current.
    method ReconcileListProjections() returns (ok: bool)
      modifies this
      ensures FixedOf(w) == FixedOf(old(w))
      ensures ok <==> && (forall a | a in old(w).acqs :: old(w).acqs[a].model <= VERSION)
                      && (forall e | e in old(w).entries :: old(w).entries[e].model <= VERSION)
      ensures w.acqs.Keys == old(w).acqs.Keys && w.entries.Keys == old(w).entries.Keys
      ensures forall a | a in w.acqs ::
                w.acqs[a].source == old(w).acqs[a].source && w.acqs[a].link == old(w).acqs[a].link
      ensures forall e | e in w.entries :: w.entries[e].source == old(w).entries[e].source
      ensures ok ==> forall a | a in w.acqs ::
                !w.acqs[a].dirty && w.acqs[a].model == VERSION && w.acqs[a].view == AcqView(VERSION, w.acqs[a].source)
      ensures ok ==> forall e | e in w.entries :: !w.entries[e].dirty && w.entries[e].model == VERSION
      ensures ok ==> forall e, a | e in w.entries && a in w.acqs && w.acqs[a].link == Linked(e) ::
                w.entries[e].view
                == EntryView(VERSION, w.entries[e].source, Parent(a, AcqView(VERSION, w.acqs[a].source)))
      ensures ok ==> forall e | e in w.entries && (forall a | a in w.acqs :: w.acqs[a].link != Linked(e)) ::
                w.entries[e].view == EntryView(VERSION, w.entries[e].source, NoParent)
    {
      NewerIff(w);
      ghost var was: World := w;
      ok := ReconcileAcqs();
      if ok {
        ok := ReconcileEntries();
        if ok {
          ReadyAcqsAreCurrent(w);
          ReadyEntriesAreCurrent(w);
        }
      }
      SameSources(was, w);
    }
  }
}
