// Real-time target checks: which check may record a fulfilment, why expiring old checks is invisible,
// and why an occupied-target write made under an authoritative check always leaves its row valid.
module RealtimeChecks {
  import opened Common
  import F = Fulfilment

  const SECOND: Time := 1_000_000
  const FRESHNESS: Time := 30 * SECOND
  const RETENTION: Time := 600 * SECOND

  datatype CheckKey = CheckKey(target: Uuid, id: Uuid)
  datatype Check = Check(present: bool, at: Time)
  type Checks = map<CheckKey, Check>

  // ---------------------------------------------------------------- queries

  predicate Authoritative(c: Checks, x: Uuid, id: Uuid, now: Time) {
    var k := CheckKey(x, id);
    && k in c
    && c[k].present
    && c[k].at >= now - FRESHNESS
    && !exists n | n in c ::
         && n.target == x && n.id != id
         && (c[n].at > c[k].at || (c[n].at == c[k].at && c[n].present != c[k].present))
  }

  // realtime_check_valid, realtime_catalog_present and realtime_checked_at of the occupancy query.
  function CheckInForce(c: Checks, x: Uuid, id: Uuid, now: Time): Option<Check> {
    var k := CheckKey(x, id);
    if k in c && c[k].at >= now - FRESHNESS then Some(c[k]) else None
  }

  // Catalogue fulfilments that check `id` reports absent.
  function Stale(c: Checks, rows: map<F.Key, F.Row>, id: Uuid, now: Time): set<F.Key> {
    set k | k in rows && k.source == F.EmbyCatalog
            && CheckInForce(c, k.target, id, now).Some? && !CheckInForce(c, k.target, id, now).value.present
  }

  // ---------------------------------------------------------------- statements

  datatype Event =
    | Upsert(target: Uuid, id: Uuid, present: bool, at: Time)
    | Expire(now: Time)

  function Expired(c: Checks, now: Time): Checks {
    map k | k in c && c[k].at >= now - RETENTION :: c[k]
  }

  function Apply(c: Checks, e: Event): Checks {
    match e
    case Upsert(x, id, present, at) => c[CheckKey(x, id) := Check(present, at)]
    case Expire(now) => Expired(c, now)
  }

  function Run(c: Checks, events: seq<Event>): Checks {
    if events == [] then c else Apply(Run(c, events[..|events| - 1]), events[|events| - 1])
  }

  class CheckTable {
    var checks: Checks

    constructor ()
      ensures checks == map[]
    {
      checks := map[];
    }

    method UpsertCheck(x: Uuid, id: Uuid, present: bool, at: Time)
      modifies this
      ensures checks == Apply(old(checks), Upsert(x, id, present, at))
    {
      checks := checks[CheckKey(x, id) := Check(present, at)];
    }

    method DeleteExpired(now: Time)
      modifies this
      ensures checks == Apply(old(checks), Expire(now))
      ensures forall k :: k in checks <==> k in old(checks) && now - old(checks)[k].at <= 600_000_000
      ensures forall k | k in checks :: checks[k] == old(checks)[k]
    {
      var old_ := set k | k in checks && checks[k].at < now - RETENTION;
      checks := checks - old_;
    }
  }

  // ---------------------------------------------------------------- authority

  predicate IsLatest(c: Checks, k: CheckKey) {
    k in c && forall n | n in c && n.target == k.target :: c[n].at <= c[k].at
  }

  // Authority says exactly: recent, latest for its target, and every latest check says present.
  lemma AuthorityIsUnanimousLatest(c: Checks, x: Uuid, id: Uuid, now: Time)
    ensures Authoritative(c, x, id, now) <==>
            && IsLatest(c, CheckKey(x, id))
            && now - c[CheckKey(x, id)].at <= 30_000_000
            && forall n: CheckKey | n.target == x && IsLatest(c, n) :: c[n].present
  {
    var k := CheckKey(x, id);
    if Authoritative(c, x, id, now) {
      forall n | n in c && n.target == x ensures c[n].at <= c[k].at {
      }
      assert IsLatest(c, k);
      forall n: CheckKey | n.target == x && IsLatest(c, n) ensures c[n].present {
        assert c[k].at <= c[n].at;
      }
    }
  }

  // Two checks that are authoritative together agree in time and verdict, and every absent check is older.
  lemma AuthoritiesAgree(c: Checks, x: Uuid, a: Uuid, b: Uuid, now: Time, now': Time)
    requires Authoritative(c, x, a, now) && Authoritative(c, x, b, now')
    ensures c[CheckKey(x, a)] == c[CheckKey(x, b)] && c[CheckKey(x, a)].present
    ensures forall n | n in c && n.target == x && !c[n].present :: c[n].at < c[CheckKey(x, a)].at
  {
    AuthorityIsUnanimousLatest(c, x, a, now);
    AuthorityIsUnanimousLatest(c, x, b, now');
  }

  // ---------------------------------------------------------------- expiry is invisible

  // `c` is `d` minus rows too old to matter at `now`.
  ghost predicate Trimmed(c: Checks, d: Checks, now: Time) {
    && (forall k | k in c :: k in d && c[k] == d[k])
    && (forall k | k in d && d[k].at >= now - RETENTION :: k in c)
  }

  // The same run without its expiry statements.
  function WithoutExpiry(events: seq<Event>): seq<Event> {
    if events == [] then []
    else
      var init, e := WithoutExpiry(events[..|events| - 1]), events[|events| - 1];
      if e.Expire? then init else init + [e]
  }

  predicate ExpiredBy(events: seq<Event>, now: Time) {
    forall i | 0 <= i < |events| && events[i].Expire? :: events[i].now <= now
  }

  lemma {:induction false} ExpiryTrims(c: Checks, events: seq<Event>, now: Time)
    requires ExpiredBy(events, now)
    ensures Trimmed(Run(c, events), Run(c, WithoutExpiry(events)), now)
  {
    if events != [] {
      var init, e := events[..|events| - 1], events[|events| - 1];
      ExpiryTrims(c, init, now);
      if e.Upsert? {
        assert (WithoutExpiry(init) + [e])[..|WithoutExpiry(init)|] == WithoutExpiry(init);
      }
    }
  }

  // Deleting expired checks changes no later answer: authority, check in force and stale listing are those
  // of the run that never deletes, at every time not before the deletions.
  lemma ExpiryIsInvisible(c: Checks, events: seq<Event>, rows: map<F.Key, F.Row>, x: Uuid, id: Uuid, now: Time)
    requires ExpiredBy(events, now)
    ensures
      var kept, all := Run(c, events), Run(c, WithoutExpiry(events));
      && (Authoritative(kept, x, id, now) <==> Authoritative(all, x, id, now))
      && CheckInForce(kept, x, id, now) == CheckInForce(all, x, id, now)
      && Stale(kept, rows, id, now) == Stale(all, rows, id, now)
  {
    ExpiryTrims(c, events, now);
    var kept, all := Run(c, events), Run(c, WithoutExpiry(events));
    forall y: Uuid ensures CheckInForce(kept, y, id, now) == CheckInForce(all, y, id, now) {
    }
    assert Stale(kept, rows, id, now) == Stale(all, rows, id, now);
    var k := CheckKey(x, id);
    if k in kept && k in all && all[k].at >= now - FRESHNESS {
      forall n | n in all && all[n].at >= all[k].at ensures n in kept {
      }
    }
  }

  // A check no older than half a minute that reports a target absent lists every catalogue fulfilment of that target
  // as stale; a present or older one lists none, and no check lists a managed import.
  lemma StaleIff(c: Checks, rows: map<F.Key, F.Row>, id: Uuid, now: Time, k: F.Key)
    ensures k in Stale(c, rows, id, now) <==>
              && k in rows && k.source == F.EmbyCatalog && CheckKey(k.target, id) in c
              && !c[CheckKey(k.target, id)].present && now - c[CheckKey(k.target, id)].at <= 30_000_000
  {
  }

  // ---------------------------------------------------------------- checks and fulfilments together

  // Checks and fulfilment tables under the shared target lock. `clock` is the latest time any step read.
  datatype World = World(checks: Checks, tables: F.Tables, clock: Time)

  datatype Move =
    | Observe(target: Uuid, id: Uuid, present: bool, at: Time, now: Time)
    | Settle(step: F.Step, now: Time)
    | Occupy(entry: Uuid, target: Uuid, id: Uuid, reason: string, now: Time)

  // A move is possible when the clock does not run back and a check identifier is used once per target. An
  // occupied-target write that carries a check is made only while that check is authoritative; a write without
  // one (a Settle) is made as it is.
  predicate Enabled(w: World, m: Move) {
    && w.clock <= m.now
    && match m
       case Observe(x, id, _, _, _) => CheckKey(x, id) !in w.checks
       case Settle(s, _) => !s.Refresh?
       case Occupy(_, x, id, _, now) => Authoritative(w.checks, x, id, now)
  }

  // Observing expires old checks, records the new one and refreshes the rows, in one transaction.
  function Next(w: World, m: Move): World
    requires Enabled(w, m)
  {
    match m
    case Observe(x, id, present, at, now) =>
      World(Expired(w.checks, now)[CheckKey(x, id) := Check(present, at)],
            F.Apply(w.tables, F.Refresh(x, present, at)), now)
    case Settle(s, now) => w.(tables := F.Apply(w.tables, s), clock := now)
    case Occupy(e, x, id, reason, now) =>
      w.(tables := F.Apply(w.tables, OccupyStep(w.checks, e, x, id, reason, now)), clock := now)
  }

  function OccupyStep(c: Checks, e: Uuid, x: Uuid, id: Uuid, reason: string, now: Time): F.Step
    requires CheckKey(x, id) in c
  {
    F.MarkOccupied(e, true, x, reason, F.EmbyCatalog, Some(c[CheckKey(x, id)].at), now)
  }

  // A check on record still explains an invalidation at time i of target x.
  ghost predicate OnRecord(c: Checks, x: Uuid, i: Time) {
    exists n | n in c :: n.target == x && !c[n].present && c[n].at == i
  }

  // Every invalidation is explained by an absent check on record, or is older than the retention.
  ghost predicate Explained(w: World) {
    forall k | k in w.tables.rows && k.source == F.EmbyCatalog && w.tables.rows[k].invalidatedAt.Some? ::
      var i := w.tables.rows[k].invalidatedAt.value;
      i < w.clock - RETENTION || OnRecord(w.checks, k.target, i)
  }

  lemma RecordSurvivesObserve(w: World, m: Move, x: Uuid, i: Time)
    requires Enabled(w, m) && m.Observe?
    requires i < w.clock - RETENTION || OnRecord(w.checks, x, i)
    ensures i < m.now - RETENTION || OnRecord(Next(w, m).checks, x, i)
  {
    if i >= m.now - RETENTION {
      var n :| n in w.checks && n.target == x && !w.checks[n].present && w.checks[n].at == i;
      assert n in Next(w, m).checks;
    }
  }

  lemma MovesKeepExplained(w: World, m: Move)
    requires Explained(w) && Enabled(w, m)
    ensures Explained(Next(w, m))
  {
    var w' := Next(w, m);
    forall k | k in w'.tables.rows && k.source == F.EmbyCatalog && w'.tables.rows[k].invalidatedAt.Some?
      ensures
        var i := w'.tables.rows[k].invalidatedAt.value;
        i < w'.clock - RETENTION || OnRecord(w'.checks, k.target, i)
    {
      var i := w'.tables.rows[k].invalidatedAt.value;
      if m.Observe? {
        if w.tables.rows[k].invalidatedAt == Some(i) {
          RecordSurvivesObserve(w, m, k.target, i);
        } else {
          assert CheckKey(m.target, m.id) in w'.checks && i == m.at && !m.present;
        }
      } else {
        assert k in w.tables.rows && w.tables.rows[k].invalidatedAt == Some(i);
      }
    }
  }

  // A fresh report of absence is consistent with the rows: what it lists as stale, it has itself invalidated, unless
  // a later presence is on the row.
  lemma AbsenceInvalidatesStale(w: World, m: Move, k: F.Key)
    requires Enabled(w, m) && m.Observe? && !m.present && k.target == m.target
    requires k in Stale(Next(w, m).checks, Next(w, m).tables.rows, m.id, m.now)
    ensures m.now - FRESHNESS <= m.at
    ensures var row := Next(w, m).tables.rows[k]; row.invalidatedAt.Some? || row.verifiedAt > m.at
  {
    StaleIff(Next(w, m).checks, Next(w, m).tables.rows, m.id, m.now, k);
  }

  predicate Possible(w: World, moves: seq<Move>)
    decreases |moves|
  {
    moves == [] || (Enabled(w, moves[0]) && Possible(Next(w, moves[0]), moves[1..]))
  }

  function Play(w: World, moves: seq<Move>): World
    requires Possible(w, moves)
    decreases |moves|
  {
    if moves == [] then w else Play(Next(w, moves[0]), moves[1..])
  }

  // Main result: in every run, a fulfilment recorded under an authoritative check leaves its row valid at
  // the check's time or later, whatever absences were observed before, in whatever order.
  lemma {:induction false} AuthoritativeWriteIsValid(w: World, moves: seq<Move>, e: Uuid, x: Uuid, id: Uuid,
                                                     reason: string, now: Time)
    requires Explained(w) && Possible(w, moves)
    requires
      var u := Play(w, moves);
      e in u.tables.entries && u.clock <= now && Authoritative(u.checks, x, id, now)
    ensures
      var u := Play(w, moves);
      var rows := Next(u, Occupy(e, x, id, reason, now)).tables.rows;
      var k := F.Key(e, x, F.EmbyCatalog);
      k in rows && rows[k].invalidatedAt.None? && rows[k].verifiedAt >= u.checks[CheckKey(x, id)].at
    decreases |moves|
  {
    if moves == [] {
      var k := F.Key(e, x, F.EmbyCatalog);
      if k in w.tables.rows && w.tables.rows[k].invalidatedAt.Some? {
        var i := w.tables.rows[k].invalidatedAt.value;
        if OnRecord(w.checks, x, i) {
          AuthoritiesAgree(w.checks, x, id, id, now, now);
        }
        assert i <= w.checks[CheckKey(x, id)].at;
      }
    } else {
      MovesKeepExplained(w, moves[0]);
      AuthoritativeWriteIsValid(Next(w, moves[0]), moves[1..], e, x, id, reason, now);
    }
  }
}
