// One RSS subscription: polling, completion, archiving and the fenced
// application of pre-acquisition mapping scopes.
module Subscriptions {
  import opened Common
  import Fulfilment

  // A nullable timestamp and a nullable profile.
  datatype Stamp = Never | At(t: Time)

  datatype Profile = NoProfile | Profile(id: Uuid)

  datatype Sub = Sub(
    profile: Profile, enabled: bool, interval: nat, nextPoll: Stamp, archived: bool, completed: Stamp, version: int)

  datatype ScopeStatus = Pending | Applied | Expired

  // A mapping proposal made for one version of the subscription.
  datatype Scope = Scope(version: int, fingerprint: nat, status: ScopeStatus)

  datatype World = World(sub: Sub, scopes: map<Uuid, Scope>)

  function Created(enabled: bool, profile: Profile, interval: nat, now: Time): World {
    World(Sub(profile, enabled, interval, if enabled then At(now) else Never, false, Never, 1), map[])
  }

  // ---------------------------------------------------------------- statements

  predicate Open(s: Sub) { s.enabled && !s.archived && s.completed.Never? }

  function Scheduled(s: Sub, now: Time): Stamp { if s.enabled then At(now + s.interval) else Never }

  function Archived(s: Sub, expected: int): Sub {
    if s.version == expected && !s.archived
    then s.(enabled := false, nextPoll := Never, archived := true, version := s.version + 1) else s
  }

  function Completed(s: Sub, expected: int, now: Time): Sub {
    if s.version == expected && !s.archived && s.completed.Never?
    then s.(enabled := false, nextPoll := Never, completed := At(now), version := s.version + 1) else s
  }

  function Retained(s: Sub, now: Time): Sub {
    if s.archived
    then s.(enabled := false, nextPoll := Never, archived := false, version := s.version + 1,
            completed := if s.completed.Never? then At(now) else s.completed)
    else s
  }

  function Updated(s: Sub, enabled: bool, profile: Profile, interval: nat, expected: int, now: Time): Sub {
    if s.version == expected && !s.archived && (s.completed.Never? || !enabled)
    then s.(enabled := enabled, profile := profile, interval := interval, version := s.version + 1,
            nextPoll := if !enabled then Never else if s.nextPoll.Never? then At(now) else s.nextPoll)
    else s
  }

  function ApplyProfile(s: Sub, scope: Scope, profile: Uuid, expected: int): Option<Sub> {
    if scope.status.Pending? && scope.version == s.version == expected && s.profile.NoProfile? && Open(s)
    then Some(s.(profile := Profile(profile), version := s.version + 1)) else None
  }

  function CompleteScope(scopes: map<Uuid, Scope>, id: Uuid): map<Uuid, Scope> {
    if id in scopes && scopes[id].status.Pending? then scopes[id := scopes[id].(status := Applied)] else scopes
  }

  function ExpireOthers(scopes: map<Uuid, Scope>, id: Uuid): map<Uuid, Scope> {
    map k | k in scopes ::
      if k != id && scopes[k].status.Pending? then scopes[k].(status := Expired) else scopes[k]
  }

  function ExpireStale(scopes: map<Uuid, Scope>, version: int, fingerprint: nat): map<Uuid, Scope> {
    map k | k in scopes ::
      if scopes[k].status.Pending? && (scopes[k].version != version || scopes[k].fingerprint != fingerprint)
      then scopes[k].(status := Expired) else scopes[k]
  }

  function ExpireInactive(w: World): map<Uuid, Scope> {
    map k | k in w.scopes ::
      if w.scopes[k].status.Pending?
         && (w.sub.profile.Profile? || !w.sub.enabled || w.sub.archived || !w.sub.completed.Never?
             || w.scopes[k].version != w.sub.version)
      then w.scopes[k].(status := Expired) else w.scopes[k]
  }

  // The unique key (subscription, version, fingerprint): an existing row is returned unchanged.
  predicate Known(scopes: map<Uuid, Scope>, version: int, fingerprint: nat) {
    exists k :: k in scopes && scopes[k].version == version && scopes[k].fingerprint == fingerprint
  }

  lemma KnownStays(scopes: map<Uuid, Scope>, version: int, fingerprint: nat)
    ensures Known(ExpireStale(scopes, version, fingerprint), version, fingerprint)
            <==> Known(scopes, version, fingerprint)
  {
    var kept := ExpireStale(scopes, version, fingerprint);
    if k :| k in scopes && scopes[k].version == version && scopes[k].fingerprint == fingerprint {
      assert k in kept && kept[k].version == version && kept[k].fingerprint == fingerprint;
    }
    if k :| k in kept && kept[k].version == version && kept[k].fingerprint == fingerprint {
      assert k in scopes && scopes[k].version == version && scopes[k].fingerprint == fingerprint;
    }
  }

  // --------------------------------------------------------------------- steps

  datatype Step =
    | Advance(now: Time)
    | Poll(now: Time)                     // recorded poll, successful or failed
    | Archive(expected: int)
    | Complete(expected: int, now: Time)
    | Retain(now: Time)
    | Update(enabled: bool, newProfile: Profile, interval: nat, expected: int, now: Time)
    | AssignProfile(profile: Uuid)        // from a mapped acquisition, without a version check
    | AssignOnPoll(profile: Uuid, expected: int, fingerprint: nat)
    | Propose(scope: Uuid, fingerprint: nat)
    | ApplyScope(scope: Uuid, profile: Uuid, expected: int)
    | Sweep

  function Next(w: World, s: Step): World {
    var sub := w.sub;
    match s
    case Advance(now) =>
      if Open(sub) && sub.nextPoll.At? && sub.nextPoll.t <= now
      then w.(sub := sub.(nextPoll := At(now + sub.interval))) else w
    case Poll(now) =>
      if !sub.archived && sub.completed.Never? then w.(sub := sub.(nextPoll := Scheduled(sub, now))) else w
    case Archive(expected) => w.(sub := Archived(sub, expected))
    case Complete(expected, now) => w.(sub := Completed(sub, expected, now))
    case Retain(now) => w.(sub := Retained(sub, now))
    case Update(enabled, profile, interval, expected, now) =>
      w.(sub := Updated(sub, enabled, profile, interval, expected, now))
    case AssignProfile(profile) =>
      if !sub.archived then w.(sub := sub.(profile := Profile(profile), version := sub.version + 1)) else w
    case AssignOnPoll(profile, expected, fingerprint) =>
      if sub.version == expected && sub.profile.NoProfile? && Open(sub)
      then World(sub.(profile := Profile(profile), version := sub.version + 1),
                 ExpireStale(w.scopes, sub.version + 1, fingerprint))
      else w
    case Propose(id, fingerprint) =>
      var kept := ExpireStale(w.scopes, sub.version, fingerprint);
      if id in w.scopes then w
      else w.(scopes := if Known(w.scopes, sub.version, fingerprint) then kept
                        else kept[id := Scope(sub.version, fingerprint, Pending)])
    case ApplyScope(id, profile, expected) =>
      if id in w.scopes && w.scopes[id].status.Pending? && w.scopes[id].version == sub.version == expected
         && sub.profile.NoProfile? && Open(sub)
      then World(sub.(profile := Profile(profile), version := sub.version + 1),
                 ExpireOthers(w.scopes, id)[id := w.scopes[id].(status := Applied)])
      else w
    case Sweep => w.(scopes := ExpireInactive(w))
  }

  function Run(w: World, steps: seq<Step>): World {
    if steps == [] then w else Next(Run(w, steps[..|steps| - 1]), steps[|steps| - 1])
  }

  // The transactions that touch several rows, statement by statement.
  class SubscriptionStore {
    var sub: Sub
    var scopes: map<Uuid, Scope>

    ghost function Value(): World
      reads this
    {
      World(sub, scopes)
    }

    constructor (enabled: bool, profile: Profile, interval: nat, now: Time)
      ensures Value() == Created(enabled, profile, interval, now)
    {
      sub := Sub(profile, enabled, interval, if enabled then At(now) else Never, false, Never, 1);
      scopes := map[];
    }

    method ApplyMapping(id: Uuid, profile: Uuid, expected: int) returns (applied: bool)
      modifies this
      ensures Value() == Next(old(Value()), ApplyScope(id, profile, expected))
      ensures applied <==> Value() != old(Value())
    {
      if id !in scopes { return false; }
      var updated := ApplyProfile(sub, scopes[id], profile, expected);
      if updated.None? { return false; }
      sub := updated.value;
      scopes := CompleteScope(scopes, id);
      scopes := ExpireOthers(scopes, id);
      return true;
    }

    // The subscription row is locked, so its version is the current one.
    method ProposeMapping(id: Uuid, fingerprint: nat) returns (ok: bool)
      modifies this
      ensures Value() == Next(old(Value()), Propose(id, fingerprint))
      ensures ok <==> id !in old(scopes)
    {
      if id in scopes { return false; }
      KnownStays(scopes, sub.version, fingerprint);
      scopes := ExpireStale(scopes, sub.version, fingerprint);
      if !Known(scopes, sub.version, fingerprint) {
        scopes := scopes[id := Scope(sub.version, fingerprint, Pending)];
      }
      return true;
    }

    // Called after a fulfilment was recorded; marks the subscription when its
    // expected episodes are all there.
    method CompleteIfMet(plan: Plan, tables: Fulfilment.Tables, peers: set<Uuid>, now: Time) returns (done: bool)
      modifies this`sub
      ensures done <==> !old(sub).archived && old(sub).completed.Never? && Met(plan, tables, peers)
      ensures Value() == if done then Next(old(Value()), Complete(old(sub).version, now)) else old(Value())
      // An anchored plan: the series has ended, and every episode up to each mapped one is there.
      ensures plan.anchored && !old(sub).archived && old(sub).completed.Never? ==>
                (done <==>
                   && plan.ended && (exists e :: e in plan.mapped && e > 0)
                   && forall e, i | e in plan.mapped && 1 <= i <= e :: Available(plan, tables, peers, i))
      // A plan with a season length: every episode up to that length is there.
      ensures !plan.anchored && !old(sub).archived && old(sub).completed.Never? ==>
                (done <==>
                   && plan.length.Some? && plan.length.value > 0
                   && forall i | 1 <= i <= plan.length.value :: Available(plan, tables, peers, i))
      ensures done ==> sub.completed == At(now) && !sub.enabled && sub.nextPoll.Never?
    {
      MetIff(plan, tables, peers);
      if sub.archived || !sub.completed.Never? || !Met(plan, tables, peers) { return false; }
      sub := Completed(sub, sub.version, now);
      return true;
    }
  }

  // ----------------------------------------------------------------- lifecycle

  predicate Consistent(s: Sub) {
    && (s.enabled <==> s.nextPoll.At?)
    && (s.archived || s.completed.At? ==> !s.enabled)
  }

  predicate Finished(s: Sub) { s.archived || s.completed.At? }

  lemma NextKeepsLifecycle(w: World, s: Step)
    requires Consistent(w.sub)
    ensures Consistent(Next(w, s).sub)
    ensures w.sub.version <= Next(w, s).sub.version
    ensures w.sub.completed.At? ==> Next(w, s).sub.completed == w.sub.completed
    ensures Finished(w.sub) ==> Finished(Next(w, s).sub)
  {
  }

  // Over all runs: enabled exactly when a poll is due, completed or archived
  // implies disabled, the completion time is final, and a subscription that was
  // ever archived or completed is never polled again.
  lemma {:induction false} LifecycleOverRuns(w: World, steps: seq<Step>)
    requires Consistent(w.sub)
    ensures Consistent(Run(w, steps).sub)
    ensures w.sub.version <= Run(w, steps).sub.version
    ensures w.sub.completed.At? ==> Run(w, steps).sub.completed == w.sub.completed
    ensures Finished(w.sub) ==> Finished(Run(w, steps).sub) && Run(w, steps).sub.nextPoll.Never?
  {
    if steps != [] {
      LifecycleOverRuns(w, steps[..|steps| - 1]);
      NextKeepsLifecycle(Run(w, steps[..|steps| - 1]), steps[|steps| - 1]);
    }
  }

  // What changes only with the version, one at a time: everything a mapping proposal depends on.
  predicate SameControl(a: Sub, b: Sub) {
    a.profile == b.profile && a.enabled == b.enabled && a.archived == b.archived && a.completed == b.completed
  }

  // A step leaves the version and the controlled columns alone, or raises the version by one.
  lemma VersionTracksControl(w: World, s: Step)
    ensures var n := Next(w, s).sub;
            && w.sub.version <= n.version <= w.sub.version + 1
            && (n.version == w.sub.version ==> SameControl(w.sub, n) && n.interval == w.sub.interval)
  {
  }

  // Over every run an unchanged version means unchanged columns, so a version check notices every change between
  // a proposal and its application.
  lemma {:induction false} UnchangedVersionIsUnchanged(w: World, steps: seq<Step>)
    ensures w.sub.version <= Run(w, steps).sub.version
    ensures Run(w, steps).sub.version == w.sub.version ==> SameControl(w.sub, Run(w, steps).sub)
  {
    if steps != [] {
      UnchangedVersionIsUnchanged(w, steps[..|steps| - 1]);
      VersionTracksControl(Run(w, steps[..|steps| - 1]), steps[|steps| - 1]);
    }
  }

  // A due poll is claimed exactly once: claiming it takes effect iff the subscription is open and due, and moves
  // the next one a full interval on, so a second claim before that finds nothing.
  lemma PollIsClaimedOnce(w: World, now: Time, later: Time)
    requires w.sub.interval > 0
    ensures var n := Next(w, Advance(now));
            && (n != w <==> w.sub.enabled && !w.sub.archived && w.sub.completed.Never? && w.sub.nextPoll.At?
                            && w.sub.nextPoll.t <= now)
            && (n != w ==> n.sub.nextPoll == At(now + w.sub.interval) && n == w.(sub := n.sub)
                           && n.sub == w.sub.(nextPoll := n.sub.nextPoll))
            && (n != w && now <= later < now + w.sub.interval ==> Next(n, Advance(later)) == n)
  {
  }

  // A recorded poll schedules the next one an interval later, unless the subscription is over or disabled.
  lemma PollSchedulesNext(w: World, now: Time)
    ensures var n := Next(w, Poll(now));
            n == w.(sub := w.sub.(nextPoll := n.sub.nextPoll))
            && n.sub.nextPoll == (if w.sub.archived || w.sub.completed.At? then w.sub.nextPoll
                                  else if w.sub.enabled then At(now + w.sub.interval) else Never)
  {
  }

  // A profile reaches the subscription from an acquisition whenever it is not archived, and from a poll only when it
  // has none, is open and unchanged; then no proposal made for the old version stays pending.
  lemma AssignmentIff(w: World, profile: Uuid, expected: int, fingerprint: nat)
    ensures Next(w, AssignProfile(profile)) ==
              if w.sub.archived then w
              else w.(sub := w.sub.(profile := Profile(profile), version := w.sub.version + 1))
    ensures var n := Next(w, AssignOnPoll(profile, expected, fingerprint));
            if && w.sub.version == expected && w.sub.profile.NoProfile? && w.sub.enabled && !w.sub.archived
               && w.sub.completed.Never?
            then && n.sub == w.sub.(profile := Profile(profile), version := w.sub.version + 1)
                 && n.scopes.Keys == w.scopes.Keys
                 && forall k | k in n.scopes && n.scopes[k].status.Pending? ::
                      n.scopes[k].version == w.sub.version + 1 && n.scopes[k].fingerprint == fingerprint
            else n == w
  {
  }

  // The commands that end a subscription, or bring it back, take effect exactly when they should.
  lemma EndingCommands(w: World, expected: int, now: Time)
    ensures var n := Next(w, Archive(expected)).sub;
            && (n != w.sub <==> w.sub.version == expected && !w.sub.archived)
            && (n != w.sub ==> n.archived && !n.enabled && n.completed == w.sub.completed && n.profile == w.sub.profile)
    ensures var n := Next(w, Complete(expected, now)).sub;
            && (n != w.sub <==> w.sub.version == expected && !w.sub.archived && w.sub.completed.Never?)
            && (n != w.sub ==> n.completed == At(now) && !n.enabled && !n.archived && n.profile == w.sub.profile)
    ensures var n := Next(w, Retain(now)).sub;
            && (n != w.sub <==> w.sub.archived)
            && (n != w.sub ==> !n.archived && !n.enabled && n.profile == w.sub.profile
                               && n.completed == (if w.sub.completed.At? then w.sub.completed else At(now)))
  {
  }

  // An edit takes effect at the expected version unless the subscription is archived, or completed and would be
  // enabled; it stores what it was given.
  lemma UpdateIff(w: World, s: Step)
    requires s.Update?
    ensures var n := Next(w, s).sub;
            && (n != w.sub <==>
                  w.sub.version == s.expected && !w.sub.archived && (w.sub.completed.Never? || !s.enabled))
            && (n != w.sub ==> n.enabled == s.enabled && n.profile == s.newProfile && n.interval == s.interval
                               && n.archived == w.sub.archived && n.completed == w.sub.completed
                               && n.nextPoll == (if !s.enabled then Never
                                                 else if w.sub.nextPoll.At? then w.sub.nextPoll else At(s.now)))
  {
  }

  // ------------------------------------------------------------------- fencing

  // The query that decides whether a scope is still worth resolving.
  predicate IsCurrent(w: World, id: Uuid) {
    id in w.scopes && w.scopes[id].status.Pending? && w.sub.enabled && w.sub.profile.NoProfile?
    && !w.sub.archived && w.sub.completed.Never? && w.scopes[id].version == w.sub.version
  }

  lemma AppliesIffCurrent(w: World, id: Uuid, profile: Uuid)
    ensures Next(w, ApplyScope(id, profile, w.sub.version)) != w <==> IsCurrent(w, id)
  {
  }

  // After a sweep the pending proposals are exactly those that can still be applied, and those were pending before.
  lemma SweepIff(w: World, id: Uuid)
    requires id in w.scopes
    ensures var n := Next(w, Sweep);
            && n.sub == w.sub && n.scopes.Keys == w.scopes.Keys
            && (n.scopes[id].status.Pending? <==> IsCurrent(w, id))
            && (n.scopes[id] == w.scopes[id] || (w.scopes[id].status.Pending? && n.scopes[id].status.Expired?))
  {
  }

  // A proposal is recorded as pending for the current version unless that version has one with the same content;
  // then only that one stays pending.
  lemma ProposeIff(w: World, id: Uuid, fingerprint: nat)
    requires id !in w.scopes
    ensures var n, version := Next(w, Propose(id, fingerprint)), w.sub.version;
            && n.sub == w.sub
            && (id in n.scopes <==> forall k | k in w.scopes ::
                                      w.scopes[k].version != version || w.scopes[k].fingerprint != fingerprint)
            && (id in n.scopes ==> n.scopes[id] == Scope(version, fingerprint, Pending))
            && (forall k | k in n.scopes && n.scopes[k].status.Pending? ::
                  n.scopes[k].version == version && n.scopes[k].fingerprint == fingerprint)
            && (forall k | k in w.scopes ::
                  && k in n.scopes && n.scopes[k].version == w.scopes[k].version
                  && (n.scopes[k] == w.scopes[k] || (w.scopes[k].status.Pending? && n.scopes[k].status.Expired?))
                  && (w.scopes[k].version == version && w.scopes[k].fingerprint == fingerprint ==>
                        n.scopes[k] == w.scopes[k]))
  {
    KnownStays(w.scopes, w.sub.version, fingerprint);
    assert forall k | k in w.scopes && w.scopes[k].version == w.sub.version && w.scopes[k].fingerprint == fingerprint ::
             Known(w.scopes, w.sub.version, fingerprint);
  }

  // Applying a proposal assigns its profile and leaves no other proposal pending.
  lemma ApplyLeavesNonePending(w: World, id: Uuid, profile: Uuid)
    requires IsCurrent(w, id)
    ensures var n := Next(w, ApplyScope(id, profile, w.sub.version));
            && n.sub == w.sub.(profile := Profile(profile), version := w.sub.version + 1)
            && n.scopes.Keys == w.scopes.Keys && n.scopes[id].status.Applied?
            && forall k | k in n.scopes && k != id ::
                 n.scopes[k].status == if w.scopes[k].status.Pending? then Expired else w.scopes[k].status
  {
  }

  predicate Fenced(w: World) {
    && (forall k | k in w.scopes :: w.scopes[k].version <= w.sub.version)
    && (forall k | k in w.scopes :: w.scopes[k].status.Applied? ==> w.scopes[k].version < w.sub.version)
    && (forall k, j | k in w.scopes && j in w.scopes && k != j
                      && w.scopes[k].status.Applied? && w.scopes[j].status.Applied? ::
          w.scopes[k].version != w.scopes[j].version)
  }

  // Expiring scopes and raising the version cannot break the fence.
  lemma ExpiryKeepsFenced(w: World, n: World)
    requires Fenced(w) && w.sub.version <= n.sub.version
    requires forall k | k in n.scopes :: k in w.scopes && n.scopes[k].version == w.scopes[k].version
    requires forall k | k in n.scopes :: n.scopes[k].status.Applied? ==> w.scopes[k].status.Applied?
    ensures Fenced(n)
  {
  }

  lemma ApplyKeepsFenced(w: World, n: World, id: Uuid)
    requires Fenced(w) && id in w.scopes && w.scopes[id].version == w.sub.version < n.sub.version
    requires forall k | k in n.scopes :: k in w.scopes && n.scopes[k].version == w.scopes[k].version
    requires forall k | k in n.scopes && k != id :: n.scopes[k].status.Applied? ==> w.scopes[k].status.Applied?
    ensures Fenced(n)
  {
  }

  lemma ProposeKeepsFenced(w: World, id: Uuid, fingerprint: nat)
    requires Fenced(w)
    ensures Fenced(Next(w, Propose(id, fingerprint)))
  {
    var kept := w.(scopes := ExpireStale(w.scopes, w.sub.version, fingerprint));
    ExpiryKeepsFenced(w, kept);
    if id !in w.scopes { PendingKeepsFenced(kept, id, fingerprint); }
  }

  lemma PendingKeepsFenced(w: World, id: Uuid, fingerprint: nat)
    requires Fenced(w) && id !in w.scopes
    ensures Fenced(w.(scopes := w.scopes[id := Scope(w.sub.version, fingerprint, Pending)]))
  {
  }

  lemma NextKeepsFenced(w: World, s: Step)
    requires Fenced(w)
    ensures Fenced(Next(w, s))
  {
    var n := Next(w, s);
    match s
    case Propose(id, fingerprint) => ProposeKeepsFenced(w, id, fingerprint);
    case ApplyScope(id, _, _) =>
      if n != w { ApplyKeepsFenced(w, n, id); }
    case _ => ExpiryKeepsFenced(w, n);
  }

  // For each version at most one scope is ever applied, over all runs.
  lemma {:induction false} OneScopePerVersion(w: World, steps: seq<Step>)
    requires Fenced(w)
    ensures Fenced(Run(w, steps))
  {
    if steps != [] {
      OneScopePerVersion(w, steps[..|steps| - 1]);
      NextKeepsFenced(Run(w, steps[..|steps| - 1]), steps[|steps| - 1]);
    }
  }

  // A scope of an older version can never be applied any more, whatever happens.
  lemma {:induction false} OldScopesNeverApply(w: World, steps: seq<Step>, id: Uuid)
    requires id in w.scopes && w.scopes[id].version < w.sub.version
    ensures id in Run(w, steps).scopes
    ensures Run(w, steps).scopes[id].version == w.scopes[id].version < Run(w, steps).sub.version
    ensures Run(w, steps).scopes[id].status.Applied? ==> w.scopes[id].status.Applied?
  {
    if steps != [] {
      OldScopesNeverApply(w, steps[..|steps| - 1], id);
    }
  }

  // Every profile assignment and every edit raises the version, so it fences off
  // all scopes that were pending before it.
  lemma ChangesFenceOff(w: World, s: Step, steps: seq<Step>, id: Uuid)
    requires Fenced(w) && id in w.scopes && w.scopes[id].status.Pending?
    requires s.Update? || s.AssignProfile? || s.AssignOnPoll? || (s.ApplyScope? && s.scope != id)
    requires Next(w, s).sub != w.sub
    ensures id in Run(Next(w, s), steps).scopes && !Run(Next(w, s), steps).scopes[id].status.Applied?
  {
    OldScopesNeverApply(Next(w, s), steps, id);
  }

  // ---------------------------------------------------------------- completion

  // The episodes a season expects: `mapped` are the mapped rows of the profile for
  // whole episodes, `length` the configured season length.
  datatype Plan = Plan(anchored: bool, ended: bool, length: Option<int>, mapped: map<int, Option<Uuid>>)

  predicate IsFinal(plan: Plan, final: int) {
    if plan.anchored then
      final in plan.mapped && forall e | e in plan.mapped :: e <= final
    else plan.length == Some(final)
  }

  predicate Covers(peers: set<Uuid>, target: Uuid, k: Fulfilment.Key) { k.entry in peers && k.target == target }

  predicate Fulfils(tables: Fulfilment.Tables, peers: set<Uuid>, target: Uuid) {
    exists k :: k in tables.rows && Covers(peers, target, k)
      && (k.source.ManagedImport? || tables.rows[k].invalidatedAt.None?)
  }

  predicate ManagedFulfils(tables: Fulfilment.Tables, peers: set<Uuid>, target: Uuid) {
    exists k :: k in tables.rows && Covers(peers, target, k) && k.source.ManagedImport?
  }

  // The completion condition; `peers` are the entries of all subscriptions of the series.
  predicate Expected(plan: Plan, final: int) {
    IsFinal(plan, final) && final > 0 && (plan.anchored ==> plan.ended)
  }

  // The last episode of an anchored plan is the largest mapped one.
  function Finals(plan: Plan): set<int> {
    if plan.anchored then set e | e in plan.mapped && Expected(plan, e)
    else if plan.length.Some? && Expected(plan, plan.length.value) then {plan.length.value} else {}
  }

  predicate Met(plan: Plan, tables: Fulfilment.Tables, peers: set<Uuid>) {
    exists final :: final in Finals(plan)
      && forall e :: 1 <= e <= final ==>
           e in plan.mapped && plan.mapped[e].Some? && Fulfils(tables, peers, plan.mapped[e].value)
  }

  // Episode i is mapped, and its target has an import of our own or a valid catalogue row.
  predicate Available(plan: Plan, tables: Fulfilment.Tables, peers: set<Uuid>, i: int) {
    && i in plan.mapped && plan.mapped[i].Some?
    && exists k :: k in tables.rows && k.entry in peers && k.target == plan.mapped[i].value
         && (k.source == Fulfilment.ManagedImport || tables.rows[k].invalidatedAt.None?)
  }

  lemma AvailableIff(plan: Plan, tables: Fulfilment.Tables, peers: set<Uuid>, i: int)
    ensures Available(plan, tables, peers, i) <==>
              i in plan.mapped && plan.mapped[i].Some? && Fulfils(tables, peers, plan.mapped[i].value)
  {
    if i in plan.mapped && plan.mapped[i].Some? {
      var target := plan.mapped[i].value;
      if k :| k in tables.rows && k.entry in peers && k.target == target
              && (k.source == Fulfilment.ManagedImport || tables.rows[k].invalidatedAt.None?) {
        assert Covers(peers, target, k);
      }
    }
  }

  lemma {:induction false} LargestMapped(episodes: set<int>, some: int) returns (last: int)
    requires some in episodes
    ensures last in episodes && forall e | e in episodes :: e <= last
  {
    if e :| e in episodes && e > some {
      last := LargestMapped(episodes - {some}, e);
      assert forall d | d in episodes :: d == some || d in episodes - {some};
    } else {
      last := some;
    }
  }

  // The condition without its last episode: everything up to every mapped episode, or up to the season length.
  lemma MetIff(plan: Plan, tables: Fulfilment.Tables, peers: set<Uuid>)
    ensures plan.anchored ==>
              (Met(plan, tables, peers) <==>
                 && plan.ended && (exists e :: e in plan.mapped && e > 0)
                 && forall e, i | e in plan.mapped && 1 <= i <= e :: Available(plan, tables, peers, i))
    ensures !plan.anchored ==>
              (Met(plan, tables, peers) <==>
                 && plan.length.Some? && plan.length.value > 0
                 && forall i | 1 <= i <= plan.length.value :: Available(plan, tables, peers, i))
  {
    forall i ensures Available(plan, tables, peers, i) <==>
      i in plan.mapped && plan.mapped[i].Some? && Fulfils(tables, peers, plan.mapped[i].value)
    {
      AvailableIff(plan, tables, peers, i);
    }
    if Met(plan, tables, peers) {
      var final :| final in Finals(plan)
        && forall e :: 1 <= e <= final ==>
             e in plan.mapped && plan.mapped[e].Some? && Fulfils(tables, peers, plan.mapped[e].value);
      assert Expected(plan, final) && IsFinal(plan, final);
      assert forall i | 1 <= i <= final :: Available(plan, tables, peers, i);
    } else if plan.anchored && plan.ended && exists e :: e in plan.mapped && e > 0 {
      var e :| e in plan.mapped && e > 0;
      var last := LargestMapped(plan.mapped.Keys, e);
      assert IsFinal(plan, last) && last in Finals(plan) && last >= e;
      var i :| 1 <= i <= last && !Available(plan, tables, peers, i);
      assert last in plan.mapped;
    } else if !plan.anchored && plan.length.Some? && plan.length.value > 0 {
      assert plan.length.value in Finals(plan);
    }
  }

  predicate MetByImports(plan: Plan, tables: Fulfilment.Tables, peers: set<Uuid>) {
    exists final :: final in Finals(plan)
      && forall e :: 1 <= e <= final ==>
           e in plan.mapped && plan.mapped[e].Some? && ManagedFulfils(tables, peers, plan.mapped[e].value)
  }

  // No fulfilment statement removes or invalidates a managed import.
  lemma {:induction false} ManagedRowsStay(t: Fulfilment.Tables, steps: seq<Fulfilment.Step>, k: Fulfilment.Key)
    requires k in t.rows && k.source.ManagedImport?
    ensures k in Fulfilment.Run(t, steps).rows
    ensures t.rows[k].invalidatedAt.None? ==> Fulfilment.Run(t, steps).rows[k].invalidatedAt.None?
  {
    if steps != [] {
      ManagedRowsStay(t, steps[..|steps| - 1], k);
    }
  }

  lemma ImportsStayMet(plan: Plan, t: Fulfilment.Tables, peers: set<Uuid>, steps: seq<Fulfilment.Step>)
    requires MetByImports(plan, t, peers)
    ensures Met(plan, Fulfilment.Run(t, steps), peers)
  {
    var n := Fulfilment.Run(t, steps);
    var final :| final in Finals(plan)
      && forall e :: 1 <= e <= final ==>
           e in plan.mapped && plan.mapped[e].Some? && ManagedFulfils(t, peers, plan.mapped[e].value);
    forall e | 1 <= e <= final ensures Fulfils(n, peers, plan.mapped[e].value) {
      assert ManagedFulfils(t, peers, plan.mapped[e].value);
      var k :| k in t.rows && Covers(peers, plan.mapped[e].value, k) && k.source.ManagedImport?;
      ManagedRowsStay(t, steps, k);
    }
  }

  // Some moment is at or after every recorded verification.
  lemma {:induction false} LateMoment(rows: map<Fulfilment.Key, Fulfilment.Row>, keys: set<Fulfilment.Key>)
    returns (at: Time)
    requires keys <= rows.Keys
    ensures forall k | k in keys :: rows[k].verifiedAt <= at
    decreases keys
  {
    if keys == {} {
      at := 0;
    } else {
      var k :| k in keys;
      at := LateMoment(rows, keys - {k});
      at := Max(at, rows[k].verifiedAt);
      assert forall j | j in keys :: j == k || j in keys - {k};
    }
  }

  // One sufficiently late report of absence takes every catalogue fulfilment of
  // a target away.
  lemma AbsenceUnfulfils(t: Fulfilment.Tables, peers: set<Uuid>, target: Uuid) returns (s: Fulfilment.Step)
    requires !ManagedFulfils(t, peers, target)
    ensures !Fulfils(Fulfilment.Apply(t, s), peers, target)
  {
    var at := LateMoment(t.rows, t.rows.Keys);
    s := Fulfilment.Refresh(target, false, at);
    var n := Fulfilment.Apply(t, s);
    forall k | k in n.rows && Covers(peers, target, k)
      ensures !k.source.ManagedImport? && n.rows[k].invalidatedAt.Some?
    {
      assert k in t.rows;
    }
  }

  lemma FinalIsUnique(plan: Plan, a: int, b: int)
    requires a in Finals(plan) && b in Finals(plan)
    ensures a == b
  {
    assert plan.anchored ==> a in plan.mapped && b in plan.mapped;
  }

  // The completion condition survives every further run of fulfilment
  // statements exactly when managed imports alone meet it.
  lemma CompletionIsStableIff(plan: Plan, t: Fulfilment.Tables, peers: set<Uuid>)
    ensures (forall steps :: Met(plan, Fulfilment.Run(t, steps), peers)) <==> MetByImports(plan, t, peers)
  {
    if MetByImports(plan, t, peers) {
      forall steps ensures Met(plan, Fulfilment.Run(t, steps), peers) { ImportsStayMet(plan, t, peers, steps); }
    } else {
      var steps := LoseCompletion(plan, t, peers);
      assert !Met(plan, Fulfilment.Run(t, steps), peers);
    }
  }

  lemma LoseCompletion(plan: Plan, t: Fulfilment.Tables, peers: set<Uuid>) returns (steps: seq<Fulfilment.Step>)
    requires !MetByImports(plan, t, peers)
    ensures !Met(plan, Fulfilment.Run(t, steps), peers)
  {
    steps := [];
    if Met(plan, t, peers) {
      var final :| final in Finals(plan)
        && forall e :: 1 <= e <= final ==>
             e in plan.mapped && plan.mapped[e].Some? && Fulfils(t, peers, plan.mapped[e].value);
      var e :| 1 <= e <= final && !ManagedFulfils(t, peers, plan.mapped[e].value);
      var s := AbsenceUnfulfils(t, peers, plan.mapped[e].value);
      steps := [s];
      assert steps[..|steps| - 1] == [] && Fulfilment.Run(t, []) == t;
      var n := Fulfilment.Run(t, steps);
      assert n == Fulfilment.Apply(t, s);
      forall f | f in Finals(plan) ensures f == final { FinalIsUnique(plan, f, final); }
    }
  }
}
