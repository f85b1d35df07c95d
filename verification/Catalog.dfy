// The authenticated catalog cache: a refresh replaces three files in a fixed
// order, and an offline start must make sense of any prefix of those writes.
// Digests and HMACs are injective, so an authority record is what it was computed
// from: the payload, the enrolled profile and the token.
module Catalog {
  import opened Common

  type Payload = seq<nat>

  datatype Profile = Profile(host: string, port: nat, sourceHost: string, device: string, token: string)

  // The endpoint may move ports; everything else, and the token, must agree.
  predicate SameAuthority(a: Profile, b: Profile) {
    a.host == b.host && a.sourceHost == b.sourceHost && a.device == b.device && a.token == b.token
  }

  // One refresh.  `version` numbers the refreshes; no test below reads it.
  datatype Refresh = Refresh(payload: Payload, profile: Option<Profile>, version: nat)

  // Each file remembers the refresh it was written by.  The recovery file holds
  // payload and authority together, the catalog file the payload alone, the
  // authority file the authority alone.
  datatype Files = Files(recovery: Option<Refresh>, catalog: Option<Refresh>, authority: Option<Refresh>)

  // Does the authority record of `signed` authenticate this payload?
  predicate Authenticates(signed: Refresh, payload: Payload, current: Profile) {
    signed.profile.Some? && signed.payload == payload && SameAuthority(signed.profile.value, current)
  }

  predicate CatalogValid(f: Files, current: Profile) {
    f.catalog.Some? && f.authority.Some? && Authenticates(f.authority.value, f.catalog.value.payload, current)
  }

  predicate RecoveryValid(f: Files, current: Profile) {
    f.recovery.Some? && Authenticates(f.recovery.value, f.recovery.value.payload, current)
  }

  // What an enrolled start uses when the server cannot be reached.
  function Offline(f: Files, current: Profile): Option<Refresh> {
    if CatalogValid(f, current) then f.catalog
    else if RecoveryValid(f, current) then f.recovery
    else None
  }

  // The writes of a refresh, in order: recovery, catalog, authority when
  // enrolled; otherwise the authenticated files go first.
  function Write(f: Files, r: Refresh, stage: nat): Files {
    if r.profile.Some? then
      (if stage == 0 then f.(recovery := Some(r)) else if stage == 1 then f.(catalog := Some(r)) else f.(authority := Some(r)))
    else
      (if stage == 0 then f.(authority := None) else if stage == 1 then f.(recovery := None) else f.(catalog := Some(r)))
  }

  function WriteSome(f: Files, r: Refresh, count: nat): Files {
    if count == 0 then f else Write(WriteSome(f, r, count - 1), r, count - 1)
  }

  // ------------------------------------------------------------ the cache

  class CatalogCache {
    var recovery: Option<Refresh>
    var catalog: Option<Refresh>
    var authority: Option<Refresh>

    function Snapshot(): Files
      reads this
    {
      Files(recovery, catalog, authority)
    }

    constructor ()
      ensures Snapshot() == Files(None, None, None)
    {
      recovery, catalog, authority := None, None, None;
    }

    // The process may stop, or a write may raise, after `survived` of the writes.
    method WriteAuthenticatedCache(payload: Payload, profile: Profile, version: nat, survived: nat) returns (finished: bool)
      modifies this
      ensures finished == (survived >= 3)
      ensures Snapshot() == WriteSome(old(Snapshot()), Refresh(payload, Some(profile), version), if survived < 3 then survived else 3)
      ensures finished ==> Offline(Snapshot(), profile) == Some(Refresh(payload, Some(profile), version))
    {
      var r := Refresh(payload, Some(profile), version);
      var was := Snapshot();
      assert WriteSome(was, r, 0) == was;
      if survived == 0 {
        return false;
      }
      recovery := Some(r);
      assert Snapshot() == WriteSome(was, r, 1);
      if survived == 1 {
        return false;
      }
      catalog := Some(r);
      assert Snapshot() == WriteSome(was, r, 2);
      if survived == 2 {
        return false;
      }
      authority := Some(r);
      return true;
    }

    // The branch an enrolled start takes when the request failed.
    method ReadOffline(current: Profile) returns (payload: Option<Payload>)
      ensures payload.Some? == Offline(Snapshot(), current).Some?
      ensures payload.Some? ==> payload.value == Offline(Snapshot(), current).value.payload
    {
      if catalog.Some? && authority.Some? && Authenticates(authority.value, catalog.value.payload, current) {
        return Some(catalog.value.payload);
      }
      if recovery.Some? && Authenticates(recovery.value, recovery.value.payload, current) {
        return Some(recovery.value.payload);
      }
      return None;
    }
  }

  // ------------------------------------------------------------ runs

  // A refresh in progress, with the number of its next write.
  datatype Progress = Idle | Writing(refresh: Refresh, stage: nat)

  // `log` is every refresh ever begun; the next version is its length.
  datatype World = World(files: Files, progress: Progress, log: seq<Refresh>)

  const Fresh := World(Files(None, None, None), Idle, [])

  datatype Step = Begin(payload: Payload, profile: Option<Profile>) | NextWrite | Crash

  function Apply(w: World, step: Step): World {
    match step
    case Begin(payload, profile) =>
      if !w.progress.Idle? then w
      else
        var r := Refresh(payload, profile, |w.log|);
        w.(progress := Writing(r, 0), log := w.log + [r])
    case NextWrite =>
      if w.progress.Idle? then w
      else
        var r, stage := w.progress.refresh, w.progress.stage;
        w.(files := Write(w.files, r, stage), progress := if stage >= 2 then Idle else Writing(r, stage + 1))
    case Crash => w.(progress := Idle)
  }

  function Run(w: World, steps: seq<Step>): World {
    if steps == [] then w else Apply(Run(w, steps[..|steps| - 1]), steps[|steps| - 1])
  }

  // ------------------------------------------------------------ invariant

  ghost predicate Logged(log: seq<Refresh>, f: Option<Refresh>) {
    f.Some? ==> f.value.version < |log| && log[f.value.version] == f.value
  }

  // The authority file is never newer than the catalog file, nor the catalog file
  // than the recovery file while there is one.
  ghost predicate Ordered(f: Files) {
    && (f.authority.Some? ==> f.catalog.Some? && f.authority.value.version <= f.catalog.value.version && f.recovery.Some?)
    && (f.recovery.Some? && f.catalog.Some? ==> f.catalog.value.version <= f.recovery.value.version)
    && (f.recovery.Some? ==> f.recovery.value.profile.Some?)
    && (f.authority.Some? ==> f.authority.value.profile.Some?)
  }

  ghost predicate InProgress(w: World) {
    w.progress.Writing? ==>
      && var r, f := w.progress.refresh, w.files;
      && Logged(w.log, Some(r)) && w.progress.stage <= 2
      && r.version == |w.log| - 1
      && (r.profile.Some? ==>
            && (w.progress.stage >= 1 ==> f.recovery == Some(r))
            && (w.progress.stage >= 2 ==> f.catalog == Some(r)))
      && (r.profile.None? ==>
            && (w.progress.stage >= 1 ==> f.authority.None?)
            && (w.progress.stage >= 2 ==> f.recovery.None?))
  }

  ghost predicate Valid(w: World) {
    && Logged(w.log, w.files.recovery) && Logged(w.log, w.files.catalog) && Logged(w.log, w.files.authority)
    && Ordered(w.files) && InProgress(w)
  }

  lemma StepValid(w: World, step: Step)
    requires Valid(w)
    ensures Valid(Apply(w, step))
  {
  }

  // What an offline start would use never gets older.
  ghost predicate NotOlder(a: Option<Refresh>, b: Option<Refresh>) {
    a.Some? && b.Some? ==> a.value.version <= b.value.version
  }

  // No later refresh can bring back anything older than what was usable.
  ghost predicate Floor(w: World, q: Profile, v: nat) {
    && (CatalogValid(w.files, q) ==> v <= w.files.catalog.value.version)
    && (RecoveryValid(w.files, q) ==> v <= w.files.recovery.value.version)
    && v < |w.log|
  }

  lemma {:induction false} RunValid(steps: seq<Step>)
    ensures Valid(Run(Fresh, steps))
  {
    if steps != [] {
      RunValid(steps[..|steps| - 1]);
      StepValid(Run(Fresh, steps[..|steps| - 1]), steps[|steps| - 1]);
    }
  }

  lemma OfflineSetsFloor(w: World, q: Profile)
    requires Valid(w) && Offline(w.files, q).Some?
    ensures Floor(w, q, Offline(w.files, q).value.version)
  {
  }

  lemma StepKeepsFloor(w: World, step: Step, q: Profile, v: nat)
    requires Valid(w) && Floor(w, q, v)
    ensures Floor(Apply(w, step), q, v)
  {
  }

  lemma {:induction false} RunKeepsFloor(w: World, steps: seq<Step>, q: Profile, v: nat)
    requires Valid(w) && Floor(w, q, v)
    ensures Valid(Run(w, steps)) && Floor(Run(w, steps), q, v)
  {
    if steps != [] {
      var before := steps[..|steps| - 1];
      RunKeepsFloor(w, before, q, v);
      StepValid(Run(w, before), steps[|steps| - 1]);
      StepKeepsFloor(Run(w, before), steps[|steps| - 1], q, v);
    }
  }

  lemma {:induction false} RunExtends(w: World, a: seq<Step>, b: seq<Step>)
    ensures Run(w, a + b) == Run(Run(w, a), b)
  {
    if b == [] {
      assert a + b == a;
    } else {
      assert (a + b)[..|a + b| - 1] == a + b[..|b| - 1];
      RunExtends(w, a, b[..|b| - 1]);
    }
  }

  // ------------------------------------------------------------ results

  // Over any run of refreshes, under any profiles, with crashes anywhere, the
  // version an offline start observes never goes backwards.
  lemma ObservedNeverGoesBack(before: seq<Step>, after: seq<Step>, q: Profile)
    ensures NotOlder(Offline(Run(Fresh, before).files, q), Offline(Run(Fresh, before + after).files, q))
  {
    RunValid(before);
    RunExtends(Fresh, before, after);
    var w := Run(Fresh, before);
    if Offline(w.files, q).Some? {
      OfflineSetsFloor(w, q);
      RunKeepsFloor(w, after, q, Offline(w.files, q).value.version);
    }
  }

  // Whatever is used offline was fetched whole by some refresh, and some refresh
  // under this host, source host, device and token fetched the same.
  lemma OfflineIsAuthentic(steps: seq<Step>, q: Profile)
    requires Offline(Run(Fresh, steps).files, q).Some?
    ensures var w := Run(Fresh, steps);
            var used := Offline(w.files, q).value;
            && used.version < |w.log| && w.log[used.version].payload == used.payload
            && exists k :: 0 <= k < |w.log| && w.log[k].payload == used.payload && !Elsewhere(w.log[k].profile, q)
  {
    RunValid(steps);
    var w := Run(Fresh, steps);
    var signed := if CatalogValid(w.files, q) then w.files.authority.value else w.files.recovery.value;
    assert w.log[signed.version].payload == Offline(w.files, q).value.payload && !Elsewhere(w.log[signed.version].profile, q);
  }

  // What a whole refresh leaves: an enrolled one is in every file, one without
  // enrolment only in the catalog.
  lemma WholeRefreshLeaves(f: Files, r: Refresh)
    ensures WriteSome(f, r, 3) == if r.profile.Some? then Files(Some(r), Some(r), Some(r)) else Files(None, Some(r), None)
  {
    var one := WriteSome(f, r, 1);
    assert one == Write(WriteSome(f, r, 0), r, 0);
    var two := WriteSome(f, r, 2);
    assert two == Write(one, r, 1);
    assert WriteSome(f, r, 3) == Write(two, r, 2);
  }

  // After a completed refresh, a crash behind any prefix of the next refresh's
  // writes leaves exactly the old payload (no write or one) or the new.
  lemma CrashLeavesOldOrNew(f: Files, before: Refresh, next: Refresh, q: Profile, count: nat)
    requires f == Files(Some(before), Some(before), Some(before)) && count <= 3
    requires before.profile.Some? && SameAuthority(before.profile.value, q) && next.profile.Some? && SameAuthority(next.profile.value, q)
    ensures var used := Offline(WriteSome(f, next, count), q);
            used.Some? && used.value.payload == (if count <= 1 then before.payload else next.payload)
  {
  }

  predicate AllUnder(steps: seq<Step>, q: Profile) {
    forall i | 0 <= i < |steps| :: steps[i].Begin? ==> steps[i].profile.Some? && SameAuthority(steps[i].profile.value, q)
  }

  ghost predicate SignedBy(log: seq<Refresh>, q: Profile) {
    forall i | 0 <= i < |log| :: log[i].profile.Some? && SameAuthority(log[i].profile.value, q)
  }

  lemma {:induction false} LogSigned(steps: seq<Step>, q: Profile)
    requires AllUnder(steps, q)
    ensures SignedBy(Run(Fresh, steps).log, q)
  {
    if steps != [] {
      LogSigned(steps[..|steps| - 1], q);
    }
  }

  // Under one authority the cache is usable from the first write on.
  lemma OnceWrittenAlwaysUsable(steps: seq<Step>, q: Profile)
    requires AllUnder(steps, q) && Run(Fresh, steps).files.recovery.Some?
    ensures Offline(Run(Fresh, steps).files, q).Some?
  {
    RunValid(steps);
    LogSigned(steps, q);
  }

  // Enrolled elsewhere: another host, source host, device or token.
  predicate Elsewhere(p: Option<Profile>, q: Profile) {
    p.None? || p.value.host != q.host || p.value.sourceHost != q.sourceHost || p.value.device != q.device || p.value.token != q.token
  }

  ghost predicate NoneFor(log: seq<Refresh>, q: Profile) {
    forall i | 0 <= i < |log| :: Elsewhere(log[i].profile, q)
  }

  lemma {:induction false} LogElsewhere(steps: seq<Step>, q: Profile)
    requires forall i | 0 <= i < |steps| && steps[i].Begin? :: Elsewhere(steps[i].profile, q)
    ensures NoneFor(Run(Fresh, steps).log, q)
  {
    if steps != [] {
      LogElsewhere(steps[..|steps| - 1], q);
    }
  }

  // A cache only ever written under other hosts, source hosts, devices or tokens is
  // never used.
  lemma ChangedIdentityIsRefused(steps: seq<Step>, q: Profile)
    requires forall i | 0 <= i < |steps| && steps[i].Begin? :: Elsewhere(steps[i].profile, q)
    ensures Offline(Run(Fresh, steps).files, q).None?
  {
    LogElsewhere(steps, q);
    if Offline(Run(Fresh, steps).files, q).Some? {
      OfflineIsAuthentic(steps, q);
    }
  }

  // A server that only moved its port keeps the cache usable.
  lemma MovedPortIsAccepted(f: Files, q: Profile, port: nat)
    ensures Offline(f, q.(port := port)) == Offline(f, q)
    ensures f.recovery.Some? && f.recovery.value.profile == Some(q) ==> Offline(f, q.(port := port)).Some?
  {
  }
}
