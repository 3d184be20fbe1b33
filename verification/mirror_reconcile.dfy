/** One reconcile of a mirror: lease, enrolment, collection, choice and one step. */
module MirrorReconcile {
  import opened Common
  import opened MirrorProtocol
  import opened MirrorTraces
  import opened MirrorFacts
  import opened MirrorCluster
  import opened MirrorCollect
  import opened MirrorCollectRuns
  import opened MirrorAdvance

  const QUEUE: nat := 32

  /** A write of the parent record whose answer decides whether the reconcile goes on. */
  method SaveMirror(c: Cluster, p: Mirror, q: Mirror, change: ParentChange) returns (failed: bool)
    requires Journals(c.s, p) && Enabled(c.s, SaveParent(q, change))
    requires c.Logged()
    modifies c
    ensures c.Logged() && old(c.log) <= c.log
    ensures Inv(c.s) && Onward(old(c.s), c.s) && (c.s.parent == Some(p) || c.s.parent == Some(q))
    ensures !failed ==> Journals(c.s, q) && Rely(Apply(old(c.s), SaveParent(q, change)), c.s)
    ensures c.s.teardown == old(c.s).teardown
  {
    hide Inv, Moved, Enabled;
    ghost var s0 := c.s;
    failed := c.Issue(SaveParent(q, change));
    SavedMirror(s0, q, change, c.s, failed);
  }

  lemma SavedMirror(s: State, q: Mirror, change: ParentChange, t: State, failed: bool)
    requires Wrote(s, SaveParent(q, change), t, failed)
    ensures Onward(s, t) && (t.parent == s.parent || t.parent == Some(q)) && t.teardown == s.teardown
    ensures !failed ==> t.parent == Some(q)
  {}

  // ---------------------------------------------------------------- the test lease

  /** Accepting, extending or releasing the test lease. */
  method AcceptLease(c: Cluster, p: Mirror, hold: Option<Time>) returns (failed: bool, q: Mirror)
    requires Journals(c.s, p)
    requires c.Logged()
    modifies c
    ensures c.Logged() && old(c.log) <= c.log
    ensures Inv(c.s) && Onward(old(c.s), c.s) && c.s.teardown == old(c.s).teardown
    ensures c.s.parent == Some(p) || c.s.parent == Some(q)
    ensures q == p.(hold := q.hold)
    ensures !failed ==> Journals(c.s, q) && q.hold == (if hold.Some? then hold.value else 0)
    ensures !failed && q.hold != p.hold ==> q.hold <= c.s.now + LEASE
  {
    hide Inv, Rely, Enabled;
    q := p;
    failed := false;
    if hold.Some? && hold.value != p.hold {
      ghost var s0 := c.s;
      var now := c.Now();
      RelyJournals(s0, c.s, p);
      OnwardRely(s0, c.s);
      TeardownKept(s0, c.s);
      if hold.value > now + LEASE { return true, p; }
      q := p.(hold := hold.value);
      LeaseEnabled(c.s, p, hold.value);
      failed := SaveMirror(c, p, q, LeaseChanged);
    } else if hold.None? && p.hold != 0 {
      q := p.(hold := 0);
      LeaseEnabled(c.s, p, 0);
      failed := SaveMirror(c, p, q, LeaseChanged);
    }
  }

  lemma LeaseEnabled(s: State, p: Mirror, hold: Time)
    requires Journals(s, p) && hold <= s.now + LEASE
    ensures Enabled(s, SaveParent(p.(hold := hold), LeaseChanged))
  {}

  lemma TeardownKept(s: State, t: State)
    requires Rely(s, t)
    ensures t.teardown == s.teardown
  {}

  // ---------------------------------------------------------------- enrolment

  /** A listed request: its UID was issued and belongs to no other name. */
  ghost predicate Listed(s: State, list: map<Name, Request>) {
    forall n :: n in list ==> 0 < list[n].uid < s.next && NamedOnly(s, Ref(n, list[n].uid))
  }

  lemma ListedNow(s: State)
    requires Inv(s)
    ensures Listed(s, s.requests)
  {}

  lemma ListedMoved(s: State, t: State, list: map<Name, Request>)
    requires Listed(s, list) && Moved(s, t)
    ensures Listed(t, list)
  {
    forall n | n in list ensures 0 < list[n].uid < t.next && NamedOnly(t, Ref(n, list[n].uid)) {
      assert NamedOnly(s, Ref(n, list[n].uid));
    }
  }

  lemma ListedSaved(s: State, w: Write, list: map<Name, Request>)
    requires Listed(s, list) && (w.SaveRun? || w.SaveParent?)
    ensures Listed(Apply(s, w), list)
  {
    forall n | n in list ensures NamedOnly(Apply(s, w), Ref(n, list[n].uid)) {
      assert NamedOnly(s, Ref(n, list[n].uid));
    }
  }

  function Admitted(name: Name, uid: Uid): Run {
    Run(name, Queued, uid, 0, 0, false, [], 0, 0, [], [], [])
  }

  lemma AdmitEnabled(s: State, p: Mirror, name: Name, uid: Uid)
    requires Journals(s, p) && !Enrolled(p, uid) && 0 < uid < s.next && uid !in s.runs
    ensures Enabled(s, SaveRun(uid, Admitted(name, uid), RunAdmitted))
  {}

  lemma EnrollEnabled(s: State, p: Mirror, list: map<Name, Request>, name: Name)
    requires Journals(s, p) && Listed(s, list) && name in list && !Enrolled(p, list[name].uid)
    ensures Enabled(s, SaveParent(p.(runs := p.runs + [Ref(name, list[name].uid)]), RunEnrolled))
  {
    var m := p.(runs := p.runs + [Ref(name, list[name].uid)]);
    assert m.runs[|p.runs|] == Ref(name, list[name].uid);
  }

  /** Makes sure the request has its protected record. */
  method EnsureRecord(c: Cluster, p: Mirror, list: map<Name, Request>, name: Name) returns (failed: bool)
    requires Journals(c.s, p) && Listed(c.s, list) && name in list && !Enrolled(p, list[name].uid)
    requires c.Logged()
    modifies c
    ensures c.Logged() && old(c.log) <= c.log
    ensures Journals(c.s, p) && Listed(c.s, list) && Onward(old(c.s), c.s) && c.s.teardown == old(c.s).teardown
    ensures !failed ==> list[name].uid in c.s.runs
  {
    hide Inv, Rely, Enabled, Listed, Apply;
    var uid := list[name].uid;
    ghost var s0 := c.s;
    var r := c.LoadRun(uid);
    ghost var s1 := c.s;
    RecordStep(s0, s1, p, list);
    if r.Unreadable? { return true; }
    if r.Found? {
      KeysKept(s0, s1);
      return false;
    }
    if uid !in s1.runs { ListedAt(s1, list, name); AdmitEnabled(s1, p, name, uid); } else { VersionPositive(s1, uid); }
    var saved;
    failed, saved := c.Save(uid, Admitted(name, uid), 0, RunAdmitted);
    WroteJournals(s1, SaveRun(uid, Admitted(name, uid), RunAdmitted), c.s, failed, p);
    ListedSaved(s1, SaveRun(uid, Admitted(name, uid), RunAdmitted), list);
    RecordSaved(s1, uid, Admitted(name, uid), c.s, failed, list);
  }

  lemma VersionPositive(s: State, uid: Uid)
    requires Inv(s) && uid in s.runs
    ensures 0 < s.runs[uid].version
  {
    assert RunNumbered(s, uid);
  }

  lemma ListedAt(s: State, list: map<Name, Request>, name: Name)
    requires Listed(s, list) && name in list
    ensures 0 < list[name].uid < s.next
  {}

  lemma KeysKept(s: State, t: State)
    requires Rely(s, t)
    ensures s.runs.Keys == t.runs.Keys
  {}

  lemma RecordStep(s: State, t: State, p: Mirror, list: map<Name, Request>)
    requires Journals(s, p) && Listed(s, list) && Rely(s, t) && Inv(t)
    ensures Journals(t, p) && Listed(t, list) && Onward(s, t) && t.teardown == s.teardown
  {
    ListedMoved(s, t, list);
  }

  lemma RecordSaved(s: State, uid: Uid, r: Run, t: State, failed: bool, list: map<Name, Request>)
    requires Wrote(s, SaveRun(uid, r, RunAdmitted), t, failed)
    requires Listed(s, list) && Listed(Apply(s, SaveRun(uid, r, RunAdmitted)), list)
    ensures Listed(t, list) && Onward(s, t) && t.teardown == s.teardown && (!failed ==> uid in t.runs)
  {
    var m := Apply(s, SaveRun(uid, r, RunAdmitted));
    hide Listed;
    if Rely(m, t) { ListedMoved(m, t, list); assert uid in m.runs; } else { ListedMoved(s, t, list); }
  }

  /** Whether an unenrolled request is taken now: one that holds our finalizer always is,
      so that an overflowing queue never hides resources already owned. */
  predicate Enrollable(request: Request, enrolled: nat) {
    request.finalizer || (!request.deleting && enrolled < QUEUE)
  }

  predicate IsEnrolled(p: Mirror, uid: Uid) {
    exists i :: 0 <= i < |p.runs| && p.runs[i].uid == uid
  }

  /** The listed request created first; UIDs are issued in order of creation. */
  lemma OldestExists(list: map<Name, Request>, rest: set<Name>)
    requires rest != {} && rest <= list.Keys
    ensures exists n :: n in rest && Oldest(list, rest, n)
  {
    var x :| x in rest;
    if rest == {x} {
      assert Oldest(list, rest, x);
    } else {
      OldestExists(list, rest - {x});
      var y :| y in rest - {x} && Oldest(list, rest - {x}, y);
      assert Oldest(list, rest, if list[x].uid <= list[y].uid then x else y);
    }
  }

  predicate Oldest(list: map<Name, Request>, rest: set<Name>, n: Name)
    requires rest <= list.Keys && n in list
  {
    forall m :: m in rest ==> list[n].uid <= list[m].uid
  }

  method EnrollRun(c: Cluster, p: Mirror, list: map<Name, Request>, name: Name) returns (failed: bool, q: Mirror)
    requires Journals(c.s, p) && Listed(c.s, list) && name in list
    requires c.Logged()
    modifies c
    ensures c.Logged() && old(c.log) <= c.log
    ensures Inv(c.s) && Onward(old(c.s), c.s) && c.s.teardown == old(c.s).teardown
    ensures c.s.parent == Some(p) || c.s.parent == Some(q)
    ensures q == (if !IsEnrolled(p, list[name].uid) && Enrollable(list[name], |p.runs|) then p.(runs := p.runs + [Ref(name, list[name].uid)]) else p)
    ensures !failed ==> Journals(c.s, q) && Listed(c.s, list)
  {
    hide Inv, Rely, Enabled, Listed, Apply;
    var request := list[name];
    if IsEnrolled(p, request.uid) || !Enrollable(request, |p.runs|) { return false, p; }
    q := p.(runs := p.runs + [Ref(name, request.uid)]);
    ghost var s0 := c.s;
    failed := c.PatchFinalizer(name, true);
    RecordStep(s0, c.s, p, list);
    if failed { return; }
    failed := EnsureRecord(c, p, list, name);
    if failed { return; }
    ghost var s1 := c.s;
    EnrollEnabled(s1, p, list, name);
    ListedSaved(s1, SaveParent(q, RunEnrolled), list);
    failed := SaveMirror(c, p, q, RunEnrolled);
    if !failed { RelyListed(Apply(s1, SaveParent(q, RunEnrolled)), c.s, list); }
  }

  lemma RelyListed(s: State, t: State, list: map<Name, Request>)
    requires Rely(s, t) && Listed(s, list)
    ensures Listed(t, list)
  {
    ListedMoved(s, t, list);
  }

  /** Enrols the listed requests, oldest first, up to the cap. */
  method EnrollRuns(c: Cluster, p: Mirror) returns (failed: bool, q: Mirror)
    requires Journals(c.s, p)
    requires c.Logged()
    modifies c
    ensures c.Logged() && old(c.log) <= c.log
    ensures Inv(c.s) && Onward(old(c.s), c.s) && c.s.teardown == old(c.s).teardown
    ensures q == p.(runs := q.runs) && p.runs <= q.runs && c.s.parent.Some?
    ensures !failed ==> Journals(c.s, q)
    ensures forall i :: |p.runs| <= i < |q.runs| && QUEUE <= i ==>
      q.runs[i].name in old(c.s).requests && old(c.s).requests[q.runs[i].name].finalizer
    ensures !failed && |q.runs| < QUEUE ==> forall n :: n in old(c.s).requests && !old(c.s).requests[n].deleting ==> IsEnrolled(q, old(c.s).requests[n].uid)
  {
    hide Inv, Rely, Enabled, Listed, Apply, Enrolling, IsEnrolled, Enrollable, Onward, Moved;
    ghost var s0 := c.s;
    q := p;
    var listing := c.ListRequests();
    OnwardRely(s0, c.s);
    TeardownKept(s0, c.s);
    RelyJournals(s0, c.s, p);
    if !listing.Found? { return true, p; }
    var list := listing.value;
    ListedNow(s0);
    RelyListed(s0, c.s, list);
    var rest := list.Keys;
    failed := false;
    EnrollingNone(p, list);
    while rest != {}
      invariant c.Logged() && old(c.log) <= c.log
      invariant Journals(c.s, q) && Listed(c.s, list) && Onward(s0, c.s) && c.s.teardown == s0.teardown
      invariant Enrolling(p, q, list, rest)
    {
      OldestExists(list, rest);
      var name :| name in rest && Oldest(list, rest, name);
      ghost var before := q;
      ghost var s1 := c.s;
      EnrollingNames(p, q, list, rest, name);
      failed, q := EnrollRun(c, q, list, name);
      OnwardTransitive(s0, s1, c.s);
      EnrollingNext(p, before, q, list, rest, name);
      if failed {
        EnrollingEnds(p, q, list, rest - {name});
        return;
      }
      rest := rest - {name};
    }
    EnrollingEnds(p, q, list, rest);
  }

  /** How far enrolment got: `rest` is still to be looked at. */
  ghost predicate Enrolling(p: Mirror, q: Mirror, list: map<Name, Request>, rest: set<Name>) {
    && rest <= list.Keys && q == p.(runs := q.runs) && p.runs <= q.runs
    && (forall i :: |p.runs| <= i < |q.runs| && QUEUE <= i ==> q.runs[i].name in list && list[q.runs[i].name].finalizer)
    && (|q.runs| < QUEUE ==> forall n :: n in list && n !in rest && !list[n].deleting ==> IsEnrolled(q, list[n].uid))
  }

  lemma EnrollingNone(p: Mirror, list: map<Name, Request>)
    ensures Enrolling(p, p, list, list.Keys)
  {}

  lemma EnrollingNames(p: Mirror, q: Mirror, list: map<Name, Request>, rest: set<Name>, name: Name)
    requires Enrolling(p, q, list, rest) && name in rest
    ensures name in list
  {}

  lemma EnrollingNext(p: Mirror, q: Mirror, later: Mirror, list: map<Name, Request>, rest: set<Name>, name: Name)
    requires Enrolling(p, q, list, rest) && name in rest && name in list
    requires later == (if !IsEnrolled(q, list[name].uid) && Enrollable(list[name], |q.runs|) then q.(runs := q.runs + [Ref(name, list[name].uid)]) else q)
    ensures Enrolling(p, later, list, rest - {name})
  {
    EnrolledStay(q, later);
  }

  lemma EnrollingEnds(p: Mirror, q: Mirror, list: map<Name, Request>, rest: set<Name>)
    requires Enrolling(p, q, list, rest)
    ensures q == p.(runs := q.runs) && p.runs <= q.runs
    ensures forall i :: |p.runs| <= i < |q.runs| && QUEUE <= i ==> q.runs[i].name in list && list[q.runs[i].name].finalizer
    ensures rest == {} && |q.runs| < QUEUE ==> forall n :: n in list && !list[n].deleting ==> IsEnrolled(q, list[n].uid)
  {}

  lemma EnrolledStay(p: Mirror, q: Mirror)
    requires p.runs <= q.runs
    ensures forall u :: IsEnrolled(p, u) ==> IsEnrolled(q, u)
    ensures |q.runs| == |p.runs| + 1 ==> IsEnrolled(q, q.runs[|p.runs|].uid)
  {
    forall u | IsEnrolled(p, u) ensures IsEnrolled(q, u) {
      var i :| 0 <= i < |p.runs| && p.runs[i].uid == u;
      assert q.runs[i].uid == u;
    }
  }

  // ---------------------------------------------------------------- choosing the pending run

  /** With no active pointer, every run but `uid` has been retired. */
  ghost predicate Clear(s: State, p: Mirror, uid: Uid) {
    p.active == 0 ==> OthersRetired(s, uid)
  }

  lemma ClearMoved(s: State, t: State, p: Mirror, uid: Uid)
    requires Inv(s) && Clear(s, p, uid) && Rely(s, t)
    ensures Clear(t, p, uid)
  {
    hide Inv, OthersRetired;
    if p.active == 0 { OthersMoved(s, t, uid); }
  }

  lemma SettledClear(s: State, p: Mirror)
    requires Journals(s, p) && Settled(s, p, |p.runs|)
    ensures Clear(s, p, p.pending)
  {
    if p.active == 0 { SettledOthers(s, p); }
  }

  /** The captures of a run that is still wanted were never released. */
  lemma WantedUnreleased(s: State, p: Mirror, i: nat)
    requires Journals(s, p) && !s.teardown && i < |p.runs| && Requested(s, p.runs[i]) && p.runs[i].uid in s.runs
    requires s.runs[p.runs[i].uid].run.phase == Queued || p.runs[i].uid == p.pending
    ensures p.runs[i].uid !in s.released && Wanted(s, p.runs[i].uid)
  {
    hide Numbered, Journaled, OneGeneration, RevisionsKept, ActiveSound, Tidy;
    assert Journal(s).runs[i].uid == p.runs[i].uid && Requested(s, Journal(s).runs[i]);
  }

  lemma MovedBack(s: State, t: State, uid: Uid)
    requires Rely(s, t) && uid in t.runs
    ensures uid in s.runs && t.runs[uid].run.phase == s.runs[uid].run.phase && t.released == s.released && t.parent == s.parent
  {
    MovedCore(s, t, uid);
  }

  lemma ChosenEnabled(s: State, t: State, u: State, p: Mirror, i: nat)
    requires Journals(s, p) && !s.teardown && p.pending == 0 && i < |p.runs|
    requires Rely(s, t) && Rely(t, u) && Inv(u)
    requires Requested(s, p.runs[i]) && p.runs[i].uid in t.runs && t.runs[p.runs[i].uid].run.phase == Queued
    ensures Enabled(u, SaveParent(p.(pending := p.runs[i].uid), RunChosen))
  {
    hide Inv, Rely, Requested;
    var uid := p.runs[i].uid;
    MovedBack(s, t, uid);
    KeysKept(t, u);
    MovedBack(t, u, uid);
    WantedUnreleased(s, p, i);
    ListedEnrolled(p, i);
  }

  lemma ChosenClear(s: State, p: Mirror, uid: Uid)
    requires Journals(s, p) && Clear(s, p, 0)
    ensures Clear(Apply(s, SaveParent(p.(pending := uid), RunChosen)), p.(pending := uid), uid)
    ensures Clear(Apply(s, SaveParent(p, SyncNoted)), p, 0)
  {}

  /** The run may be chosen: its request lives and its record is queued. */
  ghost predicate Choosable(s: State, ref: Ref) {
    Requested(s, ref) && ref.uid in s.runs && s.runs[ref.uid].run.phase == Queued
  }

  /** At some moment between the two logs the run could not be chosen. */
  ghost predicate Overlooked(origin: State, before: seq<Step>, after: seq<Step>, ref: Ref) {
    exists k: nat :: |before| <= k <= |after| && !Choosable(Exec(origin, after[..k]), ref)
  }

  lemma OverlookedAt(origin: State, before: seq<Step>, now: seq<Step>, after: seq<Step>, ref: Ref)
    requires before <= now && now <= after && !Choosable(Exec(origin, now), ref)
    ensures Overlooked(origin, before, after, ref)
  {
    assert after[..|now|] == now;
  }

  lemma OverlookedLater(origin: State, before: seq<Step>, now: seq<Step>, after: seq<Step>, ref: Ref)
    requires now <= after && Overlooked(origin, before, now, ref)
    ensures Overlooked(origin, before, after, ref)
  {
    var k: nat :| |before| <= k <= |now| && !Choosable(Exec(origin, now[..k]), ref);
    assert after[..k] == now[..k];
  }

  /** The first `n` runs were all overlooked, but for those whose request could not be read. */
  ghost predicate FirstFrom(origin: State, before: seq<Step>, after: seq<Step>, p: Mirror, n: nat, missed: set<nat>) {
    forall j :: 0 <= j < n && j < |p.runs| && j !in missed ==> Overlooked(origin, before, after, p.runs[j])
  }

  lemma FirstLater(origin: State, before: seq<Step>, now: seq<Step>, after: seq<Step>, p: Mirror, n: nat, missed: set<nat>)
    requires now <= after && FirstFrom(origin, before, now, p, n, missed)
    ensures FirstFrom(origin, before, after, p, n, missed)
  {
    hide Overlooked;
    forall j | 0 <= j < n && j < |p.runs| && j !in missed ensures Overlooked(origin, before, after, p.runs[j]) {
      OverlookedLater(origin, before, now, after, p.runs[j]);
    }
  }

  lemma FirstMissed(origin: State, before: seq<Step>, after: seq<Step>, p: Mirror, i: nat, missed: set<nat>)
    requires i in missed && FirstFrom(origin, before, after, p, i, missed - {i})
    ensures FirstFrom(origin, before, after, p, i + 1, missed)
  {
    hide Overlooked;
  }

  lemma LoggedNow(c: Cluster)
    requires c.Logged()
    ensures c.s == Exec(c.origin, c.log)
  {}

  /** Chooses the first enrolled run that is queued and still wanted: every earlier one was
      seen not to be, at some moment of this call, and so was every one when none is chosen.
      A run whose request cannot be read is passed over. */
  method Choose(c: Cluster, p: Mirror) returns (failed: bool, q: Mirror, ghost missed: set<nat>)
    requires Journals(c.s, p) && !c.s.teardown && Clear(c.s, p, p.pending)
    requires c.Logged()
    modifies c
    ensures c.Logged() && old(c.log) <= c.log
    ensures Inv(c.s) && c.s.teardown == old(c.s).teardown && Onward(old(c.s), c.s)
    ensures c.s.parent == Some(p) || c.s.parent == Some(q)
    ensures q == p.(pending := q.pending) && (p.pending != 0 ==> q == p)
    ensures !failed ==> Journals(c.s, q) && Clear(c.s, q, q.pending)
    ensures !failed && p.pending == 0 ==>
      exists n: nat :: n <= |p.runs| && q.pending == (if n < |p.runs| then p.runs[n].uid else 0) && FirstFrom(c.origin, old(c.log), c.log, p, n, missed)
    ensures c.calm ==> missed == {}
  {
    hide Inv, Rely, Enabled, Apply, OthersRetired, Onward, FirstFrom, Choosable, Recorded;
    q, missed := p, {};
    ghost var s0 := c.s;
    ghost var log0 := c.log;
    FirstNone(c.origin, log0, p);
    OnwardSelf(s0);
    if p.pending != 0 { return false, p, {}; }
    for i := 0 to |p.runs|
      invariant c.Logged() && old(c.log) <= c.log
      invariant Journals(c.s, p) && c.s.teardown == s0.teardown && Clear(c.s, p, 0) && Onward(s0, c.s)
      invariant FirstFrom(c.origin, log0, c.log, p, i, missed) && (c.calm ==> missed == {}) && forall j :: j in missed ==> j < i
    {
      var ref := p.runs[i];
      ghost var s1 := c.s;
      ghost var log1 := c.log;
      LoggedNow(c);
      var r := c.GetRequest(ref.name);
      ghost var s2 := c.s;
      ghost var log2 := c.log;
      LoggedNow(c);
      ReconcileStep(s1, s2, p, 0);
      OnwardTransitive(s0, s1, s2);
      FirstLater(c.origin, log0, log1, c.log, p, i, missed);
      if r.Missing? || (r.Found? && (r.value.uid != ref.uid || r.value.deleting)) {
        Unchoosable(s1, ref);
        OverlookedAt(c.origin, log0, log1, c.log, ref);
        FirstNext(c.origin, log0, c.log, p, i, missed);
      }
      if r.Unreadable? {
        missed := missed + {i};
        FirstMissed(c.origin, log0, c.log, p, i, missed);
      }
      if !r.Found? || r.value.uid != ref.uid { continue; }
      var record := c.LoadRun(ref.uid);
      ghost var s3 := c.s;
      ReconcileStep(s2, s3, p, 0);
      OnwardTransitive(s0, s2, s3);
      FirstLater(c.origin, log0, log2, c.log, p, i, missed);
      if record.Unreadable? { return true, p, missed; }
      if !r.value.deleting && record.Found? && record.value.run.phase == Queued {
        q := p.(pending := ref.uid);
        ChosenEnabled(s1, s2, s3, p, i);
        ChosenClear(s3, p, ref.uid);
        ghost var log3 := c.log;
        failed := SaveMirror(c, p, q, RunChosen);
        OnwardTransitive(s0, s3, c.s);
        if !failed { ClearSaved(s3, p, q, RunChosen, c.s, ref.uid); }
        FirstLater(c.origin, log0, log3, c.log, p, i, missed);
        return;
      }
      if !r.value.deleting {
        Unqueued(s2, ref);
        OverlookedAt(c.origin, log0, log2, c.log, ref);
      } else {
        Unchoosable(s1, ref);
        OverlookedAt(c.origin, log0, log1, c.log, ref);
      }
      FirstNext(c.origin, log0, c.log, p, i, missed);
    }
    ghost var log4 := c.log;
    ghost var s4 := c.s;
    NotedEnabled(s4, p);
    ChosenClear(s4, p, 0);
    failed := SaveMirror(c, p, p, SyncNoted);
    OnwardTransitive(s0, s4, c.s);
    FirstLater(c.origin, log0, log4, c.log, p, |p.runs|, missed);
    if !failed { ClearSaved(s4, p, p, SyncNoted, c.s, 0); }
  }

  lemma FirstNone(origin: State, before: seq<Step>, p: Mirror)
    ensures FirstFrom(origin, before, before, p, 0, {})
  {}

  lemma FirstNext(origin: State, before: seq<Step>, after: seq<Step>, p: Mirror, i: nat, missed: set<nat>)
    requires i < |p.runs| && FirstFrom(origin, before, after, p, i, missed) && Overlooked(origin, before, after, p.runs[i])
    ensures FirstFrom(origin, before, after, p, i + 1, missed)
  {}

  lemma Unchoosable(s: State, ref: Ref)
    ensures ref.name !in s.requests || s.requests[ref.name].uid != ref.uid || s.requests[ref.name].deleting ==> !Choosable(s, ref)
  {}

  lemma Unqueued(s: State, ref: Ref)
    ensures ref.uid !in s.runs || s.runs[ref.uid].run.phase != Queued ==> !Choosable(s, ref)
  {}

  lemma OnwardSelf(s: State)
    ensures Onward(s, s)
  {}

  lemma NotedEnabled(s: State, p: Mirror)
    requires Journals(s, p)
    ensures Enabled(s, SaveParent(p, SyncNoted))
  {}

  lemma ClearSaved(s: State, p: Mirror, q: Mirror, change: ParentChange, t: State, uid: Uid)
    requires Journals(s, p) && Enabled(s, SaveParent(q, change))
    requires Clear(Apply(s, SaveParent(q, change)), q, uid) && Rely(Apply(s, SaveParent(q, change)), t)
    ensures Clear(t, q, uid)
  {
    hide Inv, OthersRetired, Enabled;
    WriteKeeps(s, SaveParent(q, change));
    ClearMoved(Apply(s, SaveParent(q, change)), t, q, uid);
  }

  lemma ReconcileStep(s: State, t: State, p: Mirror, uid: Uid)
    requires Journals(s, p) && Clear(s, p, uid) && Rely(s, t) && Inv(t)
    ensures Journals(t, p) && Clear(t, p, uid) && t.teardown == s.teardown && Onward(s, t)
  {
    hide Inv, OthersRetired;
    ClearMoved(s, t, p, uid);
    RelyJournals(s, t, p);
    OnwardRely(s, t);
    TeardownKept(s, t);
  }

  // ---------------------------------------------------------------- one reconcile

  /** The pending run and its live request, read in this order, are fit to be advanced. */
  lemma StartWorking(s: State, t: State, u: State, p: Mirror, v: Versioned, request: Request)
    requires Journals(s, p) && Clear(s, p, p.pending) && !s.teardown && p.pending != 0
    requires p.pending in s.runs && s.runs[p.pending] == v
    requires Rely(s, t) && Inv(t) && Rely(t, u) && Inv(u)
    requires v.run.owner in t.requests && t.requests[v.run.owner] == request && request.uid == p.pending && !request.deleting
    ensures Working(u, p, p.pending, v)
  {
    hide Inv, Rely, Moved, Holds, Secured, OthersRetired, Requested;
    var uid := p.pending;
    FreshHolds(s, uid);
    HoldsRely(s, t, uid, v);
    RelyJournals(s, t, p);
    KeysKept(s, t);
    MovedBack(s, t, uid);
    TeardownKept(s, t);
    var i := PendingIndex(t, p);
    OwnRequest(t, p, i, v.run.owner);
    WantedUnreleased(t, p, i);
    if PastCapture(v.run) { PendingSecured(t, p, v); }
    ClearMoved(s, t, p, uid);
    PendingNumbered(t, p);
    WorkingMoved(t, u, p, uid, v);
  }

  lemma PendingNumbered(s: State, p: Mirror)
    requires Journals(s, p) && p.pending != 0
    ensures Enrolled(p, p.pending)
  {}

  lemma PendingIndex(s: State, p: Mirror) returns (i: nat)
    requires Journals(s, p) && p.pending != 0
    ensures i < |p.runs| && p.runs[i].uid == p.pending
  {
    i :| 0 <= i < |p.runs| && p.runs[i].uid == p.pending;
  }

  lemma OwnRequest(s: State, p: Mirror, i: nat, name: Name)
    requires Journals(s, p) && i < |p.runs| && name in s.requests && s.requests[name].uid == p.runs[i].uid && !s.requests[name].deleting
    ensures Requested(s, p.runs[i])
  {
    assert NamedOnly(s, p.runs[i]);
  }

  /** The pending run counts as depending on its revision while its request lives. */
  lemma PendingSecured(s: State, p: Mirror, v: Versioned)
    requires Journals(s, p) && !s.teardown && Holds(s, p.pending, v) && Wanted(s, p.pending) && PastCapture(v.run)
    ensures Secured(s, p.pending, v.run.revision)
  {
    hide Numbered, Journaled, OneGeneration, ActiveSound, Tidy, ClaimsNumbered;
    assert Core(s.runs[p.pending].run) == Core(v.run);
    assert s.runs[p.pending].run.revision == v.run.revision && s.runs[p.pending].run.phase == v.run.phase by {
      assert Core(v.run).revision == v.run.revision && Core(v.run).phase == v.run.phase;
    }
    assert Consumer(s, p.pending);
    assert Depends(s, p.pending);
  }

  /** The name of the scheduled request: fixed by the last start, so a retry finds it. */
  function SyncName(lastSync: Time): Name { lastSync }

  predicate Due(p: Mirror, spec: Spec, now: Time) {
    && !spec.suspend && now + MINUTE <= spec.expires
    && ((p.active == 0 && p.lastSync == 0) || (spec.interval.Some? && p.lastSync + spec.interval.value <= now))
  }

  /** The requests after a scheduled one was asked for: a name that exists is left alone. */
  function Scheduled(s: State, name: Name): map<Name, Request> {
    if name in s.requests then s.requests else s.requests[name := Request(s.next, false, None, false, false, false)]
  }

  method Schedule(c: Cluster, p: Mirror, spec: Spec) returns (failed: bool)
    requires Journals(c.s, p)
    requires c.Logged()
    modifies c
    ensures c.Logged() && old(c.log) <= c.log
    ensures Journals(c.s, p)
    ensures if Due(p, spec, old(c.s).now) then AskedOnce(old(c.s), p, c.s, failed) else Rely(old(c.s), c.s)
    ensures c.calm ==> !failed && c.s.requests == if Due(p, spec, old(c.s).now) then Scheduled(old(c.s), SyncName(p.lastSync)) else old(c.s).requests
  {
    hide Inv, Rely;
    ghost var s0 := c.s;
    var now := c.Now();
    RelyJournals(s0, c.s, p);
    if !Due(p, spec, now) { return false; }
    ghost var s1 := c.s;
    failed := c.Issue(CreateRequest(SyncName(p.lastSync)));
    RequestOnly(s1, CreateRequest(SyncName(p.lastSync)), c.s, failed);
    assert Rely(s0, s1);
  }

  /** Besides what others did, at most the one scheduled request was asked for. */
  ghost predicate AskedOnce(s: State, p: Mirror, t: State, failed: bool) {
    exists m :: Rely(s, m) && Wrote(m, CreateRequest(SyncName(p.lastSync)), t, failed)
  }

  lemma RequestOnly(s: State, w: Write, t: State, failed: bool)
    requires w.CreateRequest? && Wrote(s, w, t, failed)
    ensures t.parent == s.parent
  {}

  datatype Verdict = Blocked | Cleaning | Gone | Idling | Advanced

  /** Deletes a mirror: enrol what holds our finalizer, empty it, then forget it. */
  method Cleanup(c: Cluster, p: Mirror, retain: nat) returns (verdict: Verdict)
    requires Journals(c.s, p) && c.s.ending
    requires c.Logged()
    modifies c
    ensures c.Logged() && old(c.log) <= c.log
    ensures Inv(c.s) && (verdict.Gone? ==> c.s.parent.None?) && !verdict.Advanced? && !verdict.Idling?
  {
    hide Inv, Rely, Apply, Onward, Settled;
    var failed, done, q;
    ghost var s0 := c.s;
    failed, q := EnrollRuns(c, p);
    if failed { return Blocked; }
    EndingKept(s0, c.s);
    done, failed := Collect(c, q, retain, true);
    if failed { return Blocked; }
    if !done { return Cleaning; }
    ghost var s1 := c.s;
    failed := c.Issue(DropParent);
    if !failed { ParentDropped(s1, c.s); }
    return if failed then Blocked else Gone;
  }

  lemma EndingKept(s: State, t: State)
    requires Onward(s, t) && s.ending
    ensures t.ending
  {}

  lemma ParentDropped(s: State, t: State)
    requires Wrote(s, DropParent, t, false)
    ensures t.parent.None?
  {}

  lemma CreatedEnabled(s: State)
    requires Inv(s) && s.parent.None?
    ensures Enabled(s, SaveParent(NO_RUNS, Created))
  {}

  lemma MirrorCreated(s: State, t: State)
    requires Wrote(s, SaveParent(NO_RUNS, Created), t, false)
    ensures t.parent == Some(NO_RUNS) && t.teardown == s.teardown
  {}

  lemma NotEnding(s: State)
    requires Inv(s) && !s.ending
    ensures !s.teardown
  {}

  lemma ForceRead(s: State, t: State, name: Name)
    requires Inv(s) && Rely(s, t) && name in s.requests
    ensures s.requests[name].force <==> s.requests[name].uid in t.forced
  {
    hide ClaimsNumbered, UniqueRequests, Journaled, ActiveSound, OneGeneration, RevisionsKept, ReleasedIdle, ReleasedNumbered, ObjectsLater, RequestsLater;
  }

  /** The live request of the pending run, read after its record. */
  method LoadPending(c: Cluster, p: Mirror) returns (failed: bool, v: Versioned, request: Request)
    requires Journals(c.s, p) && Clear(c.s, p, p.pending) && !c.s.teardown && p.pending != 0
    requires c.Logged()
    modifies c
    ensures c.Logged() && old(c.log) <= c.log
    ensures Journals(c.s, p)
    ensures !failed ==> request.uid == p.pending && (!request.deleting ==> Working(c.s, p, p.pending, v))
    ensures !failed ==> (request.force <==> p.pending in c.s.forced)
  {
    hide Inv, Rely, Working, Clear;
    ghost var s0 := c.s;
    v := Versioned(Admitted(0, 0), 0);
    request := Request(0, false, None, false, false, false);
    var record := c.LoadRun(p.pending);
    RelyJournals(s0, c.s, p);
    if !record.Found? { return true, v, request; }
    v := record.value;
    ghost var s1 := c.s;
    var found := c.GetRequest(v.run.owner);
    RelyJournals(s1, c.s, p);
    if !found.Found? || found.value.uid != p.pending { return true, v, request; }
    request := found.value;
    ForceRead(s1, c.s, v.run.owner);
    if !request.deleting { StartWorking(s0, s1, c.s, p, v, request); }
    failed := false;
  }

  /** One reconcile.  `at` and `p` describe the moment the pending run was advanced: the
      previous pass of `collect` had retired every other generation unless one is active. */
  method Reconcile(c: Cluster, spec: Spec) returns (verdict: Verdict, ghost at: State, ghost p: Mirror)
    requires Inv(c.s) && 0 < spec.volumes
    requires c.Logged()
    modifies c
    ensures c.Logged() && old(c.log) <= c.log
    ensures Inv(c.s)
    ensures verdict.Advanced? ==> Journals(at, p) && p.pending != 0 && !at.teardown && (at.helm && p.active == 0 ==> OthersRetired(at, p.pending))
    ensures verdict.Advanced? ==> Stepped(p, p.pending, c.s)
    ensures verdict.Gone? ==> c.s.parent.None?
  {
    hide Inv, Rely, Apply, Onward, Settled, Enabled, Wrote, Working, Stepped, OthersRetired;
    ghost var s0 := c.s;
    at, p, verdict := s0, NO_RUNS, Blocked;
    var parent := c.LoadParent();
    ghost var s1 := c.s;
    RelyParent(s0, s1);
    if parent.Unreadable? { return; }
    var ended := c.IsEnding();
    ghost var s2 := c.s;
    RelyParent(s1, s2);
    if ended {
      if parent.Missing? { verdict := Gone; return; }
      EndedLater(s1, s2);
      verdict := Cleanup(c, parent.value, spec.retain);
      return;
    }
    NotEnding(s1);
    TeardownKept(s1, s2);
    var failed := false;
    if parent.Missing? {
      CreatedEnabled(s2);
      failed := c.Issue(SaveParent(NO_RUNS, Created));
      if failed { return; }
      MirrorCreated(s2, c.s);
    }
    verdict, at, p := ReconcileLive(c, if parent.Found? then parent.value else NO_RUNS, spec);
  }

  lemma RelyParent(s: State, t: State)
    requires Rely(s, t)
    ensures t.parent == s.parent
  {}

  lemma EndedLater(s: State, t: State)
    requires Rely(s, t) && s.ending
    ensures t.ending
  {}

  method ReconcileLive(c: Cluster, start: Mirror, spec: Spec) returns (verdict: Verdict, ghost at: State, ghost p: Mirror)
    requires Journals(c.s, start) && !c.s.teardown && 0 < spec.volumes
    requires c.Logged()
    modifies c
    ensures c.Logged() && old(c.log) <= c.log
    ensures Inv(c.s) && !verdict.Gone?
    ensures verdict.Advanced? ==> Journals(at, p) && p.pending != 0 && !at.teardown && (at.helm && p.active == 0 ==> OthersRetired(at, p.pending))
    ensures verdict.Advanced? ==> Stepped(p, p.pending, c.s)
  {
    hide Inv, Rely, Apply, Onward, Settled, Enabled, Wrote, Working, Stepped, OthersRetired;
    at, p, verdict := c.s, start, Blocked;
    var failed, done, q;
    failed, q := AcceptLease(c, start, spec.hold);
    if failed { return; }
    failed, q := EnrollRuns(c, q);
    if failed { return; }
    done, failed := Collect(c, q, spec.retain, false);
    if failed { return; }
    if !done { verdict := Cleaning; return; }
    SettledClear(c.s, q);
    ghost var missed;
    failed, q, missed := Choose(c, q);
    if failed { return; }
    at, p := c.s, q;
    if q.pending == 0 {
      failed := Schedule(c, q, spec);
      verdict := if failed then Blocked else Idling;
      return;
    }
    var v, request;
    failed, v, request := LoadPending(c, q);
    if failed { return; }
    if request.force && !c.s.forcible { return; }
    // A run whose request is being deleted is not advanced.
    if request.deleting { verdict := Idling; return; }
    at := c.s;
    WorkingParts(at, q, v);
    failed := Advance(c, q, q.pending, v, request, spec);
    verdict := Advanced;
  }

  lemma WorkingParts(s: State, p: Mirror, v: Versioned)
    requires Working(s, p, p.pending, v)
    ensures Journals(s, p) && p.pending != 0 && !s.teardown
    ensures s.helm && p.active == 0 ==> OthersRetired(s, p.pending)
  {}
}
