/** Advancing the pending run: capture, restore, replacement and activation. */
module MirrorAdvance {
  import opened Common
  import opened MirrorProtocol
  import opened MirrorFacts
  import opened MirrorCluster
  import opened MirrorCollect
  import opened MirrorCollectRuns

  ghost predicate Secured(s: State, uid: Uid, revision: Uid) {
    Captured(s, revision) && (revision in s.released ==> uid in s.late)
  }

  /** What one reconcile relies on while it advances run `uid` from its copy `v`:
      the run is pending, its revision is safe, and with the managed provider no other
      generation is left once the active pointer is empty. */
  ghost predicate Working(s: State, p: Mirror, uid: Uid, v: Versioned) {
    && Journals(s, p) && p.pending == uid && uid != 0 && !s.teardown
    && Holds(s, uid, v) && uid !in s.released
    && (PastCapture(v.run) ==> Secured(s, uid, v.run.revision))
    && (s.helm && p.active == 0 ==> OthersRetired(s, uid))
  }

  lemma OthersMoved(s: State, t: State, uid: Uid)
    requires Inv(s) && OthersRetired(s, uid) && Moved(s, t)
    ensures OthersRetired(t, uid)
  {
    forall i | 0 <= i < |Journal(t).runs| && Journal(t).runs[i].uid != uid ensures !ChildPresent(t, Journal(t).runs[i].uid) {
      if ChildPresent(t, Journal(t).runs[i].uid) { MovedChildPresent(s, t, Journal(t).runs[i].uid); }
    }
  }

  lemma SecuredMoved(s: State, t: State, uid: Uid, revision: Uid)
    requires Secured(s, uid, revision) && Rely(s, t)
    ensures Secured(t, uid, revision)
  {
    MovedCore(s, t, revision);
  }

  lemma WorkingMoved(s: State, t: State, p: Mirror, uid: Uid, v: Versioned)
    requires Working(s, p, uid, v) && Rely(s, t) && Inv(t)
    ensures Working(t, p, uid, v)
  {
    hide Inv, OthersRetired, Secured, Holds;
    HoldsMoved(s, t, uid, v);
    if PastCapture(v.run) { SecuredMoved(s, t, uid, v.run.revision); }
    if s.helm && p.active == 0 { OthersMoved(s, t, uid); }
  }

  lemma SavedWorking(s: State, p: Mirror, uid: Uid, v: Versioned, r: Run, change: RunChange)
    requires Working(s, p, uid, v) && s.runs[uid] == v && Enabled(s, SaveRun(uid, r, change))
    requires !change.MarkedRetiring? && !change.MarkedRetained?
    ensures Working(Apply(s, SaveRun(uid, r, change)), p, uid, Versioned(r, s.next))
  {
    WriteKeeps(s, SaveRun(uid, r, change));
    SavedHolds(s, uid, r, change);
    RunWriteFrame(s, uid, r, change);
    hide Sound, Holds;
    var t := Apply(s, SaveRun(uid, r, change));
    if PastCapture(r) { SavedSecured(s, p, uid, v, r, change); }
    if s.helm && p.active == 0 { assert OthersRetired(t, uid); }
  }

  lemma SavedSecured(s: State, p: Mirror, uid: Uid, v: Versioned, r: Run, change: RunChange)
    requires Working(s, p, uid, v) && s.runs[uid] == v && RunEnabled(s, uid, r, change) && PastCapture(r)
    requires !change.MarkedRetiring? && !change.MarkedRetained?
    ensures Secured(Apply(s, SaveRun(uid, r, change)), uid, r.revision)
  {
    RunWriteFrame(s, uid, r, change);
    assert RunShape(s, uid);
    assert PastCapture(v.run) ==> Secured(s, uid, v.run.revision);
  }

  /** The run asked for force, and the grant permits it. */
  ghost predicate Forcing(s: State, uid: Uid, force: bool) {
    force ==> s.forcible && uid in s.forced
  }

  /** At time `at` the lease of `p` had passed, or the run may override it. */
  ghost predicate Permitted(s: State, p: Mirror, uid: Uid, at: Time) {
    (s.forcible && uid in s.forced) || p.hold <= at
  }

  /** Time only advances, the grant does not change, and an ended mirror stays ended. */
  predicate Onward(s: State, t: State) {
    s.now <= t.now && s.next <= t.next && t.forcible == s.forcible && t.helm == s.helm && (s.ending ==> t.ending) && s.forced <= t.forced
  }

  lemma OnwardRely(s: State, t: State)
    requires Rely(s, t)
    ensures Onward(s, t)
  {}

  lemma OnwardTransitive(s: State, t: State, u: State)
    requires Onward(s, t) && Onward(t, u)
    ensures Onward(s, u)
  {}

  lemma OnwardSaved(s: State, uid: Uid, r: Run, change: RunChange, t: State)
    requires Rely(Apply(s, SaveRun(uid, r, change)), t)
    ensures Onward(s, t)
  {}

  lemma WroteJournals(s: State, w: Write, t: State, failed: bool, p: Mirror)
    requires Wrote(s, w, t, failed) && w.SaveRun? && s.parent == Some(p) && Inv(t)
    ensures Journals(t, p)
  {}

  lemma RelyJournals(s: State, t: State, p: Mirror)
    requires Journals(s, p) && Rely(s, t) && Inv(t)
    ensures Journals(t, p)
  {}

  /** Saves the run; a conflict, like any failed save, ends the reconcile. */
  method StoreRun(c: Cluster, p: Mirror, uid: Uid, v: Versioned, r: Run, change: RunChange) returns (failed: bool, later: Versioned)
    requires Working(c.s, p, uid, v) && !change.MarkedRetiring? && !change.MarkedRetained?
    requires c.s.runs[uid] == v ==> Enabled(c.s, SaveRun(uid, r, change))
    requires c.Logged()
    modifies c
    ensures c.Logged() && old(c.log) <= c.log
    ensures Journals(c.s, p)
    ensures !failed ==> Working(c.s, p, uid, later) && later.run == r && Onward(old(c.s), c.s)
    ensures !failed ==> Rely(Apply(old(c.s), SaveRun(uid, r, change)), c.s)
  {
    hide Rely, Enabled, Working, Holds, Apply;
    ghost var s0 := c.s;
    WorkingHolds(s0, p, uid, v);
    failed, later := c.Save(uid, r, v.version, change);
    WroteJournals(s0, SaveRun(uid, r, change), c.s, failed, p);
    if !failed {
      OnwardSaved(s0, uid, r, change, c.s);
      SavedWorking(s0, p, uid, v, r, change);
      WorkingMoved(Apply(s0, SaveRun(uid, r, change)), c.s, p, uid, later);
    }
  }

  lemma WorkingHolds(s: State, p: Mirror, uid: Uid, v: Versioned)
    requires Working(s, p, uid, v)
    ensures Journals(s, p) && Inv(s) && s.parent == Some(p) && p.pending == uid && 0 < uid < s.next
    ensures uid in s.runs && (s.runs[uid].version == v.version ==> s.runs[uid] == v)
    ensures ClaimsNumbered(v.run, s.next) && v.run.child < s.next && Enrolled(p, uid)
    ensures v.run.phase == s.runs[uid].run.phase && v.run.child == s.runs[uid].run.child && v.run.revision == s.runs[uid].run.revision
    ensures PastCapture(v.run) ==> Captured(s, v.run.revision)
  {
    hide ClaimsNumbered;
    assert Core(s.runs[uid].run) == Core(v.run);
    assert RunNumbered(s, uid);
  }

  /** Saves the parent record stable but for its clock or its pointers. */
  lemma NotedWorking(s: State, p: Mirror, uid: Uid, v: Versioned, at: Time)
    requires Working(s, p, uid, v)
    ensures var q := p.(lastSync := at); Enabled(s, SaveParent(q, SyncNoted)) && Working(Apply(s, SaveParent(q, SyncNoted)), q, uid, v)
  {
    var q := p.(lastSync := at);
    var w := SaveParent(q, SyncNoted);
    WriteKeeps(s, w);
    hide Inv, ClaimsNumbered;
    SameRuns(s, Apply(s, w));
  }

  // ---------------------------------------------------------------- inventoried objects

  /** The inventoried objects a run creates besides its generation. */
  datatype Slot = CaptureSnapshot(i: nat) | ImportSnapshot(i: nat) | ImportContent(i: nat) | PolicyEntry(i: nat)

  predicate HasSlot(r: Run, slot: Slot) {
    match slot
    case CaptureSnapshot(i) => i < |r.captures|
    case ImportSnapshot(i) => i < |r.imports|
    case ImportContent(i) => i < |r.imports|
    case PolicyEntry(i) => i < |r.policies|
  }

  function Claimed(r: Run, slot: Slot): Claim
    requires HasSlot(r, slot)
  {
    match slot
    case CaptureSnapshot(i) => r.captures[i].snapshot
    case ImportSnapshot(i) => r.imports[i].snapshot
    case ImportContent(i) => r.imports[i].content
    case PolicyEntry(i) => r.policies[i]
  }

  function Identified(r: Run, slot: Slot, uid: Uid): Run
    requires HasSlot(r, slot)
  {
    match slot
    case CaptureSnapshot(i) => r.(captures := r.captures[i := r.captures[i].(snapshot := r.captures[i].snapshot.(uid := uid))])
    case ImportSnapshot(i) => r.(imports := r.imports[i := r.imports[i].(snapshot := r.imports[i].snapshot.(uid := uid))])
    case ImportContent(i) => r.(imports := r.imports[i := r.imports[i].(content := r.imports[i].content.(uid := uid))])
    case PolicyEntry(i) => r.(policies := r.policies[i := r.policies[i].(uid := uid)])
  }

  lemma IdentifiedNumbered(r: Run, slot: Slot, uid: Uid, next: Uid)
    requires HasSlot(r, slot) && ClaimsNumbered(r, next) && uid < next
    ensures ClaimsNumbered(Identified(r, slot, uid), next)
    ensures SameOutcome(r, Identified(r, slot, uid)) && Identified(r, slot, uid).phase == r.phase
    ensures |Identified(r, slot, uid).captures| == |r.captures| && HasSlot(Identified(r, slot, uid), slot)
    ensures |Identified(r, slot, uid).imports| == |r.imports|
    ensures Claimed(Identified(r, slot, uid), slot) == Claimed(r, slot).(uid := uid)
  {
    match slot
    case CaptureSnapshot(i) => assert r.captures[i] in r.captures;
    case ImportSnapshot(i) => assert r.imports[i] in r.imports;
    case ImportContent(i) => assert r.imports[i] in r.imports;
    case PolicyEntry(i) => assert r.policies[i] in r.policies;
  }

  lemma SlotKind(r: Run, slot: Slot, next: Uid)
    requires HasSlot(r, slot) && ClaimsNumbered(r, next)
    ensures Claimed(r, slot).key.kind != Generation && Claimed(r, slot).uid < next
  {
    match slot
    case CaptureSnapshot(i) => assert r.captures[i] in r.captures;
    case ImportSnapshot(i) => assert r.imports[i] in r.imports;
    case ImportContent(i) => assert r.imports[i] in r.imports;
    case PolicyEntry(i) => assert r.policies[i] in r.policies;
  }

  lemma PendingCreates(s: State, p: Mirror, uid: Uid, v: Versioned, key: Key, op: Op)
    requires Working(s, p, uid, v) && key.kind != Generation && key !in s.objects
    ensures Enabled(s, CreateObject(key, uid, op))
  {}

  lemma BookkeepingEnabled(s: State, p: Mirror, uid: Uid, v: Versioned, r: Run)
    requires Working(s, p, uid, v) && s.runs[uid] == v
    requires SameOutcome(v.run, r) && r.phase == v.run.phase && |r.captures| == |v.run.captures| && ClaimsNumbered(r, s.next)
    ensures Enabled(s, SaveRun(uid, r, Bookkept))
  {
    hide ClaimsNumbered;
    WorkingHolds(s, p, uid, v);
  }

  method Bookkeep(c: Cluster, p: Mirror, uid: Uid, v: Versioned, r: Run) returns (failed: bool, later: Versioned)
    requires Working(c.s, p, uid, v)
    requires SameOutcome(v.run, r) && r.phase == v.run.phase && |r.captures| == |v.run.captures| && ClaimsNumbered(r, c.s.next)
    requires c.Logged()
    modifies c
    ensures c.Logged() && old(c.log) <= c.log
    ensures Journals(c.s, p)
    ensures !failed ==> Working(c.s, p, uid, later) && later.run == r && Onward(old(c.s), c.s)
  {
    hide Rely, Enabled, Working, Holds, Apply, ClaimsNumbered;
    WorkingHolds(c.s, p, uid, v);
    if c.s.runs[uid] == v { BookkeepingEnabled(c.s, p, uid, v, r); }
    failed, later := StoreRun(c, p, uid, v, r, Bookkept);
  }

  /** Creates the object of a claim that has no identity yet. */
  method PlaceObject(c: Cluster, p: Mirror, uid: Uid, v: Versioned, claim: Claim) returns (failed: bool, live: Object)
    requires Working(c.s, p, uid, v) && claim.key.kind != Generation
    requires c.Logged()
    modifies c
    ensures c.Logged() && old(c.log) <= c.log
    ensures Journals(c.s, p)
    ensures !failed ==> Working(c.s, p, uid, v) && Onward(old(c.s), c.s) && 0 < live.uid < c.s.next
    ensures live.owner == uid && live.op == claim.op && !live.deleting
  {
    hide Inv, Rely, Enabled, Working, Holds, Apply, ClaimsNumbered;
    ghost var s1 := c.s;
    if claim.key !in s1.objects { PendingCreates(s1, p, uid, v, claim.key, claim.op); }
    WorkingHolds(s1, p, uid, v);
    failed, live := c.Create(claim.key, uid, claim.op);
    RelyJournals(s1, c.s, p);
    if failed { return; }
    InvNext(s1);
    OnwardRely(s1, c.s);
    WorkingMoved(s1, c.s, p, uid, v);
  }

  /** The object that serves `slot`: created under a recorded operation, never replaced
      silently once its UID is known, and never adopted from another owner. */
  method Ensure(c: Cluster, p: Mirror, uid: Uid, v: Versioned, slot: Slot) returns (failed: bool, live: Object, later: Versioned)
    requires Working(c.s, p, uid, v) && HasSlot(v.run, slot)
    requires c.Logged()
    modifies c
    ensures c.Logged() && old(c.log) <= c.log
    ensures Journals(c.s, p)
    ensures !failed ==> Working(c.s, p, uid, later) && Onward(old(c.s), c.s)
    ensures !failed ==> later.run == Identified(v.run, slot, live.uid) && live.uid != 0 && (slot.PolicyEntry? || !live.deleting)
    ensures !failed ==> Owns(live, uid, Claimed(v.run, slot).op, Claimed(v.run, slot).uid)
    ensures !failed && Claimed(v.run, slot).uid != 0 ==> later == v
  {
    hide Inv, Rely, Enabled, Working, Holds, Apply, ClaimsNumbered, Identified, Claimed;
    ghost var s0 := c.s;
    var claim := Claimed(v.run, slot);
    later := v;
    WorkingHolds(s0, p, uid, v);
    SlotKind(v.run, slot, s0.next);
    IdentifiedSame(v.run, slot);
    var found := c.Get(claim.key);
    ghost var s1 := c.s;
    OnwardRely(s0, s1);
    WorkingMoved(s0, s1, p, uid, v);
    WorkingHolds(s1, p, uid, v);
    live := Object(0, 0, 0, false, false);
    if found.Unreadable? { return true, live, v; }
    if found.Found? {
      live := found.value;
      FoundNumbered(s0, s1, claim.key);
    } else {
      if claim.uid != 0 { return true, live, v; }
      failed, live := PlaceObject(c, p, uid, v, claim);
      if failed { return; }
    }
    ghost var s2 := c.s;
    WorkingHolds(s2, p, uid, v);
    var same: bool := *; // the specification contains what was asked for
    if !Owns(live, uid, claim.op, claim.uid) || !same { return true, live, v; }
    if claim.uid == 0 {
      IdentifiedNumbered(v.run, slot, live.uid, s2.next);
      failed, later := Bookkeep(c, p, uid, v, Identified(v.run, slot, live.uid));
      if failed { return; }
    }
    failed := !slot.PolicyEntry? && live.deleting;
  }

  lemma InvNext(s: State)
    requires Inv(s)
    ensures 0 < s.next
  {}

  lemma FoundNumbered(s: State, t: State, key: Key)
    requires Inv(s) && key in s.objects && Rely(s, t)
    ensures 0 < s.objects[key].uid < t.next
  {}

  lemma IdentifiedSame(r: Run, slot: Slot)
    requires HasSlot(r, slot)
    ensures Identified(r, slot, Claimed(r, slot).uid) == r
  {}

  // ---------------------------------------------------------------- capture

  /** Content `i` bound to its snapshot, journaled as soon as it is known. */
  function WithContent(r: Run, i: nat, key: Key, uid: Uid): Run
    requires i < |r.captures|
  {
    r.(captures := r.captures[i := r.captures[i].(content := Claim(key, r.captures[i].content.op, uid))])
  }

  function WithHandle(r: Run, i: nat, handle: Uid, at: Time): Run
    requires i < |r.captures|
  {
    r.(captures := r.captures[i := r.captures[i].(handle := handle, takenAt := at)])
  }

  lemma ContentNumbered(r: Run, i: nat, name: Name, uid: Uid, next: Uid)
    requires i < |r.captures| && ClaimsNumbered(r, next) && uid < next
    ensures ClaimsNumbered(WithContent(r, i, Key(Content, name), uid), next)
  {
    assert r.captures[i] in r.captures;
  }

  lemma HandleNumbered(r: Run, i: nat, handle: Uid, at: Time, next: Uid)
    requires i < |r.captures| && ClaimsNumbered(r, next)
    ensures ClaimsNumbered(WithHandle(r, i, handle, at), next)
  {
    assert r.captures[i] in r.captures;
  }

  /** What the snapshot controller reported: its content, and once ready the handle. */
  datatype Progress = Progress(sourceSame: bool, bound: Option<Name>, error: bool, matches: bool, ready: bool, handle: Uid, at: Time)

  method CaptureVolume(c: Cluster, p: Mirror, uid: Uid, v: Versioned, i: nat) returns (done: bool, failed: bool, later: Versioned)
    requires Working(c.s, p, uid, v) && i < |v.run.captures| && Taken(v.run, i) && v.run.phase == Capturing
    requires c.Logged()
    modifies c
    ensures c.Logged() && old(c.log) <= c.log
    ensures Journals(c.s, p)
    ensures done ==> !failed && Working(c.s, p, uid, later)
    ensures done ==> Taken(later.run, i + 1) && |later.run.captures| == |v.run.captures| && later.run.phase == Capturing
  {
    hide Inv, Rely, Enabled, Working, Holds, Apply, ClaimsNumbered, Taken, Onward, WithContent, WithHandle;
    var status: Progress := *;
    later := v;
    WorkingHolds(c.s, p, uid, v);
    if !status.sourceSame { return false, true, v; }
    var live;
    failed, live, later := Ensure(c, p, uid, v, CaptureSnapshot(i));
    if failed || !status.bound.Some? { return false, failed || status.error, later; }
    SnapshotTaken(v.run, i, live.uid);
    failed, later := BindContent(c, p, uid, later, i, status);
    if failed { return false, true, later; }
    if status.error { return false, true, later; }
    if !status.ready || status.handle == 0 { return false, false, later; }
    if later.run.captures[i].handle != 0 && later.run.captures[i].handle != status.handle { return false, true, later; }
    if status.at == 0 { return false, true, later; }
    WorkingHolds(c.s, p, uid, later);
    HandleNumbered(later.run, i, status.handle, status.at, c.s.next);
    HandleTaken(later.run, i, status.handle, status.at);
    failed, later := Bookkeep(c, p, uid, later, WithHandle(later.run, i, status.handle, status.at));
    done := !failed;
  }

  lemma SnapshotTaken(r: Run, i: nat, uid: Uid)
    requires Taken(r, i) && i < |r.captures|
    ensures var t := Identified(r, CaptureSnapshot(i), uid); Taken(t, i) && |t.captures| == |r.captures| && t.phase == r.phase
  {}

  lemma ContentTaken(r: Run, i: nat, key: Key, uid: Uid)
    requires Taken(r, i) && i < |r.captures|
    ensures var t := WithContent(r, i, key, uid);
      Taken(t, i) && |t.captures| == |r.captures| && t.phase == r.phase && t.captures[i].content.uid == uid && SameOutcome(r, t)
  {}

  lemma HandleTaken(r: Run, i: nat, handle: Uid, at: Time)
    requires Taken(r, i) && i < |r.captures| && handle != 0 && at != 0
    ensures var t := WithHandle(r, i, handle, at);
      Taken(t, i + 1) && |t.captures| == |r.captures| && t.phase == r.phase && SameOutcome(r, t)
  {}

  /** Journals the content bound to a snapshot, also while it is not ready or in error. */
  method BindContent(c: Cluster, p: Mirror, uid: Uid, v: Versioned, i: nat, status: Progress) returns (failed: bool, later: Versioned)
    requires Working(c.s, p, uid, v) && i < |v.run.captures| && Taken(v.run, i) && v.run.phase == Capturing && status.bound.Some?
    requires c.Logged()
    modifies c
    ensures c.Logged() && old(c.log) <= c.log
    ensures Journals(c.s, p)
    ensures !failed ==> Working(c.s, p, uid, later) && later.run.phase == Capturing
    ensures !failed ==> Taken(later.run, i) && |later.run.captures| == |v.run.captures| && later.run.captures[i].content.uid != 0
  {
    hide Inv, Rely, Enabled, Working, Holds, Apply, ClaimsNumbered, Taken, Onward, WithContent;
    ghost var s1 := c.s;
    WorkingHolds(s1, p, uid, v);
    var content := c.Get(Key(Content, status.bound.value));
    WorkingMoved(s1, c.s, p, uid, v);
    ghost var s2 := c.s;
    WorkingHolds(s2, p, uid, v);
    if !content.Found? || !status.matches { return true, v; }
    FoundNumbered(s1, s2, Key(Content, status.bound.value));
    var known := v.run.captures[i].content.uid;
    if known != 0 && known != content.value.uid { return true, v; }
    if known != 0 { return false, v; }
    ContentNumbered(v.run, i, status.bound.value, content.value.uid, s2.next);
    ContentTaken(v.run, i, Key(Content, status.bound.value), content.value.uid);
    failed, later := Bookkeep(c, p, uid, v, WithContent(v.run, i, Key(Content, status.bound.value), content.value.uid));
  }

  method CaptureVolumes(c: Cluster, p: Mirror, uid: Uid, v: Versioned) returns (done: bool, failed: bool, later: Versioned)
    requires Working(c.s, p, uid, v) && v.run.phase == Capturing
    requires c.Logged()
    modifies c
    ensures c.Logged() && old(c.log) <= c.log
    ensures Journals(c.s, p)
    ensures done ==> !failed && Working(c.s, p, uid, later) && later.run.phase == Capturing
    ensures done ==> Taken(later.run, |later.run.captures|) && |later.run.captures| == |v.run.captures|
  {
    hide Working, Inv;
    later := v;
    for i := 0 to |v.run.captures|
      invariant c.Logged() && old(c.log) <= c.log
      invariant Working(c.s, p, uid, later) && later.run.phase == Capturing
      invariant |later.run.captures| == |v.run.captures| && Taken(later.run, i)
    {
      done, failed, later := CaptureVolume(c, p, uid, later, i);
      if !done { return; }
    }
    WorkingHolds(c.s, p, uid, later);
    return true, false, later;
  }

  lemma FinishEnabled(s: State, p: Mirror, uid: Uid, v: Versioned)
    requires Working(s, p, uid, v) && s.runs[uid] == v && v.run.phase == Capturing && Taken(v.run, |v.run.captures|)
    ensures Enabled(s, SaveRun(uid, v.run.(capturedAt := Latest(v.run.captures), phase := Restoring), CaptureFinished))
  {
    hide ClaimsNumbered;
    WorkingHolds(s, p, uid, v);
    assert RunShape(s, uid);
    var r := v.run.(capturedAt := Latest(v.run.captures), phase := Restoring);
    assert ClaimsNumbered(r, s.next) by { SameClaims(v.run, r, s.next); }
  }

  lemma SameClaims(r: Run, t: Run, next: Uid)
    requires ClaimsNumbered(r, next)
    requires t.volumes == r.volumes && t.imports == r.imports && t.policies == r.policies && t.captures == r.captures
    ensures ClaimsNumbered(t, next)
  {}

  /** The record as it was just saved, but for the inventories others may add to. */
  lemma StoredCore(s: State, t: State, uid: Uid, r: Run, change: RunChange)
    requires Rely(Apply(s, SaveRun(uid, r, change)), t)
    ensures uid in t.runs && Core(t.runs[uid].run) == Core(r)
  {}

  /** A finished capture: every volume has its backend snapshot, and its recovery point is
      the latest of theirs. */
  ghost predicate CaptureDone(r: Run) {
    r.phase == Restoring && Taken(r, |r.captures|) && r.capturedAt == Latest(r.captures)
  }

  /** Finishing a capture: every volume has its backend snapshot, and the configuration
      read again is the one captured. */
  method FinishCapture(c: Cluster, p: Mirror, uid: Uid, v: Versioned) returns (finished: bool, failed: bool)
    requires Working(c.s, p, uid, v) && v.run.phase == Capturing
    requires c.Logged()
    modifies c
    ensures c.Logged() && old(c.log) <= c.log
    ensures Journals(c.s, p)
    ensures finished ==> !failed && uid in c.s.runs && CaptureDone(c.s.runs[uid].run)
  {
    hide Inv, Rely, Enabled, Working, Holds, Apply, ClaimsNumbered, Latest, Taken;
    var later;
    finished, failed, later := CaptureVolumes(c, p, uid, v);
    if !finished { return; }
    var stable: bool := *;
    WorkingHolds(c.s, p, uid, later);
    if !stable { return false, true; }
    if c.s.runs[uid] == later { FinishEnabled(c.s, p, uid, later); }
    var r := later.run.(capturedAt := Latest(later.run.captures), phase := Restoring);
    SameTaken(later.run, r);
    ghost var s0 := c.s;
    failed, later := StoreRun(c, p, uid, later, r, CaptureFinished);
    finished := !failed;
    if finished {
      StoredCore(s0, c.s, uid, r, CaptureFinished);
      SameTaken(r, c.s.runs[uid].run);
    }
  }

  lemma SameTaken(r: Run, t: Run)
    requires r.captures == t.captures
    ensures Taken(r, |r.captures|) == Taken(t, |t.captures|)
  {}

  // ---------------------------------------------------------------- restore

  /** One import for each capture of the revision, in order. */
  predicate Matched(imports: seq<Import>, n: nat) {
    forall j :: 0 <= j < |imports| ==> imports[j].source < n
  }

  method PlanImports(n: nat) returns (imports: seq<Import>)
    ensures |imports| == n && Matched(imports, n)
    ensures forall j :: 0 <= j < n ==> imports[j].source == j && imports[j].snapshot.uid == 0 && imports[j].content.uid == 0
    ensures forall j :: 0 <= j < n ==> imports[j].snapshot.key.kind == Snapshot && imports[j].content.key.kind == Content
  {
    imports := [];
    for i := 0 to n
      invariant |imports| == i && Matched(imports, n)
      invariant forall j :: 0 <= j < i ==> imports[j].source == j && imports[j].snapshot.uid == 0 && imports[j].content.uid == 0
      invariant forall j :: 0 <= j < i ==> imports[j].snapshot.key.kind == Snapshot && imports[j].content.key.kind == Content
    {
      var op: Op := *;
      var name: Name := *;
      imports := imports + [Import(Claim(Key(Snapshot, name), op, 0), Claim(Key(Content, name), op, 0), i)];
    }
  }

  lemma PlannedNumbered(r: Run, imports: seq<Import>, next: Uid)
    requires ClaimsNumbered(r, next) && 0 < next
    requires forall j :: 0 <= j < |imports| ==> imports[j].snapshot.uid == 0 && imports[j].content.uid == 0
    requires forall j :: 0 <= j < |imports| ==> imports[j].snapshot.key.kind == Snapshot && imports[j].content.key.kind == Content
    ensures ClaimsNumbered(r.(imports := imports), next)
  {}

  /** Imports every capture of the revision; the capture must still exist as recorded. */
  method ImportVolumes(c: Cluster, p: Mirror, uid: Uid, v: Versioned, captures: seq<Capture>) returns (done: bool, failed: bool, later: Versioned)
    requires Working(c.s, p, uid, v)
    requires c.Logged()
    modifies c
    ensures c.Logged() && old(c.log) <= c.log
    ensures Journals(c.s, p)
    ensures done ==> !failed && Working(c.s, p, uid, later) && Onward(old(c.s), c.s)
    ensures done ==> SameOutcome(v.run, later.run) && later.run.phase == v.run.phase && later.run.operation == v.run.operation
    ensures done && captures != [] ==> later.run.imports != []
    ensures done ==> forall m :: m in later.run.imports ==> Identifies(m)
  {
    hide Inv, Rely, Enabled, Working, Holds, Apply, ClaimsNumbered, Identified, Claimed;
    later := v;
    WorkingHolds(c.s, p, uid, v);
    if v.run.imports == [] {
      var imports := PlanImports(|captures|);
      InvNext(c.s);
      PlannedNumbered(v.run, imports, c.s.next);
      failed, later := Bookkeep(c, p, uid, v, v.run.(imports := imports));
      if failed { return false, true, later; }
    }
    ghost var planned := later.run;
    for i := 0 to |later.run.imports|
      invariant c.Logged() && old(c.log) <= c.log
      invariant Working(c.s, p, uid, later) && |later.run.imports| == |planned.imports| && Onward(old(c.s), c.s)
      invariant SameOutcome(v.run, later.run) && later.run.phase == v.run.phase && later.run.operation == v.run.operation
      invariant forall j :: 0 <= j < i ==> Identifies(later.run.imports[j])
    {
      done, failed, later := ImportVolume(c, p, uid, later, i, captures);
      if !done { return; }
    }
    WorkingHolds(c.s, p, uid, later);
    return true, false, later;
  }

  lemma IdentifiedFrame(r: Run, slot: Slot, uid: Uid)
    requires HasSlot(r, slot)
    ensures var t := Identified(r, slot, uid);
      SameOutcome(r, t) && t.phase == r.phase && t.operation == r.operation && t.planned == r.planned && |t.imports| == |r.imports| && |t.captures| == |r.captures| && |t.policies| == |r.policies|
  {}

  /** Both objects of an import were created, or recognised, and recorded. */
  predicate Identifies(m: Import) { m.snapshot.uid != 0 && m.content.uid != 0 }

  lemma ImportIdentified(r: Run, i: nat, snapshot: Uid, content: Uid)
    requires i < |r.imports| && snapshot != 0 && content != 0
    ensures var t := Identified(Identified(r, ImportSnapshot(i), snapshot), ImportContent(i), content);
      |t.imports| == |r.imports| && Identifies(t.imports[i]) && forall j :: 0 <= j < |r.imports| && Identifies(r.imports[j]) ==> Identifies(t.imports[j])
  {}

  method ImportVolume(c: Cluster, p: Mirror, uid: Uid, v: Versioned, i: nat, captures: seq<Capture>) returns (done: bool, failed: bool, later: Versioned)
    requires Working(c.s, p, uid, v) && i < |v.run.imports|
    requires c.Logged()
    modifies c
    ensures c.Logged() && old(c.log) <= c.log
    ensures Journals(c.s, p)
    ensures done ==> !failed && Working(c.s, p, uid, later) && Onward(old(c.s), c.s)
    ensures done ==> SameOutcome(v.run, later.run) && later.run.phase == v.run.phase && later.run.operation == v.run.operation
    ensures done ==> |later.run.imports| == |v.run.imports| && Identifies(later.run.imports[i])
    ensures done ==> forall j :: 0 <= j < |v.run.imports| && Identifies(v.run.imports[j]) ==> Identifies(later.run.imports[j])
  {
    hide Inv, Rely, Enabled, Working, Holds, Apply, ClaimsNumbered, Identified, Claimed;
    var available: bool := *; // the content is ready and its handle is the recorded one
    later := v;
    ghost var s0 := c.s;
    WorkingHolds(s0, p, uid, v);
    var m := v.run.imports[i];
    if m.source >= |captures| { return false, true, v; }
    var original := c.Get(captures[m.source].content.key);
    WorkingMoved(s0, c.s, p, uid, v);
    OnwardRely(s0, c.s);
    if !original.Found? || original.value.uid != captures[m.source].content.uid || !available {
      WorkingHolds(c.s, p, uid, v);
      return false, true, v;
    }
    var live, content;
    IdentifiedFrame(v.run, ImportSnapshot(i), 0);
    failed, live, later := Ensure(c, p, uid, v, ImportSnapshot(i));
    if failed { return false, true, later; }
    IdentifiedFrame(v.run, ImportSnapshot(i), live.uid);
    ghost var middle := later.run;
    failed, content, later := Ensure(c, p, uid, later, ImportContent(i));
    if failed { return false, true, later; }
    IdentifiedFrame(middle, ImportContent(i), content.uid);
    ImportIdentified(v.run, i, live.uid, content.uid);
    WorkingHolds(c.s, p, uid, later);
    return live.ready, false, later;
  }

  // ---------------------------------------------------------------- replacement

  lemma StepEnabled(s: State, p: Mirror, uid: Uid, v: Versioned, phase: Phase)
    requires Working(s, p, uid, v) && s.runs[uid] == v && RestorePhase(v.run.phase) && RestorePhase(phase)
    ensures Enabled(s, SaveRun(uid, v.run.(phase := phase), RestoreStepped))
  {
    hide Inv, ClaimsNumbered;
    WorkingHolds(s, p, uid, v);
    SameClaims(v.run, v.run.(phase := phase), s.next);
  }

  method StepPhase(c: Cluster, p: Mirror, uid: Uid, v: Versioned, phase: Phase) returns (failed: bool, later: Versioned)
    requires Working(c.s, p, uid, v) && RestorePhase(v.run.phase) && RestorePhase(phase)
    requires c.Logged()
    modifies c
    ensures c.Logged() && old(c.log) <= c.log
    ensures Journals(c.s, p)
    ensures !failed ==> Working(c.s, p, uid, later) && later.run == v.run.(phase := phase) && Onward(old(c.s), c.s)
    ensures !failed ==> Rely(Apply(old(c.s), SaveRun(uid, v.run.(phase := phase), RestoreStepped)), c.s)
  {
    hide Inv, Rely, Enabled, Working, Holds, Apply, ClaimsNumbered;
    WorkingHolds(c.s, p, uid, v);
    if c.s.runs[uid] == v { StepEnabled(c.s, p, uid, v, phase); }
    failed, later := StoreRun(c, p, uid, v, v.run.(phase := phase), RestoreStepped);
  }

  lemma RetiringEnabled(s: State, p: Mirror, uid: Uid, v: Versioned, old_: Versioned)
    requires Working(s, p, uid, v) && p.active != 0 && p.active in s.runs && s.runs[p.active] == old_
    ensures Enabled(s, SaveRun(p.active, old_.run.(phase := Retiring), MarkedRetiring))
  {
    hide ClaimsNumbered;
    SameClaims(old_.run, old_.run.(phase := Retiring), s.next);
  }

  /** Marking the old generation leaves everything the pending run relies on. */
  lemma RetiringWorking(s: State, p: Mirror, uid: Uid, v: Versioned, r: Run)
    requires Working(s, p, uid, v) && p.active != 0 && Enabled(s, SaveRun(p.active, r, MarkedRetiring))
    ensures Working(Apply(s, SaveRun(p.active, r, MarkedRetiring)), p, uid, v)
    ensures var t := Apply(s, SaveRun(p.active, r, MarkedRetiring)); p.active in t.runs && t.runs[p.active].run.phase == Retiring
  {
    WriteKeeps(s, SaveRun(p.active, r, MarkedRetiring));
    ActiveIsOther(s, p, uid, v);
    HoldsElsewhere(s, p.active, r, MarkedRetiring, uid, v);
    RunWriteFrame(s, p.active, r, MarkedRetiring);
    hide Inv, Holds, ClaimsNumbered, RunEnabled, ParentEnabled, Taken, Latest, Enrolled, Present, LeaseOpen, MadeIs, Unneeded, AllSwept, Pinned;
  }

  lemma ActiveIsOther(s: State, p: Mirror, uid: Uid, v: Versioned)
    requires Working(s, p, uid, v)
    ensures p.active != uid
  {}

  /** Marks the active generation Retiring. */
  method RetireActive(c: Cluster, p: Mirror, uid: Uid, v: Versioned, active: Versioned) returns (failed: bool)
    requires Working(c.s, p, uid, v) && p.active != 0 && Holds(c.s, p.active, active)
    requires c.Logged()
    modifies c
    ensures c.Logged() && old(c.log) <= c.log
    ensures Journals(c.s, p)
    ensures !failed ==> Working(c.s, p, uid, v) && p.active in c.s.runs && c.s.runs[p.active].run.phase == Retiring && Onward(old(c.s), c.s)
  {
    hide Inv, Rely, Enabled, Working, Holds, Apply, ClaimsNumbered;
    ghost var s0 := c.s;
    var r := active.run.(phase := Retiring);
    WorkingHolds(s0, p, uid, v);
    HoldsVersions(s0, p.active, active);
    if s0.runs[p.active] == active { RetiringEnabled(s0, p, uid, v, active); }
    var saved;
    failed, saved := c.Save(p.active, r, active.version, MarkedRetiring);
    WroteJournals(s0, SaveRun(p.active, r, MarkedRetiring), c.s, failed, p);
    if !failed {
      RetiringWorking(s0, p, uid, v, r);
      ghost var s1 := Apply(s0, SaveRun(p.active, r, MarkedRetiring));
      WorkingMoved(s1, c.s, p, uid, v);
      OnwardSaved(s0, p.active, r, MarkedRetiring, c.s);
      RelyMoved(s1, c.s);
      MovedCore(s1, c.s, p.active);
    }
  }

  lemma HoldsVersions(s: State, uid: Uid, v: Versioned)
    requires Holds(s, uid, v)
    ensures uid in s.runs && (s.runs[uid].version == v.version ==> s.runs[uid] == v)
  {}

  lemma ReplacedEnabled(s: State, p: Mirror, uid: Uid)
    requires Inv(s) && s.parent == Some(p) && p.active != 0 && p.active in s.runs && s.runs[p.active].run.phase == Retiring
    requires LeaseOpen(s, uid) && p.pending == uid
    ensures Enabled(s, SaveParent(p.(active := 0), RunReplaced))
  {}

  lemma HoldsRely(s: State, t: State, uid: Uid, v: Versioned)
    requires Holds(s, uid, v) && Rely(s, t)
    ensures Holds(t, uid, v)
  {
    HoldsMoved(s, t, uid, v);
  }

  lemma ClockRead(s: State, t: State, p: Mirror, uid: Uid, at: Time)
    requires s.parent == Some(p) && at <= s.now && Onward(s, t) && t.parent == Some(p)
    requires Permitted(s, p, uid, at)
    ensures LeaseOpen(t, uid)
  {}

  lemma Allowed(s: State, p: Mirror, uid: Uid, force: bool, at: Time)
    requires Forcing(s, uid, force) && (force || p.hold <= at)
    ensures Permitted(s, p, uid, at)
  {}

  lemma RestorePhases()
    ensures RestorePhase(AwaitingReplacement) && RestorePhase(Replacing)
  {}

  /** The pending run records that it is replacing before the old one is touched. */
  method StepAside(c: Cluster, p: Mirror, uid: Uid, v: Versioned, active: Versioned) returns (failed: bool, later: Versioned)
    requires Working(c.s, p, uid, v) && RestorePhase(v.run.phase) && Holds(c.s, p.active, active)
    requires c.Logged()
    modifies c
    ensures c.Logged() && old(c.log) <= c.log
    ensures Journals(c.s, p)
    ensures !failed ==> Working(c.s, p, uid, later) && Holds(c.s, p.active, active) && Onward(old(c.s), c.s)
  {
    hide Inv, Rely, Enabled, Working, Holds, Apply, ClaimsNumbered;
    ghost var s0 := c.s;
    ActiveIsOther(s0, p, uid, v);
    failed, later := StepPhase(c, p, uid, v, Replacing);
    if !failed {
      HoldsElsewhere(s0, uid, v.run.(phase := Replacing), RestoreStepped, p.active, active);
      HoldsRely(Apply(s0, SaveRun(uid, v.run.(phase := Replacing), RestoreStepped)), c.s, p.active, active);
    }
  }

  /** With the managed provider only one runtime may exist: the old generation is marked
      and the pointer cleared once the lease allows it; the new one waits until a later
      reconcile has seen the old one retired. */
  method ManagedReplacement(c: Cluster, p: Mirror, uid: Uid, v: Versioned, force: bool) returns (available: bool, failed: bool)
    requires Working(c.s, p, uid, v) && RestorePhase(v.run.phase) && Forcing(c.s, uid, force)
    requires c.Logged()
    modifies c
    ensures c.Logged() && old(c.log) <= c.log
    ensures Inv(c.s)
    ensures c.s.parent == Some(p) || (c.s.parent == Some(p.(active := 0)) && p.active != 0 && LeaseOpen(c.s, uid))
    ensures available ==> !failed && p.active == 0 && c.s == old(c.s)
  {
    hide *;
    ghost var s0 := c.s;
    var later := v;
    WorkingHolds(s0, p, uid, v);
    if p.active == 0 { return true, false; }
    var at := c.Now();
    ghost var s1 := c.s;
    WorkingMoved(s0, s1, p, uid, v);
    OnwardRely(s0, s1);
    WorkingHolds(s1, p, uid, v);
    if !force && at < p.hold {
      failed := false;
      if v.run.phase != AwaitingReplacement {
        RestorePhases();
        failed, later := StepPhase(c, p, uid, v, AwaitingReplacement);
        JournalsParts(c.s, p);
      }
      return false, failed;
    }
    Allowed(s0, p, uid, force, at);
    var active := c.LoadRun(p.active);
    ghost var s2 := c.s;
    RelyJournals(s1, s2, p);
    if !active.Found? { return false, true; }
    OnwardRely(s1, s2);
    OnwardTransitive(s0, s1, s2);
    WorkingMoved(s1, s2, p, uid, v);
    FreshHolds(s1, p.active);
    HoldsRely(s1, s2, p.active, active.value);
    ActiveIsOther(s2, p, uid, v);
    failed, later := StepAside(c, p, uid, v, active.value);
    JournalsParts(c.s, p);
    if failed { return false, true; }
    OnwardTransitive(s0, s2, c.s);
    ghost var s3 := c.s;
    failed := RetireActive(c, p, uid, later, active.value);
    JournalsParts(c.s, p);
    if failed { return false, true; }
    OnwardTransitive(s0, s3, c.s);
    WorkingHolds(c.s, p, uid, later);
    ClockRead(s0, c.s, p, uid, at);
    failed := ClearActive(c, p, uid);
    return false, failed;
  }

  /** Clears the active UID, which ends the sessions of the old generation. */
  method ClearActive(c: Cluster, p: Mirror, uid: Uid) returns (failed: bool)
    requires Inv(c.s) && c.s.parent == Some(p) && p.active != 0 && p.active in c.s.runs && c.s.runs[p.active].run.phase == Retiring
    requires LeaseOpen(c.s, uid) && p.pending == uid
    requires c.Logged()
    modifies c
    ensures c.Logged() && old(c.log) <= c.log
    ensures Inv(c.s) && (c.s.parent == Some(p) || (c.s.parent == Some(p.(active := 0)) && LeaseOpen(c.s, uid)))
    ensures !failed ==> c.s.parent == Some(p.(active := 0))
  {
    hide Inv, Enabled, Apply, LeaseOpen, Moved;
    ReplacedEnabled(c.s, p, uid);
    ghost var s3 := c.s;
    failed := c.Issue(SaveParent(p.(active := 0), RunReplaced));
    ReplacedParent(s3, c.s, p, uid, failed);
  }

  lemma ReplacedParent(s: State, t: State, p: Mirror, uid: Uid, failed: bool)
    requires s.parent == Some(p) && Wrote(s, SaveParent(p.(active := 0), RunReplaced), t, failed)
    requires LeaseOpen(s, uid)
    ensures t.parent == Some(p) || (t.parent == Some(p.(active := 0)) && LeaseOpen(t, uid))
    ensures !failed ==> t.parent == Some(p.(active := 0))
  {}

  // ---------------------------------------------------------------- the generation

  lemma ChildCreates(s: State, p: Mirror, uid: Uid, v: Versioned)
    requires Working(s, p, uid, v) && v.run.phase == Restoring && v.run.child == 0 && v.run.operation != 0
    requires s.helm ==> p.active == 0
    requires GenerationKey(uid) !in s.objects
    ensures Enabled(s, CreateObject(GenerationKey(uid), uid, v.run.operation))
  {
    hide Inv, OthersRetired, ClaimsNumbered;
    assert Core(s.runs[uid].run) == Core(v.run);
  }

  lemma ChildEnabled(s: State, p: Mirror, uid: Uid, v: Versioned, child: Uid)
    requires Working(s, p, uid, v) && s.runs[uid] == v && v.run.phase == Restoring && v.run.child == 0
    requires s.helm ==> p.active == 0
    requires 0 < child < s.next && MadeIs(s, uid, child)
    ensures Enabled(s, SaveRun(uid, v.run.(child := child), ChildRecorded))
  {
    hide Inv, OthersRetired, ClaimsNumbered;
    WorkingHolds(s, p, uid, v);
    SameClaims(v.run, v.run.(child := child), s.next);
  }

  lemma HelmRely(s: State, t: State)
    requires Onward(s, t)
    ensures t.helm == s.helm
  {}

  /** The recorded operation under which the generation is created. */
  method ChildIntent(c: Cluster, p: Mirror, uid: Uid, v: Versioned, remaining: nat) returns (failed: bool, later: Versioned)
    requires Working(c.s, p, uid, v) && v.run.phase == Restoring
    requires c.Logged()
    modifies c
    ensures c.Logged() && old(c.log) <= c.log
    ensures Journals(c.s, p)
    ensures !failed ==> Working(c.s, p, uid, later) && Onward(old(c.s), c.s) && later.run.operation != 0
    ensures !failed ==> later.run == v.run.(operation := later.run.operation) && (v.run.operation != 0 ==> later == v)
  {
    hide Inv, Rely, Enabled, Working, Holds, Apply, ClaimsNumbered;
    later := v;
    WorkingHolds(c.s, p, uid, v);
    if v.run.operation != 0 { return false, v; }
    var op: Op := *; // a fresh operation is never empty
    if remaining < 1 || op == 0 { return true, v; }
    SameClaims(v.run, v.run.(operation := op), c.s.next);
    failed, later := Bookkeep(c, p, uid, v, v.run.(operation := op));
  }

  /** What is found under a generation's name is the only thing the controller may have
      made there, whatever others do since. */
  lemma FoundMade(s: State, t: State, uid: Uid)
    requires Inv(s) && Rely(s, t) && t.made == s.made
    ensures GenerationKey(uid) in s.objects ==> MadeIs(t, uid, s.objects[GenerationKey(uid)].uid)
  {
    hide Sound, ClaimsNumbered, UniqueRequests, ForceKnown, RequestsLater, Grown;
  }

  lemma CreatedMade(s: State, t: State, u: State, uid: Uid)
    requires Inv(s) && Rely(s, t) && t.made == s.made && Rely(t, u) && (u.made == t.made || u.made == t.made + {t.next})
    ensures GenerationKey(uid) !in s.objects ==> MadeIs(u, uid, t.next)
  {
    hide Sound, ClaimsNumbered, UniqueRequests, ForceKnown, RequestsLater, Grown;
    RelyTransitive(s, t, u);
  }

  /** Reads the object under the generation's name, or creates it. */
  method FindChild(c: Cluster, p: Mirror, uid: Uid, v: Versioned) returns (failed: bool, live: Object)
    requires Working(c.s, p, uid, v) && v.run.phase == Restoring && v.run.operation != 0 && (c.s.helm && v.run.child == 0 ==> p.active == 0)
    requires c.Logged()
    modifies c
    ensures c.Logged() && old(c.log) <= c.log
    ensures Journals(c.s, p)
    ensures !failed ==> Working(c.s, p, uid, v) && Onward(old(c.s), c.s) && 0 < live.uid < c.s.next && MadeIs(c.s, uid, live.uid)
  {
    hide Inv, Rely, Enabled, Working, Holds, Apply, ClaimsNumbered, MadeIs;
    ghost var s0 := c.s;
    WorkingHolds(s0, p, uid, v);
    var found := c.Get(GenerationKey(uid));
    ghost var s1 := c.s;
    FoundMade(s0, s1, uid);
    WorkingMoved(s0, s1, p, uid, v);
    WorkingHolds(s1, p, uid, v);
    OnwardRely(s0, s1);
    live := Object(0, 0, 0, false, false);
    if found.Unreadable? { return true, live; }
    if found.Found? {
      FoundNumbered(s0, s1, GenerationKey(uid));
      return false, found.value;
    }
    if v.run.child != 0 { return true, live; }
    if GenerationKey(uid) !in s1.objects { ChildCreates(s1, p, uid, v); }
    failed, live := c.Create(GenerationKey(uid), uid, v.run.operation);
    CreatedMade(s0, s1, c.s, uid);
    RelyJournals(s1, c.s, p);
    if failed { return; }
    InvNext(s1);
    OnwardRely(s1, c.s);
    WorkingMoved(s1, c.s, p, uid, v);
  }

  /** The generation of a run: intent first, then the object, then its recorded identity. */
  method Child(c: Cluster, p: Mirror, uid: Uid, v: Versioned, remaining: nat) returns (failed: bool, live: Object, later: Versioned)
    requires Working(c.s, p, uid, v) && v.run.phase == Restoring && (c.s.helm && v.run.child == 0 ==> p.active == 0)
    requires c.Logged()
    modifies c
    ensures c.Logged() && old(c.log) <= c.log
    ensures Journals(c.s, p)
    ensures !failed ==> Working(c.s, p, uid, later) && later.run.phase == Restoring && Onward(old(c.s), c.s)
    ensures !failed ==> later.run.child == live.uid && live.uid != 0 && live.owner == uid && live.op == later.run.operation
    ensures !failed && v.run.child != 0 ==> later.run.child == v.run.child
  {
    hide Inv, Rely, Enabled, Working, Holds, Apply, ClaimsNumbered, Onward, Journals, MadeIs;
    live := Object(0, 0, 0, false, false);
    ghost var s0 := c.s;
    failed, later := ChildIntent(c, p, uid, v, remaining);
    if failed { return; }
    ghost var s1 := c.s;
    HelmRely(s0, s1);
    failed, live := FindChild(c, p, uid, later);
    if failed { return; }
    OnwardTransitive(s0, s1, c.s);
    ghost var s2 := c.s;
    HelmRely(s0, s2);
    WorkingHolds(s2, p, uid, later);
    var same: bool := *; // the specification and the owner reference are the wanted ones
    if !Owns(live, uid, later.run.operation, later.run.child) || !same { return true, live, later; }
    if later.run.child == 0 {
      if s2.runs[uid] == later { ChildEnabled(s2, p, uid, later, live.uid); }
      failed, later := StoreRun(c, p, uid, later, later.run.(child := live.uid), ChildRecorded);
      if !failed { OnwardTransitive(s0, s2, c.s); }
    }
  }

  lemma PolicyNumbered(r: Run, name: Name, op: Op, next: Uid)
    requires ClaimsNumbered(r, next) && 0 < next
    ensures ClaimsNumbered(r.(policies := [Claim(Key(Policy, name), op, 0)]), next)
  {}

  /** One isolation policy, journaled before it is created. */
  method EnsurePolicies(c: Cluster, p: Mirror, uid: Uid, v: Versioned) returns (failed: bool, later: Versioned)
    requires Working(c.s, p, uid, v)
    requires c.Logged()
    modifies c
    ensures c.Logged() && old(c.log) <= c.log
    ensures Journals(c.s, p)
    ensures !failed ==> Working(c.s, p, uid, later) && Onward(old(c.s), c.s)
    ensures !failed ==> SameOutcome(v.run, later.run) && later.run.phase == v.run.phase && later.run.operation == v.run.operation
    ensures !failed ==> later.run.policies != [] && later.run.policies[0].uid != 0
  {
    hide Inv, Rely, Enabled, Working, Holds, Apply, ClaimsNumbered, Identified;
    later := v;
    WorkingHolds(c.s, p, uid, v);
    var enforced: bool := *;
    if !enforced { return true, v; }
    if v.run.policies == [] {
      var op: Op := *;
      var name: Name := *;
      InvNext(c.s);
      PolicyNumbered(v.run, name, op, c.s.next);
      failed, later := Bookkeep(c, p, uid, v, v.run.(policies := [Claim(Key(Policy, name), op, 0)]));
      if failed { return; }
    }
    WorkingHolds(c.s, p, uid, later);
    var scoped: bool := *;
    if !scoped { return true, later; }
    ghost var r := later.run;
    var live;
    failed, live, later := Ensure(c, p, uid, later, PolicyEntry(0));
    if !failed {
      IdentifiedFrame(r, PolicyEntry(0), live.uid);
      PolicyIdentified(r, live.uid);
    }
  }

  lemma PolicyIdentified(r: Run, uid: Uid)
    requires r.policies != []
    ensures Identified(r, PolicyEntry(0), uid).policies != [] && Identified(r, PolicyEntry(0), uid).policies[0].uid == uid
  {}

  lemma VolumeAdded(r: Run, c: Claim, next: Uid)
    requires ClaimsNumbered(r, next) && Fits(c, Volume, next)
    ensures ClaimsNumbered(r.(volumes := r.volumes + [c]), next) && SameOutcome(r, r.(volumes := r.volumes + [c]))
  {}

  lemma OnwardReflexive(s: State)
    ensures Onward(s, s)
  {}

  /** Journals the volumes that restored claims are bound to. */
  method InventoryVolumes(c: Cluster, p: Mirror, uid: Uid, v: Versioned, n: nat, required: bool) returns (failed: bool, later: Versioned)
    requires Working(c.s, p, uid, v)
    requires c.Logged()
    modifies c
    ensures c.Logged() && old(c.log) <= c.log
    ensures Journals(c.s, p)
    ensures !failed ==> Working(c.s, p, uid, later) && Onward(old(c.s), c.s)
    ensures !failed ==> later.run == v.run.(volumes := later.run.volumes) && v.run.volumes <= later.run.volumes
  {
    hide Inv, Rely, Enabled, Working, Holds, Apply, ClaimsNumbered, Onward, Journals, SameOutcome, PastCapture, Captured, Enrolled;
    later := v;
    OnwardReflexive(c.s);
    WorkingHolds(c.s, p, uid, v);
    for i := 0 to n
      invariant c.Logged() && old(c.log) <= c.log
      invariant Working(c.s, p, uid, later) && Onward(old(c.s), c.s)
      invariant later.run == v.run.(volumes := later.run.volumes) && v.run.volumes <= later.run.volumes
    {
      ghost var s0 := c.s;
      WorkingHolds(s0, p, uid, later);
      var bound: Option<Name> := *;
      if bound.Some? {
        var volume := c.Get(Key(Volume, bound.value));
        ghost var s1 := c.s;
        WorkingMoved(s0, s1, p, uid, later);
        WorkingHolds(s1, p, uid, later);
        OnwardRely(s0, s1);
        OnwardTransitive(old(c.s), s0, s1);
        var independent: bool := *; // not source storage, and restored from the recorded import
        if volume.Unreadable? || (volume.Missing? && required) || !independent { return true, later; }
        if volume.Found? && !(exists m :: m in later.run.volumes && m.uid == volume.value.uid) {
          var claim := Claim(Key(Volume, bound.value), 0, volume.value.uid);
          FoundNumbered(s0, s1, claim.key);
          VolumeAdded(later.run, claim, s1.next);
          failed, later := Bookkeep(c, p, uid, later, later.run.(volumes := later.run.volumes + [claim]));
          if failed { return; }
          OnwardTransitive(old(c.s), s1, c.s);
        }
      } else if required {
        return true, later;
      }
    }
    WorkingHolds(c.s, p, uid, later);
    return false, later;
  }

  lemma CandidateEnabled(s: State, p: Mirror, uid: Uid, v: Versioned)
    requires Working(s, p, uid, v) && s.runs[uid] == v && RestorePhase(v.run.phase) && v.run.child != 0
    ensures Enabled(s, SaveRun(uid, v.run.(phase := AwaitingActivation), CandidateReady))
  {
    hide Inv, ClaimsNumbered;
    WorkingHolds(s, p, uid, v);
    SameClaims(v.run, v.run.(phase := AwaitingActivation), s.next);
  }

  /** Creates the generation and waits until it is ready on independent storage. */
  method Settle(c: Cluster, p: Mirror, uid: Uid, v: Versioned, volumes: nat, remaining: nat) returns (ready: bool, failed: bool)
    requires Working(c.s, p, uid, v) && v.run.phase == Restoring && (c.s.helm && v.run.child == 0 ==> p.active == 0)
    requires c.Logged()
    modifies c
    ensures c.Logged() && old(c.log) <= c.log
    ensures Journals(c.s, p)
    ensures ready ==> !failed && uid in c.s.runs && c.s.runs[uid].run.phase == AwaitingActivation && c.s.runs[uid].run.child != 0
  {
    hide Inv, Rely, Enabled, Working, Holds, Apply, ClaimsNumbered, Onward, Journals;
    var later, live;
    ready := false;
    failed, live, later := Child(c, p, uid, v, remaining);
    if failed { return; }
    WorkingHolds(c.s, p, uid, later);
    failed, later := Bookkeep(c, p, uid, later, later.run);
    if failed { return; }
    var recorded: bool := *; // the generation has its own protected record
    if !recorded {
      failed, later := EnsurePolicies(c, p, uid, later);
      return;
    }
    failed, later := InventoryVolumes(c, p, uid, later, volumes, false);
    if failed { return; }
    if !live.ready { WorkingHolds(c.s, p, uid, later); return; }
    failed, later := InventoryVolumes(c, p, uid, later, volumes, true);
    if failed { return; }
    WorkingHolds(c.s, p, uid, later);
    if c.s.runs[uid] == later { CandidateEnabled(c.s, p, uid, later); }
    failed, later := StoreRun(c, p, uid, later, later.run.(phase := AwaitingActivation), CandidateReady);
    ready := !failed;
    if ready { WorkingHolds(c.s, p, uid, later); }
  }

  /** Restoring: import the captures, make room if the provider needs it, then settle. */
  method Restore(c: Cluster, p: Mirror, uid: Uid, v: Versioned, revision: Run, force: bool, remaining: nat) returns (ready: bool, failed: bool)
    requires Working(c.s, p, uid, v) && RestorePhase(v.run.phase) && Forcing(c.s, uid, force)
    requires c.Logged()
    modifies c
    ensures c.Logged() && old(c.log) <= c.log
    ensures Inv(c.s)
    ensures c.s.parent == Some(p) || (c.s.parent == Some(p.(active := 0)) && p.active != 0 && LeaseOpen(c.s, uid))
    ensures ready ==> !failed && c.s.parent == Some(p) && uid in c.s.runs && c.s.runs[uid].run.phase == AwaitingActivation && c.s.runs[uid].run.child != 0
  {
    hide Inv, Rely, Enabled, Working, Holds, Apply, ClaimsNumbered, LeaseOpen, Onward;
    var done, later;
    ready := false;
    ghost var s0 := c.s;
    done, failed, later := ImportVolumes(c, p, uid, v, revision.captures);
    if !done { return; }
    ghost var s1 := c.s;
    ForcibleKept(s0, s1);
    WorkingHolds(s1, p, uid, later);
    if c.s.helm && later.run.child == 0 {
      done, failed := ManagedReplacement(c, p, uid, later, force);
      if !done { return; }
    }
    if later.run.phase != Restoring {
      failed, later := StepPhase(c, p, uid, later, Restoring);
      if failed { return; }
      HelmRely(s1, c.s);
    }
    ready, failed := Settle(c, p, uid, later, |revision.captures|, remaining);
  }

  // ---------------------------------------------------------------- activation

  lemma FreshWorking(s: State, p: Mirror, uid: Uid, v: Versioned)
    requires Working(s, p, uid, v)
    ensures Working(s, p, uid, s.runs[uid]) && Core(s.runs[uid].run) == Core(v.run)
  {
    FreshHolds(s, uid);
  }

  /** Loads the run again: a concurrent writer may have added to its inventories. */
  method Refresh(c: Cluster, p: Mirror, uid: Uid, v: Versioned) returns (failed: bool, later: Versioned)
    requires Working(c.s, p, uid, v)
    requires c.Logged()
    modifies c
    ensures c.Logged() && old(c.log) <= c.log
    ensures Journals(c.s, p)
    ensures !failed ==> Working(c.s, p, uid, later) && Onward(old(c.s), c.s) && Core(later.run) == Core(v.run)
  {
    hide Inv, Rely, Working, Core;
    ghost var s0 := c.s;
    WorkingHolds(s0, p, uid, v);
    var r := c.LoadRun(uid);
    RelyJournals(s0, c.s, p);
    OnwardRely(s0, c.s);
    if !r.Found? { return true, v; }
    FreshWorking(s0, p, uid, v);
    WorkingMoved(s0, c.s, p, uid, r.value);
    return false, r.value;
  }

  /** The gate before application objects are applied, on its own copy of the run. */
  method Prepare(c: Cluster, p: Mirror, uid: Uid, v: Versioned) returns (failed: bool, later: Versioned)
    requires Working(c.s, p, uid, v) && v.run.phase == AwaitingActivation
    requires c.Logged()
    modifies c
    ensures c.Logged() && old(c.log) <= c.log
    ensures Journals(c.s, p)
    ensures !failed ==> Working(c.s, p, uid, later) && Onward(old(c.s), c.s) && later.run.phase == AwaitingActivation
  {
    hide Inv, Rely, Working, Onward, Journals;
    ghost var s0 := c.s;
    failed, later := Refresh(c, p, uid, v);
    if failed { return; }
    ghost var s1 := c.s;
    WorkingHolds(s1, p, uid, later);
    var ended := c.IsEnding();
    ghost var s2 := c.s;
    WorkingMoved(s1, s2, p, uid, later);
    WorkingHolds(s2, p, uid, later);
    OnwardRely(s1, s2);
    OnwardTransitive(s0, s1, s2);
    if ended { return true, later; }
    assert later.run.phase == AwaitingActivation by { assert Core(later.run).phase == Core(v.run).phase; }
    failed, later := EnsurePolicies(c, p, uid, later);
    if failed { return; }
    OnwardTransitive(s0, s2, c.s);
    var imported: bool := *; // every recorded import is present, owned and ready
    WorkingHolds(c.s, p, uid, later);
    failed := !imported;
  }

  lemma ActiveEnabled(s: State, p: Mirror, uid: Uid, v: Versioned, at: Time)
    requires Working(s, p, uid, v) && s.runs[uid] == v && v.run.phase == AwaitingActivation && at != 0 && LeaseOpen(s, uid)
    ensures Enabled(s, SaveRun(uid, v.run.(phase := Active, activatedAt := at), MarkedActive))
  {
    hide Inv, ClaimsNumbered, LeaseOpen;
    WorkingHolds(s, p, uid, v);
    SameClaims(v.run, v.run.(phase := Active, activatedAt := at), s.next);
  }

  lemma ActivatedEnabled(s: State, p: Mirror, uid: Uid, v: Versioned)
    requires Working(s, p, uid, v) && v.run.phase == Active
    ensures Enabled(s, SaveParent(p.(active := uid, pending := 0), RunActivated))
  {
    hide Inv, ClaimsNumbered;
    WorkingHolds(s, p, uid, v);
  }

  lemma ActivatedParent(s: State, t: State, p: Mirror, uid: Uid, v: Versioned, failed: bool)
    requires Working(s, p, uid, v) && v.run.phase == Active
    requires Wrote(s, SaveParent(p.(active := uid, pending := 0), RunActivated), t, failed)
    ensures t.parent == Some(p) || t.parent == Some(p.(active := uid, pending := 0))
    ensures !failed ==> t.parent == Some(p.(active := uid, pending := 0))
    ensures uid in t.runs && t.runs[uid].run.phase == Active && Onward(s, t)
  {
    hide Inv, ClaimsNumbered;
    WorkingHolds(s, p, uid, v);
    if Rely(s, t) { MovedCore(s, t, uid); }
    var m := Apply(s, SaveParent(p.(active := uid, pending := 0), RunActivated));
    if Rely(m, t) { MovedCore(m, t, uid); }
  }

  /** Moving the active pointer to a run already marked Active: the last step of an
      activation, and the recovery of one whose last step was lost. */
  method Publish(c: Cluster, p: Mirror, uid: Uid, v: Versioned) returns (failed: bool)
    requires Working(c.s, p, uid, v) && v.run.phase == Active
    requires c.Logged()
    modifies c
    ensures c.Logged() && old(c.log) <= c.log
    ensures Inv(c.s) && uid in c.s.runs && c.s.runs[uid].run.phase == Active && Onward(old(c.s), c.s)
    ensures c.s.parent == Some(p) || c.s.parent == Some(p.(active := uid, pending := 0))
    ensures !failed ==> c.s.parent == Some(p.(active := uid, pending := 0))
  {
    hide Inv, Rely, Enabled, Working, Wrote;
    ghost var s0 := c.s;
    WorkingHolds(s0, p, uid, v);
    ActivatedEnabled(s0, p, uid, v);
    failed := c.Issue(SaveParent(p.(active := uid, pending := 0), RunActivated));
    ActivatedParent(s0, c.s, p, uid, v, failed);
  }

  /** Activation: the lease is open, the candidate is the recorded one and still ready;
      the old run is marked first, then the new one, and the pointer moves last. */
  method Activate(c: Cluster, p: Mirror, uid: Uid, v: Versioned, force: bool, volumes: nat) returns (activated: bool, failed: bool)
    requires Working(c.s, p, uid, v) && v.run.phase == AwaitingActivation && Forcing(c.s, uid, force)
    requires c.Logged()
    modifies c
    ensures c.Logged() && old(c.log) <= c.log
    ensures Inv(c.s)
    ensures c.s.parent == Some(p) || (c.s.parent == Some(p.(active := uid, pending := 0)) && LeaseOpen(c.s, uid))
    ensures activated ==> !failed && c.s.parent == Some(p.(active := uid, pending := 0))
    ensures c.s.parent != Some(p) ==> uid in c.s.runs && c.s.runs[uid].run.phase == Active
  {
    hide Inv, Rely, Enabled, Working, Holds, Apply, ClaimsNumbered, LeaseOpen, Onward;
    activated := false;
    var later, ready;
    ghost var s0 := c.s;
    WorkingHolds(s0, p, uid, v);
    var at := c.Now();
    ghost var s1 := c.s;
    WorkingMoved(s0, s1, p, uid, v);
    WorkingHolds(s1, p, uid, v);
    OnwardRely(s0, s1);
    if !force && at < p.hold { return false, false; }
    failed, ready := CandidateLives(c, p, uid, v);
    if failed || !ready { return false, true; }
    ghost var s2 := c.s;
    OnwardTransitive(s0, s1, s2);
    failed, later := Prepare(c, p, uid, v);
    if failed { return; }
    ghost var s3 := c.s;
    OnwardTransitive(s0, s2, s3);
    failed, later := Refresh(c, p, uid, later);
    if failed { return; }
    ghost var s4 := c.s;
    OnwardTransitive(s0, s3, s4);
    failed, later := InventoryVolumes(c, p, uid, later, volumes, true);
    if failed { return; }
    OnwardTransitive(s0, s4, c.s);
    activated, failed := Switch(c, p, uid, later, s0, at);
  }

  /** The recorded generation exists, is not terminating, and is ready. */
  method CandidateLives(c: Cluster, p: Mirror, uid: Uid, v: Versioned) returns (failed: bool, ready: bool)
    requires Working(c.s, p, uid, v)
    requires c.Logged()
    modifies c
    ensures c.Logged() && old(c.log) <= c.log
    ensures Journals(c.s, p) && Working(c.s, p, uid, v) && Onward(old(c.s), c.s)
    ensures ready ==> !failed && GenerationKey(uid) in old(c.s).objects && old(c.s).objects[GenerationKey(uid)].uid == v.run.child
    ensures ready ==> !old(c.s).objects[GenerationKey(uid)].deleting && old(c.s).objects[GenerationKey(uid)].ready
  {
    hide Inv, Rely, Working;
    ghost var s0 := c.s;
    WorkingHolds(s0, p, uid, v);
    var child := c.Get(GenerationKey(uid));
    WorkingMoved(s0, c.s, p, uid, v);
    WorkingHolds(c.s, p, uid, v);
    OnwardRely(s0, c.s);
    failed := child.Unreadable?;
    ready := child.Found? && child.value.uid == v.run.child && !child.value.deleting && child.value.ready;
  }

  lemma ForceKept(s: State, t: State, p: Mirror, uid: Uid, at: Time)
    requires s.parent == Some(p) && t.parent == Some(p) && at <= s.now && Onward(s, t)
    requires Permitted(s, p, uid, at)
    ensures LeaseOpen(t, uid)
  {}

  lemma PublishedLease(s: State, t: State, p: Mirror, uid: Uid, at: Time)
    requires t.parent == Some(p.(active := uid, pending := 0)) && at <= s.now && Onward(s, t)
    requires Permitted(s, p, uid, at)
    ensures LeaseOpen(t, uid)
  {}

  lemma NowPositive(s: State)
    requires Inv(s)
    ensures 0 < s.now
  {}

  /** Loads the active run and marks it Retiring. */
  method MarkRetiring(c: Cluster, p: Mirror, uid: Uid, v: Versioned) returns (failed: bool)
    requires Working(c.s, p, uid, v) && p.active != 0
    requires c.Logged()
    modifies c
    ensures c.Logged() && old(c.log) <= c.log
    ensures Journals(c.s, p)
    ensures !failed ==> Working(c.s, p, uid, v) && Onward(old(c.s), c.s) && p.active in c.s.runs && c.s.runs[p.active].run.phase == Retiring
  {
    hide Inv, Rely, Working, Holds, Onward;
    ghost var s0 := c.s;
    WorkingHolds(s0, p, uid, v);
    var active := c.LoadRun(p.active);
    ghost var s1 := c.s;
    WorkingMoved(s0, s1, p, uid, v);
    WorkingHolds(s1, p, uid, v);
    OnwardRely(s0, s1);
    if !active.Found? { return true; }
    FreshHolds(s0, p.active);
    HoldsRely(s0, s1, p.active, active.value);
    failed := RetireActive(c, p, uid, v, active.value);
    if !failed { OnwardTransitive(s0, s1, c.s); }
  }

  /** Stores the candidate as Active, now that the lease was seen open. */
  method MarkActive(c: Cluster, p: Mirror, uid: Uid, v: Versioned, ghost since: State, at: Time) returns (failed: bool, later: Versioned)
    requires Working(c.s, p, uid, v) && v.run.phase == AwaitingActivation
    requires since.parent == Some(p) && at <= since.now && Onward(since, c.s) && Permitted(since, p, uid, at)
    requires c.Logged()
    modifies c
    ensures c.Logged() && old(c.log) <= c.log
    ensures Journals(c.s, p)
    ensures !failed ==> Working(c.s, p, uid, later) && later.run == v.run.(phase := Active, activatedAt := later.run.activatedAt) && Onward(since, c.s)
  {
    hide Inv, Rely, Enabled, Working, Holds, Apply, ClaimsNumbered, LeaseOpen, Onward;
    ghost var s1 := c.s;
    WorkingHolds(s1, p, uid, v);
    var now := c.Now();
    ghost var s2 := c.s;
    WorkingMoved(s1, s2, p, uid, v);
    WorkingHolds(s2, p, uid, v);
    OnwardRely(s1, s2);
    OnwardTransitive(since, s1, s2);
    ForceKept(since, s2, p, uid, at);
    NowPositive(s1);
    if s2.runs[uid] == v { ActiveEnabled(s2, p, uid, v, now); }
    failed, later := StoreRun(c, p, uid, v, v.run.(phase := Active, activatedAt := now), MarkedActive);
    if !failed { OnwardTransitive(since, s2, c.s); }
  }

  /** The second half of an activation, after every check has passed. */
  method Switch(c: Cluster, p: Mirror, uid: Uid, v: Versioned, ghost since: State, at: Time) returns (activated: bool, failed: bool)
    requires Working(c.s, p, uid, v) && v.run.phase == AwaitingActivation
    requires since.parent == Some(p) && at <= since.now && Onward(since, c.s) && Permitted(since, p, uid, at)
    requires c.Logged()
    modifies c
    ensures c.Logged() && old(c.log) <= c.log
    ensures Inv(c.s)
    ensures c.s.parent == Some(p) || (c.s.parent == Some(p.(active := uid, pending := 0)) && LeaseOpen(c.s, uid))
    ensures activated ==> !failed && c.s.parent == Some(p.(active := uid, pending := 0))
    ensures c.s.parent != Some(p) ==> uid in c.s.runs && c.s.runs[uid].run.phase == Active
  {
    hide Inv, Rely, Enabled, Working, Holds, Apply, ClaimsNumbered, LeaseOpen, Onward;
    activated := false;
    var later := v;
    ghost var s0 := c.s;
    WorkingHolds(s0, p, uid, v);
    if p.active != 0 {
      failed := MarkRetiring(c, p, uid, v);
      if failed { return; }
      OnwardTransitive(since, s0, c.s);
    }
    failed, later := MarkActive(c, p, uid, v, since, at);
    if failed { return; }
    ghost var s3 := c.s;
    failed := Publish(c, p, uid, later);
    activated := !failed;
    OnwardTransitive(since, s3, c.s);
    if c.s.parent != Some(p) { PublishedLease(since, c.s, p, uid, at); }
  }

  // ---------------------------------------------------------------- admission

  /** The parts of the mirror's specification that the protocol reads. */
  datatype Spec = Spec(hold: Option<Time>, suspend: bool, interval: Option<Time>, retain: nat, volumes: nat, expires: Time)

  const MINUTE: Time := 60

  /** One capture for each granted volume, under a fresh operation and not yet made. */
  method PlanCaptures(n: nat) returns (captures: seq<Capture>)
    ensures |captures| == n
    ensures forall m :: m in captures ==>
      m.snapshot.uid == 0 && m.content.uid == 0 && m.snapshot.key.kind == Snapshot && m.content.key.kind == Content && m.handle == 0
  {
    captures := [];
    for i := 0 to n
      invariant |captures| == i
      invariant forall m :: m in captures ==>
        m.snapshot.uid == 0 && m.content.uid == 0 && m.snapshot.key.kind == Snapshot && m.content.key.kind == Content && m.handle == 0
    {
      var op: Op := *;
      var name: Name := *;
      captures := captures + [Capture(Claim(Key(Snapshot, name), op, 0), Claim(Key(Content, 0), op, 0), 0, 0)];
    }
  }

  lemma StartEnabled(s: State, p: Mirror, uid: Uid, v: Versioned, captures: seq<Capture>)
    requires Working(s, p, uid, v) && s.runs[uid] == v && v.run.phase == Queued && captures != []
    requires forall m :: m in captures ==>
      m.snapshot.uid == 0 && m.content.uid == 0 && m.snapshot.key.kind == Snapshot && m.content.key.kind == Content
    ensures Enabled(s, SaveRun(uid, v.run.(captures := captures, planned := true, phase := Capturing), CaptureStarted))
  {
    WorkingHolds(s, p, uid, v);
  }

  lemma ResetEnabled(s: State, p: Mirror, uid: Uid, v: Versioned, revision: Uid, rev: Versioned)
    requires Working(s, p, uid, v) && s.runs[uid] == v && v.run.phase == Queued
    requires Enrolled(p, revision) && Holds(s, revision, rev) && rev.run.revision == revision && rev.run.capturedAt != 0
    ensures Enabled(s, SaveRun(uid, v.run.(revision := revision, capturedAt := rev.run.capturedAt, phase := Restoring), ResetAdmitted))
  {
    hide ClaimsNumbered;
    WorkingHolds(s, p, uid, v);
    assert Core(s.runs[revision].run) == Core(rev.run);
    assert s.runs[revision].run.capturedAt == Core(s.runs[revision].run).capturedAt;
    assert s.runs[revision].run.revision == Core(s.runs[revision].run).revision;
    assert RunShape(s, uid);
    SameClaims(v.run, v.run.(revision := revision, capturedAt := rev.run.capturedAt, phase := Restoring), s.next);
  }

  lemma NotedHolds(s: State, p: Mirror, at: Time, uid: Uid, v: Versioned)
    requires Holds(s, uid, v)
    ensures Holds(Apply(s, SaveParent(p.(lastSync := at), SyncNoted)), uid, v)
  {}

  lemma NotedParent(s: State, t: State, p: Mirror, at: Time, failed: bool)
    requires s.parent == Some(p) && Wrote(s, SaveParent(p.(lastSync := at), SyncNoted), t, failed) && Inv(t)
    ensures t.parent == Some(p) || t.parent == Some(p.(lastSync := at))
  {}

  /** Notes the start of a run in the parent record. */
  method NoteSync(c: Cluster, p: Mirror, uid: Uid, v: Versioned, ghost other: Uid, ghost w: Versioned) returns (failed: bool, q: Mirror)
    requires Working(c.s, p, uid, v) && Holds(c.s, other, w)
    requires c.Logged()
    modifies c
    ensures c.Logged() && old(c.log) <= c.log
    ensures Inv(c.s) && q == p.(lastSync := q.lastSync)
    ensures c.s.parent == Some(p) || c.s.parent == Some(q)
    ensures !failed ==> Working(c.s, q, uid, v) && Holds(c.s, other, w)
  {
    hide Inv, Rely, Enabled, Working, Holds, Apply, Wrote;
    ghost var s0 := c.s;
    WorkingHolds(s0, p, uid, v);
    var at := c.Now();
    ghost var s1 := c.s;
    WorkingMoved(s0, s1, p, uid, v);
    WorkingHolds(s1, p, uid, v);
    HoldsRely(s0, s1, other, w);
    q := p.(lastSync := at);
    NotedWorking(s1, p, uid, v, at);
    NotedHolds(s1, p, at, other, w);
    failed := c.Issue(SaveParent(q, SyncNoted));
    NotedParent(s1, c.s, p, at, failed);
    if !failed {
      WroteDone(s1, SaveParent(q, SyncNoted), c.s);
      ghost var s2 := Apply(s1, SaveParent(q, SyncNoted));
      WorkingMoved(s2, c.s, q, uid, v);
      HoldsRely(s2, c.s, other, w);
    }
  }

  lemma WroteDone(s: State, w: Write, t: State)
    requires Wrote(s, w, t, false)
    ensures Rely(Apply(s, w), t)
  {}

  /** Reset starts from a completed capture of this mirror that the request names exactly. */
  method AdmitReset(c: Cluster, p: Mirror, uid: Uid, v: Versioned, target: Ref) returns (failed: bool)
    requires Working(c.s, p, uid, v) && v.run.phase == Queued
    requires c.Logged()
    modifies c
    ensures c.Logged() && old(c.log) <= c.log
    ensures Inv(c.s) && c.s.parent.Some? && c.s.parent.value == p.(lastSync := c.s.parent.value.lastSync)
    ensures !failed ==> target in p.runs && uid in c.s.runs && c.s.runs[uid].run.phase == Restoring && c.s.runs[uid].run.revision == target.uid
  {
    hide Inv, Rely, Enabled, Working, Holds, Apply, ClaimsNumbered;
    ghost var s0 := c.s;
    WorkingHolds(s0, p, uid, v);
    if target !in p.runs { return true; }
    var rev := c.LoadRun(target.uid);
    ghost var s1 := c.s;
    WorkingMoved(s0, s1, p, uid, v);
    WorkingHolds(s1, p, uid, v);
    if !rev.Found? || rev.value.run.revision != target.uid || rev.value.run.capturedAt == 0 { return true; }
    FreshHolds(s0, target.uid);
    HoldsRely(s0, s1, target.uid, rev.value);
    var q, later;
    failed, q := NoteSync(c, p, uid, v, target.uid, rev.value);
    if failed { return; }
    WorkingHolds(c.s, q, uid, v);
    ListedRef(q, target);
    if c.s.runs[uid] == v { ResetEnabled(c.s, q, uid, v, target.uid, rev.value); }
    failed, later := StoreRun(c, q, uid, v, v.run.(revision := target.uid, capturedAt := rev.value.run.capturedAt, phase := Restoring), ResetAdmitted);
    if !failed { WorkingHolds(c.s, q, uid, later); }
  }

  lemma ListedRef(p: Mirror, ref: Ref)
    requires ref in p.runs
    ensures Enrolled(p, ref.uid)
  {
    var i :| 0 <= i < |p.runs| && p.runs[i] == ref;
  }

  /** Sync captures the source again; reading and validating the plan may fail. */
  method AdmitSync(c: Cluster, p: Mirror, uid: Uid, v: Versioned, volumes: nat) returns (failed: bool)
    requires Working(c.s, p, uid, v) && v.run.phase == Queued && 0 < volumes
    requires c.Logged()
    modifies c
    ensures c.Logged() && old(c.log) <= c.log
    ensures Inv(c.s) && c.s.parent.Some? && c.s.parent.value == p.(lastSync := c.s.parent.value.lastSync)
    ensures !failed ==> uid in c.s.runs && c.s.runs[uid].run.phase == Capturing
  {
    hide Inv, Rely, Enabled, Working, Holds, Apply, ClaimsNumbered;
    WorkingHolds(c.s, p, uid, v);
    var planned: bool := *;
    if !planned { return true; }
    var captures := PlanCaptures(volumes);
    var q, later;
    WorkingVersion(c.s, p, uid, v);
    failed, q := NoteSync(c, p, uid, v, uid, v);
    if failed { return; }
    WorkingHolds(c.s, q, uid, v);
    if c.s.runs[uid] == v { StartEnabled(c.s, q, uid, v, captures); }
    failed, later := StoreRun(c, q, uid, v, v.run.(captures := captures, planned := true, phase := Capturing), CaptureStarted);
    if !failed { WorkingHolds(c.s, q, uid, later); }
  }

  lemma WorkingVersion(s: State, p: Mirror, uid: Uid, v: Versioned)
    requires Working(s, p, uid, v)
    ensures Holds(s, uid, v)
  {}

  /** Where the parent record may be after one step of the pending run. */
  ghost predicate Stepped(p: Mirror, uid: Uid, t: State) {
    t.parent.Some? &&
    var q := t.parent.value;
    || q == p.(lastSync := q.lastSync)
    || (q == p.(active := 0) && LeaseOpen(t, uid))
    || (q == p.(active := uid, pending := 0) && uid in t.runs && t.runs[uid].run.phase == Active)
  }

  /** One step of the pending run. */
  method Advance(c: Cluster, p: Mirror, uid: Uid, v: Versioned, request: Request, spec: Spec) returns (failed: bool)
    requires Working(c.s, p, uid, v) && Forcing(c.s, uid, request.force) && 0 < spec.volumes && !request.deleting
    requires c.Logged()
    modifies c
    ensures c.Logged() && old(c.log) <= c.log
    ensures Inv(c.s) && Stepped(p, uid, c.s)
    ensures v.run.phase != Active && v.run.phase != AwaitingActivation ==> Journal(c.s).pending == uid
  {
    hide Inv, Rely, Working, Onward, LeaseOpen;
    ghost var s0 := c.s;
    WorkingHolds(s0, p, uid, v);
    if !request.reset && request.revision.Some? { return true; }
    if v.run.phase == Queued {
      var at := c.Now();
      WorkingMoved(s0, c.s, p, uid, v);
      WorkingHolds(c.s, p, uid, v);
      if spec.expires < at + MINUTE { return true; }
      if request.reset {
        if request.revision.None? { return true; }
        failed := AdmitReset(c, p, uid, v, request.revision.value);
      } else {
        failed := AdmitSync(c, p, uid, v, spec.volumes);
      }
      return;
    }
    if v.run.phase == Capturing {
      var finished;
      finished, failed := FinishCapture(c, p, uid, v);
      return;
    }
    var revision := c.LoadRun(v.run.revision);
    ghost var s1 := c.s;
    WorkingMoved(s0, s1, p, uid, v);
    WorkingHolds(s1, p, uid, v);
    OnwardRely(s0, s1);
    ForcibleKept(s0, s1);
    if !revision.Found? || !revision.value.run.planned { return true; }
    if RestorePhase(v.run.phase) {
      var ready, at;
      at := c.Now();
      ghost var s2 := c.s;
      WorkingMoved(s1, s2, p, uid, v);
      OnwardRely(s1, s2);
      ForcibleKept(s1, s2);
      ready, failed := Restore(c, p, uid, v, revision.value.run, request.force, if spec.expires <= at then 0 else (spec.expires - at) / MINUTE);
      return;
    }
    if v.run.phase == AwaitingActivation {
      var activated;
      activated, failed := Activate(c, p, uid, v, request.force, spec.volumes);
      return;
    }
    if v.run.phase == Active {
      failed := Publish(c, p, uid, v);
      return;
    }
    return false;
  }

  lemma ForcibleKept(s: State, t: State)
    requires Onward(s, t)
    ensures t.forcible == s.forcible && s.forced <= t.forced
  {}
}
