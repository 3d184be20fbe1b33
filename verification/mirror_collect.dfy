/** Retiring finished runs and releasing the captures nobody needs any more. */
module MirrorCollect {
  import opened Common
  import opened MirrorProtocol
  import opened MirrorFacts
  import opened MirrorCluster

  /** What a release of `owner`'s captures may have changed. */
  ghost predicate Releases(s: State, owner: Uid, all: bool, t: State) {
    && Moved(s, t) && t.late == s.late
    && (forall u :: u in t.released ==> u in s.released || u == owner)
    && (t.teardown ==> s.teardown || all)
  }

  lemma DeletionStaysEnabled(s: State, t: State, w: Write)
    requires Inv(s) && Enabled(s, w) && Moved(s, t) && (w.DeleteObject? || w.DeleteCapture?)
    requires w.DeleteObject? ==> w.owner < s.next
    ensures Enabled(t, w)
  {
    if w.DeleteObject? {
      IdleMoved(s, t, w.owner, w.all);
    } else {
      CaptureDeletionStays(s, t, w.owner, w.all);
    }
  }

  lemma CaptureDeletionStays(s: State, t: State, owner: Uid, all: bool)
    requires Inv(s) && Moved(s, t) && owner in s.runs
    requires !ChildPresent(s, owner) && Unneeded(s, owner, all)
    requires !all ==> !(s.runs[owner].run.phase == Queued && Wanted(s, owner))
    ensures owner in t.runs && !ChildPresent(t, owner) && Unneeded(t, owner, all)
    ensures !all ==> !(t.runs[owner].run.phase == Queued && Wanted(t, owner))
  {
    assert RunNumbered(s, owner);
    MovedCore(s, t, owner);
    if ChildPresent(t, owner) { MovedChildPresent(s, t, owner); }
    if Wanted(t, owner) { MovedWanted(s, t, owner); }
    if Pinned(t, owner) { PinnedMoved(s, t, owner); }
    if all { SweptMoved(s, t); }
    hide Inv, AllSwept, Pinned, ChildPresent, Wanted;
  }

  lemma DeletionReleases(s: State, w: Write, t: State, failed: bool)
    requires Inv(s) && (w.DeleteObject? || w.DeleteCapture?) && Wrote(s, w, t, failed)
    ensures Releases(s, w.owner, w.all, t)
    ensures w.DeleteObject? ==> Rely(s, t)
  {
    if Rely(Apply(s, w), t) {
      if w.DeleteObject? {
        OutsideWriteSound(s, w);
        RelyTransitive(s, Apply(s, w), t);
      } else {
        var m := s.(released := s.released + {w.owner}, teardown := s.teardown || w.all);
        DeletionMoves(m, w.key);
        MovedTransitive(m, Apply(s, w), t);
        assert Moved(s, m);
        MovedTransitive(s, m, t);
      }
    }
  }

  /** Exactly one object was asked to go. */
  ghost predicate OneDeleted(s: State, t: State) {
    exists k :: k in s.objects && !s.objects[k].deleting && Asked(s, t, k)
  }

  ghost predicate Asked(s: State, t: State, k: Key) {
    t == s.(objects := AfterObject(s.objects, s.next, Terminate(k)), next := s.next + 1, released := t.released, teardown := t.teardown)
  }

  /** Deleting an existing, not yet terminating object asks exactly that one to go. */
  lemma AppliedAsked(s: State, w: Write)
    requires w.DeleteObject? || w.DeleteCapture?
    requires w.key in s.objects && !s.objects[w.key].deleting
    ensures OneDeleted(s, Apply(s, w))
  {
    assert Asked(s, Apply(s, w), w.key);
  }

  /** Deletes an owned object if it exists; done means it was seen absent. */
  method DeleteSnapshotObject(c: Cluster, key: Key, owner: Uid, op: Op, uid: Uid, w: Write) returns (done: bool, failed: bool)
    requires Inv(c.s) && Enabled(c.s, w) && owner < c.s.next && uid < c.s.next
    requires (w.DeleteObject? || w.DeleteCapture?) && w.key == key && w.owner == owner
    requires c.Logged()
    modifies c
    ensures c.Logged() && old(c.log) <= c.log
    ensures Inv(c.s) && Releases(old(c.s), owner, w.all, c.s)
    ensures w.DeleteObject? ==> Rely(old(c.s), c.s)
    ensures done ==> !failed && !Present(c.s, key, uid) && Rely(old(c.s), c.s)
    ensures c.calm && done ==> c.s == old(c.s)
    ensures c.calm && key !in old(c.s).objects ==> done
    ensures c.calm && key in old(c.s).objects && Owns(old(c.s).objects[key], owner, op, uid) && !old(c.s).objects[key].deleting ==>
      !done && !failed && OneDeleted(old(c.s), c.s)
  {
    hide Inv, Enabled, Apply, OneDeleted;
    ghost var before := c.s;
    var r := c.Get(key);
    DeletionStaysEnabled(before, c.s, w);
    if r.Missing? { return true, false; }
    if r.Unreadable? { return false, true; }
    if !Owns(r.value, owner, op, uid) { return false, true; }
    if !r.value.deleting {
      ghost var middle := c.s;
      failed := c.DeleteIf(key, r.value.uid, w);
      if key in before.objects && !before.objects[key].deleting { AppliedAsked(before, w); }
      DeletionReleases(middle, w, c.s, failed);
      MovedTransitive(before, middle, c.s);
      return false, failed;
    }
    return false, false;
  }

  predicate Owns(o: Object, owner: Uid, op: Op, uid: Uid) {
    o.owner == owner && o.op == op && (uid == 0 || o.uid == uid)
  }

  // ---------------------------------------------------------------- a run's own objects

  /** No object under a claimed name is foreign or already terminating. */
  ghost predicate Unclaimed(s: State, owner: Uid, c: Claim) {
    c.key in s.objects ==> Owns(s.objects[c.key], owner, c.op, c.uid) && !s.objects[c.key].deleting
  }

  ghost predicate ImportsGone(s: State, imports: seq<Import>, n: nat)
    requires n <= |imports|
  {
    forall j :: 0 <= j < n ==> ClaimGone(s, imports[j].snapshot) && ClaimGone(s, imports[j].content)
  }

  ghost predicate CapturesGoneTo(s: State, captures: seq<Capture>, n: nat)
    requires n <= |captures|
  {
    forall j :: 0 <= j < n ==> ClaimGone(s, captures[j].snapshot) && ClaimGone(s, captures[j].content)
  }

  ghost predicate ClaimsGone(s: State, claims: seq<Claim>, n: nat)
    requires n <= |claims|
  {
    forall j :: 0 <= j < n ==> ClaimGone(s, claims[j])
  }

  lemma ClaimGoneMoved(s: State, t: State, c: Claim)
    requires Moved(s, t) && c.uid < s.next && ClaimGone(s, c)
    ensures ClaimGone(t, c)
  {
    if Present(t, c.key, c.uid) { MovedPresent(s, t, c.key, c.uid); }
  }

  lemma GoneMoved(s: State, t: State, r: Run, n: nat)
    requires Moved(s, t) && ClaimsNumbered(r, s.next)
    ensures n <= |r.imports| && ImportsGone(s, r.imports, n) ==> ImportsGone(t, r.imports, n)
    ensures n <= |r.captures| && CapturesGoneTo(s, r.captures, n) ==> CapturesGoneTo(t, r.captures, n)
    ensures n <= |r.policies| && ClaimsGone(s, r.policies, n) ==> ClaimsGone(t, r.policies, n)
    ensures n <= |r.volumes| && ClaimsGone(s, r.volumes, n) ==> ClaimsGone(t, r.volumes, n)
  {
    hide Moved, ClaimGone;
    if n <= |r.imports| && ImportsGone(s, r.imports, n) {
      forall j | 0 <= j < n ensures ClaimGone(t, r.imports[j].snapshot) && ClaimGone(t, r.imports[j].content) {
        assert r.imports[j] in r.imports;
        ClaimGoneMoved(s, t, r.imports[j].snapshot);
        ClaimGoneMoved(s, t, r.imports[j].content);
      }
    }
    if n <= |r.captures| && CapturesGoneTo(s, r.captures, n) {
      forall j | 0 <= j < n ensures ClaimGone(t, r.captures[j].snapshot) && ClaimGone(t, r.captures[j].content) {
        assert r.captures[j] in r.captures;
        ClaimGoneMoved(s, t, r.captures[j].snapshot);
        ClaimGoneMoved(s, t, r.captures[j].content);
      }
    }
    if n <= |r.policies| && ClaimsGone(s, r.policies, n) {
      forall j | 0 <= j < n ensures ClaimGone(t, r.policies[j]) { assert r.policies[j] in r.policies; ClaimGoneMoved(s, t, r.policies[j]); }
    }
    if n <= |r.volumes| && ClaimsGone(s, r.volumes, n) {
      forall j | 0 <= j < n ensures ClaimGone(t, r.volumes[j]) { assert r.volumes[j] in r.volumes; ClaimGoneMoved(s, t, r.volumes[j]); }
    }
  }

  lemma StillIdle(s: State, t: State, uid: Uid, all: bool)
    requires uid < s.next && Idle(s, uid, all) && Rely(s, t)
    ensures Idle(t, uid, all) && s.next <= t.next
  {
    IdleMoved(s, t, uid, all);
  }

  lemma IdleDeletes(s: State, key: Key, uid: Uid, all: bool)
    requires Idle(s, uid, all)
    ensures Enabled(s, DeleteObject(key, uid, all))
  {}

  /** A read or a foreign change between two deletions of a run's objects. */
  lemma Later(s: State, t: State, uid: Uid, r: Run)
    requires Rely(s, t) && uid < s.next && ClaimsNumbered(r, s.next)
    ensures uid < t.next && ClaimsNumbered(r, t.next)
  {
    ClaimsMonotone(r, s.next, t.next);
  }

  method CleanupImport(c: Cluster, uid: Uid, m: Import, all: bool) returns (done: bool, failed: bool)
    requires Inv(c.s) && 0 < uid < c.s.next && m.snapshot.uid < c.s.next && m.content.uid < c.s.next && Idle(c.s, uid, all)
    requires c.Logged()
    modifies c
    ensures c.Logged() && old(c.log) <= c.log
    ensures Inv(c.s) && Rely(old(c.s), c.s)
    ensures done ==> !failed && ClaimGone(c.s, m.snapshot) && ClaimGone(c.s, m.content)
    ensures c.calm && done ==> c.s == old(c.s)
    ensures c.calm && Unclaimed(old(c.s), uid, m.snapshot) && Unclaimed(old(c.s), uid, m.content) ==>
      !failed && (if done then c.s == old(c.s) else OneDeleted(old(c.s), c.s))
  {
    hide Inv, Moved, Apply, Idle, Present, OneDeleted, Releases, Enabled;
    ghost var s0 := c.s;
    IdleDeletes(s0, m.snapshot.key, uid, all);
    done, failed := DeleteSnapshotObject(c, m.snapshot.key, uid, m.snapshot.op, m.snapshot.uid, DeleteObject(m.snapshot.key, uid, all));
    if !done { return; }
    ghost var s1 := c.s;
    StillIdle(s0, s1, uid, all);
    IdleDeletes(s1, m.content.key, uid, all);
    done, failed := DeleteSnapshotObject(c, m.content.key, uid, m.content.op, m.content.uid, DeleteObject(m.content.key, uid, all));
    RelyTransitive(s0, s1, c.s);
    if done { ClaimGoneMoved(s1, c.s, m.snapshot); }
  }

  method CleanupImports(c: Cluster, uid: Uid, r: Run, all: bool) returns (done: bool, failed: bool)
    requires Inv(c.s) && 0 < uid < c.s.next && ClaimsNumbered(r, c.s.next) && Idle(c.s, uid, all)
    requires c.Logged()
    modifies c
    ensures c.Logged() && old(c.log) <= c.log
    ensures Inv(c.s) && Rely(old(c.s), c.s)
    ensures done ==> !failed && ImportsGone(c.s, r.imports, |r.imports|)
    ensures c.calm && (forall m :: m in r.imports ==> Unclaimed(old(c.s), uid, m.snapshot) && Unclaimed(old(c.s), uid, m.content)) ==>
      !failed && (if done then c.s == old(c.s) else OneDeleted(old(c.s), c.s))
  {
    hide Inv, Moved, Rely, Idle, ClaimGone, OneDeleted;
    ghost var before := c.s;
    RelyReflexive(before);
    for i := 0 to |r.imports|
      invariant c.Logged() && old(c.log) <= c.log
      invariant Inv(c.s) && Rely(before, c.s) && ImportsGone(c.s, r.imports, i)
      invariant c.calm ==> c.s == before
    {
      var m := r.imports[i];
      assert m in r.imports;
      StillIdle(before, c.s, uid, all);
      Later(before, c.s, uid, r);
      ghost var s0 := c.s;
      done, failed := CleanupImport(c, uid, m, all);
      RelyTransitive(before, s0, c.s);
      if !done { return; }
      RelyMoved(s0, c.s);
      GoneMoved(s0, c.s, r, i);
    }
    return true, false;
  }

  lemma RelyMoved(s: State, t: State)
    requires Rely(s, t)
    ensures Moved(s, t)
  {}

  method AwaitVolumes(c: Cluster, uid: Uid, r: Run) returns (done: bool, failed: bool)
    requires Inv(c.s) && uid < c.s.next && ClaimsNumbered(r, c.s.next)
    requires c.Logged()
    modifies c
    ensures c.Logged() && old(c.log) <= c.log
    ensures Inv(c.s) && Rely(old(c.s), c.s)
    ensures done ==> !failed && ClaimsGone(c.s, r.volumes, |r.volumes|)
    ensures c.calm ==> c.s == old(c.s)
    ensures c.calm && (forall m :: m in r.volumes ==> m.key !in old(c.s).objects) ==> done
  {
    hide Inv, Moved, Rely, ClaimsNumbered;
    ghost var before := c.s;
    RelyReflexive(before);
    for i := 0 to |r.volumes|
      invariant c.Logged() && old(c.log) <= c.log
      invariant Inv(c.s) && Rely(before, c.s) && ClaimsGone(c.s, r.volumes, i)
      invariant c.calm ==> c.s == before
    {
      var m := r.volumes[i];
      assert m in r.volumes;
      ghost var s0 := c.s;
      Later(before, s0, uid, r);
      var live := c.Get(m.key);
      RelyTransitive(before, s0, c.s);
      if !live.Missing? { return false, live.Unreadable? || live.value.uid != m.uid; }
      RelyMoved(s0, c.s);
      assert m.key !in s0.objects;
      VolumeGone(s0, c.s, r, i);
    }
    return true, false;
  }

  lemma VolumeGone(s: State, t: State, r: Run, i: nat)
    requires Moved(s, t) && ClaimsNumbered(r, s.next) && i < |r.volumes|
    requires r.volumes[i].key !in s.objects && ClaimsGone(s, r.volumes, i)
    ensures ClaimsGone(t, r.volumes, i + 1)
  {
    hide Moved, ClaimsNumbered;
    GoneMoved(s, t, r, i);
    assert ClaimsNumbered(r, s.next) && r.volumes[i] in r.volumes ==> r.volumes[i].uid < s.next by { VolumeNumbered(r, i, s.next); }
    ClaimGoneMoved(s, t, r.volumes[i]);
  }

  lemma VolumeNumbered(r: Run, i: nat, next: Uid)
    requires ClaimsNumbered(r, next) && i < |r.volumes|
    ensures r.volumes[i].uid < next
  {
    assert r.volumes[i] in r.volumes;
  }

  /** A policy of the run: absent, or asked to go. */
  method CleanupPolicy(c: Cluster, uid: Uid, m: Claim, all: bool) returns (done: bool, failed: bool)
    requires Inv(c.s) && 0 < uid < c.s.next && m.uid < c.s.next && Idle(c.s, uid, all)
    requires c.Logged()
    modifies c
    ensures c.Logged() && old(c.log) <= c.log
    ensures Inv(c.s) && Rely(old(c.s), c.s)
    ensures done ==> !failed && ClaimGone(c.s, m)
    ensures c.calm && done ==> c.s == old(c.s)
    ensures c.calm && Unclaimed(old(c.s), uid, m) ==> !failed && (if done then c.s == old(c.s) else OneDeleted(old(c.s), c.s))
  {
    hide Inv, Apply, Idle, OneDeleted, Releases;
    ghost var s0 := c.s;
    var live := c.Get(m.key);
    if live.Unreadable? { return false, true; }
    if live.Missing? {
      ClaimGoneMoved(s0, c.s, m);
      return true, false;
    }
    if !Owns(live.value, uid, m.op, m.uid) { return false, true; }
    ghost var s1 := c.s;
    StillIdle(s0, s1, uid, all);
    IdleDeletes(s1, m.key, uid, all);
    failed := c.DeleteIf(m.key, live.value.uid, DeleteObject(m.key, uid, all));
    DeletionReleases(s1, DeleteObject(m.key, uid, all), c.s, failed);
    RelyTransitive(s0, s1, c.s);
    if m.key in s0.objects && !s0.objects[m.key].deleting { AppliedAsked(s0, DeleteObject(m.key, uid, all)); }
    return false, failed;
  }

  method CleanupPolicies(c: Cluster, uid: Uid, r: Run, all: bool) returns (done: bool, failed: bool)
    requires Inv(c.s) && 0 < uid < c.s.next && ClaimsNumbered(r, c.s.next) && Idle(c.s, uid, all)
    requires c.Logged()
    modifies c
    ensures c.Logged() && old(c.log) <= c.log
    ensures Inv(c.s) && Rely(old(c.s), c.s)
    ensures done ==> !failed && ClaimsGone(c.s, r.policies, |r.policies|)
    ensures c.calm && (forall m :: m in r.policies ==> Unclaimed(old(c.s), uid, m)) ==>
      !failed && (if done then c.s == old(c.s) else OneDeleted(old(c.s), c.s))
  {
    hide Inv, Moved, Rely, Idle, ClaimGone, OneDeleted, Unclaimed;
    ghost var before := c.s;
    RelyReflexive(before);
    for i := 0 to |r.policies|
      invariant c.Logged() && old(c.log) <= c.log
      invariant Inv(c.s) && Rely(before, c.s) && ClaimsGone(c.s, r.policies, i)
      invariant c.calm ==> c.s == before
    {
      var m := r.policies[i];
      assert m in r.policies;
      StillIdle(before, c.s, uid, all);
      Later(before, c.s, uid, r);
      ghost var s0 := c.s;
      done, failed := CleanupPolicy(c, uid, m, all);
      RelyTransitive(before, s0, c.s);
      if !done { return; }
      RelyMoved(s0, c.s);
      GoneMoved(s0, c.s, r, i);
    }
    return true, false;
  }

  /** The content of a capture is deleted by the snapshot controller, never by this one. */
  ghost predicate Bound(s: State, m: Capture) {
    m.content.key in s.objects ==> s.objects[m.content.key].uid == m.content.uid && m.snapshot.key in s.objects
  }

  method CleanupCapture(c: Cluster, uid: Uid, m: Capture, all: bool) returns (done: bool, failed: bool)
    requires Inv(c.s) && 0 < uid < c.s.next && m.snapshot.uid < c.s.next && m.content.uid < c.s.next
    requires Enabled(c.s, DeleteCapture(m.snapshot.key, uid, all))
    requires c.Logged()
    modifies c
    ensures c.Logged() && old(c.log) <= c.log
    ensures Inv(c.s) && Releases(old(c.s), uid, all, c.s)
    ensures done ==> !failed && ClaimGone(c.s, m.snapshot) && ClaimGone(c.s, m.content) && Rely(old(c.s), c.s)
    ensures c.calm && done ==> c.s == old(c.s)
    ensures c.calm && Unclaimed(old(c.s), uid, m.snapshot) && Bound(old(c.s), m) ==>
      !failed && (if done then c.s == old(c.s) else OneDeleted(old(c.s), c.s))
  {
    hide Inv, Apply, OneDeleted, Enabled, Idle;
    ghost var s0 := c.s;
    done, failed := DeleteSnapshotObject(c, m.snapshot.key, uid, m.snapshot.op, m.snapshot.uid, DeleteCapture(m.snapshot.key, uid, all));
    if !done { return; }
    if m.content.uid != 0 {
      ghost var s1 := c.s;
      var content := c.Get(m.content.key);
      RelyTransitive(s0, s1, c.s);
      ClaimGoneMoved(s1, c.s, m.snapshot);
      if !content.Missing? { return false, content.Unreadable? || content.value.uid != m.content.uid; }
      ClaimGoneMoved(s1, c.s, m.content);
    }
  }

  /** Releasing `uid` is allowed, whatever the object. */
  ghost predicate Releasable(s: State, uid: Uid, all: bool) {
    Enabled(s, DeleteCapture(GenerationKey(uid), uid, all))
  }

  lemma StillReleasable(s: State, t: State, uid: Uid, all: bool, key: Key)
    requires Inv(s) && Rely(s, t) && Releasable(s, uid, all)
    ensures Releasable(t, uid, all) && Enabled(t, DeleteCapture(key, uid, all))
  {
    DeletionStaysEnabled(s, t, DeleteCapture(GenerationKey(uid), uid, all));
  }

  lemma ReleasesLater(s: State, t: State, u: State, uid: Uid, all: bool)
    requires Rely(s, t) && Releases(t, uid, all, u)
    ensures Releases(s, uid, all, u)
  {
    MovedTransitive(s, t, u);
  }

  lemma RelyReleases(s: State, t: State, uid: Uid, all: bool)
    requires Rely(s, t)
    ensures Releases(s, uid, all, t)
  {}

  method CleanupCaptures(c: Cluster, uid: Uid, r: Run, all: bool) returns (done: bool, failed: bool)
    requires Inv(c.s) && 0 < uid < c.s.next && ClaimsNumbered(r, c.s.next) && Releasable(c.s, uid, all)
    requires c.Logged()
    modifies c
    ensures c.Logged() && old(c.log) <= c.log
    ensures Inv(c.s) && Releases(old(c.s), uid, all, c.s)
    ensures done ==> !failed && CapturesGoneTo(c.s, r.captures, |r.captures|) && Rely(old(c.s), c.s)
    ensures c.calm && (forall m :: m in r.captures ==> Unclaimed(old(c.s), uid, m.snapshot) && Bound(old(c.s), m)) ==>
      !failed && (if done then c.s == old(c.s) else OneDeleted(old(c.s), c.s))
  {
    hide Inv, Moved, Rely, Enabled, Releasable, Releases, ClaimGone, OneDeleted, Unclaimed, Bound;
    ghost var before := c.s;
    RelyReflexive(before);
    RelyReleases(before, before, uid, all);
    for i := 0 to |r.captures|
      invariant c.Logged() && old(c.log) <= c.log
      invariant Inv(c.s) && Rely(before, c.s) && CapturesGoneTo(c.s, r.captures, i)
      invariant c.calm ==> c.s == before
    {
      var m := r.captures[i];
      assert m in r.captures;
      StillReleasable(before, c.s, uid, all, m.snapshot.key);
      Later(before, c.s, uid, r);
      ghost var s0 := c.s;
      done, failed := CleanupCapture(c, uid, m, all);
      ReleasesLater(before, s0, c.s, uid, all);
      if !done { return; }
      RelyTransitive(before, s0, c.s);
      RelyMoved(s0, c.s);
      GoneMoved(s0, c.s, r, i);
    }
    RelyReleases(before, c.s, uid, all);
    return true, false;
  }

  /** The child of a generation: absent, or asked to go. */
  method RetireChild(c: Cluster, uid: Uid, r: Run, all: bool) returns (done: bool, failed: bool)
    requires Inv(c.s) && 0 < uid < c.s.next && r.child < c.s.next && Idle(c.s, uid, all)
    requires c.Logged()
    modifies c
    ensures c.Logged() && old(c.log) <= c.log
    ensures Inv(c.s) && Rely(old(c.s), c.s)
    ensures done ==> !failed && !Present(c.s, GenerationKey(uid), r.child)
    ensures c.calm && done ==> c.s == old(c.s) && (r.child != 0 ==> GenerationKey(uid) !in c.s.objects)
    ensures c.calm && (r.child != 0 && GenerationKey(uid) in old(c.s).objects ==>
        old(c.s).objects[GenerationKey(uid)].uid == r.child && !old(c.s).objects[GenerationKey(uid)].deleting) ==>
      !failed && (if done then c.s == old(c.s) else OneDeleted(old(c.s), c.s))
  {
    hide Inv, Apply, Idle, OneDeleted, Releases;
    ghost var s0 := c.s;
    if r.child == 0 { return true, false; }
    var child := c.Get(GenerationKey(uid));
    if child.Unreadable? { return false, true; }
    if child.Missing? { return true, false; }
    if child.value.uid != r.child { return false, true; }
    if child.value.deleting { return false, false; }
    ghost var s1 := c.s;
    StillIdle(s0, s1, uid, all);
    IdleDeletes(s1, GenerationKey(uid), uid, all);
    failed := c.DeleteIf(GenerationKey(uid), child.value.uid, DeleteObject(GenerationKey(uid), uid, all));
    DeletionReleases(s1, DeleteObject(GenerationKey(uid), uid, all), c.s, failed);
    RelyTransitive(s0, s1, c.s);
    AppliedAsked(s0, DeleteObject(GenerationKey(uid), uid, all));
    return false, failed;
  }

  /** The cluster is quiet around a run: its names are not reused, nothing of it is
      terminating, and its volumes and contents went when what they served went. */
  ghost predicate Quiet(s: State, uid: Uid, r: Run) {
    && (r.child != 0 && GenerationKey(uid) in s.objects ==>
          s.objects[GenerationKey(uid)].uid == r.child && !s.objects[GenerationKey(uid)].deleting)
    && (forall c :: c in r.volumes && c.key in s.objects ==> r.child != 0 && GenerationKey(uid) in s.objects)
    && (forall m :: m in r.imports ==> Unclaimed(s, uid, m.snapshot) && Unclaimed(s, uid, m.content))
    && (forall c :: c in r.policies ==> Unclaimed(s, uid, c))
    && (forall m :: m in r.captures ==> Unclaimed(s, uid, m.snapshot) && Bound(s, m))
  }

  /** `i` of the four stages of retiring a generation are complete. */
  ghost predicate RetiredTo(s: State, uid: Uid, r: Run, i: nat) {
    && (1 <= i ==> !Present(s, GenerationKey(uid), r.child))
    && (2 <= i ==> ClaimsGone(s, r.volumes, |r.volumes|))
    && (3 <= i ==> ImportsGone(s, r.imports, |r.imports|))
    && (4 <= i ==> ClaimsGone(s, r.policies, |r.policies|))
  }

  lemma RetiredToMoved(s: State, t: State, uid: Uid, r: Run, i: nat)
    requires Rely(s, t) && r.child < s.next && ClaimsNumbered(r, s.next) && RetiredTo(s, uid, r, i)
    ensures RetiredTo(t, uid, r, i)
  {
    hide ClaimGone, Moved, ImportsGone, ClaimsGone, Present;
    RelyMoved(s, t);
    GoneMoved(s, t, r, |r.volumes|);
    GoneMoved(s, t, r, |r.imports|);
    GoneMoved(s, t, r, |r.policies|);
    if Present(t, GenerationKey(uid), r.child) { MovedPresent(s, t, GenerationKey(uid), r.child); }
  }

  lemma RetiredAll(s: State, uid: Uid, r: Run)
    requires RetiredTo(s, uid, r, 4)
    ensures Retired(s, uid, r)
  {}

  /** Removes everything a generation owns: the child first, then what served it. */
  method Retire(c: Cluster, uid: Uid, r: Run, all: bool) returns (done: bool, failed: bool)
    requires Inv(c.s) && 0 < uid < c.s.next && ClaimsNumbered(r, c.s.next) && r.child < c.s.next && Idle(c.s, uid, all)
    requires c.Logged()
    modifies c
    ensures c.Logged() && old(c.log) <= c.log
    ensures Inv(c.s) && Rely(old(c.s), c.s)
    ensures done ==> !failed && Retired(c.s, uid, r)
    ensures c.calm && Quiet(old(c.s), uid, r) ==> !failed && (if done then c.s == old(c.s) else OneDeleted(old(c.s), c.s))
  {
    hide Inv, Moved, Rely, Idle, ClaimGone, ClaimsNumbered, OneDeleted, Unclaimed, Bound, Present, ImportsGone, ClaimsGone, Retired;
    ghost var s0 := c.s;
    done, failed := RetireChild(c, uid, r, all);
    if !done { return; }
    ghost var s1 := c.s;
    Later(s0, s1, uid, r);
    StillIdle(s0, s1, uid, all);
    done, failed := AwaitVolumes(c, uid, r);
    RelyTransitive(s0, s1, c.s);
    if !done { return; }
    ghost var s2 := c.s;
    RetiredToMoved(s1, s2, uid, r, 1);
    Later(s1, s2, uid, r);
    StillIdle(s1, s2, uid, all);
    done, failed := CleanupImports(c, uid, r, all);
    RelyTransitive(s0, s2, c.s);
    if !done { return; }
    ghost var s3 := c.s;
    RetiredToMoved(s2, s3, uid, r, 2);
    Later(s2, s3, uid, r);
    StillIdle(s2, s3, uid, all);
    done, failed := CleanupPolicies(c, uid, r, all);
    RelyTransitive(s0, s3, c.s);
    if done {
      RetiredToMoved(s3, c.s, uid, r, 3);
      RetiredAll(c.s, uid, r);
    }
  }
}
