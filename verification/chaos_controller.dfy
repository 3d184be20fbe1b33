/** The experiment controller: apply in order, roll back in reverse. */
module ChaosController {
  import opened Common
  import opened ChaosProtocol
  import opened ChaosRuns
  import opened ChaosGuest

  /** The loaded copy is the stored record, or one that a lost save has replaced. */
  ghost predicate Holding(s: State, uid: Uid, r: Record) {
    uid in s.records && r.version < s.next && s.records[uid].replica == r.replica &&
    (s.records[uid] == r || r.version < s.records[uid].version)
  }

  ghost predicate Running(s: State, uid: Uid, r: Record) {
    uid in s.records && s.records[uid] == r
  }

  ghost predicate Acting(s: State, uid: Uid, r: Record, i: int) {
    Running(s, uid, r) && Finalized(s, uid) && !r.cleanup && !r.finished && 0 <= i <= |r.actions| && AppliedBefore(r.actions, i)
  }

  lemma ActingMoved(s: State, t: State, uid: Uid, r: Record, i: int)
    requires Inv(s) && Acting(s, uid, r, i) && Rely(s, t)
    ensures Acting(t, uid, r, i)
  {}

  lemma HoldingWrote(s: State, w: Write, t: State, uid: Uid, r: Record, failed: bool)
    requires Inv(s) && Holding(s, uid, r) && (Wrote(s, w, t, failed) || (failed && Rely(s, t))) && !w.Forget? && !w.Intend?
    ensures Holding(t, uid, r)
  {
    hide Inv, RequestsKept, MarksKept, NamesKept, VersionsKept;
    WriteRecords(s, w, uid);
  }

  lemma WriteRecords(s: State, w: Write, uid: Uid)
    requires !w.Forget? && !w.Intend? && uid in s.records
    ensures uid in Apply(s, w).records && Apply(s, w).records[uid].replica == s.records[uid].replica && s.next <= Apply(s, w).next
    ensures Apply(s, w).records[uid] == s.records[uid] || Apply(s, w).records[uid].version == s.next
  {
    hide Objects, Namespaces, Physical, Requests, Marked, Ops;
  }

  lemma WorldWrite(s: State, w: Write)
    requires w.Create? || w.Zero? || w.Restore? || w.Remove? || w.Hold?
    ensures Apply(s, w).records == s.records && (!w.Hold? ==> forall u :: Finalized(s, u) ==> Finalized(Apply(s, w), u))
  {
    hide Objects, Namespaces, Physical, Marked;
  }

  lemma ActingWrote(s: State, w: Write, t: State, uid: Uid, r: Record, i: int, failed: bool)
    requires Inv(s) && Inv(t) && Acting(s, uid, r, i) && (Wrote(s, w, t, failed) || Rely(s, t)) && (w.Create? || w.Zero? || w.Remove?) && Enabled(s, w)
    ensures Acting(t, uid, r, i)
  {
    hide Enabled, Apply, Rely;
    WorldWrite(s, w);
    var m := Apply(s, w);
    if Rely(m, t) {
      WriteKeeps(s, w);
      ActingMoved(m, t, uid, r, i);
    } else {
      ActingMoved(s, t, uid, r, i);
    }
  }

  lemma ActingRuns(s: State, uid: Uid, r: Record, i: int)
    requires Inv(s) && Acting(s, uid, r, i)
    ensures Running(s, uid, r) && Holding(s, uid, r) && JournalSound(r)
    ensures forall j :: 0 <= j < |r.actions| ==> !r.actions[j].cleaned
  {}

  lemma AdvanceSaved(s: State, t: State, uid: Uid, r: Record, i: nat, a: Action)
    requires Inv(s) && Inv(t) && Acting(s, uid, r, i) && i < |r.actions| && Forward(r, i, a) && a.applied
    requires Rely(Apply(s, Progress(uid, i, a, 0)), t)
    ensures Acting(t, uid, r.(actions := r.actions[i := a], version := s.next), i + 1)
  {
    hide *;
    AdvanceActing(s, uid, r, i, a);
    ActingMoved(Apply(s, Progress(uid, i, a, 0)), t, uid, r.(actions := r.actions[i := a], version := s.next), i + 1);
  }

  lemma AdvanceActing(s: State, uid: Uid, r: Record, i: nat, a: Action)
    requires Inv(s) && Acting(s, uid, r, i) && i < |r.actions| && Forward(r, i, a) && a.applied
    ensures var m := Apply(s, Progress(uid, i, a, 0)); Inv(m) && Acting(m, uid, r.(actions := r.actions[i := a], version := s.next), i + 1)
  {
    assert HasAction(s, uid, i);
    WriteKeeps(s, Progress(uid, i, a, 0));
    hide Inv;
  }

  /** Saves that action `i` was applied. */
  method Advance(g: Guest, uid: Uid, r: Record, i: nat, a: Action) returns (failed: bool, later: Record)
    requires g.Valid() && Acting(g.s, uid, r, i) && i < |r.actions| && Forward(r, i, a) && a.applied
    modifies g
    ensures g.Valid() && old(g.log) <= g.log && Holding(g.s, uid, r)
    ensures !failed ==> Acting(g.s, uid, later, i + 1) && later == r.(actions := r.actions[i := a], version := later.version)
  {
    hide Inv, Rely, Recorded, Apply;
    ghost var s0 := g.s;
    ActingRuns(s0, uid, r, i);
    var saved;
    failed, saved := g.SaveRecord(uid, r.version, Progress(uid, i, a, 0));
    HoldingWrote(s0, Progress(uid, i, a, 0), g.s, uid, r, failed);
    later := r.(actions := r.actions[i := a], version := saved);
    if !failed { AdvanceSaved(s0, g.s, uid, r, i, a); }
  }

  predicate Owned(live: Object, a: Action) { (a.uid == 0 || live.uid == a.uid) && live.op == a.op }

  /** Creates the object of an action, or recognises it by UID and marker. */
  method ApplyCreate(g: Guest, uid: Uid, r: Record, i: nat) returns (failed: bool, learned: Action, later: Record)
    requires g.Valid() && Acting(g.s, uid, r, i) && i < |r.actions| && r.actions[i].kind in {HostPolicy, Account, Job}
    modifies g
    ensures g.Valid() && old(g.log) <= g.log && Holding(g.s, uid, r)
    ensures learned == r.actions[i] || (Forward(r, i, learned) && learned.applied && learned.uid != 0)
    ensures !failed ==> Acting(g.s, uid, later, i + 1) && later == r.(actions := r.actions[i := learned], version := later.version) && learned.applied
  {
    hide Inv, Rely, Recorded, Apply, Acting, Holding;
    var a := r.actions[i];
    later, learned := r, a;
    ghost var s0 := g.s;
    ActingRuns(s0, uid, r, i);
    var scope: bool := *; // other host policies conflict, or the runtime is not qualified
    if (a.kind == HostPolicy || a.kind == Job) && !scope { return true, a, r; }
    var live, at := g.Get(a.key);
    ghost var s1 := g.s;
    ActingStep(s0, s1, uid, r, i);
    if live.Unreadable? { return true, a, r; }
    var found := if live.Found? then live.value else Object(0, 0, 0, 0, false, false);
    if live.Missing? {
      if a.uid != 0 || a.applied { return true, a, r; }
      if a.key !in s1.world.objects && Placeable(s1.world, a) { CreateEnabled(s1, uid, r, i); }
      var created;
      failed, created := g.CreateIf(a, Create(uid, i));
      if a.key !in s1.world.objects && Placeable(s1.world, a) { ActingCreated(s1, g.s, uid, r, i, failed); } else { ActingStep(s1, g.s, uid, r, i); }
      if failed { return true, a, r; }
      found := Object(created, created, a.op, 0, false, true);
      PositiveNext(s1);
    } else {
      PositiveUid(s0, a.key);
    }
    ghost var s2 := g.s;
    ActingRuns(s2, uid, r, i);
    var healthy: bool := *; // a Job has not failed
    if !Owned(found, a) || (!found.ours && a.kind == HostPolicy) || !healthy { return true, a, r; }
    learned := a.(uid := found.uid, applied := true);
    ForwardApplied(s2, uid, r, i, learned);
    failed, later := Advance(g, uid, r, i, learned);
  }

  lemma ActingStep(s: State, t: State, uid: Uid, r: Record, i: int)
    requires Inv(s) && Inv(t) && Acting(s, uid, r, i) && Rely(s, t)
    ensures Acting(t, uid, r, i) && Running(t, uid, r) && Holding(t, uid, r)
  {
    ActingMoved(s, t, uid, r, i);
    ActingRuns(t, uid, r, i);
  }

  lemma ActingCreated(s: State, t: State, uid: Uid, r: Record, i: nat, failed: bool)
    requires Inv(s) && Inv(t) && Acting(s, uid, r, i) && Enabled(s, Create(uid, i))
    requires Wrote(s, Create(uid, i), t, failed) || Rely(s, t)
    ensures Acting(t, uid, r, i) && Running(t, uid, r) && Holding(t, uid, r)
  {
    hide Inv, Enabled, Apply, Rely;
    ActingWrote(s, Create(uid, i), t, uid, r, i, failed);
    ActingRuns(t, uid, r, i);
  }

  lemma CreateEnabled(s: State, uid: Uid, r: Record, i: nat)
    requires Acting(s, uid, r, i) && i < |r.actions| && r.actions[i].key !in s.world.objects && Placeable(s.world, r.actions[i])
    requires r.actions[i].uid == 0 && !r.actions[i].applied && r.actions[i].kind in {HostPolicy, Account, Job}
    ensures Enabled(s, Create(uid, i))
  {}

  lemma PositiveNext(s: State)
    requires Inv(s)
    ensures 0 < s.next
  {}

  lemma PositiveUid(s: State, key: Key)
    requires Inv(s) && key in s.world.objects
    ensures 0 < s.world.objects[key].uid
  {}

  lemma ForwardApplied(s: State, uid: Uid, r: Record, i: nat, a: Action)
    requires Inv(s) && Acting(s, uid, r, i) && i < |r.actions|
    requires a == r.actions[i].(uid := a.uid, applied := true) && (r.actions[i].uid != 0 ==> a.uid == r.actions[i].uid)
    ensures Forward(r, i, a)
  {
    ActingRuns(s, uid, r, i);
  }

  /** Deletes the pinned Pod once; a recreated Pod of the same name is never touched. */
  method ApplyPodKill(g: Guest, uid: Uid, r: Record, i: nat) returns (failed: bool, learned: Action, later: Record)
    requires g.Valid() && Acting(g.s, uid, r, i) && i < |r.actions| && r.actions[i].kind == PodKill
    modifies g
    ensures g.Valid() && old(g.log) <= g.log && Holding(g.s, uid, r)
    ensures learned == r.actions[i] || (Forward(r, i, learned) && learned.applied && learned.uid == r.actions[i].uid)
    ensures !failed ==> Acting(g.s, uid, later, i + 1) && later == r.(actions := r.actions[i := learned], version := later.version) && learned.applied
  {
    hide Inv, Rely, Recorded, Apply, Acting, Holding, Enabled;
    var a := r.actions[i];
    later, learned := r, a;
    ghost var s0 := g.s;
    ActingRuns(s0, uid, r, i);
    var live, at := g.Get(a.key);
    ghost var s1 := g.s;
    ActingStep(s0, s1, uid, r, i);
    if live.Unreadable? { return true, a, r; }
    if live.Found? && live.value.uid == a.uid && !a.applied {
      if a.key in s1.world.objects && s1.world.objects[a.key].version == live.value.version { SameObject(s0, s1, a.key); PodKillEnabled(s1, uid, r, i); }
      failed := g.ChangeIf(a.key, live.value, Remove(uid, i, 0));
      ActingRemoved(s1, g.s, uid, r, i, live.value, failed);
      if failed { return true, a, r; }
    }
    learned := a.(applied := true);
    ForwardApplied(g.s, uid, r, i, learned);
    failed, later := Advance(g, uid, r, i, learned);
  }

  lemma SameObject(s: State, t: State, key: Key)
    requires Inv(s) && Rely(s, t) && key in s.world.objects && key in t.world.objects && t.world.objects[key].version == s.world.objects[key].version
    ensures t.world.objects[key] == s.world.objects[key]
  {}

  lemma PodKillEnabled(s: State, uid: Uid, r: Record, i: nat)
    requires Acting(s, uid, r, i) && i < |r.actions| && r.actions[i].kind == PodKill
    requires r.actions[i].key in s.world.objects && s.world.objects[r.actions[i].key].uid == r.actions[i].uid
    ensures Enabled(s, Remove(uid, i, 0))
  {}

  lemma ActingRemoved(s: State, t: State, uid: Uid, r: Record, i: nat, seen: Object, failed: bool)
    requires Inv(s) && Inv(t) && Acting(s, uid, r, i) && i < |r.actions|
    requires Rely(s, t) || (Enabled(s, Remove(uid, i, 0)) && Wrote(s, Remove(uid, i, 0), t, failed))
    ensures Acting(t, uid, r, i) && Running(t, uid, r) && Holding(t, uid, r)
  {
    hide Inv, Enabled, Apply, Rely;
    if Rely(s, t) { ActingStep(s, t, uid, r, i); }
    else { ActingWrote(s, Remove(uid, i, 0), t, uid, r, i, failed); ActingRuns(t, uid, r, i); }
  }

  /** Scales the exact workload to zero, provided nobody changed it. */
  method ApplyScale(g: Guest, uid: Uid, r: Record, i: nat) returns (failed: bool, learned: Action, later: Record)
    requires g.Valid() && Acting(g.s, uid, r, i) && i < |r.actions| && r.actions[i].kind == Scale
    modifies g
    ensures g.Valid() && old(g.log) <= g.log && Holding(g.s, uid, r)
    ensures learned == r.actions[i] || (Forward(r, i, learned) && learned.applied && learned.uid == r.actions[i].uid)
    ensures !failed ==> Acting(g.s, uid, later, i + 1) && later == r.(actions := r.actions[i := learned], version := later.version) && learned.applied
  {
    hide Inv, Rely, Recorded, Apply, Acting, Holding, Enabled;
    var a := r.actions[i];
    later, learned := r, a;
    ghost var s0 := g.s;
    ActingRuns(s0, uid, r, i);
    var live, at := g.Get(a.key);
    ghost var s1 := g.s;
    ActingStep(s0, s1, uid, r, i);
    if !live.Found? || live.value.uid != a.uid || !live.value.ours { return true, a, r; }
    var x := live.value;
    if !(x.op == a.op && x.replicas == 0) {
      if a.applied || x.op != 0 || x.replicas != a.original { return true, a, r; }
      if a.key in s1.world.objects && s1.world.objects[a.key].version == x.version { SameObject(s0, s1, a.key); ZeroEnabled(s1, uid, r, i); }
      failed := g.ChangeIf(a.key, x, Zero(uid, i));
      ActingZeroed(s1, g.s, uid, r, i, failed);
      if failed { return true, a, r; }
    }
    learned := a.(applied := true);
    ForwardApplied(g.s, uid, r, i, learned);
    failed, later := Advance(g, uid, r, i, learned);
  }

  lemma ZeroEnabled(s: State, uid: Uid, r: Record, i: nat)
    requires Acting(s, uid, r, i) && i < |r.actions| && r.actions[i].kind == Scale && r.actions[i].key in s.world.objects && !r.actions[i].applied
    requires var x := s.world.objects[r.actions[i].key]; x.uid == r.actions[i].uid && x.op == 0 && x.replicas == r.actions[i].original && x.ours
    ensures Enabled(s, Zero(uid, i))
  {}

  lemma ActingZeroed(s: State, t: State, uid: Uid, r: Record, i: nat, failed: bool)
    requires Inv(s) && Inv(t) && Acting(s, uid, r, i) && i < |r.actions|
    requires Rely(s, t) || (Enabled(s, Zero(uid, i)) && Wrote(s, Zero(uid, i), t, failed))
    ensures Acting(t, uid, r, i) && Running(t, uid, r) && Holding(t, uid, r)
  {
    hide Inv, Enabled, Apply, Rely;
    if Rely(s, t) { ActingStep(s, t, uid, r, i); }
    else { ActingWrote(s, Zero(uid, i), t, uid, r, i, failed); ActingRuns(t, uid, r, i); }
  }

  /** Applies one action; `learned` is what the in-memory copy knows even after a failure. */
  method ApplyAction(g: Guest, uid: Uid, r: Record, i: nat) returns (failed: bool, learned: Action, later: Record)
    requires g.Valid() && Acting(g.s, uid, r, i) && i < |r.actions|
    modifies g
    ensures g.Valid() && old(g.log) <= g.log && Holding(g.s, uid, r)
    ensures learned == r.actions[i] || Forward(r, i, learned)
    ensures !failed ==> Acting(g.s, uid, later, i + 1) && later == r.(actions := r.actions[i := learned], version := later.version)
  {
    hide Inv, Rely, Recorded, Acting, Holding;
    match r.actions[i].kind
    case PodKill => failed, learned, later := ApplyPodKill(g, uid, r, i);
    case Scale => failed, learned, later := ApplyScale(g, uid, r, i);
    case _ => failed, learned, later := ApplyCreate(g, uid, r, i);
  }

  // ---------------------------------------------------------------- rollback

  /** Rolling back action `i`: everything after it is cleaned. */
  ghost predicate Undoing(s: State, uid: Uid, r: Record, i: int) {
    Running(s, uid, r) && r.cleanup && !r.finished && -1 <= i < |r.actions| && forall j :: i < j < |r.actions| ==> r.actions[j].cleaned
  }

  lemma UndoingMoved(s: State, t: State, uid: Uid, r: Record, i: int)
    requires Undoing(s, uid, r, i) && Rely(s, t)
    ensures Undoing(t, uid, r, i)
  {}

  lemma UndoingRuns(s: State, uid: Uid, r: Record, i: int)
    requires Inv(s) && Undoing(s, uid, r, i)
    ensures Running(s, uid, r) && Holding(s, uid, r) && JournalSound(r)
  {}

  lemma CleanedSaved(s: State, t: State, uid: Uid, r: Record, i: nat, at: nat)
    requires Inv(s) && Inv(t) && Undoing(s, uid, r, i) && !r.actions[i].cleaned
    requires Enabled(s, Progress(uid, i, r.actions[i].(cleaned := true), at)) && Rely(Apply(s, Progress(uid, i, r.actions[i].(cleaned := true), at)), t)
    ensures Undoing(t, uid, r.(actions := r.actions[i := r.actions[i].(cleaned := true)], version := s.next), i - 1)
  {
    hide Inv, MarksKept, NamesKept, VersionsKept, RequestsKept;
    var m := Apply(s, Progress(uid, i, r.actions[i].(cleaned := true), at));
    assert Undoing(m, uid, r.(actions := r.actions[i := r.actions[i].(cleaned := true)], version := s.next), i - 1);
    hide Undoing;
    UndoingMoved(m, t, uid, r.(actions := r.actions[i := r.actions[i].(cleaned := true)], version := s.next), i - 1);
  }

  lemma CleanEnabled(s: State, t: State, uid: Uid, r: Record, i: nat, at: nat)
    requires Inv(s) && Undoing(s, uid, r, i) && !r.actions[i].cleaned && Rely(s, t)
    requires at == s.next - 1 && RolledBack(s.world, r.actions[i])
    ensures Enabled(t, Progress(uid, i, r.actions[i].(cleaned := true), at))
  {
    hide RolledBack, MarksKept, NamesKept, VersionsKept, RequestsKept, EffectsFade, EffectsSound, OpsSound, OneSlot;
    assert s.past[at] == s.world;
  }

  /** Saves that action `i` was observed rolled back at moment `at`. */
  method Clean(g: Guest, ghost seen: State, uid: Uid, r: Record, i: nat, at: nat) returns (failed: bool, later: Record)
    requires g.Valid() && Inv(seen) && Undoing(seen, uid, r, i) && !r.actions[i].cleaned && Rely(seen, g.s)
    requires at == seen.next - 1 && RolledBack(seen.world, r.actions[i])
    modifies g
    ensures g.Valid() && OnlyIssued(old(g.log), g.log, Progress(uid, i, r.actions[i].(cleaned := true), at))
    ensures !failed ==> Undoing(g.s, uid, later, i - 1) && later == r.(actions := r.actions[i := r.actions[i].(cleaned := true)], version := later.version)
  {
    hide Inv, Rely, Recorded, Apply, Undoing, Enabled, RolledBack;
    ghost var s0 := g.s;
    CleanEnabled(seen, s0, uid, r, i, at);
    UndoingMoved(seen, s0, uid, r, i);
    UndoingRuns(s0, uid, r, i);
    var saved;
    failed, saved := g.SaveRecord(uid, r.version, Progress(uid, i, r.actions[i].(cleaned := true), at));
    later := r.(actions := r.actions[i := r.actions[i].(cleaned := true)], version := saved);
    if !failed { CleanedSaved(s0, g.s, uid, r, i, at); }
  }

  lemma IdentifySaved(s: State, t: State, uid: Uid, r: Record, i: nat, a: Action)
    requires Inv(s) && Inv(t) && Undoing(s, uid, r, i) && Forward(r, i, a) && a == r.actions[i].(uid := a.uid)
    requires Rely(Apply(s, Progress(uid, i, a, 0)), t)
    ensures Undoing(t, uid, r.(actions := r.actions[i := a], version := s.next), i)
  {
    hide Inv, MarksKept, NamesKept, VersionsKept, RequestsKept;
    var m := Apply(s, Progress(uid, i, a, 0));
    assert Undoing(m, uid, r.(actions := r.actions[i := a], version := s.next), i);
    hide Undoing;
    UndoingMoved(m, t, uid, r.(actions := r.actions[i := a], version := s.next), i);
  }

  /** Records the UID of an owned object found during rollback. */
  method Identify(g: Guest, uid: Uid, r: Record, i: nat, found: Uid) returns (failed: bool, later: Record)
    requires g.Valid() && Undoing(g.s, uid, r, i) && i < |r.actions| && !r.actions[i].cleaned && r.actions[i].uid == 0
    modifies g
    ensures g.Valid() && old(g.log) <= g.log
    ensures !failed ==> Undoing(g.s, uid, later, i) && later == r.(actions := r.actions[i := r.actions[i].(uid := found)], version := later.version)
    ensures !failed ==> Kept(old(g.s), g.s)
  {
    hide Inv, Rely, Recorded, Apply, Undoing, AppliedBefore, Kept;
    ghost var s0 := g.s;
    UndoingRuns(s0, uid, r, i);
    var a := r.actions[i].(uid := found);
    IdentifyForward(s0, uid, r, i, a);
    var saved;
    failed, saved := g.SaveRecord(uid, r.version, Progress(uid, i, a, 0));
    later := r.(actions := r.actions[i := a], version := saved);
    if !failed {
      IdentifySaved(s0, g.s, uid, r, i, a);
      NumberedIn(s0);
      KeptSaved(s0, uid, i, a, g.s);
    }
  }

  lemma IdentifyForward(s: State, uid: Uid, r: Record, i: nat, a: Action)
    requires Undoing(s, uid, r, i) && i < |r.actions| && !r.actions[i].cleaned && r.actions[i].uid == 0 && a == r.actions[i].(uid := a.uid)
    ensures Forward(r, i, a)
  {}

  lemma RemoveEnabled(s: State, uid: Uid, r: Record, i: nat, at: nat)
    requires Undoing(s, uid, r, i) && i < |r.actions| && r.actions[i].kind in {Account, Job, HostPolicy}
    requires r.actions[i].key in s.world.objects ==> Owned(s.world.objects[r.actions[i].key], r.actions[i])
    requires r.actions[i].kind == HostPolicy ==> Observed(s, uid, at) && JobsGone(s.past[at], r.actions, r.actions[i].key.ns)
    ensures Enabled(s, Remove(uid, i, at))
  {
    hide JobsGone, Observed;
  }

  lemma AbsentRolledBack(s: State, a: Action)
    requires a.key !in s.world.objects
    ensures RolledBack(s.world, a)
  {}

  /** Object versions still name the states they named before. */
  ghost predicate Kept(s: State, t: State) {
    s.next <= t.next && VersionsKept(s.world.objects, s.next, t.world.objects)
  }

  lemma KeptRely(s: State, t: State)
    requires Rely(s, t)
    ensures Kept(s, t)
  {}

  lemma KeptTransitive(s: State, t: State, u: State)
    requires Kept(s, t) && Kept(t, u)
    ensures Kept(s, u)
  {}

  lemma KeptSaved(s: State, uid: Uid, i: nat, a: Action, t: State)
    requires HasAction(s, uid, i) && Rely(Apply(s, Progress(uid, i, a, 0)), t) && Numbered(s)
    ensures Kept(s, t)
  {
    hide MarksKept, NamesKept, RequestsKept;
  }

  lemma KeptObject(s: State, t: State, key: Key)
    requires Inv(s) && Kept(s, t) && key in s.world.objects && key in t.world.objects && t.world.objects[key].version == s.world.objects[key].version
    ensures t.world.objects[key] == s.world.objects[key]
  {}

  /** A fault object in the guest: asked to go, and cleaned once gone with its Pods. */
  method RollbackObject(g: Guest, uid: Uid, start: Record, i: nat) returns (done: bool, failed: bool, later: Record)
    requires g.Valid() && Undoing(g.s, uid, start, i) && i < |start.actions| && !start.actions[i].cleaned && start.actions[i].kind in {Account, Job}
    modifies g
    ensures g.Valid() && old(g.log) <= g.log
    ensures done ==> !failed && Undoing(g.s, uid, later, i - 1) && |later.actions| == |start.actions|
  {
    hide Inv, Rely, Recorded, Apply, Undoing, Enabled, RolledBack, Kept;
    var a := start.actions[i];
    later := start;
    ghost var s0 := g.s;
    UndoingRuns(s0, uid, start, i);
    var live, at := g.Get(a.key);
    ghost var s1 := g.s;
    UndoingMoved(s0, s1, uid, start, i);
    KeptRely(s0, s1);
    if live.Unreadable? { return false, true, start; }
    if live.Missing? {
      var podsGone: bool := *; // a Job's own guest Pods were deleted and are gone
      if a.kind == Job && !podsGone { return false, false, start; }
      AbsentRolledBack(s0, a);
      failed, later := Clean(g, s0, uid, start, i, at);
      return !failed, failed, later;
    }
    if !Owned(live.value, a) { return false, true, start; }
    if a.uid == 0 {
      failed, later := Identify(g, uid, start, i, live.value.uid);
      if failed { return false, true, later; }
      KeptTransitive(s0, s1, g.s);
    }
    if live.value.deleting { return false, false, later; }
    ghost var s2 := g.s;
    if a.key in s2.world.objects && s2.world.objects[a.key].version == live.value.version {
      KeptObject(s0, s2, a.key);
      RemoveEnabled(s2, uid, later, i, 0);
    }
    failed := g.ChangeIf(a.key, live.value, Remove(uid, i, 0));
    return false, failed, later;
  }

  lemma ListedObserved(s: State, t: State, uid: Uid, r: Record, i: int, at: nat)
    requires Inv(s) && Undoing(s, uid, r, i) && Rely(s, t) && at == s.next - 1
    ensures Observed(t, uid, at) && t.past[at] == s.world
  {}

  /** Jobs of a namespace come after its policy, so by now all of them are cleaned. */
  lemma JobsCleaned(s: State, uid: Uid, r: Record, i: nat)
    requires Inv(s) && Undoing(s, uid, r, i) && i < |r.actions| && r.actions[i].kind == HostPolicy
    requires forall j :: 0 <= j < |r.actions| && r.actions[j].kind == Job && r.actions[j].key.ns == r.actions[i].key.ns ==>
      (r.actions[i].key.ns, r.actions[j].key.name) !in s.world.physical
    ensures JobsGone(s.world, r.actions, r.actions[i].key.ns)
  {
    UndoingRuns(s, uid, r, i);
  }

  /** The deny policy of a namespace: kept until no physical Pod of its Jobs is left. */
  method RollbackPolicy(g: Guest, uid: Uid, r: Record, i: nat) returns (done: bool, failed: bool, later: Record)
    requires g.Valid() && Undoing(g.s, uid, r, i) && i < |r.actions| && !r.actions[i].cleaned && r.actions[i].kind == HostPolicy
    modifies g
    ensures g.Valid() && old(g.log) <= g.log
    ensures done ==> !failed && Undoing(g.s, uid, later, i - 1) && |later.actions| == |r.actions|
  {
    hide Inv, Rely, Recorded, Apply, Undoing, Enabled, RolledBack, Observed, JobsGone;
    var a := r.actions[i];
    later := r;
    ghost var s0 := g.s;
    UndoingRuns(s0, uid, r, i);
    var pods, listed := g.ListPhysical();
    ghost var s1 := g.s;
    UndoingMoved(s0, s1, uid, r, i);
    var mapped: bool := *; // every physical Pod of the namespace tells its guest name
    if pods.Unreadable? || !mapped { return false, true, r; }
    if exists j :: 0 <= j < |r.actions| && r.actions[j].kind == Job && r.actions[j].key.ns == a.key.ns && (a.key.ns, r.actions[j].key.name) in pods.value {
      return false, false, r;
    }
    JobsCleaned(s0, uid, r, i);
    var live, at := g.Get(a.key);
    ghost var s2 := g.s;
    UndoingMoved(s1, s2, uid, r, i);
    if live.Unreadable? { return false, true, r; }
    if live.Missing? {
      AbsentRolledBack(s1, a);
      failed, later := Clean(g, s1, uid, r, i, at);
      return !failed, failed, later;
    }
    if !Owned(live.value, a) { return false, true, r; }
    RelyTransitive(s0, s1, s2);
    ListedObserved(s0, s2, uid, r, i, listed);
    if a.key in s2.world.objects && s2.world.objects[a.key].version == live.value.version {
      SameObject(s1, s2, a.key);
      RemoveEnabled(s2, uid, r, i, listed);
    }
    failed := g.ChangeIf(a.key, live.value, Remove(uid, i, listed));
    return false, failed, r;
  }

  lemma RestoreEnabled(s: State, uid: Uid, r: Record, i: nat)
    requires Undoing(s, uid, r, i) && i < |r.actions| && r.actions[i].kind == Scale && !r.actions[i].cleaned && r.actions[i].key in s.world.objects
    requires var x := s.world.objects[r.actions[i].key]; x.uid == r.actions[i].uid && x.op == r.actions[i].op && x.replicas == 0 && x.ours
    ensures Enabled(s, Restore(uid, i))
  {}

  lemma RestoredBack(s: State, uid: Uid, r: Record, i: nat)
    requires Inv(s) && Undoing(s, uid, r, i) && i < |r.actions| && Enabled(s, Restore(uid, i)) && Running(s, uid, r)
    ensures RolledBack(Apply(s, Restore(uid, i)).world, r.actions[i]) && Undoing(Apply(s, Restore(uid, i)), uid, r, i)
    ensures Apply(s, Restore(uid, i)).next == s.next + 1
  {
    hide Inv;
  }

  /** A scaled workload: brought back to its original count if nobody else touched it. */
  method RollbackScale(g: Guest, uid: Uid, r: Record, i: nat) returns (done: bool, failed: bool, later: Record)
    requires g.Valid() && Undoing(g.s, uid, r, i) && i < |r.actions| && !r.actions[i].cleaned && r.actions[i].kind == Scale
    modifies g
    ensures g.Valid() && old(g.log) <= g.log
    ensures done ==> !failed && Undoing(g.s, uid, later, i - 1) && |later.actions| == |r.actions|
  {
    hide Inv, Rely, Recorded, Apply, Undoing, Enabled, RolledBack;
    var a := r.actions[i];
    later := r;
    ghost var s0 := g.s;
    UndoingRuns(s0, uid, r, i);
    var live, at := g.Get(a.key);
    ghost var s1 := g.s;
    UndoingMoved(s0, s1, uid, r, i);
    if live.Unreadable? { return false, true, r; }
    if live.Missing? {
      AbsentRolledBack(s0, a);
      failed, later := Clean(g, s0, uid, r, i, at);
      return !failed, failed, later;
    }
    var x := live.value;
    if x.uid != a.uid || !x.ours { return false, true, r; }
    if x.op == 0 && x.replicas == a.original {
      SettledBack(s0, a);
      failed, later := Clean(g, s0, uid, r, i, at);
      return !failed, failed, later;
    }
    if x.op != a.op || x.replicas != 0 { return false, true, r; }
    var moment := g.s.next;
    if a.key in s1.world.objects && s1.world.objects[a.key].version == x.version {
      SameObject(s0, s1, a.key);
      RestoreEnabled(s1, uid, r, i);
      RestoredBack(s1, uid, r, i);
      WriteKeeps(s1, Restore(uid, i));
    }
    failed := g.ChangeIf(a.key, x, Restore(uid, i));
    if failed { return false, true, r; }
    failed, later := Clean(g, Apply(s1, Restore(uid, i)), uid, r, i, moment);
    return !failed, failed, later;
  }

  lemma SettledBack(s: State, a: Action)
    requires a.key in s.world.objects && a.kind == Scale
    requires s.world.objects[a.key].uid == a.uid && s.world.objects[a.key].op == 0 && s.world.objects[a.key].replicas == a.original
    ensures RolledBack(s.world, a)
  {}

  lemma KilledBack(s: State, a: Action)
    requires a.kind == PodKill || !Current(s.world, a)
    ensures RolledBack(s.world, a)
  {}

  lemma AlreadyClean(s: State, uid: Uid, r: Record, i: nat)
    requires Undoing(s, uid, r, i) && i < |r.actions| && r.actions[i].cleaned
    ensures Undoing(s, uid, r, i - 1)
  {}

  /** Since then the controller at most recorded progress: no object was touched. */
  ghost predicate Spared(before: seq<Step>, after: seq<Step>) {
    before <= after && forall l :: |before| <= l < |after| && after[l].Inside? ==> after[l].write.Progress?
  }

  lemma CleanSpares(a: seq<Step>, b: seq<Step>, c: seq<Step>, w: Write)
    requires w.Progress? && NothingIssued(a, b) && OnlyIssued(b, c, w)
    ensures Spared(a, c)
  {
    assert forall l :: |a| <= l < |b| ==> c[l] == b[l];
  }

  /** Rolls back action `i`, after all later ones.  In a namespace that took the place of
      the journaled one nothing is touched. */
  method RollbackAction(g: Guest, uid: Uid, r: Record, i: nat) returns (done: bool, failed: bool, later: Record)
    requires g.Valid() && Undoing(g.s, uid, r, i) && i < |r.actions|
    modifies g
    ensures g.Valid() && old(g.log) <= g.log
    ensures done ==> !failed && Undoing(g.s, uid, later, i - 1) && |later.actions| == |r.actions|
    ensures !Current(old(g.s).world, r.actions[i]) ==> Spared(old(g.log), g.log)
  {
    hide Inv, Rely, Recorded, Undoing, RolledBack;
    var a := r.actions[i];
    if a.cleaned {
      AlreadyClean(g.s, uid, r, i);
      return true, false, r;
    }
    ghost var s0 := g.s;
    ghost var log0 := g.log;
    var at := 0;
    if a.kind != HostPolicy {
      var current;
      current, at := g.IsCurrent(a);
      ghost var log1 := g.log;
      UndoingMoved(s0, g.s, uid, r, i);
      if current.Unreadable? { return false, true, r; }
      if !current.value {
        // Never operate on a new namespace that reused the original name.
        KilledBack(s0, a);
        failed, later := Clean(g, s0, uid, r, i, at);
        CleanSpares(log0, log1, g.log, Progress(uid, i, a.(cleaned := true), at));
        return !failed, failed, later;
      }
    }
    match a.kind
    case HostPolicy => done, failed, later := RollbackPolicy(g, uid, r, i);
    case PodKill =>
      KilledBack(s0, a);
      failed, later := Clean(g, s0, uid, r, i, at);
      done := !failed;
    case Scale => done, failed, later := RollbackScale(g, uid, r, i);
    case _ => done, failed, later := RollbackObject(g, uid, r, i);
  }

  lemma StopEnabled(s: State, uid: Uid, r: Record, i: nat, a: Action)
    requires Inv(s) && Running(s, uid, r) && !r.finished && (i < |r.actions| ==> a == r.actions[i] || Forward(r, i, a))
    requires i < |r.actions| ==> !r.actions[i].cleaned
    ensures Enabled(s, StartCleanup(uid, i, a))
  {}

  lemma StoppedUndoing(s: State, t: State, uid: Uid, r: Record, i: nat, a: Action)
    requires Inv(s) && Inv(t) && Running(s, uid, r) && !r.finished && Rely(Apply(s, StartCleanup(uid, i, a)), t)
    ensures var later := Stopped(r, i, a).(version := s.next); Undoing(t, uid, later, |later.actions| - 1)
  {
    hide Inv, MarksKept, NamesKept, VersionsKept, RequestsKept;
  }

  /** Persists the intent to roll back, with what the last application step learned. */
  method Stop(g: Guest, uid: Uid, r: Record, i: nat, a: Action) returns (failed: bool, later: Record)
    requires g.Valid() && Holding(g.s, uid, r) && !r.finished && (i < |r.actions| ==> (a == r.actions[i] || Forward(r, i, a)) && !r.actions[i].cleaned)
    modifies g
    ensures g.Valid() && old(g.log) <= g.log
    ensures !failed ==> Undoing(g.s, uid, later, |later.actions| - 1) && |later.actions| == |r.actions|
  {
    hide Inv, Rely, Recorded, Apply, Undoing, Enabled, Forward;
    ghost var s0 := g.s;
    if uid in s0.records && s0.records[uid].version == r.version { StopEnabled(s0, uid, r, i, a); }
    var saved;
    failed, saved := g.SaveRecord(uid, r.version, StartCleanup(uid, i, a));
    later := Stopped(r, i, a).(version := saved);
    if !failed { StoppedUndoing(s0, g.s, uid, r, i, a); }
  }

  lemma FinishSaved(s: State, t: State, uid: Uid, r: Record)
    requires Inv(s) && Inv(t) && Undoing(s, uid, r, -1) && Enabled(s, Finish(uid)) && Rely(Apply(s, Finish(uid)), t)
    ensures Running(t, uid, r.(finished := true, version := s.next))
  {
    hide Inv, MarksKept, NamesKept, VersionsKept, RequestsKept;
  }

  lemma FinishEnabled(s: State, uid: Uid, r: Record)
    requires Undoing(s, uid, r, -1)
    ensures Enabled(s, Finish(uid))
  {}

  /** Removes the finalizer of a finished experiment and only then its record. */
  method FinishAndForget(g: Guest, uid: Uid, r: Record) returns (failed: bool)
    requires g.Valid() && Running(g.s, uid, r) && r.finished
    modifies g
    ensures g.Valid() && old(g.log) <= g.log
    ensures !failed ==> uid !in g.s.records && !Finalized(g.s, uid)
  {
    hide Inv, Rely, Recorded, Finalized;
    ghost var s0 := g.s;
    failed := g.Issue(Hold(uid, false));
    if failed { return; }
    ghost var s1 := g.s;
    UnheldRuns(s0, s1, uid, r);
    failed := g.Issue(Forget(uid));
    if !failed { Forgotten(s1, g.s, uid); }
  }

  lemma Forgotten(s: State, t: State, uid: Uid)
    requires uid < s.next && !Finalized(s, uid) && Rely(Apply(s, Forget(uid)), t)
    ensures uid !in t.records && !Finalized(t, uid)
  {}

  lemma UnheldRuns(s: State, t: State, uid: Uid, r: Record)
    requires Inv(s) && Running(s, uid, r) && r.finished && Rely(Apply(s, Hold(uid, false)), t) && Inv(t)
    ensures Enabled(t, Forget(uid)) && !Finalized(t, uid) && uid < t.next
  {}

  /** Where a completed cleanup leaves an experiment: its record says finished, or it was
      deleted, and then neither the record nor the finalizer is left. */
  ghost predicate RolledUp(s: State, uid: Uid, deleting: bool) {
    if deleting then uid !in s.records && !Finalized(s, uid) else uid in s.records && s.records[uid].finished
  }

  /** Rolls everything back in reverse order, then finishes. */
  method Undo(g: Guest, uid: Uid, start: Record, deleting: bool) returns (finished: bool, failed: bool)
    requires g.Valid() && Undoing(g.s, uid, start, |start.actions| - 1)
    modifies g
    ensures g.Valid() && old(g.log) <= g.log
    ensures finished && !failed ==> RolledUp(g.s, uid, deleting)
  {
    hide Inv, Rely, Recorded, Undoing, Enabled, Apply, Finalized;
    var r := start;
    var i := |r.actions| - 1;
    while 0 <= i
      invariant g.Valid() && old(g.log) <= g.log && -1 <= i < |r.actions| && Undoing(g.s, uid, r, i)
    {
      var done;
      done, failed, r := RollbackAction(g, uid, r, i);
      if !done { return false, failed; }
      i := i - 1;
    }
    ghost var s0 := g.s;
    FinishEnabled(s0, uid, r);
    UndoingRuns(s0, uid, r, -1);
    var saved;
    failed, saved := g.SaveRecord(uid, r.version, Finish(uid));
    if failed { return false, true; }
    FinishSaved(s0, g.s, uid, r);
    finished := true;
    if deleting { failed := FinishAndForget(g, uid, r.(finished := true, version := saved)); }
  }

  /** Cleanup of a recorded experiment from its in-memory copy. */
  method Cleanup(g: Guest, uid: Uid, r: Record, i: nat, a: Action, deleting: bool) returns (finished: bool, failed: bool)
    requires g.Valid() && Holding(g.s, uid, r) && (i < |r.actions| ==> (a == r.actions[i] || Forward(r, i, a)) && !r.actions[i].cleaned)
    requires r.finished || r.cleanup ==> Running(g.s, uid, r) && i == |r.actions|
    modifies g
    ensures g.Valid() && old(g.log) <= g.log
    ensures finished && !failed ==> RolledUp(g.s, uid, deleting)
  {
    hide Inv, Rely, Recorded, Undoing, Holding, Forward, Finalized;
    if r.finished {
      if deleting { failed := FinishAndForget(g, uid, r); } else { failed := false; }
      return true, failed;
    }
    var later := r;
    if !r.cleanup {
      failed, later := Stop(g, uid, r, i, a);
      if failed { return false, true; }
    } else {
      CleanupUndoing(g.s, uid, r);
    }
    finished, failed := Undo(g, uid, later, deleting);
  }

  lemma CleanupUndoing(s: State, uid: Uid, r: Record)
    requires Running(s, uid, r) && r.cleanup && !r.finished
    ensures Undoing(s, uid, r, |r.actions| - 1)
  {}

  // ---------------------------------------------------------------- admission

  /** No other experiment of the replica has a request and an unfinished record. */
  method Slot(g: Guest, uid: Uid, replica: Uid) returns (free: bool)
    requires g.Valid() && uid < g.s.next
    modifies g
    ensures g.Valid() && old(g.log) <= g.log && Rely(old(g.s), g.s)
    ensures free ==> SlotFree(g.s, uid, replica)
  {
    hide Inv, Rely, Recorded;
    ghost var s0 := g.s;
    var listing := g.ListRequests();
    if !listing.Found? { return false; }
    var rest := listing.value.Keys;
    while rest != {}
      invariant g.Valid() && old(g.log) <= g.log && Rely(s0, g.s) && rest <= s0.requests.Keys
      invariant forall v :: v in s0.requests.Keys - rest && v != uid && s0.requests[v].replica == replica && v in s0.records ==> s0.records[v].finished
    {
      var v :| v in rest;
      rest := rest - {v};
      if v != uid && listing.value[v].replica == replica {
        ghost var s1 := g.s;
        SameRecords(s0, s1);
        var record := g.LoadRecord(v);
        RelyTransitive(s0, s1, g.s);
        if record.Unreadable? { return false; }
        if record.Missing? && listing.value[v].finalizer { return false; }
        if record.Found? && !record.value.finished { return false; }
      }
    }
    SlotMoved(s0, g.s, uid, replica);
    return true;
  }

  lemma SameRecords(s: State, t: State)
    requires Rely(s, t)
    ensures t.records == s.records && t.used == s.used && s.next <= t.next
  {}

  lemma SlotMoved(s: State, t: State, uid: Uid, replica: Uid)
    requires Inv(s) && SlotFree(s, uid, replica) && Rely(s, t)
    ensures SlotFree(t, uid, replica)
  {}

  datatype FaultKind = Isolate | RunJob | KillPod | ScaleDown

  /** A requested fault: where, on what, and with which exact identity. */
  datatype Fault = Fault(kind: FaultKind, ns: Name, name: Name, uid: Uid)

  /** The kinds of action that carry out a fault. */
  function Wants(f: Fault): set<Kind> {
    match f.kind
    case Isolate => {HostPolicy}
    case RunJob => {HostPolicy, Account, Job}
    case KillPod => {PodKill}
    case ScaleDown => {Scale}
  }

  /** An action for the fault: in its namespace and, where it has one, on its exact target. */
  predicate Serves(f: Fault, a: Action) {
    a.kind in Wants(f) && a.key.ns == f.ns && (f.kind == KillPod || f.kind == ScaleDown ==> a.key.name == f.name && a.uid == f.uid)
  }

  /** The first `n` faults are carried out by the actions, and nothing else is. */
  ghost predicate Answers(faults: seq<Fault>, n: nat, actions: seq<Action>, namespaces: map<Name, Uid>)
    requires n <= |faults|
  {
    && (forall i, k :: 0 <= i < n && k in Wants(faults[i]) ==> Answered(faults[i], k, actions))
    && (forall a :: a in actions ==> AskedFor(faults, a) && a.key.ns in namespaces && a.nsUid == namespaces[a.key.ns])
  }

  ghost predicate Answered(f: Fault, k: Kind, actions: seq<Action>) { exists a :: a in actions && a.kind == k && Serves(f, a) }

  ghost predicate AskedFor(faults: seq<Fault>, a: Action) { exists f :: f in faults && Serves(f, a) }

  /** At some moment the workload was unmarked, had the pinned UID and this count. */
  ghost predicate CountSeen(s: State, a: Action) { exists v :: v in s.past && CountedAt(s.past[v], a) }

  ghost predicate CountedAt(w: World, a: Action) {
    a.key in w.objects && w.objects[a.key].uid == a.uid && w.objects[a.key].op == 0 && w.objects[a.key].replicas == a.original
  }

  ghost predicate CountsSeen(s: State, actions: seq<Action>) { forall a :: a in actions && a.kind == Scale ==> CountSeen(s, a) }

  lemma CountsKept(s: State, t: State, actions: seq<Action>)
    requires CountsSeen(s, actions) && Rely(s, t)
    ensures CountsSeen(t, actions)
  {
    forall a | a in actions && a.kind == Scale ensures CountSeen(t, a) {
      var v :| v in s.past && CountedAt(s.past[v], a);
      assert v in t.past && t.past[v] == s.past[v];
    }
  }

  lemma AnswersMore(faults: seq<Fault>, n: nat, actions: seq<Action>, a: Action, namespaces: map<Name, Uid>)
    requires n < |faults| && Answers(faults, n, actions, namespaces) && Serves(faults[n], a)
    requires a.key.ns in namespaces && a.nsUid == namespaces[a.key.ns]
    ensures Answers(faults, n, actions + [a], namespaces) && Answered(faults[n], a.kind, actions + [a])
    ensures forall k :: Answered(faults[n], k, actions) ==> Answered(faults[n], k, actions + [a])
  {
    assert faults[n] in faults && a in actions + [a];
    forall f, k | Answered(f, k, actions) ensures Answered(f, k, actions + [a]) {
      var b :| b in actions && b.kind == k && Serves(f, b);
      assert b in actions + [a];
    }
  }

  lemma AnswersNext(faults: seq<Fault>, n: nat, actions: seq<Action>, namespaces: map<Name, Uid>)
    requires n < |faults| && Answers(faults, n, actions, namespaces) && forall k :: k in Wants(faults[n]) ==> Answered(faults[n], k, actions)
    ensures Answers(faults, n + 1, actions, namespaces)
  {}

  lemma IsolatedAlready(f: Fault, actions: seq<Action>)
    requires (f.kind == Isolate || f.kind == RunJob) && PolicyOf(actions, |actions|, f.ns)
    ensures Answered(f, HostPolicy, actions)
  {
    var i :| 0 <= i < |actions| && actions[i].kind == HostPolicy && actions[i].key.ns == f.ns;
    assert actions[i] in actions && Serves(f, actions[i]);
  }

  /** An operation nobody has used. */
  method FreshOp(avoid: set<Op>) returns (op: Op)
    ensures op != 0 && op !in avoid
  {
    op := 1;
    var rest := avoid;
    while op in rest
      invariant rest <= avoid && op != 0 && forall x :: x in avoid && x !in rest ==> x < op
      decreases |rest|
    {
      rest := rest - {op};
      op := op + 1;
    }
  }

  /** A journal under construction: fresh operations, and policies before their Jobs. */
  ghost predicate Drafted(actions: seq<Action>, used: set<Op>, next: nat, isolated: set<Name>) {
    && (forall i :: 0 <= i < |actions| ==> actions[i].op != 0 && actions[i].op !in used && actions[i].nsUid < next && !actions[i].applied && !actions[i].cleaned)
    && (forall i, j :: 0 <= i < j < |actions| ==> actions[i].op != actions[j].op)
    && (forall i :: 0 <= i < |actions| ==> actions[i].key.kind == actions[i].kind)
    && PolicyFirst(actions)
    && (forall i :: 0 <= i < |actions| && (actions[i].kind == HostPolicy || actions[i].kind == Job) ==> actions[i].key.ns in isolated)
    && (forall ns :: ns in isolated ==> PolicyOf(actions, |actions|, ns))
  }

  /** One of the first `n` actions is the deny policy of the namespace. */
  ghost predicate PolicyOf(actions: seq<Action>, n: nat, ns: Name)
    requires n <= |actions|
  {
    exists i :: 0 <= i < n && actions[i].kind == HostPolicy && actions[i].key.ns == ns
  }

  lemma DraftMore(actions: seq<Action>, a: Action, used: set<Op>, next: nat, isolated: set<Name>)
    requires Drafted(actions, used, next, isolated)
    requires a.op != 0 && a.op !in used && a.op !in Ops(actions) && a.nsUid < next && !a.applied && !a.cleaned && a.key.kind == a.kind
    requires a.kind == HostPolicy ==> a.key.ns !in isolated
    requires a.kind == Job ==> a.key.ns in isolated
    ensures Drafted(actions + [a], used, next, if a.kind == HostPolicy then isolated + {a.key.ns} else isolated)
  {
    hide PolicyFirst, PolicyOf;
    var later := actions + [a];
    forall i, j | 0 <= i < j < |later| ensures later[i].op != later[j].op {
      if j == |actions| { assert actions[i].op in Ops(actions); }
    }
    DraftPolicies(actions, a, isolated);
    var marked := if a.kind == HostPolicy then isolated + {a.key.ns} else isolated;
    forall ns | ns in marked ensures PolicyOf(later, |later|, ns) {
      DraftIsolated(actions, a, ns);
    }
  }

  lemma DraftIsolated(actions: seq<Action>, a: Action, ns: Name)
    ensures PolicyOf(actions, |actions|, ns) || (a.kind == HostPolicy && a.key.ns == ns) ==> PolicyOf(actions + [a], |actions| + 1, ns)
  {
    var later := actions + [a];
    assert later[|actions|] == a;
    if PolicyOf(actions, |actions|, ns) {
      var i :| 0 <= i < |actions| && actions[i].kind == HostPolicy && actions[i].key.ns == ns;
      assert later[i] == actions[i];
    }
  }

  lemma DraftPolicies(actions: seq<Action>, a: Action, isolated: set<Name>)
    requires PolicyFirst(actions)
    requires forall i :: 0 <= i < |actions| && actions[i].kind == Job ==> actions[i].key.ns in isolated
    requires a.kind == HostPolicy ==> a.key.ns !in isolated
    requires a.kind == Job ==> PolicyOf(actions, |actions|, a.key.ns)
    ensures PolicyFirst(actions + [a])
  {
    var later := actions + [a];
    forall k | 0 <= k < |later| && later[k].kind == Job
      ensures exists j :: 0 <= j < k && later[j].kind == HostPolicy && later[j].key.ns == later[k].key.ns
    {
      if k < |actions| {
        var j :| 0 <= j < k && actions[j].kind == HostPolicy && actions[j].key.ns == actions[k].key.ns;
        assert later[j] == actions[j];
      } else {
        var j :| 0 <= j < |actions| && actions[j].kind == HostPolicy && actions[j].key.ns == a.key.ns;
        assert later[j] == actions[j];
      }
    }
    forall i, j | 0 <= i < |later| && 0 <= j < |later| && later[i].kind == HostPolicy && later[j].kind == Job
      ensures later[i].key.ns != later[j].key.ns || i < j
    {
      if i < |actions| && j < |actions| { assert later[i] == actions[i] && later[j] == actions[j]; }
    }
  }

  method Append(actions: seq<Action>, kind: Kind, key: Key, nsUid: Uid, uid: Uid, original: int, used: set<Op>, ghost next: nat, ghost isolated: set<Name>)
      returns (later: seq<Action>)
    requires Drafted(actions, used, next, isolated) && nsUid < next && key.kind == kind
    requires (kind == HostPolicy ==> key.ns !in isolated) && (kind == Job ==> key.ns in isolated)
    ensures Drafted(later, used, next, if kind == HostPolicy then isolated + {key.ns} else isolated)
    ensures exists op :: later == actions + [Action(kind, key, nsUid, uid, op, original, false, false)]
  {
    hide Drafted;
    var op := FreshOp(used + Ops(actions));
    var a := Action(kind, key, nsUid, uid, op, original, false, false);
    DraftMore(actions, a, used, next, isolated);
    later := actions + [a];
  }

  /** The journal of an experiment: one deny policy for each namespace with a network or
      Job fault, before anything that needs it. */
  method Prepare(g: Guest, uid: Uid, faults: seq<Fault>, namespaces: map<Name, Uid>) returns (failed: bool, actions: seq<Action>)
    requires g.Valid() && forall n :: n in namespaces ==> namespaces[n] < g.s.next
    modifies g
    ensures g.Valid() && old(g.log) <= g.log && Rely(old(g.s), g.s)
    ensures !failed ==> exists isolated :: Drafted(actions, old(g.s).used, old(g.s).next, isolated)
    ensures !failed ==> Answers(faults, |faults|, actions, namespaces) && CountsSeen(g.s, actions)
  {
    hide Inv, Rely, Recorded, Drafted, Answers, Serves, Answered, AskedFor, CountsSeen, Wants, PolicyOf;
    ghost var s0 := g.s;
    var used := g.s.used;
    NumberedIn(s0);
    RelyReflexive(s0);
    DraftEmpty(used, s0.next);
    actions := [];
    var isolated: set<Name> := {};
    AnswersNone(faults, namespaces, g.s);
    for i := 0 to |faults|
      invariant g.Valid() && old(g.log) <= g.log && Rely(s0, g.s) && Drafted(actions, used, s0.next, isolated)
      invariant Answers(faults, i, actions, namespaces) && CountsSeen(g.s, actions)
    {
      var f := faults[i];
      WantsOf(f);
      if f.ns !in namespaces { return true, actions; }
      var nsUid := namespaces[f.ns];
      if f.kind == Isolate || f.kind == RunJob {
        var qualified: bool := *;
        if !qualified { return true, actions; }
        if f.ns !in isolated {
          actions := AppendFor(actions, faults, i, HostPolicy, Key(HostPolicy, f.ns, i), 0, 0, used, g.s, s0.next, isolated, namespaces);
          isolated := isolated + {f.ns};
        }
        DraftedPolicy(actions, used, s0.next, isolated, f.ns);
        IsolatedAlready(f, actions);
      }
      if f.kind == RunJob {
        actions := AppendFor(actions, faults, i, Account, Key(Account, f.ns, i), 0, 0, used, g.s, s0.next, isolated, namespaces);
        actions := AppendFor(actions, faults, i, Job, Key(Job, f.ns, i), 0, 0, used, g.s, s0.next, isolated, namespaces);
      } else if f.kind != Isolate {
        ghost var s1 := g.s;
        var target := Key(if f.kind == KillPod then PodKill else Scale, f.ns, f.name);
        var live, at := g.Get(target);
        RelyTransitive(s0, s1, g.s);
        CountsKept(s1, g.s, actions);
        var owned: bool := *;
        if !live.Found? || live.value.uid != f.uid || live.value.deleting || !owned { return true, actions; }
        if f.kind == KillPod {
          actions := AppendFor(actions, faults, i, PodKill, target, f.uid, 0, used, g.s, s0.next, isolated, namespaces);
        } else {
          if live.value.op != 0 { return true, actions; }
          Counted(s1, g.s, at, target, f.uid);
          actions := AppendFor(actions, faults, i, Scale, target, f.uid, live.value.replicas, used, g.s, s0.next, isolated, namespaces);
        }
      }
      AnswersNext(faults, i, actions, namespaces);
    }
    return false, actions;
  }

  lemma DraftEmpty(used: set<Op>, next: nat)
    ensures Drafted([], used, next, {})
  {}

  lemma AnswersNone(faults: seq<Fault>, namespaces: map<Name, Uid>, s: State)
    ensures Answers(faults, 0, [], namespaces) && CountsSeen(s, [])
  {}

  lemma WantsOf(f: Fault)
    ensures Wants(f) == match f.kind { case Isolate => {HostPolicy} case RunJob => {HostPolicy, Account, Job} case KillPod => {PodKill} case ScaleDown => {Scale} }
  {}

  lemma DraftedPolicy(actions: seq<Action>, used: set<Op>, next: nat, isolated: set<Name>, ns: Name)
    requires Drafted(actions, used, next, isolated) && ns in isolated
    ensures PolicyOf(actions, |actions|, ns)
  {}

  lemma Counted(s: State, t: State, at: nat, key: Key, uid: Uid)
    requires Inv(s) && Rely(s, t) && at == s.next - 1 && key in s.world.objects && s.world.objects[key].uid == uid && s.world.objects[key].op == 0
    ensures forall a: Action :: a.key == key && a.uid == uid && a.original == s.world.objects[key].replicas ==> CountSeen(t, a)
  {
    NumberedIn(s);
    hide Inv;
    assert at in t.past && t.past[at] == s.world;
    forall a: Action | a.key == key && a.uid == uid && a.original == s.world.objects[key].replicas ensures CountSeen(t, a) {
      assert CountedAt(t.past[at], a);
    }
  }

  /** One more action, for fault `n`. */
  method AppendFor(actions: seq<Action>, faults: seq<Fault>, n: nat, kind: Kind, key: Key, uid: Uid, original: int, used: set<Op>,
                   ghost s: State, ghost next: nat, ghost isolated: set<Name>, namespaces: map<Name, Uid>) returns (later: seq<Action>)
    requires Drafted(actions, used, next, isolated) && key.kind == kind
    requires (kind == HostPolicy ==> key.ns !in isolated) && (kind == Job ==> key.ns in isolated)
    requires n < |faults| && Answers(faults, n, actions, namespaces) && kind in Wants(faults[n]) && key.ns == faults[n].ns
    requires key.ns in namespaces && namespaces[key.ns] < next && CountsSeen(s, actions)
    requires faults[n].kind == KillPod || faults[n].kind == ScaleDown ==> key.name == faults[n].name && uid == faults[n].uid
    requires kind == Scale ==> forall a: Action :: a.key == key && a.uid == uid && a.original == original ==> CountSeen(s, a)
    ensures Drafted(later, used, next, if kind == HostPolicy then isolated + {key.ns} else isolated)
    ensures Answers(faults, n, later, namespaces) && CountsSeen(s, later) && Answered(faults[n], kind, later)
    ensures forall k :: Answered(faults[n], k, actions) ==> Answered(faults[n], k, later)
  {
    hide Drafted, Answers, Answered, CountSeen;
    later := Append(actions, kind, key, namespaces[key.ns], uid, original, used, next, isolated);
    AnswersMore(faults, n, actions, later[|actions|], namespaces);
  }

  lemma IntendEnabled(s: State, t: State, uid: Uid, r: Record, isolated: set<Name>)
    requires Inv(s) && Rely(s, t) && Inv(t) && uid !in s.records && 0 < uid < s.next && SlotFree(t, uid, r.replica)
    requires Drafted(r.actions, s.used, s.next, isolated) && !r.active && !r.cleanup && !r.finished
    requires uid in s.requests ==> s.requests[uid].replica == r.replica && !s.requests[uid].finalizer
    ensures Enabled(t, Intend(uid, r))
  {
    hide PolicyFirst, SlotFree;
  }

  lemma IntendRuns(s: State, t: State, uid: Uid, r: Record)
    requires Inv(s) && Inv(t) && Enabled(s, Intend(uid, r)) && Rely(Apply(s, Intend(uid, r)), t)
    ensures Running(t, uid, r.(version := s.next))
  {
    hide Inv, PolicyFirst, SlotFree, FreshJournal;
  }

  /** Admits an experiment: slot, journal, and the saved intent, before any effect. */
  method Admit(g: Guest, uid: Uid, request: Request, faults: seq<Fault>, namespaces: map<Name, Uid>) returns (failed: bool, r: Record)
    requires g.Valid() && uid !in g.s.records && 0 < uid < g.s.next && !request.finalizer
    requires uid in g.s.requests ==> g.s.requests[uid].replica == request.replica && !g.s.requests[uid].finalizer
    requires forall n :: n in namespaces ==> namespaces[n] < g.s.next
    modifies g
    ensures g.Valid() && old(g.log) <= g.log
    ensures !failed ==> Running(g.s, uid, r) && !r.cleanup && !r.finished && r.replica == request.replica
    ensures !failed ==> Answers(faults, |faults|, r.actions, namespaces)
  {
    hide Inv, Rely, Recorded, Apply, Drafted, SlotFree, Enabled, Answers, CountsSeen;
    ghost var s0 := g.s;
    r := Record(request.replica, [], false, false, false, 0);
    var free := Slot(g, uid, request.replica);
    if !free { return true, r; }
    ghost var s1 := g.s;
    SameRecords(s0, s1);
    var actions;
    failed, actions := Prepare(g, uid, faults, namespaces);
    if failed { return; }
    r := Record(request.replica, actions, false, false, false, 0);
    ghost var s2 := g.s;
    SlotMoved(s1, s2, uid, request.replica);
    RequestStill(s0, s1, uid, request.replica);
    ghost var isolated :| Drafted(actions, s1.used, s1.next, isolated);
    IntendEnabled(s1, s2, uid, r, isolated);
    var saved := g.s.next;
    failed := g.Issue(Intend(uid, r));
    if !failed { IntendRuns(s2, g.s, uid, r); }
    r := r.(version := saved);
  }

  lemma RequestStill(s: State, t: State, uid: Uid, replica: Uid)
    requires Rely(s, t) && uid < s.next && (uid in s.requests ==> s.requests[uid].replica == replica && !s.requests[uid].finalizer)
    ensures uid in t.requests ==> t.requests[uid].replica == replica && !t.requests[uid].finalizer
  {}

  // ---------------------------------------------------------------- one reconcile

  lemma StartActing(s: State, uid: Uid, r: Record)
    requires Running(s, uid, r) && Finalized(s, uid) && !r.cleanup && !r.finished
    ensures Acting(s, uid, r, 0)
  {}

  lemma HeldStays(s: State, t: State, uid: Uid)
    requires Inv(s) && Finalized(s, uid) && Rely(s, t)
    ensures Finalized(t, uid)
  {}

  /** Applies every action in order; a failure turns into cleanup at once. */
  method ApplyAll(g: Guest, uid: Uid, start: Record, deleting: bool) returns (applied: bool, failed: bool, r: Record)
    requires g.Valid() && Acting(g.s, uid, start, 0)
    modifies g
    ensures g.Valid() && old(g.log) <= g.log
    ensures applied ==> !failed && Acting(g.s, uid, r, |r.actions|)
  {
    hide Inv, Rely, Recorded, Acting, Holding, Forward;
    r := start;
    for i := 0 to |start.actions|
      invariant g.Valid() && old(g.log) <= g.log && |r.actions| == |start.actions| && Acting(g.s, uid, r, i)
    {
      ghost var s0 := g.s;
      ActingUnfinished(s0, uid, r, i);
      var current, at := g.IsCurrent(r.actions[i]);
      ActingStep(s0, g.s, uid, r, i);
      if current.Unreadable? || !current.value {
        var finished;
        finished, failed := Cleanup(g, uid, r, |r.actions|, r.actions[i], deleting);
        return false, true, r;
      }
      var learned, later;
      failed, learned, later := ApplyAction(g, uid, r, i);
      if failed {
        var finished;
        finished, failed := Cleanup(g, uid, r, i, learned, deleting);
        return false, true, r;
      }
      r := later;
    }
    return true, false, r;
  }

  /** Every Job among the first `n` actions was seen in the guest, with its marker, since
      the record was saved. */
  ghost predicate JobsSeen(s: State, uid: Uid, r: Record, n: nat)
    requires n <= |r.actions|
  {
    forall j :: 0 <= j < n && r.actions[j].kind == Job ==> JobSeen(s, uid, r.actions[j])
  }

  lemma JobsSeenLater(s: State, t: State, uid: Uid, r: Record, n: nat)
    requires n <= |r.actions| && JobsSeen(s, uid, r, n) && Rely(s, t)
    ensures JobsSeen(t, uid, r, n)
  {
    forall j | 0 <= j < n && r.actions[j].kind == Job ensures JobSeen(t, uid, r.actions[j]) {
      var v :| Observed(s, uid, v) && SeenAt(s, v, r.actions[j]);
      assert Observed(t, uid, v) && SeenAt(t, v, r.actions[j]);
    }
  }

  lemma SeenNow(s: State, t: State, uid: Uid, r: Record, i: nat, at: nat)
    requires Inv(s) && Acting(s, uid, r, |r.actions|) && Rely(s, t) && i < |r.actions| && at == s.next - 1
    requires r.actions[i].key in s.world.objects && Owned(s.world.objects[r.actions[i].key], r.actions[i])
    ensures JobSeen(t, uid, r.actions[i])
  {
    assert Observed(t, uid, at) && SeenAt(t, at, r.actions[i]);
  }

  /** Whether every fault Job was found, still ours, and has started or succeeded. */
  method JobsStarted(g: Guest, uid: Uid, r: Record) returns (started: bool, failed: bool)
    requires g.Valid() && Acting(g.s, uid, r, |r.actions|)
    modifies g
    ensures g.Valid() && old(g.log) <= g.log && Acting(g.s, uid, r, |r.actions|)
    ensures started ==> !failed && JobsSeen(g.s, uid, r, |r.actions|)
  {
    hide Inv, Rely, Recorded, Acting, JobSeen;
    for i := 0 to |r.actions|
      invariant g.Valid() && old(g.log) <= g.log && Acting(g.s, uid, r, |r.actions|) && JobsSeen(g.s, uid, r, i)
    {
      if r.actions[i].kind == Job {
        ghost var s0 := g.s;
        var live, at := g.Get(r.actions[i].key);
        ActingStep(s0, g.s, uid, r, |r.actions|);
        JobsSeenLater(s0, g.s, uid, r, i);
        if !live.Found? || !Owned(live.value, r.actions[i]) { return false, true; }
        SeenNow(s0, g.s, uid, r, i, at);
        var running: bool := *; // it succeeded, or one of its own Pods runs
        if !running { return false, false; }
      }
    }
    return true, false;
  }

  lemma ActivateEnabled(s: State, uid: Uid, r: Record)
    requires Acting(s, uid, r, |r.actions|) && JobsSeen(s, uid, r, |r.actions|)
    ensures Enabled(s, Activate(uid))
  {
    hide JobSeen;
  }

  lemma ActivateSaved(s: State, t: State, uid: Uid, r: Record)
    requires Acting(s, uid, r, |r.actions|) && Rely(Apply(s, Activate(uid)), t)
    ensures uid in t.records && t.records[uid].active && forall j :: 0 <= j < |t.records[uid].actions| ==> t.records[uid].actions[j].applied
  {
    hide MarksKept, NamesKept, RequestsKept, VersionsKept;
  }

  lemma ActingHeld(s: State, uid: Uid, r: Record)
    requires Inv(s) && Acting(s, uid, r, |r.actions|)
    ensures Running(s, uid, r) && Holding(s, uid, r) && !r.cleanup && !r.finished
  {
    ActingRuns(s, uid, r, |r.actions|);
  }

  lemma ActingUnfinished(s: State, uid: Uid, r: Record, i: int)
    requires Inv(s) && Acting(s, uid, r, i)
    ensures !r.cleanup && !r.finished && forall j :: 0 <= j < |r.actions| ==> !r.actions[j].cleaned
  {
    ActingRuns(s, uid, r, i);
  }

  datatype Verdict = Blocked | Held | Preparing | Active | Ended

  lemma RecordRuns(s: State, t: State, uid: Uid)
    requires Inv(s) && uid in s.records && Rely(s, t)
    ensures Running(t, uid, s.records[uid]) && Running(s, uid, s.records[uid])
  {}

  lemma RunningHeld(s: State, uid: Uid, r: Record)
    requires Inv(s) && Running(s, uid, r)
    ensures Holding(s, uid, r)
  {}

  /** One reconcile of an experiment.  `ending` is the expiry, cancellation or revocation
      that turns it into cleanup. */
  method Reconcile(g: Guest, uid: Uid, faults: seq<Fault>, namespaces: map<Name, Uid>, ending: bool) returns (verdict: Verdict)
    requires g.Valid() && 0 < uid < g.s.next && forall n :: n in namespaces ==> namespaces[n] < g.s.next
    modifies g
    ensures g.Valid() && old(g.log) <= g.log
    ensures verdict.Active? ==> uid in g.s.records && g.s.records[uid].active
    ensures verdict.Active? ==> forall j :: 0 <= j < |g.s.records[uid].actions| ==> g.s.records[uid].actions[j].applied
    ensures verdict.Ended? ==> RolledUp(g.s, uid, true) || RolledUp(g.s, uid, false)
  {
    hide Inv, Rely, Recorded, Acting, Holding, Enabled, Apply, JobsSeen;
    verdict := Blocked;
    ghost var s0 := g.s;
    var request := g.GetRequest(uid);
    ghost var s1 := g.s;
    if !request.Found? { return; }
    SameRecords(s0, s1);
    var record := g.LoadRecord(uid);
    ghost var s2 := g.s;
    if record.Unreadable? { return; }
    var x := request.value;
    var r: Record;
    SameRecords(s1, s2);
    RequestLater(s0, s1, s2, uid, x);
    if record.Missing? {
      // Missing intent with a finalizer or after a start is never recreated.
      var started: bool := *;
      if x.deleting || x.finalizer || started || ending { return; }
      var failed;
      failed, r := Admit(g, uid, x, faults, namespaces);
      if failed { return; }
    } else {
      r := record.value;
      RecordRuns(s1, s2, uid);
      RunningHeld(s2, uid, r);
      if r.cleanup || x.deleting || ending || r.finished {
        var finished, failed := Cleanup(g, uid, r, |r.actions|, NOTHING, x.deleting);
        return if finished && !failed then Ended else Blocked;
      }
    }
    ghost var s3 := g.s;
    if !x.finalizer {
      // No effect is possible until both the intent and the finalizer exist.
      HoldEnabled(s3, uid, r);
      var failed := g.Issue(Hold(uid, true));
      return if failed then Blocked else Held;
    }
    StillFinalized(s0, s1, s2, uid, x);
    StartActing(s3, uid, r);
    var applied, failed;
    applied, failed, r := ApplyAll(g, uid, r, x.deleting);
    if !applied { return Blocked; }
    var started;
    started, failed := JobsStarted(g, uid, r);
    ghost var s4 := g.s;
    ActingHeld(s4, uid, r);
    if failed {
      var finished;
      finished, failed := Cleanup(g, uid, r, |r.actions|, NOTHING, x.deleting);
      return Blocked;
    }
    if !started { return Preparing; }
    ActivateEnabled(s4, uid, r);
    var saved;
    failed, saved := g.SaveRecord(uid, r.version, Activate(uid));
    if failed { return Blocked; }
    ActivateSaved(s4, g.s, uid, r);
    return Active;
  }

  const NOTHING := Action(Scale, Key(Scale, 0, 0), 0, 0, 0, 0, false, false)

  lemma HoldEnabled(s: State, uid: Uid, r: Record)
    requires Running(s, uid, r) && !r.finished
    ensures Enabled(s, Hold(uid, true))
  {}

  lemma RequestLater(s: State, t: State, u: State, uid: Uid, x: Request)
    requires Rely(s, t) && Rely(t, u) && uid < s.next && uid in s.requests && s.requests[uid] == x
    ensures uid in u.requests ==> u.requests[uid].replica == x.replica && u.requests[uid].finalizer == x.finalizer
    ensures uid < u.next
  {}

  lemma StillFinalized(s: State, t: State, u: State, uid: Uid, x: Request)
    requires Inv(s) && Inv(t) && Rely(s, t) && Rely(t, u) && uid in s.requests && s.requests[uid] == x && x.finalizer
    ensures Finalized(u, uid)
  {
    HeldStays(s, t, uid);
    HeldStays(t, u, uid);
  }
}
