/** Whole runs of the mirror: sequences of controller writes and foreign events.  A crash
    is a run in which the controller simply issues nothing more until it starts again. */
module MirrorTraces {
  import opened Common
  import opened MirrorProtocol

  datatype Step = Inside(write: Write) | Outside(event: Event)

  function After(s: State, step: Step): State {
    match step
    case Inside(w) => Apply(s, w)
    case Outside(e) => Happen(s, e)
  }

  function Exec(s: State, steps: seq<Step>): State {
    if steps == [] then s else After(Exec(s, steps[..|steps| - 1]), steps[|steps| - 1])
  }

  /** Every write of the run was allowed where it was issued. */
  ghost predicate Legal(s: State, steps: seq<Step>) {
    steps == [] ||
    (Legal(s, steps[..|steps| - 1]) &&
     (steps[|steps| - 1].Inside? ==> Enabled(Exec(s, steps[..|steps| - 1]), steps[|steps| - 1].write)))
  }

  lemma Extend(s: State, steps: seq<Step>, step: Step)
    requires Legal(s, steps) && (step.Inside? ==> Enabled(Exec(s, steps), step.write))
    ensures Legal(s, steps + [step]) && Exec(s, steps + [step]) == After(Exec(s, steps), step)
  {
    hide Enabled, After;
    assert (steps + [step])[..|steps|] == steps;
  }

  lemma {:induction false} Prefix(s: State, steps: seq<Step>, k: nat)
    requires Legal(s, steps) && k <= |steps|
    ensures Legal(s, steps[..k])
    ensures k < |steps| ==>
      Exec(s, steps[..k + 1]) == After(Exec(s, steps[..k]), steps[k]) &&
      (steps[k].Inside? ==> Enabled(Exec(s, steps[..k]), steps[k].write))
  {
    hide Enabled, After;
    var n := |steps|;
    if k == n {
      assert steps[..k] == steps;
    } else if k == n - 1 {
      assert steps[..k + 1] == steps;
    } else {
      Prefix(s, steps[..n - 1], k);
      assert steps[..n - 1][..k] == steps[..k] && steps[..n - 1][..k + 1] == steps[..k + 1];
    }
  }

  /** Every state of every run satisfies the invariant, in particular at every crash. */
  lemma {:induction false} AlwaysSound(s: State, steps: seq<Step>)
    requires Start(s) && Legal(s, steps)
    ensures Inv(Exec(s, steps))
  {
    if steps != [] {
      hide Inv, Enabled, Start;
      var before := Exec(s, steps[..|steps| - 1]);
      AlwaysSound(s, steps[..|steps| - 1]);
      match steps[|steps| - 1]
      case Inside(w) => WriteKeeps(before, w);
      case Outside(e) => EventKeeps(before, e);
    }
  }

  /** `log` is a legal run from `origin` that has reached `s`. */
  ghost predicate Recorded(origin: State, log: seq<Step>, s: State) {
    Start(origin) && Legal(origin, log) && s == Exec(origin, log)
  }

  lemma RecordStep(origin: State, log: seq<Step>, s: State, step: Step)
    requires Recorded(origin, log, s) && (step.Inside? ==> Enabled(s, step.write))
    ensures Recorded(origin, log + [step], After(s, step))
  {
    hide Enabled, After;
    Extend(origin, log, step);
  }

  // ---------------------------------------------------------------- safety over runs

  /** With the managed provider two enrolled runs never both have a recorded generation
      that still exists. */
  lemma OneRecordedGeneration(s: State, steps: seq<Step>, u: Uid, v: Uid)
    requires Start(s) && Legal(s, steps)
    ensures var t := Exec(s, steps); t.helm && ChildPresent(t, u) && ChildPresent(t, v) ==> u == v
  {
    AlwaysSound(s, steps);
  }

  /** What others do, and what a controller writes, never brings an identity back. */
  lemma GoneStep(s: State, step: Step, key: Key, uid: Uid)
    requires Inv(s) && (step.Inside? ==> Enabled(s, step.write)) && uid < s.next && !Present(s, key, uid)
    ensures uid < After(s, step).next && !Present(After(s, step), key, uid)
  {
    hide Enabled, Inv, Rely, Happen, Apply, Present;
    match step
    case Outside(e) =>
      EventKeeps(s, e);
      GoneMoved(s, Happen(s, e), key, uid);
    case Inside(w) =>
      if w.SaveParent? || w.DropParent? || w.SaveRun? || w.DropRun? {
        RecordObjects(s, w);
        GoneSame(s, Apply(s, w), key, uid);
      } else if w.DeleteCapture? {
        var m := s.(released := s.released + {w.owner}, teardown := s.teardown || w.all);
        ReleasedMoves(s, m, OnObject(Terminate(w.key)));
        ReleasedApply(s, w);
        GoneMoved(m, Apply(s, w), key, uid);
      } else {
        InvSound(s);
        OutsideWriteSound(s, w);
        GoneMoved(s, Apply(s, w), key, uid);
      }
  }

  lemma InvSound(s: State)
    requires Inv(s)
    ensures Sound(s) && Numbered(s)
  {}

  lemma GoneMoved(s: State, t: State, key: Key, uid: Uid)
    requires Rely(s, t) && uid < s.next && !Present(s, key, uid)
    ensures uid < t.next && !Present(t, key, uid)
  {
    if Present(t, key, uid) { MovedPresent(s, t, key, uid); }
  }

  lemma GoneSame(s: State, t: State, key: Key, uid: Uid)
    requires t.objects == s.objects && s.next <= t.next && uid < s.next && !Present(s, key, uid)
    ensures uid < t.next && !Present(t, key, uid)
  {}

  lemma RecordObjects(s: State, w: Write)
    requires w.SaveParent? || w.DropParent? || w.SaveRun? || w.DropRun?
    ensures Apply(s, w).objects == s.objects && s.next <= Apply(s, w).next
  {}

  lemma ReleasedMoves(s: State, m: State, e: Event)
    requires Inv(s) && m == s.(released := m.released, teardown := m.teardown)
    ensures Rely(m, Happen(m, e)) && m.next == s.next && forall key, uid :: Present(m, key, uid) == Present(s, key, uid)
  {
    HistoryIrrelevant(s, m);
    HappenRely(m, e);
    hide Rely, Happen, Numbered, Journaled, OneGeneration;
  }

  lemma ReleasedApply(s: State, w: Write)
    requires w.DeleteCapture?
    ensures Apply(s, w) == Happen(s.(released := s.released + {w.owner}, teardown := s.teardown || w.all), OnObject(Terminate(w.key)))
  {
    hide Happen;
  }

  lemma {:induction false} GoneForever(s: State, steps: seq<Step>, k: nat, key: Key, uid: Uid)
    requires Start(s) && Legal(s, steps) && k <= |steps| && uid < Exec(s, steps[..k]).next && !Present(Exec(s, steps[..k]), key, uid)
    ensures uid < Exec(s, steps).next && !Present(Exec(s, steps), key, uid)
  {
    hide Start, Inv, Enabled, After, Present;
    if k == |steps| {
      assert steps[..k] == steps;
    } else {
      var n := |steps| - 1;
      assert steps[..n][..k] == steps[..k];
      GoneForever(s, steps[..n], k, key, uid);
      AlwaysSound(s, steps[..n]);
      GoneStep(Exec(s, steps[..n]), steps[n], key, uid);
    }
  }

  /** What the record of a run names besides its captures. */
  ghost predicate Owned(r: Run, uid: Uid, key: Key, id: Uid) {
    || (key == GenerationKey(uid) && id == r.child)
    || (exists m :: m in r.imports && ((key == m.snapshot.key && id == m.snapshot.uid) || (key == m.content.key && id == m.content.uid)))
    || (exists c :: (c in r.volumes || c in r.policies) && key == c.key && id == c.uid)
  }

  lemma RetiredOwned(s: State, uid: Uid, r: Run, key: Key, id: Uid)
    requires Retired(s, uid, r) && Owned(r, uid, key, id)
    ensures !Present(s, key, id)
  {
    if m :| m in r.imports && key == m.snapshot.key && id == m.snapshot.uid { assert ClaimGone(s, m.snapshot); }
    if m :| m in r.imports && key == m.content.key && id == m.content.uid { assert ClaimGone(s, m.content); }
    if c :| (c in r.volumes || c in r.policies) && key == c.key && id == c.uid { assert ClaimGone(s, c); }
  }

  lemma OwnedNumbered(s: State, uid: Uid, key: Key, id: Uid)
    requires Inv(s) && uid in s.runs && Owned(s.runs[uid].run, uid, key, id)
    ensures id < s.next
  {
    assert RunNumbered(s, uid) && ClaimsNumbered(s.runs[uid].run, s.next);
    hide Sound, UniqueRequests, ForceKnown;
  }

  /** At a release during teardown every enrolled run was retired: nothing its record named,
      but for its captures, exists then or ever again.  Of its volumes and policies this is
      said unless somebody added to these inventories after the mirror had ended. */
  lemma TeardownReleasesLast(s: State, steps: seq<Step>, k: nat, i: nat, key: Key, id: Uid)
    requires Start(s) && Legal(s, steps) && k < |steps|
    requires steps[k].Inside? && steps[k].write.DeleteCapture? && steps[k].write.all
    requires var t := Exec(s, steps[..k]); i < |Journal(t).runs| && Journal(t).runs[i].uid in t.runs
    requires var t := Exec(s, steps[..k]); var u := Journal(t).runs[i].uid; var r := t.runs[u];
      Owned(if t.endedAt <= r.version then Core(r.run) else r.run, u, key, id)
    ensures Exec(s, steps[..k]).ending && !Present(Exec(s, steps), key, id)
  {
    hide Start, Inv, Enabled, Owned, Retired, Present, Exec, Legal;
    Prefix(s, steps, k);
    var t := Exec(s, steps[..k]);
    var u := Journal(t).runs[i].uid;
    var r := t.runs[u];
    ReleaseSwept(t, steps[k].write);
    assert Swept(t, u);
    RetiredOwned(t, u, if t.endedAt <= r.version then Core(r.run) else r.run, key, id);
    CoreOwned(r.run, u, key, id);
    AlwaysSound(s, steps[..k]);
    OwnedNumbered(t, u, key, id);
    GoneForever(s, steps, k, key, id);
  }

  lemma CoreOwned(r: Run, uid: Uid, key: Key, id: Uid)
    ensures Owned(Core(r), uid, key, id) ==> Owned(r, uid, key, id)
  {}

  lemma ReleaseSwept(s: State, w: Write)
    requires Enabled(s, w) && w.DeleteCapture? && w.all
    ensures s.ending && AllSwept(s)
  {
    hide Swept, Enrolled, Wanted;
  }

  /** The active pointer is empty or names an enrolled run that was activated. */
  lemma ActivePointerSound(s: State, steps: seq<Step>)
    requires Start(s) && Legal(s, steps)
    ensures var t := Exec(s, steps); var a := Journal(t).active;
      a != 0 && !t.teardown ==> Enrolled(Journal(t), a) && a in t.runs && t.runs[a].run.phase in {Active, Retiring} && t.runs[a].run.activatedAt != 0
  {
    AlwaysSound(s, steps);
  }

  /** An accepted test lease ends at most 30 minutes from now. */
  lemma LeaseBounded(s: State, steps: seq<Step>)
    requires Start(s) && Legal(s, steps)
    ensures Journal(Exec(s, steps)).hold <= Exec(s, steps).now + LEASE
  {
    AlwaysSound(s, steps);
  }

  // ---------------------------------------------------------------- the lease

  ghost predicate Activation(s: State, steps: seq<Step>, k: nat, uid: Uid) {
    k < |steps| && steps[k].Inside? && steps[k].write.SaveRun? && steps[k].write.uid == uid && steps[k].write.runChange.MarkedActive? &&
    LeaseOpen(Exec(s, steps[..k]), uid)
  }

  lemma ActivationLater(s: State, steps: seq<Step>, k: nat, uid: Uid)
    requires steps != [] && Activation(s, steps[..|steps| - 1], k, uid)
    ensures Activation(s, steps, k, uid)
  {
    assert steps[..|steps| - 1][..k] == steps[..k];
  }

  /** Only saving a run as active gives it an activation time. */
  lemma ActivatedSave(s: State, uid: Uid, r: Run, change: RunChange)
    requires RunEnabled(s, uid, r, change) && r.activatedAt != 0 && !change.MarkedActive?
    ensures uid in s.runs && s.runs[uid].run.activatedAt != 0
  {
    hide LeaseOpen, OthersRetired, Captured, Present, Enrolled;
  }

  lemma EventFrame(s: State, e: Event)
    ensures Happen(s, e).parent == s.parent
    ensures !e.Inventory? ==> Happen(s, e).runs == s.runs
  {
    hide AfterObject, AfterRequest, Fits;
  }

  lemma RequestFrame(s: State, w: Write)
    requires w.SetFinalizer? || w.DeleteRequest? || w.CreateRequest?
    ensures Apply(s, w).runs == s.runs && Apply(s, w).parent == s.parent
  {
    hide Happen;
    match w
    case SetFinalizer(name, present) => EventFrame(s, OnRequest(Finalize(name, present)));
    case DeleteRequest(name) => EventFrame(s, OnRequest(Cancel(name)));
    case CreateRequest(name) => EventFrame(s, OnRequest(Ask(name, false, None, false, false)));
  }

  lemma ObjectFrame(s: State, w: Write)
    requires w.CreateObject? || w.DeleteObject? || w.DeleteCapture?
    ensures Apply(s, w).runs == s.runs && Apply(s, w).parent == s.parent
  {
    hide Happen;
    match w
    case CreateObject(key, owner, op) =>
      EventFrame(s.(made := if key.kind == Generation && key !in s.objects then s.made + {s.next} else s.made), OnObject(Place(key, owner, op)));
    case DeleteObject(key, _, _) => EventFrame(s, OnObject(Terminate(key)));
    case DeleteCapture(key, owner, all) =>
      EventFrame(s.(released := s.released + {owner}, teardown := s.teardown || all), OnObject(Terminate(key)));
  }

  lemma RecordFrame(s: State, w: Write)
    requires w.SaveRun? || w.DropRun?
    ensures Apply(s, w).parent == s.parent
    ensures w.SaveRun? ==> Apply(s, w).runs == s.runs[w.uid := Versioned(w.run, s.next)]
    ensures w.DropRun? ==> Apply(s, w).runs == s.runs - {w.uid}
  {}

  lemma ParentFrame(s: State, w: Write)
    requires w.SaveParent? || w.DropParent?
    ensures Apply(s, w).runs == s.runs
  {}

  lemma ActivatedEvent(s: State, e: Event, uid: Uid)
    requires uid in Happen(s, e).runs
    ensures uid in s.runs && Happen(s, e).runs[uid].run.activatedAt == s.runs[uid].run.activatedAt
  {
    hide AfterObject, AfterRequest, Fits;
  }

  lemma SaveEnabled(s: State, w: Write)
    requires w.SaveRun? && Enabled(s, w)
    ensures RunEnabled(s, w.uid, w.run, w.runChange)
    ensures w.runChange.MarkedActive? ==> LeaseOpen(s, w.uid)
  {
    hide LeaseOpen, ClaimsNumbered;
  }

  lemma ActivatedStep(s: State, step: Step, uid: Uid)
    requires step.Inside? ==> Enabled(s, step.write)
    requires var t := After(s, step); uid in t.runs && t.runs[uid].run.activatedAt != 0
    ensures || (uid in s.runs && s.runs[uid].run.activatedAt != 0)
            || (step.Inside? && step.write.SaveRun? && step.write.uid == uid && step.write.runChange.MarkedActive? && LeaseOpen(s, uid))
  {
    hide Happen, Apply, LeaseOpen, Enabled, RunEnabled;
    match step
    case Outside(e) => ActivatedEvent(s, e, uid);
    case Inside(w) =>
      if w.SaveRun? {
        RecordFrame(s, w);
        SaveEnabled(s, w);
        if w.uid == uid && !w.runChange.MarkedActive? { ActivatedSave(s, uid, w.run, w.runChange); }
      } else if w.DropRun? {
        RecordFrame(s, w);
      } else if w.SaveParent? || w.DropParent? {
        ParentFrame(s, w);
      } else if w.CreateObject? || w.DeleteObject? || w.DeleteCapture? {
        ObjectFrame(s, w);
      } else {
        RequestFrame(s, w);
      }
  }

  /** Whoever carries an activation time was marked active at some step under an open lease. */
  lemma {:induction false} ActivatedUnderLease(s: State, steps: seq<Step>, uid: Uid)
    requires Start(s) && Legal(s, steps)
    requires var t := Exec(s, steps); uid in t.runs && t.runs[uid].run.activatedAt != 0
    ensures exists k :: Activation(s, steps, k, uid)
  {
    hide Enabled, LeaseOpen, After;
    var n := |steps| - 1;
    assert steps != [];
    var before := Exec(s, steps[..n]);
    ActivatedStep(before, steps[n], uid);
    if uid in before.runs && before.runs[uid].run.activatedAt != 0 {
      ActivatedUnderLease(s, steps[..n], uid);
      var k :| Activation(s, steps[..n], k, uid);
      ActivationLater(s, steps, k, uid);
    } else {
      assert Activation(s, steps, n, uid);
    }
  }

  lemma ParentOnly(s: State, step: Step)
    requires !(step.Inside? && (step.write.SaveParent? || step.write.DropParent?))
    ensures After(s, step).parent == s.parent
  {
    hide Happen, Apply;
    match step
    case Outside(e) => EventFrame(s, e);
    case Inside(w) =>
      if w.SaveRun? || w.DropRun? { RecordFrame(s, w); }
      else if w.CreateObject? || w.DeleteObject? || w.DeleteCapture? { ObjectFrame(s, w); }
      else { RequestFrame(s, w); }
  }

  /** The writes of the parent record that move the active pointer, and when. */
  lemma PointerSave(s: State, m: Mirror, change: ParentChange)
    requires ActiveSound(s) && ParentEnabled(s, m, change) && m.active != Journal(s).active && Journal(s).active != 0 && !s.teardown
    ensures || (change.RunReplaced? && LeaseOpen(s, Journal(s).pending) && m == Journal(s).(active := 0))
            || (change.RunActivated? && m == Journal(s).(active := Journal(s).pending, pending := 0) &&
                Journal(s).pending in s.runs && s.runs[Journal(s).pending].run.phase == Active)
  {
    hide LeaseOpen, Dismissed, Enrolled;
  }

  lemma NoEmptyActive(s: State)
    requires Inv(s) && Journal(s).runs == []
    ensures Journal(s).active == 0
  {}

  lemma InvActive(s: State)
    requires Inv(s)
    ensures ActiveSound(s)
  {}

  lemma EnabledParent(s: State, w: Write)
    requires Enabled(s, w)
    ensures w.SaveParent? ==> ParentEnabled(s, w.mirror, w.parentChange)
    ensures w.DropParent? ==> Journal(s).runs == []
  {}

  lemma PointerMoves(s: State, step: Step)
    requires Inv(s) && (step.Inside? ==> Enabled(s, step.write)) && !s.teardown && Journal(s).active != 0
    requires Journal(After(s, step)).active != Journal(s).active
    ensures step.Inside? && step.write.SaveParent?
    ensures var p := Journal(s); var w := step.write;
      || (w.parentChange.RunReplaced? && LeaseOpen(s, p.pending) && w.mirror == p.(active := 0))
      || (w.parentChange.RunActivated? && w.mirror == p.(active := p.pending, pending := 0) && p.pending in s.runs && s.runs[p.pending].run.phase == Active)
  {
    hide Inv, Enabled, ParentEnabled, LeaseOpen, ActiveSound;
    if !(step.Inside? && (step.write.SaveParent? || step.write.DropParent?)) { ParentOnly(s, step); }
    EnabledParent(s, step.write);
    if step.write.DropParent? { NoEmptyActive(s); }
    InvActive(s);
    PointerSave(s, step.write.mirror, step.write.parentChange);
  }

  /** The end of the lease that a step sets: accepted from a user, or none with a new record. */
  function Accepts(step: Step): Option<Time> {
    if !step.Inside? then None
    else match step.write
      case SaveParent(m, change) => if change.LeaseChanged? || change.Created? then Some(m.hold) else None
      case DropParent => Some(0)
      case _ => None
  }

  /** The last lease accepted in steps `j` to `k`. */
  function LastLease(steps: seq<Step>, j: nat, k: nat): Option<Time>
    requires j <= k <= |steps|
  {
    if j == k then None else if Accepts(steps[k - 1]).Some? then Accepts(steps[k - 1]) else LastLease(steps, j, k - 1)
  }

  /** A run marked active at `j` may still take over at `k`: its force is permitted, or no
      lease accepted since then is running. */
  ghost predicate Honoured(s: State, steps: seq<Step>, j: nat, k: nat, uid: Uid) {
    && j <= k <= |steps|
    && (|| (Exec(s, steps[..k]).forcible && uid in Exec(s, steps[..k]).forced)
        || LastLease(steps, j, k).None? || LastLease(steps, j, k).value <= Exec(s, steps[..k]).now)
  }

  lemma HoldStep(s: State, step: Step)
    requires Inv(s) && (step.Inside? ==> Enabled(s, step.write))
    ensures var t := After(s, step);
      && Journal(t).hold == (if Accepts(step).Some? then Accepts(step).value else Journal(s).hold)
      && s.now <= t.now && t.forcible == s.forcible && s.forced <= t.forced
  {
    hide Inv, Enabled, Happen, Apply;
    match step
    case Outside(e) =>
      EventFrame(s, e);
      EventClock(s, e);
    case Inside(w) =>
      WriteClock(s, w);
      if w.SaveParent? || w.DropParent? {
        EnabledParent(s, w);
        if w.SaveParent? { ParentHold(s, w.mirror, w.parentChange); }
        ParentWritten(s, w);
      } else {
        ParentOnly(s, step);
      }
  }

  lemma EventClock(s: State, e: Event)
    ensures var t := Happen(s, e); s.now <= t.now && t.forcible == s.forcible && s.forced <= t.forced && s.next <= t.next && t.helm == s.helm
  {
    hide AfterRequest, AfterObject, Fits;
  }

  lemma WriteClock(s: State, w: Write)
    ensures var t := Apply(s, w); t.now == s.now && t.forcible == s.forcible && t.forced == s.forced && s.next <= t.next && t.helm == s.helm
  {
    hide AfterRequest, AfterObject, Fits;
  }

  lemma ParentWritten(s: State, w: Write)
    requires w.SaveParent? || w.DropParent?
    ensures Journal(Apply(s, w)) == if w.SaveParent? then w.mirror else NO_RUNS
  {}

  lemma ParentHold(s: State, m: Mirror, change: ParentChange)
    requires ParentEnabled(s, m, change)
    ensures !change.LeaseChanged? && !change.Created? ==> m.hold == Journal(s).hold
  {
    hide LeaseOpen, Dismissed, Enrolled;
  }

  lemma {:induction false} HoldSince(s: State, steps: seq<Step>, j: nat, k: nat)
    requires Start(s) && Legal(s, steps) && j <= k <= |steps|
    ensures var a := Exec(s, steps[..j]); var b := Exec(s, steps[..k]);
      && Journal(b).hold == (if LastLease(steps, j, k).Some? then LastLease(steps, j, k).value else Journal(a).hold)
      && a.now <= b.now && b.forcible == a.forcible && a.forced <= b.forced
    decreases k - j
  {
    hide Start, Inv, Enabled, After;
    if j < k {
      HoldSince(s, steps, j, k - 1);
      Prefix(s, steps, k - 1);
      AlwaysSound(s, steps[..k - 1]);
      HoldStep(Exec(s, steps[..k - 1]), steps[k - 1]);
    }
  }

  /** Once a run was marked active under an open lease, the lease stays open for it exactly
      until a new one is accepted that is still running, unless its force is permitted. */
  lemma LeaseSince(s: State, steps: seq<Step>, j: nat, k: nat, uid: Uid)
    requires Start(s) && Legal(s, steps) && k <= |steps| && Activation(s, steps[..k], j, uid)
    ensures LeaseOpen(Exec(s, steps[..k]), uid) <==> Honoured(s, steps, j, k, uid)
  {
    hide Start, Exec, Legal;
    assert steps[..k][..j] == steps[..j];
    HoldSince(s, steps, j, k);
  }

  /** Whoever counts as forced asked for it when the request was made. */
  lemma {:induction false} ForceAsked(s: State, steps: seq<Step>, uid: Uid)
    requires Start(s) && Legal(s, steps)
    ensures uid in Exec(s, steps).forced <==> (uid in s.forced || exists k :: AsksForce(s, steps, k, uid))
  {
    hide Start, Enabled, After, ForceEvent;
    if steps != [] {
      var n := |steps| - 1;
      ForceAsked(s, steps[..n], uid);
      ForceStep(Exec(s, steps[..n]), steps[n], uid);
      forall k: nat | k < n ensures AsksForce(s, steps[..n], k, uid) == AsksForce(s, steps, k, uid) {
        assert steps[..n][..k] == steps[..k];
      }
      if exists k: nat :: AsksForce(s, steps[..n], k, uid) {
        var k: nat :| AsksForce(s, steps[..n], k, uid);
        assert AsksForce(s, steps, k, uid);
      }
      if exists k: nat :: AsksForce(s, steps, k, uid) && k < n {
        var k: nat :| AsksForce(s, steps, k, uid) && k < n;
        assert AsksForce(s, steps[..n], k, uid);
      }
      if ForceEvent(Exec(s, steps[..n]), steps[n], uid) { assert AsksForce(s, steps, n, uid); }
    }
  }

  /** Somebody makes request `uid`, and asks for force. */
  predicate ForceEvent(t: State, step: Step, uid: Uid) {
    && step.Outside? && step.event.OnRequest? && step.event.request.Ask? && step.event.request.force
    && step.event.request.name !in t.requests && t.next == uid
  }

  ghost predicate AsksForce(s: State, steps: seq<Step>, k: nat, uid: Uid) {
    k < |steps| && ForceEvent(Exec(s, steps[..k]), steps[k], uid)
  }

  lemma ForceStep(s: State, step: Step, uid: Uid)
    ensures uid in After(s, step).forced <==> uid in s.forced || ForceEvent(s, step, uid)
  {
    hide AfterRequest, AfterObject, Fits, Happen, Apply;
    match step
    case Outside(e) => ForceHappens(s, e, uid);
    case Inside(w) => WriteClock(s, w);
  }

  lemma ForceHappens(s: State, e: Event, uid: Uid)
    ensures uid in Happen(s, e).forced <==> uid in s.forced || ForceEvent(s, Outside(e), uid)
  {
    hide AfterRequest, AfterObject, Fits;
  }

  /** Before teardown the active pointer leaves a generation only when the accepted lease
      has passed or the run that takes over asked for a permitted force, either now, or when
      that run was marked active; and the second case honours the lease of the moment
      exactly when no lease accepted in between is still running. */
  lemma PointerLeavesUnderLease(s: State, steps: seq<Step>, k: nat)
    requires Start(s) && Legal(s, steps) && k < |steps|
    requires var t := Exec(s, steps[..k]); var a := Journal(t).active;
      a != 0 && !t.teardown && Journal(Exec(s, steps[..k + 1])).active != a
    ensures var t := Exec(s, steps[..k]); var p := Journal(t);
      || (LeaseOpen(t, p.pending) && steps[k] == Inside(SaveParent(p.(active := 0), RunReplaced)))
      || (steps[k] == Inside(SaveParent(p.(active := p.pending, pending := 0), RunActivated)) &&
          exists j :: Activation(s, steps[..k], j, p.pending) && (LeaseOpen(t, p.pending) <==> Honoured(s, steps, j, k, p.pending)))
  {
    hide Inv, Enabled, LeaseOpen, Start;
    var t := Exec(s, steps[..k]);
    Prefix(s, steps, k);
    AlwaysSound(s, steps[..k]);
    PointerMoves(t, steps[k]);
    if steps[k].write.parentChange.RunActivated? {
      ActiveMarked(t, Journal(t).pending);
      ActivatedUnderLease(s, steps[..k], Journal(t).pending);
      var j :| Activation(s, steps[..k], j, Journal(t).pending);
      LeaseSince(s, steps, j, k, Journal(t).pending);
    }
  }

  lemma ActiveMarked(s: State, uid: Uid)
    requires Inv(s) && uid in s.runs && s.runs[uid].run.phase == Active
    ensures s.runs[uid].run.activatedAt != 0
  {
    assert RunShape(s, uid);
  }
}
