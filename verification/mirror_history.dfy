/** Exactly when a mirror keeps what it promises: revisions released under a late Reset,
    and generations nobody remembers. */
module MirrorHistory {
  import opened Common
  import opened MirrorProtocol
  import opened MirrorTraces

  // ---------------------------------------------------------------- late resets

  /** A late run restores from a revision that is released. */
  ghost predicate LateSound(s: State) {
    forall u :: u in s.late ==> u in s.runs && PastCapture(s.runs[u].run) && s.runs[u].run.revision in s.released
  }

  lemma LateEvent(s: State, e: Event)
    requires LateSound(s)
    ensures LateSound(Happen(s, e)) && Happen(s, e).late == s.late && Happen(s, e).released == s.released
  {
    hide AfterRequest, AfterObject, Fits;
  }

  lemma LateSave(s: State, uid: Uid, r: Run, change: RunChange)
    requires LateSound(s) && RunEnabled(s, uid, r, change)
    ensures LateSound(Apply(s, SaveRun(uid, r, change)))
  {
    hide LeaseOpen, OthersRetired, MadeIs, Captured, Present, Enrolled, Taken, Latest, Wanted;
  }

  lemma LateStep(s: State, step: Step)
    requires LateSound(s) && (step.Inside? ==> Enabled(s, step.write))
    ensures LateSound(After(s, step))
  {
    hide LateSound, Enabled, Happen, RunEnabled;
    match step
    case Outside(e) => LateEvent(s, e);
    case Inside(w) =>
      if w.SaveRun? {
        SaveEnabled(s, w);
        LateSave(s, w.uid, w.run, w.runChange);
      } else {
        LateOther(s, w);
      }
  }

  lemma LateOther(s: State, w: Write)
    requires LateSound(s) && !w.SaveRun?
    ensures LateSound(Apply(s, w))
  {
    hide Happen;
    match w
    case SaveParent(_, _) =>
    case DropParent =>
    case DropRun(_, _, _) =>
    case CreateObject(key, owner, op) =>
      LateEvent(s.(made := if key.kind == Generation && key !in s.objects then s.made + {s.next} else s.made), OnObject(Place(key, owner, op)));
    case DeleteObject(key, _, _) => LateEvent(s, OnObject(Terminate(key)));
    case DeleteCapture(key, owner, all) =>
      LateEvent(s.(released := s.released + {owner}, teardown := s.teardown || all), OnObject(Terminate(key)));
    case SetFinalizer(name, present) => LateEvent(s, OnRequest(Finalize(name, present)));
    case DeleteRequest(name) => LateEvent(s, OnRequest(Cancel(name)));
    case CreateRequest(name) => LateEvent(s, OnRequest(Ask(name, false, None, false, false)));
  }

  lemma {:induction false} LateAlways(s: State, steps: seq<Step>)
    requires Start(s) && Legal(s, steps)
    ensures LateSound(Exec(s, steps))
  {
    if steps != [] {
      hide LateSound, Enabled, Start, After;
      LateAlways(s, steps[..|steps| - 1]);
      LateStep(Exec(s, steps[..|steps| - 1]), steps[|steps| - 1]);
    }
  }

  predicate Drops(step: Step, uid: Uid) { step.Inside? && step.write.DropRun? && step.write.uid == uid }

  /** Step `k` admits run `uid` as a Reset onto a revision that is already released, and
      the record has not been dropped since. */
  ghost predicate AdmittedLate(s: State, steps: seq<Step>, k: nat, uid: Uid) {
    && k < |steps| && AdmitsLate(Exec(s, steps[..k]), steps[k], uid)
    && forall j :: k < j < |steps| ==> !Drops(steps[j], uid)
  }

  predicate AdmitsLate(s: State, step: Step, uid: Uid) {
    step.Inside? && step.write.SaveRun? && step.write.uid == uid && step.write.runChange == ResetAdmitted && step.write.run.revision in s.released
  }

  lemma LateChanges(s: State, step: Step, uid: Uid)
    ensures uid in After(s, step).late <==> AdmitsLate(s, step, uid) || (uid in s.late && !Drops(step, uid))
  {
    hide Happen, Apply;
    match step
    case Outside(e) => EventLate(s, e);
    case Inside(w) =>
      if w.SaveRun? { SaveLate(s, w.uid, w.run, w.runChange); }
      else if w.DropRun? { DropLate(s, w.uid, w.seen, w.all); }
      else { WriteLate(s, w); }
  }

  lemma SaveLate(s: State, uid: Uid, r: Run, change: RunChange)
    ensures Apply(s, SaveRun(uid, r, change)).late == if change == ResetAdmitted && r.revision in s.released then s.late + {uid} else s.late
  {}

  lemma DropLate(s: State, uid: Uid, seen: Run, all: bool)
    ensures Apply(s, DropRun(uid, seen, all)).late == s.late - {uid}
  {}

  lemma WriteLate(s: State, w: Write)
    requires !w.SaveRun? && !w.DropRun?
    ensures Apply(s, w).late == s.late
  {
    hide Happen;
    match w
    case SaveParent(_, _) =>
    case DropParent =>
    case CreateObject(key, owner, op) =>
      EventLate(s.(made := if key.kind == Generation && key !in s.objects then s.made + {s.next} else s.made), OnObject(Place(key, owner, op)));
    case DeleteObject(key, _, _) => EventLate(s, OnObject(Terminate(key)));
    case DeleteCapture(key, owner, all) =>
      EventLate(s.(released := s.released + {owner}, teardown := s.teardown || all), OnObject(Terminate(key)));
    case SetFinalizer(name, present) => EventLate(s, OnRequest(Finalize(name, present)));
    case DeleteRequest(name) => EventLate(s, OnRequest(Cancel(name)));
    case CreateRequest(name) => EventLate(s, OnRequest(Ask(name, false, None, false, false)));
  }

  lemma EventLate(s: State, e: Event)
    ensures Happen(s, e).late == s.late
  {
    hide AfterRequest, AfterObject, Fits;
  }

  /** The late runs are exactly the Resets admitted onto a released revision. */
  lemma {:induction false} LateExactly(s: State, steps: seq<Step>, uid: Uid)
    requires Start(s) && Legal(s, steps)
    ensures uid in Exec(s, steps).late <==> exists k :: AdmittedLate(s, steps, k, uid)
  {
    hide Enabled, After, AdmitsLate, Drops;
    if steps == [] {
      StartUnlate(s);
    } else {
      var n := |steps| - 1;
      var before := Exec(s, steps[..n]);
      LateExactly(s, steps[..n], uid);
      LateChanges(before, steps[n], uid);
      forall k: nat | k < n ensures AdmittedLate(s, steps, k, uid) <==> AdmittedLate(s, steps[..n], k, uid) && !Drops(steps[n], uid) {
        LateExtends(s, steps, k, uid);
      }
      if AdmitsLate(before, steps[n], uid) { assert AdmittedLate(s, steps, n, uid); }
      if exists k: nat :: AdmittedLate(s, steps[..n], k, uid) && !Drops(steps[n], uid) {
        var k: nat :| AdmittedLate(s, steps[..n], k, uid) && !Drops(steps[n], uid);
        assert AdmittedLate(s, steps, k, uid);
      }
      if exists k: nat :: AdmittedLate(s, steps, k, uid) && k < n {
        var k: nat :| AdmittedLate(s, steps, k, uid) && k < n;
        assert AdmittedLate(s, steps[..n], k, uid);
      }
    }
  }

  lemma StartUnlate(s: State)
    requires Start(s)
    ensures s.late == {}
  {}

  lemma LateExtends(s: State, steps: seq<Step>, k: nat, uid: Uid)
    requires k < |steps| - 1
    ensures AdmittedLate(s, steps, k, uid) <==> AdmittedLate(s, steps[..|steps| - 1], k, uid) && !Drops(steps[|steps| - 1], uid)
  {
    hide Exec, AdmitsLate, Drops;
    var n := |steps| - 1;
    assert steps[..n][..k] == steps[..k];
    if AdmittedLate(s, steps[..n], k, uid) && !Drops(steps[n], uid) {
      forall j | k < j < |steps| ensures !Drops(steps[j], uid) { if j < n { assert steps[..n][j] == steps[j]; } }
    }
  }

  /** While a run is active, live and pending, or has a recorded generation that is not
      yet retained, the capture it restores from keeps its record; and its snapshots are
      being deleted exactly when that had begun before the run was admitted. */
  lemma RevisionPinned(s: State, steps: seq<Step>, u: Uid)
    requires Start(s) && Legal(s, steps)
    requires var t := Exec(s, steps); !t.teardown && Consumer(t, u) && PastCapture(t.runs[u].run)
    ensures var t := Exec(s, steps); var revision := t.runs[u].run.revision;
      Captured(t, revision) && (revision in t.released <==> exists k :: AdmittedLate(s, steps, k, u))
  {
    hide Start, Inv, Legal, Exec, Consumer, PastCapture, Captured, LateSound;
    AlwaysSound(s, steps);
    LateAlways(s, steps);
    LateExactly(s, steps, u);
    PinnedNow(Exec(s, steps), u);
  }

  lemma PinnedNow(t: State, u: Uid)
    requires Inv(t) && LateSound(t) && !t.teardown && Consumer(t, u) && PastCapture(t.runs[u].run)
    ensures Captured(t, t.runs[u].run.revision) && (t.runs[u].run.revision in t.released <==> u in t.late)
  {
    hide Numbered, Journaled, ActiveSound, OneGeneration, Tidy, Captured;
    assert Depends(t, u);
  }

  // ---------------------------------------------------------------- generations nobody remembers

  /** A generation the controller created for run `u` still exists. */
  predicate MadeExists(t: State, u: Uid) {
    GenerationKey(u) in t.objects && t.objects[GenerationKey(u)].uid in t.made
  }

  /** The record of run `u` does not name the object under its generation's name. */
  predicate Unrecorded(t: State, u: Uid) {
    MadeExists(t, u) && (u in t.runs ==> t.runs[u].run.child != t.objects[GenerationKey(u)].uid)
  }

  /** The run a step gives up: its record is dropped or retained. */
  function GivenUp(step: Step): Option<Uid> {
    if !step.Inside? then None
    else match step.write
      case DropRun(uid, _, _) => Some(uid)
      case SaveRun(uid, _, change) => if change == MarkedRetained then Some(uid) else None
      case _ => None
  }

  /** The generations that exist unrecorded when their run is given up. */
  function LostBy(t: State, step: Step): set<Uid> {
    if GivenUp(step).Some? && Unrecorded(t, GivenUp(step).value) then {t.objects[GenerationKey(GivenUp(step).value)].uid} else {}
  }

  function Lost(s: State, steps: seq<Step>): set<Uid> {
    if steps == [] then {} else Lost(s, steps[..|steps| - 1]) + LostBy(Exec(s, steps[..|steps| - 1]), steps[|steps| - 1])
  }

  /** The generation of a run that is restoring was created, or is about to be. */
  ghost predicate InProgress(t: State, u: Uid) {
    u == Journal(t).pending && u in t.runs && RestorePhase(t.runs[u].run.phase) && t.runs[u].run.child == 0
  }

  predicate Known(t: State, lost: set<Uid>, u: Uid) { MadeExists(t, u) && t.objects[GenerationKey(u)].uid !in lost }

  /** A generation that was not lost is recorded, or about to be; and then, with the
      managed provider, no recorded one exists. */
  ghost predicate KnownSound(t: State, lost: set<Uid>) {
    && (forall u :: Known(t, lost, u) ==> ChildPresent(t, u) || InProgress(t, u))
    && (t.helm ==> forall u, v :: Known(t, lost, u) && InProgress(t, u) ==> !ChildPresent(t, v))
  }

  lemma KnownMoved(s: State, t: State, lost: set<Uid>)
    requires Inv(s) && KnownSound(s, lost) && Moved(s, t) && t.made == s.made
    ensures KnownSound(t, lost)
  {
    forall u | Known(t, lost, u)
      ensures Known(s, lost, u) && (ChildPresent(s, u) ==> ChildPresent(t, u)) && (InProgress(s, u) <==> InProgress(t, u))
    {
      KnownBefore(s, t, lost, u);
    }
    forall v | ChildPresent(t, v) ensures ChildPresent(s, v) { InvNumbers(s); MovedChildPresent(s, t, v); }
    hide Known, InProgress, ChildPresent, Inv, Moved;
    assert t.helm == s.helm by { SameProvider(s, t); }
  }

  lemma SameProvider(s: State, t: State)
    requires Moved(s, t)
    ensures t.helm == s.helm
  {}

  lemma InvNumbers(s: State)
    requires Inv(s)
    ensures Numbered(s) && forall u :: u in s.made ==> u < s.next
  {}

  lemma KnownBefore(s: State, t: State, lost: set<Uid>, u: Uid)
    requires Inv(s) && Moved(s, t) && t.made == s.made && Known(t, lost, u)
    ensures Known(s, lost, u) && (ChildPresent(s, u) ==> ChildPresent(t, u)) && (InProgress(s, u) <==> InProgress(t, u))
  {
    InvNumbers(s);
    hide Inv, Numbered;
    assert GenerationKey(u) in s.objects && s.objects[GenerationKey(u)].uid == t.objects[GenerationKey(u)].uid;
    if u in s.runs { MovedCore(s, t, u); }
  }

  lemma KnownCreate(s: State, key: Key, owner: Uid, op: Op, lost: set<Uid>)
    requires Inv(s) && KnownSound(s, lost) && Enabled(s, CreateObject(key, owner, op))
    ensures KnownSound(Apply(s, CreateObject(key, owner, op)), lost)
  {
    hide Inv, KnownSound, Rely, Moved, Apply, Enabled;
    var t := Apply(s, CreateObject(key, owner, op));
    if key.kind == Generation {
      CreateFacts(s, owner, op, key);
      CreateAlone(s, owner);
      KnownCreated(s, t, owner, lost);
    } else {
      OtherCreated(s, key, owner, op);
      KnownMoved(s, t, lost);
    }
  }

  lemma OtherCreated(s: State, key: Key, owner: Uid, op: Op)
    requires Inv(s) && key.kind != Generation
    ensures var t := Apply(s, CreateObject(key, owner, op)); Moved(s, t) && t.made == s.made
  {
    OutsideWriteSound(s, CreateObject(key, owner, op));
    hide Sound, Tidy, Moved, AfterObject;
  }

  /** Where the creation of a generation leads. */
  ghost predicate Placed(s: State, t: State, u: Uid) {
    && t.parent == s.parent && t.runs == s.runs && t.helm == s.helm && t.made == s.made + {s.next}
    && GenerationKey(u) !in s.objects && GenerationKey(u) in t.objects && t.objects[GenerationKey(u)].uid == s.next
    && (forall k :: k != GenerationKey(u) ==> (k in t.objects <==> k in s.objects) && (k in s.objects ==> t.objects[k].uid == s.objects[k].uid))
  }

  lemma CreateFacts(s: State, owner: Uid, op: Op, key: Key)
    requires Enabled(s, CreateObject(key, owner, op)) && key.kind == Generation
    ensures InProgress(s, owner) && Placed(s, Apply(s, CreateObject(key, owner, op)), owner)
    ensures s.helm ==> OthersRetired(s, owner)
  {
    hide OthersRetired;
  }

  lemma CreateAlone(s: State, owner: Uid)
    requires Inv(s) && InProgress(s, owner)
    ensures s.helm && OthersRetired(s, owner) ==> forall v :: !ChildPresent(s, v)
  {
    if s.helm && OthersRetired(s, owner) {
      forall v ensures !ChildPresent(s, v) {
        if v in s.runs {
          assert RunShape(s, v);
          if Enrolled(Journal(s), v) && v != owner { var i :| 0 <= i < |Journal(s).runs| && Journal(s).runs[i].uid == v; }
        }
      }
    }
  }

  lemma KnownCreated(s: State, t: State, owner: Uid, lost: set<Uid>)
    requires Inv(s) && KnownSound(s, lost) && InProgress(s, owner) && Placed(s, t, owner)
    requires s.helm ==> forall v :: !ChildPresent(s, v)
    ensures KnownSound(t, lost)
  {
    InvNumbers(s);
    assert forall v :: v in s.runs ==> RunNumbered(s, v);
    hide Inv, Numbered;
    forall u | Known(t, lost, u) ensures u == owner || (Known(s, lost, u) && (ChildPresent(s, u) ==> ChildPresent(t, u))) {}
    forall v | ChildPresent(t, v) ensures ChildPresent(s, v) {}
  }

  // ---------------------------------------------------------------- records and pointers

  lemma KnownSave(s: State, uid: Uid, r: Run, change: RunChange, lost: set<Uid>)
    requires Inv(s) && KnownSound(s, lost) && RunEnabled(s, uid, r, change)
    ensures KnownSound(Apply(s, SaveRun(uid, r, change)), lost + LostBy(s, Inside(SaveRun(uid, r, change))))
  {
    hide Inv, KnownSound, RunEnabled, Apply, SaveOf, Known, ChildPresent, InProgress, SelfFollows;
    var t := Apply(s, SaveRun(uid, r, change));
    var more := lost + LostBy(s, Inside(SaveRun(uid, r, change)));
    Saved(s, uid, r, change);
    SaveOthers(s, t, uid, r, lost, more);
    SaveSelf(s, t, uid, r, change, lost);
    KnownCombined(s, t, uid, lost, more);
  }

  lemma SaveOthers(s: State, t: State, uid: Uid, r: Run, lost: set<Uid>, more: set<Uid>)
    requires SaveOf(s, t, uid, r) && lost <= more
    ensures t.helm == s.helm && forall u :: Known(t, more, u) ==> Known(s, lost, u)
    ensures forall u :: u != uid ==> ChildPresent(t, u) == ChildPresent(s, u) && InProgress(t, u) == InProgress(s, u)
  {}

  /** What the written run itself may be afterwards. */
  lemma SaveSelf(s: State, t: State, uid: Uid, r: Run, change: RunChange, lost: set<Uid>)
    requires Inv(s) && KnownSound(s, lost) && RunEnabled(s, uid, r, change) && SaveOf(s, t, uid, r)
    ensures SelfFollows(s, t, uid, lost + LostBy(s, Inside(SaveRun(uid, r, change))))
  {
    hide *;
    SelfShape(s, uid);
    if Known(s, lost, uid) { SelfKnown(s, uid, lost); }
    if change == RunAdmitted { AdmittedSelf(s, t, uid, r, lost); }
    else if change == ChildRecorded { RecordedSelf(s, t, uid, r, lost); }
    else if change == MarkedRetained { RetainedSelf(s, t, uid, r, lost); }
    else { KeptSelf(s, t, uid, r, change, lost); }
  }

  /** What the written run knew of its generation before, it still knows or had recorded. */
  ghost predicate SelfFollows(s: State, t: State, uid: Uid, more: set<Uid>) {
    && (Known(t, more, uid) ==> (ChildPresent(s, uid) && ChildPresent(t, uid)) || (InProgress(s, uid) && (InProgress(t, uid) || ChildPresent(t, uid))))
    && (Known(t, more, uid) && InProgress(t, uid) ==> InProgress(s, uid))
    && (ChildPresent(t, uid) && !ChildPresent(s, uid) ==> InProgress(s, uid))
  }

  ghost predicate SelfSound(s: State, uid: Uid) {
    && (uid in s.runs ==> RunShape(s, uid) && (Journal(s).active == uid ==> Journal(s).pending != uid))
    && (GenerationKey(uid) in s.objects ==> s.objects[GenerationKey(uid)].uid != 0)
  }

  lemma SelfShape(s: State, uid: Uid)
    requires Inv(s)
    ensures SelfSound(s, uid)
  {
    if uid in s.runs { assert RunShape(s, uid) && RunNumbered(s, uid); }
  }

  lemma AdmittedSelf(s: State, t: State, uid: Uid, r: Run, lost: set<Uid>)
    requires RunEnabled(s, uid, r, RunAdmitted) && SaveOf(s, t, uid, r)
    requires Known(s, lost, uid) ==> ChildPresent(s, uid) || InProgress(s, uid)
    ensures SelfFollows(s, t, uid, lost + LostBy(s, Inside(SaveRun(uid, r, RunAdmitted))))
  {
    hide Enrolled;
  }

  lemma RecordedSelf(s: State, t: State, uid: Uid, r: Run, lost: set<Uid>)
    requires RunEnabled(s, uid, r, ChildRecorded) && SaveOf(s, t, uid, r)
    requires Known(s, lost, uid) ==> ChildPresent(s, uid) || InProgress(s, uid)
    ensures SelfFollows(s, t, uid, lost + LostBy(s, Inside(SaveRun(uid, r, ChildRecorded))))
  {
    hide Enrolled, OthersRetired, Captured;
  }

  lemma RetainedSelf(s: State, t: State, uid: Uid, r: Run, lost: set<Uid>)
    requires RunEnabled(s, uid, r, MarkedRetained) && SaveOf(s, t, uid, r)
    requires SelfSound(s, uid) && (Known(s, lost, uid) ==> ChildPresent(s, uid) || InProgress(s, uid))
    ensures SelfFollows(s, t, uid, lost + LostBy(s, Inside(SaveRun(uid, r, MarkedRetained))))
  {
    hide Enrolled, Wanted;
  }

  lemma KeptSelf(s: State, t: State, uid: Uid, r: Run, change: RunChange, lost: set<Uid>)
    requires RunEnabled(s, uid, r, change) && SaveOf(s, t, uid, r) && change != RunAdmitted && change != ChildRecorded && change != MarkedRetained
    requires SelfSound(s, uid) && (Known(s, lost, uid) ==> ChildPresent(s, uid) || InProgress(s, uid))
    ensures SelfFollows(s, t, uid, lost + LostBy(s, Inside(SaveRun(uid, r, change))))
  {
    hide Enrolled, LeaseOpen, Captured, Taken, Latest;
  }

  lemma SelfKnown(s: State, uid: Uid, lost: set<Uid>)
    requires KnownSound(s, lost) && Known(s, lost, uid)
    ensures ChildPresent(s, uid) || InProgress(s, uid)
  {}

  lemma KnownCombined(s: State, t: State, uid: Uid, lost: set<Uid>, more: set<Uid>)
    requires Inv(s) && KnownSound(s, lost) && t.helm == s.helm && t.parent == s.parent
    requires forall u :: Known(t, more, u) ==> Known(s, lost, u)
    requires forall u :: u != uid ==> ChildPresent(t, u) == ChildPresent(s, u) && InProgress(t, u) == InProgress(s, u)
    requires SelfFollows(s, t, uid, more)
    ensures KnownSound(t, more)
  {
    NotBoth(t, uid);
    hide Inv, Known, ChildPresent;
    forall u, v | t.helm && Known(t, more, u) && InProgress(t, u) ensures !ChildPresent(t, v) {
      assert InProgress(s, u);
    }
  }

  lemma NotBoth(t: State, u: Uid)
    ensures !(InProgress(t, u) && ChildPresent(t, u))
  {}

  lemma KnownDrop(s: State, uid: Uid, seen: Run, all: bool, lost: set<Uid>)
    requires Inv(s) && KnownSound(s, lost) && Enabled(s, DropRun(uid, seen, all))
    ensures KnownSound(Apply(s, DropRun(uid, seen, all)), lost + LostBy(s, Inside(DropRun(uid, seen, all))))
  {
    DropParts(s, uid, seen, all);
    var t := Apply(s, DropRun(uid, seen, all));
    var more := lost + LostBy(s, Inside(DropRun(uid, seen, all)));
    hide Inv, KnownSound, Enabled;
    forall u | Known(t, more, u) ensures u != uid && Known(s, lost, u) {}
    forall u | u != uid ensures ChildPresent(t, u) == ChildPresent(s, u) && InProgress(t, u) == InProgress(s, u) {}
    assert !ChildPresent(t, uid) && !InProgress(t, uid);
    KnownFewer(s, t, uid, lost, more);
  }

  lemma KnownFewer(s: State, t: State, uid: Uid, lost: set<Uid>, more: set<Uid>)
    requires KnownSound(s, lost) && t.helm == s.helm
    requires forall u :: Known(t, more, u) ==> u != uid && Known(s, lost, u)
    requires forall u :: u != uid ==> ChildPresent(t, u) == ChildPresent(s, u) && InProgress(t, u) == InProgress(s, u)
    requires !ChildPresent(t, uid)
    ensures KnownSound(t, more)
  {
    hide Known, ChildPresent, InProgress;
  }

  lemma KnownSame(s: State, t: State, lost: set<Uid>)
    requires KnownSound(s, lost) && t == s.(parent := t.parent) && forall u :: InProgress(t, u) == InProgress(s, u)
    ensures KnownSound(t, lost)
  {
    forall u ensures Known(t, lost, u) == Known(s, lost, u) && ChildPresent(t, u) == ChildPresent(s, u) {}
    hide Known, ChildPresent, InProgress;
  }

  lemma ParentProgress(s: State, m: Mirror, change: ParentChange, u: Uid)
    requires Inv(s) && ParentEnabled(s, m, change)
    ensures InProgress(s.(parent := Some(m)), u) == InProgress(s, u)
  {
    assert u in s.runs ==> RunNumbered(s, u);
    hide LeaseOpen, Dismissed, Enrolled, OneGeneration, RevisionsKept, ReleasedIdle, ReleasedNumbered, ActiveSound, Tidy, RunShape;
  }

  lemma DropProgress(s: State, u: Uid)
    requires Inv(s) && Journal(s).runs == []
    ensures InProgress(s.(parent := None), u) == InProgress(s, u)
  {
    assert u in s.runs ==> RunNumbered(s, u);
  }

  lemma KnownParent(s: State, w: Write, lost: set<Uid>)
    requires Inv(s) && KnownSound(s, lost) && Enabled(s, w) && (w.SaveParent? || w.DropParent?)
    ensures KnownSound(Apply(s, w), lost)
  {
    EnabledParent(s, w);
    hide Inv, KnownSound, Enabled, InProgress, ParentEnabled;
    if w.SaveParent? {
      forall u ensures InProgress(s.(parent := Some(w.mirror)), u) == InProgress(s, u) { ParentProgress(s, w.mirror, w.parentChange, u); }
    } else {
      forall u ensures InProgress(s.(parent := None), u) == InProgress(s, u) { DropProgress(s, u); }
    }
    KnownSame(s, Apply(s, w), lost);
  }

  /** Requests change, and objects go, as they may under anyone's hands. */
  lemma OutsideMoves(s: State, w: Write)
    requires Inv(s) && (w.DeleteObject? || w.SetFinalizer? || w.DeleteRequest? || w.CreateRequest? || w.DeleteCapture?)
    ensures Moved(s, Apply(s, w)) && Apply(s, w).made == s.made
  {
    hide Inv, Happen, Moved;
    if w.DeleteCapture? {
      var m := s.(released := s.released + {w.owner}, teardown := s.teardown || w.all);
      ReleasedMoves(s, m, OnObject(Terminate(w.key)));
      ReleasedApply(s, w);
      MovedFrom(s, m, Apply(s, w));
    } else {
      InvSound(s);
      OutsideWriteSound(s, w);
    }
    WriteMade(s, w);
  }

  lemma MovedFrom(s: State, m: State, t: State)
    requires m == s.(released := m.released, teardown := m.teardown) && Rely(m, t)
    ensures Moved(s, t)
  {}

  lemma WriteMade(s: State, w: Write)
    ensures w.CreateObject? || Apply(s, w).made == s.made
  {
    hide AfterRequest, AfterObject, Fits;
  }

  lemma EventMoves(s: State, e: Event)
    requires Inv(s)
    ensures Moved(s, Happen(s, e)) && Happen(s, e).made == s.made
  {
    InvSound(s);
    hide Inv, Sound, Moved, AfterRequest, AfterObject, Fits;
    EventSound(s, e);
  }

  lemma KnownStep(s: State, step: Step, lost: set<Uid>)
    requires Inv(s) && KnownSound(s, lost) && (step.Inside? ==> Enabled(s, step.write))
    ensures KnownSound(After(s, step), lost + LostBy(s, step))
  {
    hide Inv, KnownSound, Enabled, Happen, Apply, Moved;
    assert lost + {} == lost;
    match step
    case Outside(e) =>
      EventMoves(s, e);
      KnownMoved(s, Happen(s, e), lost);
    case Inside(w) =>
      match w
      case SaveParent(_, _) => KnownParent(s, w, lost);
      case DropParent => KnownParent(s, w, lost);
      case SaveRun(uid, r, change) =>
        SaveEnabled(s, w);
        KnownSave(s, uid, r, change, lost);
      case DropRun(uid, seen, all) => KnownDrop(s, uid, seen, all, lost);
      case CreateObject(key, owner, op) => KnownCreate(s, key, owner, op, lost);
      case _ =>
        OutsideMoves(s, w);
        KnownMoved(s, Apply(s, w), lost);
  }

  lemma {:induction false} KnownAlways(s: State, steps: seq<Step>)
    requires Start(s) && Legal(s, steps)
    ensures KnownSound(Exec(s, steps), Lost(s, steps))
  {
    if steps == [] {
      StartKnown(s);
    } else {
      hide KnownSound, Enabled, Start, After, Inv, LostBy;
      var n := |steps| - 1;
      KnownAlways(s, steps[..n]);
      AlwaysSound(s, steps[..n]);
      KnownStep(Exec(s, steps[..n]), steps[n], Lost(s, steps[..n]));
    }
  }

  lemma StartKnown(s: State)
    requires Start(s)
    ensures KnownSound(s, {})
  {}

  lemma LostNumbered(s: State, step: Step)
    requires Inv(s)
    ensures forall x :: x in LostBy(s, step) ==> x < s.next
  {}

  /** With the managed provider, of two generations the controller created that both exist
      at least one was lost: its run was given up before it was recorded. */
  lemma GenerationsExclusive(s: State, steps: seq<Step>, u: Uid, v: Uid)
    requires Start(s) && Legal(s, steps)
    requires var t := Exec(s, steps); t.helm && MadeExists(t, u) && MadeExists(t, v) && u != v
    ensures var t := Exec(s, steps);
      t.objects[GenerationKey(u)].uid in Lost(s, steps) || t.objects[GenerationKey(v)].uid in Lost(s, steps)
  {
    hide Start, Legal, Exec, Lost, Inv;
    AlwaysSound(s, steps);
    KnownAlways(s, steps);
    OneKnown(Exec(s, steps), Lost(s, steps), u, v);
  }

  lemma OneKnown(t: State, lost: set<Uid>, u: Uid, v: Uid)
    requires Inv(t) && KnownSound(t, lost) && t.helm
    ensures Known(t, lost, u) && Known(t, lost, v) ==> u == v
  {
    assert OneGeneration(t);
    hide Inv, Known, ChildPresent;
  }

  ghost predicate TwoExist(t: State) { exists u, v :: u != v && MadeExists(t, u) && MadeExists(t, v) }

  /** Step `k` creates a generation while a lost one still exists. */
  ghost predicate CreatesBesideLost(s: State, steps: seq<Step>, k: nat) {
    k < |steps| && Creates(steps[k]) && LostExists(Exec(s, steps[..k]), Lost(s, steps[..k]))
  }

  predicate Creates(step: Step) { step.Inside? && step.write.CreateObject? && step.write.key.kind == Generation }

  ghost predicate LostExists(t: State, lost: set<Uid>) {
    exists x :: MadeExists(t, x) && t.objects[GenerationKey(x)].uid in lost
  }

  /** A generation that exists was there before, or the step created it. */
  lemma MadeStep(s: State, step: Step, u: Uid)
    requires Inv(s) && (step.Inside? ==> Enabled(s, step.write)) && MadeExists(After(s, step), u)
    ensures MadeExists(s, u) || (Creates(step) && After(s, step).objects[GenerationKey(u)].uid == s.next)
    ensures !Creates(step) ==> MadeExists(s, u)
  {
    hide Inv, Enabled, Apply, Happen, Moved;
    match step
    case Outside(e) =>
      EventMoves(s, e);
      MadeBefore(s, Happen(s, e), u);
    case Inside(w) =>
      if w.SaveParent? || w.DropParent? || w.SaveRun? || w.DropRun? {
        RecordObjects(s, w);
        WriteMade(s, w);
      } else if w.CreateObject? && w.key.kind == Generation {
        CreateFacts(s, w.owner, w.op, w.key);
        InvNumbers(s);
      } else if w.CreateObject? {
        OtherCreated(s, w.key, w.owner, w.op);
        MadeBefore(s, Apply(s, w), u);
      } else {
        OutsideMoves(s, w);
        MadeBefore(s, Apply(s, w), u);
      }
  }

  lemma MadeBefore(s: State, t: State, u: Uid)
    requires Inv(s) && Moved(s, t) && t.made == s.made && MadeExists(t, u)
    ensures MadeExists(s, u)
  {
    InvNumbers(s);
  }

  lemma CreationAdds(s: State, step: Step)
    requires Inv(s) && Creates(step) && Enabled(s, step.write)
    ensures var t := After(s, step); var u := step.write.owner;
      && MadeExists(t, u) && !MadeExists(s, u) && t.objects[GenerationKey(u)].uid == s.next
      && forall v :: v != u ==> MadeExists(t, v) == MadeExists(s, v) && (MadeExists(s, v) ==> t.objects[GenerationKey(v)].uid == s.objects[GenerationKey(v)].uid)
  {
    hide Enabled, Apply, Inv;
    CreateFacts(s, step.write.owner, step.write.op, step.write.key);
    InvNumbers(s);
  }

  lemma {:induction false} LostBelow(s: State, steps: seq<Step>)
    requires Start(s) && Legal(s, steps)
    ensures forall x :: x in Lost(s, steps) ==> x < Exec(s, steps).next
  {
    if steps != [] {
      hide Inv, Enabled, After, Start, LostBy;
      var n := |steps| - 1;
      LostBelow(s, steps[..n]);
      AlwaysSound(s, steps[..n]);
      LostNumbered(Exec(s, steps[..n]), steps[n]);
      NextGrows(Exec(s, steps[..n]), steps[n]);
    }
  }

  lemma NextGrows(s: State, step: Step)
    ensures s.next <= After(s, step).next && After(s, step).helm == s.helm
  {
    hide Happen, Apply;
    match step
    case Outside(e) => EventClock(s, e);
    case Inside(w) => WriteClock(s, w);
  }

  /** With the managed provider two generations exist at some point exactly when one was
      created while a lost one still existed. */
  lemma {:induction false} TwoGenerations(s: State, steps: seq<Step>)
    requires Start(s) && Legal(s, steps) && s.helm
    ensures (exists j: nat :: j <= |steps| && TwoExist(Exec(s, steps[..j]))) <==> (exists k: nat :: CreatesBesideLost(s, steps, k))
  {
    hide Start, Legal, Exec, Lost, TwoExist, CreatesBesideLost;
    if exists k: nat :: CreatesBesideLost(s, steps, k) {
      var k: nat :| CreatesBesideLost(s, steps, k);
      BesideTwo(s, steps, k);
    }
    if exists j: nat :: j <= |steps| && TwoExist(Exec(s, steps[..j])) {
      var j: nat :| j <= |steps| && TwoExist(Exec(s, steps[..j]));
      TwoBeside(s, steps, j);
    }
  }

  lemma BesideTwo(s: State, steps: seq<Step>, k: nat)
    requires Start(s) && Legal(s, steps) && CreatesBesideLost(s, steps, k)
    ensures k + 1 <= |steps| && TwoExist(Exec(s, steps[..k + 1]))
  {
    hide Start, Legal, Exec, Lost, Inv, Enabled, After;
    Prefix(s, steps, k);
    AlwaysSound(s, steps[..k]);
    var t := Exec(s, steps[..k]);
    CreationAdds(t, steps[k]);
    var x :| MadeExists(t, x) && t.objects[GenerationKey(x)].uid in Lost(s, steps[..k]);
    assert x != steps[k].write.owner;
  }

  lemma {:induction false} TwoBeside(s: State, steps: seq<Step>, j: nat)
    requires Start(s) && Legal(s, steps) && s.helm && j <= |steps| && TwoExist(Exec(s, steps[..j]))
    ensures exists k: nat :: CreatesBesideLost(s, steps, k)
    decreases j
  {
    hide Start, Legal, MadeExists, Inv, Enabled, After, Exec, Lost;
    if j == 0 {
      StartAlone(s);
      assert Exec(s, steps[..0]) == s by { ExecNone(s, steps); }
    } else if TwoExist(Exec(s, steps[..j - 1])) {
      TwoBeside(s, steps, j - 1);
    } else {
      var k := j - 1;
      Prefix(s, steps, k);
      AlwaysSound(s, steps[..k]);
      LastCreates(s, steps, k);
      assert CreatesBesideLost(s, steps, k);
    }
  }

  lemma StartAlone(s: State)
    requires Start(s)
    ensures !TwoExist(s)
  {}

  lemma ExecNone(s: State, steps: seq<Step>)
    ensures Exec(s, steps[..0]) == s
  {}

  lemma LastCreates(s: State, steps: seq<Step>, k: nat)
    requires Start(s) && Legal(s, steps) && s.helm && k < |steps| && TwoExist(Exec(s, steps[..k + 1])) && !TwoExist(Exec(s, steps[..k]))
    ensures Creates(steps[k]) && LostExists(Exec(s, steps[..k]), Lost(s, steps[..k]))
  {
    hide Start, Legal, MadeExists, Inv, Enabled, After, Exec, Lost;
    var t := Exec(s, steps[..k]);
    var t' := Exec(s, steps[..k + 1]);
    Prefix(s, steps, k);
    Prefix(s, steps, k + 1);
    AlwaysSound(s, steps[..k]);
    var u, v :| u != v && MadeExists(t', u) && MadeExists(t', v);
    MadeStep(t, steps[k], u);
    MadeStep(t, steps[k], v);
    assert Creates(steps[k]);
    CreationAdds(t, steps[k]);
    SameProviderAlways(s, steps[..k + 1]);
    var w := steps[k].write.owner;
    var x := if w == u then v else u;
    assert w == u || w == v;
    GenerationsExclusive(s, steps[..k + 1], w, x);
    LostBelow(s, steps[..k]);
    LostStep(s, steps, k);
  }

  lemma LostStep(s: State, steps: seq<Step>, k: nat)
    requires k < |steps| && GivenUp(steps[k]).None?
    ensures Lost(s, steps[..k + 1]) == Lost(s, steps[..k])
  {
    assert steps[..k + 1][..k] == steps[..k];
  }

  lemma {:induction false} SameProviderAlways(s: State, steps: seq<Step>)
    ensures Exec(s, steps).helm == s.helm
  {
    if steps != [] {
      hide After;
      SameProviderAlways(s, steps[..|steps| - 1]);
      NextGrows(Exec(s, steps[..|steps| - 1]), steps[|steps| - 1]);
    }
  }

  /** A generation is lost only when the pending run was given up before it was recorded:
      its request was gone or being deleted, or the mirror had ended. */
  lemma LossCancelled(s: State, steps: seq<Step>, k: nat, x: Uid)
    requires Start(s) && Legal(s, steps) && k < |steps|
    requires x in Lost(s, steps[..k + 1]) && x !in Lost(s, steps[..k])
    ensures var t := Exec(s, steps[..k]);
      && GivenUp(steps[k]).Some? && InProgress(t, GivenUp(steps[k]).value) && MadeExists(t, GivenUp(steps[k]).value)
      && t.objects[GenerationKey(GivenUp(steps[k]).value)].uid == x
      && (!Wanted(t, GivenUp(steps[k]).value) || t.ending)
  {
    hide Start, Legal, Inv, Enabled, After, Exec;
    Prefix(s, steps, k);
    AlwaysSound(s, steps[..k]);
    KnownAlways(s, steps[..k]);
    assert steps[..k + 1][..k] == steps[..k];
    Loss(Exec(s, steps[..k]), steps[k], Lost(s, steps[..k]), x);
  }

  lemma Loss(t: State, step: Step, lost: set<Uid>, x: Uid)
    requires KnownSound(t, lost) && x in LostBy(t, step) && x !in lost && Enabled(t, step.write)
    ensures var u := GivenUp(step).value; InProgress(t, u) && MadeExists(t, u) && t.objects[GenerationKey(u)].uid == x && (!Wanted(t, u) || t.ending)
  {
    SelfKnown(t, GivenUp(step).value, lost);
    hide KnownSound, Wanted, Retired, CapturesGone, Enrolled, AllSwept, Pinned, LeaseOpen, OthersRetired, Taken, Latest, Captured;
  }

  /** So with the managed provider, and while every run whose generation was created but is
      not yet recorded stays wanted, no two generations ever exist. */
  lemma {:induction false} OneGenerationIfKept(s: State, steps: seq<Step>)
    requires Start(s) && Legal(s, steps) && s.helm
    requires forall k, u :: 0 <= k <= |steps| && InProgress(Exec(s, steps[..k]), u) && MadeExists(Exec(s, steps[..k]), u) ==>
      Wanted(Exec(s, steps[..k]), u) && !Exec(s, steps[..k]).ending
    ensures !TwoExist(Exec(s, steps))
  {
    hide Start, Legal, Exec, Lost, MadeExists, InProgress, Wanted;
    NothingLost(s, steps, |steps|);
    assert steps[..|steps|] == steps;
    SameProviderAlways(s, steps);
    if TwoExist(Exec(s, steps)) {
      var u, v :| u != v && MadeExists(Exec(s, steps), u) && MadeExists(Exec(s, steps), v);
      GenerationsExclusive(s, steps, u, v);
    }
  }

  lemma {:induction false} NothingLost(s: State, steps: seq<Step>, k: nat)
    requires Start(s) && Legal(s, steps) && k <= |steps|
    requires forall k, u :: 0 <= k <= |steps| && InProgress(Exec(s, steps[..k]), u) && MadeExists(Exec(s, steps[..k]), u) ==>
      Wanted(Exec(s, steps[..k]), u) && !Exec(s, steps[..k]).ending
    ensures Lost(s, steps[..k]) == {}
  {
    hide Start, Legal, Exec, MadeExists, InProgress, Wanted;
    if k > 0 {
      NothingLost(s, steps, k - 1);
      assert steps[..k][..k - 1] == steps[..k - 1];
      if x :| x in Lost(s, steps[..k]) { LossCancelled(s, steps, k - 1, x); }
    }
  }
}
