/** What is left of experiments, and how each scaled workload came back. */
module ChaosHistory {
  import opened Common
  import opened ChaosProtocol
  import opened ChaosRuns

  // ---------------------------------------------------------------- whose marker an object bears

  ghost predicate Bears(s: State, key: Key, op: Op) { op != 0 && key in s.world.objects && s.world.objects[key].op == op }

  /** Markers stand where their operation was journaled, in namespaces that exist. */
  ghost predicate MarksHome(s: State) {
    forall key, op :: Bears(s, key, op) ==>
      && op in s.homes && s.homes[op].action.key == key && s.homes[op].action.kind != PodKill
      && Placeable(s.world, s.homes[op].action)
  }

  /** Operations are recorded for good with the action they were journaled for. */
  ghost predicate HomesSound(s: State) {
    && s.used == s.homes.Keys
    && (forall op :: op in s.homes ==> s.homes[op].action.key.kind == s.homes[op].action.kind && s.homes[op].action.nsUid < s.next)
    && (forall u, i :: HasAction(s, u, i) ==> AtHome(s, u, i))
  }

  ghost predicate AtHome(s: State, u: Uid, i: nat)
    requires HasAction(s, u, i)
  {
    var a := s.records[u].actions[i];
    a.op in s.homes && s.homes[a.op].uid == u && s.homes[a.op].i == i && SameTarget(a, s.homes[a.op].action)
  }

  /** The action of the operation is still to be rolled back. */
  ghost predicate Unfinished(s: State, op: Op) {
    op in s.homes && HasAction(s, s.homes[op].uid, s.homes[op].i) &&
    var a := s.records[s.homes[op].uid].actions[s.homes[op].i]; a.op == op && !a.cleaned
  }

  /** Where nothing is left to be rolled back, a marker stands in another namespace. */
  ghost predicate LeftElsewhere(s: State) {
    forall key, op :: Bears(s, key, op) && !Unfinished(s, op) && op in s.homes ==> !Current(s.world, s.homes[op].action)
  }

  lemma {:induction false} HomesHold(uid: Uid, actions: seq<Action>)
    requires forall i, j :: 0 <= i < j < |actions| ==> actions[i].op != actions[j].op
    ensures Homes(uid, actions).Keys == Ops(actions)
    ensures forall i :: 0 <= i < |actions| ==> actions[i].op in Homes(uid, actions) && Homes(uid, actions)[actions[i].op] == Home(uid, i, actions[i])
  {
    if actions != [] {
      var n := |actions| - 1;
      HomesHold(uid, actions[..n]);
      assert Ops(actions) == Ops(actions[..n]) + {actions[n].op};
    }
  }

  lemma IntendHomes(s: State, uid: Uid, r: Record)
    requires Inv(s) && HomesSound(s) && Enabled(s, Intend(uid, r))
    ensures HomesSound(Apply(s, Intend(uid, r)))
    ensures forall op :: op in s.homes ==> op in Apply(s, Intend(uid, r)).homes && Apply(s, Intend(uid, r)).homes[op] == s.homes[op]
  {
    hide Homes, Ops, PolicyFirst, SlotFree, EffectsSound, EffectsFade, JournalSound;
    HomesHold(uid, r.actions);
    OpsOf(r.actions);
    var t := Apply(s, Intend(uid, r));
    forall op | op in s.homes ensures op !in Ops(r.actions) {}
    forall op | op in t.homes ensures t.homes[op].action.key.kind == t.homes[op].action.kind && t.homes[op].action.nsUid < t.next {}
    forall u, i | HasAction(t, u, i) ensures AtHome(t, u, i) {
      if u == uid { assert r.actions[i].op in Homes(uid, r.actions); } else { assert HasAction(s, u, i) && AtHome(s, u, i); }
    }
  }

  lemma OpsOf(actions: seq<Action>)
    ensures forall op :: op in Ops(actions) <==> exists i :: 0 <= i < |actions| && actions[i].op == op
  {}

  /** Steps other than an admission leave the homes alone and change actions only in their
      progress. */
  ghost predicate Progressed(s: State, t: State) {
    && t.homes == s.homes && t.used == s.used && s.next <= t.next
    && forall u, i :: HasAction(t, u, i) ==> HasAction(s, u, i) && SameTarget(t.records[u].actions[i], s.records[u].actions[i])
  }

  lemma StepProgress(s: State, step: Step)
    requires Inv(s) && (step.Inside? ==> Enabled(s, step.write) && !step.write.Intend?)
    ensures Progressed(s, After(s, step))
  {
    hide Enabled, Apply, Inv, Progressed, Happen;
    match step
    case Outside(e) =>
      HappenRecords(s, e);
      SameRecords(s, Happen(s, e));
    case Inside(w) =>
      if w.Create? || w.Zero? || w.Restore? || w.Remove? || w.Hold? { WorldRecords(s, w); SameRecords(s, Apply(s, w)); }
      else { RecordProgress(s, w); }
  }

  lemma SameRecords(s: State, t: State)
    requires t.records == s.records && t.homes == s.homes && t.used == s.used && s.next <= t.next
    ensures Progressed(s, t)
  {
    forall u, i | HasAction(t, u, i) ensures HasAction(s, u, i) {}
  }

  lemma HappenRecords(s: State, e: Event)
    ensures var t := Happen(s, e); t.records == s.records && t.homes == s.homes && t.used == s.used && s.next <= t.next
  {
    hide Objects, Namespaces, Physical, Requests;
  }

  lemma WorldRecords(s: State, w: Write)
    requires w.Create? || w.Zero? || w.Restore? || w.Remove? || w.Hold?
    ensures var t := Apply(s, w); t.records == s.records && t.homes == s.homes && t.used == s.used && s.next <= t.next
  {
    hide Objects, Namespaces, Physical, Requests, Marked;
  }

  lemma RecordProgress(s: State, w: Write)
    requires Enabled(s, w) && (w.Progress? || w.StartCleanup? || w.Finish? || w.Forget? || w.Activate?)
    ensures Progressed(s, Apply(s, w))
  {
    hide RolledBack, Observed, JobSeen, AllCleaned, AppliedBefore, Finalized;
    var t := Apply(s, w);
    forall u, i | HasAction(t, u, i) ensures HasAction(s, u, i) {}
  }

  lemma ProgressHomes(s: State, t: State)
    requires HomesSound(s) && Progressed(s, t)
    ensures HomesSound(t)
  {
    forall u, i | HasAction(t, u, i) ensures AtHome(t, u, i) { assert AtHome(s, u, i); }
  }

  lemma HomesStep(s: State, step: Step)
    requires Inv(s) && HomesSound(s) && (step.Inside? ==> Enabled(s, step.write))
    ensures HomesSound(After(s, step))
    ensures forall op :: op in s.homes ==> op in After(s, step).homes && After(s, step).homes[op] == s.homes[op]
  {
    hide Inv, HomesSound, Enabled, Apply, Happen;
    if step.Inside? && step.write.Intend? {
      IntendHomes(s, step.write.uid, step.write.record);
    } else {
      StepProgress(s, step);
      ProgressHomes(s, After(s, step));
    }
  }

  // ---------------------------------------------------------------- giving and taking markers

  /** The step gives the object under `key` the marker `op`, by a fault of its own. */
  ghost predicate Gives(s: State, step: Step, key: Key, op: Op) {
    && step.Inside? && (step.write.Create? || step.write.Zero?) && HasAction(s, step.write.uid, step.write.i)
    && s.records[step.write.uid].actions[step.write.i].op == op && s.records[step.write.uid].actions[step.write.i].key == key
  }

  /** The step brings a scaled workload back. */
  ghost predicate Returns(s: State, step: Step, key: Key, op: Op) {
    && step.Inside? && step.write.Restore? && HasAction(s, step.write.uid, step.write.i)
    && s.records[step.write.uid].actions[step.write.i].op == op && s.records[step.write.uid].actions[step.write.i].key == key
  }

  lemma MarkGiven(s: State, step: Step, key: Key, op: Op)
    requires Inv(s) && (step.Inside? ==> Enabled(s, step.write)) && Bears(After(s, step), key, op) && !Bears(s, key, op)
    ensures Gives(s, step, key, op)
  {
    hide Namespaces, Physical, Requests, EffectsSound, EffectsFade, JournalSound, RolledBack, JobsGone, FreshJournal, JobSeen, Ops, Homes;
  }

  lemma MarkTaken(s: State, step: Step, key: Key, op: Op)
    requires Inv(s) && (step.Inside? ==> Enabled(s, step.write)) && Bears(s, key, op) && !Bears(After(s, step), key, op)
    ensures step.Outside? || Returns(s, step, key, op)
  {
    hide Namespaces, Physical, Requests, EffectsSound, EffectsFade, JournalSound, RolledBack, JobsGone, FreshJournal, JobSeen, Ops, Homes;
  }

  /** While an object bears a marker it keeps its identity, and its namespace stays. */
  lemma MarkStays(s: State, step: Step, key: Key, op: Op)
    requires Inv(s) && (step.Inside? ==> Enabled(s, step.write)) && Bears(s, key, op) && Bears(After(s, step), key, op)
    ensures After(s, step).world.objects[key].uid == s.world.objects[key].uid || Gives(s, step, key, op)
    ensures key.kind != HostPolicy && key.ns in s.world.namespaces ==>
      key.ns in After(s, step).world.namespaces && After(s, step).world.namespaces[key.ns] == s.world.namespaces[key.ns]
  {
    hide Inv, Enabled, Apply, Happen, Gives;
    match step
    case Outside(e) => EventStays(s, e, key, op);
    case Inside(w) =>
      InsideNamespaces(s, w);
      WriteStays(s, w, key, op);
  }

  lemma EventStays(s: State, e: Event, key: Key, op: Op)
    requires Bears(s, key, op) && Bears(Happen(s, e), key, op)
    ensures Happen(s, e).world.objects[key].uid == s.world.objects[key].uid
    ensures key.kind != HostPolicy && key.ns in s.world.namespaces ==>
      key.ns in Happen(s, e).world.namespaces && Happen(s, e).world.namespaces[key.ns] == s.world.namespaces[key.ns]
  {
    hide Physical, Requests;
  }

  lemma WriteStays(s: State, w: Write, key: Key, op: Op)
    requires Bears(s, key, op) && Bears(Apply(s, w), key, op)
    ensures Apply(s, w).world.objects[key].uid == s.world.objects[key].uid || Gives(s, Inside(w), key, op)
  {
    hide Physical, Requests, Namespaces, Ops, Homes;
  }

  /** Inside steps leave the namespaces alone. */
  lemma InsideNamespaces(s: State, w: Write)
    ensures Apply(s, w).world.namespaces == s.world.namespaces
  {
    hide Objects, Physical, Requests, Marked, Ops, Homes;
  }

  /** A namespace that is not the journaled one never becomes it again. */
  lemma NeverAgain(s: State, step: Step, a: Action)
    requires Inv(s) && a.nsUid < s.next && !Current(s.world, a)
    ensures !Current(After(s, step).world, a)
  {
    hide Objects, Physical, Requests, EffectsSound, EffectsFade, JournalSound;
    match step
    case Outside(e) =>
    case Inside(w) => InsideNamespaces(s, w);
  }

  // ---------------------------------------------------------------- what every run keeps

  ghost predicate Housed(s: State) {
    forall key :: key in s.world.objects ==> key.kind == HostPolicy || key.ns in s.world.namespaces
  }

  ghost predicate HistorySound(s: State) { HomesSound(s) && Housed(s) && MarksHome(s) && LeftElsewhere(s) }

  lemma HousedStep(s: State, step: Step)
    requires Housed(s) && HomesSound(s) && (step.Inside? ==> Enabled(s, step.write))
    ensures Housed(After(s, step))
  {
    hide Physical, Requests, RolledBack, JobsGone, FreshJournal, JobSeen, Ops, Homes, Observed, SlotFree, Finalized, AppliedBefore;
    match step
    case Outside(e) =>
    case Inside(w) =>
      InsideNamespaces(s, w);
      if w.Create? { assert AtHome(s, w.uid, w.i); }
  }

  lemma MarksStep(s: State, step: Step)
    requires Inv(s) && HistorySound(s) && (step.Inside? ==> Enabled(s, step.write)) && HomesSound(After(s, step)) && Housed(After(s, step))
    requires forall op :: op in s.homes ==> op in After(s, step).homes && After(s, step).homes[op] == s.homes[op]
    ensures MarksHome(After(s, step))
  {
    var t := After(s, step);
    hide Inv, Enabled, After, HomesSound, LeftElsewhere, Placeable, Bears;
    forall key, op | Bears(t, key, op)
      ensures op in t.homes && t.homes[op].action.key == key && t.homes[op].action.kind != PodKill && Placeable(t.world, t.homes[op].action)
    {
      if !Bears(s, key, op) {
        MarkGiven(s, step, key, op);
        GivenHome(s, step, key, op);
      }
      HousedPlace(t, key, op);
    }
  }

  lemma HousedPlace(t: State, key: Key, op: Op)
    requires Housed(t) && HomesSound(t) && Bears(t, key, op) && op in t.homes && t.homes[op].action.key == key
    ensures Placeable(t.world, t.homes[op].action)
  {}

  /** Whoever gives a marker is the action at its home, and is not yet rolled back. */
  lemma GivenHome(s: State, step: Step, key: Key, op: Op)
    requires Inv(s) && HomesSound(s) && Gives(s, step, key, op) && Enabled(s, step.write)
    ensures op in s.homes && s.homes[op].action.key == key && s.homes[op].action.kind != PodKill && Unfinished(s, op)
    ensures s.homes[op].uid == step.write.uid && s.homes[op].i == step.write.i
  {
    assert AtHome(s, step.write.uid, step.write.i);
    assert JournalSound(s.records[step.write.uid]);
    hide Numbered, OpsSound, EffectsSound, EffectsFade, OneSlot, ReplicasAgree, CleanedSuffix, PolicyFirst;
  }

  /** Only the save that says so ends the rollback of an action. */
  lemma UnfinishedStep(s: State, step: Step, op: Op)
    requires Inv(s) && (step.Inside? ==> Enabled(s, step.write)) && Unfinished(s, op) && !Unfinished(After(s, step), op)
    requires op in After(s, step).homes && After(s, step).homes[op] == s.homes[op]
    ensures step.Inside? && step.write.Progress? && step.write.uid == s.homes[op].uid && step.write.i == s.homes[op].i && step.write.action.cleaned
  {
    hide Enabled, Apply, Inv, Happen;
    match step
    case Outside(e) => HappenRecords(s, e);
    case Inside(w) =>
      if w.Create? || w.Zero? || w.Restore? || w.Remove? || w.Hold? { WorldRecords(s, w); }
      else { UnfinishedRecord(s, w, op); }
  }

  lemma UnfinishedRecord(s: State, w: Write, op: Op)
    requires Inv(s) && Enabled(s, w) && (w.Intend? || w.Progress? || w.StartCleanup? || w.Finish? || w.Forget? || w.Activate?)
    requires Unfinished(s, op) && !Unfinished(Apply(s, w), op) && op in Apply(s, w).homes && Apply(s, w).homes[op] == s.homes[op]
    ensures w.Progress? && w.uid == s.homes[op].uid && w.i == s.homes[op].i && w.action.cleaned
  {
    var u := s.homes[op].uid;
    assert JournalSound(s.records[u]);
    hide RolledBack, Observed, JobSeen, AppliedBefore, Finalized, Homes, Ops, FreshJournal, SlotFree, Numbered, OpsSound, EffectsSound, EffectsFade;
    hide OneSlot, ReplicasAgree, CleanedSuffix, PolicyFirst;
  }

  lemma ElsewhereStep(s: State, step: Step)
    requires Inv(s) && HistorySound(s) && (step.Inside? ==> Enabled(s, step.write)) && HomesSound(After(s, step))
    requires forall op :: op in s.homes ==> op in After(s, step).homes && After(s, step).homes[op] == s.homes[op]
    ensures LeftElsewhere(After(s, step))
  {
    var t := After(s, step);
    hide Inv, Enabled, Apply, Happen, HomesSound, Unfinished, Bears, Current, Placeable, Housed;
    forall key, op | Bears(t, key, op) && !Unfinished(t, op) && op in t.homes ensures !Current(t.world, t.homes[op].action) {
      if !Bears(s, key, op) {
        MarkGiven(s, step, key, op);
        GivenHome(s, step, key, op);
        UnfinishedStep(s, step, op);
        assert false;
      } else if Unfinished(s, op) {
        UnfinishedStep(s, step, op);
        EndedElsewhere(s, step.write, key, op);
        InsideNamespaces(s, step.write);
        SameCurrent(s.world, t.world, s.homes[op].action);
      } else {
        assert !Current(s.world, s.homes[op].action);
        HomeNumbered(s, op);
        NeverAgain(s, step, s.homes[op].action);
      }
    }
  }

  lemma HomeNumbered(s: State, op: Op)
    requires HomesSound(s) && op in s.homes
    ensures s.homes[op].action.nsUid < s.next
  {}

  lemma SameCurrent(w: World, later: World, a: Action)
    requires later.namespaces == w.namespaces
    ensures Current(later, a) == Current(w, a)
  {}

  lemma EndedElsewhere(s: State, w: Write, key: Key, op: Op)
    requires Inv(s) && HomesSound(s) && MarksHome(s) && Bears(s, key, op) && Unfinished(s, op) && Enabled(s, w)
    requires w.Progress? && w.uid == s.homes[op].uid && w.i == s.homes[op].i && w.action.cleaned
    ensures !Current(s.world, s.homes[op].action)
  {
    var a := s.records[w.uid].actions[w.i];
    assert AtHome(s, w.uid, w.i);
    assert JournalSound(s.records[w.uid]);
    hide Numbered, OpsSound, EffectsSound, EffectsFade, OneSlot, ReplicasAgree, CleanedSuffix, PolicyFirst;
    RolledBackGone(s, w.uid, w.i, w.at);
  }

  lemma {:induction false} HistoryAlways(s: State, steps: seq<Step>)
    requires Start(s) && Legal(s, steps)
    ensures HistorySound(Exec(s, steps))
  {
    if steps == [] {
      StartHistory(s);
    } else {
      hide Start, Inv, Enabled, After, HomesSound, Housed, MarksHome, LeftElsewhere;
      var n := |steps| - 1;
      var t := Exec(s, steps[..n]);
      HistoryAlways(s, steps[..n]);
      AlwaysSound(s, steps[..n]);
      HomesStep(t, steps[n]);
      HousedStep(t, steps[n]);
      MarksStep(t, steps[n]);
      ElsewhereStep(t, steps[n]);
    }
  }

  lemma StartHistory(s: State)
    requires Start(s)
    ensures HistorySound(s)
  {}

  // ---------------------------------------------------------------- since when an object is marked

  /** Step `k` gave the marker, and the object has borne it since, under one identity. */
  ghost predicate MarkedSince(s: State, steps: seq<Step>, k: nat, key: Key, op: Op) {
    && k < |steps| && Gives(Exec(s, steps[..k]), steps[k], key, op)
    && forall m :: k < m <= |steps| ==> SameBearer(Exec(s, steps[..m]), Exec(s, steps), key, op)
  }

  ghost predicate SameBearer(t: State, u: State, key: Key, op: Op) {
    Bears(t, key, op) && Bears(u, key, op) && t.world.objects[key].uid == u.world.objects[key].uid
  }

  lemma {:induction false} MarkOrigin(s: State, steps: seq<Step>, key: Key, op: Op) returns (k: nat)
    requires Start(s) && Legal(s, steps) && Bears(Exec(s, steps), key, op)
    ensures MarkedSince(s, steps, k, key, op)
  {
    hide Start, Inv, Enabled, After, Gives;
    if steps == [] {
      StartUnmarked(s, key, op);
    } else {
      var n := |steps| - 1;
      var t := Exec(s, steps[..n]);
      AlwaysSound(s, steps[..n]);
      assert steps[..|steps|] == steps;
      if Gives(t, steps[n], key, op) {
        k := n;
      } else {
        if !Bears(t, key, op) { MarkGiven(t, steps[n], key, op); }
        MarkStays(t, steps[n], key, op);
        k := MarkOrigin(s, steps[..n], key, op);
        assert steps[..n][..k] == steps[..k];
        forall m | k < m <= |steps| ensures SameBearer(Exec(s, steps[..m]), Exec(s, steps), key, op) {
          if m <= n { assert steps[..n][..m] == steps[..m]; }
        }
      }
    }
  }

  lemma StartUnmarked(s: State, key: Key, op: Op)
    requires Start(s)
    ensures !Bears(s, key, op)
  {}

  lemma {:induction false} HomesLater(s: State, steps: seq<Step>, l: nat, op: Op)
    requires Start(s) && Legal(s, steps) && l <= |steps| && op in Exec(s, steps[..l]).homes
    ensures op in Exec(s, steps).homes && Exec(s, steps).homes[op] == Exec(s, steps[..l]).homes[op]
  {
    hide Start, Inv, Enabled, After, HistorySound;
    if l == |steps| {
      assert steps[..l] == steps;
    } else {
      var n := |steps| - 1;
      assert steps[..n][..l] == steps[..l];
      HomesLater(s, steps[..n], l, op);
      AlwaysSound(s, steps[..n]);
      HistoryAlways(s, steps[..n]);
      HistoryHomes(Exec(s, steps[..n]));
      HomesStep(Exec(s, steps[..n]), steps[n]);
    }
  }

  lemma HistoryHomes(s: State)
    requires HistorySound(s)
    ensures HomesSound(s) && Housed(s) && MarksHome(s) && LeftElsewhere(s)
  {}

  // ---------------------------------------------------------------- faults in replaced namespaces

  /** Step `k` gave the marker in a namespace that was not the journaled one any more. */
  ghost predicate GivenElsewhere(s: State, steps: seq<Step>, k: nat, key: Key, op: Op) {
    && k < |steps| && Gives(Exec(s, steps[..k]), steps[k], key, op)
    && !Current(Exec(s, steps[..k]).world, Exec(s, steps[..k]).records[steps[k].write.uid].actions[steps[k].write.i])
  }

  lemma {:induction false} NeverCurrent(s: State, steps: seq<Step>, k: nat, a: Action)
    requires Start(s) && Legal(s, steps) && k <= |steps| && a.nsUid < Exec(s, steps[..k]).next && !Current(Exec(s, steps[..k]).world, a)
    ensures a.nsUid < Exec(s, steps).next && !Current(Exec(s, steps).world, a)
  {
    hide Start, Inv, Enabled, After, Current;
    if k == |steps| {
      assert steps[..k] == steps;
    } else {
      var n := |steps| - 1;
      assert steps[..n][..k] == steps[..k];
      NeverCurrent(s, steps[..n], k, a);
      AlwaysSound(s, steps[..n]);
      NeverAgain(Exec(s, steps[..n]), steps[n], a);
      NextGrows(Exec(s, steps[..n]), steps[n]);
    }
  }

  lemma NextGrows(s: State, step: Step)
    ensures s.next <= After(s, step).next
  {
    hide Objects, Namespaces, Physical, Requests, Marked, Ops, Homes;
  }

  /** While the object bears its marker its namespace does not change. */
  lemma {:induction false} CurrentSince(s: State, steps: seq<Step>, k: nat, m: nat, key: Key, op: Op, a: Action)
    requires Start(s) && Legal(s, steps) && MarkedSince(s, steps, k, key, op) && k < m <= |steps| && a.key == key && a.kind == key.kind
    ensures Current(Exec(s, steps[..m]).world, a) == Current(Exec(s, steps[..k]).world, a)
    decreases m
  {
    hide Start, Inv, Enabled, After, Exec, Legal, Gives, HistorySound, Bears;
    Prefix(s, steps, m - 1);
    AlwaysSound(s, steps[..m - 1]);
    var t := Exec(s, steps[..m - 1]);
    if m == k + 1 {
      GivesInside(t, steps[k], key, op);
    } else {
      CurrentSince(s, steps, k, m - 1, key, op, a);
      HistoryAlways(s, steps[..m - 1]);
      HistoryHomes(t);
      assert Bears(t, key, op) && Bears(Exec(s, steps[..m]), key, op);
      BearerHoused(t, key, op);
      MarkStays(t, steps[m - 1], key, op);
    }
  }

  lemma GivesInside(t: State, step: Step, key: Key, op: Op)
    requires Gives(t, step, key, op)
    ensures After(t, step).world.namespaces == t.world.namespaces
  {
    InsideNamespaces(t, step.write);
  }

  lemma BearerHoused(t: State, key: Key, op: Op)
    requires Housed(t) && Bears(t, key, op)
    ensures key.kind == HostPolicy || key.ns in t.world.namespaces
  {}

  /** A marked object stands in a namespace other than the journaled one exactly when it
      was marked after the namespace had been replaced. */
  lemma ElsewhereExactly(s: State, steps: seq<Step>, key: Key, op: Op)
    requires Start(s) && Legal(s, steps) && Bears(Exec(s, steps), key, op)
    ensures var t := Exec(s, steps);
      && op in t.homes && t.homes[op].action.key == key
      && (!Current(t.world, t.homes[op].action) <==> exists k :: GivenElsewhere(s, steps, k, key, op))
  {
    hide Start, Inv, Enabled, After, Exec, Legal, HistorySound, Bears, Current, Gives;
    var t := Exec(s, steps);
    AlwaysSound(s, steps);
    HistoryAlways(s, steps);
    HistoryHomes(t);
    var a := t.homes[op].action;
    HomeKind(t, op);
    var k := MarkOrigin(s, steps, key, op);
    GiverAction(s, steps, k, key, op);
    CurrentSince(s, steps, k, |steps|, key, op, a);
    assert steps[..|steps|] == steps;
    if !Current(t.world, a) { assert GivenElsewhere(s, steps, k, key, op); }
    if exists l: nat :: GivenElsewhere(s, steps, l, key, op) {
      var l: nat :| GivenElsewhere(s, steps, l, key, op);
      GiverAction(s, steps, l, key, op);
      NeverCurrent(s, steps, l, a);
    }
  }

  lemma HomeKind(t: State, op: Op)
    requires HomesSound(t) && op in t.homes
    ensures t.homes[op].action.kind == t.homes[op].action.key.kind && t.homes[op].action.nsUid < t.next
  {}

  /** The action that gives a marker is the one its operation was journaled for. */
  lemma GiverAction(s: State, steps: seq<Step>, k: nat, key: Key, op: Op)
    requires Start(s) && Legal(s, steps) && k < |steps| && Gives(Exec(s, steps[..k]), steps[k], key, op)
    ensures var t := Exec(s, steps[..k]); var u := Exec(s, steps); var w := steps[k].write;
      && op in u.homes && u.homes[op].uid == w.uid && u.homes[op].i == w.i && HasAction(t, w.uid, w.i)
      && SameTarget(t.records[w.uid].actions[w.i], u.homes[op].action) && u.homes[op].action.nsUid < t.next
      && forall world :: Current(world, t.records[w.uid].actions[w.i]) == Current(world, u.homes[op].action)
  {
    var t := Exec(s, steps[..k]);
    Prefix(s, steps, k);
    AlwaysSound(s, steps[..k]);
    HistoryAlways(s, steps[..k]);
    hide Start, Inv, Enabled, After, Exec, Legal;
    GivenHome(t, steps[k], key, op);
    assert AtHome(t, steps[k].write.uid, steps[k].write.i);
    HomesLater(s, steps, k, op);
  }

  /** Once a fault was rolled back, or its whole experiment forgotten, an object that
      bears its marker is left exactly when it was marked in a namespace that had replaced
      the journaled one, and nobody has unmarked or removed it since. */
  lemma LeftoversExactly(s: State, steps: seq<Step>, key: Key, op: Op)
    requires Start(s) && Legal(s, steps) && !Unfinished(Exec(s, steps), op)
    ensures Bears(Exec(s, steps), key, op) <==> exists k :: GivenElsewhere(s, steps, k, key, op) && MarkedSince(s, steps, k, key, op)
    ensures Bears(Exec(s, steps), key, op) ==>
      var t := Exec(s, steps); op in t.homes && key.ns in t.world.namespaces && t.world.namespaces[key.ns] != t.homes[op].action.nsUid
  {
    hide Start, Inv, Enabled, After, Exec, Legal, HistorySound, Bears, Gives, Unfinished, SameBearer;
    var t := Exec(s, steps);
    if Bears(t, key, op) {
      AlwaysSound(s, steps);
      HistoryAlways(s, steps);
      HistoryHomes(t);
      var a := t.homes[op].action;
      assert !Current(t.world, a);
      HomeKind(t, op);
      BearerHoused(t, key, op);
      var k := MarkOrigin(s, steps, key, op);
      GiverAction(s, steps, k, key, op);
      CurrentSince(s, steps, k, |steps|, key, op, a);
      assert steps[..|steps|] == steps;
      assert GivenElsewhere(s, steps, k, key, op);
    }
    if exists k: nat :: GivenElsewhere(s, steps, k, key, op) && MarkedSince(s, steps, k, key, op) {
      var k: nat :| GivenElsewhere(s, steps, k, key, op) && MarkedSince(s, steps, k, key, op);
      SinceBears(s, steps, k, key, op);
    }
  }

  lemma SinceBears(s: State, steps: seq<Step>, k: nat, key: Key, op: Op)
    requires MarkedSince(s, steps, k, key, op)
    ensures Bears(Exec(s, steps), key, op)
  {
    assert SameBearer(Exec(s, steps[..k + 1]), Exec(s, steps), key, op);
  }

  // ---------------------------------------------------------------- scaled workloads come back

  /** Step `l` scaled the workload of the action to zero, and from then on it bore the
      marker, under one identity, until step `k` brought it back to the count it had. */
  ghost predicate RoundTrip(s: State, steps: seq<Step>, l: nat, k: nat, key: Key, op: Op) {
    && l < k < |steps| && steps[l].Inside? && steps[k].Inside? && steps[l].write.Zero? && steps[k].write == Restore(steps[l].write.uid, steps[l].write.i)
    && (forall m :: l < m <= k ==> SameBearer(Exec(s, steps[..m]), Exec(s, steps[..k]), key, op))
    && var before := Exec(s, steps[..l]).world.objects; var after := Exec(s, steps[..k + 1]).world.objects;
      && key in before && key in after && before[key].op == 0 && after[key].op == 0
      && after[key].replicas == before[key].replicas && after[key].uid == before[key].uid
  }

  /** Every restoration gives back exactly what the same action had taken. */
  lemma RestoreReturns(s: State, steps: seq<Step>, k: nat) returns (l: nat, key: Key, op: Op)
    requires Start(s) && Legal(s, steps) && k < |steps| && steps[k].Inside? && steps[k].write.Restore?
    ensures RoundTrip(s, steps, l, k, key, op)
  {
    hide Start, Inv, Enabled, Apply, Happen, Exec, Legal, HistorySound, Bears, SameBearer;
    var t := Exec(s, steps[..k]);
    Prefix(s, steps, k);
    AlwaysSound(s, steps[..k]);
    HistoryAlways(s, steps[..k]);
    HistoryHomes(t);
    key, op := RestoreBears(t, steps[k].write);
    l := MarkOrigin(s, steps[..k], key, op);
    assert steps[..k][..l] == steps[..l] && steps[..k][l] == steps[l];
    var b := Exec(s, steps[..l]);
    Prefix(s, steps, l);
    AlwaysSound(s, steps[..l]);
    GiverAction(s, steps[..k], l, key, op);
    forall m | l < m <= k ensures SameBearer(Exec(s, steps[..m]), t, key, op) { assert steps[..k][..m] == steps[..m]; }
    RestoreHome(t, steps[k].write, key, op);
    ZeroTook(b, steps[l].write, key, op, t.homes[op].action);
    assert SameBearer(Exec(s, steps[..l + 1]), t, key, op);
    SameUid(Exec(s, steps[..l + 1]), t, key, op);
  }

  lemma SameUid(t: State, u: State, key: Key, op: Op)
    requires SameBearer(t, u, key, op)
    ensures key in t.world.objects && key in u.world.objects && t.world.objects[key].uid == u.world.objects[key].uid
  {}

  lemma RestoreBears(t: State, w: Write) returns (key: Key, op: Op)
    requires Inv(t) && Enabled(t, w) && w.Restore?
    ensures Bears(t, key, op) && HasAction(t, w.uid, w.i) && t.records[w.uid].actions[w.i].key == key && t.records[w.uid].actions[w.i].op == op
  {
    key, op := t.records[w.uid].actions[w.i].key, t.records[w.uid].actions[w.i].op;
    hide Numbered, EffectsSound, EffectsFade, OneSlot, ReplicasAgree, JournalSound;
  }

  lemma RestoreHome(t: State, w: Write, key: Key, op: Op)
    requires HomesSound(t) && Enabled(t, w) && w.Restore? && HasAction(t, w.uid, w.i)
    requires t.records[w.uid].actions[w.i].key == key && t.records[w.uid].actions[w.i].op == op
    ensures op in t.homes && t.homes[op].uid == w.uid && t.homes[op].i == w.i && t.homes[op].action.kind == Scale
    ensures var u := Apply(t, w); key in u.world.objects && u.world.objects[key].op == 0 && u.world.objects[key].replicas == t.homes[op].action.original
    ensures key in t.world.objects && Apply(t, w).world.objects[key].uid == t.world.objects[key].uid
  {
    assert AtHome(t, w.uid, w.i);
  }

  lemma ZeroTook(b: State, w: Write, key: Key, op: Op, home: Action)
    requires Inv(b) && Enabled(b, w) && Gives(b, Inside(w), key, op) && SameTarget(b.records[w.uid].actions[w.i], home) && home.kind == Scale
    ensures w.Zero? && key in b.world.objects && b.world.objects[key].op == 0 && b.world.objects[key].replicas == home.original
    ensures key in Apply(b, w).world.objects && Apply(b, w).world.objects[key].uid == b.world.objects[key].uid
  {
    hide Inv;
  }

  /** Somebody else took the marker of `key` away at step `m`. */
  ghost predicate TakenByOthers(s: State, steps: seq<Step>, m: nat, key: Key, op: Op) {
    m < |steps| && steps[m].Outside? && Bears(Exec(s, steps[..m]), key, op) && !Bears(Exec(s, steps[..m + 1]), key, op)
  }

  ghost predicate ReturnedAt(s: State, steps: seq<Step>, m: nat, key: Key, op: Op) {
    m < |steps| && Returns(Exec(s, steps[..m]), steps[m], key, op)
  }

  /** A workload that step `l` scaled down, and whose action counts as rolled back, was
      brought back by the same action, unless somebody else took the marker or the workload
      away, or the namespace had already been replaced when it was scaled down. */
  lemma ScaledComesBack(s: State, steps: seq<Step>, l: nat, key: Key, op: Op)
    requires Start(s) && Legal(s, steps) && l < |steps| && steps[l].Inside? && steps[l].write.Zero? && Gives(Exec(s, steps[..l]), steps[l], key, op)
    requires !Unfinished(Exec(s, steps), op)
    ensures (exists m :: l < m && (ReturnedAt(s, steps, m, key, op) || TakenByOthers(s, steps, m, key, op))) || GivenElsewhere(s, steps, l, key, op)
  {
    hide Start, Inv, Enabled, After, Exec, Legal, HistorySound, Bears, Gives, Unfinished, ReturnedAt, TakenByOthers, SameBearer;
    if forall m: nat :: l < m ==> !ReturnedAt(s, steps, m, key, op) && !TakenByOthers(s, steps, m, key, op) {
      StillMarked(s, steps, l, |steps|, key, op);
      assert steps[..|steps|] == steps;
      LeftoversExactly(s, steps, key, op);
      var k: nat :| GivenElsewhere(s, steps, k, key, op) && MarkedSince(s, steps, k, key, op);
      GiverAction(s, steps, k, key, op);
      GiverAction(s, steps, l, key, op);
      if l < k { NotGivenAgain(s, steps, l, k, key, op); }
      NeverCurrentAt(s, steps, k, l, Exec(s, steps).homes[op].action);
    }
  }

  lemma NeverCurrentAt(s: State, steps: seq<Step>, k: nat, l: nat, a: Action)
    requires Start(s) && Legal(s, steps) && k <= l < |steps| && a.nsUid < Exec(s, steps[..k]).next && !Current(Exec(s, steps[..k]).world, a)
    ensures !Current(Exec(s, steps[..l]).world, a)
  {
    hide Start, Exec, Legal, Current;
    Prefix(s, steps, l);
    assert steps[..l][..k] == steps[..k];
    NeverCurrent(s, steps[..l], k, a);
  }

  /** While nobody takes it, the marker that step `l` gave stays. */
  lemma {:induction false} StillMarked(s: State, steps: seq<Step>, l: nat, m: nat, key: Key, op: Op)
    requires Start(s) && Legal(s, steps) && l < m <= |steps| && Gives(Exec(s, steps[..l]), steps[l], key, op)
    requires forall k: nat :: l < k ==> !ReturnedAt(s, steps, k, key, op) && !TakenByOthers(s, steps, k, key, op)
    ensures Bears(Exec(s, steps[..m]), key, op)
    decreases m
  {
    hide Start, Inv, Enabled, After, Exec, Legal, Bears, Returns;
    Prefix(s, steps, m - 1);
    AlwaysSound(s, steps[..m - 1]);
    var t := Exec(s, steps[..m - 1]);
    if m == l + 1 {
      GivenBears(t, steps[l], key, op);
    } else {
      StillMarked(s, steps, l, m - 1, key, op);
      assert !ReturnedAt(s, steps, m - 1, key, op) && !TakenByOthers(s, steps, m - 1, key, op);
      if !Bears(Exec(s, steps[..m]), key, op) { MarkTaken(t, steps[m - 1], key, op); }
    }
  }

  lemma GivenBears(t: State, step: Step, key: Key, op: Op)
    requires Inv(t) && Gives(t, step, key, op) && Enabled(t, step.write)
    ensures Bears(After(t, step), key, op)
  {
    hide Numbered, EffectsSound, EffectsFade, OneSlot, ReplicasAgree, JournalSound;
  }

  /** A scaled workload that still bears the marker is not scaled down again. */
  lemma NotGivenAgain(s: State, steps: seq<Step>, l: nat, k: nat, key: Key, op: Op)
    requires Start(s) && Legal(s, steps) && l < k < |steps| && steps[l].Inside? && steps[l].write.Zero?
    requires Gives(Exec(s, steps[..l]), steps[l], key, op)
    requires forall m: nat :: l < m ==> !ReturnedAt(s, steps, m, key, op) && !TakenByOthers(s, steps, m, key, op)
    ensures !Gives(Exec(s, steps[..k]), steps[k], key, op)
  {
    hide Start, Inv, Enabled, After, Exec, Legal, Bears, ReturnedAt, TakenByOthers;
    StillMarked(s, steps, l, k, key, op);
    Prefix(s, steps, k);
    AlwaysSound(s, steps[..k]);
    if Gives(Exec(s, steps[..k]), steps[k], key, op) { GivesUnmarked(Exec(s, steps[..k]), steps[k], key, op); }
  }

  lemma GivesUnmarked(t: State, step: Step, key: Key, op: Op)
    requires Gives(t, step, key, op) && Enabled(t, step.write)
    ensures !Bears(t, key, op)
  {}

  // ---------------------------------------------------------------- policies go last

  /** Step `l` saved that action `j` of the experiment was rolled back. */
  ghost predicate CleanedAt(steps: seq<Step>, l: nat, u: Uid, j: nat) {
    l < |steps| && steps[l].Inside? && steps[l].write.Progress? && steps[l].write.uid == u && steps[l].write.i == j && steps[l].write.action.cleaned
  }

  lemma CleanedStep(s: State, step: Step, u: Uid, j: nat)
    requires step.Inside? ==> Enabled(s, step.write)
    requires HasAction(After(s, step), u, j) && After(s, step).records[u].actions[j].cleaned
    ensures || (HasAction(s, u, j) && s.records[u].actions[j].cleaned && s.records[u].version <= After(s, step).records[u].version)
            || (CleanedAt([step], 0, u, j) && After(s, step).records[u].version == s.next)
            || (HasAction(s, u, j) && s.records[u].actions[j].cleaned && After(s, step).records[u].version == s.next)
  {
    hide Enabled, Apply, Happen, HasAction, CleanedAt;
    match step
    case Outside(e) => HappenRecords(s, e); HasSame(s, After(s, step), u, j);
    case Inside(w) =>
      if w.Create? || w.Zero? || w.Restore? || w.Remove? || w.Hold? { WorldRecords(s, w); HasSame(s, After(s, step), u, j); }
      else { CleanedRecord(s, w, u, j); }
  }

  lemma HasSame(s: State, t: State, u: Uid, j: nat)
    requires t.records == s.records
    ensures HasAction(t, u, j) == HasAction(s, u, j)
  {}

  lemma CleanedRecord(s: State, w: Write, u: Uid, j: nat)
    requires Enabled(s, w) && (w.Intend? || w.Progress? || w.StartCleanup? || w.Finish? || w.Forget? || w.Activate?)
    requires HasAction(Apply(s, w), u, j) && Apply(s, w).records[u].actions[j].cleaned
    ensures || (HasAction(s, u, j) && s.records[u].actions[j].cleaned && (Apply(s, w).records[u] == s.records[u] || Apply(s, w).records[u].version == s.next))
            || (CleanedAt([Inside(w)], 0, u, j) && Apply(s, w).records[u].version == s.next)
  {
    hide RolledBack, Observed, JobSeen, AllCleaned, AppliedBefore, Finalized, SlotFree, PolicyFirst, Ops, Homes;
  }

  /** Whatever the record calls rolled back was saved so, no later than its version. */
  lemma {:induction false} CleanedSaved(s: State, steps: seq<Step>, u: Uid, j: nat) returns (l: nat)
    requires Start(s) && Legal(s, steps)
    requires HasAction(Exec(s, steps), u, j) && Exec(s, steps).records[u].actions[j].cleaned
    ensures CleanedAt(steps, l, u, j) && Exec(s, steps[..l]).next <= Exec(s, steps).records[u].version
  {
    hide Start, Inv, Enabled, After;
    if steps == [] {
      NoRecords(s, u);
    } else {
      var n := |steps| - 1;
      var t := Exec(s, steps[..n]);
      CleanedStep(t, steps[n], u, j);
      if HasAction(t, u, j) && t.records[u].actions[j].cleaned {
        l := CleanedSaved(s, steps[..n], u, j);
        AlwaysSound(s, steps[..n]);
        VersionBelow(t, u);
        assert steps[..n][..l] == steps[..l];
      } else {
        l := n;
      }
    }
  }

  lemma NoRecords(s: State, u: Uid)
    requires Start(s)
    ensures u !in s.records
  {}

  lemma VersionBelow(t: State, u: Uid)
    requires Inv(t) && u in t.records
    ensures t.records[u].version < t.next
  {}

  /** A deny policy is asked to go only when every Job of its namespace had been saved as
      rolled back at an earlier step, and at a moment after all these saves none of them
      had a physical Pod left. */
  lemma PolicyRemovedLast(s: State, steps: seq<Step>, k: nat, j: nat)
    requires Start(s) && Legal(s, steps) && k < |steps| && steps[k].Inside? && steps[k].write.Remove?
    requires var t := Exec(s, steps[..k]); HasAction(t, steps[k].write.uid, steps[k].write.i) && HasAction(t, steps[k].write.uid, j)
    requires var w := steps[k].write; var r := Exec(s, steps[..k]).records[w.uid];
      r.actions[w.i].kind == HostPolicy && r.actions[j].kind == Job && r.actions[j].key.ns == r.actions[w.i].key.ns
    ensures var t := Exec(s, steps[..k]); var w := steps[k].write; var job := t.records[w.uid].actions[j];
      && w.at in t.past && (job.key.ns, job.key.name) !in t.past[w.at].physical
      && exists l: nat :: CleanedAt(steps[..k], l, w.uid, j) && Exec(s, steps[..l]).next <= w.at
  {
    hide Start, Exec, Legal, Enabled, Inv;
    Prefix(s, steps, k);
    var t := Exec(s, steps[..k]);
    var w := steps[k].write;
    PolicyGuard(t, w, j);
    var l := CleanedSaved(s, steps[..k], w.uid, j);
    assert steps[..k][..l] == steps[..l];
  }

  lemma PolicyGuard(t: State, w: Write, j: nat)
    requires Enabled(t, w) && w.Remove? && HasAction(t, w.uid, j) && t.records[w.uid].actions[w.i].kind == HostPolicy
    requires var r := t.records[w.uid]; r.actions[j].kind == Job && r.actions[j].key.ns == r.actions[w.i].key.ns
    ensures w.at in t.past && t.records[w.uid].version <= w.at && t.records[w.uid].actions[j].cleaned
    ensures var job := t.records[w.uid].actions[j]; (job.key.ns, job.key.name) !in t.past[w.at].physical
  {}

  // ---------------------------------------------------------------- a fault left in a replaced namespace

  lemma WriteStep(origin: State, log: seq<Step>, s: State, w: Write) returns (more: seq<Step>, t: State)
    requires Recorded(origin, log, s) && Enabled(s, w)
    ensures Recorded(origin, more, t) && t == Apply(s, w)
  {
    hide Recorded, Enabled, Apply;
    more, t := log + [Inside(w)], Apply(s, w);
    RecordStep(origin, log, s, Inside(w));
  }

  lemma EventStep(origin: State, log: seq<Step>, s: State, e: Event) returns (more: seq<Step>, t: State)
    requires Recorded(origin, log, s)
    ensures Recorded(origin, more, t) && t == Happen(s, e)
  {
    hide Recorded, Happen;
    more, t := log + [Outside(e)], Happen(s, e);
    RecordStep(origin, log, s, Outside(e));
  }

  lemma SoundNow(origin: State, log: seq<Step>, s: State)
    requires Recorded(origin, log, s)
    ensures Inv(s)
  {
    hide Start, Legal, Exec, Inv;
    AlwaysSound(origin, log);
  }

  const EMPTY := World(map[], map[1 := 3], {})

  /** Experiment 10 waits; its Job is to run in namespace 1. */
  const WAITING: State := State(map[10 := Request(7, false, false)], map[], EMPTY, {}, 30, map[29 := EMPTY], map[])

  function Planned(kind: Kind, name: Name, op: Op): Action { Action(kind, Key(kind, 1, name), 3, 0, op, 0, false, false) }

  const PLAN: seq<Action> := [Planned(HostPolicy, 1, 5), Planned(Account, 2, 6), Planned(Job, 2, 7)]

  /** The experiment acts: some of its actions were applied. */
  ghost predicate Acts(s: State, i: nat) {
    && s.requests == map[10 := Request(7, true, false)] && 10 in s.records && !s.records[10].cleanup && !s.records[10].finished
    && i <= 3 && |s.records[10].actions| == 3
    && (forall j :: 0 <= j < 3 ==> SameTarget(s.records[10].actions[j], PLAN[j]) && !s.records[10].actions[j].cleaned)
    && (forall j :: 0 <= j < i ==> s.records[10].actions[j].applied)
    && (forall j :: i <= j < 3 ==> s.records[10].actions[j] == PLAN[j] && PLAN[j].key !in s.world.objects)
  }

  lemma Admitted() returns (log: seq<Step>, s: State)
    ensures Recorded(WAITING, log, s) && Acts(s, 0) && s.world == EMPTY
  {
    WaitingStarts();
    PlanFresh();
    hide Recorded, Homes, Ops, FreshJournal;
    log, s := WriteStep(WAITING, [], WAITING, Intend(10, NEW));
    log, s := HoldStep(WAITING, log, s);
  }

  const NEW := Record(7, PLAN, false, false, false, 0)

  lemma WaitingStarts()
    ensures Recorded(WAITING, [], WAITING)
  {}

  lemma PlanFresh()
    ensures FreshJournal(WAITING, NEW)
  {
    assert PLAN[0].kind == HostPolicy && PLAN[0].key.ns == PLAN[2].key.ns;
  }

  lemma HoldStep(origin: State, log: seq<Step>, s: State) returns (more: seq<Step>, t: State)
    requires Recorded(origin, log, s) && 10 in s.records && s.records[10] == NEW.(version := s.records[10].version)
    requires s.requests == map[10 := Request(7, false, false)] && s.world == EMPTY
    ensures Recorded(origin, more, t) && Acts(t, 0) && t.world == EMPTY
  {
    hide Recorded;
    more, t := WriteStep(origin, log, s, Hold(10, true));
  }

  lemma CreateStep(origin: State, log: seq<Step>, s: State, i: nat) returns (more: seq<Step>, t: State)
    requires Recorded(origin, log, s) && Acts(s, i) && i < 3 && 1 in s.world.namespaces
    ensures Recorded(origin, more, t) && t.requests == s.requests && t.records == s.records && t.next == s.next + 1
    ensures t.world == s.world.(objects := s.world.objects[PLAN[i].key := Object(s.next, s.next, PLAN[i].op, 0, false, true)])
  {
    hide Recorded;
    more, t := WriteStep(origin, log, s, Create(10, i));
  }

  /** One action is created and recorded. */
  lemma ActStep(origin: State, log: seq<Step>, s: State, i: nat) returns (more: seq<Step>, t: State)
    requires Recorded(origin, log, s) && Acts(s, i) && i < 3 && 1 in s.world.namespaces
    ensures Recorded(origin, more, t) && Acts(t, i + 1) && t.world.namespaces == s.world.namespaces
  {
    hide Recorded, Acts, Inv;
    SoundNow(origin, log, s);
    ActsNext(s, i);
    more, t := CreateStep(origin, log, s, i);
    ActsProgress(s, t, i);
    var w := Progress(10, i, PLAN[i].(uid := s.next, applied := true), 0);
    hide Enabled, Apply;
    more, t := WriteStep(origin, more, t, w);
  }

  lemma ActsProgress(s: State, m: State, i: nat)
    requires Acts(s, i) && i < 3 && m.requests == s.requests && m.records == s.records && 0 < s.next
    requires m.world == s.world.(objects := s.world.objects[PLAN[i].key := Object(s.next, s.next, PLAN[i].op, 0, false, true)])
    ensures var w := Progress(10, i, PLAN[i].(uid := s.next, applied := true), 0); var t := Apply(m, w);
      Enabled(m, w) && Acts(t, i + 1) && t.world.namespaces == s.world.namespaces
  {}

  /** The namespace goes and another takes its name. */
  lemma ReplaceStep(origin: State, log: seq<Step>, s: State, i: nat) returns (more: seq<Step>, t: State)
    requires Recorded(origin, log, s) && Acts(s, i)
    ensures Recorded(origin, more, t) && Acts(t, i) && 1 in t.world.namespaces && 3 < t.world.namespaces[1]
  {
    hide *;
    SoundNow(origin, log, s);
    ActsNext(s, i);
    LossActs(s, i);
    NewActs(Happen(s, LoseNamespace(1)), i);
    more, t := EventStep(origin, log, s, LoseNamespace(1));
    more, t := EventStep(origin, more, t, NewNamespace(1));
  }

  lemma ActsNext(s: State, i: nat)
    requires Inv(s) && Acts(s, i)
    ensures 3 < s.next
  {
    assert OpsSound(s) && HasAction(s, 10, 0);
    hide Inv, OpsSound;
  }

  lemma LossActs(s: State, i: nat)
    requires Acts(s, i) && 3 < s.next
    ensures var t := Happen(s, LoseNamespace(1)); Acts(t, i) && 1 !in t.world.namespaces && 3 < t.next
  {}

  lemma NewActs(s: State, i: nat)
    requires Acts(s, i) && 1 !in s.world.namespaces && 3 < s.next
    ensures var t := Happen(s, NewNamespace(1)); Acts(t, i) && 1 in t.world.namespaces && 3 < t.world.namespaces[1]
  {}

  /** The experiment is stopped; rollback finds that the namespace of its Job is another. */
  lemma StopStep(origin: State, log: seq<Step>, s: State) returns (more: seq<Step>, t: State)
    requires Recorded(origin, log, s) && 10 in s.records && |s.records[10].actions| == 3 && !s.records[10].cleanup && !s.records[10].finished
    requires forall j :: 0 <= j < 3 ==> SameTarget(s.records[10].actions[j], PLAN[j]) && !s.records[10].actions[j].cleaned
    requires 1 in s.world.namespaces && 3 < s.world.namespaces[1]
    ensures Recorded(origin, more, t) && t.world == s.world && 10 in t.records && |t.records[10].actions| == 3 && t.records[10].actions[2].cleaned
    ensures t.records[10].actions[2].op == 7
  {
    hide Recorded;
    more, t := WriteStep(origin, log, s, StartCleanup(10, 3, PLAN[0]));
    more, t := WriteStep(origin, more, t, Progress(10, 2, t.records[10].actions[2].(cleaned := true), t.next - 1));
  }

  /** The namespace is looked at before the Job is created, so the Job may appear in a
      namespace that took the old name; rollback will not touch it there.  Nothing else
      leaves a fault behind: `LeftoversExactly`. */
  lemma FaultInReplacedNamespace() returns (s: State, steps: seq<Step>, key: Key, op: Op)
    ensures Start(s) && Legal(s, steps) && Bears(Exec(s, steps), key, op) && !Unfinished(Exec(s, steps), op)
  {
    s, key, op := WAITING, PLAN[2].key, 7;
    var log, t := Admitted();
    hide Recorded, Acts;
    log, t := ActStep(s, log, t, 0) by { KnownNamespace(t); }
    log, t := ActStep(s, log, t, 1);
    log, t := ReplaceStep(s, log, t, 2);
    var before := t;
    log, t := CreateStep(s, log, t, 2);
    ActsStill(before);
    log, t := StopStep(s, log, t);
    steps := log;
    Rolled(s, steps, t);
  }

  lemma KnownNamespace(s: State)
    requires s.world == EMPTY
    ensures 1 in s.world.namespaces
  {}

  lemma ActsStill(s: State)
    requires Acts(s, 2)
    ensures 10 in s.records && |s.records[10].actions| == 3 && !s.records[10].cleanup && !s.records[10].finished
    ensures forall j :: 0 <= j < 3 ==> SameTarget(s.records[10].actions[j], PLAN[j]) && !s.records[10].actions[j].cleaned
  {}

  lemma Rolled(s: State, steps: seq<Step>, t: State)
    requires Recorded(s, steps, t) && 10 in t.records && |t.records[10].actions| == 3 && t.records[10].actions[2].cleaned && t.records[10].actions[2].op == 7
    ensures Start(s) && Legal(s, steps) && t == Exec(s, steps) && !Unfinished(t, 7)
  {
    SoundNow(s, steps, t);
    HistoryAlways(s, steps);
    HistoryHomes(t);
    assert AtHome(t, 10, 2);
    hide Inv, HistorySound, Start, Legal, Exec;
  }
}
