/** Whole runs of the experiment controller. */
module ChaosRuns {
  import opened Common
  import opened ChaosProtocol

  datatype Step = Inside(write: Write) | Outside(event: Event)

  ghost function After(s: State, step: Step): State {
    match step
    case Inside(w) => Apply(s, w)
    case Outside(e) => Happen(s, e)
  }

  ghost function Exec(s: State, steps: seq<Step>): State {
    if steps == [] then s else After(Exec(s, steps[..|steps| - 1]), steps[|steps| - 1])
  }

  ghost predicate Legal(s: State, steps: seq<Step>) {
    steps == [] ||
    (Legal(s, steps[..|steps| - 1]) &&
     (steps[|steps| - 1].Inside? ==> Enabled(Exec(s, steps[..|steps| - 1]), steps[|steps| - 1].write)))
  }

  ghost predicate Recorded(origin: State, log: seq<Step>, s: State) {
    Start(origin) && Legal(origin, log) && s == Exec(origin, log)
  }

  lemma RecordStep(origin: State, log: seq<Step>, s: State, step: Step)
    requires Recorded(origin, log, s) && (step.Inside? ==> Enabled(s, step.write))
    ensures Recorded(origin, log + [step], After(s, step))
  {
    hide Enabled, After, Start;
    assert (log + [step])[..|log|] == log;
  }

  lemma {:induction false} Prefix(s: State, steps: seq<Step>, k: nat)
    requires Legal(s, steps) && k < |steps|
    ensures Legal(s, steps[..k]) && Exec(s, steps[..k + 1]) == After(Exec(s, steps[..k]), steps[k])
    ensures steps[k].Inside? ==> Enabled(Exec(s, steps[..k]), steps[k].write)
  {
    hide Enabled, After;
    var n := |steps|;
    if k == n - 1 {
      assert steps[..k + 1] == steps;
    } else {
      Prefix(s, steps[..n - 1], k);
      assert steps[..n - 1][..k] == steps[..k] && steps[..n - 1][..k + 1] == steps[..k + 1];
    }
  }

  lemma {:induction false} AlwaysSound(s: State, steps: seq<Step>)
    requires Start(s) && Legal(s, steps)
    ensures Inv(Exec(s, steps))
  {
    hide Inv, Enabled;
    if steps == [] {
      StartSound(s);
    } else {
      var before := Exec(s, steps[..|steps| - 1]);
      AlwaysSound(s, steps[..|steps| - 1]);
      match steps[|steps| - 1]
      case Inside(w) => WriteKeeps(before, w);
      case Outside(e) => EventKeeps(before, e);
    }
  }

  // ---------------------------------------------------------------- safety over runs

  /** A lasting fault is in effect in its namespace only while its experiment holds an
      unfinished record and the finalizer. */
  lemma EffectsNeedIntentAndFinalizer(s: State, steps: seq<Step>, u: Uid, i: nat)
    requires Start(s) && Legal(s, steps)
    requires var t := Exec(s, steps);
      HasAction(t, u, i) && InEffect(t.world, t.records[u].actions[i]) && t.records[u].actions[i].kind != PodKill
    ensures var t := Exec(s, steps); Finalized(t, u) && !t.records[u].finished && !t.records[u].actions[i].cleaned
  {
    AlwaysSound(s, steps);
    var t := Exec(s, steps);
    assert JournalSound(t.records[u]);
  }

  /** Two experiments of one replica never have lasting faults in effect together. */
  lemma EffectsExclusive(s: State, steps: seq<Step>, u: Uid, i: nat, v: Uid, j: nat)
    requires Start(s) && Legal(s, steps)
    requires var t := Exec(s, steps);
      && HasAction(t, u, i) && InEffect(t.world, t.records[u].actions[i]) && t.records[u].actions[i].kind != PodKill
      && HasAction(t, v, j) && InEffect(t.world, t.records[v].actions[j]) && t.records[v].actions[j].kind != PodKill
      && t.records[u].replica == t.records[v].replica
    ensures u == v
  {
    AlwaysSound(s, steps);
    EffectsNeedIntentAndFinalizer(s, steps, u, i);
    EffectsNeedIntentAndFinalizer(s, steps, v, j);
    hide OpsSound, EffectsSound, EffectsFade, JournalSound, Numbered, InEffect;
  }

  /** Rollback goes backwards: what is cleaned is a suffix of the journal, and a finished
      experiment has nothing left. */
  lemma RollbackReverse(s: State, steps: seq<Step>, u: Uid)
    requires Start(s) && Legal(s, steps) && u in Exec(s, steps).records
    ensures var r := Exec(s, steps).records[u]; CleanedSuffix(r.actions) && (r.finished ==> AllCleaned(r.actions))
  {
    AlwaysSound(s, steps);
    assert JournalSound(Exec(s, steps).records[u]);
  }

  /** No fault Job is created before the deny policy of its namespace was applied. */
  lemma JobAfterPolicy(s: State, steps: seq<Step>, k: nat)
    requires Start(s) && Legal(s, steps) && k < |steps| && steps[k].Inside? && steps[k].write.Create?
    requires HasAction(Exec(s, steps[..k]), steps[k].write.uid, steps[k].write.i)
    requires Exec(s, steps[..k]).records[steps[k].write.uid].actions[steps[k].write.i].kind == Job
    ensures var t := Exec(s, steps[..k]); var r := t.records[steps[k].write.uid]; var i := steps[k].write.i;
      Finalized(t, steps[k].write.uid) &&
      exists j :: 0 <= j < i && r.actions[j].kind == HostPolicy && r.actions[j].key.ns == r.actions[i].key.ns && r.actions[j].applied
  {
    Prefix(s, steps, k);
    AlwaysSound(s, steps[..k]);
    var t := Exec(s, steps[..k]);
    var r := t.records[steps[k].write.uid];
    assert JournalSound(r);
    var j :| 0 <= j < steps[k].write.i && r.actions[j].kind == HostPolicy && r.actions[j].key.ns == r.actions[steps[k].write.i].key.ns;
    assert r.actions[j].applied;
  }

  /** The finalizer of a recorded experiment goes only when everything is rolled back. */
  lemma FinalizerRemovedClean(s: State, steps: seq<Step>, k: nat, uid: Uid)
    requires Start(s) && Legal(s, steps) && k < |steps| && steps[k] == Inside(Hold(uid, false))
    requires var t := Exec(s, steps[..k]); uid in t.records && Finalized(t, uid)
    ensures AllCleaned(Exec(s, steps[..k]).records[uid].actions)
  {
    Prefix(s, steps, k);
    AlwaysSound(s, steps[..k]);
    assert JournalSound(Exec(s, steps[..k]).records[uid]);
  }
}
