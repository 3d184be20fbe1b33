/** Teardown ends: if requested deletions complete, no name is reused and no run is
    enrolled, repeated passes of `collect` remove every run. */
module MirrorTeardown {
  import opened Common
  import opened MirrorProtocol
  import opened MirrorTraces
  import opened MirrorFacts
  import opened MirrorCluster
  import opened MirrorCollect
  import opened MirrorCollectRuns

  /** A name still carries the identity the run recorded under it. */
  ghost predicate Unreused(s: State, uid: Uid, r: Run) {
    && (r.child != 0 && GenerationKey(uid) in s.objects ==> s.objects[GenerationKey(uid)].uid == r.child)
    && (forall m :: m in r.imports ==> Kept(s, uid, m.snapshot) && Kept(s, uid, m.content))
    && (forall c :: c in r.policies ==> Kept(s, uid, c))
    && (forall m :: m in r.captures ==> Kept(s, uid, m.snapshot))
    && (forall m :: m in r.captures && m.content.key in s.objects ==> s.objects[m.content.key].uid == m.content.uid)
  }

  ghost predicate Kept(s: State, owner: Uid, c: Claim) {
    c.key in s.objects ==> Owns(s.objects[c.key], owner, c.op, c.uid)
  }

  ghost predicate UnreusedAll(s: State, p: Mirror) {
    forall i :: 0 <= i < |p.runs| && p.runs[i].uid in s.runs ==> Unreused(s, p.runs[i].uid, s.runs[p.runs[i].uid].run)
  }

  predicate Lives(objects: map<Key, Object>, key: Key) {
    key in objects && !objects[key].deleting
  }

  /** A volume goes with the generation that uses it, the content with its snapshot. */
  predicate Dependent(objects: map<Key, Object>, uid: Uid, r: Run, key: Key) {
    || (exists c :: c in r.volumes && c.key == key && (r.child == 0 || !Lives(objects, GenerationKey(uid))))
    || (exists m :: m in r.captures && m.content.key == key && !Lives(objects, m.snapshot.key))
  }

  /** The objects that leave once every requested deletion completes. */
  predicate Leaves(s: State, p: Mirror, key: Key) {
    key in s.objects &&
    (s.objects[key].deleting ||
     exists i :: 0 <= i < |p.runs| && p.runs[i].uid in s.runs && Dependent(s.objects, p.runs[i].uid, s.runs[p.runs[i].uid].run, key))
  }

  ghost predicate Completed(s: State, p: Mirror) {
    forall key :: key in s.objects ==> !Leaves(s, p, key)
  }

  lemma CompletedQuiet(s: State, p: Mirror)
    requires UnreusedAll(s, p) && Completed(s, p)
    ensures QuietAll(s, p)
  {
    forall i | 0 <= i < |p.runs| && p.runs[i].uid in s.runs ensures Quiet(s, p.runs[i].uid, s.runs[p.runs[i].uid].run) {
      CompletedRun(s, p, i);
    }
  }

  lemma CompletedRun(s: State, p: Mirror, i: nat)
    requires UnreusedAll(s, p) && Completed(s, p) && i < |p.runs| && p.runs[i].uid in s.runs
    ensures Quiet(s, p.runs[i].uid, s.runs[p.runs[i].uid].run)
  {
    var uid := p.runs[i].uid;
    var r := s.runs[uid].run;
    forall key | key in s.objects ensures !s.objects[key].deleting && !Dependent(s.objects, uid, r, key) {
      assert !Leaves(s, p, key);
    }
    assert Unreused(s, uid, r);
    forall c | c in r.volumes && c.key in s.objects ensures r.child != 0 && GenerationKey(uid) in s.objects {
      assert !Dependent(s.objects, uid, r, c.key);
    }
    forall m | m in r.captures ensures Bound(s, m) {
      if m.content.key in s.objects { assert !Dependent(s.objects, uid, r, m.content.key); }
    }
  }

  /** Only objects went away, or were asked to. */
  ghost predicate Fewer(s: State, t: State) {
    && t.parent == s.parent && t.runs == s.runs && t.requests == s.requests && t.ending == s.ending
    && t.objects.Keys <= s.objects.Keys
    && (forall k :: k in t.objects ==> t.objects[k].(deleting := s.objects[k].deleting) == s.objects[k])
  }

  lemma FewerUnreused(s: State, t: State, p: Mirror)
    requires UnreusedAll(s, p) && Fewer(s, t)
    ensures UnreusedAll(t, p)
  {
    forall i | 0 <= i < |p.runs| && p.runs[i].uid in t.runs ensures Unreused(t, p.runs[i].uid, t.runs[p.runs[i].uid].run) {
      assert Unreused(s, p.runs[i].uid, s.runs[p.runs[i].uid].run);
    }
  }

  /** Lets all requested deletions complete, and what depended on them. */
  method Complete(c: Cluster, p: Mirror)
    requires Inv(c.s)
    requires c.Logged()
    modifies c
    ensures c.Logged() && old(c.log) <= c.log
    ensures Inv(c.s) && Fewer(old(c.s), c.s) && Completed(c.s, p)
    ensures forall k :: k in old(c.s).objects && old(c.s).objects[k].deleting ==> k !in c.s.objects
  {
    hide Inv, Leaves, Happen, AfterObject;
    ghost var s0 := c.s;
    var leaving := set k | k in c.s.objects && Leaves(c.s, p, k);
    while leaving != {}
      invariant c.Logged() && old(c.log) <= c.log
      invariant Inv(c.s) && Fewer(s0, c.s)
      invariant forall k :: k in c.s.objects ==> c.s.objects[k] == s0.objects[k]
      invariant leaving == set k | k in c.s.objects && Leaves(c.s, p, k)
      decreases |c.s.objects|
    {
      var k :| k in leaving;
      EventKeeps(c.s, OnObject(Vanish(k)));
      Vanished(c.s, k);
      RecordStep(c.origin, c.log, c.s, Outside(OnObject(Vanish(k))));
      c.log := c.log + [Outside(OnObject(Vanish(k)))];
      c.s := Happen(c.s, OnObject(Vanish(k)));
      leaving := set x | x in c.s.objects && Leaves(c.s, p, x);
    }
    forall k | k in c.s.objects ensures !Leaves(c.s, p, k) { assert k !in leaving; }
    forall k | k in c.s.objects ensures !c.s.objects[k].deleting { LeavingLeaves(c.s, p, k); }
  }

  lemma LeavingLeaves(s: State, p: Mirror, key: Key)
    requires key in s.objects && !Leaves(s, p, key)
    ensures !s.objects[key].deleting
  {}

  lemma Vanished(s: State, key: Key)
    requires key in s.objects
    ensures var t := Happen(s, OnObject(Vanish(key)));
      t == s.(objects := s.objects - {key}, next := s.next + 1) && |t.objects| < |s.objects|
  {
    var t := s.objects - {key};
    assert t.Keys == s.objects.Keys - {key};
  }

  lemma AskedFewer(s: State, t: State)
    requires OneDeleted(s, t)
    ensures Fewer(s, t) && exists k :: k in t.objects && t.objects[k].deleting
    ensures t.objects.Keys == s.objects.Keys
  {
    var k :| k in s.objects && !s.objects[k].deleting && Asked(s, t, k);
    assert t.objects == s.objects[k := s.objects[k].(deleting := true)];
    assert k in t.objects && t.objects[k].deleting;
  }

  lemma FewerObjects(s: State, t: State)
    requires Fewer(s, t) && exists k :: k in s.objects && s.objects[k].deleting && k !in t.objects
    ensures |t.objects| < |s.objects|
  {
    var k :| k in s.objects && s.objects[k].deleting && k !in t.objects;
    var rest := s.objects.Keys - {k};
    assert t.objects.Keys <= rest;
    Subset(t.objects.Keys, rest);
    assert s.objects.Keys == rest + {k};
  }

  lemma Subset<T>(a: set<T>, b: set<T>)
    requires a <= b
    ensures |a| <= |b|
  {
    if x :| x in a { Subset(a - {x}, b - {x}); }
  }

  /** What the rounds keep: the journal, teardown, and names that are not reused. */
  ghost predicate Round(s: State, p: Mirror) {
    Journals(s, p) && s.ending && UnreusedAll(s, p) && NamesKept(s, p)
  }

  lemma RoundParts(s: State, p: Mirror)
    requires Round(s, p)
    ensures Journals(s, p) && s.ending && NamesKept(s, p) && UnreusedAll(s, p)
  {}

  lemma Shrinks(s: State, t: State, u: State)
    requires OneDeleted(s, t) && Fewer(t, u)
    requires forall k :: k in t.objects && t.objects[k].deleting ==> k !in u.objects
    ensures |u.objects| < |s.objects|
  {
    AskedFewer(s, t);
    FewerObjects(t, u);
    assert |t.objects| == |t.objects.Keys| == |s.objects.Keys|;
  }

  lemma DropAllowed(s: State, p: Mirror)
    requires Round(s, p) && p.runs == []
    ensures Enabled(s, DropParent)
  {}

  lemma FewerRound(s: State, t: State, p: Mirror)
    requires Round(s, p) && Fewer(s, t) && Inv(t)
    ensures Round(t, p)
  {
    FewerUnreused(s, t, p);
  }

  lemma ForgotRound(s: State, t: State, p: Mirror, q: Mirror)
    requires Round(s, p) && ForgotOne(s, t, p) && Inv(t) && t.parent == Some(q)
    ensures Round(t, q) && |q.runs| + 1 == |p.runs|
  {
    hide Inv, Unreused, ForgotOne, Round, UnreusedAll, NamesKept, RefKept;
    RoundParts(s, p);
    ForgotParts(s, t, p);
    var i :| 0 <= i < |p.runs| && t.parent == Some(Forget(p, i));
    forall j | 0 <= j < |q.runs| ensures RefKept(t, q.runs[j]) {
      RefKeeps(s, t, p, if j < i then j else j + 1);
      assert q.runs[j] == p.runs[if j < i then j else j + 1];
    }
    RoundIntro(t, q);
  }

  lemma RoundIntro(s: State, p: Mirror)
    requires Journals(s, p) && s.ending && forall j :: 0 <= j < |p.runs| ==> RefKept(s, p.runs[j])
    ensures Round(s, p)
  {
    hide Inv, Unreused;
    forall j | 0 <= j < |p.runs| ensures RefKept(s, p.runs[j]) {}
  }

  ghost predicate RefKept(t: State, ref: Ref) {
    && (ref.uid in t.runs ==> Unreused(t, ref.uid, t.runs[ref.uid].run))
    && (ref.name in t.requests ==> t.requests[ref.name].uid == ref.uid)
  }

  lemma RefKeeps(s: State, t: State, p: Mirror, i: nat)
    requires UnreusedAll(s, p) && NamesKept(s, p) && ForgotOne(s, t, p) && i < |p.runs|
    ensures RefKept(t, p.runs[i])
  {
    hide Unreused;
    if p.runs[i].uid in t.runs { SameUnreused(s, t, p.runs[i].uid, s.runs[p.runs[i].uid].run); }
  }

  lemma ForgotParts(s: State, t: State, p: Mirror)
    requires ForgotOne(s, t, p)
    ensures t.objects == s.objects && t.ending == s.ending && (exists i :: 0 <= i < |p.runs| && t.parent == Some(Forget(p, i)))
  {}

  lemma ProgressParent(s: State, t: State, p: Mirror)
    requires s.parent == Some(p) && Progress(s, t, p)
    ensures t.parent.Some? && (OneDeleted(s, t) ==> t.parent == Some(p))
  {
    if OneDeleted(s, t) { AskedFewer(s, t); }
  }

  lemma SameUnreused(s: State, t: State, uid: Uid, r: Run)
    requires t.objects == s.objects && Unreused(s, uid, r)
    ensures Unreused(t, uid, r)
  {}

  /** Repeated reconciles of a deleted mirror in which everyone else only completes what
      was requested.  The measure is the remaining runs, then the remaining objects. */
  method Teardown(c: Cluster, start: Mirror, retain: nat) returns (failed: bool)
    requires c.calm && Round(c.s, start)
    requires c.Logged()
    modifies c
    ensures c.Logged() && old(c.log) <= c.log
    ensures !failed && Inv(c.s) && c.s.parent == None
  {
    hide Inv, Round, Fewer, Completed, QuietAll, OneDeleted, ForgotOne;
    var p := start;
    RoundParts(c.s, p);
    ghost var s0 := c.s;
    Complete(c, p);
    FewerRound(s0, c.s, p);
    failed := false;
    var done := false;
    while !done
      invariant c.Logged() && old(c.log) <= c.log
      invariant Round(c.s, p) && Completed(c.s, p) && !failed
      invariant done ==> p.runs == []
      decreases |p.runs|, |c.s.objects|, !done
    {
      ghost var s1 := c.s;
      RoundParts(s1, p);
      CompletedQuiet(s1, p);
      done, failed := Collect(c, p, retain, true);
      assert !failed;
      if !done {
        ghost var s2 := c.s;
        if OneDeleted(s1, s2) { AskedFewer(s1, s2); FewerRound(s1, s2, p); }
        ProgressParent(s1, s2, p);
        var q := c.s.parent.value;
        if !OneDeleted(s1, s2) { ForgotRound(s1, s2, p, q); }
        Complete(c, q);
        FewerRound(s2, c.s, q);
        if OneDeleted(s1, s2) { Shrinks(s1, s2, c.s); }
        p := q;
      }
    }
    RoundParts(c.s, p);
    DropAllowed(c.s, p);
    failed := c.Issue(DropParent);
  }
}
