/** Applying a plan to the guest and removing it again. */
module WorkflowEngine {
  import opened Common
  import opened PlannerText
  import opened WorkflowJournal
  import opened WorkflowOrder
  import O = PlannerOrder

  /** `t` is what may hold once `w` was issued in `s`. */
  ghost predicate Wrote(s: State, w: Write, t: State, failed: bool) {
    Rely(Apply(s, w), t) || (failed && Rely(s, t))
  }

  class Guest {
    ghost const origin: State
    ghost var log: seq<Step>
    var s: State

    constructor (initial: State)
      requires Start(initial)
      ensures s == initial && origin == initial && log == [] && Valid()
    {
      s := initial;
      origin := initial;
      log := [];
      new;
      StartSound(initial);
    }

    /** What happened so far is a legal run that has reached a sound state. */
    ghost predicate Valid()
      reads this
    {
      Inv(s) && Recorded(origin, log, s)
    }

    method Environment()
      requires Valid()
      modifies this
      ensures Valid() && Rely(old(s), s) && old(log) <= log
    {
      hide Inv, Rely, Recorded;
      var n: nat := *;
      NumberedIn(s);
      RelyReflexive(s);
      while 0 < n
        invariant Valid() && Rely(old(s), s) && old(log) <= log
      {
        var e: Event := *;
        ghost var before := s;
        EventKeeps(s, e);
        RecordStep(origin, log, s, Outside(e));
        log := log + [Outside(e)];
        s := Happen(s, e);
        RelyTransitive(old(s), before, s);
        n := n - 1;
      }
    }

    /** One write with an arbitrary outcome; a lost answer still took effect. */
    method Issue(w: Write) returns (failed: bool)
      requires Valid() && Enabled(s, w)
      modifies this
      ensures Valid() && Wrote(old(s), w, s, failed) && old(log) <= log
    {
      hide Inv, Rely, Recorded, Apply;
      var reached: bool := *;
      var heard: bool := *;
      if reached {
        WriteKeeps(s, w);
        RecordStep(origin, log, s, Inside(w));
        log := log + [Inside(w)];
        s := Apply(s, w);
      }
      Environment();
      failed := !(reached && heard);
    }

    method Get(id: Id) returns (r: Read<Object>, at: nat)
      requires Valid()
      modifies this
      ensures Valid() && Rely(old(s), s) && old(log) <= log && at == old(s).next - 1
      ensures r.Found? ==> id in old(s).objects && old(s).objects[id] == r.value
      ensures r.Missing? ==> id !in old(s).objects
    {
      NumberedIn(s);
      var ok: bool := *;
      r := if !ok then Unreadable else if id in s.objects then Found(s.objects[id]) else Missing;
      at := s.next - 1;
      Environment();
    }

    method CreateIf(id: Id, i: nat) returns (failed: bool, created: Uid)
      requires Valid() && (id !in s.objects ==> Enabled(s, Create(i)))
      modifies this
      ensures Valid() && old(log) <= log && created == old(s).next
      ensures if id !in old(s).objects then Wrote(old(s), Create(i), s, failed) else failed && Rely(old(s), s)
    {
      created := s.next;
      if id in s.objects {
        Environment();
        failed := true;
      } else {
        failed := Issue(Create(i));
      }
    }

    /** A conditional patch or delete: refused unless the object is exactly the one seen;
        an object that is gone counts as deleted. */
    method ChangeIf(id: Id, seen: Object, w: Write) returns (failed: bool)
      requires Valid() && (w.Patch? || w.Delete?)
      requires id in s.objects && s.objects[id].version == seen.version ==> Enabled(s, w)
      modifies this
      ensures Valid() && old(log) <= log
      ensures if id in old(s).objects && old(s).objects[id].version == seen.version then Wrote(old(s), w, s, failed) else Rely(old(s), s)
    {
      if id !in s.objects {
        Environment();
        failed := w.Patch?;
      } else if s.objects[id].version != seen.version {
        Environment();
        failed := true;
      } else {
        failed := Issue(w);
      }
    }
  }

  lemma NumberedIn(s: State)
    requires Inv(s)
    ensures Numbered(s)
  {}

  // ---------------------------------------------------------------- facts across calls

  lemma EntriesKept(s: State, t: State)
    requires Rely(s, t)
    ensures t.entries == s.entries && t.plan == s.plan && t.since == s.since && s.next <= t.next
  {}

  lemma MutationKept(s: State, w: Write, t: State, failed: bool)
    requires Inv(s) && (w.Patch? || w.Delete? || w.Create?) && (Wrote(s, w, t, failed) || Rely(s, t))
    ensures t.entries == s.entries && t.plan == s.plan
  {
    hide Inv, MarksKept, VersionsKept;
  }

  lemma SameObject(s: State, t: State, id: Id)
    requires Inv(s) && Rely(s, t) && id in s.objects && id in t.objects && t.objects[id].version == s.objects[id].version
    ensures t.objects[id] == s.objects[id]
  {}

  predicate Matches(live: Object, e: Entry) { (e.uid == 0 || e.uid == live.uid) && live.op == e.op }

  lemma Observed(s: State, t: State, at: nat)
    requires Inv(s) && Rely(s, t) && at == s.next - 1
    ensures at in t.past && t.past[at] == s.objects && t.since <= at
  {}

  /** The position of the live entry of `id`, if there is one. */
  method Find(entries: seq<Entry>, id: Id) returns (r: Option<nat>)
    ensures r.Some? ==> LiveEntry(entries, r.value, id)
    ensures r.None? ==> !HasLive(entries, id)
  {
    for i := 0 to |entries|
      invariant forall j :: 0 <= j < i ==> !LiveEntry(entries, j, id)
    {
      if entries[i].id == id && !entries[i].deleted { return Some(i); }
    }
    return None;
  }

  method FreshOp(entries: seq<Entry>) returns (op: Op)
    ensures op != 0 && forall i :: 0 <= i < |entries| ==> entries[i].op != op
  {
    op := 1;
    for i := 0 to |entries|
      invariant op != 0 && forall j :: 0 <= j < i ==> entries[j].op < op
    {
      if op <= entries[i].op { op := entries[i].op + 1; }
    }
  }

  // ---------------------------------------------------------------- applying one object

  lemma MarkGoneEnabled(s: State, t: State, i: nat, at: nat)
    requires Inv(s) && Rely(s, t) && i < |s.entries| && !s.entries[i].deleted && s.entries[i].id !in s.objects && at == s.next - 1
    ensures Enabled(t, MarkGone(i, at))
  {
    Observed(s, t, at);
  }

  lemma KnowEnabled(s: State, t: State, i: nat, at: nat)
    requires Inv(s) && Rely(s, t) && i < |s.entries| && !s.entries[i].deleted && s.entries[i].uid == 0
    requires InPlace(s.objects, s.entries[i]) && at == s.next - 1
    ensures Enabled(t, Know(i, s.objects[s.entries[i].id].uid, at))
  {
    Observed(s, t, at);
  }

  lemma Journaled(s: State, w: Write, t: State)
    requires (w.Append? || w.Know? || w.MarkGone?) && Rely(Apply(s, w), t)
    ensures t.entries == Apply(s, w).entries && t.plan == s.plan
  {}

  lemma CreatedThere(s: State, t: State, i: nat)
    requires Inv(s) && Enabled(s, Create(i)) && Rely(Apply(s, Create(i)), t)
    ensures t.entries == s.entries && t.plan == s.plan && t.since == s.next && s.next in t.past && InPlace(t.past[s.next], s.entries[i]) &&
      t.past[s.next][s.entries[i].id].uid == s.next
  {}

  lemma KnowCreated(s: State, t: State, i: nat)
    requires Inv(s) && Enabled(s, Create(i)) && Rely(Apply(s, Create(i)), t)
    ensures Enabled(t, Know(i, s.next, s.next))
  {
    CreatedThere(s, t, i);
  }

  /** Records the identity of entry `i` as observed at a moment. */
  method RecordUid(g: Guest, i: nat, uid: Uid, at: nat) returns (failed: bool)
    requires g.Valid() && Enabled(g.s, Know(i, uid, at))
    modifies g
    ensures g.Valid() && old(g.log) <= g.log
    ensures !failed ==> i < |old(g.s).entries| && g.s.entries == old(g.s).entries[i := old(g.s).entries[i].(uid := uid)] && g.s.plan == old(g.s).plan
  {
    hide Inv, Rely, Recorded;
    ghost var s0 := g.s;
    failed := g.Issue(Know(i, uid, at));
    if !failed { Journaled(s0, Know(i, uid, at), g.s); }
  }

  /** The entry of `id` is live and its object was seen under the recorded identity. */
  ghost predicate Inventoried(entries: seq<Entry>, id: Id) {
    exists i :: LiveEntry(entries, i, id) && entries[i].uid != 0
  }

  /** An entry for `id` may be journaled as far as the plan is concerned. */
  ghost predicate Fits(entries: seq<Entry>, p: Plan, id: Id, kind: Kind) {
    Due(entries, p, id) && (id in p.kinds ==> kind == p.kinds[id])
  }

  lemma FitsWithout(s: State, i: nat, id: Id, kind: Kind)
    requires Inv(s) && Fits(s.entries, s.plan, id, kind) && LiveEntry(s.entries, i, id)
    ensures Fits(s.entries[i := s.entries[i].(deleted := true)], s.plan, id, kind)
  {
    InvPlan(s);
    hide Inv;
    var p := s.plan;
    var later := s.entries[i := s.entries[i].(deleted := true)];
    var external :| O.DependenciesFirst(p.needs, external, p.order);
    assert Distinct(p.order);
    forall x, y | 0 <= x < y < |p.order| && p.order[y] == id ensures HasLive(later, p.order[x]) {
      var l :| LiveEntry(s.entries, l, p.order[x]);
      assert LiveEntry(later, l, p.order[x]);
    }
  }

  /** Makes sure the planned object exists and is ours: intent is journaled first, an
      object of anyone else is never adopted, and one that disappeared is created again
      only by a refresh, under a new entry. */
  method ApplyObject(g: Guest, id: Id, kind: Kind, ns: Id, refresh: bool, again: bool) returns (failed: bool)
    requires g.Valid() && (again ==> refresh && !HasLive(g.s.entries, id)) && Fits(g.s.entries, g.s.plan, id, kind)
    modifies g
    ensures g.Valid() && old(g.log) <= g.log
    ensures !failed ==> Inventoried(g.s.entries, id) && Extends(old(g.s).entries, g.s.entries, id) && g.s.plan == old(g.s).plan
    decreases !again
  {
    hide Inv, Rely, Recorded, Enabled, Fits;
    ghost var s0 := g.s;
    var found := Find(g.s.entries, id);
    var live, at := g.Get(id);
    ghost var s1 := g.s;
    EntriesKept(s0, s1);
    if live.Unreadable? { return true; }
    var i: nat;
    if found.None? {
      if live.Found? { return true; }
      i := |g.s.entries|;
      failed := JournalIntent(g, id, kind, ns);
      if failed { return; }
      failed := CreateFor(g, i);
      return;
    }
    i := found.value;
    var e := g.s.entries[i];
    if live.Missing? {
      if e.uid != 0 {
        if !refresh { return true; }
        MarkGoneEnabled(s0, s1, i, at);
        failed := g.Issue(MarkGone(i, at));
        if failed { return; }
        Journaled(s1, MarkGone(i, at), g.s);
        NoLiveLeft(s1, i, id);
        FitsWithout(s1, i, id, kind);
        failed := ApplyObject(g, id, kind, ns, true, true);
        return;
      }
      failed := CreateFor(g, i);
      return;
    }
    if !Matches(live.value, e) { return true; }
    if e.uid == 0 {
      KnowEnabled(s0, s1, i, at);
      NumberedIn(s0);
      failed := RecordUid(g, i, live.value.uid, at);
      if !failed { InventoriedAt(g.s.entries, i, id); }
      return;
    }
    InventoriedAt(g.s.entries, i, id);
    var differs: bool := *; // the desired state differs from what was applied
    if refresh && differs {
      if id in s1.objects && s1.objects[id].version == live.value.version { SameObject(s0, s1, id); PatchEnabled(s1, i); }
      failed := g.ChangeIf(id, live.value, Patch(i));
      MutationKept(s1, Patch(i), g.s, failed);
      return;
    }
    return false;
  }

  lemma PatchEnabled(s: State, i: nat)
    requires i < |s.entries| && !s.entries[i].deleted && s.entries[i].id in s.objects && Matches(s.objects[s.entries[i].id], s.entries[i])
    ensures Enabled(s, Patch(i))
  {}

  lemma InventoriedAt(entries: seq<Entry>, i: nat, id: Id)
    requires LiveEntry(entries, i, id) && entries[i].uid != 0
    ensures Inventoried(entries, id)
  {}

  lemma NoLiveLeft(s: State, i: nat, id: Id)
    requires Inv(s) && LiveEntry(s.entries, i, id)
    ensures !HasLive(s.entries[i := s.entries[i].(deleted := true)], id)
  {
    assert JournalSound(s.entries);
    var later := s.entries[i := s.entries[i].(deleted := true)];
    forall j ensures !LiveEntry(later, j, id) {
      if 0 <= j < |s.entries| && j != i { assert !LiveEntry(s.entries, j, id); }
    }
  }

  /** The entry is durable before anything is created. */
  method JournalIntent(g: Guest, id: Id, kind: Kind, ns: Id) returns (failed: bool)
    requires g.Valid() && !HasLive(g.s.entries, id) && Fits(g.s.entries, g.s.plan, id, kind)
    modifies g
    ensures g.Valid() && old(g.log) <= g.log
    ensures !failed ==> |g.s.entries| == |old(g.s).entries| + 1 && LiveEntry(g.s.entries, |old(g.s).entries|, id)
    ensures !failed ==> g.s.entries[|old(g.s).entries|].uid == 0 && Extends(old(g.s).entries, g.s.entries, id) && g.s.plan == old(g.s).plan
  {
    hide Inv, Rely, Recorded, HasLive;
    ghost var s0 := g.s;
    var op := FreshOp(g.s.entries);
    var e := Entry(id, kind, ns, op, 0, false);
    failed := g.Issue(Append(e));
    if !failed { Journaled(s0, Append(e), g.s); }
  }

  /** Creates the object of entry `i` and records its identity. */
  method CreateFor(g: Guest, i: nat) returns (failed: bool)
    requires g.Valid() && i < |g.s.entries| && !g.s.entries[i].deleted && g.s.entries[i].uid == 0
    modifies g
    ensures g.Valid() && old(g.log) <= g.log
    ensures !failed ==> Inventoried(g.s.entries, old(g.s).entries[i].id) && Extends(old(g.s).entries, g.s.entries, old(g.s).entries[i].id)
    ensures !failed ==> g.s.plan == old(g.s).plan
  {
    hide Inv, Rely, Recorded;
    ghost var s0 := g.s;
    NumberedIn(s0);
    var id := g.s.entries[i].id;
    var created;
    failed, created := g.CreateIf(id, i);
    if failed { return; }
    KnowCreated(s0, g.s, i);
    CreatedThere(s0, g.s, i);
    failed := RecordUid(g, i, created, created);
    if !failed { InventoriedAt(g.s.entries, i, id); }
  }

  // ---------------------------------------------------------------- removing entries

  lemma DeleteEnabled(s: State, i: nat, prune: bool)
    requires i < |s.entries| && !s.entries[i].deleted && s.entries[i].id in s.objects && Matches(s.objects[s.entries[i].id], s.entries[i])
    requires prune || TurnOf(s.entries, i)
    ensures Enabled(s, Delete(i, prune))
  {
    hide TurnOf;
  }

  /** Marks entry `i` deleted after its object was seen absent. */
  method MarkDeleted(g: Guest, ghost seen: State, i: nat, at: nat) returns (failed: bool)
    requires g.Valid() && Inv(seen) && Rely(seen, g.s) && i < |seen.entries| && !seen.entries[i].deleted && seen.entries[i].id !in seen.objects
    requires at == seen.next - 1
    modifies g
    ensures g.Valid() && old(g.log) <= g.log
    ensures !failed ==> i < |old(g.s).entries| && g.s.entries == old(g.s).entries[i := old(g.s).entries[i].(deleted := true)]
  {
    hide Inv, Rely, Recorded, Enabled;
    ghost var s0 := g.s;
    EntriesKept(seen, s0);
    MarkGoneEnabled(seen, s0, i, at);
    failed := g.Issue(MarkGone(i, at));
    if !failed { Journaled(s0, MarkGone(i, at), g.s); }
  }

  /** Asks the object of entry `i` to go; done means it was seen absent. */
  method DeleteEntry(g: Guest, i: nat, prune: bool) returns (done: bool, failed: bool)
    requires g.Valid() && i < |g.s.entries| && (prune || TurnOf(g.s.entries, i))
    modifies g
    ensures g.Valid() && old(g.log) <= g.log
    ensures done ==> !failed && g.s.entries == old(g.s).entries[i := old(g.s).entries[i].(deleted := true)]
    ensures !done && !failed ==> g.s.entries == old(g.s).entries && !g.s.entries[i].deleted
  {
    hide Inv, Rely, Recorded, Enabled, TurnOf;
    ghost var s0 := g.s;
    var e := g.s.entries[i];
    if e.deleted { return true, false; }
    var live, at := g.Get(e.id);
    ghost var s1 := g.s;
    EntriesKept(s0, s1);
    if live.Unreadable? { return false, true; }
    if live.Missing? {
      failed := MarkDeleted(g, s0, i, at);
      return !failed, failed;
    }
    if !Matches(live.value, e) { return false, true; }
    if live.value.deleting { return false, false; }
    if e.id in s1.objects && s1.objects[e.id].version == live.value.version { SameObject(s0, s1, e.id); DeleteEnabled(s1, i, prune); }
    failed := g.ChangeIf(e.id, live.value, Delete(i, prune));
    MutationKept(s1, Delete(i, prune), g.s, failed);
    if failed { return false, true; }
    ghost var s2 := g.s;
    var again;
    again, at := g.Get(e.id);
    EntriesKept(s2, g.s);
    if again.Missing? {
      failed := MarkDeleted(g, s2, i, at);
      return !failed, failed;
    }
    return false, false;
  }

  /** The namespace entry, live when the pass began, that an object lives in. */
  method OwnedNamespace(entries: seq<Entry>, ns: Id) returns (r: Option<nat>)
    ensures r.Some? ==> LiveEntry(entries, r.value, ns) && entries[r.value].kind == Namespace
  {
    for i := 0 to |entries| {
      if entries[i].id == ns && entries[i].kind == Namespace && !entries[i].deleted { return Some(i); }
    }
    return None;
  }

  /** What a pass of cleanup has reached: entries from `i` on are gone, or are pending
      claims of a namespace of our own. */
  ghost predicate Reached(entries: seq<Entry>, i: int, pending: bool) {
    forall j :: 0 <= i <= j < |entries| ==> entries[j].deleted || (pending && Relaxed(entries, j))
  }

  /** Only deletion marks were added. */
  ghost predicate Marked(entries: seq<Entry>, later: seq<Entry>) {
    |later| == |entries| && forall j :: 0 <= j < |entries| ==>
      later[j] == entries[j].(deleted := later[j].deleted) && (entries[j].deleted ==> later[j].deleted)
  }

  lemma MarkedRelaxed(entries: seq<Entry>, later: seq<Entry>, j: nat)
    requires Marked(entries, later) && j < |entries|
    ensures Relaxed(entries, j) <==> Relaxed(later, j)
  {
    if Relaxed(entries, j) {
      var n :| 0 <= n < |entries| && entries[n].id == entries[j].ns && entries[n].kind == Namespace;
      assert later[n].id == later[j].ns && later[n].kind == Namespace;
    }
    if Relaxed(later, j) {
      var n :| 0 <= n < |later| && later[n].id == later[j].ns && later[n].kind == Namespace;
      assert entries[n].id == entries[j].ns && entries[n].kind == Namespace;
    }
  }

  lemma ReachedNext(entries: seq<Entry>, later: seq<Entry>, i: nat, pending: bool)
    requires i < |entries| && Reached(entries, i + 1, pending) && Marked(entries, later)
    requires later[i].deleted || (pending && Relaxed(entries, i))
    ensures Reached(later, i, pending)
  {
    hide Relaxed;
    forall j | i <= j < |later| ensures later[j].deleted || (pending && Relaxed(later, j)) { MarkedRelaxed(entries, later, j); }
  }

  lemma PendingReached(entries: seq<Entry>, i: int)
    requires Reached(entries, i, false)
    ensures Reached(entries, i, true)
  {}

  lemma ReachedTurn(entries: seq<Entry>, i: nat, pending: bool)
    requires i < |entries| && Reached(entries, i + 1, pending)
    ensures TurnOf(entries, i)
  {}

  lemma ClaimRelaxed(start: seq<Entry>, entries: seq<Entry>, i: nat, n: nat)
    requires Marked(start, entries) && i < |entries| && n < |entries| && entries[i].kind == Claim
    requires start[n].id == entries[i].ns && start[n].kind == Namespace
    ensures Relaxed(entries, i)
  {
    assert entries[n].id == entries[i].ns && entries[n].kind == Namespace;
  }

  /** Whether a pending claim may be passed over: it is still ours, held only by ordinary
      protection, and its namespace is still ours. */
  method PassOver(g: Guest, claim: Entry, namespace: Entry) returns (pass: bool, failed: bool, ghost seen: nat, ghost home: nat)
    requires g.Valid()
    modifies g
    ensures g.Valid() && old(g.log) <= g.log && Rely(old(g.s), g.s)
    ensures pass ==> old(g.s).next - 1 <= seen <= home < g.s.next && OursAt(g.s, seen, claim) && g.s.past[seen][claim.id].plain && OursAt(g.s, home, namespace)
  {
    hide Inv, Rely, Recorded;
    pass, failed, seen, home := false, false, 0, 0;
    ghost var s0 := g.s;
    var live, at := g.Get(claim.id);
    if live.Missing? { return; }
    if live.Unreadable? || !Matches(live.value, claim) { failed := true; return; }
    if !live.value.plain { return; }
    seen := at;
    ghost var s1 := g.s;
    Observed(s0, s1, at);
    var found;
    found, at := g.Get(namespace.id);
    RelyTransitive(s0, s1, g.s);
    if found.Missing? { return; }
    if found.Unreadable? || !Matches(found.value, namespace) { failed := true; return; }
    home := at;
    Observed(s1, g.s, at);
    MomentKept(s0, s1, g.s, seen);
    pass := true;
  }

  /** At that moment the guest held the object the entry recorded. */
  ghost predicate OursAt(s: State, at: nat, e: Entry) { at in s.past && Controlled(s.past[at], e) }

  lemma MomentKept(s: State, t: State, u: State, at: nat)
    requires Inv(s) && Inv(t) && Inv(u) && Rely(s, t) && Rely(t, u) && at in t.past && at == s.next - 1
    ensures at in u.past && u.past[at] == t.past[at] && at <= t.next - 1 < u.next
  {}

  /** Removes journal entries in reverse order.  Every entry waits for all later ones to be
      seen absent, except that nothing waits for the volume claims of an owned namespace.
      Done means that every entry was seen absent. */
  method CleanupGuest(g: Guest) returns (done: bool, failed: bool)
    requires g.Valid()
    modifies g
    ensures g.Valid() && old(g.log) <= g.log
    ensures done ==> !failed && forall i :: 0 <= i < |g.s.entries| ==> g.s.entries[i].deleted
  {
    hide Inv, Rely, Recorded, Enabled, Relaxed, TurnOf;
    var start := g.s.entries;
    var pending := false;
    var i := |start|;
    while 0 < i
      invariant g.Valid() && old(g.log) <= g.log && 0 <= i <= |start| && Marked(start, g.s.entries) && Reached(g.s.entries, i, pending)
    {
      i := i - 1;
      ghost var before := g.s.entries;
      ReachedTurn(before, i, pending);
      done, failed := DeleteEntry(g, i, false);
      if failed { return false, true; }
      if done {
        ReachedNext(before, g.s.entries, i, pending);
        continue;
      }
      var e := g.s.entries[i];
      var namespace := OwnedNamespace(start, e.ns);
      if e.kind != Claim || namespace.None? { return false, false; }
      ghost var s0 := g.s;
      ClaimRelaxed(start, g.s.entries, i, namespace.value);
      var pass;
      ghost var seen, home;
      pass, failed, seen, home := PassOver(g, e, start[namespace.value]);
      EntriesKept(s0, g.s);
      if failed || !pass { return false, failed; }
      if !pending { PendingReached(g.s.entries, i + 1); }
      pending := true;
      ReachedNext(g.s.entries, g.s.entries, i, pending);
    }
    return !pending, false;
  }

  // ---------------------------------------------------------------- applying a plan

  /** An object of the plan. */
  datatype Planned = Planned(id: Id, kind: Kind, ns: Id)

  /** Prunes live entries that the plan no longer names, in reverse order. */
  method Prune(g: Guest, plan: seq<Planned>) returns (done: bool, failed: bool)
    requires g.Valid()
    modifies g
    ensures g.Valid() && old(g.log) <= g.log
    ensures done ==> !failed && forall i :: 0 <= i < |g.s.entries| ==>
      g.s.entries[i].deleted || g.s.entries[i].kind == Namespace || exists p :: p in plan && p.id == g.s.entries[i].id
  {
    hide Inv, Rely, Recorded, Enabled, TurnOf;
    var i := |g.s.entries|;
    while 0 < i
      invariant g.Valid() && old(g.log) <= g.log && 0 <= i <= |g.s.entries|
      invariant forall j :: i <= j < |g.s.entries| ==>
        g.s.entries[j].deleted || g.s.entries[j].kind == Namespace || exists p :: p in plan && p.id == g.s.entries[j].id
    {
      i := i - 1;
      var e := g.s.entries[i];
      if !e.deleted && e.kind != Namespace && !(exists p :: p in plan && p.id == e.id) {
        done, failed := DeleteEntry(g, i, true);
        if !done { return false, failed; }
      }
    }
    return true, false;
  }

  lemma InventoriedKept(entries: seq<Entry>, later: seq<Entry>, id: Id, other: Id)
    requires Inventoried(entries, id) && Extends(entries, later, other) && id != other
    ensures Inventoried(later, id)
  {
    var i :| LiveEntry(entries, i, id) && entries[i].uid != 0;
    assert later[i] == entries[i];
  }

  /** Entries of identifiers other than `id` are as they were. */
  ghost predicate Extends(entries: seq<Entry>, later: seq<Entry>, id: Id) {
    && |entries| <= |later|
    && (forall i :: 0 <= i < |entries| ==> later[i].id == entries[i].id && (entries[i].id != id ==> later[i] == entries[i]))
    && (forall i :: |entries| <= i < |later| ==> later[i].id == id)
  }

  /** Stores the plan of a first capture, or of a refresh, with the journal as it is. */
  method AdoptPlan(g: Guest, p: Plan) returns (failed: bool)
    requires g.Valid() && PlanSound(p) && KindsAgree(g.s.entries, p)
    modifies g
    ensures g.Valid() && old(g.log) <= g.log && g.s.entries == old(g.s).entries
    ensures g.s.plan == p || (failed && g.s.plan == old(g.s).plan)
  {
    hide Inv, Recorded, PlanSound, KindsAgree, MarksKept, VersionsKept;
    failed := g.Issue(Adopt(p));
  }

  /** What is planned is what the state record says. */
  ghost predicate Planning(plan: seq<Planned>, p: Plan) {
    && |plan| == |p.order| && (forall k :: 0 <= k < |plan| ==> plan[k].id == p.order[k])
    && (forall k :: 0 <= k < |plan| ==> plan[k].id in p.kinds && plan[k].kind == p.kinds[plan[k].id])
  }

  /** Everything journaled by this pass so far is among the first `k` objects of the plan,
      and stands after what it needs. */
  ghost predicate PassOrdered(start: seq<Entry>, entries: seq<Entry>, p: Plan, k: nat)
    requires k <= |p.order|
  {
    && |start| <= |entries| && (forall j :: |start| <= j < |entries| ==> entries[j].id in p.order[..k])
    && NewOrdered(|start|, entries, p)
  }

  lemma PassNext(start: seq<Entry>, entries: seq<Entry>, later: seq<Entry>, p: Plan, k: nat)
    requires PlanSound(p) && k < |p.order| && PassOrdered(start, entries, p, k) && Extends(entries, later, p.order[k])
    requires forall j :: 0 <= j < k ==> Inventoried(entries, p.order[j])
    ensures PassOrdered(start, later, p, k + 1)
  {
    var external :| O.DependenciesFirst(p.needs, external, p.order);
    assert Distinct(p.order);
    hide O.DependenciesFirst, PlanSound, Needs;
    var id := p.order[k];
    forall j | |start| <= j < |later| ensures later[j].id in p.order[..k + 1] {
      if j < |entries| { assert entries[j].id in p.order[..k]; }
    }
    forall j, x | |start| <= j < |later| && !later[j].deleted && Needs(p.needs, later[j].id, x) ensures LiveBefore(later, j, x) {
      var a, b := NeedsEarlier(p.needs, external, p.order, later[j].id, x);
      var m :| 0 <= m <= k && p.order[m] == later[j].id;
      assert m == b && x != id;
      if j < |entries| {
        assert entries[j].id in p.order[..k];
        assert entries[j] == later[j];
        var i :| 0 <= i < j && LiveEntry(entries, i, x);
        assert LiveEntry(later, i, x);
      } else {
        assert Inventoried(entries, p.order[a]);
        var i :| LiveEntry(entries, i, x);
        assert LiveEntry(later, i, x);
      }
    }
  }

  lemma PassFits(entries: seq<Entry>, p: Plan, plan: seq<Planned>, k: nat)
    requires PlanSound(p) && Planning(plan, p) && k < |plan| && forall j :: 0 <= j < k ==> Inventoried(entries, p.order[j])
    ensures Fits(entries, p, plan[k].id, plan[k].kind)
  {
    var external :| O.DependenciesFirst(p.needs, external, p.order);
    assert Distinct(p.order);
    forall x, y | 0 <= x < y < |p.order| && p.order[y] == plan[k].id ensures HasLive(entries, p.order[x]) {
      assert y == k && Inventoried(entries, p.order[x]);
      var i :| LiveEntry(entries, i, p.order[x]);
    }
  }

  lemma PassEnds(start: seq<Entry>, s: State)
    requires Inv(s) && PassOrdered(start, s.entries, s.plan, |s.plan.order|)
    requires forall j :: 0 <= j < |s.plan.order| ==> Inventoried(s.entries, s.plan.order[j])
    ensures AllLive(s.entries, s.plan)
    ensures Kept(start, s.entries, s.plan) ==> (Follows(s.entries, s.plan.needs) <==> RefreshOrderly(start, s.plan))
  {
    InvPlan(s);
    forall id | id in s.plan.needs ensures HasLive(s.entries, id) {
      assert id in O.Elements(s.plan.order);
      var j :| 0 <= j < |s.plan.order| && s.plan.order[j] == id;
      assert Inventoried(s.entries, s.plan.order[j]);
      var i :| LiveEntry(s.entries, i, id);
    }
    hide Inv, AllLive, Kept, Follows, RefreshOrderly, NewOrdered, Inventoried;
    if Kept(start, s.entries, s.plan) { FollowsExactly(start, s.entries, s.plan); }
  }

  lemma PassBegins(start: seq<Entry>, p: Plan)
    ensures PassOrdered(start, start, p, 0)
  {}

  lemma DistinctPlan(plan: seq<Planned>, p: Plan)
    requires PlanSound(p) && Planning(plan, p)
    ensures forall i, j :: 0 <= i < j < |plan| ==> plan[i].id != plan[j].id
  {
    var external :| O.DependenciesFirst(p.needs, external, p.order);
    assert Distinct(p.order);
  }

  /** Applies the plan in its order.  Afterwards every planned object is inventoried; and
      when none of them was marked gone, the journal follows the plan exactly when the
      refresh was orderly. */
  method ApplyPlan(g: Guest, plan: seq<Planned>, refresh: bool) returns (done: bool, failed: bool)
    requires g.Valid() && Planning(plan, g.s.plan)
    modifies g
    ensures g.Valid() && old(g.log) <= g.log
    ensures done ==> !failed && (forall p :: p in plan ==> Inventoried(g.s.entries, p.id)) && g.s.plan == old(g.s).plan
    ensures done && Kept(old(g.s).entries, g.s.entries, g.s.plan) ==>
      (Follows(g.s.entries, g.s.plan.needs) <==> RefreshOrderly(old(g.s).entries, g.s.plan))
  {
    hide Inv, Rely, Recorded, Inventoried, Fits, PassOrdered, PlanSound, Extends, Kept, Follows, RefreshOrderly;
    ghost var start := g.s.entries;
    ghost var p := g.s.plan;
    PassBegins(start, p);
    for k := 0 to |plan|
      invariant g.Valid() && old(g.log) <= g.log && g.s.plan == p
      invariant forall j :: 0 <= j < k ==> Inventoried(g.s.entries, plan[j].id)
      invariant PassOrdered(start, g.s.entries, p, k)
    {
      var waiting: bool := *; // an operator or a definition it needs is not ready
      if waiting { return false, false; }
      ghost var before := g.s.entries;
      InvPlan(g.s);
      PassFits(before, p, plan, k);
      failed := ApplyObject(g, plan[k].id, plan[k].kind, plan[k].ns, refresh, false);
      if failed { return false, true; }
      PassNext(start, before, g.s.entries, p, k);
      DistinctPlan(plan, p);
      forall j | 0 <= j < k ensures Inventoried(g.s.entries, plan[j].id) { InventoriedKept(before, g.s.entries, plan[j].id, plan[k].id); }
    }
    PassEnds(start, g.s);
    return true, false;
  }
}
