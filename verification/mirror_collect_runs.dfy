/** One pass of `collect` over the enrolled runs. */
module MirrorCollectRuns {
  import opened Common
  import opened MirrorProtocol
  import opened MirrorFacts
  import opened MirrorCluster
  import opened MirrorCollect

  /** Every request still existing under an enrolled name is the enrolled one. */
  ghost predicate NamesKept(s: State, p: Mirror) {
    forall i :: 0 <= i < |p.runs| && p.runs[i].name in s.requests ==> s.requests[p.runs[i].name].uid == p.runs[i].uid
  }

  ghost predicate Journals(s: State, p: Mirror) {
    Inv(s) && s.parent == Some(p)
  }

  lemma JournalsMoved(s: State, t: State, p: Mirror)
    requires Journals(s, p) && Inv(t) && Moved(s, t)
    ensures Journals(t, p)
  {}

  lemma JournalsParts(s: State, p: Mirror)
    requires Journals(s, p)
    ensures Inv(s) && s.parent == Some(p)
  {}

  lemma JournalsNumbered(s: State, p: Mirror, i: nat)
    requires Journals(s, p) && i < |p.runs|
    ensures 0 < p.runs[i].uid < s.next
  {}

  // ---------------------------------------------------------------- loading

  lemma SeenEmpty(s: State, p: Mirror)
    ensures Seen(s, p, 0, map[], map[])
  {}

  /** One more run was looked at: its record first, its request after. */
  lemma SeenNext(s: State, t: State, u: State, p: Mirror, i: nat, states: map<Uid, Versioned>, requests: map<Uid, Request>,
      record: Read<Versioned>, request: Read<Request>)
    requires Journals(s, p) && i < |p.runs| && Seen(s, p, i, states, requests) && Moved(s, t) && Moved(t, u)
    requires p.runs[i].uid !in states && p.runs[i].uid !in requests
    requires record.Found? ==> p.runs[i].uid in s.runs && s.runs[p.runs[i].uid] == record.value
    requires record.Missing? ==> p.runs[i].uid !in s.runs
    requires request.Found? ==> p.runs[i].name in t.requests && t.requests[p.runs[i].name] == request.value && request.value.uid == p.runs[i].uid
    requires request.Missing? ==> p.runs[i].name !in t.requests
    requires !record.Unreadable? && !request.Unreadable?
    ensures Seen(u, p, i + 1,
              if record.Found? then states[p.runs[i].uid := record.value] else states,
              if request.Found? then requests[p.runs[i].uid := request.value] else requests)
  {
    hide Moved, Inv, SeenRun, SeenRequest, Seen, Enrolled, DistinctRuns;
    var x := p.runs[i].uid;
    var later := if record.Found? then states[x := record.value] else states;
    var asked := if request.Found? then requests[x := request.value] else requests;
    MovedTransitive(s, t, u);
    forall j | 0 <= j < i + 1 ensures SeenRun(u, later, p.runs[j].uid) && SeenRequest(u, asked, p.runs[j]) {
      JournalsNumbered(s, p, j);
      if j == i {
        NewSeen(s, t, u, p.runs[i], later, asked, record, request);
      } else {
        Distinct(s, p);
        OtherRun(p, j, i);
        SeenAt(s, p, i, states, requests, j);
        OldSeen(s, u, p.runs[j], states, requests, later, asked);
      }
    }
    SeenEnrolled(s, p, i, states, requests);
    ListedEnrolled(p, i);
    SeenIntro(u, p, i + 1, later, asked);
  }

  lemma OtherRun(p: Mirror, i: nat, j: nat)
    requires DistinctRuns(p) && i < j < |p.runs|
    ensures p.runs[i].uid != p.runs[j].uid
  {}

  lemma ListedEnrolled(p: Mirror, i: nat)
    requires i < |p.runs|
    ensures Enrolled(p, p.runs[i].uid)
  {}

  lemma SeenAt(s: State, p: Mirror, n: nat, states: map<Uid, Versioned>, requests: map<Uid, Request>, j: nat)
    requires n <= |p.runs| && Seen(s, p, n, states, requests) && j < n
    ensures SeenRun(s, states, p.runs[j].uid) && SeenRequest(s, requests, p.runs[j])
  {}

  lemma SeenEnrolled(s: State, p: Mirror, n: nat, states: map<Uid, Versioned>, requests: map<Uid, Request>)
    requires n <= |p.runs| && Seen(s, p, n, states, requests)
    ensures forall u :: u in states ==> Enrolled(p, u)
  {}

  lemma SeenIntro(s: State, p: Mirror, n: nat, states: map<Uid, Versioned>, requests: map<Uid, Request>)
    requires n <= |p.runs|
    requires forall j :: 0 <= j < n ==> SeenRun(s, states, p.runs[j].uid) && SeenRequest(s, requests, p.runs[j])
    requires forall u :: u in states ==> Enrolled(p, u)
    ensures Seen(s, p, n, states, requests)
  {}

  lemma NewSeen(s: State, t: State, u: State, ref: Ref, states: map<Uid, Versioned>, requests: map<Uid, Request>,
      record: Read<Versioned>, request: Read<Request>)
    requires Inv(s) && ref.uid < s.next && Moved(s, t) && Moved(t, u)
    requires ref.uid in states <==> record.Found?
    requires ref.uid in requests <==> request.Found?
    requires record.Found? ==> ref.uid in s.runs && s.runs[ref.uid] == record.value && states[ref.uid] == record.value
    requires record.Missing? ==> ref.uid !in s.runs
    requires request.Found? ==> ref.name in t.requests && t.requests[ref.name] == request.value && request.value.uid == ref.uid && requests[ref.uid] == request.value
    requires request.Missing? ==> ref.name !in t.requests
    requires !record.Unreadable? && !request.Unreadable?
    ensures SeenRun(u, states, ref.uid) && SeenRequest(u, requests, ref)
  {
    MovedTransitive(s, t, u);
    if record.Found? {
      hide Moved, SeenRequest;
      FreshHolds(s, ref.uid);
      HoldsMoved(s, u, ref.uid, record.value);
      MovedKeys(s, u);
    }
  }

  lemma MovedKeys(s: State, t: State)
    requires Moved(s, t)
    ensures t.runs.Keys == s.runs.Keys
  {}

  lemma OldSeen(s: State, u: State, ref: Ref, states: map<Uid, Versioned>, requests: map<Uid, Request>, later: map<Uid, Versioned>, asked: map<Uid, Request>)
    requires SeenRun(s, states, ref.uid) && SeenRequest(s, requests, ref) && Moved(s, u) && ref.uid < s.next
    requires ref.uid in states <==> ref.uid in later
    requires ref.uid in states ==> later[ref.uid] == states[ref.uid]
    requires ref.uid in requests <==> ref.uid in asked
    requires ref.uid in requests ==> asked[ref.uid] == requests[ref.uid]
    ensures SeenRun(u, later, ref.uid) && SeenRequest(u, asked, ref)
  {
    if ref.uid in states { HoldsMoved(s, u, ref.uid, states[ref.uid]); }
  }

  lemma FreshHolds(s: State, uid: Uid)
    requires Inv(s) && uid in s.runs
    ensures Holds(s, uid, s.runs[uid])
  {
    assert RunNumbered(s, uid);
  }

  /** Loads every enrolled record and its request. */
  lemma NothingRead(s: State)
    ensures ReadSince(s, map[])
  {}

  lemma LoadedSince(s: State, t: State, u: State, states: map<Uid, Versioned>, uid: Uid)
    requires Inv(s) && s.ending && ReadSince(s, states) && Rely(s, t) && (Rely(t, u) || t == u)
    ensures u.ending && ReadSince(u, states)
    ensures uid in s.runs ==> ReadSince(u, states[uid := s.runs[uid]])
  {
    hide Inv, ReadSince;
    if t != u { RelyTransitive(s, t, u); }
    ReadSinceMoved(s, u, states);
    if uid in s.runs { ReadSinceNext(s, u, states, uid); }
  }

  /** An identity is listed once. */
  lemma NewHere(s: State, p: Mirror, i: nat)
    requires Journals(s, p) && i < |p.runs|
    ensures forall j :: 0 <= j < i ==> p.runs[j].uid != p.runs[i].uid
  {
    Distinct(s, p);
  }

  lemma ExactNone(s: State, p: Mirror)
    ensures Exact(s, map[]) && ExactRequests(s, p, map[])
  {}

  lemma ExactNext(s: State, p: Mirror, i: nat, states: map<Uid, Versioned>, requests: map<Uid, Request>, record: Read<Versioned>, request: Read<Request>)
    requires Journals(s, p) && i < |p.runs| && Exact(s, states) && ExactRequests(s, p, requests)
    requires record.Found? ==> p.runs[i].uid in s.runs && s.runs[p.runs[i].uid] == record.value
    requires request.Found? ==> p.runs[i].name in s.requests && s.requests[p.runs[i].name] == request.value && request.value.uid == p.runs[i].uid
    ensures Exact(s, if record.Found? then states[p.runs[i].uid := record.value] else states)
    ensures ExactRequests(s, p, if request.Found? then requests[p.runs[i].uid := request.value] else requests)
  {
    hide Inv, Journals;
    Distinct(s, p);
  }

  method LoadAll(c: Cluster, p: Mirror) returns (failed: bool, states: map<Uid, Versioned>, requests: map<Uid, Request>)
    requires Journals(c.s, p)
    requires c.Logged()
    modifies c
    ensures c.Logged() && old(c.log) <= c.log
    ensures Inv(c.s) && Rely(old(c.s), c.s)
    ensures !failed ==> Seen(c.s, p, |p.runs|, states, requests)
    ensures c.calm ==> c.s == old(c.s) && Exact(c.s, states) && ExactRequests(c.s, p, requests)
    ensures c.calm && NamesKept(old(c.s), p) ==> !failed
    ensures old(c.s).ending ==> c.s.ending && ReadSince(c.s, states)
  {
    hide Inv, Rely, Moved, Seen, ReadSince, Journals, DistinctRuns, Exact, ExactRequests;
    ghost var before := c.s;
    RelyReflexive(before);
    JournalsParts(before, p);
    ExactNone(before, p);
    SeenEmpty(before, p);
    states, requests := map[], map[];
    NothingRead(before);
    for i := 0 to |p.runs|
      invariant c.Logged() && old(c.log) <= c.log
      invariant before.ending ==> c.s.ending && ReadSince(c.s, states)
      invariant Journals(c.s, p) && Rely(before, c.s) && Seen(c.s, p, i, states, requests)
      invariant forall u :: u in states || u in requests ==> exists j :: 0 <= j < i && p.runs[j].uid == u
      invariant c.calm ==> c.s == before && Exact(before, states) && ExactRequests(before, p, requests)
    {
      var ref := p.runs[i];
      ghost var s0 := c.s;
      JournalsParts(s0, p);
      NewHere(s0, p, i);
      var record := c.LoadRun(ref.uid);
      ghost var s1 := c.s;
      RelyTransitive(before, s0, s1);
      if before.ending { LoadedSince(s0, s1, s1, states, ref.uid); }
      if record.Unreadable? { return true, states, requests; }
      var request := c.GetRequest(ref.name);
      RelyTransitive(before, s1, c.s);
      if before.ending { LoadedSince(s0, s1, c.s, states, ref.uid); }
      if request.Unreadable? || (request.Found? && request.value.uid != ref.uid) { return true, states, requests; }
      RelyMoved(s0, s1);
      RelyMoved(s1, c.s);
      SeenNext(s0, s1, c.s, p, i, states, requests, record, request);
      JournalsMoved(s0, s1, p);
      JournalsMoved(s1, c.s, p);
      if c.calm { ExactNext(before, p, i, states, requests, record, request); }
      if record.Found? { states := states[ref.uid := record.value]; }
      if request.Found? { requests := requests[ref.uid := request.value]; }
    }
    JournalsParts(c.s, p);
    failed := false;
  }

  lemma Distinct(s: State, p: Mirror)
    requires Journals(s, p)
    ensures DistinctRuns(p)
  {}

  // ---------------------------------------------------------------- what to keep

  /** The revision an enrolled run must keep, as one loaded copy of everything shows it. */
  function Keeps(p: Mirror, states: map<Uid, Versioned>, requests: map<Uid, Request>, id: Uid): set<Uid>
    requires id in states
  {
    var r := states[id].run;
    var live := id in requests && !requests[id].deleting;
    var queued := r.phase == Queued && live;
    if id != p.active && !(id == p.pending && live) && !queued && !(r.child != 0 && r.phase != Retained) then {}
    else
      var revision := if queued && requests[id].reset && requests[id].revision.Some? then requests[id].revision.value.uid else r.revision;
      if revision in states && states[revision].run.capturedAt != 0 then {revision} else {}
  }

  /** A finished capture whose own request still exists. */
  predicate Restorable(states: map<Uid, Versioned>, requests: map<Uid, Request>, id: Uid) {
    id in states && id in requests && !requests[id].deleting && states[id].run.revision == id && states[id].run.capturedAt != 0
  }

  ghost predicate NeededBy(p: Mirror, states: map<Uid, Versioned>, requests: map<Uid, Request>, ids: set<Uid>, keep: set<Uid>) {
    && (forall id :: id in ids && id in states ==> Keeps(p, states, requests, id) <= keep)
    && (forall x :: x in keep ==> exists id :: id in ids && id in states && x in Keeps(p, states, requests, id))
  }

  /** `keep` is what is needed and, newest first, other finished captures up to the limit. */
  ghost predicate KeepsNewest(p: Mirror, states: map<Uid, Versioned>, requests: map<Uid, Request>, needed: set<Uid>, keep: set<Uid>, from: nat, retain: nat)
    requires from <= |p.runs|
  {
    && needed <= keep && (|keep| <= retain || keep == needed)
    && (forall j :: 0 <= j < from && p.runs[j].uid in keep ==> p.runs[j].uid in needed)
    && (forall x :: x in keep && x !in needed ==> Restorable(states, requests, x) && Enrolled(p, x))
    && (forall j :: from <= j < |p.runs| && Restorable(states, requests, p.runs[j].uid) && p.runs[j].uid !in keep ==> |keep| >= retain)
    && (forall j, k :: from <= j < k < |p.runs| && Restorable(states, requests, p.runs[k].uid) && p.runs[k].uid !in keep ==>
          p.runs[j].uid !in keep || p.runs[j].uid in needed)
  }

  method NeededSet(p: Mirror, states: map<Uid, Versioned>, requests: map<Uid, Request>) returns (keep: set<Uid>)
    ensures NeededBy(p, states, requests, states.Keys, keep)
  {
    hide Keeps;
    keep := {};
    var rest := states.Keys;
    while rest != {}
      invariant rest <= states.Keys
      invariant NeededBy(p, states, requests, states.Keys - rest, keep)
    {
      var id :| id in rest;
      rest := rest - {id};
      keep := keep + Keeps(p, states, requests, id);
    }
    assert states.Keys - rest == states.Keys;
  }

  lemma KeepsOneMore(p: Mirror, states: map<Uid, Versioned>, requests: map<Uid, Request>, needed: set<Uid>, keep: set<Uid>, i: nat, retain: nat)
    requires DistinctRuns(p) && i < |p.runs| && |keep| < retain
    requires KeepsNewest(p, states, requests, needed, keep, i + 1, retain)
    ensures KeepsNewest(p, states, requests, needed,
              if Restorable(states, requests, p.runs[i].uid) then keep + {p.runs[i].uid} else keep, i, retain)
  {
    hide Restorable, DistinctRuns;
    var x := p.runs[i].uid;
    forall j | 0 <= j < i ensures p.runs[j].uid != x { OtherRun(p, j, i); }
    ListedEnrolled(p, i);
  }

  method KeepSet(p: Mirror, states: map<Uid, Versioned>, requests: map<Uid, Request>, retain: nat) returns (keep: set<Uid>, needed: set<Uid>)
    requires DistinctRuns(p)
    ensures NeededBy(p, states, requests, states.Keys, needed) && KeepsNewest(p, states, requests, needed, keep, 0, retain)
  {
    keep := NeededSet(p, states, requests);
    needed := keep;
    hide NeededBy, Restorable;
    var i: nat := |p.runs|;
    while 0 < i && |keep| < retain
      invariant i <= |p.runs| && KeepsNewest(p, states, requests, needed, keep, i, retain)
    {
      i := i - 1;
      KeepsOneMore(p, states, requests, needed, keep, i, retain);
      if Restorable(states, requests, p.runs[i].uid) { keep := keep + {p.runs[i].uid}; }
    }
  }

  /** A consumer seen in the copies makes its revision needed. */
  lemma NeededCovers(s: State, p: Mirror, states: map<Uid, Versioned>, requests: map<Uid, Request>, i: nat, r: Uid)
    requires Journals(s, p) && Seen(s, p, |p.runs|, states, requests)
    requires i < |p.runs| && PinnedBy(s, p.runs[i], r) && Captured(s, r)
    ensures p.runs[i].uid in states && r in Keeps(p, states, requests, p.runs[i].uid)
  {
    var ref := p.runs[i];
    hide ClaimsNumbered;
    assert SeenRun(s, states, ref.uid) && SeenRequest(s, requests, ref);
    assert Core(s.runs[ref.uid].run) == Core(states[ref.uid].run);
    WantedIsRequested(s, p, i);
    assert RunShape(s, r) && RunShape(s, ref.uid);
    assert Enrolled(p, r);
    var j :| 0 <= j < |p.runs| && p.runs[j].uid == r;
    assert SeenRun(s, states, r);
    assert Core(s.runs[r].run) == Core(states[r].run);
  }

  lemma KeepCovers(s: State, p: Mirror, states: map<Uid, Versioned>, requests: map<Uid, Request>, keep: set<Uid>)
    requires Journals(s, p) && Seen(s, p, |p.runs|, states, requests)
    requires forall id :: id in states ==> Keeps(p, states, requests, id) <= keep
    ensures Covers(s, keep)
  {
    hide Keeps, Seen, Inv, Captured, PinnedBy;
    forall r | Pinned(s, r) ensures r in keep {
      var i :| 0 <= i < |p.runs| && PinnedBy(s, p.runs[i], r);
      NeededCovers(s, p, states, requests, i, r);
    }
  }

  // ---------------------------------------------------------------- retiring everything first

  /** The loaded copy of an enrolled run may be used to retire it. */
  lemma CopyUsable(s: State, p: Mirror, i: nat, states: map<Uid, Versioned>, requests: map<Uid, Request>)
    requires Journals(s, p) && Seen(s, p, |p.runs|, states, requests) && i < |p.runs| && p.runs[i].uid in states
    ensures var uid := p.runs[i].uid; var r := states[uid].run;
      uid in s.runs && Holds(s, uid, states[uid]) && ClaimsNumbered(r, s.next) && r.child < s.next && r.phase == s.runs[uid].run.phase && r.child == s.runs[uid].run.child
  {
    var uid := p.runs[i].uid;
    assert SeenRun(s, states, uid);
    assert Core(s.runs[uid].run) == Core(states[uid].run);
    assert RunNumbered(s, uid);
  }

  ghost predicate QuietAll(s: State, p: Mirror) {
    forall i :: 0 <= i < |p.runs| && p.runs[i].uid in s.runs ==> Quiet(s, p.runs[i].uid, s.runs[p.runs[i].uid].run)
  }

  /** The copies are exact when nobody acted since they were loaded. */
  ghost predicate Exact(s: State, states: map<Uid, Versioned>) {
    forall u :: u in states ==> u in s.runs && states[u] == s.runs[u]
  }

  lemma SeenMovedIn(s: State, t: State, p: Mirror, states: map<Uid, Versioned>, requests: map<Uid, Request>)
    requires Journals(s, p) && Seen(s, p, |p.runs|, states, requests) && Rely(s, t)
    ensures Seen(t, p, |p.runs|, states, requests)
  {
    SeenMoved(s, t, p, |p.runs|, states, requests);
  }

  lemma SeenHolds(s: State, p: Mirror, states: map<Uid, Versioned>, requests: map<Uid, Request>)
    requires Seen(s, p, |p.runs|, states, requests)
    ensures forall u :: u in states ==> Holds(s, u, states[u])
  {
    hide Holds;
    forall u | u in states ensures Holds(s, u, states[u]) {
      var j :| 0 <= j < |p.runs| && p.runs[j].uid == u;
      assert SeenRun(s, states, u);
    }
  }

  lemma RetiredUpToNext(s: State, t: State, p: Mirror, i: nat, states: map<Uid, Versioned>, requests: map<Uid, Request>)
    requires Journals(s, p) && Seen(s, p, |p.runs|, states, requests) && i < |p.runs|
    requires RetiredUpTo(s, p, i, states) && Rely(s, t)
    requires p.runs[i].uid in states ==> Retired(t, p.runs[i].uid, states[p.runs[i].uid].run)
    ensures RetiredUpTo(t, p, i + 1, states)
  {
    hide Holds, Retired, Moved, Rely, Inv, Seen, DistinctRuns;
    SeenHolds(s, p, states, requests);
    RelyMoved(s, t);
    InvNumbered(s);
    RetiredUpToMoved(s, t, p, i, states);
  }

  lemma InvNumbered(s: State)
    requires Inv(s)
    ensures Numbered(s)
  {}

  lemma QuietAt(s: State, p: Mirror, states: map<Uid, Versioned>, i: nat)
    requires i < |p.runs| && p.runs[i].uid in states && Exact(s, states) && QuietAll(s, p)
    ensures Quiet(s, p.runs[i].uid, states[p.runs[i].uid].run)
  {}

  lemma EndingIdle(s: State, uid: Uid)
    requires s.ending
    ensures Idle(s, uid, true)
  {}

  lemma EndingMoved(s: State, t: State)
    requires s.ending && Rely(s, t)
    ensures t.ending
  {}

  /** Retires every run before any capture may be released. */
  method RetireAll(c: Cluster, p: Mirror, states: map<Uid, Versioned>, requests: map<Uid, Request>) returns (done: bool, failed: bool)
    requires Journals(c.s, p) && c.s.ending && Seen(c.s, p, |p.runs|, states, requests) && ReadSince(c.s, states)
    requires c.Logged()
    modifies c
    ensures c.Logged() && old(c.log) <= c.log
    ensures Journals(c.s, p) && Rely(old(c.s), c.s) && Seen(c.s, p, |p.runs|, states, requests)
    ensures done ==> !failed && AllSwept(c.s)
    ensures c.calm && Exact(old(c.s), states) && QuietAll(old(c.s), p) ==>
      !failed && (if done then c.s == old(c.s) else OneDeleted(old(c.s), c.s))
  {
    hide Inv, Rely, Moved, Seen, Quiet, QuietAll, Exact, Idle, Retired, OneDeleted, ClaimsNumbered, ReadSince, AllSwept;
    ghost var before := c.s;
    RelyReflexive(before);
    for i := 0 to |p.runs|
      invariant c.Logged() && old(c.log) <= c.log
      invariant ReadSince(c.s, states)
      invariant Journals(c.s, p) && Rely(before, c.s) && c.s.ending && Seen(c.s, p, |p.runs|, states, requests)
      invariant RetiredUpTo(c.s, p, i, states)
      invariant c.calm && Exact(before, states) && QuietAll(before, p) ==> c.s == before
    {
      var uid := p.runs[i].uid;
      ghost var s0 := c.s;
      RelyReflexive(s0);
      if uid in states {
        CopyUsable(s0, p, i, states, requests);
        JournalsNumbered(s0, p, i);
        EndingIdle(s0, uid);
        if c.calm && Exact(before, states) && QuietAll(before, p) { QuietAt(s0, p, states, i); }
        done, failed := Retire(c, uid, states[uid].run, true);
        RelyTransitive(before, s0, c.s);
        RelyMoved(s0, c.s);
        JournalsMoved(s0, c.s, p);
        SeenMovedIn(s0, c.s, p, states, requests);
        LoadedSince(s0, c.s, c.s, states, uid);
        if !done { return; }
      }
      RetiredUpToNext(s0, c.s, p, i, states, requests);
    }
    done, failed := true, false;
    AllRetired(c.s, p, states, requests);
  }

  // ---------------------------------------------------------------- removing one run

  /** The record of run `i` is gone and its request is known. */
  ghost predicate RecordGone(s: State, p: Mirror, i: nat, requests: map<Uid, Request>)
    requires i < |p.runs|
  {
    Journals(s, p) && p.runs[i].uid !in s.runs && SeenRequest(s, requests, p.runs[i])
  }

  lemma RecordGoneMoved(s: State, t: State, p: Mirror, i: nat, requests: map<Uid, Request>)
    requires i < |p.runs| && RecordGone(s, p, i, requests) && Rely(s, t) && Inv(t)
    ensures RecordGone(t, p, i, requests)
  {
    JournalsNumbered(s, p, i);
    hide Inv;
    if Requested(t, p.runs[i]) { MovedRequested(s, t, p.runs[i]); }
  }

  lemma ForgetEnabled(s: State, p: Mirror, i: nat, requests: map<Uid, Request>)
    requires i < |p.runs| && RecordGone(s, p, i, requests)
    requires p.runs[i].uid in requests && p.runs[i].name in s.requests && s.requests[p.runs[i].name].uid == p.runs[i].uid ==>
      s.requests[p.runs[i].name].deleting
    ensures Enabled(s, SaveParent(Forget(p, i), RunForgotten(i)))
  {
    var ref := p.runs[i];
    assert NamedOnly(s, ref);
    assert Dismissed(s, ref.uid);
  }

  /** In a calm cluster exactly the record and the reference of one run were removed. */
  ghost predicate ForgotOne(s: State, t: State, p: Mirror) {
    && (exists i :: 0 <= i < |p.runs| && t.parent == Some(Forget(p, i)))
    && t.objects == s.objects && t.ending == s.ending
    && (forall u :: u in t.runs ==> u in s.runs && t.runs[u] == s.runs[u])
    && (forall n :: n in t.requests ==> n in s.requests && t.requests[n].uid == s.requests[n].uid)
  }

  /** Nothing but flags of requests changed. */
  ghost predicate RequestsOnly(s: State, t: State) {
    && t.parent == s.parent && t.objects == s.objects && t.ending == s.ending && t.runs == s.runs
    && t.requests.Keys == s.requests.Keys && (forall n :: n in t.requests ==> t.requests[n].uid == s.requests[n].uid)
  }

  lemma RequestsOnlySelf(s: State)
    ensures RequestsOnly(s, s)
  {}

  lemma RequestWritten(s: State, t: State, w: Write)
    requires RequestsOnly(s, t) && (w.SetFinalizer? || w.DeleteRequest?)
    ensures RequestsOnly(s, Apply(t, w))
  {}

  lemma SameName(s: State, t: State, name: Name)
    requires RequestsOnly(s, t)
    ensures name in s.requests ==> name in t.requests && t.requests[name].uid == s.requests[name].uid
  {}

  lemma ForgotFinal(s: State, t: State, p: Mirror, i: nat)
    requires RequestsOnly(s, t) && i < |p.runs|
    ensures ForgotOne(s, Apply(t, SaveParent(Forget(p, i), RunForgotten(i))), p)
  {}

  method ForgetRun(c: Cluster, p: Mirror, i: nat, requests: map<Uid, Request>) returns (failed: bool)
    requires i < |p.runs| && RecordGone(c.s, p, i, requests)
    requires c.Logged()
    modifies c
    ensures c.Logged() && old(c.log) <= c.log
    ensures Inv(c.s) && (!failed ==> c.s.parent == Some(Forget(p, i)))
    ensures c.s.teardown == old(c.s).teardown
    ensures c.calm && (p.runs[i].uid in requests ==> p.runs[i].name in old(c.s).requests && old(c.s).requests[p.runs[i].name].uid == p.runs[i].uid) ==>
      !failed && ForgotOne(old(c.s), c.s, p)
  {
    hide Inv, Moved, Rely, Apply, Enabled, RecordGone, SeenRequest, Forget, RequestsOnly, ForgotOne;
    var ref := p.runs[i];
    ghost var s0 := c.s;
    RequestsOnlySelf(s0);
    RecordGoneInv(s0, p, i, requests);
    if ref.uid in requests {
      failed := c.PatchFinalizer(ref.name, false);
      SameTeardown(s0, c.s);
      RequestWritten(s0, s0, SetFinalizer(ref.name, false));
      RecordGoneMoved(s0, c.s, p, i, requests);
      if failed { return; }
      ghost var s1 := c.s;
      RecordGoneInv(s1, p, i, requests);
      if !requests[ref.uid].deleting {
        failed := c.DismissRequest(ref.name, ref.uid);
        SameTeardown(s1, c.s);
        if RequestsOnly(s0, s1) { RequestWritten(s0, s1, DeleteRequest(ref.name)); SameName(s0, s1, ref.name); }
        RecordGoneMoved(s1, c.s, p, i, requests);
        if failed { return; }
      } else {
        StaysDeleting(s1, p, i, requests);
      }
    }
    ghost var s2 := c.s;
    ForgetEnabled(s2, p, i, requests);
    failed := c.Issue(SaveParent(Forget(p, i), RunForgotten(i)));
    WroteTeardown(s2, SaveParent(Forget(p, i), RunForgotten(i)), c.s, failed);
    RecordGoneInv(s2, p, i, requests);
    if RequestsOnly(s0, s2) { ForgotFinal(s0, s2, p, i); }
    if !failed { SavedParent(s2, Forget(p, i), RunForgotten(i), c.s); }
  }

  lemma SameTeardown(s: State, t: State)
    requires Rely(s, t)
    ensures t.teardown == s.teardown
  {}

  /** Only dropping a record and releasing captures during teardown count as teardown. */
  lemma WroteTeardown(s: State, w: Write, t: State, failed: bool)
    requires Wrote(s, w, t, failed)
    ensures w.SaveParent? || w.SaveRun? ==> t.teardown == s.teardown
    ensures w.DropRun? ==> t.teardown ==> s.teardown || w.all
  {}

  lemma SavedParent(s: State, m: Mirror, change: ParentChange, t: State)
    requires Rely(Apply(s, SaveParent(m, change)), t)
    ensures t.parent == Some(m)
  {}

  lemma RecordGoneInv(s: State, p: Mirror, i: nat, requests: map<Uid, Request>)
    requires i < |p.runs| && RecordGone(s, p, i, requests)
    ensures Inv(s) && p.runs[i].uid < s.next && s.parent == Some(p)
  {}

  lemma StaysDeleting(s: State, p: Mirror, i: nat, requests: map<Uid, Request>)
    requires i < |p.runs| && RecordGone(s, p, i, requests) && p.runs[i].uid in requests && requests[p.runs[i].uid].deleting
    ensures p.runs[i].name in s.requests && s.requests[p.runs[i].name].uid == p.runs[i].uid ==> s.requests[p.runs[i].name].deleting
  {
    assert SeenRequest(s, requests, p.runs[i]);
  }

  // ---------------------------------------------------------------- visiting one run

  /** What holds while `collect` walks the runs: nothing outside `keep` is pinned, or
      during teardown every run was retired. */
  ghost predicate Collecting(s: State, p: Mirror, states: map<Uid, Versioned>, requests: map<Uid, Request>, keep: set<Uid>, all: bool) {
    && Journals(s, p) && Seen(s, p, |p.runs|, states, requests)
    && (if all then s.ending && AllSwept(s) && keep == {} else Covers(s, keep))
  }

  lemma CollectingMoved(s: State, t: State, p: Mirror, states: map<Uid, Versioned>, requests: map<Uid, Request>, keep: set<Uid>, all: bool)
    requires Collecting(s, p, states, requests, keep, all) && Rely(s, t) && Inv(t)
    ensures Collecting(t, p, states, requests, keep, all)
  {
    hide Inv, Seen, Covers, AllSwept, Moved;
    RelyMoved(s, t);
    JournalsMoved(s, t, p);
    SeenMovedIn(s, t, p, states, requests);
    if all { SweptMoved(s, t); EndingMoved(s, t); } else { CoversMoved(s, t, keep); }
  }

  /** The run is left alone: active, or live and pending or queued. */
  predicate Spared(p: Mirror, states: map<Uid, Versioned>, requests: map<Uid, Request>, ref: Ref, all: bool)
    requires ref.uid in states
  {
    !all && (ref.uid == p.active ||
      (ref.uid in requests && !requests[ref.uid].deleting && (ref.uid == p.pending || states[ref.uid].run.phase == Queued)))
  }

  lemma SparedSettled(s: State, p: Mirror, i: nat, states: map<Uid, Versioned>, requests: map<Uid, Request>, keep: set<Uid>, all: bool)
    requires Collecting(s, p, states, requests, keep, all) && i < |p.runs| && p.runs[i].uid in states
    requires Spared(p, states, requests, p.runs[i], all)
    ensures SettledRun(s, p.runs[i].uid)
  {
    hide Inv, Seen, Covers;
    CopyUsable(s, p, i, states, requests);
  }

  lemma VisitIdle(s: State, p: Mirror, i: nat, states: map<Uid, Versioned>, requests: map<Uid, Request>, keep: set<Uid>, all: bool)
    requires Collecting(s, p, states, requests, keep, all) && i < |p.runs| && p.runs[i].uid in states
    requires !Spared(p, states, requests, p.runs[i], all)
    ensures Idle(s, p.runs[i].uid, all)
    ensures !all ==> !(s.runs[p.runs[i].uid].run.phase == Queued && Wanted(s, p.runs[i].uid))
  {
    hide Inv, Covers, SeenRun;
    CopyUsable(s, p, i, states, requests);
    assert SeenRequest(s, requests, p.runs[i]);
    Distinct(s, p);
    WantedIsRequested(s, p, i);
  }

  lemma RetiredChildGone(s: State, uid: Uid, v: Versioned)
    requires Holds(s, uid, v) && Retired(s, uid, v.run)
    ensures !ChildPresent(s, uid)
  {
    assert Core(s.runs[uid].run).child == Core(v.run).child;
  }

  lemma VisitReleasable(s: State, p: Mirror, i: nat, states: map<Uid, Versioned>, requests: map<Uid, Request>, keep: set<Uid>, all: bool)
    requires Collecting(s, p, states, requests, keep, all) && i < |p.runs| && p.runs[i].uid in states
    requires !Spared(p, states, requests, p.runs[i], all) && p.runs[i].uid !in keep
    requires Retired(s, p.runs[i].uid, states[p.runs[i].uid].run)
    ensures Releasable(s, p.runs[i].uid, all)
  {
    hide Inv, Seen, Holds, Retired, ClaimsNumbered;
    CopyUsable(s, p, i, states, requests);
    VisitIdle(s, p, i, states, requests, keep, all);
    RetiredChildGone(s, p.runs[i].uid, states[p.runs[i].uid]);
    ListedEnrolled(p, i);
    if !all { assert !Pinned(s, p.runs[i].uid); }
  }

  lemma VisitDropEnabled(s: State, uid: Uid, v: Versioned, all: bool)
    requires Releasable(s, uid, all) && Holds(s, uid, v) && Retired(s, uid, v.run)
    requires CapturesGoneTo(s, v.run.captures, |v.run.captures|)
    ensures Enabled(s, DropRun(uid, v.run, all))
  {
    forall c | c in v.run.captures ensures ClaimGone(s, c.snapshot) && ClaimGone(s, c.content) {
      var j :| 0 <= j < |v.run.captures| && v.run.captures[j] == c;
    }
  }

  lemma VisitRetainEnabled(s: State, p: Mirror, i: nat, states: map<Uid, Versioned>, requests: map<Uid, Request>, keep: set<Uid>)
    requires Collecting(s, p, states, requests, keep, false) && i < |p.runs| && p.runs[i].uid in states
    requires !Spared(p, states, requests, p.runs[i], false)
    requires Retired(s, p.runs[i].uid, states[p.runs[i].uid].run)
    ensures var uid := p.runs[i].uid;
      s.runs[uid].version == states[uid].version ==> Enabled(s, SaveRun(uid, states[uid].run.(phase := Retained), MarkedRetained))
  {
    hide Inv, Seen, Covers;
    CopyUsable(s, p, i, states, requests);
    VisitIdle(s, p, i, states, requests, keep, false);
    ListedEnrolled(p, i);
  }

  /** Retaining one more run keeps everything the walk relies on. */
  lemma RetainKeeps(s: State, p: Mirror, i: nat, states: map<Uid, Versioned>, requests: map<Uid, Request>, keep: set<Uid>, r: Run)
    requires Collecting(s, p, states, requests, keep, false) && i < |p.runs|
    requires Enabled(s, SaveRun(p.runs[i].uid, r, MarkedRetained)) && Settled(s, p, i)
    ensures var uid := p.runs[i].uid; var t := Apply(s, SaveRun(uid, r, MarkedRetained));
      Collecting(t, p, states[uid := Versioned(r, s.next)], requests, keep, false) && Settled(t, p, i + 1)
  {
    var uid := p.runs[i].uid;
    var w := SaveRun(uid, r, MarkedRetained);
    ListedEnrolled(p, i);
    EnabledNumbered(s, uid, r, MarkedRetained);
    hide Inv, Seen, Covers, Enabled, Settled, ClaimsNumbered, Enrolled;
    WriteKeeps(s, w);
    RetainedPins(s, uid, r, keep);
    RetainedSeen(s, uid, r, p, states, requests);
    RetainedSettled(s, uid, r, p, i);
    SettledNext(Apply(s, w), p, i);
  }

  lemma EnabledNumbered(s: State, uid: Uid, r: Run, change: RunChange)
    requires Enabled(s, SaveRun(uid, r, change))
    ensures ClaimsNumbered(r, s.next)
  {}

  lemma SettledNext(s: State, p: Mirror, i: nat)
    requires i < |p.runs| && Settled(s, p, i) && SettledRun(s, p.runs[i].uid)
    ensures Settled(s, p, i + 1)
  {}

  datatype Visit = Passed | Halted | Removed

  /** The known requests are the ones that exist. */
  ghost predicate ExactRequests(s: State, p: Mirror, requests: map<Uid, Request>) {
    forall i :: 0 <= i < |p.runs| && p.runs[i].uid in requests ==>
      p.runs[i].name in s.requests && s.requests[p.runs[i].name].uid == p.runs[i].uid
  }

  lemma DroppedGone(s: State, p: Mirror, i: nat, states: map<Uid, Versioned>, requests: map<Uid, Request>, keep: set<Uid>, all: bool, t: State)
    requires Collecting(s, p, states, requests, keep, all) && i < |p.runs| && p.runs[i].uid in states
    requires Rely(Apply(s, DropRun(p.runs[i].uid, states[p.runs[i].uid].run, all)), t) && Inv(t)
    ensures RecordGone(t, p, i, requests)
  {
    hide Inv, SeenRun, Covers;
    var w := DropRun(p.runs[i].uid, states[p.runs[i].uid].run, all);
    JournalsNumbered(s, p, i);
    assert SeenRequest(s, requests, p.runs[i]);
    if Requested(t, p.runs[i]) { MovedRequested(Apply(s, w), t, p.runs[i]); }
  }

  lemma UnseenGone(s: State, p: Mirror, i: nat, states: map<Uid, Versioned>, requests: map<Uid, Request>, keep: set<Uid>, all: bool)
    requires Collecting(s, p, states, requests, keep, all) && i < |p.runs| && p.runs[i].uid !in states
    ensures RecordGone(s, p, i, requests)
  {
    hide Inv;
    assert SeenRun(s, states, p.runs[i].uid) && SeenRequest(s, requests, p.runs[i]);
  }

  lemma ForgotBoth(s: State, p: Mirror, w: Write, t: State)
    requires w.DropRun? && ForgotOne(Apply(s, w), t, p)
    ensures ForgotOne(s, t, p)
  {}

  lemma ReleaseInv(s: State, t: State, p: Mirror)
    requires Journals(s, p) && Inv(t) && Rely(s, t)
    ensures Journals(t, p)
  {}

  lemma HoldsIn(s: State, p: Mirror, states: map<Uid, Versioned>, requests: map<Uid, Request>, keep: set<Uid>, all: bool, uid: Uid)
    requires Collecting(s, p, states, requests, keep, all) && uid in states
    ensures Holds(s, uid, states[uid])
  {
    SeenHolds(s, p, states, requests);
  }

  /** Deletes the captures and then the record of a retired run that nothing pins. */
  method DropRecord(c: Cluster, p: Mirror, i: nat, states: map<Uid, Versioned>, requests: map<Uid, Request>, keep: set<Uid>, all: bool)
      returns (done: bool, failed: bool)
    requires Collecting(c.s, p, states, requests, keep, all) && i < |p.runs| && p.runs[i].uid in states
    requires !Spared(p, states, requests, p.runs[i], all) && p.runs[i].uid !in keep
    requires Retired(c.s, p.runs[i].uid, states[p.runs[i].uid].run)
    requires c.Logged()
    modifies c
    ensures c.Logged() && old(c.log) <= c.log
    ensures Inv(c.s) && (c.s.teardown ==> old(c.s).teardown || all)
    ensures done ==> !failed && RecordGone(c.s, p, i, requests)
    ensures c.calm && Exact(old(c.s), states) && QuietAll(old(c.s), p) ==>
      !failed && (if done then c.s == Apply(old(c.s), DropRun(p.runs[i].uid, states[p.runs[i].uid].run, all)) else OneDeleted(old(c.s), c.s))
  {
    hide Inv, Rely, Moved, Apply, Collecting, Enabled, Releasable, Retired, Holds, QuietAll, Exact, CapturesGoneTo, OneDeleted, Releases, RecordGone, Spared, ClaimsNumbered;
    var uid := p.runs[i].uid;
    var r := states[uid].run;
    ghost var s0 := c.s;
    CollectingParts(s0, p, i, states, requests, keep, all);
    VisitReleasable(s0, p, i, states, requests, keep, all);
    if c.calm && Exact(s0, states) && QuietAll(s0, p) { QuietAt(s0, p, states, i); }
    done, failed := CleanupCaptures(c, uid, r, all);
    ReleasedTeardown(s0, uid, all, c.s);
    if !done { return; }
    ghost var s1 := c.s;
    RetiredLater(s0, s1, uid, r);
    CollectingMoved(s0, s1, p, states, requests, keep, all);
    HoldsIn(s1, p, states, requests, keep, all, uid);
    StillReleasable(s0, s1, uid, all, GenerationKey(uid));
    VisitDropEnabled(s1, uid, states[uid], all);
    failed := c.Issue(DropRun(uid, r, all));
    WroteTeardown(s1, DropRun(uid, r, all), c.s, failed);
    done := !failed;
    if done { DroppedGone(s1, p, i, states, requests, keep, all, c.s); }
  }

  lemma ReleasedTeardown(s: State, uid: Uid, all: bool, t: State)
    requires Releases(s, uid, all, t)
    ensures t.teardown ==> s.teardown || all
  {}

  lemma RetiredLater(s: State, t: State, uid: Uid, r: Run)
    requires Rely(s, t) && Retired(s, uid, r) && ClaimsNumbered(r, s.next) && r.child < s.next
    ensures Retired(t, uid, r)
  {
    RetiredMoved(s, t, uid, r);
  }

  lemma CollectingParts(s: State, p: Mirror, i: nat, states: map<Uid, Versioned>, requests: map<Uid, Request>, keep: set<Uid>, all: bool)
    requires Collecting(s, p, states, requests, keep, all) && i < |p.runs|
    ensures Inv(s) && s.parent == Some(p) && 0 < p.runs[i].uid < s.next
    ensures p.runs[i].uid in states ==>
      var r := states[p.runs[i].uid].run; ClaimsNumbered(r, s.next) && r.child < s.next && Holds(s, p.runs[i].uid, states[p.runs[i].uid])
  {
    hide Inv, Seen, Covers, ClaimsNumbered, Holds;
    JournalsNumbered(s, p, i);
    if p.runs[i].uid in states { CopyUsable(s, p, i, states, requests); }
  }

  /** A retired run whose revision is still needed: only its phase changes. */
  method RetainRun(c: Cluster, p: Mirror, i: nat, states: map<Uid, Versioned>, requests: map<Uid, Request>, keep: set<Uid>)
      returns (failed: bool, later: map<Uid, Versioned>)
    requires Collecting(c.s, p, states, requests, keep, false) && i < |p.runs| && p.runs[i].uid in states && Settled(c.s, p, i)
    requires !Spared(p, states, requests, p.runs[i], false)
    requires Retired(c.s, p.runs[i].uid, states[p.runs[i].uid].run)
    requires c.Logged()
    modifies c
    ensures c.Logged() && old(c.log) <= c.log
    ensures Inv(c.s) && c.s.teardown == old(c.s).teardown
    ensures !failed ==> Collecting(c.s, p, later, requests, keep, false) && Settled(c.s, p, i + 1)
  {
    hide Inv, Rely, Moved, Apply, Collecting, Enabled, Retired, Holds, Spared, Settled, ClaimsNumbered;
    var uid := p.runs[i].uid;
    var v := states[uid];
    later := states;
    ghost var s0 := c.s;
    CollectingParts(s0, p, i, states, requests, keep, false);
    if v.run.phase == Retained {
      AlreadyRetained(s0, p, i, states, requests, keep);
      return false, states;
    }
    VisitRetainEnabled(s0, p, i, states, requests, keep);
    HoldsVersion(s0, uid, v);
    var saved;
    failed, saved := c.Save(uid, v.run.(phase := Retained), v.version, MarkedRetained);
    WroteTeardown(s0, SaveRun(uid, v.run.(phase := Retained), MarkedRetained), c.s, failed);
    if failed { return; }
    later := states[uid := saved];
    RetainKeeps(s0, p, i, states, requests, keep, v.run.(phase := Retained));
    ghost var s1 := Apply(s0, SaveRun(uid, v.run.(phase := Retained), MarkedRetained));
    CollectingMoved(s1, c.s, p, later, requests, keep, false);
    RelyMoved(s1, c.s);
    SettledMoved(s1, c.s, p, i + 1);
  }

  lemma HoldsVersion(s: State, uid: Uid, v: Versioned)
    requires Holds(s, uid, v)
    ensures uid in s.runs
  {}

  lemma AlreadyRetained(s: State, p: Mirror, i: nat, states: map<Uid, Versioned>, requests: map<Uid, Request>, keep: set<Uid>)
    requires Collecting(s, p, states, requests, keep, false) && i < |p.runs| && p.runs[i].uid in states && Settled(s, p, i)
    requires states[p.runs[i].uid].run.phase == Retained
    ensures Settled(s, p, i + 1)
  {
    hide Inv, Seen, Covers;
    CopyUsable(s, p, i, states, requests);
  }

  /** Nobody acted since everything was loaded, and no name was reused. */
  ghost predicate Undisturbed(s: State, p: Mirror, states: map<Uid, Versioned>, requests: map<Uid, Request>) {
    Exact(s, states) && QuietAll(s, p) && ExactRequests(s, p, requests)
  }

  /** One step towards an empty mirror. */
  ghost predicate Progress(s: State, t: State, p: Mirror) {
    OneDeleted(s, t) || ForgotOne(s, t, p)
  }

  method CollectRun(c: Cluster, p: Mirror, i: nat, states: map<Uid, Versioned>, requests: map<Uid, Request>, keep: set<Uid>, all: bool)
      returns (visit: Visit, failed: bool, later: map<Uid, Versioned>)
    requires Collecting(c.s, p, states, requests, keep, all) && i < |p.runs| && Settled(c.s, p, i)
    requires c.Logged()
    modifies c
    ensures c.Logged() && old(c.log) <= c.log
    ensures Inv(c.s) && (c.s.teardown ==> old(c.s).teardown || all)
    ensures visit.Passed? ==> !failed && !all && Collecting(c.s, p, later, requests, keep, all) && Settled(c.s, p, i + 1)
    ensures visit.Removed? ==> !failed && c.s.parent == Some(Forget(p, i))
    ensures c.calm && all && Undisturbed(old(c.s), p, states, requests) ==> !failed && Progress(old(c.s), c.s, p)
  {
    hide Inv, Rely, Moved, Apply, Collecting, Retired, Holds, Settled, ClaimsNumbered, QuietAll, Exact, OneDeleted, Quiet,
      RecordGone, Spared, Forget, Idle, ForgotOne;
    var ref := p.runs[i];
    var uid := ref.uid;
    later := states;
    ghost var s0 := c.s;
    CollectingParts(s0, p, i, states, requests, keep, all);
    NeverSpared(p, states, requests, ref);
    if uid in states {
      if Spared(p, states, requests, ref, all) {
        SparedSettled(s0, p, i, states, requests, keep, all);
        SettledNext(s0, p, i);
        return Passed, false, states;
      }
      VisitIdle(s0, p, i, states, requests, keep, all);
      if c.calm && Undisturbed(s0, p, states, requests) { QuietAt(s0, p, states, i); }
      var done;
      done, failed := Retire(c, uid, states[uid].run, all);
      SameTeardown(s0, c.s);
      if !done { return Halted, failed, states; }
      ghost var s1 := c.s;
      CollectingMoved(s0, s1, p, states, requests, keep, all);
      if uid in keep {
        KeepEmpty(s1, p, states, requests, keep, all);
        RelyMoved(s0, s1);
        SettledMoved(s0, s1, p, i);
        failed, later := RetainRun(c, p, i, states, requests, keep);
        return if failed then Halted else Passed, failed, later;
      }
      done, failed := DropRecord(c, p, i, states, requests, keep, all);
      if !done { return Halted, failed, states; }
    } else {
      UnseenGone(s0, p, i, states, requests, keep, all);
    }
    ghost var s2 := c.s;
    if c.calm && all && Undisturbed(s0, p, states, requests) && uid in states {
      SameRequests(s0, DropRun(uid, states[uid].run, all));
    }
    failed := ForgetRun(c, p, i, requests);
    if c.calm && all && Undisturbed(s0, p, states, requests) && uid in states {
      ForgotBoth(s0, p, DropRun(uid, states[uid].run, all), c.s);
    }
    visit := if failed then Halted else Removed;
  }

  lemma SameRequests(s: State, w: Write)
    requires w.DropRun?
    ensures Apply(s, w).requests == s.requests
  {}

  lemma NeverSpared(p: Mirror, states: map<Uid, Versioned>, requests: map<Uid, Request>, ref: Ref)
    ensures ref.uid in states ==> !Spared(p, states, requests, ref, true)
  {}

  lemma KeepEmpty(s: State, p: Mirror, states: map<Uid, Versioned>, requests: map<Uid, Request>, keep: set<Uid>, all: bool)
    requires Collecting(s, p, states, requests, keep, all) && keep != {}
    ensures !all
  {}

  /** One pass over all runs.  Done means that nothing is left to retire or to remove. */
  method Collect(c: Cluster, p: Mirror, retain: nat, all: bool) returns (done: bool, failed: bool)
    requires Journals(c.s, p) && (all ==> c.s.ending)
    requires c.Logged()
    modifies c
    ensures c.Logged() && old(c.log) <= c.log
    ensures Inv(c.s) && (c.s.teardown ==> old(c.s).teardown || all)
    ensures done ==> !failed && c.s.parent == Some(p) && (if all then p.runs == [] && c.s.ending else Settled(c.s, p, |p.runs|))
    ensures c.calm && all && QuietAll(old(c.s), p) && NamesKept(old(c.s), p) ==>
      !failed && (if done then c.s == old(c.s) else Progress(old(c.s), c.s, p))
  {
    hide Inv, Rely, Moved, Seen, Collecting, Settled, QuietAll, Exact, ExactRequests, NamesKept, OneDeleted, ForgotOne, AllSwept, ReadSince, Covers, Keeps, NeededBy, KeepsNewest, Forget;
    ghost var s0 := c.s;
    var states, requests;
    done := false;
    failed, states, requests := LoadAll(c, p);
    SameTeardown(s0, c.s);
    if failed { return; }
    ghost var s1 := c.s;
    ReleaseInv(s0, s1, p);
    if all {
      EndingMoved(s0, s1);
      done, failed := RetireAll(c, p, states, requests);
      SameTeardown(s1, c.s);
      if !done { return; }
    }
    ghost var s2 := c.s;
    var keep := {};
    if !all {
      Distinct(s2, p);
      var needed;
      keep, needed := KeepSet(p, states, requests, retain);
      NeededKept(p, states, requests, needed, keep, retain);
      KeepCovers(s2, p, states, requests, keep);
    }
    if all { EndingMoved(s1, s2); }
    CollectingStart(s2, p, states, requests, keep, all);
    done := false;
    ghost var loaded := states;
    for i := 0 to |p.runs|
      invariant c.Logged() && old(c.log) <= c.log
      invariant Collecting(c.s, p, states, requests, keep, all) && Settled(c.s, p, i)
      invariant c.s.teardown ==> s0.teardown || all
      invariant all ==> i == 0 && c.s == s2 && states == loaded
    {
      var visit, later;
      visit, failed, later := CollectRun(c, p, i, states, requests, keep, all);
      if !visit.Passed? { return false, failed; }
      states := later;
    }
    CollectingEnd(c.s, p, states, requests, keep, all);
    return true, false;
  }

  lemma NeededKept(p: Mirror, states: map<Uid, Versioned>, requests: map<Uid, Request>, needed: set<Uid>, keep: set<Uid>, retain: nat)
    requires NeededBy(p, states, requests, states.Keys, needed) && KeepsNewest(p, states, requests, needed, keep, 0, retain)
    ensures forall id :: id in states ==> Keeps(p, states, requests, id) <= keep
  {}

  lemma CollectingStart(s: State, p: Mirror, states: map<Uid, Versioned>, requests: map<Uid, Request>, keep: set<Uid>, all: bool)
    requires Journals(s, p) && Seen(s, p, |p.runs|, states, requests)
    requires if all then s.ending && AllSwept(s) && keep == {} else Covers(s, keep)
    ensures Collecting(s, p, states, requests, keep, all) && Settled(s, p, 0)
  {}

  lemma CollectingEnd(s: State, p: Mirror, states: map<Uid, Versioned>, requests: map<Uid, Request>, keep: set<Uid>, all: bool)
    requires Collecting(s, p, states, requests, keep, all)
    ensures Inv(s) && s.parent == Some(p)
  {}
}
