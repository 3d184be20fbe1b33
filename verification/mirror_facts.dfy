/** What the mirror controller may conclude from what it has read, and why that stays
    true while others act. */
module MirrorFacts {
  import opened Common
  import opened MirrorProtocol

  /** `v` is a copy of the record that is exact as long as its version is current. */
  ghost predicate Holds(s: State, uid: Uid, v: Versioned) {
    && uid in s.runs && v.version < s.next && ClaimsNumbered(v.run, s.next)
    && Core(s.runs[uid].run) == Core(v.run)
    && (s.runs[uid] == v || v.version < s.runs[uid].version)
  }

  ghost predicate SeenRun(s: State, states: map<Uid, Versioned>, uid: Uid) {
    (uid in states <==> uid in s.runs) && (uid in states ==> Holds(s, uid, states[uid]))
  }

  ghost predicate SeenRequest(s: State, requests: map<Uid, Request>, ref: Ref) {
    && (Requested(s, ref) ==> ref.uid in requests && !requests[ref.uid].deleting)
    && (ref.uid in requests && ref.name in s.requests && s.requests[ref.name].uid == ref.uid ==>
          SameRequest(requests[ref.uid], s.requests[ref.name]))
  }

  ghost predicate Seen(s: State, p: Mirror, n: nat, states: map<Uid, Versioned>, requests: map<Uid, Request>)
    requires n <= |p.runs|
  {
    && (forall j :: 0 <= j < n ==> SeenRun(s, states, p.runs[j].uid) && SeenRequest(s, requests, p.runs[j]))
    && (forall u :: u in states ==> Enrolled(p, u))
  }

  /** Everything still pinned is in `keep`. */
  ghost predicate Covers(s: State, keep: set<Uid>) {
    forall r :: Pinned(s, r) ==> r in keep
  }

  /** Deleting the run's own objects is allowed: teardown, or nobody works on the run. */
  ghost predicate Idle(s: State, uid: Uid, all: bool) {
    if all then s.ending else uid != Journal(s).active && !(uid == Journal(s).pending && Wanted(s, uid))
  }

  /** What a finished `collect` leaves: every run is active, pending, queued or retained. */
  ghost predicate SettledRun(s: State, uid: Uid) {
    uid in s.runs &&
    (uid == Journal(s).active || uid == Journal(s).pending || s.runs[uid].run.phase == Queued || s.runs[uid].run.phase == Retained)
  }

  ghost predicate Settled(s: State, p: Mirror, n: nat)
    requires n <= |p.runs|
  {
    forall j :: 0 <= j < n ==> SettledRun(s, p.runs[j].uid)
  }

  ghost predicate RetiredUpTo(s: State, p: Mirror, n: nat, states: map<Uid, Versioned>)
    requires n <= |p.runs|
  {
    forall j :: 0 <= j < n && p.runs[j].uid in states ==> Retired(s, p.runs[j].uid, states[p.runs[j].uid].run)
  }

  // ---------------------------------------------------------------- stability

  lemma HoldsMoved(s: State, t: State, uid: Uid, v: Versioned)
    requires Holds(s, uid, v) && Moved(s, t)
    ensures Holds(t, uid, v)
  {
    ClaimsMonotone(v.run, s.next, t.next);
  }

  lemma SeenMoved(s: State, t: State, p: Mirror, n: nat, states: map<Uid, Versioned>, requests: map<Uid, Request>)
    requires n <= |p.runs| && Seen(s, p, n, states, requests) && Moved(s, t)
    requires forall j :: 0 <= j < n ==> p.runs[j].uid < s.next
    ensures Seen(t, p, n, states, requests)
  {
    forall j | 0 <= j < n ensures SeenRun(t, states, p.runs[j].uid) && SeenRequest(t, requests, p.runs[j]) {
      assert SeenRun(s, states, p.runs[j].uid) && SeenRequest(s, requests, p.runs[j]);
      if p.runs[j].uid in states { HoldsMoved(s, t, p.runs[j].uid, states[p.runs[j].uid]); }
    }
  }

  lemma PinnedMoved(s: State, t: State, r: Uid)
    requires Inv(s) && Moved(s, t) && Pinned(t, r)
    ensures Pinned(s, r)
  {
    hide PinnedBy, Captured, Moved, Sound, Tidy;
    var i :| 0 <= i < |Journal(t).runs| && PinnedBy(t, Journal(t).runs[i], r);
    SameJournal(s, t);
    CapturedBefore(s, t, r);
    PinnedByMoved(s, t, i, r);
  }

  lemma SameJournal(s: State, t: State)
    requires Moved(s, t)
    ensures Journal(t) == Journal(s)
  {}

  lemma CapturedBefore(s: State, t: State, r: Uid)
    requires Moved(s, t) && Captured(t, r)
    ensures Captured(s, r)
  {
    MovedCore(s, t, r);
  }

  lemma PinnedByMoved(s: State, t: State, i: nat, r: Uid)
    requires Inv(s) && Moved(s, t) && i < |Journal(t).runs| && PinnedBy(t, Journal(t).runs[i], r)
    ensures i < |Journal(s).runs| && PinnedBy(s, Journal(s).runs[i], r)
  {
    SameJournal(s, t);
    var ref := Journal(t).runs[i];
    assert ref.uid < s.next;
    hide Tidy, Numbered, Journaled, ActiveSound, OneGeneration, RevisionsKept, ReleasedIdle, ReleasedNumbered;
    MovedCore(s, t, ref.uid);
    if Consumer(t, ref.uid) { MovedConsumer(s, t, ref.uid); }
    if Requested(t, ref) { MovedRequested(s, t, ref); }
    hide Consumer, Requested;
  }

  lemma CoversMoved(s: State, t: State, keep: set<Uid>)
    requires Inv(s) && Covers(s, keep) && Moved(s, t)
    ensures Covers(t, keep)
  {
    forall r | Pinned(t, r) ensures r in keep { PinnedMoved(s, t, r); }
  }

  lemma IdleMoved(s: State, t: State, uid: Uid, all: bool)
    requires uid < s.next && Idle(s, uid, all) && Moved(s, t)
    ensures Idle(t, uid, all)
  {
    if !all && Wanted(t, uid) { MovedWanted(s, t, uid); }
  }

  lemma RetiredMoved(s: State, t: State, uid: Uid, r: Run)
    requires Retired(s, uid, r) && ClaimsNumbered(r, s.next) && r.child < s.next && Moved(s, t)
    ensures Retired(t, uid, r)
  {}

  lemma SettledMoved(s: State, t: State, p: Mirror, n: nat)
    requires n <= |p.runs| && Settled(s, p, n) && Moved(s, t)
    ensures Settled(t, p, n)
  {
    forall j | 0 <= j < n ensures SettledRun(t, p.runs[j].uid) {
      assert SettledRun(s, p.runs[j].uid);
      MovedCore(s, t, p.runs[j].uid);
    }
  }

  lemma RetiredUpToMoved(s: State, t: State, p: Mirror, n: nat, states: map<Uid, Versioned>)
    requires Numbered(s) && Moved(s, t) && n <= |p.runs|
    requires forall u :: u in states ==> Holds(s, u, states[u])
    requires RetiredUpTo(s, p, n, states)
    ensures RetiredUpTo(t, p, n, states)
  {
    forall j | 0 <= j < n && p.runs[j].uid in states ensures Retired(t, p.runs[j].uid, states[p.runs[j].uid].run) {
      var u := p.runs[j].uid;
      assert Holds(s, u, states[u]);
      assert states[u].run.child == Core(s.runs[u].run).child;
      assert RunNumbered(s, u);
      RetiredMoved(s, t, u, states[u].run);
    }
  }

  /** Copies loaded after the mirror ended: exact, or somebody has saved since. */
  ghost predicate ReadSince(s: State, states: map<Uid, Versioned>) {
    forall u :: u in states && u in s.runs ==> s.runs[u] == states[u] || s.endedAt <= s.runs[u].version
  }

  lemma ReadSinceMoved(s: State, t: State, states: map<Uid, Versioned>)
    requires Inv(s) && s.ending && ReadSince(s, states) && Moved(s, t)
    ensures ReadSince(t, states)
  {
    hide Sound, ClaimsNumbered, UniqueRequests, ForceKnown;
  }

  lemma SweptMoved(s: State, t: State)
    requires Inv(s) && s.ending && AllSwept(s) && Moved(s, t)
    ensures AllSwept(t)
  {
    SameJournal(s, t);
    forall i | 0 <= i < |Journal(t).runs| ensures Swept(t, Journal(t).runs[i].uid) {
      var u := Journal(t).runs[i].uid;
      if u in t.runs {
        assert Swept(s, u);
        assert RunNumbered(s, u) && ClaimsNumbered(s.runs[u].run, s.next);
        CoreNumbered(s.runs[u].run, s.next);
        hide Retired, ClaimsNumbered, Sound, UniqueRequests, ForceKnown;
        RetiredMoved(s, t, u, Core(s.runs[u].run));
        if Retired(s, u, s.runs[u].run) { RetiredMoved(s, t, u, s.runs[u].run); }
      }
    }
  }

  lemma CoreNumbered(r: Run, next: Uid)
    requires ClaimsNumbered(r, next)
    ensures ClaimsNumbered(Core(r), next)
  {}

  lemma RetiredCore(s: State, uid: Uid, r: Run)
    requires Retired(s, uid, r)
    ensures Retired(s, uid, Core(r))
  {}

  /** After every loaded copy was retired, everything is swept. */
  lemma AllRetired(s: State, p: Mirror, states: map<Uid, Versioned>, requests: map<Uid, Request>)
    requires s.parent == Some(p) && Seen(s, p, |p.runs|, states, requests) && RetiredUpTo(s, p, |p.runs|, states) && ReadSince(s, states)
    ensures AllSwept(s)
  {
    hide Retired;
    forall i | 0 <= i < |p.runs| ensures Swept(s, p.runs[i].uid) {
      var u := p.runs[i].uid;
      assert SeenRun(s, states, u);
      if u in states { RetiredCore(s, u, states[u].run); }
    }
  }

  lemma ReadSinceNext(s: State, t: State, states: map<Uid, Versioned>, uid: Uid)
    requires Inv(s) && s.ending && ReadSince(s, states) && Moved(s, t) && uid in s.runs
    ensures ReadSince(t, states[uid := s.runs[uid]])
  {
    ReadSinceMoved(s, t, states);
    ReadNow(s, uid);
    ReadSinceMoved(s, t, map[uid := s.runs[uid]]);
    ReadBoth(t, states, uid, s.runs[uid]);
  }

  lemma ReadNow(s: State, uid: Uid)
    requires Inv(s) && s.ending && uid in s.runs
    ensures ReadSince(s, map[uid := s.runs[uid]])
  {}

  lemma ReadBoth(t: State, states: map<Uid, Versioned>, uid: Uid, v: Versioned)
    requires ReadSince(t, states) && ReadSince(t, map[uid := v])
    ensures ReadSince(t, states[uid := v])
  {}

  /** A settled mirror without an active run has no other generation than the pending one. */
  lemma SettledOthers(s: State, p: Mirror)
    requires Sound(s) && s.parent == Some(p) && Settled(s, p, |p.runs|) && p.active == 0
    ensures OthersRetired(s, p.pending)
  {
    forall i | 0 <= i < |p.runs| && p.runs[i].uid != p.pending ensures !ChildPresent(s, p.runs[i].uid) {
      assert SettledRun(s, p.runs[i].uid);
      assert RunShape(s, p.runs[i].uid);
    }
  }

  // ---------------------------------------------------------------- own writes

  /** A deletion of an object is nothing others could not have done. */
  lemma DeletionMoves(s: State, key: Key)
    requires Numbered(s)
    ensures Rely(s, Happen(s, OnObject(Terminate(key))))
  {
    HappenRely(s, OnObject(Terminate(key)));
  }

  lemma SavedHolds(s: State, uid: Uid, r: Run, change: RunChange)
    requires ClaimsNumbered(r, s.next)
    ensures Holds(Apply(s, SaveRun(uid, r, change)), uid, Versioned(r, s.next))
  {
    ClaimsMonotone(r, s.next, s.next + 1);
  }

  lemma HoldsElsewhere(s: State, uid: Uid, r: Run, change: RunChange, other: Uid, v: Versioned)
    requires Holds(s, other, v) && other != uid
    ensures Holds(Apply(s, SaveRun(uid, r, change)), other, v)
  {
    ClaimsMonotone(v.run, s.next, s.next + 1);
  }

  /** Marking a run retained pins nothing new. */
  lemma RetainedPins(s: State, uid: Uid, r: Run, keep: set<Uid>)
    requires Inv(s) && Enabled(s, SaveRun(uid, r, MarkedRetained)) && Covers(s, keep)
    ensures Covers(Apply(s, SaveRun(uid, r, MarkedRetained)), keep)
  {
    hide Inv, Enabled, Apply, Pinned;
    var t := Apply(s, SaveRun(uid, r, MarkedRetained));
    RetainedParts(s, uid, r);
    Saved(s, uid, r, MarkedRetained);
    forall x | Pinned(t, x) ensures x in keep {
      RetainedPin(s, t, uid, r, x);
    }
  }

  lemma RetainedParts(s: State, uid: Uid, r: Run)
    requires Enabled(s, SaveRun(uid, r, MarkedRetained))
    ensures uid in s.runs && SameOutcome(s.runs[uid].run, r) && r.phase == Retained && Journal(s).active != uid
    ensures !(Journal(s).pending == uid && Wanted(s, uid))
  {
    hide Wanted, Present, ClaimsNumbered, Enrolled;
  }

  lemma RetainedPin(s: State, t: State, uid: Uid, r: Run, x: Uid)
    requires uid in s.runs && SameOutcome(s.runs[uid].run, r) && r.phase == Retained && Journal(s).active != uid
    requires !(Journal(s).pending == uid && Wanted(s, uid)) && SaveOf(s, t, uid, r) && Pinned(t, x)
    ensures Pinned(s, x)
  {
    SameWanted(s, t);
    hide Wanted;
    var i :| 0 <= i < |Journal(t).runs| && PinnedBy(t, Journal(t).runs[i], x);
    var ref := Journal(s).runs[i];
    assert Requested(t, ref) == Requested(s, ref);
    assert PinnedBy(s, ref, x);
  }

  lemma SavedSeenRun(s: State, uid: Uid, r: Run, change: RunChange, states: map<Uid, Versioned>, u: Uid)
    requires ClaimsNumbered(r, s.next) && SeenRun(s, states, u)
    ensures SeenRun(Apply(s, SaveRun(uid, r, change)), states[uid := Versioned(r, s.next)], u)
  {
    if u == uid { SavedHolds(s, uid, r, change); }
    else if u in states { HoldsElsewhere(s, uid, r, change, u, states[u]); }
  }

  lemma RetainedSeen(s: State, uid: Uid, r: Run, p: Mirror, states: map<Uid, Versioned>, requests: map<Uid, Request>)
    requires ClaimsNumbered(r, s.next) && Enrolled(p, uid)
    requires Seen(s, p, |p.runs|, states, requests)
    ensures Seen(Apply(s, SaveRun(uid, r, MarkedRetained)), p, |p.runs|, states[uid := Versioned(r, s.next)], requests)
  {
    var t := Apply(s, SaveRun(uid, r, MarkedRetained));
    var later := states[uid := Versioned(r, s.next)];
    forall j | 0 <= j < |p.runs| ensures SeenRun(t, later, p.runs[j].uid) && SeenRequest(t, requests, p.runs[j]) {
      assert SeenRun(s, states, p.runs[j].uid) && SeenRequest(s, requests, p.runs[j]);
      hide SeenRun, ClaimsNumbered;
      SavedSeenRun(s, uid, r, MarkedRetained, states, p.runs[j].uid);
    }
  }

  lemma RetainedSettled(s: State, uid: Uid, r: Run, p: Mirror, n: nat)
    requires Enabled(s, SaveRun(uid, r, MarkedRetained)) && n <= |p.runs| && Settled(s, p, n)
    ensures Settled(Apply(s, SaveRun(uid, r, MarkedRetained)), p, n)
    ensures SettledRun(Apply(s, SaveRun(uid, r, MarkedRetained)), uid)
  {
    var t := Apply(s, SaveRun(uid, r, MarkedRetained));
    forall j | 0 <= j < n ensures SettledRun(t, p.runs[j].uid) { assert SettledRun(s, p.runs[j].uid); }
  }

  /** With distinct UIDs, a run is wanted exactly when its own request is live. */
  lemma WantedIsRequested(s: State, p: Mirror, i: nat)
    requires s.parent == Some(p) && DistinctRuns(p) && i < |p.runs|
    ensures Wanted(s, p.runs[i].uid) == Requested(s, p.runs[i])
  {
    if Wanted(s, p.runs[i].uid) {
      var j :| 0 <= j < |p.runs| && p.runs[j].uid == p.runs[i].uid && Requested(s, p.runs[j]);
      assert j == i;
    }
    if Requested(s, p.runs[i]) { assert Journal(s).runs[i].uid == p.runs[i].uid; }
  }
}
