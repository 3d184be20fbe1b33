/** The durable side of the mirror controller: the protected records, the requests
    and the owned objects, the writes the controller may issue, and what the rest of
    the cluster may do in between. */
module MirrorProtocol {
  import opened Common

  type Name = nat

  datatype Phase = Queued | Capturing | Restoring | AwaitingReplacement | Replacing
                 | AwaitingActivation | Active | Retiring | Retained

  datatype Kind = Generation | Snapshot | Content | Volume | Policy
  datatype Key = Key(kind: Kind, name: Name)
  datatype Object = Object(uid: Uid, owner: Uid, op: Op, deleting: bool, ready: bool)

  /** An inventoried object: its name, the operation that created it, its UID once known. */
  datatype Claim = Claim(key: Key, op: Op, uid: Uid)
  datatype Capture = Capture(snapshot: Claim, content: Claim, handle: Uid, takenAt: Time)
  datatype Import = Import(snapshot: Claim, content: Claim, source: nat)

  datatype Run = Run(
    owner: Name,
    phase: Phase,
    revision: Uid,
    operation: Op,
    child: Uid,
    planned: bool,
    captures: seq<Capture>,
    capturedAt: Time,
    activatedAt: Time,
    imports: seq<Import>,
    policies: seq<Claim>,
    volumes: seq<Claim>)

  datatype Versioned = Versioned(run: Run, version: nat)

  datatype Ref = Ref(name: Name, uid: Uid)
  datatype Mirror = Mirror(runs: seq<Ref>, active: Uid, pending: Uid, lastSync: Time, hold: Time)

  datatype Request = Request(uid: Uid, reset: bool, revision: Option<Ref>, force: bool, deleting: bool, finalizer: bool)

  /** The first nine fields are stored by the API server.  The others record history:
      revisions whose captures the controller has started to delete, whether that happened
      during teardown, runs admitted onto a revision that was already released, requests
      that asked for force, generations the controller created, and when the mirror ended. */
  datatype State = State(
    parent: Option<Mirror>,
    runs: map<Uid, Versioned>,
    requests: map<Name, Request>,
    objects: map<Key, Object>,
    next: Uid,
    now: Time,
    ending: bool,
    helm: bool,
    forcible: bool,
    released: set<Uid>,
    teardown: bool,
    late: set<Uid>,
    forced: set<Uid>,
    made: set<Uid>,
    endedAt: Uid)

  /** A test lease may extend at most 30 minutes from its acceptance. */
  const LEASE: Time := 1800

  const NO_RUNS: Mirror := Mirror([], 0, 0, 0, 0)

  function GenerationKey(run: Uid): Key { Key(Generation, run) }

  function Journal(s: State): Mirror {
    if s.parent.Some? then s.parent.value else NO_RUNS
  }

  ghost predicate Enrolled(p: Mirror, uid: Uid) {
    exists i :: 0 <= i < |p.runs| && p.runs[i].uid == uid
  }

  ghost predicate DistinctRuns(p: Mirror) {
    forall i, j :: 0 <= i < j < |p.runs| ==> p.runs[i].uid != p.runs[j].uid
  }

  /** The request of an enrolled run exists, has the recorded UID and is not being deleted. */
  ghost predicate Requested(s: State, ref: Ref) {
    ref.name in s.requests && s.requests[ref.name].uid == ref.uid && !s.requests[ref.name].deleting
  }

  ghost predicate Wanted(s: State, uid: Uid) {
    exists i :: 0 <= i < |Journal(s).runs| && Journal(s).runs[i].uid == uid && Requested(s, Journal(s).runs[i])
  }

  /** Every request with this UID is gone or being deleted. */
  ghost predicate Dismissed(s: State, uid: Uid) {
    forall n :: n in s.requests && s.requests[n].uid == uid ==> s.requests[n].deleting
  }

  /** Nobody but the request of that name has the UID. */
  ghost predicate NamedOnly(s: State, ref: Ref) {
    forall n :: n in s.requests && s.requests[n].uid == ref.uid ==> n == ref.name
  }

  /** The object still exists under its name with the recorded UID. */
  ghost predicate Present(s: State, key: Key, uid: Uid) {
    uid != 0 && key in s.objects && s.objects[key].uid == uid
  }

  ghost predicate ChildPresent(s: State, run: Uid) {
    run in s.runs && Present(s, GenerationKey(run), s.runs[run].run.child)
  }

  ghost predicate Captured(s: State, uid: Uid) {
    uid in s.runs && s.runs[uid].run.capturedAt != 0
  }

  ghost predicate PastCapture(r: Run) { r.phase != Queued && r.phase != Capturing }

  /** The runs whose revision `collect` must keep. */
  ghost predicate Consumer(s: State, uid: Uid) {
    uid in s.runs &&
    (uid == Journal(s).active ||
     (uid == Journal(s).pending && Wanted(s, uid)) ||
     (s.runs[uid].run.child != 0 && s.runs[uid].run.phase != Retained))
  }

  ghost predicate NamedByReset(s: State, ref: Ref, revision: Uid) {
    ref.uid in s.runs && s.runs[ref.uid].run.phase == Queued && Requested(s, ref) &&
    s.requests[ref.name].reset && s.requests[ref.name].revision.Some? &&
    s.requests[ref.name].revision.value.uid == revision
  }

  ghost predicate PinnedBy(s: State, ref: Ref, revision: Uid) {
    (Consumer(s, ref.uid) && s.runs[ref.uid].run.revision == revision) || NamedByReset(s, ref, revision)
  }

  ghost predicate Pinned(s: State, revision: Uid) {
    Captured(s, revision) &&
    exists i :: 0 <= i < |Journal(s).runs| && PinnedBy(s, Journal(s).runs[i], revision)
  }

  /** A run that still restores from, or runs on, its revision. */
  ghost predicate Depends(s: State, uid: Uid) {
    uid in s.runs && PastCapture(s.runs[uid].run) &&
    (ChildPresent(s, uid) || (!s.teardown && Consumer(s, uid)))
  }

  /** Every object the copy inventories is gone: no object under its name has the recorded UID. */
  ghost predicate ClaimGone(s: State, c: Claim) { !Present(s, c.key, c.uid) }

  ghost predicate Retired(s: State, uid: Uid, r: Run) {
    && !Present(s, GenerationKey(uid), r.child)
    && (forall c :: c in r.volumes ==> ClaimGone(s, c))
    && (forall m :: m in r.imports ==> ClaimGone(s, m.snapshot) && ClaimGone(s, m.content))
    && (forall c :: c in r.policies ==> ClaimGone(s, c))
  }

  ghost predicate CapturesGone(s: State, r: Run) {
    forall c :: c in r.captures ==> ClaimGone(s, c.snapshot) && ClaimGone(s, c.content)
  }

  /** No enrolled run other than `uid` has a recorded generation that still exists. */
  ghost predicate OthersRetired(s: State, uid: Uid) {
    forall i :: 0 <= i < |Journal(s).runs| && Journal(s).runs[i].uid != uid ==> !ChildPresent(s, Journal(s).runs[i].uid)
  }

  /** The accepted lease has passed, or run `uid` asked for force and the grant permits it. */
  ghost predicate LeaseOpen(s: State, uid: Uid) {
    Journal(s).hold <= s.now || (s.forcible && uid in s.forced)
  }

  /** Captures made so far have a backend handle and a recovery point. */
  predicate Taken(r: Run, n: nat) {
    n <= |r.captures| && forall j :: 0 <= j < n ==> r.captures[j].handle != 0 && r.captures[j].takenAt != 0
  }

  /** The recovery point of a capture is the latest of its volumes. */
  function Latest(captures: seq<Capture>): (at: Time)
    ensures forall m :: m in captures ==> m.takenAt <= at
    ensures captures != [] ==> exists m :: m in captures && m.takenAt == at
  {
    if captures == [] then 0
    else
      var rest := Latest(captures[..|captures| - 1]);
      var last := captures[|captures| - 1];
      assert captures == captures[..|captures| - 1] + [last];
      if last.takenAt >= rest then last.takenAt else rest
  }

  /** A generation the controller created is the recorded one, wherever it still exists. */
  ghost predicate MadeIs(s: State, uid: Uid, child: Uid) {
    GenerationKey(uid) in s.objects && s.objects[GenerationKey(uid)].uid in s.made ==> s.objects[GenerationKey(uid)].uid == child
  }

  /** The recorded parts of a run are gone, and so are its volumes and policies unless
      somebody added to these inventories after the mirror had ended. */
  ghost predicate Swept(s: State, uid: Uid) {
    uid in s.runs ==>
      Retired(s, uid, Core(s.runs[uid].run)) && (Retired(s, uid, s.runs[uid].run) || s.endedAt <= s.runs[uid].version)
  }

  /** Every enrolled run was retired. */
  ghost predicate AllSwept(s: State) {
    forall i :: 0 <= i < |Journal(s).runs| ==> Swept(s, Journal(s).runs[i].uid)
  }

  // ---------------------------------------------------------------- controller writes

  datatype ParentChange = Created | LeaseChanged | SyncNoted | RunEnrolled | RunChosen
                        | RunReplaced | RunActivated | RunForgotten(index: nat)

  datatype RunChange = RunAdmitted | Bookkept | CaptureStarted | ResetAdmitted | CaptureFinished | RestoreStepped
                     | ChildRecorded | CandidateReady | MarkedActive | MarkedRetiring | MarkedRetained

  datatype Write =
    | SaveParent(mirror: Mirror, parentChange: ParentChange)
    | DropParent
    | SaveRun(uid: Uid, run: Run, runChange: RunChange)
    | DropRun(uid: Uid, seen: Run, all: bool)
    | CreateObject(key: Key, owner: Uid, op: Op)
    | DeleteObject(key: Key, owner: Uid, all: bool)
    | DeleteCapture(key: Key, owner: Uid, all: bool)
    | SetFinalizer(name: Name, present: bool)
    | DeleteRequest(name: Name)
    | CreateRequest(name: Name)

  function Apply(s: State, w: Write): State {
    match w
    case SaveParent(m, _) => s.(parent := Some(m))
    case DropParent => s.(parent := None)
    case SaveRun(uid, r, change) =>
      s.(runs := s.runs[uid := Versioned(r, s.next)], next := s.next + 1,
         late := if change == ResetAdmitted && r.revision in s.released then s.late + {uid} else s.late)
    case DropRun(uid, _, all) =>
      s.(runs := s.runs - {uid}, teardown := s.teardown || all, late := s.late - {uid})
    case CreateObject(key, owner, op) =>
      Happen(s.(made := if key.kind == Generation && key !in s.objects then s.made + {s.next} else s.made), OnObject(Place(key, owner, op)))
    case DeleteObject(key, _, _) => Happen(s, OnObject(Terminate(key)))
    case DeleteCapture(key, owner, all) =>
      Happen(s.(released := s.released + {owner}, teardown := s.teardown || all), OnObject(Terminate(key)))
    case SetFinalizer(name, present) => Happen(s, OnRequest(Finalize(name, present)))
    case DeleteRequest(name) => Happen(s, OnRequest(Cancel(name)))
    case CreateRequest(name) => Happen(s, OnRequest(Ask(name, false, None, false, false)))
  }

  ghost predicate ParentEnabled(s: State, m: Mirror, change: ParentChange) {
    var p := Journal(s);
    (change.Created? <==> s.parent.None?) &&
    match change
    case Created => m == NO_RUNS
    case LeaseChanged => m == p.(hold := m.hold) && m.hold <= s.now + LEASE
    case SyncNoted => m == p.(lastSync := m.lastSync)
    case RunEnrolled =>
      |m.runs| == |p.runs| + 1 && m == p.(runs := p.runs + [m.runs[|p.runs|]]) &&
      var ref := m.runs[|p.runs|]; 0 < ref.uid < s.next && !Enrolled(p, ref.uid)
    case RunChosen =>
      p.pending == 0 && m == p.(pending := m.pending) && Enrolled(p, m.pending) &&
      m.pending in s.runs && s.runs[m.pending].run.phase == Queued && m.pending !in s.released
    case RunReplaced =>
      p.active != 0 && m == p.(active := 0) && LeaseOpen(s, p.pending) &&
      p.active in s.runs && s.runs[p.active].run.phase == Retiring
    case RunActivated =>
      p.pending != 0 && m == p.(active := p.pending, pending := 0) && p.pending !in s.released &&
      p.pending in s.runs && s.runs[p.pending].run.phase == Active
    case RunForgotten(i) =>
      i < |p.runs| && p.runs[i].uid !in s.runs && Dismissed(s, p.runs[i].uid) && m == Forget(p, i)
  }

  function Forget(p: Mirror, i: nat): Mirror
    requires i < |p.runs|
  {
    var uid := p.runs[i].uid;
    p.(runs := p.runs[..i] + p.runs[i + 1..],
       pending := if p.pending == uid then 0 else p.pending,
       active := if p.active == uid then 0 else p.active)
  }

  /** An inventoried object has the kind of its list and a UID that was issued. */
  predicate Fits(c: Claim, kind: Kind, next: Uid) { c.key.kind == kind && c.uid < next }

  ghost predicate ClaimsNumbered(r: Run, next: Uid) {
    && (forall c :: c in r.volumes ==> Fits(c, Volume, next))
    && (forall m :: m in r.imports ==> Fits(m.snapshot, Snapshot, next) && Fits(m.content, Content, next))
    && (forall c :: c in r.policies ==> Fits(c, Policy, next))
    && (forall c :: c in r.captures ==> Fits(c.snapshot, Snapshot, next) && Fits(c.content, Content, next))
  }

  ghost predicate SameOutcome(r: Run, t: Run) {
    r.owner == t.owner && r.revision == t.revision && r.child == t.child && r.capturedAt == t.capturedAt && r.activatedAt == t.activatedAt
  }

  predicate RestorePhase(p: Phase) { p == Restoring || p == AwaitingReplacement || p == Replacing }

  ghost predicate RunEnabled(s: State, uid: Uid, t: Run, change: RunChange) {
    var p := Journal(s);
    if change == RunAdmitted then
      uid !in s.runs && !Enrolled(p, uid) && 0 < uid < s.next && s.parent.Some? &&
      t == Run(t.owner, Queued, uid, 0, 0, false, [], 0, 0, [], [], [])
    else
      uid in s.runs && Enrolled(p, uid) &&
      var r := s.runs[uid].run;
      match change
      case RunAdmitted => false
      case Bookkept => SameOutcome(r, t) && r.phase == t.phase && |t.captures| == |r.captures|
      case CaptureStarted =>
        p.pending == uid && SameOutcome(r, t) && r.phase == Queued && t.phase == Capturing && t.captures != []
      case ResetAdmitted =>
        p.pending == uid && r.phase == Queued && t.phase == Restoring && t.revision != uid &&
        Enrolled(p, t.revision) && Captured(s, t.revision) && s.runs[t.revision].run.revision == t.revision && t == r.(revision := t.revision, capturedAt := s.runs[t.revision].run.capturedAt, phase := Restoring)
      case CaptureFinished =>
        p.pending == uid && r.phase == Capturing && t.phase == Restoring && t.capturedAt != 0 && uid !in s.released &&
        Taken(t, |t.captures|) && t.capturedAt == Latest(t.captures) &&
        SameOutcome(r.(capturedAt := t.capturedAt), t)
      case RestoreStepped =>
        p.pending == uid && SameOutcome(r, t) && RestorePhase(r.phase) && RestorePhase(t.phase)
      case ChildRecorded =>
        p.pending == uid && r.phase == Restoring && t.phase == Restoring && r.child == 0 && 0 < t.child < s.next &&
        SameOutcome(r.(child := t.child), t) &&
        Captured(s, r.revision) && (r.revision in s.released ==> uid in s.late) && MadeIs(s, uid, t.child) &&
        (s.helm ==> p.active == 0 && OthersRetired(s, uid))
      case CandidateReady =>
        p.pending == uid && SameOutcome(r, t) && RestorePhase(r.phase) && t.phase == AwaitingActivation && r.child != 0
      case MarkedActive =>
        p.pending == uid && r.phase == AwaitingActivation && t.phase == Active && t.activatedAt != 0 &&
        SameOutcome(r.(activatedAt := t.activatedAt), t) && LeaseOpen(s, uid)
      case MarkedRetiring =>
        p.active == uid && SameOutcome(r, t) && t.phase == Retiring
      case MarkedRetained =>
        p.active != uid && SameOutcome(r, t) && t.phase == Retained &&
        !(p.pending == uid && Wanted(s, uid)) && !Present(s, GenerationKey(uid), t.child)
  }

  ghost predicate Unneeded(s: State, uid: Uid, all: bool) {
    if all then s.ending && AllSwept(s)
    else uid != Journal(s).active && !(uid == Journal(s).pending && Wanted(s, uid)) && !Pinned(s, uid)
  }

  ghost predicate Enabled(s: State, w: Write) {
    match w
    case SaveParent(m, change) =>
      ParentEnabled(s, m, change) && (change.RunEnrolled? ==> NamedOnly(s, m.runs[|Journal(s).runs|]))
    case DropParent => s.ending && Journal(s).runs == []
    case SaveRun(uid, t, change) => RunEnabled(s, uid, t, change) && ClaimsNumbered(t, s.next)
    case DropRun(uid, seen, all) =>
      uid in s.runs && Enrolled(Journal(s), uid) &&
      Core(seen) == Core(s.runs[uid].run) && Retired(s, uid, seen) && CapturesGone(s, seen) && Unneeded(s, uid, all)
    case CreateObject(key, owner, op) =>
      key !in s.objects && owner in s.runs && owner == Journal(s).pending &&
      (key.kind == Generation ==>
        key == GenerationKey(owner) && s.runs[owner].run.phase == Restoring && s.runs[owner].run.child == 0 && op == s.runs[owner].run.operation != 0 &&
        (s.helm ==> Journal(s).active == 0 && OthersRetired(s, owner)))
    case DeleteObject(key, owner, all) =>
      if all then s.ending
      else owner != Journal(s).active && !(owner == Journal(s).pending && Wanted(s, owner))
    case DeleteCapture(key, owner, all) =>
      owner in s.runs && Enrolled(Journal(s), owner) && !ChildPresent(s, owner) && Unneeded(s, owner, all) &&
      (!all ==> !(s.runs[owner].run.phase == Queued && Wanted(s, owner)))
    case SetFinalizer(_, _) => true
    case DeleteRequest(_) => true
    case CreateRequest(_) => true
  }

  // ---------------------------------------------------------------- everyone else

  datatype RequestEvent =
    | Ask(name: Name, reset: bool, revision: Option<Ref>, force: bool, finalizer: bool)
    | Cancel(name: Name)
    | LoseRequest(name: Name)
    | Finalize(name: Name, present: bool)

  datatype ObjectEvent =
    | Place(key: Key, owner: Uid, op: Op)
    | Annotate(key: Key, owner: Uid, op: Op, ready: bool)
    | Terminate(key: Key)
    | Vanish(key: Key)

  /** What users, other controllers and the storage system may do between two API calls. */
  datatype Event =
    | Tick(ticks: nat)
    | EndMirror
    | OnRequest(request: RequestEvent)
    | OnObject(object: ObjectEvent)
    | Inventory(uid: Uid, volumes: seq<Claim>, policies: seq<Claim>)

  function AfterRequest(requests: map<Name, Request>, next: Uid, e: RequestEvent): map<Name, Request> {
    match e
    case Ask(name, reset, revision, force, finalizer) =>
      if name in requests then requests
      else requests[name := Request(next, reset, revision, force, false, finalizer)]
    case Cancel(name) =>
      if name in requests then requests[name := requests[name].(deleting := true)] else requests
    case LoseRequest(name) => requests - {name}
    case Finalize(name, present) =>
      // A finalizer cannot be added to an object that is being deleted.
      if name in requests && !(present && requests[name].deleting) then
        requests[name := requests[name].(finalizer := present)]
      else requests
  }

  function AfterObject(objects: map<Key, Object>, next: Uid, e: ObjectEvent): map<Key, Object> {
    match e
    case Place(key, owner, op) =>
      if key in objects then objects else objects[key := Object(next, owner, op, false, false)]
    case Annotate(key, owner, op, ready) =>
      if key in objects then objects[key := objects[key].(owner := owner, op := op, ready := ready)] else objects
    case Terminate(key) =>
      if key in objects then objects[key := objects[key].(deleting := true)] else objects
    case Vanish(key) => objects - {key}
  }

  /** Every change takes the next resource version, which is also the UID of a new object. */
  function Happen(s: State, e: Event): State {
    match e
    case Tick(ticks) => s.(now := s.now + ticks)
    case EndMirror => if s.ending then s else s.(ending := true, endedAt := s.next, next := s.next + 1)
    case OnRequest(r) =>
      s.(requests := AfterRequest(s.requests, s.next, r), next := s.next + 1,
         forced := if r.Ask? && r.force && r.name !in s.requests then s.forced + {s.next} else s.forced)
    case OnObject(o) => s.(objects := AfterObject(s.objects, s.next, o), next := s.next + 1)
    case Inventory(uid, volumes, policies) =>
      if uid in s.runs && (forall c :: c in volumes ==> Fits(c, Volume, s.next)) && (forall c :: c in policies ==> Fits(c, Policy, s.next)) then
        s.(runs := s.runs[uid := Versioned(s.runs[uid].run.(volumes := volumes, policies := policies), s.next)], next := s.next + 1)
      else s
  }

  /** The part of a run record only the mirror controller writes. */
  function Core(r: Run): Run { r.(volumes := [], policies := []) }

  ghost predicate RequestsLater(requests: map<Name, Request>, next: Uid, later: map<Name, Request>) {
    forall n :: n in later && later[n].uid < next ==> n in requests && SameRequest(requests[n], later[n])
  }

  ghost predicate ObjectsLater(objects: map<Key, Object>, next: Uid, later: map<Key, Object>) {
    forall k :: k in later && later[k].uid < next ==>
      k in objects && objects[k].uid == later[k].uid && (objects[k].deleting ==> later[k].deleting)
  }

  /** Only UIDs issued since have joined. */
  ghost predicate Grown(a: set<Uid>, next: Uid, b: set<Uid>) {
    a <= b && forall u :: u in b && u < next ==> u in a
  }

  /** The most anyone else can have changed, whatever the release history says. */
  ghost predicate Moved(s: State, t: State) {
    && t.parent == s.parent && t.helm == s.helm && t.forcible == s.forcible
    && s.now <= t.now && s.next <= t.next && (s.ending ==> t.ending && t.endedAt == s.endedAt)
    && Grown(s.forced, s.next, t.forced) && Grown(s.made, s.next, t.made)
    && t.runs.Keys == s.runs.Keys
    && (forall u :: u in s.runs ==>
          Core(t.runs[u].run) == Core(s.runs[u].run) &&
          (t.runs[u] == s.runs[u] || s.next <= t.runs[u].version))
    && ObjectsLater(s.objects, s.next, t.objects)
    && RequestsLater(s.requests, s.next, t.requests)
  }

  /** The most that can have changed between two API calls of the mirror controller. */
  ghost predicate Rely(s: State, t: State) {
    Moved(s, t) && t.released == s.released && t.teardown == s.teardown && t.late == s.late
  }

  ghost predicate SameRequest(q: Request, r: Request) {
    q.uid == r.uid && q.reset == r.reset && q.revision == r.revision && q.force == r.force && (q.deleting ==> r.deleting)
  }

  lemma MovedTransitive(s: State, t: State, u: State)
    requires Moved(s, t) && Moved(t, u)
    ensures Moved(s, u)
  {}

  lemma RelyReflexive(s: State)
    ensures Rely(s, s)
  {}

  lemma RelyTransitive(s: State, t: State, u: State)
    requires Rely(s, t) && Rely(t, u)
    ensures Rely(s, u)
  {}

  lemma RequestsRely(requests: map<Name, Request>, next: Uid, e: RequestEvent)
    requires 0 < next && forall n :: n in requests ==> 0 < requests[n].uid < next
    ensures var later := AfterRequest(requests, next, e);
      RequestsLater(requests, next, later) && forall n :: n in later ==> 0 < later[n].uid < next + 1
  {}

  lemma ObjectsRely(objects: map<Key, Object>, next: Uid, e: ObjectEvent)
    requires 0 < next && forall k :: k in objects ==> 0 < objects[k].uid < next
    ensures var later := AfterObject(objects, next, e);
      ObjectsLater(objects, next, later) && forall k :: k in later ==> 0 < later[k].uid < next + 1
  {}

  lemma OnRequestRely(s: State, e: RequestEvent)
    requires Numbered(s)
    ensures Rely(s, Happen(s, OnRequest(e))) && Numbered(Happen(s, OnRequest(e)))
  {
    hide AfterRequest, RequestsLater, Rely, RunNumbered;
    RequestsRely(s.requests, s.next, e);
    RequestsMoved(s, Happen(s, OnRequest(e)));
  }

  lemma RequestsMoved(s: State, t: State)
    requires Numbered(s) && t == s.(requests := t.requests, next := s.next + 1, forced := t.forced) && RequestsLater(s.requests, s.next, t.requests)
    requires t.forced == s.forced || t.forced == s.forced + {s.next}
    requires forall n :: n in t.requests ==> 0 < t.requests[n].uid < t.next
    ensures Rely(s, t) && Numbered(t)
  {
    hide RequestsLater;
    forall u | u in t.runs ensures RunNumbered(t, u) { assert RunNumbered(s, u); }
  }

  lemma ObjectsMoved(s: State, t: State)
    requires Numbered(s) && t == s.(objects := t.objects, next := s.next + 1) && ObjectsLater(s.objects, s.next, t.objects)
    requires forall k :: k in t.objects ==> 0 < t.objects[k].uid < t.next
    ensures Rely(s, t) && Numbered(t)
  {
    hide ObjectsLater;
    forall u | u in t.runs ensures RunNumbered(t, u) { assert RunNumbered(s, u); }
  }

  lemma OnObjectRely(s: State, e: ObjectEvent)
    requires Numbered(s)
    ensures Rely(s, Happen(s, OnObject(e))) && Numbered(Happen(s, OnObject(e)))
  {
    hide AfterObject, ObjectsLater, Rely, RunNumbered;
    ObjectsRely(s.objects, s.next, e);
    ObjectsMoved(s, Happen(s, OnObject(e)));
  }

  lemma InventoryRely(s: State, uid: Uid, volumes: seq<Claim>, policies: seq<Claim>)
    requires Numbered(s)
    ensures Rely(s, Happen(s, Inventory(uid, volumes, policies))) && Numbered(Happen(s, Inventory(uid, volumes, policies)))
  {
    hide Rely, Numbered, Fits;
    RunsMoved(s, Happen(s, Inventory(uid, volumes, policies)));
  }

  lemma RunsMoved(s: State, t: State)
    requires Numbered(s) && t == s.(runs := t.runs, next := t.next) && s.next <= t.next && t.runs.Keys == s.runs.Keys
    requires forall u :: u in s.runs && t.runs[u] != s.runs[u] ==> Core(t.runs[u].run) == Core(s.runs[u].run) && t.runs[u].version == s.next < t.next
    ensures Rely(s, t) && Numbered(t)
  {
    forall u | u in t.runs ensures RunNumbered(t, u) { assert RunNumbered(s, u) && Core(t.runs[u].run).child == t.runs[u].run.child; }
  }

  lemma HappenRely(s: State, e: Event)
    requires Numbered(s)
    ensures Rely(s, Happen(s, e)) && Numbered(Happen(s, e))
  {
    match e
    case Tick(ticks) => ClockRely(s, ticks);
    case EndMirror => ClockRely(s, 0);
    case OnRequest(r) => OnRequestRely(s, r);
    case OnObject(o) => OnObjectRely(s, o);
    case Inventory(uid, volumes, policies) => InventoryRely(s, uid, volumes, policies);
  }

  lemma ClockRely(s: State, ticks: nat)
    requires Numbered(s)
    ensures Rely(s, Happen(s, Tick(ticks))) && Numbered(Happen(s, Tick(ticks)))
    ensures Rely(s, Happen(s, EndMirror)) && Numbered(Happen(s, EndMirror))
  {
    forall u | u in s.runs ensures RunNumbered(Happen(s, Tick(ticks)), u) && RunNumbered(Happen(s, EndMirror), u) {
      assert RunNumbered(s, u);
    }
  }

  // ---------------------------------------------------------------- invariant

  ghost predicate RunNumbered(s: State, uid: Uid)
    requires uid in s.runs
  {
    0 < uid < s.next && 0 < s.runs[uid].version < s.next && s.runs[uid].run.child < s.next
  }

  /** UIDs and resource versions are handed out in increasing order. */
  ghost predicate Numbered(s: State) {
    && 0 < s.next && 0 < s.now
    && (forall u :: u in s.runs ==> RunNumbered(s, u))
    && (forall k :: k in s.objects ==> 0 < s.objects[k].uid < s.next)
    && (forall n :: n in s.requests ==> 0 < s.requests[n].uid < s.next)
  }

  ghost predicate RunShape(s: State, uid: Uid)
    requires uid in s.runs
  {
    var r := s.runs[uid].run;
    && (!PastCapture(r) ==> r.child == 0 && r.revision == uid && r.capturedAt == 0)
    && (!Enrolled(Journal(s), uid) ==> r.phase == Queued)
    && (r.phase in {AwaitingActivation, Active, Retiring} ==> r.child != 0)
    && (r.phase in {Active, Retiring} ==> r.activatedAt != 0)
    && (r.phase == Retained ==> !ChildPresent(s, uid))
    && (r.phase == Capturing ==> r.captures != [])
  }

  ghost predicate Journaled(s: State) {
    var p := Journal(s);
    && DistinctRuns(p)
    && (forall i :: 0 <= i < |p.runs| ==> 0 < p.runs[i].uid < s.next)
    && (p.pending != 0 ==> Enrolled(p, p.pending) && p.pending != p.active)
    && (forall u :: u in s.runs ==> RunShape(s, u))
  }

  /** The active pointer is empty or names an enrolled run that passed the activation checks. */
  ghost predicate ActiveSound(s: State) {
    var p := Journal(s);
    p.active != 0 ==>
      && Enrolled(p, p.active)
      && (!s.teardown ==> p.active in s.runs)
      && (p.active in s.runs ==> s.runs[p.active].run.phase in {Active, Retiring} && s.runs[p.active].run.activatedAt != 0)
  }

  /** With the managed provider at most one recorded generation exists. */
  ghost predicate OneGeneration(s: State) {
    s.helm ==> forall u, v :: ChildPresent(s, u) && ChildPresent(s, v) ==> u == v
  }

  /** A revision somebody depends on keeps its protected record, and its captures are
      not being deleted unless that had started before the run was admitted. */
  ghost predicate RevisionsKept(s: State) {
    forall u :: Depends(s, u) ==>
      Captured(s, s.runs[u].run.revision) && (s.runs[u].run.revision in s.released ==> u in s.late)
  }

  /** Releasing starts only with runs that will not be worked on again. */
  ghost predicate ReleasedIdle(s: State) {
    !s.teardown ==> forall u :: u in s.released && u in s.runs ==>
      u != Journal(s).active && !(u == Journal(s).pending && Wanted(s, u)) &&
      !(s.runs[u].run.phase == Queued && Wanted(s, u))
  }

  ghost predicate ReleasedNumbered(s: State) {
    (s.teardown ==> s.ending) &&
    (forall u :: u in s.released ==> u < s.next && (!Enrolled(Journal(s), u) ==> Dismissed(s, u)))
  }

  ghost predicate Sound(s: State) {
    Numbered(s) && Journaled(s) && ActiveSound(s) && OneGeneration(s) && RevisionsKept(s) && ReleasedIdle(s) && ReleasedNumbered(s)
  }

  ghost predicate UniqueRequests(requests: map<Name, Request>) {
    forall m, n :: m in requests && n in requests && requests[m].uid == requests[n].uid ==> m == n
  }

  /** Inventoried UIDs were issued, a request UID belongs to one name for ever, and an
      accepted lease ends within 30 minutes. */
  ghost predicate Tidy(s: State) {
    && (forall u :: u in s.runs ==> ClaimsNumbered(s.runs[u].run, s.next))
    && UniqueRequests(s.requests)
    && (forall i :: 0 <= i < |Journal(s).runs| ==> NamedOnly(s, Journal(s).runs[i]))
    && Journal(s).hold <= s.now + LEASE
    && ForceKnown(s)
    && (s.ending ==> s.endedAt < s.next) && (forall u :: u in s.made ==> u < s.next)
  }

  /** Which requests asked for force; a request never changes its mind. */
  ghost predicate ForceKnown(s: State) {
    (forall u :: u in s.forced ==> u < s.next) && (forall n :: n in s.requests ==> (s.requests[n].force <==> s.requests[n].uid in s.forced))
  }

  ghost predicate Inv(s: State) { Sound(s) && Tidy(s) }

  ghost predicate Start(s: State) {
    s.parent.None? && s.runs == map[] && s.released == {} && !s.teardown && s.late == {} && s.made == {} &&
    Numbered(s) && UniqueRequests(s.requests) && ForceKnown(s) &&
    (forall u :: u in s.forced ==> exists n :: n in s.requests && s.requests[n].uid == u) && (s.ending ==> s.endedAt < s.next)
  }

  lemma EventSound(s: State, e: Event)
    requires Sound(s)
    ensures Sound(Happen(s, e)) && Rely(s, Happen(s, e))
  {
    HappenRely(s, e);
    hide Rely, Numbered;
    RelyKeeps(s, Happen(s, e));
  }

  /** What still holds of a run, an object and a request after the environment acted. */
  lemma MovedPresent(s: State, t: State, key: Key, uid: Uid)
    requires Moved(s, t) && uid < s.next && Present(t, key, uid)
    ensures Present(s, key, uid)
  {}

  lemma MovedChildPresent(s: State, t: State, uid: Uid)
    requires Numbered(s) && Moved(s, t) && ChildPresent(t, uid)
    ensures ChildPresent(s, uid)
  {
    assert Core(t.runs[uid].run) == Core(s.runs[uid].run);
    assert t.runs[uid].run.child == s.runs[uid].run.child;
    assert RunNumbered(s, uid);
  }

  lemma MovedRequested(s: State, t: State, ref: Ref)
    requires Moved(s, t) && ref.uid < s.next && Requested(t, ref)
    ensures Requested(s, ref) && SameRequest(s.requests[ref.name], t.requests[ref.name])
  {}

  lemma MovedWanted(s: State, t: State, uid: Uid)
    requires Moved(s, t) && uid < s.next && Wanted(t, uid)
    ensures Wanted(s, uid)
  {
    var i :| 0 <= i < |Journal(t).runs| && Journal(t).runs[i].uid == uid && Requested(t, Journal(t).runs[i]);
    MovedRequested(s, t, Journal(t).runs[i]);
    assert Journal(s).runs[i].uid == uid && Requested(s, Journal(s).runs[i]);
  }

  lemma MovedConsumer(s: State, t: State, uid: Uid)
    requires Numbered(s) && Moved(s, t) && Consumer(t, uid)
    ensures Consumer(s, uid)
  {
    assert Core(t.runs[uid].run) == Core(s.runs[uid].run);
    assert RunNumbered(s, uid);
    if Wanted(t, uid) { MovedWanted(s, t, uid); }
  }

  lemma RelyDepends(s: State, t: State, uid: Uid)
    requires Numbered(s) && Rely(s, t) && Depends(t, uid)
    ensures Depends(s, uid)
  {
    assert Core(t.runs[uid].run) == Core(s.runs[uid].run);
    if ChildPresent(t, uid) { MovedChildPresent(s, t, uid); } else { MovedConsumer(s, t, uid); }
  }

  lemma MovedDismissed(s: State, t: State, uid: Uid)
    requires Moved(s, t) && uid < s.next && Dismissed(s, uid)
    ensures Dismissed(t, uid)
  {}

  lemma MovedCore(s: State, t: State, uid: Uid)
    requires Moved(s, t) && uid in s.runs
    ensures uid in t.runs && Core(t.runs[uid].run) == Core(s.runs[uid].run)
    ensures SameOutcome(s.runs[uid].run, t.runs[uid].run) && t.runs[uid].run.phase == s.runs[uid].run.phase
  {
    assert Core(t.runs[uid].run) == Core(s.runs[uid].run);
  }

  lemma RelyJournaled(s: State, t: State)
    requires Numbered(s) && Journaled(s) && Rely(s, t)
    ensures Journaled(t)
  {
    forall u | u in t.runs ensures RunShape(t, u) {
      assert RunShape(s, u);
      MovedCore(s, t, u);
      if ChildPresent(t, u) { MovedChildPresent(s, t, u); }
    }
  }

  lemma RelyRevisions(s: State, t: State)
    requires Numbered(s) && RevisionsKept(s) && Rely(s, t)
    ensures RevisionsKept(t)
  {
    forall u | Depends(t, u)
      ensures Captured(t, t.runs[u].run.revision) && (t.runs[u].run.revision in t.released ==> u in t.late)
    {
      RelyDepends(s, t, u);
      MovedCore(s, t, u);
      MovedCore(s, t, s.runs[u].run.revision);
    }
  }

  lemma RelyReleased(s: State, t: State)
    requires Numbered(s) && ReleasedIdle(s) && ReleasedNumbered(s) && Rely(s, t)
    ensures ReleasedIdle(t) && ReleasedNumbered(t)
  {
    forall u | u in t.released ensures u < t.next && (!Enrolled(Journal(t), u) ==> Dismissed(t, u)) {
      if !Enrolled(Journal(t), u) { MovedDismissed(s, t, u); }
    }
    if !t.teardown {
      forall u | u in t.released && u in t.runs
        ensures u != Journal(t).active && !(u == Journal(t).pending && Wanted(t, u)) && !(t.runs[u].run.phase == Queued && Wanted(t, u))
      {
        MovedCore(s, t, u);
        if Wanted(t, u) { MovedWanted(s, t, u); }
      }
    }
  }

  lemma RelyKeeps(s: State, t: State)
    requires Sound(s) && Rely(s, t) && Numbered(t)
    ensures Sound(t)
  {
    RelyJournaled(s, t);
    RelyRevisions(s, t);
    RelyReleased(s, t);
    if Journal(t).active in t.runs { MovedCore(s, t, Journal(t).active); }
    forall u, v | t.helm && ChildPresent(t, u) && ChildPresent(t, v) ensures u == v {
      MovedChildPresent(s, t, u);
      MovedChildPresent(s, t, v);
    }
  }

  // ---------------------------------------------------------------- every write keeps it

  /** Requests and objects change as they may under anyone else's hands. */
  lemma OutsideWriteSound(s: State, w: Write)
    requires Sound(s)
    requires w.CreateObject? || w.DeleteObject? || w.SetFinalizer? || w.DeleteRequest? || w.CreateRequest?
    ensures Sound(Apply(s, w)) && Rely(s, Apply(s, w))
  {
    hide Rely, Sound, Happen;
    match w
    case CreateObject(key, owner, op) => CreateSound(s, key, owner, op);
    case DeleteObject(key, _, _) => EventSound(s, OnObject(Terminate(key)));
    case SetFinalizer(name, present) => EventSound(s, OnRequest(Finalize(name, present)));
    case DeleteRequest(name) => EventSound(s, OnRequest(Cancel(name)));
    case CreateRequest(name) => EventSound(s, OnRequest(Ask(name, false, None, false, false)));
  }

  lemma CreateSound(s: State, key: Key, owner: Uid, op: Op)
    requires Sound(s)
    ensures Sound(Apply(s, CreateObject(key, owner, op))) && Rely(s, Apply(s, CreateObject(key, owner, op)))
  {
    hide Rely, Sound, AfterObject;
    var m := s.(made := if key.kind == Generation && key !in s.objects then s.made + {s.next} else s.made);
    MadeIrrelevant(s, m);
    EventSound(m, OnObject(Place(key, owner, op)));
    EventSound(s, OnObject(Place(key, owner, op)));
    CreateMoves(s, m, Happen(s, OnObject(Place(key, owner, op))), Happen(m, OnObject(Place(key, owner, op))));
  }

  lemma MadeIrrelevant(s: State, t: State)
    requires Sound(s) && t == s.(made := t.made)
    ensures Sound(t)
  {
    HistoryIrrelevant(s, t);
    if RevisionsKept(s) { forall u | Depends(t, u) ensures Depends(s, u) {} }
  }

  lemma CreateMoves(s: State, m: State, t: State, u: State)
    requires Rely(s, t) && u == t.(made := m.made) && t.made == s.made && (m.made == s.made || m.made == s.made + {s.next})
    ensures Rely(s, u)
  {}

  /** Facts about runs that a change of the parent record leaves alone. */
  lemma SameRuns(s: State, t: State)
    requires t == s.(parent := t.parent)
    ensures forall u :: ChildPresent(t, u) == ChildPresent(s, u)
    ensures forall u :: Captured(t, u) == Captured(s, u)
    ensures forall u :: Dismissed(t, u) == Dismissed(s, u)
    ensures forall r :: Requested(t, r) == Requested(s, r)
    ensures Numbered(s) ==> Numbered(t)
    ensures OneGeneration(s) ==> OneGeneration(t)
  {
    if Numbered(s) {
      forall u | u in t.runs ensures RunNumbered(t, u) { assert RunNumbered(s, u); }
    }
  }

  lemma SameRefs(s: State, t: State)
    requires t == s.(parent := t.parent) && Journal(t).runs == Journal(s).runs
    ensures forall u :: Wanted(t, u) == Wanted(s, u)
    ensures forall u :: Enrolled(Journal(t), u) == Enrolled(Journal(s), u)
  {}

  lemma ShapesKept(s: State, t: State)
    requires t == s.(parent := t.parent)
    requires forall u :: u in s.runs ==> RunShape(s, u)
    requires forall u :: u in s.runs && Enrolled(Journal(s), u) ==> Enrolled(Journal(t), u)
    ensures forall u :: u in t.runs ==> RunShape(t, u)
  {
    SameRuns(s, t);
    forall u | u in t.runs ensures RunShape(t, u) { assert RunShape(s, u); }
  }

  /** Pointer changes that do not touch the list of runs. */
  lemma PointersKeep(s: State, m: Mirror, change: ParentChange)
    requires Sound(s) && ParentEnabled(s, m, change) && !change.RunEnrolled? && !change.RunForgotten?
    ensures Sound(s.(parent := Some(m)))
  {
    hide ParentEnabled, Depends, RevisionsKept, ReleasedIdle, ReleasedNumbered, RunShape, ChildPresent, Dismissed, Wanted, Enrolled, Numbered, OneGeneration, ActiveSound;
    var t := s.(parent := Some(m));
    SameRuns(s, t);
    PointersSame(s, m, change);
    SameRefs(s, t);
    ShapesKept(s, t);
    PointersRevisions(s, m, change);
    PointersHistory(s, m, change);
  }

  lemma PointersSame(s: State, m: Mirror, change: ParentChange)
    requires Sound(s) && ParentEnabled(s, m, change) && !change.RunEnrolled? && !change.RunForgotten?
    ensures m.runs == Journal(s).runs
    ensures m.pending != 0 ==> Enrolled(Journal(s), m.pending) && m.pending != m.active
  {
    hide Numbered, RevisionsKept, ReleasedIdle, ReleasedNumbered, OneGeneration, Wanted, RunShape, LeaseOpen, Enrolled, DistinctRuns;
  }

  lemma PointersHistory(s: State, m: Mirror, change: ParentChange)
    requires Sound(s) && ParentEnabled(s, m, change) && !change.RunEnrolled? && !change.RunForgotten?
    requires forall u :: Wanted(s.(parent := Some(m)), u) == Wanted(s, u)
    requires forall u :: Enrolled(m, u) == Enrolled(Journal(s), u)
    requires forall u :: Dismissed(s.(parent := Some(m)), u) == Dismissed(s, u)
    ensures var t := s.(parent := Some(m)); ActiveSound(t) && ReleasedIdle(t) && ReleasedNumbered(t)
  {
    assert Journal(s).pending in s.runs ==> RunShape(s, Journal(s).pending);
    hide Numbered, RevisionsKept, OneGeneration, Wanted, RunShape, LeaseOpen, Enrolled, Dismissed, DistinctRuns;
  }

  lemma PointersRevisions(s: State, m: Mirror, change: ParentChange)
    requires Sound(s) && ParentEnabled(s, m, change) && !change.RunEnrolled? && !change.RunForgotten?
    ensures RevisionsKept(s.(parent := Some(m)))
  {
    var t := s.(parent := Some(m));
    SameRefs(s, t);
    hide Numbered, OneGeneration, ReleasedIdle, ReleasedNumbered, Wanted, LeaseOpen;
    forall u | Depends(t, u)
      ensures Captured(t, t.runs[u].run.revision) && (t.runs[u].run.revision in t.released ==> u in t.late)
    {
      assert RunShape(s, u);
      assert Depends(s, u);
    }
  }

  lemma EnrollKeeps(s: State, m: Mirror)
    requires Sound(s) && ParentEnabled(s, m, RunEnrolled)
    ensures Sound(s.(parent := Some(m)))
  {
    var t := s.(parent := Some(m));
    var p := Journal(s);
    var ref := m.runs[|p.runs|];
    SameRuns(s, t);
    forall u | Enrolled(p, u) ensures Enrolled(m, u) {
      var i :| 0 <= i < |p.runs| && p.runs[i].uid == u;
      assert m.runs[i].uid == u;
    }
    forall u | Wanted(t, u) && u != ref.uid ensures Wanted(s, u) {
      var i :| 0 <= i < |m.runs| && m.runs[i].uid == u && Requested(t, m.runs[i]);
      assert p.runs[i].uid == u && Requested(s, p.runs[i]);
    }
    ShapesKept(s, t);
    assert DistinctRuns(m);
    assert ref.uid in s.runs ==> RunShape(s, ref.uid);
    forall u | Depends(t, u)
      ensures Captured(t, t.runs[u].run.revision) && (t.runs[u].run.revision in t.released ==> u in t.late)
    {
      assert Depends(s, u);
    }
  }

  lemma ForgetRefs(s: State, m: Mirror, i: nat)
    requires Journaled(s) && i < |Journal(s).runs| && m == Forget(Journal(s), i)
    ensures var t := s.(parent := Some(m));
      && DistinctRuns(m)
      && (forall j :: 0 <= j < |m.runs| ==> 0 < m.runs[j].uid < t.next)
      && (forall u :: Enrolled(Journal(s), u) && u != Journal(s).runs[i].uid ==> Enrolled(m, u))
      && (forall u :: Wanted(t, u) ==> Wanted(s, u))
  {
    var t := s.(parent := Some(m));
    var p := Journal(s);
    ForgetLeft(s, m, i);
    hide Requested, Forget, RunShape;
    forall u | Enrolled(p, u) && u != p.runs[i].uid ensures Enrolled(m, u) {
      var j :| 0 <= j < |p.runs| && p.runs[j].uid == u;
      assert m.runs[if j < i then j else j - 1].uid == u;
    }
    forall u | Wanted(t, u) ensures Wanted(s, u) {
      var j :| 0 <= j < |m.runs| && m.runs[j].uid == u && Requested(t, m.runs[j]);
      assert p.runs[if j < i then j else j + 1] == m.runs[j];
    }
  }

  lemma ForgetLeft(s: State, m: Mirror, i: nat)
    requires i < |Journal(s).runs| && m == Forget(Journal(s), i)
    ensures |m.runs| == |Journal(s).runs| - 1
    ensures forall j :: 0 <= j < |m.runs| ==> m.runs[j] == Journal(s).runs[if j < i then j else j + 1]
    ensures forall ref :: Requested(s.(parent := Some(m)), ref) == Requested(s, ref)
  {}

  lemma ForgetKeeps(s: State, m: Mirror, i: nat)
    requires Sound(s) && ParentEnabled(s, m, RunForgotten(i))
    ensures Sound(s.(parent := Some(m)))
  {
    var t := s.(parent := Some(m));
    SameRuns(s, t);
    ForgetRefs(s, m, i);
    ShapesKept(s, t);
    ForgetRevisions(s, t);
    ForgetHistory(s, m, i);
    hide Requested, RunShape, Enrolled, DistinctRuns, Dismissed, ChildPresent, Wanted, OneGeneration, Numbered, Depends, RevisionsKept, ActiveSound, ReleasedIdle, ReleasedNumbered;
  }

  lemma ForgetHistory(s: State, m: Mirror, i: nat)
    requires Sound(s) && ParentEnabled(s, m, RunForgotten(i)) && 0 !in s.runs
    requires var t := s.(parent := Some(m)); forall u :: Wanted(t, u) ==> Wanted(s, u)
    requires forall u :: Enrolled(Journal(s), u) && u != Journal(s).runs[i].uid ==> Enrolled(m, u)
    requires forall u :: Dismissed(s.(parent := Some(m)), u) == Dismissed(s, u)
    ensures var t := s.(parent := Some(m)); ActiveSound(t) && ReleasedIdle(t) && ReleasedNumbered(t)
  {
    hide Wanted, Enrolled, Dismissed, Numbered, Journaled, OneGeneration, RevisionsKept;
  }

  lemma ForgetRevisions(s: State, t: State)
    requires RevisionsKept(s) && t == s.(parent := t.parent)
    requires Journal(t).active == Journal(s).active || Journal(t).active == 0
    requires Journal(t).pending == Journal(s).pending || Journal(t).pending == 0
    requires (forall u :: Wanted(t, u) ==> Wanted(s, u)) && 0 !in s.runs
    ensures RevisionsKept(t)
  {
    hide Wanted;
    forall u | Depends(t, u) ensures Depends(s, u) {}
  }

  lemma SameWanted(s: State, t: State)
    requires t.parent == s.parent && t.requests == s.requests
    ensures forall u :: Wanted(t, u) == Wanted(s, u)
  {
    forall u ensures Wanted(t, u) == Wanted(s, u) {
      if Wanted(s, u) {
        var i :| 0 <= i < |Journal(s).runs| && Journal(s).runs[i].uid == u && Requested(s, Journal(s).runs[i]);
        assert Journal(t).runs[i].uid == u && Requested(t, Journal(t).runs[i]);
      }
      if Wanted(t, u) {
        var i :| 0 <= i < |Journal(t).runs| && Journal(t).runs[i].uid == u && Requested(t, Journal(t).runs[i]);
        assert Journal(s).runs[i].uid == u && Requested(s, Journal(s).runs[i]);
      }
    }
  }

  lemma RunWriteFrame(s: State, uid: Uid, r: Run, change: RunChange)
    requires Sound(s) && RunEnabled(s, uid, r, change)
    ensures var t := Apply(s, SaveRun(uid, r, change));
      && Numbered(t) && t.parent == s.parent
      && (forall u :: Wanted(t, u) == Wanted(s, u))
      && (forall u :: u != uid ==> ChildPresent(t, u) == ChildPresent(s, u) && Consumer(t, u) == Consumer(s, u))
      && (forall u :: Captured(s, u) ==> Captured(t, u))
  {
    hide RunEnabled, Apply, SaveOf, Wanted, ChildPresent, Consumer, Captured, Numbered, Journaled, OneGeneration, RevisionsKept, ActiveSound, ReleasedIdle, ReleasedNumbered;
    RunParts(s, uid, r, change);
    Saved(s, uid, r, change);
    SaveFrame(s, Apply(s, SaveRun(uid, r, change)), uid, r);
  }

  /** What a save of one run leaves alone. */
  ghost predicate SaveOf(s: State, t: State, uid: Uid, r: Run) {
    t == s.(runs := s.runs[uid := Versioned(r, s.next)], next := s.next + 1, late := t.late) && s.late <= t.late
  }

  lemma Saved(s: State, uid: Uid, r: Run, change: RunChange)
    ensures SaveOf(s, Apply(s, SaveRun(uid, r, change)), uid, r)
  {}

  lemma SaveFrame(s: State, t: State, uid: Uid, r: Run)
    requires Numbered(s) && SaveOf(s, t, uid, r) && 0 < uid < s.next && r.child < s.next && (Captured(s, uid) ==> r.capturedAt != 0)
    ensures Numbered(t) && t.parent == s.parent
    ensures forall u :: Wanted(t, u) == Wanted(s, u)
    ensures forall u :: u != uid ==> ChildPresent(t, u) == ChildPresent(s, u) && Consumer(t, u) == Consumer(s, u)
    ensures forall u :: Captured(s, u) ==> Captured(t, u)
  {
    hide Wanted;
    SameWanted(s, t);
    forall u | u in t.runs ensures RunNumbered(t, u) { if u != uid { assert RunNumbered(s, u); } }
  }

  /** What every save of a run has in common. */
  lemma RunParts(s: State, uid: Uid, r: Run, change: RunChange)
    requires Sound(s) && RunEnabled(s, uid, r, change)
    ensures 0 < uid < s.next && r.child < s.next
    ensures change == RunAdmitted ==> uid !in s.runs && !Enrolled(Journal(s), uid) && r.phase == Queued && r.child == 0 && r.revision == uid
    ensures change != RunAdmitted ==> uid in s.runs && Enrolled(Journal(s), uid)
    ensures Captured(s, uid) ==> r.capturedAt != 0
  {
    hide OneGeneration, RevisionsKept, ActiveSound, ReleasedIdle, ReleasedNumbered, OthersRetired, LeaseOpen, Wanted, Enrolled, Requested, Present, Unneeded;
    if uid in s.runs { assert RunShape(s, uid) && RunNumbered(s, uid); }
  }

  lemma RunShapesKept(s: State, uid: Uid, r: Run, change: RunChange)
    requires Sound(s) && RunEnabled(s, uid, r, change)
    requires var t := Apply(s, SaveRun(uid, r, change)); RunShape(t, uid)
    ensures Journaled(Apply(s, SaveRun(uid, r, change)))
  {
    hide RunEnabled, Apply, SaveOf, RunShape, Wanted, Consumer, Captured, ChildPresent, OneGeneration, RevisionsKept, ActiveSound, ReleasedIdle, ReleasedNumbered;
    RunWriteFrame(s, uid, r, change);
    RunParts(s, uid, r, change);
    Saved(s, uid, r, change);
    SaveShapes(s, Apply(s, SaveRun(uid, r, change)), uid, r);
  }

  lemma SaveShapes(s: State, t: State, uid: Uid, r: Run)
    requires Journaled(s) && SaveOf(s, t, uid, r) && RunShape(t, uid)
    requires forall u :: u != uid ==> ChildPresent(t, u) == ChildPresent(s, u)
    ensures Journaled(t)
  {
    forall u | u in t.runs ensures RunShape(t, u) { if u != uid { assert RunShape(s, u); } }
  }

  lemma RunReleasedKept(s: State, uid: Uid, r: Run, change: RunChange)
    requires Sound(s) && RunEnabled(s, uid, r, change)
    requires r.phase == Queued ==> change == RunAdmitted || change == Bookkept
    ensures ReleasedIdle(Apply(s, SaveRun(uid, r, change))) && ReleasedNumbered(Apply(s, SaveRun(uid, r, change)))
  {
    hide RunEnabled, Apply, Wanted, Enrolled, SaveOf, Numbered, Journaled, ActiveSound, OneGeneration, RevisionsKept, ReleasedIdle, ReleasedNumbered;
    RunParts(s, uid, r, change);
    if r.phase == Queued { QueuedStays(s, uid, r, change); }
    Saved(s, uid, r, change);
    SaveReleased(s, Apply(s, SaveRun(uid, r, change)), uid, r);
  }

  lemma QueuedStays(s: State, uid: Uid, r: Run, change: RunChange)
    requires RunEnabled(s, uid, r, change) && (change == RunAdmitted || change == Bookkept)
    ensures uid in s.runs ==> s.runs[uid].run.phase == r.phase
  {}

  lemma SaveReleased(s: State, t: State, uid: Uid, r: Run)
    requires 0 < uid && ReleasedIdle(s) && ReleasedNumbered(s) && ActiveSound(s) && SaveOf(s, t, uid, r)
    requires if uid in s.runs then r.phase == Queued ==> s.runs[uid].run.phase == Queued else !Enrolled(Journal(s), uid)
    ensures ReleasedIdle(t) && ReleasedNumbered(t)
  {
    SameWanted(s, t);
    assert !Enrolled(Journal(s), uid) ==> !Wanted(s, uid);
    hide Wanted, Enrolled;
    forall u | u in t.released ensures u < t.next && (!Enrolled(Journal(t), u) ==> Dismissed(t, u)) {
      assert !Enrolled(Journal(s), u) ==> Dismissed(s, u);
    }
  }

  /** Dependence of the written run itself, unless its child was just recorded. */
  lemma RunRevisionsKept(s: State, uid: Uid, r: Run, change: RunChange)
    requires Sound(s) && RunEnabled(s, uid, r, change)
    requires var t := Apply(s, SaveRun(uid, r, change));
      Depends(t, uid) ==> Captured(t, r.revision) && (r.revision in t.released ==> uid in t.late)
    ensures RevisionsKept(Apply(s, SaveRun(uid, r, change)))
  {
    hide RunEnabled, Apply, SaveOf, ChildPresent, Wanted, Consumer, Captured, Depends, Numbered, Journaled, ActiveSound, OneGeneration, RevisionsKept, ReleasedIdle, ReleasedNumbered;
    RunWriteFrame(s, uid, r, change);
    Saved(s, uid, r, change);
    SaveRevisions(s, Apply(s, SaveRun(uid, r, change)), uid, r);
  }

  lemma SaveRevisions(s: State, t: State, uid: Uid, r: Run)
    requires RevisionsKept(s) && SaveOf(s, t, uid, r)
    requires Depends(t, uid) ==> Captured(t, r.revision) && (r.revision in t.released ==> uid in t.late)
    requires forall u :: u != uid ==> ChildPresent(t, u) == ChildPresent(s, u) && Consumer(t, u) == Consumer(s, u)
    requires forall u :: Captured(s, u) ==> Captured(t, u)
    ensures RevisionsKept(t)
  {
    hide ChildPresent, Consumer, Captured;
    forall u | Depends(t, u)
      ensures Captured(t, t.runs[u].run.revision) && (t.runs[u].run.revision in t.released ==> u in t.late)
    {
      if u != uid { assert Depends(s, u); }
    }
  }

  lemma PointerKept(s: State, uid: Uid, r: Run, change: RunChange)
    requires Sound(s) && RunEnabled(s, uid, r, change)
    requires uid == Journal(s).active ==> r.phase in {Active, Retiring} && r.activatedAt != 0
    requires ChildPresent(Apply(s, SaveRun(uid, r, change)), uid) ==> ChildPresent(s, uid)
    ensures ActiveSound(Apply(s, SaveRun(uid, r, change))) && OneGeneration(Apply(s, SaveRun(uid, r, change)))
  {
    hide RunEnabled, Apply, SaveOf, ChildPresent, Wanted, Consumer, Captured, Numbered, Journaled, ActiveSound, OneGeneration, RevisionsKept, ReleasedIdle, ReleasedNumbered;
    RunWriteFrame(s, uid, r, change);
    Saved(s, uid, r, change);
    SavePointer(s, Apply(s, SaveRun(uid, r, change)), uid, r);
  }

  lemma SavePointer(s: State, t: State, uid: Uid, r: Run)
    requires ActiveSound(s) && OneGeneration(s) && SaveOf(s, t, uid, r)
    requires uid == Journal(s).active ==> r.phase in {Active, Retiring} && r.activatedAt != 0
    requires forall u :: ChildPresent(t, u) ==> ChildPresent(s, u)
    ensures ActiveSound(t) && OneGeneration(t)
  {
    hide ChildPresent, Enrolled;
  }

  lemma AdmitKeeps(s: State, uid: Uid, r: Run)
    requires Sound(s) && RunEnabled(s, uid, r, RunAdmitted)
    ensures Sound(Apply(s, SaveRun(uid, r, RunAdmitted)))
  {
    RunParts(s, uid, r, RunAdmitted);
    AdmitShape(s, uid, r);
    hide RunEnabled, RunShape, Numbered, Journaled, RevisionsKept, ReleasedIdle, ReleasedNumbered, ActiveSound, OneGeneration, ChildPresent, Depends;
    RunWriteFrame(s, uid, r, RunAdmitted);
    RunShapesKept(s, uid, r, RunAdmitted);
    RunReleasedKept(s, uid, r, RunAdmitted);
    RunRevisionsKept(s, uid, r, RunAdmitted);
    PointerKept(s, uid, r, RunAdmitted);
  }

  lemma AdmitShape(s: State, uid: Uid, r: Run)
    requires Sound(s) && RunEnabled(s, uid, r, RunAdmitted)
    ensures var t := Apply(s, SaveRun(uid, r, RunAdmitted)); RunShape(t, uid) && !Depends(t, uid) && !ChildPresent(t, uid)
    ensures uid != Journal(s).active
  {
    hide Numbered, RevisionsKept, ReleasedIdle, ReleasedNumbered, OneGeneration, Wanted;
  }

  /** What remains to be shown about the written run itself. */
  lemma RunWriteCombine(s: State, uid: Uid, r: Run, change: RunChange)
    requires Sound(s) && RunEnabled(s, uid, r, change) && !change.RunAdmitted? && r.phase != Queued
    requires RunShape(Apply(s, SaveRun(uid, r, change)), uid)
    requires var t := Apply(s, SaveRun(uid, r, change));
      Depends(t, uid) ==> Captured(t, r.revision) && (r.revision in t.released ==> uid in t.late)
    requires ActiveSound(Apply(s, SaveRun(uid, r, change))) && OneGeneration(Apply(s, SaveRun(uid, r, change)))
    ensures Sound(Apply(s, SaveRun(uid, r, change)))
  {
    var t := Apply(s, SaveRun(uid, r, change));
    hide Numbered, Journaled, ReleasedIdle, ReleasedNumbered, ActiveSound, OneGeneration, RunShape, Depends, RevisionsKept;
    RunWriteFrame(s, uid, r, change);
    RunShapesKept(s, uid, r, change);
    RunReleasedKept(s, uid, r, change);
    RunRevisionsKept(s, uid, r, change);
  }

  /** Changes that neither record a child nor move a revision. */
  lemma PhaseShape(s: State, uid: Uid, r: Run, change: RunChange)
    requires Sound(s) && RunEnabled(s, uid, r, change) && r.phase != Queued
    requires !change.RunAdmitted? && !change.ResetAdmitted? && !change.CaptureFinished? && !change.ChildRecorded?
    ensures var t := Apply(s, SaveRun(uid, r, change));
      RunShape(t, uid) && ChildPresent(t, uid) == ChildPresent(s, uid) && (Depends(t, uid) ==> Depends(s, uid)) && r.revision == s.runs[uid].run.revision
  {
    hide RunEnabled, Apply, SaveOf, RunShape, ChildPresent, Enrolled, Depends, OneGeneration, RevisionsKept, ActiveSound, ReleasedIdle, ReleasedNumbered;
    PhaseParts(s, uid, r, change);
    Saved(s, uid, r, change);
    SavePhase(s, Apply(s, SaveRun(uid, r, change)), uid, r);
  }

  /** What such a change takes from the run before. */
  ghost predicate Continues(s: State, uid: Uid, r: Run) {
    uid in s.runs && var o := s.runs[uid].run;
    && r.child == o.child && r.revision == o.revision && r.capturedAt == o.capturedAt
    && (!PastCapture(r) ==> !PastCapture(o))
    && (PastCapture(r) ==> PastCapture(o) || (r.phase == Retained && uid != Journal(s).active && !(uid == Journal(s).pending && Wanted(s, uid))))
    && (r.phase in {AwaitingActivation, Active, Retiring} ==> r.child != 0)
    && (r.phase in {Active, Retiring} ==> r.activatedAt != 0)
    && (r.phase == Retained ==> !Present(s, GenerationKey(uid), r.child))
    && (r.phase == Capturing ==> r.captures != [])
    && (o.phase == Retained ==> r.phase == Retained || uid == Journal(s).active)
  }

  lemma PhaseParts(s: State, uid: Uid, r: Run, change: RunChange)
    requires Sound(s) && RunEnabled(s, uid, r, change) && r.phase != Queued
    requires !change.RunAdmitted? && !change.ResetAdmitted? && !change.CaptureFinished? && !change.ChildRecorded?
    ensures Continues(s, uid, r) && Enrolled(Journal(s), uid)
  {
    RunParts(s, uid, r, change);
    hide OneGeneration, RevisionsKept, ReleasedIdle, ReleasedNumbered, Numbered, OthersRetired, LeaseOpen, Wanted, Enrolled, Present;
    assert RunShape(s, uid);
  }

  lemma SavePhase(s: State, t: State, uid: Uid, r: Run)
    requires SaveOf(s, t, uid, r) && Continues(s, uid, r) && RunShape(s, uid) && Enrolled(Journal(s), uid)
    ensures RunShape(t, uid) && ChildPresent(t, uid) == ChildPresent(s, uid)
    ensures Depends(t, uid) ==> Depends(s, uid)
  {
    SameWanted(s, t);
    hide Wanted, Enrolled;
  }

  /** Changes that neither record a child nor move a revision. */
  lemma PhaseKeeps(s: State, uid: Uid, r: Run, change: RunChange)
    requires Sound(s) && RunEnabled(s, uid, r, change) && r.phase != Queued
    requires !change.RunAdmitted? && !change.ResetAdmitted? && !change.CaptureFinished? && !change.ChildRecorded?
    ensures Sound(Apply(s, SaveRun(uid, r, change)))
  {
    RunWriteFrame(s, uid, r, change);
    PhaseShape(s, uid, r, change);
    assert RunShape(s, uid);
    hide Numbered, ReleasedIdle, ReleasedNumbered, ChildPresent, Captured, RunShape, Depends;
    PointerKept(s, uid, r, change);
    RunWriteCombine(s, uid, r, change);
  }

  /** Changes that fix the revision a run restores from. */
  lemma RevisionKeeps(s: State, uid: Uid, r: Run, change: RunChange)
    requires Sound(s) && RunEnabled(s, uid, r, change) && (change.ResetAdmitted? || change.CaptureFinished?)
    ensures Sound(Apply(s, SaveRun(uid, r, change)))
  {
    RunWriteFrame(s, uid, r, change);
    assert RunShape(s, uid);
    hide Numbered, ReleasedIdle, ReleasedNumbered;
    PointerKept(s, uid, r, change);
    RunWriteCombine(s, uid, r, change);
  }

  lemma ChildKeeps(s: State, uid: Uid, r: Run)
    requires Sound(s) && RunEnabled(s, uid, r, ChildRecorded)
    ensures Sound(Apply(s, SaveRun(uid, r, ChildRecorded)))
  {
    var t := Apply(s, SaveRun(uid, r, ChildRecorded));
    RunWriteFrame(s, uid, r, ChildRecorded);
    assert RunShape(s, uid);
    hide Numbered, ReleasedIdle, ReleasedNumbered;
    forall u | t.helm && u in s.runs && u != uid ensures !ChildPresent(t, u) {
      assert RunShape(s, u);
      if Enrolled(Journal(s), u) { var i :| 0 <= i < |Journal(s).runs| && Journal(s).runs[i].uid == u; }
    }
    RunWriteCombine(s, uid, r, ChildRecorded);
  }

  /** Book-keeping on a queued run changes nothing anyone else looks at. */
  lemma QueuedKeeps(s: State, uid: Uid, r: Run)
    requires Sound(s) && RunEnabled(s, uid, r, Bookkept) && r.phase == Queued
    ensures Sound(Apply(s, SaveRun(uid, r, Bookkept)))
  {
    var t := Apply(s, SaveRun(uid, r, Bookkept));
    assert RunShape(s, uid);
    RunWriteFrame(s, uid, r, Bookkept);
    RunShapesKept(s, uid, r, Bookkept);
    RunReleasedKept(s, uid, r, Bookkept);
    RunRevisionsKept(s, uid, r, Bookkept);
    PointerKept(s, uid, r, Bookkept);
  }

  lemma RunWriteKeeps(s: State, uid: Uid, r: Run, change: RunChange)
    requires Sound(s) && RunEnabled(s, uid, r, change)
    ensures Sound(Apply(s, SaveRun(uid, r, change)))
  {
    if change.RunAdmitted? { AdmitKeeps(s, uid, r); }
    else if change.ChildRecorded? { ChildKeeps(s, uid, r); }
    else if change.ResetAdmitted? || change.CaptureFinished? { RevisionKeeps(s, uid, r, change); }
    else if r.phase == Queued { QueuedKeeps(s, uid, r); }
    else { PhaseKeeps(s, uid, r, change); }
  }

  /** While a revision is still depended on, `collect` counts it as pinned. */
  lemma DependsPins(s: State, uid: Uid, all: bool)
    requires Sound(s) && Unneeded(s, uid, all)
    ensures all ==> forall u :: Depends(s, u) ==> !ChildPresent(s, u)
    ensures !all ==> forall u :: Depends(s, u) ==> s.runs[u].run.revision != uid
  {
    forall u | Depends(s, u)
      ensures if all then !ChildPresent(s, u) else s.runs[u].run.revision != uid
    {
      assert RunShape(s, u);
      var i :| 0 <= i < |Journal(s).runs| && Journal(s).runs[i].uid == u;
      if !all {
        assert Consumer(s, u);
        assert PinnedBy(s, Journal(s).runs[i], s.runs[u].run.revision);
        assert Pinned(s, s.runs[u].run.revision);
      }
    }
  }

  /** The release history is no part of the stored records. */
  lemma HistoryIrrelevant(s: State, t: State)
    requires t == s.(released := t.released, teardown := t.teardown, made := t.made)
    ensures Numbered(s) ==> Numbered(t)
    ensures Journaled(s) ==> Journaled(t)
    ensures OneGeneration(s) ==> OneGeneration(t)
    ensures forall u :: Dismissed(s, u) ==> Dismissed(t, u)
    ensures forall u :: ChildPresent(t, u) == ChildPresent(s, u) && Consumer(t, u) == Consumer(s, u)
    ensures forall u :: Wanted(t, u) == Wanted(s, u)
  {
    SameWanted(s, t);
    if Numbered(s) { forall u | u in t.runs ensures RunNumbered(t, u) { assert RunNumbered(s, u); } }
    if Journaled(s) { forall u | u in t.runs ensures RunShape(t, u) { assert RunShape(s, u); } }
    if OneGeneration(s) {
      forall u, v | t.helm && ChildPresent(t, u) && ChildPresent(t, v) ensures u == v {
        assert ChildPresent(s, u) && ChildPresent(s, v);
      }
    }
  }

  /** Recording that captures of `owner` are being deleted. */
  lemma ReleaseKeeps(s: State, owner: Uid, all: bool)
    requires Sound(s) && owner in s.runs && Enrolled(Journal(s), owner) && Unneeded(s, owner, all)
    requires !all ==> !(s.runs[owner].run.phase == Queued && Wanted(s, owner))
    ensures Sound(s.(released := s.released + {owner}, teardown := s.teardown || all))
  {
    var t := s.(released := s.released + {owner}, teardown := s.teardown || all);
    hide Unneeded, Enrolled, Dismissed, ChildPresent, Consumer, Wanted, Numbered, Journaled, OneGeneration, ActiveSound, RevisionsKept, ReleasedIdle, ReleasedNumbered;
    HistoryIrrelevant(s, t);
    ReleaseRevisions(s, t, owner, all);
    ReleaseHistory(s, t, owner, all);
  }

  lemma ReleaseRevisions(s: State, t: State, owner: Uid, all: bool)
    requires Sound(s) && Unneeded(s, owner, all)
    requires t == s.(released := s.released + {owner}, teardown := s.teardown || all)
    requires forall u :: ChildPresent(t, u) == ChildPresent(s, u) && Consumer(t, u) == Consumer(s, u)
    ensures RevisionsKept(t)
  {
    DependsPins(s, owner, all);
    hide Numbered, Journaled, ActiveSound, OneGeneration, ReleasedIdle, ReleasedNumbered, ChildPresent, Consumer, Unneeded;
    forall u | Depends(t, u)
      ensures Captured(t, t.runs[u].run.revision) && (t.runs[u].run.revision in t.released ==> u in t.late)
    {
      assert Depends(s, u);
    }
  }

  lemma ReleaseHistory(s: State, t: State, owner: Uid, all: bool)
    requires Sound(s) && owner in s.runs && Enrolled(Journal(s), owner) && Unneeded(s, owner, all)
    requires !all ==> !(s.runs[owner].run.phase == Queued && Wanted(s, owner))
    requires t == s.(released := s.released + {owner}, teardown := s.teardown || all)
    requires (forall u :: Dismissed(s, u) ==> Dismissed(t, u)) && forall u :: Wanted(t, u) == Wanted(s, u)
    ensures ActiveSound(t) && ReleasedIdle(t) && ReleasedNumbered(t)
  {
    assert RunNumbered(s, owner);
    hide Numbered, Journaled, OneGeneration, RevisionsKept, Dismissed, Wanted, Enrolled, Pinned, AllSwept;
  }

  lemma CaptureDeletionKeeps(s: State, key: Key, owner: Uid, all: bool)
    requires Sound(s) && Enabled(s, DeleteCapture(key, owner, all))
    ensures Sound(Apply(s, DeleteCapture(key, owner, all)))
  {
    hide Sound, Rely, Unneeded, ChildPresent, Enrolled;
    var m := s.(released := s.released + {owner}, teardown := s.teardown || all);
    ReleaseKeeps(s, owner, all);
    EventSound(m, OnObject(Terminate(key)));
  }

  /** Dropping a record: nobody who stays depends on it. */
  lemma RecordDropKeeps(s: State, uid: Uid, seen: Run, all: bool)
    requires Sound(s) && Enabled(s, DropRun(uid, seen, all))
    ensures Sound(Apply(s, DropRun(uid, seen, all)))
  {
    DropParts(s, uid, seen, all);
    hide Enabled, Unneeded, ChildPresent, Enrolled, Wanted, Dismissed, Numbered, Journaled, OneGeneration, RevisionsKept, ReleasedIdle, ReleasedNumbered, ActiveSound;
    var t := s.(runs := s.runs - {uid}, teardown := s.teardown || all, late := s.late - {uid});
    SameWanted(s, t);
    DropFrame(s, t, uid);
    DropRevisions(s, t, uid, all);
    DropHistory(s, t, uid, all);
  }

  lemma DropParts(s: State, uid: Uid, seen: Run, all: bool)
    requires Enabled(s, DropRun(uid, seen, all))
    ensures uid in s.runs && Enrolled(Journal(s), uid) && !ChildPresent(s, uid) && Unneeded(s, uid, all)
  {
    hide Enrolled, Unneeded, CapturesGone, Journal, ClaimGone;
  }

  lemma DropHistory(s: State, t: State, uid: Uid, all: bool)
    requires Sound(s) && Unneeded(s, uid, all)
    requires t == s.(runs := s.runs - {uid}, teardown := s.teardown || all, late := t.late) && forall u :: Wanted(t, u) == Wanted(s, u)
    requires forall u :: Dismissed(t, u) == Dismissed(s, u)
    ensures ActiveSound(t) && ReleasedIdle(t) && ReleasedNumbered(t)
  {
    hide Numbered, Journaled, OneGeneration, RevisionsKept, Dismissed, Wanted, Enrolled, Pinned, AllSwept;
  }

  lemma DropRevisions(s: State, t: State, uid: Uid, all: bool)
    requires Sound(s) && Unneeded(s, uid, all) && uid in s.runs && !ChildPresent(s, uid) && Enrolled(Journal(s), uid)
    requires t == s.(runs := s.runs - {uid}, teardown := s.teardown || all, late := s.late - {uid}) && forall u :: Wanted(t, u) == Wanted(s, u)
    ensures RevisionsKept(t)
  {
    DependsPins(s, uid, all);
    hide Numbered, Journaled, ActiveSound, OneGeneration, ReleasedIdle, ReleasedNumbered, Wanted;
    forall u | Depends(t, u)
      ensures Captured(t, t.runs[u].run.revision) && (t.runs[u].run.revision in t.released ==> u in t.late)
    {
      assert Depends(s, u);
    }
  }

  lemma DropFrame(s: State, t: State, uid: Uid)
    requires t == s.(runs := s.runs - {uid}, teardown := t.teardown, late := t.late)
    ensures Numbered(s) ==> Numbered(t)
    ensures Journaled(s) ==> Journaled(t)
    ensures OneGeneration(s) ==> OneGeneration(t)
    ensures forall u :: Dismissed(t, u) == Dismissed(s, u)
  {
    if Numbered(s) { forall u | u in t.runs ensures RunNumbered(t, u) { assert RunNumbered(s, u); } }
    if Journaled(s) { forall u | u in t.runs ensures RunShape(t, u) { assert RunShape(s, u); } }
    if OneGeneration(s) {
      forall u, v | t.helm && ChildPresent(t, u) && ChildPresent(t, v) ensures u == v {
        assert ChildPresent(s, u) && ChildPresent(s, v);
      }
    }
  }

  lemma ParentWriteKeeps(s: State, m: Mirror, change: ParentChange)
    requires Sound(s) && ParentEnabled(s, m, change)
    ensures Sound(s.(parent := Some(m)))
  {
    match change
    case RunEnrolled => EnrollKeeps(s, m);
    case RunForgotten(i) => ForgetKeeps(s, m, i);
    case _ => PointersKeep(s, m, change);
  }

  lemma ParentDropKeeps(s: State)
    requires Sound(s) && Enabled(s, DropParent)
    ensures Sound(Apply(s, DropParent))
  {
    var t := Apply(s, DropParent);
    SameRuns(s, t);
    ShapesKept(s, t);
    forall u | u in s.runs ensures !Depends(t, u) { assert RunShape(s, u); }
  }

  lemma WriteSound(s: State, w: Write)
    requires Sound(s) && Enabled(s, w)
    ensures Sound(Apply(s, w))
  {
    hide Sound, Numbered, Journaled;
    match w
    case SaveParent(m, change) => ParentWriteKeeps(s, m, change);
    case DropParent => ParentDropKeeps(s);
    case SaveRun(uid, r, change) => RunWriteKeeps(s, uid, r, change);
    case DropRun(uid, seen, all) => RecordDropKeeps(s, uid, seen, all);
    case DeleteCapture(key, owner, all) => CaptureDeletionKeeps(s, key, owner, all);
    case _ => OutsideWriteSound(s, w);
  }

  // ---------------------------------------------------------------- inventories and request names

  lemma RequestsTidy(requests: map<Name, Request>, next: Uid, e: RequestEvent)
    requires UniqueRequests(requests) && forall n :: n in requests ==> requests[n].uid < next
    ensures UniqueRequests(AfterRequest(requests, next, e))
    ensures forall n :: n in AfterRequest(requests, next, e) ==>
      var uid := AfterRequest(requests, next, e)[n].uid; uid == next || (n in requests && requests[n].uid == uid)
  {}

  lemma ClaimsMonotone(r: Run, n: Uid, m: Uid)
    requires ClaimsNumbered(r, n) && n <= m
    ensures ClaimsNumbered(r, m)
  {}

  lemma InventoryNumbered(r: Run, volumes: seq<Claim>, policies: seq<Claim>, next: Uid)
    requires ClaimsNumbered(r, next)
    requires (forall c :: c in volumes ==> Fits(c, Volume, next)) && (forall c :: c in policies ==> Fits(c, Policy, next))
    ensures ClaimsNumbered(r.(volumes := volumes, policies := policies), next + 1)
  {}

  lemma ClaimsStayNumbered(s: State, e: Event)
    requires forall u :: u in s.runs ==> ClaimsNumbered(s.runs[u].run, s.next)
    ensures forall u :: u in Happen(s, e).runs ==> ClaimsNumbered(Happen(s, e).runs[u].run, Happen(s, e).next)
  {
    hide AfterRequest, AfterObject, ClaimsNumbered;
    var t := Happen(s, e);
    forall u | u in t.runs ensures ClaimsNumbered(t.runs[u].run, t.next) {
      ClaimsMonotone(s.runs[u].run, s.next, t.next);
      if t.runs[u] != s.runs[u] { InventoryNumbered(s.runs[u].run, e.volumes, e.policies, s.next); }
    }
  }

  lemma ForceStays(s: State, e: Event)
    requires ForceKnown(s) && forall n :: n in s.requests ==> s.requests[n].uid < s.next
    ensures ForceKnown(Happen(s, e))
  {
    hide AfterObject, Fits;
  }

  lemma EventTidy(s: State, e: Event)
    requires Sound(s) && Tidy(s)
    ensures Tidy(Happen(s, e))
  {
    var t := Happen(s, e);
    ClaimsStayNumbered(s, e);
    ForceStays(s, e);
    if e.OnRequest? { RequestsTidy(s.requests, s.next, e.request); }
    hide AfterRequest, AfterObject, UniqueRequests, ActiveSound, OneGeneration, RevisionsKept, ReleasedIdle, ReleasedNumbered, RunShape, ClaimsNumbered, ForceKnown;
    forall i | 0 <= i < |Journal(t).runs| ensures NamedOnly(t, Journal(t).runs[i]) {
      assert NamedOnly(s, Journal(s).runs[i]);
    }
  }

  lemma RunTidy(s: State, uid: Uid, r: Run, change: RunChange)
    requires Tidy(s) && ClaimsNumbered(r, s.next)
    ensures Tidy(Apply(s, SaveRun(uid, r, change)))
  {
    hide ClaimsNumbered, UniqueRequests;
    var t := Apply(s, SaveRun(uid, r, change));
    forall u | u in t.runs ensures ClaimsNumbered(t.runs[u].run, t.next) {
      ClaimsMonotone(t.runs[u].run, s.next, t.next);
    }
    forall i | 0 <= i < |Journal(t).runs| ensures NamedOnly(t, Journal(t).runs[i]) { assert NamedOnly(s, Journal(s).runs[i]); }
  }

  lemma ParentTidy(s: State, m: Mirror, change: ParentChange)
    requires Tidy(s) && Enabled(s, SaveParent(m, change))
    ensures Tidy(s.(parent := Some(m)))
  {
    hide ClaimsNumbered, UniqueRequests;
    var t := s.(parent := Some(m));
    forall i | 0 <= i < |m.runs| ensures NamedOnly(t, m.runs[i]) {
      if change.RunForgotten? {
        assert m.runs[i] == Journal(s).runs[if i < change.index then i else i + 1];
        assert NamedOnly(s, m.runs[i]);
      } else if i < |Journal(s).runs| {
        assert m.runs[i] == Journal(s).runs[i] && NamedOnly(s, m.runs[i]);
      }
    }
  }

  /** Removing records, or only changing the release history. */
  lemma DropsTidy(s: State, t: State)
    requires Tidy(s) && t == s.(parent := t.parent, runs := t.runs, released := t.released, teardown := t.teardown, late := t.late)
    requires t.parent == s.parent || t.parent == None
    requires forall u :: u in t.runs ==> u in s.runs && t.runs[u] == s.runs[u]
    ensures Tidy(t)
  {
    hide ClaimsNumbered, UniqueRequests;
    forall i | 0 <= i < |Journal(t).runs| ensures NamedOnly(t, Journal(t).runs[i]) { assert NamedOnly(s, Journal(s).runs[i]); }
  }

  lemma CreateTidy(s: State, key: Key, owner: Uid, op: Op)
    requires Sound(s) && Tidy(s)
    ensures Tidy(Apply(s, CreateObject(key, owner, op)))
  {
    hide Sound, Tidy, AfterObject;
    EventTidy(s, OnObject(Place(key, owner, op)));
    MadeTidy(s, Happen(s, OnObject(Place(key, owner, op))), Apply(s, CreateObject(key, owner, op)));
  }

  lemma MadeTidy(s: State, t: State, u: State)
    requires Tidy(s) && Tidy(t) && u == t.(made := u.made) && s.next < t.next && (u.made == s.made || u.made == s.made + {s.next})
    ensures Tidy(u)
  {
    hide ClaimsNumbered, UniqueRequests, ForceKnown;
    forall i | 0 <= i < |Journal(u).runs| ensures NamedOnly(u, Journal(u).runs[i]) { assert NamedOnly(t, Journal(t).runs[i]); }
    assert ForceKnown(u) by { ForceSame(t, u); }
  }

  lemma ForceSame(s: State, t: State)
    requires ForceKnown(s) && t.requests == s.requests && t.forced == s.forced && t.next == s.next
    ensures ForceKnown(t)
  {}

  lemma WriteTidy(s: State, w: Write)
    requires Sound(s) && Tidy(s) && Enabled(s, w)
    ensures Tidy(Apply(s, w))
  {
    hide Sound, Tidy, Happen;
    match w
    case SaveParent(m, change) => ParentTidy(s, m, change);
    case SaveRun(uid, r, change) => RunTidy(s, uid, r, change);
    case DropParent => DropsTidy(s, Apply(s, w));
    case DropRun(_, _, _) => DropsTidy(s, Apply(s, w));
    case CreateObject(key, owner, op) => CreateTidy(s, key, owner, op);
    case DeleteObject(key, _, _) => EventTidy(s, OnObject(Terminate(key)));
    case DeleteCapture(key, owner, all) =>
      var m := s.(released := s.released + {owner}, teardown := s.teardown || all);
      ReleaseKeeps(s, owner, all);
      DropsTidy(s, m);
      EventTidy(m, OnObject(Terminate(key)));
    case SetFinalizer(name, present) => EventTidy(s, OnRequest(Finalize(name, present)));
    case DeleteRequest(name) => EventTidy(s, OnRequest(Cancel(name)));
    case CreateRequest(name) => EventTidy(s, OnRequest(Ask(name, false, None, false, false)));
  }

  lemma EventKeeps(s: State, e: Event)
    requires Inv(s)
    ensures Inv(Happen(s, e)) && Rely(s, Happen(s, e))
  {
    hide Sound, Tidy, Rely;
    EventSound(s, e);
    EventTidy(s, e);
  }

  /** Every write the controller may issue keeps the invariant. */
  lemma WriteKeeps(s: State, w: Write)
    requires Inv(s) && Enabled(s, w)
    ensures Inv(Apply(s, w))
  {
    hide Sound, Tidy;
    WriteSound(s, w);
    WriteTidy(s, w);
  }
}
