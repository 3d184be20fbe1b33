/** Fault experiments: durable intent, a finalizer, ordered application, reverse rollback. */
module ChaosProtocol {
  import opened Common

  type Name = nat

  datatype Kind = HostPolicy | Account | Job | PodKill | Scale

  datatype Key = Key(kind: Kind, ns: Name, name: Name)

  /** A journaled fault: its target, the namespace it was prepared for, and its progress. */
  datatype Action = Action(kind: Kind, key: Key, nsUid: Uid, uid: Uid, op: Op, original: int, applied: bool, cleaned: bool)

  datatype Record = Record(replica: Uid, actions: seq<Action>, active: bool, cleanup: bool, finished: bool, version: nat)

  datatype Request = Request(replica: Uid, finalizer: bool, deleting: bool)

  /** `op` is the fault marker; `ours` says that replica ownership and rules are unchanged. */
  datatype Object = Object(uid: Uid, version: nat, op: Op, replicas: int, deleting: bool, ours: bool)

  /** The guest and its host: objects, namespaces by UID, and the Jobs that still have a
      physical Pod on the host. */
  datatype World = World(objects: map<Key, Object>, namespaces: map<Name, Uid>, physical: set<(Name, Name)>)

  /** Where an operation was journaled. */
  datatype Home = Home(uid: Uid, i: nat, action: Action)

  /** `past` keeps every moment of the world under the version that began it; `homes` keeps
      where operations were journaled, also after their records are gone. */
  datatype State = State(requests: map<Uid, Request>, records: map<Uid, Record>, world: World, used: set<Op>, next: nat, past: map<nat, World>,
    homes: map<Op, Home>)

  function Turn(s: State, w: World): State {
    s.(world := w, past := s.past[s.next := w], next := s.next + 1)
  }

  // ---------------------------------------------------------------- everyone else

  datatype Event =
    | Ask(replica: Uid)
    | Cancel(uid: Uid)
    | Lose(uid: Uid)
    | Place(key: Key, replicas: int)
    | Edit(key: Key, replicas: int, unmark: bool, ours: bool)
    | Terminate(key: Key)
    | Vanish(key: Key)
    | PodStarts(ns: Name, job: Name)
    | PodEnds(ns: Name, job: Name)
    | LoseNamespace(ns: Name)
    | NewNamespace(ns: Name)

  /** The guest accepts objects in namespaces that exist only. */
  function Objects(w: World, next: nat, e: Event): map<Key, Object> {
    var objects := w.objects;
    match e
    case Place(key, replicas) =>
      if key in objects || !(key.kind == HostPolicy || key.ns in w.namespaces) then objects else objects[key := Object(next, next, 0, replicas, false, false)]
    case Edit(key, replicas, unmark, ours) =>
      if key !in objects then objects
      else objects[key := objects[key].(version := next, replicas := replicas, op := if unmark then 0 else objects[key].op, ours := ours)]
    case Terminate(key) => if key !in objects then objects else objects[key := objects[key].(version := next, deleting := true)]
    case Vanish(key) => objects - {key}
    case LoseNamespace(ns) => map k | k in objects && (k.ns != ns || k.kind == HostPolicy) :: objects[k]
    case _ => objects
  }

  function Namespaces(namespaces: map<Name, Uid>, next: nat, e: Event): map<Name, Uid> {
    match e
    case LoseNamespace(ns) => namespaces - {ns}
    case NewNamespace(ns) => if ns in namespaces then namespaces else namespaces[ns := next]
    case _ => namespaces
  }

  function Physical(physical: set<(Name, Name)>, e: Event): set<(Name, Name)> {
    match e
    case PodStarts(ns, job) => physical + {(ns, job)}
    case PodEnds(ns, job) => physical - {(ns, job)}
    case _ => physical
  }

  /** A request that holds the finalizer cannot vanish, and nobody else strips it. */
  function Requests(requests: map<Uid, Request>, next: nat, e: Event): map<Uid, Request> {
    match e
    case Ask(replica) => requests[next := Request(replica, false, false)]
    case Cancel(uid) => if uid in requests then requests[uid := requests[uid].(deleting := true)] else requests
    case Lose(uid) => if uid in requests && !requests[uid].finalizer then requests - {uid} else requests
    case _ => requests
  }

  function Happen(s: State, e: Event): State {
    Turn(s.(requests := Requests(s.requests, s.next, e)),
         World(Objects(s.world, s.next, e), Namespaces(s.world.namespaces, s.next, e), Physical(s.world.physical, e)))
  }

  // ---------------------------------------------------------------- controller writes

  /** `at` names a moment the controller has observed. */
  datatype Write =
    | Intend(uid: Uid, record: Record)
    | Progress(uid: Uid, i: nat, action: Action, at: nat)
    | Activate(uid: Uid)
    | StartCleanup(uid: Uid, i: nat, action: Action)
    | Finish(uid: Uid)
    | Forget(uid: Uid)
    | Hold(uid: Uid, present: bool)
    | Create(uid: Uid, i: nat)
    | Remove(uid: Uid, i: nat, at: nat)
    | Zero(uid: Uid, i: nat)
    | Restore(uid: Uid, i: nat)

  predicate HasAction(s: State, uid: Uid, i: int) {
    uid in s.records && 0 <= i < |s.records[uid].actions|
  }

  function Marked(objects: map<Key, Object>, a: Action, next: nat, op: Op, replicas: int): map<Key, Object> {
    if a.key in objects then objects[a.key := objects[a.key].(version := next, op := op, replicas := replicas)] else objects
  }

  /** Rollback intent; what the last, unsaved step of application learned goes with it. */
  function Stopped(r: Record, i: nat, a: Action): Record {
    r.(cleanup := true, actions := if i < |r.actions| then r.actions[i := a] else r.actions)
  }

  function WithRecord(s: State, uid: Uid, r: Record): State {
    s.(records := s.records[uid := r.(version := s.next)])
  }

  function Apply(s: State, w: Write): State {
    match w
    case Intend(uid, r) =>
      Turn(WithRecord(s, uid, r).(used := s.used + Ops(r.actions), homes := s.homes + Homes(uid, r.actions)), s.world)
    case Progress(uid, i, a, _) =>
      if HasAction(s, uid, i) then Turn(WithRecord(s, uid, s.records[uid].(actions := s.records[uid].actions[i := a])), s.world) else s
    case Activate(uid) => if uid in s.records then Turn(WithRecord(s, uid, s.records[uid].(active := true)), s.world) else s
    case StartCleanup(uid, i, a) => if uid in s.records then Turn(WithRecord(s, uid, Stopped(s.records[uid], i, a)), s.world) else s
    case Finish(uid) => if uid in s.records then Turn(WithRecord(s, uid, s.records[uid].(finished := true)), s.world) else s
    case Forget(uid) => Turn(s.(records := s.records - {uid}), s.world)
    case Hold(uid, present) => Turn(if uid in s.requests then s.(requests := s.requests[uid := s.requests[uid].(finalizer := present)]) else s, s.world)
    case Create(uid, i) =>
      if HasAction(s, uid, i) then
        Turn(s, s.world.(objects := s.world.objects[s.records[uid].actions[i].key := Object(s.next, s.next, s.records[uid].actions[i].op, 0, false, true)]))
      else s
    case Remove(uid, i, _) => if HasAction(s, uid, i) then Happen(s, Terminate(s.records[uid].actions[i].key)) else s
    case Zero(uid, i) =>
      if HasAction(s, uid, i) then
        Turn(s, s.world.(objects := Marked(s.world.objects, s.records[uid].actions[i], s.next, s.records[uid].actions[i].op, 0)))
      else s
    case Restore(uid, i) =>
      if HasAction(s, uid, i) then
        Turn(s, s.world.(objects := Marked(s.world.objects, s.records[uid].actions[i], s.next, 0, s.records[uid].actions[i].original)))
      else s
  }

  function Ops(actions: seq<Action>): set<Op> { set i | 0 <= i < |actions| :: actions[i].op }

  function Homes(uid: Uid, actions: seq<Action>): map<Op, Home> {
    if actions == [] then map[]
    else Homes(uid, actions[..|actions| - 1])[actions[|actions| - 1].op := Home(uid, |actions| - 1, actions[|actions| - 1])]
  }

  ghost predicate Finalized(s: State, uid: Uid) { uid in s.requests && s.requests[uid].finalizer }

  ghost predicate AllCleaned(actions: seq<Action>) { forall i :: 0 <= i < |actions| ==> actions[i].cleaned }

  /** Cleaned actions form a suffix of the journal. */
  ghost predicate CleanedSuffix(actions: seq<Action>) {
    forall i, j :: 0 <= i < j < |actions| && actions[i].cleaned ==> actions[j].cleaned
  }

  /** A namespace's deny policy is journaled before its Jobs. */
  ghost predicate PolicyFirst(actions: seq<Action>) {
    && (forall i :: 0 <= i < |actions| && actions[i].kind == Job ==>
          exists j :: 0 <= j < i && actions[j].kind == HostPolicy && actions[j].key.ns == actions[i].key.ns)
    && (forall i, j :: 0 <= i < |actions| && 0 <= j < |actions| && actions[i].kind == HostPolicy && actions[j].kind == Job ==>
          actions[i].key.ns != actions[j].key.ns || i < j)
  }

  /** The namespace of the action is the one it was prepared for. */
  ghost predicate Current(w: World, a: Action) {
    a.kind == HostPolicy || (a.key.ns in w.namespaces && w.namespaces[a.key.ns] == a.nsUid)
  }

  /** The fault of `a` is in effect in the namespace it was meant for. */
  ghost predicate InEffect(w: World, a: Action) {
    Current(w, a) && a.key in w.objects && w.objects[a.key].op == a.op
  }

  /** An observed moment allows `a` to count as rolled back. */
  ghost predicate RolledBack(w: World, a: Action) {
    || !Current(w, a)
    || a.kind == PodKill
    || a.key !in w.objects
    || (a.kind == Scale && w.objects[a.key].uid == a.uid && w.objects[a.key].op == 0 && w.objects[a.key].replicas == a.original)
  }

  /** No physical Pod of a Job journaled for this namespace is left, and all of those
      Jobs are cleaned. */
  ghost predicate JobsGone(w: World, actions: seq<Action>, ns: Name) {
    forall j :: 0 <= j < |actions| && actions[j].kind == Job && actions[j].key.ns == ns ==>
      actions[j].cleaned && (ns, actions[j].key.name) !in w.physical
  }

  predicate SameTarget(a: Action, b: Action) {
    a.kind == b.kind && a.key == b.key && a.nsUid == b.nsUid && a.op == b.op && a.original == b.original
  }

  ghost predicate FreshJournal(s: State, r: Record) {
    && !r.active && !r.cleanup && !r.finished
    && (forall i :: 0 <= i < |r.actions| ==> r.actions[i].key.kind == r.actions[i].kind)
    && (forall i :: 0 <= i < |r.actions| ==> r.actions[i].op != 0 && r.actions[i].op !in s.used && r.actions[i].nsUid < s.next && !r.actions[i].applied && !r.actions[i].cleaned)
    && (forall i, j :: 0 <= i < j < |r.actions| ==> r.actions[i].op != r.actions[j].op)
    && PolicyFirst(r.actions)
  }

  /** No other experiment of the replica has a request and an unfinished record. */
  ghost predicate SlotFree(s: State, uid: Uid, replica: Uid) {
    forall v :: v in s.requests && v != uid && s.requests[v].replica == replica && v in s.records ==> s.records[v].finished
  }

  ghost predicate AppliedBefore(actions: seq<Action>, i: nat)
    requires i <= |actions|
  {
    forall j :: 0 <= j < i ==> actions[j].applied
  }

  /** Faults act only under a saved intent and a finalizer, in order, before cleanup. */
  ghost predicate MayAct(s: State, uid: Uid, i: nat) {
    HasAction(s, uid, i) && Finalized(s, uid) && !s.records[uid].cleanup && !s.records[uid].finished && AppliedBefore(s.records[uid].actions, i)
  }

  ghost predicate Observed(s: State, uid: Uid, at: nat) {
    uid in s.records && s.records[uid].version <= at < s.next && at in s.past
  }

  /** Application of action `i` went forward: its identity became known or it was applied. */
  ghost predicate Forward(r: Record, i: nat, a: Action)
    requires i < |r.actions|
  {
    var b := r.actions[i];
    !r.finished && SameTarget(a, b) && !b.cleaned && !a.cleaned && (b.uid != 0 ==> a.uid == b.uid) &&
    (b.applied ==> a.applied) && (a.applied && !b.applied ==> !r.cleanup && AppliedBefore(r.actions, i))
  }

  ghost predicate Placeable(w: World, a: Action) { a.kind == HostPolicy || a.key.ns in w.namespaces }

  /** At an observed moment the Job of the action was there, with its marker. */
  ghost predicate JobSeen(s: State, uid: Uid, a: Action) {
    exists v :: Observed(s, uid, v) && SeenAt(s, v, a)
  }

  ghost predicate SeenAt(s: State, v: nat, a: Action) {
    v in s.past && a.key in s.past[v].objects && s.past[v].objects[a.key].op == a.op && (a.uid != 0 ==> s.past[v].objects[a.key].uid == a.uid)
  }

  ghost predicate Enabled(s: State, w: Write) {
    match w
    case Intend(uid, r) =>
      uid !in s.records && 0 < uid < s.next && FreshJournal(s, r) && SlotFree(s, uid, r.replica) &&
      (uid in s.requests ==> s.requests[uid].replica == r.replica && !s.requests[uid].finalizer)
    case Progress(uid, i, a, at) =>
      HasAction(s, uid, i) &&
      var r := s.records[uid]; var b := r.actions[i];
      if a.cleaned then
        !r.finished && SameTarget(a, b) && !b.cleaned && (b.uid != 0 ==> a.uid == b.uid) &&
        r.cleanup && a.applied == b.applied && Observed(s, uid, at) && RolledBack(s.past[at], b) &&
        (forall j :: i < j < |r.actions| ==> r.actions[j].cleaned)
      else Forward(r, i, a)
    case Activate(uid) =>
      uid in s.records && var r := s.records[uid];
      !r.cleanup && !r.finished && AppliedBefore(r.actions, |r.actions|) &&
      (forall i :: 0 <= i < |r.actions| && r.actions[i].kind == Job ==> JobSeen(s, uid, r.actions[i]))
    case StartCleanup(uid, i, a) => uid in s.records && (i < |s.records[uid].actions| ==> Forward(s.records[uid], i, a))
    case Finish(uid) => uid in s.records && s.records[uid].cleanup && AllCleaned(s.records[uid].actions)
    case Forget(uid) => uid in s.records && s.records[uid].finished && !Finalized(s, uid)
    case Hold(uid, present) =>
      if present then uid in s.records && !s.records[uid].finished
      else uid in s.records ==> s.records[uid].finished || !Finalized(s, uid)
    case Create(uid, i) =>
      MayAct(s, uid, i) && var a := s.records[uid].actions[i];
      a.key !in s.world.objects && Placeable(s.world, a) && a.uid == 0 && !a.applied && (a.kind == HostPolicy || a.kind == Account || a.kind == Job)
    case Remove(uid, i, at) =>
      HasAction(s, uid, i) && var r := s.records[uid]; var a := r.actions[i];
      && (a.key in s.world.objects ==>
            (a.uid != 0 ==> s.world.objects[a.key].uid == a.uid) && (a.kind == PodKill || s.world.objects[a.key].op == a.op))
      && (a.kind == PodKill ==> MayAct(s, uid, i))
      && (a.kind != PodKill ==> r.cleanup && a.kind != Scale && forall j :: i < j < |r.actions| ==> r.actions[j].cleaned)
      && (a.kind == HostPolicy ==> Observed(s, uid, at) && JobsGone(s.past[at], r.actions, a.key.ns))
    case Zero(uid, i) =>
      MayAct(s, uid, i) && var a := s.records[uid].actions[i];
      a.kind == Scale && a.key in s.world.objects && s.world.objects[a.key].uid == a.uid && s.world.objects[a.key].op == 0 &&
      s.world.objects[a.key].replicas == a.original && s.world.objects[a.key].ours && !a.applied
    case Restore(uid, i) =>
      HasAction(s, uid, i) && s.records[uid].cleanup && var a := s.records[uid].actions[i];
      a.kind == Scale && !a.cleaned && a.key in s.world.objects && s.world.objects[a.key].uid == a.uid && s.world.objects[a.key].op == a.op &&
      s.world.objects[a.key].replicas == 0 && s.world.objects[a.key].ours
  }

  // ---------------------------------------------------------------- invariant

  ghost predicate JournalSound(r: Record) {
    && CleanedSuffix(r.actions) && PolicyFirst(r.actions)
    && (r.finished ==> AllCleaned(r.actions))
    && (forall i :: 0 <= i < |r.actions| && r.actions[i].cleaned ==> r.cleanup)
    && (forall i, j :: 0 <= i < j < |r.actions| && r.actions[j].applied && !r.actions[i].cleaned ==> r.actions[i].applied)
  }

  ghost predicate Numbered(s: State) {
    && 0 < s.next && (forall v :: v in s.past ==> v < s.next)
    && (s.next - 1 in s.past && s.past[s.next - 1] == s.world)
    && (forall u :: u in s.requests ==> u < s.next)
    && (forall u :: u in s.records ==> u < s.next && s.records[u].version < s.next)
    && (forall k :: k in s.world.objects ==> 0 < s.world.objects[k].uid < s.next && s.world.objects[k].version < s.next)
    && (forall n :: n in s.world.namespaces ==> s.world.namespaces[n] < s.next)
  }

  /** Operations belong to one action of one experiment. */
  ghost predicate OpsSound(s: State) {
    && (forall u, i :: HasAction(s, u, i) ==>
          s.records[u].actions[i].op != 0 && s.records[u].actions[i].op in s.used && s.records[u].actions[i].nsUid < s.next)
    && (forall u, i, v, j :: HasAction(s, u, i) && HasAction(s, v, j) && s.records[u].actions[i].op == s.records[v].actions[j].op ==> u == v && i == j)
    && (forall k :: k in s.world.objects && s.world.objects[k].op != 0 ==> s.world.objects[k].op in s.used)
  }

  /** What was rolled back is not in effect, and what is in effect holds a finalizer. */
  ghost predicate EffectsSound(s: State) {
    forall u, i :: HasAction(s, u, i) && InEffect(s.world, s.records[u].actions[i]) ==>
      s.records[u].actions[i].kind == PodKill || (!s.records[u].actions[i].cleaned && Finalized(s, u))
  }

  /** Once cleanup has begun no fault takes effect any more: one that is in effect now was
      in effect at every moment since the record was last saved. */
  ghost predicate EffectsFade(s: State) {
    forall u, i, v :: HasAction(s, u, i) && s.records[u].cleanup && s.records[u].version <= v && v in s.past ==>
      (InEffect(s.world, s.records[u].actions[i]) ==> InEffect(s.past[v], s.records[u].actions[i]))
  }

  /** One unfinished experiment with a request per replica. */
  ghost predicate OneSlot(s: State) {
    forall u, v :: u in s.requests && v in s.requests && u in s.records && v in s.records && u != v ==>
      s.records[u].replica != s.records[v].replica || s.records[u].finished || s.records[v].finished
  }

  ghost predicate ReplicasAgree(s: State) {
    forall u :: u in s.records && u in s.requests ==> s.requests[u].replica == s.records[u].replica
  }

  ghost predicate Inv(s: State) {
    Numbered(s) && OpsSound(s) && EffectsSound(s) && EffectsFade(s) && OneSlot(s) && ReplicasAgree(s) && forall u :: u in s.records ==> JournalSound(s.records[u])
  }

  ghost predicate Start(s: State) {
    s.records == map[] && s.used == {} && s.homes == map[] && Numbered(s) &&
    (forall k :: k in s.world.objects ==> s.world.objects[k].op == 0 && (k.kind == HostPolicy || k.ns in s.world.namespaces)) && (forall u :: u in s.requests ==> !s.requests[u].finalizer)
  }

  // ---------------------------------------------------------------- what others cannot do

  ghost predicate MarksKept(objects: map<Key, Object>, later: map<Key, Object>) {
    forall k :: k in later && later[k].op != 0 ==> k in objects && objects[k].op == later[k].op && objects[k].uid == later[k].uid
  }

  ghost predicate NamesKept(namespaces: map<Name, Uid>, next: nat, later: map<Name, Uid>) {
    forall n :: n in later && later[n] < next ==> n in namespaces && namespaces[n] == later[n]
  }

  ghost predicate RequestsKept(requests: map<Uid, Request>, next: nat, later: map<Uid, Request>) {
    && (forall u :: u in later && u < next ==> u in requests && requests[u].replica == later[u].replica && requests[u].finalizer == later[u].finalizer)
    && (forall u :: u in requests && u < next && requests[u].finalizer ==> u in later)
    && (forall u :: u in later && next <= u ==> !later[u].finalizer)
  }

  /** A resource version names one state of an object. */
  ghost predicate VersionsKept(objects: map<Key, Object>, next: nat, later: map<Key, Object>) {
    forall k :: k in later && later[k].version < next ==> k in objects && objects[k] == later[k]
  }

  /** The most that others change between two calls of the controller. */
  ghost predicate Rely(s: State, t: State) {
    && t.records == s.records && t.used == s.used && s.next <= t.next
    && (forall v :: v in s.past ==> v in t.past && t.past[v] == s.past[v])
    && MarksKept(s.world.objects, t.world.objects) && NamesKept(s.world.namespaces, s.next, t.world.namespaces)
    && RequestsKept(s.requests, s.next, t.requests) && VersionsKept(s.world.objects, s.next, t.world.objects)
  }

  lemma RelyReflexive(s: State)
    requires Numbered(s)
    ensures Rely(s, s)
  {}

  lemma RelyTransitive(s: State, t: State, u: State)
    requires Rely(s, t) && Rely(t, u)
    ensures Rely(s, u)
  {}

  lemma EventParts(s: State, e: Event)
    requires Numbered(s)
    ensures MarksKept(s.world.objects, Objects(s.world, s.next, e))
    ensures NamesKept(s.world.namespaces, s.next, Namespaces(s.world.namespaces, s.next, e))
    ensures RequestsKept(s.requests, s.next, Requests(s.requests, s.next, e))
    ensures VersionsKept(s.world.objects, s.next, Objects(s.world, s.next, e))
  {}

  lemma EventNumbered(s: State, e: Event)
    requires Numbered(s)
    ensures Numbered(Happen(s, e))
  {}

  lemma EventRely(s: State, e: Event)
    requires Numbered(s)
    ensures Rely(s, Happen(s, e)) && Numbered(Happen(s, e))
  {
    EventParts(s, e);
    EventNumbered(s, e);
    hide Objects, Namespaces, Physical, Requests, MarksKept, NamesKept, RequestsKept, VersionsKept;
  }

  lemma InEffectBefore(s: State, t: State, a: Action)
    requires Rely(s, t) && InEffect(t.world, a) && a.op != 0 && a.nsUid < s.next
    ensures InEffect(s.world, a)
  {}

  lemma EventEffects(s: State, e: Event)
    requires Inv(s)
    ensures EffectsSound(Happen(s, e)) && EffectsFade(Happen(s, e))
  {
    EventRely(s, e);
    var t := Happen(s, e);
    hide Happen, Objects, Namespaces, Physical, Requests, OneSlot, ReplicasAgree, JournalSound;
    assert t.past == s.past[s.next := t.world] by { EventPast(s, e); }
    forall u, i | HasAction(t, u, i) && InEffect(t.world, t.records[u].actions[i])
      ensures InEffect(s.world, s.records[u].actions[i])
    {
      assert HasAction(s, u, i);
      InEffectBefore(s, t, s.records[u].actions[i]);
    }
  }

  lemma EventPast(s: State, e: Event)
    ensures Happen(s, e).past == s.past[s.next := Happen(s, e).world]
  {}

  lemma EventOthers(s: State, e: Event)
    requires Inv(s)
    ensures var t := Happen(s, e); OpsSound(t) && OneSlot(t) && ReplicasAgree(t) && forall u :: u in t.records ==> JournalSound(t.records[u])
  {
    EventRely(s, e);
    var t := Happen(s, e);
    hide Happen, Objects, Namespaces, Physical, Requests, EffectsSound, EffectsFade, JournalSound;
    forall u, i | HasAction(t, u, i) ensures HasAction(s, u, i) {}
  }

  lemma EventKeeps(s: State, e: Event)
    requires Inv(s)
    ensures Inv(Happen(s, e)) && Rely(s, Happen(s, e))
  {
    EventRely(s, e);
    EventEffects(s, e);
    EventOthers(s, e);
    hide Happen, OpsSound, EffectsSound, EffectsFade, OneSlot, ReplicasAgree, JournalSound, Numbered, Rely;
  }

  // ---------------------------------------------------------------- every write keeps it

  /** A step of the world alone, under which no fault of a record takes effect anew. */
  lemma TurnKeeps(s: State, w: World)
    requires Inv(s)
    requires forall k :: k in w.objects ==> 0 < w.objects[k].uid <= s.next && w.objects[k].version <= s.next && (w.objects[k].op != 0 ==> w.objects[k].op in s.used)
    requires forall n :: n in w.namespaces ==> w.namespaces[n] <= s.next
    requires forall u, i :: HasAction(s, u, i) && InEffect(w, s.records[u].actions[i]) ==>
      InEffect(s.world, s.records[u].actions[i]) || (!s.records[u].cleanup && Finalized(s, u))
    ensures Inv(Turn(s, w))
  {
    var t := Turn(s, w);
    forall u, i | HasAction(t, u, i) ensures HasAction(s, u, i) {}
    forall u, i | HasAction(t, u, i) && InEffect(t.world, t.records[u].actions[i])
      ensures t.records[u].actions[i].kind == PodKill || (!t.records[u].actions[i].cleaned && Finalized(t, u))
    {
      assert HasAction(s, u, i);
      assert JournalSound(s.records[u]);
    }
    assert EffectsFade(t);
  }

  /** Nothing but one record changes. */
  lemma RecordKeeps(s: State, uid: Uid, r: Record)
    requires Inv(s) && uid in s.records && r.replica == s.records[uid].replica && |r.actions| == |s.records[uid].actions|
    requires forall i :: 0 <= i < |r.actions| ==> SameTarget(r.actions[i], s.records[uid].actions[i])
    requires forall i :: 0 <= i < |r.actions| && r.actions[i].cleaned && !s.records[uid].actions[i].cleaned ==>
      r.actions[i].kind == PodKill || !InEffect(s.world, r.actions[i])
    requires JournalSound(r) && (s.records[uid].finished ==> r.finished)
    requires forall i :: 0 <= i < |r.actions| && s.records[uid].actions[i].cleaned ==> r.actions[i].cleaned
    ensures Inv(Turn(WithRecord(s, uid, r), s.world))
  {
    hide JournalSound, EffectsSound, EffectsFade, InEffect;
    var t := Turn(WithRecord(s, uid, r), s.world);
    forall u, i | HasAction(t, u, i) ensures HasAction(s, u, i) && SameTarget(t.records[u].actions[i], s.records[u].actions[i]) {}
    RecordEffects(s, uid, r);
    assert JournalSound(t.records[uid]) by { SameJournal(r, t.records[uid]); }
  }

  lemma SameJournal(r: Record, t: Record)
    requires JournalSound(r) && t == r.(version := t.version)
    ensures JournalSound(t)
  {}

  lemma SameEffect(w: World, a: Action, b: Action)
    requires SameTarget(a, b)
    ensures InEffect(w, a) == InEffect(w, b)
  {}

  lemma RecordEffects(s: State, uid: Uid, r: Record)
    requires Inv(s) && uid in s.records && |r.actions| == |s.records[uid].actions|
    requires forall i :: 0 <= i < |r.actions| ==> SameTarget(r.actions[i], s.records[uid].actions[i])
    requires forall i :: 0 <= i < |r.actions| && r.actions[i].cleaned && !s.records[uid].actions[i].cleaned ==>
      r.actions[i].kind == PodKill || !InEffect(s.world, r.actions[i])
    ensures var t := Turn(WithRecord(s, uid, r), s.world); EffectsSound(t) && EffectsFade(t)
  {
    hide JournalSound, OneSlot, ReplicasAgree, OpsSound;
    var t := Turn(WithRecord(s, uid, r), s.world);
    forall u, i | HasAction(t, u, i) && InEffect(t.world, t.records[u].actions[i])
      ensures t.records[u].actions[i].kind == PodKill || (!t.records[u].actions[i].cleaned && Finalized(t, u))
    {
      assert HasAction(s, u, i);
      SameEffect(s.world, t.records[u].actions[i], s.records[u].actions[i]);
    }
    forall u, i, v | HasAction(t, u, i) && t.records[u].cleanup && t.records[u].version <= v && v in t.past && InEffect(t.world, t.records[u].actions[i])
      ensures InEffect(t.past[v], t.records[u].actions[i])
    {
      assert HasAction(s, u, i);
      SameEffect(s.world, t.records[u].actions[i], s.records[u].actions[i]);
      if v != s.next { assert u != uid; }
    }
  }

  lemma RolledBackGone(s: State, uid: Uid, i: nat, at: nat)
    requires Inv(s) && HasAction(s, uid, i) && s.records[uid].cleanup && Observed(s, uid, at) && RolledBack(s.past[at], s.records[uid].actions[i])
    ensures s.records[uid].actions[i].kind == PodKill || !InEffect(s.world, s.records[uid].actions[i])
  {
    var a := s.records[uid].actions[i];
    assert a.op != 0;
    if InEffect(s.world, a) { assert InEffect(s.past[at], a); }
  }

  lemma CleanedNext(actions: seq<Action>, i: nat, a: Action)
    requires i < |actions| && CleanedSuffix(actions) && !actions[i].cleaned
    requires a.cleaned ==> forall j :: i < j < |actions| ==> actions[j].cleaned
    ensures CleanedSuffix(actions[i := a])
  {}

  lemma ProgressKeeps(s: State, uid: Uid, i: nat, a: Action, at: nat)
    requires Inv(s) && Enabled(s, Progress(uid, i, a, at))
    ensures Inv(Apply(s, Progress(uid, i, a, at)))
  {
    var r := s.records[uid];
    var later := r.(actions := r.actions[i := a]);
    assert JournalSound(r);
    if a.cleaned { RolledBackGone(s, uid, i, at); SameEffect(s.world, a, r.actions[i]); }
    CleanedNext(r.actions, i, a);
    PolicyKept(r.actions, i, a);
    assert JournalSound(later) by { ProgressJournal(s, uid, i, a, at); }
    hide Inv, JournalSound, CleanedSuffix, PolicyFirst, InEffect, RolledBack, Observed;
    RecordKeeps(s, uid, later);
  }

  lemma ProgressJournal(s: State, uid: Uid, i: nat, a: Action, at: nat)
    requires Enabled(s, Progress(uid, i, a, at)) && JournalSound(s.records[uid])
    ensures JournalSound(s.records[uid].(actions := s.records[uid].actions[i := a]))
  {
    var r := s.records[uid];
    CleanedNext(r.actions, i, a);
    PolicyKept(r.actions, i, a);
    hide RolledBack, Observed, CleanedSuffix, PolicyFirst;
  }

  lemma PolicyKept(actions: seq<Action>, i: nat, a: Action)
    requires i < |actions| && PolicyFirst(actions) && SameTarget(a, actions[i])
    ensures PolicyFirst(actions[i := a])
  {
    var later := actions[i := a];
    forall k | 0 <= k < |later| && later[k].kind == Job
      ensures exists j :: 0 <= j < k && later[j].kind == HostPolicy && later[j].key.ns == later[k].key.ns
    {
      assert actions[k].kind == Job;
      var j :| 0 <= j < k && actions[j].kind == HostPolicy && actions[j].key.ns == actions[k].key.ns;
      assert later[j].kind == HostPolicy && later[j].key.ns == later[k].key.ns;
    }
  }

  lemma ForwardJournal(r: Record, i: nat, a: Action)
    requires i < |r.actions| && Forward(r, i, a) && JournalSound(r)
    ensures JournalSound(r.(actions := r.actions[i := a]))
  {
    CleanedNext(r.actions, i, a);
    PolicyKept(r.actions, i, a);
    hide CleanedSuffix, PolicyFirst;
  }

  lemma StopKeeps(s: State, uid: Uid, i: nat, a: Action)
    requires Inv(s) && Enabled(s, StartCleanup(uid, i, a))
    ensures Inv(Apply(s, StartCleanup(uid, i, a)))
  {
    var r := s.records[uid];
    assert JournalSound(r);
    if i < |r.actions| { ForwardJournal(r, i, a); }
    StoppedJournal(r, i, a);
    hide Inv, JournalSound, InEffect;
    RecordKeeps(s, uid, Stopped(r, i, a));
  }

  lemma StoppedJournal(r: Record, i: nat, a: Action)
    requires JournalSound(if i < |r.actions| then r.(actions := r.actions[i := a]) else r)
    ensures JournalSound(Stopped(r, i, a))
  {}

  lemma ActivateKeeps(s: State, uid: Uid)
    requires Inv(s) && Enabled(s, Activate(uid))
    ensures Inv(Apply(s, Activate(uid)))
  {
    hide JobSeen, AppliedBefore, CleanedSuffix, PolicyFirst;
    var r := s.records[uid];
    assert JournalSound(r);
    RecordKeeps(s, uid, r.(active := true));
  }

  lemma FinishKeeps(s: State, uid: Uid)
    requires Inv(s) && Enabled(s, Finish(uid))
    ensures Inv(Apply(s, Finish(uid)))
  {
    var r := s.records[uid];
    assert JournalSound(r);
    RecordKeeps(s, uid, r.(finished := true));
  }

  lemma ForgetKeeps(s: State, uid: Uid)
    requires Inv(s) && Enabled(s, Forget(uid))
    ensures Inv(Apply(s, Forget(uid)))
  {
    hide JournalSound, InEffect;
    var t := Apply(s, Forget(uid));
    forall u, i | HasAction(t, u, i) ensures HasAction(s, u, i) && t.records[u] == s.records[u] {}
    assert EffectsSound(t);
    assert EffectsFade(t);
  }

  lemma HoldKeeps(s: State, uid: Uid, present: bool)
    requires Inv(s) && Enabled(s, Hold(uid, present))
    ensures Inv(Apply(s, Hold(uid, present)))
  {
    HoldNumbered(s, uid, present);
    HoldEffects(s, uid, present);
    hide *;
  }

  lemma HoldNumbered(s: State, uid: Uid, present: bool)
    requires Inv(s) && Enabled(s, Hold(uid, present))
    ensures var t := Apply(s, Hold(uid, present)); Numbered(t) && OpsSound(t) && OneSlot(t) && ReplicasAgree(t)
    ensures var t := Apply(s, Hold(uid, present)); forall u :: u in t.records ==> JournalSound(t.records[u])
  {
    hide InEffect, JournalSound, EffectsSound, EffectsFade;
    var t := Apply(s, Hold(uid, present));
    forall u, i | HasAction(t, u, i) ensures HasAction(s, u, i) && t.records[u] == s.records[u] {}
  }

  lemma HoldEffects(s: State, uid: Uid, present: bool)
    requires Inv(s) && Enabled(s, Hold(uid, present))
    ensures var t := Apply(s, Hold(uid, present)); EffectsSound(t) && EffectsFade(t)
  {
    hide InEffect, CleanedSuffix, PolicyFirst, OneSlot, ReplicasAgree, OpsSound;
    var t := Apply(s, Hold(uid, present));
    forall u, i | HasAction(t, u, i) ensures HasAction(s, u, i) && t.records[u] == s.records[u] {}
    forall u, i | HasAction(t, u, i) && InEffect(t.world, t.records[u].actions[i])
      ensures t.records[u].actions[i].kind == PodKill || (!t.records[u].actions[i].cleaned && Finalized(t, u))
    {
      assert HasAction(s, u, i);
      if u == uid && !present { assert JournalSound(s.records[u]); }
    }
    assert EffectsFade(t);
  }

  lemma IntendOps(s: State, uid: Uid, r: Record)
    requires Inv(s) && Enabled(s, Intend(uid, r))
    ensures var t := Apply(s, Intend(uid, r)); OpsSound(t) && EffectsSound(t) && EffectsFade(t)
  {
    hide JournalSound, OneSlot, ReplicasAgree, SlotFree, PolicyFirst, Current;
    var t := Apply(s, Intend(uid, r));
    forall u, i | HasAction(t, u, i) ensures u == uid || (HasAction(s, u, i) && t.records[u] == s.records[u]) {}
    forall i | HasAction(t, uid, i) ensures r.actions[i].op in t.used && !InEffect(t.world, r.actions[i]) {
      assert r.actions[i].op in Ops(r.actions);
    }
  }

  lemma IntendKeeps(s: State, uid: Uid, r: Record)
    requires Inv(s) && Enabled(s, Intend(uid, r))
    ensures Inv(Apply(s, Intend(uid, r)))
  {
    IntendOps(s, uid, r);
    hide OpsSound, EffectsSound, EffectsFade;
    var t := Apply(s, Intend(uid, r));
    assert JournalSound(t.records[uid]);
    assert OneSlot(t) && ReplicasAgree(t) && Numbered(t);
  }

  /** Giving an object the marker of one action puts no other action into effect. */
  lemma OnlyThis(s: State, uid: Uid, i: nat, w: World, u: Uid, j: nat)
    requires Inv(s) && HasAction(s, uid, i) && HasAction(s, u, j) && InEffect(w, s.records[u].actions[j])
    requires w.namespaces == s.world.namespaces
    requires forall k :: k in w.objects && k != s.records[uid].actions[i].key ==> k in s.world.objects && w.objects[k] == s.world.objects[k]
    requires s.records[uid].actions[i].key in w.objects ==>
      w.objects[s.records[uid].actions[i].key].op == s.records[uid].actions[i].op || w.objects[s.records[uid].actions[i].key].op == 0
    ensures InEffect(s.world, s.records[u].actions[j]) || (u == uid && j == i)
  {}

  lemma MarkKeeps(s: State, w: Write)
    requires Inv(s) && Enabled(s, w) && (w.Create? || w.Zero? || w.Restore?)
    ensures Inv(Apply(s, w))
  {
    MarkTurns(s, w);
    MarkEffects(s, w);
    hide *;
    TurnKeeps(s, Apply(s, w).world);
  }

  lemma MarkTurns(s: State, w: Write)
    requires Inv(s) && Enabled(s, w) && (w.Create? || w.Zero? || w.Restore?)
    ensures var o := Apply(s, w).world;
      && Apply(s, w) == Turn(s, o) && o.namespaces == s.world.namespaces && (forall n :: n in o.namespaces ==> o.namespaces[n] <= s.next)
      && forall k :: k in o.objects ==> 0 < o.objects[k].uid <= s.next && o.objects[k].version <= s.next && (o.objects[k].op != 0 ==> o.objects[k].op in s.used)
  {
    assert HasAction(s, w.uid, w.i);
    hide EffectsSound, EffectsFade, OneSlot, ReplicasAgree, JournalSound, InEffect;
  }

  lemma MarkEffects(s: State, w: Write)
    requires Inv(s) && Enabled(s, w) && (w.Create? || w.Zero? || w.Restore?)
    ensures forall u, j :: HasAction(s, u, j) && InEffect(Apply(s, w).world, s.records[u].actions[j]) ==>
      InEffect(s.world, s.records[u].actions[j]) || (!s.records[u].cleanup && Finalized(s, u))
  {
    hide Inv, Enabled, Apply, InEffect, Finalized;
    forall u, j | HasAction(s, u, j) && InEffect(Apply(s, w).world, s.records[u].actions[j])
      ensures InEffect(s.world, s.records[u].actions[j]) || (!s.records[u].cleanup && Finalized(s, u))
    {
      MarkEffect(s, w, u, j);
    }
  }

  lemma MarkEffect(s: State, w: Write, u: Uid, j: nat)
    requires Inv(s) && Enabled(s, w) && (w.Create? || w.Zero? || w.Restore?)
    requires HasAction(s, u, j) && InEffect(Apply(s, w).world, s.records[u].actions[j])
    ensures InEffect(s.world, s.records[u].actions[j]) || (!s.records[u].cleanup && Finalized(s, u))
  {
    MarkFrame(s, w);
    OperationNamed(s, u, j);
    hide Inv, Enabled, Apply, Finalized, Current;
    OnlyThis(s, w.uid, w.i, Apply(s, w).world, u, j);
  }

  /** Only the marker of the action's own object changes. */
  lemma MarkFrame(s: State, w: Write)
    requires Enabled(s, w) && (w.Create? || w.Zero? || w.Restore?)
    ensures HasAction(s, w.uid, w.i)
    ensures var o := Apply(s, w).world; var a := s.records[w.uid].actions[w.i];
      && o.namespaces == s.world.namespaces
      && (forall k :: k in o.objects && k != a.key ==> k in s.world.objects && o.objects[k] == s.world.objects[k])
      && (a.key in o.objects ==> o.objects[a.key].op == if w.Restore? then 0 else a.op)
    ensures !w.Restore? ==> !s.records[w.uid].cleanup && Finalized(s, w.uid)
  {}

  lemma OperationNamed(s: State, u: Uid, j: nat)
    requires Inv(s) && HasAction(s, u, j)
    ensures s.records[u].actions[j].op != 0
  {}

  /** Every write the controller may issue keeps the invariant. */
  lemma WriteKeeps(s: State, w: Write)
    requires Inv(s) && Enabled(s, w)
    ensures Inv(Apply(s, w))
  {
    hide Inv, Enabled, Happen;
    match w
    case Intend(uid, r) => IntendKeeps(s, uid, r);
    case Progress(uid, i, a, at) => ProgressKeeps(s, uid, i, a, at);
    case Activate(uid) => ActivateKeeps(s, uid);
    case StartCleanup(uid, i, a) => StopKeeps(s, uid, i, a);
    case Finish(uid) => FinishKeeps(s, uid);
    case Forget(uid) => ForgetKeeps(s, uid);
    case Hold(uid, present) => HoldKeeps(s, uid, present);
    case Remove(uid, i, _) => if HasAction(s, uid, i) { EventKeeps(s, Terminate(s.records[uid].actions[i].key)); }
    case _ => MarkKeeps(s, w);
  }

  lemma StartSound(s: State)
    requires Start(s)
    ensures Inv(s)
  {}
}
