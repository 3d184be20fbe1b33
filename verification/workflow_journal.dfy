/** The ownership journal of a replica: intent before effect, and what every run keeps. */
module WorkflowJournal {
  import opened Common
  import opened PlannerText
  import O = PlannerOrder

  datatype Kind = Namespace | Claim | Other

  /** A journal entry: the planned object, the namespace it lives in, the operation that
      creates it, its UID once known, and whether it was observed gone. */
  datatype Entry = Entry(id: Id, kind: Kind, ns: Id, op: Op, uid: Uid, deleted: bool)

  /** `plain` says that only ordinary protection finalizers hold the object. */
  datatype Object = Object(uid: Uid, version: nat, op: Op, deleting: bool, plain: bool)

  type Objects = map<Id, Object>

  /** The captured plan: its objects in the order of application, what each needs, and of
      which kind it is. */
  datatype Plan = Plan(order: seq<Id>, needs: O.Graph, kinds: map<Id, Kind>)

  const NO_PLAN := Plan([], map[], map[])

  /** `past` keeps every moment of the guest; `since` is the last time this replica
      created something. */
  datatype State = State(entries: seq<Entry>, objects: Objects, next: nat, since: nat, past: map<nat, Objects>, plan: Plan)

  function Turn(s: State, objects: Objects): State {
    s.(objects := objects, past := s.past[s.next := objects], next := s.next + 1)
  }

  // ---------------------------------------------------------------- everyone else

  datatype Event = Place(id: Id) | Edit(id: Id, unmark: bool, plain: bool) | Terminate(id: Id) | Vanish(id: Id)

  function Guest(objects: Objects, next: nat, e: Event): Objects {
    match e
    case Place(id) => if id in objects then objects else objects[id := Object(next, next, 0, false, true)]
    case Edit(id, unmark, plain) =>
      if id in objects then objects[id := objects[id].(version := next, op := if unmark then 0 else objects[id].op, plain := plain)] else objects
    case Terminate(id) => if id in objects then objects[id := objects[id].(version := next, deleting := true)] else objects
    case Vanish(id) => objects - {id}
  }

  function Happen(s: State, e: Event): State { Turn(s, Guest(s.objects, s.next, e)) }

  // ---------------------------------------------------------------- controller writes

  datatype Write =
    | Adopt(plan: Plan)
    | Append(entry: Entry)
    | Know(i: nat, uid: Uid, at: nat)
    | MarkGone(i: nat, at: nat)
    | Create(i: nat)
    | Patch(i: nat)
    | Delete(i: nat, prune: bool)

  function Journal(s: State, entries: seq<Entry>): State { Turn(s.(entries := entries), s.objects) }

  function Apply(s: State, w: Write): State {
    match w
    case Adopt(plan) => Journal(s.(plan := plan), s.entries)
    case Append(e) => Journal(s, s.entries + [e])
    case Know(i, uid, _) => if i < |s.entries| then Journal(s, s.entries[i := s.entries[i].(uid := uid)]) else s
    case MarkGone(i, _) => if i < |s.entries| then Journal(s, s.entries[i := s.entries[i].(deleted := true)]) else s
    case Create(i) =>
      if i < |s.entries| then
        Turn(s, s.objects[s.entries[i].id := Object(s.next, s.next, s.entries[i].op, false, true)]).(since := s.next)
      else s
    case Patch(i) => if i < |s.entries| then Happen(s, Edit(s.entries[i].id, false, true)) else s
    case Delete(i, _) => if i < |s.entries| then Happen(s, Terminate(s.entries[i].id)) else s
  }

  ghost predicate LiveEntry(entries: seq<Entry>, i: int, id: Id) {
    0 <= i < |entries| && entries[i].id == id && !entries[i].deleted
  }

  ghost predicate HasLive(entries: seq<Entry>, id: Id) { exists i :: LiveEntry(entries, i, id) }

  /** The object under the entry's name carries its operation. */
  ghost predicate InPlace(objects: Objects, e: Entry) { e.id in objects && objects[e.id].op == e.op }

  /** The object is the one the entry recorded. */
  ghost predicate Controlled(objects: Objects, e: Entry) { InPlace(objects, e) && (e.uid == 0 || objects[e.id].uid == e.uid) }

  /** A volume claim in a namespace of our own: namespace cleanup need not wait for it. */
  ghost predicate Relaxed(entries: seq<Entry>, j: nat)
    requires j < |entries|
  {
    entries[j].kind == Claim && exists n :: 0 <= n < |entries| && entries[n].id == entries[j].ns && entries[n].kind == Namespace
  }

  /** Everything journaled after entry `i` is gone, but for claims of owned namespaces. */
  ghost predicate TurnOf(entries: seq<Entry>, i: nat) {
    forall j :: i < j < |entries| ==> entries[j].deleted || Relaxed(entries, j)
  }

  /** The plan is ordered, and volume claims need nothing. */
  ghost predicate PlanSound(p: Plan) {
    && (exists external :: O.DependenciesFirst(p.needs, external, p.order))
    && O.Elements(p.order) == p.needs.Keys && p.kinds.Keys == p.needs.Keys
    && (forall id :: id in p.kinds && p.kinds[id] == Claim ==> p.needs[id] == {})
  }

  /** An identifier tells the kind of its object. */
  ghost predicate KindsAgree(entries: seq<Entry>, p: Plan) {
    forall i :: 0 <= i < |entries| && entries[i].id in p.kinds ==> entries[i].kind == p.kinds[entries[i].id]
  }

  /** Whatever the plan puts before `id` is journaled. */
  ghost predicate Due(entries: seq<Entry>, p: Plan, id: Id) {
    forall x, y :: 0 <= x < y < |p.order| && p.order[y] == id ==> HasLive(entries, p.order[x])
  }

  ghost predicate Enabled(s: State, w: Write) {
    match w
    case Adopt(plan) => PlanSound(plan) && KindsAgree(s.entries, plan)
    case Append(e) =>
      e.op != 0 && e.uid == 0 && !e.deleted && !HasLive(s.entries, e.id) && (forall i :: 0 <= i < |s.entries| ==> s.entries[i].op != e.op) &&
      Due(s.entries, s.plan, e.id) && (e.id in s.plan.kinds ==> e.kind == s.plan.kinds[e.id])
    case Know(i, uid, at) =>
      i < |s.entries| && !s.entries[i].deleted && s.entries[i].uid == 0 && uid != 0 && at in s.past && s.since <= at &&
      InPlace(s.past[at], s.entries[i]) && s.past[at][s.entries[i].id].uid == uid
    case MarkGone(i, at) => i < |s.entries| && !s.entries[i].deleted && at in s.past && s.since <= at && s.entries[i].id !in s.past[at]
    case Create(i) => i < |s.entries| && !s.entries[i].deleted && s.entries[i].uid == 0 && s.entries[i].id !in s.objects
    case Patch(i) => i < |s.entries| && !s.entries[i].deleted && Controlled(s.objects, s.entries[i])
    case Delete(i, prune) =>
      i < |s.entries| && !s.entries[i].deleted && Controlled(s.objects, s.entries[i]) && (prune || TurnOf(s.entries, i))
  }

  // ---------------------------------------------------------------- invariant

  ghost predicate Numbered(s: State) {
    && 0 < s.next && s.since < s.next && s.next - 1 in s.past && s.past[s.next - 1] == s.objects
    && (forall v :: v in s.past ==> v < s.next)
    && (forall id :: id in s.objects ==> 0 < s.objects[id].uid < s.next && s.objects[id].version < s.next)
  }

  /** One live entry for each identifier, one entry for each operation. */
  ghost predicate JournalSound(entries: seq<Entry>) {
    && (forall i, j :: 0 <= i < j < |entries| && entries[i].id == entries[j].id ==> entries[i].deleted || entries[j].deleted)
    && (forall i, j :: 0 <= i < j < |entries| ==> entries[i].op != entries[j].op)
    && (forall i :: 0 <= i < |entries| ==> entries[i].op != 0)
  }

  /** Every marked object has its durable entry. */
  ghost predicate MarksJournaled(s: State) {
    forall id :: id in s.objects && s.objects[id].op != 0 ==>
      exists i :: LiveEntry(s.entries, i, id) && s.entries[i].op == s.objects[id].op
  }

  /** Since the last creation, objects of the journal only went away. */
  ghost predicate OnlyFades(s: State) {
    forall i, v :: 0 <= i < |s.entries| && v in s.past && s.since <= v ==> (InPlace(s.objects, s.entries[i]) ==> InPlace(s.past[v], s.entries[i]))
  }

  ghost predicate Inv(s: State) {
    Numbered(s) && JournalSound(s.entries) && MarksJournaled(s) && OnlyFades(s) && PlanSound(s.plan) && KindsAgree(s.entries, s.plan)
  }

  ghost predicate Start(s: State) {
    s.entries == [] && s.plan == NO_PLAN && Numbered(s) && forall id :: id in s.objects ==> s.objects[id].op == 0
  }

  ghost predicate MarksKept(objects: Objects, later: Objects) {
    forall id :: id in later && later[id].op != 0 ==> id in objects && objects[id].op == later[id].op && objects[id].uid == later[id].uid
  }

  ghost predicate VersionsKept(objects: Objects, next: nat, later: Objects) {
    forall id :: id in later && later[id].version < next ==> id in objects && objects[id] == later[id]
  }

  /** The most that others change between two calls of the controller. */
  ghost predicate Rely(s: State, t: State) {
    && t.entries == s.entries && t.plan == s.plan && t.since == s.since && s.next <= t.next
    && (forall v :: v in s.past ==> v in t.past && t.past[v] == s.past[v])
    && MarksKept(s.objects, t.objects) && VersionsKept(s.objects, s.next, t.objects)
  }

  lemma RelyReflexive(s: State)
    requires Numbered(s)
    ensures Rely(s, s)
  {}

  lemma RelyTransitive(s: State, t: State, u: State)
    requires Rely(s, t) && Rely(t, u)
    ensures Rely(s, u)
  {}

  lemma GuestParts(s: State, e: Event)
    requires Numbered(s)
    ensures MarksKept(s.objects, Guest(s.objects, s.next, e)) && VersionsKept(s.objects, s.next, Guest(s.objects, s.next, e))
    ensures forall id :: id in Guest(s.objects, s.next, e) ==>
      0 < Guest(s.objects, s.next, e)[id].uid <= s.next && Guest(s.objects, s.next, e)[id].version <= s.next
  {}

  /** A moment in which no journaled object appears. */
  lemma TurnKeeps(s: State, objects: Objects)
    requires Inv(s) && MarksKept(s.objects, objects) && VersionsKept(s.objects, s.next, objects)
    requires forall id :: id in objects ==> 0 < objects[id].uid <= s.next && objects[id].version <= s.next
    ensures Inv(Turn(s, objects)) && Rely(s, Turn(s, objects))
  {
    hide PlanSound, KindsAgree;
    var t := Turn(s, objects);
    forall i, v | 0 <= i < |t.entries| && v in t.past && t.since <= v && InPlace(t.objects, t.entries[i])
      ensures InPlace(t.past[v], t.entries[i])
    {
      assert InPlace(s.objects, s.entries[i]);
    }
  }

  lemma EventKeeps(s: State, e: Event)
    requires Inv(s)
    ensures Inv(Happen(s, e)) && Rely(s, Happen(s, e))
  {
    GuestParts(s, e);
    hide Guest;
    TurnKeeps(s, Guest(s.objects, s.next, e));
  }

  // ---------------------------------------------------------------- every write keeps it

  lemma AppendKeeps(s: State, e: Entry)
    requires Inv(s) && Enabled(s, Append(e))
    ensures Inv(Apply(s, Append(e)))
  {
    hide PlanSound, Due;
    var t := Apply(s, Append(e));
    assert forall id :: id in s.objects && s.objects[id].op != 0 ==> s.objects[id].op != e.op;
    forall id | id in t.objects && t.objects[id].op != 0 ensures exists i :: LiveEntry(t.entries, i, id) && t.entries[i].op == t.objects[id].op {
      var i :| LiveEntry(s.entries, i, id) && s.entries[i].op == s.objects[id].op;
      assert LiveEntry(t.entries, i, id);
    }
    forall i | 0 <= i < |s.entries| && s.entries[i].id == e.id ensures s.entries[i].deleted {
      if !s.entries[i].deleted { var live := LiveEntry(s.entries, i, e.id); }
    }
  }

  lemma KnowKeeps(s: State, i: nat, uid: Uid, at: nat)
    requires Inv(s) && Enabled(s, Know(i, uid, at))
    ensures Inv(Apply(s, Know(i, uid, at)))
  {
    hide PlanSound;
    var t := Apply(s, Know(i, uid, at));
    forall id | id in t.objects && t.objects[id].op != 0 ensures exists j :: LiveEntry(t.entries, j, id) && t.entries[j].op == t.objects[id].op {
      var j :| LiveEntry(s.entries, j, id) && s.entries[j].op == s.objects[id].op;
      assert LiveEntry(t.entries, j, id);
    }
  }

  lemma GoneKeeps(s: State, i: nat, at: nat)
    requires Inv(s) && Enabled(s, MarkGone(i, at))
    ensures Inv(Apply(s, MarkGone(i, at)))
  {
    hide PlanSound;
    var t := Apply(s, MarkGone(i, at));
    assert !InPlace(s.past[at], s.entries[i]);
    assert !InPlace(s.objects, s.entries[i]);
    forall id | id in t.objects && t.objects[id].op != 0 ensures exists j :: LiveEntry(t.entries, j, id) && t.entries[j].op == t.objects[id].op {
      var j :| LiveEntry(s.entries, j, id) && s.entries[j].op == s.objects[id].op;
      assert j != i;
      assert LiveEntry(t.entries, j, id);
    }
  }

  lemma CreateKeeps(s: State, i: nat)
    requires Inv(s) && Enabled(s, Create(i))
    ensures Inv(Apply(s, Create(i)))
  {
    hide PlanSound, KindsAgree;
    var t := Apply(s, Create(i));
    forall id | id in t.objects && t.objects[id].op != 0 ensures exists j :: LiveEntry(t.entries, j, id) && t.entries[j].op == t.objects[id].op {
      if id == s.entries[i].id {
        assert LiveEntry(t.entries, i, id);
      } else {
        var j :| LiveEntry(s.entries, j, id) && s.entries[j].op == s.objects[id].op;
        assert LiveEntry(t.entries, j, id);
      }
    }
  }

  lemma AdoptKeeps(s: State, p: Plan)
    requires Inv(s) && Enabled(s, Adopt(p))
    ensures Inv(Apply(s, Adopt(p)))
  {
    hide PlanSound, KindsAgree, JournalSound;
  }

  /** Every write the controller may issue keeps the invariant. */
  lemma WriteKeeps(s: State, w: Write)
    requires Inv(s) && Enabled(s, w)
    ensures Inv(Apply(s, w))
  {
    hide Inv, Enabled, Happen;
    match w
    case Adopt(p) => AdoptKeeps(s, p);
    case Append(e) => AppendKeeps(s, e);
    case Know(i, uid, at) => KnowKeeps(s, i, uid, at);
    case MarkGone(i, at) => GoneKeeps(s, i, at);
    case Create(i) => CreateKeeps(s, i);
    case Patch(i) => if i < |s.entries| { EventKeeps(s, Edit(s.entries[i].id, false, true)); }
    case Delete(i, _) => if i < |s.entries| { EventKeeps(s, Terminate(s.entries[i].id)); }
  }

  lemma StartSound(s: State)
    requires Start(s)
    ensures Inv(s)
  {
    assert O.DependenciesFirst(NO_PLAN.needs, {}, NO_PLAN.order);
  }

  // ---------------------------------------------------------------- whole runs

  datatype Step = Inside(write: Write) | Outside(event: Event)

  function After(s: State, step: Step): State {
    match step
    case Inside(w) => Apply(s, w)
    case Outside(e) => Happen(s, e)
  }

  function Exec(s: State, steps: seq<Step>): State {
    if steps == [] then s else After(Exec(s, steps[..|steps| - 1]), steps[|steps| - 1])
  }

  ghost predicate Legal(s: State, steps: seq<Step>) {
    steps == [] ||
    (Legal(s, steps[..|steps| - 1]) &&
     (steps[|steps| - 1].Inside? ==> Enabled(Exec(s, steps[..|steps| - 1]), steps[|steps| - 1].write)))
  }

  ghost predicate Recorded(origin: State, log: seq<Step>, s: State) {
    Start(origin) && Legal(origin, log) && s == Exec(origin, log)
  }

  lemma RecordStep(origin: State, log: seq<Step>, s: State, step: Step)
    requires Recorded(origin, log, s) && (step.Inside? ==> Enabled(s, step.write))
    ensures Recorded(origin, log + [step], After(s, step))
  {
    hide Enabled, After, Start;
    assert (log + [step])[..|log|] == log;
  }

  lemma {:induction false} Prefix(s: State, steps: seq<Step>, k: nat)
    requires Legal(s, steps) && k < |steps|
    ensures Legal(s, steps[..k]) && Exec(s, steps[..k + 1]) == After(Exec(s, steps[..k]), steps[k])
    ensures steps[k].Inside? ==> Enabled(Exec(s, steps[..k]), steps[k].write)
  {
    hide Enabled, After;
    var n := |steps|;
    if k == n - 1 {
      assert steps[..k + 1] == steps;
    } else {
      Prefix(s, steps[..n - 1], k);
      assert steps[..n - 1][..k] == steps[..k] && steps[..n - 1][..k + 1] == steps[..k + 1];
    }
  }

  lemma {:induction false} AlwaysSound(s: State, steps: seq<Step>)
    requires Start(s) && Legal(s, steps)
    ensures Inv(Exec(s, steps))
  {
    hide Inv, Enabled;
    if steps == [] {
      StartSound(s);
    } else {
      var before := Exec(s, steps[..|steps| - 1]);
      AlwaysSound(s, steps[..|steps| - 1]);
      match steps[|steps| - 1]
      case Inside(w) => WriteKeeps(before, w);
      case Outside(e) => EventKeeps(before, e);
    }
  }

  /** Every guest object that bears an operation of this replica has a durable live entry
      under its identifier; entries marked deleted have no object left. */
  lemma OwnershipWriteAhead(s: State, steps: seq<Step>, id: Id)
    requires Start(s) && Legal(s, steps) && id in Exec(s, steps).objects && Exec(s, steps).objects[id].op != 0
    ensures var t := Exec(s, steps);
      exists i :: LiveEntry(t.entries, i, id) && t.entries[i].op == t.objects[id].op && (forall j :: LiveEntry(t.entries, j, id) ==> j == i)
  {
    AlwaysSound(s, steps);
    var t := Exec(s, steps);
    var i :| LiveEntry(t.entries, i, id) && t.entries[i].op == t.objects[id].op;
    assert forall j :: LiveEntry(t.entries, j, id) ==> j == i;
  }

  lemma DeletedIsGone(s: State, steps: seq<Step>, i: nat)
    requires Start(s) && Legal(s, steps) && i < |Exec(s, steps).entries| && Exec(s, steps).entries[i].deleted
    ensures !InPlace(Exec(s, steps).objects, Exec(s, steps).entries[i])
  {
    AlwaysSound(s, steps);
    var t := Exec(s, steps);
    assert t.entries[i].op != 0;
    assert forall j :: LiveEntry(t.entries, j, t.entries[i].id) ==> t.entries[j].op != t.entries[i].op;
  }

  /** Step `l` created the object with this identity for entry `i`. */
  ghost predicate CreatedAt(s: State, steps: seq<Step>, l: nat, i: nat, uid: Uid) {
    l < |steps| && steps[l] == Inside(Create(i)) && Exec(s, steps[..l]).next == uid
  }

  /** What a step leaves of the journal: identifiers and operations stay. */
  lemma EntriesStay(s: State, step: Step)
    ensures |s.entries| <= |After(s, step).entries|
    ensures forall i :: 0 <= i < |s.entries| ==> After(s, step).entries[i].id == s.entries[i].id && After(s, step).entries[i].op == s.entries[i].op
  {
    hide Guest;
  }

  /** A marked object was there before, or the step created it. */
  lemma MarkedStep(s: State, step: Step, id: Id)
    requires Inv(s) && (step.Inside? ==> Enabled(s, step.write)) && id in After(s, step).objects && After(s, step).objects[id].op != 0
    ensures var o := After(s, step).objects[id];
      || (id in s.objects && s.objects[id].op == o.op && s.objects[id].uid == o.uid)
      || (step.Inside? && step.write.Create? && step.write.i < |s.entries| && s.entries[step.write.i].id == id &&
          s.entries[step.write.i].op == o.op && o.uid == s.next)
  {
    hide JournalSound, MarksJournaled, OnlyFades, PlanSound, KindsAgree, TurnOf, Controlled;
  }

  /** Whatever bears an operation of the journal was created for that entry. */
  lemma {:induction false} MarkedCreated(s: State, steps: seq<Step>, id: Id) returns (l: nat, i: nat)
    requires Start(s) && Legal(s, steps) && id in Exec(s, steps).objects && Exec(s, steps).objects[id].op != 0
    ensures var t := Exec(s, steps);
      i < |t.entries| && t.entries[i].id == id && t.entries[i].op == t.objects[id].op && CreatedAt(s, steps, l, i, t.objects[id].uid)
  {
    hide Start, Inv, Enabled, After;
    if steps == [] {
      Unmarked(s, id);
    } else {
      var n := |steps| - 1;
      var before := Exec(s, steps[..n]);
      AlwaysSound(s, steps[..n]);
      MarkedStep(before, steps[n], id);
      EntriesStay(before, steps[n]);
      if id in before.objects && before.objects[id].op == Exec(s, steps).objects[id].op && before.objects[id].uid == Exec(s, steps).objects[id].uid {
        l, i := MarkedCreated(s, steps[..n], id);
        assert steps[..n][..l] == steps[..l];
      } else {
        l, i := n, steps[n].write.i;
      }
    }
  }

  lemma Unmarked(s: State, id: Id)
    requires Start(s)
    ensures id in s.objects ==> s.objects[id].op == 0
  {}

  /** Patches and deletions reach only objects that this replica created itself, for the
      very entry it acts on. */
  lemma MutationsOwned(s: State, steps: seq<Step>, k: nat)
    requires Start(s) && Legal(s, steps) && k < |steps| && steps[k].Inside? && (steps[k].write.Patch? || steps[k].write.Delete?)
    ensures var t := Exec(s, steps[..k]); var i := steps[k].write.i;
      && i < |t.entries| && t.entries[i].id in t.objects
      && exists l :: CreatedAt(s, steps[..k], l, i, t.objects[t.entries[i].id].uid)
  {
    hide Start, Exec, Inv, Legal;
    Prefix(s, steps, k);
    AlwaysSound(s, steps[..k]);
    var t := Exec(s, steps[..k]);
    var i := steps[k].write.i;
    OneOperation(t, i);
    var l, j := MarkedCreated(s, steps[..k], t.entries[i].id);
    assert j == i;
  }

  lemma OneOperation(t: State, i: nat)
    requires Inv(t) && i < |t.entries|
    ensures t.entries[i].op != 0 && forall j :: 0 <= j < |t.entries| && t.entries[j].op == t.entries[i].op ==> j == i
  {}

  // ---------------------------------------------------------------- what is needed stands earlier

  /** Live entries of dependents stand after the live entries of what they need. */
  ghost predicate Follows(entries: seq<Entry>, g: O.Graph) {
    forall i, j :: NeedsLive(entries, g, i, j) ==> i < j
  }

  /** The live entry `j` needs what the live entry `i` stands for. */
  ghost predicate NeedsLive(entries: seq<Entry>, g: O.Graph, i: int, j: int) {
    0 <= i < |entries| && 0 <= j < |entries| && !entries[i].deleted && !entries[j].deleted && Needs(g, entries[j].id, entries[i].id)
  }

  /** A planned object needs another one of the plan. */
  ghost predicate Needs(g: O.Graph, user: Id, need: Id) { user in g && need in g && need in g[user] }

  /** Some object whose entry is live needs `id`. */
  ghost predicate NeededByLive(entries: seq<Entry>, g: O.Graph, id: Id) {
    exists j :: 0 <= j < |entries| && !entries[j].deleted && Needs(g, entries[j].id, id)
  }

  /** The steps that spoil the order: journaling what an already journaled object needs, and
      adopting a plan that the journal does not follow. */
  ghost predicate Reorders(s: State, step: Step) {
    step.Inside? &&
    match step.write
    case Append(e) => NeededByLive(s.entries, s.plan.needs, e.id)
    case Adopt(p) => !Follows(s.entries, p.needs)
    case _ => false
  }

  /** In an ordered plan nothing needs itself. */
  lemma NeedsOther(p: Plan, user: Id, need: Id)
    requires PlanSound(p) && Needs(p.needs, user, need)
    ensures user != need
  {
    var external :| O.DependenciesFirst(p.needs, external, p.order);
    var x, y := NeedsEarlier(p.needs, external, p.order, user, need);
    assert Distinct(p.order);
  }

  lemma NeedsEarlier(g: O.Graph, external: set<Id>, order: seq<Id>, user: Id, need: Id) returns (x: nat, y: nat)
    requires O.DependenciesFirst(g, external, order) && O.Elements(order) == g.Keys && Needs(g, user, need)
    ensures x < y < |order| && order[x] == need && order[y] == user
  {
    assert user in O.Elements(order);
    y :| 0 <= y < |order| && order[y] == user;
    assert need in order[..y];
    x :| 0 <= x < y && order[..y][x] == need;
  }

  lemma AppendFollows(s: State, e: Entry)
    requires Inv(s) && Follows(s.entries, s.plan.needs) && !e.deleted
    ensures Follows(s.entries + [e], s.plan.needs) <==> !NeededByLive(s.entries, s.plan.needs, e.id)
  {
    hide Needs, Inv;
    var g := s.plan.needs;
    var later := s.entries + [e];
    var n := |s.entries|;
    assert PlanSound(s.plan) by { InvPlan(s); }
    if NeededByLive(s.entries, g, e.id) {
      var j :| 0 <= j < n && !s.entries[j].deleted && Needs(g, s.entries[j].id, e.id);
      assert NeedsLive(later, g, n, j);
    } else {
      forall i, j | NeedsLive(later, g, i, j) ensures i < j {
        if i < n && j < n { assert NeedsLive(s.entries, g, i, j); }
        if i == n && j == n { NeedsOther(s.plan, e.id, e.id); }
      }
    }
  }

  lemma InvPlan(s: State)
    requires Inv(s)
    ensures PlanSound(s.plan) && JournalSound(s.entries) && KindsAgree(s.entries, s.plan)
  {}

  /** Fewer live entries keep the order. */
  lemma FewerFollow(entries: seq<Entry>, later: seq<Entry>, g: O.Graph)
    requires Follows(entries, g) && |later| == |entries|
    requires forall i :: 0 <= i < |entries| ==> later[i].id == entries[i].id && (entries[i].deleted ==> later[i].deleted)
    ensures Follows(later, g)
  {
    forall i, j | NeedsLive(later, g, i, j) ensures i < j { assert NeedsLive(entries, g, i, j); }
  }

  lemma FollowsStep(s: State, step: Step)
    requires Inv(s) && Follows(s.entries, s.plan.needs) && (step.Inside? ==> Enabled(s, step.write))
    ensures Follows(After(s, step).entries, After(s, step).plan.needs) <==> !Reorders(s, step)
  {
    hide Inv, Follows, Guest, NeededByLive, PlanSound, KindsAgree, TurnOf, Controlled, InPlace, Due;
    if step.Inside? {
      match step.write
      case Append(e) => AppendFollows(s, e);
      case Know(i, uid, _) => FewerFollow(s.entries, After(s, step).entries, s.plan.needs);
      case MarkGone(i, _) => FewerFollow(s.entries, After(s, step).entries, s.plan.needs);
      case _ =>
    }
  }

  /** The journal follows the plan at every moment of a run exactly when no step spoils
      the order. */
  lemma {:induction false} OrderKept(s: State, steps: seq<Step>)
    requires Start(s) && Legal(s, steps)
    ensures (forall k :: 0 <= k <= |steps| ==> Follows(Exec(s, steps[..k]).entries, Exec(s, steps[..k]).plan.needs))
       <==> (forall k :: 0 <= k < |steps| ==> !Reorders(Exec(s, steps[..k]), steps[k]))
  {
    hide Start, Inv, Enabled, Follows, Reorders, Exec, Legal;
    if forall k :: 0 <= k <= |steps| ==> Follows(Exec(s, steps[..k]).entries, Exec(s, steps[..k]).plan.needs) {
      forall k | 0 <= k < |steps| ensures !Reorders(Exec(s, steps[..k]), steps[k]) {
        assert Follows(Exec(s, steps[..k + 1]).entries, Exec(s, steps[..k + 1]).plan.needs);
        OrderAt(s, steps, k);
      }
    }
    if forall k :: 0 <= k < |steps| ==> !Reorders(Exec(s, steps[..k]), steps[k]) {
      forall k | 0 <= k <= |steps| ensures Follows(Exec(s, steps[..k]).entries, Exec(s, steps[..k]).plan.needs) { OrderUpTo(s, steps, k); }
    }
  }

  lemma OrderAt(s: State, steps: seq<Step>, k: nat)
    requires Start(s) && Legal(s, steps) && k < |steps| && Follows(Exec(s, steps[..k]).entries, Exec(s, steps[..k]).plan.needs)
    ensures Follows(Exec(s, steps[..k + 1]).entries, Exec(s, steps[..k + 1]).plan.needs) <==> !Reorders(Exec(s, steps[..k]), steps[k])
  {
    hide Start, Inv, Enabled, Follows, Reorders, Exec, Legal, After;
    Prefix(s, steps, k);
    AlwaysSound(s, steps[..k]);
    FollowsStep(Exec(s, steps[..k]), steps[k]);
  }

  /** Up to the first step that spoils it, the journal follows the plan. */
  lemma {:induction false} OrderUpTo(s: State, steps: seq<Step>, k: nat)
    requires Start(s) && Legal(s, steps) && k <= |steps|
    requires forall l :: 0 <= l < k ==> !Reorders(Exec(s, steps[..l]), steps[l])
    ensures Follows(Exec(s, steps[..k]).entries, Exec(s, steps[..k]).plan.needs)
  {
    if k == 0 {
      assert steps[..0] == [];
    } else {
      hide Start, Inv, Enabled, Follows, Reorders, Exec, Legal;
      OrderUpTo(s, steps, k - 1);
      OrderAt(s, steps, k - 1);
    }
  }

  /** Everything the object of entry `i` is needed for is gone. */
  ghost predicate Unneeded(entries: seq<Entry>, g: O.Graph, i: nat)
    requires i < |entries|
  {
    forall j :: 0 <= j < |entries| && Needs(g, entries[j].id, entries[i].id) ==> entries[j].deleted
  }

  /** No live dependent was journaled before entry `i`. */
  ghost predicate NoneBefore(entries: seq<Entry>, g: O.Graph, i: nat)
    requires i < |entries|
  {
    forall j :: 0 <= j < i && Needs(g, entries[j].id, entries[i].id) ==> entries[j].deleted
  }

  lemma CleanupOrder(t: State, i: nat)
    requires Inv(t) && Enabled(t, Delete(i, false))
    ensures Unneeded(t.entries, t.plan.needs, i) <==> NoneBefore(t.entries, t.plan.needs, i)
  {
    hide Numbered, MarksJournaled, OnlyFades, Controlled;
    var g := t.plan.needs;
    if NoneBefore(t.entries, g, i) {
      forall j | 0 <= j < |t.entries| && Needs(g, t.entries[j].id, t.entries[i].id) ensures t.entries[j].deleted {
        NeedsOther(t.plan, t.entries[j].id, t.entries[i].id);
        assert i < j ==> t.entries[j].deleted || Relaxed(t.entries, j);
      }
    }
  }

  /** Cleanup asks for an object with every planned object that needs it observed absent,
      exactly when no live one of these was journaled before it; and always, when no step
      so far spoiled the order. */
  lemma DependentsFirst(s: State, steps: seq<Step>, k: nat)
    requires Start(s) && Legal(s, steps) && k < |steps| && steps[k].Inside? && steps[k].write.Delete? && !steps[k].write.prune
    ensures var t := Exec(s, steps[..k]); var i := steps[k].write.i;
      && i < |t.entries| && (Unneeded(t.entries, t.plan.needs, i) <==> NoneBefore(t.entries, t.plan.needs, i))
      && ((forall l :: 0 <= l < k ==> !Reorders(Exec(s, steps[..l]), steps[l])) ==> Unneeded(t.entries, t.plan.needs, i))
  {
    hide Start, Inv, Exec, Legal, Reorders, Unneeded, NoneBefore, Relaxed;
    Prefix(s, steps, k);
    AlwaysSound(s, steps[..k]);
    var t := Exec(s, steps[..k]);
    var i := steps[k].write.i;
    CleanupOrder(t, i);
    if forall l :: 0 <= l < k ==> !Reorders(Exec(s, steps[..l]), steps[l]) {
      OrderUpTo(s, steps, k);
      FollowsBefore(t.entries, t.plan.needs, i);
    }
  }

  lemma FollowsBefore(entries: seq<Entry>, g: O.Graph, i: nat)
    requires Follows(entries, g) && i < |entries| && !entries[i].deleted
    ensures NoneBefore(entries, g, i)
  {
    forall j | 0 <= j < i && Needs(g, entries[j].id, entries[i].id) ensures entries[j].deleted {
      assert NeedsLive(entries, g, i, j) || entries[j].deleted;
    }
  }
}
