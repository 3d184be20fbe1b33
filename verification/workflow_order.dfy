/** When the journal follows the plan: the first plan, a refresh, and an object created again. */
module WorkflowOrder {
  import opened Common
  import opened PlannerText
  import opened WorkflowJournal
  import O = PlannerOrder
  import C = CaptureClosure
  import R = PlannerRenaming

  // ---------------------------------------------------------------- without refreshes and re-creations

  ghost predicate Mentioned(entries: seq<Entry>, id: Id) { exists i :: 0 <= i < |entries| && entries[i].id == id }

  /** Whatever a journaled object needs was journaled, too. */
  ghost predicate NeedsMentioned(entries: seq<Entry>, g: O.Graph) {
    forall j, x :: 0 <= j < |entries| && Needs(g, entries[j].id, x) ==> Mentioned(entries, x)
  }

  /** No planned object is journaled twice, and a new plan needs nothing new for what is
      journaled already.  The first plan is always like this. */
  ghost predicate Plain(s: State, step: Step) {
    step.Inside? ==>
      match step.write
      case Append(e) => e.id in s.plan.needs ==> !Mentioned(s.entries, e.id)
      case Adopt(p) => Follows(s.entries, p.needs) && NeedsMentioned(s.entries, p.needs)
      case _ => true
  }

  lemma FirstPlain(s: State, p: Plan)
    requires s.entries == []
    ensures Plain(s, Inside(Adopt(p)))
  {}

  lemma AppendMentions(s: State, e: Entry)
    requires Inv(s) && Enabled(s, Append(e)) && NeedsMentioned(s.entries, s.plan.needs)
    ensures NeedsMentioned(s.entries + [e], s.plan.needs)
  {
    InvPlan(s);
    hide Inv, Needs;
    forall j, x | 0 <= j < |s.entries + [e]| && Needs(s.plan.needs, (s.entries + [e])[j].id, x) ensures Mentioned(s.entries + [e], x) {
      if j < |s.entries| {
        assert Mentioned(s.entries, x);
        var i :| 0 <= i < |s.entries| && s.entries[i].id == x;
        assert (s.entries + [e])[i].id == x;
      } else {
        NeedsDue(s, e, x);
        var i :| LiveEntry(s.entries, i, x);
        assert (s.entries + [e])[i].id == x;
      }
    }
  }

  /** What a newly journaled object needs has live entries. */
  lemma NeedsDue(s: State, e: Entry, x: Id)
    requires PlanSound(s.plan) && Enabled(s, Append(e)) && Needs(s.plan.needs, e.id, x)
    ensures HasLive(s.entries, x)
  {
    var external :| O.DependenciesFirst(s.plan.needs, external, s.plan.order);
    var a, b := NeedsEarlier(s.plan.needs, external, s.plan.order, e.id, x);
    hide HasLive;
    assert HasLive(s.entries, s.plan.order[a]);
  }

  lemma PlainStep(s: State, step: Step)
    requires Inv(s) && NeedsMentioned(s.entries, s.plan.needs) && (step.Inside? ==> Enabled(s, step.write)) && Plain(s, step)
    ensures !Reorders(s, step) && NeedsMentioned(After(s, step).entries, After(s, step).plan.needs)
  {
    hide Inv, Follows, Guest, PlanSound, KindsAgree, TurnOf, Controlled, InPlace, Due, Needs, HasLive;
    if step.Inside? {
      match step.write
      case Append(e) =>
        AppendMentions(s, e);
        if NeededByLive(s.entries, s.plan.needs, e.id) {
          var j :| 0 <= j < |s.entries| && !s.entries[j].deleted && Needs(s.plan.needs, s.entries[j].id, e.id);
          assert Mentioned(s.entries, e.id);
          NeedsPlanned(s.plan.needs, s.entries[j].id, e.id);
        }
      case Know(i, uid, _) => SameMentions(s.entries, After(s, step).entries, s.plan.needs);
      case MarkGone(i, _) => SameMentions(s.entries, After(s, step).entries, s.plan.needs);
      case _ =>
    }
  }

  lemma NeedsPlanned(g: O.Graph, user: Id, need: Id)
    requires Needs(g, user, need)
    ensures user in g && need in g
  {}

  lemma SameMentions(entries: seq<Entry>, later: seq<Entry>, g: O.Graph)
    requires NeedsMentioned(entries, g) && |later| == |entries| && forall i :: 0 <= i < |entries| ==> later[i].id == entries[i].id
    ensures NeedsMentioned(later, g)
  {
    hide Needs;
    forall j, x | 0 <= j < |later| && Needs(g, later[j].id, x) ensures Mentioned(later, x) {
      assert Needs(g, entries[j].id, x) && Mentioned(entries, x);
      var i :| 0 <= i < |entries| && entries[i].id == x;
      assert later[i].id == x;
    }
  }

  /** So without re-creations and such refreshes the journal follows the plan throughout,
      and cleanup removes dependents first. */
  lemma {:induction false} PlainOrderly(s: State, steps: seq<Step>, k: nat)
    requires Start(s) && Legal(s, steps) && k <= |steps|
    requires forall l :: 0 <= l < |steps| ==> Plain(Exec(s, steps[..l]), steps[l])
    ensures NeedsMentioned(Exec(s, steps[..k]).entries, Exec(s, steps[..k]).plan.needs)
    ensures forall l :: 0 <= l < k ==> !Reorders(Exec(s, steps[..l]), steps[l])
    ensures Follows(Exec(s, steps[..k]).entries, Exec(s, steps[..k]).plan.needs)
  {
    hide Start, Inv, Enabled, Follows, Reorders, Exec, Legal, Plain, NeedsMentioned, After;
    if k == 0 {
      NoneMentioned(s, steps);
    } else {
      PlainOrderly(s, steps, k - 1);
      Prefix(s, steps, k - 1);
      AlwaysSound(s, steps[..k - 1]);
      PlainStep(Exec(s, steps[..k - 1]), steps[k - 1]);
    }
    OrderUpTo(s, steps, k);
  }

  lemma NoneMentioned(s: State, steps: seq<Step>)
    requires Start(s)
    ensures NeedsMentioned(Exec(s, steps[..0]).entries, Exec(s, steps[..0]).plan.needs)
  {
    assert steps[..0] == [];
  }

  // ---------------------------------------------------------------- what a refresh leads to

  ghost predicate AllLive(entries: seq<Entry>, p: Plan) { forall id :: id in p.needs ==> HasLive(entries, id) }

  /** The journal already follows the new plan, and no journaled object needs one that is
      still to be journaled. */
  ghost predicate RefreshOrderly(entries: seq<Entry>, p: Plan) {
    Follows(entries, p.needs) && forall x :: x in p.needs && !HasLive(entries, x) ==> !NeededByLive(entries, p.needs, x)
  }

  /** Planned entries are as they were; others may have been marked. */
  ghost predicate Kept(start: seq<Entry>, later: seq<Entry>, p: Plan) {
    |start| <= |later| && forall i :: 0 <= i < |start| ==>
      later[i].id == start[i].id && (start[i].id in p.needs ==> later[i].deleted == start[i].deleted)
  }

  ghost predicate LiveBefore(entries: seq<Entry>, j: int, x: Id) { exists i :: 0 <= i < j && LiveEntry(entries, i, x) }

  /** What the entries from `n` on need stands before them. */
  ghost predicate NewOrdered(n: nat, later: seq<Entry>, p: Plan) {
    forall j, x :: n <= j < |later| && !later[j].deleted && Needs(p.needs, later[j].id, x) ==> LiveBefore(later, j, x)
  }

  /** Once everything planned is journaled, the journal follows the plan exactly when the
      refresh was orderly. */
  lemma FollowsExactly(start: seq<Entry>, later: seq<Entry>, p: Plan)
    requires JournalSound(later) && Kept(start, later, p) && NewOrdered(|start|, later, p) && AllLive(later, p)
    ensures Follows(later, p.needs) <==> RefreshOrderly(start, p)
  {
    hide Needs, JournalSound;
    if RefreshOrderly(start, p) { OrderlyFollows(start, later, p); }
    if Follows(later, p.needs) { FollowsOrderly(start, later, p); }
  }

  lemma SameEntry(later: seq<Entry>, i: int, j: int, x: Id)
    requires JournalSound(later) && LiveEntry(later, i, x) && LiveEntry(later, j, x)
    ensures i == j
  {}

  lemma OrderlyFollows(start: seq<Entry>, later: seq<Entry>, p: Plan)
    requires JournalSound(later) && Kept(start, later, p) && NewOrdered(|start|, later, p) && RefreshOrderly(start, p)
    ensures Follows(later, p.needs)
  {
    hide Needs, JournalSound;
    var n := |start|;
    forall i, j | NeedsLive(later, p.needs, i, j) ensures i < j {
      var x := later[i].id;
      NeedsPlanned(p.needs, later[j].id, x);
      if n <= j {
        var l :| 0 <= l < j && LiveEntry(later, l, x);
        SameEntry(later, i, l, x);
      } else if i < n {
        assert NeedsLive(start, p.needs, i, j);
      } else {
        assert NeededByLive(start, p.needs, x);
        var l :| LiveEntry(start, l, x);
        assert LiveEntry(later, l, x);
        SameEntry(later, i, l, x);
      }
    }
  }

  lemma FollowsOrderly(start: seq<Entry>, later: seq<Entry>, p: Plan)
    requires Kept(start, later, p) && AllLive(later, p) && Follows(later, p.needs)
    ensures RefreshOrderly(start, p)
  {
    hide Needs;
    forall i, j | NeedsLive(start, p.needs, i, j) ensures i < j {
      NeedsPlanned(p.needs, start[j].id, start[i].id);
      assert NeedsLive(later, p.needs, i, j);
    }
    forall x | x in p.needs && NeededByLive(start, p.needs, x) ensures HasLive(start, x) {
      var j :| 0 <= j < |start| && !start[j].deleted && Needs(p.needs, start[j].id, x);
      NeedsPlanned(p.needs, start[j].id, x);
      var i :| LiveEntry(later, i, x);
      assert NeedsLive(later, p.needs, i, j);
      assert LiveEntry(start, i, x);
    }
  }

  /** The step neither replaces the plan nor marks a planned entry gone. */
  ghost predicate Steady(s: State, step: Step) {
    && (step.Inside? ==> !step.write.Adopt?)
    && (step.Inside? && step.write.MarkGone? && step.write.i < |s.entries| ==> s.entries[step.write.i].id !in s.plan.needs)
  }

  lemma NewStep(start: seq<Entry>, s: State, step: Step)
    requires Inv(s) && Kept(start, s.entries, s.plan) && NewOrdered(|start|, s.entries, s.plan)
    requires (step.Inside? ==> Enabled(s, step.write)) && Steady(s, step)
    ensures var t := After(s, step); t.plan == s.plan && Kept(start, t.entries, s.plan) && NewOrdered(|start|, t.entries, s.plan)
  {
    hide Inv, Guest, PlanSound, KindsAgree, TurnOf, Controlled, InPlace, Due, Needs, HasLive;
    if step.Inside? {
      match step.write
      case Append(e) => NewAppend(start, s, e);
      case Know(i, uid, _) => NewSame(start, s.entries, After(s, step).entries, s.plan);
      case MarkGone(i, _) => NewSame(start, s.entries, After(s, step).entries, s.plan);
      case _ =>
    }
  }

  lemma NewSame(start: seq<Entry>, entries: seq<Entry>, later: seq<Entry>, p: Plan)
    requires Kept(start, entries, p) && NewOrdered(|start|, entries, p) && |later| == |entries|
    requires forall i :: 0 <= i < |entries| ==> later[i].id == entries[i].id && (entries[i].id in p.needs ==> later[i].deleted == entries[i].deleted)
    ensures Kept(start, later, p) && NewOrdered(|start|, later, p)
  {
    hide Needs;
    forall j, x | |start| <= j < |later| && !later[j].deleted && Needs(p.needs, later[j].id, x) ensures LiveBefore(later, j, x) {
      NeedsPlanned(p.needs, later[j].id, x);
      var i :| 0 <= i < j && LiveEntry(entries, i, x);
      assert LiveEntry(later, i, x);
    }
  }

  lemma NewAppend(start: seq<Entry>, s: State, e: Entry)
    requires Inv(s) && Enabled(s, Append(e)) && Kept(start, s.entries, s.plan) && NewOrdered(|start|, s.entries, s.plan)
    ensures Kept(start, s.entries + [e], s.plan) && NewOrdered(|start|, s.entries + [e], s.plan)
  {
    InvPlan(s);
    hide Inv, Needs, Enabled;
    var later := s.entries + [e];
    forall j, x | |start| <= j < |later| && !later[j].deleted && Needs(s.plan.needs, later[j].id, x) ensures LiveBefore(later, j, x) {
      if j < |s.entries| {
        var i :| 0 <= i < j && LiveEntry(s.entries, i, x);
        assert LiveEntry(later, i, x);
      } else {
        NeedsDue(s, e, x);
        var i :| LiveEntry(s.entries, i, x);
        assert LiveEntry(later, i, x);
      }
    }
  }

  lemma {:induction false} NewAlways(s: State, steps: seq<Step>, k: nat, m: nat)
    requires Start(s) && Legal(s, steps) && k < m <= |steps| && steps[k].Inside? && steps[k].write.Adopt?
    requires forall l :: k < l < |steps| ==> Steady(Exec(s, steps[..l]), steps[l])
    ensures var start := Exec(s, steps[..k]).entries; var t := Exec(s, steps[..m]); var p := steps[k].write.plan;
      t.plan == p && Kept(start, t.entries, p) && NewOrdered(|start|, t.entries, p)
  {
    hide Start, Inv, Enabled, Exec, Legal, Steady, Needs;
    if m == k + 1 {
      Prefix(s, steps, k);
    } else {
      NewAlways(s, steps, k, m - 1);
      Prefix(s, steps, m - 1);
      AlwaysSound(s, steps[..m - 1]);
      NewStep(Exec(s, steps[..k]).entries, Exec(s, steps[..m - 1]), steps[m - 1]);
    }
  }

  /** A plan was adopted at step `k` and has been applied completely, with nothing planned
      marked gone since: the journal follows it exactly when the refresh was orderly. */
  lemma RefreshExactly(s: State, steps: seq<Step>, k: nat)
    requires Start(s) && Legal(s, steps) && k < |steps| && steps[k].Inside? && steps[k].write.Adopt?
    requires forall l :: k < l < |steps| ==> Steady(Exec(s, steps[..l]), steps[l])
    requires AllLive(Exec(s, steps).entries, steps[k].write.plan)
    ensures Follows(Exec(s, steps).entries, steps[k].write.plan.needs) <==> RefreshOrderly(Exec(s, steps[..k]).entries, steps[k].write.plan)
  {
    hide Start, Inv, Enabled, Exec, Legal, Steady, Kept, NewOrdered, AllLive, Follows, RefreshOrderly;
    assert steps[..|steps|] == steps;
    NewAlways(s, steps, k, |steps|);
    AlwaysSound(s, steps);
    InvPlan(Exec(s, steps));
    FollowsExactly(Exec(s, steps[..k]).entries, Exec(s, steps).entries, steps[k].write.plan);
  }

  // ---------------------------------------------------------------- captured plans are such plans

  function KindNamed(kind: string): Kind {
    if kind == "Namespace" then Namespace else if kind == "PersistentVolumeClaim" then Claim else Other
  }

  /** The plan of a capture that could be ordered. */
  ghost function PlanOf(pool: C.Pool, ids: set<Id>, order: seq<Id>): Plan
    requires ids <= pool.Keys
  {
    Plan(order, C.PlanGraph(pool, ids), map id | id in ids :: KindNamed(C.KindIn(pool[id])))
  }

  lemma ClaimNeedsNothing(start: C.Pool, pool: C.Pool, id: Id)
    requires C.Faithful(start) && C.ForeignDefinitions(start) && C.Prepared(start, pool) && id in start && id in pool
    requires C.KindIn(pool[id]) == "PersistentVolumeClaim"
    ensures pool[id].needs == {}
  {
    hide R.Dependencies, C.DefinitionTable, C.Rank, R.GroupOf, C.ForeignDefinitions, C.Operators, C.TypeOf;
    C.BoundSame(start);
    var table :| C.DefinitionTable(C.Bound(start), table) && pool == C.Defined(C.Bound(start), table);
    assert C.Rank("PersistentVolumeClaim") == 0 by { ClaimRank(); }
    assert C.KindIn(start[id]) == "PersistentVolumeClaim";
    C.NoDependencies(start[id].desired);
    assert start[id].needs == {};
    if C.TypeOf(start[id]) in table { C.CustomKind(start, table, id); }
    assert C.TypeOf(C.Bound(start)[id]) == C.TypeOf(start[id]) by { C.SameType(start, id); }
  }

  lemma ClaimRank()
    ensures C.Rank("PersistentVolumeClaim") == 0
  {}

  /** What capturing and ordering give is a plan that may be adopted: ordered, and with
      volume claims that need nothing. */
  lemma CapturedPlanSound(start: C.Pool, pool: C.Pool, provided: set<Id>, ids: set<Id>)
    requires C.Faithful(start) && C.ForeignDefinitions(start) && C.Prepared(start, pool) && C.Captured(pool, provided, ids)
    requires ids <= pool.Keys && O.Result(C.PlanGraph(pool, ids), provided).Ordered?
    ensures PlanSound(PlanOf(pool, ids, O.Result(C.PlanGraph(pool, ids), provided).order))
  {
    hide C.Faithful, C.ForeignDefinitions, C.Prepared, C.Captured, O.Result, C.KindIn;
    var g := C.PlanGraph(pool, ids);
    var p := PlanOf(pool, ids, O.Result(g, provided).order);
    O.ResultOrders(g, provided);
    assert O.DependenciesFirst(p.needs, provided, p.order);
    C.PreparedSame(start, pool);
    forall id | id in p.kinds && p.kinds[id] == Claim ensures p.needs[id] == {} { ClaimNeedsNothing(start, pool, id); }
  }

  /** The kind of every entry is the one its identifier tells. */
  ghost predicate KindsTold(entries: seq<Entry>) {
    forall e :: e in entries ==> exists r :: C.PlainRef(r) && C.IdOf(r) == e.id && e.kind == KindNamed(r.kind)
  }

  lemma ToldAgree(start: C.Pool, pool: C.Pool, ids: set<Id>, order: seq<Id>, entries: seq<Entry>)
    requires C.Faithful(start) && C.Prepared(start, pool) && ids <= pool.Keys && KindsTold(entries)
    ensures KindsAgree(entries, PlanOf(pool, ids, order))
  {
    hide C.DefinitionTable, C.IdOf, C.PlainRef, R.Dependencies, C.Bound;
    C.BoundSame(start);
    forall i | 0 <= i < |entries| && entries[i].id in ids ensures entries[i].kind == KindNamed(C.KindIn(pool[entries[i].id])) {
      var id := entries[i].id;
      assert entries[i] in entries;
      var r :| C.PlainRef(r) && C.IdOf(r) == id && entries[i].kind == KindNamed(r.kind);
      var q :| C.PlainRef(q) && C.IdOf(q) == id && q.kind == C.KindIn(start[id]);
      C.IdUnique(r, q);
    }
  }

  // ---------------------------------------------------------------- runs that spoil the order

  lemma WriteStep(origin: State, log: seq<Step>, s: State, w: Write) returns (more: seq<Step>, t: State)
    requires Recorded(origin, log, s) && Enabled(s, w)
    ensures Recorded(origin, more, t) && t == Apply(s, w) && more == log + [Inside(w)]
  {
    hide Recorded, Enabled, Apply;
    more, t := log + [Inside(w)], Apply(s, w);
    RecordStep(origin, log, s, Inside(w));
  }

  lemma AdoptStep(origin: State, log: seq<Step>, s: State, p: Plan) returns (more: seq<Step>, t: State)
    requires Recorded(origin, log, s) && PlanSound(p) && KindsAgree(s.entries, p)
    ensures Recorded(origin, more, t) && t.entries == s.entries && t.objects == s.objects && t.plan == p
  {
    hide Recorded, PlanSound, KindsAgree;
    more, t := WriteStep(origin, log, s, Adopt(p));
  }

  /** An object is journaled, created and recorded. */
  lemma InstallStep(origin: State, log: seq<Step>, s: State, id: Id, op: Op) returns (more: seq<Step>, t: State, uid: Uid)
    requires Recorded(origin, log, s) && Enabled(s, Append(Entry(id, Other, "n", op, 0, false))) && id !in s.objects
    ensures Recorded(origin, more, t) && t.plan == s.plan && t.entries == s.entries + [Entry(id, Other, "n", op, uid, false)]
    ensures t.objects.Keys == s.objects.Keys + {id} && t.objects[id].uid == uid && t.objects[id].op == op
    ensures forall k :: k in s.objects ==> t.objects[k] == s.objects[k]
  {
    Sound(origin, log, s);
    hide Recorded, PlanSound, KindsAgree, Due, HasLive, JournalSound, MarksJournaled, OnlyFades;
    var n := |s.entries|;
    more, t := WriteStep(origin, log, s, Append(Entry(id, Other, "n", op, 0, false)));
    uid := t.next;
    more, t := WriteStep(origin, more, t, Create(n));
    assert InPlace(t.past[uid], t.entries[n]);
    more, t := WriteStep(origin, more, t, Know(n, uid, uid));
  }

  lemma Sound(origin: State, log: seq<Step>, s: State)
    requires Recorded(origin, log, s)
    ensures Inv(s)
  {
    hide Start, Legal, Exec, Inv;
    AlwaysSound(origin, log);
  }

  /** An object vanishes, and a refresh marks its entry. */
  lemma VanishStep(origin: State, log: seq<Step>, s: State, i: nat) returns (more: seq<Step>, t: State)
    requires Recorded(origin, log, s) && i < |s.entries| && !s.entries[i].deleted
    ensures Recorded(origin, more, t) && t.plan == s.plan && t.entries == s.entries[i := s.entries[i].(deleted := true)]
    ensures t.objects == s.objects - {s.entries[i].id}
  {
    Sound(origin, log, s);
    hide Recorded, PlanSound, KindsAgree, JournalSound, MarksJournaled, OnlyFades;
    var id := s.entries[i].id;
    more, t := log + [Outside(Vanish(id))], Happen(s, Vanish(id));
    RecordStep(origin, log, s, Outside(Vanish(id)));
    more, t := WriteStep(origin, more, t, MarkGone(i, t.next - 1));
  }

  const NOTHING: State := State([], map[], 1, 0, map[0 := map[]], NO_PLAN)

  /** "b" needs "a". */
  const TWO := Plan(["a", "b"], map["a" := {}, "b" := {"a"}], map["a" := Other, "b" := Other])
  const ONLY := Plan(["b"], map["b" := {}], map["b" := Other])

  lemma PlansSound()
    ensures PlanSound(TWO) && PlanSound(ONLY)
  {
    assert ["a", "b"][..1] == ["a"];
    assert O.DependenciesFirst(TWO.needs, {}, TWO.order);
    assert O.DependenciesFirst(ONLY.needs, {}, ONLY.order);
  }

  lemma NothingYet()
    ensures Recorded(NOTHING, [], NOTHING)
  {}

  lemma Dueness(entries: seq<Entry>)
    ensures Due(entries, TWO, "a") && Due(entries, ONLY, "b")
    ensures HasLive(entries, "a") ==> Due(entries, TWO, "b")
  {}

  lemma Single(s: State, i: nat)
    requires Inv(s) && i == |s.entries| - 1 && !s.entries[i].deleted && s.entries[i].id in s.objects
    requires s.objects[s.entries[i].id].op == s.entries[i].op && s.objects[s.entries[i].id].uid == s.entries[i].uid
    ensures Enabled(s, Delete(i, false))
  {
    hide Inv;
  }

  /** The last step asks for what another live object of the plan needs. */
  ghost predicate GoesEarly(s: State, steps: seq<Step>) {
    && Start(s) && Legal(s, steps) && steps != []
    && var k := |steps| - 1; var t := Exec(s, steps[..k]);
      steps[k].Inside? && steps[k].write.Delete? && !steps[k].write.prune && steps[k].write.i < |t.entries| && !Unneeded(t.entries, t.plan.needs, steps[k].write.i)
  }

  lemma Early(origin: State, log: seq<Step>, s: State, i: nat, j: nat) returns (steps: seq<Step>)
    requires Recorded(origin, log, s) && i < |s.entries| && Enabled(s, Delete(i, false))
    requires j < |s.entries| && !s.entries[j].deleted && Needs(s.plan.needs, s.entries[j].id, s.entries[i].id)
    ensures GoesEarly(origin, steps)
  {
    hide Enabled, Needs, Start;
    var t;
    steps, t := WriteStep(origin, log, s, Delete(i, false));
    assert steps[..|steps| - 1] == log;
  }

  /** "a" vanished and was created again, at the end of the journal: at cleanup it goes
      before "b", which needs it. */
  lemma RecreatedGoesEarly() returns (steps: seq<Step>)
    ensures GoesEarly(NOTHING, steps)
  {
    NothingYet();
    PlansSound();
    hide Recorded, PlanSound, GoesEarly, Due;
    var log, s := AdoptStep(NOTHING, [], NOTHING, TWO);
    var uid;
    Dueness(s.entries);
    log, s, uid := InstallStep(NOTHING, log, s, "a", 5);
    assert LiveEntry(s.entries, 0, "a");
    Dueness(s.entries);
    log, s, uid := InstallStep(NOTHING, log, s, "b", 6);
    log, s := VanishStep(NOTHING, log, s, 0);
    Dueness(s.entries);
    log, s, uid := InstallStep(NOTHING, log, s, "a", 7);
    Sound(NOTHING, log, s);
    Single(s, 2);
    hide Enabled;
    steps := Early(NOTHING, log, s, 2, 1);
  }

  /** "b" was journaled alone; a refresh finds that it needs a new "a": at cleanup "a"
      goes before it, with nothing re-created. */
  lemma RefreshGoesEarly() returns (steps: seq<Step>)
    ensures GoesEarly(NOTHING, steps)
  {
    NothingYet();
    PlansSound();
    hide Recorded, PlanSound, GoesEarly, Due;
    var log, s := AdoptStep(NOTHING, [], NOTHING, ONLY);
    var uid;
    Dueness(s.entries);
    log, s, uid := InstallStep(NOTHING, log, s, "b", 6);
    log, s := AdoptStep(NOTHING, log, s, TWO);
    Dueness(s.entries);
    log, s, uid := InstallStep(NOTHING, log, s, "a", 5);
    Sound(NOTHING, log, s);
    Single(s, 1);
    hide Enabled;
    steps := Early(NOTHING, log, s, 1, 0);
  }
}
