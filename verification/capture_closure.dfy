/** Capturing the source: added dependencies, the inclusion closure, and why the order
    that follows cannot miss a dependency. */
module CaptureClosure {
  import opened Common
  import opened PlannerText
  import opened PlannerJson
  import R = PlannerRenaming
  import O = PlannerOrder

  /** A captured candidate: its desired state, whether it was selected, and what it needs. */
  datatype Candidate = Candidate(desired: Json, selected: bool, needs: set<Id>)

  type Pool = map<Id, Candidate>

  function IdOf(r: R.Ref): Id {
    "object:" + (r.group + ":" + (r.kind + ":" + (r.ns + ":" + r.name)))
  }

  function KindIn(c: Candidate): string { R.KindOf(c.desired) }

  const BINDINGS := {"RoleBinding", "ClusterRoleBinding"}
  const WORKLOADS := {"Deployment", "StatefulSet", "DaemonSet", "Job", "CronJob"}

  // ---------------------------------------------------------------- added dependencies

  /** The service accounts a binding names. */
  ghost function SubjectIds(c: Candidate): set<Id> {
    set i | i in SubjectList(Nested(c.desired, ["subjects"]))
  }

  function SubjectList(v: Option<Json>): seq<Id> {
    if v.Some? && v.value.Arr? then SubjectsOf(v.value.items) else []
  }

  function SubjectsOf(items: seq<Json>): seq<Id> {
    if items == [] then []
    else
      (if Get(items[0], "kind") == Some(Str("ServiceAccount")) then
         [IdOf(R.Ref("", "ServiceAccount", TextOf(items[0], "namespace"), TextOf(items[0], "name")))] else []) + SubjectsOf(items[1..])
  }

  /** The bindings of the pool that grant something to `account`. */
  ghost function BindingsOf(pool: Pool, account: Id): set<Id> {
    set id | id in pool && KindIn(pool[id]) in BINDINGS && account in SubjectIds(pool[id])
  }

  /** Workloads wait for the bindings of the accounts they use. */
  ghost function Bound(pool: Pool): Pool {
    map id | id in pool ::
      if KindIn(pool[id]) in WORKLOADS then
        pool[id].(needs := pool[id].needs + set x, b | x in pool[id].needs && b in BindingsOf(pool, x) :: b)
      else pool[id]
  }

  /** The group and kind that a definition defines. */
  function Defines(c: Candidate): (string, string) {
    (NestedStr(c.desired, ["spec", "group"]), NestedStr(c.desired, ["spec", "names", "kind"]))
  }

  function TypeOf(c: Candidate): (string, string) {
    (var g := R.GroupOf(TextOf(c.desired, "apiVersion")); if g.Some? then g.value else "", KindIn(c))
  }

  predicate IsDefinition(c: Candidate) { KindIn(c) == "CustomResourceDefinition" }

  /** `table` names, for each type some definition defines, one such definition. */
  ghost predicate DefinitionTable(pool: Pool, table: map<(string, string), Id>) {
    && (forall t :: t in table ==> table[t] in pool && IsDefinition(pool[table[t]]) && Defines(pool[table[t]]) == t)
    && (forall id :: id in pool && IsDefinition(pool[id]) ==> Defines(pool[id]) in table)
  }

  ghost function Operators(pool: Pool): set<Id> {
    set id | id in pool && pool[id].selected && KindIn(pool[id]) in {"Deployment", "StatefulSet"}
  }

  /** Custom resources wait for their definition and for all captured operators. */
  ghost function Defined(pool: Pool, table: map<(string, string), Id>): Pool {
    map id | id in pool ::
      if TypeOf(pool[id]) in table then pool[id].(needs := pool[id].needs + {table[TypeOf(pool[id])]} + Operators(pool)) else pool[id]
  }

  /** Two definitions of one type. */
  ghost predicate Rivals(pool: Pool, a: Id, b: Id) {
    a in pool && b in pool && a != b && IsDefinition(pool[a]) && IsDefinition(pool[b]) && Defines(pool[a]) == Defines(pool[b])
  }

  /** A resource of a type that is defined more than once needs each of these definitions anyway. */
  ghost predicate Settled(pool: Pool) {
    forall o, a, b :: o in pool && Rivals(pool, a, b) && Defines(pool[a]) == TypeOf(pool[o]) ==> a in pool[o].needs
  }

  lemma TablesAgree(pool: Pool, s: map<(string, string), Id>, t: map<(string, string), Id>)
    requires Settled(pool) && DefinitionTable(pool, s) && DefinitionTable(pool, t)
    ensures Defined(pool, s) == Defined(pool, t)
  {
    forall o | o in pool ensures Defined(pool, s)[o] == Defined(pool, t)[o] {
      var k := TypeOf(pool[o]);
      if k in s { assert Defines(pool[s[k]]) in t; }
      if k in t { assert Defines(pool[t[k]]) in s; }
      if k in s && s[k] != t[k] {
        assert Rivals(pool, s[k], t[k]) && Rivals(pool, t[k], s[k]);
        assert pool[o].needs + {s[k]} == pool[o].needs + {t[k]};
      }
    }
  }

  ghost function Definer(pool: Pool, t: (string, string)): Id
    requires exists id :: id in pool && IsDefinition(pool[id]) && Defines(pool[id]) == t
  {
    var id :| id in pool && IsDefinition(pool[id]) && Defines(pool[id]) == t;
    id
  }

  /** Any of the definitions of a type may be the one a table names. */
  lemma TableNaming(pool: Pool, a: Id) returns (table: map<(string, string), Id>)
    requires a in pool && IsDefinition(pool[a])
    ensures DefinitionTable(pool, table) && table[Defines(pool[a])] == a
  {
    hide IsDefinition, Defines;
    var types := set id | id in pool && IsDefinition(pool[id]) :: Defines(pool[id]);
    table := map t | t in types :: if t == Defines(pool[a]) then a else Definer(pool, t);
  }

  /** With another definition of its type a resource that did not need it differs. */
  lemma TablesDiffer(pool: Pool, o: Id, a: Id, b: Id, s: map<(string, string), Id>, t: map<(string, string), Id>)
    requires o in pool && Rivals(pool, a, b) && Defines(pool[a]) == TypeOf(pool[o]) && a !in pool[o].needs
    requires DefinitionTable(pool, s) && DefinitionTable(pool, t) && s[Defines(pool[a])] == a && t[Defines(pool[a])] == b
    ensures Defined(pool, s) != Defined(pool, t)
  {
    hide Defines, TypeOf;
    assert a in Defined(pool, s)[o].needs;
    assert KindIn(pool[a]) == "CustomResourceDefinition";
    assert a !in Operators(pool);
    assert a !in Defined(pool, t)[o].needs;
  }

  lemma BoundSame(pool: Pool)
    ensures Bound(pool).Keys == pool.Keys
    ensures forall id :: id in pool ==> Bound(pool)[id].desired == pool[id].desired && Bound(pool)[id].selected == pool[id].selected
  {}

  // ---------------------------------------------------------------- the closure

  /** A chain of needs from `path[0]`; every member but the last is in the pool. */
  ghost predicate Chain(pool: Pool, path: seq<Id>) {
    path != [] && forall i :: 0 <= i < |path| - 1 ==> path[i] in pool && path[i + 1] in pool[path[i]].needs
  }

  ghost predicate Reaches(pool: Pool, a: Id, b: Id) {
    exists path :: Chain(pool, path) && path[0] == a && path[|path| - 1] == b
  }

  lemma ReachesSelf(pool: Pool, a: Id)
    ensures Reaches(pool, a, a)
  {
    assert Chain(pool, [a]) && [a][0] == a;
  }

  lemma ReachesFurther(pool: Pool, a: Id, b: Id, x: Id)
    requires a in pool && b in pool[a].needs && Reaches(pool, b, x)
    ensures Reaches(pool, a, x)
  {
    var path :| Chain(pool, path) && path[0] == b && path[|path| - 1] == x;
    var longer := [a] + path;
    assert Chain(pool, longer) && longer[0] == a && longer[|longer| - 1] == x;
  }

  ghost predicate IsSelected(pool: Pool, id: Id) { id in pool && pool[id].selected }

  /** Contains the selected objects and, with each object, everything it needs that is
      not provided from outside. */
  ghost predicate ClosedUnder(pool: Pool, provided: set<Id>, ids: set<Id>) {
    && ids <= pool.Keys
    && (forall id :: IsSelected(pool, id) ==> id in ids)
    && (forall id, x :: id in ids && x in pool[id].needs ==> x in ids || (x !in pool && x in provided))
  }

  /** The least such set. */
  ghost predicate Captured(pool: Pool, provided: set<Id>, ids: set<Id>) {
    ClosedUnder(pool, provided, ids) && forall other :: ClosedUnder(pool, provided, other) ==> ids <= other
  }

  /** Something selected needs, directly or not, what neither pool nor provider has. */
  ghost predicate Lacking(pool: Pool, provided: set<Id>, x: Id) {
    x !in pool && x !in provided && exists id :: IsSelected(pool, id) && Reaches(pool, id, x)
  }

  lemma {:induction false} ChainInside(pool: Pool, provided: set<Id>, ids: set<Id>, path: seq<Id>)
    requires ClosedUnder(pool, provided, ids) && Chain(pool, path) && path[0] in ids
    ensures var last := path[|path| - 1]; last in ids || (last !in pool && last in provided)
    decreases |path|
  {
    if |path| > 1 {
      if path[1] in ids { ChainInside(pool, provided, ids, path[1..]); }
      else { assert path[1] !in pool && |path| == 2; }
    }
  }

  /** A closed set exists only if nothing is lacking. */
  lemma ClosedLacksNothing(pool: Pool, provided: set<Id>, ids: set<Id>, x: Id)
    requires ClosedUnder(pool, provided, ids)
    ensures !Lacking(pool, provided, x)
  {
    if Lacking(pool, provided, x) {
      var id :| IsSelected(pool, id) && Reaches(pool, id, x);
      var path :| Chain(pool, path) && path[0] == id && path[|path| - 1] == x;
      ChainInside(pool, provided, ids, path);
    }
  }

  lemma CapturedUnique(pool: Pool, provided: set<Id>, a: set<Id>, b: set<Id>)
    requires Captured(pool, provided, a) && Captured(pool, provided, b)
    ensures a == b
  {}

  datatype Answer = Included | Lacks(id: Id)

  class Capture {
    var pool: Pool
    const provided: set<Id>
    var included: set<Id>

    constructor (pool: Pool, provided: set<Id>)
      ensures this.pool == pool && this.provided == provided && included == {}
    {
      this.pool := pool;
      this.provided := provided;
      included := {};
    }

    /** Adds to each workload the bindings of the accounts it uses. */
    method Bind()
      modifies this`pool
      ensures pool == Bound(old(pool))
    {
      hide SubjectList;
      ghost var start := pool;
      var bindings: map<Id, set<Id>> := map[];
      var rest := pool.Keys;
      while rest != {}
        invariant rest <= pool.Keys && pool == start
        invariant forall x :: Listed(bindings, x) == BindingsOf(start, x) - rest
      {
        var id :| id in rest;
        rest := rest - {id};
        if KindIn(pool[id]) in BINDINGS {
          bindings := AddSubjects(bindings, SubjectList(Nested(pool[id].desired, ["subjects"])), id);
        }
      }
      assert forall x :: Listed(bindings, x) == BindingsOf(start, x);
      hide Listed, BindingsOf;
      rest := pool.Keys;
      while rest != {}
        invariant rest <= pool.Keys && pool.Keys == start.Keys
        invariant forall id :: id in pool ==> pool[id] == if id in rest then start[id] else Bound(start)[id]
      {
        var id :| id in rest;
        rest := rest - {id};
        if KindIn(pool[id]) in WORKLOADS {
          var needs := AddBindings(bindings, pool[id].needs);
          assert needs == Bound(start)[id].needs;
          pool := pool[id := pool[id].(needs := needs)];
        }
      }
    }

    /** Adds to each custom resource its definition and the captured operators.  When two
        definitions define one type, the one that was met last is taken. */
    method Define() returns (ghost table: map<(string, string), Id>)
      modifies this`pool
      ensures DefinitionTable(old(pool), table) && pool == Defined(old(pool), table)
    {
      hide DefinitionTable, Defined, Operators;
      var definitions, operators := Survey();
      table := definitions;
      Await(definitions, operators);
    }

    /** Finds a definition for every defined type, and all selected operators. */
    method Survey() returns (definitions: map<(string, string), Id>, operators: set<Id>)
      ensures DefinitionTable(pool, definitions) && operators == Operators(pool)
    {
      hide TypeOf, Defines, KindIn, IsDefinition;
      definitions := map[];
      operators := {};
      var rest := pool.Keys;
      while rest != {}
        invariant rest <= pool.Keys
        invariant operators == Operators(pool) - rest
        invariant forall t :: t in definitions ==> definitions[t] in pool && IsDefinition(pool[definitions[t]]) && Defines(pool[definitions[t]]) == t
        invariant forall id :: id in pool.Keys - rest && IsDefinition(pool[id]) ==> Defines(pool[id]) in definitions
      {
        var id :| id in rest;
        rest := rest - {id};
        if IsDefinition(pool[id]) { definitions := definitions[Defines(pool[id]) := id]; }
        if pool[id].selected && KindIn(pool[id]) in {"Deployment", "StatefulSet"} { operators := operators + {id}; }
      }
    }

    /** Adds the definition and the operators to every custom resource. */
    method Await(definitions: map<(string, string), Id>, operators: set<Id>)
      requires operators == Operators(pool)
      modifies this`pool
      ensures pool == Defined(old(pool), definitions)
    {
      hide Defines, IsDefinition, Operators;
      ghost var start := pool;
      var rest := pool.Keys;
      while rest != {}
        invariant rest <= pool.Keys && pool.Keys == start.Keys
        invariant forall id :: id in pool ==> pool[id] == if id in rest then start[id] else Defined(start, definitions)[id]
      {
        var id :| id in rest;
        rest := rest - {id};
        if TypeOf(pool[id]) in definitions {
          pool := pool[id := pool[id].(needs := pool[id].needs + {definitions[TypeOf(pool[id])]} + operators)];
        }
      }
    }

    /** Includes `id` and everything it needs; an object is marked before its needs are
        visited, so cycles end. */
    method Include(id: Id) returns (answer: Answer)
      requires included <= pool.Keys
      modifies this`included
      ensures old(included) <= included <= pool.Keys
      ensures answer.Included? ==> id in included || (id !in pool && id in provided)
      ensures answer.Included? ==> forall a, x :: a in included - old(included) && x in pool[a].needs ==> x in included || (x !in pool && x in provided)
      ensures forall a :: a in included - old(included) ==> Reaches(pool, id, a)
      ensures answer.Lacks? ==> answer.id !in pool && answer.id !in provided && Reaches(pool, id, answer.id)
      decreases |pool.Keys - included|, 0
    {
      ReachesSelf(pool, id);
      if id in included { return Included; }
      if id !in pool {
        return if id in provided then Included else Lacks(id);
      }
      assert |pool.Keys - (included + {id})| < |pool.Keys - included| by {
        assert pool.Keys - (included + {id}) == (pool.Keys - included) - {id};
      }
      included := included + {id};
      answer := IncludeAll(id);
    }

    method IncludeAll(id: Id) returns (answer: Answer)
      requires id in included && included <= pool.Keys
      modifies this`included
      ensures old(included) <= included <= pool.Keys
      ensures answer.Included? ==> forall x :: x in pool[id].needs ==> x in included || (x !in pool && x in provided)
      ensures answer.Included? ==> forall a, x :: a in included - old(included) && x in pool[a].needs ==> x in included || (x !in pool && x in provided)
      ensures forall a :: a in included - old(included) ==> Reaches(pool, id, a)
      ensures answer.Lacks? ==> answer.id !in pool && answer.id !in provided && Reaches(pool, id, answer.id)
      decreases |pool.Keys - included|, 1
    {
      hide Reaches;
      var rest := pool[id].needs;
      while rest != {}
        invariant rest <= pool[id].needs && old(included) <= included <= pool.Keys
        invariant forall x :: x in pool[id].needs - rest ==> x in included || (x !in pool && x in provided)
        invariant forall a, x :: a in included - old(included) && x in pool[a].needs ==> x in included || (x !in pool && x in provided)
        invariant forall a :: a in included - old(included) ==> Reaches(pool, id, a)
      {
        var dep :| dep in rest;
        rest := rest - {dep};
        ghost var before := included;
        Smaller(pool.Keys, old(included), included);
        answer := Include(dep);
        forall a | a in included - before ensures Reaches(pool, id, a) { ReachesFurther(pool, id, dep, a); }
        if answer.Lacks? { ReachesFurther(pool, id, dep, answer.id); return; }
      }
      answer := Included;
    }

    /** Includes everything selected.  Success gives the least closed set whatever the
        order in which objects are visited; failure names something really lacking. */
    method IncludeSelected() returns (answer: Answer)
      requires included == {}
      modifies this`included
      ensures answer.Included? ==> Captured(pool, provided, included)
      ensures answer.Lacks? ==> Lacking(pool, provided, answer.id)
    {
      hide Reaches;
      var rest := pool.Keys;
      while rest != {}
        invariant rest <= pool.Keys && included <= pool.Keys
        invariant forall id :: id in pool.Keys - rest && pool[id].selected ==> id in included
        invariant forall a, x :: a in included && x in pool[a].needs ==> x in included || (x !in pool && x in provided)
        invariant forall a :: a in included ==> exists id :: IsSelected(pool, id) && Reaches(pool, id, a)
      {
        var id :| id in rest;
        rest := rest - {id};
        if pool[id].selected {
          assert IsSelected(pool, id);
          answer := Include(id);
          if answer.Lacks? { return; }
        }
      }
      answer := Included;
      LeastClosed(pool, provided, included);
    }
  }

  /** The bindings recorded for an account. */
  function Listed(bindings: map<Id, set<Id>>, account: Id): set<Id> {
    if account in bindings then bindings[account] else {}
  }

  method AddSubjects(bindings: map<Id, set<Id>>, subjects: seq<Id>, id: Id) returns (added: map<Id, set<Id>>)
    ensures forall x :: Listed(added, x) == Listed(bindings, x) + if x in subjects then {id} else {}
  {
    added := bindings;
    for i := 0 to |subjects|
      invariant forall x :: Listed(added, x) == Listed(bindings, x) + if x in subjects[..i] then {id} else {}
    {
      added := added[subjects[i] := Listed(added, subjects[i]) + {id}];
      assert subjects[..i + 1] == subjects[..i] + [subjects[i]];
    }
    assert subjects[..|subjects|] == subjects;
  }

  method AddBindings(bindings: map<Id, set<Id>>, needs: set<Id>) returns (all: set<Id>)
    ensures all == needs + set x, b | x in needs && b in Listed(bindings, x) :: b
  {
    all := needs;
    var rest := needs;
    while rest != {}
      invariant rest <= needs
      invariant all == needs + set x, b | x in needs - rest && b in Listed(bindings, x) :: b
    {
      var x :| x in rest;
      rest := rest - {x};
      all := all + Listed(bindings, x);
    }
  }

  lemma Smaller(all: set<Id>, a: set<Id>, b: set<Id>)
    requires a <= b
    ensures |all - b| <= |all - a|
  {
    SubsetSize(all - b, all - a);
  }

  lemma SubsetSize(a: set<Id>, b: set<Id>)
    requires a <= b
    ensures |a| <= |b|
  {
    if x :| x in a { SubsetSize(a - {x}, b - {x}); }
  }

  lemma LeastClosed(pool: Pool, provided: set<Id>, ids: set<Id>)
    requires ClosedUnder(pool, provided, ids)
    requires forall a :: a in ids ==> exists id :: IsSelected(pool, id) && Reaches(pool, id, a)
    ensures Captured(pool, provided, ids)
  {
    forall other | ClosedUnder(pool, provided, other) ensures ids <= other {
      forall a | a in ids ensures a in other {
        var id :| IsSelected(pool, id) && Reaches(pool, id, a);
        var path :| Chain(pool, path) && path[0] == id && path[|path| - 1] == a;
        ChainInside(pool, provided, other, path);
      }
    }
  }

  // ---------------------------------------------------------------- the whole capture

  /** A pool after all dependencies were added. */
  ghost predicate Prepared(start: Pool, pool: Pool) {
    exists table :: DefinitionTable(Bound(start), table) && pool == Defined(Bound(start), table)
  }

  method Run(capture: Capture) returns (answer: Answer)
    requires capture.included == {}
    modifies capture
    ensures Prepared(old(capture.pool), capture.pool)
    ensures answer.Included? ==> Captured(capture.pool, capture.provided, capture.included)
    ensures answer.Lacks? ==> Lacking(capture.pool, capture.provided, answer.id)
  {
    hide Captured, Lacking, DefinitionTable;
    capture.Bind();
    ghost var table := capture.Define();
    answer := capture.IncludeSelected();
  }

  /** The iteration order cannot matter for the prepared pool exactly when each resource
      of a type that is defined more than once needs all of these definitions anyway. */
  lemma PreparedUnique(start: Pool)
    ensures Settled(Bound(start)) <==> forall p, q :: Prepared(start, p) && Prepared(start, q) ==> p == q
  {
    hide DefinitionTable, Defined, Bound, Defines, TypeOf, IsDefinition;
    var pool := Bound(start);
    if Settled(pool) {
      hide Settled;
      forall p, q | Prepared(start, p) && Prepared(start, q) ensures p == q { PreparedAgree(start, p, q); }
    } else {
      var o, a, b :| o in pool && Rivals(pool, a, b) && Defines(pool[a]) == TypeOf(pool[o]) && a !in pool[o].needs;
      var s := TableNaming(pool, a);
      var t := TableNaming(pool, b);
      TablesDiffer(pool, o, a, b, s, t);
      assert Prepared(start, Defined(pool, s)) && Prepared(start, Defined(pool, t));
    }
  }

  lemma PreparedAgree(start: Pool, p: Pool, q: Pool)
    requires Settled(Bound(start)) && Prepared(start, p) && Prepared(start, q)
    ensures p == q
  {
    hide DefinitionTable, Defined, Bound, Settled;
    var s :| DefinitionTable(Bound(start), s) && p == Defined(Bound(start), s);
    var t :| DefinitionTable(Bound(start), t) && q == Defined(Bound(start), t);
    TablesAgree(Bound(start), s, t);
  }

  /** Then whether the capture succeeds and what it captures do not depend on it either. */
  lemma CaptureDeterministic(start: Pool, provided: set<Id>, p: Pool, q: Pool)
    requires Settled(Bound(start)) && Prepared(start, p) && Prepared(start, q)
    ensures p == q
    ensures forall a, b :: Captured(p, provided, a) && Captured(q, provided, b) ==> a == b
    ensures forall a, x :: Captured(p, provided, a) ==> !Lacking(q, provided, x)
  {
    hide Captured, Lacking, Prepared, Settled, Bound;
    PreparedAgree(start, p, q);
    forall a, b | Captured(p, provided, a) && Captured(q, provided, b) ensures a == b { CapturedUnique(p, provided, a, b); }
    forall a, x | Captured(p, provided, a) ensures !Lacking(q, provided, x) {
      CapturedCloses(p, provided, a);
      ClosedLacksNothing(p, provided, a, x);
    }
  }

  lemma CapturedCloses(pool: Pool, provided: set<Id>, ids: set<Id>)
    requires Captured(pool, provided, ids)
    ensures ClosedUnder(pool, provided, ids)
  {}

  /** The graph that is ordered next. */
  ghost function PlanGraph(pool: Pool, ids: set<Id>): O.Graph
    requires ids <= pool.Keys
  {
    map id | id in ids :: pool[id].needs
  }

  /** Ordering what was captured cannot report a missing dependency. */
  lemma CapturedNeverMissing(pool: Pool, provided: set<Id>, ids: set<Id>)
    requires Captured(pool, provided, ids)
    ensures ids <= pool.Keys && !O.Result(PlanGraph(pool, ids), provided).Missing?
  {
    var g := PlanGraph(pool, ids);
    O.ResultExact(g, provided);
    hide O.Result;
    if O.Result(g, provided).Missing? { NothingWanting(pool, provided, ids, O.Result(g, provided).id); }
  }

  lemma NothingWanting(pool: Pool, provided: set<Id>, ids: set<Id>, x: Id)
    requires ClosedUnder(pool, provided, ids)
    ensures !O.Wanting(PlanGraph(pool, ids), provided, x)
  {}

  // ---------------------------------------------------------------- no cycle among known kinds

  /** Every dependency the planner knows leads to a lower rank. */
  function Rank(kind: string): nat {
    if kind in {"Secret", "ConfigMap", "PersistentVolumeClaim", "CustomResourceDefinition", "Role", "ClusterRole", "ValidatingAdmissionPolicy"} then 0
    else if kind == "ServiceAccount" then 1
    else if kind in {"RoleBinding", "ClusterRoleBinding", "ValidatingAdmissionPolicyBinding"} then 2
    else if kind in {"Deployment", "StatefulSet", "DaemonSet", "Job", "CronJob", "ReplicaSet"} then 3
    else if kind == "HorizontalPodAutoscaler" then 5
    else 4
  }

  /** Role references name roles and no autoscaler scales an autoscaler. */
  predicate Tame(v: Json) {
    var w := R.ViewOf(v);
    && (w.kind in BINDINGS ==> TextOf(w.role, "name") == "" || TextOf(w.role, "kind") in {"Role", "ClusterRole"})
    && (w.kind == "HorizontalPodAutoscaler" ==> TextOf(w.target, "kind") != "HorizontalPodAutoscaler")
  }

  lemma {:induction false} WalkedKinds(v: Json, ns: string)
    ensures forall r :: r in R.Walked(v, ns) ==> Rank(r.kind) == 0
    decreases v
  {
    match v
    case Obj(fields) =>
      forall key | key in fields ensures forall r :: r in R.Walked(fields[key], ns) ==> Rank(r.kind) == 0 { WalkedKinds(fields[key], ns); }
      forall key, r | key in fields && fields[key].Obj? && r in R.Under(key, fields[key], ns) ensures Rank(r.kind) == 0 { UnderKinds(key, fields[key], ns, r); }
    case Arr(items) =>
      forall i | 0 <= i < |items| ensures forall r :: r in R.Walked(items[i], ns) ==> Rank(r.kind) == 0 { WalkedKinds(items[i], ns); }
    case _ =>
  }

  lemma UnderKinds(key: string, m: Json, ns: string, r: R.Ref)
    requires m.Obj? && r in R.Under(key, m, ns)
    ensures Rank(r.kind) == 0
  {}

  lemma PodKinds(pod: Json, ns: string)
    ensures forall r :: r in R.PodRefs(pod, ns) ==> Rank(r.kind) <= 1
  {
    WalkedKinds(pod, ns);
  }

  lemma BindingKinds(w: R.View)
    requires w.kind in BINDINGS && (TextOf(w.role, "name") == "" || TextOf(w.role, "kind") in {"Role", "ClusterRole"})
    ensures forall r :: r in R.BindingPart(w) ==> Rank(r.kind) < 2
  {}

  lemma PodWorkload(kind: string)
    requires R.PodPath(kind).Some?
    ensures Rank(kind) == 3
  {}

  lemma RefsRanked(v: Json)
    requires Tame(v)
    ensures forall r :: r in R.Dependencies(v) ==> Rank(r.kind) < Rank(R.KindOf(v))
  {
    hide R.PodPart, R.PullPart, R.BindingPart, R.PolicyPart, R.ScalePart, Rank, R.ViewOf;
    var w := R.ViewOf(v);
    ViewKind(v);
    if w.pod.Some? { PodPartRanked(w); } else { NoPod(w); }
    PullsRanked(w);
    if w.kind in BINDINGS { BindingRanked(w); } else { OtherBindings(w); }
    PolicyRanked(w);
    ScaleRanked(w);
  }

  lemma ViewKind(v: Json)
    ensures R.ViewOf(v).kind == R.KindOf(v) && (R.ViewOf(v).pod.Some? ==> R.PodPath(R.ViewOf(v).kind).Some?)
  {
    hide Nested, NestedObj, NestedStr;
  }

  lemma NoPod(w: R.View)
    requires w.pod.None?
    ensures R.PodPart(w) == {}
  {}

  lemma PodPartRanked(w: R.View)
    requires w.pod.Some? && R.PodPath(w.kind).Some?
    ensures forall r :: r in R.PodPart(w) ==> Rank(r.kind) < Rank(w.kind)
  {
    hide R.PodRefs, Rank;
    PodKinds(w.pod.value, w.ns);
    PodWorkload(w.kind);
  }

  lemma PullsRanked(w: R.View)
    ensures forall r :: r in R.PullPart(w) ==> Rank(r.kind) < Rank(w.kind)
  {}

  lemma BindingRanked(w: R.View)
    requires w.kind in BINDINGS && (TextOf(w.role, "name") == "" || TextOf(w.role, "kind") in {"Role", "ClusterRole"})
    ensures forall r :: r in R.BindingPart(w) ==> Rank(r.kind) < Rank(w.kind)
  {
    hide R.BindingPart;
    BindingKinds(w);
  }

  lemma PolicyRanked(w: R.View)
    ensures forall r :: r in R.PolicyPart(w) ==> Rank(r.kind) < Rank(w.kind)
  {}

  lemma ScaleRanked(w: R.View)
    requires w.kind == "HorizontalPodAutoscaler" ==> TextOf(w.target, "kind") != "HorizontalPodAutoscaler"
    ensures forall r :: r in R.ScalePart(w) ==> Rank(r.kind) < Rank(w.kind)
  {
    ScaleKinds(w);
    hide R.ScaleRefs;
  }

  lemma OtherBindings(w: R.View)
    ensures w.kind !in BINDINGS ==> R.BindingPart(w) == {}
  {}

  lemma ScaleKinds(w: R.View)
    requires w.kind == "HorizontalPodAutoscaler" ==> TextOf(w.target, "kind") != "HorizontalPodAutoscaler"
    ensures forall r :: r in R.ScalePart(w) ==> Rank(r.kind) < 5
  {}

  // ---------------------------------------------------------------- identifiers

  predicate NoColon(s: string) { ':' !in s }

  /** The parts before the name hold no separator, so the identifier can be read back. */
  predicate PlainRef(r: R.Ref) { NoColon(r.group) && NoColon(r.kind) && NoColon(r.ns) }

  lemma FirstColon(b: string, y: string)
    requires NoColon(b)
    ensures (b + (":" + y))[0] == ':' <==> b == []
  {
    if b != [] { assert b[0] in b; }
  }

  lemma {:induction false} SplitUnique(a: string, x: string, b: string, y: string)
    requires NoColon(a) && NoColon(b) && a + (":" + x) == b + (":" + y)
    ensures a == b && x == y
  {
    if a == [] {
      assert (a + (":" + x))[0] == ':';
      FirstColon(b, y);
      assert a + (":" + x) == ":" + x && b == [] && b + (":" + y) == ":" + y;
      assert (":" + x)[1..] == x && (":" + y)[1..] == y;
    } else {
      assert (a + (":" + x))[0] == a[0] && a[0] in a;
      FirstColon(b, y);
      assert b != [] && a[0] == b[0];
      assert (a + (":" + x))[1..] == a[1..] + (":" + x) && (b + (":" + y))[1..] == b[1..] + (":" + y);
      SplitUnique(a[1..], x, b[1..], y);
      assert a == [a[0]] + a[1..] && b == [b[0]] + b[1..];
    }
  }

  lemma IdUnique(r: R.Ref, q: R.Ref)
    requires PlainRef(r) && PlainRef(q) && IdOf(r) == IdOf(q)
    ensures r == q
  {
    var rk := r.kind + (":" + (r.ns + (":" + r.name)));
    var qk := q.kind + (":" + (q.ns + (":" + q.name)));
    assert IdOf(r)[7..] == r.group + (":" + rk) && IdOf(q)[7..] == q.group + (":" + qk);
    SplitUnique(r.group, rk, q.group, qk);
    SplitUnique(r.kind, r.ns + (":" + r.name), q.kind, q.ns + (":" + q.name));
    SplitUnique(r.ns, r.name, q.ns, q.name);
  }

  /** Each candidate stands under its own identifier and starts with the planner's
      dependencies. */
  ghost predicate Faithful(pool: Pool) {
    forall id :: id in pool ==>
      && (exists r :: PlainRef(r) && IdOf(r) == id && r.kind == KindIn(pool[id]))
      && pool[id].needs == (set r | r in R.Dependencies(pool[id].desired) :: IdOf(r))
      && (forall r :: r in R.Dependencies(pool[id].desired) ==> PlainRef(r))
  }

  /** No captured definition reuses a kind name the planner knows. */
  ghost predicate ForeignDefinitions(pool: Pool) {
    forall id :: id in pool && IsDefinition(pool[id]) ==> Rank(Defines(pool[id]).1) == 4
  }

  ghost predicate Descends(pool: Pool, id: Id, x: Id)
    requires id in pool
  {
    x in pool ==> Rank(KindIn(pool[x])) < Rank(KindIn(pool[id]))
  }

  lemma PlannerEdge(start: Pool, id: Id, x: Id)
    requires Faithful(start) && id in start && Tame(start[id].desired) && x in start[id].needs
    ensures Descends(start, id, x)
  {
    hide R.Dependencies, IdOf, Rank;
    RefsRanked(start[id].desired);
    var r :| r in R.Dependencies(start[id].desired) && IdOf(r) == x;
    if x in start {
      var q :| PlainRef(q) && IdOf(q) == x && q.kind == KindIn(start[x]);
      IdUnique(r, q);
    }
  }

  lemma BoundEdge(start: Pool, id: Id, x: Id)
    requires Faithful(start) && id in start && Tame(start[id].desired) && x in Bound(start)[id].needs
    ensures Descends(start, id, x)
  {
    hide R.Dependencies, Tame, Faithful, Bound, Rank, KindIn;
    if x in start[id].needs {
      PlannerEdge(start, id, x);
    } else {
      BoundNeeds(start, id, x);
      BindingRanks(KindIn(start[id]), KindIn(start[x]));
    }
  }

  lemma BoundNeeds(start: Pool, id: Id, x: Id)
    requires id in start && x in Bound(start)[id].needs && x !in start[id].needs
    ensures x in start && KindIn(start[id]) in WORKLOADS && KindIn(start[x]) in BINDINGS
  {
    hide KindIn;
  }

  lemma BindingRanks(workload: string, binding: string)
    requires workload in WORKLOADS && binding in BINDINGS
    ensures Rank(binding) < Rank(workload)
  {}

  lemma DefinedNeeds(pool: Pool, table: map<(string, string), Id>, id: Id, x: Id)
    requires id in pool && x in Defined(pool, table)[id].needs && x !in pool[id].needs
    ensures TypeOf(pool[id]) in table && (x == table[TypeOf(pool[id])] || x in Operators(pool))
  {}

  /** A custom resource stands above every definition and every operator. */
  lemma CustomKind(start: Pool, table: map<(string, string), Id>, id: Id)
    requires ForeignDefinitions(start) && DefinitionTable(Bound(start), table) && id in start && TypeOf(start[id]) in table
    ensures Rank(KindIn(start[id])) == 4
    ensures table[TypeOf(start[id])] in start && Rank(KindIn(start[table[TypeOf(start[id])]])) == 0
  {
    hide R.GroupOf, Rank;
    BoundSame(start);
    var d := table[TypeOf(start[id])];
    assert d in Bound(start) && Bound(start)[d].desired == start[d].desired;
    assert IsDefinition(start[d]) && Defines(start[d]) == TypeOf(start[id]);
    assert Rank("CustomResourceDefinition") == 0 by { DefinitionRank(); }
  }

  lemma DefinitionRank()
    ensures Rank("CustomResourceDefinition") == 0 && Rank("Deployment") == 3 && Rank("StatefulSet") == 3
  {}

  lemma CustomEdge(start: Pool, table: map<(string, string), Id>, id: Id, x: Id)
    requires Faithful(start) && ForeignDefinitions(start) && DefinitionTable(Bound(start), table)
    requires id in start && Tame(start[id].desired) && x in Defined(Bound(start), table)[id].needs
    ensures Descends(start, id, x)
  {
    hide Faithful, ForeignDefinitions, DefinitionTable, Tame, Bound, Defined, Rank, R.GroupOf;
    BoundSame(start);
    var pool := Bound(start);
    if x in pool[id].needs { BoundEdge(start, id, x); }
    else {
      DefinedNeeds(pool, table, id, x);
      assert TypeOf(pool[id]) == TypeOf(start[id]);
      CustomKind(start, table, id);
      if x in Operators(pool) { assert KindIn(start[x]) in {"Deployment", "StatefulSet"}; DefinitionRank(); }
    }
  }

  lemma {:induction false} WalkDescends(start: Pool, pool: Pool, ids: set<Id>, path: seq<Id>)
    requires ids <= pool.Keys && pool.Keys == start.Keys && O.Walk(PlanGraph(pool, ids), path) && |path| > 1 && path[|path| - 1] in ids
    requires forall id, x :: id in pool && x in pool[id].needs ==> Descends(start, id, x)
    ensures path[0] in ids && Rank(KindIn(start[path[|path| - 1]])) < Rank(KindIn(start[path[0]]))
    decreases |path|
  {
    hide Rank;
    var g := PlanGraph(pool, ids);
    assert path[0] in g && path[1] in g[path[0]];
    assert path[1] in ids by { if |path| > 2 { assert path[1] in g; } }
    assert Descends(start, path[0], path[1]);
    if |path| > 2 {
      assert O.Walk(g, path[1..]) by {
        forall i | 0 <= i < |path[1..]| - 1 ensures path[1..][i] in g && path[1..][i + 1] in g[path[1..][i]] {
          assert path[i + 1] in g && path[i + 2] in g[path[i + 1]];
        }
      }
      WalkDescends(start, pool, ids, path[1..]);
    }
  }

  lemma PreparedSame(start: Pool, pool: Pool)
    requires Prepared(start, pool)
    ensures pool.Keys == start.Keys
  {}

  /** Under these conditions the captured plan can always be ordered. */
  lemma CapturedOrders(start: Pool, pool: Pool, provided: set<Id>, ids: set<Id>)
    requires Faithful(start) && ForeignDefinitions(start) && (forall id :: id in start ==> Tame(start[id].desired))
    requires Prepared(start, pool) && Captured(pool, provided, ids)
    ensures ids <= pool.Keys && O.Result(PlanGraph(pool, ids), provided).Ordered?
  {
    hide Faithful, ForeignDefinitions, Tame, Captured, O.Result;
    CapturedNeverMissing(pool, provided, ids);
    PreparedSame(start, pool);
    PreparedDescends(start, pool);
    var g := PlanGraph(pool, ids);
    O.ResultExact(g, provided);
    if O.Result(g, provided).Cycle? {
      var id := O.Result(g, provided).id;
      var path :| |path| > 1 && path[0] == id && path[|path| - 1] == id && O.Walk(g, path);
      WalkDescends(start, pool, ids, path);
    }
  }

  lemma PreparedDescends(start: Pool, pool: Pool)
    requires Faithful(start) && ForeignDefinitions(start) && (forall id :: id in start ==> Tame(start[id].desired)) && Prepared(start, pool)
    ensures forall id, x :: id in pool && id in start && x in pool[id].needs ==> Descends(start, id, x)
  {
    hide Faithful, ForeignDefinitions, Tame, DefinitionTable, Descends, Bound;
    BoundSame(start);
    var table :| DefinitionTable(Bound(start), table) && pool == Defined(Bound(start), table);
    forall id, x | id in pool && id in start && x in pool[id].needs ensures Descends(start, id, x) { CustomEdge(start, table, id, x); }
  }

  /** Data, and kinds the planner does not know, refer to nothing. */
  lemma NoDependencies(v: Json)
    requires Rank(R.KindOf(v)) in {0, 4}
    ensures R.Dependencies(v) == {}
  {
    ViewKind(v);
    hide R.ViewOf;
    var w := R.ViewOf(v);
    if w.pod.Some? { PodWorkload(w.kind); }
    hide R.PodRefs, R.BindingPart, R.PolicyPart, R.ScalePart, R.PullPart;
    QuietKind(w);
  }

  lemma QuietKind(w: R.View)
    requires Rank(w.kind) in {0, 4}
    ensures R.PullPart(w) + R.BindingPart(w) + R.PolicyPart(w) + R.ScalePart(w) == {}
  {}

  /** No resource in the pool has a type that is defined more than once. */
  ghost predicate RivalsUnused(pool: Pool) {
    forall o, a, b :: o in pool && Rivals(pool, a, b) ==> Defines(pool[a]) != TypeOf(pool[o])
  }

  /** When definitions define foreign kinds only, the condition is that no resource of a
      type defined more than once is in the pool. */
  lemma DeterministicExactly(start: Pool)
    requires Faithful(start) && ForeignDefinitions(start)
    ensures RivalsUnused(start) <==> forall p, q :: Prepared(start, p) && Prepared(start, q) ==> p == q
  {
    hide Faithful, ForeignDefinitions, Prepared, Bound, Defines, TypeOf, Rank;
    PreparedUnique(start);
    BoundSame(start);
    assert Settled(Bound(start)) <==> RivalsUnused(start) by {
      hide IsDefinition, KindIn;
      forall a, b ensures Rivals(start, a, b) <==> Rivals(Bound(start), a, b) { SameRivals(start, a, b); }
      forall o, a, b | o in start && Rivals(start, a, b) && Defines(start[a]) == TypeOf(start[o]) ensures a !in Bound(start)[o].needs {
        CustomNeedsNothing(start, o, a);
      }
      forall o | o in start ensures TypeOf(Bound(start)[o]) == TypeOf(start[o]) && Defines(Bound(start)[o]) == Defines(start[o]) { SameType(start, o); }
    }
  }

  lemma SameRivals(start: Pool, a: Id, b: Id)
    ensures Rivals(start, a, b) <==> Rivals(Bound(start), a, b)
  {
    BoundSame(start);
    hide Bound;
  }

  lemma SameType(start: Pool, o: Id)
    requires o in start
    ensures o in Bound(start) && TypeOf(Bound(start)[o]) == TypeOf(start[o]) && Defines(Bound(start)[o]) == Defines(start[o])
  {
    BoundSame(start);
    hide Bound, R.GroupOf;
  }

  lemma CustomNeedsNothing(start: Pool, o: Id, a: Id)
    requires Faithful(start) && ForeignDefinitions(start) && o in start && a in start && IsDefinition(start[a]) && Defines(start[a]) == TypeOf(start[o])
    ensures Bound(start)[o].needs == {}
  {
    hide Rank, R.GroupOf, R.Dependencies, NestedStr;
    assert Rank(KindIn(start[o])) == 4;
    NoDependencies(start[o].desired);
    assert KindIn(start[o]) !in WORKLOADS by { WorkloadRank(KindIn(start[o])); }
    assert start[o].needs == {};
  }

  lemma WorkloadRank(kind: string)
    ensures kind in WORKLOADS ==> Rank(kind) == 3
  {}

  // ---------------------------------------------------------------- two definitions of one type

  function Definition(group: string, kind: string): Json {
    Obj(map["kind" := Str("CustomResourceDefinition"),
            "spec" := Obj(map["group" := Str(group), "names" := Obj(map["kind" := Str(kind)])])])
  }

  const CUSTOM := Obj(map["kind" := Str("Thing"), "apiVersion" := Str("g/v1")])

  /** Two definitions of g/Thing and one selected Thing. */
  const TWICE: Pool := map["a" := Candidate(Definition("g", "Thing"), false, {}), "b" := Candidate(Definition("g", "Thing"), false, {}),
                           "o" := Candidate(CUSTOM, true, {})]

  lemma TwiceTypes()
    ensures Bound(TWICE) == TWICE
    ensures IsDefinition(TWICE["a"]) && IsDefinition(TWICE["b"]) && !IsDefinition(TWICE["o"]) && KindIn(TWICE["o"]) == "Thing"
    ensures Defines(TWICE["a"]) == ("g", "Thing") && Defines(TWICE["b"]) == ("g", "Thing") && TypeOf(TWICE["o"]) == ("g", "Thing")
    ensures TypeOf(TWICE["a"]).1 == "CustomResourceDefinition" && TypeOf(TWICE["b"]).1 == "CustomResourceDefinition"
  {
    DefinitionReads("g", "Thing");
    NestedStep(CUSTOM, ["kind"], "kind");
    NestedStep(CUSTOM, ["apiVersion"], "apiVersion");
    assert R.Slashes("g/v1") == 1 by {
      assert "g/v1"[1..] == "/v1" && "/v1"[1..] == "v1" && "v1"[1..] == "1" && "1"[1..] == "";
    }
    assert R.BeforeSlash("g/v1") == "g" by { assert "g/v1"[1..] == "/v1"; }
  }

  lemma DefinitionReads(group: string, kind: string)
    ensures var v := Definition(group, kind);
      R.KindOf(v) == "CustomResourceDefinition" && NestedStr(v, ["spec", "group"]) == group && NestedStr(v, ["spec", "names", "kind"]) == kind
  {
    var v := Definition(group, kind);
    NestedStep(v, ["kind"], "kind");
    NestedStep(v, ["spec", "group"], "spec");
    assert ["spec", "group"][1..] == ["group"];
    NestedStep(v, ["spec", "names", "kind"], "spec");
    assert ["spec", "names", "kind"][1..] == ["names", "kind"];
    NestedStep(v.fields["spec"], ["names", "kind"], "names");
    assert ["names", "kind"][1..] == ["kind"];
  }

  /** With two definitions of one type the iteration order decides what is captured. */
  lemma TwoDefinitionsDiffer()
    ensures var p := Defined(TWICE, map[("g", "Thing") := "a"]); var q := Defined(TWICE, map[("g", "Thing") := "b"]);
      && Prepared(TWICE, p) && Prepared(TWICE, q) && Captured(p, {}, {"o", "a"}) && Captured(q, {}, {"o", "b"})
  {
    hide Defined, Captured;
    TwicePrepared("a");
    TwicePrepared("b");
    TwiceCaptured("a");
    TwiceCaptured("b");
  }

  lemma TwicePrepared(d: Id)
    requires d == "a" || d == "b"
    ensures Prepared(TWICE, Defined(TWICE, map[("g", "Thing") := d]))
  {
    hide Defined, DefinitionTable, Bound;
    TwiceTypes();
    TwiceTable(d);
    assert DefinitionTable(Bound(TWICE), map[("g", "Thing") := d]);
  }

  lemma TwiceTable(d: Id)
    requires d == "a" || d == "b"
    ensures DefinitionTable(TWICE, map[("g", "Thing") := d])
  {
    TwiceTypes();
    hide Defines, IsDefinition, TypeOf;
  }

  lemma TwiceCaptured(d: Id)
    requires d == "a" || d == "b"
    ensures Captured(Defined(TWICE, map[("g", "Thing") := d]), {}, {"o", d})
  {
    TwiceTypes();
    hide Defines, IsDefinition, TypeOf, KindIn;
    var p := Defined(TWICE, map[("g", "Thing") := d]);
    assert Operators(TWICE) == {} by { TwiceOperators(); }
    assert p["o"].needs == {d} && p[d].needs == {};
    assert IsSelected(p, "o");
  }

  lemma TwiceOperators()
    ensures Operators(TWICE) == {}
  {
    TwiceTypes();
  }
}
