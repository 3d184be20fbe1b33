/** Ordering a plan: depth-first search over the dependencies, with its error cases. */
module PlannerOrder {
  import opened PlannerText

  type Graph = map<Id, set<Id>>

  datatype Outcome = Ordered(order: seq<Id>) | Cycle(id: Id) | Missing(id: Id)

  // ---------------------------------------------------------------- the search as a function

  /** Visits `id`.  `stack` holds the identifiers being visited, `order` the finished ones. */
  ghost function Visit(g: Graph, external: set<Id>, id: Id, stack: seq<Id>, order: seq<Id>): Outcome
    decreases |g.Keys - Elements(stack)|, 0
  {
    if id in order then Ordered(order)
    else if id in stack then Cycle(id)
    else if id !in g then (if id in external then Ordered(order) else Missing(id))
    else
      StackGrows(g, stack, id);
      match VisitAll(g, external, Ranked(g[id]), stack + [id], order)
      case Ordered(later) => Ordered(later + [id])
      case error => error
  }

  ghost function VisitAll(g: Graph, external: set<Id>, ids: seq<Id>, stack: seq<Id>, order: seq<Id>): Outcome
    decreases |g.Keys - Elements(stack)|, |ids|
  {
    if ids == [] then Ordered(order)
    else
      match Visit(g, external, ids[0], stack, order)
      case Ordered(later) => VisitAll(g, external, ids[1..], stack, later)
      case error => error
  }

  function Elements(ids: seq<Id>): set<Id> { set x | x in ids }

  lemma StackGrows(g: Graph, stack: seq<Id>, id: Id)
    requires id in g && id !in stack
    ensures |g.Keys - Elements(stack + [id])| < |g.Keys - Elements(stack)|
  {
    assert g.Keys - Elements(stack + [id]) == (g.Keys - Elements(stack)) - {id};
  }

  /** What ordering a plan yields: it is a function of the dependency sets alone. */
  ghost function Result(g: Graph, external: set<Id>): Outcome {
    VisitAll(g, external, Ranked(g.Keys), [], [])
  }

  // ---------------------------------------------------------------- what a plan may need

  /** A walk along dependencies. */
  ghost predicate Walk(g: Graph, path: seq<Id>) {
    forall i :: 0 <= i < |path| - 1 ==> path[i] in g && path[i + 1] in g[path[i]]
  }

  ghost predicate OnCycle(g: Graph, id: Id) {
    exists path :: |path| > 1 && path[0] == id && path[|path| - 1] == id && Walk(g, path)
  }

  ghost predicate Acyclic(g: Graph) {
    forall id :: !OnCycle(g, id)
  }

  /** Every dependency is an object of the plan or a declared external one. */
  ghost predicate Closed(g: Graph, external: set<Id>) {
    forall id, x :: id in g && x in g[id] ==> x in g || x in external
  }

  /** `order` lists objects once each, and each after everything it depends on. */
  ghost predicate DependenciesFirst(g: Graph, external: set<Id>, order: seq<Id>) {
    && Distinct(order)
    && (forall i :: 0 <= i < |order| ==> order[i] in g)
    && (forall i, x :: 0 <= i < |order| && x in g[order[i]] ==> x in order[..i] || (x !in g && x in external))
  }

  /** The stack is a walk that leads to `id`. */
  ghost predicate Leads(g: Graph, stack: seq<Id>, id: Id) {
    Walk(g, stack) && (stack == [] || (stack[|stack| - 1] in g && id in g[stack[|stack| - 1]]))
  }

  ghost predicate Sane(g: Graph, external: set<Id>, stack: seq<Id>, order: seq<Id>) {
    DependenciesFirst(g, external, order) && (forall x :: x in stack ==> x !in order) && (forall x :: x in stack ==> x in g)
  }

  /** Something asked for `id` although nothing provides it. */
  ghost predicate Wanting(g: Graph, external: set<Id>, id: Id) {
    id !in g && id !in external && exists user :: user in g && id in g[user]
  }

  ghost predicate Finished(g: Graph, external: set<Id>, id: Id, order: seq<Id>) {
    id in order || (id !in g && id in external)
  }

  /** What visiting the identifiers `ids` from `order` may give. */
  ghost predicate Sound(g: Graph, external: set<Id>, ids: seq<Id>, stack: seq<Id>, order: seq<Id>, r: Outcome) {
    match r
    case Ordered(later) => Sane(g, external, stack, later) && order <= later && (forall x :: x in ids ==> Finished(g, external, x, later))
    case Cycle(x) => OnCycle(g, x)
    case Missing(x) => Wanting(g, external, x)
  }

  lemma CycleFound(g: Graph, stack: seq<Id>, id: Id)
    requires Leads(g, stack, id) && id in stack
    ensures OnCycle(g, id)
  {
    var k :| 0 <= k < |stack| && stack[k] == id;
    var path := stack[k..] + [id];
    assert path[0] == id && path[|path| - 1] == id;
    assert Walk(g, path);
  }

  lemma Append(g: Graph, external: set<Id>, id: Id, stack: seq<Id>, order: seq<Id>)
    requires Sane(g, external, stack + [id], order) && id in g && id !in stack
    requires forall x :: x in Ranked(g[id]) ==> Finished(g, external, x, order)
    ensures Sane(g, external, stack, order + [id])
  {
    assert id in stack + [id];
    var later := order + [id];
    forall i, x | 0 <= i < |later| && x in g[later[i]] ensures x in later[..i] || (x !in g && x in external) {
      if i < |order| {
        assert later[..i] == order[..i] && later[i] == order[i];
      } else {
        assert later[..i] == order;
        assert x in Ranked(g[id]);
        assert Finished(g, external, x, order);
      }
    }
    forall x | x in stack ensures x !in later && x in g { assert x in stack + [id]; }
  }

  lemma VisitStep(g: Graph, external: set<Id>, id: Id, stack: seq<Id>, order: seq<Id>, r: Outcome)
    requires id in g && id !in stack && Sound(g, external, Ranked(g[id]), stack + [id], order, r)
    ensures Sound(g, external, [id], stack, order, if r.Ordered? then Ordered(r.order + [id]) else r)
  {
    hide Sane, OnCycle, Wanting;
    if r.Ordered? { Append(g, external, id, stack, r.order); }
  }

  lemma Deeper(g: Graph, external: set<Id>, id: Id, stack: seq<Id>, order: seq<Id>)
    requires Sane(g, external, stack, order) && Leads(g, stack, id) && id in g && id !in order
    ensures Sane(g, external, stack + [id], order) && forall x :: x in Ranked(g[id]) ==> Leads(g, stack + [id], x)
  {
    assert Walk(g, stack + [id]);
  }

  lemma {:induction false} VisitSound(g: Graph, external: set<Id>, id: Id, stack: seq<Id>, order: seq<Id>)
    requires Sane(g, external, stack, order) && Leads(g, stack, id) && (stack == [] ==> id in g)
    ensures Sound(g, external, [id], stack, order, Visit(g, external, id, stack, order))
    decreases |g.Keys - Elements(stack)|, 0
  {
    hide Sane, OnCycle, Leads, Sound, Visit, VisitAll;
    if id in g && id !in order && id !in stack {
      StackGrows(g, stack, id);
      Deeper(g, external, id, stack, order);
      VisitAllSound(g, external, Ranked(g[id]), stack + [id], order);
      VisitStep(g, external, id, stack, order, VisitAll(g, external, Ranked(g[id]), stack + [id], order));
      VisitUnfold(g, external, id, stack, order);
    } else {
      VisitBase(g, external, id, stack, order);
    }
  }

  lemma VisitUnfold(g: Graph, external: set<Id>, id: Id, stack: seq<Id>, order: seq<Id>)
    requires id in g && id !in order && id !in stack
    ensures var r := VisitAll(g, external, Ranked(g[id]), stack + [id], order);
      Visit(g, external, id, stack, order) == if r.Ordered? then Ordered(r.order + [id]) else r
  {
    hide VisitAll;
  }

  lemma VisitBase(g: Graph, external: set<Id>, id: Id, stack: seq<Id>, order: seq<Id>)
    requires Sane(g, external, stack, order) && Leads(g, stack, id) && (stack == [] ==> id in g)
    requires id !in g || id in order || id in stack
    ensures Sound(g, external, [id], stack, order, Visit(g, external, id, stack, order))
  {
    hide Sane, OnCycle, Leads;
    if id !in order && id in stack { CycleFound(g, stack, id); }
    LastWants(g, stack, id);
  }

  lemma LastWants(g: Graph, stack: seq<Id>, id: Id)
    requires Leads(g, stack, id) && (stack == [] ==> id in g)
    ensures id !in g ==> exists user :: user in g && id in g[user]
  {}

  lemma SoundNext(g: Graph, external: set<Id>, ids: seq<Id>, stack: seq<Id>, order: seq<Id>, middle: seq<Id>, r: Outcome)
    requires ids != [] && Sound(g, external, [ids[0]], stack, order, Ordered(middle)) && Sound(g, external, ids[1..], stack, middle, r)
    ensures Sound(g, external, ids, stack, order, r)
  {
    hide Sane, OnCycle, Wanting;
    assert ids == [ids[0]] + ids[1..];
    assert ids[0] in [ids[0]];
  }

  lemma {:induction false} VisitAllSound(g: Graph, external: set<Id>, ids: seq<Id>, stack: seq<Id>, order: seq<Id>)
    requires Sane(g, external, stack, order)
    requires forall x :: x in ids ==> Leads(g, stack, x) && (stack == [] ==> x in g)
    ensures Sound(g, external, ids, stack, order, VisitAll(g, external, ids, stack, order))
    decreases |g.Keys - Elements(stack)|, |ids|
  {
    hide Sane, Leads, OnCycle, Wanting;
    if ids != [] {
      VisitSound(g, external, ids[0], stack, order);
      var r := Visit(g, external, ids[0], stack, order);
      if r.Ordered? {
        VisitAllSound(g, external, ids[1..], stack, r.order);
        SoundNext(g, external, ids, stack, order, r.order, VisitAll(g, external, ids[1..], stack, r.order));
      }
    }
  }

  // ---------------------------------------------------------------- exactness

  /** A successful result lists every object once, with dependencies first. */
  lemma ResultOrders(g: Graph, external: set<Id>)
    ensures Sound(g, external, Ranked(g.Keys), [], [], Result(g, external))
    ensures Result(g, external).Ordered? ==>
      DependenciesFirst(g, external, Result(g, external).order) && Elements(Result(g, external).order) == g.Keys
  {
    VisitAllSound(g, external, Ranked(g.Keys), [], []);
    if Result(g, external).Ordered? {
      var order := Result(g, external).order;
      forall x ensures x in Elements(order) <==> x in g {
        if x in g { assert x in Ranked(g.Keys); assert Finished(g, external, x, order); }
      }
    }
  }

  /** Along a walk positions in a dependencies-first order go down. */
  lemma {:induction false} WalkDescends(g: Graph, external: set<Id>, order: seq<Id>, path: seq<Id>, k: nat)
    requires DependenciesFirst(g, external, order) && Elements(order) == g.Keys && Walk(g, path) && 0 < |path|
    requires path[|path| - 1] in g && k < |order| && order[k] == path[0]
    ensures |path| > 1 ==> exists j :: 0 <= j < k && order[j] == path[|path| - 1]
  {
    if |path| > 1 {
      var next := path[1];
      assert path[0] in g && next in g[path[0]];
      assert next in g by { if |path| > 2 { assert path[1] in g; } }
      assert next in order[..k];
      var j :| 0 <= j < k && order[..k][j] == next;
      assert Walk(g, path[1..]) by { forall i | 0 <= i < |path[1..]| - 1 ensures path[1..][i] in g && path[1..][i + 1] in g[path[1..][i]] { assert path[i + 1] in g && path[i + 2] in g[path[i + 1]]; } }
      WalkDescends(g, external, order, path[1..], j);
    }
  }

  lemma OrderedAcyclic(g: Graph, external: set<Id>, order: seq<Id>)
    requires DependenciesFirst(g, external, order) && Elements(order) == g.Keys
    ensures Acyclic(g) && Closed(g, external)
  {
    forall id | OnCycle(g, id) ensures false {
      var path :| |path| > 1 && path[0] == id && path[|path| - 1] == id && Walk(g, path);
      assert path[0] in g;
      assert id in Elements(order);
      var k :| 0 <= k < |order| && order[k] == id;
      WalkDescends(g, external, order, path, k);
    }
    forall id, x | id in g && x in g[id] ensures x in g || x in external {
      assert id in Elements(order);
      var k :| 0 <= k < |order| && order[k] == id;
      assert x in order[..k] ==> x in Elements(order);
    }
  }

  /** Ordering succeeds exactly when no object depends on itself through others and every
      dependency is provided; a reported cycle or missing identifier is a real one. */
  lemma ResultExact(g: Graph, external: set<Id>)
    ensures Result(g, external).Ordered? <==> Acyclic(g) && Closed(g, external)
    ensures Result(g, external).Cycle? ==> OnCycle(g, Result(g, external).id)
    ensures Result(g, external).Missing? ==> Wanting(g, external, Result(g, external).id)
  {
    ResultOrders(g, external);
    hide DependenciesFirst, OnCycle;
    if Result(g, external).Ordered? { OrderedAcyclic(g, external, Result(g, external).order); }
  }

  // ---------------------------------------------------------------- repeated dependencies

  lemma AlreadyFinished(g: Graph, external: set<Id>, id: Id, stack: seq<Id>, order: seq<Id>)
    requires Sane(g, external, stack, order) && Finished(g, external, id, order)
    ensures Visit(g, external, id, stack, order) == Ordered(order)
  {}

  /** Visiting a dependency a second time changes nothing. */
  lemma {:induction false} RepetitionsIrrelevant(g: Graph, external: set<Id>, ids: seq<Id>, stack: seq<Id>, order: seq<Id>)
    requires Sane(g, external, stack, order)
    requires forall x :: x in ids ==> Leads(g, stack, x) && (stack == [] ==> x in g)
    ensures VisitAll(g, external, ids, stack, order) == VisitAll(g, external, Compact(ids), stack, order)
    decreases |ids|
  {
    hide Sane, Leads, Visit, OnCycle, Wanting;
    if |ids| >= 2 {
      VisitSound(g, external, ids[0], stack, order);
      var r := Visit(g, external, ids[0], stack, order);
      assert forall x :: x in ids[1..] ==> x in ids;
      if ids[0] == ids[1] {
        RepetitionsIrrelevant(g, external, ids[1..], stack, order);
        if r.Ordered? {
          assert ids[0] in [ids[0]];
          AlreadyFinished(g, external, ids[1], stack, r.order);
        }
      } else if r.Ordered? {
        RepetitionsIrrelevant(g, external, ids[1..], stack, r.order);
      }
    }
  }

  /** Order and repetition of the dependencies of an object do not matter. */
  lemma ListVisited(g: Graph, external: set<Id>, ids: seq<Id>, stack: seq<Id>, order: seq<Id>)
    requires Sane(g, external, stack, order)
    requires forall x :: x in ids ==> Leads(g, stack, x) && (stack == [] ==> x in g)
    ensures VisitAll(g, external, Sorted(ids), stack, order) == VisitAll(g, external, Ranked(Elements(ids)), stack, order)
  {
    hide Sane, Leads, VisitAll;
    SortedSorts(ids);
    SameElements(Sorted(ids), ids);
    RepetitionsIrrelevant(g, external, Sorted(ids), stack, order);
    CompactRanked(ids);
  }

  // ---------------------------------------------------------------- the search as it runs

  class Object {
    const id: Id
    var dependencies: seq<Id>

    constructor (id: Id, dependencies: seq<Id>)
      ensures this.id == id && this.dependencies == dependencies
    {
      this.id := id;
      this.dependencies := dependencies;
    }
  }

  datatype Problem = DependencyCycle(id: Id) | MissingDependency(id: Id)
  datatype Answer = Fine | Failed(problem: Problem)

  function Reported(r: Outcome): Answer {
    match r
    case Ordered(_) => Fine
    case Cycle(id) => Failed(DependencyCycle(id))
    case Missing(id) => Failed(MissingDependency(id))
  }

  ghost function Dependencies(index: map<Id, Object>): Graph
    reads index.Values
  {
    map id | id in index :: Elements(index[id].dependencies)
  }

  class Search {
    const index: map<Id, Object>
    const external: seq<Id>
    var visited: map<Id, nat>
    var order: seq<Id>

    constructor (index: map<Id, Object>, external: seq<Id>)
      ensures this.index == index && this.external == external && visited == map[] && order == []
    {
      this.index := index;
      this.external := external;
      visited := map[];
      order := [];
    }

    /** Marks: 1 while an identifier is being visited, 2 once it is finished. */
    ghost predicate Marked(stack: seq<Id>)
      reads this
    {
      && (forall x :: x in visited ==> visited[x] == 1 || visited[x] == 2)
      && (forall x :: x in visited && visited[x] == 1 <==> x in stack)
      && (forall x :: x in visited && visited[x] == 2 <==> x in order)
    }

    /** Visits `id`; sorting the dependency lists in place leaves the graph alone. */
    method Descend(id: Id, ghost g: Graph, ghost stack: seq<Id>) returns (answer: Answer)
      requires Dependencies(index) == g && Marked(stack)
      requires Sane(g, Elements(external), stack, order) && Leads(g, stack, id) && (stack == [] ==> id in g)
      modifies this, index.Values
      ensures Dependencies(index) == g
      ensures var r := Visit(g, Elements(external), id, stack, old(order));
        answer == Reported(r) && (r.Ordered? ==> order == r.order && Marked(stack))
      ensures forall o :: o in index.Values ==> multiset(o.dependencies) == multiset(old(o.dependencies))
      decreases |g.Keys - Elements(stack)|
    {
      hide Sane, Leads, OnCycle, Wanting, Visit, VisitAll, Dependencies, Ranked, Elements;
      ghost var ext := Elements(external);
      KnownIds(index);
      VisitCases(g, ext, id, stack, order);
      if id in visited && visited[id] == 2 { return Fine; }
      if id in visited && visited[id] == 1 { return Failed(DependencyCycle(id)); }
      if id !in index {
        ListedIn(external, id);
        return if id in external then Fine else Failed(MissingDependency(id));
      }
      visited := visited[id := 1];
      assert Marked(stack + [id]);
      answer := DescendInto(id, g, stack);
      if answer.Fine? {
        visited := visited[id := 2];
        order := order + [id];
      }
    }

    /** Sorts the dependencies of an object in place. */
    method SortRefs(id: Id, ghost g: Graph) returns (refs: seq<Id>)
      requires id in index && Dependencies(index) == g
      modifies index[id]
      ensures Dependencies(index) == g && refs == index[id].dependencies
      ensures Ascending(refs) && id in g && Elements(refs) == g[id] && multiset(refs) == multiset(old(index[id].dependencies))
    {
      SortKept(index[id].dependencies);
      index[id].dependencies := Sorted(index[id].dependencies);
      refs := index[id].dependencies;
    }

    /** Sorts the dependencies of `id` in place, then visits them. */
    method DescendInto(id: Id, ghost g: Graph, ghost stack: seq<Id>) returns (answer: Answer)
      requires Dependencies(index) == g && Marked(stack + [id]) && id in index && id !in stack && id !in order
      requires Sane(g, Elements(external), stack, order) && Leads(g, stack, id) && id in g
      modifies this, index.Values
      ensures Dependencies(index) == g
      ensures var r := VisitAll(g, Elements(external), Ranked(g[id]), stack + [id], old(order));
        answer == Reported(r) && (r.Ordered? ==> order == r.order && Marked(stack + [id]))
      ensures forall o :: o in index.Values ==> multiset(o.dependencies) == multiset(old(o.dependencies))
      decreases |g.Keys - Elements(stack)|, 1
    {
      hide Sane, Leads, VisitAll, Dependencies, Ranked, Elements;
      var refs := SortRefs(id, g);
      answer := DescendAll(id, refs, g, stack);
    }

    /** Visits the sorted dependencies of `id` one after the other. */
    method DescendAll(id: Id, refs: seq<Id>, ghost g: Graph, ghost stack: seq<Id>) returns (answer: Answer)
      requires Dependencies(index) == g && Marked(stack + [id]) && id in index && id !in stack && id !in order
      requires Sane(g, Elements(external), stack, order) && Leads(g, stack, id) && id in g
      requires Ascending(refs) && Elements(refs) == g[id]
      modifies this, index.Values
      ensures Dependencies(index) == g
      ensures var r := VisitAll(g, Elements(external), Ranked(g[id]), stack + [id], old(order));
        answer == Reported(r) && (r.Ordered? ==> order == r.order && Marked(stack + [id]))
      ensures forall o :: o in index.Values ==> multiset(o.dependencies) == multiset(old(o.dependencies))
      decreases |g.Keys - Elements(stack)|, 0
    {
      hide Sane, Leads, OnCycle, Wanting, Visit, VisitAll, Ranked, Elements, Dependencies;
      ghost var ext := Elements(external);
      ghost var within := stack + [id];
      ghost var start := order;
      Deeper(g, ext, id, stack, order);
      StackGrows(g, stack, id);
      RefsVisited(g, ext, refs, id, within, order);
      for k := 0 to |refs|
        invariant Dependencies(index) == g && Marked(within) && Sane(g, ext, within, order)
        invariant VisitAll(g, ext, refs, within, start) == VisitAll(g, ext, refs[k..], within, order)
        invariant forall o :: o in index.Values ==> multiset(o.dependencies) == multiset(old(o.dependencies))
      {
        RefLeads(g, refs, id, within, k);
        VisitSound(g, ext, refs[k], within, order);
        VisitedSane(g, ext, refs[k], within, order);
        VisitAllNext(g, ext, refs, k, within, order);
        answer := Descend(refs[k], g, within);
        if answer.Failed? { return; }
      }
      VisitAllDone(g, ext, within, order);
      assert refs[|refs|..] == [];
      answer := Fine;
    }

    /** Visits every identifier in order. */
    method Run(keys: seq<Id>, ghost g: Graph) returns (answer: Answer)
      requires Dependencies(index) == g && visited == map[] && order == [] && Elements(keys) == g.Keys
      modifies this, index.Values
      ensures Dependencies(index) == g
      ensures var r := Result(g, Elements(external)); answer == Reported(r) && (r.Ordered? ==> order == r.order)
      ensures forall o :: o in index.Values ==> multiset(o.dependencies) == multiset(old(o.dependencies))
    {
      hide Sane, Leads, OnCycle, Wanting, Visit, VisitAll, Dependencies, Ranked, Sorted;
      ghost var ext := Elements(external);
      var ids := Sorted(keys);
      RootsVisited(g, ext, keys);
      for k := 0 to |ids|
        invariant Dependencies(index) == g && Marked([]) && Sane(g, ext, [], order)
        invariant Result(g, ext) == VisitAll(g, ext, ids[k..], [], order)
        invariant forall o :: o in index.Values ==> multiset(o.dependencies) == multiset(old(o.dependencies))
      {
        assert ids[k] in ids;
        RootLeads(g, ids[k]);
        VisitSound(g, ext, ids[k], [], order);
        VisitAllNext(g, ext, ids, k, [], order);
        answer := Descend(ids[k], g, []);
        if answer.Failed? { return; }
      }
      VisitAllDone(g, ext, [], order);
      assert ids[|ids|..] == [];
      answer := Fine;
    }
  }

  lemma VisitedSane(g: Graph, external: set<Id>, id: Id, stack: seq<Id>, order: seq<Id>)
    requires Sound(g, external, [id], stack, order, Visit(g, external, id, stack, order))
    ensures Visit(g, external, id, stack, order).Ordered? ==> Sane(g, external, stack, Visit(g, external, id, stack, order).order)
  {
    hide Visit;
  }

  lemma VisitAllDone(g: Graph, external: set<Id>, stack: seq<Id>, order: seq<Id>)
    ensures VisitAll(g, external, [], stack, order) == Ordered(order)
  {}

  lemma VisitAllNext(g: Graph, external: set<Id>, ids: seq<Id>, k: nat, stack: seq<Id>, order: seq<Id>)
    requires k < |ids|
    ensures var r := Visit(g, external, ids[k], stack, order);
      VisitAll(g, external, ids[k..], stack, order) == if r.Ordered? then VisitAll(g, external, ids[k + 1..], stack, r.order) else r
  {
    hide Visit;
    assert ids[k..][1..] == ids[k + 1..];
  }

  lemma RootLeads(g: Graph, id: Id)
    ensures Leads(g, [], id)
  {}

  lemma RootsVisited(g: Graph, external: set<Id>, keys: seq<Id>)
    requires Elements(keys) == g.Keys
    ensures Sane(g, external, [], [])
    ensures (forall x :: x in Sorted(keys) ==> x in g) && Result(g, external) == VisitAll(g, external, Sorted(keys), [], [])
  {
    forall x | x in keys ensures Leads(g, [], x) && x in g { assert x in Elements(keys); }
    ListVisited(g, external, keys, [], []);
    SortKept(keys);
    forall x | x in Sorted(keys) ensures x in g { assert x in Elements(Sorted(keys)); }
  }

  lemma KnownIds(index: map<Id, Object>)
    ensures Dependencies(index).Keys == index.Keys
  {}

  lemma ListedIn(ids: seq<Id>, id: Id)
    ensures id in Elements(ids) <==> id in ids
  {}

  lemma VisitCases(g: Graph, external: set<Id>, id: Id, stack: seq<Id>, order: seq<Id>)
    requires Sane(g, external, stack, order)
    ensures id in order ==> Visit(g, external, id, stack, order) == Ordered(order)
    ensures id in stack ==> Visit(g, external, id, stack, order) == Cycle(id)
    ensures id !in g && id !in order && id !in stack ==>
      Visit(g, external, id, stack, order) == if id in external then Ordered(order) else Missing(id)
    ensures id in g && id !in order && id !in stack ==>
      var r := VisitAll(g, external, Ranked(g[id]), stack + [id], order);
      Visit(g, external, id, stack, order) == if r.Ordered? then Ordered(r.order + [id]) else r
  {
    hide VisitAll, DependenciesFirst;
  }

  lemma SortKept(ids: seq<Id>)
    ensures Elements(Sorted(ids)) == Elements(ids) && Ascending(Sorted(ids)) && multiset(Sorted(ids)) == multiset(ids)
  {
    SortedSorts(ids);
    SameElements(Sorted(ids), ids);
  }

  lemma RefLeads(g: Graph, refs: seq<Id>, id: Id, stack: seq<Id>, k: nat)
    requires id in g && Elements(refs) == g[id] && k < |refs| && (forall x :: x in Ranked(g[id]) ==> Leads(g, stack, x))
    ensures Leads(g, stack, refs[k])
  {
    hide Leads;
    assert refs[k] in Elements(refs);
  }

  lemma RefsVisited(g: Graph, external: set<Id>, refs: seq<Id>, id: Id, stack: seq<Id>, order: seq<Id>)
    requires id in g && Ascending(refs) && Elements(refs) == g[id] && stack != []
    requires Sane(g, external, stack, order) && (forall x :: x in Ranked(g[id]) ==> Leads(g, stack, x))
    ensures VisitAll(g, external, refs, stack, order) == VisitAll(g, external, Ranked(g[id]), stack, order)
  {
    hide Sane, Leads, VisitAll;
    forall x | x in refs ensures Leads(g, stack, x) {
      assert x in Elements(refs);
      assert x in Ranked(g[id]);
    }
    RepetitionsIrrelevant(g, external, refs, stack, order);
    CompactKeeps(refs);
    SortedUnique(Compact(refs), Ranked(g[id]));
  }

  // ---------------------------------------------------------------- ordering a plan

  class Plan {
    var objects: seq<Object>
    var external: seq<Id>
    var order: seq<Id>

    /** The dependency set of each identifier; the last object of an identifier counts. */
    ghost function Needs(): Graph
      reads this, objects
    {
      Table(objects)
    }

    /** Orders the plan, or reports why it cannot; a failure leaves the order unchanged. */
    method Order() returns (answer: Answer)
      modifies this`order, objects
      ensures var r := Result(old(Needs()), Elements(external));
        answer == Reported(r) && order == (if r.Ordered? then r.order else old(order))
      ensures Needs() == old(Needs())
      ensures forall o :: o in objects ==> multiset(o.dependencies) == multiset(old(o.dependencies))
    {
      hide Result, Table, Dependencies;
      ghost var g := Needs();
      var index := Index(objects);
      IndexKeys(index, g);
      var keys := ListKeys(index.Keys);
      var search := new Search(index, external);
      answer := search.Run(keys, g);
      assert forall o :: o in objects ==> multiset(o.dependencies) == multiset(old(o.dependencies));
      TableKept(objects);
      if answer.Fine? { order := search.order; }
    }
  }

  lemma IndexKeys(index: map<Id, Object>, g: Graph)
    requires Dependencies(index) == g
    ensures index.Keys == g.Keys
  {}

  /** The objects by identifier; a later object replaces an earlier one. */
  method Index(objects: seq<Object>) returns (index: map<Id, Object>)
    ensures Dependencies(index) == Table(objects) && index.Values <= set o | o in objects
  {
    index := map[];
    for i := 0 to |objects|
      invariant Dependencies(index) == Table(objects[..i])
      invariant forall id :: id in index ==> index[id] in objects
    {
      index := index[objects[i].id := objects[i]];
      assert objects[..i + 1] == objects[..i] + [objects[i]];
    }
    assert objects[..|objects|] == objects;
  }

  /** With distinct identifiers the table says nothing about the order of the objects. */
  lemma {:induction false} TableDistinct(objects: seq<Object>)
    requires forall i, j :: 0 <= i < j < |objects| ==> objects[i].id != objects[j].id
    ensures forall o :: o in objects ==> o.id in Table(objects) && Table(objects)[o.id] == Elements(o.dependencies)
    ensures forall id :: id in Table(objects) ==> exists o :: o in objects && o.id == id
  {
    if objects != [] {
      var last := objects[|objects| - 1];
      var rest := objects[..|objects| - 1];
      TableDistinct(rest);
      assert objects == rest + [last];
      forall o | o in objects ensures o.id in Table(objects) && Table(objects)[o.id] == Elements(o.dependencies) {
        if o != last { assert o in rest; }
      }
      forall id | id in Table(objects) ensures exists o :: o in objects && o.id == id {
        if id == last.id { assert last in objects; } else { var o :| o in rest && o.id == id; assert o in objects; }
      }
    }
  }

  /** Two lists of the same objects need the same things, whatever their order. */
  lemma OrderOfObjectsIrrelevant(a: seq<Object>, b: seq<Object>)
    requires forall i, j :: 0 <= i < j < |a| ==> a[i].id != a[j].id
    requires multiset(a) == multiset(b)
    ensures Table(a) == Table(b)
  {
    forall o ensures o in a <==> o in b { assert o in multiset(a) <==> o in multiset(b); }
    DistinctIds(a, b);
    TableDistinct(a);
    TableDistinct(b);
    forall id | id in Table(a) ensures id in Table(b) && Table(b)[id] == Table(a)[id] { var o :| o in a && o.id == id; assert o in b; }
    forall id | id in Table(b) ensures id in Table(a) { var o :| o in b && o.id == id; assert o in a; }
  }

  lemma DistinctIds(a: seq<Object>, b: seq<Object>)
    requires forall i, j :: 0 <= i < j < |a| ==> a[i].id != a[j].id
    requires multiset(a) == multiset(b)
    ensures forall i, j :: 0 <= i < j < |b| ==> b[i].id != b[j].id
  {
    forall o ensures multiset(a)[o] <= 1 { ObjectOnce(a, o); }
    forall i, j | 0 <= i < j < |b| ensures b[i].id != b[j].id {
      assert b == b[..j] + b[j..];
      assert b[i] in b[..j] && b[j] in b[j..];
      assert multiset(b)[b[i]] == multiset(b[..j])[b[i]] + multiset(b[j..])[b[i]];
      assert b[i] in multiset(b) && b[j] in multiset(b);
      assert b[i] in multiset(a) && b[j] in multiset(a);
      var x :| 0 <= x < |a| && a[x] == b[i];
      var y :| 0 <= y < |a| && a[y] == b[j];
      assert x != y;
    }
  }

  lemma {:induction false} ObjectOnce(a: seq<Object>, o: Object)
    requires forall i, j :: 0 <= i < j < |a| ==> a[i].id != a[j].id
    ensures multiset(a)[o] <= 1
  {
    if a != [] {
      ObjectOnce(a[1..], o);
      assert a == [a[0]] + a[1..];
      assert a[0] !in a[1..];
    }
  }

  twostate lemma TableKept(objects: seq<Object>)
    requires forall o :: o in objects ==> multiset(o.dependencies) == multiset(old(o.dependencies))
    ensures Table(objects) == old(Table(objects))
  {
    if objects != [] {
      var last := objects[|objects| - 1];
      TableKept(objects[..|objects| - 1]);
      SameElements(last.dependencies, old(last.dependencies));
      assert Elements(last.dependencies) == old(Elements(last.dependencies));
    }
  }

  ghost function Table(objects: seq<Object>): Graph
    reads objects
  {
    if objects == [] then map[]
    else
      var last := objects[|objects| - 1];
      Table(objects[..|objects| - 1])[last.id := Elements(last.dependencies)]
  }

  method ListKeys(ids: set<Id>) returns (keys: seq<Id>)
    ensures Elements(keys) == ids
  {
    keys := [];
    var rest := ids;
    while rest != {}
      invariant Elements(keys) + rest == ids
    {
      var x :| x in rest;
      rest := rest - {x};
      keys := keys + [x];
    }
  }
}
