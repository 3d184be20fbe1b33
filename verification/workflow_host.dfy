/** Inventory and removal of what the runtime owns on the host. */
module WorkflowHost {
  import opened Common

  type Name = nat

  /** A listed host object: its name, its identity and the identities it is owned by. */
  datatype Listed = Listed(name: Name, uid: Uid, owners: set<Uid>)

  datatype Entry = Entry(name: Name, uid: Uid, deleted: bool)

  // ---------------------------------------------------------------- the exact closure

  /** A chain of owner references from a root down to `uid`. */
  ghost predicate Chain(objects: seq<Listed>, path: seq<nat>) {
    && (forall k :: 0 <= k < |path| ==> path[k] < |objects|)
    && (forall k :: 0 <= k < |path| - 1 ==> objects[path[k]].uid in objects[path[k + 1]].owners)
  }

  ghost predicate Owned(objects: seq<Listed>, roots: set<Uid>, i: nat) {
    exists path :: path != [] && Chain(objects, path) && path[|path| - 1] == i && objects[path[0]].owners * roots != {}
  }

  ghost predicate Reachable(objects: seq<Listed>, roots: set<Uid>, uid: Uid) {
    uid in roots || exists i :: 0 <= i < |objects| && objects[i].uid == uid && Owned(objects, roots, i)
  }

  /** Contains the roots and everything listed that something in it owns. */
  ghost predicate Closed(objects: seq<Listed>, roots: set<Uid>, known: set<Uid>) {
    roots <= known && forall i :: 0 <= i < |objects| && objects[i].owners * known != {} ==> objects[i].uid in known
  }

  lemma {:induction false} ChainKnown(objects: seq<Listed>, roots: set<Uid>, known: set<Uid>, path: seq<nat>)
    requires Closed(objects, roots, known) && path != [] && Chain(objects, path) && objects[path[0]].owners * roots != {}
    ensures objects[path[|path| - 1]].uid in known
  {
    if |path| == 1 {
      var r :| r in objects[path[0]].owners * roots;
      assert r in objects[path[0]].owners * known;
    } else {
      var shorter := path[..|path| - 1];
      assert Chain(objects, shorter);
      ChainKnown(objects, roots, known, shorter);
      assert objects[path[|path| - 2]].uid in objects[path[|path| - 1]].owners * known;
    }
  }

  lemma OwnedFurther(objects: seq<Listed>, roots: set<Uid>, uid: Uid, i: nat)
    requires i < |objects| && uid in objects[i].owners && Reachable(objects, roots, uid)
    ensures Owned(objects, roots, i)
  {
    if uid in roots {
      assert uid in objects[i].owners * roots;
      assert Chain(objects, [i]) && [i][0] == i;
    } else {
      var j :| 0 <= j < |objects| && objects[j].uid == uid && Owned(objects, roots, j);
      var path :| path != [] && Chain(objects, path) && path[|path| - 1] == j && objects[path[0]].owners * roots != {};
      var longer := path + [i];
      assert Chain(objects, longer) && longer[|longer| - 1] == i && longer[0] == path[0];
    }
  }

  /** A closed set of reachable identities is exactly the reachable ones. */
  lemma ClosureExact(objects: seq<Listed>, roots: set<Uid>, known: set<Uid>)
    requires Closed(objects, roots, known) && forall u :: u in known ==> Reachable(objects, roots, u)
    ensures forall u :: u in known <==> Reachable(objects, roots, u)
  {
    forall u | Reachable(objects, roots, u) ensures u in known {
      if u !in roots {
        var i :| 0 <= i < |objects| && objects[i].uid == u && Owned(objects, roots, i);
        var path :| path != [] && Chain(objects, path) && path[|path| - 1] == i && objects[path[0]].owners * roots != {};
        ChainKnown(objects, roots, known, path);
      }
    }
  }

  function Uids(entries: seq<Entry>): set<Uid> { set e | e in entries :: e.uid }

  ghost predicate Distinct(entries: seq<Entry>) {
    forall i, j :: 0 <= i < j < |entries| ==> entries[i].uid != entries[j].uid
  }

  /** `entries` are inventoried objects of the listing. */
  ghost predicate FromListing(objects: seq<Listed>, entries: seq<Entry>) {
    forall e :: e in entries ==> !e.deleted && exists i :: 0 <= i < |objects| && objects[i].uid == e.uid && objects[i].name == e.name
  }

  lemma NewUid(entries: seq<Entry>, e: Entry)
    requires Distinct(entries) && e.uid !in Uids(entries)
    ensures Distinct(entries + [e]) && Uids(entries + [e]) == Uids(entries) + {e.uid}
  {
    forall i | 0 <= i < |entries| ensures entries[i].uid != e.uid { assert entries[i] in entries; }
    assert e in entries + [e];
    forall u | u in Uids(entries) + {e.uid} ensures u in Uids(entries + [e]) {
      if u in Uids(entries) { var x :| x in entries && x.uid == u; assert x in entries + [e]; }
    }
  }

  // ---------------------------------------------------------------- the inventory

  class Inventory {
    const roots: set<Uid>
    var entries: seq<Entry>

    constructor (roots: set<Uid>, entries: seq<Entry>)
      ensures this.roots == roots && this.entries == entries
    {
      this.roots := roots;
      this.entries := entries;
    }

    /** What holds while the inventory grows from `start` and its first `n` entries. */
    ghost predicate Growing(objects: seq<Listed>, start: set<Uid>, old_: seq<Entry>, known: set<Uid>)
      reads this
    {
      && old_ <= entries && Distinct(entries) && known == roots + Uids(entries)
      && start <= known && (forall u :: u in known ==> Reachable(objects, start, u))
      && FromListing(objects, entries[|old_|..])
    }

    /** Takes in object `i`, which something known owns. */
    method TakeIn(objects: seq<Listed>, ghost start: set<Uid>, ghost old_: seq<Entry>, known: set<Uid>, i: nat) returns (later: set<Uid>)
      requires Growing(objects, start, old_, known) && i < |objects| && objects[i].uid !in known && objects[i].owners * known != {}
      modifies this
      ensures Growing(objects, start, old_, later) && later == known + {objects[i].uid} && |entries| == |old(entries)| + 1
    {
      hide Owned, Chain;
      var x := objects[i];
      assert Reachable(objects, start, x.uid) by {
        var o :| o in x.owners * known;
        OwnedFurther(objects, start, o, i);
      }
      var e := Entry(x.name, x.uid, false);
      NewUid(entries, e);
      assert (entries + [e])[|old_|..] == entries[|old_|..] + [e];
      later := known + {x.uid};
      entries := entries + [e];
    }

    /** One pass over the listing. */
    method Pass(objects: seq<Listed>, ghost start: set<Uid>, ghost old_: seq<Entry>, before: set<Uid>) returns (again: bool, known: set<Uid>)
      requires Growing(objects, start, old_, before)
      modifies this
      ensures Growing(objects, start, old_, known) && before <= known
      ensures !again ==> Closed(objects, start, known) && entries == old(entries)
      ensures again ==> Unknown(objects, known) < Unknown(objects, before) && |entries| > |old(entries)|
    {
      hide Reachable, FromListing, Distinct, Uids;
      known, again := before, false;
      for i := 0 to |objects|
        invariant Growing(objects, start, old_, known) && before <= known && |entries| >= |old(entries)|
        invariant !again ==> known == before && entries == old(entries) && forall j :: 0 <= j < i && objects[j].owners * known != {} ==> objects[j].uid in known
        invariant again ==> |entries| > |old(entries)| && exists j :: 0 <= j < i && objects[j].uid in known && objects[j].uid !in before
      {
        if objects[i].uid !in known && objects[i].owners * known != {} {
          known := TakeIn(objects, start, old_, known, i);
          again := true;
        }
      }
      if again { Fewer(objects, before, known); }
    }

    /** Adds every listed object that the runtime, or an earlier inventory, owns through
        any number of owner references, until nothing more is found. */
    method Extend(objects: seq<Listed>) returns (changed: bool)
      requires Distinct(entries)
      modifies this
      ensures old(entries) <= entries && Distinct(entries)
      ensures forall u :: u in roots + Uids(entries) <==> Reachable(objects, roots + old(Uids(entries)), u)
      ensures FromListing(objects, entries[|old(entries)|..])
      ensures changed <==> entries != old(entries)
    {
      hide Reachable;
      ghost var old_ := entries;
      ghost var start := roots + Uids(entries);
      var known := roots + Uids(entries);
      RootsReachable(objects, start);
      assert entries[|entries|..] == [];
      var again := true;
      changed := false;
      while again
        invariant Growing(objects, start, old_, known) && (changed <==> entries != old_)
        invariant !again ==> Closed(objects, start, known)
        decreases Unknown(objects, known), again
      {
        again, known := Pass(objects, start, old_, known);
        if again { changed := true; }
      }
      ClosureExact(objects, start, known);
    }
  }

  lemma RootsReachable(objects: seq<Listed>, roots: set<Uid>)
    ensures forall u :: u in roots ==> Reachable(objects, roots, u)
  {}

  ghost function Unknown(objects: seq<Listed>, known: set<Uid>): set<nat> {
    set i: nat | i < |objects| && objects[i].uid !in known
  }

  lemma Fewer(objects: seq<Listed>, before: set<Uid>, after: set<Uid>)
    requires before <= after && exists j :: 0 <= j < |objects| && objects[j].uid in after && objects[j].uid !in before
    ensures Unknown(objects, after) < Unknown(objects, before)
  {
    var j :| 0 <= j < |objects| && objects[j].uid in after && objects[j].uid !in before;
    assert j in Unknown(objects, before) && j !in Unknown(objects, after);
  }

  /** A second pass over the same listing adds nothing. */
  lemma InventoryIdempotent(objects: seq<Listed>, roots: set<Uid>, known: set<Uid>, u: Uid)
    requires forall x :: x in known <==> Reachable(objects, roots, x)
    ensures Reachable(objects, known, u) <==> u in known
  {
    assert Closed(objects, known, known) by {
      forall i | 0 <= i < |objects| && objects[i].owners * known != {} ensures objects[i].uid in known {
        var o :| o in objects[i].owners * known;
        OwnedFurther(objects, roots, o, i);
        assert Reachable(objects, roots, objects[i].uid);
      }
    }
    ClosureExact(objects, known, known);
  }

  /** The order of the listing does not matter. */
  lemma InventoryOrderIrrelevant(a: seq<Listed>, b: seq<Listed>, roots: set<Uid>, u: Uid)
    requires forall x :: x in a <==> x in b
    ensures Reachable(a, roots, u) <==> Reachable(b, roots, u)
  {
    ReachableMoves(a, b, roots, u);
    ReachableMoves(b, a, roots, u);
  }

  lemma ReachableMoves(a: seq<Listed>, b: seq<Listed>, roots: set<Uid>, u: Uid)
    requires forall x :: x in a <==> x in b
    ensures Reachable(a, roots, u) ==> Reachable(b, roots, u)
  {
    if Reachable(a, roots, u) && u !in roots {
      var i :| 0 <= i < |a| && a[i].uid == u && Owned(a, roots, i);
      var path :| path != [] && Chain(a, path) && path[|path| - 1] == i && a[path[0]].owners * roots != {};
      MovedChain(a, b, roots, path);
    }
  }

  lemma {:induction false} MovedChain(a: seq<Listed>, b: seq<Listed>, roots: set<Uid>, path: seq<nat>)
    requires forall x :: x in a <==> x in b
    requires path != [] && Chain(a, path) && a[path[0]].owners * roots != {}
    ensures exists j :: 0 <= j < |b| && b[j] == a[path[|path| - 1]] && Owned(b, roots, j)
  {
    var last := a[path[|path| - 1]];
    assert last in b;
    var j :| 0 <= j < |b| && b[j] == last;
    if |path| == 1 {
      assert Chain(b, [j]) && [j][0] == j;
    } else {
      var shorter := path[..|path| - 1];
      assert Chain(a, shorter);
      MovedChain(a, b, roots, shorter);
      var k :| 0 <= k < |b| && b[k] == a[shorter[|shorter| - 1]] && Owned(b, roots, k);
      OwnedFurther(b, roots, b[k].uid, j);
    }
  }

  // ---------------------------------------------------------------- removal

  datatype Live = Live(uid: Uid, deleting: bool)

  /** The recorded object is not there; its identity never returns. */
  ghost predicate Gone(objects: map<Name, Live>, e: Entry) {
    e.name in objects ==> objects[e.name].uid != e.uid
  }

  ghost predicate Later(objects: map<Name, Live>, next: Uid, later: map<Name, Live>) {
    forall n :: n in later && later[n].uid < next ==> n in objects && objects[n].uid == later[n].uid
  }

  class Host {
    var objects: map<Name, Live>
    var next: Uid
    /** The identities somebody was asked to delete. */
    ghost var asked: set<Uid>

    constructor (objects: map<Name, Live>, next: Uid)
      requires forall n :: n in objects ==> objects[n].uid < next
      ensures this.objects == objects && this.next == next && asked == {} && Valid()
    {
      this.objects, this.next, asked := objects, next, {};
    }

    ghost predicate Valid()
      reads this
    {
      forall n :: n in objects ==> objects[n].uid < next
    }

    method Others()
      requires Valid()
      modifies this`objects, this`next
      ensures Valid() && old(next) <= next && Later(old(objects), old(next), objects)
    {
      var n: nat := *;
      while 0 < n
        invariant Valid() && old(next) <= next && Later(old(objects), old(next), objects)
      {
        var name: Name := *;
        var create: bool := *;
        if create && name !in objects {
          objects := objects[name := Live(next, false)];
          next := next + 1;
        } else if !create {
          objects := objects - {name};
        }
        n := n - 1;
      }
    }

    method Get(name: Name) returns (r: Read<Live>)
      requires Valid()
      modifies this`objects, this`next
      ensures Valid() && old(next) <= next && Later(old(objects), old(next), objects)
      ensures r.Found? ==> name in old(objects) && old(objects)[name] == r.value
      ensures r.Missing? ==> name !in old(objects)
    {
      var ok: bool := *;
      r := if !ok then Unreadable else if name in objects then Found(objects[name]) else Missing;
      Others();
    }

    /** A delete conditional on the identity that was seen. */
    method Delete(name: Name, uid: Uid) returns (failed: bool)
      requires Valid()
      modifies this
      ensures Valid() && old(next) <= next && Later(old(objects), old(next), objects)
      ensures asked <= old(asked) + {uid}
    {
      failed := *;
      if name in objects && objects[name].uid == uid {
        objects := objects[name := objects[name].(deleting := true)];
        asked := asked + {uid};
      }
      Others();
    }
  }

  lemma GoneStays(objects: map<Name, Live>, next: Uid, later: map<Name, Live>, e: Entry)
    requires Gone(objects, e) && Later(objects, next, later) && e.uid < next
    ensures Gone(later, e)
  {}

  ghost predicate Recorded(host: Host, entries: seq<Entry>)
    reads host
  {
    host.Valid() && forall e :: e in entries ==> e.uid < host.next && (e.deleted ==> Gone(host.objects, e))
  }

  /** Asks every inventoried object to go; done only when each was seen absent, and so
      stays absent.  A reused name is preserved. */
  method HostCleanup(host: Host, inventory: Inventory, volumes: seq<Entry>) returns (done: bool, failed: bool)
    requires Recorded(host, inventory.entries) && Recorded(host, volumes)
    modifies host, inventory
    ensures Recorded(host, inventory.entries) && |inventory.entries| == |old(inventory.entries)|
    ensures forall i :: 0 <= i < |inventory.entries| ==> inventory.entries[i] == old(inventory.entries)[i].(deleted := inventory.entries[i].deleted)
    ensures done ==> !failed && (forall e :: e in inventory.entries ==> e.deleted && Gone(host.objects, e)) && (forall e :: e in volumes ==> Gone(host.objects, e))
    ensures host.asked <= old(host.asked) + Uids(old(inventory.entries))
  {
    hide Later, Gone;
    done := true;
    ghost var start := inventory.entries;
    var i := 0;
    while i < |inventory.entries|
      invariant i <= |inventory.entries| == |start| && Recorded(host, inventory.entries) && Recorded(host, volumes)
      invariant forall k :: 0 <= k < |start| ==> inventory.entries[k] == start[k].(deleted := inventory.entries[k].deleted)
      invariant done ==> forall k :: 0 <= k < i ==> inventory.entries[k].deleted
      invariant host.asked <= old(host.asked) + Uids(start)
    {
      var e := inventory.entries[i];
      assert start[i] in start && e in inventory.entries;
      i := i + 1;
      if e.deleted { continue; }
      label Before:
      var live := host.Get(e.name);
      StillRecorded(old@Before(host.objects), old@Before(host.next), host, inventory.entries);
      StillRecorded(old@Before(host.objects), old@Before(host.next), host, volumes);
      if live.Unreadable? { return false, true; }
      if live.Missing? {
        MissingGone(old@Before(host.objects), old@Before(host.next), host.objects, e.(deleted := true));
        Flagged(host, inventory.entries, i - 1);
        inventory.entries := inventory.entries[i - 1 := e.(deleted := true)];
        continue;
      }
      if live.value.uid != e.uid { return false, true; }
      done := false;
      if !live.value.deleting {
        label Middle:
        failed := host.Delete(e.name, live.value.uid);
        StillRecorded(old@Middle(host.objects), old@Middle(host.next), host, inventory.entries);
        StillRecorded(old@Middle(host.objects), old@Middle(host.next), host, volumes);
        if failed { return false, true; }
      }
    }
    ghost var after := inventory.entries;
    for k := 0 to |volumes|
      invariant inventory.entries == after && host.asked <= old(host.asked) + Uids(start)
      invariant Recorded(host, inventory.entries) && Recorded(host, volumes)
      invariant done ==> forall j :: 0 <= j < k ==> Gone(host.objects, volumes[j])
      invariant done ==> forall j :: 0 <= j < |inventory.entries| ==> inventory.entries[j].deleted
    {
      assert volumes[k] in volumes;
      label Before:
      ghost var before := host.objects;
      var live := host.Get(volumes[k].name);
      StillRecorded(old@Before(host.objects), old@Before(host.next), host, inventory.entries);
      StillRecorded(old@Before(host.objects), old@Before(host.next), host, volumes);
      if live.Unreadable? || (live.Found? && live.value.uid != volumes[k].uid) { return false, true; }
      if live.Found? {
        done := false;
      } else {
        MissingGone(before, old@Before(host.next), host.objects, volumes[k]);
        forall j | 0 <= j < k && done ensures Gone(host.objects, volumes[j]) {
          assert volumes[j] in volumes;
          GoneStays(before, old@Before(host.next), host.objects, volumes[j]);
        }
      }
    }
    failed := false;
    forall e | done && e in inventory.entries ensures e.deleted && Gone(host.objects, e) {
      var k :| 0 <= k < |inventory.entries| && inventory.entries[k] == e;
    }
  }

  lemma Flagged(host: Host, entries: seq<Entry>, i: nat)
    requires Recorded(host, entries) && i < |entries| && Gone(host.objects, entries[i].(deleted := true))
    ensures Recorded(host, entries[i := entries[i].(deleted := true)])
  {
    hide Gone;
    assert entries[i] in entries;
  }

  lemma MissingGone(objects: map<Name, Live>, next: Uid, later: map<Name, Live>, e: Entry)
    requires e.name !in objects && Later(objects, next, later) && e.uid < next
    ensures Gone(later, e)
  {}

  lemma StillRecorded(objects: map<Name, Live>, next: Uid, host: Host, entries: seq<Entry>)
    requires forall e :: e in entries ==> e.uid < next && (e.deleted ==> Gone(objects, e))
    requires host.Valid() && next <= host.next && Later(objects, next, host.objects)
    ensures Recorded(host, entries)
  {
    forall e | e in entries && e.deleted ensures Gone(host.objects, e) { GoneStays(objects, next, host.objects, e); }
  }
}
