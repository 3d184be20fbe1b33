/** Strings in byte order, and sorting them as `slices.Sort` does. */
module PlannerText {

  type Id = string

  predicate Leq(a: Id, b: Id) {
    a == [] || (b != [] && (a[0] < b[0] || (a[0] == b[0] && Leq(a[1..], b[1..]))))
  }

  lemma {:induction false} LeqTotal(a: Id, b: Id)
    ensures Leq(a, b) || Leq(b, a)
    ensures Leq(a, b) && Leq(b, a) ==> a == b
  {
    if a != [] && b != [] && a[0] == b[0] {
      LeqTotal(a[1..], b[1..]);
      assert a == [a[0]] + a[1..] && b == [b[0]] + b[1..];
    }
  }

  lemma {:induction false} LeqTransitive(a: Id, b: Id, c: Id)
    requires Leq(a, b) && Leq(b, c)
    ensures Leq(a, c)
  {
    if a != [] && a[0] == b[0] && b[0] == c[0] { LeqTransitive(a[1..], b[1..], c[1..]); }
  }

  ghost predicate Ascending(ids: seq<Id>) {
    forall i, j :: 0 <= i < j < |ids| ==> Leq(ids[i], ids[j])
  }

  ghost predicate Distinct(ids: seq<Id>) {
    forall i, j :: 0 <= i < j < |ids| ==> ids[i] != ids[j]
  }

  function Insert(id: Id, ids: seq<Id>): seq<Id> {
    if ids == [] then [id]
    else if Leq(id, ids[0]) then [id] + ids
    else [ids[0]] + Insert(id, ids[1..])
  }

  function Sorted(ids: seq<Id>): seq<Id> {
    if ids == [] then [] else Insert(ids[0], Sorted(ids[1..]))
  }

  lemma {:induction false} InsertSorts(id: Id, ids: seq<Id>)
    requires Ascending(ids)
    ensures Ascending(Insert(id, ids)) && multiset(Insert(id, ids)) == multiset(ids) + multiset{id}
  {
    if ids == [] {
    } else if Leq(id, ids[0]) {
      forall j | 0 < j < |ids| ensures Leq(id, ids[j]) { LeqTransitive(id, ids[0], ids[j]); }
    } else {
      LeqTotal(id, ids[0]);
      InsertSorts(id, ids[1..]);
      var rest := Insert(id, ids[1..]);
      assert ids == [ids[0]] + ids[1..];
      forall j | 0 <= j < |rest| ensures Leq(ids[0], rest[j]) {
        assert rest[j] in multiset(rest);
        assert rest[j] in multiset(ids[1..]) + multiset{id};
      }
    }
  }

  lemma {:induction false} SortedSorts(ids: seq<Id>)
    ensures Ascending(Sorted(ids)) && multiset(Sorted(ids)) == multiset(ids)
  {
    if ids != [] {
      SortedSorts(ids[1..]);
      InsertSorts(ids[0], Sorted(ids[1..]));
      assert ids == [ids[0]] + ids[1..];
    }
  }

  lemma SameElements(a: seq<Id>, b: seq<Id>)
    requires multiset(a) == multiset(b)
    ensures forall x :: x in a <==> x in b
  {
    forall x ensures x in a <==> x in b { assert x in multiset(a) <==> x in multiset(b); }
  }

  /** Drops repetitions from a sorted sequence. */
  function Compact(ids: seq<Id>): seq<Id> {
    if |ids| < 2 then ids
    else if ids[0] == ids[1] then Compact(ids[1..])
    else [ids[0]] + Compact(ids[1..])
  }

  lemma {:induction false} CompactKeeps(ids: seq<Id>)
    requires Ascending(ids)
    ensures Ascending(Compact(ids)) && Distinct(Compact(ids))
    ensures forall x :: x in Compact(ids) <==> x in ids
    ensures ids != [] ==> Compact(ids) != [] && Compact(ids)[0] == ids[0]
  {
    if |ids| >= 2 {
      CompactKeeps(ids[1..]);
      assert ids == [ids[0]] + ids[1..];
      if ids[0] != ids[1] {
        var rest := Compact(ids[1..]);
        forall j | 0 <= j < |rest| ensures Leq(ids[0], rest[j]) && ids[0] != rest[j] {
          assert rest[j] in ids[1..];
          var k :| 1 <= k < |ids| && ids[k] == rest[j];
          if ids[k] == ids[0] { LeqTotal(ids[0], ids[1]); }
        }
      }
    }
  }

  lemma NoElements(ids: seq<Id>)
    requires forall x :: x !in ids
    ensures ids == []
  {
    if ids != [] { HasElement(ids); }
  }

  lemma HasElement(ids: seq<Id>)
    requires ids != []
    ensures exists x :: x in ids
  {
    assert ids[0] in ids;
  }

  /** A sorted sequence without repetitions is determined by its elements. */
  lemma {:induction false} SortedUnique(a: seq<Id>, b: seq<Id>)
    requires Ascending(a) && Ascending(b) && Distinct(a) && Distinct(b)
    requires forall x :: x in a <==> x in b
    ensures a == b
  {
    if a == [] {
      NoElements(b);
    } else {
      assert a[0] in b && b != [] && b[0] in a;
      var j :| 0 <= j < |b| && b[j] == a[0];
      var i :| 0 <= i < |a| && a[i] == b[0];
      LeqTotal(a[0], b[0]);
      assert a[0] == b[0];
      assert a == [a[0]] + a[1..] && b == [b[0]] + b[1..];
      forall x ensures x in a[1..] <==> x in b[1..] {
        if x in a[1..] { assert x in a && x != a[0]; }
        if x in b[1..] { assert x in b && x != b[0]; }
      }
      SortedUnique(a[1..], b[1..]);
    }
  }

  /** The elements of a set in order. */
  ghost function Ranked(ids: set<Id>): (r: seq<Id>)
    ensures Ascending(r) && Distinct(r) && forall x :: x in r <==> x in ids
    decreases |ids|
  {
    if ids == {} then []
    else
      var x :| x in ids;
      var rest := Ranked(ids - {x});
      InsertSorts(x, rest);
      InsertDistinct(x, rest);
      SameElements(Insert(x, rest), rest + [x]);
      Insert(x, rest)
  }

  lemma InsertDistinct(id: Id, ids: seq<Id>)
    requires Ascending(ids) && Distinct(ids) && id !in ids
    ensures Distinct(Insert(id, ids))
  {
    InsertSorts(id, ids);
    DistinctMultiset(ids);
    forall x ensures multiset(Insert(id, ids))[x] <= 1 {
      assert multiset(Insert(id, ids))[x] == multiset(ids)[x] + (if x == id then 1 else 0);
      if x == id { assert x !in multiset(ids); }
    }
    MultisetDistinct(Insert(id, ids));
  }

  lemma {:induction false} DistinctMultiset(ids: seq<Id>)
    requires Distinct(ids)
    ensures forall x :: multiset(ids)[x] <= 1
  {
    if ids != [] {
      DistinctMultiset(ids[1..]);
      assert ids == [ids[0]] + ids[1..];
      assert ids[0] !in ids[1..];
    }
  }

  lemma MultisetDistinct(ids: seq<Id>)
    requires forall x :: multiset(ids)[x] <= 1
    ensures Distinct(ids)
  {
    forall i, j | 0 <= i < j < |ids| ensures ids[i] != ids[j] {
      assert ids == ids[..j] + ids[j..];
      assert ids[i] in ids[..j] && ids[j] in ids[j..];
      assert multiset(ids)[ids[i]] == multiset(ids[..j])[ids[i]] + multiset(ids[j..])[ids[i]];
    }
  }

  /** Sorting and dropping repetitions lists the elements in order. */
  lemma CompactRanked(ids: seq<Id>)
    ensures Compact(Sorted(ids)) == Ranked(set x | x in ids)
  {
    SortedSorts(ids);
    CompactKeeps(Sorted(ids));
    SameElements(Sorted(ids), ids);
    SortedUnique(Compact(Sorted(ids)), Ranked(set x | x in ids));
  }
}
