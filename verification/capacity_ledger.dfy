/** The admission ledger: optimistic concurrency over one versioned record. */
module CapacityLedger {
  import opened Common

  datatype Reservation = Reservation(uid: Uid, grant: Uid, helm: bool)

  type Ledger = seq<Reservation>

  /** The administrator's limit for a grant; zero is no limit. */
  type Limits = map<Uid, nat>

  function LimitOf(limits: Limits, grant: Uid): nat { if grant in limits then limits[grant] else 0 }

  function CountGrant(l: Ledger, grant: Uid): nat {
    if l == [] then 0 else (if l[|l| - 1].grant == grant then 1 else 0) + CountGrant(l[..|l| - 1], grant)
  }

  ghost predicate Holds(l: Ledger, uid: Uid) { exists i :: 0 <= i < |l| && l[i].uid == uid }

  ghost predicate HasHelm(l: Ledger) { exists i :: 0 <= i < |l| && l[i].helm }

  /** What admission promises at every moment. */
  ghost predicate Sound(l: Ledger, limits: Limits) {
    && (forall i, j :: 0 <= i < j < |l| ==> l[i].uid != l[j].uid)
    && (forall i, j :: 0 <= i < j < |l| ==> !(l[i].helm && l[j].helm))
    && (forall g :: LimitOf(limits, g) > 0 ==> CountGrant(l, g) <= LimitOf(limits, g))
  }

  // ---------------------------------------------------------------- admission and release

  ghost predicate Admissible(l: Ledger, r: Reservation, limit: nat) {
    !Holds(l, r.uid) && !(r.helm && HasHelm(l)) && (limit > 0 ==> CountGrant(l, r.grant) < limit)
  }

  /** The ledger without the reservations of one replica, in the same order. */
  function Without(l: Ledger, uid: Uid): Ledger {
    if l == [] then []
    else
      var rest := Without(l[..|l| - 1], uid);
      if l[|l| - 1].uid == uid then rest else rest + [l[|l| - 1]]
  }

  lemma AdmitKeeps(l: Ledger, r: Reservation, limits: Limits)
    requires Sound(l, limits) && Admissible(l, r, LimitOf(limits, r.grant))
    ensures Sound(l + [r], limits)
  {
    assert (l + [r])[..|l|] == l;
  }

  lemma {:induction false} WithoutKeeps(l: Ledger, uid: Uid)
    ensures forall i :: 0 <= i < |Without(l, uid)| ==> Without(l, uid)[i] in l && Without(l, uid)[i].uid != uid
    ensures forall r :: r in l && r.uid != uid ==> r in Without(l, uid)
    ensures forall g :: CountGrant(Without(l, uid), g) <= CountGrant(l, g)
    ensures |Without(l, uid)| <= |l|
  {
    if l != [] {
      var rest := Without(l[..|l| - 1], uid);
      var last := l[|l| - 1];
      WithoutKeeps(l[..|l| - 1], uid);
      assert l == l[..|l| - 1] + [last];
      if last.uid != uid { assert (rest + [last])[..|rest|] == rest; }
    }
  }

  lemma {:induction false} ReleaseKeeps(l: Ledger, uid: Uid, limits: Limits)
    requires Sound(l, limits)
    ensures Sound(Without(l, uid), limits) && !Holds(Without(l, uid), uid)
  {
    WithoutKeeps(l, uid);
    WithoutPairs(l, uid);
  }

  lemma {:induction false} WithoutPairs(l: Ledger, uid: Uid)
    requires forall i, j :: 0 <= i < j < |l| ==> l[i].uid != l[j].uid && !(l[i].helm && l[j].helm)
    ensures var w := Without(l, uid); forall i, j :: 0 <= i < j < |w| ==> w[i].uid != w[j].uid && !(w[i].helm && w[j].helm)
  {
    if l != [] {
      var rest := l[..|l| - 1];
      WithoutPairs(rest, uid);
      WithoutKeeps(rest, uid);
      forall i | 0 <= i < |Without(rest, uid)| ensures Without(rest, uid)[i].uid != l[|l| - 1].uid && !(Without(rest, uid)[i].helm && l[|l| - 1].helm) {
        assert Without(rest, uid)[i] in rest;
        var k :| 0 <= k < |rest| && rest[k] == Without(rest, uid)[i];
        assert l[k] == rest[k];
      }
    }
  }

  /** Dropping a replica's reservations from the front of the same storage. */
  method Compact(a: array<Reservation>, uid: Uid) returns (n: nat, found: bool)
    modifies a
    ensures n <= a.Length && a[..n] == Without(old(a[..]), uid)
    ensures found <==> Holds(old(a[..]), uid)
  {
    n, found := 0, false;
    ghost var was := a[..];
    for i := 0 to a.Length
      invariant n <= i && a[..n] == Without(was[..i], uid)
      invariant a[i..] == was[i..]
      invariant found <==> Holds(was[..i], uid)
    {
      assert was[..i + 1][..i] == was[..i] && was[..i + 1][i] == was[i];
      assert a[i] == was[i] by { assert a[i..][0] == was[i..][0]; }
      HoldsNext(was, i, uid);
      if a[i].uid == uid {
        found := true;
      } else {
        a[n] := a[i];
        n := n + 1;
      }
    }
    assert was[..a.Length] == was;
  }

  lemma HoldsNext(l: Ledger, i: nat, uid: Uid)
    requires i < |l|
    ensures Holds(l[..i + 1], uid) <==> Holds(l[..i], uid) || l[i].uid == uid
  {
    if Holds(l[..i], uid) {
      var k :| 0 <= k < i && l[..i][k].uid == uid;
      assert l[..i + 1][k].uid == uid;
    }
    if l[i].uid == uid { assert l[..i + 1][i].uid == uid; }
    if Holds(l[..i + 1], uid) {
      var k :| 0 <= k < i + 1 && l[..i + 1][k].uid == uid;
      if k < i { assert l[..i][k].uid == uid; }
    }
  }

  // ---------------------------------------------------------------- every interleaving

  /** A successful save: with an unchanged version it was computed from what is stored. */
  datatype Step = Admit(reservation: Reservation) | Release(uid: Uid)

  function After(l: Ledger, step: Step): Ledger {
    match step
    case Admit(r) => l + [r]
    case Release(uid) => Without(l, uid)
  }

  function Exec(steps: seq<Step>): Ledger {
    if steps == [] then [] else After(Exec(steps[..|steps| - 1]), steps[|steps| - 1])
  }

  ghost predicate Legal(steps: seq<Step>, limits: Limits) {
    steps == [] ||
    (Legal(steps[..|steps| - 1], limits) &&
     (steps[|steps| - 1].Admit? ==>
        Admissible(Exec(steps[..|steps| - 1]), steps[|steps| - 1].reservation, LimitOf(limits, steps[|steps| - 1].reservation.grant))))
  }

  lemma Extend(steps: seq<Step>, step: Step, limits: Limits)
    requires Legal(steps, limits)
    requires step.Admit? ==> Admissible(Exec(steps), step.reservation, LimitOf(limits, step.reservation.grant))
    ensures Legal(steps + [step], limits) && Exec(steps + [step]) == After(Exec(steps), step)
  {
    hide Admissible, After;
    assert (steps + [step])[..|steps|] == steps;
  }

  /** Limits hold after any number of admissions and releases by anyone. */
  lemma {:induction false} AlwaysSound(steps: seq<Step>, limits: Limits)
    requires Legal(steps, limits)
    ensures Sound(Exec(steps), limits)
  {
    hide Sound, Admissible;
    if steps == [] {
      EmptySound(limits);
    } else {
      var before := steps[..|steps| - 1];
      AlwaysSound(before, limits);
      match steps[|steps| - 1]
      case Admit(r) => AdmitKeeps(Exec(before), r, limits);
      case Release(uid) => ReleaseKeeps(Exec(before), uid, limits);
    }
  }

  lemma EmptySound(limits: Limits)
    ensures Sound([], limits)
  {}

  /** A reservation leaves the ledger only by a release of its replica. */
  lemma {:induction false} SlotKept(steps: seq<Step>, more: seq<Step>, r: Reservation)
    requires r in Exec(steps) && forall k :: 0 <= k < |more| ==> more[k] != Release(r.uid)
    ensures r in Exec(steps + more)
  {
    if more == [] {
      assert steps + more == steps;
    } else {
      var last := more[|more| - 1];
      SlotKept(steps, more[..|more| - 1], r);
      assert (steps + more)[..|steps + more| - 1] == steps + more[..|more| - 1];
      if last.Release? { WithoutKeeps(Exec(steps + more[..|more| - 1]), last.uid); }
    }
  }

  // ---------------------------------------------------------------- the store

  datatype Stored = Stored(ledger: Ledger, version: nat)

  datatype Saved = Fine | Conflict | Unavailable

  /** One replica's view of the shared record; everybody else acts in between, but only
      this replica's controller admits or releases it. */
  class Store {
    const limits: Limits
    const mine: Uid
    var record: Option<Stored>
    var next: nat
    ghost var log: seq<Step>

    constructor (limits: Limits, mine: Uid)
      ensures Valid() && this.limits == limits && this.mine == mine && log == []
    {
      this.limits, this.mine, record, next, log := limits, mine, None, 1, [];
    }

    ghost function Ledger(): Ledger
      reads this
    {
      if record.Some? then record.value.ledger else []
    }

    ghost predicate Valid()
      reads this
    {
      Legal(log, limits) && Ledger() == Exec(log) && 0 < next && (record.Some? ==> 0 < record.value.version < next)
    }

    /** Others may have admitted and released replicas. */
    ghost predicate Continues(before: seq<Step>)
      reads this
    {
      before <= log && forall k :: |before| <= k < |log| ==> ByOthers(log[k], mine)
    }

    /** This replica's `step` took effect, and otherwise only others acted. */
    ghost predicate Wrote(before: seq<Step>, step: Step)
      reads this
    {
      before + [step] <= log && forall k :: |before| < k < |log| ==> ByOthers(log[k], mine)
    }

    method Others()
      requires Valid()
      modifies this
      ensures Valid() && Continues(old(log)) && old(next) <= next
      ensures record == old(record) || (record.Some? && old(next) <= record.value.version)
    {
      hide Sound, Exec, Legal;
      var n: nat := *;
      while 0 < n
        invariant Valid() && Continues(old(log)) && old(next) <= next
        invariant record == old(record) || (record.Some? && old(next) <= record.value.version)
      {
        var step: Step := *;
        var ledger := if record.Some? then record.value.ledger else [];
        var allowed := match step
          case Admit(r) => Admits(ledger, r, LimitOf(limits, r.grant)) && r.uid != mine
          case Release(uid) => uid != mine && record.Some?;
        if allowed {
          if step.Admit? { AdmitsExact(ledger, step.reservation, LimitOf(limits, step.reservation.grant)); }
          Extend(log, step, limits);
          log := log + [step];
          record := Some(Stored(After(ledger, step), next));
          next := next + 1;
        }
        n := n - 1;
      }
    }

    method Load() returns (failed: bool, copy: Option<Stored>)
      requires Valid()
      modifies this
      ensures Valid() && Continues(old(log)) && old(next) <= next
      ensures !failed ==> copy == old(record)
      ensures record == old(record) || (record.Some? && old(next) <= record.value.version)
    {
      failed := *;
      copy := record;
      Others();
    }

    /** Saves `step` applied to a loaded copy; a lost answer still took effect. */
    method Save(copy: Option<Stored>, step: Step) returns (saved: Saved)
      requires Valid() && (copy.Some? ==> 0 < copy.value.version)
      requires record == copy && step.Admit? ==> Admissible(Ledger(), step.reservation, LimitOf(limits, step.reservation.grant))
      requires record.Some? && copy.Some? && record.value.version == copy.value.version ==> record == copy
      requires step.Release? ==> copy.Some?
      modifies this
      ensures Valid() && old(next) <= next
      ensures saved.Fine? ==> Wrote(old(log), step)
      ensures saved.Conflict? ==> Continues(old(log))
      ensures saved.Unavailable? ==> Continues(old(log)) || Wrote(old(log), step)
      ensures record == old(record) || (record.Some? && old(next) <= record.value.version)
    {
      hide Exec, Legal, Admissible;
      var reached: bool := *;
      var heard: bool := *;
      if record.Some? != copy.Some? || (record.Some? && record.value.version != copy.value.version) {
        Others();
        return Conflict;
      }
      assert record == copy;
      if reached {
        Extend(log, step, limits);
        log := log + [step];
        record := Some(Stored(After(if copy.Some? then copy.value.ledger else [], step), next));
        next := next + 1;
      }
      Others();
      saved := if reached && heard then Fine else Unavailable;
    }
  }

  predicate ByOthers(step: Step, mine: Uid) {
    match step case Admit(r) => r.uid != mine case Release(uid) => uid != mine
  }

  /** The scan of `Acquire`: stops at the first reservation that decides. */
  datatype Scan = Already | Busy | Counted(count: nat)

  function Scanned(l: Ledger, r: Reservation): Scan {
    if l == [] then Counted(0)
    else
      match Scanned(l[..|l| - 1], r)
      case Counted(n) =>
        var x := l[|l| - 1];
        if x.uid == r.uid then Already
        else if r.helm && x.helm then Busy
        else Counted(if x.grant == r.grant then n + 1 else n)
      case other => other
  }

  predicate Admits(l: Ledger, r: Reservation, limit: nat) {
    var s := Scanned(l, r); s.Counted? && (limit > 0 ==> s.count < limit)
  }

  lemma {:induction false} ScanExact(l: Ledger, r: Reservation)
    ensures Scanned(l, r).Counted? <==> !Holds(l, r.uid) && !(r.helm && HasHelm(l))
    ensures Scanned(l, r).Counted? ==> Scanned(l, r).count == CountGrant(l, r.grant)
    ensures Scanned(l, r).Already? ==> Holds(l, r.uid)
  {
    if l != [] {
      var rest := l[..|l| - 1];
      ScanExact(rest, r);
      assert l == rest + [l[|l| - 1]];
      if Holds(rest, r.uid) { var i :| 0 <= i < |rest| && rest[i].uid == r.uid; assert l[i].uid == r.uid; }
      if HasHelm(rest) { var i :| 0 <= i < |rest| && rest[i].helm; assert l[i].helm; }
      if Holds(l, r.uid) { var i :| 0 <= i < |l| && l[i].uid == r.uid; if i < |rest| { assert rest[i].uid == r.uid; } }
      if HasHelm(l) { var i :| 0 <= i < |l| && l[i].helm; if i < |rest| { assert rest[i].helm; } }
    }
  }

  /** The scan admits exactly what may be admitted. */
  lemma AdmitsExact(l: Ledger, r: Reservation, limit: nat)
    ensures Admits(l, r, limit) <==> Admissible(l, r, limit)
  {
    ScanExact(l, r);
  }

  /** A replica that is admitted with this provider is recognised before anything blocks it. */
  lemma {:induction false} AdmittedFound(l: Ledger, r: Reservation)
    requires r in l
    requires forall i, j :: 0 <= i < j < |l| ==> l[i].uid != l[j].uid && !(l[i].helm && l[j].helm)
    ensures Scanned(l, r).Already?
  {
    var rest := l[..|l| - 1];
    assert l == rest + [l[|l| - 1]];
    if r in rest {
      AdmittedFound(rest, r);
    } else {
      var last := l[|l| - 1];
      assert last == r;
      forall i | 0 <= i < |rest| ensures rest[i].uid != r.uid && !(rest[i].helm && r.helm) { assert l[i] == rest[i]; }
      ScanExact(rest, r);
    }
  }

  // ---------------------------------------------------------------- the operations

  const ATTEMPTS: nat := 8

  /** Only this replica's own admission or release, or steps of others. */
  ghost predicate OnlyMine(before: seq<Step>, log: seq<Step>, mine: Uid, step: Step) {
    before <= log && forall k :: |before| <= k < |log| ==> ByOthers(log[k], mine) || log[k] == step
  }

  lemma OthersKeep(before: seq<Step>, log: seq<Step>, r: Reservation, step: Step)
    requires r in Exec(before) && OnlyMine(before, log, r.uid, step) && step.Admit?
    ensures r in Exec(log)
  {
    var more := log[|before|..];
    assert log == before + more;
    forall k | 0 <= k < |more| ensures more[k] != Release(r.uid) { assert more[k] == log[|before| + k]; }
    SlotKept(before, more, r);
  }

  ghost predicate Acted(store: Store, before: seq<Step>, step: Step)
    reads store
  {
    store.Valid() && OnlyMine(before, store.log, store.mine, step)
  }

  lemma ActedOthers(store: Store, start: seq<Step>, before: seq<Step>, step: Step)
    requires OnlyMine(start, before, store.mine, step) && store.Valid() && store.Continues(before)
    ensures Acted(store, start, step)
  {
    forall k | |start| <= k < |store.log| ensures ByOthers(store.log[k], store.mine) || store.log[k] == step {
      if k < |before| { assert store.log[k] == before[k]; }
    }
  }

  lemma ActedWrote(store: Store, start: seq<Step>, before: seq<Step>, step: Step)
    requires OnlyMine(start, before, store.mine, step) && store.Valid() && store.Wrote(before, step)
    ensures Acted(store, start, step)
  {
    forall k | |start| <= k < |store.log| ensures ByOthers(store.log[k], store.mine) || store.log[k] == step {
      if k < |before| { assert store.log[k] == (before + [step])[k]; } else if k == |before| { assert store.log[k] == (before + [step])[k]; }
    }
  }

  /** What was just admitted is still there. */
  lemma WroteHolds(store: Store, before: seq<Step>, r: Reservation)
    requires store.Valid() && store.Wrote(before, Admit(r)) && r.uid == store.mine
    ensures r in store.Ledger()
  {
    assert (before + [Admit(r)])[..|before|] == before;
    assert r in Exec(before + [Admit(r)]);
    OthersKeep(before + [Admit(r)], store.log, r, Admit(r));
  }

  /** Nobody else admits this replica, so a reservation under its UID is its own. */
  lemma OwnStays(store: Store, before: seq<Step>, r: Reservation)
    requires store.Valid() && store.Continues(before) && Holds(Exec(before), r.uid) && r.uid == store.mine
    ensures Holds(store.Ledger(), r.uid)
  {
    var i :| 0 <= i < |Exec(before)| && Exec(before)[i].uid == r.uid;
    var q := Exec(before)[i];
    OthersKeep(before, store.log, q, Admit(q));
    var j :| 0 <= j < |store.Ledger()| && store.Ledger()[j] == q;
  }

  /** Admits the replica if its grant, the provider and the older replicas allow.  `at`
      is the moment of the log at which it was found not admissible. */
  method Acquire(store: Store, r: Reservation) returns (admitted: bool, failed: bool, ghost legacy: bool, ghost at: nat)
    requires store.Valid() && r.uid == store.mine
    modifies store
    ensures Acted(store, old(store.log), Admit(r))
    ensures admitted ==> !failed && Holds(store.Ledger(), r.uid)
    ensures !failed && r in old(store.Ledger()) ==> admitted
    ensures !failed && !admitted && !legacy ==> at <= |store.log| && !Admissible(Exec(store.log[..at]), r, LimitOf(store.limits, r.grant))
    ensures legacy ==> r.helm
  {
    hide Exec, Legal, Scanned, Admissible, Holds;
    legacy, at := false, 0;
    for attempt := 0 to ATTEMPTS
      invariant Acted(store, old(store.log), Admit(r))
      invariant r in old(store.Ledger()) ==> r in store.Ledger()
    {
      ghost var before := store.log;
      var copy;
      failed, copy := store.Load();
      ActedOthers(store, old(store.log), before, Admit(r));
      if failed { return false, true, false, 0; }
      var ledger := if copy.Some? then copy.value.ledger else [];
      assert ledger == Exec(before);
      ScanExact(ledger, r);
      AdmitsExact(ledger, r, LimitOf(store.limits, r.grant));
      AlwaysSound(before, store.limits);
      if r in ledger { AdmittedFound(ledger, r); }
      var scan := Scanned(ledger, r);
      if scan.Already? {
        OwnStays(store, before, r);
        return true, false, false, 0;
      }
      if !Admits(ledger, r, LimitOf(store.limits, r.grant)) {
        assert store.log[..|before|] == before;
        return false, false, false, |before|;
      }
      if r.helm {
        // Replicas older than the ledger hold the runtime if their Service exists.
        var peers: bool := *;
        var unreadable: bool := *;
        if unreadable { return false, true, false, 0; }
        if peers { return false, false, true, 0; }
      }
      ghost var middle := store.log;
      var saved := store.Save(copy, Admit(r));
      if store.Wrote(middle, Admit(r)) { ActedWrote(store, old(store.log), middle, Admit(r)); WroteHolds(store, middle, r); }
      else { ActedOthers(store, old(store.log), middle, Admit(r)); }
      match saved
      case Fine => OwnIn(store.Ledger(), r); return true, false, false, 0;
      case Unavailable => return false, true, false, 0;
      case Conflict =>
    }
    return false, true, false, 0;
  }

  lemma OwnIn(l: Ledger, r: Reservation)
    requires r in l
    ensures Holds(l, r.uid)
  {
    var i :| 0 <= i < |l| && l[i] == r;
  }

  lemma {:induction false} NotReadmitted(before: seq<Step>, log: seq<Step>, mine: Uid)
    requires !Holds(Exec(before), mine) && OnlyMine(before, log, mine, Release(mine))
    ensures !Holds(Exec(log), mine)
    decreases |log|
  {
    if |log| == |before| {
      assert log == before;
    } else {
      var rest := log[..|log| - 1];
      assert before <= rest;
      forall k | |before| <= k < |rest| ensures ByOthers(rest[k], mine) || rest[k] == Release(mine) { assert rest[k] == log[k]; }
      NotReadmitted(before, rest, mine);
      var last := log[|log| - 1];
      assert ByOthers(last, mine) || last == Release(mine);
      if last.Release? { WithoutKeeps(Exec(rest), last.uid); GoneStays(Exec(rest), last.uid, mine); }
      else { HoldsAppended(Exec(rest), last.reservation, mine); }
    }
  }

  lemma HoldsAppended(l: Ledger, r: Reservation, uid: Uid)
    ensures Holds(l + [r], uid) ==> Holds(l, uid) || r.uid == uid
  {
    if Holds(l + [r], uid) {
      var i :| 0 <= i < |l + [r]| && (l + [r])[i].uid == uid;
      if i < |l| { assert l[i].uid == uid; }
    }
  }

  lemma GoneStays(l: Ledger, uid: Uid, mine: Uid)
    ensures Holds(Without(l, uid), mine) ==> Holds(l, mine)
  {
    WithoutKeeps(l, uid);
    if Holds(Without(l, uid), mine) {
      var i :| 0 <= i < |Without(l, uid)| && Without(l, uid)[i].uid == mine;
      var j :| 0 <= j < |l| && l[j] == Without(l, uid)[i];
    }
  }

  lemma Removed(l: Ledger, uid: Uid)
    ensures !Holds(Without(l, uid), uid)
  {
    WithoutKeeps(l, uid);
  }

  lemma ReleasedStays(store: Store, before: seq<Step>, middle: seq<Step>)
    requires store.Valid() && before <= middle <= store.log && !Holds(Exec(middle), store.mine)
    requires forall k :: |middle| <= k < |store.log| ==> ByOthers(store.log[k], store.mine)
    ensures !Holds(store.Ledger(), store.mine)
  {
    NotReadmitted(middle, store.log, store.mine);
  }

  /** Releases the replica; the emptied ledger is kept. */
  method Free(store: Store) returns (failed: bool)
    requires store.Valid()
    modifies store
    ensures Acted(store, old(store.log), Release(store.mine))
    ensures !failed ==> !Holds(store.Ledger(), store.mine)
  {
    hide Exec, Legal, Without, Holds;
    for attempt := 0 to ATTEMPTS
      invariant Acted(store, old(store.log), Release(store.mine))
    {
      ghost var before := store.log;
      var copy;
      failed, copy := store.Load();
      ActedOthers(store, old(store.log), before, Release(store.mine));
      if failed { return; }
      if copy.None? {
        assert !Holds(Exec(before), store.mine) by { NobodyHolds(store.mine); }
        ReleasedStays(store, before, before);
        return false;
      }
      var items := new Reservation[|copy.value.ledger|](i requires 0 <= i < |copy.value.ledger| => copy.value.ledger[i]);
      assert items[..] == copy.value.ledger;
      var n, found := Compact(items, store.mine);
      if !found {
        ReleasedStays(store, before, before);
        return false;
      }
      // The compacted prefix is what gets saved.
      assert items[..n] == After(copy.value.ledger, Release(store.mine));
      ghost var middle := store.log;
      var saved := store.Save(copy, Release(store.mine));
      if store.Wrote(middle, Release(store.mine)) {
        ActedWrote(store, old(store.log), middle, Release(store.mine));
        Removed(Exec(middle), store.mine);
        WroteReleased(middle, store.mine);
        ReleasedStays(store, middle, middle + [Release(store.mine)]);
      } else {
        ActedOthers(store, old(store.log), middle, Release(store.mine));
      }
      match saved
      case Fine => return false;
      case Unavailable => return true;
      case Conflict =>
    }
    return true;
  }

  lemma NobodyHolds(uid: Uid)
    ensures !Holds([], uid)
  {}

  lemma WroteReleased(before: seq<Step>, uid: Uid)
    ensures Exec(before + [Release(uid)]) == Without(Exec(before), uid)
  {
    assert (before + [Release(uid)])[..|before|] == before;
  }
}
