/** The host and guest APIs as the experiment controller sees them. */
module ChaosGuest {
  import opened Common
  import opened ChaosProtocol
  import opened ChaosRuns

  /** `t` is what may hold once `w` was issued in `s`. */
  ghost predicate Wrote(s: State, w: Write, t: State, failed: bool) {
    Rely(Apply(s, w), t) || (failed && Rely(s, t))
  }

  /** Since then the controller issued nothing, or nothing but `w`. */
  ghost predicate NothingIssued(before: seq<Step>, after: seq<Step>) {
    before <= after && forall l :: |before| <= l < |after| ==> after[l].Outside?
  }

  ghost predicate OnlyIssued(before: seq<Step>, after: seq<Step>, w: Write) {
    before <= after && forall l :: |before| <= l < |after| && after[l].Inside? ==> after[l].write == w
  }

  class Guest {
    ghost const origin: State
    ghost var log: seq<Step>
    var s: State

    constructor (initial: State)
      requires Start(initial)
      ensures s == initial && origin == initial && log == [] && Valid()
    {
      s := initial;
      origin := initial;
      log := [];
      new;
      StartSound(initial);
    }

    /** What happened so far is a legal run that has reached a sound state. */
    ghost predicate Valid()
      reads this
    {
      Inv(s) && Recorded(origin, log, s)
    }

    method Environment()
      requires Valid()
      modifies this
      ensures Valid() && Rely(old(s), s) && NothingIssued(old(log), log)
    {
      hide Inv, Rely, Recorded;
      var n: nat := *;
      NumberedIn(s);
      RelyReflexive(s);
      while 0 < n
        invariant Valid() && Rely(old(s), s) && NothingIssued(old(log), log)
      {
        var e: Event := *;
        ghost var before := s;
        EventKeeps(s, e);
        RecordStep(origin, log, s, Outside(e));
        log := log + [Outside(e)];
        s := Happen(s, e);
        RelyTransitive(old(s), before, s);
        n := n - 1;
      }
    }

    /** One write with an arbitrary outcome; a lost answer still took effect. */
    method Issue(w: Write) returns (failed: bool)
      requires Valid() && Enabled(s, w)
      modifies this
      ensures Valid() && Wrote(old(s), w, s, failed) && OnlyIssued(old(log), log, w)
    {
      hide Inv, Rely, Recorded, Apply;
      var reached: bool := *;
      var heard: bool := *;
      if reached {
        WriteKeeps(s, w);
        RecordStep(origin, log, s, Inside(w));
        log := log + [Inside(w)];
        s := Apply(s, w);
      }
      Environment();
      failed := !(reached && heard);
    }

    /** The record is exactly the stored one while its version is current. */
    method SaveRecord(uid: Uid, version: nat, w: Write) returns (failed: bool, saved: nat)
      requires Valid() && (uid in s.records && s.records[uid].version == version ==> Enabled(s, w))
      modifies this
      ensures Valid() && OnlyIssued(old(log), log, w)
      ensures if uid in old(s).records && old(s).records[uid].version == version then Wrote(old(s), w, s, failed) else failed && Rely(old(s), s)
      ensures saved == old(s).next
    {
      saved := s.next;
      if uid in s.records && s.records[uid].version == version {
        failed := Issue(w);
      } else {
        Environment();
        failed := true;
      }
    }

    method LoadRecord(uid: Uid) returns (r: Read<Record>)
      requires Valid()
      modifies this
      ensures Valid() && Rely(old(s), s) && old(log) <= log
      ensures r.Found? ==> uid in old(s).records && old(s).records[uid] == r.value
      ensures r.Missing? ==> uid !in old(s).records
    {
      var ok: bool := *;
      r := if !ok then Unreadable else if uid in s.records then Found(s.records[uid]) else Missing;
      Environment();
    }

    method GetRequest(uid: Uid) returns (r: Read<Request>)
      requires Valid()
      modifies this
      ensures Valid() && Rely(old(s), s) && old(log) <= log
      ensures r.Found? ==> uid in old(s).requests && old(s).requests[uid] == r.value
      ensures r.Missing? ==> uid !in old(s).requests
    {
      var ok: bool := *;
      r := if !ok then Unreadable else if uid in s.requests then Found(s.requests[uid]) else Missing;
      Environment();
    }

    method ListRequests() returns (r: Read<map<Uid, Request>>)
      requires Valid()
      modifies this
      ensures Valid() && Rely(old(s), s) && old(log) <= log && !r.Missing?
      ensures r.Found? ==> r.value == old(s).requests
    {
      var ok: bool := *;
      r := if !ok then Unreadable else Found(s.requests);
      Environment();
    }

    /** Reads also tell the moment that was observed. */
    method Get(key: Key) returns (r: Read<Object>, at: nat)
      requires Valid()
      modifies this
      ensures Valid() && Rely(old(s), s) && old(log) <= log && at == old(s).next - 1
      ensures r.Found? ==> key in old(s).world.objects && old(s).world.objects[key] == r.value
      ensures r.Missing? ==> key !in old(s).world.objects
    {
      NumberedIn(s);
      var ok: bool := *;
      r := if !ok then Unreadable else if key in s.world.objects then Found(s.world.objects[key]) else Missing;
      at := s.next - 1;
      Environment();
    }

    /** Whether a namespace still is the one an action was prepared for. */
    method IsCurrent(a: Action) returns (r: Read<bool>, at: nat)
      requires Valid()
      modifies this
      ensures Valid() && Rely(old(s), s) && NothingIssued(old(log), log) && at == old(s).next - 1 && !r.Missing?
      ensures r.Found? ==> (r.value <==> Current(old(s).world, a))
    {
      NumberedIn(s);
      var ok: bool := *;
      r := if !ok then Unreadable
           else Found(a.kind == HostPolicy || (a.key.ns in s.world.namespaces && s.world.namespaces[a.key.ns] == a.nsUid));
      at := s.next - 1;
      Environment();
    }

    method ListPhysical() returns (r: Read<set<(Name, Name)>>, at: nat)
      requires Valid()
      modifies this
      ensures Valid() && Rely(old(s), s) && old(log) <= log && at == old(s).next - 1 && !r.Missing?
      ensures r.Found? ==> r.value == old(s).world.physical
    {
      NumberedIn(s);
      var ok: bool := *;
      r := if !ok then Unreadable else Found(s.world.physical);
      at := s.next - 1;
      Environment();
    }

    /** A create is refused while the name is taken, or when its namespace does not exist. */
    method CreateIf(a: Action, w: Write) returns (failed: bool, created: Uid)
      requires Valid() && w.Create? && (a.key !in s.world.objects && Placeable(s.world, a) ==> Enabled(s, w))
      modifies this
      ensures Valid() && old(log) <= log
      ensures if a.key !in old(s).world.objects && Placeable(old(s).world, a) then Wrote(old(s), w, s, failed) else failed && Rely(old(s), s)
      ensures created == old(s).next
    {
      created := s.next;
      if a.key in s.world.objects || !(a.kind == HostPolicy || a.key.ns in s.world.namespaces) {
        Environment();
        failed := true;
      } else {
        failed := Issue(w);
      }
    }

    /** A conditional patch or delete: refused unless the object is exactly the one seen. */
    method ChangeIf(key: Key, seen: Object, w: Write) returns (failed: bool)
      requires Valid() && (key in s.world.objects && s.world.objects[key].version == seen.version ==> Enabled(s, w))
      modifies this
      ensures Valid() && old(log) <= log
      ensures if key in old(s).world.objects && old(s).world.objects[key].version == seen.version then Wrote(old(s), w, s, failed)
              else Rely(old(s), s) && (failed || (w.Remove? && key !in old(s).world.objects))
    {
      if key !in s.world.objects {
        Environment();
        failed := !w.Remove?;
      } else if s.world.objects[key].version != seen.version {
        Environment();
        failed := true;
      } else {
        failed := Issue(w);
      }
    }
  }

  lemma NumberedIn(s: State)
    requires Inv(s)
    ensures Numbered(s)
  {}
}
