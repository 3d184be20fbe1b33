/** The API as the mirror controller sees it: every call is one atomic read or write,
    may fail, may take effect although its answer is lost, and gives everyone else a
    chance to act before it returns. */
module MirrorCluster {
  import opened Common
  import opened MirrorProtocol
  import opened MirrorTraces

  /** `t` is what can be stored once `w` was issued in `s`. */
  ghost predicate Wrote(s: State, w: Write, t: State, failed: bool) {
    Rely(Apply(s, w), t) || (failed && Rely(s, t))
  }

  lemma RequestGone(s: State, t: State, name: Name, failed: bool)
    requires Inv(s) && Wrote(s, DeleteRequest(name), t, failed)
    ensures Rely(s, t)
    ensures !failed && name in s.requests ==> name in t.requests && t.requests[name].uid == s.requests[name].uid ==> t.requests[name].deleting
    ensures !failed && name !in s.requests ==> name in t.requests ==> s.next <= t.requests[name].uid
  {
    var m := Apply(s, DeleteRequest(name));
    OutsideWriteSound(s, DeleteRequest(name));
    if Rely(m, t) { RelyTransitive(s, m, t); }
  }

  class Cluster {
    var s: State
    /** A calm cluster answers every call and nobody else acts; used to state progress. */
    const calm: bool
    /** Everything that happened so far, as a run of the protocol. */
    ghost const origin: State
    ghost var log: seq<Step>

    /** What happened is a legal run; every theorem about runs applies to it. */
    ghost predicate Logged()
      reads this
    {
      Recorded(origin, log, s)
    }

    constructor (initial: State, calm: bool)
      requires Start(initial)
      ensures s == initial && origin == initial && log == [] && this.calm == calm && Inv(s) && Logged()
    {
      origin := initial;
      log := [];
      s := initial;
      this.calm := calm;
    }

    method Environment()
      requires Inv(s)
      requires Logged()
      modifies this
      ensures Logged() && old(log) <= log
      ensures Inv(s) && Rely(old(s), s) && s.made == old(s).made
      ensures calm ==> s == old(s)
    {
      hide Inv, Rely, Recorded, After, Happen;
      var n: nat := *;
      SelfRely(s);
      while 0 < n && !calm
        invariant Inv(s) && Rely(old(s), s) && Logged() && old(log) <= log && s.made == old(s).made
        invariant calm ==> s == old(s)
      {
        var e: Event := *;
        ghost var before := s;
        RecordStep(origin, log, s, Outside(e));
        log := log + [Outside(e)];
        s := Happen(s, e);
        Outsider(before, e);
        EventKeeps(before, e);
        RelyTransitive(old(s), before, s);
        n := n - 1;
      }
    }

    /** One write with an arbitrary outcome; the answer is an error unless it was Done. */
    method Issue(w: Write) returns (failed: bool)
      requires Inv(s) && Enabled(s, w)
      requires Logged()
      modifies this
      ensures Logged() && old(log) <= log
      ensures Inv(s) && Wrote(old(s), w, s, failed) && (s.made == old(s).made || s.made == Apply(old(s), w).made)
      ensures calm ==> !failed && s == Apply(old(s), w)
    {
      var outcome: Outcome := *;
      if calm { outcome := Done; }
      ghost var before := s;
      WriteKeeps(s, w);
      if outcome != Rejected {
        RecordStep(origin, log, s, Inside(w));
        log := log + [Inside(w)];
        s := Apply(s, w);
      }
      Environment();
      failed := outcome != Done;
    }

    method LoadParent() returns (r: Read<Mirror>)
      requires Inv(s)
      requires Logged()
      modifies this
      ensures Logged() && old(log) <= log
      ensures Inv(s) && Rely(old(s), s) && (calm ==> s == old(s) && !r.Unreadable?)
      ensures r.Found? ==> old(s).parent == Some(r.value)
      ensures r.Missing? ==> old(s).parent.None?
    {
      var ok: bool := *;
      r := if !ok && !calm then Unreadable else if s.parent.Some? then Found(s.parent.value) else Missing;
      Environment();
    }

    method LoadRun(uid: Uid) returns (r: Read<Versioned>)
      requires Inv(s)
      requires Logged()
      modifies this
      ensures Logged() && old(log) <= log
      ensures Inv(s) && Rely(old(s), s) && (calm ==> s == old(s) && !r.Unreadable?)
      ensures r.Found? ==> uid in old(s).runs && old(s).runs[uid] == r.value
      ensures r.Missing? ==> uid !in old(s).runs
    {
      var ok: bool := *;
      r := if !ok && !calm then Unreadable else if uid in s.runs then Found(s.runs[uid]) else Missing;
      Environment();
    }

    method GetRequest(name: Name) returns (r: Read<Request>)
      requires Inv(s)
      requires Logged()
      modifies this
      ensures Logged() && old(log) <= log
      ensures Inv(s) && Rely(old(s), s) && (calm ==> s == old(s) && !r.Unreadable?)
      ensures r.Found? ==> name in old(s).requests && old(s).requests[name] == r.value
      ensures r.Missing? ==> name !in old(s).requests
    {
      var ok: bool := *;
      r := if !ok && !calm then Unreadable else if name in s.requests then Found(s.requests[name]) else Missing;
      Environment();
    }

    method ListRequests() returns (r: Read<map<Name, Request>>)
      requires Inv(s)
      requires Logged()
      modifies this
      ensures Logged() && old(log) <= log
      ensures Inv(s) && Rely(old(s), s) && (calm ==> s == old(s) && !r.Unreadable?) && !r.Missing?
      ensures r.Found? ==> r.value == old(s).requests
    {
      var ok: bool := *;
      r := if !ok && !calm then Unreadable else Found(s.requests);
      Environment();
    }

    method Get(key: Key) returns (r: Read<Object>)
      requires Inv(s)
      requires Logged()
      modifies this
      ensures Logged() && old(log) <= log && s.made == old(s).made
      ensures Inv(s) && Rely(old(s), s) && (calm ==> s == old(s) && !r.Unreadable?)
      ensures r.Found? ==> key in old(s).objects && old(s).objects[key] == r.value
      ensures r.Missing? ==> key !in old(s).objects
    {
      var ok: bool := *;
      r := if !ok && !calm then Unreadable else if key in s.objects then Found(s.objects[key]) else Missing;
      Environment();
    }

    method Now() returns (t: Time)
      requires Inv(s)
      requires Logged()
      modifies this
      ensures Logged() && old(log) <= log
      ensures Inv(s) && Rely(old(s), s) && (calm ==> s == old(s))
      ensures t == old(s).now
    {
      t := s.now;
      Environment();
    }

    /** A conditional delete: refused while another object has taken the name.  An object
        that is already gone counts as deleted. */
    method DeleteIf(key: Key, uid: Uid, w: Write) returns (failed: bool)
      requires Inv(s) && Enabled(s, w)
      requires (w.DeleteObject? || w.DeleteCapture?) && w.key == key
      requires Logged()
      modifies this
      ensures Logged() && old(log) <= log
      ensures Inv(s) && Wrote(old(s), w, s, failed)
      ensures calm && key in old(s).objects && old(s).objects[key].uid == uid ==> !failed && s == Apply(old(s), w)
    {
      if key in s.objects && s.objects[key].uid != uid {
        Environment();
        failed := true;
      } else {
        failed := Issue(w);
      }
    }

    /** Deleting a request, with the same precondition. */
    method DismissRequest(name: Name, uid: Uid) returns (failed: bool)
      requires Inv(s) && uid < s.next
      requires Logged()
      modifies this
      ensures Logged() && old(log) <= log
      ensures Inv(s) && Rely(old(s), s)
      ensures !failed ==> name in s.requests && s.requests[name].uid == uid ==> s.requests[name].deleting
      ensures calm && name in old(s).requests && old(s).requests[name].uid == uid ==>
        !failed && s == Apply(old(s), DeleteRequest(name))
    {
      ghost var before := s;
      OutsideWriteSound(s, DeleteRequest(name));
      if name in s.requests && s.requests[name].uid != uid {
        Environment();
        failed := true;
      } else {
        failed := Issue(DeleteRequest(name));
        RequestGone(before, s, name, failed);
      }
    }

    /** Patching a finalizer is not conditional on the UID. */
    method PatchFinalizer(name: Name, present: bool) returns (failed: bool)
      requires Inv(s)
      requires Logged()
      modifies this
      ensures Logged() && old(log) <= log
      ensures Inv(s) && Rely(old(s), s)
      ensures calm ==> !failed && s == Apply(old(s), SetFinalizer(name, present))
    {
      ghost var before := s;
      OutsideWriteSound(s, SetFinalizer(name, present));
      failed := Issue(SetFinalizer(name, present));
      if Rely(Apply(before, SetFinalizer(name, present)), s) {
        RelyTransitive(before, Apply(before, SetFinalizer(name, present)), s);
      }
    }

    /** Save with optimistic concurrency: `version` zero creates, otherwise it must be current. */
    method Save(uid: Uid, r: Run, version: nat, change: RunChange) returns (failed: bool, saved: Versioned)
      requires Inv(s)
      requires (if uid in s.runs then s.runs[uid].version == version else version == 0) ==> Enabled(s, SaveRun(uid, r, change))
      requires Logged()
      modifies this
      ensures Logged() && old(log) <= log
      ensures Inv(s)
      ensures Wrote(old(s), SaveRun(uid, r, change), s, failed)
      ensures !failed ==> (if uid in old(s).runs then old(s).runs[uid].version == version else version == 0)
      ensures !failed ==> Rely(Apply(old(s), SaveRun(uid, r, change)), s) && saved == Versioned(r, old(s).next)
      ensures calm && (if uid in old(s).runs then old(s).runs[uid].version == version else version == 0) ==>
        !failed && s == Apply(old(s), SaveRun(uid, r, change))
    {
      saved := Versioned(r, s.next);
      if (if uid in s.runs then s.runs[uid].version == version else version == 0) {
        failed := Issue(SaveRun(uid, r, change));
      } else {
        Environment();
        failed := true;
      }
    }

    /** Whether the mirror is being deleted or has expired. */
    method IsEnding() returns (r: bool)
      requires Inv(s)
      requires Logged()
      modifies this
      ensures Logged() && old(log) <= log
      ensures Inv(s) && Rely(old(s), s) && r == old(s).ending
    {
      r := s.ending;
      Environment();
    }

    /** Creating an object; refused while the name is taken. */
    method Create(key: Key, owner: Uid, op: Op) returns (failed: bool, live: Object)
      requires Inv(s) && (key !in s.objects ==> Enabled(s, CreateObject(key, owner, op)))
      requires Logged()
      modifies this
      ensures Logged() && old(log) <= log
      ensures Inv(s) && Rely(old(s), s)
      ensures live == Object(old(s).next, owner, op, false, false)
      ensures !failed ==> old(s).next < s.next
      ensures s.made == old(s).made || s.made == old(s).made + {old(s).next}
    {
      hide Inv, Rely, Recorded, Apply, Enabled;
      live := Object(s.next, owner, op, false, false);
      ghost var before := s;
      if key in s.objects {
        Environment();
        failed := true;
      } else {
        failed := Issue(CreateObject(key, owner, op));
        ObjectCreated(before, key, owner, op, s);
      }
    }
  }

  lemma SelfRely(s: State)
    requires Inv(s)
    ensures Rely(s, s)
  {
    RelyReflexive(s);
  }

  lemma Outsider(s: State, e: Event)
    ensures After(s, Outside(e)) == Happen(s, e) && Happen(s, e).made == s.made
  {
    hide AfterRequest, AfterObject, Fits;
  }

  lemma ObjectCreated(s: State, key: Key, owner: Uid, op: Op, t: State)
    requires Inv(s) && (Rely(Apply(s, CreateObject(key, owner, op)), t) || Rely(s, t))
    ensures Rely(s, t)
    ensures Rely(Apply(s, CreateObject(key, owner, op)), t) ==> s.next < t.next
    ensures Apply(s, CreateObject(key, owner, op)).made == s.made || Apply(s, CreateObject(key, owner, op)).made == s.made + {s.next}
  {
    OutsideWriteSound(s, CreateObject(key, owner, op));
    if Rely(Apply(s, CreateObject(key, owner, op)), t) { RelyTransitive(s, Apply(s, CreateObject(key, owner, op)), t); }
  }
}
