/** Runs from the start that show where a stronger statement would be false of the code. */
module MirrorWitness {
  import opened Common
  import opened MirrorProtocol
  import opened MirrorTraces
  import opened MirrorHistory

  // ---------------------------------------------------------------- one step more

  lemma Reached(origin: State, log: seq<Step>, s: State)
    requires Recorded(origin, log, s)
    ensures Numbered(s)
  {
    hide Start, Legal, Numbered, Exec;
    AlwaysSound(origin, log);
  }

  lemma WriteStep(origin: State, log: seq<Step>, s: State, w: Write) returns (more: seq<Step>)
    requires Recorded(origin, log, s) && Enabled(s, w)
    ensures Recorded(origin, more, Apply(s, w)) && more == log + [Inside(w)]
  {
    hide Recorded, Enabled, Apply;
    more := log + [Inside(w)];
    RecordStep(origin, log, s, Inside(w));
  }

  lemma EventStep(origin: State, log: seq<Step>, s: State, e: Event) returns (more: seq<Step>)
    requires Recorded(origin, log, s)
    ensures Recorded(origin, more, Happen(s, e))
  {
    hide Recorded, Happen;
    more := log + [Outside(e)];
    RecordStep(origin, log, s, Outside(e));
  }

  lemma ParentStep(origin: State, log: seq<Step>, s: State, m: Mirror, change: ParentChange) returns (more: seq<Step>, t: State)
    requires Recorded(origin, log, s) && ParentEnabled(s, m, change) && (change.RunEnrolled? ==> NamedOnly(s, m.runs[|Journal(s).runs|]))
    ensures Recorded(origin, more, t) && t == s.(parent := Some(m)) && more == log + [Inside(SaveParent(m, change))]
  {
    hide Recorded, ParentEnabled, NamedOnly;
    t := Apply(s, SaveParent(m, change));
    more := WriteStep(origin, log, s, SaveParent(m, change));
  }

  lemma SaveStep(origin: State, log: seq<Step>, s: State, u: Uid, r: Run, change: RunChange) returns (more: seq<Step>, t: State)
    requires Recorded(origin, log, s) && RunEnabled(s, u, r, change) && ClaimsNumbered(r, s.next)
    ensures Recorded(origin, more, t)
    ensures t == s.(runs := s.runs[u := Versioned(r, s.next)], next := s.next + 1, late := t.late)
    ensures t.late == if change == ResetAdmitted && r.revision in s.released then s.late + {u} else s.late
  {
    hide Recorded, RunEnabled, ClaimsNumbered;
    t := Apply(s, SaveRun(u, r, change));
    more := WriteStep(origin, log, s, SaveRun(u, r, change));
  }

  /** A save that only completes the inventory of a run. */
  lemma BookStep(origin: State, log: seq<Step>, s: State, u: Uid, r: Run) returns (more: seq<Step>, t: State)
    requires Recorded(origin, log, s) && u in s.runs && Enrolled(Journal(s), u) && ClaimsNumbered(r, s.next)
    requires SameOutcome(s.runs[u].run, r) && s.runs[u].run.phase == r.phase && |r.captures| == |s.runs[u].run.captures|
    ensures Recorded(origin, more, t) && t == s.(runs := s.runs[u := Versioned(r, s.next)], next := s.next + 1)
  {
    hide Recorded, ClaimsNumbered, Enrolled;
    more, t := SaveStep(origin, log, s, u, r, Bookkept);
  }

  lemma CreateStep(origin: State, log: seq<Step>, s: State, key: Key, u: Uid, op: Op) returns (more: seq<Step>, t: State)
    requires Recorded(origin, log, s) && Enabled(s, CreateObject(key, u, op)) && key !in s.objects
    ensures Recorded(origin, more, t)
    ensures t == s.(objects := s.objects[key := Object(s.next, u, op, false, false)], next := s.next + 1,
                    made := if key.kind == Generation then s.made + {s.next} else s.made)
  {
    hide Recorded, Enabled;
    t := Apply(s, CreateObject(key, u, op));
    more := WriteStep(origin, log, s, CreateObject(key, u, op));
  }

  lemma PlaceStep(origin: State, log: seq<Step>, s: State, key: Key) returns (more: seq<Step>, t: State)
    requires Recorded(origin, log, s) && key !in s.objects
    ensures Recorded(origin, more, t)
    ensures t == s.(objects := s.objects[key := Object(s.next, 0, 0, false, false)], next := s.next + 1)
  {
    hide Recorded;
    t := Happen(s, OnObject(Place(key, 0, 0)));
    more := EventStep(origin, log, s, OnObject(Place(key, 0, 0)));
  }

  /** An object is asked to go and then does. */
  lemma DeleteStep(origin: State, log: seq<Step>, s: State, key: Key, u: Uid) returns (more: seq<Step>, t: State)
    requires Recorded(origin, log, s) && Enabled(s, DeleteObject(key, u, false))
    ensures Recorded(origin, more, t) && t == s.(objects := s.objects - {key}, next := s.next + 2)
  {
    hide Recorded, Enabled;
    var m := Apply(s, DeleteObject(key, u, false));
    more := WriteStep(origin, log, s, DeleteObject(key, u, false));
    t := Happen(m, OnObject(Vanish(key)));
    more := EventStep(origin, more, m, OnObject(Vanish(key)));
    assert m.objects - {key} == s.objects - {key};
  }

  lemma VanishStep(origin: State, log: seq<Step>, s: State, key: Key) returns (more: seq<Step>, t: State)
    requires Recorded(origin, log, s)
    ensures Recorded(origin, more, t) && t == s.(objects := s.objects - {key}, next := s.next + 1)
  {
    hide Recorded;
    t := Happen(s, OnObject(Vanish(key)));
    more := EventStep(origin, log, s, OnObject(Vanish(key)));
  }

  lemma ReleaseStep(origin: State, log: seq<Step>, s: State, key: Key, u: Uid) returns (more: seq<Step>, t: State)
    requires Recorded(origin, log, s) && Enabled(s, DeleteCapture(key, u, false)) && key in s.objects
    ensures Recorded(origin, more, t)
    ensures t == s.(objects := s.objects[key := s.objects[key].(deleting := true)], next := s.next + 1, released := s.released + {u})
  {
    hide Recorded, Enabled;
    t := Apply(s, DeleteCapture(key, u, false));
    more := WriteStep(origin, log, s, DeleteCapture(key, u, false));
  }

  // ---------------------------------------------------------------- one run, from Queued to a candidate

  predicate Waiting(r: Run, u: Uid) { r == Run(r.owner, Queued, u, 0, 0, false, [], 0, 0, [], [], []) }

  function SnapshotKey(u: Uid): Key { Key(Snapshot, 2 * u) }
  function ContentKey(u: Uid): Key { Key(Content, 2 * u) }
  function ImportedSnapshot(u: Uid): Key { Key(Snapshot, 2 * u + 1) }
  function ImportedContent(u: Uid): Key { Key(Content, 2 * u + 1) }

  /** The objects of one run: those of its capture, of its import, and its generation. */
  function KeysOf(u: Uid): set<Key> {
    {SnapshotKey(u), ContentKey(u), ImportedSnapshot(u), ImportedContent(u), GenerationKey(u)}
  }

  function OneCapture(op: Op, snapshot: Uid, bound: Name, content: Uid, handle: Uid, at: Time, u: Uid): seq<Capture> {
    [Capture(Claim(SnapshotKey(u), op, snapshot), Claim(Key(Content, bound), op, content), handle, at)]
  }

  function OneImport(content: Uid, snapshot: Uid, u: Uid): seq<Import> {
    [Import(Claim(ImportedSnapshot(u), 7, snapshot), Claim(ImportedContent(u), 7, content), 0)]
  }

  /** Run `u` is the pending one and its names are free. */
  ghost predicate Turn(s: State, u: Uid) {
    s.parent.Some? && Journal(s).pending == u && Enrolled(Journal(s), u) && u in s.runs && u !in s.released
  }

  /** Where work on run `u` has led from `s`: to its record, more objects and the time of
      the last Sync. */
  function Stage(s: State, u: Uid, r: Run, version: nat, objects: map<Key, Object>, next: Uid, made: set<Uid>): State {
    s.(parent := Some(Journal(s).(lastSync := s.now)), runs := s.runs[u := Versioned(r, version)],
       objects := s.objects + objects, next := next, made := made)
  }

  lemma StageSave(origin: State, log: seq<Step>, s: State, u: Uid, r: Run, version: nat, objects: map<Key, Object>, next: Uid, made: set<Uid>,
                  later: Run, change: RunChange) returns (more: seq<Step>)
    requires Turn(s, u) && Recorded(origin, log, Stage(s, u, r, version, objects, next, made)) && ClaimsNumbered(later, next)
    requires change in {Bookkept, CaptureStarted, CaptureFinished, CandidateReady}
    requires change == CaptureFinished || SameOutcome(r, later)
    requires change == Bookkept ==> later.phase == r.phase && |later.captures| == |r.captures|
    requires change == CaptureStarted ==> r.phase == Queued && later.phase == Capturing && later.captures != []
    requires change == CaptureFinished ==> r.phase == Capturing && later.phase == Restoring && SameOutcome(r.(capturedAt := later.capturedAt), later)
    requires change == CaptureFinished ==> later.capturedAt != 0 && Taken(later, |later.captures|) && later.capturedAt == Latest(later.captures)
    requires change == CandidateReady ==> r.phase == Restoring && later.phase == AwaitingActivation && r.child != 0
    ensures Recorded(origin, more, Stage(s, u, later, next, objects, next + 1, made))
  {
    hide Recorded, ClaimsNumbered, Taken, Latest;
    var t := Stage(s, u, r, version, objects, next, made);
    assert Enrolled(Journal(t), u) by { Noted(s, t, u); }
    hide Enrolled;
    more := WriteStep(origin, log, t, SaveRun(u, later, change));
    assert s.runs[u := Versioned(r, version)][u := Versioned(later, next)] == s.runs[u := Versioned(later, next)];
  }

  lemma StageCreate(origin: State, log: seq<Step>, s: State, u: Uid, r: Run, version: nat, objects: map<Key, Object>, next: Uid, made: set<Uid>,
                    key: Key, op: Op) returns (more: seq<Step>)
    requires Turn(s, u) && Recorded(origin, log, Stage(s, u, r, version, objects, next, made)) && key !in s.objects && key !in objects
    requires key.kind == Generation ==> key == GenerationKey(u) && r.phase == Restoring && r.child == 0 && op == r.operation != 0
    requires key.kind == Generation && s.helm ==> Journal(s).active == 0 && forall v :: v != u ==> !ChildPresent(s, v)
    requires forall k :: k in objects ==> k.kind != Generation
    ensures Recorded(origin, more, Stage(s, u, r, version, objects[key := Object(next, u, op, false, false)], next + 1,
                                         if key.kind == Generation then made + {next} else made))
  {
    hide Recorded, Enrolled;
    var t := Stage(s, u, r, version, objects, next, made);
    if key.kind == Generation && s.helm { OthersStay(s, u, r, version, objects, next, made); }
    hide OthersRetired;
    more, t := CreateStep(origin, log, t, key, u, op);
    assert (s.objects + objects)[key := Object(next, u, op, false, false)] == s.objects + objects[key := Object(next, u, op, false, false)];
  }

  lemma OthersStay(s: State, u: Uid, r: Run, version: nat, objects: map<Key, Object>, next: Uid, made: set<Uid>)
    requires forall k :: k in objects ==> k.kind != Generation
    requires forall v :: v != u ==> !ChildPresent(s, v)
    ensures OthersRetired(Stage(s, u, r, version, objects, next, made), u)
  {
    var t := Stage(s, u, r, version, objects, next, made);
    forall v | v != u ensures !ChildPresent(t, v) { assert ChildPresent(t, v) == ChildPresent(s, v); }
  }

  lemma StagePlace(origin: State, log: seq<Step>, s: State, u: Uid, r: Run, version: nat, objects: map<Key, Object>, next: Uid, made: set<Uid>, key: Key)
    returns (more: seq<Step>)
    requires Recorded(origin, log, Stage(s, u, r, version, objects, next, made)) && key !in s.objects && key !in objects
    ensures Recorded(origin, more, Stage(s, u, r, version, objects[key := Object(next, 0, 0, false, false)], next + 1, made))
  {
    hide Recorded;
    var t := Stage(s, u, r, version, objects, next, made);
    more, t := PlaceStep(origin, log, t, key);
    assert (s.objects + objects)[key := Object(next, 0, 0, false, false)] == s.objects + objects[key := Object(next, 0, 0, false, false)];
  }

  lemma StageStart(origin: State, log: seq<Step>, s: State, u: Uid) returns (more: seq<Step>)
    requires Turn(s, u) && Recorded(origin, log, s)
    ensures Recorded(origin, more, Stage(s, u, s.runs[u].run, s.runs[u].version, map[], s.next, s.made))
  {
    hide Recorded;
    var t;
    more, t := ParentStep(origin, log, s, Journal(s).(lastSync := s.now), SyncNoted);
    assert s.runs[u := Versioned(s.runs[u].run, s.runs[u].version)] == s.runs;
    assert s.objects + map[] == s.objects;
  }

  lemma Noted(s: State, t: State, u: Uid)
    requires s.parent.Some? && t.parent.Some? && Journal(t).runs == Journal(s).runs
    ensures Enrolled(Journal(t), u) == Enrolled(Journal(s), u)
  {}

  lemma OneNumbered(r: Run, next: Uid, op: Op, snapshot: Uid, bound: Name, content: Uid, handle: Uid, at: Time, u: Uid)
    requires r.captures == OneCapture(op, snapshot, bound, content, handle, at, u) && snapshot < next && content < next
    requires r.volumes == [] && r.policies == []
    requires r.imports == [] || exists a: nat, b: nat :: a < next && b < next && r.imports == OneImport(a, b, u)
    ensures ClaimsNumbered(r, next)
  {}

  /** A run while it is captured. */
  function Shooting(owner: Name, u: Uid, snapshot: Uid, bound: Name, content: Uid, handle: Uid, at: Time): Run {
    Run(owner, Capturing, u, 0, 0, true, OneCapture(8, snapshot, bound, content, handle, at, u), 0, 0, [], [], [])
  }

  /** A run whose capture is complete, `n` being the next UID when it began. */
  function Shot(owner: Name, u: Uid, n: Uid, at: Time): Run {
    Run(owner, Restoring, u, 0, 0, true, OneCapture(8, n + 1, 2 * u, n + 3, 9, at, u), at, 0, [], [], [])
  }

  /** The snapshot the controller made, and the content its driver bound to it. */
  function ShotObjects(u: Uid, n: Uid): map<Key, Object> {
    map[SnapshotKey(u) := Object(n + 1, u, 8, false, false), ContentKey(u) := Object(n + 3, 0, 0, false, false)]
  }

  function SnapshotObject(u: Uid, n: Uid): map<Key, Object> { map[SnapshotKey(u) := Object(n + 1, u, 8, false, false)] }

  lemma CaptureBegins(origin: State, log: seq<Step>, s: State, u: Uid, o: Name, n: Uid) returns (more: seq<Step>)
    requires Recorded(origin, log, s) && Turn(s, u) && Waiting(s.runs[u].run, u) && KeysOf(u) !! s.objects.Keys && 0 < n
    requires n == s.next && o == s.runs[u].run.owner
    ensures Recorded(origin, more, Stage(s, u, Shooting(o, u, 0, 0, 0, 0, 0), n, SnapshotObject(u, n), n + 2, s.made))
  {
    assert SnapshotKey(u) in KeysOf(u);
    var r, v := s.runs[u].run, s.runs[u].version;
    hide Recorded, Turn, Stage, ClaimsNumbered, KeysOf;
    more := StageStart(origin, log, s, u);
    OneNumbered(Shooting(o, u, 0, 0, 0, 0, 0), n, 8, 0, 0, 0, 0, 0, u);
    more := StageSave(origin, more, s, u, r, v, map[], n, s.made, Shooting(o, u, 0, 0, 0, 0, 0), CaptureStarted);
    more := StageCreate(origin, more, s, u, Shooting(o, u, 0, 0, 0, 0, 0), n, map[], n + 1, s.made, SnapshotKey(u), 8);
  }

  lemma ContentFree(s: State, u: Uid, n: Uid)
    requires KeysOf(u) !! s.objects.Keys
    ensures ContentKey(u) !in s.objects && ContentKey(u) !in SnapshotObject(u, n)
    ensures SnapshotObject(u, n)[ContentKey(u) := Object(n + 3, 0, 0, false, false)] == ShotObjects(u, n)
  {
    assert ContentKey(u) in KeysOf(u);
  }

  /** Learning the snapshot and its content changes nothing else. */
  lemma ShootingSame(o: Name, u: Uid, snapshot: Uid, snapshot2: Uid, bound: Name, content: Uid)
    ensures var r := Shooting(o, u, snapshot, 0, 0, 0, 0); var t := Shooting(o, u, snapshot2, bound, content, 0, 0);
      SameOutcome(r, t) && t.phase == r.phase && |t.captures| == |r.captures|
  {}

  lemma ShootingNumbered(o: Name, u: Uid, snapshot: Uid, bound: Name, content: Uid, next: Uid)
    requires snapshot < next && content < next
    ensures ClaimsNumbered(Shooting(o, u, snapshot, bound, content, 0, 0), next)
  {
    OneNumbered(Shooting(o, u, snapshot, bound, content, 0, 0), next, 8, snapshot, bound, content, 0, 0, u);
  }

  lemma CaptureBinds(origin: State, log: seq<Step>, s: State, u: Uid, o: Name, n: Uid) returns (more: seq<Step>)
    requires Turn(s, u) && KeysOf(u) !! s.objects.Keys && n == s.next
    requires Recorded(origin, log, Stage(s, u, Shooting(o, u, 0, 0, 0, 0, 0), n, SnapshotObject(u, n), n + 2, s.made))
    ensures Recorded(origin, more, Stage(s, u, Shooting(o, u, n + 1, 2 * u, n + 3, 0, 0), n + 4, ShotObjects(u, n), n + 5, s.made))
  {
    hide *;
    ContentFree(s, u, n);
    ShootingSame(o, u, 0, n + 1, 0, 0);
    ShootingSame(o, u, n + 1, n + 1, 2 * u, n + 3);
    ShootingNumbered(o, u, n + 1, 0, 0, n + 2);
    ShootingNumbered(o, u, n + 1, 2 * u, n + 3, n + 4);
    more := StageSave(origin, log, s, u, Shooting(o, u, 0, 0, 0, 0, 0), n, SnapshotObject(u, n), n + 2, s.made, Shooting(o, u, n + 1, 0, 0, 0, 0), Bookkept);
    more := StagePlace(origin, more, s, u, Shooting(o, u, n + 1, 0, 0, 0, 0), n + 2, SnapshotObject(u, n), n + 3, s.made, ContentKey(u));
    more := StageSave(origin, more, s, u, Shooting(o, u, n + 1, 0, 0, 0, 0), n + 2, ShotObjects(u, n), n + 4, s.made,
                      Shooting(o, u, n + 1, 2 * u, n + 3, 0, 0), Bookkept);
  }

  lemma CaptureEnds(origin: State, log: seq<Step>, s: State, u: Uid, o: Name, n: Uid) returns (more: seq<Step>)
    requires Turn(s, u) && n == s.next && 0 < s.now
    requires Recorded(origin, log, Stage(s, u, Shooting(o, u, n + 1, 2 * u, n + 3, 0, 0), n + 4, ShotObjects(u, n), n + 5, s.made))
    ensures Recorded(origin, more, Stage(s, u, Shot(o, u, n, s.now), n + 6, ShotObjects(u, n), n + 7, s.made))
  {
    hide Recorded, Turn, Stage, ClaimsNumbered, ShotObjects, Latest;
    OneNumbered(Shooting(o, u, n + 1, 2 * u, n + 3, 9, s.now), n + 5, 8, n + 1, 2 * u, n + 3, 9, s.now, u);
    more := StageSave(origin, log, s, u, Shooting(o, u, n + 1, 2 * u, n + 3, 0, 0), n + 4, ShotObjects(u, n), n + 5, s.made,
                      Shooting(o, u, n + 1, 2 * u, n + 3, 9, s.now), Bookkept);
    OneNumbered(Shot(o, u, n, s.now), n + 6, 8, n + 1, 2 * u, n + 3, 9, s.now, u);
    LatestOne(Shot(o, u, n, s.now).captures);
    more := StageSave(origin, more, s, u, Shooting(o, u, n + 1, 2 * u, n + 3, 9, s.now), n + 5, ShotObjects(u, n), n + 6, s.made, Shot(o, u, n, s.now), CaptureFinished);
  }

  /** A run that restores from its own capture. */
  function Restored(owner: Name, u: Uid, n: Uid, at: Time, imports: seq<Import>, op: Op, child: Uid): Run {
    Shot(owner, u, n, at).(imports := imports, operation := op, child := child)
  }

  function HalfObjects(u: Uid, n: Uid): map<Key, Object> {
    ShotObjects(u, n)[ImportedSnapshot(u) := Object(n + 8, u, 7, false, false)]
  }

  function ImportObjects(u: Uid, n: Uid): map<Key, Object> {
    HalfObjects(u, n)[ImportedContent(u) := Object(n + 10, u, 7, false, false)]
  }

  function AllObjects(u: Uid, n: Uid): map<Key, Object> {
    ImportObjects(u, n)[GenerationKey(u) := Object(n + 13, u, 6, false, false)]
  }

  lemma RestoredNumbered(owner: Name, u: Uid, n: Uid, at: Time, content: Uid, snapshot: Uid, op: Op, child: Uid, next: Uid)
    requires n + 6 < next && content < next && snapshot < next
    ensures ClaimsNumbered(Restored(owner, u, n, at, OneImport(content, snapshot, u), op, child), next)
  {
    OneNumbered(Restored(owner, u, n, at, OneImport(content, snapshot, u), op, child), next, 8, n + 1, 2 * u, n + 3, 9, at, u);
  }

  /** A run while its import is made: which objects are known, and its operation. */
  function Importing(o: Name, u: Uid, n: Uid, at: Time, content: Uid, snapshot: Uid): Run {
    Restored(o, u, n, at, OneImport(content, snapshot, u), 0, 0)
  }

  lemma ImportingSame(o: Name, u: Uid, n: Uid, at: Time, content: Uid, snapshot: Uid, content2: Uid, snapshot2: Uid)
    ensures var r := Importing(o, u, n, at, content, snapshot); var t := Importing(o, u, n, at, content2, snapshot2);
      SameOutcome(r, t) && t.phase == r.phase == Restoring && |t.captures| == |r.captures|
    ensures var r := Shot(o, u, n, at); var t := Importing(o, u, n, at, content, snapshot);
      SameOutcome(r, t) && t.phase == r.phase == Restoring && |t.captures| == |r.captures|
  {}

  lemma FreeKeys(s: State, u: Uid, n: Uid)
    requires KeysOf(u) !! s.objects.Keys
    ensures ImportedSnapshot(u) !in s.objects && ImportedSnapshot(u) !in ShotObjects(u, n)
    ensures ImportedContent(u) !in s.objects && ImportedContent(u) !in HalfObjects(u, n)
    ensures ImportedSnapshot(u).kind == Snapshot && ImportedContent(u).kind == Content
  {
    assert ImportedSnapshot(u) in KeysOf(u) && ImportedContent(u) in KeysOf(u);
  }

  lemma ImportAdds(u: Uid, n: Uid)
    ensures HalfObjects(u, n) == ShotObjects(u, n)[ImportedSnapshot(u) := Object(n + 8, u, 7, false, false)]
    ensures ImportObjects(u, n) == HalfObjects(u, n)[ImportedContent(u) := Object(n + 10, u, 7, false, false)]
  {
    hide ShotObjects, ImportedSnapshot, ImportedContent;
  }

  lemma ImportingNumbered(o: Name, u: Uid, n: Uid, at: Time)
    ensures ClaimsNumbered(Importing(o, u, n, at, 0, n + 8), n + 9)
  {
    RestoredNumbered(o, u, n, at, 0, n + 8, 0, 0, n + 9);
    hide ClaimsNumbered;
  }

  /** The copies are imported: a snapshot first, then its content. */
  lemma ImportBegins(origin: State, log: seq<Step>, s: State, u: Uid, o: Name, n: Uid) returns (more: seq<Step>)
    requires Turn(s, u) && KeysOf(u) !! s.objects.Keys && n == s.next
    requires Recorded(origin, log, Stage(s, u, Shot(o, u, n, s.now), n + 6, ShotObjects(u, n), n + 7, s.made))
    ensures Recorded(origin, more, Stage(s, u, Importing(o, u, n, s.now, 0, n + 8), n + 9, HalfObjects(u, n), n + 10, s.made))
  {
    hide Recorded, Turn, Stage, ClaimsNumbered, ShotObjects, HalfObjects;
    more := ImportPlanned(origin, log, s, u, o, n);
    more := ImportShot(origin, more, s, u, o, n);
  }

  lemma ImportPlanned(origin: State, log: seq<Step>, s: State, u: Uid, o: Name, n: Uid) returns (more: seq<Step>)
    requires Turn(s, u) && n == s.next
    requires Recorded(origin, log, Stage(s, u, Shot(o, u, n, s.now), n + 6, ShotObjects(u, n), n + 7, s.made))
    ensures Recorded(origin, more, Stage(s, u, Importing(o, u, n, s.now, 0, 0), n + 7, ShotObjects(u, n), n + 8, s.made))
  {
    hide Recorded, Turn, Stage, ShotObjects;
    RestoredNumbered(o, u, n, s.now, 0, 0, 0, 0, n + 7);
    ImportingSame(o, u, n, s.now, 0, 0, 0, 0);
    var a := Importing(o, u, n, s.now, 0, 0);
    assert ClaimsNumbered(a, n + 7);
    hide *;
    more := StageSave(origin, log, s, u, Shot(o, u, n, s.now), n + 6, ShotObjects(u, n), n + 7, s.made, a, Bookkept);
  }

  lemma ImportShot(origin: State, log: seq<Step>, s: State, u: Uid, o: Name, n: Uid) returns (more: seq<Step>)
    requires Turn(s, u) && KeysOf(u) !! s.objects.Keys && n == s.next
    requires Recorded(origin, log, Stage(s, u, Importing(o, u, n, s.now, 0, 0), n + 7, ShotObjects(u, n), n + 8, s.made))
    ensures Recorded(origin, more, Stage(s, u, Importing(o, u, n, s.now, 0, n + 8), n + 9, HalfObjects(u, n), n + 10, s.made))
  {
    hide *;
    FreeKeys(s, u, n);
    ShotKinds(u, n);
    ImportingNumbered(o, u, n, s.now);
    ImportingSame(o, u, n, s.now, 0, 0, 0, n + 8);
    ImportAdds(u, n);
    var a, b := Importing(o, u, n, s.now, 0, 0), Importing(o, u, n, s.now, 0, n + 8);
    var objects := ShotObjects(u, n);
    more := MakeAndBook(origin, log, s, u, a, b, n + 7, objects, n + 8, ImportedSnapshot(u), 7);
  }

  lemma ShotKinds(u: Uid, n: Uid)
    ensures forall k :: k in ShotObjects(u, n) ==> k.kind != Generation
    ensures forall k :: k in HalfObjects(u, n) ==> k.kind != Generation
  {}

  /** Then the generation's operation is saved. */
  lemma ImportEnds(origin: State, log: seq<Step>, s: State, u: Uid, o: Name, n: Uid) returns (more: seq<Step>)
    requires Turn(s, u) && KeysOf(u) !! s.objects.Keys && n == s.next
    requires Recorded(origin, log, Stage(s, u, Importing(o, u, n, s.now, 0, n + 8), n + 9, HalfObjects(u, n), n + 10, s.made))
    ensures Recorded(origin, more, Stage(s, u, Restored(o, u, n, s.now, OneImport(n + 10, n + 8, u), 6, 0), n + 12, ImportObjects(u, n), n + 13, s.made))
  {
    FreeKeys(s, u, n);
    hide Recorded, Turn, Stage, ClaimsNumbered, KeysOf, Taken, Latest, ShotObjects, HalfObjects;
    RestoredNumbered(o, u, n, s.now, n + 10, n + 8, 0, 0, n + 11);
    ImportingSame(o, u, n, s.now, 0, n + 8, n + 10, n + 8);
    assert ClaimsNumbered(Importing(o, u, n, s.now, n + 10, n + 8), n + 11);
    more := ImportCreates(origin, log, s, u, o, n);
    more := ImportIntends(origin, more, s, u, o, n);
  }

  lemma ImportCreates(origin: State, log: seq<Step>, s: State, u: Uid, o: Name, n: Uid) returns (more: seq<Step>)
    requires Turn(s, u) && KeysOf(u) !! s.objects.Keys && n == s.next && ClaimsNumbered(Importing(o, u, n, s.now, n + 10, n + 8), n + 11)
    requires Recorded(origin, log, Stage(s, u, Importing(o, u, n, s.now, 0, n + 8), n + 9, HalfObjects(u, n), n + 10, s.made))
    ensures Recorded(origin, more, Stage(s, u, Importing(o, u, n, s.now, n + 10, n + 8), n + 11, ImportObjects(u, n), n + 12, s.made))
  {
    hide *;
    FreeKeys(s, u, n);
    ShotKinds(u, n);
    ImportingSame(o, u, n, s.now, 0, n + 8, n + 10, n + 8);
    ImportAdds(u, n);
    var a, b := Importing(o, u, n, s.now, 0, n + 8), Importing(o, u, n, s.now, n + 10, n + 8);
    var half := HalfObjects(u, n);
    more := MakeAndBook(origin, log, s, u, a, b, n + 9, half, n + 10, ImportedContent(u), 7);
  }

  /** An object is created and its identity is recorded. */
  lemma MakeAndBook(origin: State, log: seq<Step>, s: State, u: Uid, r: Run, later: Run, version: nat, objects: map<Key, Object>, next: Uid, key: Key, op: Op)
    returns (more: seq<Step>)
    requires Turn(s, u) && Recorded(origin, log, Stage(s, u, r, version, objects, next, s.made)) && key !in s.objects && key !in objects
    requires key.kind != Generation && forall k :: k in objects ==> k.kind != Generation
    requires SameOutcome(r, later) && later.phase == r.phase && |later.captures| == |r.captures| && ClaimsNumbered(later, next + 1)
    ensures Recorded(origin, more, Stage(s, u, later, next + 1, objects[key := Object(next, u, op, false, false)], next + 2, s.made))
  {
    hide Recorded, Turn, Stage, ClaimsNumbered, Taken, Latest, SameOutcome;
    more := StageCreate(origin, log, s, u, r, version, objects, next, s.made, key, op);
    more := StageSave(origin, more, s, u, r, version, objects[key := Object(next, u, op, false, false)], next + 1, s.made, later, Bookkept);
  }

  lemma ImportIntends(origin: State, log: seq<Step>, s: State, u: Uid, o: Name, n: Uid) returns (more: seq<Step>)
    requires Turn(s, u) && n == s.next
    requires Recorded(origin, log, Stage(s, u, Restored(o, u, n, s.now, OneImport(n + 10, n + 8, u), 0, 0), n + 11, ImportObjects(u, n), n + 12, s.made))
    ensures Recorded(origin, more, Stage(s, u, Restored(o, u, n, s.now, OneImport(n + 10, n + 8, u), 6, 0), n + 12, ImportObjects(u, n), n + 13, s.made))
  {
    hide Recorded, Turn, Stage, ClaimsNumbered, ImportObjects, Taken, Latest;
    RestoredNumbered(o, u, n, s.now, n + 10, n + 8, 6, 0, n + 12);
    more := StageSave(origin, log, s, u, Restored(o, u, n, s.now, OneImport(n + 10, n + 8, u), 0, 0), n + 11, ImportObjects(u, n), n + 12, s.made,
                      Restored(o, u, n, s.now, OneImport(n + 10, n + 8, u), 6, 0), Bookkept);
  }

  /** Where a run is when its generation was created and is not yet recorded. */
  function Created(s: State, u: Uid): State
    requires u in s.runs
  {
    Stage(s, u, Restored(s.runs[u].run.owner, u, s.next, s.now, OneImport(s.next + 10, s.next + 8, u), 6, 0), s.next + 12,
          AllObjects(u, s.next), s.next + 14, s.made + {s.next + 13})
  }

  lemma ImportedKeys(u: Uid, n: Uid)
    ensures forall k :: k in ImportObjects(u, n) ==> k.kind != Generation
  {}

  /** Everything up to the creation of the generation of a run whose turn it is. */
  lemma Provision(origin: State, log: seq<Step>, s: State, u: Uid) returns (more: seq<Step>)
    requires Recorded(origin, log, s) && Turn(s, u) && Waiting(s.runs[u].run, u) && KeysOf(u) !! s.objects.Keys && 0 < s.next && 0 < s.now
    requires s.helm ==> Journal(s).active == 0 && forall v :: v != u ==> !ChildPresent(s, v)
    ensures Recorded(origin, more, Created(s, u))
  {
    var n, o := s.next, s.runs[u].run.owner;
    assert GenerationKey(u) in KeysOf(u);
    hide Recorded, Turn, Stage, ChildPresent, KeysOf, Shooting, Shot, ShotObjects, SnapshotObject, HalfObjects;
    more := CaptureBegins(origin, log, s, u, o, n);
    more := CaptureBinds(origin, more, s, u, o, n);
    more := CaptureEnds(origin, more, s, u, o, n);
    more := ImportBegins(origin, more, s, u, o, n);
    more := ImportEnds(origin, more, s, u, o, n);
    ImportedKeys(u, n);
    hide ImportObjects;
    more := StageCreate(origin, more, s, u, Restored(o, u, n, s.now, OneImport(n + 10, n + 8, u), 6, 0), n + 12, ImportObjects(u, n), n + 13, s.made, GenerationKey(u), 6);
  }

  /** A run whose generation is recorded and ready to take over. */
  function Candidate(s: State, u: Uid): Run
    requires u in s.runs
  {
    Restored(s.runs[u].run.owner, u, s.next, s.now, OneImport(s.next + 10, s.next + 8, u), 6, s.next + 13).(phase := AwaitingActivation)
  }

  function Prepared(s: State, u: Uid): State
    requires u in s.runs
  {
    Stage(s, u, Candidate(s, u), s.next + 15, AllObjects(u, s.next), s.next + 16, s.made + {s.next + 13})
  }

  lemma ChildStep(origin: State, log: seq<Step>, s: State, u: Uid) returns (more: seq<Step>)
    requires Turn(s, u) && Recorded(origin, log, Created(s, u)) && !s.helm && 0 < s.next && 0 < s.now
    ensures Recorded(origin, more, Stage(s, u, Candidate(s, u).(phase := Restoring), s.next + 14, AllObjects(u, s.next), s.next + 15, s.made + {s.next + 13}))
  {
    var r := Candidate(s, u).(phase := Restoring);
    var t := Created(s, u);
    RestoredNumbered(r.owner, u, s.next, s.now, s.next + 10, s.next + 8, 6, s.next + 13, s.next + 14);
    assert Enrolled(Journal(t), u) by { Noted(s, t, u); }
    hide Recorded, Enrolled, ClaimsNumbered, OthersRetired;
    more, t := SaveStep(origin, log, t, u, r, ChildRecorded);
    assert s.runs[u := Created(s, u).runs[u]][u := Versioned(r, s.next + 14)] == s.runs[u := Versioned(r, s.next + 14)];
  }

  lemma FinishRun(origin: State, log: seq<Step>, s: State, u: Uid) returns (more: seq<Step>)
    requires Turn(s, u) && Recorded(origin, log, Created(s, u)) && !s.helm && 0 < s.next && 0 < s.now
    ensures Recorded(origin, more, Prepared(s, u))
  {
    var r := Candidate(s, u).(phase := Restoring);
    hide Recorded, Turn, Stage, ClaimsNumbered;
    more := ChildStep(origin, log, s, u);
    RestoredNumbered(r.owner, u, s.next, s.now, s.next + 10, s.next + 8, 6, s.next + 13, s.next + 15);
    OneNumbered(Candidate(s, u), s.next + 15, 8, s.next + 1, 2 * u, s.next + 3, 9, s.now, u);
    more := StageSave(origin, more, s, u, r, s.next + 14, AllObjects(u, s.next), s.next + 15, s.made + {s.next + 13}, Candidate(s, u), CandidateReady);
  }

  lemma LatestOne(captures: seq<Capture>)
    requires |captures| == 1
    ensures Latest(captures) == captures[0].takenAt
  {
    assert captures[..0] == [];
  }

  // ---------------------------------------------------------------- two runs are enrolled

  const FIRST := Ref(1, 10)
  const SECOND := Ref(2, 11)

  function Sync(uid: Uid, finalizer: bool): Request { Request(uid, false, None, false, false, finalizer) }
  function Queue(owner: Name, u: Uid): Run { Run(owner, Queued, u, 0, 0, false, [], 0, 0, [], [], []) }

  /** Two requests wait when the mirror is first reconciled. */
  function Beginning(helm: bool): State {
    State(None, map[], map[1 := Sync(10, false), 2 := Sync(11, false)], map[], 30, 100, false, helm, false, {}, false, {}, {}, {}, 0)
  }

  const ASKED := map[1 := Sync(10, true), 2 := Sync(11, true)]

  function Ready(helm: bool): State {
    State(Some(Mirror([FIRST, SECOND], 0, 0, 0, 0)), map[10 := Versioned(Queue(1, 10), 31), 11 := Versioned(Queue(2, 11), 33)],
          ASKED, map[], 34, 100, false, helm, false, {}, false, {}, {}, {}, 0)
  }

  lemma FinalizerStep(origin: State, log: seq<Step>, s: State, name: Name) returns (more: seq<Step>, t: State)
    requires Recorded(origin, log, s) && name in s.requests && !s.requests[name].deleting
    ensures Recorded(origin, more, t) && t == s.(requests := s.requests[name := s.requests[name].(finalizer := true)], next := s.next + 1)
  {
    hide Recorded;
    t := Apply(s, SetFinalizer(name, true));
    more := WriteStep(origin, log, s, SetFinalizer(name, true));
  }

  /** One request is enrolled: finalizer, record, reference. */
  lemma EnrollStep(origin: State, log: seq<Step>, s: State, ref: Ref) returns (more: seq<Step>, t: State)
    requires Recorded(origin, log, s) && s.parent.Some? && 0 < ref.uid < s.next && ref.uid !in s.runs && !Enrolled(Journal(s), ref.uid)
    requires ref.name in s.requests && !s.requests[ref.name].deleting && NamedOnly(s, ref)
    ensures Recorded(origin, more, t)
    ensures t == s.(requests := s.requests[ref.name := s.requests[ref.name].(finalizer := true)], next := s.next + 2,
                    runs := s.runs[ref.uid := Versioned(Queue(ref.name, ref.uid), s.next + 1)],
                    parent := Some(Journal(s).(runs := Journal(s).runs + [ref])))
  {
    hide Recorded, Enrolled;
    more, t := FinalizerStep(origin, log, s, ref.name);
    more, t := SaveStep(origin, more, t, ref.uid, Queue(ref.name, ref.uid), RunAdmitted);
    more, t := ParentStep(origin, more, t, Journal(s).(runs := Journal(s).runs + [ref]), RunEnrolled);
  }

  /** The first of them is enrolled. */
  function HalfReady(helm: bool): State {
    State(Some(Mirror([FIRST], 0, 0, 0, 0)), map[10 := Versioned(Queue(1, 10), 31)],
          map[1 := Sync(10, true), 2 := Sync(11, false)], map[], 32, 100, false, helm, false, {}, false, {}, {}, {}, 0)
  }

  lemma BeginningStarts(helm: bool)
    ensures Recorded(Beginning(helm), [], Beginning(helm))
  {}

  lemma EnrollFirst(helm: bool) returns (log: seq<Step>)
    ensures Recorded(Beginning(helm), log, HalfReady(helm))
  {
    BeginningStarts(helm);
    hide Recorded;
    var t;
    log, t := ParentStep(Beginning(helm), [], Beginning(helm), NO_RUNS, MirrorProtocol.Created);
    log, t := EnrollStep(Beginning(helm), log, t, FIRST);
    assert [] + [FIRST] == [FIRST];
    assert t.requests == HalfReady(helm).requests && t.runs == HalfReady(helm).runs;
  }

  lemma EnrollBoth(helm: bool) returns (log: seq<Step>)
    ensures Recorded(Beginning(helm), log, Ready(helm))
  {
    hide Recorded, Beginning;
    log := EnrollFirst(helm);
    var t;
    log, t := EnrollStep(Beginning(helm), log, HalfReady(helm), SECOND);
    assert [FIRST] + [SECOND] == [FIRST, SECOND];
    assert t.requests == ASKED && t.runs == Ready(helm).runs;
  }

  lemma ChooseStep(origin: State, log: seq<Step>, s: State, u: Uid) returns (more: seq<Step>, t: State)
    requires Recorded(origin, log, s) && s.parent.Some? && Journal(s).pending == 0 && Enrolled(Journal(s), u)
    requires u in s.runs && s.runs[u].run.phase == Queued && u !in s.released
    ensures Recorded(origin, more, t) && t == s.(parent := Some(Journal(s).(pending := u)))
  {
    hide Recorded, Enrolled;
    more, t := ParentStep(origin, log, s, Journal(s).(pending := u), RunChosen);
  }

  lemma Claims(origin: State, log: seq<Step>, s: State, u: Uid)
    requires Recorded(origin, log, s) && u in s.runs
    ensures ClaimsNumbered(s.runs[u].run, s.next)
  {
    hide Start, Legal, Exec, ClaimsNumbered;
    AlwaysSound(origin, log);
    assert Tidy(s);
  }

  lemma PhaseClaims(r: Run, t: Run, next: Uid)
    requires ClaimsNumbered(r, next) && t == r.(phase := t.phase, activatedAt := t.activatedAt, revision := t.revision, capturedAt := t.capturedAt)
    ensures ClaimsNumbered(t, next)
  {}

  lemma ActivateStep(origin: State, log: seq<Step>, s: State, u: Uid) returns (more: seq<Step>, t: State)
    requires Recorded(origin, log, s) && Turn(s, u) && s.runs[u].run.phase == AwaitingActivation && Journal(s).hold <= s.now && 0 < s.now
    ensures Recorded(origin, more, t)
    ensures t == s.(runs := s.runs[u := Versioned(s.runs[u].run.(phase := Active, activatedAt := s.now), s.next)], next := s.next + 1)
  {
    var r := s.runs[u].run.(phase := Active, activatedAt := s.now);
    Claims(origin, log, s, u);
    PhaseClaims(s.runs[u].run, r, s.next);
    hide Recorded, Enrolled, ClaimsNumbered;
    more, t := SaveStep(origin, log, s, u, r, MarkedActive);
  }

  lemma RetireStep(origin: State, log: seq<Step>, s: State, u: Uid) returns (more: seq<Step>, t: State)
    requires Recorded(origin, log, s) && u in s.runs && Enrolled(Journal(s), u) && Journal(s).active == u
    ensures Recorded(origin, more, t)
    ensures t == s.(runs := s.runs[u := Versioned(s.runs[u].run.(phase := Retiring), s.next)], next := s.next + 1)
  {
    var r := s.runs[u].run.(phase := Retiring);
    Claims(origin, log, s, u);
    PhaseClaims(s.runs[u].run, r, s.next);
    hide Recorded, Enrolled, ClaimsNumbered;
    more, t := SaveStep(origin, log, s, u, r, MarkedRetiring);
  }

  // ---------------------------------------------------------------- one generation takes over from another

  const BOTH := [FIRST, SECOND]

  lemma BothEnrolled(p: Mirror)
    requires p.runs == BOTH
    ensures Enrolled(p, 10) && Enrolled(p, 11)
  {
    assert p.runs[0].uid == 10 && p.runs[1].uid == 11;
  }

  /** What all these states have in common. */
  ghost predicate Calm(s: State, active: Uid, pending: Uid, hold: Time) {
    && s.parent == Some(Mirror(BOTH, active, pending, Journal(s).lastSync, hold)) && s.requests == ASKED && s.now == 100 && 0 < s.next
    && !s.ending && !s.helm && !s.forcible && s.forced == {} && s.released == {} && !s.teardown && s.late == {}
    && s.runs.Keys == {10, 11}
  }

  predicate Synced(r: Run, u: Uid, phase: Phase) {
    r.phase == phase && r.revision == u && r.capturedAt == 100 && r.child != 0
  }

  /** What choosing and preparing run `u` changes. */
  ghost predicate Leads(s: State, t: State, u: Uid) {
    && u in t.runs && t.runs == s.runs[u := t.runs[u]] && Synced(t.runs[u].run, u, AwaitingActivation)
    && t.runs[u].run.captures == OneCapture(8, s.next + 1, 2 * u, s.next + 3, 9, 100, u)
    && t.runs[u].run.imports == OneImport(s.next + 10, s.next + 8, u) && t.objects.Keys == s.objects.Keys + KeysOf(u)
  }

  lemma LeadStep(origin: State, log: seq<Step>, s: State, active: Uid, u: Uid) returns (more: seq<Step>, t: State)
    requires Recorded(origin, log, s) && Calm(s, active, 0, 0) && u in {10, 11} && s.runs[u].run == Queue(s.runs[u].run.owner, u)
    requires KeysOf(u) !! s.objects.Keys
    ensures Recorded(origin, more, t) && Calm(t, active, u, 0) && Leads(s, t, u)
  {
    var m;
    BothEnrolled(Journal(s));
    hide Recorded;
    more, m := ChooseStep(origin, log, s, u);
    BothEnrolled(Journal(m));
    hide KeysOf, Stage, Enrolled;
    more := Provision(origin, more, m, u);
    more := FinishRun(origin, more, m, u);
    t := Prepared(m, u);
    PreparedFacts(m, active, u);
  }

  lemma PreparedFacts(m: State, active: Uid, u: Uid)
    requires Calm(m, active, u, 0) && u in {10, 11}
    ensures Calm(Prepared(m, u), active, u, 0) && Leads(m, Prepared(m, u), u)
  {
    assert AllObjects(u, m.next).Keys == KeysOf(u);
  }

  /** Run 10 is active and 11 still waits. */
  lemma FirstActive() returns (log: seq<Step>, s: State)
    ensures Recorded(Beginning(false), log, s) && Calm(s, 10, 0, 0) && s.objects.Keys == KeysOf(10)
    ensures s.runs[10].run.captures == OneCapture(8, 35, 20, 37, 9, 100, 10) && s.runs[11].run == Queue(2, 11)
    ensures s.runs[10].run.imports == OneImport(44, 42, 10) && Synced(s.runs[10].run, 10, Active)
  {
    var origin := Beginning(false);
    log := EnrollBoth(false);
    hide Recorded, KeysOf;
    log, s := LeadStep(origin, log, Ready(false), 0, 10);
    BothEnrolled(Journal(s));
    hide Enrolled;
    log, s := ActivateStep(origin, log, s, 10);
    log, s := ParentStep(origin, log, s, Journal(s).(active := 10, pending := 0), RunActivated);
    assert {} + KeysOf(10) == KeysOf(10);
  }

  /** Run 11 is marked active and takes over from run 10 next. */
  lemma SecondMarked() returns (log: seq<Step>, s: State)
    ensures Recorded(Beginning(false), log, s) && Calm(s, 10, 11, 0) && s.objects.Keys == KeysOf(10) + KeysOf(11)
    ensures Synced(s.runs[10].run, 10, Retiring) && Synced(s.runs[11].run, 11, Active)
    ensures s.runs[10].run.captures == OneCapture(8, 35, 20, 37, 9, 100, 10) && s.runs[10].run.imports == OneImport(44, 42, 10)
  {
    var origin := Beginning(false);
    log, s := FirstActive();
    hide Recorded;
    log, s := LeadStep(origin, log, s, 10, 11);
    hide KeysOf;
    BothEnrolled(Journal(s));
    hide Enrolled;
    log, s := RetireStep(origin, log, s, 10);
    BothEnrolled(Journal(s));
    log, s := ActivateStep(origin, log, s, 11);
  }

  /** A lease accepted after the successor was marked active, but before the pointer moved,
      does not stop the pointer: the recovery branch does not look at the lease.  The
      condition under which it is honoured is that of `MirrorTraces.LeaseSince`. */
  lemma LeaseAcceptedTooLate() returns (s: State, steps: seq<Step>)
    ensures Start(s) && Legal(s, steps) && steps != [] && !s.forcible
    ensures var k := |steps| - 1; var t := Exec(s, steps[..k]);
      && Journal(t).active == 10 && Journal(Exec(s, steps)).active == 11 && !t.teardown
      && !LeaseOpen(t, 11)
  {
    s := Beginning(false);
    var log, t := SecondMarked();
    hide Recorded, Enrolled, KeysOf, OneCapture, OneImport;
    log, t := ParentStep(s, log, t, Journal(t).(hold := 1000), LeaseChanged);
    ghost var log2, u := ParentStep(s, log, t, Journal(t).(active := 11, pending := 0), RunActivated);
    steps := log2;
    assert steps[..|steps| - 1] == log;
    RecordedParts(s, log, t);
    RecordedParts(s, steps, u);
  }

  lemma RecordedParts(origin: State, log: seq<Step>, s: State)
    requires Recorded(origin, log, s)
    ensures Start(origin) && Legal(origin, log) && s == Exec(origin, log)
  {}

  // ---------------------------------------------------------------- a reset that comes too late

  /** Run 11 has taken over, and run 10 is in the given phase. */
  ghost predicate Superseded(s: State, phase: Phase) {
    && s.parent.Some? && Journal(s).runs == BOTH && Journal(s).active == 11 && Journal(s).pending == 0 && s.requests == ASKED
    && s.runs.Keys == {10, 11} && Synced(s.runs[10].run, 10, phase) && Synced(s.runs[11].run, 11, Active)
    && s.released == {} && !s.teardown && SnapshotKey(10) in s.objects
  }

  lemma FirstSuperseded() returns (log: seq<Step>, s: State)
    ensures Recorded(Beginning(false), log, s) && Superseded(s, Retiring)
  {
    log, s := SecondMarked();
    BothEnrolled(Journal(s));
    hide Recorded, Enrolled;
    log, s := ParentStep(Beginning(false), log, s, Journal(s).(active := 11, pending := 0), RunActivated);
  }

  lemma AwayStep(origin: State, log: seq<Step>, s: State, phase: Phase, key: Key) returns (more: seq<Step>, t: State)
    requires Recorded(origin, log, s) && Superseded(s, phase) && key != SnapshotKey(10)
    ensures Recorded(origin, more, t) && Superseded(t, phase) && t.objects == s.objects - {key}
  {
    hide Recorded, Wanted;
    more, t := DeleteStep(origin, log, s, key, 10);
  }

  lemma FirstRetained() returns (log: seq<Step>, s: State)
    ensures Recorded(Beginning(false), log, s) && Superseded(s, Retained) && GenerationKey(10) !in s.objects
  {
    var origin := Beginning(false);
    log, s := FirstSuperseded();
    hide Recorded, Superseded;
    log, s := AwayStep(origin, log, s, Retiring, GenerationKey(10));
    log, s := AwayStep(origin, log, s, Retiring, ImportedSnapshot(10));
    log, s := AwayStep(origin, log, s, Retiring, ImportedContent(10));
    log, s := RetainFirst(origin, log, s);
  }

  lemma RetainFirst(origin: State, log: seq<Step>, s: State) returns (more: seq<Step>, t: State)
    requires Recorded(origin, log, s) && Superseded(s, Retiring) && GenerationKey(10) !in s.objects
    ensures Recorded(origin, more, t) && Superseded(t, Retained) && t.objects == s.objects
  {
    BothEnrolled(Journal(s));
    hide Recorded, Enrolled;
    more, t := RetainStep(origin, log, s, 10);
  }

  /** Run 10 was retired, is no longer needed, and its captures are being deleted. */
  lemma FirstReleased() returns (log: seq<Step>, s: State)
    ensures Recorded(Beginning(false), log, s) && s.parent.Some? && Journal(s).runs == BOTH && Journal(s).pending == 0
    ensures s.requests == ASKED && s.runs.Keys == {10, 11} && s.released == {10} && !s.teardown
    ensures Synced(s.runs[10].run, 10, Retained)
  {
    log, s := FirstRetained();
    BothEnrolled(Journal(s));
    NotPinned(s);
    hide Recorded, Enrolled, Wanted, Pinned;
    log, s := ReleaseStep(Beginning(false), log, s, SnapshotKey(10), 10);
  }

  lemma RetainStep(origin: State, log: seq<Step>, s: State, u: Uid) returns (more: seq<Step>, t: State)
    requires Recorded(origin, log, s) && u in s.runs && Enrolled(Journal(s), u) && Journal(s).active != u && Journal(s).pending != u
    requires GenerationKey(u) !in s.objects
    ensures Recorded(origin, more, t)
    ensures t == s.(runs := s.runs[u := Versioned(s.runs[u].run.(phase := Retained), s.next)], next := s.next + 1)
  {
    var r := s.runs[u].run.(phase := Retained);
    Claims(origin, log, s, u);
    PhaseClaims(s.runs[u].run, r, s.next);
    hide Recorded, Enrolled, ClaimsNumbered, Wanted;
    more, t := SaveStep(origin, log, s, u, r, MarkedRetained);
  }

  lemma NotPinned(s: State)
    requires s.parent.Some? && Journal(s).runs == BOTH && Journal(s).active == 11 && Journal(s).pending == 0 && s.requests == ASKED
    requires s.runs.Keys == {10, 11} && Synced(s.runs[10].run, 10, Retained) && Synced(s.runs[11].run, 11, Active)
    ensures !Pinned(s, 10)
  {}

  lemma AskStep(origin: State, log: seq<Step>, s: State, name: Name, revision: Ref) returns (more: seq<Step>, t: State)
    requires Recorded(origin, log, s) && name !in s.requests
    ensures Recorded(origin, more, t)
    ensures t == s.(requests := s.requests[name := Request(s.next, true, Some(revision), false, false, false)], next := s.next + 1)
  {
    hide Recorded;
    t := Happen(s, OnRequest(Ask(name, true, Some(revision), false, false)));
    more := EventStep(origin, log, s, OnRequest(Ask(name, true, Some(revision), false, false)));
  }

  lemma ResetStep(origin: State, log: seq<Step>, s: State, u: Uid, revision: Uid) returns (more: seq<Step>, t: State)
    requires Recorded(origin, log, s) && Turn(s, u) && s.runs[u].run == Queue(s.runs[u].run.owner, u) && revision != u
    requires Enrolled(Journal(s), revision) && Captured(s, revision) && s.runs[revision].run.revision == revision && revision in s.released
    ensures Recorded(origin, more, t) && u in t.late && t.parent == s.parent && t.requests == s.requests && t.released == s.released
    ensures t.teardown == s.teardown && u in t.runs && t.runs[u].run.phase == Restoring && t.runs[u].run.revision == revision
  {
    hide Recorded, Enrolled;
    var r := s.runs[u].run.(revision := revision, capturedAt := s.runs[revision].run.capturedAt, phase := Restoring);
    more, t := SaveStep(origin, log, s, u, r, ResetAdmitted);
  }

  /** A new request asks to be reset to run 10, and is enrolled. */
  lemma LateEnrolled() returns (log: seq<Step>, t: State, u: Uid)
    ensures Recorded(Beginning(false), log, t) && t.parent.Some? && Journal(t).runs == BOTH + [Ref(3, u)] && Journal(t).pending == 0
    ensures 3 in t.requests && t.requests[3].uid == u && !t.requests[3].deleting && t.released == {10} && !t.teardown && u != 10
    ensures 10 in t.runs && u in t.runs && Synced(t.runs[10].run, 10, Retained) && t.runs[u].run == Queue(3, u)
  {
    log, t := FirstReleased();
    Reached(Beginning(false), log, t);
    u := t.next;
    assert RunNumbered(t, 10) && RunNumbered(t, 11);
    hide Recorded, Numbered;
    log, t := AskStep(Beginning(false), log, t, 3, FIRST);
    log, t := EnrollStep(Beginning(false), log, t, Ref(3, u));
  }

  /** A Reset may be admitted onto a revision whose captures are already being deleted:
      admission looks at the record, which outlives its snapshots.  The runs this can
      happen to are exactly those of `MirrorHistory.RevisionPinned`. */
  lemma ResetOntoReleased() returns (s: State, steps: seq<Step>, u: Uid)
    ensures Start(s) && Legal(s, steps)
    ensures var t := Exec(s, steps);
      !t.teardown && Consumer(t, u) && PastCapture(t.runs[u].run) && t.runs[u].run.revision in t.released
  {
    s := Beginning(false);
    var log, t;
    log, t, u := LateEnrolled();
    EnrolledLast(Journal(t), Ref(3, u));
    hide Recorded, Enrolled;
    log, t := ChooseStep(s, log, t, u);
    EnrolledLast(Journal(t), Ref(3, u));
    log, t := ResetStep(s, log, t, u, 10);
    steps := log;
    LateConsumer(t, u);
    hide Consumer, PastCapture;
    RecordedParts(s, steps, t);
  }

  lemma LateConsumer(t: State, u: Uid)
    requires |Journal(t).runs| == 3 && Journal(t).runs[2] == Ref(3, u) && Requested(t, Ref(3, u)) && Journal(t).pending == u && u in t.runs
    ensures Consumer(t, u)
  {}

  lemma EnrolledLast(p: Mirror, ref: Ref)
    requires p.runs == BOTH + [ref]
    ensures Enrolled(p, 10) && Enrolled(p, ref.uid)
  {
    assert p.runs[0].uid == 10 && p.runs[2] == ref;
  }

  // ---------------------------------------------------------------- a generation nobody remembers

  lemma CancelStep(origin: State, log: seq<Step>, s: State, name: Name) returns (more: seq<Step>, t: State)
    requires Recorded(origin, log, s) && name in s.requests
    ensures Recorded(origin, more, t)
    ensures t == s.(requests := s.requests[name := s.requests[name].(deleting := true)], next := s.next + 1)
  {
    hide Recorded;
    t := Happen(s, OnRequest(Cancel(name)));
    more := EventStep(origin, log, s, OnRequest(Cancel(name)));
  }

  /** The managed provider allows one generation; run 10 may have been cancelled. */
  ghost predicate Managed(s: State, requests: map<Name, Request>) {
    && s.parent.Some? && Journal(s).active == 0 && s.requests == requests && s.helm && !s.teardown && s.late == {} && 0 < s.next && s.now == 100
    && 11 in s.runs && s.runs[11].run == Queue(2, 11) && s.runs.Keys <= {10, 11} && 11 !in s.released
    && (10 in s.runs ==> s.runs[10].run.child == 0 && s.runs[10].run.phase == Restoring && s.runs[10].run.volumes == [] && s.runs[10].run.policies == [])
  }

  /** The generation of run 10 was made, and no record names it. */
  ghost predicate Leaked(s: State) {
    GenerationKey(10) in s.objects && s.objects[GenerationKey(10)].uid in s.made && !s.objects[GenerationKey(10)].deleting
  }

  /** The generation of run 10 was created when its request is cancelled. */
  lemma FirstCancelled() returns (log: seq<Step>, s: State)
    ensures Recorded(Beginning(true), log, s) && Managed(s, CANCELLED) && Leaked(s) && Journal(s).runs == BOTH && Journal(s).pending == 10
    ensures 10 in s.runs && s.objects.Keys == KeysOf(10)
  {
    var origin := Beginning(true);
    log := EnrollBoth(true);
    BothEnrolled(Journal(Ready(true)));
    hide Recorded;
    var m;
    log, m := ChooseStep(origin, log, Ready(true), 10);
    BothEnrolled(Journal(m));
    hide Enrolled, Managed, Leaked;
    FirstTurn(m);
    log := Provision(origin, log, m, 10);
    s := Created(m, 10);
    CreatedManaged(m);
    hide Created;
    log, s := CancelStep(origin, log, s, 1);
  }

  lemma FirstTurn(m: State)
    requires m == Ready(true).(parent := m.parent) && m.parent == Some(Mirror([FIRST, SECOND], 0, 10, 0, 0))
    ensures Turn(m, 10) && Waiting(m.runs[10].run, 10) && KeysOf(10) !! m.objects.Keys && 0 < m.next && 0 < m.now
    ensures Journal(m).active == 0 && forall v :: v != 10 ==> !ChildPresent(m, v)
  {
    BothEnrolled(Journal(m));
  }

  lemma CreatedManaged(m: State)
    requires m == Ready(true).(parent := m.parent) && m.parent == Some(Mirror([FIRST, SECOND], 0, 10, 0, 0))
    ensures var s := Created(m, 10); Managed(s, ASKED) && Leaked(s) && Journal(s).runs == BOTH && Journal(s).pending == 10
    ensures 10 in Created(m, 10).runs && Created(m, 10).objects.Keys == KeysOf(10)
  {
    assert AllObjects(10, m.next).Keys == KeysOf(10);
  }

  const CANCELLED := ASKED[1 := Sync(10, true).(deleting := true)]

  lemma NotWanted(s: State)
    requires s.parent.Some? && Journal(s).runs == BOTH && s.requests == CANCELLED
    ensures !Wanted(s, 10) && Dismissed(s, 10)
  {}

  /** Its copies and its capture are deleted. */
  lemma FirstEmptied() returns (log: seq<Step>, s: State)
    ensures Recorded(Beginning(true), log, s) && Managed(s, CANCELLED) && Leaked(s) && Journal(s).runs == BOTH && Journal(s).pending == 10
    ensures 10 in s.runs && s.objects.Keys == {GenerationKey(10)}
  {
    var origin := Beginning(true);
    log, s := FirstCancelled();
    hide Recorded;
    log, s := EmptyStep(origin, log, s, ImportedSnapshot(10));
    log, s := EmptyStep(origin, log, s, ImportedContent(10));
    log, s := ReleaseFirst(origin, log, s);
  }

  lemma EmptyStep(origin: State, log: seq<Step>, s: State, key: Key) returns (more: seq<Step>, t: State)
    requires Recorded(origin, log, s) && Managed(s, CANCELLED) && Leaked(s) && Journal(s).runs == BOTH && Journal(s).pending == 10
    requires key != GenerationKey(10)
    ensures Recorded(origin, more, t) && Managed(t, CANCELLED) && Leaked(t) && t.parent == s.parent && t.runs == s.runs && t.objects == s.objects - {key}
  {
    NotWanted(s);
    hide Recorded, Wanted;
    more, t := DeleteStep(origin, log, s, key, 10);
  }

  lemma ReleaseFirst(origin: State, log: seq<Step>, s: State) returns (more: seq<Step>, t: State)
    requires Recorded(origin, log, s) && Managed(s, CANCELLED) && Leaked(s) && Journal(s).runs == BOTH && Journal(s).pending == 10
    requires 10 in s.runs && s.objects.Keys == {SnapshotKey(10), ContentKey(10), GenerationKey(10)}
    ensures Recorded(origin, more, t) && Managed(t, CANCELLED) && Leaked(t) && t.parent == s.parent && t.runs == s.runs
    ensures t.objects.Keys == {GenerationKey(10)}
  {
    NotWanted(s);
    BothEnrolled(Journal(s));
    Unpinned(s);
    hide Recorded, Wanted, Pinned, Enrolled;
    more, t := ReleaseStep(origin, log, s, SnapshotKey(10), 10);
    more, t := VanishStep(origin, more, t, SnapshotKey(10));
    more, t := VanishStep(origin, more, t, ContentKey(10));
  }

  lemma Unpinned(s: State)
    requires Managed(s, CANCELLED) && Journal(s).runs == BOTH && Journal(s).pending == 10
    ensures !Pinned(s, 10)
  {
    NotWanted(s);
    hide Wanted;
  }

  /** `collect` sees a run without a recorded generation, and forgets it. */
  lemma FirstForgotten() returns (log: seq<Step>, s: State)
    ensures Recorded(Beginning(true), log, s) && Managed(s, CANCELLED) && Leaked(s) && Journal(s).runs == [SECOND] && Journal(s).pending == 0
    ensures s.runs.Keys == {11} && s.objects.Keys == {GenerationKey(10)}
  {
    var origin := Beginning(true);
    log, s := FirstEmptied();
    NotWanted(s);
    hide Recorded;
    log, s := DropFirst(origin, log, s);
    assert BOTH[..0] + BOTH[1..] == [SECOND];
    log, s := ParentStep(origin, log, s, Forget(Journal(s), 0), RunForgotten(0));
  }

  lemma DropFirst(origin: State, log: seq<Step>, s: State) returns (more: seq<Step>, t: State)
    requires Recorded(origin, log, s) && Managed(s, CANCELLED) && Leaked(s) && Journal(s).runs == BOTH && Journal(s).pending == 10
    requires 10 in s.runs && s.objects.Keys == {GenerationKey(10)}
    ensures Recorded(origin, more, t) && Managed(t, CANCELLED) && Leaked(t) && t.parent == s.parent && t.runs.Keys == {11} && t.objects == s.objects
  {
    var seen := s.runs[10].run;
    Claims(origin, log, s, 10);
    NotWanted(s);
    BothEnrolled(Journal(s));
    Unpinned(s);
    hide Recorded, Wanted, Pinned, Enrolled;
    t := Apply(s, DropRun(10, seen, false));
    more := WriteStep(origin, log, s, DropRun(10, seen, false));
  }

  /** Creating before recording can leave a generation that no record names, so two
      generations exist at once although the provider allows one.  How this comes about,
      and that nothing else leads to it, is `MirrorHistory.TwoGenerations`. */
  lemma UnrecordedGenerationLeaks() returns (s: State, steps: seq<Step>)
    ensures Start(s) && Legal(s, steps) && s.helm
    ensures var t := Exec(s, steps);
      && MadeExists(t, 10) && MadeExists(t, 11) && 10 !in t.runs
      && !t.objects[GenerationKey(10)].deleting && !t.objects[GenerationKey(11)].deleting
  {
    s := Beginning(true);
    var log, t := FirstForgotten();
    assert Enrolled(Journal(t), 11) by { assert Journal(t).runs[0].uid == 11; }
    hide Recorded;
    log, t := ChooseStep(s, log, t, 11);
    assert Enrolled(Journal(t), 11) by { assert Journal(t).runs[0].uid == 11; }
    hide Enrolled;
    var u := Created(t, 11);
    steps := Provision(s, log, t, 11);
    RecordedParts(s, steps, u);
  }
}
