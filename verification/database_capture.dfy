/** Preparing a database copy: the source is read at most once, and the copy is opened
    only after it was masked and no Pod that held raw data is left. */
module DatabaseCapture {
  import opened Common

  datatype Phase = Preparing | Copying | Sanitized | Ready | Failed

  type Worker = nat

  /** The journal entry of the staging Pod: its operation, its UID once known, and whether
      it was observed gone. */
  datatype Entry = Entry(op: Op, uid: Uid, gone: bool)

  datatype Record = Record(phase: Phase, version: nat, stage: Option<Entry>)

  /** The Pod under the name of the staging Pod; `op` is zero for a Pod of someone else. */
  datatype Pod = Pod(uid: Uid, op: Op, deleting: bool)

  /** `pod` is in the guest, `host` is the physical Pod behind that name.  `may` holds the
      workers whose save of Copying succeeded and who have not read the source since;
      `copier` is the last of them.  The rest is history: the Pods that received raw data,
      those that were masked, the one that was copied from; the operations journaled, the
      Pods created for them; the last moments at which the guest, and the host, had no
      staging Pod, and the moment at which the journaled one was observed gone. */
  datatype State = State(record: Option<Record>, pod: Option<Pod>, host: Option<Uid>, next: nat,
    copier: Option<Worker>, may: set<Worker>, captures: nat, masked: bool, copied: bool, accessible: bool, exposed: bool,
    raw: set<Uid>, cleaned: set<Uid>, source: Option<Uid>, journaled: set<Op>, born: map<Uid, Op>,
    cleared: nat, hostCleared: nat, goneAt: nat)

  const BLANK := State(None, None, None, 1, None, {}, 0, false, false, false, false, {}, {}, None, {}, map[], 0, 0, 0)

  /** Steps of any number of workers.  A step with a version is one successful conditional
      save; `at` names a moment the worker has observed. */
  datatype Step =
    | Begin
    | Touch(version: nat)
    | JournalStage(version: nat, op: Op)
    | CreateStage(op: Op)
    | KnowStage(version: nat, uid: Uid)
    | DeleteStage
    | MarkGone(version: nat, at: nat)
    | StartCopying(version: nat, who: Worker)
    | Capture(who: Worker)
    | Mask(who: Worker)
    | Transfer(who: Worker)
    | Sanitize(version: nat, who: Worker)
    | Fail(version: nat, seen: Option<nat>)
    | Open(at: nat)
    | Expose
    | Publish(version: nat)
    | Place
    | Vanish
    | HostStart
    | HostStop

  function Stored(s: State, r: Record): State { s.(record := Some(r.(version := s.next))) }

  function Gone(s: State, r: Record, at: nat): State {
    if r.stage.Some? then Stored(s, r.(stage := Some(r.stage.value.(gone := true)))).(goneAt := at) else Stored(s, r)
  }

  function There(s: State): set<Uid> {
    (if s.pod.Some? then {s.pod.value.uid} else {}) + (if s.host.Some? then {s.host.value} else {})
  }

  function Effect(s: State, step: Step): State {
    match step
    case Begin => Stored(s, Record(Preparing, 0, None))
    case Touch(_) => if s.record.Some? then Stored(s, s.record.value) else s
    case JournalStage(_, op) =>
      if s.record.Some? then Stored(s, s.record.value.(stage := Some(Entry(op, 0, false)))).(journaled := s.journaled + {op}) else s
    case CreateStage(op) => s.(pod := Some(Pod(s.next, op, false)), born := s.born[s.next := op])
    case KnowStage(_, uid) =>
      if s.record.Some? && s.record.value.stage.Some? then Stored(s, s.record.value.(stage := Some(s.record.value.stage.value.(uid := uid)))) else s
    case DeleteStage => if s.pod.Some? then s.(pod := Some(s.pod.value.(deleting := true))) else s
    case MarkGone(_, at) => if s.record.Some? then Gone(s, s.record.value, at) else s
    case StartCopying(_, who) =>
      if s.record.Some? then Stored(s, s.record.value.(phase := Copying)).(copier := Some(who), may := s.may + {who}) else s
    case Capture(who) => s.(captures := s.captures + 1, may := s.may - {who}, raw := s.raw + There(s))
    case Mask(_) => s.(masked := true, cleaned := s.cleaned + There(s))
    case Transfer(_) => s.(copied := true, source := s.host)
    case Sanitize(_, _) => if s.record.Some? then Stored(s, s.record.value.(phase := Sanitized)) else s
    case Fail(_, seen) =>
      if s.record.None? then s
      else if seen.Some? then Gone(s, s.record.value.(phase := Failed), seen.value)
      else Stored(s, s.record.value.(phase := Failed))
    case Open(_) => s.(accessible := true)
    case Expose => s.(exposed := true)
    case Publish(_) => if s.record.Some? then Stored(s, s.record.value.(phase := Ready)) else s
    case Place => if s.pod.None? then s.(pod := Some(Pod(s.next, 0, false))) else s
    case Vanish => s.(pod := None)
    case HostStart => if s.host.None? then s.(host := Some(s.next)) else s
    case HostStop => s.(host := None)
  }

  function Tick(s: State): State {
    s.(next := s.next + 1, cleared := if s.pod.None? then s.next else s.cleared, hostCleared := if s.host.None? then s.next else s.hostCleared)
  }

  function After(s: State, step: Step): State { Tick(Effect(s, step)) }

  predicate At(s: State, version: nat, phase: Phase) {
    s.record.Some? && s.record.value.version == version && s.record.value.phase == phase
  }

  predicate Staged(r: Record) { r.stage.Some? && !r.stage.value.gone }

  predicate Removed(r: Record) { r.stage.Some? && r.stage.value.gone }

  /** Sanitized, and the staging Pod was observed gone in the guest. */
  predicate Clean(s: State) {
    s.record.Some? && (s.record.value.phase == Sanitized || s.record.value.phase == Ready) && Removed(s.record.value)
  }

  /** The Pod is the one the entry stands for. */
  predicate Matches(p: Pod, e: Entry) { p.op == e.op && (e.uid == 0 || e.uid == p.uid) }

  /** At that moment, since the record was saved, the guest had no staging Pod. */
  predicate SeenGone(s: State, at: nat) { s.record.Some? && Staged(s.record.value) && s.record.value.version <= at <= s.cleared }

  predicate Enabled(s: State, step: Step) {
    match step
    case Begin => s.record.None?
    case Touch(version) => s.record.Some? && s.record.value.version == version
    case JournalStage(version, op) => At(s, version, Preparing) && s.record.value.stage.None? && op != 0 && op !in s.journaled
    case CreateStage(op) => op in s.journaled && s.pod.None?
    case KnowStage(version, uid) =>
      At(s, version, Preparing) && Staged(s.record.value) && s.record.value.stage.value.uid == 0 && uid in s.born && s.born[uid] == s.record.value.stage.value.op
    case DeleteStage => s.record.Some? && s.record.value.phase != Preparing && s.pod.Some? && s.pod.value.op in s.journaled
    case MarkGone(version, at) => (At(s, version, Sanitized) || At(s, version, Failed)) && SeenGone(s, at)
    case StartCopying(version, _) => At(s, version, Preparing) && Staged(s.record.value) && s.record.value.stage.value.uid != 0
    case Capture(who) => who in s.may && s.pod.Some? && s.host.Some?
    case Mask(who) => s.copier == Some(who) && 0 < s.captures && s.pod.Some? && s.host.Some?
    case Transfer(who) => s.copier == Some(who) && s.masked && s.pod.Some? && s.host.Some?
    case Sanitize(version, who) => At(s, version, Copying) && s.copier == Some(who) && s.masked && s.copied
    case Fail(version, seen) => At(s, version, Copying) && (seen.Some? ==> SeenGone(s, seen.value))
    case Open(at) => Clean(s) && s.goneAt <= at <= s.hostCleared
    case Expose => Clean(s) && s.accessible
    case Publish(version) => At(s, version, Sanitized) && s.accessible && s.exposed
    case _ => true
  }

  // ---------------------------------------------------------------- every interleaving

  /** Moments only grow, and what was there at one is older than it. */
  ghost predicate Clocked(s: State) {
    && 0 < s.next && s.cleared < s.next && s.hostCleared < s.next && s.goneAt < s.next
    && (s.record.Some? ==> 0 < s.record.value.version < s.next)
    && (if s.pod.Some? then 0 < s.pod.value.uid < s.next && s.cleared <= s.pod.value.uid else s.cleared == s.next - 1)
    && (if s.host.Some? then 0 < s.host.value < s.next && s.hostCleared <= s.host.value else s.hostCleared == s.next - 1)
    && (forall u :: u in s.raw ==> u < s.next) && (forall u :: u in s.born ==> 0 < u < s.next)
    && (forall op :: op in s.journaled ==> op != 0) && (s.pod.Some? && s.pod.value.op != 0 ==> s.pod.value.uid in s.born && s.born[s.pod.value.uid] == s.pod.value.op)
  }

  /** One worker at most may read the source, and the phases tell how far it got. */
  ghost predicate Phased(s: State) {
    && (s.may != {} ==> s.copier.Some? && s.may == {s.copier.value} && s.captures == 0)
    && (s.copier.None? ==> s.captures == 0 && (s.record.None? || s.record.value.phase == Preparing))
    && (s.copier.Some? ==> s.record.Some? && s.record.value.phase != Preparing && s.record.value.stage.Some?)
    && s.captures <= 1 && (s.captures == 0 ==> s.raw == {}) && (s.masked ==> s.captures == 1) && (s.copied ==> s.masked)
    && (s.record.Some? && (s.record.value.phase == Sanitized || s.record.value.phase == Ready) ==> s.masked && s.copied)
    && (s.record.Some? && Removed(s.record.value) ==> s.record.value.phase in {Failed, Sanitized, Ready})
    && (s.record.Some? && s.record.value.stage.Some? ==> s.record.value.stage.value.op in s.journaled)
  }

  /** Raw data is older than every observation of absence that counts. */
  ghost predicate RawSound(s: State) {
    && (s.record.Some? && (s.record.value.phase == Sanitized || s.record.value.phase == Ready) ==> forall u :: u in s.raw ==> u < s.record.value.version)
    && (Clean(s) ==> s.goneAt <= s.cleared && forall u :: u in s.raw ==> u < s.goneAt)
    && (s.record.Some? && Removed(s.record.value) ==> s.goneAt <= s.cleared)
    && (s.accessible ==> Clean(s) && s.goneAt <= s.hostCleared)
    && (s.exposed ==> s.accessible) && (s.record.Some? && s.record.value.phase == Ready ==> s.exposed)
    && (s.masked ==> forall u :: u in There(s) && u in s.raw ==> u in s.cleaned)
    && (s.source.Some? && s.source.value in s.raw ==> s.source.value in s.cleaned) && (s.source.Some? ==> s.masked)
  }

  ghost predicate Inv(s: State) { Clocked(s) && Phased(s) && RawSound(s) }

  /** Right before the clock ticks, what is new bears the present moment. */
  ghost predicate Present(s: State) {
    && 0 < s.next && s.cleared < s.next && s.hostCleared < s.next && s.goneAt < s.next
    && (s.record.Some? ==> 0 < s.record.value.version <= s.next)
    && (s.pod.Some? ==> 0 < s.pod.value.uid <= s.next && s.cleared <= s.pod.value.uid)
    && (s.host.Some? ==> 0 < s.host.value <= s.next && s.hostCleared <= s.host.value)
    && (forall u :: u in s.raw ==> u < s.next) && (forall u :: u in s.born ==> 0 < u <= s.next)
    && (forall op :: op in s.journaled ==> op != 0) && (s.pod.Some? && s.pod.value.op != 0 ==> s.pod.value.uid in s.born && s.born[s.pod.value.uid] == s.pod.value.op)
  }

  lemma TickClocked(s: State)
    requires Present(s)
    ensures Clocked(Tick(s))
  {}

  /** The saves that say how far the copy is, and those about the staging entry. */
  predicate Advances(step: Step) { step.Begin? || step.StartCopying? || step.Sanitize? || step.Fail? || step.Publish? }

  predicate Journals(step: Step) { step.Touch? || step.JournalStage? || step.KnowStage? || step.MarkGone? }

  lemma AdvanceFrame(s: State, step: Step)
    requires Clocked(s) && Enabled(s, step) && Advances(step)
    ensures var t := Effect(s, step);
      && t == s.(record := t.record, copier := t.copier, may := t.may, goneAt := t.goneAt)
      && t.record.Some? && t.record.value.version == s.next && t.goneAt < s.next
  {
    GoneBound(s, step);
    hide Clean, There, Gone, Removed, Staged, Clocked;
    if step.Fail? {
      FailFrame(s, step);
      hide Effect, Enabled;
    }
  }

  lemma FailFrame(s: State, step: Step)
    requires step.Fail? && s.record.Some? && s.goneAt < s.next && (step.seen.Some? ==> step.seen.value < s.next)
    ensures var t := Effect(s, step);
      t == s.(record := t.record, goneAt := t.goneAt) && t.record.Some? && t.record.value.version == s.next && t.goneAt < s.next
  {
    if step.seen.Some? { GoneShape(s, s.record.value.(phase := Failed), step.seen.value); }
    hide Gone;
  }

  lemma GoneBound(s: State, step: Step)
    requires Clocked(s) && Enabled(s, step)
    ensures s.goneAt < s.next && (step.Fail? ==> s.record.Some? && (step.seen.Some? ==> step.seen.value < s.next))
  {}

  lemma GoneShape(s: State, r: Record, at: nat)
    ensures var t := Gone(s, r, at);
      t == s.(record := t.record, goneAt := t.goneAt) && t.record.Some? && t.record.value.version == s.next && (t.goneAt == at || t.goneAt == s.goneAt)
  {}

  lemma AdvancePresent(s: State, step: Step)
    requires Clocked(s) && Enabled(s, step) && Advances(step)
    ensures Present(Effect(s, step))
  {
    AdvanceFrame(s, step);
    hide Enabled, Effect, Advances;
  }

  lemma JournalPresent(s: State, step: Step)
    requires Clocked(s) && Enabled(s, step) && Journals(step)
    ensures Present(Effect(s, step))
  {}

  lemma WorldPresent(s: State, step: Step)
    requires Clocked(s) && Enabled(s, step) && !Advances(step) && !Journals(step)
    ensures Present(Effect(s, step))
  {}

  lemma EffectPresent(s: State, step: Step)
    requires Clocked(s) && Enabled(s, step)
    ensures Present(Effect(s, step))
  {
    hide Enabled, Effect, Clocked, Present, Advances, Journals;
    if Advances(step) { AdvancePresent(s, step); } else if Journals(step) { JournalPresent(s, step); } else { WorldPresent(s, step); }
  }

  lemma ClockedStep(s: State, step: Step)
    requires Clocked(s) && Enabled(s, step)
    ensures Clocked(After(s, step))
  {
    hide Clocked, Enabled, Effect, Tick, Present;
    EffectPresent(s, step);
    TickClocked(Effect(s, step));
  }

  lemma TickPhased(s: State)
    ensures Phased(Tick(s)) == Phased(s)
  {}

  lemma AdvancePhased(s: State, step: Step)
    requires Phased(s) && Enabled(s, step) && Advances(step)
    ensures Phased(Effect(s, step))
  {}

  lemma JournalPhased(s: State, step: Step)
    requires Phased(s) && Enabled(s, step) && Journals(step)
    ensures Phased(Effect(s, step))
  {}

  lemma WorldPhased(s: State, step: Step)
    requires Phased(s) && Enabled(s, step) && !Advances(step) && !Journals(step)
    ensures Phased(Effect(s, step))
  {}

  lemma PhasedStep(s: State, step: Step)
    requires Phased(s) && Enabled(s, step)
    ensures Phased(After(s, step))
  {
    hide Enabled, Effect, Phased, Advances, Journals, Tick;
    TickPhased(Effect(s, step));
    if Advances(step) { AdvancePhased(s, step); } else if Journals(step) { JournalPhased(s, step); } else { WorldPhased(s, step); }
  }

  lemma PresentClock(s: State)
    requires Present(s)
    ensures s.cleared < s.next && s.hostCleared < s.next
  {}

  /** Time alone only moves the last moments of absence on. */
  lemma TickRaw(s: State)
    requires RawSound(s) && s.cleared < s.next && s.hostCleared < s.next
    ensures RawSound(Tick(s))
  {
    assert There(Tick(s)) == There(s);
  }

  lemma AdvanceRaw(s: State, step: Step)
    requires Inv(s) && Enabled(s, step) && Advances(step)
    ensures RawSound(Effect(s, step))
  {}

  lemma JournalRaw(s: State, step: Step)
    requires Inv(s) && Enabled(s, step) && Journals(step)
    ensures RawSound(Effect(s, step))
  {}

  lemma WorldRaw(s: State, step: Step)
    requires Inv(s) && Enabled(s, step) && !Advances(step) && !Journals(step)
    ensures RawSound(Effect(s, step))
  {}

  lemma RawStep(s: State, step: Step)
    requires Inv(s) && Enabled(s, step)
    ensures RawSound(After(s, step))
  {
    hide Enabled, Effect, RawSound, Advances, Journals, Tick, Clocked, Phased, Present;
    EffectPresent(s, step);
    PresentClock(Effect(s, step));
    if Advances(step) { AdvanceRaw(s, step); } else if Journals(step) { JournalRaw(s, step); } else { WorldRaw(s, step); }
    TickRaw(Effect(s, step));
  }

  lemma StepKeeps(s: State, step: Step)
    requires Inv(s) && Enabled(s, step)
    ensures Inv(After(s, step))
  {
    hide Clocked, Phased, RawSound, Enabled, After;
    ClockedStep(s, step);
    PhasedStep(s, step);
    RawStep(s, step);
  }

  function Exec(steps: seq<Step>): State {
    if steps == [] then BLANK else After(Exec(steps[..|steps| - 1]), steps[|steps| - 1])
  }

  predicate Legal(steps: seq<Step>) {
    steps == [] || (Legal(steps[..|steps| - 1]) && Enabled(Exec(steps[..|steps| - 1]), steps[|steps| - 1]))
  }

  lemma Extend(steps: seq<Step>, step: Step)
    requires Legal(steps) && Enabled(Exec(steps), step)
    ensures Legal(steps + [step]) && Exec(steps + [step]) == After(Exec(steps), step)
  {
    hide Enabled, After;
    assert (steps + [step])[..|steps|] == steps;
  }

  lemma {:induction false} AlwaysSound(steps: seq<Step>)
    requires Legal(steps)
    ensures Inv(Exec(steps))
  {
    hide Inv, Enabled, After;
    if steps == [] {
      BlankSound();
    } else {
      AlwaysSound(steps[..|steps| - 1]);
      StepKeeps(Exec(steps[..|steps| - 1]), steps[|steps| - 1]);
    }
  }

  lemma BlankSound()
    ensures Inv(BLANK) && Legal([]) && Exec([]) == BLANK
  {
    hide After, Enabled, Gone;
    assert Clocked(BLANK);
    assert Phased(BLANK) && RawSound(BLANK);
  }

  function Captures(steps: seq<Step>): nat {
    if steps == [] then 0 else Captures(steps[..|steps| - 1]) + if steps[|steps| - 1].Capture? then 1 else 0
  }

  lemma {:induction false} CapturesCounted(steps: seq<Step>)
    ensures Captures(steps) == Exec(steps).captures
  {
    if steps != [] {
      CapturesCounted(steps[..|steps| - 1]);
      CaptureCounts(Exec(steps[..|steps| - 1]), steps[|steps| - 1]);
    }
  }

  lemma CaptureCounts(s: State, step: Step)
    ensures After(s, step).captures == s.captures + if step.Capture? then 1 else 0
  {
    hide Gone, There, Stored;
    GoneFrame(s);
  }

  lemma GoneFrame(s: State)
    ensures forall r, at :: Gone(s, r, at).captures == s.captures && Gone(s, r, at).copier == s.copier
    ensures forall r :: Stored(s, r).captures == s.captures
    ensures forall r :: Stored(s, r).copier == s.copier
  {}

  /** Whatever workers crash, retry or overlap: the source is read at most once. */
  lemma SourceReadOnce(steps: seq<Step>)
    requires Legal(steps)
    ensures Captures(steps) <= 1
  {
    CapturesCounted(steps);
    AlwaysSound(steps);
  }

  lemma OpenStays(s: State, step: Step)
    requires Enabled(s, step) && Inv(s) && s.accessible
    ensures After(s, step).accessible
  {}

  /** Once opened, or Ready, whatever happens. */
  lemma {:induction false} OpenLater(steps: seq<Step>, k: nat)
    requires Legal(steps) && k <= |steps|
    requires var s := Exec(steps[..k]); s.accessible || s.exposed || (s.record.Some? && s.record.value.phase == Ready)
    ensures Exec(steps).accessible
  {
    if k == |steps| {
      assert steps[..k] == steps;
      AlwaysSound(steps);
    } else {
      hide Enabled, After, Inv;
      var n := |steps| - 1;
      assert steps[..n][..k] == steps[..k];
      OpenLater(steps[..n], k);
      AlwaysSound(steps[..n]);
      OpenStays(Exec(steps[..n]), steps[n]);
    }
  }

  /** The final database is opened, its network policy is opened, and it becomes Ready,
      only when the data was captured, masked and copied; and then, and ever after, no Pod
      that received raw data exists, neither in the guest nor on the host. */
  lemma OpenedAfterSanitized(steps: seq<Step>, k: nat)
    requires Legal(steps) && k <= |steps|
    requires var s := Exec(steps[..k]); s.accessible || s.exposed || (s.record.Some? && s.record.value.phase == Ready)
    ensures var s := Exec(steps); s.captures == 1 && s.masked && s.copied && There(s) !! s.raw
  {
    OpenLater(steps, k);
    AlwaysSound(steps);
    OpenApart(Exec(steps));
  }

  lemma OpenApart(s: State)
    requires Inv(s) && s.accessible
    ensures s.captures == 1 && s.masked && s.copied && There(s) !! s.raw
  {}

  /** Whenever data was copied to the final database, the Pod it came from had been masked
      since it received raw data, if it ever did. */
  lemma CopiedFromMasked(steps: seq<Step>)
    requires Legal(steps)
    ensures var s := Exec(steps); s.source.Some? && s.source.value in s.raw ==> s.source.value in s.cleaned
  {
    AlwaysSound(steps);
  }

  // ---------------------------------------------------------------- when a staging Pod exists

  /** Step `k` puts a Pod under the name of the staging Pod, and it has stayed since. */
  ghost predicate PutAt(steps: seq<Step>, k: nat) {
    && k < |steps| && (steps[k].CreateStage? || steps[k].Place?) && Exec(steps[..k]).pod.None?
    && forall m :: k < m <= |steps| ==> SamePod(Exec(steps[..m]), Exec(steps[..k]).next)
  }

  ghost predicate SamePod(s: State, uid: Uid) { s.pod.Some? && s.pod.value.uid == uid }

  lemma PodStep(s: State, step: Step)
    requires Enabled(s, step) && After(s, step).pod.Some?
    ensures s.pod.None? ==> (step.CreateStage? || step.Place?) && After(s, step).pod.value.uid == s.next
    ensures s.pod.Some? ==> After(s, step).pod.value.uid == s.pod.value.uid
  {
    hide Gone, Stored, There;
    PodFrame(s);
  }

  lemma PodFrame(s: State)
    ensures forall r, at :: Gone(s, r, at).pod == s.pod
    ensures forall r :: Stored(s, r).pod == s.pod
  {}

  lemma {:induction false} PodOrigin(steps: seq<Step>) returns (k: nat)
    requires Legal(steps) && Exec(steps).pod.Some?
    ensures PutAt(steps, k) && Exec(steps).pod.value.uid == Exec(steps[..k]).next
  {
    hide Enabled, After;
    var n := |steps| - 1;
    var s := Exec(steps[..n]);
    PodStep(s, steps[n]);
    assert steps[..|steps|] == steps;
    if s.pod.None? {
      k := n;
    } else {
      k := PodOrigin(steps[..n]);
      assert steps[..n][..k] == steps[..k];
      forall m | k < m <= |steps| ensures SamePod(Exec(steps[..m]), Exec(steps[..k]).next) {
        if m <= n { assert steps[..n][..m] == steps[..m]; }
      }
    }
  }

  lemma RemovedClear(s: State)
    requires Inv(s) && s.record.Some? && Removed(s.record.value) && s.pod.Some?
    ensures s.goneAt <= s.pod.value.uid
  {}

  /** After the staging entry was marked gone, a Pod stands under that name exactly when
      somebody, a worker with an old copy or a stranger, put one there after the moment at
      which the journaled one was seen gone, and it has not been removed since.  Such a Pod
      never holds raw data once the copy was opened (`OpenedAfterSanitized`). */
  lemma StagePodExactly(steps: seq<Step>)
    requires Legal(steps) && Exec(steps).record.Some? && Removed(Exec(steps).record.value)
    ensures Exec(steps).pod.Some? <==> exists k: nat :: PutAt(steps, k) && Exec(steps).goneAt <= Exec(steps[..k]).next
  {
    hide Legal, Exec, Inv;
    AlwaysSound(steps);
    assert steps[..|steps|] == steps;
    if Exec(steps).pod.Some? {
      RemovedClear(Exec(steps));
      var k := PodOrigin(steps);
      assert PutAt(steps, k);
    }
    if exists k: nat :: PutAt(steps, k) && Exec(steps).goneAt <= Exec(steps[..k]).next {
      var k: nat :| PutAt(steps, k) && Exec(steps).goneAt <= Exec(steps[..k]).next;
      assert SamePod(Exec(steps[..|steps|]), Exec(steps[..k]).next);
    }
  }

  /** The worker that journals operation 9, creates and fills the staging Pod, and opens
      the copy; then a worker whose old copy has no UID yet creates the Pod again. */
  const LATE: seq<Step> := [
    Begin, JournalStage(1, 9), CreateStage(9), KnowStage(2, 3), HostStart, StartCopying(4, 0), Capture(0), Mask(0), Transfer(0), Sanitize(6, 0),
    DeleteStage, Vanish, HostStop, MarkGone(10, 13), Open(14), CreateStage(9)]

  lemma LatePrefix(k: nat, s: State)
    requires k < |LATE| && Legal(LATE[..k]) && s == Exec(LATE[..k]) && Enabled(s, LATE[k])
    ensures Legal(LATE[..k + 1]) && Exec(LATE[..k + 1]) == After(s, LATE[k])
  {
    hide Enabled, After, Legal, Exec;
    Extend(LATE[..k], LATE[k]);
    assert LATE[..k + 1] == LATE[..k] + [LATE[k]];
  }

  /** Where the run of `LATE` is after its 3rd, 6th, 10th and 15th step. */
  const FILLING := State(Some(Record(Copying, 6, Some(Entry(9, 3, false)))), Some(Pod(3, 9, false)), Some(5), 7,
    Some(0), {0}, 0, false, false, false, false, {}, {}, None, {9}, map[3 := 9], 2, 4, 0)
  const FILLED := FILLING.(record := Some(Record(Sanitized, 10, Some(Entry(9, 3, false)))), next := 11, may := {}, captures := 1,
    masked := true, copied := true, raw := {3, 5}, cleaned := {3, 5}, source := Some(5))
  const OPEN := FILLED.(record := Some(Record(Sanitized, 14, Some(Entry(9, 3, true)))), pod := None, host := None, next := 16,
    accessible := true, cleared := 15, hostCleared := 15, goneAt := 13)

  const MADE := State(Some(Record(Preparing, 2, Some(Entry(9, 0, false)))), Some(Pod(3, 9, false)), None, 4,
    None, {}, 0, false, false, false, false, {}, {}, None, {9}, map[3 := 9], 2, 3, 0)

  lemma LateMakes()
    ensures Legal(LATE[..3]) && Exec(LATE[..3]) == MADE
  {
    hide Inv, Gone, There;
    assert LATE[..0] == [];
    BlankSound();
    hide Legal, Exec;
    LatePrefix(0, BLANK);
    LatePrefix(1, Exec(LATE[..1]));
    LatePrefix(2, Exec(LATE[..2]));
  }

  lemma LateBegins()
    ensures Legal(LATE[..6]) && Exec(LATE[..6]) == FILLING
  {
    LateMakes();
    hide Legal, Exec, Gone, There;
    LatePrefix(3, MADE);
    LatePrefix(4, Exec(LATE[..4]));
    LatePrefix(5, Exec(LATE[..5]));
  }

  lemma LateFills()
    ensures Legal(LATE[..10]) && Exec(LATE[..10]) == FILLED
  {
    LateBegins();
    hide Legal, Exec;
    LatePrefix(6, FILLING);
    LatePrefix(7, Exec(LATE[..7]));
    LatePrefix(8, Exec(LATE[..8]));
    LatePrefix(9, Exec(LATE[..9]));
  }

  lemma LateOpens()
    ensures Legal(LATE[..15]) && Exec(LATE[..15]) == OPEN
  {
    LateFills();
    hide Legal, Exec;
    LatePrefix(10, FILLED);
    LatePrefix(11, Exec(LATE[..11]));
    LatePrefix(12, Exec(LATE[..12]));
    LatePrefix(13, Exec(LATE[..13]));
    LatePrefix(14, Exec(LATE[..14]));
  }

  /** So a staging Pod can exist while the copy is open, although all workers follow the
      protocol: creating it is not conditional on the record. */
  lemma StagePodAfterOpening()
    ensures Legal(LATE) && Exec(LATE).accessible && Exec(LATE).pod.Some? && Clean(Exec(LATE))
  {
    LateOpens();
    hide Legal, Exec;
    LatePrefix(15, OPEN);
    assert LATE[..16] == LATE;
  }

  // ---------------------------------------------------------------- one worker

  predicate ByOther(step: Step, me: Worker) {
    match step
    case StartCopying(_, who) => who != me
    case Capture(who) => who != me
    case Mask(who) => who != me
    case Transfer(who) => who != me
    case Sanitize(_, who) => who != me
    case _ => true
  }

  /** What other workers cannot change. */
  ghost predicate Rely(s: State, t: State, me: Worker) {
    && s.next <= t.next && s.cleared <= t.cleared && s.hostCleared <= t.hostCleared
    && (t.record == s.record || (t.record.Some? && s.next <= t.record.value.version))
    && (s.copier == Some(me) ==> t.copier == Some(me) && (me in s.may <==> me in t.may) && t.captures == s.captures && t.masked == s.masked && t.copied == s.copied)
    && (t.copier == Some(me) ==> s.copier == Some(me))
    && (Clean(s) ==> Clean(t) && t.goneAt == s.goneAt) && (s.accessible ==> t.accessible) && (s.exposed ==> t.exposed)
    && (forall u :: u in s.born ==> u in t.born && t.born[u] == s.born[u]) && s.journaled <= t.journaled
    && (s.record.Some? && s.record.value.phase != Preparing ==> t.record.Some? && t.record.value.phase != Preparing)
  }

  lemma TickRely(s: State, t: State, me: Worker)
    requires Rely(s, t, me) && t.cleared < t.next && t.hostCleared < t.next
    ensures Rely(s, Tick(t), me)
  {}

  lemma AdvanceRely(s: State, step: Step, me: Worker)
    requires Inv(s) && Enabled(s, step) && ByOther(step, me) && Advances(step)
    ensures Rely(s, Effect(s, step), me)
  {}

  lemma JournalRely(s: State, step: Step, me: Worker)
    requires Inv(s) && Enabled(s, step) && ByOther(step, me) && Journals(step)
    ensures Rely(s, Effect(s, step), me)
  {}

  lemma WorldRely(s: State, step: Step, me: Worker)
    requires Inv(s) && Enabled(s, step) && ByOther(step, me) && !Advances(step) && !Journals(step)
    ensures Rely(s, Effect(s, step), me)
  {}

  lemma RelyStep(s: State, step: Step, me: Worker)
    requires Inv(s) && Enabled(s, step) && ByOther(step, me)
    ensures Rely(s, After(s, step), me)
  {
    hide Enabled, Effect, RawSound, Advances, Journals, Tick, Clocked, Phased, Present, Rely, ByOther;
    EffectPresent(s, step);
    PresentClock(Effect(s, step));
    if Advances(step) { AdvanceRely(s, step, me); } else if Journals(step) { JournalRely(s, step, me); } else { WorldRely(s, step, me); }
    TickRely(s, Effect(s, step), me);
  }

  lemma RelyTransitive(s: State, t: State, u: State, me: Worker)
    requires Rely(s, t, me) && Rely(t, u, me)
    ensures Rely(s, u, me)
  {}

  lemma SelfRely(s: State, me: Worker)
    ensures Rely(s, s, me)
  {}

  datatype Saved = Fine | Refused | Unknown

  class Shared {
    const me: Worker
    var s: State
    ghost var log: seq<Step>

    constructor (me: Worker)
      ensures this.me == me && s == BLANK && log == [] && Valid()
    {
      hide Inv, Legal, Exec;
      this.me, s, log := me, BLANK, [];
      new;
      BlankSound();
    }

    /** What happened so far is a legal run of all workers. */
    ghost predicate Valid()
      reads this
    {
      Legal(log) && s == Exec(log) && Inv(s)
    }

    method Others()
      requires Valid()
      modifies this
      ensures Valid() && Rely(old(s), s, me) && old(log) <= log
    {
      hide Inv, Rely, Legal, Exec, After;
      var n: nat := *;
      SelfRely(s, me);
      while 0 < n
        invariant Valid() && Rely(old(s), s, me) && old(log) <= log
      {
        var step: Step := *;
        if Enabled(s, step) && ByOther(step, me) {
          ghost var before := s;
          StepKeeps(s, step);
          RelyStep(s, step, me);
          Extend(log, step);
          log := log + [step];
          s := After(s, step);
          RelyTransitive(old(s), before, s, me);
        }
        n := n - 1;
      }
    }

    method Load() returns (failed: bool, copy: Option<Record>)
      requires Valid()
      modifies this
      ensures Valid() && Rely(old(s), s, me) && old(log) <= log
      ensures !failed ==> copy == old(s).record
    {
      failed := *;
      copy := s.record;
      Others();
    }

    /** Does `step` and lets others act; the answer may be lost. */
    method Do(step: Step) returns (saved: Saved)
      requires Valid() && Enabled(s, step)
      modifies this
      ensures Valid() && old(log) <= log
      ensures saved.Fine? ==> Rely(After(old(s), step), s, me)
      ensures Rely(After(old(s), step), s, me) || Rely(old(s), s, me)
      ensures !saved.Refused?
    {
      hide Inv, Rely, Legal, Exec, Enabled, After;
      var reached: bool := *;
      var heard: bool := *;
      if reached {
        StepKeeps(s, step);
        Extend(log, step);
        log := log + [step];
        s := After(s, step);
      }
      Others();
      saved := if reached && heard then Fine else Unknown;
    }

    /** Saves a copy: refused unless the stored version is the copy's. */
    method Save(version: nat, step: Step) returns (saved: Saved, next: nat)
      requires Valid()
      requires s.record.Some? && s.record.value.version == version ==> Enabled(s, step)
      modifies this
      ensures Valid() && old(log) <= log
      ensures saved.Fine? ==> old(s).record.Some? && old(s).record.value.version == version && Rely(After(old(s), step), s, me)
      ensures (old(s).record.Some? && old(s).record.value.version == version && Rely(After(old(s), step), s, me)) || Rely(old(s), s, me)
      ensures next == old(s).next
    {
      hide Inv, Rely, Legal, Exec, Enabled, After;
      next := s.next;
      if s.record.Some? && s.record.value.version == version {
        saved := Do(step);
      } else {
        Others();
        saved := Refused;
      }
    }

    /** Reads the Pod under the name of the staging Pod, and tells the moment. */
    method GetPod() returns (r: Read<Pod>, at: nat)
      requires Valid()
      modifies this
      ensures Valid() && Rely(old(s), s, me) && old(log) <= log && at == old(s).next - 1
      ensures r.Found? ==> old(s).pod == Some(r.value)
      ensures r.Missing? ==> old(s).pod.None?
    {
      ClockedNow(s);
      var ok: bool := *;
      r := if !ok then Unreadable else if s.pod.Some? then Found(s.pod.value) else Missing;
      at := s.next - 1;
      Others();
    }

    /** Creates the staging Pod of an operation; refused while the name is taken. */
    method CreatePod(op: Op) returns (failed: bool, uid: Uid)
      requires Valid() && op in s.journaled
      modifies this
      ensures Valid() && old(log) <= log && uid == old(s).next
      ensures Rely(old(s), s, me) || (old(s).pod.None? && Rely(After(old(s), CreateStage(op)), s, me))
      ensures !failed ==> old(s).pod.None? && Rely(After(old(s), CreateStage(op)), s, me)
    {
      hide Inv, Rely, Legal, Exec, After;
      uid := s.next;
      failed := true;
      if s.pod.Some? {
        Others();
      } else {
        var saved := Do(CreateStage(op));
        failed := !saved.Fine?;
      }
    }

    /** Asks exactly the Pod that was seen to go. */
    method DeletePod(seen: Pod)
      requires Valid() && (s.pod == Some(seen) ==> Enabled(s, DeleteStage))
      modifies this
      ensures Valid() && old(log) <= log
      ensures Rely(old(s), s, me) || Rely(After(old(s), DeleteStage), s, me)
    {
      hide Inv, Rely, Legal, Exec, After, Enabled;
      if s.pod == Some(seen) {
        var saved := Do(DeleteStage);
      } else {
        Others();
      }
    }

    /** Whether the host lists no physical staging Pod. */
    method HostPodsGone() returns (r: Read<bool>, at: nat)
      requires Valid()
      modifies this
      ensures Valid() && Rely(old(s), s, me) && old(log) <= log && at == old(s).next - 1 && !r.Missing?
      ensures r.Found? ==> (r.value <==> old(s).host.None?)
    {
      ClockedNow(s);
      var ok: bool := *;
      r := if !ok then Unreadable else Found(s.host.None?);
      at := s.next - 1;
      Others();
    }
  }

  lemma ClockedNow(s: State)
    requires Inv(s)
    ensures 0 < s.next && (s.pod.None? ==> s.cleared == s.next - 1) && (s.host.None? ==> s.hostCleared == s.next - 1)
    ensures s.record.Some? ==> 0 < s.record.value.version < s.next
  {}

  // ---------------------------------------------------------------- facts across calls

  /** The copy is exact as long as its version is stored. */
  ghost predicate Holds(s: State, r: Record) {
    r.version < s.next && s.record.Some? && (s.record.value == r || r.version < s.record.value.version)
  }

  lemma HoldsMoved(s: State, t: State, r: Record, me: Worker)
    requires Inv(s) && Holds(s, r) && Rely(s, t, me)
    ensures Holds(t, r)
  {}

  lemma SavedFrame(s: State, step: Step)
    requires Inv(s) && Enabled(s, step) && (Advances(step) || Journals(step))
    ensures After(s, step).record.Some? && After(s, step).record.value.version == s.next && After(s, step).next == s.next + 1
    ensures !step.StartCopying? ==> After(s, step).copier == s.copier
    ensures After(s, step).accessible == s.accessible && After(s, step).exposed == s.exposed
  {
    hide Phased, RawSound, Tick;
    if Advances(step) {
      AdvanceFrame(s, step);
      if !step.StartCopying? { CopierFrame(s, step); }
      hide Effect, Enabled, Clocked;
    } else {
      JournalFrame(s, step);
      hide Effect, Enabled, Clocked;
    }
    TickFrame(Effect(s, step));
  }

  lemma TickFrame(s: State)
    ensures Tick(s) == s.(next := s.next + 1, cleared := Tick(s).cleared, hostCleared := Tick(s).hostCleared)
  {}

  lemma CopierFrame(s: State, step: Step)
    requires Advances(step) && !step.StartCopying?
    ensures Effect(s, step).copier == s.copier
  {
    hide Gone, Stored;
    GoneFrame(s);
  }

  lemma JournalFrame(s: State, step: Step)
    requires Enabled(s, step) && Journals(step)
    ensures var t := Effect(s, step);
      && t == s.(record := t.record, journaled := t.journaled, goneAt := t.goneAt) && t.record.Some? && t.record.value.version == s.next
  {}

  /** The copy that was saved is the stored one, unless somebody saved again. */
  lemma SavedHolds(s: State, t: State, step: Step, r: Record, me: Worker)
    requires Inv(s) && Holds(s, r) && s.record.value.version == r.version && Rely(After(s, step), t, me) && Enabled(s, step)
    requires (Advances(step) || Journals(step)) && !step.Begin?
    ensures s.record.value == r && Holds(t, After(s, step).record.value) && After(s, step).record.value.version == s.next
    ensures Clean(After(s, step)) ==> Clean(t)
  {
    SavedFrame(s, step);
    hide After, Enabled, Inv;
  }

  /** Whatever became of a save, the old copy is not newer than the stored one. */
  lemma TriedHolds(s: State, t: State, step: Step, r: Record, me: Worker)
    requires Inv(s) && Holds(s, r) && (s.record.value.version == r.version ==> Enabled(s, step)) && (Advances(step) || Journals(step)) && !step.Begin?
    requires (s.record.value.version == r.version && Rely(After(s, step), t, me)) || Rely(s, t, me)
    ensures Holds(t, r) && (s.accessible ==> t.accessible) && (s.exposed ==> t.exposed)
  {
    if s.record.value.version == r.version { SavedFrame(s, step); }
    hide After, Enabled, Inv;
  }

  lemma Moved(s: State, t: State, r: Record, me: Worker)
    requires Inv(s) && Holds(s, r) && Rely(s, t, me)
    ensures Holds(t, r) && (Clean(s) ==> Clean(t) && t.goneAt == s.goneAt) && (s.accessible ==> t.accessible) && (s.exposed ==> t.exposed)
    ensures s.cleared <= t.cleared && s.hostCleared <= t.hostCleared && s.next <= t.next
  {
    hide Inv;
  }

  // ---------------------------------------------------------------- the staging Pod is made

  /** An operation nobody has used. */
  method FreshOp(avoid: set<Op>) returns (op: Op)
    ensures op != 0 && op !in avoid
  {
    op := 1;
    var rest := avoid;
    while op in rest
      invariant rest <= avoid && op != 0 && forall x :: x in avoid && x !in rest ==> x < op
      decreases |rest|
    {
      rest := rest - {op};
      op := op + 1;
    }
  }

  lemma JournalAllowed(s: State, r: Record, op: Op)
    requires Holds(s, r) && r.phase == Preparing && r.stage.None? && op != 0 && op !in s.journaled
    ensures s.record.value.version == r.version ==> Enabled(s, JournalStage(r.version, op))
  {}

  lemma Journaled(s: State, t: State, r: Record, op: Op, me: Worker)
    requires Inv(s) && Holds(s, r) && r.phase == Preparing && r.stage.None? && s.record.value.version == r.version && Enabled(s, JournalStage(r.version, op))
    requires Rely(After(s, JournalStage(r.version, op)), t, me)
    ensures Holds(t, r.(version := s.next, stage := Some(Entry(op, 0, false)))) && op in t.journaled
  {
    SavedHolds(s, t, JournalStage(r.version, op), r, me);
  }

  lemma EntryJournaled(s: State, r: Record)
    requires Inv(s) && s.record == Some(r) && r.stage.Some?
    ensures r.stage.value.op in s.journaled && r.stage.value.op != 0
  {}

  lemma KnowAllowed(s: State, r: Record, uid: Uid)
    requires Holds(s, r) && r.phase == Preparing && Staged(r) && r.stage.value.uid == 0 && uid in s.born && s.born[uid] == r.stage.value.op
    ensures s.record.value.version == r.version ==> Enabled(s, KnowStage(r.version, uid))
  {}

  /** The staging entry of the copy was saved and is live. */
  ghost predicate Known(s: State, r: Record) {
    r.stage.Some? ==> !r.stage.value.gone && r.stage.value.op != 0 && r.stage.value.op in s.journaled
  }

  lemma KnownMoved(s: State, t: State, r: Record, me: Worker)
    requires Known(s, r) && Rely(s, t, me)
    ensures Known(t, r)
  {}

  lemma Identified(s: State, t: State, r: Record, uid: Uid, me: Worker)
    requires Inv(s) && Holds(s, r) && r.phase == Preparing && Staged(r) && s.record.value.version == r.version && Enabled(s, KnowStage(r.version, uid))
    requires Rely(After(s, KnowStage(r.version, uid)), t, me)
    ensures Holds(t, r.(version := s.next, stage := Some(r.stage.value.(uid := uid))))
  {
    SavedHolds(s, t, KnowStage(r.version, uid), r, me);
  }

  lemma CreatedBorn(s: State, t: State, r: Record, op: Op, me: Worker)
    requires Inv(s) && Holds(s, r) && Enabled(s, CreateStage(op)) && Rely(After(s, CreateStage(op)), t, me)
    ensures Holds(t, r) && s.next in t.born && t.born[s.next] == op
  {}

  lemma FoundBorn(s: State, t: State, p: Pod, me: Worker)
    requires Inv(s) && s.pod == Some(p) && p.op != 0 && Rely(s, t, me)
    ensures p.uid in t.born && t.born[p.uid] == p.op && p.uid != 0
  {}

  /** Makes sure that the staging Pod of a copy in preparation exists and is ours: its entry
      is journaled first, a Pod of anyone else is never adopted, and one that disappeared
      is not created again. */
  method EnsureStage(shared: Shared, r: Record) returns (ready: bool, later: Record)
    requires shared.Valid() && Holds(shared.s, r) && r.phase == Preparing && Known(shared.s, r)
    modifies shared
    ensures shared.Valid() && old(shared.log) <= shared.log
    ensures ready ==> Holds(shared.s, later) && later.phase == Preparing && Staged(later) && later.stage.value.uid != 0
  {
    hide Inv, Rely, Legal, Exec, Clean, Holds, After, Enabled;
    later := r;
    ghost var s0 := shared.s;
    var live, at := shared.GetPod();
    ghost var s1 := shared.s;
    Moved(s0, s1, r, shared.me);
    KnownMoved(s0, s1, r, shared.me);
    if live.Unreadable? { return false, r; }
    if r.stage.None? {
      if live.Found? { return false, r; }
      var op := FreshOp(shared.s.journaled);
      JournalAllowed(s1, r, op);
      var saved, version := shared.Save(r.version, JournalStage(r.version, op));
      if !saved.Fine? { return false, r; }
      Journaled(s1, shared.s, r, op, shared.me);
      later := r.(version := version, stage := Some(Entry(op, 0, false)));
    }
    var e := later.stage.value;
    var uid := e.uid;
    ghost var s2 := shared.s;
    if live.Missing? {
      if e.uid != 0 { return false, later; }
      var failed;
      CreateAllowed(s2, e.op);
      failed, uid := shared.CreatePod(e.op);
      if failed { return false, later; }
      CreatedBorn(s2, shared.s, later, e.op, shared.me);
      ClockedNow(s2);
    } else {
      if !Matches(live.value, e) { return false, later; }
      FoundBorn(s0, s1, live.value, shared.me);
      uid := live.value.uid;
    }
    if e.uid == 0 {
      ghost var s3 := shared.s;
      KnowAllowed(s3, later, uid);
      var saved, version := shared.Save(later.version, KnowStage(later.version, uid));
      if !saved.Fine? { return false, later; }
      Identified(s3, shared.s, later, uid, shared.me);
      later := later.(version := version, stage := Some(e.(uid := uid)));
    }
    return true, later;
  }

  lemma CreateAllowed(s: State, op: Op)
    requires op in s.journaled
    ensures s.pod.None? ==> Enabled(s, CreateStage(op))
  {}

  // ---------------------------------------------------------------- the staging Pod is removed

  /** A copy of the record from after the source may have been read. */
  ghost predicate Past(s: State, r: Record) {
    && Holds(s, r) && r.phase in {Copying, Sanitized, Failed} && r.stage.Some? && r.stage.value.op != 0 && r.stage.value.op in s.journaled
    && s.record.value.phase != Preparing && (r.phase == Sanitized && Removed(r) ==> Clean(s))
  }

  lemma PastMoved(s: State, t: State, r: Record, me: Worker)
    requires Inv(s) && Past(s, r) && Rely(s, t, me)
    ensures Past(t, r)
  {
    hide Clocked, Phased, RawSound;
  }

  lemma PastHolds(s: State, r: Record)
    requires Past(s, r)
    ensures Holds(s, r) && s.record.Some? && r.stage.Some? && (r.phase == Sanitized && Removed(r) ==> Clean(s))
  {}

  lemma AbsentNow(s: State, t: State, at: nat, me: Worker)
    requires Inv(s) && s.pod.None? && at == s.next - 1 && Rely(s, t, me)
    ensures at <= t.cleared
  {}

  lemma MarkAllowed(s: State, r: Record, at: nat)
    requires Past(s, r) && r.phase != Copying && Staged(r) && r.version <= at <= s.cleared
    ensures s.record.value.version == r.version ==> Enabled(s, MarkGone(r.version, at))
  {}

  lemma MarkSaved(s: State, t: State, r: Record, at: nat, me: Worker)
    requires Inv(s) && Past(s, r) && Staged(r) && s.record.value.version == r.version && Enabled(s, MarkGone(r.version, at))
    requires Rely(After(s, MarkGone(r.version, at)), t, me)
    ensures Past(t, r.(version := s.next, stage := Some(r.stage.value.(gone := true))))
  {
    SavedHolds(s, t, MarkGone(r.version, at), r, me);
    var m := After(s, MarkGone(r.version, at));
    assert m.record.value.phase != Preparing && m.journaled == s.journaled;
    hide Inv;
  }

  lemma DeleteAllowed(s: State, r: Record, p: Pod)
    requires Past(s, r) && Matches(p, r.stage.value)
    ensures s.pod == Some(p) ==> Enabled(s, DeleteStage)
  {}

  lemma DeleteMoved(s: State, t: State, r: Record, p: Pod, me: Worker)
    requires Inv(s) && Past(s, r) && (Rely(s, t, me) || (s.pod == Some(p) && Rely(After(s, DeleteStage), t, me)))
    ensures Past(t, r)
  {
    if !Rely(s, t, me) { DeleteFrame(s, r); }
    hide Inv, After;
  }

  lemma DeleteFrame(s: State, r: Record)
    requires Inv(s) && Past(s, r)
    ensures Past(After(s, DeleteStage), r)
  {
    hide Inv;
  }

  /** Asks the staging Pod to go, and marks its entry once it was seen absent. */
  method RemoveStage(shared: Shared, r: Record) returns (done: bool, later: Record)
    requires shared.Valid() && Past(shared.s, r) && r.phase != Copying
    modifies shared
    ensures shared.Valid() && old(shared.log) <= shared.log
    ensures done ==> Past(shared.s, later) && later.phase == r.phase && Removed(later)
  {
    hide Inv, Rely, Legal, Exec, Past, Holds, After, Enabled, Clean;
    ghost var s0 := shared.s;
    PastHolds(s0, r);
    if Removed(r) { return true, r; }
    var live, at := shared.GetPod();
    ghost var s1 := shared.s;
    PastMoved(s0, s1, r, shared.me);
    PastHolds(s1, r);
    if live.Unreadable? { return false, r; }
    if live.Missing? {
      AbsentNow(s0, s1, at, shared.me);
      SinceSaved(s0, r, at);
      MarkAllowed(s1, r, at);
      var saved, version := shared.Save(r.version, MarkGone(r.version, at));
      if !saved.Fine? { return false, r; }
      MarkSaved(s1, shared.s, r, at, shared.me);
      return true, r.(version := version, stage := Some(r.stage.value.(gone := true)));
    }
    if !Matches(live.value, r.stage.value) { return false, r; }
    DeleteAllowed(s1, r, live.value);
    shared.DeletePod(live.value);
    return false, r;
  }

  lemma SinceSaved(s: State, r: Record, at: nat)
    requires Past(s, r) && at == s.next - 1
    ensures r.version <= at
  {}

  /** This worker holds the copy, has not read the source yet, and its copy is `r`. */
  ghost predicate Copier(s: State, me: Worker, r: Record) {
    s.copier == Some(me) && me in s.may && s.captures == 0 && !s.masked && !s.copied && Past(s, r) && r.phase == Copying && Staged(r)
  }

  lemma FailAllowed(s: State, r: Record, seen: Option<nat>)
    requires Past(s, r) && r.phase == Copying && (seen.Some? ==> Staged(r) && r.version <= seen.value <= s.cleared)
    ensures s.record.value.version == r.version ==> Enabled(s, Fail(r.version, seen))
  {}

  lemma FailSaved(s: State, t: State, r: Record, me: Worker)
    requires Inv(s) && Past(s, r) && r.phase == Copying && s.record.value.version == r.version && Enabled(s, Fail(r.version, None))
    requires Rely(After(s, Fail(r.version, None)), t, me)
    ensures Past(t, r.(phase := Failed, version := s.next))
  {
    SavedHolds(s, t, Fail(r.version, None), r, me);
    var m := After(s, Fail(r.version, None));
    assert m.record.value.phase != Preparing && m.journaled == s.journaled;
    hide Inv;
  }

  lemma FailTried(s: State, t: State, r: Record, me: Worker)
    requires Inv(s) && Past(s, r) && r.phase == Copying && (s.record.value.version == r.version ==> Enabled(s, Fail(r.version, None)))
    requires (s.record.value.version == r.version && Rely(After(s, Fail(r.version, None)), t, me)) || Rely(s, t, me)
    ensures Past(t, r)
  {
    TriedHolds(s, t, Fail(r.version, None), r, me);
    if s.record.value.version == r.version && Rely(After(s, Fail(r.version, None)), t, me) {
      var m := After(s, Fail(r.version, None));
      assert m.record.value.phase != Preparing && m.journaled == s.journaled;
    }
    hide Inv;
  }

  /** Marks the copy failed and asks its staging Pod to go. */
  method GiveUp(shared: Shared, r: Record)
    requires shared.Valid() && Past(shared.s, r) && r.phase == Copying && Staged(r)
    modifies shared
    ensures shared.Valid() && old(shared.log) <= shared.log
  {
    hide Inv, Rely, Legal, Exec, Past, Holds, After, Enabled, Clean;
    ghost var s0 := shared.s;
    PastHolds(s0, r);
    FailAllowed(s0, r, None);
    var saved, version := shared.Save(r.version, Fail(r.version, None));
    FailTried(s0, shared.s, r, shared.me);
    if saved.Fine? {
      FailSaved(s0, shared.s, r, shared.me);
      var done, later := RemoveStage(shared, r.(phase := Failed, version := version));
      return;
    }
    // The error of this save is ignored; the copy keeps its old version.
    ghost var s1 := shared.s;
    var live, at := shared.GetPod();
    ghost var s2 := shared.s;
    PastMoved(s1, s2, r, shared.me);
    PastHolds(s2, r);
    if live.Missing? {
      AbsentNow(s1, s2, at, shared.me);
      SinceSaved(s1, r, at);
      FailAllowed(s2, r, Some(at));
      saved, version := shared.Save(r.version, Fail(r.version, Some(at)));
    } else if live.Found? && Matches(live.value, r.stage.value) {
      DeleteAllowed(s2, r, live.value);
      shared.DeletePod(live.value);
    }
  }

  // ---------------------------------------------------------------- copying

  lemma EffectAllowed(s: State, step: Step, me: Worker)
    requires s.copier == Some(me) && s.pod.Some? && s.host.Some?
    requires (step == Capture(me) && me in s.may) || (step == Mask(me) && 0 < s.captures) || (step == Transfer(me) && s.masked)
    ensures Enabled(s, step)
  {}

  lemma EffectFrame(s: State, step: Step, r: Record)
    requires Inv(s) && Past(s, r) && (step.Capture? || step.Mask? || step.Transfer?)
    ensures Past(After(s, step), r) && After(s, step).copier == s.copier
  {
    hide Inv;
  }

  /** How far the copier got. */
  ghost predicate Copied(s: State, me: Worker, captures: nat, masked: bool, copied: bool) {
    s.copier == Some(me) && s.captures == captures && s.masked == masked && s.copied == copied && (captures == 0 ==> me in s.may)
  }

  lemma EffectDone(s: State, t: State, step: Step, r: Record, me: Worker, captures: nat, masked: bool, copied: bool)
    requires Inv(s) && Copied(s, me, captures, masked, copied) && Rely(After(s, step), t, me) && Past(s, r)
    requires step == Capture(me) || step == Mask(me) || step == Transfer(me)
    ensures Past(t, r) && Copied(t, me, if step.Capture? then captures + 1 else captures, masked || step.Mask?, copied || step.Transfer?)
  {
    EffectFrame(s, step, r);
    hide Inv, Past;
    PastRely(After(s, step), t, r, me);
  }

  lemma PastRely(s: State, t: State, r: Record, me: Worker)
    requires Past(s, r) && Rely(s, t, me)
    ensures Past(t, r)
  {}

  lemma EffectTried(s: State, t: State, step: Step, r: Record, me: Worker)
    requires Inv(s) && Past(s, r) && (Rely(After(s, step), t, me) || Rely(s, t, me)) && (step.Capture? || step.Mask? || step.Transfer?)
    ensures Past(t, r)
  {
    EffectFrame(s, step, r);
    hide Inv, Past, After;
    if Rely(s, t, me) { PastRely(s, t, r, me); } else { PastRely(After(s, step), t, r, me); }
  }

  /** One of the three effects on the database in the staging Pod; it fails when the Pod
      is not there, and its answer may be lost. */
  method Perform(shared: Shared, r: Record, step: Step, ghost captures: nat, ghost masked: bool, ghost copied: bool) returns (fine: bool)
    requires shared.Valid() && Past(shared.s, r) && Copied(shared.s, shared.me, captures, masked, copied)
    requires (step == Capture(shared.me) && captures == 0) || (step == Mask(shared.me) && 0 < captures) || (step == Transfer(shared.me) && masked)
    modifies shared
    ensures shared.Valid() && old(shared.log) <= shared.log && Past(shared.s, r)
    ensures fine ==> Copied(shared.s, shared.me, if step.Capture? then captures + 1 else captures, masked || step.Mask?, copied || step.Transfer?)
  {
    hide Inv, Rely, Legal, Exec, Past, After, Enabled;
    ghost var s0 := shared.s;
    if shared.s.pod.None? || shared.s.host.None? { return false; }
    EffectAllowed(s0, step, shared.me);
    var saved := shared.Do(step);
    EffectTried(s0, shared.s, step, r, shared.me);
    if saved.Fine? { EffectDone(s0, shared.s, step, r, shared.me, captures, masked, copied); }
    return saved.Fine?;
  }

  /** Reads the source once, masks the staging data and copies it to the final database;
      any failure, or an answer that was lost, marks the copy failed. */
  method Copy(shared: Shared, r: Record) returns (done: bool, later: Record)
    requires shared.Valid() && Copier(shared.s, shared.me, r)
    modifies shared
    ensures shared.Valid() && old(shared.log) <= shared.log
    ensures done ==> Past(shared.s, later) && later.phase == Sanitized && Staged(later)
  {
    hide Inv, Rely, Legal, Exec, Past, Enabled, After;
    var fine := Perform(shared, r, Capture(shared.me), 0, false, false);
    if fine { fine := Perform(shared, r, Mask(shared.me), 1, false, false); }
    if fine { fine := Perform(shared, r, Transfer(shared.me), 1, true, false); }
    if !fine {
      GiveUp(shared, r);
      return false, r;
    }
    ghost var s0 := shared.s;
    PastHolds(s0, r);
    SanitizeAllowed(s0, r, shared.me);
    var saved, version := shared.Save(r.version, Sanitize(r.version, shared.me));
    if !saved.Fine? { return false, r; }
    SanitizeSaved(s0, shared.s, r, shared.me);
    return true, r.(phase := Sanitized, version := version);
  }

  lemma SanitizeAllowed(s: State, r: Record, me: Worker)
    requires Past(s, r) && r.phase == Copying && Copied(s, me, 1, true, true)
    ensures s.record.value.version == r.version ==> Enabled(s, Sanitize(r.version, me))
  {}

  lemma SanitizeSaved(s: State, t: State, r: Record, me: Worker)
    requires Inv(s) && Past(s, r) && r.phase == Copying && Staged(r) && s.record.value.version == r.version && Enabled(s, Sanitize(r.version, me))
    requires Rely(After(s, Sanitize(r.version, me)), t, me)
    ensures Past(t, r.(phase := Sanitized, version := s.next))
  {
    SavedHolds(s, t, Sanitize(r.version, me), r, me);
    var m := After(s, Sanitize(r.version, me));
    assert m.record.value.phase != Preparing && m.journaled == s.journaled;
    hide Inv;
  }

  // ---------------------------------------------------------------- one pass

  lemma TouchAllowed(s: State, r: Record)
    requires Holds(s, r)
    ensures s.record.Some? && (s.record.value.version == r.version ==> Enabled(s, Touch(r.version)))
  {}

  lemma TouchSaved(s: State, t: State, r: Record, me: Worker)
    requires Inv(s) && Holds(s, r) && s.record.value.version == r.version && Rely(After(s, Touch(r.version)), t, me)
    ensures Holds(t, r.(version := s.next)) && (Known(s, r) ==> Known(t, r.(version := s.next)))
    ensures Past(s, r) ==> Past(t, r.(version := s.next))
  {
    SavedHolds(s, t, Touch(r.version), r, me);
    var m := After(s, Touch(r.version));
    assert m.journaled == s.journaled && m.record.value.phase == s.record.value.phase && (Clean(s) ==> Clean(m));
    hide Inv;
  }

  /** Journals the other resources of the copy. */
  method Journal(shared: Shared, r: Record) returns (ready: bool, later: Record)
    requires shared.Valid() && Holds(shared.s, r)
    modifies shared
    ensures shared.Valid() && old(shared.log) <= shared.log
    ensures (old(shared.s).accessible ==> shared.s.accessible) && (old(shared.s).exposed ==> shared.s.exposed)
    ensures ready ==> Holds(shared.s, later) && later == r.(version := later.version)
    ensures ready && Known(old(shared.s), r) ==> Known(shared.s, later)
    ensures ready && Past(old(shared.s), r) ==> Past(shared.s, later)
  {
    hide Inv, Rely, Legal, Exec, Holds, Past, Known, After, Enabled;
    later := r;
    ready := true;
    var n: nat := *;
    while 0 < n && ready
      invariant shared.Valid() && old(shared.log) <= shared.log
      invariant (old(shared.s).accessible ==> shared.s.accessible) && (old(shared.s).exposed ==> shared.s.exposed)
      invariant ready ==> Holds(shared.s, later) && later == r.(version := later.version)
      invariant ready && Known(old(shared.s), r) ==> Known(shared.s, later)
      invariant ready && Past(old(shared.s), r) ==> Past(shared.s, later)
    {
      ghost var s0 := shared.s;
      TouchAllowed(s0, later);
      var saved, version := shared.Save(later.version, Touch(later.version));
      TouchTried(s0, shared.s, later, shared.me);
      if saved.Fine? {
        TouchSaved(s0, shared.s, later, shared.me);
        later := later.(version := version);
      } else {
        ready := false;
      }
      n := n - 1;
    }
  }

  lemma TouchTried(s: State, t: State, r: Record, me: Worker)
    requires Inv(s) && Holds(s, r) && (s.record.value.version == r.version ==> Enabled(s, Touch(r.version)))
    requires (s.record.value.version == r.version && Rely(After(s, Touch(r.version)), t, me)) || Rely(s, t, me)
    ensures (s.accessible ==> t.accessible) && (s.exposed ==> t.exposed)
  {
    TriedHolds(s, t, Touch(r.version), r, me);
  }

  lemma StartAllowed(s: State, r: Record, me: Worker)
    requires Holds(s, r) && r.phase == Preparing && Staged(r) && r.stage.value.uid != 0
    ensures s.record.value.version == r.version ==> Enabled(s, StartCopying(r.version, me))
  {}

  lemma CopierFacts(s: State, t: State, r: Record, me: Worker)
    requires Inv(s) && Holds(s, r) && r.phase == Preparing && Staged(r) && s.record.value.version == r.version
    requires Enabled(s, StartCopying(r.version, me)) && Rely(After(s, StartCopying(r.version, me)), t, me)
    ensures Copier(t, me, r.(phase := Copying, version := s.next))
  {
    SavedHolds(s, t, StartCopying(r.version, me), r, me);
    var m := After(s, StartCopying(r.version, me));
    assert m.record.value.phase != Preparing && m.journaled == s.journaled && m.copier == Some(me) && me in m.may;
    assert r.stage.value.op in s.journaled && r.stage.value.op != 0;
    assert m.captures == 0 && !m.masked && !m.copied;
    hide Inv, After, Enabled;
  }

  /** Prepares the copy in the Preparing phase up to Sanitized. */
  method Take(shared: Shared, r: Record) returns (done: bool, later: Record)
    requires shared.Valid() && Holds(shared.s, r) && r.phase == Preparing && Known(shared.s, r)
    modifies shared
    ensures shared.Valid() && old(shared.log) <= shared.log
    ensures done ==> Past(shared.s, later) && later.phase == Sanitized
  {
    hide Inv, Rely, Legal, Exec, Clean, Holds, Enabled, After, Copier, Known, Past;
    var ready, current := Journal(shared, r); // policies, the Secret and the volume
    if !ready { return false, r; }
    ready, current := EnsureStage(shared, current);
    if !ready { return false, r; }
    ready, current := Journal(shared, current); // the final Pod
    if !ready { return false, r; }
    var allowed: bool := *; // the Pods are ready, isolated, and the credentials are readable
    if !allowed { return false, current; }
    ghost var s0 := shared.s;
    StartAllowed(s0, current, shared.me);
    HoldsRecord(s0, current);
    var saved, version := shared.Save(current.version, StartCopying(current.version, shared.me));
    if !saved.Fine? { return false, current; }
    CopierFacts(s0, shared.s, current, shared.me);
    done, later := Copy(shared, current.(phase := Copying, version := version));
  }

  lemma HoldsRecord(s: State, r: Record)
    requires Holds(s, r)
    ensures s.record.Some?
  {}

  /** What a finished copy promises: above all, no Pod that received raw data is left. */
  ghost predicate Finished(s: State) {
    s.captures == 1 && s.masked && s.copied && Clean(s) && s.accessible && s.exposed && There(s) !! s.raw
  }

  lemma ExposedFinished(s: State)
    requires Inv(s) && s.exposed
    ensures Finished(s)
  {}

  lemma OpenAllowed(s: State, t: State, r: Record, at: nat, me: Worker)
    requires Inv(s) && Past(s, r) && r.phase == Sanitized && Removed(r) && s.host.None? && at == s.next - 1 && Rely(s, t, me)
    ensures Enabled(t, Open(at)) && Past(t, r)
  {
    PastMoved(s, t, r, me);
  }

  lemma ShownFrame(s: State, step: Step, r: Record)
    requires Inv(s) && Past(s, r) && (step.Open? || step.Expose?)
    ensures Past(After(s, step), r) && (Clean(s) ==> Clean(After(s, step)))
    ensures step.Open? ==> After(s, step).accessible
    ensures step.Expose? ==> After(s, step).exposed && (s.accessible ==> After(s, step).accessible)
  {
    hide Inv;
  }

  lemma ShownMoved(s: State, t: State, step: Step, r: Record, me: Worker)
    requires Inv(s) && Past(s, r) && Rely(After(s, step), t, me) && (step.Open? || step.Expose?)
    ensures Past(t, r) && (Clean(s) ==> Clean(t))
    ensures step.Open? ==> t.accessible
    ensures step.Expose? ==> t.exposed && (s.accessible ==> t.accessible)
  {
    ShownFrame(s, step, r);
    hide Inv, After, Past;
    PastRely(After(s, step), t, r, me);
  }

  lemma PublishAllowed(s: State, r: Record)
    requires Holds(s, r) && r.phase == Sanitized && s.accessible && s.exposed
    ensures s.record.Some? && (s.record.value.version == r.version ==> Enabled(s, Publish(r.version)))
  {}

  /** Opens a sanitized copy once nothing raw is left, and records it Ready. */
  method Release(shared: Shared, r: Record) returns (ready: bool)
    requires shared.Valid() && Past(shared.s, r) && r.phase == Sanitized
    modifies shared
    ensures shared.Valid() && old(shared.log) <= shared.log
    ensures ready ==> Finished(shared.s)
  {
    hide Inv, Rely, Legal, Exec, Clean, Holds, Enabled, After, Finished, Past;
    var done, current := RemoveStage(shared, r);
    if !done { return false; }
    ghost var s1 := shared.s;
    var gone, at := shared.HostPodsGone();
    if !gone.Found? || !gone.value { return false; }
    ghost var s2 := shared.s;
    OpenAllowed(s1, s2, current, at, shared.me);
    var saved := shared.Do(Open(at));
    if !saved.Fine? { return false; }
    ShownMoved(s2, shared.s, Open(at), current, shared.me);
    ghost var s3 := shared.s;
    PastHolds(s3, current);
    ExposeAllowed(s3);
    saved := shared.Do(Expose);
    if !saved.Fine? { return false; }
    ShownMoved(s3, shared.s, Expose, current, shared.me);
    PastHolds(shared.s, current);
    done, current := Journal(shared, current); // the Service
    if !done { return false; }
    ghost var s4 := shared.s;
    PublishAllowed(s4, current);
    var version;
    saved, version := shared.Save(current.version, Publish(current.version));
    if !saved.Fine? { return false; }
    PublishSaved(s4, shared.s, current, shared.me);
    ExposedFinished(shared.s);
    return true;
  }

  lemma ExposeAllowed(s: State)
    requires Clean(s) && s.accessible
    ensures Enabled(s, Expose)
  {}

  lemma PublishSaved(s: State, t: State, r: Record, me: Worker)
    requires Inv(s) && Holds(s, r) && s.record.value.version == r.version && Enabled(s, Publish(r.version)) && Rely(After(s, Publish(r.version)), t, me)
    ensures t.exposed
  {
    SavedFrame(s, Publish(r.version));
    hide After, Inv;
  }

  lemma LoadedFacts(s: State, t: State, me: Worker)
    requires Inv(s) && s.record.Some? && Rely(s, t, me)
    ensures Holds(t, s.record.value) && (s.record.value.phase == Copying ==> Staged(s.record.value))
    ensures s.record.value.phase == Preparing ==> Known(t, s.record.value)
    ensures s.record.value.phase in {Copying, Sanitized, Failed} ==> Past(t, s.record.value)
    ensures s.record.value.phase == Ready ==> t.exposed && t.accessible && Clean(t)
  {
    assert Clocked(s) && Phased(s) && RawSound(s);
  }

  lemma BegunFacts(s: State, t: State, me: Worker)
    requires Inv(s) && s.record.None? && Rely(After(s, Begin), t, me)
    ensures Holds(t, Record(Preparing, s.next, None))
  {}

  method Enroll(shared: Shared) returns (begun: bool, r: Record)
    requires shared.Valid()
    modifies shared
    ensures shared.Valid() && old(shared.log) <= shared.log
    ensures begun ==> Holds(shared.s, r) && r.phase == Preparing && r.stage.None?
  {
    hide Inv, Rely, Legal, Exec, Holds, After;
    r := Record(Preparing, shared.s.next, None);
    if shared.s.record.Some? { return false, r; }
    ghost var s0 := shared.s;
    var saved := shared.Do(Begin);
    if !saved.Fine? { return false, r; }
    BegunFacts(s0, shared.s, shared.me);
    begun := true;
  }

  lemma Unstaged(s: State, r: Record)
    requires r.stage.None?
    ensures Known(s, r)
  {}

  lemma ReadyExposed(s: State, t: State, me: Worker)
    requires s.exposed && (Rely(After(s, Expose), t, me) || Rely(s, t, me))
    ensures t.exposed
  {}

  /** One pass of the controller over one database. */
  method Prepare(shared: Shared) returns (ready: bool)
    requires shared.Valid()
    modifies shared
    ensures shared.Valid() && old(shared.log) <= shared.log
    ensures ready ==> Finished(shared.s)
  {
    hide Inv, Rely, Legal, Exec, Clean, Holds, Enabled, After, Finished, Known, Past;
    ghost var s0 := shared.s;
    var failed, copy := shared.Load();
    if failed { return false; }
    var r: Record;
    if copy.None? {
      var begun, blank := Enroll(shared);
      if !begun { return false; }
      r := blank;
      Unstaged(shared.s, r);
    } else {
      LoadedFacts(s0, shared.s, shared.me);
      r := copy.value;
    }
    ready := false;
    match r.phase
    case Copying =>
      ghost var s1 := shared.s;
      PastHolds(s1, r);
      FailAllowed(s1, r, None);
      var saved, version := shared.Save(r.version, Fail(r.version, None));
      if saved.Fine? {
        FailSaved(s1, shared.s, r, shared.me);
        var done, later := RemoveStage(shared, r.(phase := Failed, version := version));
      }
    case Failed =>
      var done, later := RemoveStage(shared, r);
    case Ready =>
      ghost var s1 := shared.s;
      ExposeAllowed(s1);
      var saved := shared.Do(Expose); // an open policy that was closed again
      ReadyExposed(s1, shared.s, shared.me);
      ExposedFinished(shared.s);
      var same: bool := *; // the published objects are still this replica's
      ready := saved.Fine? && same;
    case Preparing =>
      var done, later := Take(shared, r);
      if done { ready := Release(shared, later); }
    case Sanitized =>
      ready := Release(shared, r);
  }
}
