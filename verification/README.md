# Replicove model

Replicove is a set of Kubernetes controllers.  They write intent to protected, versioned
records, act on the API under UID and resource-version preconditions, and may stop between
any two writes.  This project models the protocols of those controllers and the graph and
data transformations they rely on, and proves what holds over all of their runs.

## How the protocols are modelled

Mirror, chaos, workflow and database share one shape.

- A `State` holds what is durable: stored records with versions, API objects with UIDs,
  markers and deletion flags, and a counter that issues UIDs and versions in increasing
  order.  A few fields record history (what was released, what was seen when).
- `Write` lists every durable write a controller may issue, `Enabled` says when it may be
  issued, and `Event` lists what everybody else may do.  `WriteKeeps` and `EventKeeps`
  prove the invariant for one step; the theorems of the `*Traces`, `*Runs`, `*History`,
  `*Order` and `*Journal` files are about all sequences of steps from a start state.
- A class (`Cluster`, `Guest`, `Shared`, `Store`, `Host`) is the API as one controller sees
  it.  Every call is one atomic operation, may fail, may take effect although its answer is
  lost, and lets everybody else act before it returns.  Saves compare and swap.  A ghost
  log records what happened, and its being a legal run is part of the class invariant.
- The controllers are methods over that class with the branches, loops and early returns
  of the Go code.  Verifying them means that each write they issue is allowed where it is
  issued, so the run theorems apply to every run of these methods.  A crash is a method
  that stops after an error; the next one starts by loading again.

Operation identifiers are fresh and cannot be guessed; UIDs and resource versions are never
issued twice.  Empty strings and zero times are the number zero.

| files | what they hold |
|---|---|
| `common` | options, read and write outcomes |
| `mirror_protocol`, `mirror_traces`, `mirror_history` | the mirror protocol, its theorems over runs, and exactly when late resets and lost generations happen |
| `mirror_cluster`, `mirror_facts` | the API for mirrors; facts that survive interference |
| `mirror_collect`, `mirror_collect_runs`, `mirror_teardown` | retiring, retention, release, removal, and termination of teardown |
| `mirror_advance`, `mirror_reconcile`, `mirror_witness` | the phases of a run, the reconcile loop, and the runs that limit the theorems |
| `planner_text`, `planner_order` | sorted duplicate-free lists; the depth-first ordering |
| `planner_json`, `planner_renaming` | JSON trees; copying to other namespaces and the references it keeps |
| `capture_closure` | added dependencies, the inclusion closure, and ordering what was captured |
| `capacity_ledger` | admission by optimistic concurrency |
| `chaos_protocol`, `chaos_runs`, `chaos_history`, `chaos_guest`, `chaos_controller` | fault experiments, what is left of them, and how scaled workloads come back |
| `workflow_host`, `workflow_journal`, `workflow_order`, `workflow_engine` | host inventory, the ownership journal, when it follows the plan, applying and removing a plan |
| `database_capture`, `database_masking` | the capture phases; accepted grants, the masking transaction, quoting |

## Where the code does less than one might expect

Each of these is a lemma with a concrete case.  The protocol cases are runs from the start,
in which every write was allowed; the lemma named last says, for all runs or inputs, exactly
when the property holds.

- The lease is checked before a run is marked Active.  If the last save is lost, a later
  reconcile moves the active UID without looking at the lease again, so a lease accepted
  in between is not honoured (`MirrorWitness.LeaseAcceptedTooLate`;
  `MirrorTraces.LeaseSince`, `MirrorTraces.PointerLeavesUnderLease`).
- A generation is created before its UID is recorded.  If its run is cancelled in between,
  nothing remembers it (`MirrorWitness.UnrecordedGenerationLeaks`;
  `MirrorHistory.TwoGenerations`).
- A Reset looks at the record of its revision, which outlives the snapshots, so it may be
  admitted onto a revision that is already being released
  (`MirrorWitness.ResetOntoReleased`; `MirrorHistory.RevisionPinned`).
- A copy drops the node name of a Pod template.  References are also read from there, so a
  JSON tree whose node name is not a string can lose one.  The API refuses such objects for
  typed kinds (`PlannerRenaming.NodeNameLosesReference`; `PlannerRenaming.TransformRenames`).
- Two definitions of one custom resource type make the captured set depend on the iteration
  order of a map (`CaptureClosure.TwoDefinitionsDiffer`; `CaptureClosure.PreparedUnique`).
- The namespace of a fault is looked at before the fault is created, so it can land in a
  namespace that took the old name, and rollback leaves it there
  (`ChaosHistory.FaultInReplacedNamespace`; `ChaosHistory.LeftoversExactly`).
- An object created again by a refresh, and a new object that a journaled one now needs, get
  journal entries at the end, so cleanup asks for them before the objects that need them
  (`WorkflowOrder.RecreatedGoesEarly`, `WorkflowOrder.RefreshGoesEarly`;
  `WorkflowJournal.OrderKept`, `WorkflowOrder.RefreshExactly`).
- Creating the staging Pod is not conditional on the record, so a worker with an old copy
  can create it again after the copy was opened; it then holds no raw data
  (`DatabaseCapture.StagePodAfterOpening`; `DatabaseCapture.StagePodExactly`).

## Model

| member | source | states |
|---|---|---|
| MirrorProtocol.WriteKeeps | internal/mirror/controller.go:136-298 | every durable write the mirror controller may issue (record saves and deletions, object creations and deletions, pointer moves) keeps the invariant: one recorded managed generation, a sound active pointer, pinned revisions, releases only of idle runs |
| MirrorProtocol.EventKeeps | internal/mirror/controller.go:302-367 | nothing that users, the clock, other controllers or the storage system do between two calls breaks the invariant |
| MirrorProtocol.RelyKeeps | internal/state/state.go:274-311 | what others may change while a copy is held: a record changes only under a new version, a UID never returns, deletion marks stay; every clause of the invariant survives that |
| MirrorProtocol.DependsPins | internal/mirror/cleanup.go:90-110 | every run that still depends on a revision is seen by the pinning rule, so a revision that nothing pins has no dependents |
| MirrorTraces.AlwaysSound | internal/mirror/controller.go:136-298 | the invariant holds in every state of every run, hence at every crash point |
| MirrorTraces.OneRecordedGeneration | internal/mirror/generation.go:170-190 | with the managed provider, two runs never both have a recorded generation that still exists |
| MirrorTraces.TeardownReleasesLast | internal/mirror/cleanup.go:79-89 | when teardown asks for a capture to go, nothing that the record of an enrolled run names besides its captures (generation, imports, volumes, policies) exists, then or ever again; of volumes and policies, unless somebody added to these inventories after the mirror had ended |
| MirrorTraces.ActivePointerSound | internal/mirror/generation.go:285-300 | the active UID is empty or names an enrolled run in phase Active or Retiring with an activation time |
| MirrorTraces.LeaseBounded | internal/mirror/controller.go:184-197 | an accepted lease never ends more than 30 minutes from now |
| MirrorTraces.ActivatedUnderLease | internal/mirror/generation.go:242-291 | whoever carries an activation time was marked active at a step at which the accepted lease had passed, or force was granted and its own request had asked for it |
| MirrorTraces.PointerMoves | internal/mirror/generation.go:292-338 | before teardown only two writes move the active UID away: clearing it while the lease is open to the pending run, or giving it to a pending run that is marked Active |
| MirrorTraces.PointerLeavesUnderLease | internal/mirror/generation.go:242-338 | over whole runs: whenever the active UID leaves a generation, the lease was open to the successor then, or was when it was marked active; and in the second case it still is exactly when no lease accepted in between is still running or its own force is permitted |
| MirrorTraces.LeaseSince | internal/mirror/generation.go:242-300 | once a run was marked active under an open lease, the lease stays open to it exactly until a new one is accepted that is still running, unless its own force is permitted |
| MirrorTraces.ForceAsked | internal/mirror/generation.go:308-318 | the runs that count as forced are exactly those whose request asked for force when it was made |
| MirrorHistory.LateAlways | internal/mirror/generation.go:33-55 | whoever was admitted late restores from a revision whose snapshots really are being deleted |
| MirrorHistory.LateExactly | internal/mirror/generation.go:33-55 | the late runs are exactly the Resets admitted at some step onto a revision that had already been released, and not dropped since |
| MirrorHistory.RevisionPinned | internal/mirror/cleanup.go:90-110 | while a run is active, live and pending, or has a recorded child and is not retained, its revision keeps its record; and its snapshots are being deleted exactly when that had begun before the run was admitted |
| MirrorHistory.GenerationsExclusive | internal/mirror/generation.go:387-448 | of two generations the controller created that both exist, with the managed provider, at least one was lost: its run was given up before it was recorded |
| MirrorHistory.TwoGenerations | internal/mirror/generation.go:425-446 | with the managed provider two created generations exist at some point of a run exactly when one was created while a lost one still existed |
| MirrorHistory.LossCancelled | internal/mirror/cleanup.go:120-178 | a generation is lost only when the pending run was given up unrecorded, and then its request was gone or being deleted, or the mirror had ended |
| MirrorHistory.OneGenerationIfKept | internal/mirror/generation.go:387-448 | while every run whose generation was created but not yet recorded stays wanted, no two created generations ever exist |
| MirrorWitness.LeaseAcceptedTooLate | internal/mirror/generation.go:296-300 | a run from the start with every save the code makes: a lease accepted after the successor was marked Active, but before the active UID moved, does not stop the move |
| MirrorWitness.UnrecordedGenerationLeaks | internal/mirror/generation.go:425-446 | a run from the start: cancelled between creation and recording, a run leaves a generation no record names, and two then exist with a provider that allows one |
| MirrorWitness.ResetOntoReleased | internal/mirror/generation.go:33-55 | a run from the start: a Reset is admitted onto a revision whose snapshots are already being deleted, because admission looks only at the record |
| MirrorCluster.Cluster.Issue | internal/state/state.go:274-311 | a write takes effect or not, independently of the answer; what was issued extends a legal run |
| MirrorCluster.Cluster.Save | internal/state/state.go:274-311 | compare and swap: an acknowledged save means the stored version was the copy's; a conflict changes nothing; a lost answer may have stored it |
| MirrorCluster.Cluster.LoadRun | internal/state/state.go:247-272 | a load returns the stored record with its version, a definite absence, or an error |
| MirrorCluster.Cluster.DeleteIf | internal/mirror/storage.go:251-256 | a conditional delete reaches only the object whose UID was seen; an absent object counts as deleted |
| MirrorCluster.Cluster.Create | internal/mirror/storage.go:53-61 | creation is refused while the name is taken; otherwise the new object carries the given owner and operation |
| MirrorFacts.AllRetired | internal/mirror/cleanup.go:79-89 | once every loaded run was seen retired, everything its record names besides captures is gone, although others acted in between; of volumes and policies, unless somebody added to them after the mirror had ended |
| MirrorFacts.SettledOthers | internal/mirror/controller.go:201-204 | after a finished collect with an empty active pointer, no run but the pending one has an existing recorded generation |
| MirrorFacts.RetainedPins | internal/mirror/cleanup.go:134-138 | marking a run Retained makes no revision needed that was not needed before |
| MirrorCollect.DeleteSnapshotObject | internal/mirror/storage.go:240-258 | done only when the object was seen absent; a foreign object under the name is preserved; otherwise exactly that object is asked to go |
| MirrorCollect.CleanupImports | internal/mirror/storage.go:260-270 | done means no import of the run, snapshot or content, exists any more |
| MirrorCollect.CleanupCaptures | internal/mirror/storage.go:271-295 | captures are released one by one, content is only awaited, and done means all are gone |
| MirrorCollect.AwaitVolumes | internal/mirror/cleanup.go:34-47 | done means every inventoried volume was seen absent; a volume is never deleted by the controller |
| MirrorCollect.CleanupPolicies | internal/mirror/isolation.go:168-187 | done means no isolation policy of the run exists any more |
| MirrorCollect.RetireChild | internal/mirror/cleanup.go:16-33 | done means the recorded child is gone; another object under its name stops the pass |
| MirrorCollect.Retire | internal/mirror/cleanup.go:15-52 | done means child, volumes, imports and policies of the run are all gone, whatever others did meanwhile |
| MirrorCollectRuns.LoadAll | internal/mirror/cleanup.go:55-78 | all records and requests of the enrolled runs, each exact while its version is stored |
| MirrorCollectRuns.NeededSet | internal/mirror/cleanup.go:90-110 | the loop marks exactly the revisions that some active, pending, queued or consuming run names and that were captured |
| MirrorCollectRuns.KeepSet | internal/mirror/cleanup.go:90-119 | the kept set is the needed revisions plus the newest captured Syncs up to the retention number |
| MirrorCollectRuns.NeededCovers | internal/mirror/cleanup.go:92-110 | every revision that is pinned in the store is needed by the loaded copies |
| MirrorCollectRuns.KeepCovers | internal/mirror/cleanup.go:90-119 | nothing outside the kept set is pinned, and that stays so while others act |
| MirrorCollectRuns.RetireAll | internal/mirror/cleanup.go:81-89 | done means every enrolled run was retired, with its child, imports, volumes and policies gone, before any capture may be released |
| MirrorCollectRuns.RetainRun | internal/mirror/cleanup.go:134-147 | a retired run whose revision is kept only changes phase |
| MirrorCollectRuns.DropRecord | internal/mirror/cleanup.go:148-153 | a record goes only after its captures were seen gone, and only when nothing pins it or during teardown |
| MirrorCollectRuns.ForgetRun | internal/mirror/cleanup.go:155-177 | the request is dismissed and the reference cut from the journal, clearing both pointers to it |
| MirrorCollectRuns.CollectRun | internal/mirror/cleanup.go:120-178 | one run is passed over, retained, removed, or halts the pass |
| MirrorCollectRuns.Collect | internal/mirror/cleanup.go:54-180 | done means nothing is left to retire or remove; otherwise an undisturbed pass makes progress: one object asked to go, or one run removed |
| MirrorTeardown.Teardown | internal/mirror/cleanup.go:182-197 | teardown ends: when requested deletions complete and no name is reused, repeated passes empty the run list and remove the parent record |
| MirrorAdvance.StoreRun | internal/state/state.go:274-311 | an acknowledged save of the pending run leaves everything the reconcile relies on |
| MirrorAdvance.Ensure | internal/mirror/storage.go:50-78 | intent before creation: the live object carries the recorded operation and UID, a vanished one is not replaced, a foreign one is not adopted |
| MirrorAdvance.CaptureVolume | internal/mirror/storage.go:129-196 | content is journaled as soon as it is known, and a volume counts as taken only with a handle and a time |
| MirrorAdvance.CaptureVolumes | internal/mirror/storage.go:129-198 | done means every volume was taken |
| MirrorProtocol.Latest | internal/mirror/generation.go:154-159 | the recovery point of a capture is the latest of its volumes |
| MirrorAdvance.FinishCapture | internal/mirror/generation.go:132-162 | finished means the stored run is Restoring with every volume taken and the latest recovery point |
| MirrorAdvance.PlanImports | internal/mirror/storage.go:203-210 | one import per capture of the revision, in order, with no identity yet |
| MirrorAdvance.ImportVolumes | internal/mirror/storage.go:202-238 | done means every planned import has both its snapshot and its content created, or recognised, and recorded; one is planned for every capture |
| MirrorAdvance.StepPhase | internal/mirror/generation.go:181-186 | a change of restore phase changes nothing else |
| MirrorAdvance.StepAside | internal/mirror/generation.go:319-329 | the pending run records that it replaces before the old generation is touched |
| MirrorAdvance.RetireActive | internal/mirror/generation.go:330-333 | the active run is stored as Retiring and the pending run stays as it was |
| MirrorAdvance.ManagedReplacement | internal/mirror/generation.go:308-338 | available only with an empty active pointer and without any write; the pointer is cleared only under an open lease or a permitted force |
| MirrorAdvance.ChildIntent | internal/mirror/generation.go:388-411 | the operation under which the generation is created is durable first, and is chosen once |
| MirrorAdvance.FindChild | internal/mirror/generation.go:425-437 | the generation is created only when no other recorded one can exist |
| MirrorAdvance.Child | internal/mirror/generation.go:387-448 | intent, object, recorded identity: the recorded child is the live object with this run's markers, and a recorded child is never exchanged |
| MirrorAdvance.EnsurePolicies | internal/mirror/isolation.go:33-93 | the isolation policy is journaled before it exists and keeps its identity |
| MirrorAdvance.InventoryVolumes | internal/mirror/isolation.go:98-166 | the volume inventory only grows |
| MirrorAdvance.Settle | internal/mirror/generation.go:187-240 | a generation becomes a candidate only with a recorded child, and only while it restores |
| MirrorAdvance.Restore | internal/mirror/generation.go:170-241 | from restoring to candidate, with the pointer cleared at most under an open lease |
| MirrorAdvance.Prepare | internal/mirror/generation.go:528-559 | passing the gate leaves the pending run as it was, with its policies journaled |
| MirrorAdvance.CandidateLives | internal/mirror/generation.go:246-249 | the candidate exists under its recorded UID, is not terminating, and is ready |
| MirrorAdvance.Refresh | internal/mirror/generation.go:260-268 | reloading the run changes only its inventories |
| MirrorAdvance.MarkRetiring | internal/mirror/generation.go:272-284 | the old run is Retiring before the new one is marked active |
| MirrorAdvance.Switch | internal/mirror/generation.go:260-295 | the old run is marked first, then the new one, and the pointer moves last; where it moved, the lease is open or the force permitted |
| MirrorAdvance.Activate | internal/mirror/generation.go:242-295 | activation: the pointer stays, or names the run that is stored Active under an open lease |
| MirrorAdvance.Publish | internal/mirror/generation.go:296-300 | recovery of a lost move of the active UID; success means the run is the active one and nothing is pending |
| MirrorAdvance.PlanCaptures | internal/mirror/generation.go:71-83 | one capture for each granted volume, with no identity yet |
| MirrorAdvance.NoteSync | internal/mirror/generation.go:124-127 | the start of a run is noted without touching runs or pointers |
| MirrorAdvance.AdmitReset | internal/mirror/generation.go:33-55 | a Reset starts only from an enrolled, captured revision that the request names by name and UID |
| MirrorAdvance.AdmitSync | internal/mirror/generation.go:56-131 | a Sync starts with planned captures for every volume |
| MirrorAdvance.Advance | internal/mirror/generation.go:22-302 | one step of the pending run: where the parent record can be afterwards, for every phase and failure |
| MirrorReconcile.SaveMirror | internal/state/state.go:274-311 | a save of the parent record by compare and swap |
| MirrorReconcile.AcceptLease | internal/mirror/controller.go:184-197 | a lease is accepted up to 30 minutes ahead, changed, or released; nothing else moves |
| MirrorReconcile.EnsureRecord | internal/mirror/controller.go:351-360 | an enrolled run has a record, and a new one is Queued with itself as revision |
| MirrorReconcile.EnrollRun | internal/mirror/controller.go:313-365 | finalizer, record, then the reference at the end of the journal |
| MirrorReconcile.EnrollRuns | internal/mirror/controller.go:302-367 | oldest first, at most 32 unless the finalizer is already ours; below the cap every live request is enrolled |
| MirrorReconcile.WantedUnreleased | internal/mirror/controller.go:205-226 | the captures of a live queued or pending run were never released |
| MirrorReconcile.Choose | internal/mirror/controller.go:205-226 | the first enrolled run that is queued with a live request is chosen: every earlier one was seen not to be, at a moment of this call, or its request could not be read; the rest of the journal stays |
| MirrorReconcile.StartWorking | internal/mirror/controller.go:227-240 | the record and the live request, read in this order, justify advancing the run |
| MirrorReconcile.Schedule | internal/mirror/controller.go:248-255 | when a sync is due, at most the one request is asked for, under a name fixed by the last start, so a retry changes nothing; otherwise nothing is written |
| MirrorReconcile.LoadPending | internal/mirror/controller.go:227-238 | an advanced run is the pending one, by UID, with a live request, and counts as forced exactly when that request asks for force |
| MirrorReconcile.Cleanup | internal/mirror/cleanup.go:182-197 | a deleted mirror is forgotten only when empty |
| MirrorReconcile.ReconcileLive | internal/mirror/controller.go:184-255 | a run is advanced only after the same pass has collected |
| MirrorReconcile.Reconcile | internal/mirror/controller.go:136-255 | one reconcile from any state, with any failures: every write was allowed, and an advanced managed run had no rival generation |
| PlannerText.CompactRanked | internal/planner/objects.go:378-379 | sorting and then compacting gives the one strictly ascending list of the elements |
| PlannerOrder.VisitSound | internal/planner/objects.go:429-453 | a visit extends the order with dependencies first, or reports a real cycle or a really missing identifier |
| PlannerOrder.ResultOrders | internal/planner/objects.go:454-460 | a successful order lists every object once, each after what it depends on |
| PlannerOrder.ResultExact | internal/planner/objects.go:416-461 | ordering succeeds exactly when the graph is acyclic and closed up to external identifiers; the reported cycle or gap is real |
| PlannerOrder.RepetitionsIrrelevant | internal/planner/objects.go:444-449 | a dependency listed twice changes nothing |
| PlannerOrder.ListVisited | internal/planner/objects.go:444-449 | the order and repetition of a dependency list do not matter |
| PlannerOrder.Search.SortRefs | internal/planner/objects.go:444-445 | dependency lists are sorted in place and keep their elements |
| PlannerOrder.Search.Descend | internal/planner/objects.go:429-453 | the marking search computes the recursive result, on every call |
| PlannerOrder.Search.DescendAll | internal/planner/objects.go:445-449 | visiting the sorted list is visiting the set |
| PlannerOrder.Search.Run | internal/planner/objects.go:454-458 | the loop over the keys gives the result of the graph |
| PlannerOrder.Index | internal/planner/objects.go:417-420 | the table of dependencies; a later object of an identifier replaces an earlier one |
| PlannerOrder.Plan.Order | internal/planner/objects.go:416-461 | the answer is a function of the dependency sets alone, and a failure leaves the order unchanged |
| PlannerOrder.TableDistinct | internal/planner/objects.go:417-420 | with distinct identifiers the table has each object's own dependencies |
| PlannerOrder.OrderOfObjectsIrrelevant | internal/planner/objects.go:416-425 | permuting the objects changes nothing |
| PlannerRenaming.DataUntouched | internal/planner/objects.go:288-290 | nothing below data or stringData is rewritten |
| PlannerRenaming.WalkedRewritten | internal/planner/objects.go:381-414 | rewriting a tree leaves the references found in it |
| PlannerRenaming.SubjectsRewritten | internal/planner/objects.go:268-278 | subject references are exactly the old ones with their namespaces mapped |
| PlannerRenaming.KeptView | internal/planner/objects.go:109-225 | cleaning and per-kind changes keep everything that can refer to another object, but for the namespace |
| PlannerRenaming.TransformLasting | internal/planner/objects.go:109-261 | the references of the copy are the mapped references outside the node name; data and stringData are kept |
| PlannerRenaming.TransformRenames | internal/planner/objects.go:109-261 | copying invents no reference, and preserves the reference graph exactly when each reference inside the dropped node name is also made elsewhere |
| PlannerRenaming.StringNodeName | internal/planner/objects.go:233-233 | with a node name that is a string, as the API demands, the dependencies are exactly the mapped ones |
| PlannerRenaming.NodeNameLosesReference | internal/planner/objects.go:233-233 | a JSON tree whose node name is itself an object that names a secret loses that reference; the API refuses such objects for typed kinds, so this limits the theorem about trees, not captured workloads |
| CaptureClosure.Capture.Bind | internal/capture/capture.go:264-290 | every workload gets exactly the bindings of the accounts it uses |
| CaptureClosure.Capture.Define | internal/capture/capture.go:292-313 | every custom resource gets its definition and all selected operators |
| CaptureClosure.Capture.Include | internal/capture/capture.go:320-340 | including an object closes over its needs, adds only what it reaches, and a refusal names something unavailable that it reaches |
| CaptureClosure.Capture.IncludeSelected | internal/capture/capture.go:341-347 | success is the least closed set, in any iteration order; failure names something really lacking |
| CaptureClosure.Run | internal/capture/capture.go:264-347 | the three stages together |
| CaptureClosure.ClosedLacksNothing | internal/capture/capture.go:320-347 | success and failure exclude each other |
| CaptureClosure.CapturedUnique | internal/capture/capture.go:341-347 | the captured set is unique |
| CaptureClosure.PreparedUnique | internal/capture/capture.go:292-313 | the prepared pool does not depend on map iteration order exactly when each resource of a type that is defined more than once needs all of these definitions anyway |
| CaptureClosure.DeterministicExactly | internal/capture/capture.go:292-313 | when definitions define foreign kinds only, that is: exactly when no resource of a type defined more than once is in the pool |
| CaptureClosure.CaptureDeterministic | internal/capture/capture.go:264-347 | under that condition whether the capture succeeds and what it captures do not depend on map iteration order |
| CaptureClosure.TwoDefinitionsDiffer | internal/capture/capture.go:295-301 | with two definitions of one type the iteration order decides what is captured |
| CaptureClosure.CapturedNeverMissing | internal/capture/capture.go:377-379 | ordering a captured plan cannot report a missing dependency |
| CaptureClosure.RefsRanked | internal/planner/objects.go:310-380 | every reference leads to a kind of lower rank |
| CaptureClosure.NoDependencies | internal/planner/objects.go:310-380 | data, volume claims and kinds the planner does not know refer to nothing |
| CaptureClosure.IdUnique | internal/planner/objects.go:38-43 | identifiers of references without separators in group, kind and namespace can be read back |
| CaptureClosure.CapturedOrders | internal/capture/capture.go:377-379 | if role references name roles, no autoscaler scales an autoscaler and no captured definition reuses a known kind, a captured plan is always ordered |
| CapacityLedger.AlwaysSound | internal/capacity/capacity.go:17-108 | for any interleaving of admissions and releases: distinct UIDs, one helm reservation, no grant above its limit |
| CapacityLedger.SlotKept | internal/capacity/capacity.go:75-108 | a reservation leaves only by a release of its replica |
| CapacityLedger.AdmitKeeps | internal/capacity/capacity.go:29-43 | an admissible reservation keeps the limits |
| CapacityLedger.ReleaseKeeps | internal/capacity/capacity.go:87-99 | a release keeps the limits and removes the replica |
| CapacityLedger.Compact | internal/capacity/capacity.go:87-95 | the in-place compaction leaves the order-preserving filter at the front, and reports whether anything went |
| CapacityLedger.Store.Save | internal/state/state.go:274-311 | compare and swap on the ledger; a lost answer may have stored it |
| CapacityLedger.ScanExact | internal/capacity/capacity.go:29-40 | what the early-exit scan counts and when it stops |
| CapacityLedger.AdmitsExact | internal/capacity/capacity.go:29-43 | the scan admits exactly what is admissible |
| CapacityLedger.AdmittedFound | internal/capacity/capacity.go:30-39 | an admitted replica is recognised before anything can block it |
| CapacityLedger.Acquire | internal/capacity/capacity.go:17-73 | admission with retries: true means the slot is held, a holder with the same provider is never turned away, a refusal was right at a moment of the log |
| CapacityLedger.Free | internal/capacity/capacity.go:75-108 | success means the replica holds no slot |
| ChaosProtocol.WriteKeeps | internal/chaos/controller.go:62-206 | every durable write and every effect the experiment controller may issue keeps the invariant |
| ChaosProtocol.EventKeeps | internal/chaos/actions.go:23-106 | nothing others do breaks it; they cannot guess operation identifiers |
| ChaosRuns.AlwaysSound | internal/chaos/controller.go:62-206 | the invariant holds at every point of every run |
| ChaosRuns.EffectsNeedIntentAndFinalizer | internal/chaos/controller.go:170-193 | a lasting fault is in effect only under an unfinished saved intent and a finalizer |
| ChaosRuns.EffectsExclusive | internal/chaos/controller.go:208-229 | two experiments of one replica never have lasting faults in effect together |
| ChaosRuns.RollbackReverse | internal/chaos/actions.go:133-163 | cleaned actions form a suffix of the journal, and a finished experiment has none left |
| ChaosRuns.JobAfterPolicy | internal/chaos/prepare.go:178-207 | a fault Job is created only after the deny policy of its namespace was applied |
| ChaosRuns.FinalizerRemovedClean | internal/chaos/actions.go:160-179 | the finalizer of a recorded experiment goes only when every action is cleaned |
| ChaosHistory.PolicyRemovedLast | internal/chaos/network.go:93-134 | a deny policy is asked to go only when every Job of its namespace was saved as rolled back at an earlier step, and at a moment after all those saves none had a physical Pod |
| ChaosHistory.RestoreReturns | internal/chaos/actions.go:223-257 | every restoration was preceded by the same action scaling down the same workload, whose marker stayed in between, and gives back exactly the count it had taken |
| ChaosHistory.ScaledComesBack | internal/chaos/actions.go:223-257 | a workload that was scaled down, and whose action counts as rolled back, was brought back by that action, unless somebody else took the marker or the workload away, or the namespace had already been replaced when it was scaled down |
| ChaosHistory.ElsewhereExactly | internal/chaos/controller.go:185-193 | a marked object stands in a namespace other than the journaled one exactly when it was marked after the namespace had been replaced |
| ChaosHistory.LeftoversExactly | internal/chaos/actions.go:133-163 | after a fault was rolled back, or its experiment forgotten, an object bearing its marker is left exactly when it was marked in a namespace that had replaced the journaled one, and nobody unmarked or removed it since; its namespace then has another UID |
| ChaosHistory.FaultInReplacedNamespace | internal/chaos/controller.go:185-193 | a run from the start: the namespace is checked before the Job is created, so the Job lands in a namespace that took the old name, and rollback leaves it there |
| ChaosGuest.Guest.Issue | internal/state/state.go:274-311 | a write takes effect or not, independently of the answer |
| ChaosGuest.Guest.SaveRecord | internal/state/state.go:274-311 | compare and swap on the experiment record |
| ChaosController.Slot | internal/chaos/controller.go:208-229 | a slot reported free is free when the scan ends, although others acted during it |
| ChaosController.Append | internal/chaos/prepare.go:245-252 | the journal grows at its end, under a fresh operation |
| ChaosController.Prepare | internal/chaos/prepare.go:155-243 | every requested fault gets its actions, on its exact target and UID, and no other action is journaled; one deny policy per namespace before anything that needs it; the count to restore was seen on the unmarked workload |
| ChaosController.Admit | internal/chaos/controller.go:134-173 | slot, journal and saved intent come before any effect |
| ChaosController.ApplyCreate | internal/chaos/actions.go:38-63 | an object is created once or recognised by UID and marker |
| ChaosController.ApplyPodKill | internal/chaos/actions.go:64-80 | only the pinned Pod is deleted; its replacement is not |
| ChaosController.ApplyScale | internal/chaos/actions.go:81-101 | the exact, unchanged workload is scaled to zero |
| ChaosController.ApplyAction | internal/chaos/actions.go:23-106 | an action is applied and recorded, or what was learned is kept for rollback |
| ChaosController.ApplyAll | internal/chaos/controller.go:185-205 | actions are applied in order; a failure turns into cleanup at once |
| ChaosController.JobsStarted | internal/chaos/actions.go:297-334 | started means every fault Job was seen in the guest, still ours, since the record was saved; a missing or foreign one is a failure |
| ChaosController.RollbackObject | internal/chaos/actions.go:194-222 | a fault object is cleaned only when seen absent with its Pods |
| ChaosController.RollbackPolicy | internal/chaos/network.go:93-134 | the policy waits for physical Pods |
| ChaosController.RollbackScale | internal/chaos/actions.go:223-257 | a foreign scale, marker or UID is never overwritten |
| ChaosController.RollbackAction | internal/chaos/actions.go:133-159 | one action back, after all later ones; in a namespace that took the place of the journaled one nothing is touched |
| ChaosController.Stop | internal/chaos/actions.go:121-128 | the rollback intent is durable before the first rollback, with what application learned |
| ChaosController.Undo | internal/chaos/actions.go:133-168 | everything is rolled back in reverse, then the record says finished, or is gone with the finalizer if the experiment was deleted |
| ChaosController.FinishAndForget | internal/chaos/actions.go:170-179 | the finalizer goes before the record |
| ChaosController.Cleanup | internal/chaos/actions.go:108-168 | a completed cleanup ends in one of those two ways |
| ChaosController.Reconcile | internal/chaos/controller.go:62-206 | one reconcile from any state: Active means the stored record says so with every action applied, Ended means finished or forgotten |
| WorkflowHost.ClosureExact | internal/workflow/host_cleanup.go:37-66 | a closed set of reachable identities is exactly the reachable ones |
| WorkflowHost.Inventory.TakeIn | internal/workflow/host_cleanup.go:61-64 | an owned object enters the inventory once |
| WorkflowHost.Inventory.Pass | internal/workflow/host_cleanup.go:46-65 | a pass that finds nothing has reached the closure; any other makes it larger |
| WorkflowHost.Inventory.Extend | internal/workflow/host_cleanup.go:37-66 | the nested loop ends with exactly the listed objects reachable through owner references |
| WorkflowHost.InventoryIdempotent | internal/workflow/host_cleanup.go:37-66 | a second pass over the same listing adds nothing |
| WorkflowHost.InventoryOrderIrrelevant | internal/workflow/host_cleanup.go:37-66 | the order of the listing does not matter |
| WorkflowHost.HostCleanup | internal/workflow/host_cleanup.go:106-161 | done means every inventoried object and volume was seen absent, and only inventoried identities were asked to go |
| WorkflowJournal.WriteKeeps | internal/workflow/objects.go:42-129 | every journal save and guest mutation the engine may issue keeps the invariant |
| WorkflowJournal.AlwaysSound | internal/workflow/objects.go:42-200 | the invariant holds at every point of every run |
| WorkflowJournal.OwnershipWriteAhead | internal/workflow/objects.go:49-62 | every guest object with an operation of this replica has exactly one live journal entry of that operation |
| WorkflowJournal.DeletedIsGone | internal/workflow/objects.go:168-200 | an entry marked deleted has no object left |
| WorkflowJournal.MutationsOwned | internal/workflow/objects.go:94-127 | every object that is patched or deleted was created by this replica itself, at an earlier step, for the very entry it acts on |
| WorkflowJournal.OrderKept | internal/workflow/engine.go:289-306 | the journal lists dependents after what they need at every moment of a run exactly when no step journals what a live journaled object needs, or adopts a plan that the journal does not follow |
| WorkflowJournal.DependentsFirst | internal/workflow/cleanup_entries.go:20-77 | cleanup asks for an object with every planned object that needs it observed absent exactly when no live one of these was journaled before it; and always, when no step spoiled the order |
| WorkflowOrder.PlainOrderly | internal/workflow/engine.go:124-149 | so it always does with the first plan, and with refreshes that neither re-create a planned object nor make a journaled one need a new one |
| WorkflowOrder.RefreshExactly | internal/workflow/engine.go:265-306 | once an adopted plan is applied, with nothing planned marked gone since, the journal follows it exactly when it already followed the new plan and no journaled object needed one still to be journaled |
| WorkflowOrder.CapturedPlanSound | internal/capture/capture.go:377-379 | what capturing and ordering give is such a plan: dependencies first, and volume claims that need nothing |
| WorkflowOrder.ToldAgree | internal/planner/objects.go:38-43 | an identifier tells the kind of its object, so entries journaled under an earlier plan agree with the new one |
| WorkflowOrder.RecreatedGoesEarly | internal/workflow/engine.go:265-265 | a run from the start: an object created again by a refresh gets a new entry at the end, and is then removed before what needs it |
| WorkflowOrder.RefreshGoesEarly | internal/workflow/engine.go:124-149 | a run from the start with nothing re-created: a refresh makes a journaled object need a new one, which is then removed before it |
| WorkflowEngine.Find | internal/workflow/objects.go:29-36 | a live entry of the identifier, or there is none |
| WorkflowEngine.JournalIntent | internal/workflow/objects.go:49-62 | the entry is durable before anything is created |
| WorkflowEngine.CreateFor | internal/workflow/objects.go:83-92 | the object is created for its entry and its identity recorded |
| WorkflowEngine.RecordUid | internal/workflow/objects.go:97-101 | an observed identity is recorded once |
| WorkflowEngine.ApplyObject | internal/workflow/objects.go:42-129 | the planned object exists and is ours, an object of anyone else is never adopted, and other entries are as they were; the recursion ends |
| WorkflowEngine.DeleteEntry | internal/workflow/objects.go:168-200 | done means the object was seen absent and only this entry was marked |
| WorkflowEngine.PassOver | internal/workflow/cleanup_entries.go:39-73 | a pending claim is passed over only after it was seen ours under ordinary protection and, later, its namespace was seen ours |
| WorkflowEngine.CleanupGuest | internal/workflow/cleanup_entries.go:20-77 | reverse order with the one relaxation; true only when every entry was seen absent |
| WorkflowEngine.Prune | internal/workflow/engine.go:272-288 | after pruning every live entry but namespaces is in the plan |
| WorkflowEngine.AdoptPlan | internal/workflow/engine.go:124-149 | a captured plan replaces the old one with the journal as it is |
| WorkflowEngine.ApplyPlan | internal/workflow/engine.go:289-306 | after applying, every planned object is inventoried; and when none was marked gone, the journal follows the plan exactly when the refresh was orderly |
| DatabaseCapture.StepKeeps | internal/database/controller.go:44-207 | every step of any worker keeps the invariant |
| DatabaseCapture.AlwaysSound | internal/database/controller.go:44-207 | the invariant holds for every interleaving of workers, crashes and failed saves |
| DatabaseCapture.SourceReadOnce | internal/database/controller.go:133-151 | the source is read at most once |
| DatabaseCapture.OpenedAfterSanitized | internal/database/controller.go:180-204 | the final database is opened, its network policy is opened, and it is Ready only after capture, masking and copying; and then, and ever after, no Pod that received raw data exists, neither in the guest nor on the host |
| DatabaseCapture.CopiedFromMasked | internal/database/controller.go:154-169 | whatever was copied to the final database came from a Pod that had been masked, if it ever received raw data |
| DatabaseCapture.StagePodExactly | internal/database/controller.go:296-387 | after the staging entry was marked gone, a Pod stands under its name exactly when somebody put one there after the moment at which the journaled one was seen gone, and it has not been removed since |
| DatabaseCapture.StagePodAfterOpening | internal/database/controller.go:339-346 | a run from the start: a worker whose old copy has no UID yet creates the staging Pod again after the copy was opened; only its later save conflicts |
| DatabaseCapture.Shared.Save | internal/state/state.go:274-311 | compare and swap on the database record, with other workers acting |
| DatabaseCapture.Journal | internal/database/controller.go:296-353 | journaling the other resources of the copy leaves its phase and its staging entry as they are |
| DatabaseCapture.EnsureStage | internal/database/controller.go:296-353 | the entry of the staging Pod is durable before it is created, a Pod of anyone else is never adopted, one that disappeared is not created again, and success means its identity is recorded |
| DatabaseCapture.RemoveStage | internal/database/controller.go:354-387 | exactly the journaled Pod is asked to go, and done means it was seen absent after the copy was loaded, and that is saved |
| DatabaseCapture.Shared.HostPodsGone | internal/database/isolation.go:184-203 | whether the host lists no physical staging Pod, and at which moment |
| DatabaseCapture.Perform | internal/database/controller.go:148-169 | one effect on the database under the name of the staging Pod; a lost answer counts as a failure |
| DatabaseCapture.Enroll | internal/database/controller.go:68-78 | a database is enrolled as Preparing |
| DatabaseCapture.Copy | internal/database/controller.go:148-178 | capture, mask, transfer: success alone is stored as Sanitized |
| DatabaseCapture.Take | internal/database/controller.go:107-179 | only the worker whose save of Copying was acknowledged reads the source |
| DatabaseCapture.Release | internal/database/controller.go:180-204 | a sanitized copy is opened only after its staging Pod was seen gone in the guest and, later, on the host |
| DatabaseCapture.Prepare | internal/database/controller.go:44-207 | ready means captured once, masked, copied, opened, and no Pod that received raw data left |
| DatabaseMasking.Resolve | internal/database/policy.go:57-100 | a grant's masks, subsets and relationships are accepted exactly under the declared rules: valid and distinct columns, well-formed masks, ends of a relationship both unmasked or both tokens of one domain |
| DatabaseMasking.MaskSQL | internal/database/sql.go:16-81 | the statements, in order, are written exactly for a hexadecimal salt and valid columns, domains and values; accepted grants always are |
| DatabaseMasking.DeletesRun | internal/database/sql.go:28-33 | the deletes leave exactly the rows that every filter on their table keeps, in order |
| DatabaseMasking.UpdatesRun | internal/database/sql.go:34-56 | the updates mask every cell from its own first value |
| DatabaseMasking.ChecksRun | internal/database/sql.go:73-78 | the checks fail exactly when a relationship does not hold |
| DatabaseMasking.RunExact | internal/database/sql.go:16-81 | the transaction commits exactly when the named columns exist and foreign keys and relationships hold on the sanitized copy, and leaves that copy |
| DatabaseMasking.MaskingKeepsRelationship | internal/database/policy.go:91-99 | masking keeps every declared relationship for any token function, and makes none hold that did not hold, unless tokens of its two ends collide |
| DatabaseMasking.CommitsExactly | internal/database/sql.go:73-78 | for an accepted grant relationships that hold on the filtered copy never fail the transaction; without collisions they fail it exactly when they do not |
| DatabaseMasking.OrderIrrelevant | internal/database/sql.go:28-56 | masks may be permuted, and so may filters, without changing the outcome |
| DatabaseMasking.QuoteReads | internal/database/sql.go:10-11 | a quoted name or literal reads back as what was quoted and ends where it was closed |

## Left out

- Kubernetes and Helm clients, discovery, pagination, tunnels, the command line, the dashboard and the scenario scripts: input and output without an invariant of their own.
- Sealing of records, HMAC names and random identifiers: records are authentic, identifiers fresh.
- JSON merge patches, three-way merges and label selectors: an object is transformed without patches, and a refresh patch is one conditional write.
- `internal/target`: owned by a UID means that some owner reference carries it.
- Rendering of policies, Pods, Jobs and generation plans (`generationPlan`, `validatePlan`), status conditions and messages: where only their success matters it is an arbitrary answer.
- Field validation (recipes, pools, fault budgets, the rest of a database grant, `ValidatePlan`), selection of objects and credential rules: single-branch checks; the methods take an arbitrary answer.
- `CleanupGeneration`, the inventory a generation adds while it is torn down itself: it appears as the environment event that extends the inventories of a run.
- `CleanupReplica` of the experiments, the teardown of a database, and the order of the stages in which a replica is cleaned up (`internal/workflow/engine.go:419-560`): sequences whose parts are modelled here, or repeat them.
- The API server is the one of the environment model: UIDs and versions increase, deletion marks stay, a finalizer holds a request; garbage collection appears only as objects that vanish.
- JSON trees are values: the Go code edits copies in place, and no aliasing between a copy and its source is modelled.
- Deletion of a stored record is not tied to the copy that was loaded before, as in the code: an inventory another writer adds between the last look and the deletion goes with the record.
- MirrorAdvance.InventoryVolumes: which claims are bound to which restored volume is an arbitrary answer; that the inventory only grows is what is proved.
- MirrorAdvance.AdmitSync: capturing the configuration may fail for any reason; what is captured is the subject of the planner and capture files.
- MirrorAdvance.EnsurePolicies: the rules inside a policy are not modelled, only its identity; that they are unchanged is an arbitrary answer.
- PlannerRenaming.TransformRenames: assumes that the namespace map fixes the empty name, which an unmapped name always does.
- CaptureClosure.Run: starts from the pool of candidates; the reading of the source that fills it is not modelled.
- CapacityLedger.Acquire: the search for replicas older than the ledger is an arbitrary answer that can only refuse.
- ChaosRuns.EffectsExclusive: a killed Pod is no lasting effect, since nothing is rolled back for it.
- ChaosController.RollbackObject: removal of the guest Pods of a Job is an arbitrary answer; the physical Pods that the deny policy waits for are modelled.
- WorkflowHost.HostCleanup: the listing is given; reading it kind by kind and the reclaim policy of volumes are left out.
- DatabaseMasking.RunExact: cells are texts, foreign keys have one column, and constraints other than keys and relationships never fail.
- MirrorTraces.OneRecordedGeneration: speaks of recorded generations; what holds of all created ones is in `MirrorHistory`.
- MirrorTraces.TeardownReleasesLast: volumes and policies that somebody adds to an inventory after the mirror had ended are not covered, as the controller looks at the copies it has loaded.
- MirrorHistory.RevisionPinned: stops at teardown, when everything goes.
- MirrorTeardown.Teardown: assumes that requested deletions complete, that dependent volumes and contents go with their owners, and that no name is reused; a run pinned by a queued Reset need not go before teardown.
- MirrorAdvance.ImportVolumes: an import whose index is outside the captures of its revision stops with an error, where the code would panic.
- MirrorReconcile.Schedule: what else changes meanwhile is what others may change; that the one request is made is stated for a calm cluster.
- ChaosController.Reconcile: duration, budgets, grants and expiry are one arbitrary condition that turns a reconcile into cleanup; that a Job runs or succeeded is an arbitrary answer; the orphan search of a dying replica is left out.
- WorkflowEngine.ApplyObject: the desired content of creations and patches is not modelled, only which object they reach.
- WorkflowEngine.ApplyPlan: waiting for readiness of definitions and operators is an arbitrary answer; namespaces are journaled before the plan and are not part of it.
- WorkflowOrder.CapturedPlanSound: mirror generations get their plan from `generationPlan`, which is not part of this model; the volume claims it adds need nothing either.
- DatabaseCapture.Prepare: one database of the record, whose other resources are saves that leave the staging entry alone; a network policy is closed or open; readiness and isolation of the Pods are arbitrary answers.
