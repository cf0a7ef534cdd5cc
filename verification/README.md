# ptero-wings-operator in Dafny

A model of the logic of the ptero-wings operator and controller, with proofs about it. Run
`dafny verify dfyconfig.toml` (Dafny 4.11) to check it.

It covers four connected cores.

- **Ports.** `Allocator` is the first-fit allocator of contiguous NodePort ranges, in 32-bit arithmetic.
  `AllocatorProperties` says what one allocation guarantees. `PortRuns` interleaves the two halves of a
  create (list, commit) with deletes and rewrites over a shared store; `Blocks` and `Fragmentation` treat
  runs of equal-sized creates.
- **Startup commands.** `Tokenizer` is the quote and escape splitter, `Expansion` the replacement of
  `{{NAME}}` holes in the unspecified order in which Go walks a map, `Commuting` relates the two, and
  `Startup` puts them together.
- **Reconciliation.** `Renderer`, `Cluster` and `Reconcile` bring four children to what is rendered,
  and `Children` says what they then hold.
  `Finalize` is the cleanup of a dying server, `Lifecycle`, `LifecycleTheorems` and `Interleaving`
  interleave passes, finalization, users and the garbage collector one API write at a time, `Controller` is one call of
  Reconcile, and `Power` is what power actions lead to.
- **Status and validity.** `Conditions`, `StatusSync` and `StatusRuns` treat the status a pass writes,
  `Validation` the check of the effective spec, and `Pipeline` what reaches the cluster from a valid spec.

A `*GameServer` that the source mutates is a `GameServerRef`, whose `value` the methods reassign; the API
server is an `ApiServer` whose `store` they reassign. Stored objects are values. Everything outside the
program is a parameter: the answer of a list call, which API calls fail, whether a status patch lands,
the clock, and the order in which a map is walked (chosen nondeterministically in the methods,
quantified over in the lemmas).

## What the proofs found

- The check of a requested range accepts, besides the ranges inside the configured one, every range that
  passes the largest 32-bit number (`ValidRangeExact`, `WrappedRangeIsAccepted`).
- The search for a free range ends for every configured maximum from 0 up, whatever servers are stored, since
  nobody ever claims port 0 (`AllocateEnds`, `StoredSearchEnds`, `PassEnds`). With a negative maximum it can run
  forever: one stored server is enough (`SearchCanRunForever`, and `TerminatesExact` for the exact condition).
- A request with more ports than its range (`OverlongRequestCollides`) or with NodePorts but no range
  (`UncheckedRequestCollides`) takes ports nobody checked. `CoveredExact` says which requests never do,
  those that wrap past the largest 32-bit number included.
- Two automatic creates in flight over one store collide on every store exactly when their ranges have the
  same size, or when both with a used port in between do not fit (`RacingCreatesCollide`). Two servers
  whose automatic ranges of one size were never stored are given overlapping ports by their passes, since a
  pass does not store what it allocates (`UnstoredRangesCollide`).
- Padding can duplicate the name of a given port (`PaddingDuplicatesName`) or produce container ports that
  are no port numbers (`PaddingPassesLastPort`), and the spec is not validated again afterwards;
  `ValidityThroughAllocation` gives the exact condition.
- A hole inside a hole makes the command depend on the order of a map exactly when the filled inner hole
  completes another bound name (`NestedHolesAreOrderDependent`).
- An escaped or quoted brace can become part of a hole when the line is split, so expanding before
  splitting and after it differ there (`EscapesCanAssembleAHole`).
- A comment in controllers/gameserver_finalize.go:84-85 says that a detached claim is not collected. The
  code strips only the owner reference of the current server object, and an existing claim never gets its
  references renewed. If a server is recreated before the collector has taken its predecessor's claim, the
  old reference stays and the claim is lost in spite of Retain (`RetainCanLoseData`).
  `RetainedDataSurvives` gives the exact condition.
- A Service keeps the type it was created with for as long as its server lives, whatever type the spec asks
  for later (`ServiceKeepsType`).
- A child that a predecessor left behind can be collected in the middle of a pass, which then ends without it
  (`PredecessorBreaksPass`); `InterleavedPass` gives the exact condition under which a pass completes whatever
  comes in between.
- The restart action changes nothing a pass would render, so it does not restart a running server
  (`RestartOfRunningServerIsQuiet`).

## Model

| member | source | states |
|---|---|---|
| Allocator.ClusterAllocator.constructor | internal/ports/allocator.go:44-54 | a zero bound is replaced by 30000 or 31000 |
| Allocator.FirstFit | internal/ports/allocator.go:155-171 | the least start whose window is free and inside the range; none exactly when no such window exists |
| Allocator.TerminatesExact | internal/ports/allocator.go:155-162 | the loop ends iff its bound is below the largest 32-bit number or some window of 32-bit ports is free |
| AllocatorProperties.AllocateEnds | internal/ports/allocator.go:129-162 | with a maximum from 0 up the search ends for every list answer, so the precondition of Allocate holds |
| AllocatorProperties.SearchCanRunForever | internal/ports/allocator.go:155-162 | a negative maximum and one stored server for which the search never ends |
| Allocator.ScanIsFirstFit | internal/ports/allocator.go:155-162 | for maxima from 0 to 2^31 - 2 and sizes up to 2^31, and wherever a first fit exists, the wrapping scan finds exactly the first fit |
| Allocator.ClusterAllocator.FindFreeRange | internal/ports/allocator.go:155-162 | the loop in wrapping 32-bit arithmetic, for every configuration and size for which it returns: the scan below, and first fit for ordinary ones |
| Allocator.ClusterAllocator.RangeUsed | internal/ports/allocator.go:164-171 | true exactly when some port of the window, wrapping included, is used |
| Allocator.ClusterAllocator.CheckRange | internal/ports/allocator.go:173-179 | the three wrapping operations amount to one wrapped end |
| Allocator.ClusterAllocator.CollectUsed | internal/ports/allocator.go:129-153 | the union of the claims of all listed servers but the one being placed |
| Allocator.ClusterAllocator.ClaimOf | internal/ports/allocator.go:140-150 | a server's positive NodePorts and its reserved range |
| AllocatorProperties.ReservedRange | internal/ports/allocator.go:63-66 | start and count reserve start through start + count; a stored server holds that range, its positive NodePorts and nothing else |
| Allocator.ClusterAllocator.Pad | internal/ports/allocator.go:75-93 | given ports first, then generated ones up to the size of the range, as AllocationHandsOut spells out |
| Allocator.ClusterAllocator.Start | internal/ports/allocator.go:99-113 | the requested start if valid and free, else what the scan finds; refused exactly otherwise |
| Allocator.ClusterAllocator.Place | internal/ports/allocator.go:115-120 | consecutive NodePorts from the start, missing protocols filled |
| Allocator.ClusterAllocator.Allocate | internal/ports/allocator.go:56-123 | the whole call: success exactly when an allocation exists, the start written to the object, nothing changed on error |
| AllocatorProperties.AllocationHandsOut | internal/ports/allocator.go:66-122 | the network of a successful allocation port by port: size, consecutive NodePorts from the stored start, given ports kept with missing protocols filled, generated names, protocols and container ports, which count from the allocation's container start, else its NodePort start, else the first given container port, else 25565 |
| AllocatorProperties.RequestedExact | internal/ports/allocator.go:99-106 | a requested range is granted iff it passes the check and none of its ports is used |
| AllocatorProperties.ValidRangeExact | internal/ports/allocator.go:173-179 | accepted exactly when inside the range or past the largest 32-bit number |
| AllocatorProperties.WrappedRangeIsAccepted | internal/ports/allocator.go:173-179 | an accepted request that yields a negative NodePort |
| AllocatorProperties.PlacedClaim | internal/ports/allocator.go:95-122 | a covered request never claims a used port |
| AllocatorProperties.OverlongRequestCollides | internal/ports/allocator.go:66-116 | every request that names more ports than its range, whose range does not wrap and which succeeds on an empty cluster, also succeeds when just the port behind its range is used, and claims it |
| AllocatorProperties.UncheckedRequestCollides | internal/ports/allocator.go:58-61 | a request without a range is returned as it is, on used ports too |
| AllocatorProperties.CoveredExact | internal/ports/allocator.go:56-123 | no allocation of a request ever claims a used port iff the request is covered by its range, or always refused, or its range passes the largest 32-bit number |
| AllocatorProperties.PlacedIsSettled | internal/ports/allocator.go:75-122 | the result of a covered allocation is in the settled form |
| AllocatorProperties.SettledIsStable | internal/ports/allocator.go:75-122 | allocating a settled network again, over other servers' ports, returns it unchanged |
| AllocatorProperties.GuaranteedFit | internal/ports/allocator.go:155-171 | with u used ports and room for u + 1 ranges, a free range exists |
| AllocatorProperties.GuaranteedAllocation | internal/ports/allocator.go:107-113 | and so an automatic request succeeds |
| Fragmentation.GuaranteedFitIsSharp | internal/ports/allocator.go:155-171 | that bound cannot be improved |
| Fragmentation.FirstFitAligned | internal/ports/allocator.go:155-171 | over used blocks of one size, first fit returns a whole unused block |
| Fragmentation.FirstFitFull | internal/ports/allocator.go:155-171 | and fails exactly when all blocks are used |
| Fragmentation.NoFragmentation | internal/ports/allocator.go:107-171 | in every run of automatic creates of size k with deletes anywhere, live ranges start at min + j * k and a fresh create fails exactly when (max - min + 1) / k servers live |
| PortRuns.ListedPorts | internal/ports/allocator.go:129-153 | any listing of the store gives the same used ports |
| PortRuns.StoredSearchEnds | internal/ports/allocator.go:155-162 | with a maximum from 0 up the search of every create ends over every store |
| PortRuns.StepIsSafe | ptero-wings-controller/service.go:85-116 | every step keeps claims pairwise disjoint, also against a create in flight |
| PortRuns.PortSafety | ptero-wings-controller/service.go:85-116 | so does every run |
| PortRuns.PortSafetyFromEmpty | ptero-wings-controller/service.go:85-116 | from the empty cluster, claims of distinct servers are always disjoint |
| PortRuns.RacingCreatesCollide | ptero-wings-controller/service.go:85-97 | two automatic creates over one snapshot overlap on every store where both succeed iff their ranges have one size, or both with a port in between do not fit |
| PortRuns.EqualSizesCollide | ptero-wings-controller/service.go:85-97 | over any store, automatic creates of one size succeed together and then overlap |
| PortRuns.UnstoredRangesCollide | controllers/gameserver_controller.go:127-132 | two stored servers with unstored ranges of one size are given overlapping ports by their passes |
| PortRuns.PortStability | controllers/gameserver_controller.go:115-132 | in every reachable state, allocating again for a stored server under any class returns its stored ports |
| PortRuns.EmbeddedService.NetworkFromRequest | ptero-wings-controller/service.go:236-254 | one port per requested allocation with its name, TCP, the truncated port and bind port, a range iff one is asked for, the service type |
| PortRuns.EmbeddedService.CreateServer | ptero-wings-controller/service.go:85-99 | a create is a list step and a commit step of the run machine; errors leave the store alone |
| PortRuns.CreateExact | ptero-wings-controller/service.go:85-99 | a create alone stores the server as requested with the placed network, or nothing when the ports are refused or the key is taken |
| Tokenizer.SplitCommand | ptero-wings-controller/startup.go:67-112 | the loop computes the specified split, with both errors |
| Tokenizer.SplitSound | ptero-wings-controller/startup.go:67-112 | every well-formed command line splits into its words |
| Tokenizer.SplitComplete | ptero-wings-controller/startup.go:67-112 | every string that splits is a well-formed command line |
| Tokenizer.SplitExact | ptero-wings-controller/startup.go:67-112 | splitting gives ws iff the string denotes ws in the grammar of bare, escaped, quoted pieces and gaps |
| Tokenizer.SplitComposes | ptero-wings-controller/startup.go:67-112 | a blank separates: the tokens of both parts, and the error of the second |
| Tokenizer.PrintRoundTrip | ptero-wings-controller/startup.go:75-112 | printed tokens read back, exactly iff none is empty; empty ones are dropped |
| Tokenizer.SplitIdentity | ptero-wings-controller/startup.go:82-102 | a string is its own single token iff it is nonempty and plain |
| Tokenizer.SingleCharacter | ptero-wings-controller/startup.go:82-111 | what every single character means: the white space of Unicode, the two quotes, the backslash, and all others |
| Tokenizer.BothUnterminated | ptero-wings-controller/startup.go:104-109 | an open escape is reported before an open quote |
| Expansion.ExpandStartup | ptero-wings-controller/startup.go:46-52 | the loop replaces every key once, in some order |
| Expansion.ReplaceShown | ptero-wings-controller/startup.go:48-50 | replacing one name in a partly filled clean template fills exactly that name |
| Expansion.Confluence | ptero-wings-controller/startup.go:46-52 | every order gives simultaneous substitution, for text and values in which no marker begins; unknown holes stay |
| Expansion.NestedHolesAreOrderDependent | ptero-wings-controller/startup.go:48-50 | for a hole inside a hole the two orders agree iff the filled inner hole does not complete the other name (or its value is that very hole) |
| Commuting.SplitShown | ptero-wings-controller/startup.go:31-43 | splitting a filled template fills the split template |
| Commuting.ExpansionCommutesWithSplitting | ptero-wings-controller/startup.go:31-112 | splitting the expanded command is expanding each raw token, with the same error, for all orders, whenever no marker begins in the text of the split tokens |
| Commuting.OpensNothingIsEnough | ptero-wings-controller/startup.go:46-112 | which holds for all clean templates whose text has no opening brace |
| Commuting.EscapesCanAssembleAHole | ptero-wings-controller/startup.go:31-112 | without that the law fails: an escaped brace becomes part of a hole |
| Commuting.SafeValueIsNecessary | ptero-wings-controller/startup.go:48-102 | a value keeps to its argument iff it is nonempty and plain |
| Startup.MergedVariables | ptero-wings-controller/startup.go:54-65 | environment bindings overlaid by variables, whatever the order of the map |
| Startup.EnvBindingsExact | ptero-wings-controller/startup.go:56-60 | a name is bound iff some entry gives a nonempty value, and the last one counts |
| Startup.Resolve | ptero-wings-controller/startup.go:31-44 | the specified resolution for some order; ResolvedExact says what it gives |
| Startup.ResolvedExact | ptero-wings-controller/startup.go:31-44 | for every clean template and order: an error exactly when the line filled in at once is no well-formed command line, with its error; otherwise the first word of that line is the command and the others are the arguments |
| Startup.ApplyStartup | ptero-wings-controller/startup.go:114-129 | command and arguments are set exactly when resolved; errors change nothing |
| Startup.AppliedExact | ptero-wings-controller/startup.go:114-129 | the same for a whole spec, of which only command and arguments change |
| Startup.AppliedWithout | ptero-wings-controller/startup.go:115-117 | without a startup string the spec stays as it is |
| Startup.StartupIsDeterministic | ptero-wings-controller/startup.go:46-52 | for clean templates the order does not matter |
| Startup.StartupIsIdempotent | ptero-wings-controller/startup.go:114-129 | applying it again to what a create stored changes nothing |
| Conditions.SetCondition | controllers/helpers/conditions.go:27-43 | the in-place update computes the specified upsert |
| Conditions.UpsertLookup | controllers/helpers/conditions.go:27-43 | kinds stay unique and in place, the kind reads back with its time moved iff inserted or changed, other kinds unchanged |
| Conditions.TransitionHistory | controllers/helpers/conditions.go:25-43 | after any calls, each kind shows the last call and the time of the latest insertion or change of status |
| StatusSync.DerivePhase | controllers/gameserver_status.go:111-133 | the exact condition for each of the five phases; never another one |
| StatusSync.SyncStatus | controllers/gameserver_status.go:37-107 | the whole status from what was read, as SyncedExact spells out; no result exactly when the Service read fails |
| StatusRuns.SyncedExact | controllers/gameserver_status.go:37-107 | generation, fixed names, pod and node (kept without a pod), Service and endpoint (empty without a Service), NetworkReady iff a Service exists or none is needed, StorageReady iff Bound (kept if unread), phase with its summary, nothing else |
| StatusRuns.ReadsExact | controllers/gameserver_status.go:41-85 | the part of it that comes before the phase |
| StatusRuns.LandedSync | controllers/gameserver_status.go:37-107 | and so in the store after a landed pass, whether or not its first patch landed |
| StatusRuns.FailedSummary | controllers/gameserver_controller.go:148-157 | phase Failed, the error in the status and, with their reasons, in Ready (False) and Stalled (True), Reconciling False, Ready keeps its time if it was False, other kinds and fields untouched |
| StatusRuns.PhaseSummary | controllers/gameserver_status.go:87-105 | the derived phase, Ready iff Running with the phase as reason and keeping its time if unchanged, Stalled and Reconciling False, the external sync flag, other kinds and fields untouched |
| StatusRuns.MarkedExact | controllers/gameserver_controller.go:96-103 | the mark sets Reconciling and nothing else |
| StatusRuns.PhaseNames | controllers/gameserver_status.go:92 | each phase is named by its own text |
| StatusRuns.FinalPatchReplaces | controllers/gameserver_controller.go:96-157 | a landed final patch makes the stored status the one in memory even if the first patch was lost |
| StatusRuns.PatchFieldwise | controllers/gameserver_controller.go:96-157 | a merge patch carries exactly the parts that changed and leaves the others as stored |
| StatusRuns.PatchesCommute | controllers/gameserver_controller.go:96-157 | patches of different parts may come in any order |
| StatusRuns.LandedStatus | controllers/gameserver_controller.go:96-157 | the stored phase is the derived one without error, or Failed with the error of the pass |
| StatusRuns.PassIsCoherent | controllers/gameserver_status.go:87-107 | then Ready iff Running, Stalled iff Failed iff an error is recorded, Reconciling False |
| StatusRuns.StatusCoherence | controllers/gameserver_controller.go:96-157 | in every run kinds stay unique and every landed pass leaves a coherent status |
| StatusRuns.LostPassKeepsReady | controllers/gameserver_status.go:37-107 | a pass whose final patch is lost or whose Service read fails leaves the stored Ready condition alone |
| StatusRuns.ReadyTimeIsStable | controllers/gameserver_status.go:90-94 | Ready keeps its status and time through any run in which every landed pass reports the same readiness; lost patches, failed reads and other writes may come in between |
| Validation.ValidateEffective | internal/validation/gameserver.go:26-82 | reports exactly the violations; nothing iff the spec is well formed |
| Validation.ValidSpelledOut | internal/validation/gameserver.go:26-82 | the well-formed specs field by field, with the allowed policies and port numbers |
| Validation.ValidatePortList | internal/validation/gameserver.go:33-48 | exactly the port violations, duplicates by the seen set |
| Validation.PortRepairs | internal/validation/gameserver.go:33-48 | repairing one field of one port takes away its message and no other |
| Validation.NameRepairs | internal/validation/gameserver.go:33-41 | a new name for a nameless port takes away its message and no other |
| Validation.SpecRepairs | internal/validation/gameserver.go:26-82 | so does repairing the image, the lifecycle policy or the restart policy |
| Validation.RangeRepairs | internal/validation/gameserver.go:49-58 | or the count or start of the range |
| Validation.StorageRepairs | internal/validation/gameserver.go:58-75 | or a storage policy or the foreign claim |
| Renderer.BuildServicePorts | internal/renderer/service.go:39-56 | one Service port per port, names and protocols defaulted |
| Renderer.BuildContainerPorts | internal/renderer/workload.go:84-91 | one container port per port |
| Renderer.ChildNamesAreInjective | controllers/helpers/naming.go:25-43 | distinct servers never share a child of one kind |
| Pipeline.ValidityThroughAllocation | internal/ports/allocator.go:75-120 | a valid spec stays valid iff names, generated container ports and range allow it |
| Pipeline.PaddingDuplicatesName | internal/ports/allocator.go:86-92 | a valid request whose given port is named like a generated one becomes invalid |
| Pipeline.PaddingPassesLastPort | internal/ports/allocator.go:75-92 | a valid request whose container range passes 65535 becomes invalid |
| Pipeline.PipelineRendersDistinctPorts | internal/renderer/service.go:39-56 | then the Service has distinct names and consecutive NodePorts and agrees with the container one for one |
| Cluster.PvcAction | controllers/gameserver_resources.go:91-106 | an existing claim keeps owners and volume; it is updated iff its labels differ, created iff absent |
| Cluster.ServiceAction | controllers/gameserver_resources.go:130-158 | nothing without ports; updated iff ports or selector differ, created iff absent; the type of an existing Service is never changed |
| Cluster.ApiServer.ReconcileSecret | controllers/gameserver_resources.go:53-76 | create, update or nothing; exactly when it fails |
| Cluster.ApiServer.DeleteExtraPvcs | controllers/gameserver_resources.go:109-128 | all extra claims go, or on error exactly those deleted before it; exactly when it fails |
| Cluster.ApiServer.ReconcilePvc | controllers/gameserver_resources.go:78-107 | extras dropped, then create, relabel or nothing; exactly when it fails, and which extras are gone then |
| Cluster.ApiServer.ReconcileService | controllers/gameserver_resources.go:130-158 | create, update or nothing; exactly when it fails |
| Cluster.ApiServer.ReconcileStatefulSet | controllers/gameserver_resources.go:160-185 | create, update or nothing, of the object that WorkloadExact spells out; exactly when it fails |
| Cluster.ApiServer.ReconcileResources | controllers/gameserver_resources.go:37-51 | succeeds iff no stage fails, with the complete pass; otherwise the error names the first failing stage and the store is the one that the stages before it leave |
| Children.ChildrenHold | controllers/gameserver_resources.go:37-185 | after a pass each child holds, field by field, what the effective spec says: image, command, arguments, environment, ports, mount path, references, replicas, labels; Service ports, selector and type; the Secret entries; the claim; and what an update leaves alone |
| Children.PodReferences | internal/renderer/workload.go:30-130 | the names that pods use are those of the stored Secret and claim; a new StatefulSet selects its pods |
| Children.ServiceReachesPods | internal/renderer/service.go:28-75 | the Service selects the pods and reaches each container port under its own number |
| Children.WorkloadExact | internal/renderer/workload.go:30-130 | the StatefulSet part of it |
| Children.SecretExact | internal/renderer/secret.go:26-50 | the Secret part |
| Children.ClaimExact | internal/renderer/pvc.go:27-65 | the claim part |
| Children.ServiceExact | internal/renderer/service.go:28-75 | the Service part |
| Children.LabelsExact | controllers/helpers/selectors.go:26-37 | the labels of every child |
| Children.UpToDateHolds | controllers/gameserver_resources.go:37-185 | children that are up to date hold what the effective spec says, under any interleaving |
| Reconcile.PassReachesFixpoint | controllers/gameserver_resources.go:37-185 | after a pass the children are up to date and a second pass makes no write |
| Reconcile.QuietExact | controllers/gameserver_resources.go:53-185 | no write iff up to date without extra claims, and then the store stays |
| Reconcile.WritesOnlyWhenNeeded | controllers/gameserver_resources.go:53-185 | where every write is refused a pass still succeeds iff the children are up to date without extra claims: it writes exactly when it has to |
| Reconcile.SecondPassIsQuiet | controllers/gameserver_controller.go:115-137 | a second pass that merges, expands, validates and allocates anew writes no child |
| Reconcile.EffectiveKeepsLifecycle | controllers/gameserver_controller.go:115-132 | the effective spec keeps the lifecycle section |
| Reconcile.EffectiveExact | controllers/gameserver_controller.go:115-132 | an effective spec exists iff the filled line is well formed, the merged spec valid and the ports placeable, with the error of the first that fails; only command, arguments and network differ from the merged spec |
| Reconcile.MergeExact | controllers/helpers/defaults.go:25-100 | every part the server leaves empty comes from the class, every other part from the server |
| Reconcile.MergeIsIdempotent | controllers/helpers/defaults.go:25-100 | merging twice is merging once |
| Reconcile.PassesRenderStoredPorts | controllers/gameserver_controller.go:115-137 | in every reachable state, every pass over a server stored with its range renders exactly its stored ports, under any class |
| Reconcile.OneClaimPerServer | controllers/gameserver_resources.go:78-128 | after a pass exactly one claim of the namespace carries the server's name |
| Reconcile.PassFrame | controllers/gameserver_resources.go:37-185 | children of other servers are unchanged; another server's claim goes exactly when it carries the wrong label |
| Reconcile.ServiceOutlivesPorts | controllers/gameserver_resources.go:130-134 | a Service stays as it was when all ports are removed |
| Power.SetPowerState | ptero-wings-controller/service.go:118-137 | the stored server after an action; exactly when it is refused |
| Power.PowerIsARewrite | ptero-wings-controller/service.go:118-137 | power changes are among the rewrites under which ports stay safe |
| Power.LastActionDecides | ptero-wings-controller/service.go:124-135 | after any actions, suspended iff the last valid one was stop or kill; nothing else in the spec changes |
| Power.PowerTraces | ptero-wings-controller/service.go:124-136 | power actions leave nothing but the suspension and the annotation of the latest restart |
| Power.PowerRunsDecideReplicas | internal/renderer/workload.go:35-38 | after any actions and a pass whose patch lands, no replicas and stored phase Suspended iff the last valid action was stop or kill |
| Power.RestartIsStart | ptero-wings-controller/service.go:125-132 | restart leads to the same effective spec as start |
| Power.RestartOfRunningServerIsQuiet | ptero-wings-controller/service.go:129-132 | restarting a running, up-to-date server makes the next pass write nothing |
| Finalize.DeletePolicy | controllers/helpers/storage.go:23-31 | Retain iff the storage policy says so, or says nothing and the lifecycle policy does |
| Finalize.WithoutKeepsOthers | controllers/gameserver_finalize.go:97-103 | the filter keeps other owners, as often and in order |
| Finalize.FilterInPlace | controllers/gameserver_finalize.go:97-103 | the loop that overwrites the slice it reads computes the filter |
| Finalize.DetachPvc | controllers/gameserver_finalize.go:86-105 | the claim without this owner; exactly when it fails |
| Finalize.RunFinalizer | controllers/gameserver_finalize.go:37-82 | release, detach under Retain, removal of the finalizer, with every failing call |
| Finalize.FinalizeExact | controllers/gameserver_finalize.go:37-105 | object by object: the phase, the operator's own finalizer and no other, the object gone iff being deleted with no other finalizer, the claim without this owner under Retain, nothing else |
| Finalize.FinalizeSparesChildren | controllers/gameserver_finalize.go:37-82 | no child but the claim is written; success means the finalizer is gone |
| Lifecycle.DeleteServer | ptero-wings-controller/service.go:109-116 | marks or removes the server; absent is no error |
| Lifecycle.DeleteExact | ptero-wings-controller/service.go:109-116 | a server goes at once iff it has no finalizer, else it is marked and otherwise unchanged |
| Lifecycle.BegunExact | controllers/gameserver_controller.go:76-93 | the first pass adds the operator's finalizer to the others and ends, a dying object gets none, otherwise cleanup starts iff the object is being deleted |
| Lifecycle.StepKeepsInv | controllers/gameserver_controller.go:81-137 | every step keeps: a busy worker's object is stored with its UID and finalizer, claims belong to incarnations of their server, labels match names |
| Lifecycle.StepKeepsAnchors | controllers/gameserver_finalize.go:68-78 | no step but the last of a finalizing pass takes a guarded object away |
| Lifecycle.RunKeepsInv | controllers/gameserver_controller.go:81-137 | the invariant holds in every run |
| LifecycleTheorems.ChildrenOnlyForLiveServers | controllers/gameserver_controller.go:81-137 | every child, claims included, is written for a server object that is still stored, by a pass that loaded it alive, and new children are owned by it; only the detach of a retained claim and users' own claims are apart |
| LifecycleTheorems.FinalizerGoesLast | controllers/gameserver_finalize.go:49-78 | the finalizer goes only in the last step of a finalizing pass that released the ports and then came to its claim earlier in the run; if that detach succeeded under Retain, the object owns no claim in any continuation |
| LifecycleTheorems.DetachIsForever | controllers/gameserver_finalize.go:84-105 | after a successful detach the finalized object never owns a claim again, in any continuation |
| LifecycleTheorems.ServiceKeepsType | controllers/gameserver_resources.go:130-158 | a Service stays with its type and owner through every continuation in which its owner lives |
| LifecycleTheorems.KeptForever | controllers/gameserver_resources.go:87-106 | a server's claim without owners keeps its data in every continuation |
| LifecycleTheorems.RetainedDataSurvives | controllers/gameserver_finalize.go:59-66 | after a successful detach the claim survives every continuation iff every owner on it was the finalized object |
| LifecycleTheorems.RetainCanLoseData | controllers/gameserver_finalize.go:96-104 | a reachable run that loses a retained claim |
| LifecycleTheorems.UninterruptedPass | controllers/gameserver_resources.go:37-51 | the steps of one worker without interleaving are the sequential pass |
| LifecycleTheorems.UninterruptedFinalize | controllers/gameserver_finalize.go:37-82 | the steps of one finalizing worker without interleaving are the sequential finalizer, whichever calls fail |
| Interleaving.InterleavedPass | controllers/gameserver_resources.go:37-185 | a pass ends with all children as it rendered them under every interleaving with users, the collector and other passes iff each Secret, claim and needed Service already there has no owner or the loaded object among its owners |
| Interleaving.RunKeepsOwned | controllers/gameserver_resources.go:53-158 | in every run Secrets, claims and Services are owned by incarnations of the server they are named after only |
| Interleaving.PredecessorBreaksPass | controllers/gameserver_resources.go:78-107 | a reachable pass that does not: a predecessor's claim is still there |
| Controller.Reconciler.ResolvePorts | controllers/gameserver_controller.go:127-132 | the allocated network in the effective spec; refused exactly when there is no allocation or the servers it needs were not listed |
| Controller.Reconciler.ComputeEffective | controllers/gameserver_controller.go:115-132 | the effective spec for some order of the variables; refused exactly when it is, or when the servers it needs were not listed, with its error |
| Controller.Reconciler.Mark | controllers/gameserver_controller.go:96-103 | the Reconciling mark in memory and, if it lands, in the store |
| Controller.Reconciler.Fail | controllers/gameserver_controller.go:148-157 | the given error is returned, recorded in memory and, if the patch lands, in the store, and nothing else changes |
| Controller.Reconciler.Finish | controllers/gameserver_controller.go:139-144 | the status synced from what was observed, in memory and, if the patch lands, in the store; succeeds iff the Service could be read and the patch lands |
| Controller.Reconciler.LivePass | controllers/gameserver_controller.go:96-145 | each outcome with its cause: class missing, spec refused, first failing child stage with the children it leaves, Service unreadable or patch lost, success otherwise; the error recorded is the one returned |
| Controller.Reconciler.Reconcile | controllers/gameserver_controller.go:72-145 | nothing for an absent server, the finalizer for a new one, cleanup for a dying one, a full pass otherwise, each with its exact condition for success |
| Controller.PassEnds | controllers/gameserver_controller.go:127-132 | with a maximum from 0 up every pass ends, so the precondition of Reconcile on the search holds |
| Controller.ClassExact | controllers/gameserver_controller.go:105-115 | a server that names a class merges with the class that was read, and only such a server does |
| Controller.StopExact | controllers/gameserver_finalize.go:40-47 | the stop of a finalizing pass changes the phase alone, as the stop event of the status runs |
| Controller.PassIsReported | controllers/gameserver_controller.go:96-157 | a successful pass leaves children up to date and a coherent status without error; a failed one whose patch lands leaves its error in the status, or up-to-date children and a Service that cannot be read |

## Left out

- The gateway, the panel client, logs, console and metrics: input and output over other libraries.
- The webhooks and the parts of MergeWithClass that only copy resources, scheduling and storage quantities: they are single strings here.
- The environment, limits and disk parts of gameServerFromRequest: field copies.
- requestStorageProtection and buildEndpoint: annotations and formatting; the endpoint is a parameter.
- Defaulting by the API server, cache staleness and write conflicts: the store keeps what it is given, and one worker handles a key.
- Invalid UTF-8: strings are sequences of Unicode characters.
- Allocator.ClusterAllocator.Allocate: has no contract for a call whose search never ends, which needs a negative maximum or more than 2^31 ports; the same holds for FindFreeRange, Start, CreateServer, ResolvePorts, ComputeEffective, LivePass and Reconcile.
- Controller.Reconciler.Reconcile: the list call shows the stored ports of that moment.
- In Lifecycle, a read and the write that follows it are one step. Between the two of them nobody writes the same object but the collector, and users by creating a claim of that name; such a race only makes the write fail, which is a failed step here. Users do not delete claims or strip the operator's finalizer, and their own claims named like a server's data carry that server's label.
- Foreground deletion, in which the collector deletes owned children while their owner is still stored: there a retained claim can go before the detach.
- Within one pass the clock reads the same time at every call.
- The stored policy, not the class-merged one, decides at finalization, as in the code.
