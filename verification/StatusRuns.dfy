/** Status over runs of passes, where each status patch may or may not reach the store. */
module StatusRuns {
  import opened Core
  import opened Api
  import opened Conditions
  import Renderer
  import opened StatusSync

  /** A merge patch (section 2 of RFC 7396) from `base` to `changed`, applied to what is stored:
      only changed fields travel, and the condition list travels as a whole. */
  function MergePatch(stored: Status, base: Status, changed: Status): (r: Status)
    ensures stored == base ==> r == changed
  {
    Status(
      if base.observedGeneration == changed.observedGeneration then stored.observedGeneration else changed.observedGeneration,
      if base.phase == changed.phase then stored.phase else changed.phase,
      if base.conditions == changed.conditions then stored.conditions else changed.conditions,
      if base.endpoint == changed.endpoint then stored.endpoint else changed.endpoint,
      if base.allocatedNode == changed.allocatedNode then stored.allocatedNode else changed.allocatedNode,
      if base.podName == changed.podName then stored.podName else changed.podName,
      if base.containerName == changed.containerName then stored.containerName else changed.containerName,
      if base.serviceName == changed.serviceName then stored.serviceName else changed.serviceName,
      if base.pvcName == changed.pvcName then stored.pvcName else changed.pvcName,
      if base.lastError == changed.lastError then stored.lastError else changed.lastError)
  }

  /** A field travels exactly when it changed; a field that the patch does not change keeps the stored value. */
  lemma PatchFieldwise(stored: Status, base: Status, changed: Status)
    ensures var r := MergePatch(stored, base, changed);
            && r.observedGeneration == (if base.observedGeneration != changed.observedGeneration then changed.observedGeneration else stored.observedGeneration)
            && r.phase == (if base.phase != changed.phase then changed.phase else stored.phase)
            && r.conditions == (if base.conditions != changed.conditions then changed.conditions else stored.conditions)
            && r.endpoint == (if base.endpoint != changed.endpoint then changed.endpoint else stored.endpoint)
            && r.allocatedNode == (if base.allocatedNode != changed.allocatedNode then changed.allocatedNode else stored.allocatedNode)
            && r.podName == (if base.podName != changed.podName then changed.podName else stored.podName)
            && r.containerName == (if base.containerName != changed.containerName then changed.containerName else stored.containerName)
            && r.serviceName == (if base.serviceName != changed.serviceName then changed.serviceName else stored.serviceName)
            && r.pvcName == (if base.pvcName != changed.pvcName then changed.pvcName else stored.pvcName)
            && r.lastError == (if base.lastError != changed.lastError then changed.lastError else stored.lastError)
  {
  }

  /** Patches that change different parts may come in any order. */
  lemma PatchesCommute(stored: Status, base: Status, a: Status, b: Status)
    requires a == base.(phase := a.phase, lastError := a.lastError)
    requires b == base.(conditions := b.conditions, endpoint := b.endpoint, podName := b.podName, allocatedNode := b.allocatedNode,
                        serviceName := b.serviceName, observedGeneration := b.observedGeneration)
    ensures MergePatch(MergePatch(stored, base, a), base, b) == MergePatch(MergePatch(stored, base, b), base, a)
  {
  }

  datatype Outcome =
    | Completed(needsService: bool, o: Observation)
    | Broken(error: string)

  datatype Event =
    /** a pass over a server that is not being deleted; the flags say which patches landed */
    | Pass(outcome: Outcome, markLands: bool, finalLands: bool, now: int)
    /** a finalizing pass */
    | Stop(lands: bool)
    /** any write that leaves the status alone */
    | Edit(gs: GameServer)

  /** A stored server after a status patch that may be lost. */
  function Patched(gs: GameServer, base: Status, changed: Status, lands: bool): (r: GameServer) {
    if lands then gs.(status := MergePatch(gs.status, base, changed)) else gs
  }

  /** The object in memory at the end of a pass. */
  function InMemory(gs: GameServer, outcome: Outcome, now: int): (r: GameServer) {
    var m := Marked(gs, now);
    match outcome
    case Completed(needsService, o) => if o.endpoint.ReadError? then m else Synced(m, needsService, o, now)
    case Broken(error) => FailedWith(m, error, now)
  }

  function After(gs: GameServer, e: Event): (r: GameServer) {
    match e
    case Pass(outcome, markLands, finalLands, now) =>
      var m := Marked(gs, now);
      Patched(Patched(gs, gs.status, m.status, markLands), m.status, InMemory(gs, outcome, now).status, finalLands)
    case Stop(lands) => if lands then gs.(status := gs.status.(phase := Stopping)) else gs
    case Edit(g) => g.(status := gs.status)
  }

  lemma AfterPass(gs: GameServer, e: Event, f: GameServer)
    requires e.Pass? && f == InMemory(gs, e.outcome, e.now)
    ensures After(gs, e) ==
            Patched(Patched(gs, gs.status, Marked(gs, e.now).status, e.markLands), Marked(gs, e.now).status, f.status, e.finalLands)
  {
  }

  function Run(gs: GameServer, events: seq<Event>): (r: GameServer)
    decreases |events|
  {
    if events == [] then gs else Run(After(gs, events[0]), events[1..])
  }

  /** What a landed final patch promises to a reader of the status. */
  predicate Coherent(s: Status) {
    && (IsTrue(s.conditions, READY) || IsFalse(s.conditions, READY))
    && (IsTrue(s.conditions, READY) <==> s.phase == Running)
    && (IsTrue(s.conditions, STALLED) <==> s.phase == Failed)
    && (s.phase == Failed <==> s.lastError != "")
    && IsFalse(s.conditions, RECONCILING)
  }

  /** Every error a pass records has a prefix, so it is never empty. */
  predicate Lands(e: Event) {
    && e.Pass? && e.finalLands
    && (e.outcome.Completed? ==> !e.outcome.o.endpoint.ReadError?)
    && (e.outcome.Broken? ==> e.outcome.error != "")
  }

  // ---------------------------------------------------------------- lookups through a chain of helpers

  /** The condition of a kind reads like this. */
  predicate Says(cs: seq<Condition>, kind: string, status: bool, reason: string, message: string, generation: int) {
    var c := Lookup(cs, kind);
    c.Some? && c.value == Condition(kind, status, reason, message, generation, c.value.transition)
  }

  lemma PutLookup(gs: GameServer, kind: string, status: bool, reason: string, message: string, now: int, other: string)
    requires UniqueKinds(gs.status.conditions)
    ensures var cs := Put(gs, kind, status, reason, message, now).status.conditions;
            && UniqueKinds(cs)
            && Says(cs, kind, status, reason, message, gs.generation)
            && (Lookup(gs.status.conditions, kind).Some? && Lookup(gs.status.conditions, kind).value.status == status ==>
                  Lookup(cs, kind).value.transition == Lookup(gs.status.conditions, kind).value.transition)
            && (other != kind ==> Lookup(cs, other) == Lookup(gs.status.conditions, other))
  {
    UpsertLookup(gs.status.conditions, Condition(kind, status, reason, message, gs.generation, 0), now, other);
  }

  predicate Summary(gs: GameServer, ready: bool, stalled: bool) {
    && UniqueKinds(gs.status.conditions)
    && Lookup(gs.status.conditions, READY).Some? && Lookup(gs.status.conditions, READY).value.status == ready
    && Lookup(gs.status.conditions, STALLED).Some? && Lookup(gs.status.conditions, STALLED).value.status == stalled
    && IsFalse(gs.status.conditions, RECONCILING)
  }

  /** The Ready condition keeps its time as long as it keeps its status. */
  predicate ReadyTimeKept(before: GameServer, after: GameServer, ready: bool) {
    var b := Lookup(before.status.conditions, READY);
    b.Some? && b.value.status == ready ==>
      Lookup(after.status.conditions, READY).Some? && Lookup(after.status.conditions, READY).value.transition == b.value.transition
  }

  /** The kinds that summarise a phase, and those that come from reads. */
  predicate OfSummary(kind: string) {
    kind == READY || kind == STALLED || kind == RECONCILING
  }

  predicate OfReads(kind: string) {
    kind == NETWORK_READY || kind == STORAGE_READY
  }

  /** A failure in memory: phase Failed with the error, in the status and in the messages of Ready and
      Stalled; Ready keeps its time if it was False before, and no other kind is touched. */
  lemma FailedSummary(gs: GameServer, error: string, now: int, other: string)
    requires UniqueKinds(gs.status.conditions)
    ensures var r := FailedWith(gs, error, now);
            && r == gs.(status := gs.status.(phase := Failed, lastError := error, conditions := r.status.conditions))
            && Summary(r, false, true)
            && Says(r.status.conditions, READY, false, "ReconcileError", error, gs.generation)
            && Says(r.status.conditions, STALLED, true, "ReconcileError", error, gs.generation)
            && Says(r.status.conditions, RECONCILING, false, "Failed", "Reconcile failed", gs.generation)
            && ReadyTimeKept(gs, r, false)
            && (!OfSummary(other) ==>
                  Lookup(r.status.conditions, other) == Lookup(gs.status.conditions, other))
  {
    var g := gs.(status := gs.status.(phase := Failed, lastError := error));
    var g1 := Put(g, READY, false, "ReconcileError", error, now);
    var g2 := Put(g1, STALLED, true, "ReconcileError", error, now);
    PutLookup(g, READY, false, "ReconcileError", error, now, other);
    PutLookup(g1, STALLED, true, "ReconcileError", error, now, READY);
    PutLookup(g1, STALLED, true, "ReconcileError", error, now, other);
    PutLookup(g2, RECONCILING, false, "Failed", "Reconcile failed", now, READY);
    PutLookup(g2, RECONCILING, false, "Failed", "Reconcile failed", now, STALLED);
    PutLookup(g2, RECONCILING, false, "Failed", "Reconcile failed", now, other);
  }

  /** The fields that a sync fills from what it read: generation, fixed names, pod and node (kept when no pod
      was found), Service and endpoint (empty when there is no Service). */
  predicate FieldsRead(before: Status, after: Status, gs: GameServer, o: Observation) {
    && after.observedGeneration == gs.generation && after.lastError == ""
    && after.containerName == "gameserver" && after.pvcName == gs.key.name + "-data"
    && after.podName == (if o.pod.Some? then o.pod.value.0 else before.podName)
    && after.allocatedNode == (if o.pod.Some? then o.pod.value.1 else before.allocatedNode)
    && after.serviceName == (if o.endpoint.Found? then gs.key.name else "")
    && after.endpoint == (if o.endpoint.Found? then o.endpoint.value else "")
  }

  /** NetworkReady is True iff there is a Service or none is needed; StorageReady is True iff the claim is
      bound, and stays as it was when the claim was not read. */
  predicate ReadinessRead(before: seq<Condition>, after: seq<Condition>, needsService: bool, o: Observation, generation: int) {
    && (if o.endpoint.Found? then Says(after, NETWORK_READY, true, "ServiceReady", "Service exists", generation)
        else Says(after, NETWORK_READY, !needsService, "NoService", "No ports defined", generation))
    && (if o.claimPhase.Found? then
          Says(after, STORAGE_READY, o.claimPhase.value == "Bound", "PVCPhase", "PVC phase is " + o.claimPhase.value, generation)
        else Lookup(after, STORAGE_READY) == Lookup(before, STORAGE_READY))
  }

  /** Only conditions of one kind may differ. */
  predicate OnlyKind(gs: GameServer, r: GameServer, kind: string, other: string) {
    && r == gs.(status := gs.status.(conditions := r.status.conditions)) && UniqueKinds(r.status.conditions)
    && (other != kind ==> Lookup(r.status.conditions, other) == Lookup(gs.status.conditions, other))
  }

  lemma NetworkRead(gs: GameServer, needsService: bool, o: Observation, now: int, other: string)
    requires UniqueKinds(gs.status.conditions)
    ensures var r := NetworkFrom(gs, needsService, o, now);
            && OnlyKind(gs, r, NETWORK_READY, other)
            && if o.endpoint.Found? then Says(r.status.conditions, NETWORK_READY, true, "ServiceReady", "Service exists", gs.generation)
               else Says(r.status.conditions, NETWORK_READY, !needsService, "NoService", "No ports defined", gs.generation)
  {
    if o.endpoint.Found? {
      PutLookup(gs, NETWORK_READY, true, "ServiceReady", "Service exists", now, other);
    } else {
      PutLookup(gs, NETWORK_READY, !needsService, "NoService", "No ports defined", now, other);
    }
  }

  lemma StorageRead(gs: GameServer, o: Observation, now: int, other: string)
    requires UniqueKinds(gs.status.conditions)
    ensures var r := StorageFrom(gs, o, now);
            && OnlyKind(gs, r, STORAGE_READY, other)
            && if o.claimPhase.Found? then
                 Says(r.status.conditions, STORAGE_READY, o.claimPhase.value == "Bound", "PVCPhase",
                      "PVC phase is " + o.claimPhase.value, gs.generation)
               else Lookup(r.status.conditions, STORAGE_READY) == Lookup(gs.status.conditions, STORAGE_READY)
  {
    if o.claimPhase.Found? {
      PutLookup(gs, STORAGE_READY, o.claimPhase.value == "Bound", "PVCPhase", "PVC phase is " + o.claimPhase.value, now, other);
    }
  }

  lemma FieldsExact(gs: GameServer, o: Observation)
    ensures var r := FieldsFrom(gs, o);
            && r == gs.(status := r.status) && r.status.phase == gs.status.phase && r.status.conditions == gs.status.conditions
            && FieldsRead(gs.status, r.status, gs, o)
  {
  }

  /** The first half of a sync: the fields and conditions above, and no other kind. */
  lemma ReadsExact(gs: GameServer, needsService: bool, o: Observation, now: int, other: string)
    requires UniqueKinds(gs.status.conditions)
    ensures var r := SyncedReads(gs, needsService, o, now);
            && r == gs.(status := r.status) && r.status.phase == gs.status.phase && UniqueKinds(r.status.conditions)
            && FieldsRead(gs.status, r.status, gs, o)
            && ReadinessRead(gs.status.conditions, r.status.conditions, needsService, o, gs.generation)
            && (!OfReads(other) ==> Lookup(r.status.conditions, other) == Lookup(gs.status.conditions, other))
  {
    var g := FieldsFrom(gs, o);
    var g' := NetworkFrom(g, needsService, o, now);
    FieldsExact(gs, o);
    NetworkRead(g, needsService, o, now, other);
    NetworkRead(g, needsService, o, now, STORAGE_READY);
    StorageRead(g', o, now, other);
    StorageRead(g', o, now, NETWORK_READY);
  }

  /** Whether r differs from gs only in the phase and in conditions, of which this one is kept. */
  predicate OnlyPhaseAnd(gs: GameServer, r: GameServer, phase: Phase, kept: bool, other: string) {
    && r == gs.(status := gs.status.(phase := phase, conditions := r.status.conditions))
    && (kept ==> Lookup(r.status.conditions, other) == Lookup(gs.status.conditions, other))
  }

  /** The text of a phase is its name in the API. */
  lemma PhaseNames(p: Phase)
    ensures PhaseText(p) == "Running" <==> p == Running
    ensures PhaseText(p) == "Starting" <==> p == Starting
    ensures PhaseText(p) == "Pending" <==> p == Pending
    ensures PhaseText(p) == "Provisioning" <==> p == Provisioning
    ensures PhaseText(p) == "Suspended" <==> p == Suspended
  {
  }

  /** The conditions that summarise a phase name it. */
  predicate PhaseSaid(cs: seq<Condition>, phase: Phase, generation: int) {
    && Says(cs, READY, phase == Running, PhaseText(phase), "Phase is " + PhaseText(phase), generation)
    && Says(cs, RECONCILING, false, "ReconcileComplete", "Reconcile loop finished successfully", generation)
    && Says(cs, STALLED, false, "OK", "", generation)
  }

  lemma SummarizedLookup(gs: GameServer, workload: Option<Workload>, now: int, other: string)
    requires UniqueKinds(gs.status.conditions)
    ensures var phase := DerivePhase(gs.spec.lifecycle.suspended, workload);
            var r := Summarized(gs, workload, now);
            && OnlyPhaseAnd(gs, r, phase, !OfSummary(other), other)
            && Summary(r, phase == Running, false)
            && PhaseSaid(r.status.conditions, phase, gs.generation)
            && ReadyTimeKept(gs, r, phase == Running)
  {
    var phase := DerivePhase(gs.spec.lifecycle.suspended, workload);
    var text := PhaseText(phase);
    var g := gs.(status := gs.status.(phase := phase));
    var g1 := Put(g, READY, phase == Running, text, "Phase is " + text, now);
    var g2 := Put(g1, RECONCILING, false, "ReconcileComplete", "Reconcile loop finished successfully", now);
    PutLookup(g, READY, phase == Running, text, "Phase is " + text, now, other);
    PutLookup(g1, RECONCILING, false, "ReconcileComplete", "Reconcile loop finished successfully", now, READY);
    PutLookup(g1, RECONCILING, false, "ReconcileComplete", "Reconcile loop finished successfully", now, other);
    PutLookup(g2, STALLED, false, "OK", "", now, READY);
    PutLookup(g2, STALLED, false, "OK", "", now, RECONCILING);
    PutLookup(g2, STALLED, false, "OK", "", now, other);
  }

  /** A synced phase in memory: Ready says whether it is Running and keeps its time if it said so
      before, Stalled and Reconciling are False, and no other kind but PterodactylSynced is touched. */
  lemma PhaseSummary(gs: GameServer, workload: Option<Workload>, now: int, other: string)
    requires UniqueKinds(gs.status.conditions)
    ensures var phase := DerivePhase(gs.spec.lifecycle.suspended, workload);
            var r := SyncedPhase(gs, workload, now);
            && OnlyPhaseAnd(gs, r, phase, !OfSummary(other) && other != PTERODACTYL_SYNCED, other)
            && Summary(r, phase == Running, false)
            && PhaseSaid(r.status.conditions, phase, gs.generation)
            && ReadyTimeKept(gs, r, phase == Running)
            && (gs.spec.pterodactyl.Some? ==>
                  Says(r.status.conditions, PTERODACTYL_SYNCED, gs.spec.pterodactyl.value.synchronized, "SyncStatus",
                       "Set by external adapter service", gs.generation))
  {
    SummarizedLookup(gs, workload, now, other);
    var g := Summarized(gs, workload, now);
    if gs.spec.pterodactyl.Some? {
      SyncedKeeps(g, gs.spec.pterodactyl.value.synchronized, now, READY);
      SyncedKeeps(g, gs.spec.pterodactyl.value.synchronized, now, RECONCILING);
      SyncedKeeps(g, gs.spec.pterodactyl.value.synchronized, now, STALLED);
      SyncedKeeps(g, gs.spec.pterodactyl.value.synchronized, now, other);
    }
  }

  lemma SyncedKeeps(gs: GameServer, sync: bool, now: int, other: string)
    requires UniqueKinds(gs.status.conditions)
    ensures var cs := Put(gs, PTERODACTYL_SYNCED, sync, "SyncStatus", "Set by external adapter service", now).status.conditions;
            && UniqueKinds(cs)
            && Says(cs, PTERODACTYL_SYNCED, sync, "SyncStatus", "Set by external adapter service", gs.generation)
            && (other != PTERODACTYL_SYNCED ==> Lookup(cs, other) == Lookup(gs.status.conditions, other))
  {
    PutLookup(gs, PTERODACTYL_SYNCED, sync, "SyncStatus", "Set by external adapter service", now, other);
  }

  // ---------------------------------------------------------------- one pass

  /** Whether the pass reports the server as ready. */
  predicate ReportsReady(gs: GameServer, outcome: Outcome) {
    outcome.Completed? && DerivePhase(gs.spec.lifecycle.suspended, outcome.o.workload) == Running
  }

  lemma MemorySummary(gs: GameServer, e: Event)
    requires UniqueKinds(gs.status.conditions) && Lands(e)
    ensures var f := InMemory(gs, e.outcome, e.now);
            && Summary(f, ReportsReady(gs, e.outcome), e.outcome.Broken?)
            && ReadyTimeKept(gs, f, ReportsReady(gs, e.outcome))
            && Coherent(f.status)
  {
    var m := Marked(gs, e.now);
    PutLookup(gs, RECONCILING, true, "Reconciling", "Controller is reconciling the resource", e.now, READY);
    match e.outcome
    case Completed(needsService, o) =>
      ReadsExact(m, needsService, o, e.now, READY);
      PhaseSummary(SyncedReads(m, needsService, o, e.now), o.workload, e.now, READY);
    case Broken(error) =>
      FailedSummary(m, error, e.now, READY);
  }

  /** A landed final patch makes the stored status equal to the one in memory, whether or not the
      earlier patch landed: the two always differ in the Reconciling condition. */
  lemma FinalPatchReplaces(gs: GameServer, e: Event)
    requires UniqueKinds(gs.status.conditions) && Lands(e)
    ensures var f, r := InMemory(gs, e.outcome, e.now), After(gs, e);
            r == gs.(status := f.status)
  {
    var m := Marked(gs, e.now);
    PutLookup(gs, RECONCILING, true, "Reconciling", "Controller is reconciling the resource", e.now, READY);
    MemorySummary(gs, e);
    assert IsTrue(m.status.conditions, RECONCILING);
  }

  /** The whole status that a completed pass stores: the fields and conditions it read, the derived phase
      and its summary, and nothing else. */
  lemma LandedSync(gs: GameServer, e: Event, other: string)
    requires UniqueKinds(gs.status.conditions) && Lands(e) && e.outcome.Completed?
    ensures var o, r := e.outcome.o, After(gs, e);
            var phase := DerivePhase(gs.spec.lifecycle.suspended, o.workload);
            && r == gs.(status := r.status)
            && FieldsRead(gs.status, r.status, gs, o)
            && ReadinessRead(gs.status.conditions, r.status.conditions, e.outcome.needsService, o, gs.generation)
            && r.status.phase == phase && PhaseSaid(r.status.conditions, phase, gs.generation)
            && (!Writes(other) ==> Lookup(r.status.conditions, other) == Lookup(gs.status.conditions, other))
  {
    FinalPatchReplaces(gs, e);
    SyncedExact(gs, e.outcome.needsService, e.outcome.o, e.now, other);
  }

  lemma SyncedFields(gs: GameServer, needsService: bool, o: Observation, now: int)
    requires UniqueKinds(gs.status.conditions)
    ensures var r := Synced(gs, needsService, o, now);
            var phase := DerivePhase(gs.spec.lifecycle.suspended, o.workload);
            && r == gs.(status := r.status) && FieldsRead(gs.status, r.status, gs, o)
            && r.status.phase == phase && PhaseSaid(r.status.conditions, phase, gs.generation)
  {
    ReadsExact(gs, needsService, o, now, READY);
    PhaseSummary(SyncedReads(gs, needsService, o, now), o.workload, now, READY);
  }

  lemma SyncedReadiness(gs: GameServer, needsService: bool, o: Observation, now: int)
    requires UniqueKinds(gs.status.conditions)
    ensures ReadinessRead(gs.status.conditions, Synced(gs, needsService, o, now).status.conditions, needsService, o, gs.generation)
  {
    ReadsExact(gs, needsService, o, now, READY);
    PhaseKeepsReads(SyncedReads(gs, needsService, o, now), o, now);
  }

  /** The kinds that a sync may write. */
  predicate Writes(kind: string) {
    OfReads(kind) || OfSummary(kind) || kind == PTERODACTYL_SYNCED
  }

  lemma SyncedKeepsOthers(gs: GameServer, needsService: bool, o: Observation, now: int, other: string)
    requires UniqueKinds(gs.status.conditions) && !Writes(other)
    ensures Lookup(Synced(gs, needsService, o, now).status.conditions, other) == Lookup(gs.status.conditions, other)
  {
    ReadsExact(gs, needsService, o, now, other);
    PhaseKeeps(SyncedReads(gs, needsService, o, now), o.workload, now, other);
  }

  /** A sync after the mark: the fields and conditions it read, the derived phase and its summary, and nothing else. */
  lemma SyncedExact(gs: GameServer, needsService: bool, o: Observation, now: int, other: string)
    requires UniqueKinds(gs.status.conditions)
    ensures var r := Synced(Marked(gs, now), needsService, o, now);
            var phase := DerivePhase(gs.spec.lifecycle.suspended, o.workload);
            && r == gs.(status := r.status) && FieldsRead(gs.status, r.status, gs, o)
            && ReadinessRead(gs.status.conditions, r.status.conditions, needsService, o, gs.generation)
            && r.status.phase == phase && PhaseSaid(r.status.conditions, phase, gs.generation)
            && (!Writes(other) ==> Lookup(r.status.conditions, other) == Lookup(gs.status.conditions, other))
  {
    var m := Marked(gs, now);
    MarkedExact(gs, now, other);
    MarkedExact(gs, now, STORAGE_READY);
    SyncedFields(m, needsService, o, now);
    SyncedReadiness(m, needsService, o, now);
    if !Writes(other) {
      SyncedKeepsOthers(m, needsService, o, now, other);
    }
  }

  lemma KindsDiffer()
    ensures !OfSummary(NETWORK_READY) && NETWORK_READY != PTERODACTYL_SYNCED
    ensures !OfSummary(STORAGE_READY) && STORAGE_READY != PTERODACTYL_SYNCED
  {
    assert |NETWORK_READY| == |STORAGE_READY| == 12;
    assert |READY| == 5 && |STALLED| == 7 && |RECONCILING| == 11 && |PTERODACTYL_SYNCED| == 17;
  }

  lemma PhaseKeeps(gs: GameServer, workload: Option<Workload>, now: int, kind: string)
    requires UniqueKinds(gs.status.conditions) && !OfSummary(kind) && kind != PTERODACTYL_SYNCED
    ensures Lookup(SyncedPhase(gs, workload, now).status.conditions, kind) == Lookup(gs.status.conditions, kind)
  {
    PhaseSummary(gs, workload, now, kind);
  }

  lemma PhaseKeepsReads(gs: GameServer, o: Observation, now: int)
    requires UniqueKinds(gs.status.conditions)
    ensures var r := SyncedPhase(gs, o.workload, now);
            && Lookup(r.status.conditions, NETWORK_READY) == Lookup(gs.status.conditions, NETWORK_READY)
            && Lookup(r.status.conditions, STORAGE_READY) == Lookup(gs.status.conditions, STORAGE_READY)
  {
    KindsDiffer();
    PhaseKeeps(gs, o.workload, now, NETWORK_READY);
    PhaseKeeps(gs, o.workload, now, STORAGE_READY);
  }

  /** The mark at the start of a pass: Reconciling is True, and nothing else changes. */
  lemma MarkedExact(gs: GameServer, now: int, other: string)
    requires UniqueKinds(gs.status.conditions)
    ensures var r := Marked(gs, now);
            && r == gs.(status := gs.status.(conditions := r.status.conditions)) && UniqueKinds(r.status.conditions)
            && Says(r.status.conditions, RECONCILING, true, "Reconciling", "Controller is reconciling the resource", gs.generation)
            && (other != RECONCILING ==> Lookup(r.status.conditions, other) == Lookup(gs.status.conditions, other))
  {
    PutLookup(gs, RECONCILING, true, "Reconciling", "Controller is reconciling the resource", now, other);
  }

  /** The phase and the error that a landed pass stores. */
  lemma LandedStatus(gs: GameServer, e: Event)
    requires UniqueKinds(gs.status.conditions) && Lands(e)
    ensures var s := After(gs, e).status;
            match e.outcome
            case Completed(_, o) => s.phase == DerivePhase(gs.spec.lifecycle.suspended, o.workload) && s.lastError == ""
            case Broken(error) => s.phase == Failed && s.lastError == error
  {
    FinalPatchReplaces(gs, e);
    MemorySummary(gs, e);
  }

  /** After every pass whose final patch lands: Ready is True iff the phase is Running, Stalled is
      True iff the phase is Failed iff an error is recorded, and Reconciling is False. */
  lemma PassIsCoherent(gs: GameServer, e: Event)
    requires UniqueKinds(gs.status.conditions) && Lands(e)
    ensures Coherent(After(gs, e).status)
  {
    MemorySummary(gs, e);
    FinalPatchReplaces(gs, e);
  }

  lemma MemoryKeepsUnique(gs: GameServer, outcome: Outcome, now: int)
    requires UniqueKinds(gs.status.conditions)
    ensures UniqueKinds(Marked(gs, now).status.conditions)
    ensures UniqueKinds(InMemory(gs, outcome, now).status.conditions)
  {
    var m := Marked(gs, now);
    PutLookup(gs, RECONCILING, true, "Reconciling", "Controller is reconciling the resource", now, READY);
    match outcome
    case Completed(needsService, o) =>
      ReadsExact(m, needsService, o, now, READY);
      PhaseSummary(SyncedReads(m, needsService, o, now), o.workload, now, READY);
    case Broken(error) =>
      FailedSummary(m, error, now, READY);
  }

  lemma EventKeepsUnique(gs: GameServer, e: Event)
    requires UniqueKinds(gs.status.conditions)
    ensures UniqueKinds(After(gs, e).status.conditions)
  {
    if e.Pass? {
      MemoryKeepsUnique(gs, e.outcome, e.now);
    }
  }

  /** In every run from a fresh server: condition kinds stay unique, and the status is coherent
      after every pass whose final patch landed. */
  lemma {:induction false} StatusCoherence(gs: GameServer, events: seq<Event>)
    requires UniqueKinds(gs.status.conditions)
    ensures UniqueKinds(Run(gs, events).status.conditions)
    ensures events != [] && Lands(events[|events| - 1]) ==> Coherent(Run(gs, events).status)
    decreases |events|
  {
    if events != [] {
      EventKeepsUnique(gs, events[0]);
      StatusCoherence(After(gs, events[0]), events[1..]);
      if |events| == 1 {
        assert events[1..] == [];
        if Lands(events[0]) {
          PassIsCoherent(gs, events[0]);
        }
      } else {
        assert events[1..][|events| - 2] == events[|events| - 1];
      }
    }
  }

  /** A pass whose final patch is lost, or whose Service read fails, does not touch the stored Ready condition. */
  lemma LostPassKeepsReady(gs: GameServer, e: Event)
    requires UniqueKinds(gs.status.conditions) && e.Pass? && !Lands(e) && (e.outcome.Broken? ==> e.outcome.error != "")
    ensures Lookup(After(gs, e).status.conditions, READY) == Lookup(gs.status.conditions, READY)
  {
    PutLookup(gs, RECONCILING, true, "Reconciling", "Controller is reconciling the resource", e.now, READY);
    AfterPass(gs, e, InMemory(gs, e.outcome, e.now));
  }

  /** The passes whose final patch lands all report the same readiness. The others may report anything:
      patches may be lost and reads may fail, and any other write may come in between. */
  predicate SameReadiness(gs: GameServer, events: seq<Event>, ready: bool)
    decreases |events|
  {
    events != [] ==>
      && (Lands(events[0]) ==> ReportsReady(gs, events[0].outcome) == ready)
      && (events[0].Pass? && events[0].outcome.Broken? ==> events[0].outcome.error != "")
      && SameReadiness(After(gs, events[0]), events[1..], ready)
  }

  /** Ready keeps its status and its transition time through any number of such passes. */
  lemma {:induction false} ReadyTimeIsStable(gs: GameServer, events: seq<Event>, ready: bool)
    requires UniqueKinds(gs.status.conditions) && SameReadiness(gs, events, ready)
    requires Lookup(gs.status.conditions, READY).Some? && Lookup(gs.status.conditions, READY).value.status == ready
    ensures var r := Lookup(Run(gs, events).status.conditions, READY);
            && r.Some? && r.value.status == ready
            && r.value.transition == Lookup(gs.status.conditions, READY).value.transition
    decreases |events|
  {
    if events != [] {
      var e := events[0];
      EventKeepsUnique(gs, e);
      if Lands(e) {
        MemorySummary(gs, e);
        FinalPatchReplaces(gs, e);
      } else if e.Pass? {
        LostPassKeepsReady(gs, e);
      }
      ReadyTimeIsStable(After(gs, e), events[1..], ready);
    }
  }
}
