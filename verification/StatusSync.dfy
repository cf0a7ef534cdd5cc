/** controllers/gameserver_status.go and failWith of gameserver_controller.go: the status a pass
    writes, through merge patches that may or may not reach the store. */
module StatusSync {
  import opened Core
  import opened Api
  import opened Conditions
  import Renderer

  const READY := "Ready"
  const RECONCILING := "Reconciling"
  const STALLED := "Stalled"
  const STORAGE_READY := "StorageReady"
  const NETWORK_READY := "NetworkReady"
  const PTERODACTYL_SYNCED := "PterodactylSynced"

  /** What a read returns. */
  datatype Read<+T> = Found(value: T) | NotFound | ReadError(error: string)

  datatype Workload = Workload(replicas: Option<int32>, readyReplicas: int32, currentReplicas: int32)

  /** Everything syncStatus reads; the endpoint is the text built from the Service. */
  datatype Observation = Observation(
    workload: Option<Workload>,
    pod: Option<(string, string)>,
    endpoint: Read<string>,
    claimPhase: Read<string>)

  /** As many replicas are ready as were asked for; an unset number asks for one. */
  predicate AllReady(w: Workload) {
    match w.replicas
    case None => w.readyReplicas >= 1
    case Some(n) => w.readyReplicas >= n
  }

  function DerivePhase(suspended: bool, workload: Option<Workload>): (p: Phase)
    ensures p == Suspended <==> suspended || (workload.Some? && workload.value.replicas == Some(0))
    ensures p == Provisioning <==> !suspended && workload.None?
    ensures p == Running <==> !suspended && workload.Some? && workload.value.replicas != Some(0) && AllReady(workload.value)
    ensures p == Starting <==> && !suspended && workload.Some? && workload.value.replicas != Some(0)
                               && !AllReady(workload.value) && workload.value.currentReplicas > 0
    ensures p in {Suspended, Provisioning, Running, Starting, Pending}
  {
    if suspended then Suspended
    else if workload.None? then Provisioning
    else
      var desired := if workload.value.replicas.Some? then workload.value.replicas.value else 1;
      if desired == 0 then Suspended
      else if workload.value.readyReplicas >= desired then Running
      else if workload.value.currentReplicas > 0 then Starting
      else Pending
  }

  function PhaseText(p: Phase): (s: string) {
    match p
    case Unset => ""
    case Pending => "Pending"
    case Provisioning => "Provisioning"
    case Starting => "Starting"
    case Running => "Running"
    case Stopping => "Stopping"
    case Failed => "Failed"
    case Suspended => "Suspended"
  }

  function Put(gs: GameServer, kind: string, status: bool, reason: string, message: string, now: int): (r: GameServer)
    ensures r.spec == gs.spec && r.generation == gs.generation && r.key == gs.key
  {
    gs.(status := gs.status.(conditions :=
      Upsert(gs.status.conditions, Condition(kind, status, reason, message, gs.generation, 0), now)))
  }

  /** The helpers SetReady, SetReconciling, SetStalled, SetStorageReady and SetNetworkReady. */
  method Set(gs: GameServerRef, kind: string, status: bool, reason: string, message: string, now: int)
    modifies gs
    ensures gs.value == Put(old(gs.value), kind, status, reason, message, now)
  {
    SetCondition(gs, Condition(kind, status, reason, message, gs.value.generation, 0), now);
  }

  // ---------------------------------------------------------------- the three status changes of a pass

  function Marked(gs: GameServer, now: int): (r: GameServer) {
    Put(gs, RECONCILING, true, "Reconciling", "Controller is reconciling the resource", now)
  }

  function FailedWith(gs: GameServer, error: string, now: int): (r: GameServer) {
    var g := gs.(status := gs.status.(phase := Failed, lastError := error));
    var g1 := Put(g, READY, false, "ReconcileError", error, now);
    var g2 := Put(g1, STALLED, true, "ReconcileError", error, now);
    Put(g2, RECONCILING, false, "Failed", "Reconcile failed", now)
  }

  method FailWith(gs: GameServerRef, error: string, now: int)
    modifies gs
    ensures gs.value == FailedWith(old(gs.value), error, now)
  {
    gs.value := gs.value.(status := gs.value.status.(phase := Failed, lastError := error));
    Set(gs, READY, false, "ReconcileError", error, now);
    Set(gs, STALLED, true, "ReconcileError", error, now);
    Set(gs, RECONCILING, false, "Failed", "Reconcile failed", now);
  }

  /** The fields of the status that come from what was read. */
  function FieldsFrom(gs: GameServer, o: Observation): (r: GameServer) {
    gs.(status := gs.status.(
      observedGeneration := gs.generation, lastError := "", containerName := "gameserver",
      pvcName := Renderer.PvcName(gs.key.name),
      podName := if o.pod.Some? then o.pod.value.0 else gs.status.podName,
      allocatedNode := if o.pod.Some? then o.pod.value.1 else gs.status.allocatedNode,
      serviceName := if o.endpoint.Found? then gs.key.name else "",
      endpoint := if o.endpoint.Found? then o.endpoint.value else ""))
  }

  function NetworkFrom(gs: GameServer, needsService: bool, o: Observation, now: int): (r: GameServer) {
    if o.endpoint.Found? then Put(gs, NETWORK_READY, true, "ServiceReady", "Service exists", now)
    else Put(gs, NETWORK_READY, !needsService, "NoService", "No ports defined", now)
  }

  function StorageFrom(gs: GameServer, o: Observation, now: int): (r: GameServer) {
    if o.claimPhase.Found? then
      Put(gs, STORAGE_READY, o.claimPhase.value == "Bound", "PVCPhase", "PVC phase is " + o.claimPhase.value, now)
    else gs
  }

  /** The fields, the network condition and the storage condition. */
  function SyncedReads(gs: GameServer, needsService: bool, o: Observation, now: int): (r: GameServer)
    ensures r.spec == gs.spec && r.generation == gs.generation && r.key == gs.key
    ensures r.status.lastError == ""
  {
    StorageFrom(NetworkFrom(FieldsFrom(gs, o), needsService, o, now), o, now)
  }

  /** The phase and the conditions that summarise it. */
  function Summarized(gs: GameServer, workload: Option<Workload>, now: int): (r: GameServer)
    ensures r.spec == gs.spec
  {
    var phase := DerivePhase(gs.spec.lifecycle.suspended, workload);
    var g := gs.(status := gs.status.(phase := phase));
    var g1 := Put(g, READY, phase == Running, PhaseText(phase), "Phase is " + PhaseText(phase), now);
    var g2 := Put(g1, RECONCILING, false, "ReconcileComplete", "Reconcile loop finished successfully", now);
    Put(g2, STALLED, false, "OK", "", now)
  }

  function SyncedPhase(gs: GameServer, workload: Option<Workload>, now: int): (r: GameServer) {
    var g := Summarized(gs, workload, now);
    match gs.spec.pterodactyl
    case None => g
    case Some(p) => Put(g, PTERODACTYL_SYNCED, p.synchronized, "SyncStatus", "Set by external adapter service", now)
  }

  function Synced(gs: GameServer, needsService: bool, o: Observation, now: int): (r: GameServer) {
    SyncedPhase(SyncedReads(gs, needsService, o, now), o.workload, now)
  }

  /** syncStatus up to its patch; a failed Service read leaves it without one. */
  method SyncStatus(gs: GameServerRef, needsService: bool, o: Observation, now: int) returns (r: Result<()>)
    modifies gs
    ensures r.Ok? <==> !o.endpoint.ReadError?
    ensures r.Ok? ==> gs.value == Synced(old(gs.value), needsService, o, now)
  {
    gs.value := gs.value.(status := gs.value.status.(
      observedGeneration := gs.value.generation, lastError := "", containerName := "gameserver",
      pvcName := Renderer.PvcName(gs.value.key.name)));
    if o.pod.Some? {
      gs.value := gs.value.(status := gs.value.status.(podName := o.pod.value.0, allocatedNode := o.pod.value.1));
    }
    match o.endpoint {
      case Found(e) =>
        gs.value := gs.value.(status := gs.value.status.(serviceName := gs.value.key.name, endpoint := e));
        Set(gs, NETWORK_READY, true, "ServiceReady", "Service exists", now);
      case NotFound =>
        gs.value := gs.value.(status := gs.value.status.(serviceName := "", endpoint := ""));
        Set(gs, NETWORK_READY, !needsService, "NoService", "No ports defined", now);
      case ReadError(e) =>
        return Err("reading service: " + e);
    }
    if o.claimPhase.Found? {
      Set(gs, STORAGE_READY, o.claimPhase.value == "Bound", "PVCPhase", "PVC phase is " + o.claimPhase.value, now);
    }
    assert gs.value == SyncedReads(old(gs.value), needsService, o, now);
    SyncPhase(gs, o.workload, now);
    return Ok(());
  }

  method SyncPhase(gs: GameServerRef, workload: Option<Workload>, now: int)
    modifies gs
    ensures gs.value == SyncedPhase(old(gs.value), workload, now)
  {
    var phase := DerivePhase(gs.value.spec.lifecycle.suspended, workload);
    gs.value := gs.value.(status := gs.value.status.(phase := phase));
    var isReady := phase == Running;
    Set(gs, READY, isReady, PhaseText(phase), "Phase is " + PhaseText(phase), now);
    Set(gs, RECONCILING, false, "ReconcileComplete", "Reconcile loop finished successfully", now);
    Set(gs, STALLED, false, "OK", "", now);
    if gs.value.spec.pterodactyl.Some? {
      Set(gs, PTERODACTYL_SYNCED, gs.value.spec.pterodactyl.value.synchronized, "SyncStatus",
          "Set by external adapter service", now);
    }
  }
}
