/** The custom resources of api/v1alpha1, as values, and the mutable object a controller works on. */
module Api {
  import opened Core

  datatype Key = Key(namespace: string, name: string)

  datatype PortSpec = PortSpec(name: string, protocol: string, containerPort: int32, nodePort: int32)

  datatype NodePortAllocation =
    NodePortAllocation(startPort: int32, count: int32, containerStartPort: int32, protocol: string)

  datatype NetworkSpec =
    NetworkSpec(ports: seq<PortSpec>, serviceType: string, nodePortAllocation: Option<NodePortAllocation>)

  datatype EnvVar = EnvVar(name: string, value: string)

  datatype GameSpec =
    GameSpec(gameType: string, image: string, command: seq<string>, args: seq<string>, env: seq<EnvVar>)

  datatype StartupSpec = StartupSpec(raw: string, variables: map<string, string>)

  /** `volume` stands for the size, storage class and access mode, which are only copied. */
  datatype StorageSpec =
    StorageSpec(volume: string, mountPath: string, existingClaim: string, deletePolicy: string, backupPolicy: string)

  datatype LifecycleSpec = LifecycleSpec(suspended: bool, deletePolicy: string, restartPolicy: string)

  datatype OwnerSpec = OwnerSpec(userId: string, nodeId: string, serverUid: string)

  datatype PterodactylSpec = PterodactylSpec(serverUuid: string, synchronized: bool)

  /** `other` stands for resources, scheduling and image pulling, which are only copied. */
  datatype Spec = Spec(
    classRef: Option<string>,
    ownerRef: Option<OwnerSpec>,
    game: GameSpec,
    startup: Option<StartupSpec>,
    storage: StorageSpec,
    network: NetworkSpec,
    lifecycle: LifecycleSpec,
    pterodactyl: Option<PterodactylSpec>,
    other: string)

  datatype Phase =
    Unset | Pending | Provisioning | Starting | Running | Stopping | Failed | Suspended

  /** A metav1.Condition; the operator only ever writes the statuses True and False. */
  datatype Condition =
    Condition(kind: string, status: bool, reason: string, message: string, generation: int, transition: int)

  datatype Status = Status(
    observedGeneration: int,
    phase: Phase,
    conditions: seq<Condition>,
    endpoint: string,
    allocatedNode: string,
    podName: string,
    containerName: string,
    serviceName: string,
    pvcName: string,
    lastError: string)

  const EMPTY_STATUS := Status(0, Unset, [], "", "", "", "", "", "", "")

  datatype GameServer = GameServer(
    key: Key,
    uid: nat,
    generation: int,
    finalizers: set<string>,
    deleting: bool,
    annotations: map<string, string>,
    spec: Spec,
    status: Status)
  {
    function WithNetwork(n: NetworkSpec): (gs: GameServer)
      ensures gs.spec.network == n && gs.key == key
    {
      this.(spec := spec.(network := n))
    }
  }

  /** The default parts of a GameServerClass that the model reads. */
  datatype GameServerClass = GameServerClass(
    image: string,
    command: seq<string>,
    args: seq<string>,
    startup: Option<StartupSpec>,
    storage: StorageSpec,
    network: NetworkSpec)

  /** A *GameServer: the object a pass loads, changes and writes back. */
  class GameServerRef {
    var value: GameServer

    constructor (gs: GameServer)
      ensures value == gs
    {
      value := gs;
    }
  }
}
