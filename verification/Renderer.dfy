/** internal/renderer: the child objects of a server, as a function of its effective spec. */
module Renderer {
  import opened Core
  import opened Api

  type Labels = map<string, string>

  const NAME_LABEL := "gameserver.pterodactyl.io/name"

  /** `owners` are the UIDs of the owner references. */
  datatype Secret = Secret(labels: Labels, owners: seq<nat>, data: map<string, string>)

  /** `volume` identifies the stored data: it is given once, when the claim is created. */
  datatype Pvc = Pvc(labels: Labels, owners: seq<nat>, spec: string, volume: nat)

  datatype ServicePort =
    ServicePort(name: string, protocol: string, port: int32, targetPort: int32, nodePort: int32)

  datatype Service =
    Service(labels: Labels, owners: seq<nat>, serviceType: string, selector: Labels, ports: seq<ServicePort>)

  datatype ContainerPort = ContainerPort(name: string, containerPort: int32, protocol: string)

  datatype Container = Container(
    image: string, command: seq<string>, args: seq<string>, env: seq<EnvVar>,
    secretRef: string, ports: seq<ContainerPort>, mountPath: string)

  datatype Template = Template(labels: Labels, container: Container, claimName: string, other: string)

  datatype StatefulSet =
    StatefulSet(labels: Labels, owners: seq<nat>, replicas: int32, serviceName: string, selector: Labels, template: Template)

  // ---------------------------------------------------------------- names and labels

  function PvcName(name: string): (s: string) {
    name + "-data"
  }

  function SecretName(name: string): (s: string) {
    name + "-config"
  }

  function PvcKey(k: Key): (r: Key) {
    Key(k.namespace, PvcName(k.name))
  }

  function SecretKey(k: Key): (r: Key) {
    Key(k.namespace, SecretName(k.name))
  }

  /** Distinct servers never share a child of one kind. */
  lemma ChildNamesAreInjective(j: Key, k: Key)
    ensures PvcKey(j) == PvcKey(k) ==> j == k
    ensures SecretKey(j) == SecretKey(k) ==> j == k
  {
    SuffixInjective(j.name, k.name, "-data");
    SuffixInjective(j.name, k.name, "-config");
  }

  lemma SuffixInjective(a: string, b: string, suffix: string)
    ensures a + suffix == b + suffix ==> a == b
  {
    if a + suffix == b + suffix {
      assert |a| == |b|;
      assert a == (a + suffix)[..|a|] && b == (b + suffix)[..|b|];
    }
  }

  function LabelsFor(k: Key, spec: Spec): (l: Labels)
    ensures NAME_LABEL in l && l[NAME_LABEL] == k.name
  {
    var l := map[
      "app.kubernetes.io/name" := "gameserver",
      "app.kubernetes.io/instance" := k.name,
      "app.kubernetes.io/managed-by" := "cube-operator",
      NAME_LABEL := k.name];
    if spec.game.gameType != "" then
      assert NAME_LABEL[26] != "gameserver.pterodactyl.io/game"[26];
      l["gameserver.pterodactyl.io/game" := spec.game.gameType]
    else l
  }

  function SelectorFor(k: Key): (l: Labels) {
    map["app.kubernetes.io/instance" := k.name, NAME_LABEL := k.name]
  }

  // ---------------------------------------------------------------- rendering

  function RenderSecret(k: Key, spec: Spec): (s: Secret) {
    var owner := match spec.ownerRef
                 case None => map[]
                 case Some(o) => map["userId" := o.userId, "nodeId" := o.nodeId, "serverUid" := o.serverUid];
    var panel := match spec.pterodactyl
                 case None => map[]
                 case Some(p) => map["pterodactylUUID" := p.serverUuid];
    Secret(LabelsFor(k, spec), [], owner + panel)
  }

  function RenderPvc(k: Key, spec: Spec, volume: nat): (p: Pvc) {
    Pvc(LabelsFor(k, spec), [], spec.storage.volume, volume)
  }

  function DefaultProtocol(p: string): (r: string) {
    if p == "" then "TCP" else p
  }

  function RenderServicePort(p: PortSpec, i: nat): (r: ServicePort) {
    ServicePort(if p.name == "" then "port-" + Decimal(i) else p.name, DefaultProtocol(p.protocol),
                p.containerPort, p.containerPort, if p.nodePort > 0 then p.nodePort else 0)
  }

  function RenderServicePorts(ports: seq<PortSpec>): (r: seq<ServicePort>)
    ensures |r| == |ports|
    ensures forall i | 0 <= i < |r| :: r[i] == RenderServicePort(ports[i], i)
  {
    seq(|ports|, i requires 0 <= i < |ports| => RenderServicePort(ports[i], i))
  }

  method BuildServicePorts(ports: seq<PortSpec>) returns (r: seq<ServicePort>)
    ensures r == RenderServicePorts(ports)
  {
    r := [];
    for i := 0 to |ports|
      invariant |r| == i && forall j | 0 <= j < i :: r[j] == RenderServicePort(ports[j], j)
    {
      var name := ports[i].name;
      if name == "" {
        name := "port-" + Decimal(i);
      }
      var sp := ServicePort(name, DefaultProtocol(ports[i].protocol), ports[i].containerPort, ports[i].containerPort, 0);
      if ports[i].nodePort > 0 {
        sp := sp.(nodePort := ports[i].nodePort);
      }
      r := r + [sp];
    }
  }

  function RenderContainerPort(p: PortSpec): (r: ContainerPort) {
    ContainerPort(p.name, p.containerPort, DefaultProtocol(p.protocol))
  }

  function RenderContainerPorts(ports: seq<PortSpec>): (r: seq<ContainerPort>)
    ensures |r| == |ports|
    ensures forall i | 0 <= i < |r| :: r[i] == RenderContainerPort(ports[i])
  {
    seq(|ports|, i requires 0 <= i < |ports| => RenderContainerPort(ports[i]))
  }

  method BuildContainerPorts(ports: seq<PortSpec>) returns (r: seq<ContainerPort>)
    ensures r == RenderContainerPorts(ports)
  {
    r := [];
    for i := 0 to |ports|
      invariant |r| == i && forall j | 0 <= j < i :: r[j] == RenderContainerPort(ports[j])
    {
      r := r + [ContainerPort(ports[i].name, ports[i].containerPort, DefaultProtocol(ports[i].protocol))];
    }
  }

  /** No Service without ports. */
  function RenderService(k: Key, spec: Spec): (s: Option<Service>)
    ensures s.Some? <==> |spec.network.ports| > 0
  {
    if |spec.network.ports| == 0 then None
    else Some(Service(LabelsFor(k, spec), [], if spec.network.serviceType == "" then "NodePort" else spec.network.serviceType,
                      SelectorFor(k), RenderServicePorts(spec.network.ports)))
  }

  function RenderTemplate(k: Key, spec: Spec): (t: Template) {
    var c := Container(spec.game.image, spec.game.command, spec.game.args, spec.game.env, SecretName(k.name),
                       RenderContainerPorts(spec.network.ports),
                       if spec.storage.mountPath == "" then "/data" else spec.storage.mountPath);
    Template(LabelsFor(k, spec), c, PvcName(k.name), spec.other)
  }

  function RenderStatefulSet(k: Key, spec: Spec): (s: StatefulSet) {
    StatefulSet(LabelsFor(k, spec), [], if spec.lifecycle.suspended then 0 else 1, k.name, SelectorFor(k), RenderTemplate(k, spec))
  }
}
