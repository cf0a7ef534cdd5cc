/** Validate, allocate, render: what reaches the cluster from a valid spec. */
module Pipeline {
  import opened Core
  import opened Api
  import opened Allocator
  import opened AllocatorProperties
  import opened Validation
  import opened Renderer

  /** The configured range is part of the range Kubernetes allows. */
  predicate KubernetesRange(cfg: Config) {
    30000 <= cfg.minPort && 0 <= cfg.maxPort <= 32767
  }

  /** No given port carries a name that padding generates. */
  predicate NamesFree(a: NodePortAllocation, ports: seq<PortSpec>) {
    forall i, idx | 0 <= i < |ports| <= idx < RangeSize(a, |ports|) :: ports[i].name != PaddingName(idx)
  }

  /** The generated container ports are port numbers. */
  predicate PaddingFits(a: NodePortAllocation, ports: seq<PortSpec>) {
    |ports| < RangeSize(a, |ports|) ==>
      1 <= Base(a, ports) + |ports| && Base(a, ports) + RangeSize(a, |ports|) - 1 <= 65535
  }

  lemma PaddingNamesDiffer(i: nat, j: nat)
    requires i != j
    ensures PaddingName(i) != PaddingName(j)
  {
    if PaddingName(i) == PaddingName(j) {
      assert Decimal(i) == PaddingName(i)[6..] && Decimal(j) == PaddingName(j)[6..];
      DecimalInjective(i, j);
    }
  }

  lemma PlacedNames(a: NodePortAllocation, ports: seq<PortSpec>, start: int32)
    requires ValidPorts(ports)
    ensures var r := Placed(Padded(a, ports), start, a.protocol);
            && (forall i | 0 <= i < |r| :: r[i].name != "")
            && ((forall i, j | 0 <= i < j < |r| :: r[i].name != r[j].name) <==> NamesFree(a, ports))
  {
    var p := Padded(a, ports);
    var r := Placed(p, start, a.protocol);
    assert forall i | 0 <= i < |r| :: r[i].name == p[i].name;
    if NamesFree(a, ports) {
      forall i, j | 0 <= i < j < |r| ensures r[i].name != r[j].name {
        if |ports| <= i {
          PaddingNamesDiffer(i, j);
        }
      }
    } else {
      var i, idx :| 0 <= i < |ports| <= idx < RangeSize(a, |ports|) && ports[i].name == PaddingName(idx);
      assert r[i].name == r[idx].name;
    }
  }

  predicate ContainerPortsFit(r: seq<PortSpec>) {
    forall i | 0 <= i < |r| :: 1 <= r[i].containerPort <= 65535
  }

  lemma PlacedContainerPorts(a: NodePortAllocation, ports: seq<PortSpec>, start: int32)
    requires ValidPorts(ports) && RangeSize(a, |ports|) <= MAX_SIZE
    ensures ContainerPortsFit(Placed(Padded(a, ports), start, a.protocol)) <==> PaddingFits(a, ports)
  {
    var r := Placed(Padded(a, ports), start, a.protocol);
    var base, n, size := Base(a, ports), |ports|, RangeSize(a, |ports|);
    assert forall i | 0 <= i < n :: 1 <= r[i].containerPort <= 65535;
    if n < size {
      forall i | n <= i < size ensures r[i].containerPort == PortAt(base, i) {
        assert Padded(a, ports)[i] == PaddingPort(base, a.protocol, i);
      }
      if ContainerPortsFit(r) {
        forall i | n <= i < size ensures 1 <= PortAt(base, i) <= 65535 {
          assert r[i].containerPort == PortAt(base, i);
        }
        PortsClimb(base, n, size);
      }
    }
  }

  /** Consecutive ports that are all port numbers did not wrap on the way. */
  lemma {:induction false} PortsClimb(base: int32, n: nat, size: nat)
    requires n < size <= MAX_SIZE
    requires forall i | n <= i < size :: 1 <= PortAt(base, i) <= 65535
    ensures 1 <= base + n && base + size - 1 <= 65535
    decreases size
  {
    assert 1 <= PortAt(base, n) <= 65535;
    if n + 1 < size {
      assert 1 <= PortAt(base, size - 1) <= 65535;
      PortsClimb(base, n, size - 1);
    }
  }

  lemma PlacedNodePorts(a: NodePortAllocation, ports: seq<PortSpec>, start: int32)
    requires 30000 <= start && RangeSize(a, |ports|) <= MAX_SIZE && |ports| <= RangeSize(a, |ports|)
    ensures var r := Placed(Padded(a, ports), start, a.protocol);
            (forall i | 0 <= i < |r| :: NodePortAllowed(r[i].nodePort)) <==> start + |r| - 1 <= 32767
  {
    var r := Placed(Padded(a, ports), start, a.protocol);
    assert forall i | 0 <= i < |r| :: r[i].nodePort == PortAt(start, i);
    if start + |r| - 1 > 32767 {
      if start > 32767 {
        assert !NodePortAllowed(r[0].nodePort);
      } else {
        assert PortAt(start, 32768 - start) == 32768;
        assert !NodePortAllowed(r[32768 - start].nodePort);
      }
    }
  }

  /** A valid spec stays valid through allocation if and only if no given name looks like padding,
      the generated container ports are port numbers, and the range does not wrap. */
  lemma ValidityThroughAllocation(cfg: Config, used: set<int>, n: NetworkSpec, placed: NetworkSpec)
    requires KubernetesRange(cfg) && ValidNetwork(n) && Covered(n) && n.nodePortAllocation.Some?
    requires Allocation(cfg, used, n) == Some(placed)
    ensures var a := n.nodePortAllocation.value;
            ValidNetwork(placed) <==> NamesFree(a, n.ports) && PaddingFits(a, n.ports) && Unwrapped(n)
  {
    var a := n.nodePortAllocation.value;
    var start := placed.nodePortAllocation.value.startPort;
    var size := RangeSize(a, |n.ports|);
    PlacedNames(a, n.ports, start);
    PlacedContainerPorts(a, n.ports, start);
    if a.startPort > 0 {
      ValidRangeExact(cfg, start, size);
    }
    PlacedNodePorts(a, n.ports, start);
    assert Unwrapped(n) <==> start + size - 1 <= 32767;
  }

  /** A given port with the name of a generated one: valid before the allocation, invalid after it. */
  lemma PaddingDuplicatesName(n: NetworkSpec)
    requires n.ports == [PortSpec("range-1", "TCP", 25565, 0)]
    requires n.nodePortAllocation == Some(NodePortAllocation(30000, 1, 0, "TCP"))
    ensures var r := Allocation(Config(30000, 31000), {}, n);
            ValidNetwork(n) && r.Some? && !ValidNetwork(r.value) && r.value.ports[0].name == r.value.ports[1].name
  {
    var a := n.nodePortAllocation.value;
    var placed := Allocation(Config(30000, 31000), {}, n).value;
    assert Decimal(1) == "1" && n.ports[0].name == PaddingName(1);
    assert !NamesFree(a, n.ports);
    ValidityThroughAllocation(Config(30000, 31000), {}, n, placed);
    assert placed.ports[1].name == Padded(a, n.ports)[1].name;
  }

  /** A container range that runs past the last port number: valid before the allocation, invalid after it. */
  lemma PaddingPassesLastPort(n: NetworkSpec)
    requires n.ports == [] && n.nodePortAllocation == Some(NodePortAllocation(30000, 1, 65535, "TCP"))
    ensures var r := Allocation(Config(30000, 31000), {}, n);
            ValidNetwork(n) && r.Some? && !ValidNetwork(r.value) && r.value.ports[1].containerPort == 65536
  {
    var a := n.nodePortAllocation.value;
    var placed := Allocation(Config(30000, 31000), {}, n).value;
    ValidityThroughAllocation(Config(30000, 31000), {}, n, placed);
    assert placed.ports[1].containerPort == Padded(a, n.ports)[1].containerPort;
  }

  /** What a rendered Service and its container agree on. */
  predicate Agree(sp: seq<ServicePort>, cp: seq<ContainerPort>) {
    && |sp| == |cp|
    && forall i | 0 <= i < |sp| ::
         && sp[i].name == cp[i].name && sp[i].protocol == cp[i].protocol
         && sp[i].port == sp[i].targetPort == cp[i].containerPort
  }

  predicate DistinctPorts(sp: seq<ServicePort>) {
    forall i, j | 0 <= i < j < |sp| :: sp[i].name != sp[j].name && sp[i].nodePort != sp[j].nodePort
  }

  /** A valid spec that stays valid renders a Service with distinct names and consecutive, distinct
      NodePorts, in one-to-one agreement with the container's ports. */
  lemma PipelineRendersDistinctPorts(cfg: Config, used: set<int>, k: Key, spec: Spec, placed: NetworkSpec)
    requires KubernetesRange(cfg) && Valid(spec) && Covered(spec.network) && spec.network.nodePortAllocation.Some?
    requires Allocation(cfg, used, spec.network) == Some(placed)
    requires var a := spec.network.nodePortAllocation.value;
             NamesFree(a, spec.network.ports) && PaddingFits(a, spec.network.ports) && Unwrapped(spec.network)
    ensures var effective := spec.(network := placed);
            var service := RenderService(k, effective);
            && Valid(effective)
            && service.Some?
            && DistinctPorts(service.value.ports)
            && (forall i | 0 <= i < |service.value.ports| ::
                  service.value.ports[i].nodePort == placed.nodePortAllocation.value.startPort + i)
            && Agree(service.value.ports, RenderStatefulSet(k, effective).template.container.ports)
  {
    ValidityThroughAllocation(cfg, used, spec.network, placed);
    var a := spec.network.nodePortAllocation.value;
    var start := placed.nodePortAllocation.value.startPort;
    if a.startPort > 0 {
      ValidRangeExact(cfg, start, RangeSize(a, |spec.network.ports|));
    }
    forall i | 0 <= i < |placed.ports|
      ensures placed.ports[i].nodePort == start + i && RenderServicePort(placed.ports[i], i).nodePort == start + i
    {
      assert placed.ports[i].nodePort == PortAt(start, i);
    }
  }
}
