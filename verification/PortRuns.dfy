/** Creation of servers over a shared store, as runs of atomic steps: the list call of a create,
    its commit, and everything else that writes servers in between. */
module PortRuns {
  import opened Core
  import opened Api
  import opened Allocator
  import opened AllocatorProperties

  type Servers = map<Key, GameServer>

  /** The claims of every stored server except one. */
  function UsedIn(servers: Servers, self: Key): (u: set<int>)
    ensures forall p :: p in u <==> exists k :: k in servers && k != self && p in Claim(servers[k].spec.network)
  {
    set k, p | k in servers && k != self && p in Claim(servers[k].spec.network) :: p
  }

  /** `listed` enumerates the store. */
  ghost predicate Lists(listed: seq<GameServer>, servers: Servers) {
    && (forall i | 0 <= i < |listed| :: listed[i].key in servers && servers[listed[i].key] == listed[i])
    && (forall k | k in servers :: servers[k] in listed)
  }

  ghost predicate Keyed(servers: Servers) {
    forall k | k in servers :: servers[k].key == k
  }

  lemma ListedPorts(listed: seq<GameServer>, servers: Servers, self: Key)
    requires Lists(listed, servers) && Keyed(servers)
    ensures UsedPorts(listed, self) == UsedIn(servers, self)
  {
  }

  /** With a maximum from 0 up, the search of every create and of every pass ends. */
  lemma StoredSearchEnds(cfg: Config, servers: Servers, self: Key, n: NetworkSpec)
    requires cfg.maxPort >= 0 && |n.ports| <= MAX_SIZE
    ensures AllocationTerminates(cfg, UsedIn(servers, self), n)
  {
    forall k | k in servers ensures 0 !in Claim(servers[k].spec.network) {
      ZeroIsNeverClaimed(servers[k].spec.network);
    }
    SearchEnds(cfg, UsedIn(servers, self), n);
  }

  // ---------------------------------------------------------------- the machine

  /** `pending` is a server that has its ports but is not stored yet. */
  datatype State = State(servers: Servers, pending: Option<GameServer>)

  datatype Step =
    | List(gs: GameServer)
    | Commit
    | Abandon
    | Delete(key: Key)
    | Rewrite(gs: GameServer)

  const EMPTY := State(map[], None)

  function Apply(cfg: Config, s: State, step: Step): (s': State) {
    match step
    case List(gs) =>
      if s.pending.Some? then s else
      (match Allocation(cfg, UsedIn(s.servers, gs.key), gs.spec.network)
       case None => s
       case Some(n) => s.(pending := Some(gs.WithNetwork(n))))
    case Commit =>
      if s.pending.None? then s
      else if s.pending.value.key in s.servers then s.(pending := None)
      else State(s.servers[s.pending.value.key := s.pending.value], None)
    case Abandon => s.(pending := None)
    case Delete(key) => s.(servers := s.servers - {key})
    case Rewrite(gs) =>
      // power changes, deletion marks, finalizers and status leave the network alone
      if gs.key in s.servers && gs.spec.network == s.servers[gs.key].spec.network
      then s.(servers := s.servers[gs.key := gs]) else s
  }

  function Run(cfg: Config, s: State, steps: seq<Step>): (s': State)
    decreases |steps|
  {
    if steps == [] then s else Run(cfg, Apply(cfg, s, steps[0]), steps[1..])
  }

  predicate CoveredRun(steps: seq<Step>) {
    forall i | 0 <= i < |steps| && steps[i].List? ::
      Covered(steps[i].gs.spec.network) && |steps[i].gs.spec.network.ports| <= MAX_SIZE
  }

  ghost predicate Disjoint(servers: Servers) {
    forall j, k | j in servers && k in servers && j != k ::
      Claim(servers[j].spec.network) !! Claim(servers[k].spec.network)
  }

  ghost predicate Safe(s: State) {
    && Keyed(s.servers)
    && Disjoint(s.servers)
    && (s.pending.Some? ==> Claim(s.pending.value.spec.network) !! UsedIn(s.servers, s.pending.value.key))
  }

  lemma StepIsSafe(cfg: Config, s: State, step: Step)
    requires Safe(s)
    requires step.List? ==> Covered(step.gs.spec.network)
    ensures Safe(Apply(cfg, s, step))
  {
    var s' := Apply(cfg, s, step);
    match step
    case List(gs) =>
      if s != s' {
        PlacedClaim(cfg, UsedIn(s.servers, gs.key), gs.spec.network, s'.pending.value.spec.network);
      }
    case Commit =>
      if s.pending.Some? && s.pending.value.key !in s.servers {
        CommitIsDisjoint(s);
      }
    case Abandon =>
    case Delete(key) =>
    case Rewrite(gs) =>
  }

  lemma CommitIsDisjoint(s: State)
    requires Safe(s) && s.pending.Some? && s.pending.value.key !in s.servers
    ensures Disjoint(s.servers[s.pending.value.key := s.pending.value])
  {
  }

  /** Through any interleaving of creates, deletes and rewrites, with one create in flight
      between its list and its commit, the ports of distinct servers never overlap. */
  lemma {:induction false} PortSafety(cfg: Config, s: State, steps: seq<Step>)
    requires Safe(s) && CoveredRun(steps)
    ensures Safe(Run(cfg, s, steps))
    decreases |steps|
  {
    if steps != [] {
      assert steps[0].List? ==> Covered(steps[0].gs.spec.network);
      StepIsSafe(cfg, s, steps[0]);
      assert forall i | 0 <= i < |steps[1..]| :: steps[1..][i] == steps[i + 1];
      PortSafety(cfg, Apply(cfg, s, steps[0]), steps[1..]);
    }
  }

  lemma PortSafetyFromEmpty(cfg: Config, steps: seq<Step>)
    requires CoveredRun(steps)
    ensures Disjoint(Run(cfg, EMPTY, steps).servers)
  {
    PortSafety(cfg, EMPTY, steps);
  }

  /** A create without anything in between: refused when the ports are or when the key is taken; otherwise
      the server is stored as requested, with the placed network. */
  lemma CreateExact(cfg: Config, servers: Servers, gs: GameServer)
    ensures var placed := Allocation(cfg, UsedIn(servers, gs.key), gs.spec.network);
            Run(cfg, State(servers, None), [List(gs), Commit]) ==
            State(if placed.None? || gs.key in servers then servers
                  else servers[gs.key := gs.(spec := gs.spec.(network := placed.value))], None)
  {
    var listing := Apply(cfg, State(servers, None), List(gs));
    assert [List(gs), Commit][1..] == [Commit];
    assert Run(cfg, listing, [Commit]) == Run(cfg, Apply(cfg, listing, Commit), [Commit][1..]);
  }

  // ---------------------------------------------------------------- two creates in flight

  /** A request for a range that may start anywhere. */
  predicate Automatic(n: NetworkSpec) {
    n.nodePortAllocation.Some? && n.nodePortAllocation.value.startPort <= 0 && |n.ports| <= MAX_SIZE
  }

  function SizeOf(n: NetworkSpec): (size: int)
    requires Automatic(n)
    ensures 1 <= size <= MAX_SIZE
  {
    RangeSize(n.nodePortAllocation.value, |n.ports|)
  }

  ghost predicate Overlap(cfg: Config, used: set<int>, m: NetworkSpec, n: NetworkSpec) {
    var a, b := Allocation(cfg, used, m), Allocation(cfg, used, n);
    a.Some? && b.Some? ==> !(Claim(a.value) !! Claim(b.value))
  }

  /** Two creates that list the same store and both succeed collide, whatever is stored. */
  ghost predicate AlwaysCollide(cfg: Config, m: NetworkSpec, n: NetworkSpec) {
    forall used :: Overlap(cfg, used, m, n)
  }

  /** An automatic request is placed at the first fit, and claims at least the range it found. */
  lemma AutomaticPlaced(cfg: Config, used: set<int>, n: NetworkSpec)
    requires Positive(cfg) && Automatic(n)
    ensures var fit := FirstFit(used, cfg.minPort, cfg.maxPort, SizeOf(n));
            var r := Allocation(cfg, used, n);
            && (r.Some? <==> fit.Some?)
            && (r.Some? ==> forall p | fit.value <= p < fit.value + SizeOf(n) :: p in Claim(r.value))
  {
    ScanIsFirstFit(cfg, used, SizeOf(n));
    var r := Allocation(cfg, used, n);
    if r.Some? {
      var start := FirstFit(used, cfg.minPort, cfg.maxPort, SizeOf(n)).value;
      forall p | start <= p < start + SizeOf(n) ensures p in Claim(r.value) {
        assert r.value.ports[p - start] in r.value.ports && r.value.ports[p - start].nodePort == p;
      }
    }
  }

  /** A covered one claims no more than that. */
  lemma CoveredPlaced(cfg: Config, used: set<int>, n: NetworkSpec, p: int)
    requires Positive(cfg) && Automatic(n) && Covered(n) && Allocation(cfg, used, n).Some?
    ensures var start := FirstFit(used, cfg.minPort, cfg.maxPort, SizeOf(n)).value;
            p in Claim(Allocation(cfg, used, n).value) ==> start <= p < start + SizeOf(n)
  {
    ScanIsFirstFit(cfg, used, SizeOf(n));
    PlacedClaimExact(cfg, used, n, Allocation(cfg, used, n).value);
  }

  /** Of two sizes, the smaller one is found first, and the larger one either overlaps it or lies
      behind a used port that lies behind it. */
  lemma FirstFitsOfTwoSizes(cfg: Config, used: set<int>, k: int, l: int)
    requires Positive(cfg) && 1 <= k < l <= MAX_SIZE
    requires FirstFit(used, cfg.minPort, cfg.maxPort, k).Some? && FirstFit(used, cfg.minPort, cfg.maxPort, l).Some?
    ensures var s, t := FirstFit(used, cfg.minPort, cfg.maxPort, k).value, FirstFit(used, cfg.minPort, cfg.maxPort, l).value;
            s <= t && (t < s + k || s + k + l < cfg.maxPort + 1)
  {
    var s, t := FirstFit(used, cfg.minPort, cfg.maxPort, k).value, FirstFit(used, cfg.minPort, cfg.maxPort, l).value;
    assert RangeFree(used, t, k);
    if t >= s + k {
      var before: int32 := t - 1;
      assert !RangeFree(used, before, l);
      assert forall o | 0 < o < l :: PortAt(before, o) == PortAt(t, o - 1);
      assert PortAt(before, 0) in used;
      assert PortAt(s, before - s) == before;
    }
  }

  lemma FirstFitBehind(cfg: Config, k: int, l: int)
    requires Positive(cfg) && 1 <= k < l <= MAX_SIZE && cfg.maxPort - cfg.minPort + 1 >= k + l + 1
    ensures FirstFit({cfg.minPort + k}, cfg.minPort, cfg.maxPort, k) == Some(cfg.minPort)
    ensures FirstFit({cfg.minPort + k}, cfg.minPort, cfg.maxPort, l) == Some(cfg.minPort + k + 1)
  {
    var used := {cfg.minPort + k};
    assert RangeFree(used, cfg.minPort, k);
    var t: int32 := cfg.minPort + k + 1;
    assert RangeFree(used, t, l);
    forall s: int32 | cfg.minPort <= s < t ensures !RangeFree(used, s, l) {
      assert PortAt(s, cfg.minPort + k - s) == cfg.minPort + k;
    }
  }

  lemma SmallerFirst(cfg: Config, m: NetworkSpec, n: NetworkSpec)
    requires Positive(cfg) && Automatic(m) && Automatic(n) && Covered(m) && Covered(n) && SizeOf(m) < SizeOf(n)
    ensures AlwaysCollide(cfg, m, n) <==> cfg.maxPort - cfg.minPort + 1 < SizeOf(m) + SizeOf(n) + 1
  {
    var k, l := SizeOf(m), SizeOf(n);
    if cfg.maxPort - cfg.minPort + 1 < k + l + 1 {
      forall used ensures Overlap(cfg, used, m, n) {
        AutomaticPlaced(cfg, used, m);
        AutomaticPlaced(cfg, used, n);
        if Allocation(cfg, used, m).Some? && Allocation(cfg, used, n).Some? {
          FirstFitsOfTwoSizes(cfg, used, k, l);
          var t := FirstFit(used, cfg.minPort, cfg.maxPort, l).value as int;
          assert t in Claim(Allocation(cfg, used, m).value) && t in Claim(Allocation(cfg, used, n).value);
        }
      }
    } else {
      var used := {cfg.minPort + k};
      FirstFitBehind(cfg, k, l);
      AutomaticPlaced(cfg, used, m);
      AutomaticPlaced(cfg, used, n);
      forall p ensures !(p in Claim(Allocation(cfg, used, m).value) && p in Claim(Allocation(cfg, used, n).value)) {
        CoveredPlaced(cfg, used, m, p);
        CoveredPlaced(cfg, used, n, p);
      }
      assert !Overlap(cfg, used, m, n);
    }
  }

  /** Two creates of one size over one snapshot collide whenever they succeed. */
  lemma EqualSizesCollide(cfg: Config, used: set<int>, m: NetworkSpec, n: NetworkSpec)
    requires Positive(cfg) && Automatic(m) && Automatic(n) && SizeOf(m) == SizeOf(n)
    ensures Allocation(cfg, used, m).Some? <==> Allocation(cfg, used, n).Some?
    ensures Overlap(cfg, used, m, n)
  {
    AutomaticPlaced(cfg, used, m);
    AutomaticPlaced(cfg, used, n);
    if Allocation(cfg, used, m).Some? {
      var start := FirstFit(used, cfg.minPort, cfg.maxPort, SizeOf(m)).value as int;
      assert start in Claim(Allocation(cfg, used, m).value) && start in Claim(Allocation(cfg, used, n).value);
    }
  }

  /** Two automatic creates that list the same store collide on every store if and only if their
      ranges have the same size, or both of them with a used port in between do not fit. So the
      restriction to one create in flight cannot be dropped. */
  lemma RacingCreatesCollide(cfg: Config, m: NetworkSpec, n: NetworkSpec)
    requires Positive(cfg) && Automatic(m) && Automatic(n) && Covered(m) && Covered(n)
    ensures AlwaysCollide(cfg, m, n) <==>
            SizeOf(m) == SizeOf(n) || cfg.maxPort - cfg.minPort + 1 < SizeOf(m) + SizeOf(n) + 1
  {
    if SizeOf(m) == SizeOf(n) {
      forall used ensures Overlap(cfg, used, m, n) {
        EqualSizesCollide(cfg, used, m, n);
      }
    } else if SizeOf(m) < SizeOf(n) {
      SmallerFirst(cfg, m, n);
    } else {
      SmallerFirst(cfg, n, m);
      assert forall used :: Overlap(cfg, used, m, n) <==> Overlap(cfg, used, n, m);
    }
  }

  /** A server whose automatic range was never stored. */
  predicate Unplaced(n: NetworkSpec) {
    Automatic(n) && forall p | p in n.ports :: p.nodePort <= 0
  }

  /** The operator does not store the ports it computes, so two servers that were not placed by a
      create claim nothing, and their passes compute overlapping ports for ranges of one size. */
  lemma UnstoredRangesCollide(cfg: Config, servers: Servers, j: Key, k: Key)
    requires Positive(cfg) && j in servers && k in servers && j != k
    requires Unplaced(servers[j].spec.network) && Unplaced(servers[k].spec.network)
    requires SizeOf(servers[j].spec.network) == SizeOf(servers[k].spec.network)
    requires Allocation(cfg, UsedIn(servers, j), servers[j].spec.network).Some?
    ensures Allocation(cfg, UsedIn(servers, k), servers[k].spec.network).Some?
    ensures !(Claim(Allocation(cfg, UsedIn(servers, j), servers[j].spec.network).value) !!
              Claim(Allocation(cfg, UsedIn(servers, k), servers[k].spec.network).value))
  {
    assert Claim(servers[j].spec.network) == {} && Claim(servers[k].spec.network) == {};
    assert UsedIn(servers, j) == UsedIn(servers, k);
    EqualSizesCollide(cfg, UsedIn(servers, j), servers[j].spec.network, servers[k].spec.network);
  }

  // ---------------------------------------------------------------- stability over runs

  ghost predicate AllSettled(cfg: Config, s: State) {
    && (forall k | k in s.servers :: Settled(cfg, s.servers[k].spec.network))
    && (s.pending.Some? ==> Settled(cfg, s.pending.value.spec.network))
  }

  lemma {:induction false} RunIsSettled(cfg: Config, s: State, steps: seq<Step>)
    requires Positive(cfg) && AllSettled(cfg, s) && CoveredRun(steps)
    ensures AllSettled(cfg, Run(cfg, s, steps))
    decreases |steps|
  {
    if steps != [] {
      var step := steps[0];
      var s' := Apply(cfg, s, step);
      if step.List? && s' != s {
        PlacedIsSettled(cfg, UsedIn(s.servers, step.gs.key), step.gs.spec.network, s'.pending.value.spec.network);
      }
      assert AllSettled(cfg, s');
      assert forall i | 0 <= i < |steps[1..]| :: steps[1..][i] == steps[i + 1];
      RunIsSettled(cfg, s', steps[1..]);
    }
  }

  /** The network part of MergeWithClass: a class only fills what the server leaves empty. */
  function MergeNetwork(n: NetworkSpec, defaults: NetworkSpec): (r: NetworkSpec) {
    NetworkSpec(
      if |n.ports| == 0 && |defaults.ports| > 0 then defaults.ports else n.ports,
      if n.serviceType == "" then defaults.serviceType else n.serviceType,
      if n.nodePortAllocation.None? then defaults.nodePortAllocation else n.nodePortAllocation)
  }

  /** In every reachable state, allocating again for a stored server with a range, under any
      class, succeeds and returns exactly its stored ports and start. */
  lemma PortStability(cfg: Config, steps: seq<Step>, k: Key, defaults: NetworkSpec)
    requires Positive(cfg) && CoveredRun(steps)
    requires k in Run(cfg, EMPTY, steps).servers
    requires var n := Run(cfg, EMPTY, steps).servers[k].spec.network; n.nodePortAllocation.Some? && FullyClaimed(n)
    ensures var s := Run(cfg, EMPTY, steps).servers;
            var again := Allocation(cfg, UsedIn(s, k), MergeNetwork(s[k].spec.network, defaults));
            && again.Some?
            && again.value.ports == s[k].spec.network.ports
            && again.value.nodePortAllocation == s[k].spec.network.nodePortAllocation
  {
    PortSafety(cfg, EMPTY, steps);
    RunIsSettled(cfg, EMPTY, steps);
    var s := Run(cfg, EMPTY, steps).servers;
    var n := MergeNetwork(s[k].spec.network, defaults);
    var stored := s[k].spec.network;
    assert n.ports == stored.ports && n.nodePortAllocation == stored.nodePortAllocation;
    assert Claim(n) == Claim(stored);
    forall p | p in UsedIn(s, k) ensures p !in Claim(stored) {
      var j :| j in s && j != k && p in Claim(s[j].spec.network);
    }
    SettledIsStable(cfg, UsedIn(s, k), n);
  }

  // ---------------------------------------------------------------- the service that drives it

  datatype AllocationRequest = AllocationRequest(name: string, port: int, bindPort: int)

  datatype CreateServerRequest =
    CreateServerRequest(allocations: seq<AllocationRequest>, portRangeStart: int32, portRangeCount: int32, portRangeBase: int32)

  function RequestedPort(r: AllocationRequest): (p: PortSpec) {
    PortSpec(r.name, "TCP", Wrap(r.port), Wrap(r.bindPort))
  }

  /** ptero-wings-controller/service.go: EmbeddedService, over the servers it can list. */
  class EmbeddedService {
    const allocator: ClusterAllocator
    var servers: Servers

    constructor (allocator: ClusterAllocator)
      ensures this.allocator == allocator && servers == map[]
    {
      this.allocator := allocator;
      servers := map[];
    }

    /** The network part of gameServerFromRequest. */
    static method NetworkFromRequest(req: CreateServerRequest) returns (n: NetworkSpec)
      ensures |n.ports| == |req.allocations|
      ensures forall i | 0 <= i < |n.ports| ::
                && n.ports[i].name == req.allocations[i].name && n.ports[i].protocol == "TCP"
                && n.ports[i].containerPort == Wrap(req.allocations[i].port)
                && n.ports[i].nodePort == Wrap(req.allocations[i].bindPort)
      ensures n.nodePortAllocation.Some? <==> req.portRangeCount > 0 || req.portRangeStart > 0
      ensures n.nodePortAllocation.Some? ==>
                n.nodePortAllocation.value == NodePortAllocation(req.portRangeStart, req.portRangeCount, req.portRangeBase, "TCP")
      ensures n.serviceType == if |n.ports| > 0 || n.nodePortAllocation.Some? then "NodePort" else ""
    {
      var ports: seq<PortSpec> := [];
      for i := 0 to |req.allocations|
        invariant |ports| == i
        invariant forall j | 0 <= j < i :: ports[j] == RequestedPort(req.allocations[j])
      {
        var a := req.allocations[i];
        ports := ports + [PortSpec(a.name, "TCP", Wrap(a.port), Wrap(a.bindPort))];
      }
      n := NetworkSpec(ports, "", None);
      if req.portRangeCount > 0 || req.portRangeStart > 0 {
        n := n.(nodePortAllocation :=
          Some(NodePortAllocation(req.portRangeStart, req.portRangeCount, req.portRangeBase, "TCP")));
      }
      if |n.ports| > 0 || n.nodePortAllocation.Some? {
        n := n.(serviceType := "NodePort");
      }
    }

    /** A create is a list step followed by a commit step of the machine above. */
    method CreateServer(gs: GameServerRef, listed: Option<seq<GameServer>>, apiFails: bool) returns (r: Result<Key>)
      requires Keyed(servers)
      requires listed.Some? ==> Lists(listed.value, servers)
      requires listed.Some? ==> AllocationTerminates(allocator.cfg, UsedIn(servers, gs.value.key), gs.value.spec.network)
      modifies this`servers, gs
      ensures var request := old(gs.value);
              var before := State(old(servers), None);
              var after := Run(allocator.cfg, before, [List(request), Commit]).servers;
              && Keyed(servers)
              && (r.Err? ==> servers == before.servers)
              && (r.Ok? ==> servers == after && r.value == request.key && request.key !in before.servers
                            && request.key in servers && gs.value == servers[request.key])
              && (r.Ok? <==> && (listed.Some? || request.spec.network.nodePortAllocation.None?)
                             && !apiFails && after != before.servers)
    {
      ghost var request := gs.value;
      ghost var before := State(servers, None);
      CreateExact(allocator.cfg, servers, request);
      if listed.Some? {
        ListedPorts(listed.value, servers, gs.value.key);
      }
      var ports := allocator.Allocate(gs, listed);
      if ports.Err? {
        return Err("allocate bundled nodeports");
      }
      gs.value := gs.value.WithNetwork(gs.value.spec.network.(ports := ports.value));
      if apiFails || gs.value.key in servers {
        return Err("create");
      }
      servers := servers[gs.value.key := gs.value];
      return Ok(gs.value.key);
    }
  }
}
