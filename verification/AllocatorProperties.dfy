/** What one allocation guarantees: exact range checks, exact claims, stability, and guaranteed success. */
module AllocatorProperties {
  import opened Core
  import opened Api
  import opened Allocator
  import opened Blocks

  // ---------------------------------------------------------------- range checks in 32-bit arithmetic

  /** The check of a requested range accepts exactly the ranges inside the configured one,
      and besides them every range whose end passes the largest 32-bit number. */
  lemma ValidRangeExact(cfg: Config, start: int32, size: int)
    requires Scannable(cfg) && 1 <= start && 1 <= size <= MAX_SIZE
    ensures ValidRange(cfg, start, size) <==>
            InRange(cfg, start, size) || (cfg.minPort <= start && start + size - 1 > MAX32)
  {
  }

  /** The default configuration accepts a range that starts at the very last 32-bit number. */
  lemma WrappedRangeIsAccepted(n: NetworkSpec)
    requires n.ports == [] && n.nodePortAllocation == Some(NodePortAllocation(0x7fff_ffff, 1, 25565, "TCP"))
    ensures var r := Allocation(Config(30000, 31000), {}, n);
            r.Some? && |r.value.ports| == 2 && r.value.ports[1].nodePort == -0x8000_0000
  {
  }

  // ---------------------------------------------------------------- what a stored server holds

  /** Start 30005 and count 5 reserve 30005 to 30010: a stored server holds its positive NodePorts and, if its
      range has a start, every port from the start through start + count, and nothing else. */
  lemma ReservedRange(n: NetworkSpec, p: int)
    requires n.nodePortAllocation.Some?
    requires n.nodePortAllocation.value.startPort + n.nodePortAllocation.value.count <= MAX32
    ensures var a := n.nodePortAllocation.value;
            p in Claim(n) <==>
            || (a.startPort > 0 && a.startPort <= p <= a.startPort + a.count)
            || exists i :: 0 <= i < |n.ports| && n.ports[i].nodePort == p && p > 0
  {
    var a := n.nodePortAllocation.value;
    if a.startPort > 0 && a.startPort <= p <= a.startPort + a.count {
      assert PortAt(a.startPort, p - a.startPort) == p;
    }
  }

  // ---------------------------------------------------------------- what an allocation hands out

  /** How many consecutive ports a request is about. */
  function Asked(a: NodePortAllocation, given: nat): (size: nat) {
    if a.count >= 0 then a.count + 1 else if given > 0 then given else 1
  }

  /** Container port i of the range counts from the first of these that is set: the allocation's own start,
      its NodePort start, the first given container port, 25565. */
  predicate CountsFromBase(a: NodePortAllocation, given: seq<PortSpec>, i: nat, port: int32) {
    && (a.containerStartPort != 0 ==> port == Wrap(a.containerStartPort + i))
    && (a.containerStartPort == 0 && a.startPort != 0 ==> port == Wrap(a.startPort + i))
    && (a.containerStartPort == 0 && a.startPort == 0 && |given| > 0 && given[0].containerPort != 0 ==>
          port == Wrap(given[0].containerPort + i))
    && (a.containerStartPort == 0 && a.startPort == 0 && (|given| == 0 || given[0].containerPort == 0) ==>
          port == Wrap(25565 + i))
  }

  /** The ports of a range once it is filled up. */
  lemma FilledUp(a: NodePortAllocation, given: seq<PortSpec>)
    ensures var r := Padded(a, given);
            && |r| == (if |given| < Asked(a, |given|) then Asked(a, |given|) else |given|)
            && (forall i | 0 <= i < |given| :: r[i] == given[i])
            && (forall i | |given| <= i < |r| ::
                  && r[i].name == "range-" + Decimal(i) && r[i].protocol == a.protocol
                  && CountsFromBase(a, given, i, r[i].containerPort))
  {
    var r := Padded(a, given);
    forall i | |given| <= i < |r| ensures r[i] == PaddingPort(Base(a, given), a.protocol, i) {
    }
  }

  /** The network after a successful allocation, port by port: consecutive NodePorts from the stored start;
      given ports keep name and container port and have a missing protocol filled; generated ones are named
      by their number, carry the protocol of the allocation and count from its base. */
  lemma AllocationHandsOut(cfg: Config, used: set<int>, n: NetworkSpec, placed: NetworkSpec)
    requires n.nodePortAllocation.Some? && Allocation(cfg, used, n) == Some(placed)
    ensures placed.serviceType == n.serviceType && placed.nodePortAllocation.Some?
    ensures var a, b := n.nodePortAllocation.value, placed.nodePortAllocation.value;
            && b.count == a.count && b.containerStartPort == a.containerStartPort && b.protocol == a.protocol
            && (a.startPort > 0 ==> b.startPort == a.startPort)
            && |placed.ports| == (if |n.ports| < Asked(a, |n.ports|) then Asked(a, |n.ports|) else |n.ports|)
            && (forall i | 0 <= i < |placed.ports| :: placed.ports[i].nodePort == Wrap(b.startPort + i))
            && (forall i | 0 <= i < |n.ports| ::
                  && placed.ports[i].name == n.ports[i].name && placed.ports[i].containerPort == n.ports[i].containerPort
                  && placed.ports[i].protocol == if n.ports[i].protocol == "" then a.protocol else n.ports[i].protocol)
            && (forall i | |n.ports| <= i < |placed.ports| ::
                  && placed.ports[i].name == "range-" + Decimal(i) && placed.ports[i].protocol == a.protocol
                  && CountsFromBase(a, n.ports, i, placed.ports[i].containerPort))
  {
    var a := n.nodePortAllocation.value;
    FilledUp(a, n.ports);
    var padded := Padded(a, n.ports);
    forall i | 0 <= i < |placed.ports| ensures placed.ports[i] == PlacedPort(padded[i], placed.nodePortAllocation.value.startPort, i, a.protocol) {
    }
  }

  /** A requested range is granted exactly when it passes the check and none of its ports is used. */
  lemma RequestedExact(cfg: Config, used: set<int>, n: NetworkSpec)
    requires n.nodePortAllocation.Some? && n.nodePortAllocation.value.startPort > 0
    ensures var a := n.nodePortAllocation.value;
            var size := Asked(a, |n.ports|);
            Allocation(cfg, used, n).Some? <==>
            && cfg.minPort <= a.startPort && Wrap(a.startPort + size - 1) <= cfg.maxPort
            && RangeFree(used, a.startPort, size)
  {
  }

  // ---------------------------------------------------------------- when the search ends

  lemma ZeroIsNeverClaimed(n: NetworkSpec)
    ensures 0 !in Claim(n)
  {
  }

  /** Port 0 is never used, so with a maximum from 0 up the search ends, whatever servers are listed. */
  lemma SearchEnds(cfg: Config, used: set<int>, n: NetworkSpec)
    requires cfg.maxPort >= 0 && 0 !in used && |n.ports| <= MAX_SIZE
    ensures AllocationTerminates(cfg, used, n)
  {
    if n.nodePortAllocation.Some? {
      var size := RangeSize(n.nodePortAllocation.value, |n.ports|);
      TerminatesExact(cfg, used, size);
      assert size == 1 ==> RangeFree(used, 0, size);
    }
  }

  /** So the precondition of Allocate holds for every such maximum and every list answer. */
  lemma AllocateEnds(cfg: Config, listed: seq<GameServer>, self: Key, n: NetworkSpec)
    requires cfg.maxPort >= 0 && |n.ports| <= MAX_SIZE
    ensures AllocationTerminates(cfg, UsedPorts(listed, self), n)
  {
    forall i | 0 <= i < |listed| ensures 0 !in Claim(listed[i].spec.network) {
      ZeroIsNeverClaimed(listed[i].spec.network);
    }
    SearchEnds(cfg, UsedPorts(listed, self), n);
  }

  /** Two used ports half the number range apart block every window of 2^31 ports. */
  lemma HalfwayPortsBlock(used: set<int>, s: int32)
    requires 1 in used && -0x7fff_ffff in used
    ensures !RangeFree(used, s, MAX_SIZE)
  {
    if s <= -0x7fff_ffff {
      assert PortAt(s, -0x7fff_ffff - s) == -0x7fff_ffff;
    } else if s <= 1 {
      assert PortAt(s, 1 - s) == 1;
    } else {
      assert PortAt(s, 0x8000_0001 - s) == -0x7fff_ffff;
    }
  }

  /** With a negative maximum one stored server is enough to make the search run forever. */
  lemma SearchCanRunForever(minPort: int32, gs: GameServer, self: Key, n: NetworkSpec)
    requires gs.key != self
    requires gs.spec.network.ports == [PortSpec("a", "TCP", 1, 1)]
    requires gs.spec.network.nodePortAllocation == Some(NodePortAllocation(2, 0x7fff_ffff, 0, "TCP"))
    requires n.nodePortAllocation == Some(NodePortAllocation(0, 0x7fff_ffff, 0, "TCP"))
    ensures !AllocationTerminates(Config(minPort, -2), UsedPorts([gs], self), n)
  {
    var used := UsedPorts([gs], self);
    assert gs.spec.network.ports[0] in gs.spec.network.ports;
    assert PortAt(2, 0x7fff_ffff) == -0x7fff_ffff && PortAt(2, 0x7fff_ffff) in Window(2, MAX_SIZE);
    assert {1, -0x7fff_ffff} <= Claim(gs.spec.network);
    assert [gs][0] == gs;
    forall s: int32 ensures !RangeFree(used, s, MAX_SIZE) {
      HalfwayPortsBlock(used, s);
    }
    TerminatesExact(Config(minPort, -2), used, MAX_SIZE);
  }

  // ---------------------------------------------------------------- claims

  /** Requests whose every NodePort lies in the range that Allocate checks. */
  predicate Covered(n: NetworkSpec) {
    match n.nodePortAllocation
    case None => forall p | p in n.ports :: p.nodePort <= 0
    case Some(a) => a.count < 0 || |n.ports| <= a.count + 1
  }

  /** How many consecutive ports an allocation hands out or reserves. */
  function Reach(a: NodePortAllocation, listed: nat): (r: int)
    ensures r >= RangeSize(a, listed) && r >= listed
  {
    if RangeSize(a, listed) < listed then listed else RangeSize(a, listed)
  }

  /** A covered server claims only ports of the range that was checked to be free. */
  lemma PlacedClaim(cfg: Config, used: set<int>, n: NetworkSpec, placed: NetworkSpec)
    requires Covered(n) && Allocation(cfg, used, n) == Some(placed)
    ensures Claim(placed) !! used
  {
  }

  /** The NodePorts handed out are consecutive from the start. */
  lemma PlacedPortsInWindow(a: NodePortAllocation, ports: seq<PortSpec>, start: int32, p: int, size: int)
    requires |Padded(a, ports)| <= size
    ensures p in (set q | q in Placed(Padded(a, ports), start, a.protocol) && q.nodePort > 0 :: q.nodePort as int) ==>
              p in Window(start, size)
  {
  }

  /** The claim is the whole run of ports handed out or reserved. */
  lemma PlacedClaimExact(cfg: Config, used: set<int>, n: NetworkSpec, placed: NetworkSpec)
    requires Positive(cfg) && n.nodePortAllocation.Some? && |n.ports| <= MAX_SIZE
    requires Allocation(cfg, used, n) == Some(placed)
    requires placed.nodePortAllocation.value.startPort + Reach(n.nodePortAllocation.value, |n.ports|) - 1 <= MAX32
    ensures Claim(placed) == Window(placed.nodePortAllocation.value.startPort, Reach(n.nodePortAllocation.value, |n.ports|))
  {
    var a := n.nodePortAllocation.value;
    var start := placed.nodePortAllocation.value.startPort;
    var reach := Reach(a, |n.ports|);
    assert start > 0;
    forall p ensures p in Claim(placed) <==> p in Window(start, reach) {
      PlacedPortsInWindow(a, n.ports, start, p, reach);
      if p in Window(start, reach) {
        var o :| 0 <= o < reach && p == PortAt(start, o);
        assert p == start + o > 0;
        assert |placed.ports| == reach;
        assert placed.ports[o] in placed.ports && placed.ports[o].nodePort == p;
      }
    }
  }

  /** No successful allocation of this request claims a used port, whatever ports are used. */
  ghost predicate NeverClaimsUsed(cfg: Config, n: NetworkSpec) {
    forall used :: Allocation(cfg, used, n).Some? ==> Claim(Allocation(cfg, used, n).value) !! used
  }

  /** A request names more ports than the range that is checked for it. */
  predicate Overlong(n: NetworkSpec) {
    n.nodePortAllocation.Some? && n.nodePortAllocation.value.count >= 0 && |n.ports| > n.nodePortAllocation.value.count + 1
  }

  /** Where the range of a request starts when nothing is used. */
  function FirstStart(cfg: Config, a: NodePortAllocation): (start: int32) {
    if a.startPort > 0 then a.startPort else cfg.minPort
  }

  lemma OverlongStart(cfg: Config, used: set<int>, n: NetworkSpec)
    requires Positive(cfg) && Overlong(n) && Unwrapped(n) && Allocation(cfg, {}, n).Some?
    requires RangeFree(used, FirstStart(cfg, n.nodePortAllocation.value), n.nodePortAllocation.value.count + 1)
    ensures var a := n.nodePortAllocation.value;
            var start := FirstStart(cfg, a);
            && start + (a.count + 1) <= MAX32
            && Allocation(cfg, used, n) == Some(n.(ports := Placed(n.ports, start, a.protocol),
                                                   nodePortAllocation := Some(a.(startPort := start))))
  {
    ScanIsFirstFit(cfg, used, n.nodePortAllocation.value.count + 1);
  }

  /** One port more than the range: when just the port behind the range is used, every such request
      succeeds and lands on it. */
  lemma OverlongRequestCollides(cfg: Config, n: NetworkSpec)
    requires Positive(cfg) && Overlong(n) && Unwrapped(n) && Allocation(cfg, {}, n).Some?
    ensures var a := n.nodePortAllocation.value;
            var used := {FirstStart(cfg, a) + (a.count + 1)};
            Allocation(cfg, used, n).Some? && !(Claim(Allocation(cfg, used, n).value) !! used)
  {
    var a := n.nodePortAllocation.value;
    var next := FirstStart(cfg, a) + (a.count + 1);
    OverlongStart(cfg, {}, n);
    assert RangeFree({next}, FirstStart(cfg, a), a.count + 1);
    OverlongStart(cfg, {next}, n);
    var placed := Allocation(cfg, {next}, n).value;
    assert placed.ports[a.count + 1] in placed.ports && placed.ports[a.count + 1].nodePort == next;
  }

  /** A request that is refused on an empty cluster is always refused. */
  lemma RefusedForever(cfg: Config, used: set<int>, n: NetworkSpec)
    requires Allocation(cfg, {}, n).None?
    ensures Allocation(cfg, used, n).None?
  {
    var a := n.nodePortAllocation.value;
    assert forall s: int32 :: RangeFree({}, s, RangeSize(a, |n.ports|));
  }

  /** The ports behind a range that passes the largest 32-bit number are not positive, so nobody claims them. */
  lemma WrappedClaim(cfg: Config, used: set<int>, n: NetworkSpec, placed: NetworkSpec)
    requires |n.ports| <= MAX_SIZE && Overlong(n) && !Unwrapped(n) && Allocation(cfg, used, n) == Some(placed)
    ensures Claim(placed) !! used
  {
    var a := n.nodePortAllocation.value;
    assert a.startPort > 0 && Padded(a, n.ports) == n.ports;
    forall p | p in placed.ports && p.nodePort > 0 ensures (p.nodePort as int) !in used {
      var o :| 0 <= o < |placed.ports| && placed.ports[o] == p;
      assert p.nodePort == PortAt(a.startPort, o);
    }
  }

  /** Exactly these requests never claim a used port: the covered ones, those that are always refused, and
      those whose range passes the largest 32-bit number. */
  lemma CoveredExact(cfg: Config, n: NetworkSpec)
    requires Positive(cfg) && |n.ports| <= MAX_SIZE
    ensures NeverClaimsUsed(cfg, n) <==> Covered(n) || Allocation(cfg, {}, n).None? || !Unwrapped(n)
  {
    if Covered(n) {
      forall used | Allocation(cfg, used, n).Some? ensures Claim(Allocation(cfg, used, n).value) !! used {
        PlacedClaim(cfg, used, n, Allocation(cfg, used, n).value);
      }
    } else if n.nodePortAllocation.None? {
      var p :| p in n.ports && p.nodePort > 0;
      UncheckedRequestCollides(cfg, {p.nodePort as int}, n, p);
    } else if !Unwrapped(n) {
      forall used | Allocation(cfg, used, n).Some? ensures Claim(Allocation(cfg, used, n).value) !! used {
        WrappedClaim(cfg, used, n, Allocation(cfg, used, n).value);
      }
    } else if Allocation(cfg, {}, n).Some? {
      OverlongRequestCollides(cfg, n);
    } else {
      forall used ensures Allocation(cfg, used, n).None? {
        RefusedForever(cfg, used, n);
      }
    }
  }

  /** A request without a range is returned as it is, whatever NodePorts it names. */
  lemma UncheckedRequestCollides(cfg: Config, used: set<int>, n: NetworkSpec, p: PortSpec)
    requires n.nodePortAllocation.None? && p in n.ports && p.nodePort > 0 && (p.nodePort as int) in used
    ensures Allocation(cfg, used, n) == Some(n) && !(Claim(n) !! used)
  {
  }

  // ---------------------------------------------------------------- stability

  /** A network that Allocate has already filled in. */
  predicate Settled(cfg: Config, n: NetworkSpec) {
    n.nodePortAllocation.Some? ==>
      var a := n.nodePortAllocation.value;
      && a.startPort > 0
      && |n.ports| == RangeSize(a, |n.ports|)
      && ValidRange(cfg, a.startPort, |n.ports|)
      && (forall i | 0 <= i < |n.ports| ::
            && n.ports[i].nodePort == PortAt(a.startPort, i)
            && (n.ports[i].protocol == "" ==> a.protocol == ""))
  }

  lemma PlacedIsSettled(cfg: Config, used: set<int>, n: NetworkSpec, placed: NetworkSpec)
    requires Positive(cfg) && Covered(n) && Allocation(cfg, used, n) == Some(placed)
    requires |n.ports| <= MAX_SIZE
    ensures Settled(cfg, placed)
  {
  }

  predicate Unwrapped(n: NetworkSpec) {
    n.nodePortAllocation.Some? ==>
      n.nodePortAllocation.value.startPort + RangeSize(n.nodePortAllocation.value, |n.ports|) - 1 <= MAX32
  }

  /** Every port of the range is in the claim: it is reserved by a count, or it is positive. */
  predicate FullyClaimed(n: NetworkSpec) {
    (n.nodePortAllocation.Some? && n.nodePortAllocation.value.count >= 0) || Unwrapped(n)
  }

  /** Allocating again over other servers' ports gives back the same network, port by port. */
  lemma SettledIsStable(cfg: Config, used: set<int>, n: NetworkSpec)
    requires Settled(cfg, n) && FullyClaimed(n) && Claim(n) !! used
    ensures Allocation(cfg, used, n) == Some(n)
  {
    if n.nodePortAllocation.Some? {
      var a := n.nodePortAllocation.value;
      forall o | 0 <= o < |n.ports| ensures PortAt(a.startPort, o) !in used {
        if a.count >= 0 {
          assert PortAt(a.startPort, o) in Window(a.startPort, a.count + 1);
        } else {
          assert n.ports[o] in n.ports && n.ports[o].nodePort > 0;
        }
        assert PortAt(a.startPort, o) in Claim(n);
      }
      assert Padded(a, n.ports) == n.ports;
      assert Placed(n.ports, a.startPort, a.protocol) == n.ports;
      assert a.(startPort := a.startPort) == a;
    }
  }

  // ---------------------------------------------------------------- guaranteed success

  function Within(used: set<int>, lo: int, hi: int): (s: set<int>) {
    set p | p in used && lo <= p < hi
  }

  predicate Hit(used: set<int>, lo: int, size: nat, j: nat) {
    exists p | p in used :: InBlock(lo, size, j, p)
  }

  /** If each of the first n blocks holds a used port, at least n ports are used. */
  lemma {:induction false} BlocksCount(used: set<int>, lo: int, size: nat, n: nat)
    requires forall j: nat | j < n :: Hit(used, lo, size, j)
    ensures |Within(used, lo, BlockStart(lo, size, n))| >= n
  {
    if n > 0 {
      BlocksCount(used, lo, size, n - 1);
      var rest := Within(used, lo, BlockStart(lo, size, n - 1));
      assert Hit(used, lo, size, n - 1);
      var p :| p in used && InBlock(lo, size, n - 1, p);
      Subset(rest + {p}, Within(used, lo, BlockStart(lo, size, n)));
    }
  }

  /** If u ports of the configured range are used and (u + 1) ranges of the size fit into it,
      then automatic allocation succeeds. */
  lemma GuaranteedFit(cfg: Config, used: set<int>, size: nat)
    requires size >= 1 && cfg.minPort <= cfg.maxPort
    requires (|Within(used, cfg.minPort, cfg.maxPort + 1)| + 1) * size <= cfg.maxPort - cfg.minPort + 1
    ensures FirstFit(used, cfg.minPort, cfg.maxPort, size).Some?
  {
    var lo := cfg.minPort as int;
    var taken := Within(used, lo, cfg.maxPort + 1);
    var n := |taken| + 1;
    BlockStartIsMultiple(lo, size, n);
    if FirstFit(used, cfg.minPort, cfg.maxPort, size).None? {
      forall j: nat | j < n ensures Hit(used, lo, size, j) {
        BlockOrder(lo, size, j, n);
        var s: int32 := BlockStart(lo, size, j);
        assert !RangeFree(used, s, size);
        var o :| 0 <= o < size && PortAt(s, o) in used;
        assert PortAt(s, o) == s + o;
        assert InBlock(lo, size, j, s + o);
      }
      BlocksCount(used, lo, size, n);
      Subset(Within(used, lo, BlockStart(lo, size, n)), taken);
    }
  }

  /** The same, for a whole request. */
  lemma GuaranteedAllocation(cfg: Config, used: set<int>, n: NetworkSpec)
    requires cfg.minPort <= cfg.maxPort && n.nodePortAllocation.Some? && n.nodePortAllocation.value.startPort <= 0
    requires (|Within(used, cfg.minPort, cfg.maxPort + 1)| + 1) * RangeSize(n.nodePortAllocation.value, |n.ports|)
             <= cfg.maxPort - cfg.minPort + 1
    ensures AllocationTerminates(cfg, used, n) && Allocation(cfg, used, n).Some?
  {
    GuaranteedFit(cfg, used, RangeSize(n.nodePortAllocation.value, |n.ports|));
    ScanIsFirstFit(cfg, used, RangeSize(n.nodePortAllocation.value, |n.ports|));
  }
}
