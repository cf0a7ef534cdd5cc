/** internal/ports/allocator.go: the first-fit allocator of contiguous NodePort ranges. */
module Allocator {
  import opened Core
  import opened Api

  const MAX_SIZE: int := 0x8000_0000

  datatype Config = Config(minPort: int32, maxPort: int32)

  /** The configurations in which the bound of the scan does not wrap, for sizes up to MAX_SIZE. */
  predicate Scannable(cfg: Config) {
    0 <= cfg.maxPort < MAX32
  }

  /** The configurations a cluster uses: positive ports, and room above the largest one. */
  predicate Positive(cfg: Config) {
    Scannable(cfg) && 1 <= cfg.minPort
  }

  // ---------------------------------------------------------------- windows and claims

  /** The port at an offset from a start, in 32-bit arithmetic. */
  function PortAt(start: int, offset: int): (p: int32) {
    Wrap(start + offset)
  }

  /** The ports start, start + 1, ..., start + size - 1. */
  function Window(start: int, size: int): (w: set<int>)
    ensures forall p :: p in w <==> exists o :: 0 <= o < size && p == PortAt(start, o)
  {
    set o | 0 <= o < size :: PortAt(start, o)
  }

  predicate RangeFree(used: set<int>, start: int, size: int) {
    forall o | 0 <= o < size :: PortAt(start, o) !in used
  }

  /** The ports a stored server keeps for itself: its NodePorts and its reserved range. */
  function Claim(n: NetworkSpec): (c: set<int>) {
    (set p | p in n.ports && p.nodePort > 0 :: p.nodePort as int) +
    match n.nodePortAllocation
    case None => {}
    case Some(a) => if a.startPort > 0 then Window(a.startPort, a.count + 1) else {}
  }

  /** The claims of every listed server except the one being placed. */
  function UsedPorts(listed: seq<GameServer>, self: Key): (u: set<int>)
    ensures forall p :: p in u <==>
                        exists i :: 0 <= i < |listed| && listed[i].key != self && p in Claim(listed[i].spec.network)
  {
    set i, p | 0 <= i < |listed| && listed[i].key != self && p in Claim(listed[i].spec.network) :: p
  }

  // ---------------------------------------------------------------- what Allocate computes

  function RangeSize(a: NodePortAllocation, listed: nat): (size: int)
    ensures size >= 1
    ensures a.count >= 0 ==> size == a.count + 1
    ensures a.count < 0 && listed > 0 ==> size == listed
    ensures a.count < 0 && listed == 0 ==> size == 1
  {
    if a.count + 1 > 0 then a.count + 1 else if listed > 0 then listed else 1
  }

  function Base(a: NodePortAllocation, ports: seq<PortSpec>): (b: int32)
    ensures b != 0
  {
    if a.containerStartPort != 0 then a.containerStartPort
    else if a.startPort != 0 then a.startPort
    else if |ports| > 0 && ports[0].containerPort != 0 then ports[0].containerPort
    else 25565
  }

  function PaddingName(idx: nat): (s: string)
    ensures |s| > 6
  {
    "range-" + Decimal(idx)
  }

  function PaddingPort(base: int32, protocol: string, idx: nat): (p: PortSpec) {
    PortSpec(PaddingName(idx), protocol, PortAt(base, idx), 0)
  }

  /** The given ports, filled up to the size of the range. */
  function Padded(a: NodePortAllocation, ports: seq<PortSpec>): (r: seq<PortSpec>)
    ensures ports <= r
    ensures |r| == if |ports| < RangeSize(a, |ports|) then RangeSize(a, |ports|) else |ports|
    ensures forall i | |ports| <= i < |r| :: r[i] == PaddingPort(Base(a, ports), a.protocol, i)
  {
    var size := RangeSize(a, |ports|);
    if |ports| < size then
      ports + seq(size - |ports|, i requires 0 <= i < size - |ports| => PaddingPort(Base(a, ports), a.protocol, |ports| + i))
    else ports
  }

  /** One port after the start of the range is known. */
  function PlacedPort(p: PortSpec, start: int32, idx: nat, protocol: string): (r: PortSpec) {
    p.(nodePort := PortAt(start, idx), protocol := if p.protocol == "" then protocol else p.protocol)
  }

  function Placed(ports: seq<PortSpec>, start: int32, protocol: string): (r: seq<PortSpec>)
    ensures |r| == |ports|
    ensures forall i | 0 <= i < |r| :: r[i] == PlacedPort(ports[i], start, i, protocol)
  {
    seq(|ports|, i requires 0 <= i < |ports| => PlacedPort(ports[i], start, i, protocol))
  }

  /** The least start from `from` to `last` whose window is free. */
  function FirstFree(used: set<int>, from: int32, last: int, size: int): (r: Option<int32>)
    ensures r.None? ==> forall s: int32 | from <= s <= last :: !RangeFree(used, s, size)
    ensures r.Some? ==> from <= r.value <= last && RangeFree(used, r.value, size)
    ensures r.Some? ==> forall s: int32 | from <= s < r.value :: !RangeFree(used, s, size)
    decreases last - from
  {
    if from > last then None
    else if RangeFree(used, from, size) then Some(from)
    else if from == MAX32 then None
    else FirstFree(used, from + 1, last, size)
  }

  /** The least start at or above `from` whose window is free and ends at or below `max`. */
  function FirstFit(used: set<int>, from: int32, max: int32, size: int): (r: Option<int32>)
    requires size >= 1
    ensures r.None? ==> forall s: int32 | from <= s && s + size - 1 <= max :: !RangeFree(used, s, size)
    ensures r.Some? ==> from <= r.value && r.value + size - 1 <= max && RangeFree(used, r.value, size)
    ensures r.Some? ==> forall s: int32 | from <= s < r.value :: !RangeFree(used, s, size)
  {
    FirstFree(used, from, max - size + 1, size)
  }

  // ---------------------------------------------------------------- the scan in 32-bit arithmetic

  /** The last start that the scan tries, in 32-bit arithmetic. */
  function ScanBound(cfg: Config, size: int): (last: int32) {
    Wrap(cfg.maxPort - size + 1)
  }

  /** The same bound in the three wrapping operations of the loop's guard. */
  function GuardBound(cfg: Config, size: int): (last: int32)
    ensures last == ScanBound(cfg, size)
  {
    WrapMinus(size, cfg.maxPort);
    WrapTwice(cfg.maxPort - size, 1);
    Wrap(Wrap(cfg.maxPort - Wrap(size)) + 1)
  }

  /** The start that the loop tries in its i-th iteration. */
  function StartAt(cfg: Config, i: nat): (start: int32) {
    Wrap(cfg.minPort + i)
  }

  /** The loop ends at its i-th start: past the bound, or at a free window. */
  predicate StopsAt(cfg: Config, used: set<int>, size: int, i: nat) {
    StartAt(cfg, i) > ScanBound(cfg, size) || RangeFree(used, StartAt(cfg, i), size)
  }

  ghost predicate Terminates(cfg: Config, used: set<int>, size: int) {
    exists i: nat :: StopsAt(cfg, used, size, i)
  }

  /** What the scan finds: when its bound is the largest 32-bit number the starts wrap around. */
  function Scan(cfg: Config, used: set<int>, size: int): (r: Option<int32>)
    ensures r.Some? ==> RangeFree(used, r.value, size)
  {
    var last := ScanBound(cfg, size);
    var up := FirstFree(used, cfg.minPort, last, size);
    if last < MAX32 || up.Some? then up else FirstFree(used, -0x8000_0000, cfg.minPort - 1, size)
  }

  /** The scan runs forever exactly when its bound is the largest 32-bit number and no window at all is free. */
  lemma TerminatesExact(cfg: Config, used: set<int>, size: int)
    ensures Terminates(cfg, used, size) <==> ScanBound(cfg, size) < MAX32 || exists s: int32 :: RangeFree(used, s, size)
  {
    if ScanBound(cfg, size) < MAX32 {
      assert StopsAt(cfg, used, size, MAX32 - cfg.minPort);
    } else if s: int32 :| RangeFree(used, s, size) {
      var i := if s >= cfg.minPort then s - cfg.minPort else s - cfg.minPort + 0x1_0000_0000;
      assert StopsAt(cfg, used, size, i);
    }
  }

  /** In the configurations a cluster uses, and wherever a first fit exists, the scan finds it. */
  lemma ScanIsFirstFit(cfg: Config, used: set<int>, size: int)
    ensures Scannable(cfg) && 1 <= size <= MAX_SIZE ==>
              Terminates(cfg, used, size) && Scan(cfg, used, size) == FirstFit(used, cfg.minPort, cfg.maxPort, size)
    ensures size >= 1 && FirstFit(used, cfg.minPort, cfg.maxPort, size).Some? ==>
              Terminates(cfg, used, size) && Scan(cfg, used, size) == FirstFit(used, cfg.minPort, cfg.maxPort, size)
  {
    TerminatesExact(cfg, used, size);
  }

  predicate ValidRange(cfg: Config, start: int32, size: int) {
    cfg.minPort <= start && Wrap(start + size - 1) <= cfg.maxPort
  }

  predicate InRange(cfg: Config, start: int, size: int) {
    cfg.minPort <= start && start + size - 1 <= cfg.maxPort
  }

  function ChooseStart(cfg: Config, used: set<int>, a: NodePortAllocation, size: int): (r: Option<int32>)
    requires size >= 1
    ensures r.Some? ==> RangeFree(used, r.value, size)
    ensures r.Some? && a.startPort > 0 ==> r.value == a.startPort && ValidRange(cfg, r.value, size)
    ensures r.Some? && a.startPort <= 0 && Scannable(cfg) && size <= MAX_SIZE ==> InRange(cfg, r.value, size)
  {
    if a.startPort > 0 then
      if ValidRange(cfg, a.startPort, size) && RangeFree(used, a.startPort, size) then Some(a.startPort) else None
    else Scan(cfg, used, size)
  }

  /** The network of a server after a successful allocation, or None when it is refused. */
  function Allocation(cfg: Config, used: set<int>, n: NetworkSpec): (r: Option<NetworkSpec>) {
    match n.nodePortAllocation
    case None => Some(n)
    case Some(a) =>
      var size := RangeSize(a, |n.ports|);
      match ChooseStart(cfg, used, a, size)
      case None => None
      case Some(start) =>
        Some(n.(ports := Placed(Padded(a, n.ports), start, a.protocol),
                nodePortAllocation := Some(a.(startPort := start))))
  }

  /** The search that an automatic request starts comes to an end. */
  ghost predicate AllocationTerminates(cfg: Config, used: set<int>, n: NetworkSpec) {
    n.nodePortAllocation.Some? && n.nodePortAllocation.value.startPort <= 0 ==>
      Terminates(cfg, used, RangeSize(n.nodePortAllocation.value, |n.ports|))
  }

  // ---------------------------------------------------------------- the allocator

  class ClusterAllocator {
    const cfg: Config

    constructor (c: Config)
      ensures cfg.minPort == if c.minPort == 0 then 30000 else c.minPort
      ensures cfg.maxPort == if c.maxPort == 0 then 31000 else c.maxPort
    {
      var minPort := c.minPort;
      var maxPort := c.maxPort;
      if minPort == 0 {
        minPort := 30000;
      }
      if maxPort == 0 {
        maxPort := 31000;
      }
      cfg := Config(minPort, maxPort);
    }

    /** `listed` is the answer of the List call, None when the call failed. */
    method Allocate(gs: GameServerRef, listed: Option<seq<GameServer>>) returns (r: Result<seq<PortSpec>>)
      requires listed.Some? ==> AllocationTerminates(cfg, UsedPorts(listed.value, gs.value.key), gs.value.spec.network)
      modifies gs
      ensures var n := old(gs.value.spec.network);
              var used := if listed.Some? then UsedPorts(listed.value, old(gs.value.key)) else {};
              var outcome := Allocation(cfg, used, n);
              && (r.Ok? <==> n.nodePortAllocation.None? || (listed.Some? && outcome.Some?))
              && (r.Err? ==> gs.value == old(gs.value))
              && (r.Ok? && n.nodePortAllocation.None? ==> r.value == n.ports && gs.value == old(gs.value))
              && (r.Ok? && n.nodePortAllocation.Some? ==>
                    && r.value == outcome.value.ports
                    && gs.value == old(gs.value).WithNetwork(outcome.value.(ports := n.ports)))
    {
      var n := gs.value.spec.network;
      if n.nodePortAllocation.None? {
        return Ok(n.ports);
      }
      var allocation := n.nodePortAllocation.value;
      var rangeSize := allocation.count + 1;
      if rangeSize <= 0 {
        if |n.ports| > 0 {
          rangeSize := |n.ports|;
        } else {
          rangeSize := 1;
        }
      }
      var ports := Pad(allocation, n.ports, rangeSize);
      if listed.None? {
        return Err("list gameservers for port allocation");
      }
      var used := CollectUsed(listed.value, gs.value.key);
      var start := Start(used, allocation, rangeSize);
      if start.Err? {
        return Err(start.message);
      }
      ports := Place(ports, start.value, allocation.protocol);
      var placed := n.(nodePortAllocation := Some(allocation.(startPort := start.value)));
      assert Allocation(cfg, used, n).value.(ports := n.ports) == placed;
      gs.value := gs.value.WithNetwork(placed);
      return Ok(ports);
    }

    /** The loop that appends generated ports until the range is full. */
    method Pad(allocation: NodePortAllocation, given: seq<PortSpec>, rangeSize: int) returns (ports: seq<PortSpec>)
      requires rangeSize == RangeSize(allocation, |given|)
      ensures ports == Padded(allocation, given)
    {
      ports := given;
      if |ports| < rangeSize {
        var base := allocation.containerStartPort;
        if base == 0 {
          base := allocation.startPort;
        }
        if base == 0 && |ports| > 0 {
          base := ports[0].containerPort;
        }
        if base == 0 {
          base := 25565;
        }
        var idx := |ports|;
        while idx < rangeSize
          invariant |given| <= idx <= rangeSize
          invariant |ports| == idx && given <= ports
          invariant forall i | |given| <= i < idx :: ports[i] == PaddingPort(base, allocation.protocol, i)
        {
          WrapTwice(idx, base);
          ports := ports + [PortSpec("range-" + Decimal(idx), allocation.protocol, Wrap(base + Wrap(idx)), 0)];
          idx := idx + 1;
        }
      }
    }

    /** The choice between a requested start and a search. */
    method Start(used: set<int>, allocation: NodePortAllocation, rangeSize: int) returns (r: Result<int32>)
      requires rangeSize >= 1
      requires allocation.startPort <= 0 ==> Terminates(cfg, used, rangeSize)
      ensures var chosen := ChooseStart(cfg, used, allocation, rangeSize);
              (r.Ok? <==> chosen.Some?) && (r.Ok? ==> r.value == chosen.value)
    {
      if allocation.startPort > 0 {
        var valid := CheckRange(allocation.startPort, rangeSize);
        if !valid {
          return Err("requested nodeport range outside configured range");
        }
        var taken := RangeUsed(used, allocation.startPort, rangeSize);
        if taken {
          return Err("requested nodeport range is already allocated");
        }
        return Ok(allocation.startPort);
      }
      var candidate := FindFreeRange(used, rangeSize);
      if candidate.None? {
        return Err("no free nodeport range");
      }
      return Ok(candidate.value);
    }

    /** The loop that overwrites every NodePort and fills missing protocols. */
    method Place(given: seq<PortSpec>, start: int32, protocol: string) returns (ports: seq<PortSpec>)
      ensures ports == Placed(given, start, protocol)
    {
      ports := given;
      for idx := 0 to |given|
        invariant |ports| == |given|
        invariant forall i | 0 <= i < idx :: ports[i] == PlacedPort(given[i], start, i, protocol)
        invariant forall i | idx <= i < |given| :: ports[i] == given[i]
      {
        WrapTwice(idx, start);
        ports := ports[idx := ports[idx].(nodePort := Wrap(start + Wrap(idx)))];
        if ports[idx].protocol == "" {
          ports := ports[idx := ports[idx].(protocol := protocol)];
        }
      }
    }

    method CollectUsed(listed: seq<GameServer>, self: Key) returns (used: set<int>)
      ensures used == UsedPorts(listed, self)
    {
      used := {};
      for idx := 0 to |listed|
        invariant used == UsedPorts(listed[..idx], self)
      {
        var item := listed[idx];
        if item.key != self {
          var own := ClaimOf(item.spec.network);
          used := used + own;
        }
        assert listed[..idx + 1] == listed[..idx] + [item];
      }
      assert listed[..|listed|] == listed;
    }

    method ClaimOf(n: NetworkSpec) returns (used: set<int>)
      ensures used == Claim(n)
    {
      used := {};
      for i := 0 to |n.ports|
        invariant used == set p | p in n.ports[..i] && p.nodePort > 0 :: p.nodePort as int
      {
        if n.ports[i].nodePort > 0 {
          used := used + {n.ports[i].nodePort as int};
        }
        assert n.ports[..i + 1] == n.ports[..i] + [n.ports[i]];
      }
      assert n.ports[..|n.ports|] == n.ports;
      if n.nodePortAllocation.Some? && n.nodePortAllocation.value.startPort > 0 {
        var a := n.nodePortAllocation.value;
        var size := a.count + 1;
        ghost var own := used;
        var offset := 0;
        while offset < size
          invariant 0 <= offset && (offset <= size || offset == 0)
          invariant used == own + Window(a.startPort, offset)
        {
          used := used + {Wrap(a.startPort + Wrap(offset)) as int};
          WrapTwice(offset, a.startPort);
          WindowGrows(a.startPort, offset);
          offset := offset + 1;
        }
        assert Window(a.startPort, offset) == Window(a.startPort, size);
      }
    }

    /** The scan, computed in wrapping 32-bit arithmetic; every call that returns is covered. */
    method FindFreeRange(used: set<int>, size: int) returns (r: Option<int32>)
      requires Terminates(cfg, used, size)
      ensures r == Scan(cfg, used, size)
      ensures Scannable(cfg) && 1 <= size <= MAX_SIZE ==> r == FirstFit(used, cfg.minPort, cfg.maxPort, size)
    {
      ScanIsFirstFit(cfg, used, size);
      ghost var limit := ScanLimit(cfg, used, size);
      ghost var i := 0;
      var start: int32 := cfg.minPort;
      while start <= GuardBound(cfg, size)
        invariant 0 <= i <= limit && start == StartAt(cfg, i)
        invariant Scan(cfg, used, size) == ScanFrom(cfg, used, size, i)
        decreases limit - i
      {
        var taken := RangeUsed(used, start, size);
        if !taken {
          ScanStops(cfg, used, size, i);
          return Some(start);
        }
        ScanStep(cfg, used, size, i);
        start := Wrap(start + 1);
        i := i + 1;
      }
      ScanStops(cfg, used, size, i);
      return None;
    }

    method RangeUsed(used: set<int>, start: int32, size: int) returns (taken: bool)
      ensures taken <==> !RangeFree(used, start, size)
    {
      var offset := 0;
      while offset < size
        invariant 0 <= offset
        invariant forall o | 0 <= o < offset && o < size :: PortAt(start, o) !in used
      {
        WrapTwice(offset, start);
        if Wrap(start + Wrap(offset)) in used {
          assert PortAt(start, offset) in used;
          return true;
        }
        offset := offset + 1;
      }
      return false;
    }

    method CheckRange(start: int32, size: int) returns (valid: bool)
      ensures valid <==> ValidRange(cfg, start, size)
    {
      WrapTwice(size, start);
      WrapTwice(start + Wrap(size), -1);
      WrapTwice(size, start - 1);
      var end := Wrap(Wrap(start + Wrap(size)) - 1);
      valid := !(start < cfg.minPort || end > cfg.maxPort);
    }
  }

  lemma WindowGrows(start: int, size: nat)
    ensures Window(start, size + 1) == Window(start, size) + {PortAt(start, size) as int}
  {
  }

  /** An iteration at which the scan stops, before any start comes round again. */
  ghost function ScanLimit(cfg: Config, used: set<int>, size: int): (i: nat)
    requires Terminates(cfg, used, size)
    ensures i < 0x1_0000_0000 && StopsAt(cfg, used, size, i)
  {
    var i: nat :| StopsAt(cfg, used, size, i);
    assert StartAt(cfg, i % 0x1_0000_0000) == StartAt(cfg, i);
    i % 0x1_0000_0000
  }

  /** The rest of the scan from its i-th start on. */
  ghost function ScanFrom(cfg: Config, used: set<int>, size: int, i: nat): (r: Option<int32>) {
    var last, start := ScanBound(cfg, size), StartAt(cfg, i);
    if start < cfg.minPort then FirstFree(used, start, cfg.minPort - 1, size)
    else
      var up := FirstFree(used, start, last, size);
      if last < MAX32 || up.Some? then up else FirstFree(used, -0x8000_0000, cfg.minPort - 1, size)
  }

  lemma ScanStep(cfg: Config, used: set<int>, size: int, i: nat)
    requires i < 0xffff_ffff && !StopsAt(cfg, used, size, i)
    ensures StartAt(cfg, i + 1) == Wrap(StartAt(cfg, i) + 1)
    ensures ScanFrom(cfg, used, size, i + 1) == ScanFrom(cfg, used, size, i)
  {
    WrapTwice(cfg.minPort + i, 1);
  }

  lemma ScanStops(cfg: Config, used: set<int>, size: int, i: nat)
    requires Scan(cfg, used, size) == ScanFrom(cfg, used, size, i) && StopsAt(cfg, used, size, i)
    ensures Scan(cfg, used, size) == if StartAt(cfg, i) <= ScanBound(cfg, size) then Some(StartAt(cfg, i)) else None
  {
  }
}
