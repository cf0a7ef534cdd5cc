/** Ranges of one size, created and deleted in any order, never fragment the configured range. */
module Fragmentation {
  import opened Core
  import opened Api
  import opened Allocator
  import opened AllocatorProperties
  import opened PortRuns
  import opened Blocks

  /** The used ports are exactly the ports of the given blocks. */
  ghost predicate Tiled(lo: int, k: nat, used: set<int>, blocks: set<nat>) {
    && (forall p | p in used :: exists j :: j in blocks && InBlock(lo, k, j, p))
    && (forall j, p | j in blocks && InBlock(lo, k, j, p) :: p in used)
  }

  lemma FreeBlock(cfg: Config, k: nat, used: set<int>, blocks: set<nat>, j: nat)
    requires k >= 1 && Tiled(cfg.minPort, k, used, blocks)
    requires BlockStart(cfg.minPort, k, j) + k - 1 <= cfg.maxPort
    ensures RangeFree(used, BlockStart(cfg.minPort, k, j), k) <==> j !in blocks
  {
    var s := BlockStart(cfg.minPort, k, j);
    if j in blocks {
      assert InBlock(cfg.minPort, k, j, PortAt(s, 0));
    } else {
      forall o | 0 <= o < k ensures PortAt(s, o) !in used {
        if PortAt(s, o) in used {
          var i :| i in blocks && InBlock(cfg.minPort, k, i, PortAt(s, o));
          BlocksApart(cfg.minPort, k, i, j, s + o);
        }
      }
    }
  }

  /** Over used blocks, first fit returns a whole unused block. */
  lemma FirstFitAligned(cfg: Config, k: nat, used: set<int>, blocks: set<nat>) returns (j: nat)
    requires k >= 1 && Tiled(cfg.minPort, k, used, blocks)
    requires FirstFit(used, cfg.minPort, cfg.maxPort, k).Some?
    ensures j < Capacity(cfg.minPort, cfg.maxPort, k) && j !in blocks
    ensures FirstFit(used, cfg.minPort, cfg.maxPort, k).value == BlockStart(cfg.minPort, k, j)
  {
    var s: int32 := FirstFit(used, cfg.minPort, cfg.maxPort, k).value;
    j := FindBlock(cfg.minPort, k, s);
    var b: int32 := BlockStart(cfg.minPort, k, j);
    CapacityExact(cfg.minPort, cfg.maxPort, k, j);
    FreeBlock(cfg, k, used, blocks, j);
    assert PortAt(s, 0) == s && (s as int) !in used;
    assert b < s ==> !RangeFree(used, b, k);
  }

  /** First fit fails exactly when every block is used. */
  lemma FirstFitFull(cfg: Config, k: nat, used: set<int>, blocks: set<nat>)
    requires k >= 1 && Tiled(cfg.minPort, k, used, blocks)
    requires forall j | j in blocks :: j < Capacity(cfg.minPort, cfg.maxPort, k)
    ensures |blocks| <= Capacity(cfg.minPort, cfg.maxPort, k)
    ensures FirstFit(used, cfg.minPort, cfg.maxPort, k).None? <==> |blocks| == Capacity(cfg.minPort, cfg.maxPort, k)
  {
    var c := Capacity(cfg.minPort, cfg.maxPort, k);
    Counting(c, blocks);
    if FirstFit(used, cfg.minPort, cfg.maxPort, k).None? {
      forall j: nat | j < c ensures j in blocks {
        CapacityExact(cfg.minPort, cfg.maxPort, k, j);
        FreeBlock(cfg, k, used, blocks, j);
        var s: int32 := BlockStart(cfg.minPort, k, j);
        assert !RangeFree(used, s, k);
      }
    } else {
      var _ := FirstFitAligned(cfg, k, used, blocks);
    }
  }

  // ---------------------------------------------------------------- how many used ports are too many

  /** The last port of each of the first c blocks. */
  function BlockEnds(lo: int, k: nat, c: nat): (s: set<int>)
    requires k >= 1
    ensures |s| == c
    ensures forall p | p in s :: p < BlockStart(lo, k, c)
  {
    if c == 0 then {} else BlockEnds(lo, k, c - 1) + {BlockStart(lo, k, c - 1) + k - 1}
  }

  lemma {:induction false} BlockEndsHas(lo: int, k: nat, c: nat, j: nat)
    requires k >= 1 && j < c
    ensures BlockStart(lo, k, j) + k - 1 in BlockEnds(lo, k, c)
  {
    if j < c - 1 {
      BlockEndsHas(lo, k, c - 1, j);
    }
  }

  /** The bound of GuaranteedFit is sharp: as many used ports as ranges fit can already block them all. */
  lemma GuaranteedFitIsSharp(cfg: Config, k: nat)
    requires k >= 1
    ensures var c := Capacity(cfg.minPort, cfg.maxPort, k);
            var used := BlockEnds(cfg.minPort, k, c);
            |used| == c && FirstFit(used, cfg.minPort, cfg.maxPort, k).None?
  {
    var c := Capacity(cfg.minPort, cfg.maxPort, k);
    var used := BlockEnds(cfg.minPort, k, c);
    if FirstFit(used, cfg.minPort, cfg.maxPort, k).Some? {
      var s := FirstFit(used, cfg.minPort, cfg.maxPort, k).value;
      var j := FindBlock(cfg.minPort, k, s);
      CapacityExact(cfg.minPort, cfg.maxPort, k, j);
      BlockEndsHas(cfg.minPort, k, c, j);
      BlockEndIsHit(used, s, k, BlockStart(cfg.minPort, k, j) + k - 1 - s);
    }
  }

  lemma BlockEndIsHit(used: set<int>, s: int32, k: nat, o: int)
    ensures 0 <= o < k && s + o <= MAX32 && s + o in used ==> !RangeFree(used, s, k)
  {
    if 0 <= o < k && s + o <= MAX32 && s + o in used {
      assert PortAt(s, o) == s + o;
    }
  }

  // ---------------------------------------------------------------- runs of uniform creates

  /** An automatic request for a range of k ports. */
  predicate Uniform(k: nat, n: NetworkSpec) {
    && n.nodePortAllocation.Some?
    && n.nodePortAllocation.value.startPort <= 0
    && n.nodePortAllocation.value.count == k - 1
    && |n.ports| <= k
  }

  predicate UniformRun(k: nat, steps: seq<Step>) {
    forall i | 0 <= i < |steps| && steps[i].List? :: Uniform(k, steps[i].gs.spec.network)
  }

  /** The server holds block number j, and nothing else. */
  ghost predicate HoldsBlock(cfg: Config, k: nat, n: NetworkSpec, j: nat) {
    && BlockStart(cfg.minPort, k, j) + k - 1 <= cfg.maxPort
    && n.nodePortAllocation.Some?
    && n.nodePortAllocation.value.startPort == BlockStart(cfg.minPort, k, j)
    && forall p :: p in Claim(n) <==> InBlock(cfg.minPort, k, j, p)
  }

  ghost predicate Aligned(cfg: Config, k: nat, n: NetworkSpec) {
    exists j :: HoldsBlock(cfg, k, n, j)
  }

  ghost function BlockOf(cfg: Config, k: nat, n: NetworkSpec): (j: nat)
    requires Aligned(cfg, k, n)
    ensures HoldsBlock(cfg, k, n, j)
  {
    var j :| HoldsBlock(cfg, k, n, j);
    j
  }

  ghost predicate AllAligned(cfg: Config, k: nat, servers: Servers) {
    forall key | key in servers :: Aligned(cfg, k, servers[key].spec.network)
  }

  /** The blocks held by all stored servers except one. */
  ghost function HeldBlocks(cfg: Config, k: nat, servers: Servers, self: Key): (b: set<nat>)
    requires AllAligned(cfg, k, servers)
  {
    set key | key in servers && key != self :: BlockOf(cfg, k, servers[key].spec.network)
  }

  lemma BlocksTile(cfg: Config, k: nat, servers: Servers, self: Key)
    requires k >= 1 && AllAligned(cfg, k, servers)
    ensures Tiled(cfg.minPort, k, UsedIn(servers, self), HeldBlocks(cfg, k, servers, self))
    ensures forall j | j in HeldBlocks(cfg, k, servers, self) :: j < Capacity(cfg.minPort, cfg.maxPort, k)
  {
    var used, blocks := UsedIn(servers, self), HeldBlocks(cfg, k, servers, self);
    forall p | p in used ensures exists j :: j in blocks && InBlock(cfg.minPort, k, j, p) {
      var key :| key in servers && key != self && p in Claim(servers[key].spec.network);
      var j := BlockOf(cfg, k, servers[key].spec.network);
      assert j in blocks;
    }
    forall j | j in blocks ensures j < Capacity(cfg.minPort, cfg.maxPort, k) {
      CapacityExact(cfg.minPort, cfg.maxPort, k, j);
    }
  }

  lemma PlacedUniform(cfg: Config, k: nat, used: set<int>, blocks: set<nat>, n: NetworkSpec, placed: NetworkSpec)
    requires Positive(cfg) && k >= 1 && Uniform(k, n)
    requires Tiled(cfg.minPort, k, used, blocks)
    requires Allocation(cfg, used, n) == Some(placed)
    ensures Aligned(cfg, k, placed)
  {
    ScanIsFirstFit(cfg, used, k);
    var j := FirstFitAligned(cfg, k, used, blocks);
    var s := BlockStart(cfg.minPort, k, j);
    CapacityExact(cfg.minPort, cfg.maxPort, k, j);
    assert Reach(n.nodePortAllocation.value, |n.ports|) == k;
    assert placed.nodePortAllocation.value.startPort == s;
    PlacedClaimExact(cfg, used, n, placed);
    forall p ensures p in Window(s, k) <==> InBlock(cfg.minPort, k, j, p) {
      if s <= p < s + k {
        assert PortAt(s, p - s) == p;
      }
    }
    assert HoldsBlock(cfg, k, placed, j);
  }

  lemma {:induction false} RunIsAligned(cfg: Config, k: nat, s: State, steps: seq<Step>)
    requires Positive(cfg) && k >= 1 && UniformRun(k, steps)
    requires AllAligned(cfg, k, s.servers) && (s.pending.Some? ==> Aligned(cfg, k, s.pending.value.spec.network))
    ensures AllAligned(cfg, k, Run(cfg, s, steps).servers)
    decreases |steps|
  {
    if steps != [] {
      var step := steps[0];
      var s' := Apply(cfg, s, step);
      if step.List? && s' != s {
        BlocksTile(cfg, k, s.servers, step.gs.key);
        PlacedUniform(cfg, k, UsedIn(s.servers, step.gs.key), HeldBlocks(cfg, k, s.servers, step.gs.key),
                      step.gs.spec.network, s'.pending.value.spec.network);
      }
      assert forall i | 0 <= i < |steps[1..]| :: steps[1..][i] == steps[i + 1];
      RunIsAligned(cfg, k, s', steps[1..]);
    }
  }

  lemma HeldApart(cfg: Config, k: nat, servers: Servers, i: Key, j: Key)
    requires k >= 1 && AllAligned(cfg, k, servers) && Disjoint(servers)
    requires i in servers && j in servers && i != j
    ensures BlockOf(cfg, k, servers[i].spec.network) != BlockOf(cfg, k, servers[j].spec.network)
  {
    var m, n := servers[i].spec.network, servers[j].spec.network;
    assert Claim(m) !! Claim(n);
    var p := BlockStart(cfg.minPort, k, BlockOf(cfg, k, m));
    assert InBlock(cfg.minPort, k, BlockOf(cfg, k, m), p);
    assert p in Claim(m);
  }

  function Image<K, V(==)>(m: map<K, V>): (s: set<V>) {
    set key | key in m :: m[key]
  }

  lemma {:induction false} InjectiveValues<K, V>(m: map<K, V>)
    requires forall i, j | i in m && j in m && i != j :: m[i] != m[j]
    ensures |Image(m)| == |m|
    decreases |m|
  {
    if m.Keys == {} {
      assert Image(m) == {} && m == map[];
    } else {
      var key :| key in m;
      var rest := m - {key};
      assert m.Keys == rest.Keys + {key};
      InjectiveValues(rest);
      assert Image(m) == Image(rest) + {m[key]};
    }
  }

  /** Disjoint aligned servers hold as many blocks as there are servers. */
  lemma BlocksAreDistinct(cfg: Config, k: nat, servers: Servers, self: Key)
    requires k >= 1 && self !in servers && Disjoint(servers) && AllAligned(cfg, k, servers)
    ensures |HeldBlocks(cfg, k, servers, self)| == |servers|
  {
    var block := BlockMap(cfg, k, servers);
    forall i, j | i in block && j in block && i != j ensures block[i] != block[j] {
      HeldApart(cfg, k, servers, i, j);
    }
    InjectiveValues(block);
    BlockMapImage(cfg, k, servers, self);
  }

  ghost function BlockMap(cfg: Config, k: nat, servers: Servers): (m: map<Key, nat>)
    requires AllAligned(cfg, k, servers)
  {
    map key | key in servers :: BlockOf(cfg, k, servers[key].spec.network)
  }

  lemma BlockMapImage(cfg: Config, k: nat, servers: Servers, self: Key)
    requires self !in servers && AllAligned(cfg, k, servers)
    ensures var block := BlockMap(cfg, k, servers);
            |block| == |servers| && HeldBlocks(cfg, k, servers, self) == Image(block)
  {
    assert BlockMap(cfg, k, servers).Keys == servers.Keys;
  }

  ghost predicate FailsWhenFull(cfg: Config, k: nat, s: Servers, gs: GameServer)
    requires k >= 1
  {
    && |s| <= Capacity(cfg.minPort, cfg.maxPort, k)
    && (Allocation(cfg, UsedIn(s, gs.key), gs.spec.network).None? <==>
        |s| == Capacity(cfg.minPort, cfg.maxPort, k))
  }

  lemma UniformAllocation(cfg: Config, k: nat, used: set<int>, n: NetworkSpec)
    requires Scannable(cfg) && k >= 1 && Uniform(k, n)
    ensures Allocation(cfg, used, n).None? <==> FirstFit(used, cfg.minPort, cfg.maxPort, k).None?
  {
    ScanIsFirstFit(cfg, used, k);
  }

  lemma AlignedStoreFills(cfg: Config, k: nat, s: Servers, gs: GameServer)
    requires Scannable(cfg) && k >= 1 && Uniform(k, gs.spec.network) && gs.key !in s
    requires AllAligned(cfg, k, s) && Disjoint(s)
    ensures FailsWhenFull(cfg, k, s, gs)
  {
    BlocksTile(cfg, k, s, gs.key);
    BlocksAreDistinct(cfg, k, s, gs.key);
    FirstFitFull(cfg, k, UsedIn(s, gs.key), HeldBlocks(cfg, k, s, gs.key));
    UniformAllocation(cfg, k, UsedIn(s, gs.key), gs.spec.network);
  }

  function Times(j: nat, k: nat): (m: nat) {
    j * k
  }

  ghost predicate StartsAtMultiple(cfg: Config, k: nat, n: NetworkSpec) {
    && n.nodePortAllocation.Some?
    && exists j :: n.nodePortAllocation.value.startPort == cfg.minPort + Times(j, k)
  }

  lemma AlignedIsMultiple(cfg: Config, k: nat, n: NetworkSpec)
    requires Aligned(cfg, k, n)
    ensures StartsAtMultiple(cfg, k, n)
  {
    var j := BlockOf(cfg, k, n);
    BlockStartIsMultiple(cfg.minPort, k, j);
    assert n.nodePortAllocation.value.startPort == cfg.minPort + Times(j, k);
  }

  /** In every run of automatic creates of one size with deletes anywhere: every live range
      starts at minPort + j * k, at most (max - min + 1) / k servers live, and a fresh create
      fails exactly when that many do. */
  lemma NoFragmentation(cfg: Config, k: nat, steps: seq<Step>, gs: GameServer)
    requires Positive(cfg) && k >= 1 && UniformRun(k, steps) && Uniform(k, gs.spec.network)
    requires gs.key !in Run(cfg, EMPTY, steps).servers
    ensures AllAligned(cfg, k, Run(cfg, EMPTY, steps).servers)
    ensures forall key | key in Run(cfg, EMPTY, steps).servers ::
              StartsAtMultiple(cfg, k, Run(cfg, EMPTY, steps).servers[key].spec.network)
    ensures FailsWhenFull(cfg, k, Run(cfg, EMPTY, steps).servers, gs)
  {
    assert CoveredRun(steps);
    PortSafety(cfg, EMPTY, steps);
    RunIsAligned(cfg, k, EMPTY, steps);
    var s := Run(cfg, EMPTY, steps).servers;
    forall key | key in s ensures StartsAtMultiple(cfg, k, s[key].spec.network) {
      AlignedIsMultiple(cfg, k, s[key].spec.network);
    }
    AlignedStoreFills(cfg, k, s, gs);
  }
}
