/** controllers/gameserver_controller.go: one call of Reconcile, put together from the parts. */
module Controller {
  import opened Core
  import opened Api
  import opened Allocator
  import opened Cluster
  import opened Finalize
  import opened Reconcile
  import Conditions
  import PortRuns
  import Startup
  import StatusRuns
  import opened StatusSync
  import Validation

  /** The answers of everything outside: which calls fail, what reads return, what time it is. */
  datatype Env = Env(
    defaults: Read<GameServerClass>,
    listed: Option<seq<GameServer>>,
    addFinalizerFails: bool,
    markLands: bool,
    finalLands: bool,
    childFails: Cluster.Call -> bool,
    finalizeFails: Finalize.Call -> bool,
    observe: Store -> Observation,
    now: int)

  /** The class that a server merges with; None when it names none. */
  function ClassOf(gs: GameServer, env: Env): (c: Option<GameServerClass>)
    requires gs.spec.classRef.Some? ==> env.defaults.Found?
  {
    if gs.spec.classRef.None? then None else Some(env.defaults.value)
  }

  /** A server that names a class merges with the class that was read, and only such a server does. */
  lemma ClassExact(gs: GameServer, env: Env)
    requires gs.spec.classRef.Some? ==> env.defaults.Found?
    ensures gs.spec.classRef.None? ==> Merge(gs.spec, ClassOf(gs, env)) == gs.spec
    ensures gs.spec.classRef.Some? && gs.spec.game.image == "" ==>
              Merge(gs.spec, ClassOf(gs, env)).game.image == env.defaults.value.image
    ensures gs.spec.classRef.Some? ==> Merge(gs.spec, ClassOf(gs, env)) == Merge(gs.spec, Some(env.defaults.value))
  {
  }

  /** The stop of a finalizing pass is the stop event of the status runs, and it changes the phase alone. */
  lemma StopExact(s: Store, k: Key)
    requires k in s.servers
    ensures var gs := s.servers[k];
            && StatusRuns.After(gs, StatusRuns.Stop(true)) == gs.(status := gs.status.(phase := Stopping))
            && Stopped(s, k) == Write(s, k, StatusRuns.After(gs, StatusRuns.Stop(true)))
  {
  }

  /** A pass over this merged spec gets as far as the allocation of ports. */
  ghost predicate ReachesPorts(spec: Spec) {
    Validation.Valid(spec) && exists order :: Startup.OrderFor(order, spec) && Startup.Applied(spec, order).Ok?
  }

  /** If a pass searches for ports, the search comes to an end. */
  ghost predicate PassTerminates(cfg: Config, servers: PortRuns.Servers, gs: GameServer, env: Env) {
    (gs.spec.classRef.Some? ==> env.defaults.Found?) ==>
      ComputeTerminates(cfg, servers, gs, ClassOf(gs, env), env.listed)
  }

  ghost predicate ComputeTerminates(cfg: Config, servers: PortRuns.Servers, gs: GameServer, defaults: Option<GameServerClass>,
                                    listed: Option<seq<GameServer>>)
  {
    listed.Some? && ReachesPorts(Merge(gs.spec, defaults)) ==>
      AllocationTerminates(cfg, PortRuns.UsedIn(servers, gs.key), Merge(gs.spec, defaults).network)
  }

  /** With a maximum from 0 up every pass ends: a valid spec asks for at most 2^31 ports. */
  lemma PassEnds(cfg: Config, servers: PortRuns.Servers, gs: GameServer, env: Env)
    requires cfg.maxPort >= 0
    ensures PassTerminates(cfg, servers, gs, env)
  {
    if gs.spec.classRef.Some? ==> env.defaults.Found? {
      var n := Merge(gs.spec, ClassOf(gs, env)).network;
      if n.nodePortAllocation.Some? && n.nodePortAllocation.value.count >= 0 {
        PortRuns.StoredSearchEnds(cfg, servers, gs.key, n.(ports := []));
      }
    }
  }

  function Write(s: Store, k: Key, gs: GameServer): (r: Store) {
    s.(servers := s.servers[k := gs])
  }

  // ---------------------------------------------------------------- what a pass over a live server does

  /** The computed spec is the effective one; it is refused exactly when that is refused or when the
      servers could not be listed for a request that needs them. */
  ghost predicate Computed(e: Result<Spec>, merged: Spec, listed: Option<seq<GameServer>>, r: Result<Spec>) {
    && (r.Ok? <==> e.Ok? && (listed.Some? || merged.network.nodePortAllocation.None?))
    && (r.Ok? ==> r == e)
    && (r.Err? ==> (if e.Err? then e.message else "port allocation: ") <= r.message)
  }

  /** The store once the Reconciling mark has landed, or been lost. */
  function MarkedStore(s: Store, k: Key, env: Env): (r: Store)
    requires k in s.servers
  {
    var gs := s.servers[k];
    Write(s, k, StatusRuns.Patched(gs, gs.status, Marked(gs, env.now).status, env.markLands))
  }

  /** The store with the status that a pass with this outcome leaves, beside the children in c. */
  function Ended(c: Store, gs: GameServer, outcome: StatusRuns.Outcome, env: Env): (r: Store) {
    Write(c, gs.key, StatusRuns.After(gs, StatusRuns.Pass(outcome, env.markLands, env.finalLands, env.now)))
  }

  /** The pass fails with its error recorded. */
  ghost predicate Recorded(c: Store, s: Store, gs: GameServer, env: Env, r: Result<()>) {
    r.Err? && s == Ended(c, gs, StatusRuns.Broken(r.message), env)
  }

  ghost predicate FailedInChildren(s1: Store, s: Store, gs: GameServer, spec: Spec, env: Env, r: Result<()>, stage: Kind) {
    && r.Err? && StageText(stage) <= r.message
    && exists c :: PartlyReconciled(s1, c, gs.key, gs.uid, spec, env.childFails, stage) && Recorded(c, s, gs, env, r)
  }

  /** The status is synced; the pass succeeds exactly when the Service could be read and the patch lands. */
  ghost predicate Synchronized(c: Store, s: Store, gs: GameServer, needsService: bool, env: Env, r: Result<()>) {
    var o := env.observe(c);
    && s == Ended(c, gs, StatusRuns.Completed(needsService, o), env)
    && (r.Ok? <==> env.finalLands && !o.endpoint.ReadError?)
  }

  /** Children first, then the status. */
  ghost predicate BuiltAndSynced(s1: Store, s: Store, gs: GameServer, spec: Spec, env: Env, r: Result<()>) {
    match FailingStage(s1, gs.key, gs.uid, spec, env.childFails)
    case Some(stage) => FailedInChildren(s1, s, gs, spec, env, r, stage)
    case None => Synchronized(Reconciled(s1, gs.key, gs.uid, spec), s, gs, |spec.network.ports| > 0, env, r)
  }

  ghost predicate SpecThenChildren(s1: Store, s: Store, gs: GameServer, merged: Spec, e: Result<Spec>, env: Env, r: Result<()>) {
    exists computed ::
      && Computed(e, merged, env.listed, computed)
      && if computed.Err? then r == Err(computed.message) && Recorded(s1, s, gs, env, r)
         else BuiltAndSynced(s1, s, gs, computed.value, env, r)
  }

  /** The part of a pass after the finalizer and deletion checks: every outcome with its cause, the
      children it leaves, and the status it records. */
  ghost predicate LiveDone(cfg: Config, s0: Store, s: Store, k: Key, env: Env, r: Result<()>)
    requires k in s0.servers
  {
    var gs, s1 := s0.servers[k], MarkedStore(s0, k, env);
    if gs.spec.classRef.Some? && !env.defaults.Found? then
      Recorded(s1, s, gs, env, r) && "loading GameServerClass" <= r.message
    else
      var merged := Merge(gs.spec, ClassOf(gs, env));
      exists order ::
        && Startup.OrderFor(order, merged)
        && SpecThenChildren(s1, s, gs, merged, Effective(cfg, s0.servers, gs, ClassOf(gs, env), order), env, r)
  }

  // ---------------------------------------------------------------- what a caller and a reader of the status learn

  /** The error is in the status. */
  ghost predicate Reported(s: Store, k: Key, message: string) {
    k in s.servers && s.servers[k].status.phase == Phase.Failed && s.servers[k].status.lastError == message
  }

  /** The children agree with an effective spec of the server that the pass loaded. */
  ghost predicate Settled(cfg: Config, s0: Store, s: Store, k: Key, env: Env)
    requires k in s0.servers
  {
    var gs := s0.servers[k];
    && (gs.spec.classRef.Some? ==> env.defaults.Found?)
    && exists order ::
         && Startup.OrderFor(order, Merge(gs.spec, ClassOf(gs, env)))
         && Agrees(s, k, Effective(cfg, s0.servers, gs, ClassOf(gs, env), order))
  }

  ghost predicate Agrees(s: Store, k: Key, e: Result<Spec>) {
    e.Ok? && UpToDate(s, k, e.value)
  }

  ghost predicate Clear(s: Store, k: Key) {
    k in s.servers && StatusRuns.Coherent(s.servers[k].status) && s.servers[k].status.lastError == ""
  }

  /** A pass that could not read the Service leaves no second patch. */
  lemma NoPatch(s: Store, gs: GameServer, e: StatusRuns.Event)
    requires e.Pass? && e.outcome.Completed? && e.outcome.o.endpoint.ReadError?
    requires gs.key in s.servers && s.servers[gs.key] == StatusRuns.Patched(gs, gs.status, Marked(gs, e.now).status, e.markLands)
    ensures Write(s, gs.key, StatusRuns.After(gs, e)) == s
  {
    var m := Marked(gs, e.now);
    var g := StatusRuns.Patched(gs, gs.status, m.status, e.markLands);
    assert StatusRuns.MergePatch(g.status, m.status, m.status) == g.status;
    StatusRuns.AfterPass(gs, e, m);
    assert s.servers[gs.key := s.servers[gs.key]] == s.servers;
  }

  lemma RecordedIsReported(c: Store, s: Store, gs: GameServer, env: Env, r: Result<()>)
    requires Recorded(c, s, gs, env, r) && r.message != "" && Conditions.UniqueKinds(gs.status.conditions)
    ensures env.finalLands ==> Reported(s, gs.key, r.message)
  {
    if env.finalLands {
      StatusRuns.LandedStatus(gs, StatusRuns.Pass(StatusRuns.Broken(r.message), env.markLands, true, env.now));
    }
  }

  /** The stored server is the loaded one with the Reconciling mark, which may have been lost. */
  ghost predicate HoldsMarked(s: Store, gs: GameServer, env: Env) {
    gs.key in s.servers && s.servers[gs.key] == StatusRuns.Patched(gs, gs.status, Marked(gs, env.now).status, env.markLands)
  }

  /** The Service could not be read: nothing was written after the children. */
  ghost predicate Unread(s: Store, env: Env) {
    env.observe(s).endpoint.ReadError?
  }

  lemma SyncedIsClear(s1: Store, s: Store, gs: GameServer, spec: Spec, needsService: bool, env: Env, r: Result<()>)
    requires Synchronized(Reconciled(s1, gs.key, gs.uid, spec), s, gs, needsService, env, r)
    requires Conditions.UniqueKinds(gs.status.conditions) && HoldsMarked(s1, gs, env)
    ensures UpToDate(s, gs.key, spec)
    ensures r.Ok? ==> Clear(s, gs.key)
    ensures r.Err? && env.finalLands ==> Unread(s, env)
  {
    var c := Reconciled(s1, gs.key, gs.uid, spec);
    ReconciledParts(s1, gs.key, gs.uid, spec);
    if env.observe(c).endpoint.ReadError? {
      NoPatch(c, gs, StatusRuns.Pass(StatusRuns.Completed(needsService, env.observe(c)), env.markLands, env.finalLands, env.now));
    }
    PassReachesFixpoint(s1, gs.key, gs.uid, spec);
    assert UpToDate(s, gs.key, spec);
    if r.Ok? {
      var e := StatusRuns.Pass(StatusRuns.Completed(needsService, env.observe(c)), env.markLands, true, env.now);
      StatusRuns.PassIsCoherent(gs, e);
      StatusRuns.LandedStatus(gs, e);
    }
  }

  lemma BuiltIsReported(s1: Store, s: Store, gs: GameServer, spec: Spec, env: Env, r: Result<()>)
    requires BuiltAndSynced(s1, s, gs, spec, env, r) && Conditions.UniqueKinds(gs.status.conditions) && HoldsMarked(s1, gs, env)
    ensures r.Ok? ==> UpToDate(s, gs.key, spec) && Clear(s, gs.key)
    ensures r.Err? && env.finalLands ==> Reported(s, gs.key, r.message) || (UpToDate(s, gs.key, spec) && Unread(s, env))
  {
    match FailingStage(s1, gs.key, gs.uid, spec, env.childFails)
    case Some(stage) =>
      var c :| PartlyReconciled(s1, c, gs.key, gs.uid, spec, env.childFails, stage) && Recorded(c, s, gs, env, r);
      RecordedIsReported(c, s, gs, env, r);
    case None => SyncedIsClear(s1, s, gs, spec, |spec.network.ports| > 0, env, r);
  }

  lemma SpecIsReported(s1: Store, s: Store, gs: GameServer, merged: Spec, e: Result<Spec>, env: Env, r: Result<()>)
    requires SpecThenChildren(s1, s, gs, merged, e, env, r) && (e.Err? ==> e.message != "")
    requires Conditions.UniqueKinds(gs.status.conditions) && HoldsMarked(s1, gs, env)
    ensures r.Ok? ==> Agrees(s, gs.key, e) && Clear(s, gs.key)
    ensures r.Err? && env.finalLands ==> Reported(s, gs.key, r.message) || (Agrees(s, gs.key, e) && Unread(s, env))
  {
    var computed :|
      && Computed(e, merged, env.listed, computed)
      && if computed.Err? then r == Err(computed.message) && Recorded(s1, s, gs, env, r)
         else BuiltAndSynced(s1, s, gs, computed.value, env, r);
    if computed.Err? {
      RecordedIsReported(s1, s, gs, env, r);
    } else {
      BuiltIsReported(s1, s, gs, computed.value, env, r);
    }
  }

  /** A pass that succeeds leaves children that agree with its effective spec, and a coherent status
      without an error. A pass that fails and whose final patch lands leaves the error it returned in
      the status, or has brought the children up to date and only could not read the Service. */
  lemma PassIsReported(cfg: Config, s0: Store, s: Store, k: Key, env: Env, r: Result<()>)
    requires k in s0.servers && s0.servers[k].key == k && Conditions.UniqueKinds(s0.servers[k].status.conditions)
    requires LiveDone(cfg, s0, s, k, env, r)
    ensures r.Ok? ==> Settled(cfg, s0, s, k, env) && Clear(s, k)
    ensures r.Err? && env.finalLands ==> Reported(s, k, r.message) || (Settled(cfg, s0, s, k, env) && Unread(s, env))
  {
    var gs, s1 := s0.servers[k], MarkedStore(s0, k, env);
    if gs.spec.classRef.Some? && !env.defaults.Found? {
      RecordedIsReported(s1, s, gs, env, r);
    } else {
      var merged := Merge(gs.spec, ClassOf(gs, env));
      var order :|
        && Startup.OrderFor(order, merged)
        && SpecThenChildren(s1, s, gs, merged, Effective(cfg, s0.servers, gs, ClassOf(gs, env), order), env, r);
      SpecIsReported(s1, s, gs, merged, Effective(cfg, s0.servers, gs, ClassOf(gs, env), order), env, r);
    }
  }

  class Reconciler {
    const api: ApiServer
    const allocator: ClusterAllocator

    constructor (api: ApiServer, allocator: ClusterAllocator)
      ensures this.api == api && this.allocator == allocator
    {
      this.api := api;
      this.allocator := allocator;
    }

    /** Step 8 and the assignment after it. */
    method ResolvePorts(effective: GameServerRef, listed: Option<seq<GameServer>>, ghost servers: PortRuns.Servers)
      returns (r: Result<Spec>)
      requires listed.Some? ==> UsedPorts(listed.value, effective.value.key) == PortRuns.UsedIn(servers, effective.value.key)
      requires listed.Some? ==>
                 AllocationTerminates(allocator.cfg, PortRuns.UsedIn(servers, effective.value.key), effective.value.spec.network)
      modifies effective
      ensures var spec := old(effective.value.spec);
              var placed := Allocation(allocator.cfg, PortRuns.UsedIn(servers, old(effective.value.key)), spec.network);
              && (r.Ok? <==> placed.Some? && (listed.Some? || spec.network.nodePortAllocation.None?))
              && (r.Ok? ==> r.value == spec.(network := placed.value))
              && (r.Err? ==> "port allocation: " <= r.message)
    {
      var ports := allocator.Allocate(effective, listed);
      if ports.Err? {
        return Err("port allocation: " + ports.message);
      }
      var network := effective.value.spec.network.(ports := ports.value);
      return Ok(effective.value.spec.(network := network));
    }

    /** Steps 6 and 7 on the merged object: startup command and validation. */
    method Prepare(effective: GameServerRef) returns (r: Result<()>)
      modifies effective
      ensures exists order :: Startup.OrderFor(order, old(effective.value.spec)) &&
                Prepared(old(effective.value), effective.value, Startup.Applied(old(effective.value.spec), order), r)
    {
      ghost var merged := effective.value.spec;
      var applied := Startup.ApplyStartup(effective);
      ghost var order :| Startup.OrderFor(order, merged) &&
        match Startup.Applied(merged, order)
        case Err(m) => applied == Err(m) && effective.value == old(effective.value)
        case Ok(spec) => applied == Ok(()) && effective.value == old(effective.value).(spec := spec);
      if applied.Err? {
        r := Err("startup mapping: " + applied.message);
      } else {
        var errs := Validation.ValidateEffective(effective.value.spec);
        r := if errs != [] then Err("validation: ") else Ok(());
      }
      assert Prepared(old(effective.value), effective.value, Startup.Applied(merged, order), r);
    }

    ghost predicate Prepared(before: GameServer, after: GameServer, applied: Result<Spec>, r: Result<()>) {
      if applied.Err? then r == Err("startup mapping: " + applied.message)
      else after == before.(spec := applied.value) && r == if Validation.Valid(applied.value) then Ok(()) else Err("validation: ")
    }

    /** A startup command changes nothing that validation or allocation reads. */
    lemma StartupKeepsNetwork(merged: Spec, order: seq<string>)
      requires Startup.OrderFor(order, merged) && Startup.Applied(merged, order).Ok?
      ensures var spec := Startup.Applied(merged, order).value;
              spec.network == merged.network && (Validation.Valid(spec) ==> ReachesPorts(merged))
    {
    }

    /** Steps 6 to 8: merge, startup command, validation, ports. */
    method ComputeEffective(gs: GameServer, defaults: Option<GameServerClass>, listed: Option<seq<GameServer>>,
                            ghost servers: PortRuns.Servers)
      returns (r: Result<Spec>)
      requires listed.Some? ==> UsedPorts(listed.value, gs.key) == PortRuns.UsedIn(servers, gs.key)
      requires ComputeTerminates(allocator.cfg, servers, gs, defaults, listed)
      ensures var merged := Merge(gs.spec, defaults);
              exists order :: Startup.OrderFor(order, merged) &&
                Computed(Effective(allocator.cfg, servers, gs, defaults, order), merged, listed, r)
    {
      var merged := Merge(gs.spec, defaults);
      var effective := new GameServerRef(gs.(spec := merged));
      var prepared := Prepare(effective);
      ghost var order :| Startup.OrderFor(order, merged) &&
        Prepared(gs.(spec := merged), effective.value, Startup.Applied(merged, order), prepared);
      if prepared.Err? {
        r := Err(prepared.message);
      } else {
        StartupKeepsNetwork(merged, order);
        r := ResolvePorts(effective, listed, servers);
      }
      assert Computed(Effective(allocator.cfg, servers, gs, defaults, order), merged, listed, r);
    }

    /** A status patch, which may be lost. */
    method PatchStatus(k: Key, base: Status, changed: Status, lands: bool)
      requires k in api.store.servers
      modifies api
      ensures api.store == Write(old(api.store), k, StatusRuns.Patched(old(api.store.servers)[k], base, changed, lands))
    {
      if lands {
        var gs := api.store.servers[k];
        var patched := gs.(status := StatusRuns.MergePatch(gs.status, base, changed));
        api.store := api.store.(servers := api.store.servers[k := patched]);
      } else {
        assert api.store.servers[k := api.store.servers[k]] == api.store.servers;
      }
    }

    /** failWith: the error is recorded in memory and, if the patch lands, in the store. */
    method Fail(k: Key, memory: GameServerRef, error: string, env: Env, ghost gs: GameServer) returns (r: Result<()>)
      requires gs.key == k && HoldsMarked(api.store, gs, env) && memory.value == Marked(gs, env.now)
      modifies api, memory
      ensures r == Err(error) && Recorded(old(api.store), api.store, gs, env, r)
      ensures memory.value == FailedWith(old(memory.value), error, env.now)
    {
      var base := memory.value.status;
      FailWith(memory, error, env.now);
      PatchStatus(k, base, memory.value.status, env.finalLands);
      StatusRuns.AfterPass(gs, StatusRuns.Pass(StatusRuns.Broken(error), env.markLands, env.finalLands, env.now), memory.value);
      r := Err(error);
    }

    /** syncStatus with its patch. */
    method Finish(k: Key, memory: GameServerRef, needsService: bool, env: Env, ghost gs: GameServer) returns (r: Result<()>)
      requires gs.key == k && HoldsMarked(api.store, gs, env) && memory.value == Marked(gs, env.now)
      modifies api, memory
      ensures Synchronized(old(api.store), api.store, gs, needsService, env, r)
      ensures var o := env.observe(old(api.store));
              !o.endpoint.ReadError? ==> memory.value == Synced(old(memory.value), needsService, o, env.now)
    {
      var o := env.observe(api.store);
      ghost var e := StatusRuns.Pass(StatusRuns.Completed(needsService, o), env.markLands, env.finalLands, env.now);
      var base := memory.value.status;
      r := SyncStatus(memory, needsService, o, env.now);
      if r.Err? {
        NoPatch(api.store, gs, e);
        return;
      }
      PatchStatus(k, base, memory.value.status, env.finalLands);
      StatusRuns.AfterPass(gs, e, memory.value);
      if !env.finalLands {
        r := Err("patch status");
      }
    }

    /** Step 4: the Reconciling mark. */
    method Mark(k: Key, env: Env) returns (memory: GameServerRef)
      requires k in api.store.servers
      modifies api
      ensures fresh(memory) && memory.value == Marked(old(api.store.servers)[k], env.now)
      ensures api.store == MarkedStore(old(api.store), k, env)
    {
      var gs := api.store.servers[k];
      memory := new GameServerRef(gs);
      Set(memory, RECONCILING, true, "Reconciling", "Controller is reconciling the resource", env.now);
      PatchStatus(k, gs.status, memory.value.status, env.markLands);
    }

    /** Steps 9 and 10: the children and the status. */
    method Build(gs: GameServer, memory: GameServerRef, spec: Spec, env: Env) returns (r: Result<()>)
      requires HoldsMarked(api.store, gs, env) && memory.value == Marked(gs, env.now)
      modifies api, memory
      ensures BuiltAndSynced(old(api.store), api.store, gs, spec, env, r)
    {
      var children := api.ReconcileResources(gs.key, gs.uid, spec, env.childFails);
      ghost var c := api.store;
      if children.Err? {
        r := Fail(gs.key, memory, children.message, env, gs);
        assert Recorded(c, api.store, gs, env, r);
        return;
      }
      r := Finish(gs.key, memory, |spec.network.ports| > 0, env, gs);
    }

    method LivePass(k: Key, env: Env) returns (r: Result<()>)
      requires k in api.store.servers && api.store.servers[k].key == k
      requires env.listed.Some? ==> UsedPorts(env.listed.value, k) == PortRuns.UsedIn(api.store.servers, k)
      requires PassTerminates(allocator.cfg, api.store.servers, api.store.servers[k], env)
      modifies api
      ensures LiveDone(allocator.cfg, old(api.store), api.store, k, env, r)
    {
      ghost var s0 := api.store;
      var gs := api.store.servers[k];
      var memory := Mark(k, env);
      if gs.spec.classRef.Some? && !env.defaults.Found? {
        r := Fail(k, memory, "loading GameServerClass", env, gs);
        return;
      }
      var effective := ComputeEffective(gs, ClassOf(gs, env), env.listed, s0.servers);
      ghost var merged := Merge(gs.spec, ClassOf(gs, env));
      ghost var order :| Startup.OrderFor(order, merged) &&
        Computed(Effective(allocator.cfg, s0.servers, gs, ClassOf(gs, env), order), merged, env.listed, effective);
      if effective.Err? {
        r := Fail(k, memory, effective.message, env, gs);
      } else {
        r := Build(gs, memory, effective.value, env);
      }
      assert SpecThenChildren(MarkedStore(s0, k, env), api.store, gs, merged,
                              Effective(allocator.cfg, s0.servers, gs, ClassOf(gs, env), order), env, r);
    }

    ghost predicate FinalizerAdded(s0: Store, s: Store, k: Key, env: Env, r: Result<()>)
      requires k in s0.servers
    {
      var gs := s0.servers[k];
      && (r.Ok? <==> !env.addFinalizerFails && !gs.deleting)
      && s == if r.Ok? then s0.(servers := s0.servers[k := gs.(finalizers := gs.finalizers + {FINALIZER})]) else s0
    }

    /** One call of Reconcile: nothing for an absent server, the finalizer for a new one, cleanup for
        a dying one, and a full pass otherwise. */
    method Reconcile(k: Key, env: Env) returns (r: Result<()>)
      requires PortRuns.Keyed(api.store.servers)
      requires env.listed.Some? ==> UsedPorts(env.listed.value, k) == PortRuns.UsedIn(api.store.servers, k)
      requires k in api.store.servers && FINALIZER in api.store.servers[k].finalizers && !api.store.servers[k].deleting ==>
                 PassTerminates(allocator.cfg, api.store.servers, api.store.servers[k], env)
      modifies api
      ensures k !in old(api.store.servers) ==> r.Ok? && api.store == old(api.store)
      ensures k in old(api.store.servers) && FINALIZER !in old(api.store.servers)[k].finalizers ==>
                FinalizerAdded(old(api.store), api.store, k, env, r)
      ensures k in old(api.store.servers) && FINALIZER in old(api.store.servers)[k].finalizers && !old(api.store.servers)[k].deleting ==>
                LiveDone(allocator.cfg, old(api.store), api.store, k, env, r)
      ensures k in old(api.store.servers) && FINALIZER in old(api.store.servers)[k].finalizers && old(api.store.servers)[k].deleting ==>
                FinalizeDone(old(api.store), api.store, old(api.store.servers)[k], env.finalizeFails, r)
    {
      if k !in api.store.servers {
        return Ok(());
      }
      var gs := api.store.servers[k];
      if FINALIZER !in gs.finalizers {
        if env.addFinalizerFails || gs.deleting {
          return Err("adding finalizer");
        }
        var guarded := gs.(finalizers := gs.finalizers + {FINALIZER});
        api.store := api.store.(servers := api.store.servers[k := guarded]);
        return Ok(());
      }
      if gs.deleting {
        r := RunFinalizer(api, gs, env.finalizeFails);
        return;
      }
      r := LivePass(k, env);
    }
  }
}
