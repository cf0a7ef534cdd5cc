/** What one pass of controllers/gameserver_controller.go does to the children of a server. */
module Reconcile {
  import opened Core
  import opened Api
  import opened Renderer
  import opened Cluster
  import Allocator
  import AllocatorProperties
  import Expansion
  import PortRuns
  import Startup
  import Tokenizer
  import Validation

  // ---------------------------------------------------------------- the effective spec

  function Or(a: string, b: string): (r: string) {
    if a == "" then b else a
  }

  /** MergeWithClass: a class fills what the server leaves empty. */
  function Merge(spec: Spec, defaults: Option<GameServerClass>): (r: Spec)
    ensures defaults.None? ==> r == spec
    ensures r.lifecycle == spec.lifecycle && r.classRef == spec.classRef
  {
    match defaults
    case None => spec
    case Some(c) =>
      spec.(
        game := spec.game.(
          image := Or(spec.game.image, c.image),
          command := if |spec.game.command| == 0 then c.command else spec.game.command,
          args := if |spec.game.args| == 0 then c.args else spec.game.args),
        startup := if spec.startup.None? then c.startup else spec.startup,
        storage := spec.storage.(
          volume := Or(spec.storage.volume, c.storage.volume),
          mountPath := Or(spec.storage.mountPath, c.storage.mountPath),
          deletePolicy := Or(spec.storage.deletePolicy, c.storage.deletePolicy),
          backupPolicy := Or(spec.storage.backupPolicy, c.storage.backupPolicy)),
        network := PortRuns.MergeNetwork(spec.network, c.network))
  }

  /** Every part that the server leaves empty comes from the class, every other part from the server. */
  lemma MergeExact(spec: Spec, c: GameServerClass)
    ensures var r := Merge(spec, Some(c));
            && r == spec.(game := r.game, startup := r.startup, storage := r.storage, network := r.network)
            && r.game == spec.game.(image := r.game.image, command := r.game.command, args := r.game.args)
            && r.storage == spec.storage.(volume := r.storage.volume, mountPath := r.storage.mountPath,
                                          deletePolicy := r.storage.deletePolicy, backupPolicy := r.storage.backupPolicy)
            && (if spec.game.image != "" then r.game.image == spec.game.image else r.game.image == c.image)
            && (if spec.game.command != [] then r.game.command == spec.game.command else r.game.command == c.command)
            && (if spec.game.args != [] then r.game.args == spec.game.args else r.game.args == c.args)
            && (if spec.startup.Some? then r.startup == spec.startup else r.startup == c.startup)
            && (if spec.storage.volume != "" then r.storage.volume == spec.storage.volume else r.storage.volume == c.storage.volume)
            && (if spec.storage.mountPath != "" then r.storage.mountPath == spec.storage.mountPath
                else r.storage.mountPath == c.storage.mountPath)
            && (if spec.storage.deletePolicy != "" then r.storage.deletePolicy == spec.storage.deletePolicy
                else r.storage.deletePolicy == c.storage.deletePolicy)
            && (if spec.storage.backupPolicy != "" then r.storage.backupPolicy == spec.storage.backupPolicy
                else r.storage.backupPolicy == c.storage.backupPolicy)
            && (if spec.network.ports != [] then r.network.ports == spec.network.ports else r.network.ports == c.network.ports)
            && (if spec.network.serviceType != "" then r.network.serviceType == spec.network.serviceType
                else r.network.serviceType == c.network.serviceType)
            && (if spec.network.nodePortAllocation.Some? then r.network.nodePortAllocation == spec.network.nodePortAllocation
                else r.network.nodePortAllocation == c.network.nodePortAllocation)
  {
  }

  /** Merging twice is merging once. */
  lemma MergeIsIdempotent(spec: Spec, defaults: Option<GameServerClass>)
    ensures Merge(Merge(spec, defaults), defaults) == Merge(spec, defaults)
  {
  }

  /** Steps 5 to 8 of a pass: class defaults, startup command, validation, ports. */
  function Effective(cfg: Allocator.Config, servers: PortRuns.Servers, gs: GameServer,
                     defaults: Option<GameServerClass>, order: seq<string>): (r: Result<Spec>)
    requires var m := Merge(gs.spec, defaults); m.startup.Some? ==> forall k | k in order :: k in Startup.StartupVars(m)
    ensures r.Err? ==> r.message != ""
  {
    match Startup.Applied(Merge(gs.spec, defaults), order)
    case Err(m) => Err("startup mapping: " + m)
    case Ok(spec) =>
      if !Validation.Valid(spec) then Err("validation: ")
      else match Allocator.Allocation(cfg, PortRuns.UsedIn(servers, gs.key), spec.network)
           case None => Err("port allocation: ")
           case Some(n) => Ok(spec.(network := n))
  }

  /** A spec whose startup string is a clean template has an effective form exactly when the filled line is a
      well-formed command line, the merged spec is well formed and its ports can be placed. Then only the
      command, the arguments and the network differ from the merged spec. */
  lemma EffectiveExact(cfg: Allocator.Config, servers: PortRuns.Servers, gs: GameServer, defaults: Option<GameServerClass>,
                       order: seq<string>, t: seq<Expansion.Part>)
    requires var m := Merge(gs.spec, defaults);
             && m.startup.Some? && m.startup.value.raw == Expansion.Show(t, map[])
             && Expansion.Clean(t, Startup.StartupVars(m)) && Startup.OrderFor(order, m)
    ensures var m := Merge(gs.spec, defaults);
            var line := Expansion.Show(t, Startup.StartupVars(m));
            var placed := Allocator.Allocation(cfg, PortRuns.UsedIn(servers, gs.key), m.network);
            var e := Effective(cfg, servers, gs, defaults, order);
            && ((forall ws :: !Tokenizer.Denotes(line, ws)) ==> e.Err? && "startup mapping: " <= e.message)
            && (forall ws | Tokenizer.Denotes(line, ws) ::
                  && (e.Ok? <==> Validation.Valid(m) && placed.Some?)
                  && (e.Err? ==> e.message == if Validation.Valid(m) then "port allocation: " else "validation: ")
                  && (e.Ok? ==> e.value == m.(network := placed.value,
                                              game := if ws == [] then m.game else m.game.(command := [ws[0]], args := ws[1..]))))
  {
    Startup.AppliedExact(Merge(gs.spec, defaults), t, order);
  }

  lemma EffectiveKeepsLifecycle(cfg: Allocator.Config, servers: PortRuns.Servers, gs: GameServer,
                                defaults: Option<GameServerClass>, order: seq<string>)
    requires Startup.OrderFor(order, Merge(gs.spec, defaults))
    requires Effective(cfg, servers, gs, defaults, order).Ok?
    ensures Effective(cfg, servers, gs, defaults, order).value.lifecycle == gs.spec.lifecycle
  {
  }

  lemma MergedNetwork(spec: Spec, defaults: Option<GameServerClass>, order: seq<string>)
    requires Startup.OrderFor(order, Merge(spec, defaults)) && Startup.Applied(Merge(spec, defaults), order).Ok?
    ensures Startup.Applied(Merge(spec, defaults), order).value.network ==
            PortRuns.MergeNetwork(spec.network, if defaults.Some? then defaults.value.network else spec.network)
  {
  }

  /** In every reachable state of the port runs, every pass over a stored server with a range, under any
      class and any order of the startup variables, renders exactly the stored ports. */
  lemma PassesRenderStoredPorts(cfg: Allocator.Config, steps: seq<PortRuns.Step>, k: Key, defaults: Option<GameServerClass>,
                                order: seq<string>)
    requires Allocator.Positive(cfg) && PortRuns.CoveredRun(steps) && k in PortRuns.Run(cfg, PortRuns.EMPTY, steps).servers
    requires var gs := PortRuns.Run(cfg, PortRuns.EMPTY, steps).servers[k];
             && gs.spec.network.nodePortAllocation.Some? && AllocatorProperties.FullyClaimed(gs.spec.network)
             && Startup.OrderFor(order, Merge(gs.spec, defaults))
    ensures var servers := PortRuns.Run(cfg, PortRuns.EMPTY, steps).servers;
            var gs := servers[k];
            var e := Effective(cfg, servers, gs, defaults, order);
            e.Ok? ==> && e.value.network.ports == gs.spec.network.ports
                      && RenderService(k, e.value).Some?
                      && RenderService(k, e.value).value.ports == RenderServicePorts(gs.spec.network.ports)
  {
    var servers := PortRuns.Run(cfg, PortRuns.EMPTY, steps).servers;
    var gs := servers[k];
    PortRuns.PortSafety(cfg, PortRuns.EMPTY, steps);
    PortRuns.PortStability(cfg, steps, k, if defaults.Some? then defaults.value.network else gs.spec.network);
    PortRuns.RunIsSettled(cfg, PortRuns.EMPTY, steps);
    if Startup.Applied(Merge(gs.spec, defaults), order).Ok? {
      MergedNetwork(gs.spec, defaults, order);
    }
  }

  // ---------------------------------------------------------------- fixpoint

  /** The children agree with what is rendered, in the fields a pass maintains. */
  ghost predicate UpToDate(s: Store, k: Key, spec: Spec) {
    && SecretKey(k) in s.secrets && s.secrets[SecretKey(k)].data == RenderSecret(k, spec).data
    && PvcKey(k) in s.pvcs && s.pvcs[PvcKey(k)].labels == LabelsFor(k, spec)
    && (|spec.network.ports| > 0 ==>
          && k in s.services
          && s.services[k].ports == RenderServicePorts(spec.network.ports)
          && s.services[k].selector == SelectorFor(k))
    && k in s.workloads
    && s.workloads[k].replicas == RenderStatefulSet(k, spec).replicas
    && s.workloads[k].template == RenderTemplate(k, spec)
  }

  /** No call of a pass would write or delete anything. */
  ghost predicate Quiet(s: Store, k: Key, owner: nat, spec: Spec) {
    && SecretAction(Get(s.secrets, SecretKey(k)), owner, RenderSecret(k, spec)).Nothing?
    && Extras(s.pvcs, k) == {}
    && PvcAction(Get(s.pvcs, PvcKey(k)), owner, RenderPvc(k, spec, s.nextId)).Nothing?
    && ServiceAction(Get(s.services, k), owner, RenderService(k, spec)).Nothing?
    && WorkloadAction(Get(s.workloads, k), owner, RenderStatefulSet(k, spec)).Nothing?
  }

  /** The four steps touch different parts of the store. */
  lemma ReconciledParts(s: Store, k: Key, owner: nat, spec: Spec)
    ensures var r := Reconciled(s, k, owner, spec);
            && r.servers == s.servers
            && r.secrets == SecretStep(s, k, owner, spec).secrets
            && r.pvcs == PvcStep(Cleaned(s, k), k, owner, spec).pvcs
            && r.services == ServiceStep(s, k, owner, spec).services
            && r.workloads == WorkloadStep(s, k, owner, spec).workloads
  {
  }

  lemma SecretSettles(s: Store, k: Key, owner: nat, spec: Spec)
    ensures var m := SecretStep(s, k, owner, spec).secrets;
            && SecretKey(k) in m && m[SecretKey(k)].data == RenderSecret(k, spec).data
            && SecretAction(Get(m, SecretKey(k)), owner, RenderSecret(k, spec)).Nothing?
  {
  }

  lemma PvcSettles(s: Store, k: Key, owner: nat, spec: Spec, volume: nat)
    ensures var m := PvcStep(Cleaned(s, k), k, owner, spec).pvcs;
            && Extras(m, k) == {}
            && PvcKey(k) in m && m[PvcKey(k)].labels == LabelsFor(k, spec)
            && PvcAction(Get(m, PvcKey(k)), owner, RenderPvc(k, spec, volume)).Nothing?
  {
  }

  lemma ServiceSettles(s: Store, k: Key, owner: nat, spec: Spec)
    ensures var m := ServiceStep(s, k, owner, spec).services;
            && (|spec.network.ports| > 0 ==>
                  k in m && m[k].ports == RenderServicePorts(spec.network.ports) && m[k].selector == SelectorFor(k))
            && ServiceAction(Get(m, k), owner, RenderService(k, spec)).Nothing?
  {
  }

  lemma WorkloadSettles(s: Store, k: Key, owner: nat, spec: Spec)
    ensures var m := WorkloadStep(s, k, owner, spec).workloads;
            && k in m && m[k].replicas == RenderStatefulSet(k, spec).replicas && m[k].template == RenderTemplate(k, spec)
            && WorkloadAction(Get(m, k), owner, RenderStatefulSet(k, spec)).Nothing?
  {
  }

  /** After a pass in which every call succeeds, the children are up to date and a second pass
      with the same effective spec makes no write. */
  lemma PassReachesFixpoint(s: Store, k: Key, owner: nat, spec: Spec)
    ensures UpToDate(Reconciled(s, k, owner, spec), k, spec)
    ensures Quiet(Reconciled(s, k, owner, spec), k, owner, spec)
  {
    var r := Reconciled(s, k, owner, spec);
    ReconciledParts(s, k, owner, spec);
    SecretSettles(s, k, owner, spec);
    PvcSettles(s, k, owner, spec, r.nextId);
    ServiceSettles(s, k, owner, spec);
    WorkloadSettles(s, k, owner, spec);
  }

  /** Quiet is exactly the absence of writes: an up-to-date store without extra claims is quiet, and
      a quiet pass leaves the store as it is. */
  lemma QuietExact(s: Store, k: Key, owner: nat, spec: Spec)
    ensures Quiet(s, k, owner, spec) <==> UpToDate(s, k, spec) && Extras(s.pvcs, k) == {}
    ensures Quiet(s, k, owner, spec) ==> Reconciled(s, k, owner, spec) == s
  {
  }

  /** Every read succeeds and every write is refused. */
  ghost predicate ReadOnly(fails: Cluster.Call -> bool) {
    && !fails(ListPvcs) && (forall kind :: !fails(GetChild(kind)))
    && (forall kind :: fails(WriteChild(kind))) && (forall p :: fails(DeletePvc(p)))
  }

  lemma SecretReadOnly(s: Store, k: Key, owner: nat, spec: Spec, fails: Cluster.Call -> bool)
    requires ReadOnly(fails)
    ensures SecretFails(s, k, owner, spec, fails) <==> SecretStep(s, k, owner, spec) != s
    ensures SecretStep(s, k, owner, spec) == s <==> SecretAction(Get(s.secrets, SecretKey(k)), owner, RenderSecret(k, spec)).Nothing?
  {
  }

  lemma PvcReadOnly(s: Store, k: Key, owner: nat, spec: Spec, fails: Cluster.Call -> bool)
    requires ReadOnly(fails)
    ensures !PvcFails(s, k, owner, spec, fails) <==>
            Extras(s.pvcs, k) == {} && PvcAction(Get(s.pvcs, PvcKey(k)), owner, RenderPvc(k, spec, s.nextId)).Nothing?
    ensures !PvcFails(s, k, owner, spec, fails) ==> PvcStep(Cleaned(s, k), k, owner, spec) == s
  {
    if Extras(s.pvcs, k) == {} {
      assert s.pvcs - {} == s.pvcs;
      assert Cleaned(s, k) == s;
    } else {
      var p :| p in Extras(s.pvcs, k);
      assert fails(DeletePvc(p));
    }
  }

  lemma ServiceReadOnly(s: Store, k: Key, owner: nat, spec: Spec, fails: Cluster.Call -> bool)
    requires ReadOnly(fails)
    ensures ServiceFails(s, k, owner, spec, fails) <==> ServiceStep(s, k, owner, spec) != s
    ensures ServiceStep(s, k, owner, spec) == s <==> ServiceAction(Get(s.services, k), owner, RenderService(k, spec)).Nothing?
  {
  }

  lemma WorkloadReadOnly(s: Store, k: Key, owner: nat, spec: Spec, fails: Cluster.Call -> bool)
    requires ReadOnly(fails)
    ensures WorkloadFails(s, k, owner, spec, fails) <==> WorkloadStep(s, k, owner, spec) != s
    ensures WorkloadStep(s, k, owner, spec) == s <==> WorkloadAction(Get(s.workloads, k), owner, RenderStatefulSet(k, spec)).Nothing?
  {
  }

  /** As long as no stage fails, nothing has been written. */
  lemma ReadOnlyStages(s: Store, k: Key, owner: nat, spec: Spec, fails: Cluster.Call -> bool)
    requires ReadOnly(fails)
    ensures FailingStage(s, k, owner, spec, fails).None? <==>
            && !SecretFails(s, k, owner, spec, fails) && !PvcFails(s, k, owner, spec, fails)
            && !ServiceFails(s, k, owner, spec, fails) && !WorkloadFails(s, k, owner, spec, fails)
  {
    SecretReadOnly(s, k, owner, spec, fails);
    PvcReadOnly(s, k, owner, spec, fails);
    ServiceReadOnly(s, k, owner, spec, fails);
  }

  /** A pass makes a write exactly when it has to: where every write is refused, it still succeeds if and only if
      the children are up to date and no extra claim is there. */
  lemma WritesOnlyWhenNeeded(s: Store, k: Key, owner: nat, spec: Spec, fails: Cluster.Call -> bool)
    requires ReadOnly(fails)
    ensures FailingStage(s, k, owner, spec, fails).None? <==> Quiet(s, k, owner, spec)
  {
    ReadOnlyStages(s, k, owner, spec, fails);
    SecretReadOnly(s, k, owner, spec, fails);
    PvcReadOnly(s, k, owner, spec, fails);
    ServiceReadOnly(s, k, owner, spec, fails);
    WorkloadReadOnly(s, k, owner, spec, fails);
  }

  /** Servers whose networks agree leave the same ports to a third one. */
  ghost predicate SameNetworks(a: PortRuns.Servers, b: PortRuns.Servers) {
    a.Keys == b.Keys && forall k | k in a :: a[k].spec.network == b[k].spec.network
  }

  lemma SameUsedPorts(a: PortRuns.Servers, b: PortRuns.Servers, k: Key)
    requires SameNetworks(a, b)
    ensures PortRuns.UsedIn(a, k) == PortRuns.UsedIn(b, k)
  {
  }

  lemma EffectiveIsStable(cfg: Allocator.Config, servers: PortRuns.Servers, again: PortRuns.Servers, gs: GameServer, gs': GameServer,
                          defaults: Option<GameServerClass>, order: seq<string>, order': seq<string>)
    requires SameNetworks(servers, again) && gs.key == gs'.key && gs.spec == gs'.spec
    requires Startup.Stable(Merge(gs.spec, defaults))
    requires Startup.OrderFor(order, Merge(gs.spec, defaults)) && Startup.OrderFor(order', Merge(gs.spec, defaults))
    ensures Effective(cfg, again, gs', defaults, order') == Effective(cfg, servers, gs, defaults, order)
  {
    SameUsedPorts(servers, again, gs.key);
    Startup.StartupIsDeterministic(Merge(gs.spec, defaults), order, order');
  }

  /** An immediate second pass, which loads, merges, expands, validates and allocates anew with its
      own order of the startup variables, writes no child: status changes in between do not matter. */
  lemma SecondPassIsQuiet(cfg: Allocator.Config, s: Store, again: PortRuns.Servers, k: Key, defaults: Option<GameServerClass>,
                          order: seq<string>, order': seq<string>, spec: Spec)
    requires k in s.servers && s.servers[k].key == k && SameNetworks(s.servers, again)
    requires again[k].key == k && again[k].spec == s.servers[k].spec
    requires Startup.Stable(Merge(s.servers[k].spec, defaults))
    requires Startup.OrderFor(order, Merge(s.servers[k].spec, defaults))
    requires Startup.OrderFor(order', Merge(s.servers[k].spec, defaults))
    requires Effective(cfg, s.servers, s.servers[k], defaults, order) == Ok(spec)
    ensures Effective(cfg, again, again[k], defaults, order') == Ok(spec)
    ensures Quiet(Reconciled(s, k, s.servers[k].uid, spec).(servers := again), k, s.servers[k].uid, spec)
  {
    EffectiveIsStable(cfg, s.servers, again, s.servers[k], again[k], defaults, order, order');
    PassReachesFixpoint(s, k, s.servers[k].uid, spec);
    QuietIgnoresServers(Reconciled(s, k, s.servers[k].uid, spec), again, k, s.servers[k].uid, spec);
  }

  lemma QuietIgnoresServers(s: Store, again: PortRuns.Servers, k: Key, owner: nat, spec: Spec)
    requires Quiet(s, k, owner, spec)
    ensures Quiet(s.(servers := again), k, owner, spec)
  {
  }

  // ---------------------------------------------------------------- one claim per server, and the frame

  /** After a successful pass exactly one claim of the namespace carries the server's name. */
  lemma OneClaimPerServer(s: Store, k: Key, owner: nat, spec: Spec, p: Key)
    requires p.namespace == k.namespace
    ensures var r := Reconciled(s, k, owner, spec);
            p in r.pvcs && HasName(r.pvcs[p].labels, k.name) <==> p == PvcKey(k)
  {
    PassReachesFixpoint(s, k, owner, spec);
    assert p !in Extras(Reconciled(s, k, owner, spec).pvcs, k);
  }

  /** A pass for one server leaves every child of another server alone; its claim survives exactly
      when it is not labelled with the first server's name. */
  lemma PassFrame(s: Store, k: Key, owner: nat, spec: Spec, other: Key)
    requires other != k
    ensures var r := Reconciled(s, k, owner, spec);
            && Get(r.secrets, SecretKey(other)) == Get(s.secrets, SecretKey(other))
            && Get(r.services, other) == Get(s.services, other)
            && Get(r.workloads, other) == Get(s.workloads, other)
            && r.servers == s.servers
    ensures PvcKey(other) in s.pvcs ==>
              var r := Reconciled(s, k, owner, spec);
              var p := PvcKey(other);
              && (p in r.pvcs <==> !(p.namespace == k.namespace && HasName(s.pvcs[p].labels, k.name)))
              && (p in r.pvcs ==> r.pvcs[p] == s.pvcs[p])
  {
    ReconciledParts(s, k, owner, spec);
    ChildNamesAreInjective(other, k);
    if PvcKey(other) in s.pvcs {
      ClaimFrame(s, k, owner, spec, PvcKey(other));
    }
  }

  lemma ClaimFrame(s: Store, k: Key, owner: nat, spec: Spec, p: Key)
    requires p != PvcKey(k) && p in s.pvcs
    ensures var m := PvcStep(Cleaned(s, k), k, owner, spec).pvcs;
            && (p in m <==> !(p.namespace == k.namespace && HasName(s.pvcs[p].labels, k.name)))
            && (p in m ==> m[p] == s.pvcs[p])
  {
  }

  /** A Service outlives its ports: when they are all removed, the old Service stays as it was. */
  lemma ServiceOutlivesPorts(s: Store, k: Key, owner: nat, spec: Spec)
    requires |spec.network.ports| == 0 && k in s.services
    ensures k in Reconciled(s, k, owner, spec).services
    ensures Reconciled(s, k, owner, spec).services[k] == s.services[k]
  {
  }
}
