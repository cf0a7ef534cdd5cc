/** SetPowerState of ptero-wings-controller/service.go, and what a later pass makes of it. */
module Power {
  import opened Core
  import opened Api
  import opened Cluster
  import opened Reconcile
  import Allocator
  import PortRuns
  import Conditions
  import Startup
  import StatusRuns
  import StatusSync

  datatype Action = Start | Stop | Restart | Kill | Unknown(text: string)

  const RESTARTED_AT := "gameserver.pterodactyl.io/restarted-at"

  function Powered(gs: GameServer, a: Action, time: string): (r: Result<GameServer>)
    ensures r.Ok? <==> !a.Unknown?
    ensures r.Ok? ==> r.value.key == gs.key && r.value.uid == gs.uid && r.value.spec.network == gs.spec.network
  {
    match a
    case Start => Ok(gs.(spec := gs.spec.(lifecycle := gs.spec.lifecycle.(suspended := false))))
    case Stop => Ok(gs.(spec := gs.spec.(lifecycle := gs.spec.lifecycle.(suspended := true))))
    case Kill => Ok(gs.(spec := gs.spec.(lifecycle := gs.spec.lifecycle.(suspended := true))))
    case Restart => Ok(gs.(annotations := gs.annotations[RESTARTED_AT := time],
                           spec := gs.spec.(lifecycle := gs.spec.lifecycle.(suspended := false))))
    case Unknown(text) => Err("unknown power action")
  }

  method SetPowerState(api: ApiServer, k: Key, a: Action, time: string, apiFails: bool) returns (r: Result<()>)
    modifies api
    ensures r.Ok? <==> k in old(api.store.servers) && !a.Unknown? && !apiFails
    ensures api.store == if r.Ok? then old(api.store).(servers := old(api.store.servers)[k := Powered(old(api.store.servers)[k], a, time).value])
                         else old(api.store)
  {
    if k !in api.store.servers {
      return Err("not found");
    }
    var gs := api.store.servers[k];
    match a {
      case Start => gs := gs.(spec := gs.spec.(lifecycle := gs.spec.lifecycle.(suspended := false)));
      case Stop => gs := gs.(spec := gs.spec.(lifecycle := gs.spec.lifecycle.(suspended := true)));
      case Kill => gs := gs.(spec := gs.spec.(lifecycle := gs.spec.lifecycle.(suspended := true)));
      case Restart =>
        gs := gs.(annotations := gs.annotations[RESTARTED_AT := time]);
        gs := gs.(spec := gs.spec.(lifecycle := gs.spec.lifecycle.(suspended := false)));
      case Unknown(text) => return Err("unknown power action");
    }
    if apiFails {
      return Err("patch");
    }
    api.store := api.store.(servers := api.store.servers[k := gs]);
    return Ok(());
  }

  /** A power change is one of the rewrites under which ports stay safe. */
  lemma PowerIsARewrite(cfg: Allocator.Config, s: PortRuns.State, k: Key, a: Action, time: string)
    requires k in s.servers && s.servers[k].key == k && !a.Unknown?
    ensures var gs := Powered(s.servers[k], a, time).value;
            PortRuns.Apply(cfg, s, PortRuns.Rewrite(gs)) == s.(servers := s.servers[k := gs])
  {
  }

  // ---------------------------------------------------------------- runs of power actions

  function PowerRun(gs: GameServer, actions: seq<(Action, string)>): (r: GameServer) {
    if actions == [] then gs
    else
      var before := PowerRun(gs, actions[..|actions| - 1]);
      var last := actions[|actions| - 1];
      var next := Powered(before, last.0, last.1);
      if next.Ok? then next.value else before
  }

  /** The last action that is not refused. */
  function LastValid(actions: seq<(Action, string)>): (a: Option<Action>)
    ensures a.None? <==> forall i | 0 <= i < |actions| :: actions[i].0.Unknown?
  {
    if actions == [] then None
    else if actions[|actions| - 1].0.Unknown? then LastValid(actions[..|actions| - 1])
    else Some(actions[|actions| - 1].0)
  }

  /** The latest restart among the actions. */
  function LastRestart(actions: seq<(Action, string)>): (time: Option<string>)
    ensures time.None? <==> forall i | 0 <= i < |actions| :: !actions[i].0.Restart?
  {
    if actions == [] then None
    else if actions[|actions| - 1].0.Restart? then Some(actions[|actions| - 1].1)
    else LastRestart(actions[..|actions| - 1])
  }

  /** Power actions leave no trace but the suspension and the annotation of the latest restart. */
  lemma {:induction false} PowerTraces(gs: GameServer, actions: seq<(Action, string)>)
    ensures var r, time := PowerRun(gs, actions), LastRestart(actions);
            && r == gs.(spec := gs.spec.(lifecycle := gs.spec.lifecycle.(suspended := r.spec.lifecycle.suspended)),
                        annotations := r.annotations)
            && r.annotations == if time.None? then gs.annotations
                                else gs.annotations["gameserver.pterodactyl.io/restarted-at" := time.value]
    decreases |actions|
  {
    if actions != [] {
      PowerTraces(gs, actions[..|actions| - 1]);
    }
  }

  lemma {:induction false} LastActionDecides(gs: GameServer, actions: seq<(Action, string)>)
    ensures var r := PowerRun(gs, actions);
            && r.spec == gs.spec.(lifecycle := gs.spec.lifecycle.(suspended := r.spec.lifecycle.suspended))
            && r.key == gs.key && r.uid == gs.uid && r.status == gs.status
            && (LastValid(actions).None? ==> r == gs)
            && (LastValid(actions).Some? ==> (r.spec.lifecycle.suspended <==> LastValid(actions).value.Stop? || LastValid(actions).value.Kill?))
    decreases |actions|
  {
    if actions != [] {
      LastActionDecides(gs, actions[..|actions| - 1]);
    }
  }

  /** After any sequence of power actions with at least one valid one, and then a pass whose final
      patch lands: the workload has no replicas, and the stored phase is Suspended, exactly when the
      last valid action was stop or kill. `o` is what the pass reads back, the workload included. */
  lemma PowerRunsDecideReplicas(cfg: Allocator.Config, s: Store, k: Key, actions: seq<(Action, string)>,
                                defaults: Option<GameServerClass>, order: seq<string>,
                                o: StatusSync.Observation, needsService: bool, markLands: bool, now: int)
    requires k in s.servers && s.servers[k].key == k && LastValid(actions).Some?
    requires Conditions.UniqueKinds(s.servers[k].status.conditions) && !o.endpoint.ReadError?
    requires var gs := PowerRun(s.servers[k], actions);
             Startup.OrderFor(order, Merge(gs.spec, defaults)) && Effective(cfg, s.servers, gs, defaults, order).Ok?
    requires var gs := PowerRun(s.servers[k], actions);
             var stored := Get(Reconciled(s, k, gs.uid, Effective(cfg, s.servers, gs, defaults, order).value).workloads, k);
             o.workload.Some? ==> stored.Some? && o.workload.value.replicas == Some(stored.value.replicas)
    ensures var gs := PowerRun(s.servers[k], actions);
            var stored := Get(Reconciled(s, k, gs.uid, Effective(cfg, s.servers, gs, defaults, order).value).workloads, k);
            var after := StatusRuns.After(gs, StatusRuns.Pass(StatusRuns.Completed(needsService, o), markLands, true, now));
            var stopped := LastValid(actions).value.Stop? || LastValid(actions).value.Kill?;
            && stored.Some?
            && (stored.value.replicas == 0 <==> stopped)
            && (after.status.phase == Suspended <==> stopped)
  {
    LastActionDecides(s.servers[k], actions);
    var gs := PowerRun(s.servers[k], actions);
    EffectiveKeepsLifecycle(cfg, s.servers, gs, defaults, order);
    PassReachesFixpoint(s, k, gs.uid, Effective(cfg, s.servers, gs, defaults, order).value);
    StatusRuns.LandedStatus(gs, StatusRuns.Pass(StatusRuns.Completed(needsService, o), markLands, true, now));
  }

  /** On the children, restart has exactly the effect of start: the restart annotation never
      reaches the pod template. */
  lemma RestartIsStart(cfg: Allocator.Config, s: Store, gs: GameServer, defaults: Option<GameServerClass>,
                       order: seq<string>, time: string)
    requires Startup.OrderFor(order, Merge(Powered(gs, Start, time).value.spec, defaults))
    ensures var started, restarted := Powered(gs, Start, time).value, Powered(gs, Restart, time).value;
            && Startup.OrderFor(order, Merge(restarted.spec, defaults))
            && Effective(cfg, s.servers, restarted, defaults, order) == Effective(cfg, s.servers, started, defaults, order)
  {
  }

  /** Restarting a server that runs and is up to date makes the next pass write nothing. */
  lemma RestartOfRunningServerIsQuiet(cfg: Allocator.Config, s: Store, gs: GameServer, defaults: Option<GameServerClass>,
                                      order: seq<string>, time: string)
    requires !gs.spec.lifecycle.suspended && Startup.OrderFor(order, Merge(gs.spec, defaults))
    requires Effective(cfg, s.servers, gs, defaults, order).Ok?
    requires Quiet(s, gs.key, gs.uid, Effective(cfg, s.servers, gs, defaults, order).value)
    ensures var restarted := Powered(gs, Restart, time).value;
            && Startup.OrderFor(order, Merge(restarted.spec, defaults))
            && Effective(cfg, s.servers, restarted, defaults, order).Ok?
            && Reconciled(s, gs.key, gs.uid, Effective(cfg, s.servers, restarted, defaults, order).value) == s
  {
    var restarted := Powered(gs, Restart, time).value;
    assert restarted.spec == gs.spec;
    QuietExact(s, gs.key, gs.uid, Effective(cfg, s.servers, gs, defaults, order).value);
  }
}
