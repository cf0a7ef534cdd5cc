/** Passes, finalization, users and the garbage collector as interleaved steps, one API write each.
    At most one worker handles a key at a time. */
module Lifecycle {
  import opened Core
  import opened Api
  import opened Renderer
  import opened Cluster
  import opened Finalize

  /** Where a pass over the children stands. */
  datatype Stage = AtSecret | AtExtras | Deleting(todo: set<Key>) | AtPvc | AtService | AtWorkload

  datatype FinalStage = AtRelease | AtDetach | AtRemove

  /** A worker keeps the server it loaded. */
  datatype Worker =
    | Building(gs: GameServer, spec: Spec, stage: Stage)
    | Finalizing(gs: GameServer, final: FinalStage)

  datatype World = World(store: Store, workers: map<Key, Worker>)

  const EMPTY := World(Store(map[], map[], map[], map[], map[], 0), map[])

  datatype Step =
    | UserCreate(key: Key, spec: Spec, finalizers: set<string>)
    | UserDelete(key: Key)
    | UserEdit(key: Key, spec: Spec, status: Status, finalizers: set<string>)
    | StrayPvc(key: Key, labels: Labels)
    | Collect(kind: Kind, key: Key)
    | Begin(key: Key, spec: Spec)
    | Advance(key: Key, ok: bool, pick: Key)
    | Abort(key: Key)

  // ---------------------------------------------------------------- users

  function Created(s: Store, k: Key, spec: Spec, finalizers: set<string>): (r: Store) {
    if k in s.servers then s
    else s.(servers := s.servers[k := GameServer(k, s.nextId, 1, finalizers, false, map[], spec, EMPTY_STATUS)],
            nextId := s.nextId + 1)
  }

  function DeleteRequested(s: Store, k: Key): (r: Store) {
    if k !in s.servers then s
    else if s.servers[k].finalizers == {} then s.(servers := s.servers - {k})
    else s.(servers := s.servers[k := s.servers[k].(deleting := true)])
  }

  /** A server without any finalizer goes at once; any finalizer keeps it, marked as being deleted. */
  lemma DeleteExact(s: Store, k: Key)
    ensures var r := DeleteRequested(s, k);
            && r == s.(servers := r.servers)
            && (forall j | j != k :: Get(r.servers, j) == Get(s.servers, j))
            && (k in r.servers <==> k in s.servers && s.servers[k].finalizers != {})
            && (k in r.servers ==> r.servers[k] == s.servers[k].(deleting := true))
  {
  }

  /** DeleteServer of ptero-wings-controller/service.go; deleting an absent server is not an error. */
  method DeleteServer(api: ApiServer, k: Key, apiFails: bool) returns (r: Result<()>)
    modifies api
    ensures r.Err? <==> k in old(api.store.servers) && apiFails
    ensures api.store == if r.Ok? then DeleteRequested(old(api.store), k) else old(api.store)
  {
    if k !in api.store.servers {
      return Ok(());
    }
    if apiFails {
      return Err("delete");
    }
    var gs := api.store.servers[k];
    if gs.finalizers == {} {
      api.store := api.store.(servers := api.store.servers - {k});
    } else {
      api.store := api.store.(servers := api.store.servers[k := gs.(deleting := true)]);
    }
    return Ok(());
  }

  /** Users may change the spec and other finalizers, passes write the status; nobody adds finalizers
      to a dying object. */
  function Edited(s: Store, k: Key, spec: Spec, status: Status, finalizers: set<string>): (r: Store) {
    if k !in s.servers then s
    else
      var gs := s.servers[k];
      if (FINALIZER in finalizers) != (FINALIZER in gs.finalizers) then s
      else if gs.deleting && !(finalizers <= gs.finalizers) then s
      else if gs.deleting && finalizers == {} then s.(servers := s.servers - {k})
      else s.(servers := s.servers[k := gs.(spec := spec, status := status, finalizers := finalizers)])
  }

  /** Names of the form x-data belong to the server x. */
  predicate DataKey(p: Key) {
    |p.name| >= 5 && p.name[|p.name| - 5..] == "-data"
  }

  function DataOwner(p: Key): (name: string)
    requires DataKey(p)
  {
    p.name[..|p.name| - 5]
  }

  lemma PvcKeyIsDataKey(k: Key)
    ensures DataKey(PvcKey(k)) && DataOwner(PvcKey(k)) == k.name
  {
  }

  /** A user's own claim, which does not pretend to be another server's data. */
  function StrayCreated(s: Store, p: Key, labels: Labels): (r: Store) {
    if p in s.pvcs || (DataKey(p) && !HasName(labels, DataOwner(p))) then s
    else s.(pvcs := s.pvcs[p := Pvc(labels, [], "", s.nextId)], nextId := s.nextId + 1)
  }

  // ---------------------------------------------------------------- the garbage collector

  predicate Dead(s: Store, uid: nat) {
    forall j | j in s.servers :: s.servers[j].uid != uid
  }

  predicate Orphaned(s: Store, owners: seq<nat>) {
    owners != [] && forall u | u in owners :: Dead(s, u)
  }

  function Collected(s: Store, kind: Kind, c: Key): (r: Store) {
    match kind
    case SecretKind => if c in s.secrets && Orphaned(s, s.secrets[c].owners) then s.(secrets := s.secrets - {c}) else s
    case PvcKind => if c in s.pvcs && Orphaned(s, s.pvcs[c].owners) then s.(pvcs := s.pvcs - {c}) else s
    case ServiceKind => if c in s.services && Orphaned(s, s.services[c].owners) then s.(services := s.services - {c}) else s
    case WorkloadKind => if c in s.workloads && Orphaned(s, s.workloads[c].owners) then s.(workloads := s.workloads - {c}) else s
  }

  // ---------------------------------------------------------------- workers

  /** The start of a pass. `spec` is whatever effective spec the pass will compute. */
  function Begun(w: World, k: Key, spec: Spec): (r: World) {
    if k !in w.store.servers || k in w.workers then w
    else
      var gs := w.store.servers[k];
      if FINALIZER !in gs.finalizers then
        if gs.deleting then w  // the API server refuses new finalizers on a dying object
        else w.(store := w.store.(servers := w.store.servers[k := gs.(finalizers := gs.finalizers + {FINALIZER})]))
      else if gs.deleting then w.(workers := w.workers[k := Finalizing(gs, AtRelease)])
      else w.(workers := w.workers[k := Building(gs, spec, AtSecret)])
  }

  /** The first pass over a server adds the operator's finalizer to the others and ends there; a dying object gets
      none; otherwise a worker starts, for cleanup exactly when the object is being deleted. */
  lemma BegunExact(w: World, k: Key, spec: Spec)
    requires k in w.store.servers && k !in w.workers
    ensures var gs, r := w.store.servers[k], Begun(w, k, spec);
            var guarded := "gameserver.pterodactyl.io/finalizer" in gs.finalizers;
            && r.store == (if guarded || gs.deleting then w.store
                           else w.store.(servers := w.store.servers[k :=
                             gs.(finalizers := gs.finalizers + {"gameserver.pterodactyl.io/finalizer"})]))
            && r.workers == (if !guarded then w.workers
                             else w.workers[k := if gs.deleting then Finalizing(gs, AtRelease) else Building(gs, spec, AtSecret)])
  {
  }

  function Stop(w: World, k: Key): (r: World) {
    w.(workers := w.workers - {k})
  }

  function At(w: World, k: Key, store: Store, next: Worker): (r: World) {
    World(store, w.workers[k := next])
  }

  /** The write of a building step. */
  function BuildStore(s: Store, k: Key, b: Worker, pick: Key): (r: Store)
    requires b.Building?
  {
    match b.stage
    case AtSecret => SecretStep(s, k, b.gs.uid, b.spec)
    case AtExtras => s
    case Deleting(todo) => if pick in todo then DropPvcs(s, {pick}) else s
    case AtPvc => PvcStep(s, k, b.gs.uid, b.spec)
    case AtService => ServiceStep(s, k, b.gs.uid, b.spec)
    case AtWorkload => WorkloadStep(s, k, b.gs.uid, b.spec)
  }

  /** Where the pass stands afterwards; None when it is done. */
  function NextStage(s: Store, k: Key, stage: Stage, pick: Key): (next: Option<Stage>) {
    match stage
    case AtSecret => Some(AtExtras)
    case AtExtras => Some(Deleting(Extras(s.pvcs, k)))
    case Deleting(todo) => if todo == {} then Some(AtPvc) else Some(Deleting(todo - {pick}))
    case AtPvc => Some(AtService)
    case AtService => Some(AtWorkload)
    case AtWorkload => None
  }

  function BuildStep(w: World, k: Key, b: Worker, pick: Key): (r: World)
    requires b.Building?
  {
    var s, next := BuildStore(w.store, k, b, pick), NextStage(w.store, k, b.stage, pick);
    if next.None? then Stop(w.(store := s), k) else At(w, k, s, b.(stage := next.value))
  }

  /** A failed detach is only logged; every other failure ends the pass. */
  function FinalStep(w: World, k: Key, f: Worker, ok: bool): (r: World)
    requires f.Finalizing?
  {
    match f.final
    case AtRelease => if ok then At(w, k, w.store, f.(final := AtDetach)) else Stop(w, k)
    case AtDetach =>
      var detaches := ok && DeletePolicy(f.gs.spec) == "Retain";
      At(w, k, if detaches then Detached(w.store, k, f.gs.uid) else w.store, f.(final := AtRemove))
    case AtRemove => Stop(if ok then w.(store := FinalizerRemoved(w.store, k)) else w, k)
  }

  function Apply(w: World, step: Step): (r: World) {
    match step
    case UserCreate(k, spec, finalizers) => w.(store := Created(w.store, k, spec, finalizers))
    case UserDelete(k) => w.(store := DeleteRequested(w.store, k))
    case UserEdit(k, spec, status, finalizers) => w.(store := Edited(w.store, k, spec, status, finalizers))
    case StrayPvc(p, labels) => w.(store := StrayCreated(w.store, p, labels))
    case Collect(kind, c) => w.(store := Collected(w.store, kind, c))
    case Begin(k, spec) => Begun(w, k, spec)
    case Advance(k, ok, pick) =>
      if k !in w.workers then w
      else if w.workers[k].Finalizing? then FinalStep(w, k, w.workers[k], ok)
      else if ok then BuildStep(w, k, w.workers[k], pick)
      else Stop(w, k)
    case Abort(k) => Stop(w, k)
  }

  function Run(w: World, steps: seq<Step>): (r: World)
    decreases |steps|
  {
    if steps == [] then w else Run(Apply(w, steps[0]), steps[1..])
  }

  // ---------------------------------------------------------------- invariant

  ghost predicate Identities(s: Store) {
    && (forall k | k in s.servers :: s.servers[k].key == k && s.servers[k].uid < s.nextId)
    && (forall j, k | j in s.servers && k in s.servers && j != k :: s.servers[j].uid != s.servers[k].uid)
  }

  /** A claim is only ever owned by incarnations of the server it is named after. */
  ghost predicate PvcOwnership(s: Store) {
    forall p, u | p in s.pvcs && u in s.pvcs[p].owners ::
      u < s.nextId && forall j | j in s.servers && s.servers[j].uid == u :: PvcKey(j) == p
  }

  ghost predicate Labelled(s: Store) {
    forall p | p in s.pvcs && DataKey(p) :: HasName(s.pvcs[p].labels, DataOwner(p))
  }

  /** While a worker is busy, the very object it loaded is stored and carries the finalizer. */
  ghost predicate Anchored(s: Store, k: Key, b: Worker) {
    && k in s.servers && s.servers[k].uid == b.gs.uid && FINALIZER in s.servers[k].finalizers
    && b.gs.key == k && FINALIZER in b.gs.finalizers
  }

  ghost predicate WorkerInv(s: Store, k: Key, b: Worker) {
    && Anchored(s, k, b)
    && (b.Building? ==> !b.gs.deleting)
    && (b.Building? && b.stage.Deleting? ==> forall p | p in b.stage.todo :: !DataKey(p))
    && (b.Finalizing? ==> b.gs.deleting && s.servers[k].deleting)
  }

  ghost predicate StoreInv(s: Store) {
    Identities(s) && PvcOwnership(s) && Labelled(s)
  }

  ghost predicate Inv(w: World) {
    StoreInv(w.store) && forall k | k in w.workers :: WorkerInv(w.store, k, w.workers[k])
  }

  // ---------------------------------------------------------------- every step keeps it

  /** Servers only disappear or change in place; claims only disappear or lose owners. */
  ghost predicate Shrinks(s: Store, s': Store) {
    && s'.nextId == s.nextId
    && (forall k | k in s'.servers :: k in s.servers && s'.servers[k].key == s.servers[k].key && s'.servers[k].uid == s.servers[k].uid)
    && (forall p | p in s'.pvcs :: p in s.pvcs && s'.pvcs[p].labels == s.pvcs[p].labels
                                   && forall u | u in s'.pvcs[p].owners :: u in s.pvcs[p].owners)
  }

  lemma ShrinkKeepsStore(s: Store, s': Store)
    requires StoreInv(s) && Shrinks(s, s')
    ensures StoreInv(s')
  {
  }

  /** The objects that busy workers rely on are still there. */
  ghost predicate KeepsAnchors(s: Store, s': Store) {
    forall k | k in s.servers && FINALIZER in s.servers[k].finalizers ::
      && k in s'.servers && s'.servers[k].uid == s.servers[k].uid
      && FINALIZER in s'.servers[k].finalizers
      && (s.servers[k].deleting ==> s'.servers[k].deleting)
  }

  lemma AnchorsKeepInv(w: World, s': Store)
    requires Inv(w) && StoreInv(s') && KeepsAnchors(w.store, s')
    ensures Inv(w.(store := s'))
  {
  }

  lemma CreatedKeepsStore(s: Store, k: Key, spec: Spec, finalizers: set<string>)
    requires StoreInv(s) && k !in s.servers
    ensures Identities(Created(s, k, spec, finalizers))
    ensures PvcOwnership(Created(s, k, spec, finalizers))
  {
  }

  lemma CreatedKeeps(s: Store, k: Key, spec: Spec, finalizers: set<string>)
    requires StoreInv(s)
    ensures StoreInv(Created(s, k, spec, finalizers)) && KeepsAnchors(s, Created(s, k, spec, finalizers))
  {
    if k !in s.servers {
      CreatedKeepsStore(s, k, spec, finalizers);
    }
  }

  lemma GoneShrinks(s: Store, k: Key)
    ensures Shrinks(s, s.(servers := s.servers - {k}))
    ensures k in s.servers && FINALIZER !in s.servers[k].finalizers ==> KeepsAnchors(s, s.(servers := s.servers - {k}))
  {
  }

  lemma RewriteShrinks(s: Store, k: Key, gs: GameServer)
    requires k in s.servers && gs.key == s.servers[k].key && gs.uid == s.servers[k].uid
    ensures Shrinks(s, s.(servers := s.servers[k := gs]))
    ensures (FINALIZER in s.servers[k].finalizers ==> FINALIZER in gs.finalizers) && (s.servers[k].deleting ==> gs.deleting) ==>
              KeepsAnchors(s, s.(servers := s.servers[k := gs]))
  {
  }

  lemma DeleteKeeps(s: Store, k: Key)
    requires StoreInv(s)
    ensures StoreInv(DeleteRequested(s, k)) && KeepsAnchors(s, DeleteRequested(s, k))
  {
    if k in s.servers {
      GoneShrinks(s, k);
      RewriteShrinks(s, k, s.servers[k].(deleting := true));
      ShrinkKeepsStore(s, DeleteRequested(s, k));
    }
  }

  lemma EditKeeps(s: Store, k: Key, spec: Spec, status: Status, finalizers: set<string>)
    requires StoreInv(s)
    ensures StoreInv(Edited(s, k, spec, status, finalizers)) && KeepsAnchors(s, Edited(s, k, spec, status, finalizers))
  {
    if k in s.servers && Edited(s, k, spec, status, finalizers) != s {
      GoneShrinks(s, k);
      RewriteShrinks(s, k, s.servers[k].(spec := spec, status := status, finalizers := finalizers));
      ShrinkKeepsStore(s, Edited(s, k, spec, status, finalizers));
    }
  }

  lemma StrayKeeps(s: Store, p: Key, labels: Labels)
    requires StoreInv(s)
    ensures StoreInv(StrayCreated(s, p, labels)) && KeepsAnchors(s, StrayCreated(s, p, labels))
  {
  }

  lemma CollectKeeps(s: Store, kind: Kind, c: Key)
    requires StoreInv(s)
    ensures StoreInv(Collected(s, kind, c)) && KeepsAnchors(s, Collected(s, kind, c))
  {
  }

  lemma BeginKeepsInv(w: World, k: Key, spec: Spec)
    requires Inv(w)
    ensures Inv(Begun(w, k, spec))
  {
    var w' := Begun(w, k, spec);
    if w'.store != w.store {
      ShrinkKeepsStore(w.store, w'.store);
      AnchorsKeepInv(w, w'.store);
    }
  }

  lemma StopKeepsInv(w: World, k: Key)
    requires Inv(w)
    ensures Inv(Stop(w, k))
  {
  }

  /** A worker's own step: the store stays good, its anchor stays, and so do all others. */
  lemma AtKeepsInv(w: World, k: Key, s': Store, next: Worker)
    requires Inv(w) && StoreInv(s') && KeepsAnchors(w.store, s') && WorkerInv(s', k, next)
    ensures Inv(At(w, k, s', next))
  {
  }

  lemma ExtrasAreStray(s: Store, k: Key, p: Key)
    requires Labelled(s) && p in Extras(s.pvcs, k)
    ensures !DataKey(p)
  {
  }

  lemma PvcStepKeepsStore(s: Store, k: Key, spec: Spec)
    requires StoreInv(s) && k in s.servers
    ensures StoreInv(PvcStep(s, k, s.servers[k].uid, spec))
  {
  }

  lemma BuildStoreServers(s: Store, k: Key, b: Worker, pick: Key)
    requires b.Building?
    ensures BuildStore(s, k, b, pick).servers == s.servers
  {
  }

  lemma BuildStoreKeeps(s: Store, k: Key, b: Worker, pick: Key)
    requires StoreInv(s) && WorkerInv(s, k, b) && b.Building?
    ensures StoreInv(BuildStore(s, k, b, pick))
  {
    match b.stage {
      case Deleting(todo) => ShrinkKeepsStore(s, DropPvcs(s, {pick}));
      case AtPvc => PvcStepKeepsStore(s, k, b.spec);
      case _ =>
    }
  }

  lemma NextStageSpares(s: Store, k: Key, b: Worker, pick: Key)
    requires StoreInv(s) && WorkerInv(s, k, b) && b.Building?
    ensures var next := NextStage(s, k, b.stage, pick);
            next.Some? && next.value.Deleting? ==> forall p | p in next.value.todo :: !DataKey(p)
  {
    if b.stage.AtExtras? {
      forall p | p in Extras(s.pvcs, k) ensures !DataKey(p) {
        ExtrasAreStray(s, k, p);
      }
    }
  }

  lemma BuildStepKeepsInv(w: World, k: Key, pick: Key)
    requires Inv(w) && k in w.workers && w.workers[k].Building?
    ensures Inv(BuildStep(w, k, w.workers[k], pick))
  {
    var s, b := w.store, w.workers[k];
    assert WorkerInv(s, k, b);
    var s', next := BuildStore(s, k, b, pick), NextStage(s, k, b.stage, pick);
    BuildStoreKeeps(s, k, b, pick);
    BuildStoreServers(s, k, b, pick);
    NextStageSpares(s, k, b, pick);
    if next.Some? {
      AtKeepsInv(w, k, s', b.(stage := next.value));
    } else {
      AnchorsKeepInv(w, s');
      StopKeepsInv(w.(store := s'), k);
    }
  }

  /** Only the anchor of the finalized key is given up, together with its worker. */
  lemma RemoveKeepsInv(w: World, k: Key)
    requires Inv(w)
    ensures Inv(Stop(w.(store := FinalizerRemoved(w.store, k)), k))
  {
    var s, s' := w.store, FinalizerRemoved(w.store, k);
    GoneShrinks(s, k);
    if k in s.servers {
      RewriteShrinks(s, k, s.servers[k].(finalizers := s.servers[k].finalizers - {FINALIZER}));
      ShrinkKeepsStore(s, s');
    }
    forall j | j in w.workers && j != k ensures WorkerInv(s', j, w.workers[j]) {
      OthersUntouched(s, k, j, w.workers[j]);
    }
  }

  lemma OthersUntouched(s: Store, k: Key, j: Key, b: Worker)
    requires WorkerInv(s, j, b) && j != k
    ensures WorkerInv(FinalizerRemoved(s, k), j, b)
  {
  }

  lemma FinalStepKeepsInv(w: World, k: Key, ok: bool)
    requires Inv(w) && k in w.workers && w.workers[k].Finalizing?
    ensures Inv(FinalStep(w, k, w.workers[k], ok))
  {
    var s, f := w.store, w.workers[k];
    assert WorkerInv(s, k, f);
    StopKeepsInv(w, k);
    match f.final {
      case AtRelease => AtKeepsInv(w, k, s, f.(final := AtDetach));
      case AtDetach =>
        var s' := Detached(s, k, f.gs.uid);
        ShrinkKeepsStore(s, s');
        AtKeepsInv(w, k, s', f.(final := AtRemove));
        AtKeepsInv(w, k, s, f.(final := AtRemove));
      case AtRemove => RemoveKeepsInv(w, k);
    }
  }

  lemma AdvanceKeepsInv(w: World, k: Key, ok: bool, pick: Key)
    requires Inv(w)
    ensures Inv(Apply(w, Advance(k, ok, pick)))
  {
    StopKeepsInv(w, k);
    if k in w.workers {
      if w.workers[k].Finalizing? {
        FinalStepKeepsInv(w, k, ok);
      } else {
        BuildStepKeepsInv(w, k, pick);
      }
    }
  }

  lemma StepKeepsInv(w: World, step: Step)
    requires Inv(w)
    ensures Inv(Apply(w, step))
  {
    var s := w.store;
    match step {
      case UserCreate(k, spec, finalizers) =>
        CreatedKeeps(s, k, spec, finalizers);
        AnchorsKeepInv(w, Created(s, k, spec, finalizers));
      case UserDelete(k) =>
        DeleteKeeps(s, k);
        AnchorsKeepInv(w, DeleteRequested(s, k));
      case UserEdit(k, spec, status, finalizers) =>
        EditKeeps(s, k, spec, status, finalizers);
        AnchorsKeepInv(w, Edited(s, k, spec, status, finalizers));
      case StrayPvc(p, labels) =>
        StrayKeeps(s, p, labels);
        AnchorsKeepInv(w, StrayCreated(s, p, labels));
      case Collect(kind, c) =>
        CollectKeeps(s, kind, c);
        AnchorsKeepInv(w, Collected(s, kind, c));
      case Begin(k, spec) => BeginKeepsInv(w, k, spec);
      case Advance(k, ok, pick) => AdvanceKeepsInv(w, k, ok, pick);
      case Abort(k) => StopKeepsInv(w, k);
    }
  }

  /** The last step of a finalizing pass. */
  predicate Removes(w: World, step: Step) {
    && step.Advance? && step.ok && step.key in w.workers
    && w.workers[step.key].Finalizing? && w.workers[step.key].final.AtRemove?
  }

  lemma WorkerStepKeepsAnchors(w: World, k: Key, ok: bool, pick: Key)
    requires !Removes(w, Advance(k, ok, pick))
    ensures KeepsAnchors(w.store, Apply(w, Advance(k, ok, pick)).store)
  {
    if k in w.workers {
      if w.workers[k].Building? {
        BuildKeepsServers(w, k, pick);
      } else {
        FinalKeepsServers(w, k, ok);
      }
    }
  }

  lemma BuildKeepsServers(w: World, k: Key, pick: Key)
    requires k in w.workers && w.workers[k].Building?
    ensures BuildStep(w, k, w.workers[k], pick).store.servers == w.store.servers
  {
    BuildStoreServers(w.store, k, w.workers[k], pick);
  }

  lemma FinalKeepsServers(w: World, k: Key, ok: bool)
    requires k in w.workers && w.workers[k].Finalizing? && !(ok && w.workers[k].final.AtRemove?)
    ensures FinalStep(w, k, w.workers[k], ok).store.servers == w.store.servers
  {
  }

  lemma BeginKeepsAnchors(w: World, k: Key, spec: Spec)
    ensures KeepsAnchors(w.store, Begun(w, k, spec).store)
  {
  }

  /** No other step takes a guarded object away. */
  lemma StepKeepsAnchors(w: World, step: Step)
    requires Inv(w) && !Removes(w, step)
    ensures KeepsAnchors(w.store, Apply(w, step).store)
  {
    var s := w.store;
    match step {
      case UserCreate(k, spec, finalizers) => CreatedKeeps(s, k, spec, finalizers);
      case UserDelete(k) => DeleteKeeps(s, k);
      case UserEdit(k, spec, status, finalizers) => EditKeeps(s, k, spec, status, finalizers);
      case StrayPvc(p, labels) => StrayKeeps(s, p, labels);
      case Collect(kind, c) => CollectKeeps(s, kind, c);
      case Begin(k, spec) => BeginKeepsAnchors(w, k, spec);
      case Advance(k, ok, pick) => WorkerStepKeepsAnchors(w, k, ok, pick);
      case Abort(k) =>
    }
  }

  lemma {:induction false} RunKeepsInv(w: World, steps: seq<Step>)
    requires Inv(w)
    ensures Inv(Run(w, steps))
    decreases |steps|
  {
    if steps != [] {
      StepKeepsInv(w, steps[0]);
      RunKeepsInv(Apply(w, steps[0]), steps[1..]);
    }
  }
}
