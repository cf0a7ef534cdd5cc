/** The API store and controllers/gameserver_resources.go: bringing four children to what is rendered. */
module Cluster {
  import opened Core
  import opened Api
  import opened Renderer

  /** The stored objects. `nextId` numbers UIDs and volumes, which are never reused. */
  datatype Store = Store(
    servers: map<Key, GameServer>,
    secrets: map<Key, Secret>,
    pvcs: map<Key, Pvc>,
    services: map<Key, Service>,
    workloads: map<Key, StatefulSet>,
    nextId: nat)

  /** What a reconcile function decides to write. */
  datatype Action<+T> = Nothing | Create(obj: T) | Update(obj: T)

  function Get<T>(m: map<Key, T>, k: Key): (r: Option<T>) {
    if k in m then Some(m[k]) else None
  }

  function Perform<T>(m: map<Key, T>, k: Key, a: Action<T>): (r: map<Key, T>) {
    if a.Nothing? then m else m[k := a.obj]
  }

  /** Data decides; labels only travel with data. */
  function SecretAction(existing: Option<Secret>, owner: nat, desired: Secret): (a: Action<Secret>)
    ensures a.Create? <==> existing.None?
    ensures a.Create? ==> a.obj.owners == [owner]
    ensures a.Update? ==> a.obj.owners == existing.value.owners
  {
    match existing
    case None => Create(desired.(owners := [owner]))
    case Some(e) => if e.data != desired.data then Update(e.(data := desired.data, labels := desired.labels)) else Nothing
  }

  /** Only labels are synced: an existing claim keeps its owners and its volume. */
  function PvcAction(existing: Option<Pvc>, owner: nat, desired: Pvc): (a: Action<Pvc>)
    ensures a.Create? <==> existing.None?
    ensures a.Create? ==> a.obj.owners == [owner] && a.obj.labels == desired.labels && a.obj.volume == desired.volume
    ensures a.Update? <==> existing.Some? && existing.value.labels != desired.labels
    ensures a.Update? ==> a.obj == existing.value.(labels := desired.labels)
  {
    match existing
    case None => Create(desired.(owners := [owner]))
    case Some(e) => if e.labels != desired.labels then Update(e.(labels := desired.labels)) else Nothing
  }

  /** Ports and selector; the type of an existing Service is never changed. */
  function ServiceAction(existing: Option<Service>, owner: nat, desired: Option<Service>): (a: Action<Service>)
    ensures a.Create? <==> desired.Some? && existing.None?
    ensures a.Create? ==> a.obj.owners == [owner]
    ensures a.Update? <==> && desired.Some? && existing.Some?
                           && (existing.value.ports, existing.value.selector) != (desired.value.ports, desired.value.selector)
    ensures a.Update? ==> a.obj.owners == existing.value.owners && a.obj.serviceType == existing.value.serviceType
    ensures !a.Nothing? ==> a.obj.ports == desired.value.ports && a.obj.selector == desired.value.selector
  {
    if desired.None? then Nothing
    else match existing
         case None => Create(desired.value.(owners := [owner]))
         case Some(e) =>
           if e.ports != desired.value.ports || e.selector != desired.value.selector then
             Update(e.(ports := desired.value.ports, selector := desired.value.selector, labels := desired.value.labels))
           else Nothing
  }

  function WorkloadAction(existing: Option<StatefulSet>, owner: nat, desired: StatefulSet): (a: Action<StatefulSet>)
    ensures a.Create? <==> existing.None?
    ensures a.Create? ==> a.obj.owners == [owner]
    ensures a.Update? ==> a.obj.owners == existing.value.owners
  {
    match existing
    case None => Create(desired.(owners := [owner]))
    case Some(e) =>
      if e.replicas != desired.replicas || e.template != desired.template then
        Update(e.(replicas := desired.replicas, template := desired.template, labels := desired.labels))
      else Nothing
  }

  /** The claims of the namespace that carry the server's name label but not the server's claim name. */
  function Extras(pvcs: map<Key, Pvc>, k: Key): (e: set<Key>)
    ensures e <= pvcs.Keys
  {
    set p | p in pvcs && p.namespace == k.namespace && p != PvcKey(k) && HasName(pvcs[p].labels, k.name)
  }

  predicate HasName(labels: Labels, name: string) {
    NAME_LABEL in labels && labels[NAME_LABEL] == name
  }

  // ---------------------------------------------------------------- the four steps, on the store

  function SecretStep(s: Store, k: Key, owner: nat, spec: Spec): (r: Store) {
    s.(secrets := Perform(s.secrets, SecretKey(k), SecretAction(Get(s.secrets, SecretKey(k)), owner, RenderSecret(k, spec))))
  }

  function DropPvcs(s: Store, drop: set<Key>): (r: Store) {
    s.(pvcs := s.pvcs - drop)
  }

  /** The store once every extra claim is gone. */
  function Cleaned(s: Store, k: Key): (r: Store) {
    DropPvcs(s, Extras(s.pvcs, k))
  }

  function PvcStep(s: Store, k: Key, owner: nat, spec: Spec): (r: Store) {
    var a := PvcAction(Get(s.pvcs, PvcKey(k)), owner, RenderPvc(k, spec, s.nextId));
    s.(pvcs := Perform(s.pvcs, PvcKey(k), a), nextId := if a.Create? then s.nextId + 1 else s.nextId)
  }

  function ServiceStep(s: Store, k: Key, owner: nat, spec: Spec): (r: Store) {
    s.(services := Perform(s.services, k, ServiceAction(Get(s.services, k), owner, RenderService(k, spec))))
  }

  function WorkloadStep(s: Store, k: Key, owner: nat, spec: Spec): (r: Store) {
    s.(workloads := Perform(s.workloads, k, WorkloadAction(Get(s.workloads, k), owner, RenderStatefulSet(k, spec))))
  }

  /** A pass over the children in which every call succeeds. */
  function Reconciled(s: Store, k: Key, owner: nat, spec: Spec): (r: Store) {
    var s1 := SecretStep(s, k, owner, spec);
    var s2 := PvcStep(Cleaned(s1, k), k, owner, spec);
    WorkloadStep(ServiceStep(s2, k, owner, spec), k, owner, spec)
  }

  // ---------------------------------------------------------------- passes in which a call fails

  datatype Kind = SecretKind | PvcKind | ServiceKind | WorkloadKind

  /** The API calls of a pass over the children. */
  datatype Call = GetChild(kind: Kind) | WriteChild(kind: Kind) | ListPvcs | DeletePvc(key: Key)

  /** A child is read, and written only if the write would change it. */
  ghost predicate ChildFails(s: Store, s': Store, kind: Kind, fails: Call -> bool) {
    fails(GetChild(kind)) || (s' != s && fails(WriteChild(kind)))
  }

  ghost predicate SecretFails(s: Store, k: Key, owner: nat, spec: Spec, fails: Call -> bool) {
    ChildFails(s, SecretStep(s, k, owner, spec), SecretKind, fails)
  }

  ghost predicate DropFails(s: Store, k: Key, fails: Call -> bool) {
    fails(ListPvcs) || exists p :: p in Extras(s.pvcs, k) && fails(DeletePvc(p))
  }

  ghost predicate PvcFails(s: Store, k: Key, owner: nat, spec: Spec, fails: Call -> bool) {
    DropFails(s, k, fails) || ChildFails(Cleaned(s, k), PvcStep(Cleaned(s, k), k, owner, spec), PvcKind, fails)
  }

  ghost predicate ServiceFails(s: Store, k: Key, owner: nat, spec: Spec, fails: Call -> bool) {
    |spec.network.ports| > 0 && ChildFails(s, ServiceStep(s, k, owner, spec), ServiceKind, fails)
  }

  ghost predicate WorkloadFails(s: Store, k: Key, owner: nat, spec: Spec, fails: Call -> bool) {
    ChildFails(s, WorkloadStep(s, k, owner, spec), WorkloadKind, fails)
  }

  /** The extra claims d were deleted before a call failed: none if the list failed, all of them if
      every delete succeeds. */
  ghost predicate DroppedSome(s0: Store, s: Store, k: Key, fails: Call -> bool, d: set<Key>) {
    && s == DropPvcs(s0, d) && d <= Extras(s0.pvcs, k)
    && (forall p | p in d :: !fails(DeletePvc(p)))
    && (fails(ListPvcs) ==> d == {})
    && (!DropFails(s0, k, fails) ==> d == Extras(s0.pvcs, k))
  }

  ghost predicate PartlyDropped(s0: Store, s: Store, k: Key, fails: Call -> bool) {
    exists d :: DroppedSome(s0, s, k, fails, d)
  }

  datatype Progress = Progress(afterSecret: Store, afterPvc: Store, afterService: Store)

  function ProgressOf(s: Store, k: Key, owner: nat, spec: Spec): (g: Progress) {
    var s1 := SecretStep(s, k, owner, spec);
    var s2 := PvcStep(Cleaned(s1, k), k, owner, spec);
    Progress(s1, s2, ServiceStep(s2, k, owner, spec))
  }

  /** The stage that ends a pass over the children, if a call fails. */
  ghost function FailingStage(s: Store, k: Key, owner: nat, spec: Spec, fails: Call -> bool): (r: Option<Kind>) {
    var g := ProgressOf(s, k, owner, spec);
    if SecretFails(s, k, owner, spec, fails) then Some(SecretKind)
    else if PvcFails(g.afterSecret, k, owner, spec, fails) then Some(PvcKind)
    else if ServiceFails(g.afterPvc, k, owner, spec, fails) then Some(ServiceKind)
    else if WorkloadFails(g.afterService, k, owner, spec, fails) then Some(WorkloadKind)
    else None
  }

  /** The store that a pass leaves when it ends at a stage: the stages before it are complete. */
  ghost predicate PartlyReconciled(s0: Store, s: Store, k: Key, owner: nat, spec: Spec, fails: Call -> bool, stage: Kind) {
    var g := ProgressOf(s0, k, owner, spec);
    match stage
    case SecretKind => s == s0
    case PvcKind => PartlyDropped(g.afterSecret, s, k, fails)
    case ServiceKind => s == g.afterPvc
    case WorkloadKind => s == g.afterService
  }

  function StageText(kind: Kind): (s: string)
    ensures s != ""
  {
    match kind
    case SecretKind => "secret: "
    case PvcKind => "pvc: "
    case ServiceKind => "service: "
    case WorkloadKind => "statefulset: "
  }

  // ---------------------------------------------------------------- the methods

  /** The API server; `fails` says which calls of a pass return an error. */
  class ApiServer {
    var store: Store

    constructor ()
      ensures store == Store(map[], map[], map[], map[], map[], 0)
    {
      store := Store(map[], map[], map[], map[], map[], 0);
    }

    method ReconcileSecret(k: Key, owner: nat, spec: Spec, fails: Call -> bool) returns (r: Result<()>)
      modifies this
      ensures r.Ok? ==> store == SecretStep(old(store), k, owner, spec)
      ensures r.Err? ==> store == old(store)
      ensures r.Err? <==> SecretFails(old(store), k, owner, spec, fails)
    {
      var desired := RenderSecret(k, spec).(owners := [owner]);
      if fails(GetChild(SecretKind)) {
        return Err("get secret");
      }
      var name := SecretKey(k);
      if name !in store.secrets {
        if fails(WriteChild(SecretKind)) {
          return Err("create secret");
        }
        store := store.(secrets := store.secrets[name := desired]);
        return Ok(());
      }
      var existing := store.secrets[name];
      if existing.data != desired.data {
        if fails(WriteChild(SecretKind)) {
          return Err("update secret");
        }
        var updated := existing.(data := desired.data, labels := desired.labels);
        store := store.(secrets := store.secrets[name := updated]);
      }
      return Ok(());
    }

    /** Deletes one listed claim after another; an error stops it half way. */
    method DeleteExtraPvcs(k: Key, fails: Call -> bool) returns (r: Result<()>)
      modifies this
      ensures r.Ok? ==> store == Cleaned(old(store), k)
      ensures r.Err? ==> PartlyDropped(old(store), store, k, fails)
      ensures r.Err? <==> DropFails(old(store), k, fails)
    {
      if fails(ListPvcs) {
        assert store.pvcs - {} == store.pvcs;
        assert DroppedSome(old(store), store, k, fails, {});
        return Err("list claims");
      }
      var items := Extras(store.pvcs, k);
      ghost var all := items;
      ghost var gone: set<Key> := {};
      assert store.pvcs - {} == store.pvcs;
      while items != {}
        invariant items <= all && gone == all - items
        invariant store == DropPvcs(old(store), gone)
        invariant forall p | p in gone :: !fails(DeletePvc(p))
        decreases items
      {
        var p :| p in items;
        if fails(DeletePvc(p)) {
          assert DroppedSome(old(store), store, k, fails, gone);
          return Err("delete claim");
        }
        assert store.pvcs - {p} == old(store.pvcs) - (gone + {p});
        store := store.(pvcs := store.pvcs - {p});
        items := items - {p};
        gone := gone + {p};
      }
      return Ok(());
    }

    method ReconcilePvc(k: Key, owner: nat, spec: Spec, fails: Call -> bool) returns (r: Result<()>)
      modifies this
      ensures r.Ok? ==> store == PvcStep(Cleaned(old(store), k), k, owner, spec)
      ensures r.Err? ==> PartlyDropped(old(store), store, k, fails)
      ensures r.Err? <==> PvcFails(old(store), k, owner, spec, fails)
    {
      var desired := RenderPvc(k, spec, store.nextId).(owners := [owner]);
      var dropped := DeleteExtraPvcs(k, fails);
      if dropped.Err? {
        return dropped;
      }
      assert DroppedSome(old(store), store, k, fails, Extras(old(store.pvcs), k));
      if fails(GetChild(PvcKind)) {
        return Err("get claim");
      }
      var name := PvcKey(k);
      if name !in store.pvcs {
        if fails(WriteChild(PvcKind)) {
          return Err("create claim");
        }
        store := store.(pvcs := store.pvcs[name := desired], nextId := store.nextId + 1);
        return Ok(());
      }
      var existing := store.pvcs[name];
      if existing.labels != desired.labels {
        if fails(WriteChild(PvcKind)) {
          return Err("update claim");
        }
        store := store.(pvcs := store.pvcs[name := existing.(labels := desired.labels)]);
      }
      return Ok(());
    }

    method ReconcileService(k: Key, owner: nat, spec: Spec, fails: Call -> bool) returns (r: Result<()>)
      modifies this
      ensures r.Ok? ==> store == ServiceStep(old(store), k, owner, spec)
      ensures r.Err? ==> store == old(store)
      ensures r.Err? <==> ServiceFails(old(store), k, owner, spec, fails)
    {
      var rendered := RenderService(k, spec);
      if rendered.None? {
        return Ok(());
      }
      var desired := rendered.value.(owners := [owner]);
      if fails(GetChild(ServiceKind)) {
        return Err("get service");
      }
      if k !in store.services {
        if fails(WriteChild(ServiceKind)) {
          return Err("create service");
        }
        store := store.(services := store.services[k := desired]);
        return Ok(());
      }
      var existing := store.services[k];
      var updated := existing.(ports := desired.ports, selector := desired.selector, labels := desired.labels);
      if existing.ports != updated.ports || existing.selector != updated.selector {
        if fails(WriteChild(ServiceKind)) {
          return Err("update service");
        }
        store := store.(services := store.services[k := updated]);
      }
      return Ok(());
    }

    method ReconcileStatefulSet(k: Key, owner: nat, spec: Spec, fails: Call -> bool) returns (r: Result<()>)
      modifies this
      ensures r.Ok? ==> store == WorkloadStep(old(store), k, owner, spec)
      ensures r.Err? ==> store == old(store)
      ensures r.Err? <==> WorkloadFails(old(store), k, owner, spec, fails)
    {
      var desired := RenderStatefulSet(k, spec).(owners := [owner]);
      if fails(GetChild(WorkloadKind)) {
        return Err("get statefulset");
      }
      if k !in store.workloads {
        if fails(WriteChild(WorkloadKind)) {
          return Err("create statefulset");
        }
        store := store.(workloads := store.workloads[k := desired]);
        return Ok(());
      }
      var existing := store.workloads[k];
      var updated := existing.(replicas := desired.replicas, template := desired.template, labels := desired.labels);
      if existing.replicas != updated.replicas || existing.template != updated.template {
        if fails(WriteChild(WorkloadKind)) {
          return Err("update statefulset");
        }
        store := store.(workloads := store.workloads[k := updated]);
      }
      return Ok(());
    }

    /** All four children, in dependency order; the first error ends the pass. */
    method ReconcileResources(k: Key, owner: nat, spec: Spec, fails: Call -> bool) returns (r: Result<()>)
      modifies this
      ensures r.Ok? <==> FailingStage(old(store), k, owner, spec, fails).None?
      ensures r.Ok? ==> store == Reconciled(old(store), k, owner, spec)
      ensures r.Err? ==>
                var stage := FailingStage(old(store), k, owner, spec, fails).value;
                StageText(stage) <= r.message && PartlyReconciled(old(store), store, k, owner, spec, fails, stage)
      ensures store.servers == old(store.servers)
    {
      var r1 := ReconcileSecret(k, owner, spec, fails);
      if r1.Err? {
        return Err("secret: " + r1.message);
      }
      var r2 := ReconcilePvc(k, owner, spec, fails);
      if r2.Err? {
        return Err("pvc: " + r2.message);
      }
      var r3 := ReconcileService(k, owner, spec, fails);
      if r3.Err? {
        return Err("service: " + r3.message);
      }
      var r4 := ReconcileStatefulSet(k, owner, spec, fails);
      if r4.Err? {
        return Err("statefulset: " + r4.message);
      }
      return Ok(());
    }
  }
}
