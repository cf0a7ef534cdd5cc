/** What a completed pass leaves when other steps come in between its own. */
module Interleaving {
  import opened Api
  import opened Renderer
  import opened Cluster
  import opened Finalize
  import opened Lifecycle
  import opened LifecycleTheorems
  import opened Reconcile

  // ---------------------------------------------------------------- owners of children

  /** Secrets and Services are only ever owned by incarnations of the server they are named after. */
  ghost predicate SecretOwnership(s: Store) {
    forall c, u | c in s.secrets && u in s.secrets[c].owners ::
      u < s.nextId && forall j | j in s.servers && s.servers[j].uid == u :: SecretKey(j) == c
  }

  ghost predicate ServiceOwnership(s: Store) {
    forall c, u | c in s.services && u in s.services[c].owners ::
      u < s.nextId && forall j | j in s.servers && s.servers[j].uid == u :: j == c
  }

  /** Both hold again when no UID comes back and these children lose owners at most. */
  lemma OlderKeepsOwnership(s: Store, s': Store)
    requires Older(s, s')
    ensures SecretOwnership(s) && (forall c | c in s'.secrets :: c in s.secrets && s'.secrets[c] == s.secrets[c]) ==> SecretOwnership(s')
    ensures ServiceOwnership(s) && (forall c | c in s'.services :: c in s.services && s'.services[c] == s.services[c]) ==>
              ServiceOwnership(s')
  {
  }

  lemma SecretStepKeepsOwnership(s: Store, k: Key, spec: Spec)
    requires Identities(s) && SecretOwnership(s) && k in s.servers
    ensures SecretOwnership(SecretStep(s, k, s.servers[k].uid, spec))
  {
  }

  lemma ServiceStepKeepsOwnership(s: Store, k: Key, spec: Spec)
    requires Identities(s) && ServiceOwnership(s) && k in s.servers
    ensures ServiceOwnership(ServiceStep(s, k, s.servers[k].uid, spec))
  {
  }

  lemma BuildStoreSecrets(s: Store, k: Key, b: Worker, pick: Key)
    requires b.Building?
    ensures !b.stage.AtSecret? ==> BuildStore(s, k, b, pick).secrets == s.secrets
  {
  }

  lemma BuildKeepsSecretOwnership(s: Store, k: Key, b: Worker, pick: Key)
    requires StoreInv(s) && WorkerInv(s, k, b) && b.Building? && SecretOwnership(s)
    ensures SecretOwnership(BuildStore(s, k, b, pick))
  {
    if b.stage.AtSecret? {
      SecretStepKeepsOwnership(s, k, b.spec);
    } else {
      BuildStoreSecrets(s, k, b, pick);
      BuildStoreIds(s, k, b, pick);
      BuildStoreServers(s, k, b, pick);
    }
  }

  lemma BuildKeepsServiceOwnership(s: Store, k: Key, b: Worker, pick: Key)
    requires StoreInv(s) && WorkerInv(s, k, b) && b.Building? && ServiceOwnership(s)
    ensures ServiceOwnership(BuildStore(s, k, b, pick))
  {
    if b.stage.AtService? {
      ServiceStepKeepsOwnership(s, k, b.spec);
    } else {
      BuildStoreServices(s, k, b, pick);
      BuildStoreIds(s, k, b, pick);
      BuildStoreServers(s, k, b, pick);
    }
  }

  ghost predicate Owned(w: World) {
    Inv(w) && SecretOwnership(w.store) && ServiceOwnership(w.store)
  }

  lemma CollectedIsOlder(s: Store, kind: Kind, c: Key)
    ensures Older(s, Collected(s, kind, c))
    ensures forall d | d in Collected(s, kind, c).secrets :: d in s.secrets && Collected(s, kind, c).secrets[d] == s.secrets[d]
    ensures forall d | d in Collected(s, kind, c).services :: d in s.services && Collected(s, kind, c).services[d] == s.services[d]
  {
  }

  lemma FinalKeepsSecretsAndServices(w: World, k: Key, ok: bool)
    requires k in w.workers && w.workers[k].Finalizing?
    ensures var s' := FinalStep(w, k, w.workers[k], ok).store; s'.secrets == w.store.secrets && s'.services == w.store.services
  {
    FinalWrites(w, k, ok, k);
  }

  lemma UserStepKeepsSecrets(w: World, step: Step)
    requires !step.Advance? && !step.Collect?
    ensures Apply(w, step).store.secrets == w.store.secrets
  {
    if !step.StrayPvc? {
      SameChildren(w, step);
    }
  }

  lemma AdvanceKeepsOwned(w: World, k: Key, ok: bool, pick: Key)
    requires Owned(w) && k in w.workers
    ensures SecretOwnership(Apply(w, Advance(k, ok, pick)).store) && ServiceOwnership(Apply(w, Advance(k, ok, pick)).store)
  {
    assert WorkerInv(w.store, k, w.workers[k]);
    if w.workers[k].Finalizing? {
      FinalIsOlder(w, k, ok);
      FinalKeepsSecretsAndServices(w, k, ok);
      OlderKeepsOwnership(w.store, FinalStep(w, k, w.workers[k], ok).store);
    } else if ok {
      BuildStepParts(w, k, pick);
      BuildKeepsSecretOwnership(w.store, k, w.workers[k], pick);
      BuildKeepsServiceOwnership(w.store, k, w.workers[k], pick);
    }
  }

  lemma StepKeepsOwned(w: World, step: Step)
    requires Owned(w)
    ensures Owned(Apply(w, step))
  {
    StepKeepsInv(w, step);
    if step.Advance? {
      if step.key in w.workers {
        AdvanceKeepsOwned(w, step.key, step.ok, step.pick);
      }
    } else {
      if step.Collect? {
        CollectedIsOlder(w.store, step.kind, step.key);
      } else {
        UserStepIsOlder(w, step);
        UserStepKeepsServices(w, step);
        UserStepKeepsSecrets(w, step);
      }
      OlderKeepsOwnership(w.store, Apply(w, step).store);
    }
  }

  lemma {:induction false} RunKeepsOwned(w: World, steps: seq<Step>)
    requires Owned(w)
    ensures Owned(Run(w, steps))
    decreases |steps|
  {
    if steps != [] {
      StepKeepsOwned(w, steps[0]);
      RunKeepsOwned(Apply(w, steps[0]), steps[1..]);
    }
  }

  // ---------------------------------------------------------------- steps of others

  /** The collector cannot take a child that this living object owns, or that has no owner. */
  predicate Held(owners: seq<nat>, uid: nat) {
    owners == [] || uid in owners
  }

  /** The children that the later steps of a pass rely on. */
  ghost predicate ChildrenHeld(s: Store, k: Key, uid: nat, spec: Spec) {
    && (SecretKey(k) in s.secrets ==> Held(s.secrets[SecretKey(k)].owners, uid))
    && (PvcKey(k) in s.pvcs ==> Held(s.pvcs[PvcKey(k)].owners, uid))
    && (|spec.network.ports| > 0 && k in s.services ==> Held(s.services[k].owners, uid))
  }

  /** Those children are as before; a claim may have come from a user, without an owner. */
  ghost predicate SameFor(s: Store, s': Store, k: Key, spec: Spec) {
    && Get(s'.secrets, SecretKey(k)) == Get(s.secrets, SecretKey(k))
    && (|spec.network.ports| > 0 ==> Get(s'.services, k) == Get(s.services, k))
    && (PvcKey(k) in s.pvcs ==> Get(s'.pvcs, PvcKey(k)) == Get(s.pvcs, PvcKey(k)))
    && (PvcKey(k) !in s.pvcs && PvcKey(k) in s'.pvcs ==> s'.pvcs[PvcKey(k)].owners == [])
  }

  lemma CollectSpares(s: Store, kind: Kind, c: Key, k: Key, spec: Spec)
    requires k in s.servers && ChildrenHeld(s, k, s.servers[k].uid, spec)
    ensures SameFor(s, Collected(s, kind, c), k, spec)
  {
    assert !Dead(s, s.servers[k].uid);
  }

  lemma StraySpares(s: Store, p: Key, labels: Labels, k: Key, spec: Spec)
    ensures SameFor(s, StrayCreated(s, p, labels), k, spec)
  {
  }

  lemma SecretStepSpares(s: Store, j: Key, uid: nat, other: Spec, k: Key, spec: Spec)
    requires j != k
    ensures SameFor(s, SecretStep(s, j, uid, other), k, spec)
  {
    ChildNamesAreInjective(j, k);
  }

  lemma PvcStepSpares(s: Store, j: Key, uid: nat, other: Spec, k: Key, spec: Spec)
    requires j != k
    ensures SameFor(s, PvcStep(s, j, uid, other), k, spec)
  {
    ChildNamesAreInjective(j, k);
  }

  lemma ServiceStepSpares(s: Store, j: Key, uid: nat, other: Spec, k: Key, spec: Spec)
    requires j != k
    ensures SameFor(s, ServiceStep(s, j, uid, other), k, spec)
  {
  }

  lemma WorkloadStepSpares(s: Store, j: Key, uid: nat, other: Spec, k: Key, spec: Spec)
    ensures SameFor(s, WorkloadStep(s, j, uid, other), k, spec)
  {
  }

  lemma DropSpares(s: Store, p: Key, k: Key, spec: Spec)
    requires !DataKey(p)
    ensures SameFor(s, DropPvcs(s, {p}), k, spec)
  {
    PvcKeyIsDataKey(k);
  }

  lemma BuildSpares(s: Store, j: Key, b: Worker, pick: Key, k: Key, spec: Spec)
    requires j != k && b.Building? && WorkerInv(s, j, b)
    ensures SameFor(s, BuildStore(s, j, b, pick), k, spec)
  {
    match b.stage {
      case AtSecret => SecretStepSpares(s, j, b.gs.uid, b.spec, k, spec);
      case AtExtras =>
      case Deleting(todo) =>
        if pick in todo {
          DropSpares(s, pick, k, spec);
        }
      case AtPvc => PvcStepSpares(s, j, b.gs.uid, b.spec, k, spec);
      case AtService => ServiceStepSpares(s, j, b.gs.uid, b.spec, k, spec);
      case AtWorkload => WorkloadStepSpares(s, j, b.gs.uid, b.spec, k, spec);
    }
  }

  lemma FinalSpares(w: World, j: Key, ok: bool, k: Key, spec: Spec)
    requires j != k && j in w.workers && w.workers[j].Finalizing?
    ensures SameFor(w.store, FinalStep(w, j, w.workers[j], ok).store, k, spec)
  {
    ChildNamesAreInjective(j, k);
    DetachedTouchesClaim(w.store, j, w.workers[j].gs.uid);
    RemovalTouchesServer(w.store, j);
  }

  lemma AdvanceSpares(w: World, j: Key, ok: bool, pick: Key, k: Key, spec: Spec)
    requires Inv(w) && j != k && j in w.workers
    ensures SameFor(w.store, Apply(w, Advance(j, ok, pick)).store, k, spec)
  {
    assert WorkerInv(w.store, j, w.workers[j]);
    if w.workers[j].Finalizing? {
      FinalSpares(w, j, ok, k, spec);
    } else if ok {
      BuildStepParts(w, j, pick);
      BuildSpares(w.store, j, w.workers[j], pick, k, spec);
    }
  }

  /** No step of anybody else touches the children that a busy worker relies on. */
  lemma OthersSpare(w: World, step: Step, k: Key)
    requires Inv(w) && k in w.workers && w.workers[k].Building? && !(step.Advance? && step.key == k)
    requires ChildrenHeld(w.store, k, w.workers[k].gs.uid, w.workers[k].spec)
    ensures SameFor(w.store, Apply(w, step).store, k, w.workers[k].spec)
  {
    var spec := w.workers[k].spec;
    assert WorkerInv(w.store, k, w.workers[k]);
    if step.Collect? {
      CollectSpares(w.store, step.kind, step.key, k, spec);
    } else if step.StrayPvc? {
      StraySpares(w.store, step.key, step.labels, k, spec);
    } else if step.Advance? && step.key in w.workers {
      AdvanceSpares(w, step.key, step.ok, step.pick, k, spec);
    } else {
      SameChildren(w, step);
    }
  }

  // ---------------------------------------------------------------- progress of one pass

  /** The children that are behind the worker are as it rendered them. */
  ghost predicate DoneSoFar(s: Store, k: Key, b: Worker)
    requires b.Building?
  {
    && (!b.stage.AtSecret? ==> SecretKey(k) in s.secrets && s.secrets[SecretKey(k)].data == RenderSecret(k, b.spec).data)
    && (b.stage.AtService? || b.stage.AtWorkload? ==> PvcKey(k) in s.pvcs && s.pvcs[PvcKey(k)].labels == LabelsFor(k, b.spec))
    && (b.stage.AtWorkload? && |b.spec.network.ports| > 0 ==>
          && k in s.services && s.services[k].ports == RenderServicePorts(b.spec.network.ports)
          && s.services[k].selector == SelectorFor(k))
  }

  ghost predicate OnTrack(s: Store, k: Key, b: Worker) {
    b.Building? && ChildrenHeld(s, k, b.gs.uid, b.spec) && DoneSoFar(s, k, b)
  }

  lemma SameForKeepsTrack(s: Store, s': Store, k: Key, b: Worker)
    requires OnTrack(s, k, b) && SameFor(s, s', k, b.spec)
    ensures OnTrack(s', k, b)
  {
  }

  lemma SecretStepOnTrack(s: Store, k: Key, b: Worker)
    requires OnTrack(s, k, b) && b.stage.AtSecret?
    ensures OnTrack(SecretStep(s, k, b.gs.uid, b.spec), k, b.(stage := AtExtras))
  {
  }

  lemma PvcStepOnTrack(s: Store, k: Key, b: Worker)
    requires OnTrack(s, k, b) && b.stage.AtPvc?
    ensures OnTrack(PvcStep(s, k, b.gs.uid, b.spec), k, b.(stage := AtService))
  {
  }

  lemma ServiceStepOnTrack(s: Store, k: Key, b: Worker)
    requires OnTrack(s, k, b) && b.stage.AtService?
    ensures OnTrack(ServiceStep(s, k, b.gs.uid, b.spec), k, b.(stage := AtWorkload))
  {
  }

  lemma OwnStepOnTrack(s: Store, k: Key, b: Worker, pick: Key)
    requires OnTrack(s, k, b) && WorkerInv(s, k, b) && !b.stage.AtWorkload?
    ensures OnTrack(BuildStore(s, k, b, pick), k, b.(stage := NextStage(s, k, b.stage, pick).value))
  {
    match b.stage {
      case AtSecret => SecretStepOnTrack(s, k, b);
      case AtExtras =>
      case Deleting(todo) =>
        if pick in todo {
          DropSpares(s, pick, k, b.spec);
        }
      case AtPvc => PvcStepOnTrack(s, k, b);
      case AtService => ServiceStepOnTrack(s, k, b);
    }
  }

  /** The worker of k is busy all the way through these steps, so they lie inside one pass. */
  ghost predicate Busy(w: World, more: seq<Step>, k: Key)
    decreases |more|
  {
    k in w.workers && (more != [] ==> Busy(Apply(w, more[0]), more[1..], k))
  }

  lemma OthersLeaveWorker(w: World, step: Step, k: Key)
    requires k in w.workers && k in Apply(w, step).workers && !(step.Advance? && step.key == k)
    ensures Apply(w, step).workers[k] == w.workers[k]
  {
  }

  lemma OwnStep(w: World, k: Key, ok: bool, pick: Key)
    requires k in w.workers && w.workers[k].Building? && k in Apply(w, Advance(k, ok, pick)).workers
    ensures !w.workers[k].stage.AtWorkload?
    ensures var b := w.workers[k];
            && Apply(w, Advance(k, ok, pick)).store == BuildStore(w.store, k, b, pick)
            && Apply(w, Advance(k, ok, pick)).workers[k] == b.(stage := NextStage(w.store, k, b.stage, pick).value)
  {
  }

  lemma StepKeepsTrack(w: World, step: Step, k: Key)
    requires Inv(w) && k in w.workers && OnTrack(w.store, k, w.workers[k]) && k in Apply(w, step).workers
    ensures var b, b' := w.workers[k], Apply(w, step).workers[k];
            OnTrack(Apply(w, step).store, k, b') && b'.gs == b.gs && b'.spec == b.spec
  {
    assert WorkerInv(w.store, k, w.workers[k]);
    if step.Advance? && step.key == k {
      OwnStep(w, k, step.ok, step.pick);
      OwnStepOnTrack(w.store, k, w.workers[k], step.pick);
    } else {
      OthersSpare(w, step, k);
      OthersLeaveWorker(w, step, k);
      SameForKeepsTrack(w.store, Apply(w, step).store, k, w.workers[k]);
    }
  }

  lemma {:induction false} BusyKeepsTrack(w: World, more: seq<Step>, k: Key)
    requires Inv(w) && Busy(w, more, k) && OnTrack(w.store, k, w.workers[k])
    ensures var v := Run(w, more);
            && Inv(v) && k in v.workers && OnTrack(v.store, k, v.workers[k])
            && v.workers[k].gs == w.workers[k].gs && v.workers[k].spec == w.workers[k].spec
    decreases |more|
  {
    if more != [] {
      StepKeepsInv(w, more[0]);
      StepKeepsTrack(w, more[0], k);
      BusyKeepsTrack(Apply(w, more[0]), more[1..], k);
    }
  }

  lemma LastStepCompletes(s: Store, k: Key, b: Worker)
    requires OnTrack(s, k, b) && b.stage.AtWorkload?
    ensures UpToDate(WorkloadStep(s, k, b.gs.uid, b.spec), k, b.spec)
  {
    WorkloadSettles(s, k, b.gs.uid, b.spec);
  }

  /** After these steps only the last one of the pass is left. */
  ghost predicate Completing(w: World, more: seq<Step>, k: Key) {
    && Busy(w, more, k) && k in Run(w, more).workers
    && Run(w, more).workers[k].Building? && Run(w, more).workers[k].stage.AtWorkload?
  }

  /** However other steps come in between, the pass ends with all children as it rendered them. */
  ghost predicate AlwaysCompletes(w: World, k: Key)
    requires k in w.workers && w.workers[k].Building?
  {
    forall more: seq<Step>, pick: Key | Completing(w, more, k) ::
      UpToDate(Apply(Run(w, more), Advance(k, true, pick)).store, k, w.workers[k].spec)
  }

  lemma LastStep(v: World, k: Key, pick: Key)
    requires k in v.workers && v.workers[k].Building? && v.workers[k].stage.AtWorkload?
    ensures Apply(v, Advance(k, true, pick)).store == WorkloadStep(v.store, k, v.workers[k].gs.uid, v.workers[k].spec)
  {
  }

  lemma HeldCompletes(w: World, k: Key)
    requires Inv(w) && k in w.workers && w.workers[k].Building? && w.workers[k].stage.AtSecret?
    requires ChildrenHeld(w.store, k, w.workers[k].gs.uid, w.workers[k].spec)
    ensures AlwaysCompletes(w, k)
  {
    forall more: seq<Step>, pick: Key | Completing(w, more, k)
      ensures UpToDate(Apply(Run(w, more), Advance(k, true, pick)).store, k, w.workers[k].spec)
    {
      BusyKeepsTrack(w, more, k);
      var v := Run(w, more);
      LastStep(v, k, pick);
      LastStepCompletes(v.store, k, v.workers[k]);
    }
  }

  // ---------------------------------------------------------------- a child that is not held can be lost

  ghost predicate BusyReaches(w: World, v: World, k: Key) {
    exists more: seq<Step> :: Busy(w, more, k) && Run(w, more) == v
  }

  lemma {:induction false} BusySnoc(w: World, more: seq<Step>, step: Step, k: Key)
    requires Busy(w, more, k) && k in Apply(Run(w, more), step).workers
    ensures Busy(w, more + [step], k)
    decreases |more|
  {
    if more == [] {
      assert more + [step] == [step] && [step][1..] == [];
    } else {
      assert (more + [step])[1..] == more[1..] + [step];
      BusySnoc(Apply(w, more[0]), more[1..], step, k);
    }
  }

  lemma BusyNext(w: World, v: World, step: Step, k: Key)
    requires BusyReaches(w, v, k) && k in Apply(v, step).workers
    ensures BusyReaches(w, Apply(v, step), k)
  {
    var more: seq<Step> :| Busy(w, more, k) && Run(w, more) == v;
    BusySnoc(w, more, step, k);
    RunSnoc(w, more, step);
  }

  /** The children of k that are there stay there with their owners. */
  ghost predicate OwnersKept(s: Store, s': Store, k: Key) {
    && (SecretKey(k) in s.secrets ==> SecretKey(k) in s'.secrets && s'.secrets[SecretKey(k)].owners == s.secrets[SecretKey(k)].owners)
    && (PvcKey(k) in s.pvcs ==> PvcKey(k) in s'.pvcs && s'.pvcs[PvcKey(k)].owners == s.pvcs[PvcKey(k)].owners)
    && (k in s.services ==> k in s'.services && s'.services[k].owners == s.services[k].owners)
  }

  lemma SecretStepKeepsOwners(s: Store, k: Key, uid: nat, spec: Spec)
    ensures OwnersKept(s, SecretStep(s, k, uid, spec), k)
  {
  }

  lemma PvcStepKeepsOwners(s: Store, k: Key, uid: nat, spec: Spec)
    ensures OwnersKept(s, PvcStep(s, k, uid, spec), k)
  {
  }

  lemma ServiceStepKeepsOwners(s: Store, k: Key, uid: nat, spec: Spec)
    ensures OwnersKept(s, ServiceStep(s, k, uid, spec), k)
  {
  }

  lemma BuildKeepsOwners(s: Store, k: Key, b: Worker, pick: Key)
    requires b.Building? && WorkerInv(s, k, b) && !b.stage.AtWorkload?
    ensures OwnersKept(s, BuildStore(s, k, b, pick), k)
  {
    match b.stage {
      case AtSecret => SecretStepKeepsOwners(s, k, b.gs.uid, b.spec);
      case AtExtras =>
      case Deleting(todo) => PvcKeyIsDataKey(k);
      case AtPvc => PvcStepKeepsOwners(s, k, b.gs.uid, b.spec);
      case AtService => ServiceStepKeepsOwners(s, k, b.gs.uid, b.spec);
    }
  }

  function Rank(stage: Stage): (r: nat) {
    match stage
    case AtSecret => 5
    case AtExtras => 4
    case Deleting(todo) => 3
    case AtPvc => 2
    case AtService => 1
    case AtWorkload => 0
  }

  function Left(stage: Stage): (r: nat) {
    if stage.Deleting? then |stage.todo| else 0
  }

  lemma StageShrinks(s: Store, k: Key, stage: Stage, pick: Key)
    requires !stage.AtWorkload? && (stage.Deleting? && stage.todo != {} ==> pick in stage.todo)
    ensures var next := NextStage(s, k, stage, pick);
            next.Some? && (Rank(next.value) < Rank(stage) || (Rank(next.value) == Rank(stage) && Left(next.value) < Left(stage)))
  {
  }

  lemma OneOwnStep(w: World, v: World, k: Key, pick: Key) returns (v': World)
    requires BusyReaches(w, v, k) && Inv(v) && k in v.workers && v.workers[k].Building? && !v.workers[k].stage.AtWorkload?
    ensures BusyReaches(w, v', k) && Inv(v') && k in v'.workers
    ensures v'.workers[k] == v.workers[k].(stage := NextStage(v.store, k, v.workers[k].stage, pick).value)
    ensures v'.store.servers == v.store.servers && OwnersKept(v.store, v'.store, k)
  {
    var step := Advance(k, true, pick);
    assert WorkerInv(v.store, k, v.workers[k]);
    v' := Apply(v, step);
    assert k in v'.workers;
    OwnStep(v, k, true, pick);
    BuildKeepsOwners(v.store, k, v.workers[k], pick);
    BuildStoreServers(v.store, k, v.workers[k], pick);
    BusyNext(w, v, step, k);
    StepKeepsInv(v, step);
  }

  /** Without interleaving the pass comes to its last step, with servers and owners as they were. */
  lemma {:induction false} Drive(w: World, v: World, k: Key) returns (v': World)
    requires BusyReaches(w, v, k) && Inv(v) && k in v.workers && v.workers[k].Building?
    ensures BusyReaches(w, v', k) && Inv(v') && k in v'.workers && v'.workers[k] == v.workers[k].(stage := AtWorkload)
    ensures v'.store.servers == v.store.servers && OwnersKept(v.store, v'.store, k)
    decreases Rank(v.workers[k].stage), Left(v.workers[k].stage)
  {
    var stage := v.workers[k].stage;
    if stage.AtWorkload? {
      v' := v;
    } else {
      var pick := k;
      if stage.Deleting? && stage.todo != {} {
        pick :| pick in stage.todo;
      }
      StageShrinks(v.store, k, stage, pick);
      v' := OneOwnStep(w, v, k, pick);
      v' := Drive(w, v', k);
    }
  }

  /** Collecting a child in front of the last step leaves the pass incomplete. */
  lemma CollectBreaks(w: World, v: World, k: Key, kind: Kind, c: Key)
    requires k in w.workers && w.workers[k].Building? && BusyReaches(w, v, k) && k in v.workers
    requires v.workers[k] == w.workers[k].(stage := AtWorkload)
    requires !UpToDate(WorkloadStep(Collected(v.store, kind, c), k, w.workers[k].gs.uid, w.workers[k].spec), k, w.workers[k].spec)
    ensures !AlwaysCompletes(w, k)
  {
    BusyNext(w, v, Collect(kind, c), k);
    var v' := Apply(v, Collect(kind, c));
    var more: seq<Step> :| Busy(w, more, k) && Run(w, more) == v';
    assert Completing(w, more, k);
    LastStep(v', k, k);
  }

  lemma LostSecret(s: Store, k: Key, uid: nat, spec: Spec)
    requires SecretKey(k) in s.secrets && Orphaned(s, s.secrets[SecretKey(k)].owners)
    ensures !UpToDate(WorkloadStep(Collected(s, SecretKind, SecretKey(k)), k, uid, spec), k, spec)
  {
  }

  lemma LostPvc(s: Store, k: Key, uid: nat, spec: Spec)
    requires PvcKey(k) in s.pvcs && Orphaned(s, s.pvcs[PvcKey(k)].owners)
    ensures !UpToDate(WorkloadStep(Collected(s, PvcKind, PvcKey(k)), k, uid, spec), k, spec)
  {
  }

  lemma LostService(s: Store, k: Key, uid: nat, spec: Spec)
    requires k in s.services && Orphaned(s, s.services[k].owners) && |spec.network.ports| > 0
    ensures !UpToDate(WorkloadStep(Collected(s, ServiceKind, k), k, uid, spec), k, spec)
  {
  }

  /** A child of k that is not held has only dead owners. */
  lemma UnheldIsOrphaned(w: World, k: Key)
    requires Owned(w) && k in w.workers && w.workers[k].Building?
    ensures var s, uid := w.store, w.workers[k].gs.uid;
            && (SecretKey(k) in s.secrets && !Held(s.secrets[SecretKey(k)].owners, uid) ==> Orphaned(s, s.secrets[SecretKey(k)].owners))
            && (PvcKey(k) in s.pvcs && !Held(s.pvcs[PvcKey(k)].owners, uid) ==> Orphaned(s, s.pvcs[PvcKey(k)].owners))
            && (k in s.services && !Held(s.services[k].owners, uid) ==> Orphaned(s, s.services[k].owners))
  {
    assert WorkerInv(w.store, k, w.workers[k]);
    forall j | j in w.store.servers && j != k ensures SecretKey(j) != SecretKey(k) && PvcKey(j) != PvcKey(k) {
      ChildNamesAreInjective(j, k);
    }
  }

  lemma SameServersSameDead(s: Store, s': Store, owners: seq<nat>)
    requires s'.servers == s.servers && Orphaned(s, owners)
    ensures Orphaned(s', owners)
  {
  }

  lemma UnheldBreaks(w: World, k: Key)
    requires Owned(w) && k in w.workers && w.workers[k].Building?
    requires !ChildrenHeld(w.store, k, w.workers[k].gs.uid, w.workers[k].spec)
    ensures !AlwaysCompletes(w, k)
  {
    var s, b := w.store, w.workers[k];
    UnheldIsOrphaned(w, k);
    assert Busy(w, [], k) && Run(w, []) == w;
    var v := Drive(w, w, k);
    if SecretKey(k) in s.secrets && !Held(s.secrets[SecretKey(k)].owners, b.gs.uid) {
      SameServersSameDead(s, v.store, s.secrets[SecretKey(k)].owners);
      LostSecret(v.store, k, b.gs.uid, b.spec);
      CollectBreaks(w, v, k, SecretKind, SecretKey(k));
    } else if PvcKey(k) in s.pvcs && !Held(s.pvcs[PvcKey(k)].owners, b.gs.uid) {
      SameServersSameDead(s, v.store, s.pvcs[PvcKey(k)].owners);
      LostPvc(v.store, k, b.gs.uid, b.spec);
      CollectBreaks(w, v, k, PvcKind, PvcKey(k));
    } else {
      SameServersSameDead(s, v.store, s.services[k].owners);
      LostService(v.store, k, b.gs.uid, b.spec);
      CollectBreaks(w, v, k, ServiceKind, k);
    }
  }

  /** In every run, when a pass has just begun: whatever users, the collector and other passes do in between,
      it ends with all children as it rendered them, if and only if each Secret, claim and needed Service
      that is already there has no owner or the loaded object among its owners. A child left by a
      predecessor may be collected in the middle of the pass. */
  lemma InterleavedPass(steps: seq<Step>, k: Key)
    requires var w := Run(EMPTY, steps); k in w.workers && w.workers[k].Building? && w.workers[k].stage.AtSecret?
    ensures var w := Run(EMPTY, steps);
            AlwaysCompletes(w, k) <==> ChildrenHeld(w.store, k, w.workers[k].gs.uid, w.workers[k].spec)
  {
    RunKeepsOwned(EMPTY, steps);
    var w := Run(EMPTY, steps);
    if ChildrenHeld(w.store, k, w.workers[k].gs.uid, w.workers[k].spec) {
      HeldCompletes(w, k);
    } else {
      UnheldBreaks(w, k);
    }
  }

  /** Such a pass is reachable: the server is recreated before the collector has taken its predecessor's claim. */
  lemma PredecessorBreaksPass(k: Key, spec: Spec, again: Spec) returns (steps: seq<Step>)
    requires DeletePolicy(spec) != "Retain"
    ensures var w := Run(EMPTY, steps);
            && k in w.workers && w.workers[k].Building? && w.workers[k].stage.AtSecret? && w.workers[k].spec == again
            && !AlwaysCompletes(w, k)
  {
    steps := MakeLeftBehind(k, spec);
    steps := MakeReady(steps, k, again);
    steps := Then(steps, Begin(k, again));
    var w := Run(EMPTY, steps);
    assert 0 in w.store.pvcs[PvcKey(k)].owners && w.workers[k].gs.uid != 0;
    InterleavedPass(steps, k);
  }
}
