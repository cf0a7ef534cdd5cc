/** What holds in every run of the lifecycle machine. */
module LifecycleTheorems {
  import opened Core
  import opened Api
  import opened Renderer
  import opened Cluster
  import opened Finalize
  import opened Lifecycle

  // ---------------------------------------------------------------- children are written for live servers only

  /** The step belongs to a pass that loaded the server with the finalizer and without a deletion
      mark, and that very object is still stored. */
  ghost predicate PassOfLiveServer(w: World, step: Step) {
    && step.Advance? && step.ok && step.key in w.workers
    && var b := w.workers[step.key];
       && b.Building? && FINALIZER in b.gs.finalizers && !b.gs.deleting
       && step.key in w.store.servers
       && w.store.servers[step.key].uid == b.gs.uid
       && FINALIZER in w.store.servers[step.key].finalizers
  }

  /** A child that a step adds or changes. */
  ghost predicate Written<T(!new)>(before: map<Key, T>, after: map<Key, T>, c: Key) {
    c in after && Get(before, c) != Get(after, c)
  }

  ghost predicate OwnedBy(w: World, step: Step, owners: seq<nat>) {
    step.Advance? && step.key in w.store.servers && owners == [w.store.servers[step.key].uid]
  }

  lemma AdvanceIsLive(w: World, step: Step)
    requires Inv(w) && step.Advance? && step.ok && step.key in w.workers && w.workers[step.key].Building?
    ensures PassOfLiveServer(w, step)
  {
  }

  /** A finalizing pass takes its own reference off a retained claim. */
  ghost predicate DetachStep(w: World, step: Step) {
    && step.Advance? && step.ok && step.key in w.workers
    && w.workers[step.key].Finalizing? && w.workers[step.key].final.AtDetach?
    && DeletePolicy(w.workers[step.key].gs.spec) == "Retain"
  }

  /** In every run, with users deleting at any moment: each write of a Secret, Service or StatefulSet,
      and each write of a claim that is neither a user's own creation nor the detach of a retained
      claim, is made by a pass of a server that is still stored, on that server's own child; new
      children are owned by that very object. */
  lemma ChildrenOnlyForLiveServers(steps: seq<Step>, step: Step, c: Key)
    ensures var w := Run(EMPTY, steps);
            var s, s' := w.store, Apply(w, step).store;
            && (Written(s.secrets, s'.secrets, c) ==>
                  PassOfLiveServer(w, step) && c == SecretKey(step.key) && (c !in s.secrets ==> OwnedBy(w, step, s'.secrets[c].owners)))
            && (Written(s.services, s'.services, c) ==>
                  PassOfLiveServer(w, step) && c == step.key && (c !in s.services ==> OwnedBy(w, step, s'.services[c].owners)))
            && (Written(s.workloads, s'.workloads, c) ==>
                  PassOfLiveServer(w, step) && c == step.key && (c !in s.workloads ==> OwnedBy(w, step, s'.workloads[c].owners)))
            && (Written(s.pvcs, s'.pvcs, c) && !step.StrayPvc? ==>
                  && (PassOfLiveServer(w, step) || DetachStep(w, step)) && c == PvcKey(step.key)
                  && (c !in s.pvcs ==> PassOfLiveServer(w, step) && OwnedBy(w, step, s'.pvcs[c].owners)))
  {
    RunKeepsInv(EMPTY, steps);
    var w := Run(EMPTY, steps);
    if step.Advance? && step.key in w.workers && w.workers[step.key].Building? && step.ok {
      AdvanceIsLive(w, step);
      BuildWrites(w, step.key, step.pick, c);
    } else if step.Advance? && step.key in w.workers && w.workers[step.key].Finalizing? {
      FinalWrites(w, step.key, step.ok, c);
    } else if !step.StrayPvc? {
      OtherStepsWriteNoChild(w, step, c);
    }
  }

  /** What a worker with this key and UID may have written at c. */
  ghost predicate WrittenBy(s: Store, s': Store, k: Key, uid: nat, c: Key) {
    && (Written(s.secrets, s'.secrets, c) ==> c == SecretKey(k) && (c !in s.secrets ==> s'.secrets[c].owners == [uid]))
    && (Written(s.services, s'.services, c) ==> c == k && (c !in s.services ==> s'.services[c].owners == [uid]))
    && (Written(s.workloads, s'.workloads, c) ==> c == k && (c !in s.workloads ==> s'.workloads[c].owners == [uid]))
    && (Written(s.pvcs, s'.pvcs, c) ==> c == PvcKey(k) && (c !in s.pvcs ==> s'.pvcs[c].owners == [uid]))
  }

  lemma SecretStepWrites(s: Store, k: Key, uid: nat, spec: Spec, c: Key)
    ensures WrittenBy(s, SecretStep(s, k, uid, spec), k, uid, c)
  {
  }

  lemma ServiceStepWrites(s: Store, k: Key, uid: nat, spec: Spec, c: Key)
    ensures WrittenBy(s, ServiceStep(s, k, uid, spec), k, uid, c)
  {
  }

  lemma WorkloadStepWrites(s: Store, k: Key, uid: nat, spec: Spec, c: Key)
    ensures WrittenBy(s, WorkloadStep(s, k, uid, spec), k, uid, c)
  {
  }

  lemma PvcStepWrites(s: Store, k: Key, uid: nat, spec: Spec, drop: set<Key>, c: Key)
    ensures WrittenBy(s, PvcStep(s, k, uid, spec), k, uid, c)
    ensures WrittenBy(s, DropPvcs(s, drop), k, uid, c)
    ensures WrittenBy(s, s, k, uid, c)
  {
  }

  lemma BuildWrites(w: World, k: Key, pick: Key, c: Key)
    requires k in w.workers && w.workers[k].Building?
    ensures WrittenBy(w.store, BuildStep(w, k, w.workers[k], pick).store, k, w.workers[k].gs.uid, c)
  {
    var b := w.workers[k];
    SecretStepWrites(w.store, k, b.gs.uid, b.spec, c);
    ServiceStepWrites(w.store, k, b.gs.uid, b.spec, c);
    WorkloadStepWrites(w.store, k, b.gs.uid, b.spec, c);
    PvcStepWrites(w.store, k, b.gs.uid, b.spec, {pick}, c);
  }

  /** Children disappear at most. */
  ghost predicate NoChildWritten(s: Store, s': Store, c: Key) {
    && !Written(s.secrets, s'.secrets, c) && !Written(s.services, s'.services, c) && !Written(s.workloads, s'.workloads, c)
    && !Written(s.pvcs, s'.pvcs, c)
  }

  /** A claim loses an owner at most. */
  ghost predicate OnlyDetached(s: Store, s': Store, k: Key, c: Key) {
    && s'.secrets == s.secrets && s'.services == s.services && s'.workloads == s.workloads
    && (Written(s.pvcs, s'.pvcs, c) ==> c == PvcKey(k) && c in s.pvcs)
  }

  lemma CollectWritesNothing(s: Store, kind: Kind, d: Key, c: Key)
    ensures NoChildWritten(s, Collected(s, kind, d), c)
  {
  }

  lemma FinalWrites(w: World, k: Key, ok: bool, c: Key)
    requires k in w.workers && w.workers[k].Finalizing?
    ensures var s' := FinalStep(w, k, w.workers[k], ok).store;
            OnlyDetached(w.store, s', k, c) && (s'.pvcs == w.store.pvcs || DetachStep(w, Advance(k, ok, k)))
  {
    DetachedTouchesClaim(w.store, k, w.workers[k].gs.uid);
    RemovalTouchesServer(w.store, k);
  }

  lemma OtherStepsWriteNoChild(w: World, step: Step, c: Key)
    requires !step.StrayPvc? && !(step.Advance? && step.key in w.workers && (w.workers[step.key].Finalizing? || step.ok))
    ensures NoChildWritten(w.store, Apply(w, step).store, c)
  {
    if step.Collect? {
      CollectWritesNothing(w.store, step.kind, step.key, c);
    } else {
      SameChildren(w, step);
    }
  }

  ghost predicate ChildrenEqual(s: Store, s': Store) {
    s'.secrets == s.secrets && s'.services == s.services && s'.workloads == s.workloads && s'.pvcs == s.pvcs
  }

  lemma CreateKeepsChildren(s: Store, k: Key, spec: Spec, finalizers: set<string>)
    ensures ChildrenEqual(s, Created(s, k, spec, finalizers))
  {
  }

  lemma EditKeepsChildren(s: Store, k: Key, spec: Spec, status: Status, finalizers: set<string>)
    ensures ChildrenEqual(s, Edited(s, k, spec, status, finalizers))
  {
  }

  lemma DeleteKeepsChildren(s: Store, k: Key)
    ensures ChildrenEqual(s, DeleteRequested(s, k))
  {
  }

  lemma BeginKeepsChildren(w: World, k: Key, spec: Spec)
    ensures ChildrenEqual(w.store, Begun(w, k, spec).store)
  {
  }

  lemma SameChildren(w: World, step: Step)
    requires !step.StrayPvc? && !step.Collect?
    requires !(step.Advance? && step.key in w.workers && (w.workers[step.key].Finalizing? || step.ok))
    ensures ChildrenEqual(w.store, Apply(w, step).store)
  {
    match step {
      case UserCreate(k, spec, finalizers) => CreateKeepsChildren(w.store, k, spec, finalizers);
      case UserDelete(k) => DeleteKeepsChildren(w.store, k);
      case UserEdit(k, spec, status, finalizers) => EditKeepsChildren(w.store, k, spec, status, finalizers);
      case Begin(k, spec) => BeginKeepsChildren(w, k, spec);
      case Advance(k, ok, pick) =>
      case Abort(k) =>
    }
  }

  // ---------------------------------------------------------------- runs, step by step

  lemma {:induction false} RunSnoc(w: World, steps: seq<Step>, step: Step)
    ensures Run(w, steps + [step]) == Apply(Run(w, steps), step)
    decreases |steps|
  {
    if steps == [] {
      assert steps + [step] == [step] && [step][1..] == [];
    } else {
      assert (steps + [step])[1..] == steps[1..] + [step];
      RunSnoc(Apply(w, steps[0]), steps[1..], step);
    }
  }

  lemma {:induction false} RunSplit(w: World, steps: seq<Step>, i: nat)
    requires i <= |steps|
    ensures Run(w, steps) == Run(Run(w, steps[..i]), steps[i..])
    decreases i
  {
    if i == 0 {
      assert steps[..0] == [] && steps[0..] == steps;
    } else {
      RunSplit(Apply(w, steps[0]), steps[1..], i - 1);
      assert steps[..i][1..] == steps[1..][..i - 1] && steps[1..][i - 1..] == steps[i..];
    }
  }

  // ---------------------------------------------------------------- the finalizer

  ghost predicate Guarded(s: Store, k: Key, uid: nat) {
    k in s.servers && s.servers[k].uid == uid && FINALIZER in s.servers[k].finalizers
  }

  lemma RemovalSparesOthers(w: World, step: Step, k: Key, uid: nat)
    requires Removes(w, step) && step.key != k && Guarded(w.store, k, uid)
    ensures Guarded(Apply(w, step).store, k, uid)
  {
    RemovalStore(w, step.key, w.workers[step.key]);
    RemovedSparesOthers(w.store, step.key, k);
  }

  lemma RemovalStore(w: World, k: Key, f: Worker)
    requires f.Finalizing? && f.final.AtRemove?
    ensures FinalStep(w, k, f, true).store == FinalizerRemoved(w.store, k)
  {
  }

  lemma RemovedSparesOthers(s: Store, j: Key, k: Key)
    requires j != k && k in s.servers
    ensures k in FinalizerRemoved(s, j).servers && FinalizerRemoved(s, j).servers[k] == s.servers[k]
  {
  }

  lemma UnguardingStep(w: World, step: Step, k: Key, uid: nat)
    requires Inv(w) && Guarded(w.store, k, uid) && !Guarded(Apply(w, step).store, k, uid)
    ensures Removes(w, step) && step.key == k
  {
    if !Removes(w, step) {
      StepKeepsAnchors(w, step);
    } else if step.key != k {
      RemovalSparesOthers(w, step, k, uid);
    }
  }

  // ---------------------------------------------------------------- a detached claim stays detached

  ghost predicate OwnsNoClaim(s: Store, uid: nat) {
    forall p | p in s.pvcs :: uid !in s.pvcs[p].owners
  }

  /** The object owns no claim and is dying or gone, and its UID is not new. */
  ghost predicate Parted(s: Store, uid: nat) {
    && uid < s.nextId && OwnsNoClaim(s, uid)
    && forall j | j in s.servers && s.servers[j].uid == uid :: s.servers[j].deleting
  }

  /** Nothing in the world can make the object an owner of a claim again. */
  ghost predicate Released(w: World, uid: nat) {
    Parted(w.store, uid) && forall j | j in w.workers && w.workers[j].Building? :: w.workers[j].gs.uid != uid
  }

  lemma EarlyClaims(s: Store, k: Key, b: Worker, pick: Key)
    requires b.Building? && (b.stage.AtSecret? || b.stage.AtExtras? || b.stage.Deleting?)
    ensures BuildStore(s, k, b, pick).pvcs == if b.stage.Deleting? && pick in b.stage.todo then s.pvcs - {pick} else s.pvcs
  {
  }

  lemma LateClaims(s: Store, k: Key, b: Worker, pick: Key)
    requires b.Building? && (b.stage.AtService? || b.stage.AtWorkload?)
    ensures BuildStore(s, k, b, pick).pvcs == s.pvcs
  {
  }

  lemma BuildStoreIds(s: Store, k: Key, b: Worker, pick: Key)
    requires b.Building?
    ensures BuildStore(s, k, b, pick).nextId >= s.nextId
  {
  }

  lemma BuildStoreServices(s: Store, k: Key, b: Worker, pick: Key)
    requires b.Building?
    ensures !b.stage.AtService? ==> BuildStore(s, k, b, pick).services == s.services
  {
  }

  lemma BuildStepParts(w: World, k: Key, pick: Key)
    requires k in w.workers && w.workers[k].Building?
    ensures var b, r := w.workers[k], BuildStep(w, k, w.workers[k], pick);
            && r.store == BuildStore(w.store, k, b, pick)
            && (forall j | j in r.workers :: j in w.workers && (j != k ==> r.workers[j] == w.workers[j]))
            && (k in r.workers ==> r.workers[k].Building? && r.workers[k].gs == b.gs)
  {
  }

  lemma PvcStepKeepsUnowned(s: Store, k: Key, owner: nat, spec: Spec, uid: nat)
    requires OwnsNoClaim(s, uid) && owner != uid
    ensures forall p | p in PvcStep(s, k, owner, spec).pvcs :: uid !in PvcStep(s, k, owner, spec).pvcs[p].owners
  {
  }

  lemma BuildKeepsReleased(w: World, k: Key, pick: Key, uid: nat)
    requires k in w.workers && w.workers[k].Building? && Released(w, uid)
    ensures Released(BuildStep(w, k, w.workers[k], pick), uid)
  {
    PvcStepKeepsUnowned(w.store, k, w.workers[k].gs.uid, w.workers[k].spec, uid);
    BuildStepParts(w, k, pick);
    BuildStoreIds(w.store, k, w.workers[k], pick);
    if w.workers[k].stage.AtService? || w.workers[k].stage.AtWorkload? {
      LateClaims(w.store, k, w.workers[k], pick);
    } else if !w.workers[k].stage.AtPvc? {
      EarlyClaims(w.store, k, w.workers[k], pick);
    }
    BuildKeepsServers(w, k, pick);
  }

  lemma FinalKeepsReleased(w: World, k: Key, ok: bool, uid: nat)
    requires k in w.workers && w.workers[k].Finalizing? && Released(w, uid)
    ensures Released(FinalStep(w, k, w.workers[k], ok), uid)
  {
  }

  lemma BeginKeepsReleased(w: World, k: Key, spec: Spec, uid: nat)
    requires Released(w, uid)
    ensures Released(Begun(w, k, spec), uid)
  {
  }

  lemma CreateKeepsParted(s: Store, k: Key, spec: Spec, finalizers: set<string>, uid: nat)
    requires Parted(s, uid)
    ensures Parted(Created(s, k, spec, finalizers), uid)
  {
  }

  lemma DeleteKeepsParted(s: Store, k: Key, uid: nat)
    requires Parted(s, uid)
    ensures Parted(DeleteRequested(s, k), uid)
  {
  }

  lemma EditKeepsParted(s: Store, k: Key, spec: Spec, status: Status, finalizers: set<string>, uid: nat)
    requires Parted(s, uid)
    ensures Parted(Edited(s, k, spec, status, finalizers), uid)
  {
  }

  lemma StrayKeepsParted(s: Store, p: Key, labels: Labels, uid: nat)
    requires Parted(s, uid)
    ensures Parted(StrayCreated(s, p, labels), uid)
  {
  }

  lemma CollectKeepsParted(s: Store, kind: Kind, c: Key, uid: nat)
    requires Parted(s, uid)
    ensures Parted(Collected(s, kind, c), uid)
  {
  }

  lemma StepKeepsReleased(w: World, step: Step, uid: nat)
    requires Released(w, uid)
    ensures Released(Apply(w, step), uid)
  {
    match step {
      case UserCreate(k, spec, finalizers) => CreateKeepsParted(w.store, k, spec, finalizers, uid);
      case UserDelete(k) => DeleteKeepsParted(w.store, k, uid);
      case UserEdit(k, spec, status, finalizers) => EditKeepsParted(w.store, k, spec, status, finalizers, uid);
      case StrayPvc(p, labels) => StrayKeepsParted(w.store, p, labels, uid);
      case Collect(kind, c) => CollectKeepsParted(w.store, kind, c, uid);
      case Begin(k, spec) => BeginKeepsReleased(w, k, spec, uid);
      case Advance(k, ok, pick) =>
        if k in w.workers && w.workers[k].Finalizing? {
          FinalKeepsReleased(w, k, ok, uid);
        } else if k in w.workers {
          BuildKeepsReleased(w, k, pick, uid);
        }
      case Abort(k) =>
    }
  }

  lemma {:induction false} ReleasedForever(w: World, steps: seq<Step>, uid: nat)
    requires Released(w, uid)
    ensures Released(Run(w, steps), uid)
    decreases |steps|
  {
    if steps != [] {
      StepKeepsReleased(w, steps[0], uid);
      ReleasedForever(Apply(w, steps[0]), steps[1..], uid);
    }
  }

  /** In no continuation does the object own a claim. */
  ghost predicate NeverOwns(w: World, uid: nat) {
    forall steps: seq<Step> :: OwnsNoClaim(Run(w, steps).store, uid)
  }

  lemma DetachReleases(w: World, step: Step)
    requires Inv(w) && DetachStep(w, step)
    ensures Released(Apply(w, step), w.workers[step.key].gs.uid)
  {
    var f := w.workers[step.key];
    assert WorkerInv(w.store, step.key, f);
    assert Apply(w, step).store == Detached(w.store, step.key, f.gs.uid);
    forall j | j in w.workers && w.workers[j].Building? ensures w.workers[j].gs.uid != f.gs.uid {
      assert WorkerInv(w.store, j, w.workers[j]);
    }
  }

  /** In every run: after a successful detach the finalized object never owns a claim again, in any
      continuation. No pass starts for a dying object, and UIDs are not reused. */
  lemma DetachIsForever(steps: seq<Step>, step: Step)
    requires DetachStep(Run(EMPTY, steps), step)
    ensures var w := Run(EMPTY, steps); NeverOwns(Apply(w, step), w.workers[step.key].gs.uid)
  {
    RunKeepsInv(EMPTY, steps);
    var w := Run(EMPTY, steps);
    DetachReleases(w, step);
    forall more: seq<Step> ensures OwnsNoClaim(Run(Apply(w, step), more).store, w.workers[step.key].gs.uid) {
      ReleasedForever(Apply(w, step), more, w.workers[step.key].gs.uid);
    }
  }

  // ---------------------------------------------------------------- what came before the removal

  /** Step i of the run is taken by the worker of k, which is finalizing gs at this stage. */
  ghost predicate FinalStepAt(steps: seq<Step>, i: nat, k: Key, gs: GameServer, stage: FinalStage) {
    && i < |steps| && steps[i].Advance? && steps[i].key == k
    && k in Run(EMPTY, steps[..i]).workers && Run(EMPTY, steps[..i]).workers[k] == Finalizing(gs, stage)
  }

  /** A finalizing worker past its first stage either stood there before or came from the stage before. */
  lemma StageOrigin(w: World, step: Step, k: Key, f: Worker)
    requires k in Apply(w, step).workers && Apply(w, step).workers[k] == f && f.Finalizing? && !f.final.AtRelease?
    ensures k in w.workers
    ensures w.workers[k] != f ==>
              && step.Advance? && step.key == k
              && (f.final.AtRemove? ==> w.workers[k] == f.(final := AtDetach))
              && (f.final.AtDetach? ==> w.workers[k] == f.(final := AtRelease) && step.ok)
  {
  }

  lemma {:induction false} StepBefore(steps: seq<Step>, k: Key, f: Worker) returns (i: nat)
    requires k in Run(EMPTY, steps).workers && Run(EMPTY, steps).workers[k] == f && f.Finalizing? && !f.final.AtRelease?
    ensures FinalStepAt(steps, i, k, f.gs, if f.final.AtRemove? then AtDetach else AtRelease)
    ensures f.final.AtDetach? ==> steps[i].ok
    decreases |steps|
  {
    var n := |steps| - 1;
    var before := Run(EMPTY, steps[..n]);
    assert steps == steps[..n] + [steps[n]];
    RunSnoc(EMPTY, steps[..n], steps[n]);
    StageOrigin(before, steps[n], k, f);
    if before.workers[k] == f {
      i := StepBefore(steps[..n], k, f);
      assert steps[..n][..i] == steps[..i];
    } else {
      i := n;
    }
  }

  /** The finalizing pass of gs released the ports at step j and got to its claim at step i. */
  ghost predicate CleanedUp(steps: seq<Step>, k: Key, gs: GameServer, j: nat, i: nat) {
    && j < i
    && FinalStepAt(steps, j, k, gs, AtRelease) && steps[j].ok
    && FinalStepAt(steps, i, k, gs, AtDetach)
    && (DeletePolicy(gs.spec) == "Retain" && steps[i].ok ==> NeverOwns(Run(EMPTY, steps), gs.uid))
  }

  lemma {:induction false} RunJoin(w: World, a: seq<Step>, b: seq<Step>)
    ensures Run(Run(w, a), b) == Run(w, a + b)
  {
    RunSplit(w, a + b, |a|);
    assert (a + b)[..|a|] == a && (a + b)[|a|..] == b;
  }

  lemma NeverOwnsLater(w: World, steps: seq<Step>, uid: nat)
    requires NeverOwns(w, uid)
    ensures NeverOwns(Run(w, steps), uid)
  {
    forall more: seq<Step> ensures OwnsNoClaim(Run(Run(w, steps), more).store, uid) {
      RunJoin(w, steps, more);
    }
  }

  lemma BeforeRemoval(steps: seq<Step>, k: Key, gs: GameServer) returns (j: nat, i: nat)
    requires k in Run(EMPTY, steps).workers && Run(EMPTY, steps).workers[k] == Finalizing(gs, AtRemove)
    ensures CleanedUp(steps, k, gs, j, i)
  {
    i := StepBefore(steps, k, Finalizing(gs, AtRemove));
    j := StepBefore(steps[..i], k, Finalizing(gs, AtDetach));
    assert steps[..i][..j] == steps[..j];
    if DeletePolicy(gs.spec) == "Retain" && steps[i].ok {
      DetachIsForever(steps[..i], steps[i]);
      assert steps[..i + 1] == steps[..i] + [steps[i]];
      RunSnoc(EMPTY, steps[..i], steps[i]);
      RunSplit(EMPTY, steps, i + 1);
      NeverOwnsLater(Run(EMPTY, steps[..i + 1]), steps[i + 1..], gs.uid);
    }
  }

  /** In every run, an object loses the finalizer (or disappears) only by the last step of a finalizing
      pass of that very object. The object is being deleted; earlier in the run that pass released the
      ports, and after that came to its claim; and if the policy it loaded is Retain and that detach
      succeeded, the object owns no claim, then or in any continuation. */
  lemma FinalizerGoesLast(steps: seq<Step>, step: Step, k: Key, uid: nat) returns (j: nat, i: nat)
    requires var w := Run(EMPTY, steps); Guarded(w.store, k, uid) && !Guarded(Apply(w, step).store, k, uid)
    ensures var w := Run(EMPTY, steps);
            && step.Advance? && step.key == k && step.ok && k in w.workers
            && var f := w.workers[k];
               && f.Finalizing? && f.final.AtRemove? && f.gs.uid == uid && w.store.servers[k].deleting
               && CleanedUp(steps, k, f.gs, j, i)
  {
    RunKeepsInv(EMPTY, steps);
    var w := Run(EMPTY, steps);
    UnguardingStep(w, step, k, uid);
    assert WorkerInv(w.store, k, w.workers[k]);
    j, i := BeforeRemoval(steps, k, w.workers[k].gs);
  }

  // ---------------------------------------------------------------- a Service keeps its type

  /** The Service is stored with this type and owner, or the owner is gone for good. */
  ghost predicate TypeHeld(w: World, c: Key, uid: nat, kind: string) {
    && uid < w.store.nextId
    && (Dead(w.store, uid) ||
        (c in w.store.services && uid in w.store.services[c].owners && w.store.services[c].serviceType == kind))
  }

  lemma BuildKeepsType(w: World, k: Key, pick: Key, c: Key, uid: nat, kind: string)
    requires k in w.workers && w.workers[k].Building? && TypeHeld(w, c, uid, kind)
    ensures TypeHeld(BuildStep(w, k, w.workers[k], pick), c, uid, kind)
  {
    BuildStepParts(w, k, pick);
    BuildStoreIds(w.store, k, w.workers[k], pick);
    BuildStoreServices(w.store, k, w.workers[k], pick);
    BuildKeepsServers(w, k, pick);
    ServiceStepKeepsType(w.store, k, w.workers[k].gs.uid, w.workers[k].spec, c);
  }

  lemma ServiceStepKeepsType(s: Store, k: Key, owner: nat, spec: Spec, c: Key)
    ensures var m := ServiceStep(s, k, owner, spec).services;
            c in s.services ==> c in m && m[c].serviceType == s.services[c].serviceType && m[c].owners == s.services[c].owners
  {
  }

  lemma CollectKeepsType(w: World, kind: Kind, d: Key, c: Key, uid: nat, text: string)
    requires TypeHeld(w, c, uid, text)
    ensures TypeHeld(w.(store := Collected(w.store, kind, d)), c, uid, text)
  {
  }

  /** No step brings a UID back. */
  ghost predicate Older(s: Store, s': Store) {
    && s'.nextId >= s.nextId
    && forall j | j in s'.servers :: s'.servers[j].uid == s.nextId || (j in s.servers && s'.servers[j].uid == s.servers[j].uid)
  }

  lemma CreatedIsOlder(s: Store, k: Key, spec: Spec, finalizers: set<string>)
    ensures Older(s, Created(s, k, spec, finalizers))
  {
  }

  lemma EditedIsOlder(s: Store, k: Key, spec: Spec, status: Status, finalizers: set<string>)
    ensures Older(s, Edited(s, k, spec, status, finalizers))
  {
  }

  lemma DeletedIsOlder(s: Store, k: Key)
    ensures Older(s, DeleteRequested(s, k))
  {
  }

  lemma BegunIsOlder(w: World, k: Key, spec: Spec)
    ensures Older(w.store, Begun(w, k, spec).store)
  {
  }

  lemma FinalIsOlder(w: World, k: Key, ok: bool)
    requires k in w.workers && w.workers[k].Finalizing?
    ensures Older(w.store, FinalStep(w, k, w.workers[k], ok).store)
  {
    if ok && w.workers[k].final.AtRemove? {
      RemovalStore(w, k, w.workers[k]);
      RemovedIsOlder(w.store, k);
    } else {
      FinalKeepsServers(w, k, ok);
      DetachedTouchesClaim(w.store, k, w.workers[k].gs.uid);
    }
  }

  lemma RemovedIsOlder(s: Store, k: Key)
    ensures Older(s, FinalizerRemoved(s, k))
  {
  }

  lemma UserStepIsOlder(w: World, step: Step)
    requires !step.Advance? && !step.Collect?
    ensures Older(w.store, Apply(w, step).store)
  {
    match step {
      case UserCreate(k, spec, finalizers) => CreatedIsOlder(w.store, k, spec, finalizers);
      case UserDelete(k) => DeletedIsOlder(w.store, k);
      case UserEdit(k, spec, status, finalizers) => EditedIsOlder(w.store, k, spec, status, finalizers);
      case Begin(k, spec) => BegunIsOlder(w, k, spec);
      case _ =>
    }
  }

  lemma UserStepKeepsServices(w: World, step: Step)
    requires !step.Advance? && !step.Collect?
    ensures Apply(w, step).store.services == w.store.services
  {
    if !step.StrayPvc? {
      SameChildren(w, step);
    }
  }

  lemma SameServices(w: World, w': World, c: Key, uid: nat, kind: string)
    requires TypeHeld(w, c, uid, kind) && Older(w.store, w'.store) && w'.store.services == w.store.services
    ensures TypeHeld(w', c, uid, kind)
  {
  }

  lemma AdvanceKeepsType(w: World, k: Key, ok: bool, pick: Key, c: Key, uid: nat, kind: string)
    requires TypeHeld(w, c, uid, kind) && k in w.workers
    ensures TypeHeld(Apply(w, Advance(k, ok, pick)), c, uid, kind)
  {
    if w.workers[k].Finalizing? {
      FinalIsOlder(w, k, ok);
      FinalWrites(w, k, ok, c);
      SameServices(w, FinalStep(w, k, w.workers[k], ok), c, uid, kind);
    } else {
      BuildKeepsType(w, k, pick, c, uid, kind);
    }
  }

  lemma StepKeepsType(w: World, step: Step, c: Key, uid: nat, kind: string)
    requires TypeHeld(w, c, uid, kind)
    ensures TypeHeld(Apply(w, step), c, uid, kind)
  {
    if step.Advance? {
      if step.key in w.workers {
        AdvanceKeepsType(w, step.key, step.ok, step.pick, c, uid, kind);
      }
    } else if step.Collect? {
      CollectKeepsType(w, step.kind, step.key, c, uid, kind);
    } else {
      UserStepIsOlder(w, step);
      UserStepKeepsServices(w, step);
      SameServices(w, Apply(w, step), c, uid, kind);
    }
  }

  lemma {:induction false} TypeHeldForever(w: World, steps: seq<Step>, c: Key, uid: nat, kind: string)
    requires TypeHeld(w, c, uid, kind)
    ensures TypeHeld(Run(w, steps), c, uid, kind)
    decreases |steps|
  {
    if steps != [] {
      StepKeepsType(w, steps[0], c, uid, kind);
      TypeHeldForever(Apply(w, steps[0]), steps[1..], c, uid, kind);
    }
  }

  /** In every run, a Service owned by a living server is still there with its type and its owner after
      any continuation in which that server lives, whatever its spec asks for by then. */
  lemma ServiceKeepsType(steps: seq<Step>, more: seq<Step>, c: Key, uid: nat)
    requires var s := Run(EMPTY, steps).store; c in s.services && uid in s.services[c].owners && !Dead(s, uid)
    ensures var s, s' := Run(EMPTY, steps).store, Run(Run(EMPTY, steps), more).store;
            !Dead(s', uid) ==> && c in s'.services && uid in s'.services[c].owners
                               && s'.services[c].serviceType == s.services[c].serviceType
  {
    RunKeepsInv(EMPTY, steps);
    var w := Run(EMPTY, steps);
    TypeHeldForever(w, more, c, uid, w.store.services[c].serviceType);
  }

  // ---------------------------------------------------------------- retained claims

  /** A server's claim that no owner reference ties to any server. */
  ghost predicate Kept(w: World, p: Key, volume: nat) {
    p in w.store.pvcs && DataKey(p) && w.store.pvcs[p].owners == [] && w.store.pvcs[p].volume == volume
  }

  lemma CollectKeepsKept(s: Store, kind: Kind, c: Key, p: Key)
    requires p in s.pvcs && s.pvcs[p].owners == []
    ensures Get(Collected(s, kind, c).pvcs, p) == Get(s.pvcs, p)
  {
  }

  lemma BuildKeepsKept(w: World, k: Key, pick: Key, p: Key, volume: nat)
    requires k in w.workers && w.workers[k].Building? && WorkerInv(w.store, k, w.workers[k]) && Kept(w, p, volume)
    ensures Kept(BuildStep(w, k, w.workers[k], pick), p, volume)
  {
  }

  lemma FinalKeepsKept(w: World, k: Key, ok: bool, p: Key, volume: nat)
    requires k in w.workers && w.workers[k].Finalizing? && Kept(w, p, volume)
    ensures Kept(FinalStep(w, k, w.workers[k], ok), p, volume)
  {
  }

  lemma StepKeepsKept(w: World, step: Step, p: Key, volume: nat)
    requires Inv(w) && Kept(w, p, volume)
    ensures Kept(Apply(w, step), p, volume)
  {
    if step.Advance? && step.key in w.workers {
      assert WorkerInv(w.store, step.key, w.workers[step.key]);
      if w.workers[step.key].Finalizing? {
        FinalKeepsKept(w, step.key, step.ok, p, volume);
      } else {
        BuildKeepsKept(w, step.key, step.pick, p, volume);
      }
    } else if step.Collect? {
      CollectKeepsKept(w.store, step.kind, step.key, p);
    } else if !step.StrayPvc? {
      SameChildren(w, step);
    }
  }

  lemma {:induction false} KeptForever(w: World, steps: seq<Step>, p: Key, volume: nat)
    requires Inv(w) && Kept(w, p, volume)
    ensures Kept(Run(w, steps), p, volume)
    decreases |steps|
  {
    if steps != [] {
      StepKeepsInv(w, steps[0]);
      StepKeepsKept(w, steps[0], p, volume);
      KeptForever(Apply(w, steps[0]), steps[1..], p, volume);
    }
  }

  /** The claim outlives every continuation with its data. */
  ghost predicate SurvivesAll(w: World, p: Key, volume: nat) {
    forall steps: seq<Step> :: p in Run(w, steps).store.pvcs && Run(w, steps).store.pvcs[p].volume == volume
  }

  /** A leftover owner of a server's claim is an earlier incarnation, and it is dead. */
  lemma LeftoverOwnersAreDead(w: World, k: Key)
    requires Inv(w) && k in w.store.servers && PvcKey(k) in w.store.pvcs
    requires w.store.servers[k].uid !in w.store.pvcs[PvcKey(k)].owners
    ensures forall u | u in w.store.pvcs[PvcKey(k)].owners :: Dead(w.store, u)
  {
  }

  lemma {:induction false} WithoutEmpties(refs: seq<nat>, uid: nat)
    ensures Without(refs, uid) == [] <==> forall u | u in refs :: u == uid
  {
    if refs != [] {
      var n := |refs| - 1;
      WithoutEmpties(refs[..n], uid);
      assert refs[n] in refs && forall u | u in refs[..n] :: u in refs;
      assert forall u | u in refs :: u == refs[n] || u in refs[..n];
      assert refs[n] != uid ==> |Without(refs, uid)| > 0;
    }
  }

  lemma CollectTakes(w: World, p: Key)
    requires p in w.store.pvcs && Orphaned(w.store, w.store.pvcs[p].owners)
    ensures p !in Run(w, [Collect(PvcKind, p)]).store.pvcs
  {
  }

  /** In every run: after a successful detach by a finalizing pass with policy Retain, the claim and
      its data survive every continuation (deletion, collection, recreation, later passes of any
      server) if and only if no owner of an earlier incarnation is left on it. */
  lemma RetainedDataSurvives(steps: seq<Step>, k: Key, pick: Key)
    requires var w := Run(EMPTY, steps);
             && k in w.workers && w.workers[k].Finalizing? && w.workers[k].final.AtDetach?
             && DeletePolicy(w.workers[k].gs.spec) == "Retain" && PvcKey(k) in w.store.pvcs
    ensures var w := Run(EMPTY, steps);
            var claim := w.store.pvcs[PvcKey(k)];
            SurvivesAll(Apply(w, Advance(k, true, pick)), PvcKey(k), claim.volume) <==>
            forall u | u in claim.owners :: u == w.workers[k].gs.uid
  {
    RunKeepsInv(EMPTY, steps);
    var w := Run(EMPTY, steps);
    var f, p := w.workers[k], PvcKey(k);
    var w' := Apply(w, Advance(k, true, pick));
    var volume := w.store.pvcs[p].volume;
    assert WorkerInv(w.store, k, f);
    StepKeepsInv(w, Advance(k, true, pick));
    assert w'.store == Detached(w.store, k, f.gs.uid);
    assert w'.store.pvcs[p].owners == Without(w.store.pvcs[p].owners, f.gs.uid);
    PvcKeyIsDataKey(k);
    WithoutEmpties(w.store.pvcs[p].owners, f.gs.uid);
    if w'.store.pvcs[p].owners == [] {
      forall more: seq<Step> ensures p in Run(w', more).store.pvcs && Run(w', more).store.pvcs[p].volume == volume {
        KeptForever(w', more, p, volume);
      }
    } else {
      LeftoverOwnersAreDead(w', k);
      CollectTakes(w', p);
    }
  }

  // ---------------------------------------------------------------- an uninterrupted pass

  ghost predicate Reaches(w: World, v: World) {
    exists steps: seq<Step> :: Run(w, steps) == v
  }

  lemma ReachesItself(w: World)
    ensures Reaches(w, w)
  {
    assert Run(w, []) == w;
  }

  lemma ReachesNext(w: World, v: World, step: Step)
    requires Reaches(w, v)
    ensures Reaches(w, Apply(v, step))
  {
    var steps: seq<Step> :| Run(w, steps) == v;
    RunSnoc(w, steps, step);
  }

  /** One step of a building worker. */
  lemma ReachesBuild(w: World, v: World, k: Key, b: Worker, pick: Key)
    requires Reaches(w, v) && b.Building? && k in v.workers && v.workers[k] == b
    ensures Reaches(w, BuildStep(v, k, b, pick))
  {
    ReachesNext(w, v, Advance(k, true, pick));
  }

  /** The worker's own entry is replaced. */
  lemma ReachesAt(w: World, s: Store, workers: map<Key, Worker>, k: Key, b: Worker, s': Store, next: Worker)
    requires Reaches(w, At(World(s, workers[k := b]), k, s', next))
    ensures Reaches(w, World(s', workers[k := next]))
  {
    assert workers[k := b][k := next] == workers[k := next];
  }

  lemma ReachesExtras(w: World, s: Store, workers: map<Key, Worker>, k: Key, b: Worker)
    requires b.Building? && b.stage == AtSecret && Reaches(w, World(s, workers[k := b]))
    ensures Reaches(w, World(SecretStep(s, k, b.gs.uid, b.spec), workers[k := b.(stage := AtExtras)]))
  {
    ReachesBuild(w, World(s, workers[k := b]), k, b, k);
    ReachesAt(w, s, workers, k, b, SecretStep(s, k, b.gs.uid, b.spec), b.(stage := AtExtras));
  }

  lemma ReachesDeleting(w: World, s: Store, workers: map<Key, Worker>, k: Key, b: Worker)
    requires b.Building? && b.stage == AtExtras && Reaches(w, World(s, workers[k := b]))
    ensures Reaches(w, World(s, workers[k := b.(stage := Deleting(Extras(s.pvcs, k)))]))
  {
    ReachesBuild(w, World(s, workers[k := b]), k, b, k);
    ReachesAt(w, s, workers, k, b, s, b.(stage := Deleting(Extras(s.pvcs, k))));
  }

  lemma ReachesDelete(w: World, s: Store, workers: map<Key, Worker>, k: Key, b: Worker, p: Key)
    requires b.Building? && b.stage.Deleting? && p in b.stage.todo && Reaches(w, World(s, workers[k := b]))
    ensures Reaches(w, World(DropPvcs(s, {p}), workers[k := b.(stage := Deleting(b.stage.todo - {p}))]))
  {
    var d := b.(stage := Deleting(b.stage.todo - {p}));
    ReachesBuild(w, World(s, workers[k := b]), k, b, p);
    assert workers[k := b][k := d] == workers[k := d];
  }

  lemma ReachesPvc(w: World, s: Store, workers: map<Key, Worker>, k: Key, b: Worker)
    requires b.Building? && b.stage == Deleting({}) && Reaches(w, World(s, workers[k := b]))
    ensures Reaches(w, World(s, workers[k := b.(stage := AtPvc)]))
  {
    ReachesBuild(w, World(s, workers[k := b]), k, b, k);
    ReachesAt(w, s, workers, k, b, s, b.(stage := AtPvc));
  }

  lemma ReachesService(w: World, s: Store, workers: map<Key, Worker>, k: Key, b: Worker)
    requires b.Building? && b.stage == AtPvc && Reaches(w, World(s, workers[k := b]))
    ensures Reaches(w, World(PvcStep(s, k, b.gs.uid, b.spec), workers[k := b.(stage := AtService)]))
  {
    ReachesBuild(w, World(s, workers[k := b]), k, b, k);
    ReachesAt(w, s, workers, k, b, PvcStep(s, k, b.gs.uid, b.spec), b.(stage := AtService));
  }

  lemma ReachesWorkload(w: World, s: Store, workers: map<Key, Worker>, k: Key, b: Worker)
    requires b.Building? && b.stage == AtService && Reaches(w, World(s, workers[k := b]))
    ensures Reaches(w, World(ServiceStep(s, k, b.gs.uid, b.spec), workers[k := b.(stage := AtWorkload)]))
  {
    ReachesBuild(w, World(s, workers[k := b]), k, b, k);
    ReachesAt(w, s, workers, k, b, ServiceStep(s, k, b.gs.uid, b.spec), b.(stage := AtWorkload));
  }

  lemma ReachesEnd(w: World, s: Store, workers: map<Key, Worker>, k: Key, b: Worker)
    requires b.Building? && b.stage == AtWorkload && k !in workers && Reaches(w, World(s, workers[k := b]))
    ensures Reaches(w, World(WorkloadStep(s, k, b.gs.uid, b.spec), workers))
  {
    ReachesBuild(w, World(s, workers[k := b]), k, b, k);
    assert workers[k := b] - {k} == workers;
  }

  lemma {:induction false} DeleteAll(w: World, s: Store, workers: map<Key, Worker>, k: Key, b: Worker)
    requires b.Building? && b.stage.Deleting? && Reaches(w, World(s, workers[k := b]))
    ensures Reaches(w, World(DropPvcs(s, b.stage.todo), workers[k := b.(stage := AtPvc)]))
    decreases |b.stage.todo|
  {
    var todo := b.stage.todo;
    if todo == {} {
      ReachesPvc(w, s, workers, k, b);
      assert s.pvcs - {} == s.pvcs;
    } else {
      var p :| p in todo;
      ReachesDelete(w, s, workers, k, b, p);
      DeleteAll(w, DropPvcs(s, {p}), workers, k, b.(stage := Deleting(todo - {p})));
      assert s.pvcs - {p} - (todo - {p}) == s.pvcs - todo;
    }
  }

  lemma BuildToPvc(w: World, k: Key, b: Worker)
    requires b.Building? && b.stage.AtSecret? && Reaches(w, World(w.store, w.workers[k := b]))
    ensures Reaches(w, World(Cleaned(SecretStep(w.store, k, b.gs.uid, b.spec), k), w.workers[k := b.(stage := AtPvc)]))
  {
    var s1 := SecretStep(w.store, k, b.gs.uid, b.spec);
    ReachesExtras(w, w.store, w.workers, k, b);
    ReachesDeleting(w, s1, w.workers, k, b.(stage := AtExtras));
    DeleteAll(w, s1, w.workers, k, b.(stage := Deleting(Extras(s1.pvcs, k))));
  }

  function PvcToWorkload(s: Store, k: Key, uid: nat, spec: Spec): (r: Store) {
    WorkloadStep(ServiceStep(PvcStep(s, k, uid, spec), k, uid, spec), k, uid, spec)
  }

  lemma BuildFromPvc(w: World, s: Store, workers: map<Key, Worker>, k: Key, b: Worker)
    requires b.Building? && b.stage.AtPvc? && k !in workers && Reaches(w, World(s, workers[k := b]))
    ensures Reaches(w, World(PvcToWorkload(s, k, b.gs.uid, b.spec), workers))
  {
    var s2 := PvcStep(s, k, b.gs.uid, b.spec);
    ReachesService(w, s, workers, k, b);
    ReachesWorkload(w, s2, workers, k, b.(stage := AtService));
    ReachesEnd(w, ServiceStep(s2, k, b.gs.uid, b.spec), workers, k, b.(stage := AtWorkload));
  }

  /** Without interleaving, the steps of a worker do exactly what the sequential pass does. */
  lemma UninterruptedPass(w: World, k: Key, spec: Spec)
    requires k in w.store.servers && k !in w.workers
    requires FINALIZER in w.store.servers[k].finalizers && !w.store.servers[k].deleting
    ensures Reaches(w, World(Reconciled(w.store, k, w.store.servers[k].uid, spec), w.workers))
  {
    var b := Building(w.store.servers[k], spec, AtSecret);
    ReachesItself(w);
    ReachesNext(w, w, Begin(k, spec));
    BuildToPvc(w, k, b);
    BuildFromPvc(w, Cleaned(SecretStep(w.store, k, b.gs.uid, spec), k), w.workers, k, b.(stage := AtPvc));
    ReconciledShape(w.store, k, b.gs.uid, spec);
  }

  lemma ReconciledShape(s: Store, k: Key, uid: nat, spec: Spec)
    ensures Reconciled(s, k, uid, spec) == PvcToWorkload(Cleaned(SecretStep(s, k, uid, spec), k), k, uid, spec)
  {
  }

  // ---------------------------------------------------------------- an uninterrupted finalizing pass

  /** The patch of the phase is a write that keeps spec and finalizers. */
  lemma StopIsAnEdit(s: Store, k: Key)
    requires k in s.servers && FINALIZER in s.servers[k].finalizers
    ensures Edited(s, k, s.servers[k].spec, s.servers[k].status.(phase := Stopping), s.servers[k].finalizers) == Stopped(s, k)
  {
  }

  lemma BeginFinalize(w: World, k: Key, fails: Finalize.Call -> bool)
    requires k in w.store.servers && k !in w.workers
    requires FINALIZER in w.store.servers[k].finalizers && w.store.servers[k].deleting
    ensures Reaches(w, World(StopTried(w.store, k, fails), w.workers[k := Finalizing(w.store.servers[k], AtRelease)]))
  {
    var gs := w.store.servers[k];
    ReachesItself(w);
    ReachesNext(w, w, Begin(k, gs.spec));
    if !fails(StopPatch) {
      StopIsAnEdit(w.store, k);
      ReachesNext(w, Begun(w, k, gs.spec), UserEdit(k, gs.spec, gs.status.(phase := Stopping), gs.finalizers));
    }
  }

  lemma ReachesFinal(w: World, s: Store, workers: map<Key, Worker>, k: Key, f: Worker, ok: bool)
    requires f.Finalizing? && k !in workers && Reaches(w, World(s, workers[k := f]))
    ensures f.final.AtRelease? && ok ==> Reaches(w, World(s, workers[k := f.(final := AtDetach)]))
    ensures f.final.AtRelease? && !ok ==> Reaches(w, World(s, workers))
    ensures f.final.AtDetach? ==>
              Reaches(w, World(if ok && DeletePolicy(f.gs.spec) == "Retain" then Detached(s, k, f.gs.uid) else s,
                               workers[k := f.(final := AtRemove)]))
    ensures f.final.AtRemove? ==> Reaches(w, World(if ok then FinalizerRemoved(s, k) else s, workers))
  {
    ReachesNext(w, World(s, workers[k := f]), Advance(k, ok, k));
    assert workers[k := f] - {k} == workers;
    assert workers[k := f][k := f.(final := AtDetach)] == workers[k := f.(final := AtDetach)];
    assert workers[k := f][k := f.(final := AtRemove)] == workers[k := f.(final := AtRemove)];
  }

  /** The store at the end, whatever fails. */
  ghost function Finalized(s: Store, gs: GameServer, fails: Finalize.Call -> bool): (r: Store) {
    var s2 := DetachTried(s, gs, fails);
    if fails(ReleasePorts) then s else if fails(Refetch) || fails(RemovePatch) then s2 else FinalizerRemoved(s2, gs.key)
  }

  lemma FinalizeFrom(w: World, s: Store, workers: map<Key, Worker>, gs: GameServer, fails: Finalize.Call -> bool)
    requires gs.key !in workers && Reaches(w, World(s, workers[gs.key := Finalizing(gs, AtRelease)]))
    ensures Reaches(w, World(Finalized(s, gs, fails), workers))
  {
    ReachesFinal(w, s, workers, gs.key, Finalizing(gs, AtRelease), !fails(ReleasePorts));
    if !fails(ReleasePorts) {
      ReachesFinal(w, s, workers, gs.key, Finalizing(gs, AtDetach), DetachWorks(s, gs.key, fails));
      ReachesFinal(w, DetachTried(s, gs, fails), workers, gs.key, Finalizing(gs, AtRemove), !fails(Refetch) && !fails(RemovePatch));
    }
  }

  lemma FinalizeShape(s0: Store, gs: GameServer, fails: Finalize.Call -> bool, r: Result<()>)
    requires gs.key in s0.servers && (r.Ok? <==> !fails(ReleasePorts) && !fails(Refetch) && !fails(RemovePatch))
    ensures FinalizeDone(s0, Finalized(StopTried(s0, gs.key, fails), gs, fails), gs, fails, r)
  {
    DetachTouchesClaim(s0, gs, fails);
  }

  /** Without interleaving, the steps of a finalizing worker do exactly what the sequential pass does,
      whichever calls fail. */
  lemma UninterruptedFinalize(w: World, k: Key, fails: Finalize.Call -> bool) returns (s: Store, r: Result<()>)
    requires k in w.store.servers && w.store.servers[k].key == k && k !in w.workers
    requires FINALIZER in w.store.servers[k].finalizers && w.store.servers[k].deleting
    ensures FinalizeDone(w.store, s, w.store.servers[k], fails, r) && Reaches(w, World(s, w.workers))
  {
    var gs := w.store.servers[k];
    BeginFinalize(w, k, fails);
    s := Finalized(StopTried(w.store, k, fails), gs, fails);
    FinalizeFrom(w, StopTried(w.store, k, fails), w.workers, gs, fails);
    r := if fails(ReleasePorts) || fails(Refetch) || fails(RemovePatch) then Err("") else Ok(());
    FinalizeShape(w.store, gs, fails, r);
  }

  // ---------------------------------------------------------------- a run that loses retained data

  lemma Then(steps: seq<Step>, step: Step) returns (more: seq<Step>)
    ensures more == steps + [step] && Run(EMPTY, more) == Apply(Run(EMPTY, steps), step)
  {
    more := steps + [step];
    RunSnoc(EMPTY, steps, step);
  }

  /** The key is unused, its claim exists and is owned by this UID only. */
  ghost predicate LeftBehind(w: World, k: Key, uid: nat) {
    && k !in w.store.servers && k !in w.workers
    && PvcKey(k) in w.store.pvcs && w.store.pvcs[PvcKey(k)].owners == [uid] && uid < w.store.nextId
  }

  /** A stored server with the finalizer and no worker. */
  ghost predicate Ready(w: World, k: Key, spec: Spec) {
    && k in w.store.servers && k !in w.workers
    && w.store.servers[k].finalizers == {FINALIZER} && !w.store.servers[k].deleting && w.store.servers[k].spec == spec
  }

  lemma MakeReady(steps: seq<Step>, k: Key, spec: Spec) returns (more: seq<Step>)
    requires k !in Run(EMPTY, steps).store.servers && k !in Run(EMPTY, steps).workers
    ensures var w, w' := Run(EMPTY, steps), Run(EMPTY, more);
            Ready(w', k, spec) && w'.store.pvcs == w.store.pvcs && w'.store.servers[k].uid == w.store.nextId
            && w'.store.nextId == w.store.nextId + 1
  {
    more := Then(steps, UserCreate(k, spec, {}));
    var w1 := Run(EMPTY, more);
    assert w1.store == Created(Run(EMPTY, steps).store, k, spec, {});
    more := Then(more, Begin(k, spec));
    assert Run(EMPTY, more).store.servers[k].finalizers == {} + {FINALIZER} == {FINALIZER};
  }

  /** From a ready server to a finalizing pass that has released the ports. */
  lemma MakeDetaching(steps: seq<Step>, k: Key, spec: Spec) returns (more: seq<Step>)
    requires Ready(Run(EMPTY, steps), k, spec)
    ensures var w, w' := Run(EMPTY, steps), Run(EMPTY, more);
            && w'.store.pvcs == w.store.pvcs && w'.store.nextId == w.store.nextId
            && k in w'.workers && w'.workers[k].Finalizing? && w'.workers[k].final.AtDetach?
            && w'.workers[k].gs.spec == spec && w'.workers[k].gs.uid == w.store.servers[k].uid
            && k in w'.store.servers && w'.store.servers[k].finalizers == {FINALIZER} && w'.store.servers[k].deleting
  {
    more := Then(steps, UserDelete(k));
    assert Run(EMPTY, more).store == DeleteRequested(Run(EMPTY, steps).store, k);
    more := Then(more, Begin(k, spec));
    assert Run(EMPTY, more).workers[k].final.AtRelease?;
    more := Then(more, Advance(k, true, k));
  }

  ghost predicate BuildingAt(w: World, k: Key, spec: Spec, stage: Stage) {
    && k in w.store.servers && k in w.workers
    && w.store.servers[k].finalizers == {FINALIZER} && !w.store.servers[k].deleting && w.store.servers[k].spec == spec
    && w.workers[k] == Building(w.store.servers[k], spec, stage)
  }

  /** A pass of the first server in an empty cluster, up to its claim. */
  lemma MakeBuilding(steps: seq<Step>, k: Key, spec: Spec) returns (more: seq<Step>)
    requires Ready(Run(EMPTY, steps), k, spec) && Run(EMPTY, steps).store.pvcs == map[]
    ensures var w' := Run(EMPTY, more);
            BuildingAt(w', k, spec, AtPvc) && w'.store.pvcs == map[] && w'.store.servers == Run(EMPTY, steps).store.servers
  {
    more := Then(steps, Begin(k, spec));
    assert BuildingAt(Run(EMPTY, more), k, spec, AtSecret);
    more := Then(more, Advance(k, true, k));
    assert BuildingAt(Run(EMPTY, more), k, spec, AtExtras);
    more := Then(more, Advance(k, true, k));
    assert Extras(map[], k) == {};
    assert BuildingAt(Run(EMPTY, more), k, spec, Deleting({}));
    more := Then(more, Advance(k, true, k));
  }

  lemma MakeClaim(steps: seq<Step>, k: Key, spec: Spec) returns (more: seq<Step>)
    requires BuildingAt(Run(EMPTY, steps), k, spec, AtPvc) && Run(EMPTY, steps).store.pvcs == map[]
    ensures var w, w' := Run(EMPTY, steps), Run(EMPTY, more);
            && Ready(w', k, spec) && w'.store.servers == w.store.servers && w'.store.nextId > w.store.nextId
            && PvcKey(k) in w'.store.pvcs && w'.store.pvcs[PvcKey(k)].owners == [w.store.servers[k].uid]
  {
    var w := Run(EMPTY, steps);
    more := Then(steps, Advance(k, true, k));
    assert Run(EMPTY, more).store == PvcStep(w.store, k, w.store.servers[k].uid, spec);
    more := Then(more, Abort(k));
  }

  /** The end of a finalizing pass with policy Delete. */
  lemma MakeGone(steps: seq<Step>, k: Key, spec: Spec) returns (more: seq<Step>)
    requires var w := Run(EMPTY, steps);
             && DeletePolicy(spec) != "Retain"
             && k in w.workers && w.workers[k].Finalizing? && w.workers[k].final.AtDetach? && w.workers[k].gs.spec == spec
             && k in w.store.servers && w.store.servers[k].finalizers == {FINALIZER} && w.store.servers[k].deleting
    ensures var w, w' := Run(EMPTY, steps), Run(EMPTY, more);
            k !in w'.store.servers && k !in w'.workers && w'.store.pvcs == w.store.pvcs && w'.store.nextId == w.store.nextId
  {
    more := Then(steps, Advance(k, true, k));
    var w1 := Run(EMPTY, more);
    assert w1.store == Run(EMPTY, steps).store && w1.workers[k].final.AtRemove?;
    more := Then(more, Advance(k, true, k));
    assert {FINALIZER} - {FINALIZER} == {};
    assert Run(EMPTY, more).store == FinalizerRemoved(w1.store, k);
  }

  /** A first server creates its claim and goes with policy Delete; the collector has not run yet. */
  lemma MakeLeftBehind(k: Key, spec: Spec) returns (steps: seq<Step>)
    requires DeletePolicy(spec) != "Retain"
    ensures LeftBehind(Run(EMPTY, steps), k, 0)
  {
    steps := MakeReady([], k, spec);
    steps := MakeBuilding(steps, k, spec);
    steps := MakeClaim(steps, k, spec);
    steps := MakeDetaching(steps, k, spec);
    steps := MakeGone(steps, k, spec);
  }

  /** A reachable run in which a claim is lost although its server is finalized with policy Retain and
      every call succeeds: the server is recreated before the collector has taken the claim of its
      predecessor, and the owner reference of that predecessor stays on the claim. */
  lemma RetainCanLoseData(k: Key, spec: Spec, retaining: Spec) returns (steps: seq<Step>)
    requires DeletePolicy(spec) != "Retain" && DeletePolicy(retaining) == "Retain"
    ensures var w := Run(EMPTY, steps);
            && k in w.workers && w.workers[k].Finalizing? && w.workers[k].final.AtDetach?
            && DeletePolicy(w.workers[k].gs.spec) == "Retain" && PvcKey(k) in w.store.pvcs
            && !SurvivesAll(Apply(w, Advance(k, true, k)), PvcKey(k), w.store.pvcs[PvcKey(k)].volume)
  {
    steps := MakeLeftBehind(k, spec);
    steps := MakeReady(steps, k, retaining);
    steps := MakeDetaching(steps, k, retaining);
    var w := Run(EMPTY, steps);
    assert 0 in w.store.pvcs[PvcKey(k)].owners && w.workers[k].gs.uid != 0;
    RetainedDataSurvives(steps, k, k);
  }
}
