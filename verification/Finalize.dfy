/** controllers/gameserver_finalize.go: cleanup before a server object disappears. */
module Finalize {
  import opened Core
  import opened Api
  import opened Renderer
  import opened Cluster

  const FINALIZER := "gameserver.pterodactyl.io/finalizer"

  /** The storage policy wins over the older lifecycle policy; the default is Delete. */
  function DeletePolicy(spec: Spec): (p: string)
    ensures p != ""
    ensures p == "Retain" <==>
            spec.storage.deletePolicy == "Retain" || (spec.storage.deletePolicy == "" && spec.lifecycle.deletePolicy == "Retain")
  {
    if spec.storage.deletePolicy != "" then spec.storage.deletePolicy
    else if spec.lifecycle.deletePolicy != "" then spec.lifecycle.deletePolicy
    else "Delete"
  }

  // ---------------------------------------------------------------- the owner reference filter

  function Without(refs: seq<nat>, uid: nat): (r: seq<nat>)
    ensures |r| <= |refs|
    ensures uid !in r && forall u | u in r :: u in refs
  {
    if refs == [] then []
    else
      var n := |refs| - 1;
      if refs[n] == uid then Without(refs[..n], uid) else Without(refs[..n], uid) + [refs[n]]
  }

  /** The filter keeps every other owner as often as before and in the same order. */
  lemma {:induction false} WithoutKeepsOthers(a: seq<nat>, b: seq<nat>, uid: nat)
    ensures Without(a + b, uid) == Without(a, uid) + Without(b, uid)
    ensures uid !in b ==> Without(b, uid) == b
    decreases |b|
  {
    if b == [] {
      assert a + b == a;
      assert Without(a, uid) + [] == Without(a, uid);
    } else {
      var n := |b| - 1;
      assert (a + b)[..|a + b| - 1] == a + b[..n];
      assert b == b[..n] + [b[n]] && b[n] in b;
      WithoutKeepsOthers(a, b[..n], uid);
      assert Without(a, uid) + (Without(b[..n], uid) + [b[n]]) == Without(a, uid) + Without(b[..n], uid) + [b[n]];
    }
  }

  /** The loop of detachPVC: it writes into the slice it is reading. */
  method FilterInPlace(refs: array<nat>, uid: nat) returns (kept: nat)
    modifies refs
    ensures kept <= refs.Length
    ensures refs[..kept] == Without(old(refs[..]), uid)
  {
    kept := 0;
    ghost var before := refs[..];
    for i := 0 to refs.Length
      invariant kept <= i
      invariant refs[..kept] == Without(before[..i], uid)
      invariant forall j | i <= j < refs.Length :: refs[j] == before[j]
    {
      var ref := refs[i];
      assert before[..i + 1][..i] == before[..i];
      if ref != uid {
        refs[kept] := ref;
        kept := kept + 1;
      }
    }
    assert before[..refs.Length] == before;
  }

  // ---------------------------------------------------------------- effects on the store

  function Detached(s: Store, k: Key, uid: nat): (r: Store) {
    if PvcKey(k) in s.pvcs then
      s.(pvcs := s.pvcs[PvcKey(k) := s.pvcs[PvcKey(k)].(owners := Without(s.pvcs[PvcKey(k)].owners, uid))])
    else s
  }

  /** The object vanishes when it is being deleted and its last finalizer goes. */
  function FinalizerRemoved(s: Store, k: Key): (r: Store) {
    if k !in s.servers then s
    else
      var current := s.servers[k].(finalizers := s.servers[k].finalizers - {FINALIZER});
      if current.deleting && current.finalizers == {} then s.(servers := s.servers - {k})
      else s.(servers := s.servers[k := current])
  }

  function Stopped(s: Store, k: Key): (r: Store) {
    if k in s.servers then s.(servers := s.servers[k := s.servers[k].(status := s.servers[k].status.(phase := Stopping))]) else s
  }

  datatype Call = StopPatch | ReleasePorts | GetPvc | PatchPvc | Refetch | RemovePatch

  ghost function StopTried(s: Store, k: Key, fails: Call -> bool): (r: Store) {
    if fails(StopPatch) then s else Stopped(s, k)
  }

  ghost predicate DetachWorks(s: Store, k: Key, fails: Call -> bool) {
    !fails(GetPvc) && !(PvcKey(k) in s.pvcs && fails(PatchPvc))
  }

  /** The detach of a finalizing pass, attempted only under policy Retain. */
  ghost function DetachTried(s: Store, gs: GameServer, fails: Call -> bool): (r: Store) {
    if DeletePolicy(gs.spec) == "Retain" && DetachWorks(s, gs.key, fails) then Detached(s, gs.key, gs.uid) else s
  }

  method DetachPvc(api: ApiServer, k: Key, uid: nat, fails: Call -> bool) returns (r: Result<()>)
    modifies api
    ensures r.Ok? ==> api.store == Detached(old(api.store), k, uid)
    ensures r.Err? ==> api.store == old(api.store)
    ensures r.Ok? <==> DetachWorks(old(api.store), k, fails)
  {
    if fails(GetPvc) {
      return Err("get claim");
    }
    if PvcKey(k) !in api.store.pvcs {
      return Ok(());
    }
    var pvc := api.store.pvcs[PvcKey(k)];
    var refs := new nat[|pvc.owners|](i requires 0 <= i < |pvc.owners| => pvc.owners[i]);
    assert refs[..] == pvc.owners;
    var kept := FilterInPlace(refs, uid);
    if fails(PatchPvc) {
      return Err("patch claim");
    }
    api.store := api.store.(pvcs := api.store.pvcs[PvcKey(k) := pvc.(owners := refs[..kept])]);
    return Ok(());
  }

  ghost function AfterDetach(s0: Store, gs: GameServer, fails: Call -> bool): (s: Store) {
    DetachTried(StopTried(s0, gs.key, fails), gs, fails)
  }

  /** Release comes first, then the detach of a retained claim, then the finalizer goes. A failed
      detach is only logged; a failed release ends the pass with claim and finalizer untouched. */
  ghost predicate FinalizeDone(s0: Store, s: Store, gs: GameServer, fails: Call -> bool, r: Result<()>) {
    var s2 := AfterDetach(s0, gs, fails);
    && (r.Ok? <==> !fails(ReleasePorts) && !fails(Refetch) && !(gs.key in s2.servers && fails(RemovePatch)))
    && (fails(ReleasePorts) ==> s == StopTried(s0, gs.key, fails))
    && (!fails(ReleasePorts) ==> s == if r.Ok? then FinalizerRemoved(s2, gs.key) else s2)
  }

  method RunFinalizer(api: ApiServer, gs: GameServer, fails: Call -> bool) returns (r: Result<()>)
    modifies api
    ensures FinalizeDone(old(api.store), api.store, gs, fails, r)
  {
    var k := gs.key;
    if !fails(StopPatch) && k in api.store.servers {
      var stopped := api.store.servers[k].(status := api.store.servers[k].status.(phase := Stopping));
      api.store := api.store.(servers := api.store.servers[k := stopped]);
    }
    if fails(ReleasePorts) {
      return Err("releasing ports");
    }
    if DeletePolicy(gs.spec) == "Retain" {
      var _ := DetachPvc(api, k, gs.uid, fails);
    }
    if fails(Refetch) {
      return Err("refetch");
    }
    if k !in api.store.servers {
      return Ok(());
    }
    if fails(RemovePatch) {
      return Err("removing finalizer");
    }
    var current := api.store.servers[k].(finalizers := api.store.servers[k].finalizers - {FINALIZER});
    if current.deleting && current.finalizers == {} {
      api.store := api.store.(servers := api.store.servers - {k});
    } else {
      api.store := api.store.(servers := api.store.servers[k := current]);
    }
    return Ok(());
  }

  ghost predicate OnlyClaimTouched(s0: Store, s: Store, gs: GameServer) {
    && s.secrets == s0.secrets && s.services == s0.services && s.workloads == s0.workloads && s.pvcs.Keys == s0.pvcs.Keys
    && forall p | p in s0.pvcs && (p != PvcKey(gs.key) || DeletePolicy(gs.spec) != "Retain") :: s.pvcs[p] == s0.pvcs[p]
  }

  lemma DetachTouchesClaim(s0: Store, gs: GameServer, fails: Call -> bool)
    ensures OnlyClaimTouched(s0, AfterDetach(s0, gs, fails), gs)
    ensures OnlyClaimTouched(s0, Stopped(s0, gs.key), gs)
    ensures AfterDetach(s0, gs, fails).servers.Keys == s0.servers.Keys
  {
    StoppedTouchesServer(s0, gs.key);
    DetachedTouchesClaim(s0, gs.key, gs.uid);
    DetachedTouchesClaim(Stopped(s0, gs.key), gs.key, gs.uid);
  }

  lemma StoppedTouchesServer(s: Store, k: Key)
    ensures var r := Stopped(s, k); r == s.(servers := r.servers) && r.servers.Keys == s.servers.Keys
  {
  }

  lemma DetachedTouchesClaim(s: Store, k: Key, uid: nat)
    ensures var r := Detached(s, k, uid);
            && r == s.(pvcs := r.pvcs) && r.pvcs.Keys == s.pvcs.Keys
            && forall p | p in s.pvcs && p != PvcKey(k) :: r.pvcs[p] == s.pvcs[p]
  {
  }

  lemma RemovalTouchesServer(s: Store, k: Key)
    ensures var r := FinalizerRemoved(s, k);
            && r == s.(servers := r.servers)
            && (k !in r.servers || FINALIZER !in r.servers[k].finalizers)
  {
  }

  /** A finalizing pass writes no child but its claim's owners, and succeeds only by removing the finalizer. */
  lemma FinalizeSparesChildren(s0: Store, s: Store, gs: GameServer, fails: Call -> bool, r: Result<()>)
    requires FinalizeDone(s0, s, gs, fails, r)
    ensures OnlyClaimTouched(s0, s, gs)
    ensures r.Ok? ==> gs.key !in s.servers || FINALIZER !in s.servers[gs.key].finalizers
    ensures r.Err? ==> s.servers.Keys == s0.servers.Keys
  {
    DetachTouchesClaim(s0, gs, fails);
    RemovalTouchesServer(AfterDetach(s0, gs, fails), gs.key);
  }

  /** What the detach leaves of the claim: everything but the references of this object. */
  ghost predicate ClaimAfter(s0: Store, s: Store, gs: GameServer, detached: bool) {
    var p := Key(gs.key.namespace, gs.key.name + "-data");
    && s.pvcs.Keys == s0.pvcs.Keys
    && (forall q | q in s0.pvcs && q != p :: s.pvcs[q] == s0.pvcs[q])
    && (p in s0.pvcs ==>
          && s.pvcs[p] == s0.pvcs[p].(owners := s.pvcs[p].owners)
          && forall u :: multiset(s.pvcs[p].owners)[u] == if detached && u == gs.uid then 0 else multiset(s0.pvcs[p].owners)[u])
  }

  lemma {:induction false} WithoutCounts(refs: seq<nat>, uid: nat, u: nat)
    ensures multiset(Without(refs, uid))[u] == if u == uid then 0 else multiset(refs)[u]
  {
    if refs != [] {
      var n := |refs| - 1;
      assert refs == refs[..n] + [refs[n]];
      WithoutCounts(refs[..n], uid, u);
    }
  }

  lemma DetachedClaim(s: Store, gs: GameServer)
    ensures ClaimAfter(s, Detached(s, gs.key, gs.uid), gs, true) && ClaimAfter(s, s, gs, false)
  {
    if PvcKey(gs.key) in s.pvcs {
      forall u ensures multiset(Without(s.pvcs[PvcKey(gs.key)].owners, gs.uid))[u] ==
                       if u == gs.uid then 0 else multiset(s.pvcs[PvcKey(gs.key)].owners)[u]
      {
        WithoutCounts(s.pvcs[PvcKey(gs.key)].owners, gs.uid, u);
      }
    }
  }

  /** The server after a finalizing pass: other servers are untouched, the phase is Stopping if that patch
      landed, and a successful pass takes off the operator's finalizer and no other. The object goes exactly
      when it is being deleted and nobody else holds it. */
  ghost predicate ServerAfter(s0: Store, s: Store, gs: GameServer, stopped: bool, removed: bool)
    requires gs.key in s0.servers
  {
    var before := s0.servers[gs.key];
    && (forall j | j != gs.key :: j in s.servers <==> j in s0.servers)
    && (forall j | j in s0.servers && j != gs.key :: s.servers[j] == s0.servers[j])
    && (gs.key !in s.servers <==> removed && before.deleting && before.finalizers <= {"gameserver.pterodactyl.io/finalizer"})
    && (gs.key in s.servers ==>
          var after := s.servers[gs.key];
          && after == before.(finalizers := after.finalizers, status := before.status.(phase := after.status.phase))
          && after.finalizers == (if removed then before.finalizers - {"gameserver.pterodactyl.io/finalizer"} else before.finalizers)
          && after.status.phase == (if stopped then Stopping else before.status.phase))
  }

  lemma StoppedServer(s0: Store, gs: GameServer)
    requires gs.key in s0.servers
    ensures ServerAfter(s0, Stopped(s0, gs.key), gs, true, false) && ServerAfter(s0, s0, gs, false, false)
  {
  }

  lemma RemovedServer(s0: Store, s: Store, gs: GameServer, stopped: bool)
    requires gs.key in s0.servers && ServerAfter(s0, s, gs, stopped, false)
    ensures ServerAfter(s0, FinalizerRemoved(s, gs.key), gs, stopped, true)
  {
  }

  lemma ServerAfterDetach(s0: Store, gs: GameServer, fails: Call -> bool)
    requires gs.key in s0.servers
    ensures ServerAfter(s0, StopTried(s0, gs.key, fails), gs, !fails(StopPatch), false)
    ensures ServerAfter(s0, AfterDetach(s0, gs, fails), gs, !fails(StopPatch), false)
  {
    StoppedServer(s0, gs);
    DetachedTouchesClaim(StopTried(s0, gs.key, fails), gs.key, gs.uid);
  }

  lemma ClaimAfterDetach(s0: Store, gs: GameServer, fails: Call -> bool)
    ensures ClaimAfter(s0, StopTried(s0, gs.key, fails), gs, false)
    ensures ClaimAfter(s0, AfterDetach(s0, gs, fails), gs, DeletePolicy(gs.spec) == "Retain" && !fails(GetPvc) && !fails(PatchPvc))
  {
    StoppedTouchesServer(s0, gs.key);
    DetachedClaim(StopTried(s0, gs.key, fails), gs);
  }

  /** A finalizing pass, object by object. */
  lemma FinalizeExact(s0: Store, s: Store, gs: GameServer, fails: Call -> bool, r: Result<()>)
    requires FinalizeDone(s0, s, gs, fails, r) && gs.key in s0.servers
    ensures r.Ok? <==> !fails(ReleasePorts) && !fails(Refetch) && !fails(RemovePatch)
    ensures ServerAfter(s0, s, gs, !fails(StopPatch), r.Ok?)
    ensures ClaimAfter(s0, s, gs, !fails(ReleasePorts) && DeletePolicy(gs.spec) == "Retain" && !fails(GetPvc) && !fails(PatchPvc))
  {
    var s2 := AfterDetach(s0, gs, fails);
    ServerAfterDetach(s0, gs, fails);
    ClaimAfterDetach(s0, gs, fails);
    RemovedServer(s0, s2, gs, !fails(StopPatch));
    RemovalTouchesServer(s2, gs.key);
  }
}
