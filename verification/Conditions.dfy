/** controllers/helpers/conditions.go: the condition list and its transition times. */
module Conditions {
  import opened Core
  import opened Api

  /** The position of the first condition of a kind, |cs| when there is none. */
  function Find(cs: seq<Condition>, kind: string): (i: nat)
    ensures i <= |cs|
    ensures i < |cs| ==> cs[i].kind == kind
    ensures forall j | 0 <= j < i :: cs[j].kind != kind
  {
    if cs == [] then 0 else if cs[0].kind == kind then 0 else 1 + Find(cs[1..], kind)
  }

  function Lookup(cs: seq<Condition>, kind: string): (c: Option<Condition>) {
    if Find(cs, kind) < |cs| then Some(cs[Find(cs, kind)]) else None
  }

  predicate IsTrue(cs: seq<Condition>, kind: string) {
    Lookup(cs, kind).Some? && Lookup(cs, kind).value.status
  }

  predicate IsFalse(cs: seq<Condition>, kind: string) {
    Lookup(cs, kind).Some? && !Lookup(cs, kind).value.status
  }

  predicate UniqueKinds(cs: seq<Condition>) {
    forall i, j | 0 <= i < j < |cs| :: cs[i].kind != cs[j].kind
  }

  function Upsert(cs: seq<Condition>, c: Condition, now: int): (r: seq<Condition>) {
    var i := Find(cs, c.kind);
    if i < |cs| then
      cs[i := c.(transition := if cs[i].status != c.status then now else cs[i].transition)]
    else cs + [c.(transition := now)]
  }

  method SetCondition(gs: GameServerRef, c: Condition, now: int)
    modifies gs
    ensures gs.value == old(gs.value).(status := old(gs.value.status).(conditions := Upsert(old(gs.value.status.conditions), c, now)))
  {
    var cs := gs.value.status.conditions;
    for i := 0 to |cs|
      invariant gs.value == old(gs.value)
      invariant forall j | 0 <= j < i :: cs[j].kind != c.kind
    {
      var existing := cs[i];
      if existing.kind != c.kind {
        continue;
      }
      var t := if existing.status != c.status then now else existing.transition;
      gs.value := gs.value.(status := gs.value.status.(conditions := cs[i := c.(transition := t)]));
      return;
    }
    gs.value := gs.value.(status := gs.value.status.(conditions := cs + [c.(transition := now)]));
  }

  /** One call touches one kind: that kind reads back as written, every other kind is unchanged. */
  lemma UpsertLookup(cs: seq<Condition>, c: Condition, now: int, kind: string)
    requires UniqueKinds(cs)
    ensures UniqueKinds(Upsert(cs, c, now))
    ensures var before := Lookup(cs, c.kind);
            Lookup(Upsert(cs, c, now), c.kind) ==
            Some(c.(transition := if before.Some? && before.value.status == c.status then before.value.transition else now))
    ensures kind != c.kind ==> Lookup(Upsert(cs, c, now), kind) == Lookup(cs, kind)
    ensures |Upsert(cs, c, now)| == |cs| + (if Lookup(cs, c.kind).Some? then 0 else 1)
    ensures forall i | 0 <= i < |cs| :: Upsert(cs, c, now)[i].kind == cs[i].kind
  {
    var r, i := Upsert(cs, c, now), Find(cs, c.kind);
    assert r[i].kind == c.kind;
    FindUnique(r, i);
    if kind != c.kind {
      var k := Find(cs, kind);
      if k < |cs| {
        assert r[k] == cs[k];
        FindUnique(r, k);
      } else {
        assert forall j | 0 <= j < |cs| :: cs[j].kind != kind;
        assert forall j | 0 <= j < |r| :: r[j].kind != kind;
      }
    }
  }

  lemma FindUnique(cs: seq<Condition>, i: nat)
    requires UniqueKinds(cs) && i < |cs|
    ensures Find(cs, cs[i].kind) == i
  {
  }

  // ---------------------------------------------------------------- histories of calls

  datatype Call = Call(c: Condition, now: int)

  function Replay(calls: seq<Call>): (cs: seq<Condition>) {
    if calls == [] then []
    else var n := |calls| - 1; Upsert(Replay(calls[..n]), calls[n].c, calls[n].now)
  }

  /** The last call among the first n that is about a kind, -1 when there is none. */
  function LastOf(calls: seq<Call>, n: nat, kind: string): (i: int)
    requires n <= |calls|
    ensures -1 <= i < n
    ensures i >= 0 ==> calls[i].c.kind == kind
    ensures forall j | i < j < n :: calls[j].c.kind != kind
  {
    if n == 0 then -1 else if calls[n - 1].c.kind == kind then n - 1 else LastOf(calls, n - 1, kind)
  }

  /** Call i inserts its kind or changes its status. */
  predicate Transitions(calls: seq<Call>, i: nat)
    requires i < |calls|
  {
    var p := LastOf(calls, i, calls[i].c.kind);
    p < 0 || calls[p].c.status != calls[i].c.status
  }

  /** Call i is the latest one that inserted the kind or changed its status. */
  predicate LatestTransition(calls: seq<Call>, n: nat, kind: string, i: nat)
    requires n <= |calls|
  {
    && i < n && calls[i].c.kind == kind && Transitions(calls, i)
    && forall j | i < j < n && calls[j].c.kind == kind :: !Transitions(calls, j)
  }

  /** A kind is present exactly when some call named it, it shows the last call's content, and its
      time is that of the latest transition i. */
  ghost predicate Shows(calls: seq<Call>, n: nat, kind: string, found: Option<Condition>, i: nat)
    requires n <= |calls|
  {
    var last := LastOf(calls, n, kind);
    && (last < 0 <==> found.None?)
    && (last >= 0 ==> LatestTransition(calls, n, kind, i) && found == Some(calls[last].c.(transition := calls[i].now)))
  }

  lemma ShowsNext(calls: seq<Call>, n: nat, kind: string, before: Option<Condition>, after: Option<Condition>, i: nat) returns (j: nat)
    requires n < |calls| && Shows(calls, n, kind, before, i)
    requires var c := calls[n].c;
             if c.kind != kind then after == before
             else after == Some(c.(transition := if before.Some? && before.value.status == c.status then before.value.transition
                                                 else calls[n].now))
    ensures Shows(calls, n + 1, kind, after, j)
  {
    j := if calls[n].c.kind == kind && Transitions(calls, n) then n else i;
  }

  /** After any calls: kinds are unique, and each kind shows the last call's content and the time of the
      latest transition. */
  lemma {:induction false} TransitionHistory(calls: seq<Call>, n: nat, kind: string) returns (i: nat)
    requires n <= |calls|
    ensures UniqueKinds(Replay(calls[..n]))
    ensures Shows(calls, n, kind, Lookup(Replay(calls[..n]), kind), i)
    decreases n
  {
    if n == 0 {
      i := 0;
      assert calls[..0] == [];
    } else {
      var call, before := calls[n - 1], Replay(calls[..n - 1]);
      assert calls[..n][..n - 1] == calls[..n - 1];
      i := TransitionHistory(calls, n - 1, kind);
      UpsertLookup(before, call.c, call.now, kind);
      i := ShowsNext(calls, n - 1, kind, Lookup(before, kind), Lookup(Upsert(before, call.c, call.now), kind), i);
    }
  }
}
