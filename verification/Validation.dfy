/** internal/validation/gameserver.go: the check of the effective spec. */
module Validation {
  import opened Core
  import opened Api

  datatype Violation =
    | EmptyImage
    | EmptyName(i: nat)
    | DuplicateName(i: nat)
    | BadContainerPort(i: nat)
    | BadNodePort(i: nat)
    | NegativeCount
    | NegativeStart
    | BadLifecyclePolicy
    | BadStoragePolicy
    | BadBackupPolicy
    | ForeignClaim
    | BadRestartPolicy

  predicate DeletePolicyKnown(p: string) {
    p == "" || p == "Delete" || p == "Retain"
  }

  predicate BackupPolicyKnown(p: string) {
    p == "" || p == "None" || p == "Snapshot" || p == "Backup"
  }

  predicate NodePortAllowed(p: int) {
    p == 0 || 30000 <= p <= 32767
  }

  /** What each message means. */
  predicate Violates(spec: Spec, v: Violation) {
    var ports := spec.network.ports;
    match v
    case EmptyImage => spec.game.image == ""
    case EmptyName(i) => i < |ports| && ports[i].name == ""
    case DuplicateName(i) => i < |ports| && ports[i].name != "" && exists j :: 0 <= j < i && ports[j].name == ports[i].name
    case BadContainerPort(i) => i < |ports| && !(1 <= ports[i].containerPort <= 65535)
    case BadNodePort(i) => i < |ports| && !NodePortAllowed(ports[i].nodePort)
    case NegativeCount => spec.network.nodePortAllocation.Some? && spec.network.nodePortAllocation.value.count < 0
    case NegativeStart => spec.network.nodePortAllocation.Some? && spec.network.nodePortAllocation.value.startPort < 0
    case BadLifecyclePolicy => !DeletePolicyKnown(spec.lifecycle.deletePolicy)
    case BadStoragePolicy => !DeletePolicyKnown(spec.storage.deletePolicy)
    case BadBackupPolicy => !BackupPolicyKnown(spec.storage.backupPolicy)
    case ForeignClaim => spec.storage.existingClaim != ""
    case BadRestartPolicy => spec.lifecycle.restartPolicy != "" && spec.lifecycle.restartPolicy != "Always"
  }

  predicate ValidPorts(ports: seq<PortSpec>) {
    && (forall i | 0 <= i < |ports| ::
          ports[i].name != "" && 1 <= ports[i].containerPort <= 65535 && NodePortAllowed(ports[i].nodePort))
    && (forall i, j | 0 <= i < j < |ports| :: ports[i].name != ports[j].name)
  }

  predicate ValidNetwork(n: NetworkSpec) {
    && ValidPorts(n.ports)
    && (n.nodePortAllocation.Some? ==> n.nodePortAllocation.value.count >= 0 && n.nodePortAllocation.value.startPort >= 0)
  }

  /** The well-formed specs. */
  predicate Valid(spec: Spec) {
    && spec.game.image != ""
    && ValidNetwork(spec.network)
    && DeletePolicyKnown(spec.lifecycle.deletePolicy)
    && DeletePolicyKnown(spec.storage.deletePolicy)
    && BackupPolicyKnown(spec.storage.backupPolicy)
    && spec.storage.existingClaim == ""
    && (spec.lifecycle.restartPolicy == "" || spec.lifecycle.restartPolicy == "Always")
  }

  /** The well-formed specs, spelled out. */
  lemma ValidSpelledOut(spec: Spec)
    ensures Valid(spec) <==>
            && spec.game.image != ""
            && (forall i | 0 <= i < |spec.network.ports| ::
                  var p := spec.network.ports[i];
                  && p.name != "" && 1 <= p.containerPort <= 65535 && (p.nodePort == 0 || 30000 <= p.nodePort <= 32767)
                  && forall j | 0 <= j < i :: spec.network.ports[j].name != p.name)
            && (spec.network.nodePortAllocation.Some? ==>
                  spec.network.nodePortAllocation.value.count >= 0 && spec.network.nodePortAllocation.value.startPort >= 0)
            && spec.lifecycle.deletePolicy in {"", "Delete", "Retain"}
            && spec.storage.deletePolicy in {"", "Delete", "Retain"}
            && spec.storage.backupPolicy in {"", "None", "Snapshot", "Backup"}
            && spec.storage.existingClaim == ""
            && spec.lifecycle.restartPolicy in {"", "Always"}
  {
  }

  /** Reports exactly the violations, so nothing exactly when the spec is well formed. */
  method ValidateEffective(spec: Spec) returns (errs: seq<Violation>)
    ensures forall v :: v in errs <==> Violates(spec, v)
    ensures errs == [] <==> Valid(spec)
  {
    var ports := ValidatePortList(spec);
    var rest := ValidateRest(spec);
    errs := ports + rest;
    ValidExact(spec, errs);
  }

  /** The violations of a spec are those of another one except this one. */
  ghost predicate Repairs(before: Spec, after: Spec, fixed: Violation) {
    forall v :: Violates(after, v) <==> Violates(before, v) && v != fixed
  }

  function WithPort(spec: Spec, i: nat, p: PortSpec): (r: Spec)
    requires i < |spec.network.ports|
  {
    spec.(network := spec.network.(ports := spec.network.ports[i := p]))
  }

  lemma SameNames(a: Spec, b: Spec, v: Violation)
    requires |a.network.ports| == |b.network.ports|
    requires forall j | 0 <= j < |a.network.ports| :: a.network.ports[j].name == b.network.ports[j].name
    ensures v.DuplicateName? ==> (Violates(a, v) <==> Violates(b, v))
  {
    if v.DuplicateName? && v.i < |a.network.ports| {
      assert forall j | 0 <= j < v.i :: a.network.ports[j].name == b.network.ports[j].name;
    }
  }

  /** Each message is about one field of one port: repairing that field takes away that message and no other. */
  lemma PortRepairs(spec: Spec, i: nat)
    requires i < |spec.network.ports|
    ensures Repairs(spec, WithPort(spec, i, spec.network.ports[i].(containerPort := 65535)), BadContainerPort(i))
    ensures Repairs(spec, WithPort(spec, i, spec.network.ports[i].(nodePort := 32767)), BadNodePort(i))
  {
    var a := WithPort(spec, i, spec.network.ports[i].(containerPort := 65535));
    forall v ensures Violates(a, v) <==> Violates(spec, v) && v != BadContainerPort(i) {
      SameNames(spec, a, v);
    }
    var b := WithPort(spec, i, spec.network.ports[i].(nodePort := 32767));
    forall v ensures Violates(b, v) <==> Violates(spec, v) && v != BadNodePort(i) {
      SameNames(spec, b, v);
    }
  }

  /** Nameless ports are no duplicates of each other: a new name takes away just that message. */
  lemma NameRepairs(spec: Spec, i: nat, name: string)
    requires i < |spec.network.ports| && spec.network.ports[i].name == "" && name != ""
    requires forall j | 0 <= j < |spec.network.ports| :: spec.network.ports[j].name != name
    ensures Repairs(spec, WithPort(spec, i, spec.network.ports[i].(name := name)), EmptyName(i))
  {
    var ports := spec.network.ports;
    var a := WithPort(spec, i, ports[i].(name := name));
    forall v ensures Violates(a, v) <==> Violates(spec, v) && v != EmptyName(i) {
      if v.DuplicateName? && v.i < |ports| {
        assert forall j | 0 <= j < |ports| && j != i :: a.network.ports[j] == ports[j];
      }
    }
  }

  lemma SpecRepairs(spec: Spec)
    ensures Repairs(spec, spec.(game := spec.game.(image := "image")), EmptyImage)
    ensures Repairs(spec, spec.(lifecycle := spec.lifecycle.(deletePolicy := "Retain")), BadLifecyclePolicy)
    ensures Repairs(spec, spec.(lifecycle := spec.lifecycle.(restartPolicy := "Always")), BadRestartPolicy)
  {
  }

  lemma RangeRepairs(spec: Spec, a: NodePortAllocation)
    requires spec.network.nodePortAllocation == Some(a)
    ensures Repairs(spec, spec.(network := spec.network.(nodePortAllocation := Some(a.(count := 0)))), NegativeCount)
    ensures Repairs(spec, spec.(network := spec.network.(nodePortAllocation := Some(a.(startPort := 0)))), NegativeStart)
  {
  }

  lemma StorageRepairs(spec: Spec)
    ensures Repairs(spec, spec.(storage := spec.storage.(deletePolicy := "Retain")), BadStoragePolicy)
    ensures Repairs(spec, spec.(storage := spec.storage.(backupPolicy := "Snapshot")), BadBackupPolicy)
    ensures Repairs(spec, spec.(storage := spec.storage.(existingClaim := "")), ForeignClaim)
  {
  }

  predicate AboutPorts(v: Violation) {
    v.EmptyName? || v.DuplicateName? || v.BadContainerPort? || v.BadNodePort?
  }

  method ValidatePortList(spec: Spec) returns (errs: seq<Violation>)
    ensures forall v :: v in errs <==> AboutPorts(v) && Violates(spec, v)
  {
    errs := [];
    var seen: set<string> := {};
    var ports := spec.network.ports;
    for i := 0 to |ports|
      invariant forall s :: s in seen <==> exists j :: 0 <= j < i && ports[j].name == s
      invariant forall v :: v in errs <==> AboutPorts(v) && v.i < i && Violates(spec, v)
    {
      var p := ports[i];
      ghost var before := errs;
      if p.name == "" {
        errs := errs + [EmptyName(i)];
      }
      if p.name in seen && p.name != "" {
        errs := errs + [DuplicateName(i)];
      }
      seen := seen + {p.name};
      if p.containerPort <= 0 || p.containerPort > 65535 {
        errs := errs + [BadContainerPort(i)];
      }
      if p.nodePort < 0 || (p.nodePort > 0 && p.nodePort < 30000) || p.nodePort > 32767 {
        errs := errs + [BadNodePort(i)];
      }
      assert forall v :: v in errs <==> v in before || (AboutPorts(v) && v.i == i && Violates(spec, v));
    }
  }

  /** Append a message when its condition holds. */
  method Report(errs: seq<Violation>, bad: bool, v: Violation) returns (r: seq<Violation>)
    ensures forall x :: x in r <==> x in errs || (bad && x == v)
  {
    r := if bad then errs + [v] else errs;
  }

  method ValidateRest(spec: Spec) returns (errs: seq<Violation>)
    ensures forall v :: v in errs <==> !AboutPorts(v) && Violates(spec, v)
  {
    errs := Report([], spec.game.image == "", EmptyImage);
    var allocation := spec.network.nodePortAllocation;
    if allocation.Some? {
      errs := Report(errs, allocation.value.count < 0, NegativeCount);
      errs := Report(errs, allocation.value.startPort < 0, NegativeStart);
    }
    assert forall v :: v in errs <==> (v.EmptyImage? || v.NegativeCount? || v.NegativeStart?) && Violates(spec, v);
    var policies := ValidatePolicies(spec);
    errs := errs + policies;
  }

  predicate AboutPolicies(v: Violation) {
    v.BadLifecyclePolicy? || v.BadStoragePolicy? || v.BadBackupPolicy? || v.ForeignClaim? || v.BadRestartPolicy?
  }

  method ValidatePolicies(spec: Spec) returns (errs: seq<Violation>)
    ensures forall v :: v in errs <==> AboutPolicies(v) && Violates(spec, v)
  {
    errs := Report([], !DeletePolicyKnown(spec.lifecycle.deletePolicy), BadLifecyclePolicy);
    errs := Report(errs, !DeletePolicyKnown(spec.storage.deletePolicy), BadStoragePolicy);
    errs := Report(errs, !BackupPolicyKnown(spec.storage.backupPolicy), BadBackupPolicy);
    errs := Report(errs, spec.storage.existingClaim != "", ForeignClaim);
    errs := Report(errs, spec.lifecycle.restartPolicy != "" && spec.lifecycle.restartPolicy != "Always", BadRestartPolicy);
  }

  lemma ValidPortsExact(spec: Spec)
    requires forall v | AboutPorts(v) :: !Violates(spec, v)
    ensures ValidPorts(spec.network.ports)
  {
    var ports := spec.network.ports;
    forall i | 0 <= i < |ports|
      ensures ports[i].name != "" && 1 <= ports[i].containerPort <= 65535 && NodePortAllowed(ports[i].nodePort)
      ensures forall j | 0 <= j < i :: ports[j].name != ports[i].name
    {
      assert !Violates(spec, EmptyName(i)) && !Violates(spec, DuplicateName(i));
      assert !Violates(spec, BadContainerPort(i)) && !Violates(spec, BadNodePort(i));
    }
  }

  lemma ValidExact(spec: Spec, errs: seq<Violation>)
    requires forall v :: v in errs <==> Violates(spec, v)
    ensures errs == [] <==> Valid(spec)
  {
    if errs == [] {
      assert forall v :: v !in errs;
      ValidPortsExact(spec);
      assert !Violates(spec, EmptyImage) && !Violates(spec, NegativeCount) && !Violates(spec, NegativeStart);
      assert !Violates(spec, BadLifecyclePolicy) && !Violates(spec, BadStoragePolicy) && !Violates(spec, BadBackupPolicy);
      assert !Violates(spec, ForeignClaim) && !Violates(spec, BadRestartPolicy);
    } else {
      ViolatedIsInvalid(spec, errs[0]);
    }
  }

  lemma ViolatedIsInvalid(spec: Spec, v: Violation)
    requires Violates(spec, v)
    ensures !Valid(spec)
  {
  }
}
