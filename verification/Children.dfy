/** What a pass leaves in the children, field by field, and how they refer to each other. */
module Children {
  import opened Core
  import opened Api
  import opened Renderer
  import opened Cluster
  import opened Reconcile

  // ---------------------------------------------------------------- labels

  const INSTANCE := "app.kubernetes.io/instance"

  const GAME := "gameserver.pterodactyl.io/game"

  lemma LabelKeysDiffer()
    ensures "app.kubernetes.io/name" !in {INSTANCE, "app.kubernetes.io/managed-by", NAME_LABEL, GAME}
    ensures INSTANCE !in {"app.kubernetes.io/managed-by", NAME_LABEL, GAME}
    ensures "app.kubernetes.io/managed-by" !in {NAME_LABEL, GAME}
    ensures NAME_LABEL != GAME
  {
    assert |"app.kubernetes.io/name"| == 22 && |INSTANCE| == 26 && |"app.kubernetes.io/managed-by"| == 28;
    assert |NAME_LABEL| == 30 && |GAME| == 30 && NAME_LABEL[26] == 'n' && GAME[26] == 'g';
  }

  /** The labels of every child: what it is, which server it belongs to, who manages it, and the game if
      there is one. */
  ghost predicate Labelled(l: Labels, k: Key, spec: Spec) {
    && "app.kubernetes.io/name" in l && l["app.kubernetes.io/name"] == "gameserver"
    && INSTANCE in l && l[INSTANCE] == k.name
    && "app.kubernetes.io/managed-by" in l && l["app.kubernetes.io/managed-by"] == "cube-operator"
    && "gameserver.pterodactyl.io/name" in l && l["gameserver.pterodactyl.io/name"] == k.name
    && (GAME in l <==> spec.game.gameType != "")
    && (GAME in l ==> l[GAME] == spec.game.gameType)
    && l.Keys <= {"app.kubernetes.io/name", INSTANCE, "app.kubernetes.io/managed-by", "gameserver.pterodactyl.io/name", GAME}
  }

  lemma LabelsExact(k: Key, spec: Spec)
    ensures Labelled(LabelsFor(k, spec), k, spec)
  {
    LabelKeysDiffer();
  }

  /** A selector chooses exactly by instance and server name. */
  ghost predicate Selects(selector: Labels, k: Key) {
    && selector.Keys == {INSTANCE, "gameserver.pterodactyl.io/name"}
    && selector[INSTANCE] == k.name && selector["gameserver.pterodactyl.io/name"] == k.name
  }

  lemma SelectorExact(k: Key)
    ensures Selects(SelectorFor(k), k)
  {
    LabelKeysDiffer();
  }

  // ---------------------------------------------------------------- the StatefulSet

  /** Pod template and replicas follow the effective spec. */
  ghost predicate WorkloadHolds(w: StatefulSet, k: Key, spec: Spec) {
    var c := w.template.container;
    && w.replicas == (if spec.lifecycle.suspended then 0 else 1)
    && c.image == spec.game.image && c.command == spec.game.command && c.args == spec.game.args && c.env == spec.game.env
    && c.secretRef == k.name + "-config" && w.template.claimName == k.name + "-data"
    && c.mountPath == (if spec.storage.mountPath == "" then "/data" else spec.storage.mountPath)
    && w.template.other == spec.other && Labelled(w.template.labels, k, spec)
    && |c.ports| == |spec.network.ports|
    && forall i | 0 <= i < |c.ports| ::
         && c.ports[i].name == spec.network.ports[i].name && c.ports[i].containerPort == spec.network.ports[i].containerPort
         && c.ports[i].protocol == if spec.network.ports[i].protocol == "" then "TCP" else spec.network.ports[i].protocol
  }

  /** What a write sets, and what only a creation sets. */
  ghost predicate WorkloadWritten(before: Option<StatefulSet>, after: StatefulSet, k: Key, owner: nat, spec: Spec) {
    match before
    case None =>
      && after.owners == [owner] && after.serviceName == k.name && Selects(after.selector, k) && Labelled(after.labels, k, spec)
    case Some(b) =>
      && after.owners == b.owners && after.serviceName == b.serviceName && after.selector == b.selector
      && (if (after.replicas, after.template) == (b.replicas, b.template) then after.labels == b.labels
          else Labelled(after.labels, k, spec))
  }

  lemma RenderedWorkload(k: Key, spec: Spec)
    ensures WorkloadHolds(RenderStatefulSet(k, spec), k, spec)
  {
    LabelsExact(k, spec);
  }

  lemma WorkloadExact(s: Store, k: Key, owner: nat, spec: Spec)
    ensures var m := WorkloadStep(s, k, owner, spec).workloads;
            k in m && WorkloadHolds(m[k], k, spec) && WorkloadWritten(Get(s.workloads, k), m[k], k, owner, spec)
  {
    RenderedWorkload(k, spec);
    LabelsExact(k, spec);
    SelectorExact(k);
  }

  // ---------------------------------------------------------------- the Secret

  /** The owner's three entries and the panel's one, each exactly when it is given. */
  ghost predicate SecretHolds(data: map<string, string>, spec: Spec) {
    && (forall key :: key in data <==> (spec.ownerRef.Some? && key in {"userId", "nodeId", "serverUid"})
                                       || (spec.pterodactyl.Some? && key == "pterodactylUUID"))
    && (spec.ownerRef.Some? ==>
          && data["userId"] == spec.ownerRef.value.userId && data["nodeId"] == spec.ownerRef.value.nodeId
          && data["serverUid"] == spec.ownerRef.value.serverUid)
    && (spec.pterodactyl.Some? ==> data["pterodactylUUID"] == spec.pterodactyl.value.serverUuid)
  }

  lemma RenderedSecret(k: Key, spec: Spec)
    ensures SecretHolds(RenderSecret(k, spec).data, spec)
  {
    assert |"userId"| == |"nodeId"| == 6 && "userId"[0] == 'u' && "nodeId"[0] == 'n';
    assert |"serverUid"| == 9 && |"pterodactylUUID"| == 15;
  }

  ghost predicate SecretWritten(before: Option<Secret>, after: Secret, k: Key, owner: nat, spec: Spec) {
    match before
    case None => after.owners == [owner] && Labelled(after.labels, k, spec)
    case Some(b) =>
      after.owners == b.owners && if after.data == b.data then after.labels == b.labels else Labelled(after.labels, k, spec)
  }

  lemma SecretExact(s: Store, k: Key, owner: nat, spec: Spec)
    ensures var m, key := SecretStep(s, k, owner, spec).secrets, Key(k.namespace, k.name + "-config");
            key in m && SecretHolds(m[key].data, spec) && SecretWritten(Get(s.secrets, key), m[key], k, owner, spec)
  {
    RenderedSecret(k, spec);
    LabelsExact(k, spec);
  }

  // ---------------------------------------------------------------- the claim

  /** A new claim asks for the storage of the spec and gets a volume of its own; an old one keeps everything
      but its labels. */
  ghost predicate ClaimWritten(before: Option<Pvc>, after: Pvc, k: Key, owner: nat, spec: Spec, volume: nat) {
    && Labelled(after.labels, k, spec)
    && match before
       case None => after.owners == [owner] && after.spec == spec.storage.volume && after.volume == volume
       case Some(b) => after == b.(labels := after.labels)
  }

  lemma ClaimExact(s: Store, k: Key, owner: nat, spec: Spec)
    ensures var r, key := PvcStep(s, k, owner, spec), Key(k.namespace, k.name + "-data");
            && key in r.pvcs && ClaimWritten(Get(s.pvcs, key), r.pvcs[key], k, owner, spec, s.nextId)
            && r.nextId == s.nextId + (if key in s.pvcs then 0 else 1)
  {
    LabelsExact(k, spec);
  }

  // ---------------------------------------------------------------- the Service

  /** One port per port of the spec, reached under the container's own number, and a selector for the server's pods. */
  ghost predicate ServiceHolds(v: Service, k: Key, spec: Spec) {
    && Selects(v.selector, k) && |v.ports| == |spec.network.ports|
    && forall i | 0 <= i < |v.ports| ::
         var p := spec.network.ports[i];
         && v.ports[i].name == (if p.name == "" then "port-" + Decimal(i) else p.name)
         && v.ports[i].protocol == (if p.protocol == "" then "TCP" else p.protocol)
         && v.ports[i].port == p.containerPort && v.ports[i].targetPort == p.containerPort
         && v.ports[i].nodePort == (if p.nodePort > 0 then p.nodePort else 0)
  }

  ghost predicate ServiceWritten(before: Option<Service>, after: Service, k: Key, owner: nat, spec: Spec) {
    match before
    case None =>
      && after.owners == [owner] && Labelled(after.labels, k, spec)
      && after.serviceType == if spec.network.serviceType == "" then "NodePort" else spec.network.serviceType
    case Some(b) =>
      && after.owners == b.owners && after.serviceType == b.serviceType
      && if (after.ports, after.selector) == (b.ports, b.selector) then after.labels == b.labels else Labelled(after.labels, k, spec)
  }

  lemma RenderedServicePorts(k: Key, spec: Spec)
    requires |spec.network.ports| > 0
    ensures ServiceHolds(RenderService(k, spec).value, k, spec)
  {
    SelectorExact(k);
  }

  lemma ServiceExact(s: Store, k: Key, owner: nat, spec: Spec)
    requires |spec.network.ports| > 0
    ensures var m := ServiceStep(s, k, owner, spec).services;
            k in m && ServiceHolds(m[k], k, spec) && ServiceWritten(Get(s.services, k), m[k], k, owner, spec)
  {
    RenderedServicePorts(k, spec);
    LabelsExact(k, spec);
  }

  // ---------------------------------------------------------------- a whole pass

  /** After a pass over the children each of them holds what the effective spec says. */
  lemma ChildrenHold(s: Store, k: Key, owner: nat, spec: Spec)
    ensures var r := Reconciled(s, k, owner, spec);
            var config, data := Key(k.namespace, k.name + "-config"), Key(k.namespace, k.name + "-data");
            && k in r.workloads && WorkloadHolds(r.workloads[k], k, spec)
            && WorkloadWritten(Get(s.workloads, k), r.workloads[k], k, owner, spec)
            && config in r.secrets && SecretHolds(r.secrets[config].data, spec)
            && SecretWritten(Get(s.secrets, config), r.secrets[config], k, owner, spec)
            && data in r.pvcs && ClaimWritten(Get(s.pvcs, data), r.pvcs[data], k, owner, spec, s.nextId)
            && (|spec.network.ports| > 0 ==>
                  && k in r.services && ServiceHolds(r.services[k], k, spec)
                  && ServiceWritten(Get(s.services, k), r.services[k], k, owner, spec))
            && (|spec.network.ports| == 0 ==> r.services == s.services)
  {
    ReconciledParts(s, k, owner, spec);
    WorkloadExact(s, k, owner, spec);
    SecretExact(s, k, owner, spec);
    ClaimExact(Cleaned(s, k), k, owner, spec);
    if |spec.network.ports| > 0 {
      ServiceExact(s, k, owner, spec);
    }
  }

  ghost predicate Contained(a: Labels, b: Labels) {
    forall key | key in a :: key in b && b[key] == a[key]
  }

  lemma SelectorFits(selector: Labels, l: Labels, k: Key, spec: Spec)
    requires Selects(selector, k) && Labelled(l, k, spec)
    ensures Contained(selector, l)
  {
  }

  /** The pods' config Secret and claim are stored under the names they use, and a new StatefulSet selects its pods. */
  lemma PodReferences(s: Store, k: Key, owner: nat, spec: Spec)
    ensures var r := Reconciled(s, k, owner, spec);
            && k in r.workloads
            && Key(k.namespace, r.workloads[k].template.container.secretRef) in r.secrets
            && Key(k.namespace, r.workloads[k].template.claimName) in r.pvcs
            && (k !in s.workloads ==> Contained(r.workloads[k].selector, r.workloads[k].template.labels))
  {
    ChildrenHold(s, k, owner, spec);
    var w := Reconciled(s, k, owner, spec).workloads[k];
    if k !in s.workloads {
      SelectorFits(w.selector, w.template.labels, k, spec);
    }
  }

  /** The Service selects the pods and reaches each container port under its own number. */
  lemma ServiceReachesPods(s: Store, k: Key, owner: nat, spec: Spec)
    requires |spec.network.ports| > 0
    ensures var r := Reconciled(s, k, owner, spec);
            && k in r.workloads && k in r.services
            && var v, pod := r.services[k], r.workloads[k].template;
               && Contained(v.selector, pod.labels) && |v.ports| == |pod.container.ports|
               && forall i | 0 <= i < |v.ports| :: v.ports[i].targetPort == pod.container.ports[i].containerPort
  {
    ChildrenHold(s, k, owner, spec);
    var r := Reconciled(s, k, owner, spec);
    SelectorFits(r.services[k].selector, r.workloads[k].template.labels, k, spec);
  }

  /** Children that are up to date hold what the effective spec says, under any interleaving that led there. */
  lemma UpToDateHolds(s: Store, k: Key, spec: Spec)
    requires UpToDate(s, k, spec)
    ensures WorkloadHolds(s.workloads[k], k, spec)
    ensures SecretHolds(s.secrets[Key(k.namespace, k.name + "-config")].data, spec)
    ensures Labelled(s.pvcs[Key(k.namespace, k.name + "-data")].labels, k, spec)
    ensures |spec.network.ports| > 0 ==> ServiceHolds(s.services[k], k, spec)
  {
    RenderedWorkload(k, spec);
    RenderedSecret(k, spec);
    LabelsExact(k, spec);
    SelectorExact(k);
  }
}
