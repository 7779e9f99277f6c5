/** Which operator owns an object, by its managed-by labels, and the in-place edits of label maps. */
module Ownership {

  type Labels = map<string, string>

  const K8S_MANAGED_BY := "app.kubernetes.io/managed-by"
  const SCC_MANAGED_BY := "scc.cattle.io/managed-by"
  const OBJECT_SALT := "scc.cattle.io/instance-salt"
  const NAME_SUFFIX := "scc.cattle.io/related-name-suffix"
  const SCC_HASH := "scc.cattle.io/scc-hash"
  const HELM := "Helm"
  const SECRET_BROKER := "secret-broker"

  function SccManagedByValue(operator: string): string {
    operator + "_" + SECRET_BROKER
  }

  /** A read of a missing key gives the empty string. */
  function Value(l: Labels, k: string): string {
    if k in l then l[k] else ""
  }

  predicate HasSccManagedBy(l: Labels) {
    SCC_MANAGED_BY in l
  }

  predicate SccMatches(l: Labels, operator: string) {
    SCC_MANAGED_BY !in l || l[SCC_MANAGED_BY] == SccManagedByValue(operator)
  }

  predicate ShouldAdopt(l: Labels, operator: string) {
    var k8sOk := K8S_MANAGED_BY !in l || l[K8S_MANAGED_BY] == operator || l[K8S_MANAGED_BY] == HELM;
    k8sOk && SccMatches(l, operator)
  }

  predicate ShouldManage(l: Labels, operator: string) {
    var k8sOk := K8S_MANAGED_BY !in l || l[K8S_MANAGED_BY] == operator ||
                 (l[K8S_MANAGED_BY] == HELM && SCC_MANAGED_BY in l);
    (K8S_MANAGED_BY in l || SCC_MANAGED_BY in l) && k8sOk && SccMatches(l, operator)
  }

  function Owned(l: Labels, owner: string): Labels {
    var k8s := if Value(l, K8S_MANAGED_BY) != HELM then l[K8S_MANAGED_BY := owner] else l;
    k8s[SCC_MANAGED_BY := SccManagedByValue(owner)]
  }

  /** The params labels win, except over a managed-by value that is already set. */
  function Merged(l: Labels, params: Labels): Labels {
    var kept := Value(l, K8S_MANAGED_BY);
    if kept != "" then (l + params)[K8S_MANAGED_BY := kept] else l + params
  }

  // ----- exclusivity and stability

  lemma BrokerValuesDiffer(a: string, b: string)
    ensures SccManagedByValue(a) == SccManagedByValue(b) <==> a == b
  {
    if SccManagedByValue(a) == SccManagedByValue(b) {
      var tail := "_" + SECRET_BROKER;
      assert SccManagedByValue(a) == a + tail && SccManagedByValue(b) == b + tail;
      assert |a| == |b|;
      assert a == (a + tail)[..|a|] && b == (b + tail)[..|b|];
    }
  }

  /** No object is managed by two operators. */
  lemma ManagersAreExclusive(l: Labels, a: string, b: string)
    requires ShouldManage(l, a) && ShouldManage(l, b)
    ensures a == b
  {
    BrokerValuesDiffer(a, b);
  }

  /** Managing implies adopting, and the converse fails only for objects that carry neither of the owner's labels. */
  lemma ManagingIsStricterThanAdopting(l: Labels, a: string)
    ensures ShouldManage(l, a) ==> ShouldAdopt(l, a)
    ensures ShouldAdopt(l, a) && !ShouldManage(l, a) <==>
              SCC_MANAGED_BY !in l && (K8S_MANAGED_BY !in l || (l[K8S_MANAGED_BY] == HELM && a != HELM))
  {
  }

  /** Taking ownership makes its owner the manager, and from then on nobody else may adopt or manage the object;
      Helm's managed-by value survives it. */
  lemma OwnershipIsStable(l: Labels, owner: string, other: string)
    ensures ShouldManage(Owned(l, owner), owner)
    ensures other != owner ==> !ShouldAdopt(Owned(l, owner), other) && !ShouldManage(Owned(l, owner), other)
    ensures Value(l, K8S_MANAGED_BY) == HELM ==> Value(Owned(l, owner), K8S_MANAGED_BY) == HELM
    ensures Owned(Owned(l, owner), owner) == Owned(l, owner)
  {
    BrokerValuesDiffer(owner, other);
  }

  // ----- label maps on the heap

  class LabelMap {
    var entries: Labels

    constructor (l: Labels)
      ensures entries == l
    {
      entries := l;
    }
  }

  /** An object with labels; a nil label map reads as an empty one. */
  class Labelled {
    var labels: LabelMap?

    constructor (l: LabelMap?)
      ensures labels == l
    {
      labels := l;
    }

    function Labels(): Labels
      reads this, labels
    {
      if labels == null then map[] else labels.entries
    }

    method DeepCopy() returns (copy: Labelled)
      ensures fresh(copy) && copy.Labels() == Labels() && (copy.labels == null <==> labels == null)
      ensures copy.labels != null ==> fresh(copy.labels)
    {
      if labels == null {
        copy := new Labelled(null);
      } else {
        var own := new LabelMap(labels.entries);
        copy := new Labelled(own);
      }
    }
  }

  method TakeOwnership(obj: Labelled, owner: string)
    modifies obj, obj.labels
    ensures obj.Labels() == Owned(old(obj.Labels()), owner)
    ensures obj.labels != null && (old(obj.labels) == null ==> fresh(obj.labels))
    ensures old(obj.labels) != null ==> obj.labels == old(obj.labels)
  {
    if obj.labels == null {
      obj.labels := new LabelMap(map[K8S_MANAGED_BY := owner, SCC_MANAGED_BY := SccManagedByValue(owner)]);
    } else {
      if Value(obj.labels.entries, K8S_MANAGED_BY) != HELM {
        obj.labels.entries := obj.labels.entries[K8S_MANAGED_BY := owner];
      }
      obj.labels.entries := obj.labels.entries[SCC_MANAGED_BY := SccManagedByValue(owner)];
    }
  }

  method CopyInto(l: LabelMap, params: Labels)
    modifies l
    ensures l.entries == old(l.entries) + params
  {
    ghost var before := l.entries;
    var todo := params.Keys;
    while todo != {}
      invariant todo <= params.Keys
      invariant l.entries == before + (map k | k in params && k !in todo :: params[k])
      decreases todo
    {
      var k :| k in todo;
      l.entries := l.entries[k := params[k]];
      todo := todo - {k};
    }
  }

  method MergeLabelsPreservingHelm(obj: Labelled, params: Labels)
    modifies obj, obj.labels
    ensures obj.Labels() == Merged(old(obj.Labels()), params)
    ensures obj.labels != null && (old(obj.labels) == null ==> fresh(obj.labels))
    ensures old(obj.labels) != null ==> obj.labels == old(obj.labels)
  {
    if obj.labels == null {
      obj.labels := new LabelMap(map[]);
    }
    var kept := Value(obj.labels.entries, K8S_MANAGED_BY);
    CopyInto(obj.labels, params);
    if kept != "" {
      obj.labels.entries := obj.labels.entries[K8S_MANAGED_BY := kept];
    }
  }

  /** prepareSecretSalt: the salted copy takes over the label map of the secret itself when there is one. */
  method PrepareSecretSalt(secret: Labelled, salt: string) returns (prepared: Labelled)
    modifies secret.labels
    ensures fresh(prepared) && secret.labels == old(secret.labels)
    ensures prepared.Labels() == old(secret.Labels())[OBJECT_SALT := salt]
    ensures old(secret.labels) != null ==> secret.Labels() == prepared.Labels()
    ensures old(secret.labels) == null ==> secret.Labels() == map[]
  {
    prepared := secret.DeepCopy();
    var existing := secret.labels;
    if existing == null {
      existing := new LabelMap(map[]);
    }
    existing.entries := existing.entries[OBJECT_SALT := salt];
    prepared.labels := existing;
  }

  /** Whether the patch from a snapshot to its edited copy writes a key, or removes it. */
  predicate Writes(snapshot: Labels, copy: Labels, k: string) {
    k in copy && (k !in snapshot || snapshot[k] != copy[k])
  }

  predicate Removes(snapshot: Labels, copy: Labels, k: string) {
    k in snapshot && k !in copy
  }

  /** What that patch makes of the labels that are stored by then. */
  function Patched(stored: Labels, snapshot: Labels, copy: Labels): Labels {
    map k | k in stored.Keys + copy.Keys && (Writes(snapshot, copy, k) || (k in stored && !Removes(snapshot, copy, k))) ::
      if Writes(snapshot, copy, k) then copy[k] else stored[k]
  }

  /** A patch between equals changes nothing, and a patch of what is stored makes the copy. */
  lemma PatchedExtremes(stored: Labels, copy: Labels)
    ensures Patched(stored, copy, copy) == stored
    ensures Patched(stored, stored, copy) == copy
  {
  }

  /** The salt of an unsalted secret reaches the store exactly when the secret had no labels at all. */
  method StoreSalt(secret: Labelled, salt: string) returns (stored: Labels)
    requires OBJECT_SALT !in secret.Labels()
    modifies secret.labels
    ensures OBJECT_SALT in stored <==> old(secret.labels) == null
  {
    var before := secret.Labels();
    var prepared := PrepareSecretSalt(secret, salt);
    stored := Patched(before, secret.Labels(), prepared.Labels());
  }

  /** And a secret this operator manages always has labels. */
  lemma ManagedObjectsHaveLabels(l: Labels, operator: string)
    requires ShouldManage(l, operator)
    ensures l != map[]
  {
  }
}
