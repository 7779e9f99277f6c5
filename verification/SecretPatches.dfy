/** Labels and data of secrets as documents: the keywise patch of the models is the merge patch. */
module SecretPatches {
  import opened Wrappers
  import opened Ownership
  import opened MergePatch

  /** A label map, or the data of a secret, as a document. */
  function Document(l: Labels): Json {
    Object(map k | k in l :: Scalar(l[k]))
  }

  lemma PatchMember(snapshot: Labels, copy: Labels, k: string)
    ensures Member(Diff(Document(snapshot), Document(copy)), k) ==
              if Writes(snapshot, copy, k) then Some(Scalar(copy[k]))
              else if Removes(snapshot, copy, k) then Some(Null) else None
  {
    assert Members(Document(snapshot)) == Document(snapshot).members;
  }

  lemma AppliedMember(patch: Json, base: Json, k: string)
    requires patch.Object? && base.Object? && (k in patch.members ==> !patch.members[k].Object?)
    ensures Member(Apply(patch, base), k) ==
              if k !in patch.members then Member(base, k)
              else if patch.members[k].Null? then None else Some(patch.members[k])
  {
    assert Members(base) == base.members;
  }

  /** On flat documents the merge patch is the keywise Patched. */
  lemma {:induction false} PatchedIsTheMergePatch(stored: Labels, snapshot: Labels, copy: Labels)
    ensures Apply(Diff(Document(snapshot), Document(copy)), Document(stored)) == Document(Patched(stored, snapshot, copy))
  {
    var patch := Diff(Document(snapshot), Document(copy));
    var r := Apply(patch, Document(stored));
    var d := Document(Patched(stored, snapshot, copy));
    forall k ensures Member(r, k) == Member(d, k) {
      PatchMember(snapshot, copy, k);
      AppliedMember(patch, Document(stored), k);
    }
    SameMembers(r, d);
  }

  lemma SameMembers(a: Json, b: Json)
    requires a.Object? && b.Object? && forall k :: Member(a, k) == Member(b, k)
    ensures a == b
  {
    forall k ensures (k in a.members <==> k in b.members) && (k in a.members ==> a.members[k] == b.members[k]) {
      assert Member(a, k) == Member(b, k);
    }
    assert a.members == b.members;
  }
}
