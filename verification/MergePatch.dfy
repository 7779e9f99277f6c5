/** JSON Merge Patch (section 2 of RFC 7396), as the repositories use it to write objects: the patch is the difference
    between a snapshot and its edited copy, and the API server applies it to whatever is stored by then. */
module MergePatch {
  import opened Wrappers

  datatype Json = Null | Scalar(text: string) | Array(items: seq<Json>) | Object(members: map<string, Json>)

  type Path = seq<string>

  function Members(j: Json): map<string, Json> {
    if j.Object? then j.members else map[]
  }

  /** No null member anywhere an object reaches: arrays are replaced whole and may hold anything. */
  predicate NullFree(j: Json) {
    match j
    case Null => false
    case Object(m) => forall k :: k in m ==> NullFree(m[k])
    case _ => true
  }

  /** The MergePatch function of the RFC. */
  function Apply(patch: Json, target: Json): Json {
    if patch.Object? then
      var stored := Members(target);
      Object(map k | k in stored.Keys + patch.members.Keys && (k in patch.members ==> !patch.members[k].Null?) ::
        if k in patch.members then Apply(patch.members[k], if k in stored then stored[k] else Null) else stored[k])
    else patch
  }

  /** The patch between two objects: removed members are null, changed ones are replaced, objects are diffed. */
  function Diff(a: Json, b: Json): (patch: Json)
    requires b.Object?
    ensures patch.Object?
    decreases b
  {
    var m := Members(a);
    Object(map k | k in m.Keys + b.members.Keys && !(k in m && k in b.members && m[k] == b.members[k]) ::
      if k !in b.members then Null
      else if k in m && m[k].Object? && b.members[k].Object? then Diff(m[k], b.members[k])
      else b.members[k])
  }

  /** A null-free value merges onto nothing as itself. */
  lemma {:induction false} ApplyToNothing(b: Json)
    requires NullFree(b)
    ensures Apply(b, Null) == b
  {
    if b.Object? {
      forall k | k in b.members ensures Apply(b.members[k], Null) == b.members[k] {
        ApplyToNothing(b.members[k]);
      }
      assert Apply(b, Null).members == b.members;
    }
  }

  lemma {:induction false} ApplyScalarTarget(b: Json, t: Json)
    requires NullFree(b) && !t.Object?
    ensures Apply(b, t) == b
  {
    ApplyToNothing(b);
    if b.Object? {
      assert Apply(b, t) == Apply(b, Null);
    }
  }

  /** The patch turns the snapshot into exactly the copy. */
  lemma {:induction false} DiffThenApply(a: Json, b: Json)
    requires a.Object? && b.Object? && NullFree(a) && NullFree(b)
    ensures Apply(Diff(a, b), a) == b
    decreases b
  {
    var p := Diff(a, b);
    var r := Apply(p, a);
    forall k | k in b.members
      ensures k in r.members && r.members[k] == b.members[k]
    {
      if k in p.members {
        if k in a.members && a.members[k].Object? && b.members[k].Object? {
          DiffThenApply(a.members[k], b.members[k]);
          assert p.members[k] == Diff(a.members[k], b.members[k]);
        } else if k in a.members {
          assert p.members[k] == b.members[k];
          if b.members[k].Object? {
            ApplyScalarTarget(b.members[k], a.members[k]);
          }
          assert Apply(b.members[k], a.members[k]) == b.members[k];
        } else {
          assert p.members[k] == b.members[k];
          ApplyToNothing(b.members[k]);
        }
      }
    }
    assert r.members.Keys == b.members.Keys;
    assert r.members == b.members;
  }

  // ----- what a patch leaves alone

  function Lookup(j: Json, p: Path): Option<Json> {
    if p == [] then Some(j)
    else if p[0] in Members(j) then Lookup(Members(j)[p[0]], p[1..])
    else None
  }

  function Member(j: Json, k: string): Option<Json> {
    if k in Members(j) then Some(Members(j)[k]) else None
  }

  /** The snapshot and the copy agree about a path: on the way down, some member is the same in both (or absent from
      both), and above it the copy has objects. */
  predicate Agree(a: Json, b: Json, p: Path)
    decreases |p|
  {
    p != [] &&
    var k := p[0];
    (Member(a, k) == Member(b, k) ||
     (Member(b, k).Some? && Member(b, k).value.Object? &&
      Agree(if Member(a, k).Some? then Member(a, k).value else Null, Member(b, k).value, p[1..])))
  }

  lemma {:induction false} DiffActsLikeTheValue(b: Json, a: Json, c: Json)
    requires b.Object? && !a.Object?
    ensures Apply(Diff(a, b), c) == Apply(b, c)
  {
    assert Diff(a, b).members == b.members;
  }

  /** Where they agree, the patch changes nothing in any later version: other writers' members survive. */
  lemma {:induction false} AgreementIsKept(a: Json, b: Json, c: Json, p: Path)
    requires b.Object? && NullFree(b) && Agree(a, b, p)
    ensures Lookup(Apply(Diff(a, b), c), p) == Lookup(c, p)
    decreases |p|
  {
    var k := p[0];
    var patch := Diff(a, b);
    if Member(a, k) == Member(b, k) {
      assert k !in patch.members;
    } else {
      var av := if Member(a, k).Some? then Member(a, k).value else Null;
      var bv := Member(b, k).value;
      var cv := if Member(c, k).Some? then Member(c, k).value else Null;
      AgreementIsKept(av, bv, cv, p[1..]);
      if !av.Object? {
        DiffActsLikeTheValue(bv, av, cv);
      }
      assert p[1..] != [];
      assert Members(cv) == map[] ==> Lookup(cv, p[1..]) == None;
    }
  }

  /** Wraps a value in objects along a path. */
  function Nest(p: Path, v: Json): Json
    decreases |p|
  {
    if p == [] then v else Object(map[p[0] := Nest(p[1..], v)])
  }

  lemma {:induction false} NestLookup(p: Path, v: Json)
    ensures Lookup(Nest(p, v), p) == Some(v)
    decreases |p|
  {
    if p != [] {
      NestLookup(p[1..], v);
    }
  }

  /** A later version in which the patch does change the path. */
  function Clash(a: Json, b: Json, p: Path): Json
    decreases |p|
  {
    if p == [] then Null
    else
      var k := p[0];
      var bv := Member(b, k);
      if bv.Some? && bv.value.Object? && p[1..] != [] then
        Object(map[k := Clash(if Member(a, k).Some? then Member(a, k).value else Null, bv.value, p[1..])])
      else if bv.Some? && !bv.value.Object? && p[1..] == [] then Object(map[])
      else if bv.Some? && bv.value.Object? then Object(map[k := Scalar("")])
      else Nest(p, Scalar(""))
  }

  lemma {:induction false} DisagreementIsWritten(a: Json, b: Json, p: Path)
    requires b.Object? && NullFree(b) && p != [] && !Agree(a, b, p)
    ensures Lookup(Apply(Diff(a, b), Clash(a, b, p)), p) != Lookup(Clash(a, b, p), p)
    decreases |p|
  {
    var k := p[0];
    var c := Clash(a, b, p);
    var patch := Diff(a, b);
    var bv := Member(b, k);
    assert k in patch.members;
    if bv.Some? && bv.value.Object? && p[1..] != [] {
      var av := if Member(a, k).Some? then Member(a, k).value else Null;
      DisagreementIsWritten(av, bv.value, p[1..]);
      if !av.Object? {
        DiffActsLikeTheValue(bv.value, av, Clash(av, bv.value, p[1..]));
      }
    } else if bv.Some? && bv.value.Object? {
      assert patch.members[k].Object?;
      assert Members(c)[k] == Scalar("") && Lookup(c, p) == Lookup(Scalar(""), []);
      assert k in Apply(patch, c).members;
    } else if p[1..] != [] {
      NestLookup(p, Scalar(""));
    } else {
      NestLookup(p, Scalar(""));
    }
  }

  /** Non-interference, exactly: a path is safe in every later version if and only if snapshot and copy agree on it. */
  lemma PatchSparesExactlyTheAgreedPaths(a: Json, b: Json, p: Path)
    requires b.Object? && NullFree(b) && p != []
    ensures Agree(a, b, p) <==> forall c :: Lookup(Apply(Diff(a, b), c), p) == Lookup(c, p)
  {
    if Agree(a, b, p) {
      forall c ensures Lookup(Apply(Diff(a, b), c), p) == Lookup(c, p) {
        AgreementIsKept(a, b, c, p);
      }
    } else {
      DisagreementIsWritten(a, b, p);
    }
  }

  /** An array the edit touched is replaced whole: a finalizer another writer appended meanwhile is lost. */
  lemma ArraysAreReplacedWhole(a: Json, b: Json, c: Json, k: string)
    requires b.Object? && Member(b, k).Some? && Member(b, k).value.Array? && Member(a, k) != Member(b, k)
    ensures Member(Apply(Diff(a, b), c), k) == Member(b, k)
  {
    assert k in Diff(a, b).members;
  }
}
