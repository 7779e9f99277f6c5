/** Finalizer lists: how they are extended, and the three ways in which the operator takes an entry out. */
module Finalizers {

  const REGISTRATION_FINALIZER := "scc.cattle.io/managed-registration"
  const CREDENTIALS_FINALIZER := "scc.cattle.io/managed-credentials"
  const REG_CODE_FINALIZER := "scc.cattle.io/managed-registration-code"

  /** Everything but the entries equal to f, in order. */
  function Others(s: seq<string>, f: string): (r: seq<string>)
    ensures f !in r
    ensures forall g :: g != f ==> (g in r <==> g in s)
  {
    if s == [] then [] else (if s[0] == f then [] else [s[0]]) + Others(s[1..], f)
  }

  /** The list without the first entry equal to f. */
  function WithoutFirst(s: seq<string>, f: string): seq<string> {
    if s == [] then [] else if s[0] == f then s[1..] else [s[0]] + WithoutFirst(s[1..], f)
  }

  function Added(s: seq<string>, f: string): seq<string> {
    if f in s then s else s + [f]
  }

  function Count(s: seq<string>, f: string): nat {
    if s == [] then 0 else (if s[0] == f then 1 else 0) + Count(s[1..], f)
  }

  lemma {:induction false} OthersOfConcat(s: seq<string>, t: seq<string>, f: string)
    ensures Others(s + t, f) == Others(s, f) + Others(t, f)
  {
    if s == [] {
      assert s + t == t;
    } else {
      assert (s + t)[1..] == s[1..] + t;
      OthersOfConcat(s[1..], t, f);
    }
  }

  lemma {:induction false} OthersOfForeign(s: seq<string>, f: string)
    requires f !in s
    ensures Others(s, f) == s && WithoutFirst(s, f) == s
  {
    if s != [] {
      OthersOfForeign(s[1..], f);
    }
  }

  /** Taking the first entry out and filtering agree exactly on lists that hold the finalizer at most once. */
  lemma {:induction false} RemovalsAgreeExactlyWithoutDuplicates(s: seq<string>, f: string)
    ensures WithoutFirst(s, f) == Others(s, f) <==> Count(s, f) <= 1
  {
    if s != [] {
      RemovalsAgreeExactlyWithoutDuplicates(s[1..], f);
      if s[0] == f {
        CountIsZeroForForeign(s[1..], f);
        if Count(s[1..], f) == 0 {
          OthersOfForeign(s[1..], f);
        }
      }
    }
  }

  lemma {:induction false} CountIsZeroForForeign(s: seq<string>, f: string)
    ensures Count(s, f) == 0 <==> f !in s
  {
    if s != [] {
      CountIsZeroForForeign(s[1..], f);
    }
  }

  /** Neither adding nor removing touches the other finalizers or their order, whatever the list. */
  lemma {:induction false} ForeignFinalizersStay(s: seq<string>, f: string)
    ensures Others(WithoutFirst(s, f), f) == Others(s, f)
    ensures Others(Added(s, f), f) == Others(s, f)
  {
    if s != [] {
      if s[0] != f {
        ForeignFinalizersStay(s[1..], f);
        OthersOfConcat([s[0]], WithoutFirst(s[1..], f), f);
      }
    }
    if f !in s {
      OthersOfConcat(s, [f], f);
    }
  }

  /** Removing undoes adding, and adding twice is adding once. */
  lemma {:induction false} RemovingUndoesAdding(s: seq<string>, f: string)
    requires f !in s
    ensures WithoutFirst(Added(s, f), f) == s && Added(Added(s, f), f) == Added(s, f)
  {
    if s != [] {
      RemovingUndoesAdding(s[1..], f);
      assert Added(s, f)[1..] == Added(s[1..], f);
    }
  }

  /** In terms of an index: the entries before it and the ones after it. */
  lemma {:induction false} WithoutFirstAt(s: seq<string>, f: string, i: nat)
    requires i < |s| && s[i] == f && f !in s[..i]
    ensures WithoutFirst(s, f) == s[..i] + s[i + 1..]
  {
    if i > 0 {
      assert s[..i][0] == s[0];
      assert f !in s[1..][..i - 1] by {
        assert s[1..][..i - 1] == s[..i][1..];
      }
      WithoutFirstAt(s[1..], f, i - 1);
      assert s[..i] == [s[0]] + s[1..][..i - 1];
    }
  }

  /** The finalizers of an object: the first `count` slots of a backing array that may be shared and may have room. */
  class Meta {
    var backing: array?<string>
    var count: nat

    constructor (b: array?<string>, n: nat)
      ensures backing == b && count == n
    {
      backing, count := b, n;
    }

    predicate Valid()
      reads this
    {
      if backing == null then count == 0 else count <= backing.Length
    }

    function Finalizers(): seq<string>
      requires Valid()
      reads this, backing
    {
      if backing == null then [] else backing[..count]
    }

    static method Allocate(s: seq<string>) returns (a: array<string>)
      ensures fresh(a) && a[..] == s
    {
      a := new string[|s|](i requires 0 <= i < |s| => s[i]);
    }

    method DeepCopy() returns (copy: Meta)
      requires Valid()
      ensures fresh(copy) && copy.Valid() && copy.Finalizers() == Finalizers()
      ensures copy.backing != null ==> fresh(copy.backing)
    {
      if backing == null {
        copy := new Meta(null, 0);
      } else {
        var own := Allocate(backing[..count]);
        copy := new Meta(own, count);
      }
    }

    /** The index of the first entry equal to f, or -1. */
    method Index(f: string) returns (i: int)
      requires Valid()
      ensures -1 <= i < count
      ensures i == -1 <==> f !in Finalizers()
      ensures i >= 0 ==> Finalizers()[i] == f && f !in Finalizers()[..i]
    {
      i := 0;
      while i < count
        invariant 0 <= i <= count
        invariant f !in Finalizers()[..i]
      {
        if backing[i] == f {
          return;
        }
        i := i + 1;
      }
      assert Finalizers()[..count] == Finalizers();
      i := -1;
    }

    /** Appends in place when the backing array has room. */
    method Add(f: string)
      requires Valid()
      modifies this, backing
      ensures Valid() && Finalizers() == Added(old(Finalizers()), f)
      ensures backing != null && (backing == old(backing) || fresh(backing))
    {
      if backing == null {
        backing := Allocate([f]);
        count := 1;
        return;
      }
      var at := Index(f);
      if at != -1 {
        return;
      }
      if count == backing.Length {
        backing := Allocate(backing[..] + [f]);
      } else {
        backing[count] := f;
      }
      count := count + 1;
    }

    /** Moves the entries after `at` one slot down, in the backing array itself. */
    method ShiftDown(at: nat)
      requires Valid() && at < count
      modifies backing
      ensures backing[..count - 1] == old(Finalizers()[..at] + Finalizers()[at + 1..])
      ensures backing[count - 1] == old(backing[count - 1])
    {
      ghost var before := Finalizers();
      var j := at;
      while j < count - 1
        invariant at <= j <= count - 1
        invariant forall k :: 0 <= k < at ==> backing[k] == before[k]
        invariant forall k :: at <= k < j ==> backing[k] == before[k + 1]
        invariant forall k :: j <= k < count ==> backing[k] == before[k]
      {
        backing[j] := backing[j + 1];
        j := j + 1;
      }
    }

    /** Takes the first f out of the array; the slot it frees keeps its entry. */
    method ShiftOut(f: string, at: nat)
      requires Valid() && at < count && Finalizers()[at] == f && f !in Finalizers()[..at]
      modifies backing
      ensures backing[..count - 1] == WithoutFirst(old(Finalizers()), f)
      ensures backing[count - 1] == old(backing[count - 1])
    {
      WithoutFirstAt(Finalizers(), f, at);
      ShiftDown(at);
    }

    /** runtimeRemoveFinalizer: an in-place delete that blanks the slot it frees. */
    method Remove(f: string)
      requires Valid()
      modifies this, backing
      ensures Valid() && backing == old(backing) && Finalizers() == WithoutFirst(old(Finalizers()), f)
    {
      if backing == null {
        return;
      }
      var at := Index(f);
      if at == -1 {
        OthersOfForeign(Finalizers(), f);
        return;
      }
      ShiftOut(f, at);
      backing[count - 1] := "";
      count := count - 1;
    }

    /** The filter loop of the cleanup by hash: a new list of what is not f. */
    method Filter(f: string)
      requires Valid()
      modifies this
      ensures Valid() && Finalizers() == Others(old(Finalizers()), f) && (backing == null || fresh(backing))
    {
      var list := if backing == null then [] else backing[..count];
      var kept: seq<string> := [];
      for i := 0 to |list|
        invariant kept == Others(list[..i], f)
      {
        OthersOfConcat(list[..i], [list[i]], f);
        assert list[..i + 1] == list[..i] + [list[i]];
        if list[i] != f {
          kept := kept + [list[i]];
        }
      }
      assert list[..|list|] == list;
      if kept == [] {
        backing, count := null, 0;
      } else {
        backing := Allocate(kept);
        count := |kept|;
      }
    }

    /** The splice on the way out of a secret: the copy's list is built inside the array of the original, whose own
        list then ends in a repeated entry. The two lists differ, so the patch between them names the new one. */
    method Splice(f: string) returns (update: Meta)
      requires Valid() && f in Finalizers()
      modifies backing
      ensures fresh(update) && update.Valid() && update.Finalizers() == WithoutFirst(old(Finalizers()), f)
      ensures update.backing == backing
      ensures Finalizers() == WithoutFirst(old(Finalizers()), f) + [old(Finalizers())[count - 1]]
      ensures Finalizers() != update.Finalizers()
    {
      update := DeepCopy();
      var at := Index(f);
      ShiftOut(f, at);
      update.backing, update.count := backing, count - 1;
      assert Finalizers() == backing[..count - 1] + [backing[count - 1]];
    }
  }
}
