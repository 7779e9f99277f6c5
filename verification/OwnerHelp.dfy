/** What becomes of the Registrations that own a secret when the secret is removed: the handler helps those that are not
    live and activated to get rid of the operator's finalizer. */
module OwnerHelp {
  import opened Finalizers
  import opened SecretRemoval

  // ----- whatever fails

  predicate Refers(refs: seq<OwnerRef>, name: string) {
    exists i :: 0 <= i < |refs| && refs[i].isRegistration && refs[i].name == name
  }

  /** The owner is as it was, except that it may have lost finalizers of the operator. */
  predicate KeepsTheRest(before: Owner, after: Owner) {
    && after.deleting == before.deleting && after.activated == before.activated
    && Others(after.finalizers, REGISTRATION_FINALIZER) == Others(before.finalizers, REGISTRATION_FINALIZER)
    && (before.LiveAndActivated() ==> after == before)
  }

  /** Nobody new; those that are gone were on their way out, and had none but the operator's finalizers. */
  ghost predicate Spares(before: map<string, Owner>, after: map<string, Owner>) {
    && (forall n :: n in after ==> n in before && KeepsTheRest(before[n], after[n]))
    && (forall n :: n in before && n !in after ==>
          before[n].deleting && Others(before[n].finalizers, REGISTRATION_FINALIZER) == [])
  }

  predicate Untouched(before: map<string, Owner>, after: map<string, Owner>, n: string) {
    (n in after <==> n in before) && (n in before ==> after[n] == before[n])
  }

  lemma ArrivalIsQuiet(w: World)
    requires Undisturbed(w.script) && w.script != []
    ensures Arrival(w).owners == w.owners && Undisturbed(Arrival(w).script)
  {
    assert w.script[0].touched == map[] && w.script[0].removed == {};
  }

  lemma {:induction false} PatchingSpares(w: World, name: string, finalizers: seq<string>)
    requires Undisturbed(w.script) && name in w.owners && !w.owners[name].LiveAndActivated()
    requires Others(finalizers, REGISTRATION_FINALIZER) == Others(w.owners[name].finalizers, REGISTRATION_FINALIZER)
    ensures var v := PatchOwner(w, name, finalizers);
            Undisturbed(v.script) && Spares(w.owners, v.owners) && forall n :: n != name ==> Untouched(w.owners, v.owners, n)
  {
    if w.script != [] {
      ArrivalIsQuiet(w);
    }
  }

  lemma {:induction false} HelpSpares(w: World, name: string, o: Owner)
    requires Undisturbed(w.script) && name in w.owners && w.owners[name] == o
    ensures var v := Help(w, name, o);
            Undisturbed(v.script) && Spares(w.owners, v.owners) && forall n :: n != name ==> Untouched(w.owners, v.owners, n)
  {
    if !o.LiveAndActivated() {
      ForeignFinalizersStay(o.finalizers, REGISTRATION_FINALIZER);
      PatchingSpares(w, name, WithoutFirst(o.finalizers, REGISTRATION_FINALIZER));
    }
  }

  lemma {:induction false} WalkSpares(w: World, refs: seq<OwnerRef>)
    requires Undisturbed(w.script)
    ensures var v := CountDangling(w, refs).world;
            && Undisturbed(v.script) && Spares(w.owners, v.owners)
            && forall n :: !Refers(refs, n) ==> Untouched(w.owners, v.owners, n)
    decreases |refs|
  {
    if refs != [] {
      ReferringFromTheFront(refs);
      if !refs[0].isRegistration {
        WalkSpares(w, refs[1..]);
      } else {
        var got := GetOwner(w, refs[0].name);
        if w.script != [] {
          ArrivalIsQuiet(w);
        }
        if got.seen.Found? {
          HelpSpares(got.world, refs[0].name, got.seen.owner);
          WalkSpares(Help(got.world, refs[0].name, got.seen.owner), refs[1..]);
        } else {
          WalkSpares(got.world, refs[1..]);
        }
      }
    }
  }

  lemma ReferringFromTheFront(refs: seq<OwnerRef>)
    requires refs != []
    ensures forall n :: Refers(refs, n) <==> Refers(refs[1..], n) || (refs[0].isRegistration && refs[0].name == n)
  {
    forall n ensures Refers(refs, n) <==> Refers(refs[1..], n) || (refs[0].isRegistration && refs[0].name == n) {
      if Refers(refs[1..], n) {
        var i :| 0 <= i < |refs[1..]| && refs[1..][i].isRegistration && refs[1..][i].name == n;
        assert refs[i + 1] == refs[1..][i];
      }
      if Refers(refs, n) {
        var i :| 0 <= i < |refs| && refs[i].isRegistration && refs[i].name == n;
        assert i > 0 ==> refs[1..][i - 1] == refs[i];
      }
    }
  }

  lemma {:induction false} PatchLoopIsQuiet(w: World, finalizers: seq<string>, tries: nat)
    requires Undisturbed(w.script)
    ensures PatchLoop(w, finalizers, tries).world.owners == w.owners
    decreases tries
  {
    if w.script != [] {
      ArrivalIsQuiet(w);
    }
    var put := PatchFinalizers(w, finalizers);
    if put.fate.Conflicted? && tries > 1 {
      PatchLoopIsQuiet(put.world, finalizers, tries - 1);
    }
  }

  /** Whatever fails: removing a secret makes no owner and changes none that is live and activated or not referred to; the
      others keep all foreign finalizers in order, and none disappears unless it was on its way out and had no foreign
      finalizer. */
  lemma {:induction false} RemovalSparesTheOwners(w: World, finalizers: seq<string>, refs: seq<OwnerRef>, n: string)
    requires Undisturbed(w.script)
    ensures var after := OnSecretRemove(w, finalizers, refs).world.owners;
            && (n in after ==>
                  n in w.owners && after[n].deleting == w.owners[n].deleting && after[n].activated == w.owners[n].activated &&
                  Others(after[n].finalizers, REGISTRATION_FINALIZER) == Others(w.owners[n].finalizers, REGISTRATION_FINALIZER))
            && (n in w.owners && (w.owners[n].LiveAndActivated() || !Refers(refs, n)) ==> n in after && after[n] == w.owners[n])
            && (n in w.owners && n !in after ==>
                  w.owners[n].deleting && Others(w.owners[n].finalizers, REGISTRATION_FINALIZER) == [])
  {
    WalkSpares(w, refs);
    var scan := CountDangling(w, refs);
    PatchLoopIsQuiet(scan.world, Cleared(finalizers), RETRY_STEPS);
    assert Untouched(w.owners, scan.world.owners, n) || Refers(refs, n);
  }

  // ----- when the calls are answered

  predicate AllAnswered(script: seq<Beat>) {
    forall i :: 0 <= i < |script| ==> script[i] == Beat(map[], {}, Answered)
  }

  predicate NobodyTwice(refs: seq<OwnerRef>) {
    forall i, j :: 0 <= i < j < |refs| && refs[i].isRegistration && refs[j].isRegistration ==> refs[i].name != refs[j].name
  }

  /** The first of the operator's finalizers is gone, and nothing else. */
  predicate LosesTheFirst(before: seq<string>, after: seq<string>) {
    exists i :: 0 <= i < |before| && before[i] == REGISTRATION_FINALIZER && REGISTRATION_FINALIZER !in before[..i] &&
                after == before[..i] + before[i + 1..]
  }

  lemma {:induction false} FirstIndex(s: seq<string>, f: string) returns (i: nat)
    requires f in s
    ensures i < |s| && s[i] == f && f !in s[..i]
  {
    if s[0] == f {
      i := 0;
    } else {
      var j := FirstIndex(s[1..], f);
      i := j + 1;
      assert s[..i] == [s[0]] + s[1..][..j];
    }
  }

  lemma WithoutFirstLosesTheFirst(s: seq<string>)
    requires REGISTRATION_FINALIZER in s
    ensures LosesTheFirst(s, WithoutFirst(s, REGISTRATION_FINALIZER))
  {
    var i := FirstIndex(s, REGISTRATION_FINALIZER);
    WithoutFirstAt(s, REGISTRATION_FINALIZER, i);
  }

  /** Helped out, with what is left of its finalizers: it is gone if it was only waiting for that. */
  predicate HelpedOut(before: Owner, after: map<string, Owner>, n: string) {
    if n in after then
      LosesTheFirst(before.finalizers, after[n].finalizers) && after[n] == before.(finalizers := after[n].finalizers) &&
      !(after[n].deleting && after[n].finalizers == [])
    else before.deleting && before.finalizers == [REGISTRATION_FINALIZER]
  }

  lemma AnsweredHelp(w: World, name: string, o: Owner)
    requires AllAnswered(w.script) && w.script != [] && name in w.owners && w.owners[name] == o
    requires !o.LiveAndActivated() && REGISTRATION_FINALIZER in o.finalizers
    ensures HelpedOut(o, Help(w, name, o).owners, name)
  {
    assert w.script[0] == Beat(map[], {}, Answered);
    assert Arrival(w).owners == w.owners;
    WithoutFirstLosesTheFirst(o.finalizers);
    var i :| 0 <= i < |o.finalizers| && o.finalizers[i] == REGISTRATION_FINALIZER &&
             WithoutFirst(o.finalizers, REGISTRATION_FINALIZER) == o.finalizers[..i] + o.finalizers[i + 1..];
    if WithoutFirst(o.finalizers, REGISTRATION_FINALIZER) == [] {
      assert |o.finalizers| == 1;
    }
  }

  lemma {:induction false} AnsweredWalk(w: World, refs: seq<OwnerRef>, n: string)
    requires AllAnswered(w.script) && |w.script| >= 2 * |refs| && NobodyTwice(refs) && Refers(refs, n) && n in w.owners
    requires !w.owners[n].LiveAndActivated() && REGISTRATION_FINALIZER in w.owners[n].finalizers
    ensures HelpedOut(w.owners[n], CountDangling(w, refs).world.owners, n)
    decreases |refs|
  {
    ReferringFromTheFront(refs);
    if !refs[0].isRegistration {
      AnsweredWalk(w, refs[1..], n);
    } else {
      var name := refs[0].name;
      var got := GetOwner(w, name);
      assert w.script[0] == Beat(map[], {}, Answered);
      ArrivalIsQuiet(w);
      var next := if got.seen.Found? then Help(got.world, name, got.seen.owner) else got.world;
      AnsweredStepIsShort(w, name);
      if name == n {
        AnsweredHelp(got.world, n, w.owners[n]);
        WalkSpares(next, refs[1..]);
        assert !Refers(refs[1..], n);
        assert Untouched(next.owners, CountDangling(next, refs[1..]).world.owners, n);
      } else {
        if got.seen.Found? {
          HelpSpares(got.world, name, got.seen.owner);
          assert Untouched(got.world.owners, next.owners, n);
        }
        AnsweredWalk(next, refs[1..], n);
      }
    }
  }

  lemma AnsweredStepIsShort(w: World, name: string)
    requires AllAnswered(w.script) && |w.script| >= 2
    ensures var got := GetOwner(w, name);
            var next := if got.seen.Found? then Help(got.world, name, got.seen.owner) else got.world;
            AllAnswered(got.world.script) && AllAnswered(next.script) && |got.world.script| == |w.script| - 1 &&
            |next.script| >= |w.script| - 2
  {
    assert w.script[0] == Beat(map[], {}, Answered);
  }

  /** When every call is answered and nobody is referred to twice: each referenced owner that is not live and activated
      and has the operator's finalizer loses exactly the first one, and is gone exactly if it was deleted and had no other. */
  lemma {:induction false} AnsweredRemovalHelps(w: World, finalizers: seq<string>, refs: seq<OwnerRef>, n: string)
    requires CREDENTIALS_FINALIZER in finalizers || REG_CODE_FINALIZER in finalizers
    requires AllAnswered(w.script) && |w.script| >= 2 * |refs| && NobodyTwice(refs) && Refers(refs, n) && n in w.owners
    requires !w.owners[n].LiveAndActivated() && REGISTRATION_FINALIZER in w.owners[n].finalizers
    ensures var before, after := w.owners[n], OnSecretRemove(w, finalizers, refs).world.owners;
            && (n !in after <==> before.deleting && before.finalizers == [REGISTRATION_FINALIZER])
            && (n in after ==> LosesTheFirst(before.finalizers, after[n].finalizers) &&
                               after[n] == before.(finalizers := after[n].finalizers))
  {
    AnsweredWalk(w, refs, n);
    WalkSpares(w, refs);
    var scan := CountDangling(w, refs);
    PatchLoopIsQuiet(scan.world, Cleared(finalizers), RETRY_STEPS);
    if n in scan.world.owners && w.owners[n].finalizers == [REGISTRATION_FINALIZER] {
      assert scan.world.owners[n].finalizers == [];
    }
  }

  // ----- the patch of the secret

  lemma {:induction false} PatchLoopGivesUpLate(w: World, finalizers: seq<string>, tries: nat)
    requires tries >= 1
    ensures var put := PatchLoop(w, finalizers, tries);
            && (put.fate.Conflicted? ==> |w.script| - |put.world.script| >= tries)
            && (w.script != [] && !w.script[0].fate.Conflicted? ==> |put.world.script| == |w.script| - 1)
    decreases tries
  {
    var put := PatchFinalizers(w, finalizers);
    if put.fate.Conflicted? && tries > 1 {
      PatchLoopGivesUpLate(put.world, finalizers, tries - 1);
    }
  }

  /** A secret without live owners is let go unless its patch was refused, lost, or met five conflicts. */
  lemma {:induction false} AReleaseFailsOnlyAfterFiveConflicts(w: World, finalizers: seq<string>, refs: seq<OwnerRef>)
    requires CREDENTIALS_FINALIZER in finalizers || REG_CODE_FINALIZER in finalizers
    requires CountDangling(w, refs).dangling == 0
    requires var script := CountDangling(w, refs).world.script;
             |script| >= 5 && exists i :: 0 <= i < 5 && script[i].fate.Answered? && forall j :: 0 <= j < i ==> script[j].fate.Conflicted?
    ensures OnSecretRemove(w, finalizers, refs).ok
    ensures OnSecretRemove(w, finalizers, refs).world.finalizers == Cleared(finalizers)
  {
    var v := CountDangling(w, refs).world;
    var i :| 0 <= i < 5 && v.script[i].fate.Answered? && forall j :: 0 <= j < i ==> v.script[j].fate.Conflicted?;
    PatchLoopArrives(v, Cleared(finalizers), RETRY_STEPS, i);
  }

  lemma {:induction false} PatchLoopArrives(w: World, finalizers: seq<string>, tries: nat, i: nat)
    requires i < tries && i < |w.script| && w.script[i].fate.Answered? && forall j :: 0 <= j < i ==> w.script[j].fate.Conflicted?
    ensures var put := PatchLoop(w, finalizers, tries); put.fate.Answered? && put.world.finalizers == finalizers
    decreases tries
  {
    if i > 0 {
      assert w.script[0].fate.Conflicted?;
      var put := PatchFinalizers(w, finalizers);
      assert put.world.script == w.script[1..];
      PatchLoopArrives(put.world, finalizers, tries - 1, i - 1);
    }
  }
}
