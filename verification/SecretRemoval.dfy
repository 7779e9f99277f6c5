/** Removal of the secrets the operator made (credentials and registration code): when does the finalizer come off? */
module SecretRemoval {
  import opened Finalizers

  const RETRY_STEPS := 5

  datatype OwnerRef = OwnerRef(isRegistration: bool, name: string)

  datatype Owner = Owner(finalizers: seq<string>, deleting: bool, activated: bool) {
    predicate LiveAndActivated() {
      !deleting && activated
    }
  }

  datatype Fate = Answered | Conflicted | Failed | AnswerLost

  /** What others do to the owners before a call arrives, and what becomes of the call. */
  datatype Beat = Beat(touched: map<string, Owner>, removed: set<string>, fate: Fate)

  datatype World = World(owners: map<string, Owner>, finalizers: seq<string>, script: seq<Beat>)

  datatype Sighting = Found(owner: Owner) | Missing | Broken

  datatype Lookup = Lookup(world: World, seen: Sighting)

  function Arrival(w: World): World
    requires w.script != []
  {
    World((w.owners - w.script[0].removed) + w.script[0].touched, w.finalizers, w.script[1..])
  }

  function GetOwner(w: World, name: string): Lookup {
    if w.script == [] then Lookup(w, Broken)
    else
      var v := Arrival(w);
      if !w.script[0].fate.Answered? then Lookup(v, Broken)
      else Lookup(v, if name in v.owners then Found(v.owners[name]) else Missing)
  }

  /** The patch that takes the finalizer off an owner; its failure is only logged. */
  function PatchOwner(w: World, name: string, finalizers: seq<string>): World {
    if w.script == [] then w
    else
      var v, fate := Arrival(w), w.script[0].fate;
      if fate.Conflicted? || fate.Failed? || name !in v.owners then v
      else if v.owners[name].deleting && finalizers == [] then v.(owners := v.owners - {name})
      else v.(owners := v.owners[name := v.owners[name].(finalizers := finalizers)])
  }

  datatype Written = Written(world: World, fate: Fate)

  function PatchFinalizers(w: World, finalizers: seq<string>): Written {
    if w.script == [] then Written(w, Failed)
    else
      var v, fate := Arrival(w), w.script[0].fate;
      if fate.Conflicted? || fate.Failed? then Written(v, fate) else Written(v.(finalizers := finalizers), fate)
  }

  /** An owner that is not live and activated loses the operator's finalizer. */
  function Help(w: World, name: string, o: Owner): World {
    if o.LiveAndActivated() || REGISTRATION_FINALIZER !in o.finalizers then w
    else PatchOwner(w, name, WithoutFirst(o.finalizers, REGISTRATION_FINALIZER))
  }

  datatype Scan = Scan(world: World, dangling: nat)

  /** The walk over the owner references. A lookup that breaks leaves an empty object, which counts as not dangling. */
  function CountDangling(w: World, refs: seq<OwnerRef>): Scan
    decreases |refs|
  {
    if refs == [] then Scan(w, 0)
    else if !refs[0].isRegistration then CountDangling(w, refs[1..])
    else
      var got := GetOwner(w, refs[0].name);
      if !got.seen.Found? then CountDangling(got.world, refs[1..])
      else
        var rest := CountDangling(Help(got.world, refs[0].name, got.seen.owner), refs[1..]);
        if got.seen.owner.LiveAndActivated() then rest.(dangling := rest.dangling + 1) else rest
  }

  function Cleared(finalizers: seq<string>): seq<string> {
    WithoutFirst(WithoutFirst(finalizers, CREDENTIALS_FINALIZER), REG_CODE_FINALIZER)
  }

  /** On a conflict the same patch is sent again, up to five times. */
  function PatchLoop(w: World, finalizers: seq<string>, tries: nat): Written
    decreases tries
  {
    var put := PatchFinalizers(w, finalizers);
    if put.fate.Conflicted? && tries > 1 then PatchLoop(put.world, finalizers, tries - 1) else put
  }

  datatype Outcome = Outcome(world: World, ok: bool)

  function OnSecretRemove(w: World, finalizers: seq<string>, refs: seq<OwnerRef>): Outcome {
    if CREDENTIALS_FINALIZER !in finalizers && REG_CODE_FINALIZER !in finalizers then Outcome(w, true)
    else
      var scan := CountDangling(w, refs);
      if scan.dangling > 0 then Outcome(scan.world, false)
      else
        var put := PatchLoop(scan.world, Cleared(finalizers), RETRY_STEPS);
        Outcome(put.world, put.fate.Answered?)
  }

  // ----- what was seen

  /** What the lookups of the walk saw, in order. */
  function Sightings(w: World, refs: seq<OwnerRef>): seq<Sighting>
    decreases |refs|
  {
    if refs == [] then []
    else if !refs[0].isRegistration then Sightings(w, refs[1..])
    else
      var got := GetOwner(w, refs[0].name);
      var next := if got.seen.Found? then Help(got.world, refs[0].name, got.seen.owner) else got.world;
      [got.seen] + Sightings(next, refs[1..])
  }

  predicate Holds(s: Sighting) {
    s.Found? && s.owner.LiveAndActivated()
  }

  predicate SomeoneHolds(seen: seq<Sighting>) {
    exists i :: 0 <= i < |seen| && Holds(seen[i])
  }

  lemma SomeoneHoldsFromTheFront(s: Sighting, rest: seq<Sighting>)
    ensures SomeoneHolds([s] + rest) <==> Holds(s) || SomeoneHolds(rest)
  {
    var all := [s] + rest;
    assert all[0] == s;
    if SomeoneHolds(rest) {
      var i :| 0 <= i < |rest| && Holds(rest[i]);
      assert all[i + 1] == rest[i];
    }
  }

  lemma {:induction false} DanglingMeansSeen(w: World, refs: seq<OwnerRef>)
    ensures CountDangling(w, refs).dangling > 0 <==> SomeoneHolds(Sightings(w, refs))
    ensures CountDangling(w, refs).world.finalizers == w.finalizers
    decreases |refs|
  {
    if refs != [] {
      if !refs[0].isRegistration {
        DanglingMeansSeen(w, refs[1..]);
      } else {
        var got := GetOwner(w, refs[0].name);
        var next := if got.seen.Found? then Help(got.world, refs[0].name, got.seen.owner) else got.world;
        DanglingMeansSeen(next, refs[1..]);
        SomeoneHoldsFromTheFront(got.seen, Sightings(next, refs[1..]));
      }
    }
  }

  lemma {:induction false} PatchLoopWrites(w: World, finalizers: seq<string>, tries: nat)
    ensures var put := PatchLoop(w, finalizers, tries);
            && (put.world.finalizers == w.finalizers || put.world.finalizers == finalizers)
            && (put.fate.Answered? ==> put.world.finalizers == finalizers)
    decreases tries
  {
    var put := PatchFinalizers(w, finalizers);
    if put.fate.Conflicted? && tries > 1 {
      PatchLoopWrites(put.world, finalizers, tries - 1);
    }
  }

  /** If a lookup found a live activated Registration, the secret keeps its finalizers and the handler fails; otherwise
      it only fails with its patch, and a success means that exactly the cleared list is stored. */
  lemma FinalizerLeavesExactlyWhenNobodyIsSeenHolding(w: World, finalizers: seq<string>, refs: seq<OwnerRef>)
    requires CREDENTIALS_FINALIZER in finalizers || REG_CODE_FINALIZER in finalizers
    ensures var r := OnSecretRemove(w, finalizers, refs);
            var held := SomeoneHolds(Sightings(w, refs));
            && (held ==> !r.ok && r.world.finalizers == w.finalizers)
            && (!held ==> var put := PatchLoop(CountDangling(w, refs).world, Cleared(finalizers), RETRY_STEPS);
                          r == Outcome(put.world, put.fate.Answered?))
            && (r.ok ==> !held && r.world.finalizers == Cleared(finalizers))
  {
    DanglingMeansSeen(w, refs);
    PatchLoopWrites(CountDangling(w, refs).world, Cleared(finalizers), RETRY_STEPS);
  }

  /** The cleared list has neither of the operator's finalizers if they were not doubled, and all others in order. */
  lemma ClearedKeepsTheOthers(finalizers: seq<string>)
    ensures Others(Others(Cleared(finalizers), CREDENTIALS_FINALIZER), REG_CODE_FINALIZER) ==
            Others(Others(finalizers, CREDENTIALS_FINALIZER), REG_CODE_FINALIZER)
    ensures Count(finalizers, CREDENTIALS_FINALIZER) <= 1 && Count(finalizers, REG_CODE_FINALIZER) <= 1 ==>
              Cleared(finalizers) == Others(Others(finalizers, CREDENTIALS_FINALIZER), REG_CODE_FINALIZER)
  {
    var half := WithoutFirst(finalizers, CREDENTIALS_FINALIZER);
    ForeignFinalizersStay(finalizers, CREDENTIALS_FINALIZER);
    ForeignFinalizersStay(half, REG_CODE_FINALIZER);
    OthersCommute(Cleared(finalizers), CREDENTIALS_FINALIZER, REG_CODE_FINALIZER);
    OthersCommute(half, CREDENTIALS_FINALIZER, REG_CODE_FINALIZER);
    RemovalsAgreeExactlyWithoutDuplicates(finalizers, CREDENTIALS_FINALIZER);
    RemovalsAgreeExactlyWithoutDuplicates(half, REG_CODE_FINALIZER);
    CountOfWithoutFirst(finalizers, CREDENTIALS_FINALIZER, REG_CODE_FINALIZER);
  }

  lemma {:induction false} OthersCommute(s: seq<string>, f: string, g: string)
    ensures Others(Others(s, f), g) == Others(Others(s, g), f)
  {
    if s != [] {
      OthersCommute(s[1..], f, g);
      OthersOfConcat(if s[0] == f then [] else [s[0]], Others(s[1..], f), g);
      OthersOfConcat(if s[0] == g then [] else [s[0]], Others(s[1..], g), f);
    }
  }

  lemma {:induction false} CountOfWithoutFirst(s: seq<string>, f: string, g: string)
    requires f != g
    ensures Count(WithoutFirst(s, f), g) == Count(s, g)
  {
    if s != [] && s[0] != f {
      CountOfWithoutFirst(s[1..], f, g);
      assert WithoutFirst(s, f)[1..] == WithoutFirst(s[1..], f);
    }
  }

  // ----- what was there

  predicate LiveOwner(owners: map<string, Owner>, refs: seq<OwnerRef>) {
    exists i :: 0 <= i < |refs| && refs[i].isRegistration && refs[i].name in owners && owners[refs[i].name].LiveAndActivated()
  }

  predicate Undisturbed(script: seq<Beat>) {
    forall i :: 0 <= i < |script| ==> script[i].touched == map[] && script[i].removed == {}
  }

  predicate LookupsAnswered(w: World, refs: seq<OwnerRef>) {
    forall s :: s in Sightings(w, refs) ==> !s.Broken?
  }

  lemma HelpKeepsLiveOwners(w: World, name: string, o: Owner, refs: seq<OwnerRef>)
    requires Undisturbed(w.script) && name in w.owners && w.owners[name] == o
    ensures var v := Help(w, name, o); Undisturbed(v.script) && LiveOwner(v.owners, refs) == LiveOwner(w.owners, refs)
  {
    var v := Help(w, name, o);
    if v != w {
      assert w.script[0].touched == map[] && w.script[0].removed == {};
      assert Arrival(w).owners == w.owners;
      forall n ensures n in v.owners && v.owners[n].LiveAndActivated() <==> n in w.owners && w.owners[n].LiveAndActivated() {}
    }
  }

  lemma LiveOwnerFromTheFront(owners: map<string, Owner>, refs: seq<OwnerRef>)
    requires refs != []
    ensures LiveOwner(owners, refs) <==>
              LiveOwner(owners, refs[1..]) ||
              (refs[0].isRegistration && refs[0].name in owners && owners[refs[0].name].LiveAndActivated())
  {
    var rest := refs[1..];
    if LiveOwner(owners, rest) {
      var i :| 0 <= i < |rest| && rest[i].isRegistration && rest[i].name in owners && owners[rest[i].name].LiveAndActivated();
      assert refs[i + 1] == rest[i];
    }
    if LiveOwner(owners, refs) {
      var i :| 0 <= i < |refs| && refs[i].isRegistration && refs[i].name in owners && owners[refs[i].name].LiveAndActivated();
      assert i > 0 ==> rest[i - 1] == refs[i];
    }
  }

  lemma {:induction false} SightingsShowTheOwners(w: World, refs: seq<OwnerRef>)
    requires Undisturbed(w.script) && LookupsAnswered(w, refs)
    ensures SomeoneHolds(Sightings(w, refs)) <==> LiveOwner(w.owners, refs)
    decreases |refs|
  {
    if refs != [] {
      LiveOwnerFromTheFront(w.owners, refs);
      if !refs[0].isRegistration {
        SightingsShowTheOwners(w, refs[1..]);
      } else {
        var all := Sightings(w, refs);
        var got := GetOwner(w, refs[0].name);
        assert all[0] == got.seen && !got.seen.Broken?;
        assert w.script[0].touched == map[] && w.script[0].removed == {};
        assert Arrival(w).owners == w.owners;
        var next := if got.seen.Found? then Help(got.world, refs[0].name, got.seen.owner) else got.world;
        if got.seen.Found? {
          HelpKeepsLiveOwners(got.world, refs[0].name, got.seen.owner, refs[1..]);
        }
        assert all == [got.seen] + Sightings(next, refs[1..]);
        assert LookupsAnswered(next, refs[1..]) by {
          forall s | s in Sightings(next, refs[1..]) ensures !s.Broken? {
            assert s in all;
          }
        }
        SightingsShowTheOwners(next, refs[1..]);
        SomeoneHoldsFromTheFront(got.seen, Sightings(next, refs[1..]));
      }
    }
  }

  /** When every lookup is answered, the finalizer is held back exactly while some owner is live and activated. */
  lemma LiveOwnersHoldTheSecret(w: World, finalizers: seq<string>, refs: seq<OwnerRef>)
    requires CREDENTIALS_FINALIZER in finalizers || REG_CODE_FINALIZER in finalizers
    requires Undisturbed(w.script) && LookupsAnswered(w, refs)
    ensures CountDangling(w, refs).dangling > 0 <==> LiveOwner(w.owners, refs)
    ensures OnSecretRemove(w, finalizers, refs).ok ==> !LiveOwner(w.owners, refs)
  {
    DanglingMeansSeen(w, refs);
    SightingsShowTheOwners(w, refs);
  }

  /** But a lookup that breaks, other than by finding nothing, lets the secret go under a live activated owner. */
  lemma ABrokenLookupReleases()
    ensures exists w: World, finalizers: seq<string>, refs: seq<OwnerRef> ::
              LiveOwner(w.owners, refs) && CREDENTIALS_FINALIZER in finalizers &&
              OnSecretRemove(w, finalizers, refs) == Outcome(World(w.owners, [], []), true)
  {
    var owner := Owner([REGISTRATION_FINALIZER], false, true);
    var beats := [Beat(map[], {}, Failed), Beat(map[], {}, Answered)];
    var w := World(map["r" := owner], [CREDENTIALS_FINALIZER], beats);
    var refs := [OwnerRef(true, "r")];
    var finalizers := [CREDENTIALS_FINALIZER];
    assert refs[0].isRegistration && refs[0].name in w.owners && w.owners[refs[0].name].LiveAndActivated();
    var v := World(w.owners, w.finalizers, beats[1..]);
    assert GetOwner(w, "r") == Lookup(v, Broken) by {
      assert w.owners - {} == w.owners;
    }
    assert CountDangling(v, refs[1..]) == Scan(v, 0);
    assert Cleared(finalizers) == [];
    assert PatchFinalizers(v, []) == Written(World(w.owners, [], []), Answered) by {
      assert v.script[1..] == [];
      assert v.owners - {} + map[] == v.owners;
    }
    assert OnSecretRemove(w, finalizers, refs) == Outcome(World(w.owners, [], []), true);
  }

  // ----- the handler on the heap

  class Server {
    var world: World

    constructor (w: World)
      ensures world == w
    {
      world := w;
    }

    method Get(name: string) returns (seen: Sighting)
      modifies this
      ensures Lookup(world, seen) == GetOwner(old(world), name)
    {
      var got := GetOwner(world, name);
      world, seen := got.world, got.seen;
    }

    /** The owner's list is spliced, and what the patch names is the spliced list. */
    method HelpOwner(name: string, o: Owner)
      modifies this
      ensures world == Help(old(world), name, o)
    {
      if !o.LiveAndActivated() && REGISTRATION_FINALIZER in o.finalizers {
        var own := Meta.Allocate(o.finalizers);
        var reg := new Meta(own, |o.finalizers|);
        assert reg.Finalizers() == o.finalizers;
        var update := reg.Splice(REGISTRATION_FINALIZER);
        assert update.Finalizers() == WithoutFirst(o.finalizers, REGISTRATION_FINALIZER);
        world := PatchOwner(world, name, update.backing[..update.count]);
      }
    }

    method CountDanglingRefs(refs: seq<OwnerRef>) returns (danglingRefs: nat)
      modifies this
      ensures Scan(world, danglingRefs) == CountDangling(old(world), refs)
    {
      danglingRefs := 0;
      for i := 0 to |refs|
        invariant Scan(CountDangling(world, refs[i..]).world, danglingRefs + CountDangling(world, refs[i..]).dangling)
                  == CountDangling(old(world), refs)
      {
        assert refs[i..][1..] == refs[i + 1..];
        if refs[i].isRegistration {
          var seen := Get(refs[i].name);
          if seen.Found? {
            if seen.owner.LiveAndActivated() {
              danglingRefs := danglingRefs + 1;
            } else {
              HelpOwner(refs[i].name, seen.owner);
            }
          }
        }
      }
    }

    method Release(secret: Meta) returns (ok: bool)
      requires secret.Valid()
      modifies this
      ensures Outcome(world, ok) == (var put := PatchLoop(old(world), Cleared(old(secret.Finalizers())), RETRY_STEPS);
                                     Outcome(put.world, put.fate.Answered?))
    {
      var copy := secret.DeepCopy();
      copy.Remove(CREDENTIALS_FINALIZER);
      copy.Remove(REG_CODE_FINALIZER);
      var list := if copy.backing == null then [] else copy.backing[..copy.count];
      var tries := RETRY_STEPS;
      var put := PatchFinalizers(world, list);
      while put.fate.Conflicted? && tries > 1
        invariant 1 <= tries <= RETRY_STEPS
        invariant PatchLoop(world, list, RETRY_STEPS) ==
                    if put.fate.Conflicted? && tries > 1 then PatchLoop(put.world, list, tries - 1) else put
        decreases tries
      {
        tries := tries - 1;
        put := PatchFinalizers(put.world, list);
      }
      world, ok := put.world, put.fate.Answered?;
    }

    method OnRemove(secret: Meta, refs: seq<OwnerRef>) returns (ok: bool)
      requires secret.Valid()
      modifies this
      ensures Outcome(world, ok) == OnSecretRemove(old(world), old(secret.Finalizers()), refs)
    {
      var credentials := secret.Index(CREDENTIALS_FINALIZER);
      var regCode := secret.Index(REG_CODE_FINALIZER);
      if credentials == -1 && regCode == -1 {
        return true;
      }
      var dangling := CountDanglingRefs(refs);
      if dangling > 0 {
        return false;
      }
      ok := Release(secret);
    }
  }
}
