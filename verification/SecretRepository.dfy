/** The secret repository: reads through the cache, patches, retries and create-or-update, for any named secret. */
module SecretRepository {
  import opened Wrappers
  import opened Finalizers
  import opened Ownership

  const RETRY_STEPS := 5
  const REG_CODE := "regCode"

  datatype Secret = Secret(labels: Labels, data: map<string, string>, finalizers: seq<string>)

  datatype Fate = Answered | Contended | Refused | AnswerLost

  /** What other writers do to the secrets before a call arrives, and what becomes of the call. */
  datatype Beat = Beat(edited: map<string, Secret>, deleted: set<string>, fate: Fate)

  datatype World = World(stored: map<string, Secret>, script: seq<Beat>)

  datatype ApiError = NoError | Conflict | NotFound | Exists | Refusal | Silence

  datatype Call = Call(world: World, error: ApiError)

  function Arrival(w: World): World
    requires w.script != []
  {
    World((w.stored - w.script[0].deleted) + w.script[0].edited, w.script[1..])
  }

  function Refusing(fate: Fate): ApiError {
    match fate
    case Refused => Refusal
    case Contended => Conflict
    case _ => NoError
  }

  /** An answered read, or the reason why not; `missing` is the error for an absent secret. */
  function Reach(w: World, name: string, present: bool): Call {
    if w.script == [] then Call(w, Silence)
    else
      var v, fate := Arrival(w), w.script[0].fate;
      if !Refusing(fate).NoError? then Call(v, Refusing(fate))
      else if name in v.stored && !present then Call(v, Exists)
      else if name !in v.stored && present then Call(v, NotFound)
      else Call(v, if fate.AnswerLost? then Silence else NoError)
  }

  /** A read does not conflict. */
  function Get(w: World, name: string): Call {
    var c := Reach(w, name, true);
    if c.error.Conflict? then Call(c.world, Refusal) else c
  }

  /** A write that reaches its object happens, whether or not the answer gets back. */
  function Write(w: World, name: string, present: bool, next: Secret -> Secret, made: Secret): Call {
    var c := Reach(w, name, present);
    if !c.error.NoError? && !(c.error.Silence? && w.script != []) then c
    else Call(c.world.(stored := c.world.stored[name := if present && name in c.world.stored then next(c.world.stored[name]) else made]),
              c.error)
  }

  function PatchedSecret(stored: Secret, snapshot: Secret, copy: Secret): Secret {
    Secret(Patched(stored.labels, snapshot.labels, copy.labels),
           Patched(stored.data, snapshot.data, copy.data),
           if snapshot.finalizers == copy.finalizers then stored.finalizers else copy.finalizers)
  }

  function Patch(w: World, name: string, snapshot: Secret, copy: Secret): Call {
    Write(w, name, true, stored => PatchedSecret(stored, snapshot, copy), copy)
  }

  function Create(w: World, name: string, s: Secret): Call {
    Write(w, name, false, stored => stored, s)
  }

  function RetryPatch(w: World, name: string, copy: Secret, tries: nat): Call
    decreases tries
  {
    var got := Get(w, name);
    if !got.error.NoError? then got
    else
      var put := Patch(got.world, name, got.world.stored[name], copy);
      if put.error.Conflict? && tries > 1 then RetryPatch(put.world, name, copy, tries - 1) else put
  }

  function RetryingPatch(w: World, name: string, snapshot: Secret, copy: Secret): Call {
    var first := Patch(w, name, snapshot, copy);
    if first.error.NoError? then first else RetryPatch(first.world, name, copy, RETRY_STEPS)
  }

  // ----- what the patches do

  lemma PatchedSecretExtremes(stored: Secret, copy: Secret)
    ensures PatchedSecret(stored, copy, copy) == stored
    ensures PatchedSecret(stored, stored, copy) == copy
  {
    PatchedExtremes(stored.labels, copy.labels);
    PatchedExtremes(stored.data, copy.data);
  }

  ghost predicate Undisturbed(script: seq<Beat>) {
    forall i :: 0 <= i < |script| ==> script[i].edited == map[] && script[i].deleted == {}
  }

  /** Without other writers an attempt on what is stored either leaves it or makes the copy of it. */
  lemma PatchUndisturbed(w: World, name: string, snapshot: Secret, copy: Secret)
    requires Undisturbed(w.script) && name in w.stored
    ensures var c := Patch(w, name, snapshot, copy);
            && Undisturbed(c.world.script)
            && (c.world.stored == w.stored || c.world.stored == w.stored[name := PatchedSecret(w.stored[name], snapshot, copy)])
            && (c.error.NoError? ==> c.world.stored == w.stored[name := PatchedSecret(w.stored[name], snapshot, copy)])
  {
    if w.script != [] {
      assert w.script[0].edited == map[] && w.script[0].deleted == {};
      assert Arrival(w).stored == w.stored;
    }
  }

  lemma {:induction false} RetryUndisturbed(w: World, name: string, copy: Secret, tries: nat)
    requires Undisturbed(w.script) && name in w.stored
    ensures var c := RetryPatch(w, name, copy, tries);
            && (c.world.stored == w.stored || c.world.stored == w.stored[name := copy])
            && (c.error.NoError? ==> c.world.stored == w.stored[name := copy])
    decreases tries
  {
    var got := Get(w, name);
    if w.script != [] {
      assert w.script[0].edited == map[] && w.script[0].deleted == {};
      assert got.world.stored == w.stored;
    }
    if got.error.NoError? {
      PatchedSecretExtremes(w.stored[name], copy);
      PatchUndisturbed(got.world, name, w.stored[name], copy);
      var put := Patch(got.world, name, got.world.stored[name], copy);
      if put.error.Conflict? && tries > 1 {
        RetryUndisturbed(put.world, name, copy, tries - 1);
        assert w.stored[name := copy][name := copy] == w.stored[name := copy];
      }
    }
  }

  /** What a success means depends on the attempt that succeeded. The first one merges the caller's edit into what is
      stored. After a failure the copy replaces everything, with all that others wrote since the snapshot. */
  lemma {:induction false} SuccessMergesOrReplaces(w: World, name: string, snapshot: Secret, copy: Secret)
    requires Undisturbed(w.script) && name in w.stored
    requires RetryingPatch(w, name, snapshot, copy).error.NoError?
    ensures RetryingPatch(w, name, snapshot, copy).world.stored == w.stored[name :=
              if Patch(w, name, snapshot, copy).error.NoError? then PatchedSecret(w.stored[name], snapshot, copy) else copy]
  {
    PatchUndisturbed(w, name, snapshot, copy);
    var first := Patch(w, name, snapshot, copy);
    if !first.error.NoError? {
      RetryUndisturbed(first.world, name, copy, RETRY_STEPS);
    }
  }

  lemma {:induction false} RetryGivesUpLate(w: World, name: string, copy: Secret, tries: nat)
    requires tries >= 1
    ensures var c := RetryPatch(w, name, copy, tries); c.error.Conflict? ==> |w.script| - |c.world.script| >= 2 * tries
    decreases tries
  {
    var got := Get(w, name);
    if got.error.NoError? && tries > 1 {
      RetryGivesUpLate(Patch(got.world, name, got.world.stored[name], copy).world, name, copy, tries - 1);
    }
  }

  /** A patch that ends in a conflict was sent once from the snapshot and five times after a read. A patch that is not
      answered is tried again after a read, whatever its error; from then on only conflicts are. */
  lemma {:induction false} PatchesAreSentSixTimes(w: World, name: string, snapshot: Secret, copy: Secret)
    ensures var c := RetryingPatch(w, name, snapshot, copy); c.error.Conflict? ==> |w.script| - |c.world.script| >= 11
    ensures var c := RetryingPatch(w, name, snapshot, copy);
            w.script != [] && w.script[0].fate.Answered? && name in Arrival(w).stored ==>
              c.error.NoError? && c.world.script == w.script[1..]
    ensures var c := RetryingPatch(w, name, snapshot, copy);
            |w.script| >= 3 && !w.script[0].fate.Answered? && w.script[1].fate.Answered? && w.script[2].fate.Refused? ==>
              !c.error.NoError? && (c.world.script == w.script[3..] || c.world.script == w.script[2..])
  {
    var first := Patch(w, name, snapshot, copy);
    RetryGivesUpLate(first.world, name, copy, RETRY_STEPS);
    if |w.script| >= 3 {
      assert w.script[1..][1..] == w.script[2..] && w.script[2..][1..] == w.script[3..];
    }
  }

  /** What is not in the cache is created, the rest is patched from its cached copy. */
  function CreateOrUpdate(w: World, name: string, cached: Option<Secret>, s: Secret): Call {
    match cached
    case None => Create(w, name, s)
    case Some(c) => RetryingPatch(w, name, c, s)
  }

  /** What a success means, without other writers: a new secret was not there before and is stored as given; one with an
      accurate cached copy is stored as given; and with an outdated copy the first patch keeps what the copy missed. A
      secret that the cache misses is never overwritten. */
  lemma {:induction false} CreateOrUpdateStores(w: World, name: string, cached: Option<Secret>, s: Secret)
    requires Undisturbed(w.script)
    ensures var r := CreateOrUpdate(w, name, cached, s);
            && (cached.None? && name in w.stored ==> !r.error.NoError? && r.world.stored == w.stored)
            && (r.error.NoError? ==> (name in w.stored <==> cached.Some?))
            && (r.error.NoError? && (cached.None? || cached.value == w.stored[name]) ==> r.world.stored == w.stored[name := s])
            && (r.error.NoError? && cached.Some? && Patch(w, name, cached.value, s).error.NoError? ==>
                  r.world.stored == w.stored[name := PatchedSecret(w.stored[name], cached.value, s)])
  {
    if w.script != [] {
      assert w.script[0].edited == map[] && w.script[0].deleted == {};
      assert Arrival(w).stored == w.stored;
    }
    if cached.Some? && name !in w.stored {
      NothingToPatch(w, name, cached.value, s);
    } else if cached.Some? && CreateOrUpdate(w, name, cached, s).error.NoError? {
      SuccessMergesOrReplaces(w, name, cached.value, s);
      PatchedSecretExtremes(w.stored[name], s);
    }
  }

  lemma {:induction false} NothingToPatch(w: World, name: string, snapshot: Secret, copy: Secret)
    requires Undisturbed(w.script) && name !in w.stored
    ensures !RetryingPatch(w, name, snapshot, copy).error.NoError?
  {
    if w.script != [] {
      assert w.script[0].edited == map[] && w.script[0].deleted == {};
      assert Arrival(w).stored == w.stored;
      if |w.script| > 1 {
        assert w.script[1].edited == map[] && w.script[1].deleted == {};
        assert Arrival(Arrival(w)).stored == w.stored;
      }
    }
  }

  // ----- in place

  /** A secret in memory. */
  class SecretObject {
    const labels: LabelMap
    const data: map<string, string>
    const meta: Meta

    constructor (s: Secret)
      ensures meta.Valid() && View() == s
      ensures fresh(labels) && fresh(meta) && (meta.backing != null ==> fresh(meta.backing))
    {
      labels := new LabelMap(s.labels);
      data := s.data;
      var list := Meta.Allocate(s.finalizers);
      meta := new Meta(list, |s.finalizers|);
      new;
      assert meta.Finalizers() == s.finalizers;
    }

    function View(): Secret
      requires meta.Valid()
      reads labels, meta, meta.backing
    {
      Secret(labels.entries, data, meta.Finalizers())
    }
  }

  class Repository {
    var world: World
    const cache: map<string, SecretObject>

    constructor (w: World, c: map<string, SecretObject>)
      ensures world == w && cache == c
    {
      world, cache := w, c;
    }

    method PatchUpdate(name: string, incoming: Secret, desired: Secret) returns (error: ApiError)
      modifies this
      ensures Call(world, error) == Patch(old(world), name, incoming, desired)
    {
      var c := Patch(world, name, incoming, desired);
      world, error := c.world, c.error;
    }

    method RetryUpdate(name: string, copy: Secret, steps: nat) returns (error: ApiError)
      requires steps >= 1
      modifies this
      ensures Call(world, error) == RetryPatch(old(world), name, copy, steps)
    {
      error := NoError;
      var tries, again := steps, true;
      while again
        invariant 1 <= tries <= steps
        invariant RetryPatch(old(world), name, copy, steps) ==
                    if again then RetryPatch(world, name, copy, tries) else Call(world, error)
        decreases again, tries
      {
        var got := Get(world, name);
        world, error := got.world, got.error;
        again := false;
        if error == NoError {
          error := PatchUpdate(name, world.stored[name], copy);
          if error == Conflict && tries > 1 {
            again, tries := true, tries - 1;
          }
        }
      }
    }

    method RetryingPatchUpdate(name: string, incoming: SecretObject, desired: SecretObject) returns (error: ApiError)
      requires incoming.meta.Valid() && desired.meta.Valid()
      modifies this
      ensures Call(world, error) == RetryingPatch(old(world), name, incoming.View(), desired.View())
    {
      error := PatchUpdate(name, incoming.View(), desired.View());
      if error != NoError {
        error := RetryUpdate(name, desired.View(), RETRY_STEPS);
      }
    }

    method CreateOrUpdateSecret(name: string, secret: SecretObject) returns (error: ApiError)
      requires secret.meta.Valid() && (name in cache ==> cache[name].meta.Valid())
      modifies this
      ensures Call(world, error) ==
                CreateOrUpdate(old(world), name, if name in cache then Some(cache[name].View()) else None, secret.View())
    {
      if name !in cache {
        var made := Create(world, name, secret.View());
        world, error := made.world, made.error;
      } else {
        error := RetryingPatchUpdate(name, cache[name], secret);
      }
    }

    /** The registration code secret: the cached object itself, edited in place, or a new one. */
    method RegCodeFromEntrypoint(name: string, code: string, labels: Labels) returns (secret: SecretObject)
      requires name in cache ==> cache[name].meta.Valid()
      modifies if name in cache then {cache[name].labels, cache[name].meta} else {},
               if name in cache then cache[name].meta.backing else null
      ensures secret.meta.Valid()
      ensures if name in cache then secret == cache[name] else fresh(secret) && fresh(secret.labels) && fresh(secret.meta)
      ensures var was := if name in cache then old(cache[name].View()) else Secret(map[], map[REG_CODE := code], []);
              secret.View() == Secret(was.labels + labels, was.data, Added(was.finalizers, REG_CODE_FINALIZER))
    {
      if name in cache {
        secret := cache[name];
      } else {
        secret := new SecretObject(Secret(map[], map[REG_CODE := code], []));
      }
      CopyInto(secret.labels, labels);
      secret.meta.Add(REG_CODE_FINALIZER);
    }

    /** Making sure of the registration code secret: a missing one is created, but for one that is in the cache the
        first patch is from the edited object to itself. If it is answered, nothing has been written. */
    method EnsureRegCode(name: string, code: string, labels: Labels) returns (error: ApiError)
      requires name in cache ==> cache[name].meta.Valid()
      modifies this, if name in cache then {cache[name].labels, cache[name].meta} else {},
               if name in cache then cache[name].meta.backing else null
      ensures name !in cache ==>
                Call(world, error) == Create(old(world), name, Secret(labels, map[REG_CODE := code], [REG_CODE_FINALIZER]))
      ensures name in cache && old(world.script) != [] && old(world.script[0].fate).Answered? && name in old(Arrival(world)).stored ==>
                error == NoError && world == old(Arrival(world))
    {
      var secret := RegCodeFromEntrypoint(name, code, labels);
      if name in cache {
        if world.script != [] && name in Arrival(world).stored {
          PatchedSecretExtremes(Arrival(world).stored[name], secret.View());
        }
      } else {
        assert map[] + labels == labels && Added([], REG_CODE_FINALIZER) == [REG_CODE_FINALIZER];
      }
      error := CreateOrUpdateSecret(name, secret);
    }
  }
}
