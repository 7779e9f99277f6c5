/** The entrypoint-secret handler on the heap, proved to do what the functions of Entrypoint say. */
module EntrypointHandler {
  import opened Wrappers
  import opened Finalizers
  import opened Ownership
  import opened Cluster
  import opened Entrypoint

  /** A secret in memory. The label map may be shared with another object. */
  class SecretObject {
    const meta: Labelled
    const data: map<string, string>
    const deleting: bool

    constructor (m: Labelled, d: map<string, string>, del: bool)
      ensures meta == m && data == d && deleting == del
    {
      meta, data, deleting := m, d, del;
    }

    function View(): Secret
      reads meta, meta.labels
    {
      Secret(meta.Labels(), data, deleting)
    }

    method DeepCopy() returns (copy: SecretObject)
      ensures fresh(copy) && fresh(copy.meta) && copy.View() == View()
      ensures copy.meta.labels == null <==> meta.labels == null
      ensures copy.meta.labels != null ==> fresh(copy.meta.labels)
    {
      var m := meta.DeepCopy();
      copy := new SecretObject(m, data, deleting);
    }
  }

  /** A Registration in memory, whose labels and finalizers the handler edits in place. */
  class RegObject {
    const name: string
    const version: nat
    const deleting: bool
    var labels: Labels
    var finalizers: seq<string>

    constructor (n: string, r: Reg)
      ensures name == n && View() == r
    {
      name, version, deleting := n, r.version, r.deleting;
      labels, finalizers := r.labels, r.finalizers;
    }

    function View(): Reg
      reads this
    {
      Reg(version, labels, finalizers, deleting)
    }

    /** The params labels and the finalizer on top of what is there. */
    method Desire(p: Params)
      modifies this
      ensures View() == Desired(old(View()), p)
    {
      labels := labels + p.Labels();
      if REGISTRATION_FINALIZER !in finalizers {
        finalizers := finalizers + [REGISTRATION_FINALIZER];
      }
    }

    /** The filter loop of the cleanup. */
    method RemoveFinalizer(f: string)
      modifies this`finalizers
      ensures finalizers == Others(old(finalizers), f)
    {
      var remaining: seq<string> := [];
      for i := 0 to |finalizers|
        invariant finalizers == old(finalizers) && remaining == Others(finalizers[..i], f)
      {
        OthersOfConcat(finalizers[..i], [finalizers[i]], f);
        assert finalizers[..i + 1] == finalizers[..i] + [finalizers[i]];
        if finalizers[i] != f {
          remaining := remaining + [finalizers[i]];
        }
      }
      assert finalizers[..|finalizers|] == finalizers;
      finalizers := remaining;
    }
  }

  /** The handler with its informer cache: the objects in it are the ones the loops edit. */
  class Handler {
    var state: State
    const cache: seq<RegObject>

    ghost predicate Valid()
      reads this, cache
    {
      && |state.cache| == |cache|
      && (forall i, j :: 0 <= i < j < |cache| ==> cache[i] != cache[j])
      && (forall i :: 0 <= i < |cache| ==> state.cache[i] == Cached(cache[i].name, cache[i].View()))
    }

    constructor (s: State)
      ensures Valid() && state == s && fresh(cache)
    {
      state := s;
      var objects: seq<RegObject> := [];
      for i := 0 to |s.cache|
        invariant |objects| == i && fresh(objects)
        invariant forall j, k :: 0 <= j < k < i ==> objects[j] != objects[k]
        invariant forall j :: 0 <= j < i ==> s.cache[j] == Cached(objects[j].name, objects[j].View())
      {
        var reg := new RegObject(s.cache[i].name, s.cache[i].reg);
        objects := objects + [reg];
      }
      cache := objects;
    }

    // ----- the secret repository

    method PatchUpdate(incoming: Secret, desired: Secret) returns (error: ApiError)
      requires Valid()
      modifies this
      ensures Valid()
      ensures Call(state, error) == PatchSecret(old(state), incoming, desired)
    {
      var c := PatchSecret(state, incoming, desired);
      state, error := c.state, c.error;
    }

    method RetryingPatchUpdate(incoming: SecretObject, desired: SecretObject) returns (error: ApiError)
      requires Valid()
      modifies this
      ensures Valid()
      ensures Call(state, error) == RetryingPatch(old(state), incoming.View(), desired.View())
    {
      error := PatchUpdate(incoming.View(), desired.View());
      if error == NoError {
        return;
      }
      ghost var start := state;
      var copy, tries, again := desired.View(), Entrypoint.RETRY_STEPS, true;
      while again
        invariant 1 <= tries <= Entrypoint.RETRY_STEPS && Valid()
        invariant RetryPatch(start, copy, Entrypoint.RETRY_STEPS) ==
                    if again then RetryPatch(state, copy, tries) else Call(state, error)
        decreases again, tries
      {
        var got := GetSecret(state);
        state, error := got.state, got.error;
        again := false;
        if error == NoError {
          error := PatchUpdate(state.secret.value, copy);
          if error == Conflict && tries > 1 {
            again, tries := true, tries - 1;
          }
        }
      }
    }

    // ----- cleanup by name hash

    /** The filter runs anew in each round, on the cached object; from the second on it finds nothing to take out. */
    method StripFinalizer(i: nat) returns (error: ApiError)
      requires Valid() && i < |cache|
      modifies this, cache[i]
      ensures Valid() && cache[i].finalizers == Others(old(cache[i].finalizers), REGISTRATION_FINALIZER)
      ensures Call(state, error) ==
                StripLoop(Stripped(old(state), i), cache[i].name, old(cache[i].View()), Entrypoint.RETRY_STEPS)
    {
      var reg := cache[i];
      ghost var start, original := Stripped(state, i), reg.View();
      error := NoError;
      var tries, again := Entrypoint.RETRY_STEPS, true;
      reg.RemoveFinalizer(REGISTRATION_FINALIZER);
      state := Stripped(state, i);
      while again
        invariant 1 <= tries <= Entrypoint.RETRY_STEPS && Valid()
        invariant reg.finalizers == Others(original.finalizers, REGISTRATION_FINALIZER) && reg.labels == original.labels
        invariant StripLoop(start, reg.name, original, Entrypoint.RETRY_STEPS) ==
                    if again then StripLoop(state, reg.name, original, tries) else Call(state, error)
        decreases again, tries
      {
        OthersOfForeign(reg.finalizers, REGISTRATION_FINALIZER);
        reg.RemoveFinalizer(REGISTRATION_FINALIZER);
        var put := StripReg(state, reg.name, reg.View());
        assert put == StripReg(state, reg.name, original);
        state, error := put.state, put.error;
        again := error == Conflict && tries > 1;
        if again {
          tries := tries - 1;
        }
      }
    }

    /** Whatever the server says, the cached object has lost the finalizer. */
    method CleanupRegistration(i: nat) returns (ok: bool)
      requires Valid() && i < |cache|
      modifies this, cache[i]
      ensures Valid() && cache[i].finalizers == Others(old(cache[i].finalizers), REGISTRATION_FINALIZER)
      ensures Outcome(state, ok) == CleanupOne(old(state), i)
    {
      var reg := cache[i];
      if REGISTRATION_FINALIZER !in reg.finalizers {
        OthersOfForeign(reg.finalizers, REGISTRATION_FINALIZER);
        return true;
      }
      var error := StripFinalizer(i);
      if error != NoError {
        return false;
      }
      var del := DeleteRegistration(state, reg.name);
      state, ok := del.state, del.error == NoError || del.error == NotFound;
    }

    method CleanupByNameHash(hash: string, a: Answers) returns (ok: bool)
      requires Valid()
      modifies this, cache
      ensures Valid() && Outcome(state, ok) == Cleanup(old(state), hash, a)
    {
      if a.indexFails {
        return false;
      }
      for i := 0 to |cache|
        invariant Valid() && CleanupFrom(state, i, hash) == CleanupFrom(old(state), 0, hash)
      {
        var reg := cache[i];
        if NAME_SUFFIX in reg.labels && reg.labels[NAME_SUFFIX] == hash {
          var cleaned := CleanupRegistration(i);
          if !cleaned {
            return false;
          }
        }
      }
      ok := true;
    }

    // ----- the Registration

    /** The position of the cached object of that name. */
    method FindCached(name: string) returns (i: nat)
      requires Valid()
      ensures i == Position(state.cache, name) && i <= |cache|
    {
      i := 0;
      while i < |cache| && cache[i].name != name
        invariant 0 <= i <= |cache| && Position(state.cache, name) == i + Position(state.cache[i..], name)
      {
        assert state.cache[i..][1..] == state.cache[i + 1..];
        i := i + 1;
      }
    }

    method RegistrationFromEntrypoint(name: string, p: Params) returns (named: string, reg: RegObject)
      requires Valid()
      modifies this, cache
      ensures Valid() && Entrypoint.Desire(state, named, reg.View()) == FromEntrypoint(old(state), name, p)
    {
      var i := FindCached(name);
      named := name;
      if i < |cache| {
        reg := cache[i];
      } else {
        var got := GetReg(state, name);
        state := got.state;
        if got.error == NoError {
          reg := new RegObject(name, state.regs[name]);
        } else {
          reg := new RegObject(if got.error == NotFound then name else "", BLANK);
          named := reg.name;
        }
      }
      reg.Desire(p);
      if i < |cache| {
        state := state.(cache := state.cache[i := Cached(reg.name, reg.View())]);
      }
    }

    method CreateOrUpdateRegistration(name: string, reg: RegObject) returns (error: ApiError)
      requires Valid()
      modifies this
      ensures Valid() && Call(state, error) == CreateOrUpdate(old(state), name, reg.View())
    {
      if name == "" {
        return Refusal;
      }
      var first := GetReg(state, name);
      state := first.state;
      var desired := reg.View();
      if first.error == NotFound {
        var made := CreateReg(state, name, desired.(version := 1, deleting := false));
        state, error := made.state, made.error;
        return;
      }
      ghost var start := state;
      error := NoError;
      var tries, again := Entrypoint.RETRY_STEPS, true;
      while again
        invariant 1 <= tries <= Entrypoint.RETRY_STEPS && Valid()
        invariant PatchRegLoop(start, name, desired, Entrypoint.RETRY_STEPS) ==
                    if again then PatchRegLoop(state, name, desired, tries) else Call(state, error)
        decreases again, tries
      {
        var got := GetReg(state, name);
        state, error := got.state, got.error;
        again := false;
        if error == NoError {
          var put := PatchReg(state, name, state.regs[name], desired);
          state, error := put.state, put.error;
          if error == Conflict && tries > 1 {
            again, tries := true, tries - 1;
          }
        }
      }
    }

    method CallOthers(n: nat) returns (error: ApiError)
      requires Valid()
      modifies this
      ensures Valid()
      ensures Call(state, error) == OtherCalls(old(state), n)
    {
      error := NoError;
      for i := 0 to n
        invariant Valid() && error == NoError && OtherCalls(old(state), n) == OtherCalls(state, n - i)
      {
        var c := OtherCall(state);
        state, error := c.state, c.error;
        if error != NoError {
          return;
        }
      }
    }

    // ----- the handlers

    method LabelSecret(incoming: SecretObject, p: Params) returns (error: ApiError)
      requires Valid()
      modifies this
      ensures Valid()
      ensures Call(state, error) == Label(old(state), incoming.View(), p)
    {
      var newSecret := incoming.DeepCopy();
      MergeLabelsPreservingHelm(newSecret.meta, p.Labels());
      error := RetryingPatchUpdate(incoming, newSecret);
    }

    method MaterializeParams(p: Params, a: Answers) returns (ok: bool)
      requires Valid()
      modifies this, cache
      ensures Valid()
      ensures Outcome(state, ok) == Materialize(old(state), p, a)
    {
      if p.mode == ONLINE || p.hasCertificate {
        var error := CallOthers(a.written);
        if error != NoError {
          return false;
        }
      }
      var name, reg := RegistrationFromEntrypoint(RegistrationName(p.nameId), p);
      var error := CreateOrUpdateRegistration(name, reg);
      ok := error == NoError;
    }

    method ProcessSecret(incoming: SecretObject, p: Params, a: Answers) returns (ok: bool)
      requires Valid()
      modifies this, cache
      ensures Valid()
      ensures Outcome(state, ok) == Process(old(state), incoming.View(), p, a)
    {
      var labels := incoming.meta.Labels();
      if Value(labels, NAME_SUFFIX) != p.nameId {
        var cleaned := CleanupByNameHash(Value(labels, NAME_SUFFIX), a);
        if !cleaned {
          return false;
        }
      }
      if Value(labels, SCC_HASH) != p.contentHash {
        var error := CallOthers(a.related);
        if error != NoError {
          return false;
        }
      }
      var error := LabelSecret(incoming, p);
      if error != NoError {
        return false;
      }
      ok := MaterializeParams(p, a);
    }

    /** The incoming secret is as decoded: it has no label map rather than an empty one. */
    method OnChange(incoming: SecretObject, a: Answers) returns (ok: bool)
      requires Valid()
      requires incoming.meta.labels != null ==> incoming.meta.Labels() != map[]
      modifies this, cache, incoming.meta.labels
      ensures Valid()
      ensures Outcome(state, ok) == OnSecretChange(old(state), old(incoming.View()), a)
    {
      if incoming.deleting {
        return true;
      }
      var l := incoming.meta.Labels();
      var error: ApiError;
      if !HasSccManagedBy(l) && ShouldAdopt(l, a.operator) {
        var prepared := incoming.DeepCopy();
        TakeOwnership(prepared.meta, a.operator);
        error := RetryingPatchUpdate(incoming, prepared);
        return error == NoError;
      }
      if !ShouldManage(l, a.operator) {
        return true;
      }
      if OBJECT_SALT !in l {
        var prepared := PrepareSecretSalt(incoming.meta, a.salt);
        var salted := new SecretObject(prepared, incoming.data, incoming.deleting);
        error := RetryingPatchUpdate(incoming, salted);
        return error == NoError;
      }
      var extracted := Extract(incoming.View(), a);
      if extracted.None? {
        return false;
      }
      var p := extracted.value;
      if Value(l, SCC_HASH) == "" {
        error := LabelSecret(incoming, p);
        return error == NoError;
      }
      ok := ProcessSecret(incoming, p, a);
    }

    method OnRemove(incoming: SecretObject, a: Answers) returns (ok: bool)
      requires Valid()
      modifies this, cache
      ensures Valid()
      ensures Outcome(state, ok) == OnSecretRemove(old(state), incoming.View(), a)
    {
      var l := incoming.meta.Labels();
      if !ShouldManage(l, a.operator) || NAME_SUFFIX !in l {
        return true;
      }
      ok := CleanupByNameHash(l[NAME_SUFFIX], a);
      if !ok || SCC_HASH !in l {
        return;
      }
      var error := CallOthers(a.related);
      ok := error == NoError;
    }
  }
}
