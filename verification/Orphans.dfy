/** Orphan-freedom: no live managed Registration ever disagrees with the entrypoint secret, whatever call fails. */
module Orphans {
  import opened Wrappers
  import opened Finalizers
  import opened Ownership
  import opened Cluster
  import opened Entrypoint

  // ----- what the environment and the cleanup calls leave alone

  predicate SameAt(a: Labels, b: Labels, k: string) {
    (k in a <==> k in b) && Value(a, k) == Value(b, k)
  }

  predicate ReservedSame(a: Labels, b: Labels) {
    SameAt(a, b, NAME_SUFFIX) && SameAt(a, b, SCC_HASH) && SameAt(a, b, K8S_MANAGED_BY) && SameAt(a, b, SCC_MANAGED_BY)
  }

  /** No Registration appears, comes back to life, or changes its labels. */
  ghost predicate RegsShrink(s: State, t: State) {
    forall n :: n in t.regs ==>
      n in s.regs && t.regs[n].labels == s.regs[n].labels && (t.regs[n].Live() ==> s.regs[n].Live()) &&
      (s.regs[n].deleting ==> t.regs[n].deleting)
  }

  /** And the operator's labels on the secret stay. */
  ghost predicate Calm(s: State, t: State) {
    && RegsShrink(s, t)
    && (s.secret.Some? <==> t.secret.Some?)
    && (s.secret.Some? ==> ReservedSame(s.secret.value.labels, t.secret.value.labels))
  }

  lemma EditIsCalm(s: State, e: Edit)
    ensures Calm(s, Edited(s, e))
  {
  }

  lemma {:induction false} EditsAreCalm(s: State, edits: seq<Edit>)
    ensures Calm(s, EditedAll(s, edits))
    decreases |edits|
  {
    if edits != [] {
      EditIsCalm(s, edits[0]);
      EditsAreCalm(Edited(s, edits[0]), edits[1..]);
    }
  }

  lemma ArrivalIsCalm(s: State)
    requires s.script != []
    ensures Calm(s, Arrival(s))
  {
    EditsAreCalm(s.(script := s.script[1..]), s.script[0].edits);
  }

  lemma OtherCallIsCalm(s: State, name: string)
    ensures Calm(s, OtherCall(s).state) && Calm(s, GetSecret(s).state) && Calm(s, GetReg(s, name).state)
  {
    if s.script != [] {
      ArrivalIsCalm(s);
    }
  }

  lemma {:induction false} OtherCallsAreCalm(s: State, n: nat)
    ensures Calm(s, OtherCalls(s, n).state)
    decreases n
  {
    if n > 0 {
      OtherCallIsCalm(s, "");
      OtherCallsAreCalm(OtherCall(s).state, n - 1);
    }
  }

  // ----- cleanup

  ghost predicate Dead(s: State, n: string) {
    n in s.regs ==> !s.regs[n].Live()
  }

  lemma StripIsCalm(s: State, name: string, snapshot: Reg)
    ensures var c := StripReg(s, name, snapshot);
            Calm(s, c.state) && (c.error.NoError? ==> Dead(c.state, name))
  {
    if s.script != [] {
      ArrivalIsCalm(s);
    }
  }

  lemma {:induction false} StripLoopIsCalm(s: State, name: string, reg: Reg, tries: nat)
    ensures var c := StripLoop(s, name, reg, tries);
            Calm(s, c.state) && (c.error.NoError? ==> Dead(c.state, name))
    decreases tries
  {
    StripIsCalm(s, name, reg);
    var c := StripReg(s, name, reg);
    if c.error.Conflict? && tries > 1 {
      StripLoopIsCalm(c.state, name, reg, tries - 1);
    }
  }

  ghost predicate Deleting(s: State, n: string) {
    n in s.regs ==> s.regs[n].deleting
  }

  lemma DeleteIsCalm(s: State, name: string)
    ensures var c := DeleteRegistration(s, name);
            Calm(s, c.state) && (c.error.NoError? || c.error.NotFound? ==> Deleting(c.state, name))
  {
    if s.script != [] {
      ArrivalIsCalm(s);
    }
  }

  lemma CleanupOneIsCalm(s: State, i: nat)
    requires i < |s.cache|
    ensures var r := CleanupOne(s, i);
            && Calm(s, r.state)
            && (r.ok && s.cache[i].reg.Managed() ==> Dead(r.state, s.cache[i].name) && Deleting(r.state, s.cache[i].name))
  {
    var l := s.cache[i];
    StripLoopIsCalm(Stripped(s, i), l.name, l.reg, RETRY_STEPS);
    DeleteIsCalm(StripLoop(Stripped(s, i), l.name, l.reg, RETRY_STEPS).state, l.name);
  }

  lemma {:induction false} CleanupFromIsCalm(s: State, i: nat, hash: string)
    requires i <= |s.cache|
    ensures Calm(s, CleanupFrom(s, i, hash).state)
    decreases |s.cache| - i
  {
    if i < |s.cache| {
      if CarriesHash(s.cache[i].reg, hash) {
        CleanupOneIsCalm(s, i);
        var one := CleanupOne(s, i);
        if one.ok {
          CleanupFromIsCalm(one.state, i + 1, hash);
        }
      } else {
        CleanupFromIsCalm(s, i + 1, hash);
      }
    }
  }

  lemma {:induction false} CleanupFromKills(s: State, i: nat, hash: string, j: nat)
    requires i <= j < |s.cache| && CarriesHash(s.cache[j].reg, hash) && s.cache[j].reg.Managed()
    requires CleanupFrom(s, i, hash).ok
    ensures Dead(CleanupFrom(s, i, hash).state, s.cache[j].name)
    ensures Deleting(CleanupFrom(s, i, hash).state, s.cache[j].name)
    decreases |s.cache| - i
  {
    if CarriesHash(s.cache[i].reg, hash) {
      CleanupOneIsCalm(s, i);
      var one := CleanupOne(s, i);
      CleanupFromIsCalm(one.state, i + 1, hash);
      if i < j {
        assert one.state.cache[j] == s.cache[j];
        CleanupFromKills(one.state, i + 1, hash, j);
      }
    } else {
      CleanupFromKills(s, i + 1, hash, j);
    }
  }

  ghost predicate NobodyLives(s: State) {
    forall n :: n in s.regs ==> !s.regs[n].Live()
  }

  /** The informer knows about a Registration, under the hash and with the finalizer. */
  predicate Known(cache: seq<Cached>, n: string, hash: string) {
    exists i :: 0 <= i < |cache| && cache[i].name == n && CarriesHash(cache[i].reg, hash) && cache[i].reg.Managed()
  }

  /** It knows about every live one. */
  ghost predicate Covered(s: State, hash: string) {
    forall n :: n in s.regs && s.regs[n].Live() ==> Known(s.cache, n, hash)
  }

  /** A successful cleanup has deleted every Registration that the informer holds under the hash and with the finalizer: it
      is on its way out, or gone. */
  lemma {:induction false} CleanupDeletesTheHash(s: State, hash: string, a: Answers, j: nat)
    requires Cleanup(s, hash, a).ok && j < |s.cache| && REGISTRATION_FINALIZER in s.cache[j].reg.finalizers
    requires NAME_SUFFIX in s.cache[j].reg.labels && s.cache[j].reg.labels[NAME_SUFFIX] == hash
    ensures var t, n := Cleanup(s, hash, a).state, s.cache[j].name; n in t.regs ==> t.regs[n].deleting
  {
    CleanupFromKills(s, 0, hash, j);
  }

  /** After a successful cleanup of a hash under which the informer knows all live Registrations, none of them lives. */
  lemma CleanupKillsTheHash(s: State, hash: string, a: Answers)
    ensures var r := Cleanup(s, hash, a); Calm(s, r.state) && (r.ok && Covered(s, hash) ==> NobodyLives(r.state))
  {
    if !a.indexFails {
      CleanupFromIsCalm(s, 0, hash);
      var r := CleanupFrom(s, 0, hash);
      if r.ok && Covered(s, hash) {
        forall n | n in r.state.regs ensures !r.state.regs[n].Live() {
          if s.regs[n].Live() {
            assert Known(s.cache, n, hash);
            var j :| 0 <= j < |s.cache| && s.cache[j].name == n && CarriesHash(s.cache[j].reg, hash) && s.cache[j].reg.Managed();
            CleanupFromKills(s, 0, hash, j);
          }
        }
      }
    }
  }

  ghost predicate NobodyEdits(script: seq<Beat>) {
    forall i :: 0 <= i < |script| ==> script[i].edits == []
  }

  /** Nothing the handler did touched this Registration. */
  ghost predicate Spared(s: State, t: State, n: string) {
    NobodyEdits(t.script) && n in s.regs && n in t.regs && t.regs[n] == s.regs[n]
  }

  lemma StripRegSpares(s: State, name: string, reg: Reg, n: string)
    requires NobodyEdits(s.script) && n in s.regs && name != n
    ensures Spared(s, StripReg(s, name, reg).state, n) && Spared(s, DeleteRegistration(s, name).state, n)
  {
    if s.script != [] {
      assert s.script[0].edits == [];
    }
  }

  lemma {:induction false} StripLoopSpares(s: State, name: string, reg: Reg, tries: nat, n: string)
    requires NobodyEdits(s.script) && n in s.regs && name != n
    ensures Spared(s, StripLoop(s, name, reg, tries).state, n)
    decreases tries
  {
    StripRegSpares(s, name, reg, n);
    var c := StripReg(s, name, reg);
    if c.error.Conflict? && tries > 1 {
      StripLoopSpares(c.state, name, reg, tries - 1, n);
    }
  }

  lemma {:induction false} CleanupOneSpares(s: State, i: nat, n: string)
    requires NobodyEdits(s.script) && n in s.regs && i < |s.cache|
    requires s.cache[i].name != n || !s.cache[i].reg.Managed()
    ensures Spared(s, CleanupOne(s, i).state, n)
  {
    var l := s.cache[i];
    if l.reg.Managed() {
      StripLoopSpares(Stripped(s, i), l.name, l.reg, RETRY_STEPS, n);
      StripRegSpares(StripLoop(Stripped(s, i), l.name, l.reg, RETRY_STEPS).state, l.name, l.reg, n);
    }
  }

  lemma StrippingMakesNobodyKnown(s: State, i: nat, n: string, hash: string)
    requires i < |s.cache| && !Known(s.cache, n, hash)
    ensures !Known(Stripped(s, i).cache, n, hash)
  {
    var cache := Stripped(s, i).cache;
    forall j | 0 <= j < |cache| && cache[j].name == n && CarriesHash(cache[j].reg, hash) ensures !cache[j].reg.Managed() {
      assert j != i ==> cache[j] == s.cache[j];
    }
  }

  lemma {:induction false} CleanupFromSpares(s: State, i: nat, hash: string, n: string)
    requires NobodyEdits(s.script) && n in s.regs && i <= |s.cache| && !Known(s.cache, n, hash)
    ensures Spared(s, CleanupFrom(s, i, hash).state, n)
    decreases |s.cache| - i
  {
    if i < |s.cache| {
      if CarriesHash(s.cache[i].reg, hash) {
        CleanupOneSpares(s, i, n);
        var one := CleanupOne(s, i);
        StrippingMakesNobodyKnown(s, i, n, hash);
        if one.ok {
          CleanupFromSpares(one.state, i + 1, hash, n);
        }
      } else {
        CleanupFromSpares(s, i + 1, hash, n);
      }
    }
  }

  /** The cleanup of a hash leaves exactly as they are all Registrations that the informer does not know under it: those
      of other hashes, and those whose cached copy an earlier cleanup has already stripped. */
  lemma CleanupSparesTheUnknown(s: State, hash: string, a: Answers, n: string)
    requires NobodyEdits(s.script) && n in s.regs && !Known(s.cache, n, hash)
    ensures Spared(s, Cleanup(s, hash, a).state, n)
  {
    if !a.indexFails {
      CleanupFromSpares(s, 0, hash, n);
    }
  }

  /** In particular those that it does not hold under this hash. */
  lemma {:induction false} CleanupSparesOtherHashes(s: State, hash: string, a: Answers, n: string)
    requires NobodyEdits(s.script) && n in s.regs
    requires forall l :: l in s.cache && l.name == n ==> !(NAME_SUFFIX in l.reg.labels && l.reg.labels[NAME_SUFFIX] == hash)
    ensures var t := Cleanup(s, hash, a).state; n in t.regs && t.regs[n] == s.regs[n]
  {
    CleanupSparesTheUnknown(s, hash, a, n);
  }

  // ----- patches of the secret

  /** Registrations shrink, and the operator's labels are either the old ones or those of the desired secret. */
  ghost predicate Relabelled(s: State, t: State, copy: Labels) {
    && RegsShrink(s, t) && s.secret.Some? && t.secret.Some?
    && (ReservedSame(s.secret.value.labels, t.secret.value.labels) || ReservedSame(copy, t.secret.value.labels))
  }

  lemma PatchSetsReserved(stored: Labels, snapshot: Labels, copy: Labels)
    requires ReservedSame(stored, snapshot)
    ensures ReservedSame(copy, Patched(stored, snapshot, copy))
  {
  }

  lemma PatchSecretRelabels(s: State, snapshot: Secret, copy: Secret)
    requires s.secret.Some? && ReservedSame(s.secret.value.labels, snapshot.labels)
    ensures var c := PatchSecret(s, snapshot, copy);
            Relabelled(s, c.state, copy.labels) &&
            (c.error.NoError? ==> ReservedSame(copy.labels, c.state.secret.value.labels))
  {
    if s.script != [] {
      ArrivalIsCalm(s);
      PatchSetsReserved(Arrival(s).secret.value.labels, snapshot.labels, copy.labels);
    }
  }

  lemma RelabelledAfter(s: State, m: State, t: State, copy: Labels)
    requires Calm(s, m) || Relabelled(s, m, copy)
    requires Relabelled(m, t, copy)
    ensures Relabelled(s, t, copy)
  {
  }

  lemma {:induction false} RetryPatchRelabels(s: State, copy: Secret, tries: nat)
    requires s.secret.Some?
    ensures var c := RetryPatch(s, copy, tries);
            Relabelled(s, c.state, copy.labels) &&
            (c.error.NoError? ==> ReservedSame(copy.labels, c.state.secret.value.labels))
    decreases tries
  {
    OtherCallIsCalm(s, "");
    var got := GetSecret(s);
    if got.error.NoError? {
      PatchSecretRelabels(got.state, got.state.secret.value, copy);
      var put := PatchSecret(got.state, got.state.secret.value, copy);
      RelabelledAfter(s, got.state, put.state, copy.labels);
      if put.error.Conflict? && tries > 1 {
        RetryPatchRelabels(put.state, copy, tries - 1);
        RelabelledAfter(s, put.state, RetryPatch(put.state, copy, tries - 1).state, copy.labels);
      }
    }
  }

  lemma RetryingPatchRelabels(s: State, snapshot: Secret, copy: Secret)
    requires s.secret.Some? && ReservedSame(s.secret.value.labels, snapshot.labels)
    ensures var c := RetryingPatch(s, snapshot, copy);
            Relabelled(s, c.state, copy.labels) &&
            (c.error.NoError? ==> ReservedSame(copy.labels, c.state.secret.value.labels))
  {
    PatchSecretRelabels(s, snapshot, copy);
    var first := PatchSecret(s, snapshot, copy);
    if !first.error.NoError? {
      RetryPatchRelabels(first.state, copy, RETRY_STEPS);
      RelabelledAfter(s, first.state, RetryPatch(first.state, copy, RETRY_STEPS).state, copy.labels);
    }
  }

  // ----- the invariant

  /** Every live Registration carries the secret's current name hash and is named by it, and the secret is this operator's;
      none lives before the secret has its content hash. */
  ghost predicate Inv(s: State, operator: string) {
    && (forall n :: n in s.regs && s.regs[n].Live() ==>
          s.secret.Some? && NAME_SUFFIX in s.secret.value.labels &&
          NAME_SUFFIX in s.regs[n].labels && s.regs[n].labels[NAME_SUFFIX] == s.secret.value.labels[NAME_SUFFIX] &&
          n == RegistrationName(s.secret.value.labels[NAME_SUFFIX]) &&
          ShouldManage(s.secret.value.labels, operator))
    && (s.secret.Some? && Value(s.secret.value.labels, SCC_HASH) == "" ==> NobodyLives(s))
  }

  lemma CalmKeepsInv(s: State, t: State, operator: string)
    requires Inv(s, operator) && Calm(s, t)
    ensures Inv(t, operator)
  {
  }

  /** Relabelling keeps the invariant when nobody lives, or when the name hash stays. */
  lemma RelabellingKeepsInv(s: State, t: State, copy: Labels, operator: string)
    requires Inv(s, operator) && Relabelled(s, t, copy) && ShouldManage(copy, operator)
    requires NobodyLives(s) || SameAt(copy, s.secret.value.labels, NAME_SUFFIX)
    requires Value(copy, SCC_HASH) == "" ==> NobodyLives(s)
    ensures Inv(t, operator)
  {
  }

  /** The digest is never empty. */
  ghost predicate HashIsNonEmpty(a: Answers) {
    forall x :: a.hash(x) != ""
  }

  lemma MergedLabels(l: Labels, p: Params, operator: string)
    requires p.managedBy == operator && ShouldManage(l, operator)
    ensures var m := Merged(l, p.Labels());
            && ShouldManage(m, operator)
            && NAME_SUFFIX in m && m[NAME_SUFFIX] == p.nameId && SCC_HASH in m && m[SCC_HASH] == p.contentHash
            && (forall k :: !Reserved(k) ==> SameAt(l, m, k))
            && (Value(l, K8S_MANAGED_BY) != "" ==> Value(m, K8S_MANAGED_BY) == Value(l, K8S_MANAGED_BY))
  {
  }

  // ----- creating the Registration

  /** The state in which Registrations are made: the secret already carries the new name hash. */
  ghost predicate Ready(s: State, p: Params) {
    Inv(s, p.managedBy) && s.secret.Some? && NAME_SUFFIX in s.secret.value.labels &&
    s.secret.value.labels[NAME_SUFFIX] == p.nameId && Value(s.secret.value.labels, SCC_HASH) != "" &&
    ShouldManage(s.secret.value.labels, p.managedBy)
  }

  lemma CalmKeepsReady(s: State, t: State, p: Params)
    requires Ready(s, p) && Calm(s, t)
    ensures Ready(t, p)
  {
    CalmKeepsInv(s, t, p.managedBy);
  }

  lemma CreateKeepsReady(s: State, reg: Reg, p: Params)
    requires Ready(s, p) && CarriesHash(reg, p.nameId)
    ensures Ready(CreateReg(s, RegistrationName(p.nameId), reg).state, p)
  {
    if s.script != [] {
      ArrivalIsCalm(s);
      CalmKeepsReady(s, Arrival(s), p);
    }
  }

  lemma PatchRegKeepsReady(s: State, copy: Reg, p: Params)
    requires Ready(s, p) && RegistrationName(p.nameId) in s.regs && CarriesHash(copy, p.nameId)
    ensures Ready(PatchReg(s, RegistrationName(p.nameId), s.regs[RegistrationName(p.nameId)], copy).state, p)
  {
    if s.script != [] {
      ArrivalIsCalm(s);
      CalmKeepsReady(s, Arrival(s), p);
      var name, v := RegistrationName(p.nameId), Arrival(s);
      if name in v.regs {
        var labels := Patched(v.regs[name].labels, s.regs[name].labels, copy.labels);
        assert NAME_SUFFIX in labels && labels[NAME_SUFFIX] == p.nameId;
      }
    }
  }

  lemma {:induction false} PatchRegLoopKeepsReady(s: State, copy: Reg, p: Params, tries: nat)
    requires Ready(s, p) && CarriesHash(copy, p.nameId)
    ensures Ready(PatchRegLoop(s, RegistrationName(p.nameId), copy, tries).state, p)
    decreases tries
  {
    var name := RegistrationName(p.nameId);
    OtherCallIsCalm(s, name);
    var got := GetReg(s, name);
    CalmKeepsReady(s, got.state, p);
    if got.error.NoError? {
      PatchRegKeepsReady(got.state, copy, p);
      var put := PatchReg(got.state, name, got.state.regs[name], copy);
      if put.error.Conflict? && tries > 1 {
        PatchRegLoopKeepsReady(put.state, copy, p, tries - 1);
      }
    }
  }

  lemma FromEntrypointCarriesTheHash(s: State, p: Params)
    ensures var d := FromEntrypoint(s, RegistrationName(p.nameId), p);
            && Calm(s, d.state) && CarriesHash(d.reg, p.nameId) && (d.name == RegistrationName(p.nameId) || d.name == "")
  {
    OtherCallIsCalm(s, RegistrationName(p.nameId));
  }

  lemma CreateOrUpdateKeepsReady(s: State, name: string, reg: Reg, p: Params)
    requires Ready(s, p) && CarriesHash(reg, p.nameId) && (name == RegistrationName(p.nameId) || name == "")
    ensures Ready(CreateOrUpdate(s, name, reg).state, p)
  {
    OtherCallIsCalm(s, name);
    var got := GetReg(s, name);
    CalmKeepsReady(s, got.state, p);
    if got.error.NotFound? {
      CreateKeepsReady(got.state, reg.(version := 1, deleting := false), p);
    } else {
      PatchRegLoopKeepsReady(got.state, reg, p, RETRY_STEPS);
    }
  }

  lemma MaterializeKeepsInv(s: State, p: Params, a: Answers)
    requires Ready(s, p)
    ensures Inv(Materialize(s, p, a).state, p.managedBy)
  {
    var n := if p.mode == ONLINE || p.hasCertificate then a.written else 0;
    OtherCallsAreCalm(s, n);
    var secrets := OtherCalls(s, n);
    CalmKeepsReady(s, secrets.state, p);
    if secrets.error.NoError? {
      FromEntrypointCarriesTheHash(secrets.state, p);
      var desire := FromEntrypoint(secrets.state, RegistrationName(p.nameId), p);
      CalmKeepsReady(secrets.state, desire.state, p);
      CreateOrUpdateKeepsReady(desire.state, desire.name, desire.reg, p);
    }
  }

  // ----- the handlers

  lemma LabelKeepsInv(s: State, incoming: Secret, p: Params)
    requires Inv(s, p.managedBy) && s.secret.Some? && ReservedSame(s.secret.value.labels, incoming.labels)
    requires ShouldManage(incoming.labels, p.managedBy) && p.contentHash != ""
    requires NobodyLives(s) || (NAME_SUFFIX in incoming.labels && incoming.labels[NAME_SUFFIX] == p.nameId)
    ensures var c := Label(s, incoming, p);
            Inv(c.state, p.managedBy) && (c.error.NoError? ==> Ready(c.state, p))
  {
    var copy := incoming.(labels := Merged(incoming.labels, p.Labels()));
    MergedLabels(incoming.labels, p, p.managedBy);
    RetryingPatchRelabels(s, incoming, copy);
    RelabellingKeepsInv(s, Label(s, incoming, p).state, copy.labels, p.managedBy);
  }

  lemma LabelAndMaterializeKeepsInv(s: State, incoming: Secret, p: Params, a: Answers)
    requires Inv(s, p.managedBy) && s.secret.Some? && ReservedSame(s.secret.value.labels, incoming.labels)
    requires ShouldManage(incoming.labels, p.managedBy) && p.contentHash != ""
    requires NobodyLives(s) || (NAME_SUFFIX in incoming.labels && incoming.labels[NAME_SUFFIX] == p.nameId)
    ensures Inv(LabelAndMaterialize(s, incoming, p, a).state, p.managedBy)
  {
    LabelKeepsInv(s, incoming, p);
    var labelled := Label(s, incoming, p);
    if labelled.error.NoError? {
      MaterializeKeepsInv(labelled.state, p, a);
    }
  }

  ghost predicate Trusted(a: Answers, operator: string) {
    a.operator == operator && HashIsNonEmpty(a)
  }

  lemma ProcessKeepsInv(s: State, p: Params, a: Answers)
    requires s.secret.Some? && Inv(s, p.managedBy) && Trusted(a, p.managedBy) && p.contentHash != "" && p.nameId != ""
    requires ShouldManage(s.secret.value.labels, p.managedBy) && Value(s.secret.value.labels, SCC_HASH) != ""
    requires var hash := Value(s.secret.value.labels, NAME_SUFFIX); hash != p.nameId ==> Covered(s, hash)
    ensures Inv(Process(s, s.secret.value, p, a).state, p.managedBy)
  {
    var incoming := s.secret.value;
    var hash := Value(incoming.labels, NAME_SUFFIX);
    CleanupKillsTheHash(s, hash, a);
    var cleaned := if hash != p.nameId then Cleanup(s, hash, a) else Outcome(s, true);
    CalmKeepsInv(s, cleaned.state, p.managedBy);
    if cleaned.ok {
      OtherCallsAreCalm(cleaned.state, a.related);
      var related := if Value(incoming.labels, SCC_HASH) != p.contentHash
                     then OtherCalls(cleaned.state, a.related) else Call(cleaned.state, NoError);
      CalmKeepsInv(cleaned.state, related.state, p.managedBy);
      if related.error.NoError? {
        LabelAndMaterializeKeepsInv(related.state, incoming, p, a);
      }
    }
  }

  /** Patches of the stored secret that leave both hash labels as they are. */
  lemma ClaimKeepsInv(s: State, snapshot: Secret, copy: Secret, operator: string)
    requires s.secret.Some? && Inv(s, operator) && ReservedSame(s.secret.value.labels, snapshot.labels)
    requires ShouldManage(copy.labels, operator)
    requires SameAt(copy.labels, s.secret.value.labels, NAME_SUFFIX) && SameAt(copy.labels, s.secret.value.labels, SCC_HASH)
    ensures Inv(RetryingPatch(s, snapshot, copy).state, operator)
  {
    RetryingPatchRelabels(s, snapshot, copy);
    RelabellingKeepsInv(s, RetryingPatch(s, snapshot, copy).state, copy.labels, operator);
  }

  lemma AdoptKeepsInv(s: State, a: Answers)
    requires s.secret.Some? && Inv(s, a.operator)
    ensures Inv(Adopt(s, s.secret.value, a).state, a.operator)
  {
    var incoming := s.secret.value;
    OwnershipIsStable(incoming.labels, a.operator, a.operator);
    ClaimKeepsInv(s, incoming, incoming.(labels := Owned(incoming.labels, a.operator)), a.operator);
  }

  lemma PrepareSaltKeepsInv(s: State, a: Answers)
    requires s.secret.Some? && Inv(s, a.operator) && ShouldManage(s.secret.value.labels, a.operator)
    ensures Inv(PrepareSalt(s, s.secret.value, a).state, a.operator)
  {
    var incoming := s.secret.value;
    var salted := incoming.(labels := incoming.labels[OBJECT_SALT := a.salt]);
    ClaimKeepsInv(s, if incoming.labels == map[] then incoming else salted, salted, a.operator);
  }

  /** The call cleans up under the stored name hash, because the params name another one. */
  predicate CleansOnChange(secret: Secret, a: Answers) {
    var l := secret.labels;
    && !secret.deleting && (HasSccManagedBy(l) || !ShouldAdopt(l, a.operator)) && ShouldManage(l, a.operator)
    && OBJECT_SALT in l && Extract(secret, a).Some? && Value(l, SCC_HASH) != ""
    && Value(l, NAME_SUFFIX) != Extract(secret, a).value.nameId
  }

  predicate CleansOnRemove(secret: Secret, a: Answers) {
    ShouldManage(secret.labels, a.operator) && NAME_SUFFIX in secret.labels
  }

  lemma ChangeKeepsInv(s: State, a: Answers)
    requires s.secret.Some? && Inv(s, a.operator) && Trusted(a, a.operator)
    requires CleansOnChange(s.secret.value, a) ==> Covered(s, Value(s.secret.value.labels, NAME_SUFFIX))
    ensures Inv(OnSecretChange(s, s.secret.value, a).state, a.operator)
  {
    var incoming := s.secret.value;
    var l := incoming.labels;
    if !incoming.deleting {
      if !HasSccManagedBy(l) && ShouldAdopt(l, a.operator) {
        AdoptKeepsInv(s, a);
      } else if ShouldManage(l, a.operator) {
        if OBJECT_SALT !in l {
          PrepareSaltKeepsInv(s, a);
        } else if Extract(incoming, a).Some? {
          var p := Extract(incoming, a).value;
          if Value(l, SCC_HASH) == "" {
            LabelKeepsInv(s, incoming, p);
          } else {
            ProcessKeepsInv(s, p, a);
          }
        }
      }
    }
  }

  /** When the removal handler succeeds on the stored secret, no managed Registration that the informer knew lives. */
  lemma RemovalLeavesNobody(s: State, a: Answers)
    requires s.secret.Some? && Inv(s, a.operator) && Trusted(a, a.operator)
    requires CleansOnRemove(s.secret.value, a) ==> Covered(s, s.secret.value.labels[NAME_SUFFIX])
    ensures var r := OnSecretRemove(s, s.secret.value, a); Inv(r.state, a.operator) && (r.ok ==> NobodyLives(r.state))
  {
    var l := s.secret.value.labels;
    if ShouldManage(l, a.operator) && NAME_SUFFIX in l {
      CleanupKillsTheHash(s, l[NAME_SUFFIX], a);
      var cleaned := Cleanup(s, l[NAME_SUFFIX], a);
      CalmKeepsInv(s, cleaned.state, a.operator);
      OtherCallsAreCalm(cleaned.state, a.related);
      CalmKeepsInv(cleaned.state, OtherCalls(cleaned.state, a.related).state, a.operator);
    }
  }

  // ----- runs

  /** What can happen: a user creates the secret, users edit, the informer renews its copies (it may lag behind), or a
      handler runs while users edit. A removed secret can go once its handler has succeeded, unless the call that lets it
      go fails. */
  datatype Input =
    | Created(labels: Labels, data: map<string, string>)
    | UserEdits(edits: seq<Edit>)
    | Delivered(cache: seq<Cached>)
    | Changed(script: seq<Beat>, answers: Answers)
    | Removed(script: seq<Beat>, answers: Answers, gone: bool)

  function Perform(s: State, i: Input): State {
    match i
    case Created(labels, data) =>
      if s.secret.Some? then s else s.(secret := Some(Secret(labels, data, false)))
    case UserEdits(edits) => EditedAll(s, edits)
    case Delivered(cache) => s.(cache := cache)
    case Changed(script, a) =>
      if s.secret.None? then s else OnSecretChange(s.(script := script), s.secret.value, a).state
    case Removed(script, a, gone) =>
      if s.secret.None? || !s.secret.value.deleting then s
      else
        var r := OnSecretRemove(s.(script := script), s.secret.value, a);
        if r.ok && gone then r.state.(secret := None) else r.state
  }

  function RunAll(s: State, inputs: seq<Input>): State {
    if inputs == [] then s else Perform(RunAll(s, inputs[..|inputs| - 1]), inputs[|inputs| - 1])
  }

  ghost predicate AllTrusted(inputs: seq<Input>, operator: string) {
    forall i :: i in inputs && (i.Changed? || i.Removed?) ==> Trusted(i.answers, operator)
  }

  /** A call that cleans up finds all live Registrations in the cache, under the hash and with the finalizer. */
  ghost predicate Informed(s: State, i: Input) {
    && (i.Changed? && s.secret.Some? && CleansOnChange(s.secret.value, i.answers) ==>
          Covered(s, Value(s.secret.value.labels, NAME_SUFFIX)))
    && (i.Removed? && s.secret.Some? && s.secret.value.deleting && CleansOnRemove(s.secret.value, i.answers) ==>
          Covered(s, s.secret.value.labels[NAME_SUFFIX]))
  }

  ghost predicate AlwaysInformed(s: State, inputs: seq<Input>) {
    forall k :: 0 <= k < |inputs| ==> Informed(RunAll(s, inputs[..k]), inputs[k])
  }

  const EMPTY := State(None, map[], [], [])

  lemma PerformKeepsInv(s: State, i: Input, operator: string)
    requires Inv(s, operator) && Informed(s, i) && (i.Changed? || i.Removed? ==> Trusted(i.answers, operator))
    ensures Inv(Perform(s, i), operator)
  {
    match i {
      case Created(_, _) =>
      case Delivered(_) =>
      case UserEdits(edits) =>
        EditsAreCalm(s, edits);
        CalmKeepsInv(s, EditedAll(s, edits), operator);
      case Changed(script, a) =>
        if s.secret.Some? {
          ChangeKeepsInv(s.(script := script), a);
        }
      case Removed(script, a, _) =>
        if s.secret.Some? && s.secret.value.deleting {
          RemovalLeavesNobody(s.(script := script), a);
        }
    }
  }

  /** Orphan-freedom, over every run in which the informer is up to date where a call cleans up: with a failure possible
      at every call, a crash at every point, and any edits by users, every live managed Registration belongs to the secret
      that is there, under its current name hash. */
  lemma {:induction false} NoOrphans(inputs: seq<Input>, operator: string)
    requires AllTrusted(inputs, operator) && AlwaysInformed(EMPTY, inputs)
    ensures Inv(RunAll(EMPTY, inputs), operator)
  {
    if inputs != [] {
      var prior, i := inputs[..|inputs| - 1], inputs[|inputs| - 1];
      assert i in inputs;
      assert AlwaysInformed(EMPTY, prior) by {
        forall k | 0 <= k < |prior| ensures Informed(RunAll(EMPTY, prior[..k]), prior[k]) {
          assert prior[..k] == inputs[..k] && prior[k] == inputs[k];
        }
      }
      NoOrphans(prior, operator);
      PerformKeepsInv(RunAll(EMPTY, prior), i, operator);
    }
  }

  /** An informer that holds the stored Registrations as they are knows all of them. */
  lemma AFreshCacheCovers(s: State, operator: string)
    requires Inv(s, operator) && s.secret.Some?
    requires forall n :: n in s.regs ==> Cached(n, s.regs[n]) in s.cache
    ensures Covered(s, Value(s.secret.value.labels, NAME_SUFFIX))
  {
    forall n | n in s.regs && s.regs[n].Live() ensures Known(s.cache, n, Value(s.secret.value.labels, NAME_SUFFIX)) {
      var i :| 0 <= i < |s.cache| && s.cache[i] == Cached(n, s.regs[n]);
    }
  }
}
