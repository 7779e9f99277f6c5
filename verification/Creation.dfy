/** What the change handler does with the secrets it accepts, under any server: what is written before a Registration is
    made, what the success of a call means, and whose secrets are touched at all. */
module Creation {
  import opened Wrappers
  import opened Finalizers
  import opened Ownership
  import opened Cluster
  import opened Entrypoint
  import opened Orphans
  import opened HashLabels

  // ----- what is written before a Registration is made

  predicate SuffixOf(t: seq<Beat>, s: seq<Beat>) {
    |t| <= |s| && t == s[|s| - |t|..]
  }

  /** Time went on, and no Registration appeared. */
  ghost predicate Onward(s: State, t: State) {
    t.regs.Keys <= s.regs.Keys && SuffixOf(t.script, s.script)
  }

  lemma OnwardTwice(s: State, m: State, t: State)
    requires Onward(s, m) && Onward(m, t)
    ensures Onward(s, t)
  {
    assert s.script[|s.script| - |m.script|..][|m.script| - |t.script|..] == s.script[|s.script| - |t.script|..];
  }

  lemma ArrivalIsOnward(s: State)
    requires s.script != []
    ensures Onward(s, Arrival(s))
  {
    ArrivalIsCalm(s);
  }

  lemma CallsAreOnward(s: State, name: string, reg: Reg, snapshot: Secret, copy: Secret)
    ensures Onward(s, OtherCall(s).state) && Onward(s, GetSecret(s).state) && Onward(s, PatchSecret(s, snapshot, copy).state)
    ensures Onward(s, StripReg(s, name, reg).state) && Onward(s, DeleteRegistration(s, name).state)
  {
    if s.script != [] {
      ArrivalIsOnward(s);
    }
  }

  lemma {:induction false} RetryPatchIsOnward(s: State, copy: Secret, tries: nat)
    ensures Onward(s, RetryPatch(s, copy, tries).state)
    decreases tries
  {
    CallsAreOnward(s, "", BLANK, copy, copy);
    var got := GetSecret(s);
    if got.error.NoError? {
      CallsAreOnward(got.state, "", BLANK, got.state.secret.value, copy);
      var put := PatchSecret(got.state, got.state.secret.value, copy);
      OnwardTwice(s, got.state, put.state);
      if put.error.Conflict? && tries > 1 {
        RetryPatchIsOnward(put.state, copy, tries - 1);
        OnwardTwice(s, put.state, RetryPatch(put.state, copy, tries - 1).state);
      }
    }
  }

  lemma RetryingPatchIsOnward(s: State, snapshot: Secret, copy: Secret, steps: nat)
    requires steps == RETRY_STEPS
    ensures Onward(s, RetryingPatch(s, snapshot, copy).state)
  {
    CallsAreOnward(s, "", BLANK, snapshot, copy);
    var first := PatchSecret(s, snapshot, copy);
    RetryPatchIsOnward(first.state, copy, steps);
    OnwardTwice(s, first.state, RetryPatch(first.state, copy, steps).state);
  }

  lemma {:induction false} StripLoopIsOnward(s: State, name: string, reg: Reg, tries: nat)
    ensures Onward(s, StripLoop(s, name, reg, tries).state)
    decreases tries
  {
    CallsAreOnward(s, name, reg, Secret(map[], map[], false), Secret(map[], map[], false));
    var c := StripReg(s, name, reg);
    if c.error.Conflict? && tries > 1 {
      StripLoopIsOnward(c.state, name, reg, tries - 1);
      OnwardTwice(s, c.state, StripLoop(c.state, name, reg, tries - 1).state);
    }
  }

  lemma {:induction false} StripAndDeleteAreOnward(s: State, name: string, reg: Reg, steps: nat)
    ensures Onward(s, StripLoop(s, name, reg, steps).state)
    ensures Onward(s, DeleteRegistration(StripLoop(s, name, reg, steps).state, name).state)
  {
    StripLoopIsOnward(s, name, reg, steps);
    var strip := StripLoop(s, name, reg, steps);
    CallsAreOnward(strip.state, name, reg, Secret(map[], map[], false), Secret(map[], map[], false));
    OnwardTwice(s, strip.state, DeleteRegistration(strip.state, name).state);
  }

  lemma {:induction false} CleanupOneIsOnward(s: State, i: nat)
    requires i < |s.cache|
    ensures Onward(s, CleanupOne(s, i).state)
  {
    var l := s.cache[i];
    StripAndDeleteAreOnward(Stripped(s, i), l.name, l.reg, RETRY_STEPS);
  }

  lemma {:induction false} CleanupFromIsOnward(s: State, i: nat, hash: string)
    requires i <= |s.cache|
    ensures Onward(s, CleanupFrom(s, i, hash).state)
    decreases |s.cache| - i
  {
    if i < |s.cache| {
      if CarriesHash(s.cache[i].reg, hash) {
        CleanupOneIsOnward(s, i);
        var one := CleanupOne(s, i);
        if one.ok {
          CleanupFromIsOnward(one.state, i + 1, hash);
          OnwardTwice(s, one.state, CleanupFrom(one.state, i + 1, hash).state);
        }
      } else {
        CleanupFromIsOnward(s, i + 1, hash);
      }
    }
  }

  predicate AnsweredFrom(script: seq<Beat>, k: nat, n: nat) {
    k + n <= |script| && forall b :: b in script[k..k + n] ==> b.fate.Answered?
  }

  /** That many calls in a row are answered. */
  ghost predicate AnsweredInARow(script: seq<Beat>, n: nat) {
    exists k: nat :: AnsweredFrom(script, k, n)
  }

  lemma {:induction false} OtherCallsAreOnward(s: State, n: nat)
    ensures Onward(s, OtherCalls(s, n).state)
    decreases n
  {
    if n > 0 {
      CallsAreOnward(s, "", BLANK, Secret(map[], map[], false), Secret(map[], map[], false));
      var c := OtherCall(s);
      if c.error.NoError? {
        OtherCallsAreOnward(c.state, n - 1);
        OnwardTwice(s, c.state, OtherCalls(c.state, n - 1).state);
      }
    }
  }

  lemma {:induction false} OtherCallsAnswer(s: State, n: nat)
    ensures OtherCalls(s, n).error.NoError? ==> AnsweredFrom(s.script, 0, n)
    decreases n
  {
    if n > 0 {
      var c := OtherCall(s);
      if c.error.NoError? {
        OtherCallsAnswer(c.state, n - 1);
        assert OtherCalls(c.state, n - 1).error.NoError? ==> s.script[0..n] == [s.script[0]] + s.script[1..][0..n - 1];
      }
    }
  }

  lemma LaterAnswersCount(t: seq<Beat>, s: seq<Beat>, n: nat)
    requires SuffixOf(t, s) && AnsweredInARow(t, n)
    ensures AnsweredInARow(s, n)
  {
    var k: nat :| AnsweredFrom(t, k, n);
    var d := |s| - |t|;
    assert s[d + k..d + k + n] == t[k..k + n] && AnsweredFrom(s, d + k, n);
  }

  /** A Registration is there that was not there before. */
  ghost predicate Made(s: State, t: State) {
    exists n :: n in t.regs && n !in s.regs
  }

  lemma {:induction false} MaterializeWritesFirst(s: State, p: Params, a: Answers)
    requires p.mode == ONLINE || p.hasCertificate
    ensures Made(s, Materialize(s, p, a).state) ==> AnsweredInARow(s.script, a.written)
  {
    OtherCallsAnswer(s, a.written);
    OtherCallsAreOnward(s, a.written);
  }

  lemma {:induction false} LabellingMakesNothing(s: State, incoming: Secret, p: Params)
    ensures Onward(s, Label(s, incoming, p).state)
  {
    RetryingPatchIsOnward(s, incoming, incoming.(labels := Merged(incoming.labels, p.Labels())), RETRY_STEPS);
  }

  lemma CleaningMakesNothing(s: State, hash: string, a: Answers)
    ensures Onward(s, Cleanup(s, hash, a).state)
  {
    CleanupFromIsOnward(s, 0, hash);
  }

  lemma MadeLater(s: State, m: State, t: State, n: nat)
    requires Onward(s, m) && (Made(m, t) ==> AnsweredInARow(m.script, n))
    ensures Made(s, t) ==> AnsweredInARow(s.script, n)
  {
    if Made(s, t) {
      var x :| x in t.regs && x !in s.regs;
      assert x !in m.regs;
      LaterAnswersCount(m.script, s.script, n);
    }
  }

  lemma {:induction false} LabellingWritesFirst(s: State, incoming: Secret, p: Params, a: Answers)
    requires p.mode == ONLINE || p.hasCertificate
    ensures Made(s, LabelAndMaterialize(s, incoming, p, a).state) ==> AnsweredInARow(s.script, a.written)
  {
    LabellingMakesNothing(s, incoming, p);
    var labelled := Label(s, incoming, p);
    if labelled.error.NoError? {
      MaterializeWritesFirst(labelled.state, p, a);
      MadeLater(s, labelled.state, Materialize(labelled.state, p, a).state, a.written);
    }
  }

  lemma {:induction false} ProcessingWritesFirst(s: State, incoming: Secret, p: Params, a: Answers)
    requires p.mode == ONLINE || p.hasCertificate
    ensures Made(s, Process(s, incoming, p, a).state) ==> AnsweredInARow(s.script, a.written)
  {
    var hash := Value(incoming.labels, NAME_SUFFIX);
    CleaningMakesNothing(s, hash, a);
    var cleaned := if hash != p.nameId then Cleanup(s, hash, a) else Outcome(s, true);
    if cleaned.ok {
      OtherCallsAreOnward(cleaned.state, a.related);
      var related := if Value(incoming.labels, SCC_HASH) != p.contentHash
                     then OtherCalls(cleaned.state, a.related) else Call(cleaned.state, NoError);
      OnwardTwice(s, cleaned.state, related.state);
      if related.error.NoError? {
        LabellingWritesFirst(related.state, incoming, p, a);
        MadeLater(s, related.state, LabelAndMaterialize(related.state, incoming, p, a).state, a.written);
      }
    }
  }

  /** A call for an online secret, or for one with a certificate, makes a Registration only after all the calls that write
      its other secret were answered. */
  lemma {:induction false} SecretsAreWrittenFirst(s: State, incoming: Secret, a: Answers)
    requires Extract(incoming, a).Some?
    requires Extract(incoming, a).value.mode == ONLINE || Extract(incoming, a).value.hasCertificate
    ensures Made(s, OnSecretChange(s, incoming, a).state) ==> AnsweredInARow(s.script, a.written)
  {
    var l, p := incoming.labels, Extract(incoming, a).value;
    var salted := l[OBJECT_SALT := a.salt];
    ProcessingWritesFirst(s, incoming, p, a);
    LabellingMakesNothing(s, incoming, p);
    RetryingPatchIsOnward(s, incoming, incoming.(labels := Owned(l, a.operator)), RETRY_STEPS);
    RetryingPatchIsOnward(s, if l == map[] then incoming else incoming.(labels := salted), incoming.(labels := salted), RETRY_STEPS);
  }

  // ----- what success means

  lemma NobodyEditsLater(s: State, t: State)
    requires NobodyEdits(s.script) && Onward(s, t)
    ensures NobodyEdits(t.script)
  {
  }

  /** The Registration is there, with the finalizer and all these labels. */
  ghost predicate Stands(s: State, name: string, labels: Labels) {
    name in s.regs && s.regs[name].Managed() && labels.Items <= s.regs[name].labels.Items
  }

  lemma PatchedCarriesTheCopy(stored: Labels, copy: Labels)
    ensures copy.Items <= Patched(stored, stored, copy).Items
  {
    forall i | i in copy.Items ensures i in Patched(stored, stored, copy).Items {
      assert i.0 in Patched(stored, stored, copy);
    }
  }

  lemma {:induction false} AnAnsweredPatchStands(s: State, name: string, desired: Reg)
    requires NobodyEdits(s.script) && name in s.regs && desired.Managed()
    ensures var put := PatchReg(s, name, s.regs[name], desired);
            (put.error.NoError? ==> Stands(put.state, name, desired.labels)) && NobodyEdits(put.state.script)
  {
    if s.script != [] {
      assert s.script[0].edits == [];
      PatchedCarriesTheCopy(s.regs[name].labels, desired.labels);
    }
  }

  lemma {:induction false} PatchLoopStands(s: State, name: string, desired: Reg, tries: nat)
    requires NobodyEdits(s.script) && desired.Managed()
    ensures var c := PatchRegLoop(s, name, desired, tries);
            c.error.NoError? ==> Stands(c.state, name, desired.labels)
    decreases tries
  {
    var got := GetReg(s, name);
    if got.error.NoError? {
      AnAnsweredPatchStands(got.state, name, desired);
      var put := PatchReg(got.state, name, got.state.regs[name], desired);
      if put.error.Conflict? && tries > 1 {
        PatchLoopStands(put.state, name, desired, tries - 1);
      }
    }
  }

  lemma {:induction false} CreateOrUpdateStands(s: State, name: string, desired: Reg)
    requires NobodyEdits(s.script) && desired.Managed()
    ensures var c := CreateOrUpdate(s, name, desired);
            c.error.NoError? ==> name != "" && Stands(c.state, name, desired.labels)
  {
    var got := GetReg(s, name);
    if got.error.NotFound? {
      assert got.state.script != [] ==> got.state.script[0].edits == [];
    } else {
      PatchLoopStands(got.state, name, desired, RETRY_STEPS);
    }
  }

  lemma {:induction false} FromEntrypointIsDesired(s: State, p: Params)
    requires NobodyEdits(s.script)
    ensures var d := FromEntrypoint(s, RegistrationName(p.nameId), p);
            && NobodyEdits(d.state.script) && (d.name == RegistrationName(p.nameId) || d.name == "")
            && d.reg.Managed() && p.Labels().Items <= d.reg.labels.Items
  {
    var name := RegistrationName(p.nameId);
    var i := Position(s.cache, name);
    if i < |s.cache| {
      DesiredCarriesTheLabels(s.cache[i].reg, p);
    } else {
      var got := GetReg(s, name);
      DesiredCarriesTheLabels(if got.error.NoError? then got.state.regs[name] else BLANK, p);
    }
  }

  lemma {:induction false} MaterializeStands(s: State, p: Params, a: Answers)
    requires NobodyEdits(s.script)
    ensures Materialize(s, p, a).ok ==> Stands(Materialize(s, p, a).state, RegistrationName(p.nameId), p.Labels())
  {
    var secrets := OtherCalls(s, if p.mode == ONLINE || p.hasCertificate then a.written else 0);
    if secrets.error.NoError? {
      OtherCallsAreOnward(s, if p.mode == ONLINE || p.hasCertificate then a.written else 0);
      NobodyEditsLater(s, secrets.state);
      FromEntrypointIsDesired(secrets.state, p);
      var desire := FromEntrypoint(secrets.state, RegistrationName(p.nameId), p);
      CreateOrUpdateStands(desire.state, desire.name, desire.reg);
    }
  }

  lemma {:induction false} LabellingStands(s: State, incoming: Secret, p: Params, a: Answers)
    requires NobodyEdits(s.script)
    ensures var r := LabelAndMaterialize(s, incoming, p, a);
            r.ok ==> Stands(r.state, RegistrationName(p.nameId), p.Labels())
  {
    LabellingMakesNothing(s, incoming, p);
    var labelled := Label(s, incoming, p);
    if labelled.error.NoError? {
      NobodyEditsLater(s, labelled.state);
      MaterializeStands(labelled.state, p, a);
    }
  }

  lemma {:induction false} ProcessingStands(s: State, incoming: Secret, p: Params, a: Answers)
    requires NobodyEdits(s.script)
    ensures Process(s, incoming, p, a).ok ==> Stands(Process(s, incoming, p, a).state, RegistrationName(p.nameId), p.Labels())
  {
    var hash := Value(incoming.labels, NAME_SUFFIX);
    CleaningMakesNothing(s, hash, a);
    var cleaned := if hash != p.nameId then Cleanup(s, hash, a) else Outcome(s, true);
    if cleaned.ok {
      OtherCallsAreOnward(cleaned.state, a.related);
      var related := if Value(incoming.labels, SCC_HASH) != p.contentHash
                     then OtherCalls(cleaned.state, a.related) else Call(cleaned.state, NoError);
      OnwardTwice(s, cleaned.state, related.state);
      if related.error.NoError? {
        NobodyEditsLater(s, related.state);
        LabellingStands(related.state, incoming, p, a);
      }
    }
  }

  /** Success means that the Registration stands: a call on a managed, salted and labelled secret that ends without an
      error, with nobody else writing, has left the Registration that the extraction names, with the finalizer and the
      labels of the extraction, however many of its calls were contended, refused or lost on the way. */
  lemma {:induction false} SuccessMeansItStands(s: State, incoming: Secret, a: Answers)
    requires NobodyEdits(s.script) && !incoming.deleting && HasSccManagedBy(incoming.labels)
    requires ShouldManage(incoming.labels, a.operator) && OBJECT_SALT in incoming.labels
    requires Value(incoming.labels, SCC_HASH) != ""
    ensures var r := OnSecretChange(s, incoming, a);
            r.ok ==> Extract(incoming, a).Some? &&
                     var p := Extract(incoming, a).value; Stands(r.state, RegistrationName(p.nameId), p.Labels())
  {
    if Extract(incoming, a).Some? {
      ProcessingStands(s, incoming, Extract(incoming, a).value, a);
    }
  }

  // ----- what is kept

  /** The stored Registration keeps what is not the operator's: its other labels, and its other finalizers in order. */
  ghost predicate KeepsForeign(before: Reg, after: Reg, p: Params) {
    && (forall k :: k !in p.Labels() ==> SameAt(before.labels, after.labels, k))
    && Others(after.finalizers, REGISTRATION_FINALIZER) == Others(before.finalizers, REGISTRATION_FINALIZER)
    && after.deleting == before.deleting
  }

  lemma DesiredKeepsForeign(base: Reg, p: Params)
    ensures KeepsForeign(base, Desired(base, p), p)
  {
    ForeignFinalizersStay(base.finalizers, REGISTRATION_FINALIZER);
  }

  lemma StoringKeepsForeign(s: State, name: string, base: Reg, p: Params)
    requires Undisturbed(s.script) && |s.script| >= 3 && name != "" && name in s.regs
    requires s.regs[name].labels == base.labels && s.regs[name].finalizers == base.finalizers && s.regs[name].deleting == base.deleting
    ensures var c := CreateOrUpdate(s, name, Desired(base, p));
            c.error.NoError? && name in c.state.regs && KeepsForeign(s.regs[name], c.state.regs[name], p)
  {
    assert s.script[0] == Beat([], Answered) && s.script[1] == Beat([], Answered) && s.script[2] == Beat([], Answered);
    var desired := Desired(base, p);
    DesiredKeepsForeign(base, p);
    var s1, s2 := s.(script := s.script[1..]), s.(script := s.script[2..]);
    assert GetReg(s, name).state == s1 && s1.script[1..] == s2.script && GetReg(s1, name).state == s2;
    PatchedExtremes(s.regs[name].labels, desired.labels);
    assert CreateOrUpdate(s, name, desired) == PatchReg(s2, name, s.regs[name], desired);
  }

  /** The object is built on the stored one, read from the server or held as an accurate copy. */
  lemma {:induction false} DesiredFromTheStored(s: State, name: string, p: Params)
    requires Undisturbed(s.script) && |s.script| >= 4 && name in s.regs
    requires forall l :: l in s.cache && l.name == name ==> l.reg == s.regs[name]
    ensures var d := FromEntrypoint(s, name, p);
            && d.name == name && d.reg == Desired(s.regs[name], p) && d.state.regs == s.regs
            && Undisturbed(d.state.script) && |d.state.script| >= 3
  {
    var i := Position(s.cache, name);
    if i < |s.cache| {
      assert s.cache[i] in s.cache;
    } else {
      assert s.script[0] == Beat([], Answered);
      assert GetReg(s, name) == Call(s.(script := s.script[1..]), NoError);
    }
  }

  /** An undisturbed call that finds its Registration, uncached or with an accurate copy, adds the operator's labels and
      finalizer to it and keeps the rest. */
  lemma {:induction false} ForeignLabelsAndFinalizersStay(s: State, p: Params, a: Answers)
    requires Undisturbed(s.script) && |s.script| >= a.written + 4 && RegistrationName(p.nameId) in s.regs
    requires forall l :: l in s.cache && l.name == RegistrationName(p.nameId) ==> l.reg == s.regs[l.name]
    ensures var name, r := RegistrationName(p.nameId), Materialize(s, p, a);
            r.ok && name in r.state.regs && KeepsForeign(s.regs[name], r.state.regs[name], p)
  {
    var name := RegistrationName(p.nameId);
    assert name[0] == 's';
    var n := if p.mode == ONLINE || p.hasCertificate then a.written else 0;
    OtherCallsUndisturbed(s, n);
    var s1 := s.(script := s.script[n..]);
    DesiredFromTheStored(s1, name, p);
    StoringKeepsForeign(FromEntrypoint(s1, name, p).state, name, s.regs[name], p);
  }

  /** A cached Registration is edited in place: once the other secrets are written, its copy carries the labels and the
      finalizer even if the call fails, and no other copy is touched. */
  lemma {:induction false} TheCachedCopyIsEdited(s: State, p: Params, a: Answers, i: nat)
    requires i < |s.cache| && s.cache[i].name == RegistrationName(p.nameId)
    requires forall j :: 0 <= j < i ==> s.cache[j].name != RegistrationName(p.nameId)
    requires OtherCalls(s, if p.mode == ONLINE || p.hasCertificate then a.written else 0).error.NoError?
    ensures var cache := Materialize(s, p, a).state.cache;
            && |cache| == |s.cache| && cache[i].name == s.cache[i].name && cache[i].reg.Managed()
            && p.Labels().Items <= cache[i].reg.labels.Items
            && forall j :: 0 <= j < |cache| && j != i ==> cache[j] == s.cache[j]
  {
    DesiredCarriesTheLabels(s.cache[i].reg, p);
    assert Position(s.cache, RegistrationName(p.nameId)) == i;
  }

  lemma {:induction false} OtherCallsConsume(s: State, n: nat)
    requires OtherCalls(s, n).error.NoError?
    ensures n <= |s.script| && OtherCalls(s, n).state.script == s.script[n..] && OtherCalls(s, n).state.cache == s.cache
    decreases n
  {
    if n > 0 {
      OtherCallsConsume(OtherCall(s).state, n - 1);
    }
  }

  lemma ReadsAreOnward(s: State, name: string)
    ensures Onward(s, GetReg(s, name).state)
    ensures GetReg(s, name).error.NotFound? ==> s.script != [] && s.script[0].fate.Answered? && GetReg(s, name).state.script == s.script[1..]
  {
    if s.script != [] {
      ArrivalIsOnward(s);
    }
  }

  lemma {:induction false} PatchLoopMakesNothing(s: State, name: string, desired: Reg, tries: nat)
    ensures Onward(s, PatchRegLoop(s, name, desired, tries).state)
    decreases tries
  {
    ReadsAreOnward(s, name);
    var got := GetReg(s, name);
    if got.error.NoError? {
      var put := PatchReg(got.state, name, got.state.regs[name], desired);
      if got.state.script != [] {
        ArrivalIsOnward(got.state);
      }
      assert Onward(got.state, put.state);
      OnwardTwice(s, got.state, put.state);
      if put.error.Conflict? && tries > 1 {
        PatchLoopMakesNothing(put.state, name, desired, tries - 1);
        OnwardTwice(s, put.state, PatchRegLoop(put.state, name, desired, tries - 1).state);
      }
    }
  }

  lemma {:induction false} CreatingReadsFirst(s: State, name: string, desired: Reg)
    ensures Made(s, CreateOrUpdate(s, name, desired).state) ==> name != "" && s.script != [] && s.script[0].fate.Answered?
  {
    ReadsAreOnward(s, name);
    var got := GetReg(s, name);
    if !got.error.NotFound? {
      PatchLoopMakesNothing(got.state, name, desired, RETRY_STEPS);
      OnwardTwice(s, got.state, PatchRegLoop(got.state, name, desired, RETRY_STEPS).state);
    }
  }

  /** Without a cached copy the object has a name only if the read was answered. */
  lemma {:induction false} NamingReadsFirst(s: State, name: string, p: Params)
    ensures var d := FromEntrypoint(s, name, p);
            && Onward(s, d.state)
            && (if Position(s.cache, name) < |s.cache| then d.state.script == s.script
                else d.name != "" && name != "" ==>
                       s.script != [] && s.script[0].fate.Answered? && d.state.script == s.script[1..])
  {
    if Position(s.cache, name) >= |s.cache| && s.script != [] {
      ArrivalIsOnward(s);
    }
  }

  lemma {:induction false} MakingReadsFirst(s: State, name: string, p: Params)
    requires name != ""
    ensures var d := FromEntrypoint(s, name, p);
            Made(s, CreateOrUpdate(d.state, d.name, d.reg).state) ==>
              AnsweredFrom(s.script, 0, if Position(s.cache, name) < |s.cache| then 1 else 2)
  {
    var d := FromEntrypoint(s, name, p);
    NamingReadsFirst(s, name, p);
    MadeFromThere(s, d, name);
  }

  lemma {:induction false} MadeFromThere(s: State, d: Desire, name: string)
    requires Onward(s, d.state)
    requires if Position(s.cache, name) < |s.cache| then d.state.script == s.script
             else d.name != "" ==> s.script != [] && s.script[0].fate.Answered? && d.state.script == s.script[1..]
    ensures Made(s, CreateOrUpdate(d.state, d.name, d.reg).state) ==>
              AnsweredFrom(s.script, 0, if Position(s.cache, name) < |s.cache| then 1 else 2)
  {
    CreatingReadsFirst(d.state, d.name, d.reg);
    if Made(s, CreateOrUpdate(d.state, d.name, d.reg).state) {
      if Position(s.cache, name) < |s.cache| {
        assert s.script[0..1] == [s.script[0]];
      } else {
        assert s.script[0..2] == [s.script[0], s.script[1..][0]];
      }
    }
  }

  lemma PositionIsTheCached(cache: seq<Cached>, name: string)
    ensures Position(cache, name) < |cache| <==> exists l :: l in cache && l.name == name
  {
    var i := Position(cache, name);
    if i < |cache| {
      assert cache[i] in cache;
    }
  }

  lemma MaterializingIsMaking(s: State, p: Params, a: Answers, n: nat)
    requires n == if p.mode == ONLINE || p.hasCertificate then a.written else 0
    requires Made(s, Materialize(s, p, a).state)
    ensures OtherCalls(s, n).error.NoError?
    ensures var t := OtherCalls(s, n).state;
            var d := FromEntrypoint(t, RegistrationName(p.nameId), p);
            Made(t, CreateOrUpdate(d.state, d.name, d.reg).state)
  {
    OtherCallsAreOnward(s, n);
    var x :| x in Materialize(s, p, a).state.regs && x !in s.regs;
    assert x !in OtherCalls(s, n).state.regs;
  }

  lemma AnsweredNext(t: seq<Beat>, s: seq<Beat>, n: nat, k: nat)
    requires n <= |s| && t == s[n..] && AnsweredFrom(t, 0, k)
    ensures AnsweredFrom(s, n, k)
  {
    assert s[n..n + k] == t[0..0 + k];
  }

  /** A Registration is made only after the server has answered that there is none: once if its copy is cached, and twice
      if not. A read that fails in another way makes nothing. */
  lemma {:induction false} MadeOnlyWhenMissing(s: State, p: Params, a: Answers, n: nat)
    requires n == if p.mode == ONLINE || p.hasCertificate then a.written else 0
    requires Made(s, Materialize(s, p, a).state)
    ensures AnsweredFrom(s.script, 0, n)
    ensures AnsweredFrom(s.script, n, if exists l :: l in s.cache && l.name == RegistrationName(p.nameId) then 1 else 2)
  {
    MaterializingIsMaking(s, p, a, n);
    OtherCallsAnswer(s, n);
    OtherCallsConsume(s, n);
    PositionIsTheCached(s.cache, RegistrationName(p.nameId));
    var t := OtherCalls(s, n).state;
    assert RegistrationName(p.nameId)[0] == 's';
    MakingReadsFirst(t, RegistrationName(p.nameId), p);
    AnsweredNext(t.script, s.script, n, if Position(t.cache, RegistrationName(p.nameId)) < |t.cache| then 1 else 2);
  }

  // ----- the secrets of an old content hash

  lemma {:induction false} ProcessingCleansFirst(s: State, incoming: Secret, p: Params, a: Answers)
    requires Value(incoming.labels, SCC_HASH) != p.contentHash && Process(s, incoming, p, a).ok
    ensures AnsweredInARow(s.script, a.related)
  {
    var hash := Value(incoming.labels, NAME_SUFFIX);
    CleaningMakesNothing(s, hash, a);
    var cleaned := if hash != p.nameId then Cleanup(s, hash, a) else Outcome(s, true);
    OtherCallsAnswer(cleaned.state, a.related);
    LaterAnswersCount(cleaned.state.script, s.script, a.related);
  }

  /** A call that succeeds on a secret whose content has changed has had all the calls answered that clean up the secrets
      of the old content; so has a successful removal of a labelled secret. */
  lemma {:induction false} RelatedSecretsAreCleaned(s: State, incoming: Secret, a: Answers)
    requires HasSccManagedBy(incoming.labels) && ShouldManage(incoming.labels, a.operator) && OBJECT_SALT in incoming.labels
    ensures !incoming.deleting && Extract(incoming, a).Some? && OnSecretChange(s, incoming, a).ok &&
            Value(incoming.labels, SCC_HASH) !in {"", Extract(incoming, a).value.contentHash} ==>
              AnsweredInARow(s.script, a.related)
    ensures NAME_SUFFIX in incoming.labels && SCC_HASH in incoming.labels && OnSecretRemove(s, incoming, a).ok ==>
              AnsweredInARow(s.script, a.related)
  {
    if !incoming.deleting && Extract(incoming, a).Some? && OnSecretChange(s, incoming, a).ok &&
       Value(incoming.labels, SCC_HASH) !in {"", Extract(incoming, a).value.contentHash} {
      ProcessingCleansFirst(s, incoming, Extract(incoming, a).value, a);
    }
    if NAME_SUFFIX in incoming.labels && SCC_HASH in incoming.labels && OnSecretRemove(s, incoming, a).ok {
      RemovalCleansFirst(s, incoming, a);
    }
  }

  lemma {:induction false} RemovalCleansFirst(s: State, incoming: Secret, a: Answers)
    requires ShouldManage(incoming.labels, a.operator) && NAME_SUFFIX in incoming.labels && SCC_HASH in incoming.labels
    requires OnSecretRemove(s, incoming, a).ok
    ensures AnsweredInARow(s.script, a.related)
  {
    var hash := incoming.labels[NAME_SUFFIX];
    CleaningMakesNothing(s, hash, a);
    var cleaned := Cleanup(s, hash, a);
    OtherCallsAnswer(cleaned.state, a.related);
    LaterAnswersCount(cleaned.state.script, s.script, a.related);
  }

  // ----- whose secrets are touched

  /** A secret on its way out, or managed by another operator, is left alone. */
  lemma {:induction false} ForeignSecretsAreLeftAlone(s: State, incoming: Secret, a: Answers, other: string)
    requires incoming.deleting || (ShouldManage(incoming.labels, other) && other != a.operator && other != HELM)
    ensures OnSecretChange(s, incoming, a) == Outcome(s, true)
  {
    if !incoming.deleting {
      OtherOperatorsKeepOut(incoming.labels, other, a.operator);
    }
  }

  lemma OtherOperatorsKeepOut(l: Labels, other: string, operator: string)
    requires ShouldManage(l, other) && other != operator && other != HELM
    ensures !ShouldAdopt(l, operator) && !ShouldManage(l, operator)
  {
    BrokerValuesDiffer(other, operator);
  }

  /** One that may be adopted is taken over by an answered call, which makes this operator its manager and nothing else. */
  lemma {:induction false} AnAnsweredCallAdopts(s: State, a: Answers)
    requires s.secret.Some? && !s.secret.value.deleting && Undisturbed(s.script) && |s.script| >= 1
    requires ShouldAdopt(s.secret.value.labels, a.operator) && !HasSccManagedBy(s.secret.value.labels)
    ensures var r := OnSecretChange(s, s.secret.value, a);
            && r.ok && r.state.regs == s.regs && r.state.cache == s.cache && r.state.secret.Some?
            && ShouldManage(r.state.secret.value.labels, a.operator) && HasSccManagedBy(r.state.secret.value.labels)
            && r.state.secret.value.data == s.secret.value.data
            && (forall k :: !Reserved(k) ==> SameAt(s.secret.value.labels, r.state.secret.value.labels, k))
  {
    var incoming := s.secret.value;
    assert s.script[0] == Beat([], Answered);
    PatchedExtremes(incoming.labels, Owned(incoming.labels, a.operator));
    PatchedExtremes(incoming.data, incoming.data);
    OwnershipIsStable(incoming.labels, a.operator, a.operator);
  }

  // ----- cleanup, when nothing goes wrong

  /** The informer holds the Registration as it is stored. */
  predicate Accurate(s: State, i: nat)
    requires i < |s.cache|
  {
    s.cache[i].name in s.regs && s.regs[s.cache[i].name].version == s.cache[i].reg.version
  }

  lemma {:induction false} CleanupOneSucceeds(s: State, i: nat)
    requires i < |s.cache| && Undisturbed(s.script) && |s.script| >= 2 && Accurate(s, i)
    ensures var r := CleanupOne(s, i);
            r.ok && Undisturbed(r.state.script) && |r.state.script| >= |s.script| - 2
  {
    assert s.script[0] == Beat([], Answered) && s.script[1] == Beat([], Answered);
    var l := s.cache[i];
    var v := Stripped(s, i);
    assert StripReg(v, l.name, l.reg).error.NoError?;
  }

  /** With accurate copies, and when every call is answered, a cleanup succeeds: also if a Registration is gone as soon as
      its last finalizer is taken off, so that there is nothing left to delete. */
  lemma {:induction false} CleanupFromSucceeds(s: State, i: nat, hash: string)
    requires i <= |s.cache| && Undisturbed(s.script) && |s.script| >= 2 * (|s.cache| - i)
    requires forall j :: i <= j < |s.cache| && CarriesHash(s.cache[j].reg, hash) ==> Accurate(s, j)
    requires forall j, k :: i <= j < k < |s.cache| ==> s.cache[j].name != s.cache[k].name
    ensures CleanupFrom(s, i, hash).ok
    decreases |s.cache| - i
  {
    if i < |s.cache| {
      if CarriesHash(s.cache[i].reg, hash) {
        CleanupOneSucceeds(s, i);
        var one := CleanupOne(s, i);
        forall j | i + 1 <= j < |one.state.cache| && CarriesHash(one.state.cache[j].reg, hash) ensures Accurate(one.state, j) {
          assert one.state.cache[j] == s.cache[j];
          CleanupOneSpares(s, i, s.cache[j].name);
        }
        CleanupFromSucceeds(one.state, i + 1, hash);
      } else {
        CleanupFromSucceeds(s, i + 1, hash);
      }
    }
  }

  // ----- a patch that failed once

  /** A patch of the secret whose first attempt is not answered is tried again, whatever went wrong, and arrives if the read
      and the write after it are answered: the secret then has the labels and data of the copy. */
  lemma {:induction false} AFailedPatchIsTriedAgain(s: State, snapshot: Secret, copy: Secret)
    requires s.secret.Some? && NobodyEdits(s.script) && |s.script| >= 3
    requires !s.script[0].fate.Answered? && s.script[1].fate.Answered? && s.script[2].fate.Answered?
    ensures var c := RetryingPatch(s, snapshot, copy);
            c.error.NoError? && c.state.secret.Some? &&
            c.state.secret.value.labels == copy.labels && c.state.secret.value.data == copy.data
  {
    assert s.script[0].edits == [] && s.script[1].edits == [] && s.script[2].edits == [];
    var first := PatchSecret(s, snapshot, copy);
    assert first.state.script == s.script[1..] && first.state.secret.Some?;
    var got := GetSecret(first.state);
    assert got.error.NoError? && got.state.script == s.script[2..];
    PatchedExtremes(got.state.secret.value.labels, copy.labels);
    PatchedExtremes(got.state.secret.value.data, copy.data);
  }

  // ----- retries

  lemma {:induction false} SecretPatchesGiveUpLate(s: State, copy: Secret, tries: nat)
    requires tries >= 1
    ensures var c := RetryPatch(s, copy, tries); c.error.Conflict? ==> |s.script| - |c.state.script| >= 2 * tries
    decreases tries
  {
    var got := GetSecret(s);
    if got.error.NoError? && tries > 1 {
      SecretPatchesGiveUpLate(PatchSecret(got.state, got.state.secret.value, copy).state, copy, tries - 1);
    }
  }

  lemma {:induction false} StripsGiveUpLate(s: State, name: string, reg: Reg, tries: nat)
    requires tries >= 1
    ensures var c := StripLoop(s, name, reg, tries); c.error.Conflict? ==> |s.script| - |c.state.script| >= tries
    decreases tries
  {
    if tries > 1 {
      StripsGiveUpLate(StripReg(s, name, reg).state, name, reg, tries - 1);
    }
  }

  lemma {:induction false} RegistrationPatchesGiveUpLate(s: State, name: string, desired: Reg, tries: nat)
    requires tries >= 1
    ensures var c := PatchRegLoop(s, name, desired, tries); c.error.Conflict? ==> |s.script| - |c.state.script| >= 2 * tries
    decreases tries
  {
    var got := GetReg(s, name);
    if got.error.NoError? && tries > 1 {
      RegistrationPatchesGiveUpLate(PatchReg(got.state, name, got.state.regs[name], desired).state, name, desired, tries - 1);
    }
  }

  /** The loops of the entrypoint handler end in a conflict only after five rounds, too. */
  lemma {:induction false} ContentionIsRetriedFiveTimes(s: State, snapshot: Secret, copy: Secret, name: string, reg: Reg)
    ensures var c := RetryPatch(s, copy, RETRY_STEPS); c.error.Conflict? ==> |s.script| - |c.state.script| >= 10
    ensures var c := StripLoop(s, name, reg, RETRY_STEPS); c.error.Conflict? ==> |s.script| - |c.state.script| >= 5
    ensures var c := PatchRegLoop(s, name, reg, RETRY_STEPS); c.error.Conflict? ==> |s.script| - |c.state.script| >= 10
  {
    SecretPatchesGiveUpLate(s, copy, RETRY_STEPS);
    StripsGiveUpLate(s, name, reg, RETRY_STEPS);
    RegistrationPatchesGiveUpLate(s, name, reg, RETRY_STEPS);
  }
}
