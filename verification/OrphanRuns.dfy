/** When a call makes an orphan: exactly if it cleans up under a cache that does not know all live Registrations. A failed
    cleanup leaves such a cache behind, and a whole run shows it. */
module OrphanRuns {
  import opened Wrappers
  import opened Finalizers
  import opened Ownership
  import opened Cluster
  import opened Entrypoint
  import opened Orphans
  import opened HashLabels

  // ----- what a call without other writers leaves alone

  /** The Registration n and the secret are as before. */
  ghost predicate Aloof(s: State, t: State, n: string) {
    Spared(s, t, n) && t.secret == s.secret
  }

  lemma CallIsAloof(s: State, name: string, n: string)
    requires NobodyEdits(s.script) && n in s.regs
    ensures Aloof(s, OtherCall(s).state, n) && Aloof(s, GetReg(s, name).state, n) && Aloof(s, GetSecret(s).state, n)
  {
    if s.script != [] {
      assert s.script[0].edits == [];
    }
  }

  lemma {:induction false} OtherCallsAreAloof(s: State, k: nat, n: string)
    requires NobodyEdits(s.script) && n in s.regs
    ensures Aloof(s, OtherCalls(s, k).state, n)
    decreases k
  {
    if k > 0 {
      CallIsAloof(s, "", n);
      OtherCallsAreAloof(OtherCall(s).state, k - 1, n);
    }
  }

  lemma WriteIsAloof(s: State, name: string, snapshot: Reg, reg: Reg, n: string)
    requires NobodyEdits(s.script) && n in s.regs && name != n
    ensures Aloof(s, CreateReg(s, name, reg).state, n) && Aloof(s, PatchReg(s, name, snapshot, reg).state, n)
  {
    if s.script != [] {
      assert s.script[0].edits == [];
    }
  }

  lemma {:induction false} PatchRegLoopIsAloof(s: State, name: string, reg: Reg, tries: nat, n: string)
    requires NobodyEdits(s.script) && n in s.regs && name != n
    ensures Aloof(s, PatchRegLoop(s, name, reg, tries).state, n)
    decreases tries
  {
    CallIsAloof(s, name, n);
    var got := GetReg(s, name);
    if got.error.NoError? {
      WriteIsAloof(got.state, name, got.state.regs[name], reg, n);
      var put := PatchReg(got.state, name, got.state.regs[name], reg);
      if put.error.Conflict? && tries > 1 {
        PatchRegLoopIsAloof(put.state, name, reg, tries - 1, n);
      }
    }
  }

  lemma CreateOrUpdateIsAloof(s: State, name: string, reg: Reg, n: string)
    requires NobodyEdits(s.script) && n in s.regs && name != n
    ensures Aloof(s, CreateOrUpdate(s, name, reg).state, n)
  {
    CallIsAloof(s, name, n);
    var got := GetReg(s, name);
    WriteIsAloof(got.state, name, reg, reg.(version := 1, deleting := false), n);
    PatchRegLoopIsAloof(got.state, name, reg, RETRY_STEPS, n);
  }

  lemma MaterializeIsAloof(s: State, p: Params, a: Answers, n: string)
    requires NobodyEdits(s.script) && n in s.regs && RegistrationName(p.nameId) != n && n != ""
    ensures Aloof(s, Materialize(s, p, a).state, n)
  {
    var k := if p.mode == ONLINE || p.hasCertificate then a.written else 0;
    OtherCallsAreAloof(s, k, n);
    var secrets := OtherCalls(s, k);
    if secrets.error.NoError? {
      var name := RegistrationName(p.nameId);
      CallIsAloof(secrets.state, name, n);
      var d := FromEntrypoint(secrets.state, name, p);
      assert Aloof(secrets.state, d.state, n);
      CreateOrUpdateIsAloof(d.state, d.name, d.reg, n);
    }
  }

  lemma PatchSecretSpares(s: State, snapshot: Secret, copy: Secret, n: string)
    requires NobodyEdits(s.script) && n in s.regs
    ensures Spared(s, PatchSecret(s, snapshot, copy).state, n)
  {
    if s.script != [] {
      assert s.script[0].edits == [];
    }
  }

  lemma {:induction false} RetryPatchSpares(s: State, copy: Secret, tries: nat, n: string)
    requires NobodyEdits(s.script) && n in s.regs
    ensures Spared(s, RetryPatch(s, copy, tries).state, n)
    decreases tries
  {
    CallIsAloof(s, "", n);
    var got := GetSecret(s);
    if got.error.NoError? {
      PatchSecretSpares(got.state, got.state.secret.value, copy, n);
      var put := PatchSecret(got.state, got.state.secret.value, copy);
      if put.error.Conflict? && tries > 1 {
        RetryPatchSpares(put.state, copy, tries - 1, n);
      }
    }
  }

  lemma LabelSpares(s: State, incoming: Secret, p: Params, n: string)
    requires NobodyEdits(s.script) && n in s.regs
    ensures Spared(s, Label(s, incoming, p).state, n)
  {
    var copy := incoming.(labels := Merged(incoming.labels, p.Labels()));
    PatchSecretSpares(s, incoming, copy, n);
    var first := PatchSecret(s, incoming, copy);
    if !first.error.NoError? {
      RetryPatchSpares(first.state, copy, RETRY_STEPS, n);
    }
  }

  // ----- exactly when a call makes an orphan

  lemma NamesDiffer(a: string, b: string)
    ensures RegistrationName(a) == RegistrationName(b) <==> a == b
  {
    if RegistrationName(a) == RegistrationName(b) {
      var prefix := "scc-registration-";
      assert a == (prefix + a)[|prefix|..] && b == (prefix + b)[|prefix|..];
    }
  }

  /** A Registration the informer does not know goes through the whole call as it is, while the secret gets a new hash. */
  lemma {:induction false} TheUnknownIsLeftBehind(s: State, p: Params, a: Answers, n: string)
    requires s.secret.Some? && Inv(s, p.managedBy) && ShouldManage(s.secret.value.labels, p.managedBy)
    requires NobodyEdits(s.script) && n in s.regs && s.regs[n].Live()
    requires var hash := Value(s.secret.value.labels, NAME_SUFFIX); hash != p.nameId && !Known(s.cache, n, hash)
    requires Process(s, s.secret.value, p, a).ok
    ensures !Inv(Process(s, s.secret.value, p, a).state, p.managedBy)
  {
    var incoming := s.secret.value;
    var hash := Value(incoming.labels, NAME_SUFFIX);
    CleanupSparesTheUnknown(s, hash, a, n);
    CleanupKillsTheHash(s, hash, a);
    var cleaned := Cleanup(s, hash, a);
    OtherCallsAreAloof(cleaned.state, a.related, n);
    OtherCallsAreCalm(cleaned.state, a.related);
    var related := if Value(incoming.labels, SCC_HASH) != p.contentHash
                   then OtherCalls(cleaned.state, a.related) else Call(cleaned.state, NoError);
    LabelSpares(related.state, incoming, p, n);
    MergedLabels(incoming.labels, p, p.managedBy);
    RetryingPatchRelabels(related.state, incoming, incoming.(labels := Merged(incoming.labels, p.Labels())));
    var labelled := Label(related.state, incoming, p);
    NamesDiffer(hash, p.nameId);
    assert n != "" by {
      assert RegistrationName(hash)[0] == 's';
    }
    MaterializeIsAloof(labelled.state, p, a, n);
    var t := Materialize(labelled.state, p, a).state;
    assert t.regs[n] == s.regs[n] && Value(t.secret.value.labels, NAME_SUFFIX) == p.nameId;
  }

  /** A successful call that cleans up, and that nobody disturbs, leaves no orphan if and only if the informer knew all
      live Registrations when it began. */
  lemma {:induction false} CleaningCallIsSafeExactlyWhenCovered(s: State, a: Answers)
    requires s.secret.Some? && Inv(s, a.operator) && Trusted(a, a.operator) && CleansOnChange(s.secret.value, a)
    requires NobodyEdits(s.script) && OnSecretChange(s, s.secret.value, a).ok
    ensures Inv(OnSecretChange(s, s.secret.value, a).state, a.operator) <==>
              Covered(s, Value(s.secret.value.labels, NAME_SUFFIX))
  {
    var hash := Value(s.secret.value.labels, NAME_SUFFIX);
    if Covered(s, hash) {
      ChangeKeepsInv(s, a);
    } else {
      var n :| n in s.regs && s.regs[n].Live() && !Known(s.cache, n, hash);
      TheUnknownIsLeftBehind(s, Extract(s.secret.value, a).value, a, n);
    }
  }

  // ----- a failed cleanup leaves such a cache behind

  const REFUSED := [Beat([], Refused)]

  /** The write of the strip is refused: the call fails, nothing is stored, but the cached copy has lost its finalizer. */
  lemma {:induction false} ARefusedCleanupStripsTheCache(s: State, a: Answers)
    requires s.secret.Some? && CleansOnChange(s.secret.value, a) && !a.indexFails && s.script == REFUSED
    requires |s.cache| == 1 && s.cache[0].reg.Managed() && CarriesHash(s.cache[0].reg, Value(s.secret.value.labels, NAME_SUFFIX))
    ensures var r := OnSecretChange(s, s.secret.value, a);
            !r.ok && r.state == Stripped(s, 0).(script := []) && !r.state.cache[0].reg.Managed()
  {
    var v := Stripped(s, 0);
    var c := StripReg(v, s.cache[0].name, s.cache[0].reg);
    assert EditedAll(v.(script := []), []) == v.(script := []);
    assert c.state == v.(script := []) && c.error == Refusal;
    assert CleanupOne(s, 0) == Outcome(v.(script := []), false);
    assert CleanupFrom(s, 0, Value(s.secret.value.labels, NAME_SUFFIX)) == Outcome(v.(script := []), false);
  }

  /** A later call, in which all goes well, takes the stripped copy for done and succeeds. */
  lemma {:induction false} TheNextCallSucceeds(s: State, p: Params, a: Answers)
    requires s.secret.Some? && Value(s.secret.value.labels, NAME_SUFFIX) != p.nameId && !a.indexFails
    requires |s.cache| == 1 && !s.cache[0].reg.Managed()
    requires Undisturbed(s.script) && |s.script| >= a.related + a.written + 5
    ensures Process(s, s.secret.value, p, a).ok
  {
    var incoming := s.secret.value;
    assert CleanupFrom(s, 1, Value(incoming.labels, NAME_SUFFIX)) == Outcome(s, true);
    assert Cleanup(s, Value(incoming.labels, NAME_SUFFIX), a) == Outcome(s, true);
    OtherCallsUndisturbed(s, a.related);
    var k := if Value(incoming.labels, SCC_HASH) != p.contentHash then a.related else 0;
    var u := s.(script := s.script[k..]);
    assert u.script[0] == Beat([], Answered);
    var labelled := Label(u, incoming, p);
    assert labelled.error.NoError? && labelled.state.script == u.script[1..];
    MaterializeUndisturbed(labelled.state, p, a);
  }

  /** So the Registration it stood for lives on under a hash that is no longer the secret's. */
  lemma {:induction false} TheNextCallOrphans(s: State, p: Params, a: Answers, n: string)
    requires s.secret.Some? && Inv(s, p.managedBy) && ShouldManage(s.secret.value.labels, p.managedBy)
    requires Value(s.secret.value.labels, NAME_SUFFIX) != p.nameId && !a.indexFails
    requires |s.cache| == 1 && !s.cache[0].reg.Managed() && n in s.regs && s.regs[n].Live()
    requires Undisturbed(s.script) && |s.script| >= a.related + a.written + 5
    ensures !Inv(Process(s, s.secret.value, p, a).state, p.managedBy)
  {
    TheNextCallSucceeds(s, p, a);
    NobodyEditsUndisturbed(s.script);
    StrippedIsUnknown(s.cache, n, Value(s.secret.value.labels, NAME_SUFFIX));
    TheUnknownIsLeftBehind(s, p, a, n);
  }

  lemma NobodyEditsUndisturbed(script: seq<Beat>)
    requires Undisturbed(script)
    ensures NobodyEdits(script)
  {
  }

  lemma StrippedIsUnknown(cache: seq<Cached>, n: string, hash: string)
    requires |cache| == 1 && !cache[0].reg.Managed()
    ensures !Known(cache, n, hash)
  {
  }

  // ----- a whole run

  function Clear(n: nat): seq<Beat> {
    seq(n, _ => Beat([], Answered))
  }

  /** The states a run goes through. */
  ghost predicate Path(states: seq<State>, inputs: seq<Input>) {
    |states| == |inputs| + 1 && forall k :: 0 <= k < |inputs| ==> states[k + 1] == Perform(states[k], inputs[k])
  }

  ghost predicate Leads(inputs: seq<Input>, t: State) {
    exists states :: Path(states, inputs) && states[0] == EMPTY && states[|inputs|] == t
  }

  lemma LeadsNowhere()
    ensures Leads([], EMPTY)
  {
    assert Path([EMPTY], []);
  }

  lemma LeadsOn(inputs: seq<Input>, t: State, i: Input)
    requires Leads(inputs, t)
    ensures Leads(inputs + [i], Perform(t, i))
  {
    var states :| Path(states, inputs) && states[0] == EMPTY && states[|inputs|] == t;
    var more := states + [Perform(t, i)];
    assert Path(more, inputs + [i]);
  }

  lemma {:induction false} PathIsRun(states: seq<State>, inputs: seq<Input>)
    requires Path(states, inputs)
    ensures RunAll(states[0], inputs) == states[|inputs|]
    decreases |inputs|
  {
    if inputs != [] {
      PathIsRun(states[..|inputs|], inputs[..|inputs| - 1]);
    }
  }

  lemma LeadsToTheRun(inputs: seq<Input>, t: State)
    requires Leads(inputs, t)
    ensures RunAll(EMPTY, inputs) == t
  {
    var states :| Path(states, inputs) && states[0] == EMPTY && states[|inputs|] == t;
    PathIsRun(states, inputs);
  }

  /** What the run starts from: a salted secret of this operator, with data that name the Registration p, and an edit after
      which they name another one. */
  datatype Story = Story(labels: Labels, before: map<string, string>, after: map<string, string>, a: Answers, p: Params, q: Params) {
    ghost predicate Valid() {
      && ShouldManage(labels, a.operator) && HasSccManagedBy(labels) && OBJECT_SALT in labels && SCC_HASH !in labels
      && Extract(Secret(labels, before, false), a) == Some(p) && Extract(Secret(labels, after, false), a) == Some(q)
      && p.nameId != q.nameId && Trusted(a, a.operator) && !a.indexFails
    }

    function Name(): string {
      RegistrationName(p.nameId)
    }

    function Labelled(): Secret {
      Relabel(Secret(labels, before, false), p)
    }

    function Edited(): Secret {
      Labelled().(data := after)
    }

    function Creation(): Input {
      Created(labels, before)
    }

    /** Two calls make the Registration. */
    function FirstCall(): Input {
      Changed(Clear(1), a)
    }

    function SecondCall(): Input {
      Changed(Clear(a.written + 5), a)
    }

    /** The informer delivers it. */
    function Delivery(made: Reg): Input {
      Delivered([Cached(Name(), made)])
    }

    function Edit(): Input {
      UserEdits([SetData(after)])
    }

    /** A call is refused its first write. */
    function Failure(): Input {
      Changed(REFUSED, a)
    }

    /** A call is refused nothing. */
    function Success(): Input {
      Changed(Clear(a.related + a.written + 5), a)
    }
  }

  lemma HashesAreSound(name: string, certificate: string, mode: string, a: Answers)
    requires HashIsNonEmpty(a)
    ensures var p := FromHashes(name, certificate, mode, a); p.nameId != "" && p.contentHash != "" && p.managedBy == a.operator
  {
  }

  lemma ParamsAreSound(s: Secret, a: Answers, p: Params)
    requires Extract(s, a) == Some(p) && HashIsNonEmpty(a)
    ensures p.nameId != "" && p.contentHash != "" && p.managedBy == a.operator
  {
    HashesAreSound(NameData(s, p.mode, a), Value(s.data, CERTIFICATE), p.mode, a);
  }

  lemma RelabelledIsSound(s: Secret, p: Params)
    requires ShouldManage(s.labels, p.managedBy) && OBJECT_SALT in s.labels
    ensures var t := Relabel(s, p);
            && t.deleting == s.deleting && t.data == s.data
            && Value(t.labels, NAME_SUFFIX) == p.nameId && NAME_SUFFIX in t.labels && Value(t.labels, SCC_HASH) == p.contentHash
            && ShouldManage(t.labels, p.managedBy) && HasSccManagedBy(t.labels)
            && OBJECT_SALT in t.labels && Value(t.labels, OBJECT_SALT) == Value(s.labels, OBJECT_SALT)
  {
    MergedLabels(s.labels, p, p.managedBy);
    assert !Reserved(OBJECT_SALT);
  }

  /** The secret is labelled and there is no Registration yet. */
  lemma {:induction false} LabellingCall(t: Story, s: State)
    requires t.Valid() && s == EMPTY.(secret := Some(Secret(t.labels, t.before, false)))
    ensures Perform(s, t.FirstCall()).secret == Some(t.Labelled()) && Perform(s, t.FirstCall()).regs == map[]
  {
    FirstCallLabels(s.(script := Clear(1)), t.a);
  }

  lemma {:induction false} Labelling(t: Story) returns (s: State)
    requires t.Valid()
    ensures Leads([] + [t.Creation()] + [t.FirstCall()], s) && s.secret == Some(t.Labelled()) && s.regs == map[]
  {
    var s1 := EMPTY.(secret := Some(Secret(t.labels, t.before, false)));
    LeadsNowhere();
    LeadsOn([], EMPTY, t.Creation());
    LeadsOn([] + [t.Creation()], s1, t.FirstCall());
    LabellingCall(t, s1);
    s := Perform(s1, t.FirstCall());
  }

  /** There is one live Registration, that of p. */
  ghost predicate Made(t: Story, s: State, made: Reg) {
    s.regs == map[t.Name() := made] && made.Live() && CarriesHash(made, t.p.nameId)
  }

  lemma MaterializedFromNothing(after: map<string, Reg>, p: Params)
    requires Materialized(map[], after, p)
    ensures var name := RegistrationName(p.nameId);
            after == map[name := after[name]] && after[name].Live() && CarriesHash(after[name], p.nameId)
  {
    assert p.Labels()[NAME_SUFFIX] == p.nameId;
  }

  lemma {:induction false} MakingCall(s: State, first: Secret, a: Answers, p: Params)
    requires ShouldManage(first.labels, a.operator) && OBJECT_SALT in first.labels && !first.deleting
    requires Extract(first, a) == Some(p) && p.contentHash != ""
    requires s.secret == Some(Relabel(first, p)) && Undisturbed(s.script) && |s.script| >= a.written + 5
    ensures var r := OnSecretChange(s, s.secret.value, a).state;
            r.secret == s.secret && Materialized(s.regs, r.regs, p)
  {
    LaterCallsMaterialize(s, first, a);
  }

  lemma {:induction false} Making(t: Story, s: State, inputs: seq<Input>) returns (r: State, made: Reg)
    requires t.Valid() && Leads(inputs, s) && s.secret == Some(t.Labelled()) && s.regs == map[]
    ensures Leads(inputs + [t.SecondCall()], r) && r.secret == Some(t.Labelled()) && Made(t, r, made)
  {
    LeadsOn(inputs, s, t.SecondCall());
    var secret := Secret(t.labels, t.before, false);
    ParamsAreSound(secret, t.a, t.p);
    MakingCall(s.(script := Clear(t.a.written + 5)), secret, t.a, t.p);
    r := Perform(s, t.SecondCall());
    MaterializedFromNothing(r.regs, t.p);
    made := r.regs[t.Name()];
  }

  /** The informer knows the Registration, and the secret has been edited. */
  lemma {:induction false} Editing(t: Story, s: State, made: Reg, inputs: seq<Input>) returns (r: State)
    requires Leads(inputs, s) && s.secret == Some(t.Labelled()) && Made(t, s, made)
    ensures Leads(inputs + [t.Delivery(made)] + [t.Edit()], r)
    ensures r.secret == Some(t.Edited()) && Made(t, r, made) && r.cache == [Cached(t.Name(), made)]
  {
    LeadsOn(inputs, s, t.Delivery(made));
    var s4 := s.(cache := [Cached(t.Name(), made)]);
    LeadsOn(inputs + [t.Delivery(made)], s4, t.Edit());
    r := s4.(secret := Some(t.Edited()));
    assert EditedAll(s4, [SetData(t.after)]) == EditedAll(Edited(s4, SetData(t.after)), []);
    assert Perform(s4, t.Edit()) == r;
  }

  /** The edited secret names another Registration: the next call cleans up. */
  lemma EditingCausesACleanup(t: Story)
    requires t.Valid()
    ensures CleansOnChange(t.Edited(), t.a) && !t.a.indexFails && Value(t.Edited().labels, NAME_SUFFIX) == t.p.nameId
    ensures Extract(t.Edited(), t.a) == Some(t.q) && t.q.managedBy == t.a.operator
  {
    ParamsAreSound(Secret(t.labels, t.before, false), t.a, t.p);
    RelabelledIsSound(Secret(t.labels, t.before, false), t.p);
    ExtractionSeesSaltAndData(Secret(t.labels, t.after, false), t.Edited(), t.a);
  }

  lemma {:induction false} Refusing(t: Story, s: State, made: Reg, inputs: seq<Input>) returns (r: State)
    requires t.Valid() && Leads(inputs, s)
    requires s.secret == Some(t.Edited()) && Made(t, s, made) && s.cache == [Cached(t.Name(), made)]
    ensures Leads(inputs + [t.Failure()], r)
    ensures r.secret == Some(t.Edited()) && Made(t, r, made) && |r.cache| == 1 && !r.cache[0].reg.Managed()
  {
    EditingCausesACleanup(t);
    LeadsOn(inputs, s, t.Failure());
    ARefusedCleanupStripsTheCache(s.(script := REFUSED), t.a);
    r := Perform(s, t.Failure());
  }

  lemma EditedIsSound(t: Story, s: State, made: Reg)
    requires t.Valid() && s.secret == Some(t.Edited()) && Made(t, s, made)
    ensures Inv(s, t.a.operator)
  {
    ParamsAreSound(Secret(t.labels, t.before, false), t.a, t.p);
    RelabelledIsSound(Secret(t.labels, t.before, false), t.p);
  }

  lemma {:induction false} Orphaning(t: Story, s: State, made: Reg, inputs: seq<Input>) returns (r: State)
    requires t.Valid() && Leads(inputs, s)
    requires s.secret == Some(t.Edited()) && Made(t, s, made) && |s.cache| == 1 && !s.cache[0].reg.Managed()
    ensures Leads(inputs + [t.Success()], r) && !Inv(r, t.a.operator)
  {
    var i := t.Success();
    EditingCausesACleanup(t);
    EditedIsSound(t, s.(script := i.script), made);
    LeadsOn(inputs, s, i);
    TheNextCallOrphans(s.(script := i.script), t.q, t.a, t.Name());
    r := Perform(s, i);
  }

  lemma RunEndsIn(inputs: seq<Input>, r: State, operator: string)
    requires Leads(inputs, r) && !Inv(r, operator)
    ensures !Inv(RunAll(EMPTY, inputs), operator)
  {
    LeadsToTheRun(inputs, r);
  }

  lemma {:induction false} TheStoryBegins(t: Story) returns (s: State, made: Reg)
    requires t.Valid()
    ensures Leads([] + [t.Creation()] + [t.FirstCall()] + [t.SecondCall()] + [t.Delivery(made)] + [t.Edit()], s)
    ensures s.secret == Some(t.Edited()) && Made(t, s, made) && s.cache == [Cached(t.Name(), made)]
  {
    var s2 := Labelling(t);
    var prior := [] + [t.Creation()] + [t.FirstCall()];
    var s3;
    s3, made := Making(t, s2, prior);
    s := Editing(t, s3, made, prior + [t.SecondCall()]);
  }

  lemma {:induction false} TheStoryEnds(t: Story, s: State, made: Reg, inputs: seq<Input>) returns (r: State)
    requires t.Valid() && Leads(inputs, s)
    requires s.secret == Some(t.Edited()) && Made(t, s, made) && s.cache == [Cached(t.Name(), made)]
    ensures Leads(inputs + [t.Failure()] + [t.Success()], r) && !Inv(r, t.a.operator)
  {
    var s6 := Refusing(t, s, made, inputs);
    r := Orphaning(t, s6, made, inputs + [t.Failure()]);
  }

  /** There are such stories: two registration codes whose digests differ will do. */
  lemma StoriesExist() returns (t: Story)
    ensures t.Valid()
  {
    var a := Answers("operator", x => "#" + x, "", "", false, 0, 0);
    var labels := map[OBJECT_SALT := "", SCC_MANAGED_BY := SccManagedByValue("operator")];
    var before, after := map[REGISTRATION_CODE := "1"], map[REGISTRATION_CODE := "2"];
    var p := Extract(Secret(labels, before, false), a).value;
    var q := Extract(Secret(labels, after, false), a).value;
    t := Story(labels, before, after, a, p, q);
    assert p.nameId[|p.nameId| - 1] == '1' && q.nameId[|q.nameId| - 1] == '2';
  }

  /** A run that ends in an orphan: the Registration is made and delivered, the user edits the data, one call is refused
      its first write, and the next one, which is refused nothing, succeeds. No user touches a Registration. */
  lemma {:induction false} AFailedCleanupMakesAnOrphan(t: Story) returns (inputs: seq<Input>)
    requires t.Valid()
    ensures exists made :: inputs == [] + [t.Creation()] + [t.FirstCall()] + [t.SecondCall()] + [t.Delivery(made)] +
                                     [t.Edit()] + [t.Failure()] + [t.Success()]
    ensures !Inv(RunAll(EMPTY, inputs), t.a.operator)
  {
    var s, made := TheStoryBegins(t);
    var prior := [] + [t.Creation()] + [t.FirstCall()] + [t.SecondCall()] + [t.Delivery(made)] + [t.Edit()];
    var r := TheStoryEnds(t, s, made, prior);
    inputs := prior + [t.Failure()] + [t.Success()];
    RunEndsIn(inputs, r, t.a.operator);
  }
}
