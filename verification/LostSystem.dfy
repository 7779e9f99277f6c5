/** What becomes of an online registration whose credentials reached their secret, but whose system ID never reached the
    status: the announcement succeeded and the write after it did not. */
module LostSystem {
  import opened Wrappers
  import opened Conditions
  import opened Registrations
  import opened ApiServer
  import opened Reconciliation
  import opened Automaton
  import opened Reachability
  import opened Simulation
  import opened Progress
  import Credentials
  import Lifecycle
  import OnlineMode
  import Verdicts

  // ----- the credentials secret behind the vault

  /** What the secret holds, in the terms of the lifecycle: complete credentials are what HasAuthentication looks for. */
  function VaultOf(s: Option<Credentials.Secret>): Vault {
    match Credentials.Load(s)
    case None => Absent
    case Some(c) => if c.Type().Both? then Complete else Partial
  }

  /** SCC hands out a token and then a login: once both saves have worked, the credentials are complete. */
  lemma AcceptedRegistrationCompletesTheSecret(
      s: Credentials.State, token: string, login: string, password: string, stamp: Credentials.Stamp)
    requires token != "" && login != "" && password != ""
    ensures var ops := [Credentials.UpdateToken(token), Credentials.SetLogin(login, password)];
            Credentials.PerformAll(s, ops, stamp).ok ==> VaultOf(Credentials.PerformAll(s, ops, stamp).world.secret) == Complete
  {
    var ops := [Credentials.UpdateToken(token), Credentials.SetLogin(login, password)];
    assert ops[..1] == [ops[0]] && [ops[0]][..0] == [];
    var t := Credentials.Perform(s, ops[0], stamp);
    assert Credentials.PerformAll(s, ops[..1], stamp) == t;
    Credentials.SaveStoresTheCredentials(t.world, Credentials.Creds(token, login, password), stamp);
  }

  /** Initialising the secret blanks the token, so that they are not complete, whatever it held before. */
  lemma InitialisingBlanksTheToken(w: Credentials.World, stamp: Credentials.Stamp)
    ensures var saved := Credentials.Save(w, Credentials.Creds("", "", ""), stamp);
            !saved.error ==> VaultOf(saved.world.secret) == Partial
  {
    Credentials.SaveStoresTheCredentials(w, Credentials.Creds("", "", ""), stamp);
  }

  // ----- no way out

  /** Failed, or stranded, without a system ID. */
  predicate Doomed(w: World) {
    w.stored.spec.mode.Online? && w.stored.status.systemId.None? && !w.stored.status.activated &&
    (Lifecycle.IsFailed(w.stored.status) || Stranded(w))
  }

  lemma FailingIsDoomed(s: Status, err: Fault, now: nat)
    requires s.systemId.None? && !s.activated
    ensures var r := Apply(Online, FailRegister(err, OnlineMode.REGISTRATION_MAIN, now), s);
            r.systemId.None? && !r.activated && Lifecycle.IsFailed(r)
  {
    if OnlineMode.NonRecoverable(Some(err)) {
      NonRecoverableRegisterError(s, err, OnlineMode.REGISTRATION_MAIN, now);
    } else {
      RecoverableRegisterError(s, err, OnlineMode.REGISTRATION_MAIN, now);
    }
  }

  lemma {:induction false} BeginningStaysDoomed(w: World, obj: Record, tries: nat)
    requires Doomed(w) && Stranded(w) && obj.version <= w.stored.version && obj.spec.mode.Online?
    requires Doomed(w.(stored := obj)) && Stranded(w.(stored := obj))
    ensures Doomed(BeginRegistration(w, obj, tries).world)
    decreases tries
  {
    var updated := obj.(status := Apply(Online, Begin, obj.status));
    UpdateStatusOutcome(w, updated);
    CallsShrinkTheVault(w, updated);
    var put := UpdateStatus(w, updated);
    if put.error.Conflict? && tries > 1 {
      BeginningStaysDoomed(put.world, updated, tries - 1);
    }
  }

  lemma {:induction false} RegisteringStaysDoomed(w: World, obj: Record, a: Answers)
    requires Doomed(w) && Stranded(w) && obj.spec.mode.Online? && obj.status.systemId.None?
    ensures Doomed(RegisterSystem(w, obj, w.stored, a).world)
  {
    match CallRegister(w.stored.spec, w.vault, a) {
      case Nil =>
      case Error(f) =>
        var v := w.(vault := VaultAfterRegister(w.stored.spec, w.vault, a)).Log(RegisterCalled(false));
        assert Stranded(v);
        ReconcileErrorWrites(v, Online, FailRegister(f, OnlineMode.REGISTRATION_MAIN, a.now), RETRY_STEPS);
        FailingIsDoomed(w.stored.status, f, a.now);
      case Answer(id) =>
        assert SystemIdToSet(id, obj.status).Nil?;
    }
  }

  lemma {:induction false} AnnouncingStaysDoomed(w: World, a: Answers)
    requires Doomed(w) && Stranded(w)
    ensures Doomed(Announce(w, w.stored, a).world)
  {
    var obj := w.stored;
    assert WithSecret(w, obj, a) == w && Prepared(obj) == obj;
    UpdateStatusOutcome(w, obj);
    CallsShrinkTheVault(w, obj);
    var put := UpdateStatus(w, obj);
    if put.error.NoError? {
      RegisteringStaysDoomed(put.world, obj, a);
    }
  }

  lemma {:induction false} CallStaysDoomed(w: World, a: Answers)
    requires Doomed(w)
    ensures Doomed(OnRegistrationChange(w, w.stored, a).world)
  {
    if !Lifecycle.IsFailed(w.stored.status) {
      assert NeedsRegistration(w.stored);
      BeginningStaysDoomed(w, w.stored, RETRY_STEPS);
      AnnouncingStaysDoomed(w, a);
    }
  }

  /** Over every run, whatever SCC and the server answer and whatever others do: no system ID is ever stored, and the
      registration is never announced or activated. */
  lemma {:induction false} DoomedForEver(w: World, inputs: seq<Input>)
    requires Doomed(w)
    ensures Doomed(Run(w, inputs))
  {
    if inputs != [] {
      DoomedForEver(w, inputs[..|inputs| - 1]);
      var u := Before(Run(w, inputs[..|inputs| - 1]), inputs[|inputs| - 1]);
      if u.present {
        CallStaysDoomed(u, inputs[|inputs| - 1].answers);
      }
    }
  }

  // ----- exactly when

  /** A reachable registration that is neither processed nor failed gets announced by the smooth calls it is away from
      that if and only if it is not stranded; and a stranded one is never announced, whatever is done. */
  lemma {:induction false} AnnouncedExactlyUnlessStranded(spec: Spec, inputs: seq<Input>, smooth: seq<Input>)
    requires spec.mode.Online? && TimesAreReal(inputs) && forall i :: i in smooth ==> SmoothInput(i)
    requires var w := Run(Created(spec), inputs);
             w.present && w.stored.spec.request.Some? && w.stored.status.processed == 0 &&
             !Lifecycle.IsFailed(w.stored.status) && |smooth| == Rank(w.stored.status) - 1
    ensures var w := Run(Created(spec), inputs);
            PhaseOf(Run(w, smooth).stored.status) == PhaseAnnounced <==> !Stranded(w)
    ensures var w := Run(Created(spec), inputs); Stranded(w) ==> Doomed(w)
  {
    var w := Run(Created(spec), inputs);
    ReachableIsGood(spec, inputs);
    assert OnlineAlive(w);
    if Stranded(w) {
      DoomedForEver(w, smooth);
    } else {
      SmoothRunLowersRank(w, smooth);
    }
  }

  lemma LastWriteDecides(w: World, obj: Record, a: Answers, fate: Fate)
    requires w.present && w.script == [Beat(NoEdit, fate)] && AllAnswered(a) && w.vault.Partial?
    requires OnlineAlive(w) && w.stored.status.processed == 0 && w.stored.status.credentialsRef && obj.spec.mode.Online?
    ensures var r := RegisterSystem(w, obj, w.stored, a);
            && RegisterCalled(true) in r.world.trace && r.world.vault.Complete?
            && (Stranded(r.world) <==> fate.Refused?)
            && (fate.Refused? ==> r.verdict.Errored?)
  {
    var v := w.(vault := Complete).Log(RegisterCalled(true));
    assert v.trace[|v.trace| - 1] == RegisterCalled(true);
    assert CallRegister(w.stored.spec, w.vault, a) == Answer(a.register.value);
    RegisteringLeaves(w.stored.status, a);
    var put := UpdateStatus(v, v.stored.(status := Apply(Online, Register(Some(a.register.value), a.devMode, a.now), v.stored.status)));
    assert RegisterCalled(true) in put.world.trace by {
      assert put.world.trace[|v.trace| - 1] == RegisterCalled(true);
    }
  }

  /** When SCC accepts the registration and its credentials are saved, it is the last write alone that decides: the
      registration is stranded if and only if that write is refused. */
  lemma ARefusedWriteStrands(w: World, a: Answers, fate: Fate)
    requires OnlineReady(w) && PhaseOf(w.stored.status) == PhaseStarting && AllAnswered(a)
    requires w.script == [CLEAR, Beat(NoEdit, fate)]
    ensures var r := OnRegistrationChange(w, w.stored, a);
            RegisterCalled(true) in r.world.trace && r.world.vault.Complete? && (Stranded(r.world) <==> fate.Refused?)
  {
    var attached := w.stored.(status := Apply(Online, AttachSecret, w.stored.status));
    assert Prepared(w.stored) == attached;
    var v := WithSecret(w, w.stored, a);
    ClearUpdateStatus(v, attached);
    var put := UpdateStatus(v, attached);
    assert Announce(w, w.stored, a) == RegisterSystem(put.world, w.stored, put.record, a);
    MutationKeepsGood(Online, AttachSecret, Node(w.stored.status, true, true));
    LastWriteDecides(put.world, w.stored, a, fate);
  }

  /** That is a run: from a fresh registration with two calls, in which nothing goes wrong but the very last write. */
  lemma StrandedInTwoCalls(spec: Spec, first: Input, second: Input)
    requires spec.mode.Online? && spec.request.Some? && SmoothInput(first)
    requires second.edit.NoEdit? && AllAnswered(second.answers) && second.script == [CLEAR, Beat(NoEdit, Refused)]
    ensures Stranded(Run(Created(spec), [first, second])) && Doomed(Run(Created(spec), [first, second]))
  {
    var w0 := Created(spec);
    assert [first, second][..1] == [first] && [first][..0] == [] && Run(w0, []) == w0;
    assert Good(Online, Node(FRESH, true, true));
    SmoothRunLowersRank(w0, [first]);
    var u := Before(Run(w0, [first]), second);
    ARefusedWriteStrands(u, second.answers, Refused);
    assert TimesAreReal([first, second]);
    ReachableIsGood(spec, [first, second]);
  }

  // ----- when credentials arrive

  predicate NobodyForgets(script: seq<Beat>) {
    forall b :: b in script ==> !b.edit.Forget?
  }

  predicate VaultKept(v: World, w: World) {
    w.vault == v.vault && NobodyForgets(w.script)
  }

  lemma CallsKeepTheVault(w: World, obj: Record)
    requires NobodyForgets(w.script)
    ensures VaultKept(w, Get(w).world) && VaultKept(w, UpdateStatus(w, obj).world) && VaultKept(w, Update(w, obj).world)
  {
  }

  lemma {:induction false} ReconcilingKeepsTheVault(w: World, m: Mutation, tries: nat)
    requires NobodyForgets(w.script)
    ensures VaultKept(w, ReconcileError(w, Online, m, tries).world)
    decreases tries
  {
    CallsKeepTheVault(w, w.stored);
    var got := Get(w);
    if got.error.NoError? {
      var obj := got.record.(status := Apply(Online, m, got.record.status));
      CallsKeepTheVault(got.world, obj);
      CallsKeepTheVault(if got.record.spec.DiffersFromItsCopy() then Update(got.world, obj).world else got.world, obj);
    }
    var once := ReconcileOnce(w, Online, m);
    if once.error.Conflict? && tries > 1 {
      ReconcilingKeepsTheVault(once.world, m, tries - 1);
    }
  }

  /** SCC accepted the registration and handed out credentials that reached the secret, heard or not. */
  predicate CredentialsArrive(w: World, a: Answers) {
    !w.vault.Absent? && a.refresh.None? && w.stored.spec.request.Some? && a.register.Ok? && !a.credentialsSave.NotSaved?
  }

  lemma {:induction false} FinishingKeepsTheVault(w: World, obj: Record, id: int, a: Answers)
    requires NobodyForgets(w.script) && obj.spec.mode.Online?
    ensures FinishAnnounce(w, obj, w.stored, id, a).world.vault == w.vault
  {
    var call := SystemIdToSet(id, obj.status);
    if call.Answer? {
      var f := Fault(None, "SCC system ID cannot be empty when preparing registered system");
      ReconcilingKeepsTheVault(w, FailRegister(f, OnlineMode.REGISTRATION_FOR_ACTIVATION, a.now), RETRY_STEPS);
      CallsKeepTheVault(w, w.stored.(status := Apply(Online, Register(call.value, a.devMode, a.now), w.stored.status)));
    }
  }

  /** Registering makes the stored credentials complete exactly if the registration was accepted and its credentials reached
      the secret, also if the answer of that write was lost; otherwise they are what they were. */
  lemma {:induction false} CredentialsArriveExactly(w: World, obj: Record, a: Answers)
    requires NobodyForgets(w.script) && w.stored.spec.mode.Online? && obj.spec.mode.Online?
    ensures RegisterSystem(w, obj, w.stored, a).world.vault == if CredentialsArrive(w, a) then Complete else w.vault
  {
    var v := w.(vault := VaultAfterRegister(w.stored.spec, w.vault, a));
    match CallRegister(w.stored.spec, w.vault, a) {
      case Nil =>
      case Error(f) =>
        ReconcilingKeepsTheVault(v.Log(RegisterCalled(false)), FailRegister(f, OnlineMode.REGISTRATION_MAIN, a.now), RETRY_STEPS);
      case Answer(id) => FinishingKeepsTheVault(v.Log(RegisterCalled(true)), obj, id, a);
    }
  }

  /** A secret whose initialisation is not heard of is blank if the write reached it: the call fails, and whatever
      credentials it held are gone. */
  lemma {:induction false} AnUnheardInitialisationBlanks(w: World, a: Answers)
    requires NobodyForgets(w.script) && w.stored.spec.mode.Online? && !w.stored.status.credentialsRef && !a.initSecret.Saved?
    ensures var r := Announce(w, w.stored, a);
            r.verdict.Errored? && r.world.vault == if a.initSecret.Unheard? then Partial else w.vault
  {
    ReconcilingKeepsTheVault(WithSecret(w, w.stored, a),
                             FailRegister(a.initSecret.fault, OnlineMode.REGISTRATION_PREPARE, a.now), RETRY_STEPS);
  }

  /** Whenever credentials arrive and the call still stores no system ID, the registration is lost for good: because the
      answer of the save, or of the status write, was lost or refused. */
  lemma {:induction false} CredentialsWithoutASystemAreLost(w: World, obj: Record, a: Answers)
    requires w.stored.spec.mode.Online? && obj.spec.mode.Online? && obj.status.systemId.None?
    requires w.stored.status.processed == 0 && w.stored.status.credentialsRef && w.stored.status.systemId.None?
    requires !w.stored.status.activated && CredentialsArrive(w, a)
    ensures var r := RegisterSystem(w, obj, w.stored, a);
            r.world.stored.status.systemId.None? ==> Doomed(r.world)
  {
    var v := w.(vault := VaultAfterRegister(w.stored.spec, w.vault, a));
    match CallRegister(w.stored.spec, w.vault, a) {
      case Error(f) =>
        var failure := FailRegister(f, OnlineMode.REGISTRATION_MAIN, a.now);
        ReconcileErrorWrites(v.Log(RegisterCalled(false)), Online, failure, RETRY_STEPS);
        FailingIsDoomed(w.stored.status, f, a.now);
      case Answer(id) => AnsweredWithoutASystemIsLost(v.Log(RegisterCalled(true)), obj, id, a);
    }
  }

  lemma {:induction false} AnsweredWithoutASystemIsLost(w: World, obj: Record, id: int, a: Answers)
    requires w.stored.spec.mode.Online? && obj.spec.mode.Online? && obj.status.systemId.None? && id != OFFLINE_SYSTEM_ID
    requires w.stored.status.processed == 0 && w.stored.status.credentialsRef && w.stored.status.systemId.None?
    requires !w.stored.status.activated && w.vault.Complete?
    ensures var r := FinishAnnounce(w, obj, w.stored, id, a);
            r.world.stored.status.systemId.None? ==> Doomed(r.world)
  {
    var call := SystemIdToSet(id, obj.status);
    if call.Answer? {
      Verdicts.RegisteredIsAnnounced(Online, call.value, a.devMode, a.now, w.stored.status);
      var registered := w.stored.(status := Apply(Online, Register(call.value, a.devMode, a.now), w.stored.status));
      UpdateStatusOutcome(w, registered);
      CallsShrinkTheVault(w, registered);
    }
  }
}
