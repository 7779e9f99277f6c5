/** What holds in every state that runs of the automaton, and so of the controller, can reach. */
module Reachability {
  import opened Wrappers
  import opened Conditions
  import opened Registrations
  import opened ApiServer
  import opened Reconciliation
  import opened Automaton
  import Lifecycle
  import OnlineMode
  import OfflineMode

  // ----- runs

  /** One call of the handler: what other writers did before it, how the server and the outside behave during it. */
  datatype Input = Input(edit: Edit, script: seq<Beat>, answers: Answers)

  predicate TimesAreReal(inputs: seq<Input>) {
    forall i :: i in inputs ==> i.answers.now > 0
  }

  /** The world in which the handler is called: it is handed the current stored object. */
  function Before(w: World, i: Input): World {
    Edited(w, i.edit).(script := i.script)
  }

  function Handle(w: World, i: Input): World {
    var u := Before(w, i);
    if u.present then OnRegistrationChange(u, u.stored, i.answers).world else u
  }

  function Run(w: World, inputs: seq<Input>): World {
    if inputs == [] then w else Handle(Run(w, inputs[..|inputs| - 1]), inputs[|inputs| - 1])
  }

  function Created(spec: Spec): World {
    World(Record(1, spec, FRESH), true, Absent, [], [])
  }

  lemma {:induction false} HandleIsSound(mode: Mode, start: Node, w: World, i: Input)
    requires Sound(mode, start, w) && i.answers.now > 0
    ensures Sound(mode, start, Handle(w, i))
  {
    var u := Before(w, i);
    assert Here(start, u) == Here(start, w);
    if u.present {
      StepIsSound(mode, start, u, i.answers);
    }
  }

  lemma {:induction false} RunIsSound(mode: Mode, start: Node, w: World, inputs: seq<Input>)
    requires Sound(mode, start, w) && TimesAreReal(inputs)
    ensures Sound(mode, start, Run(w, inputs))
  {
    if inputs != [] {
      var last := inputs[|inputs| - 1];
      assert last in inputs;
      RunIsSound(mode, start, w, inputs[..|inputs| - 1]);
      HandleIsSound(mode, start, Run(w, inputs[..|inputs| - 1]), last);
    }
  }

  // ----- the invariant

  predicate ActiveIsComplete(s: Status) {
    s.activated ==>
      s.validated != 0 && s.Is(Activated, Yes) && s.Is(Ready, Yes) && s.Is(Done, Yes) &&
      s.Is(Progressing, No) && !s.Is(Failure, Yes)
  }

  predicate FailedIsInactive(s: Status) {
    s.Is(Failure, Yes) ==> !s.activated && s.Is(Progressing, No) && s.Is(Ready, No)
  }

  predicate OnlineRegistered(n: Node) {
    var s := n.status;
    && (s.processed == 0 ==> !s.activated && s.systemId.None? && s.validated == 0)
    && (OnlineMode.NeedsRegistration(s) <==> s.processed == 0)
    && (s.Is(Announced, Yes) ==> s.systemId.Some?)
    && (s.processed != 0 && !s.Is(Failure, Yes) ==> s.Is(Announced, Yes) && n.registered)
  }

  predicate OfflineFailureIsTheCertificates(s: Status) {
    s.Is(Failure, Yes) ==>
      s.requestRef && s.Is(OfflineCertificateReady, No) && s.Find(OfflineCertificateReady).message != OfflineMode.AWAITING_CERTIFICATE
  }

  /** Offline a processed registration has its request. */
  predicate RequestIsOut(s: Status) {
    s.processed != 0 ==> s.requestRef && s.Is(OfflineRequestReady, Yes)
  }

  /** The invariant of every persisted status. */
  predicate Good(mode: Mode, n: Node) {
    && n.status.CurrentIsListed()
    && ActiveIsComplete(n.status)
    && FailedIsInactive(n.status)
    && (mode.Online? ==> OnlineRegistered(n))
    && (mode.Offline? ==> OfflineFailureIsTheCertificates(n.status) && RequestIsOut(n.status))
  }

  lemma {:induction false} OnlineRegisterKeepsGood(m: Mutation, n: Node)
    requires m.Register? && Good(Online, n) && Enabled(Online, m, n)
    ensures Good(Online, n.(status := Apply(Online, m, n.status)))
  {
    assert OnlineMode.BaseUrl(OnlineMode.Environment(m.devMode)) != "";
  }

  lemma {:induction false} OnlineRegisterErrorKeepsGood(m: Mutation, n: Node)
    requires m.FailRegister? && Good(Online, n) && Enabled(Online, m, n)
    ensures Good(Online, n.(status := Apply(Online, m, n.status)))
  {
    var s := n.status;
    if OnlineMode.NonRecoverable(Some(m.err)) {
      NonRecoverableRegisterError(s, m.err, m.phase, m.now);
    } else {
      RecoverableRegisterError(s, m.err, m.phase, m.now);
    }
  }

  /** A non-recoverable register error makes a failed, processed, unannounced registration. */
  lemma NonRecoverableRegisterError(s: Status, err: Fault, phase: nat, now: nat)
    requires OnlineMode.NonRecoverable(Some(err))
    ensures var r := OnlineMode.RegisterErrorReconciled(s, err, phase, now);
            && r.Is(Failure, Yes) && r.Is(Announced, No) && r.Is(SccUrlReady, No)
            && r.Is(Progressing, No) && r.Is(Ready, No)
            && !r.activated && r.processed == now && r.systemId == s.systemId
  {
  }

  /** A recoverable one makes an unannounced registration that is failed unless secrets were being prepared. */
  lemma RecoverableRegisterError(s: Status, err: Fault, phase: nat, now: nat)
    requires !OnlineMode.NonRecoverable(Some(err))
    ensures var r := OnlineMode.RegisterErrorReconciled(s, err, phase, now);
            && r.Is(Failure, if phase == OnlineMode.REGISTRATION_PREPARE then No else Yes)
            && r.Is(Progressing, No) && r.Is(Ready, No)
            && r.activated == s.activated && r.validated == s.validated
            && r.processed == s.processed && r.systemId == s.systemId
            && (phase <= OnlineMode.REGISTRATION_FOR_ACTIVATION ==> r.Is(Announced, No) && r.Is(SccUrlReady, No))
            && (phase > OnlineMode.REGISTRATION_FOR_ACTIVATION ==>
                  r.Find(Announced) == s.Find(Announced) && (Announced in r.marks <==> Announced in s.marks) &&
                  (SccUrlReady in r.marks <==> SccUrlReady in s.marks))
  {
  }

  /** A non-recoverable activation error fails an announced registration, and leaves its announcement alone. */
  lemma NonRecoverableActivateError(s: Status, err: Fault, now: nat)
    requires OnlineMode.NonRecoverable(Some(err))
    ensures var r := OnlineMode.ActivateErrorReconciled(s, Some(err), now);
            && r.Is(Failure, Yes) && r.Is(Activated, No) && r.Is(Progressing, No) && r.Is(Ready, No)
            && !r.activated && r.processed == now && r.systemId == s.systemId
            && (forall k :: k == Announced || k == SccUrlReady ==> (k in r.marks <==> k in s.marks) && r.Find(k) == s.Find(k))
  {
  }

  lemma {:induction false} OnlineActivateErrorKeepsGood(m: Mutation, n: Node)
    requires m.FailActivate? && Good(Online, n) && Enabled(Online, m, n)
    ensures Good(Online, n.(status := Apply(Online, m, n.status)))
  {
    if OnlineMode.NonRecoverable(m.fault) {
      NonRecoverableActivateError(n.status, m.fault.value, m.now);
    }
  }

  lemma OnlineActivationKeepsGood(m: Mutation, n: Node)
    requires m.Activate? && Good(Online, n) && Enabled(Online, m, n)
    ensures Good(Online, n.(status := Apply(Online, m, n.status)))
  {
  }

  lemma OnlineKeepaliveKeepsGood(m: Mutation, n: Node)
    requires m.Keep? && Good(Online, n) && Enabled(Online, m, n)
    ensures Good(Online, n.(status := Apply(Online, m, n.status)))
  {
  }

  lemma OnlineProgressKeepsGood(m: Mutation, n: Node)
    requires (m.Begin? || m.AttachSecret? || m.Reset?) && Good(Online, n) && Enabled(Online, m, n)
    ensures Good(Online, n.(status := Apply(Online, m, n.status)))
  {
  }

  lemma RequestErrorSpares(s: Status, reason: string, err: Fault, k: Kind)
    requires k != OfflineRequestReady
    ensures var r := s.Fail(OfflineRequestReady, reason, Some(err)).PointAt(OfflineRequestReady);
            r.Find(k) == s.Find(k) && (k in r.marks <==> k in s.marks)
  {
  }

  /** An offline register error touches the request condition only. */
  lemma {:induction false} OfflineRegisterErrorSpares(s: Status, err: Fault, phase: nat, k: Kind)
    requires k != OfflineRequestReady
    ensures var r := OfflineMode.RegisterErrorReconciled(s, err, phase);
            r.Find(k) == s.Find(k) && (k in r.marks <==> k in s.marks)
  {
    if phase == OnlineMode.REGISTRATION_INIT {
      RequestErrorSpares(s, "Failed to prepare Offline Request secret & ref", err, k);
    } else if phase == OnlineMode.REGISTRATION_MAIN {
      RequestErrorSpares(s, "Failed to update Offline Request secret", err, k);
    }
  }

  lemma RequestErrorKeepsGood(n: Node, r: Status)
    requires Good(Offline, n) && AwaitsRequest(n.status)
    requires r.CurrentIsListed() && r == n.status.(marks := r.marks, current := r.current)
    requires r.Find(Failure) == n.status.Find(Failure) && (Failure in r.marks <==> Failure in n.status.marks)
    ensures Good(Offline, n.(status := r))
  {
  }

  lemma OfflineRegisterErrorKeepsGood(m: Mutation, n: Node)
    requires m.FailRegister? && Good(Offline, n) && Enabled(Offline, m, n)
    ensures Good(Offline, n.(status := Apply(Offline, m, n.status)))
  {
    OfflineRegisterErrorSpares(n.status, m.err, m.phase, Failure);
    RequestErrorKeepsGood(n, OfflineMode.RegisterErrorReconciled(n.status, m.err, m.phase));
  }

  lemma OfflineActivateErrorKeepsGood(m: Mutation, n: Node)
    requires m.FailActivate? && Good(Offline, n) && Enabled(Offline, m, n)
    ensures Good(Offline, n.(status := Apply(Offline, m, n.status)))
  {
  }

  lemma OfflineActivationKeepsGood(m: Mutation, n: Node)
    requires m.Activate? && Good(Offline, n) && Enabled(Offline, m, n)
    ensures Good(Offline, n.(status := Apply(Offline, m, n.status)))
  {
  }

  lemma OfflineKeepaliveKeepsGood(m: Mutation, n: Node)
    requires m.Keep? && Good(Offline, n) && Enabled(Offline, m, n)
    ensures Good(Offline, n.(status := Apply(Offline, m, n.status)))
  {
  }

  lemma OfflineProgressKeepsGood(m: Mutation, n: Node)
    requires (m.Begin? || m.AttachSecret? || m.Register? || m.Reset?) && Good(Offline, n) && Enabled(Offline, m, n)
    ensures Good(Offline, n.(status := Apply(Offline, m, n.status)))
  {
  }

  lemma {:induction false} MutationKeepsGood(mode: Mode, m: Mutation, n: Node)
    requires Good(mode, n) && Enabled(mode, m, n)
    ensures Good(mode, n.(status := Apply(mode, m, n.status)))
  {
    if mode.Online? {
      match m {
        case Register(_, _, _) => OnlineRegisterKeepsGood(m, n);
        case FailRegister(_, _, _) => OnlineRegisterErrorKeepsGood(m, n);
        case FailActivate(_, _) => OnlineActivateErrorKeepsGood(m, n);
        case Activate(_, _) => OnlineActivationKeepsGood(m, n);
        case Keep(_) => OnlineKeepaliveKeepsGood(m, n);
        case _ => OnlineProgressKeepsGood(m, n);
      }
    } else {
      match m {
        case FailRegister(_, _, _) => OfflineRegisterErrorKeepsGood(m, n);
        case FailActivate(_, _) => OfflineActivateErrorKeepsGood(m, n);
        case Activate(_, _) => OfflineActivationKeepsGood(m, n);
        case Keep(_) => OfflineKeepaliveKeepsGood(m, n);
        case _ => OfflineProgressKeepsGood(m, n);
      }
    }
  }

  lemma {:induction false} EventKeepsGood(mode: Mode, n: Node, e: Event)
    requires Good(mode, n) && Allowed(mode, n, e)
    ensures Good(mode, After(n, e))
  {
    if e.StatusWritten? {
      var m :| Enabled(mode, m, n) && e.after == Apply(mode, m, e.before);
      MutationKeepsGood(mode, m, n);
    }
  }

  lemma {:induction false} FollowingKeepsGood(mode: Mode, start: Node, t: seq<Event>)
    requires Good(mode, start) && Follows(mode, start, t)
    ensures Good(mode, Fold(start, t))
  {
    if t != [] {
      FollowingKeepsGood(mode, start, t[..|t| - 1]);
      EventKeepsGood(mode, Fold(start, t[..|t| - 1]), t[|t| - 1]);
    }
  }

  /** Every status ever persisted satisfies the invariant, in both modes, whatever fails and whoever else writes. */
  lemma {:induction false} ReachableIsGood(spec: Spec, inputs: seq<Input>)
    requires TimesAreReal(inputs)
    ensures var w := Run(Created(spec), inputs);
            Good(spec.mode, Here(START, w)) && Here(START, w).status == w.stored.status && w.stored.spec.mode == spec.mode
  {
    RunIsSound(spec.mode, START, Created(spec), inputs);
    FollowingKeepsGood(spec.mode, START, Run(Created(spec), inputs).trace);
  }

  // ----- the fields of the other mode

  /** Each mode leaves the fields of the other one unset. */
  predicate Apart(mode: Mode, s: Status) {
    if mode.Online? then !s.requestRef
    else !s.credentialsRef && s.systemId.None? && s.systemUrl.None? && s.product.None? && s.expires == 0
  }

  lemma AddressingKeepsApart(s: Status, base: string)
    ensures var r := OnlineMode.RegisteredAt(s, base); r.Some? ==> r.value.requestRef == s.requestRef
  {
  }

  lemma PermanentErrorKeepsApart(s: Status, err: Fault, phase: nat, now: nat)
    requires OnlineMode.NonRecoverable(Some(err))
    ensures OnlineMode.RegisterErrorReconciled(s, err, phase, now).requestRef == s.requestRef
  {
  }

  lemma PassingErrorKeepsApart(s: Status, err: Fault, phase: nat, now: nat)
    requires !OnlineMode.NonRecoverable(Some(err))
    ensures OnlineMode.RegisterErrorReconciled(s, err, phase, now).requestRef == s.requestRef
  {
  }

  lemma {:induction false} RegisterErrorKeepsApart(s: Status, err: Fault, phase: nat, now: nat)
    ensures OnlineMode.RegisterErrorReconciled(s, err, phase, now).requestRef == s.requestRef
  {
    if OnlineMode.NonRecoverable(Some(err)) {
      PermanentErrorKeepsApart(s, err, phase, now);
    } else {
      PassingErrorKeepsApart(s, err, phase, now);
    }
  }

  lemma ActivateErrorKeepsApart(s: Status, err: Option<Fault>, now: nat)
    ensures OnlineMode.ActivateErrorReconciled(s, err, now).requestRef == s.requestRef
  {
  }

  lemma {:induction false} OnlineMutationKeepsApart(m: Mutation, s: Status)
    ensures Apply(Online, m, s).requestRef == s.requestRef
  {
    match m {
      case Register(id, devMode, _) =>
        AddressingKeepsApart(if id.Some? then s.(systemId := id) else s, OnlineMode.BaseUrl(OnlineMode.Environment(devMode)));
      case FailRegister(err, phase, now) => RegisterErrorKeepsApart(s, err, phase, now);
      case FailActivate(fault, now) => ActivateErrorKeepsApart(s, fault, now);
      case _ =>
    }
  }

  lemma OfflineMutationKeepsApart(m: Mutation, n: Node)
    requires Apart(Offline, n.status) && Enabled(Offline, m, n)
    ensures Apart(Offline, Apply(Offline, m, n.status))
  {
  }

  lemma {:induction false} MutationKeepsApart(mode: Mode, m: Mutation, n: Node)
    requires Apart(mode, n.status) && Enabled(mode, m, n)
    ensures Apart(mode, Apply(mode, m, n.status))
  {
    if mode.Online? {
      OnlineMutationKeepsApart(m, n.status);
    } else {
      OfflineMutationKeepsApart(m, n);
    }
  }

  lemma {:induction false} FollowingKeepsApart(mode: Mode, start: Node, t: seq<Event>)
    requires Apart(mode, start.status) && Follows(mode, start, t)
    ensures Apart(mode, Fold(start, t).status)
  {
    if t != [] {
      FollowingKeepsApart(mode, start, t[..|t| - 1]);
      var n, e := Fold(start, t[..|t| - 1]), t[|t| - 1];
      if e.StatusWritten? {
        var m :| Enabled(mode, m, n) && e.after == Apply(mode, m, e.before);
        MutationKeepsApart(mode, m, n);
      }
    }
  }

  /** No online registration ever has an offline request, and no offline one credentials, a system ID, its address, a
      product or an expiry. */
  lemma {:induction false} ModesKeepApart(spec: Spec, inputs: seq<Input>)
    requires TimesAreReal(inputs)
    ensures var s := Run(Created(spec), inputs).stored.status;
            if spec.mode.Online? then !s.requestRef
            else !s.credentialsRef && s.systemId.None? && s.systemUrl.None? && s.product.None? && s.expires == 0
  {
    RunIsSound(spec.mode, START, Created(spec), inputs);
    FollowingKeepsApart(spec.mode, START, Run(Created(spec), inputs).trace);
  }

  /** Offline a request is due exactly while the registration is unprocessed and has no certificate: once it has gone out,
      no error, reset or certificate makes it due again. */
  lemma {:induction false} RequestsGoOutOnce(spec: Spec, inputs: seq<Input>)
    requires spec.mode.Offline? && TimesAreReal(inputs)
    ensures var r := Run(Created(spec), inputs).stored;
            NeedsRegistration(r) <==> r.status.processed == 0 && r.spec.certificate.None?
  {
    ReachableIsGood(spec, inputs);
  }
}
