/** What it takes to be announced, active or validated: an acceptance that the very call has heard. Stated on what the
    outside answers, for every reachable registration of both modes, whatever the API server does. */
module Refusals {
  import opened Wrappers
  import opened Conditions
  import opened Registrations
  import opened ApiServer
  import opened Reconciliation
  import opened Automaton
  import opened Reachability
  import Lifecycle
  import OnlineMode
  import OfflineMode

  // ----- what the branches can leave behind

  /** As far as it was: neither announced, nor activated, nor validated in between. */
  predicate AsFar(s: Status, t: Status) {
    t.activated == s.activated && t.validated == s.validated && t.processed == s.processed && t.systemId == s.systemId
  }

  lemma {:induction false} BeginningGoesNowhere(w: World, obj: Record, tries: nat)
    requires obj.version <= w.stored.version && AsFar(w.stored.status, obj.status)
    ensures AsFar(w.stored.status, BeginRegistration(w, obj, tries).world.stored.status)
    decreases tries
  {
    var updated := obj.(status := Apply(obj.spec.mode, Begin, obj.status));
    UpdateStatusOutcome(w, updated);
    var put := UpdateStatus(w, updated);
    if put.error.Conflict? && tries > 1 {
      BeginningGoesNowhere(put.world, updated, tries - 1);
    }
  }

  lemma {:induction false} FailingAnnouncesNothing(mode: Mode, s: Status, f: Fault, phase: nat, now: nat)
    ensures var r := Apply(mode, FailRegister(f, phase, now), s);
            r.systemId == s.systemId && (r.activated ==> s.activated) && (mode.Offline? ==> r.processed == s.processed)
  {
    if mode.Online? {
      if OnlineMode.NonRecoverable(Some(f)) {
        NonRecoverableRegisterError(s, f, phase, now);
      } else {
        RecoverableRegisterError(s, f, phase, now);
      }
    }
  }

  /** Nothing got activated, a system ID that was not there is the one SCC handed out with saved credentials, and offline
      the registration is processed if its request was saved. */
  predicate AnnouncedAtMost(mode: Mode, s: Status, t: Status, a: Answers) {
    && (t.activated ==> s.activated)
    && (s.systemId.None? ==> t.systemId.None? || RegistrationAccepted(a, t.systemId))
    && (mode.Offline? && a.requestSaved.Some? ==> t.processed == s.processed)
  }

  predicate RegistrationAccepted(a: Answers, id: Option<int>) {
    a.refresh.None? && a.register.Ok? && a.credentialsSave.Saved? && id == Some(a.register.value)
  }

  lemma {:induction false} RegisterErrorAnnouncesNothing(w: World, mode: Mode, f: Fault, phase: nat, a: Answers, steps: nat)
    ensures AnnouncedAtMost(mode, w.stored.status,
                            ReconcileError(w, mode, FailRegister(f, phase, a.now), steps).world.stored.status, a)
  {
    ReconcileErrorWrites(w, mode, FailRegister(f, phase, a.now), steps);
    FailingAnnouncesNothing(mode, w.stored.status, f, phase, a.now);
  }

  lemma AddressingKeepsTheRest(s: Status, base: string)
    ensures var r := OnlineMode.RegisteredAt(s, base);
            r.Some? ==> r.value.activated == s.activated && r.value.systemId == s.systemId
  {
  }

  lemma {:induction false} RegisteringKeepsTheRest(mode: Mode, toSet: Option<int>, devMode: bool, now: nat, s: Status)
    ensures var r := Apply(mode, Register(toSet, devMode, now), s);
            r.activated == s.activated && (r.systemId == s.systemId || (toSet.Some? && r.systemId == toSet))
  {
    var named := if toSet.Some? then s.(systemId := toSet) else s;
    AddressingKeepsTheRest(named, OnlineMode.BaseUrl(OnlineMode.Environment(devMode)));
  }

  lemma {:induction false} FinishingAnnounces(w: World, obj: Record, id: int, a: Answers)
    requires obj.spec.mode.Online? ==> obj.status.systemId.None?
    requires obj.spec.mode.Offline? ==> a.requestSaved.None?
    requires id == OFFLINE_SYSTEM_ID || id == KEEPALIVE_SYSTEM_ID || RegistrationAccepted(a, Some(id))
    ensures AnnouncedAtMost(obj.spec.mode, w.stored.status, FinishAnnounce(w, obj, w.stored, id, a).world.stored.status, a)
  {
    var call := SystemIdToSet(id, obj.status);
    if call.Answer? {
      var f := Fault(None, "SCC system ID cannot be empty when preparing registered system");
      RegisterErrorAnnouncesNothing(w, obj.spec.mode, f, OnlineMode.REGISTRATION_FOR_ACTIVATION, a, RETRY_STEPS);
      var m := Register(call.value, a.devMode, a.now);
      RegisteringKeepsTheRest(obj.spec.mode, call.value, a.devMode, a.now, w.stored.status);
      UpdateStatusOutcome(w, w.stored.(status := Apply(obj.spec.mode, m, w.stored.status)));
    }
  }

  lemma {:induction false} RegisteringAnnounces(w: World, obj: Record, a: Answers)
    requires obj.spec.mode == w.stored.spec.mode && (obj.spec.mode.Online? ==> obj.status.systemId.None?)
    ensures AnnouncedAtMost(obj.spec.mode, w.stored.status, RegisterSystem(w, obj, w.stored, a).world.stored.status, a)
  {
    var v := w.(vault := VaultAfterRegister(w.stored.spec, w.vault, a));
    match CallRegister(w.stored.spec, w.vault, a) {
      case Nil =>
      case Error(f) =>
        RegisterErrorAnnouncesNothing(v.Log(RegisterCalled(false)), obj.spec.mode, f, OnlineMode.REGISTRATION_MAIN, a, RETRY_STEPS);
      case Answer(id) => FinishingAnnounces(v.Log(RegisterCalled(true)), obj, id, a);
    }
  }

  lemma {:induction false} AnnouncingAnnounces(w: World, a: Answers)
    requires w.stored.spec.mode.Online? ==> w.stored.status.systemId.None?
    ensures AnnouncedAtMost(w.stored.spec.mode, w.stored.status, Announce(w, w.stored, a).world.stored.status, a)
  {
    var obj := w.stored;
    var v := WithSecret(w, obj, a);
    if MustAttach(obj) && !a.initSecret.Saved? {
      RegisterErrorAnnouncesNothing(v, obj.spec.mode, a.initSecret.fault, OnlineMode.REGISTRATION_PREPARE, a, RETRY_STEPS);
    } else {
      UpdateStatusOutcome(v, Prepared(obj));
      var put := UpdateStatus(v, Prepared(obj));
      if put.error.NoError? {
        RegisteringAnnounces(put.world, obj, a);
      }
    }
  }

  // ----- activation

  lemma FailingActivatesNothing(mode: Mode, s: Status, fault: Option<Fault>, now: nat)
    ensures Apply(mode, FailActivate(fault, now), s).activated ==> s.activated
    ensures Apply(mode, FailActivate(fault, now), s).systemId == s.systemId
  {
  }

  /** A refused activation is an error, and activates nothing. */
  lemma {:induction false} RefusedActivationErrs(w: World, mode: Mode, call: Call<()>, a: Answers)
    requires !call.Answer?
    ensures var r := FinishActivation(w, mode, call, a);
            (r.world.stored.status.activated ==> w.stored.status.activated) && (call.Error? ==> r.verdict.Errored?)
  {
    if call.Error? {
      ReconcileErrorWrites(w.Log(ActivateCalled(false)), mode, FailActivate(Some(call.fault), a.now), RETRY_STEPS);
      FailingActivatesNothing(mode, w.stored.status, Some(call.fault), a.now);
    }
  }

  lemma ActivatingActivates(mode: Mode, sub: OnlineMode.Subscription, now: nat, s: Status)
    ensures Apply(mode, Activate(sub, now), s).activated && Apply(mode, Activate(sub, now), s).systemId == s.systemId
  {
  }

  /** One round of the activation loop: if it succeeds it has stored an active registration. */
  lemma {:induction false} SavingOnceActivates(w: World, mode: Mode, sub: OnlineMode.Subscription, a: Answers)
    ensures var put := UpdateStatus(w, w.stored.(status := Apply(mode, Activate(sub, a.now), w.stored.status)));
            && (put.error.NoError? ==> put.world.stored.status.activated)
            && put.world.stored.status.systemId == w.stored.status.systemId
  {
    ActivatingActivates(mode, sub, a.now, w.stored.status);
    UpdateStatusOutcome(w, w.stored.(status := Apply(mode, Activate(sub, a.now), w.stored.status)));
  }

  lemma {:induction false} SavedMeansActive(w: World, mode: Mode, a: Answers, tries: nat)
    ensures var r := SaveActivation(w, mode, a, tries); r.error.NoError? ==> r.world.stored.status.activated
    ensures var r := SaveActivation(w, mode, a, tries); r.world.stored.status.systemId == w.stored.status.systemId
    decreases tries
  {
    var got := Get(w);
    GetIsIdle(w);
    if got.error.NoError? {
      var sub := Subscribed(mode, a, tries);
      var next: World;
      if sub.None? {
        next := ReconcileError(got.world, mode, FailActivate(None, a.now), RETRY_STEPS).world;
        ReconcileErrorWrites(got.world, mode, FailActivate(None, a.now), RETRY_STEPS);
        FailingActivatesNothing(mode, got.world.stored.status, None, a.now);
      } else {
        next := UpdateStatus(got.world, got.record.(status := Apply(mode, Activate(sub.value, a.now), got.record.status))).world;
        SavingOnceActivates(got.world, mode, sub.value, a);
      }
      if tries > 1 {
        SavedMeansActive(next, mode, a, tries - 1);
      }
    }
  }

  // ----- validation

  /** A keepalive changes nothing unless it was answered, and then it leaves its time. */
  lemma {:induction false} KeepaliveValidates(w: World, mode: Mode, call: Call<()>, a: Answers)
    ensures var s := FinishKeepalive(w, mode, call, a).world.stored.status;
            s == w.stored.status ||
            (call.Answer? && (mode.Offline? ==> a.requestSaved.None?) &&
             s.activated && s.validated == a.now && s.systemId == w.stored.status.systemId)
  {
    match call {
      case Nil =>
      case Error(f) => SaveKeepaliveErrorIsIdle(mode, w, f, a, RETRY_STEPS);
      case Answer(_) =>
        SaveKeepaliveWrites(w, mode, a, RETRY_STEPS);
        if mode.Offline? && a.requestSaved.Some? {
          GetIsIdle(w);
        }
    }
  }

  lemma {:induction false} StoreTwiceWrites(w: World, obj: Record)
    requires obj.version == w.stored.version
    ensures var s := StoreTwice(w, obj).world.stored.status;
            s == UpdateStatus(w, obj).world.stored.status && (s == w.stored.status || s == obj.status)
  {
    UpdateStatusOutcome(w, obj);
    var put := UpdateStatus(w, obj);
    if put.error.NoError? {
      UpdateIsIdle(put.world, put.record);
    }
  }

  lemma {:induction false} ResettingClears(w: World, obj: Record, a: Answers)
    requires obj.version == w.stored.version && obj.status.systemId == w.stored.status.systemId
    ensures var s := ResetRegistration(w, obj, a).world.stored.status;
            s == w.stored.status ||
            (!s.activated && s.validated == 0 && s.systemId == w.stored.status.systemId && s.processed == obj.status.processed)
  {
    StoreTwiceWrites(w, obj.(status := Apply(obj.spec.mode, Reset, obj.status)));
  }

  // ----- offline, the changes themselves

  lemma ActivatingChangesKeepProcessed(m: Mutation, s: Status)
    requires m.Activate? || m.Keep? || m.FailActivate?
    ensures Apply(Offline, m, s).processed == s.processed
  {
  }

  /** The status is one activating change of the one before, or the same. */
  predicate OneChange(before: Status, after: Status, m: Mutation) {
    after == before || after == Apply(Offline, m, before)
  }

  lemma {:induction false} OfflineActivationWrites(w: World, call: Call<()>, a: Answers) returns (m: Mutation)
    ensures m == if call.Error? then FailActivate(Some(call.fault), a.now) else Activate(OnlineMode.Subscription(0, ""), a.now)
    ensures call.Nil? ==> FinishActivation(w, Offline, call, a).world == w
    ensures OneChange(w.stored.status, FinishActivation(w, Offline, call, a).world.stored.status, m)
  {
    m := Activate(OnlineMode.Subscription(0, ""), a.now);
    match call {
      case Nil =>
      case Error(f) =>
        m := FailActivate(Some(f), a.now);
        ReconcileErrorWrites(w.Log(ActivateCalled(false)), Offline, m, RETRY_STEPS);
      case Answer(_) => SaveOfflineActivationWrites(w.Log(ActivateCalled(true)), a, RETRY_STEPS);
    }
  }

  lemma {:induction false} OfflineKeepaliveWrites(w: World, call: Call<()>, a: Answers)
    ensures OneChange(w.stored.status, FinishKeepalive(w, Offline, call, a).world.stored.status, Keep(a.now))
  {
    match call {
      case Nil =>
      case Error(f) => SaveKeepaliveErrorIsIdle(Offline, w, f, a, RETRY_STEPS);
      case Answer(_) => SaveKeepaliveWrites(w, Offline, a, RETRY_STEPS);
    }
  }

  // ----- one call

  /** The outside let the activation through: SCC online, the certificate offline. */
  predicate ActivationAccepted(r: Record, vault: Vault, a: Answers) {
    if r.spec.mode.Offline? then a.certificate.Valid?
    else !vault.Absent? && a.refresh.None? && r.spec.request.Some? && a.activate.None?
  }

  predicate KeepaliveAccepted(r: Record, vault: Vault, a: Answers) {
    if r.spec.mode.Offline? then a.certificate.Valid? && !(0 < r.status.expires < a.now)
    else !vault.Absent? && a.refresh.None? && r.spec.request.Some? && a.keepalive.None?
  }

  lemma ActivationIsAnsweredExactly(r: Record, vault: Vault, a: Answers)
    ensures CallActivate(r.spec, vault, a).Answer? <==> ActivationAccepted(r, vault, a)
    ensures CallActivate(r.spec, vault, a).Nil? ==>
              r.spec.mode.Online? && !vault.Absent? && a.refresh.None? && r.spec.request.None?
  {
  }

  lemma KeepaliveIsAnsweredExactly(r: Record, vault: Vault, a: Answers)
    ensures CallKeepalive(r, vault, a).Answer? <==> KeepaliveAccepted(r, vault, a)
  {
  }

  /** What the call on an inactive registration needs in order to leave it active. */
  lemma {:induction false} CallActivatesIfAccepted(w: World, a: Answers)
    requires Good(w.stored.spec.mode, Node(w.stored.status, true, true)) && !w.stored.status.activated
    ensures OnRegistrationChange(w, w.stored, a).world.stored.status.activated ==>
              ActivationAccepted(w.stored, w.vault, a)
  {
    var obj := w.stored;
    BeginningGoesNowhere(w, obj, RETRY_STEPS);
    if NeedsRegistration(obj) {
      AnnouncingAnnounces(w, a);
    } else if NeedsActivation(obj) {
      ActivationIsAnsweredExactly(obj, w.vault, a);
      var call := CallActivate(obj.spec, w.vault, a);
      if !call.Answer? {
        RefusedActivationErrs(w, obj.spec.mode, call, a);
      }
    } else {
      KeepaliveIsAnsweredExactly(obj, w.vault, a);
      KeepaliveValidates(w, obj.spec.mode, CallKeepalive(obj, w.vault, a), a);
    }
    ResettingClears(w, obj, a);
    ResettingClears(w, obj.(spec := obj.spec.WithoutSyncNow()), a);
  }

  /** What the call on a registration without a system ID needs in order to give it one. */
  lemma {:induction false} CallAnnouncesIfAccepted(w: World, a: Answers)
    requires Good(w.stored.spec.mode, Node(w.stored.status, true, true)) && w.stored.status.systemId.None?
    ensures var id := OnRegistrationChange(w, w.stored, a).world.stored.status.systemId;
            id.Some? ==> RegistrationAccepted(a, id)
  {
    var obj := w.stored;
    BeginningGoesNowhere(w, obj, RETRY_STEPS);
    if NeedsRegistration(obj) {
      AnnouncingAnnounces(w, a);
    } else if NeedsActivation(obj) {
      ActivatingKeepsTheSystem(w, obj.spec.mode, CallActivate(obj.spec, w.vault, a), a);
    } else {
      KeepaliveValidates(w, obj.spec.mode, CallKeepalive(obj, w.vault, a), a);
    }
    ResettingClears(w, obj, a);
    ResettingClears(w, obj.(spec := obj.spec.WithoutSyncNow()), a);
  }

  lemma {:induction false} ActivatingKeepsTheSystem(w: World, mode: Mode, call: Call<()>, a: Answers)
    ensures FinishActivation(w, mode, call, a).world.stored.status.systemId == w.stored.status.systemId
    ensures FinishActivation(w, mode, call, a).verdict.Finished? ==>
              call.Answer? && FinishActivation(w, mode, call, a).world.stored.status.activated
  {
    match call {
      case Nil =>
      case Error(f) =>
        ReconcileErrorWrites(w.Log(ActivateCalled(false)), mode, FailActivate(Some(f), a.now), RETRY_STEPS);
        FailingActivatesNothing(mode, w.stored.status, Some(f), a.now);
      case Answer(_) => SavedMeansActive(w.Log(ActivateCalled(true)), mode, a, RETRY_STEPS);
    }
  }

  /** The validation time of an active registration moves only to zero, or to the time of an answered keepalive. */
  lemma {:induction false} CallValidatesIfAccepted(w: World, a: Answers)
    requires Good(w.stored.spec.mode, Node(w.stored.status, true, true)) && w.stored.status.activated
    ensures var t := OnRegistrationChange(w, w.stored, a).world.stored.status.validated;
            t == w.stored.status.validated || t == 0 || (t == a.now &&
              if w.stored.spec.mode.Online? || w.stored.status.processed != 0 then
                KeepaliveAccepted(w.stored, w.vault, a) && (w.stored.spec.mode.Offline? ==> a.requestSaved.None?)
              else a.certificate.Valid?)
  {
    var obj := w.stored;
    BeginningGoesNowhere(w, obj, RETRY_STEPS);
    if NeedsPreprocess(obj) {
    } else if NeedsActivation(obj) {
      ReactivatingValidates(w, CallActivate(obj.spec, w.vault, a), a);
      ActivationIsAnsweredExactly(obj, w.vault, a);
    } else {
      KeepaliveIsAnsweredExactly(obj, w.vault, a);
      KeepaliveValidates(w, obj.spec.mode, CallKeepalive(obj, w.vault, a), a);
    }
    ResettingClears(w, obj, a);
    ResettingClears(w, obj.(spec := obj.spec.WithoutSyncNow()), a);
  }

  lemma FailingValidatesNothing(s: Status, fault: Option<Fault>, now: nat)
    ensures Apply(Offline, FailActivate(fault, now), s).validated == s.validated
  {
  }

  /** Offline an active registration that was never processed is activated again. */
  lemma {:induction false} ReactivatingValidates(w: World, call: Call<()>, a: Answers)
    ensures var t := FinishActivation(w, Offline, call, a).world.stored.status.validated;
            t == w.stored.status.validated || (t == a.now && call.Answer?)
  {
    var m := OfflineActivationWrites(w, call, a);
    if m.FailActivate? {
      FailingValidatesNothing(w.stored.status, m.fault, m.now);
    }
  }

  /** Offline an unprocessed registration gets processed only when its request is saved. */
  lemma {:induction false} CallProcessesIfSaved(w: World, a: Answers)
    requires w.stored.spec.mode.Offline? && w.stored.status.processed == 0 && a.requestSaved.Some?
    ensures OnRegistrationChange(w, w.stored, a).world.stored.status.processed == 0
  {
    var obj := w.stored;
    ResettingClears(w, obj, a);
    ResettingClears(w, obj.(spec := obj.spec.WithoutSyncNow()), a);
    if NeedsPreprocess(obj) {
    } else if NeedsRegistration(obj) {
      BeginningGoesNowhere(w, obj, RETRY_STEPS);
      AnnouncingAnnounces(w, a);
    } else if NeedsActivation(obj) {
      var m := OfflineActivationWrites(w, CallActivate(obj.spec, w.vault, a), a);
      ActivatingChangesKeepProcessed(m, obj.status);
    } else {
      OfflineKeepaliveWrites(w, CallKeepalive(obj, w.vault, a), a);
      ActivatingChangesKeepProcessed(Keep(a.now), obj.status);
    }
  }

  /** What takes the activation away again: SyncNow, a certificate that is gone, or one that a second activation refused. */
  predicate DeactivationHasAReason(r: Record, a: Answers) {
    if r.spec.mode.Online? then Lifecycle.NeedsSyncNow(r.spec)
    else (a.removal.None? && (r.spec.certificate.None? || (Lifecycle.NeedsSyncNow(r.spec) && a.requestSaved.None?))) ||
         (r.status.processed == 0 && !a.certificate.Valid?)
  }

  lemma {:induction false} CallDeactivatesWithReason(w: World, a: Answers)
    requires Good(w.stored.spec.mode, Node(w.stored.status, true, true)) && w.stored.status.activated
    ensures OnRegistrationChange(w, w.stored, a).world.stored.status.activated || DeactivationHasAReason(w.stored, a)
  {
    var obj := w.stored;
    if NeedsPreprocess(obj) {
    } else if NeedsActivation(obj) {
      ActivationIsAnsweredExactly(obj, w.vault, a);
      if a.certificate.Valid? {
        ReactivatingStaysActive(w, CallActivate(obj.spec, w.vault, a), a);
      }
    } else {
      KeepaliveValidates(w, obj.spec.mode, CallKeepalive(obj, w.vault, a), a);
    }
    BeginningGoesNowhere(w, obj, RETRY_STEPS);
  }

  lemma {:induction false} ReactivatingStaysActive(w: World, call: Call<()>, a: Answers)
    requires w.stored.status.activated && !call.Error?
    ensures FinishActivation(w, Offline, call, a).world.stored.status.activated
  {
    if call.Answer? {
      SaveOfflineActivationWrites(w.Log(ActivateCalled(true)), a, RETRY_STEPS);
    }
  }

  // ----- reachable registrations

  /** No activation without acceptance: whatever the server does, a call leaves an inactive registration active only if
      its credentials loaded and SCC let the activation of that very call through; offline, only if the certificate is
      valid. */
  lemma {:induction false} NoActivationWithoutAcceptance(spec: Spec, inputs: seq<Input>, last: Input)
    requires TimesAreReal(inputs)
    ensures var u, a := Before(Run(Created(spec), inputs), last), last.answers;
            !u.stored.status.activated && OnRegistrationChange(u, u.stored, a).world.stored.status.activated ==>
              if spec.mode.Offline? then a.certificate.Valid?
              else !u.vault.Absent? && a.refresh.None? && u.stored.spec.request.Some? && a.activate.None?
  {
    ReachableIsGood(spec, inputs);
    var u := Before(Run(Created(spec), inputs), last);
    if !u.stored.status.activated {
      CallActivatesIfAccepted(u, last.answers);
    }
  }

  /** Nothing stands between the registration and its activation. */
  predicate ActivationIsDue(r: Record, a: Answers) {
    && a.serverUrl && a.metrics && !r.status.Is(Failure, Yes)
    && (if r.spec.mode.Online? then r.status.processed != 0 && !r.status.activated
        else r.spec.certificate.Some? && r.status.requestRef && (r.status.processed == 0 || !r.status.activated))
  }

  /** When the activation is due, a refusal makes the call end in an error; and a call that ends without one was
      accepted and has stored an active registration. */
  lemma {:induction false} ARefusalIsAnError(spec: Spec, inputs: seq<Input>, last: Input)
    requires TimesAreReal(inputs)
    requires ActivationIsDue(Before(Run(Created(spec), inputs), last).stored, last.answers)
    ensures var u, a := Before(Run(Created(spec), inputs), last), last.answers;
            var refused := if spec.mode.Offline? then !a.certificate.Valid?
                           else u.vault.Absent? || a.refresh.Some? || (u.stored.spec.request.Some? && a.activate.Some?);
            refused ==> OnRegistrationChange(u, u.stored, a).verdict.Errored?
    ensures var u, a := Before(Run(Created(spec), inputs), last), last.answers;
            var r := OnRegistrationChange(u, u.stored, a);
            r.verdict.Finished? ==> ActivationAccepted(u.stored, u.vault, a) && r.world.stored.status.activated
  {
    ReachableIsGood(spec, inputs);
    var u := Before(Run(Created(spec), inputs), last);
    ADueActivationIsTried(u, last.answers);
    ActivationIsAnsweredExactly(u.stored, u.vault, last.answers);
    var call := CallActivate(u.stored.spec, u.vault, last.answers);
    ActivatingKeepsTheSystem(u, spec.mode, call, last.answers);
    if !call.Answer? {
      RefusedActivationErrs(u, spec.mode, call, last.answers);
    }
  }

  lemma ADueActivationIsTried(w: World, a: Answers)
    requires Good(w.stored.spec.mode, Node(w.stored.status, true, true)) && ActivationIsDue(w.stored, a)
    ensures OnRegistrationChange(w, w.stored, a) == FinishActivation(w, w.stored.spec.mode, CallActivate(w.stored.spec, w.vault, a), a)
  {
  }

  /** No announcement without acceptance: a system ID appears only when SCC accepted the registration in that very call
      and its credentials were saved, and then it is the one SCC gave out. */
  lemma {:induction false} NoAnnouncementWithoutAcceptance(spec: Spec, inputs: seq<Input>, last: Input)
    requires spec.mode.Online? && TimesAreReal(inputs)
    ensures var u, a := Before(Run(Created(spec), inputs), last), last.answers;
            var s := OnRegistrationChange(u, u.stored, a).world.stored.status;
            u.stored.status.systemId.None? && s.systemId.Some? ==>
              a.refresh.None? && a.register == Ok(s.systemId.value) && a.credentialsSave.Saved?
  {
    ReachableIsGood(spec, inputs);
    var u := Before(Run(Created(spec), inputs), last);
    if u.stored.status.systemId.None? {
      CallAnnouncesIfAccepted(u, last.answers);
    }
  }

  /** No validation without acceptance: the validation time of an active registration moves to the time of a call whose
      keepalive was answered, or, when it is reset, to zero. */
  lemma {:induction false} NoValidationWithoutAcceptance(spec: Spec, inputs: seq<Input>, last: Input)
    requires TimesAreReal(inputs)
    ensures var u, a := Before(Run(Created(spec), inputs), last), last.answers;
            var t := OnRegistrationChange(u, u.stored, a).world.stored.status.validated;
            u.stored.status.activated && t != u.stored.status.validated && t != 0 ==>
              t == a.now &&
              if spec.mode.Offline? then
                a.certificate.Valid? &&
                (u.stored.status.processed != 0 ==> !(0 < u.stored.status.expires < a.now) && a.requestSaved.None?)
              else !u.vault.Absent? && a.refresh.None? && u.stored.spec.request.Some? && a.keepalive.None?
  {
    ReachableIsGood(spec, inputs);
    var u := Before(Run(Created(spec), inputs), last);
    if u.stored.status.activated {
      CallValidatesIfAccepted(u, last.answers);
    }
  }

  /** No deactivation without a reason: an active registration stays active, unless SyncNow asks for a reset or, offline,
      its certificate is gone, or was refused while the registration had never been processed. */
  lemma {:induction false} NoDeactivationWithoutAReason(spec: Spec, inputs: seq<Input>, last: Input)
    requires TimesAreReal(inputs)
    ensures var u, a := Before(Run(Created(spec), inputs), last), last.answers;
            u.stored.status.activated && !OnRegistrationChange(u, u.stored, a).world.stored.status.activated ==>
              u.stored.spec.syncNow == Some(true) ||
              (spec.mode.Offline? && (u.stored.spec.certificate.None? || (u.stored.status.processed == 0 && !a.certificate.Valid?)))
  {
    ReachableIsGood(spec, inputs);
    var u := Before(Run(Created(spec), inputs), last);
    if u.stored.status.activated {
      CallDeactivatesWithReason(u, last.answers);
    }
  }

  lemma {:induction false} HandlingRefused(w: World, i: Input)
    requires w.stored.spec.mode.Online? && Good(Online, Node(w.stored.status, true, true))
    ensures !w.stored.status.activated && i.answers.activate.Some? ==> !Handle(w, i).stored.status.activated
    ensures w.stored.status.systemId.None? && (i.answers.register.Err? || !i.answers.credentialsSave.Saved?) ==>
              Handle(w, i).stored.status.systemId.None?
  {
    var u := Before(w, i);
    if !u.stored.status.activated {
      CallActivatesIfAccepted(u, i.answers);
    }
    if u.stored.status.systemId.None? {
      CallAnnouncesIfAccepted(u, i.answers);
    }
  }

  /** Over whole runs: an SCC that refuses every activation never makes a registration active. */
  lemma {:induction false} NeverActiveWhenRefused(spec: Spec, inputs: seq<Input>)
    requires spec.mode.Online? && TimesAreReal(inputs) && forall i :: i in inputs ==> i.answers.activate.Some?
    ensures !Run(Created(spec), inputs).stored.status.activated
  {
    if inputs != [] {
      assert inputs[|inputs| - 1] in inputs;
      NeverActiveWhenRefused(spec, inputs[..|inputs| - 1]);
      ReachableIsGood(spec, inputs[..|inputs| - 1]);
      HandlingRefused(Run(Created(spec), inputs[..|inputs| - 1]), inputs[|inputs| - 1]);
    }
  }

  lemma {:induction false} NoSystemWhenRefused(spec: Spec, inputs: seq<Input>)
    requires spec.mode.Online? && TimesAreReal(inputs)
    requires forall i :: i in inputs ==> i.answers.register.Err? || !i.answers.credentialsSave.Saved?
    ensures Run(Created(spec), inputs).stored.status.systemId.None?
  {
    if inputs != [] {
      assert inputs[|inputs| - 1] in inputs;
      NoSystemWhenRefused(spec, inputs[..|inputs| - 1]);
      ReachableIsGood(spec, inputs[..|inputs| - 1]);
      HandlingRefused(Run(Created(spec), inputs[..|inputs| - 1]), inputs[|inputs| - 1]);
    }
  }

  /** And one that refuses every registration never gives it a system ID: it is neither announced nor active. */
  lemma {:induction false} NeverAnnouncedWhenRefused(spec: Spec, inputs: seq<Input>)
    requires spec.mode.Online? && TimesAreReal(inputs)
    requires forall i :: i in inputs ==> i.answers.register.Err? || !i.answers.credentialsSave.Saved?
    ensures var s := Run(Created(spec), inputs).stored.status; s.systemId.None? && !s.Is(Announced, Yes) && !s.activated
  {
    NoSystemWhenRefused(spec, inputs);
    ReachableIsGood(spec, inputs);
  }
}
