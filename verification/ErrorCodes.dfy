/** Which answers of SCC end a registration for good, code by code: on every reachable status, and through a whole call. */
module ErrorCodes {
  import opened Wrappers
  import opened Conditions
  import opened Registrations
  import opened ApiServer
  import opened Reconciliation
  import opened Automaton
  import opened Reachability
  import opened Simulation
  import opened Progress
  import opened Refusals
  import Lifecycle
  import OnlineMode
  import OfflineMode

  // ----- every reachable status

  /** A refused activation fails an announced registration exactly for the client errors other than 429 and for 501, 505
      and 510; any other error, and one that carries no code, leaves the status exactly as it is. */
  lemma {:induction false} RefusedActivationFailsExactly(spec: Spec, inputs: seq<Input>, err: Fault, now: nat)
    requires spec.mode.Online? && TimesAreReal(inputs) && PhaseOf(Run(Created(spec), inputs).stored.status) == PhaseAnnounced
    ensures var s := Run(Created(spec), inputs).stored.status;
            var r := OnlineMode.ActivateErrorReconciled(s, Some(err), now);
            && (PhaseOf(r) == PhaseFailed <==>
                  exists c :: err.code == Some(c) && ((400 <= c <= 499 && c != 429) || c in {501, 505, 510}))
            && (PhaseOf(r) == PhaseFailed || r == s)
            && (PhaseOf(r) == PhaseFailed ==> r.processed == now && r.validated == now && !r.activated &&
                                              r.current == Some(Activated) &&
                                              r.Is(Activated, No) && r.Find(Activated).message == err.text)
  {
    ActivationErrorFailsExactly(Run(Created(spec), inputs).stored.status, err, now);
  }

  lemma ActivationErrorFailsExactly(s: Status, err: Fault, now: nat)
    requires PhaseOf(s) == PhaseAnnounced
    ensures var r := OnlineMode.ActivateErrorReconciled(s, Some(err), now);
            && (PhaseOf(r) == PhaseFailed <==>
                  exists c :: err.code == Some(c) && ((400 <= c <= 499 && c != 429) || c in {501, 505, 510}))
            && (PhaseOf(r) == PhaseFailed || r == s)
            && (PhaseOf(r) == PhaseFailed ==> r.processed == now && r.validated == now && !r.activated &&
                                              r.current == Some(Activated) &&
                                              r.Is(Activated, No) && r.Find(Activated).message == err.text)
  {
  }

  /** A refused registration always fails the status, but only the same codes stamp it as processed, which ends the retries;
      after any other error the announcement is still due. */
  lemma {:induction false} RefusedRegistrationEndsExactly(spec: Spec, inputs: seq<Input>, err: Fault, now: nat)
    requires spec.mode.Online? && TimesAreReal(inputs) && PhaseOf(Run(Created(spec), inputs).stored.status) == PhaseStarting
    requires now > 0
    ensures var s := Run(Created(spec), inputs).stored.status;
            var r := OnlineMode.RegisterErrorReconciled(s, err, OnlineMode.REGISTRATION_MAIN, now);
            && PhaseOf(r) == PhaseFailed && r.Is(Announced, No) && r.Is(Activated, No) && r.systemId.None? && !r.activated
            && (r.processed == now <==>
                  exists c :: err.code == Some(c) && ((400 <= c <= 499 && c != 429) || c in {501, 505, 510}))
            && (r.processed == now || r.processed == 0)
            && (r.processed == now ==> r.current == Some(Announced) && r.Find(Announced).message == err.text)
            && (r.processed == 0 ==> r.current == Some(Failure) && r.Find(Failure).message == err.text && r.validated == 0)
  {
    ReachableIsGood(spec, inputs);
    RegisterErrorEndsExactly(Run(Created(spec), inputs).stored.status, err, now);
  }

  lemma {:induction false} RegisterErrorEndsExactly(s: Status, err: Fault, now: nat)
    requires s.processed == 0 && s.validated == 0 && s.systemId.None? && !s.activated && now > 0
    ensures var r := OnlineMode.RegisterErrorReconciled(s, err, OnlineMode.REGISTRATION_MAIN, now);
            && r.Is(Failure, Yes) && r.Is(Announced, No) && r.Is(Activated, No) && r.systemId.None? && !r.activated
            && (r.processed == now <==>
                  exists c :: err.code == Some(c) && ((400 <= c <= 499 && c != 429) || c in {501, 505, 510}))
            && (r.processed == now || r.processed == 0)
            && (r.processed == now ==> r.current == Some(Announced) && r.Find(Announced).message == err.text)
            && (r.processed == 0 ==> r.current == Some(Failure) && r.Find(Failure).message == err.text && r.validated == 0)
  {
    if OnlineMode.NonRecoverable(Some(err)) {
      PermanentRegisterError(s, err, now);
    } else {
      PassingRegisterError(s, err, now);
    }
  }

  lemma PermanentRegisterError(s: Status, err: Fault, now: nat)
    requires OnlineMode.NonRecoverable(Some(err))
    ensures var r := OnlineMode.RegisterErrorReconciled(s, err, OnlineMode.REGISTRATION_MAIN, now);
            && r.Is(Failure, Yes) && r.Is(Announced, No) && r.Is(Activated, No) && r.systemId == s.systemId && !r.activated
            && r.processed == now && r.current == Some(Announced) && r.Find(Announced).message == err.text
  {
  }

  lemma PassingRegisterError(s: Status, err: Fault, now: nat)
    requires !OnlineMode.NonRecoverable(Some(err))
    ensures var r := OnlineMode.RegisterErrorReconciled(s, err, OnlineMode.REGISTRATION_MAIN, now);
            && r.Is(Failure, Yes) && r.Is(Announced, No) && r.Is(Activated, No)
            && r == s.(marks := r.marks, current := Some(Failure)) && r.Find(Failure).message == err.text
  {
  }

  /** A refused keepalive prepares a failed status for the same codes, and nothing otherwise (neither is ever stored). */
  lemma KeepaliveErrorFailsExactly(s: Status, err: Fault, now: nat)
    requires PhaseOf(s) == PhaseActive
    ensures var r := OnlineMode.KeepaliveErrorReconciled(s, err, now);
            && (PhaseOf(r) == PhaseFailed <==>
                  exists c :: err.code == Some(c) && ((400 <= c <= 499 && c != 429) || c in {501, 505, 510}))
            && (PhaseOf(r) == PhaseFailed || r == s)
            && (PhaseOf(r) == PhaseFailed ==>
                  !r.activated && r.current == Some(Keepalive) && r.Is(Keepalive, No) && r.Find(Keepalive).message == err.text)
  {
  }

  /** The answers of SCC by name: unauthorised, not found and not implemented end a registration; too many requests, a
      server error, a bad gateway and an unavailable service do not, and neither does an error without a code. */
  lemma {:induction false} TheCommonAnswers(s: Status, text: string, now: nat)
    requires PhaseOf(s) == PhaseAnnounced
    ensures forall c :: c in {401, 403, 404, 422, 501} ==>
              PhaseOf(OnlineMode.ActivateErrorReconciled(s, Some(Fault(Some(c), text)), now)) == PhaseFailed
    ensures forall c :: c in {429, 500, 502, 503, 504} ==>
              OnlineMode.ActivateErrorReconciled(s, Some(Fault(Some(c), text)), now) == s
    ensures OnlineMode.ActivateErrorReconciled(s, Some(Fault(None, text)), now) == s
  {
    forall c ensures PhaseOf(OnlineMode.ActivateErrorReconciled(s, Some(Fault(Some(c), text)), now)) == PhaseFailed <==>
                       (400 <= c <= 499 && c != 429) || c in {501, 505, 510}
             ensures c in {429, 500, 502, 503, 504} ==> OnlineMode.ActivateErrorReconciled(s, Some(Fault(Some(c), text)), now) == s
    {
      ActivationErrorFailsExactly(s, Fault(Some(c), text), now);
    }
    ActivationErrorFailsExactly(s, Fault(None, text), now);
  }

  /** Offline an error while the request is prepared or registered denies the request condition with its text, and an error
      in another phase leaves all conditions as they are. */
  lemma OfflineErrorsDenyTheRequest(s: Status, err: Fault, phase: nat)
    ensures var r := OfflineMode.RegisterErrorReconciled(s, err, phase);
            if phase == OnlineMode.REGISTRATION_INIT || phase == OnlineMode.REGISTRATION_MAIN then
              r.Is(OfflineRequestReady, No) && r.Find(OfflineRequestReady).message == err.text &&
              r.current == Some(OfflineRequestReady)
            else r == s.(current := r.current)
  {
  }

  // ----- through a whole call

  predicate AllClear(script: seq<Beat>, n: nat) {
    |script| >= n && forall i :: 0 <= i < n ==> script[i] == CLEAR
  }

  lemma ClearUpdate(w: World, obj: Record)
    requires w.present && AllClear(w.script, 1) && obj.version == w.stored.version && obj.spec == w.stored.spec
    ensures var r := Update(w, obj);
            r.error.NoError? && r.world == w.(script := w.script[1..])
  {
  }

  /** The two writes of the error reconciler, on an object just read. */
  lemma {:induction false} ClearPush(v: World, obj: Record)
    requires v.present && AllClear(v.script, 2) && obj.version == v.stored.version && obj.spec == v.stored.spec
    ensures var put := if obj.spec.DiffersFromItsCopy() then Update(v, obj) else Reply(v, NoError, obj);
            var putStatus := UpdateStatus(put.world, obj);
            put.error.NoError? && putStatus.error.NoError? && putStatus.world.stored.status == obj.status
  {
    ClearUpdate(v, obj);
    ClearUpdateStatus(v.(script := v.script[1..]), obj);
    ClearUpdateStatus(v, obj);
  }

  lemma {:induction false} ClearReconcileOnce(w: World, mode: Mode, m: Mutation)
    requires w.present && AllClear(w.script, 3)
    ensures var r := ReconcileOnce(w, mode, m);
            r.error.NoError? && r.world.stored.status == Apply(mode, m, w.stored.status)
  {
    ClearGet(w);
    var v := Get(w).world;
    ClearPush(v, v.stored.(status := Apply(mode, m, v.stored.status)));
  }

  /** With nobody in the way the error reconciler stores its change. */
  lemma {:induction false} ClearReconcile(w: World, mode: Mode, m: Mutation, tries: nat)
    requires w.present && AllClear(w.script, 3)
    ensures var r := ReconcileError(w, mode, m, tries);
            r.error.NoError? && r.world.stored.status == Apply(mode, m, w.stored.status)
  {
    ClearReconcileOnce(w, mode, m);
  }

  /** A refused activation that is due goes through the error reconciler. */
  lemma {:induction false} RefusedActivationFails(w: World, a: Answers)
    requires OnlineReady(w) && PhaseOf(w.stored.status) == PhaseAnnounced && AllClear(w.script, 3)
    requires a.serverUrl && a.metrics && a.refresh.None? && a.activate.Some?
    ensures var o := OnRegistrationChange(w, w.stored, a);
            o.verdict.Errored? && o.world.stored.status == OnlineMode.ActivateErrorReconciled(w.stored.status, a.activate, a.now)
  {
    var m := FailActivate(a.activate, a.now);
    ADueActivationIsTried(w, a);
    ClearReconcile(w.Log(ActivateCalled(false)), Online, m, RETRY_STEPS);
  }

  /** End to end: with a due activation that SCC refuses, and a server that answers, the call ends in an error, and the
      stored registration is failed exactly for those codes and as it was otherwise. */
  lemma {:induction false} ARefusedActivationIsStored(w: World, a: Answers)
    requires OnlineReady(w) && PhaseOf(w.stored.status) == PhaseAnnounced && AllClear(w.script, 3)
    requires a.serverUrl && a.metrics && a.refresh.None? && a.activate.Some?
    ensures var o := OnRegistrationChange(w, w.stored, a);
            && o.verdict.Errored?
            && (PhaseOf(o.world.stored.status) == PhaseFailed <==>
                  exists c :: a.activate.value.code == Some(c) && ((400 <= c <= 499 && c != 429) || c in {501, 505, 510}))
            && (PhaseOf(o.world.stored.status) == PhaseFailed || o.world.stored.status == w.stored.status)
  {
    RefusedActivationFails(w, a);
    ActivationErrorFailsExactly(w.stored.status, a.activate.value, a.now);
  }

  lemma {:induction false} RefusedRegistrationFails(w: World, obj: Record, a: Answers)
    requires w.present && AllClear(w.script, 3) && w.vault.Partial? && w.stored.spec.mode.Online? && obj.spec.mode.Online?
    requires w.stored.spec.request.Some? && a.refresh.None? && a.register.Err?
    ensures var o := RegisterSystem(w, obj, w.stored, a);
            && o.verdict.Errored?
            && o.world.stored.status ==
                 Apply(Online, FailRegister(a.register.error, OnlineMode.REGISTRATION_MAIN, a.now), w.stored.status)
  {
    var m := FailRegister(a.register.error, OnlineMode.REGISTRATION_MAIN, a.now);
    RefusedRegistrationReconciles(w, obj, a, m);
    ClearReconcile(w.Log(RegisterCalled(false)), Online, m, RETRY_STEPS);
  }

  lemma RefusedRegistrationReconciles(w: World, obj: Record, a: Answers, m: Mutation)
    requires w.vault.Partial? && w.stored.spec.mode.Online? && obj.spec.mode.Online?
    requires w.stored.spec.request.Some? && a.refresh.None? && a.register.Err?
    requires m == FailRegister(a.register.error, OnlineMode.REGISTRATION_MAIN, a.now)
    ensures RegisterSystem(w, obj, w.stored, a) ==
            Outcome(ReconcileError(w.Log(RegisterCalled(false)), Online, m, RETRY_STEPS).world, Errored)
  {
  }

  /** A starting call whose secret is attached already writes its object and registers. */
  lemma {:induction false} AnnouncingRegisters(w: World, a: Answers)
    requires OnlineReady(w) && PhaseOf(w.stored.status) == PhaseStarting && AllClear(w.script, 1)
    requires a.serverUrl && a.metrics && w.stored.status.credentialsRef
    ensures OnRegistrationChange(w, w.stored, a) ==
            RegisterSystem(w.(script := w.script[1..]), w.stored, w.stored, a)
  {
    assert UpdateStatus(w, w.stored) == Reply(w.(script := w.script[1..]), NoError, w.stored);
  }

  /** The same for a due announcement: the registration fails with any refusal, and it is over exactly for those codes. */
  lemma {:induction false} ARefusedRegistrationIsStored(w: World, a: Answers)
    requires OnlineReady(w) && PhaseOf(w.stored.status) == PhaseStarting && AllClear(w.script, 4) && w.vault.Partial?
    requires a.serverUrl && a.metrics && a.refresh.None? && a.register.Err? && a.now > 0 && w.stored.status.credentialsRef
    ensures var o := OnRegistrationChange(w, w.stored, a);
            && o.verdict.Errored? && PhaseOf(o.world.stored.status) == PhaseFailed && o.world.stored.status.systemId.None?
            && (o.world.stored.status.processed == a.now <==>
                  exists c :: a.register.error.code == Some(c) && ((400 <= c <= 499 && c != 429) || c in {501, 505, 510}))
            && (o.world.stored.status.processed == a.now || o.world.stored.status.processed == 0)
  {
    AnnouncingRegisters(w, a);
    RefusedRegistrationFails(w.(script := w.script[1..]), w.stored, a);
    RegisterErrorEndsExactly(w.stored.status, a.register.error, a.now);
  }

  /** Offline: a request secret that cannot be saved is told by the request condition, and the announcement stays due. */
  lemma {:induction false} ARefusedRequestIsStored(w: World, obj: Record, a: Answers)
    requires w.present && AllClear(w.script, 3) && w.stored.spec.mode.Offline? && obj.spec.mode.Offline? && a.requestSaved.Some?
    ensures var o := RegisterSystem(w, obj, w.stored, a);
            && o.verdict.Errored? && o.world.stored.status.Is(OfflineRequestReady, No)
            && o.world.stored.status.Find(OfflineRequestReady).message == a.requestSaved.value.text
            && o.world.stored.status.processed == w.stored.status.processed
  {
    var m := FailRegister(a.requestSaved.value, OnlineMode.REGISTRATION_MAIN, a.now);
    ClearReconcile(w.Log(RegisterCalled(false)), Offline, m, RETRY_STEPS);
    OfflineErrorsDenyTheRequest(w.stored.status, a.requestSaved.value, OnlineMode.REGISTRATION_MAIN);
  }
}
