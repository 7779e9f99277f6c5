/** What one call of OnRegistrationChange does to the world, as a function of what the outside answers. */
module Reconciliation {
  import opened Wrappers
  import opened Conditions
  import opened Registrations
  import opened ApiServer
  import Lifecycle
  import OnlineMode
  import OfflineMode

  const RETRY_STEPS := 5

  const PROD_MIN_CHECKIN := 17 * 3600
  const DEV_MIN_CHECKIN := 20 * 60

  const KEEPALIVE_SYSTEM_ID := -2
  const OFFLINE_SYSTEM_ID := -3

  /** A write of a secret: heard to have worked, stored with the answer lost, or not stored. */
  datatype Save = Saved | Unheard(fault: Fault) | NotSaved(fault: Fault) {
    predicate Stored() {
      Saved? || Unheard?
    }

    function Failure(): Option<Fault> {
      if Saved? then None else Some(fault)
    }
  }

  /** The answers the outside gives during one call: the clock, the settings, the secrets and SCC. `register` is what SCC
      says to a new registration and `credentialsSave` how the credentials it hands out are saved. */
  datatype Answers = Answers(
    now: nat,
    devMode: bool,
    serverUrl: bool,
    metrics: bool,
    initSecret: Save,
    refresh: Option<Fault>,
    register: Result<nat, Fault>,
    credentialsSave: Save,
    activate: Option<Fault>,
    subscriptions: seq<Result<OnlineMode.Subscription, Fault>>,
    keepalive: Option<Fault>,
    requestSaved: Option<Fault>,
    certificate: OfflineMode.CertificateCheck,
    removal: Option<Fault>)

  /** What the lifecycle does to a status, in either mode. */
  datatype Mutation =
    | Begin
    | AttachSecret
    | Register(id: Option<int>, devMode: bool, now: nat)
    | FailRegister(err: Fault, phase: nat, now: nat)
    | Activate(sub: OnlineMode.Subscription, now: nat)
    | FailActivate(fault: Option<Fault>, now: nat)
    | Keep(now: nat)
    | Reset

  function Apply(mode: Mode, m: Mutation, s: Status): Status {
    match m
    case Begin => s.Set(Progressing, Yes).PointAt(Progressing)
    case AttachSecret => if mode.Online? then s.(credentialsRef := true) else s.(requestRef := true)
    case Register(id, devMode, now) =>
      var named := if id.Some? then s.(systemId := id) else s;
      if mode.Online? then
        match OnlineMode.RegisteredForActivation(named, devMode)
        case None => s
        case Some(r) => r.(processed := now)
      else OfflineMode.RegisteredForActivation(named).(processed := now)
    case FailRegister(err, phase, now) =>
      if mode.Online? then OnlineMode.RegisterErrorReconciled(s, err, phase, now)
      else OfflineMode.RegisterErrorReconciled(s, err, phase)
    case Activate(sub, now) =>
      var activated := Lifecycle.SuccessfulActivation(s, now);
      if mode.Online? then OnlineMode.ActivatedForKeepalive(activated, sub)
      else OfflineMode.ActivatedForKeepalive(activated)
    case FailActivate(fault, now) =>
      if mode.Online? then OnlineMode.ActivateErrorReconciled(s, fault, now)
      else OfflineMode.ActivateErrorReconciled(s, fault)
    case Keep(now) =>
      var kept := Lifecycle.SuccessfulActivation(s, now).Set(Keepalive, Yes);
      if mode.Online? then kept.Set(SccUrlReady, Yes) else kept
    case Reset => if mode.Online? then OnlineMode.Reset(s) else OfflineMode.Reset(s)
  }

  predicate NeedsPreprocess(r: Record) {
    r.spec.mode.Offline? && OfflineMode.NeedsPreprocess(r)
  }

  predicate NeedsRegistration(r: Record) {
    if r.spec.mode.Online? then OnlineMode.NeedsRegistration(r.status) else OfflineMode.NeedsRegistration(r)
  }

  predicate NeedsActivation(r: Record) {
    if r.spec.mode.Online? then Lifecycle.NeedsActivation(r.status) else OfflineMode.NeedsActivation(r.status)
  }

  predicate ReadyForActivation(r: Record) {
    if r.spec.mode.Online? then OnlineMode.ReadyForActivation(r.status) else OfflineMode.ReadyForActivation(r)
  }

  function MinCheckin(devMode: bool): nat {
    if devMode then DEV_MIN_CHECKIN else PROD_MIN_CHECKIN
  }

  predicate RecentlyValidated(r: Record, a: Answers) {
    !NeedsRegistration(r) && !NeedsActivation(r) && r.spec.syncNow.None? &&
    r.status.validated != 0 && r.status.validated > a.now - MinCheckin(a.devMode)
  }

  predicate NotProgressing(s: Status) {
    Progressing !in s.marks || s.Is(Progressing, No)
  }

  datatype Verdict = Finished | Errored | Panicked

  datatype Outcome = Outcome(world: World, verdict: Verdict)

  function Judge(e: ApiError): Verdict {
    if e.NoError? then Finished else Errored
  }

  /** A call the operator makes to SCC, or to the certificate: it may fail, or dereference a nil pointer. */
  datatype Call<T> = Answer(value: T) | Error(fault: Fault) | Nil

  function Checked(err: Option<Fault>): Call<()> {
    match err
    case None => Answer(())
    case Some(f) => Error(f)
  }

  /** Loading the credentials fails without a secret, whatever else may go wrong. */
  function RefreshError(vault: Vault, a: Answers): Option<Fault> {
    if vault.Absent? then Some(Fault(None, "no credentials secret")) else a.refresh
  }

  /** With complete credentials the system counts as registered, and a keepalive is sent instead. */
  function RegisterOrKeepAlive(vault: Vault, a: Answers): Call<int> {
    if vault.Complete? then
      match a.keepalive
      case Some(f) => Error(f)
      case None => Answer(KEEPALIVE_SYSTEM_ID)
    else
      match a.register
      case Err(f) => Error(f)
      case Ok(id) => if a.credentialsSave.Saved? then Answer(id) else Error(a.credentialsSave.fault)
  }

  function CallRegister(spec: Spec, vault: Vault, a: Answers): Call<int> {
    if spec.mode.Offline? then
      match a.requestSaved
      case Some(f) => Error(f)
      case None => Answer(OFFLINE_SYSTEM_ID)
    else
      match RefreshError(vault, a)
      case Some(f) => Error(f)
      case None => if spec.request.None? then Nil else RegisterOrKeepAlive(vault, a)
  }

  /** The credentials secret after that: an accepted registration hands out new credentials. */
  function VaultAfterRegister(spec: Spec, vault: Vault, a: Answers): Vault {
    if spec.mode.Online? && RefreshError(vault, a).None? && spec.request.Some? && a.register.Ok? && a.credentialsSave.Stored()
    then Complete else vault
  }

  function CallActivate(spec: Spec, vault: Vault, a: Answers): Call<()> {
    if spec.mode.Offline? then Checked(OfflineMode.Activate(a.certificate))
    else
      match RefreshError(vault, a)
      case Some(f) => Error(f)
      case None => if spec.request.None? then Nil else Checked(a.activate)
  }

  function CallKeepalive(r: Record, vault: Vault, a: Answers): Call<()> {
    if r.spec.mode.Offline? then
      if 0 < r.status.expires < a.now then Error(Fault(None, "offline registration has expired"))
      else Checked(OfflineMode.Activate(a.certificate))
    else
      match RefreshError(vault, a)
      case Some(f) => Error(f)
      case None => if r.spec.request.None? then Nil else Checked(a.keepalive)
  }

  /** The system ID to store after registering: none to set, one to set, or a nil dereference. */
  function SystemIdToSet(id: int, s: Status): Call<Option<int>> {
    if id == OFFLINE_SYSTEM_ID then Answer(None)
    else if id == KEEPALIVE_SYSTEM_ID then (if s.systemId.None? then Nil else Answer(None))
    else Answer(Some(id))
  }

  datatype Attempt = Attempt(world: World, error: ApiError)

  /** One round of the error reconciler: re-read, mutate, write back. */
  function ReconcileOnce(w: World, mode: Mode, m: Mutation): Attempt {
    var got := Get(w);
    if !got.error.NoError? then Attempt(got.world, got.error)
    else
      var obj := got.record.(status := Apply(mode, m, got.record.status));
      var put := if got.record.spec.DiffersFromItsCopy() then Update(got.world, obj) else Reply(got.world, NoError, obj);
      var putStatus := UpdateStatus(put.world, obj);
      Attempt(putStatus.world, Join(put.error, putStatus.error))
  }

  function ReconcileError(w: World, mode: Mode, m: Mutation, tries: nat): Attempt
    decreases tries
  {
    var once := ReconcileOnce(w, mode, m);
    if once.error.Conflict? && tries > 1 then ReconcileError(once.world, mode, m, tries - 1) else once
  }

  /** The progressing write retries with the object it already holds. */
  function BeginRegistration(w: World, obj: Record, tries: nat): Attempt
    decreases tries
  {
    var updated := obj.(status := Apply(obj.spec.mode, Begin, obj.status));
    var put := UpdateStatus(w, updated);
    if put.error.Conflict? && tries > 1 then BeginRegistration(put.world, updated, tries - 1)
    else Attempt(put.world, put.error)
  }

  predicate MustAttach(r: Record) {
    if r.spec.mode.Online? then !r.status.credentialsRef else !r.status.requestRef
  }

  /** Initialising the credentials secret stores an empty token: with that the credentials are never complete. */
  function WithSecret(w: World, obj: Record, a: Answers): World {
    if MustAttach(obj) && obj.spec.mode.Online? && a.initSecret.Stored() then w.(vault := Partial) else w
  }

  function Prepared(obj: Record): Record {
    if MustAttach(obj) then obj.(status := Apply(obj.spec.mode, AttachSecret, obj.status)) else obj
  }

  function Announce(w: World, obj: Record, a: Answers): Outcome {
    var v := WithSecret(w, obj, a);
    if MustAttach(obj) && !a.initSecret.Saved? then
      var failure := FailRegister(a.initSecret.fault, OnlineMode.REGISTRATION_PREPARE, a.now);
      Outcome(ReconcileError(v, obj.spec.mode, failure, RETRY_STEPS).world, Errored)
    else
      var put := UpdateStatus(v, Prepared(obj));
      if !put.error.NoError? then Outcome(put.world, Errored)
      else RegisterSystem(put.world, obj, put.record, a)
  }

  function RegisterSystem(w: World, obj: Record, prepared: Record, a: Answers): Outcome {
    var v := w.(vault := VaultAfterRegister(prepared.spec, w.vault, a));
    match CallRegister(prepared.spec, w.vault, a)
    case Nil => Outcome(w, Panicked)
    case Error(f) =>
      var failure := FailRegister(f, OnlineMode.REGISTRATION_MAIN, a.now);
      Outcome(ReconcileError(v.Log(RegisterCalled(false)), obj.spec.mode, failure, RETRY_STEPS).world, Errored)
    case Answer(id) => FinishAnnounce(v.Log(RegisterCalled(true)), obj, prepared, id, a)
  }

  function FinishAnnounce(w: World, obj: Record, announced: Record, id: int, a: Answers): Outcome {
    match SystemIdToSet(id, obj.status)
    case Nil => Outcome(w, Panicked)
    case Error(_) => Outcome(w, Errored)
    case Answer(toSet) =>
      if obj.spec.mode.Online? && toSet.None? && announced.status.systemId.None? then
        var f := Fault(None, "SCC system ID cannot be empty when preparing registered system");
        Outcome(ReconcileError(w, obj.spec.mode, FailRegister(f, OnlineMode.REGISTRATION_FOR_ACTIVATION, a.now), RETRY_STEPS).world, Errored)
      else
        var registered := announced.(status := Apply(obj.spec.mode, Register(toSet, a.devMode, a.now), announced.status));
        var put := UpdateStatus(w, registered);
        Outcome(put.world, Judge(put.error))
  }

  function ActivateRegistration(w: World, obj: Record, a: Answers): Outcome {
    FinishActivation(w, obj.spec.mode, CallActivate(obj.spec, w.vault, a), a)
  }

  function FinishActivation(w: World, mode: Mode, call: Call<()>, a: Answers): Outcome {
    match call
    case Nil => Outcome(w, Panicked)
    case Error(f) =>
      Outcome(ReconcileError(w.Log(ActivateCalled(false)), mode, FailActivate(Some(f), a.now), RETRY_STEPS).world, Errored)
    case Answer(_) =>
      var saved := SaveActivation(w.Log(ActivateCalled(true)), mode, a, RETRY_STEPS);
      Outcome(saved.world, Judge(saved.error))
  }

  function Subscribed(mode: Mode, a: Answers, tries: nat): Option<OnlineMode.Subscription> {
    if mode.Offline? then Some(OnlineMode.Subscription(0, ""))
    else if tries < |a.subscriptions| && a.subscriptions[tries].Ok? then Some(a.subscriptions[tries].value)
    else None
  }

  function SaveActivation(w: World, mode: Mode, a: Answers, tries: nat): Attempt
    decreases tries
  {
    var got := Get(w);
    if !got.error.NoError? then Attempt(got.world, got.error)
    else
      var sub := Subscribed(mode, a, tries);
      var saved :=
        if sub.None? then
          // the error passed on here is the activation error, which is nil
          var reconciled := ReconcileError(got.world, mode, FailActivate(None, a.now), RETRY_STEPS);
          Attempt(reconciled.world, if reconciled.error.Conflict? then Conflict else Refusal)
        else
          var put := UpdateStatus(got.world, got.record.(status := Apply(mode, Activate(sub.value, a.now), got.record.status)));
          Attempt(put.world, put.error);
      if saved.error.Conflict? && tries > 1 then SaveActivation(saved.world, mode, a, tries - 1) else saved
  }

  /** The reset that SyncNow and the offline preprocessing share: status first, then the object the server returned. */
  function ResetRegistration(w: World, obj: Record, a: Answers): Outcome {
    if obj.spec.mode.Offline? && a.removal.Some? then Outcome(w, Panicked)
    else StoreTwice(w, obj.(status := Apply(obj.spec.mode, Reset, obj.status)))
  }

  function StoreTwice(w: World, obj: Record): Outcome {
    var put := UpdateStatus(w, obj);
    if !put.error.NoError? then Outcome(put.world, Errored)
    else
      var update := Update(put.world, put.record);
      Outcome(update.world, Judge(update.error))
  }

  function SyncNow(w: World, obj: Record, a: Answers): Outcome {
    if obj.spec.mode.Offline? && a.requestSaved.Some? then Outcome(w, Errored)
    else ResetRegistration(w, obj.(spec := obj.spec.WithoutSyncNow()), a)
  }

  function KeepAlive(w: World, obj: Record, a: Answers): Outcome {
    FinishKeepalive(w, obj.spec.mode, CallKeepalive(obj, w.vault, a), a)
  }

  function FinishKeepalive(w: World, mode: Mode, call: Call<()>, a: Answers): Outcome {
    match call
    case Nil => Outcome(w, Panicked)
    case Error(f) => Outcome(SaveKeepaliveError(w, mode, f, a, RETRY_STEPS).world, Errored)
    case Answer(_) =>
      var saved := SaveKeepalive(w, mode, a, RETRY_STEPS);
      Outcome(saved.world, Judge(saved.error))
  }

  /** A keepalive error is reconciled on the status, and written with Update. */
  function SaveKeepaliveError(w: World, mode: Mode, f: Fault, a: Answers, tries: nat): Attempt
    decreases tries
  {
    var got := Get(w);
    if !got.error.NoError? then Attempt(got.world, got.error)
    else
      var s := if mode.Online? then OnlineMode.KeepaliveErrorReconciled(got.record.status, f, a.now)
               else got.record.status;
      var put := Update(got.world, got.record.(status := s));
      if put.error.Conflict? && tries > 1 then SaveKeepaliveError(put.world, mode, f, a, tries - 1)
      else Attempt(put.world, put.error)
  }

  function SaveKeepalive(w: World, mode: Mode, a: Answers, tries: nat): Attempt
    decreases tries
  {
    var got := Get(w);
    if !got.error.NoError? then Attempt(got.world, got.error)
    else
      if mode.Offline? && a.requestSaved.Some? then Attempt(got.world, Refusal)
      else
        var put := UpdateStatus(got.world, got.record.(status := Apply(mode, Keep(a.now), got.record.status)));
        if put.error.Conflict? && tries > 1 then SaveKeepalive(put.world, mode, a, tries - 1)
        else Attempt(put.world, put.error)
  }

  function OnRegistrationChange(w: World, obj: Record, a: Answers): Outcome {
    if !a.serverUrl then Outcome(w, Errored)
    else if NeedsPreprocess(obj) then ResetRegistration(w, obj, a)
    else if Lifecycle.IsFailed(obj.status) then Outcome(w, Finished)
    else if RecentlyValidated(obj, a) then Outcome(w, Finished)
    else if !a.metrics then Outcome(w, Errored)
    else if NeedsRegistration(obj) then
      if NotProgressing(obj.status) then
        var begun := BeginRegistration(w, obj, RETRY_STEPS);
        Outcome(begun.world, Judge(begun.error))
      else Announce(w, obj, a)
    else if NeedsActivation(obj) then
      if !ReadyForActivation(obj) then Outcome(w, Finished) else ActivateRegistration(w, obj, a)
    else if Lifecycle.NeedsSyncNow(obj.spec) then SyncNow(w, obj, a)
    else KeepAlive(w, obj, a)
  }
}
