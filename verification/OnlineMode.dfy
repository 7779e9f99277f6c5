/** The online handler: registration with SCC, activation and keepalive, and their error reconcilers. */
module OnlineMode {
  import opened Wrappers
  import opened Conditions
  import opened Registrations
  import Lifecycle

  const REGISTRATION_INIT := 0
  const REGISTRATION_PREPARE := 1
  const REGISTRATION_MAIN := 2
  const REGISTRATION_FOR_ACTIVATION := 3

  datatype Subscription = Subscription(expires: nat, product: string)

  datatype SccEnvironment = ProductionScc | StagingScc | PayAsYouGo | Rgs

  function BaseUrl(e: SccEnvironment): string {
    match e
    case ProductionScc => "https://scc.suse.com"
    case StagingScc => "https://stgscc.suse.com"
    case _ => ""
  }

  function Environment(devMode: bool): SccEnvironment {
    if devMode then StagingScc else ProductionScc
  }

  predicate NeedsRegistration(s: Status) {
    Lifecycle.HasNotStarted(s) || SccUrlReady !in s.marks || Announced !in s.marks
  }

  predicate ReadyForActivation(s: Status) {
    s.Is(Announced, Yes)
  }

  /** Client errors other than 429, and 501, 505 and 510, when an SCC API error is wrapped in the error. */
  predicate NonRecoverable(err: Option<Fault>) {
    err.Some? && err.value.code.Some? &&
    var code := err.value.code.value;
    (400 <= code < 500 && code != 429) || code == 501 || code == 505 || code == 510
  }

  /** The address of the system is stored if there is a base to build it from. */
  function RegisteredAt(s: Status, base: string): (r: Option<Status>)
    ensures r.None? <==> s.systemId.None?
    ensures r.Some? && s.CurrentIsListed() ==> r.value.CurrentIsListed()
  {
    if s.systemId.None? then None
    else
      var addressed :=
        if base != "" then
          s.(systemUrl := Some(SystemUrl(base, s.systemId.value)))
          .Set(SccUrlReady, No).Describe(SccUrlReady, "system announced")
        else s;
      Some(addressed.Set(Announced, Yes).Set(Failure, No).Set(Ready, Yes))
  }

  function RegisteredForActivation(s: Status, devMode: bool): (r: Option<Status>)
    ensures r.None? <==> s.systemId.None?
    ensures r.Some? && s.CurrentIsListed() ==> r.value.CurrentIsListed()
  {
    RegisteredAt(s, BaseUrl(Environment(devMode)))
  }

  lemma RegisteringAtLeaves(s: Status, base: string)
    requires s.systemId.Some? && base != ""
    ensures var r := RegisteredAt(s, base).value;
            && r == s.(marks := r.marks, systemUrl := Some(SystemUrl(base, s.systemId.value)))
            && r.Is(Announced, Yes) && r.Is(SccUrlReady, No) && r.Is(Failure, No) && r.Is(Ready, Yes)
            && (forall k :: k !in {Announced, SccUrlReady, Failure, Ready} ==>
                  (k in r.marks <==> k in s.marks) && r.Find(k) == s.Find(k))
  {
  }

  lemma EnvironmentsHaveAddresses(devMode: bool)
    ensures BaseUrl(Environment(devMode)) == if devMode then "https://stgscc.suse.com" else "https://scc.suse.com"
    ensures BaseUrl(Environment(devMode)) != ""
  {
  }

  function NonRecoverableReconciled(s: Status, err: Fault, now: nat): Status {
    Lifecycle.Failed(s.(processed := now, validated := now),
                     Some(err.(text := "non-recoverable HTTP error encountered: " + err.text)))
  }

  function RegisterErrorReconciled(s: Status, err: Fault, phase: nat, now: nat): (r: Status)
    ensures s.CurrentIsListed() ==> r.CurrentIsListed()
  {
    var failed := Lifecycle.Failed(s, Some(err));
    if NonRecoverable(Some(err)) then
      NonRecoverableReconciled(failed, err, now)
      .Fail(Announced, "Error: SCC api call returned", Some(err))
      .Set(SccUrlReady, No).Set(Activated, No).PointAt(Announced).(activated := false)
    else
      var inactive := failed.Set(Activated, No);
      var unannounced :=
        if phase <= REGISTRATION_FOR_ACTIVATION then inactive.Set(Announced, No).Set(SccUrlReady, No) else inactive;
      if phase == REGISTRATION_PREPARE then unannounced.Fail(Failure, "failed during secret initialization", Some(err))
      else unannounced
  }

  function ActivateErrorReconciled(s: Status, err: Option<Fault>, now: nat): (r: Status)
    ensures s.CurrentIsListed() ==> r.CurrentIsListed()
  {
    if NonRecoverable(err) then
      NonRecoverableReconciled(s, err.value, now)
      .Fail(Activated, "Error: SCC sync returned", err).PointAt(Activated).(activated := false)
    else s
  }

  function ActivatedForKeepalive(s: Status, sub: Subscription): Status {
    s.Set(SccUrlReady, Yes).(expires := sub.expires, product := Some(sub.product))
  }

  function KeepaliveErrorReconciled(s: Status, err: Fault, now: nat): Status {
    if NonRecoverable(Some(err)) then
      NonRecoverableReconciled(s, err, now)
      .Fail(Keepalive, "Error: SCC sync returned", Some(err)).PointAt(Keepalive).(activated := false)
    else s
  }

  function Reset(s: Status): (r: Status)
    ensures r == s.(marks := r.marks, current := Some(Progressing), activated := false, validated := 0)
    ensures r.Is(Progressing, Yes) && r.Is(Ready, No) && r.Is(Done, No) && r.Is(Activated, No)
    ensures s.CurrentIsListed() ==> r.CurrentIsListed()
  {
    s.(activated := false, validated := 0)
    .Set(Progressing, Yes).Set(Ready, No).Set(Done, No).Set(Activated, No).PointAt(Progressing)
  }

  method PrepareRegisteredForActivation(reg: Registration, devMode: bool) returns (ok: bool)
    requires reg.Valid()
    modifies reg`conditions, reg`rest
    ensures reg.Valid()
    ensures ok <==> RegisteredForActivation(old(reg.Status()), devMode).Some?
    ensures ok ==> Some(reg.Status()) == RegisteredForActivation(old(reg.Status()), devMode)
    ensures !ok ==> reg.Status() == old(reg.Status())
  {
    if reg.rest.systemId.None? {
      return false;
    }
    var base := BaseUrl(Environment(devMode));
    if base != "" {
      reg.rest := reg.rest.(systemUrl := Some(SystemUrl(base, reg.rest.systemId.value)));
      reg.Assign(SccUrlReady, No);
      reg.SetMessageIfBlank(SccUrlReady, "system announced");
    }
    reg.Assign(Announced, Yes);
    reg.Assign(Failure, No);
    reg.Assign(Ready, Yes);
    return true;
  }

  method ReconcileNonRecoverable(reg: Registration, err: Fault, now: nat)
    requires reg.Valid()
    modifies reg`conditions, reg`rest
    ensures reg.Valid()
    ensures reg.Status() == NonRecoverableReconciled(old(reg.Status()), err, now)
  {
    reg.rest := reg.rest.(processed := now, validated := now);
    Lifecycle.PrepareFailed(reg, Some(err.(text := "non-recoverable HTTP error encountered: " + err.text)));
  }

  method ReconcileRegisterError(reg: Registration, err: Fault, phase: nat, now: nat)
    requires reg.Valid()
    modifies reg`conditions, reg`rest
    ensures reg.Valid()
    ensures reg.Status() == RegisterErrorReconciled(old(reg.Status()), err, phase, now)
  {
    Lifecycle.PrepareFailed(reg, Some(err));
    if NonRecoverable(Some(err)) {
      ReconcileNonRecoverable(reg, err, now);
      reg.SetError(Announced, "Error: SCC api call returned", Some(err));
      reg.Assign(SccUrlReady, No);
      reg.Assign(Activated, No);
      reg.SetCurrentCondition(Announced);
      reg.rest := reg.rest.(activated := false);
      return;
    }
    reg.Assign(Activated, No);
    if phase <= REGISTRATION_FOR_ACTIVATION {
      reg.Assign(Announced, No);
      reg.Assign(SccUrlReady, No);
    }
    if phase == REGISTRATION_PREPARE {
      reg.SetError(Failure, "failed during secret initialization", Some(err));
    }
  }

  method ReconcileActivateError(reg: Registration, err: Option<Fault>, now: nat)
    requires reg.Valid()
    modifies reg`conditions, reg`rest
    ensures reg.Valid()
    ensures reg.Status() == ActivateErrorReconciled(old(reg.Status()), err, now)
  {
    if NonRecoverable(err) {
      ReconcileNonRecoverable(reg, err.value, now);
      reg.SetError(Activated, "Error: SCC sync returned", err);
      reg.SetCurrentCondition(Activated);
      reg.rest := reg.rest.(activated := false);
    }
  }

  method ReconcileKeepaliveError(reg: Registration, err: Fault, now: nat)
    requires reg.Valid()
    modifies reg`conditions, reg`rest
    ensures reg.Valid()
    ensures reg.Status() == KeepaliveErrorReconciled(old(reg.Status()), err, now)
  {
    if NonRecoverable(Some(err)) {
      ReconcileNonRecoverable(reg, err, now);
      reg.SetError(Keepalive, "Error: SCC sync returned", Some(err));
      reg.SetCurrentCondition(Keepalive);
      reg.rest := reg.rest.(activated := false);
    }
  }

  method PrepareActivatedForKeepalive(reg: Registration, sub: Subscription)
    requires reg.Valid()
    modifies reg`conditions, reg`rest
    ensures reg.Valid()
    ensures reg.Status() == ActivatedForKeepalive(old(reg.Status()), sub)
  {
    reg.Assign(SccUrlReady, Yes);
    reg.rest := reg.rest.(expires := sub.expires, product := Some(sub.product));
  }

  method ResetToReadyForActivation(reg: Registration)
    requires reg.Valid()
    modifies reg`conditions, reg`rest
    ensures reg.Valid()
    ensures reg.Status() == Reset(old(reg.Status()))
  {
    reg.rest := reg.rest.(activated := false, validated := 0);
    reg.Assign(Progressing, Yes);
    reg.Assign(Ready, No);
    reg.Assign(Done, No);
    reg.Assign(Activated, No);
    reg.SetCurrentCondition(Progressing);
  }
}
