/** The offline handler: a request secret goes out, a certificate secret comes back. */
module OfflineMode {
  import opened Wrappers
  import opened Conditions
  import opened Registrations
  import Lifecycle
  import OnlineMode

  const AWAITING_CERTIFICATE := "Awaiting registration certificate secret"

  /** What checking the certificate secret finds; the two errors carry the texts the code gives them. */
  datatype CertificateCheck = Valid | Unreadable(detail: string) | Invalid(detail: string)

  predicate NeedsRegistration(r: Record) {
    r.spec.certificate.None? &&
    (Lifecycle.HasNotStarted(r.status) || OfflineRequestReady !in r.status.marks || r.status.Is(OfflineRequestReady, No))
  }

  predicate NeedsActivation(s: Status) {
    s.requestRef && Lifecycle.NeedsActivation(s)
  }

  predicate ReadyForActivation(r: Record) {
    r.status.requestRef && r.spec.certificate.Some?
  }

  predicate ActivatedButMissingCertificate(r: Record) {
    r.status.activated && r.spec.certificate.None?
  }

  predicate FailedAndCertificateRemoved(r: Record) {
    r.status.Is(Failure, Yes) && r.status.Is(OfflineCertificateReady, No) &&
    r.status.Find(OfflineCertificateReady).message != AWAITING_CERTIFICATE && r.spec.certificate.None?
  }

  predicate NeedsPreprocess(r: Record) {
    ActivatedButMissingCertificate(r) || FailedAndCertificateRemoved(r)
  }

  function Activate(check: CertificateCheck): (err: Option<Fault>)
    ensures err.None? <==> check.Valid?
    ensures err.Some? ==> err.value.text != AWAITING_CERTIFICATE && err.value.code.None?
    ensures err.Some? ==> |check.detail| <= |err.value.text| && err.value.text[|err.value.text| - |check.detail|..] == check.detail
  {
    match check
    case Valid => None
    case Unreadable(detail) =>
      var text := "activate failed, " + detail;
      assert text[0] == 'a' && AWAITING_CERTIFICATE[0] == 'A';
      Some(Fault(None, text))
    case Invalid(detail) =>
      var text := "ValidateOfflineCertificateFailed during " + detail;
      assert text[0] == 'V' && AWAITING_CERTIFICATE[0] == 'A';
      Some(Fault(None, text))
  }

  function RegisteredForActivation(s: Status): (r: Status)
    ensures r == s.(marks := r.marks, current := Some(OfflineCertificateReady))
    ensures r.Is(OfflineRequestReady, Yes) && r.Is(OfflineCertificateReady, No)
    ensures s.Find(OfflineCertificateReady).message == "" ==> r.Find(OfflineCertificateReady).message == AWAITING_CERTIFICATE
    ensures s.CurrentIsListed() ==> r.CurrentIsListed()
  {
    s.Set(OfflineRequestReady, Yes).Set(OfflineCertificateReady, No)
    .Describe(OfflineCertificateReady, AWAITING_CERTIFICATE).PointAt(OfflineCertificateReady)
  }

  function RegisterErrorReconciled(s: Status, err: Fault, phase: nat): (r: Status)
    ensures r == s.(marks := r.marks, current := r.current)
    ensures s.CurrentIsListed() ==> r.CurrentIsListed()
  {
    if phase == OnlineMode.REGISTRATION_INIT then
      s.Fail(OfflineRequestReady, "Failed to prepare Offline Request secret & ref", Some(err)).PointAt(OfflineRequestReady)
    else if phase == OnlineMode.REGISTRATION_MAIN then
      s.Fail(OfflineRequestReady, "Failed to update Offline Request secret", Some(err)).PointAt(OfflineRequestReady)
    else s.PointAt(OfflineRequestReady)
  }

  /** The status the reset gives when the certificate secret can be removed; otherwise it returns nil. */
  function Reset(s: Status): (r: Status)
    ensures !r.activated && r.validated == 0
    ensures Activated !in r.marks && Failure !in r.marks && Ready !in r.marks && r.Is(Progressing, Yes)
    ensures r.Is(OfflineRequestReady, Yes) && r.Is(OfflineCertificateReady, No)
    ensures r.Find(OfflineCertificateReady).message == AWAITING_CERTIFICATE
    ensures r == s.(marks := r.marks, current := Some(OfflineCertificateReady), activated := false, validated := 0)
    ensures r.CurrentIsListed()
  {
    RegisteredForActivation(
      s.(activated := false, validated := 0)
      .Drop(Activated).Drop(OfflineCertificateReady).Drop(Failure).Drop(Ready).Set(Progressing, Yes))
  }

  function ActivatedForKeepalive(s: Status): (r: Status)
    ensures r == s.(marks := r.marks)
    ensures r.Is(OfflineCertificateReady, Yes) && r.Is(OfflineActivationDone, Yes)
    ensures s.CurrentIsListed() ==> r.CurrentIsListed()
  {
    s.Drop(OfflineCertificateReady).Set(OfflineCertificateReady, Yes).Set(OfflineActivationDone, Yes)
  }

  /** Failed, with the message of a certificate error: one that a certificate removal can clear. */
  predicate FailedByCertificate(s: Status, err: Fault) {
    s.Is(Failure, Yes) && s.Is(OfflineCertificateReady, No) && s.Find(OfflineCertificateReady).message == err.text &&
    s.Is(Activated, No) && !s.activated
  }

  function ActivateErrorReconciled(s: Status, err: Option<Fault>): (r: Status)
    ensures err.Some? ==> FailedByCertificate(r, err.value)
    ensures s.CurrentIsListed() ==> r.CurrentIsListed()
  {
    CertificateFailed(s, "offline activation failed", "cannot validate offline certificate", err)
  }

  function CertificateFailed(s: Status, activation: string, certificate: string, err: Option<Fault>): (r: Status)
    ensures err.Some? ==> FailedByCertificate(r, err.value)
    ensures s.CurrentIsListed() ==> r.CurrentIsListed()
  {
    Lifecycle.Failed(
      s.Set(Activated, No).Explain(Activated, activation).Fail(OfflineCertificateReady, certificate, err)
      .PointAt(OfflineCertificateReady).(activated := false),
      err)
  }

  method PrepareRegisteredForActivation(reg: Registration)
    requires reg.Valid()
    modifies reg`conditions, reg`rest
    ensures reg.Valid()
    ensures reg.Status() == RegisteredForActivation(old(reg.Status()))
  {
    reg.Assign(OfflineRequestReady, Yes);
    reg.Assign(OfflineCertificateReady, No);
    reg.SetMessageIfBlank(OfflineCertificateReady, AWAITING_CERTIFICATE);
    reg.SetCurrentCondition(OfflineCertificateReady);
  }

  method ReconcileRegisterError(reg: Registration, err: Fault, phase: nat)
    requires reg.Valid()
    modifies reg`conditions, reg`rest
    ensures reg.Valid()
    ensures reg.Status() == RegisterErrorReconciled(old(reg.Status()), err, phase)
  {
    if phase == OnlineMode.REGISTRATION_INIT {
      reg.SetError(OfflineRequestReady, "Failed to prepare Offline Request secret & ref", Some(err));
    }
    if phase == OnlineMode.REGISTRATION_MAIN {
      reg.SetError(OfflineRequestReady, "Failed to update Offline Request secret", Some(err));
    }
    reg.SetCurrentCondition(OfflineRequestReady);
  }

  /** `ok` is false when the method returns nil: the caller then holds no object at all. */
  method ResetToReadyForActivation(reg: Registration, removal: Option<Fault>) returns (ok: bool)
    requires reg.Valid()
    modifies reg`conditions, reg`rest
    ensures reg.Valid()
    ensures ok <==> removal.None?
    ensures reg.Status() == Reset(old(reg.Status()))
  {
    reg.rest := reg.rest.(activated := false, validated := 0);
    reg.RemoveCondition(Activated);
    reg.RemoveCondition(OfflineCertificateReady);
    reg.RemoveCondition(Failure);
    reg.RemoveCondition(Ready);
    reg.Assign(Progressing, Yes);
    PrepareRegisteredForActivation(reg);
    ok := removal.None?;
  }

  method PrepareActivatedForKeepalive(reg: Registration)
    requires reg.Valid()
    modifies reg`conditions, reg`rest
    ensures reg.Valid()
    ensures reg.Status() == ActivatedForKeepalive(old(reg.Status()))
  {
    reg.RemoveCondition(OfflineCertificateReady);
    reg.Assign(OfflineCertificateReady, Yes);
    reg.Assign(OfflineActivationDone, Yes);
  }

  method ReconcileActivateError(reg: Registration, err: Option<Fault>)
    requires reg.Valid()
    modifies reg`conditions, reg`rest
    ensures reg.Valid()
    ensures reg.Status() == ActivateErrorReconciled(old(reg.Status()), err)
    ensures err.Some? ==> FailedByCertificate(reg.Status(), err.value)
  {
    reg.Assign(Activated, No);
    reg.Reason(Activated, "offline activation failed");
    reg.SetError(OfflineCertificateReady, "cannot validate offline certificate", err);
    reg.SetCurrentCondition(OfflineCertificateReady);
    reg.rest := reg.rest.(activated := false);
    Lifecycle.PrepareFailed(reg, err);
  }
}
