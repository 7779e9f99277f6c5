/** OnRegistrationChange and the retry loops around it, editing objects in place against the API server. */
module Controller {
  import opened Wrappers
  import opened Conditions
  import opened Registrations
  import opened ApiServer
  import opened Reconciliation
  import Lifecycle
  import OnlineMode
  import OfflineMode

  // The handler interface: each step edits the object by the rules of its mode.

  method AttachSecretRef(obj: Registration, mode: Mode)
    requires obj.Valid()
    modifies obj`rest
    ensures obj.Valid() && obj.Status() == Apply(mode, Reconciliation.AttachSecret, old(obj.Status()))
  {
    if mode.Online? {
      obj.rest := obj.rest.(credentialsRef := true);
    } else {
      obj.rest := obj.rest.(requestRef := true);
    }
  }

  /** Sets the system ID, prepares the object for activation and stamps it; fails without a system ID online. */
  method PrepareRegistered(obj: Registration, mode: Mode, toSet: Option<int>, devMode: bool, now: nat) returns (ok: bool)
    requires obj.Valid()
    modifies obj`conditions, obj`rest
    ensures obj.Valid()
    ensures ok <==> !(mode.Online? && toSet.None? && old(obj.Status()).systemId.None?)
    ensures ok ==> obj.Status() == Apply(mode, Reconciliation.Register(toSet, devMode, now), old(obj.Status()))
  {
    if toSet.Some? {
      obj.rest := obj.rest.(systemId := toSet);
    }
    ok := true;
    if mode.Online? {
      ok := OnlineMode.PrepareRegisteredForActivation(obj, devMode);
    } else {
      OfflineMode.PrepareRegisteredForActivation(obj);
    }
    if ok {
      obj.rest := obj.rest.(processed := now);
    }
  }

  method PrepareActivated(obj: Registration, mode: Mode, sub: OnlineMode.Subscription, now: nat)
    requires obj.Valid()
    modifies obj`conditions, obj`rest
    ensures obj.Valid() && obj.Status() == Apply(mode, Reconciliation.Activate(sub, now), old(obj.Status()))
  {
    Lifecycle.PrepareSuccessfulActivation(obj, now);
    if mode.Online? {
      OnlineMode.PrepareActivatedForKeepalive(obj, sub);
    } else {
      OfflineMode.PrepareActivatedForKeepalive(obj);
    }
  }

  method PrepareKept(obj: Registration, mode: Mode, now: nat)
    requires obj.Valid()
    modifies obj`conditions, obj`rest
    ensures obj.Valid() && obj.Status() == Apply(mode, Reconciliation.Keep(now), old(obj.Status()))
  {
    Lifecycle.PrepareSuccessfulActivation(obj, now);
    obj.Assign(Keepalive, Yes);
    if mode.Online? {
      obj.Assign(SccUrlReady, Yes);
    }
  }

  /** The error reconcilers of the two modes; `m` says which of them runs. */
  method ReconcileStatus(obj: Registration, mode: Mode, m: Mutation)
    requires obj.Valid() && (m.FailRegister? || m.FailActivate?)
    modifies obj`conditions, obj`rest
    ensures obj.Valid() && obj.Status() == Apply(mode, m, old(obj.Status()))
  {
    match m {
      case FailRegister(err, phase, now) =>
        if mode.Online? {
          OnlineMode.ReconcileRegisterError(obj, err, phase, now);
        } else {
          OfflineMode.ReconcileRegisterError(obj, err, phase);
        }
      case FailActivate(fault, now) =>
        if mode.Online? {
          OnlineMode.ReconcileActivateError(obj, fault, now);
        } else {
          OfflineMode.ReconcileActivateError(obj, fault);
        }
    }
  }

  method ResetToReadyForActivation(obj: Registration, mode: Mode, removal: Option<Fault>) returns (ok: bool)
    requires obj.Valid()
    modifies obj`conditions, obj`rest
    ensures obj.Valid() && (ok <==> mode.Online? || removal.None?)
    ensures ok ==> obj.Status() == Apply(mode, Reconciliation.Reset, old(obj.Status()))
  {
    if mode.Online? {
      OnlineMode.ResetToReadyForActivation(obj);
      ok := true;
    } else {
      ok := OfflineMode.ResetToReadyForActivation(obj, removal);
    }
  }

  class Handler {
    const client: Client

    constructor (c: Client)
      ensures client == c
    {
      client := c;
    }

    method ApplyReconciler(mode: Mode, m: Mutation) returns (error: ApiError)
      requires m.FailRegister? || m.FailActivate?
      modifies client
      ensures Attempt(client.world, error) == ReconcileError(old(client.world), mode, m, RETRY_STEPS)
    {
      var tries := RETRY_STEPS;
      while true
        invariant 1 <= tries <= RETRY_STEPS
        invariant ReconcileError(old(client.world), mode, m, RETRY_STEPS) == ReconcileError(client.world, mode, m, tries)
        decreases tries
      {
        var current;
        error, current := client.GetRegistration();
        if current == null {
          return;
        }
        var prepared := current.DeepCopy();
        ReconcileStatus(prepared, mode, m);
        var updateError := NoError;
        if current.spec.DiffersFromItsCopy() {
          updateError := client.Put(prepared);
        }
        var statusError, _ := client.PutStatus(prepared);
        error := Join(updateError, statusError);
        if !error.Conflict? || tries <= 1 {
          return;
        }
        tries := tries - 1;
      }
    }

    method StartProgressing(obj: Registration, steps: nat) returns (error: ApiError)
      requires obj.Valid() && steps >= 1
      modifies client
      ensures Attempt(client.world, error) == BeginRegistration(old(client.world), obj.View(), steps)
    {
      var progressing := obj.DeepCopy();
      var tries := steps;
      while true
        invariant 1 <= tries <= steps && fresh(progressing) && progressing.Valid()
        invariant BeginRegistration(old(client.world), obj.View(), steps) ==
                  BeginRegistration(client.world, progressing.View(), tries)
        decreases tries
      {
        progressing.Assign(Progressing, Yes);
        progressing.SetCurrentCondition(Progressing);
        error, progressing := client.PutStatus(progressing);
        if !error.Conflict? || tries <= 1 {
          return;
        }
        tries := tries - 1;
      }
    }

    method AnnounceSystem(obj: Registration, a: Answers) returns (verdict: Verdict)
      requires obj.Valid()
      modifies client
      ensures Outcome(client.world, verdict) == Announce(old(client.world), obj.View(), a)
    {
      var prepared := obj.DeepCopy();
      if (if obj.spec.mode.Online? then !obj.rest.credentialsRef else !obj.rest.requestRef) {
        if obj.spec.mode.Online? && a.initSecret.Stored() {
          client.world := client.world.(vault := Partial);
        }
        if !a.initSecret.Saved? {
          var _ := ApplyReconciler(obj.spec.mode, FailRegister(a.initSecret.fault, OnlineMode.REGISTRATION_PREPARE, a.now));
          return Errored;
        }
        AttachSecretRef(prepared, obj.spec.mode);
      }
      var error, announced := client.PutStatus(prepared);
      if !error.NoError? {
        return Errored;
      }
      verdict := RegisterAnnounced(obj, announced, a);
    }

    method RegisterAnnounced(obj: Registration, announced: Registration, a: Answers) returns (verdict: Verdict)
      requires obj.Valid() && announced.Valid()
      modifies client, announced
      ensures Outcome(client.world, verdict) == RegisterSystem(old(client.world), old(obj.View()), old(announced.View()), a)
    {
      var vault := client.world.vault;
      match CallRegister(announced.spec, vault, a) {
        case Nil =>
          return Panicked;
        case Error(f) =>
          client.world := client.world.(vault := VaultAfterRegister(announced.spec, vault, a)).Log(RegisterCalled(false));
          var _ := ApplyReconciler(obj.spec.mode, FailRegister(f, OnlineMode.REGISTRATION_MAIN, a.now));
          return Errored;
        case Answer(id) =>
          client.world := client.world.(vault := VaultAfterRegister(announced.spec, vault, a)).Log(RegisterCalled(true));
          verdict := FinishRegister(obj, announced, id, a);
      }
    }

    method FinishRegister(obj: Registration, announced: Registration, id: int, a: Answers) returns (verdict: Verdict)
      requires obj.Valid() && announced.Valid()
      modifies client, announced
      ensures Outcome(client.world, verdict) == FinishAnnounce(old(client.world), old(obj.View()), old(announced.View()), id, a)
    {
      var toSet := None;
      if id == KEEPALIVE_SYSTEM_ID {
        if obj.rest.systemId.None? {
          return Panicked;
        }
      } else if id != OFFLINE_SYSTEM_ID {
        toSet := Some(id);
      }
      var ok := PrepareRegistered(announced, obj.spec.mode, toSet, a.devMode, a.now);
      if !ok {
        var f := Fault(None, "SCC system ID cannot be empty when preparing registered system");
        var _ := ApplyReconciler(obj.spec.mode, FailRegister(f, OnlineMode.REGISTRATION_FOR_ACTIVATION, a.now));
        return Errored;
      }
      var error, _ := client.PutStatus(announced);
      verdict := Judge(error);
    }

    method Activate(obj: Registration, a: Answers) returns (verdict: Verdict)
      requires obj.Valid()
      modifies client
      ensures Outcome(client.world, verdict) == ActivateRegistration(old(client.world), obj.View(), a)
    {
      match CallActivate(obj.spec, client.world.vault, a) {
        case Nil =>
          return Panicked;
        case Error(f) =>
          client.world := client.world.Log(ActivateCalled(false));
          var _ := ApplyReconciler(obj.spec.mode, FailActivate(Some(f), a.now));
          return Errored;
        case Answer(_) =>
          client.world := client.world.Log(ActivateCalled(true));
          var error := StoreActivation(obj.spec.mode, a);
          return Judge(error);
      }
    }

    method StoreActivation(mode: Mode, a: Answers) returns (error: ApiError)
      modifies client
      ensures Attempt(client.world, error) == SaveActivation(old(client.world), mode, a, RETRY_STEPS)
    {
      var tries := RETRY_STEPS;
      while true
        invariant 1 <= tries <= RETRY_STEPS
        invariant SaveActivation(old(client.world), mode, a, RETRY_STEPS) == SaveActivation(client.world, mode, a, tries)
        decreases tries
      {
        var current;
        error, current := client.GetRegistration();
        if current == null {
          return;
        }
        var sub := Subscribed(mode, a, tries);
        if sub.None? {
          error := ApplyReconciler(mode, FailActivate(None, a.now));
          error := if error.Conflict? then Conflict else Refusal;
        } else {
          var activated := current.DeepCopy();
          PrepareActivated(activated, mode, sub.value, a.now);
          var putError, _ := client.PutStatus(activated);
          error := putError;
        }
        if !error.Conflict? || tries <= 1 {
          return;
        }
        tries := tries - 1;
      }
    }

    method ResetAndStore(updated: Registration, a: Answers) returns (verdict: Verdict)
      requires updated.Valid()
      modifies client, updated
      ensures Outcome(client.world, verdict) == ResetRegistration(old(client.world), old(updated.View()), a)
    {
      var ok := ResetToReadyForActivation(updated, updated.spec.mode, a.removal);
      if !ok {
        return Panicked;
      }
      var error, stored := client.PutStatus(updated);
      if !error.NoError? {
        return Errored;
      }
      error := client.Put(stored);
      verdict := Judge(error);
    }

    method StoreKeepaliveError(mode: Mode, f: Fault, a: Answers) returns (error: ApiError)
      modifies client
      ensures Attempt(client.world, error) == SaveKeepaliveError(old(client.world), mode, f, a, RETRY_STEPS)
    {
      var tries := RETRY_STEPS;
      while true
        invariant 1 <= tries <= RETRY_STEPS
        invariant SaveKeepaliveError(old(client.world), mode, f, a, RETRY_STEPS) == SaveKeepaliveError(client.world, mode, f, a, tries)
        decreases tries
      {
        var current;
        error, current := client.GetRegistration();
        if current == null {
          return;
        }
        var prepared := current.DeepCopy();
        if mode.Online? {
          OnlineMode.ReconcileKeepaliveError(prepared, f, a.now);
        }
        error := client.Put(prepared);
        if !error.Conflict? || tries <= 1 {
          return;
        }
        tries := tries - 1;
      }
    }

    method StoreKeepalive(mode: Mode, a: Answers) returns (error: ApiError)
      modifies client
      ensures Attempt(client.world, error) == SaveKeepalive(old(client.world), mode, a, RETRY_STEPS)
    {
      var tries := RETRY_STEPS;
      while true
        invariant 1 <= tries <= RETRY_STEPS
        invariant SaveKeepalive(old(client.world), mode, a, RETRY_STEPS) == SaveKeepalive(client.world, mode, a, tries)
        decreases tries
      {
        var current;
        error, current := client.GetRegistration();
        if current == null {
          return;
        }
        var kept := current.DeepCopy();
        PrepareKept(kept, mode, a.now);
        if mode.Offline? && a.requestSaved.Some? {
          return Refusal;
        }
        var putError, _ := client.PutStatus(kept);
        error := putError;
        if !error.Conflict? || tries <= 1 {
          return;
        }
        tries := tries - 1;
      }
    }

    method KeepAliveRegistration(obj: Registration, a: Answers) returns (verdict: Verdict)
      requires obj.Valid()
      modifies client
      ensures Outcome(client.world, verdict) == KeepAlive(old(client.world), obj.View(), a)
    {
      var record := obj.Encode();
      match CallKeepalive(record, client.world.vault, a) {
        case Nil =>
          return Panicked;
        case Error(f) =>
          var _ := StoreKeepaliveError(obj.spec.mode, f, a);
          return Errored;
        case Answer(_) =>
          var error := StoreKeepalive(obj.spec.mode, a);
          return Judge(error);
      }
    }

    method OnRegistrationChange(obj: Registration, a: Answers) returns (verdict: Verdict)
      requires obj.Valid()
      modifies client
      ensures Outcome(client.world, verdict) == Reconciliation.OnRegistrationChange(old(client.world), obj.View(), a)
      ensures obj.View() == old(obj.View())
    {
      if !a.serverUrl {
        return Errored;
      }
      var record := obj.Encode();
      if NeedsPreprocess(record) {
        var processed := obj.DeepCopy();
        verdict := ResetAndStore(processed, a);
        return;
      }
      if Lifecycle.IsFailed(record.status) {
        return Finished;
      }
      if RecentlyValidated(record, a) {
        return Finished;
      }
      if !a.metrics {
        return Errored;
      }
      if NeedsRegistration(record) {
        var has := obj.HasCondition(Progressing);
        if !has || record.status.Is(Progressing, No) {
          var error := StartProgressing(obj, RETRY_STEPS);
          return Judge(error);
        }
        verdict := AnnounceSystem(obj, a);
        return;
      }
      if NeedsActivation(record) {
        if !ReadyForActivation(record) {
          return Finished;
        }
        verdict := Activate(obj, a);
        return;
      }
      if Lifecycle.NeedsSyncNow(obj.spec) {
        if obj.spec.mode.Offline? && a.requestSaved.Some? {
          return Errored;
        }
        var updated := obj.DeepCopy();
        updated.spec := obj.spec.WithoutSyncNow();
        verdict := ResetAndStore(updated, a);
        return;
      }
      verdict := KeepAliveRegistration(obj, a);
    }
  }
}
