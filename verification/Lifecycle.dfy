/** The deciders, the processor and the failure reconciler both modes share. */
module Lifecycle {
  import opened Wrappers
  import opened Conditions
  import opened Registrations

  predicate IsFailed(s: Status) {
    Failure in s.marks && s.Is(Failure, Yes)
  }

  predicate NeedsSyncNow(spec: Spec) {
    spec.syncNow == Some(true)
  }

  predicate HasNotStarted(s: Status) {
    s.processed == 0
  }

  predicate NeedsActivation(s: Status) {
    s.processed == 0 || !s.activated
  }

  function SuccessfulActivation(s: Status, now: nat): (r: Status)
    ensures r.Is(Activated, Yes) && r.Is(Progressing, No) && r.Is(Ready, Yes) && r.Is(Done, Yes)
    ensures r == s.(marks := r.marks, current := Some(Done), activated := true, validated := now)
    ensures s.CurrentIsListed() ==> r.CurrentIsListed()
  {
    s.Set(Activated, Yes).Set(Progressing, No).Set(Ready, Yes).Set(Done, Yes)
    .(validated := now, activated := true).PointAt(Done)
  }

  function Failed(s: Status, err: Option<Fault>): (r: Status)
    ensures r.Is(Failure, Yes) && r.Is(Progressing, No) && r.Is(Ready, No)
    ensures r == s.(marks := r.marks, current := Some(Failure))
    ensures s.CurrentIsListed() ==> r.CurrentIsListed()
  {
    s.Set(Progressing, No).Set(Ready, No).Fail(Failure, "could not complete registration", err)
    .Set(Failure, Yes).PointAt(Failure)
  }

  method PrepareSuccessfulActivation(reg: Registration, now: nat)
    requires reg.Valid()
    modifies reg`conditions, reg`rest
    ensures reg.Valid()
    ensures reg.Status() == SuccessfulActivation(old(reg.Status()), now)
  {
    reg.Assign(Activated, Yes);
    reg.Assign(Progressing, No);
    reg.Assign(Ready, Yes);
    reg.Assign(Done, Yes);
    reg.rest := reg.rest.(validated := now, activated := true);
    reg.SetCurrentCondition(Done);
  }

  method PrepareFailed(reg: Registration, err: Option<Fault>)
    requires reg.Valid()
    modifies reg`conditions, reg`rest
    ensures reg.Valid()
    ensures reg.Status() == Failed(old(reg.Status()), err)
  {
    reg.Assign(Progressing, No);
    reg.Assign(Ready, No);
    reg.SetError(Failure, "could not complete registration", err);
    reg.Assign(Failure, Yes);
    reg.SetCurrentCondition(Failure);
  }
}
