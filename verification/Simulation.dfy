/** Safety over whole runs of online registrations: the phases they move through, and the order of SCC calls. */
module Simulation {
  import opened Wrappers
  import opened Conditions
  import opened Registrations
  import opened ApiServer
  import opened Reconciliation
  import opened Automaton
  import opened Reachability
  import Lifecycle
  import OnlineMode

  datatype Phase = PhaseNew | PhaseStarting | PhaseAnnounced | PhaseActive | PhaseFailed

  function PhaseOf(s: Status): Phase {
    if s.Is(Failure, Yes) then PhaseFailed
    else if s.processed == 0 then (if NotProgressing(s) then PhaseNew else PhaseStarting)
    else if s.activated then PhaseActive
    else PhaseAnnounced
  }

  /** Every way a persisted write may move an online registration. */
  predicate Edge(p: Phase, q: Phase) {
    match (p, q)
    case (PhaseNew, PhaseStarting) => true
    case (PhaseStarting, PhaseStarting) => true
    case (PhaseStarting, PhaseNew) => true
    case (PhaseStarting, PhaseAnnounced) => true
    case (PhaseStarting, PhaseFailed) => true
    case (PhaseAnnounced, PhaseActive) => true
    case (PhaseAnnounced, PhaseFailed) => true
    case (PhaseAnnounced, PhaseAnnounced) => true
    case (PhaseActive, PhaseActive) => true
    case (PhaseActive, PhaseAnnounced) => true
    case _ => false
  }

  function Source(m: Mutation): Phase {
    match m
    case Begin => PhaseNew
    case AttachSecret => PhaseStarting
    case Register(_, _, _) => PhaseStarting
    case FailRegister(_, _, _) => PhaseStarting
    case Activate(_, _) => PhaseAnnounced
    case FailActivate(_, _) => PhaseAnnounced
    case Keep(_) => PhaseActive
    case Reset => PhaseActive
  }

  /** Only an error while preparing secrets leads back to New, only the reset leads back to Announced. */
  function Target(m: Mutation): Phase {
    match m
    case Begin => PhaseStarting
    case AttachSecret => PhaseStarting
    case Register(_, _, _) => PhaseAnnounced
    case FailRegister(err, phase, _) =>
      if phase == OnlineMode.REGISTRATION_PREPARE && !OnlineMode.NonRecoverable(Some(err)) then PhaseNew else PhaseFailed
    case Activate(_, _) => PhaseActive
    case FailActivate(err, _) => if OnlineMode.NonRecoverable(err) then PhaseFailed else PhaseAnnounced
    case Keep(_) => PhaseActive
    case Reset => PhaseAnnounced
  }

  /** Each mutation is an edge of the phase automaton: it starts in its source phase and ends in its target phase. */
  lemma {:induction false} MutationIsEdge(m: Mutation, n: Node)
    requires Good(Online, n) && Enabled(Online, m, n)
    ensures PhaseOf(n.status) == Source(m)
    ensures PhaseOf(Apply(Online, m, n.status)) == Target(m)
  {
    match m {
      case FailRegister(err, phase, now) => RegisterErrorIsEdge(n, err, phase, now);
      case FailActivate(err, now) => ActivateErrorIsEdge(n, err, now);
      case Register(_, _, _) => RegisteringIsEdge(m, n);
      case Activate(_, _) => ActivatingIsEdge(m, n);
      case Keep(_) => ActivatingIsEdge(m, n);
      case _ => MovingOnIsEdge(m, n);
    }
  }

  lemma MovingOnIsEdge(m: Mutation, n: Node)
    requires (m.Begin? || m.AttachSecret? || m.Reset?) && Good(Online, n) && Enabled(Online, m, n)
    ensures PhaseOf(n.status) == Source(m) && PhaseOf(Apply(Online, m, n.status)) == Target(m)
  {
  }

  lemma RegisteringIsEdge(m: Mutation, n: Node)
    requires m.Register? && Good(Online, n) && Enabled(Online, m, n)
    ensures PhaseOf(n.status) == Source(m) && PhaseOf(Apply(Online, m, n.status)) == Target(m)
  {
  }

  lemma ActivatingIsEdge(m: Mutation, n: Node)
    requires (m.Activate? || m.Keep?) && Good(Online, n) && Enabled(Online, m, n)
    ensures PhaseOf(n.status) == Source(m) && PhaseOf(Apply(Online, m, n.status)) == Target(m)
  {
  }

  lemma {:induction false} RegisterErrorIsEdge(n: Node, err: Fault, phase: nat, now: nat)
    requires Good(Online, n) && Enabled(Online, FailRegister(err, phase, now), n)
    ensures PhaseOf(n.status) == PhaseStarting
    ensures PhaseOf(OnlineMode.RegisterErrorReconciled(n.status, err, phase, now)) == Target(FailRegister(err, phase, now))
  {
    if OnlineMode.NonRecoverable(Some(err)) {
      NonRecoverableRegisterError(n.status, err, phase, now);
    } else {
      RecoverableRegisterError(n.status, err, phase, now);
    }
  }

  lemma ActivateErrorIsEdge(n: Node, err: Option<Fault>, now: nat)
    requires Good(Online, n) && Enabled(Online, FailActivate(err, now), n)
    ensures PhaseOf(n.status) == PhaseAnnounced
    ensures PhaseOf(OnlineMode.ActivateErrorReconciled(n.status, err, now)) == Target(FailActivate(err, now))
  {
  }

  // ----- prefixes of a run

  lemma {:induction false} PrefixFollows(mode: Mode, start: Node, t: seq<Event>, i: nat)
    requires Follows(mode, start, t) && i <= |t|
    ensures Follows(mode, start, t[..i])
    decreases |t|
  {
    if i == |t| {
      assert t[..i] == t;
    } else {
      PrefixFollows(mode, start, t[..|t| - 1], i);
      assert t[..|t| - 1][..i] == t[..i];
    }
  }

  lemma EventIsAllowed(mode: Mode, start: Node, t: seq<Event>, i: nat)
    requires Follows(mode, start, t) && i < |t|
    ensures Allowed(mode, Fold(start, t[..i]), t[i]) && Fold(start, t[..i + 1]) == After(Fold(start, t[..i]), t[i])
  {
    PrefixFollows(mode, start, t, i + 1);
    var u := t[..i + 1];
    assert u[..|u| - 1] == t[..i] && u[|u| - 1] == t[i];
  }

  lemma {:induction false} NodeIsGood(mode: Mode, t: seq<Event>, i: nat)
    requires Follows(mode, START, t) && i <= |t|
    ensures Good(mode, Fold(START, t[..i]))
  {
    PrefixFollows(mode, START, t, i);
    FollowingKeepsGood(mode, START, t[..i]);
  }

  // ----- whole runs, of an online registration

  ghost predicate OnlineRun(t: seq<Event>) {
    Follows(Online, START, t)
  }

  lemma {:induction false} ReachableTraceIsOnlineRun(spec: Spec, inputs: seq<Input>)
    requires spec.mode.Online? && TimesAreReal(inputs)
    ensures OnlineRun(Run(Created(spec), inputs).trace)
  {
    RunIsSound(Online, START, Created(spec), inputs);
  }

  /** Simulation: whatever fails and whoever else writes, each persisted status write is an edge of the phase automaton. */
  lemma {:induction false} WritesAreEdges(spec: Spec, inputs: seq<Input>, i: nat)
    requires spec.mode.Online? && TimesAreReal(inputs)
    requires i < |Run(Created(spec), inputs).trace| && Run(Created(spec), inputs).trace[i].StatusWritten?
    ensures var e := Run(Created(spec), inputs).trace[i];
            Edge(PhaseOf(e.before), PhaseOf(e.after)) &&
            exists m :: e.after == Apply(Online, m, e.before) && PhaseOf(e.before) == Source(m) && PhaseOf(e.after) == Target(m)
  {
    var t := Run(Created(spec), inputs).trace;
    ReachableTraceIsOnlineRun(spec, inputs);
    EventIsAllowed(Online, START, t, i);
    NodeIsGood(Online, t, i);
    var n := Fold(START, t[..i]);
    var m :| Enabled(Online, m, n) && t[i].after == Apply(Online, m, t[i].before);
    MutationIsEdge(m, n);
  }

  lemma NothingIsAllowedWhenFailed(n: Node, e: Event)
    requires PhaseOf(n.status) == PhaseFailed
    ensures !Allowed(Online, n, e)
  {
  }

  /** A failure is the last event of a history: after it nothing is written and SCC is not called. */
  lemma FailureEndsTheHistory(t: seq<Event>, i: nat)
    requires OnlineRun(t) && i <= |t| && PhaseOf(Fold(START, t[..i]).status) == PhaseFailed
    ensures i == |t|
  {
    if i < |t| {
      EventIsAllowed(Online, START, t, i);
      NothingIsAllowedWhenFailed(Fold(START, t[..i]), t[i]);
      assert false;
    }
  }

  /** Failed is absorbing: no further inputs change the status of a failed online registration, or its history. */
  lemma {:induction false} FailedIsAbsorbing(w: World, inputs: seq<Input>)
    requires w.stored.spec.mode.Online? && PhaseOf(w.stored.status) == PhaseFailed
    ensures var v := Run(w, inputs);
            v.stored.status == w.stored.status && v.trace == w.trace && v.stored.spec.mode.Online?
  {
    if inputs != [] {
      FailedIsAbsorbing(w, inputs[..|inputs| - 1]);
    }
  }

  lemma {:induction false} StepKeepsProcessed(t: seq<Event>, k: nat)
    requires OnlineRun(t) && k < |t| && Fold(START, t[..k]).status.processed != 0
    ensures Fold(START, t[..k + 1]).status.processed != 0
  {
    EventIsAllowed(Online, START, t, k);
    NodeIsGood(Online, t, k);
    EventKeepsProcessed(Fold(START, t[..k]), t[k]);
  }

  lemma {:induction false} ProcessedNeverReturns(t: seq<Event>, i: nat, k: nat)
    requires OnlineRun(t) && i <= k <= |t| && Fold(START, t[..i]).status.processed != 0
    ensures Fold(START, t[..k]).status.processed != 0
    decreases k
  {
    if i < k {
      ProcessedNeverReturns(t, i, k - 1);
      StepKeepsProcessed(t, k - 1);
    }
  }

  lemma EventKeepsProcessed(n: Node, e: Event)
    requires Good(Online, n) && Allowed(Online, n, e) && n.status.processed != 0
    ensures After(n, e).status.processed != 0
  {
    if e.StatusWritten? {
      var m :| Enabled(Online, m, n) && e.after == Apply(Online, m, e.before);
      ProcessedStays(m, n);
    }
  }

  /** NeedsRegistration never becomes true again once it was false. */
  lemma RegistrationIsNotNeededAgain(t: seq<Event>, i: nat, k: nat)
    requires OnlineRun(t) && i <= k <= |t| && !OnlineMode.NeedsRegistration(Fold(START, t[..i]).status)
    ensures !OnlineMode.NeedsRegistration(Fold(START, t[..k]).status)
  {
    ProcessedNeverReturns(t, i, k);
    NodeIsGood(Online, t, k);
  }

  lemma ProcessedStays(m: Mutation, n: Node)
    requires Good(Online, n) && Enabled(Online, m, n) && n.status.processed != 0
    ensures Apply(Online, m, n.status).processed != 0
  {
    MutationIsEdge(m, n);
    match m {
      case FailActivate(err, now) =>
      case Activate(sub, now) =>
      case Keep(now) =>
      case Reset =>
      case _ =>
    }
  }

  predicate IsAnnouncement(e: Event) {
    e.StatusWritten? && e.before.processed == 0 && e.after.processed != 0 && e.after.Is(Announced, Yes)
  }

  function Announcements(t: seq<Event>): nat {
    if t == [] then 0 else Announcements(t[..|t| - 1]) + (if IsAnnouncement(t[|t| - 1]) then 1 else 0)
  }

  /** Announce once: at most one write ever turns an unregistered registration into an announced one. */
  lemma {:induction false} AnnouncedAtMostOnce(t: seq<Event>)
    requires OnlineRun(t)
    ensures Announcements(t) <= 1
    ensures Announcements(t) == 1 ==> Fold(START, t).status.processed != 0
  {
    if t != [] {
      var u := t[..|t| - 1];
      AnnouncedAtMostOnce(u);
      var n := Fold(START, u);
      var e := t[|t| - 1];
      if n.status.processed != 0 {
        FollowingKeepsGood(Online, START, u);
        EventKeepsProcessed(n, e);
      }
    }
  }

  lemma {:induction false} RegisteredMeansCalled(mode: Mode, t: seq<Event>)
    requires Fold(START, t).registered
    ensures exists j :: 0 <= j < |t| && t[j] == RegisterCalled(true)
  {
    if t != [] && t[|t| - 1] != RegisterCalled(true) {
      RegisteredMeansCalled(mode, t[..|t| - 1]);
      var j :| 0 <= j < |t| - 1 && t[..|t| - 1][j] == RegisterCalled(true);
      assert t[j] == RegisterCalled(true);
    }
  }

  /** Every call that activates the system in the activation branch comes after a registration that SCC accepted,
      on a registration that is announced and has a system ID. */
  lemma ActivationFollowsRegistration(t: seq<Event>, i: nat)
    requires OnlineRun(t) && i < |t| && t[i].ActivateCalled?
    ensures exists j :: 0 <= j < i && t[j] == RegisterCalled(true)
    ensures var s := Fold(START, t[..i]).status; s.Is(Announced, Yes) && s.systemId.Some? && s.processed != 0
  {
    EventIsAllowed(Online, START, t, i);
    NodeIsGood(Online, t, i);
    RegisteredMeansCalled(Online, t[..i]);
    var j :| 0 <= j < |t[..i]| && t[..i][j] == RegisterCalled(true);
    assert t[j] == RegisterCalled(true);
  }

  /** SCC let an activation through, and no status was written since. */
  predicate AcceptedAt(t: seq<Event>, j: nat) {
    j < |t| && t[j] == ActivateCalled(true) && forall e :: e in t[j..] ==> !e.StatusWritten?
  }

  lemma {:induction false} AcceptedMeansCalled(t: seq<Event>)
    requires Fold(START, t).accepted
    ensures exists j: nat :: AcceptedAt(t, j)
  {
    if t != [] {
      var n := |t| - 1;
      if t[n] == ActivateCalled(true) {
        assert t[n..] == [t[n]] && AcceptedAt(t, n);
      } else {
        AcceptedMeansCalled(t[..n]);
        var j: nat :| AcceptedAt(t[..n], j);
        assert t[j..] == t[..n][j..] + [t[n]] && AcceptedAt(t, j);
      }
    }
  }

  lemma {:induction false} OnlyAnAcceptanceActivates(m: Mutation, n: Node)
    requires Good(Online, n) && Enabled(Online, m, n)
    requires !n.status.activated && Apply(Online, m, n.status).activated
    ensures n.accepted
  {
    MutationIsEdge(m, n);
    MutationKeepsGood(Online, m, n);
    assert PhaseOf(Apply(Online, m, n.status)) == PhaseActive;
  }

  /** Each write of a history that makes an inactive online registration active comes after an activation that SCC let
      through, and no other status was written in between. */
  lemma {:induction false} ActivationIsAccepted(t: seq<Event>, i: nat)
    requires OnlineRun(t) && i < |t| && t[i].StatusWritten? && !t[i].before.activated && t[i].after.activated
    ensures exists j: nat :: AcceptedAt(t[..i], j)
  {
    EventIsAllowed(Online, START, t, i);
    NodeIsGood(Online, t, i);
    var n := Fold(START, t[..i]);
    var m :| Enabled(Online, m, n) && t[i].after == Apply(Online, m, t[i].before);
    OnlyAnAcceptanceActivates(m, n);
    AcceptedMeansCalled(t[..i]);
  }

  /** No online registration is stuck waiting: one that needs activation, but not registration, is ready for it. */
  lemma {:induction false} OnlineIsNeverStuck(spec: Spec, inputs: seq<Input>)
    requires spec.mode.Online? && TimesAreReal(inputs)
    ensures var s := Run(Created(spec), inputs).stored.status;
            !Lifecycle.IsFailed(s) && !OnlineMode.NeedsRegistration(s) && Lifecycle.NeedsActivation(s)
            ==> OnlineMode.ReadyForActivation(s)
  {
    ReachableIsGood(spec, inputs);
  }

  /** Lost-update freedom, in both modes: each persisted status is one mutation of the lifecycle applied to the very
      status it replaces, and the handler's own writes never put an older spec back, or change it at all. */
  lemma {:induction false} NoUpdateIsLost(spec: Spec, inputs: seq<Input>, i: nat)
    requires TimesAreReal(inputs) && i < |Run(Created(spec), inputs).trace|
    ensures var t := Run(Created(spec), inputs).trace;
            && !t[i].SpecWritten?
            && (t[i].StatusWritten? ==>
                  t[i].before == Fold(START, t[..i]).status && t[i].after == Fold(START, t[..i + 1]).status &&
                  exists m :: Enabled(spec.mode, m, Fold(START, t[..i])) && t[i].after == Apply(spec.mode, m, t[i].before))
  {
    RunIsSound(spec.mode, START, Created(spec), inputs);
    EventIsAllowed(spec.mode, START, Run(Created(spec), inputs).trace, i);
  }

  // ----- where the code falls short of its comments

  /** A non-recoverable keepalive error prepares a failed status, but Update does not store it. */
  lemma {:induction false} KeepaliveFailureIsNotStored(w: World, f: Fault, a: Answers, tries: nat)
    requires OnlineMode.NonRecoverable(Some(f))
    ensures Lifecycle.IsFailed(OnlineMode.KeepaliveErrorReconciled(w.stored.status, f, a.now))
    ensures SaveKeepaliveError(w, Online, f, a, tries).world.stored.status == w.stored.status
  {
    SaveKeepaliveErrorIsIdle(Online, w, f, a, tries);
  }

  /** The handler never changes the stored spec, whatever happens during the call: in particular SyncNow stays set
      unless another writer clears it. */
  lemma {:induction false} SpecBelongsToOthers(mode: Mode, start: Node, w: World, a: Answers)
    requires Sound(mode, start, w) && a.now > 0 && OthersLeaveSpec(w.script)
    ensures OnRegistrationChange(w, w.stored, a).world.stored.spec == w.stored.spec
  {
    StepIsSound(mode, start, w, a);
  }
}
