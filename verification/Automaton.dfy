/** The lifecycle automaton: which status writes and SCC calls are legal in which state, and the proof that every
    run of the controller, under any behaviour of the API server, of SCC and of the other writers, is one of its runs. */
module Automaton {
  import opened Wrappers
  import opened Conditions
  import opened Registrations
  import opened ApiServer
  import opened Reconciliation
  import Lifecycle
  import OnlineMode
  import OfflineMode

  /** `registered` tells whether SCC has accepted a registration (or a keepalive of one) before, and `accepted` whether
      the activation, or the certificate, has been accepted since the last status write. */
  datatype Node = Node(status: Status, registered: bool, accepted: bool)

  const START := Node(FRESH, false, false)

  predicate Enabled(mode: Mode, m: Mutation, n: Node) {
    if mode.Online? then EnabledOnline(m, n) else EnabledOffline(m, n)
  }

  predicate EnabledOnline(m: Mutation, n: Node) {
    var s := n.status;
    !Lifecycle.IsFailed(s) &&
    match m
    case Begin => OnlineMode.NeedsRegistration(s) && NotProgressing(s)
    case AttachSecret => OnlineMode.NeedsRegistration(s) && !NotProgressing(s)
    case Register(id, _, now) =>
      OnlineMode.NeedsRegistration(s) && !NotProgressing(s) && n.registered && (id.Some? || s.systemId.Some?) && now > 0
    case FailRegister(_, _, now) => OnlineMode.NeedsRegistration(s) && !NotProgressing(s) && now > 0
    case Activate(_, now) => AwaitsActivation(s) && n.accepted && now > 0
    case FailActivate(_, now) => AwaitsActivation(s) && now > 0
    case Keep(now) => IsRegisteredAndActive(s) && now > 0
    case Reset => IsRegisteredAndActive(s)
  }

  predicate AwaitsActivation(s: Status) {
    !OnlineMode.NeedsRegistration(s) && Lifecycle.NeedsActivation(s) && OnlineMode.ReadyForActivation(s)
  }

  predicate IsRegisteredAndActive(s: Status) {
    !OnlineMode.NeedsRegistration(s) && !Lifecycle.NeedsActivation(s)
  }

  /** Offline the guards also read the spec, which other writers change at will; this is what they leave on the status. */
  predicate EnabledOffline(m: Mutation, n: Node) {
    var s := n.status;
    match m
    case Begin => AwaitsRequest(s) && NotProgressing(s)
    case AttachSecret => AwaitsRequest(s) && !NotProgressing(s)
    case Register(id, _, now) => AwaitsRequest(s) && !NotProgressing(s) && id.None? && now > 0 && s.requestRef
    case FailRegister(_, _, _) => AwaitsRequest(s) && !NotProgressing(s)
    case Activate(_, now) => !Lifecycle.IsFailed(s) && OfflineMode.NeedsActivation(s) && n.accepted && now > 0
    case FailActivate(fault, _) =>
      !Lifecycle.IsFailed(s) && OfflineMode.NeedsActivation(s) &&
      fault.Some? && fault.value.text != OfflineMode.AWAITING_CERTIFICATE
    case Keep(now) => !Lifecycle.IsFailed(s) && !OfflineMode.NeedsActivation(s) && now > 0
    case Reset => s.activated || Lifecycle.IsFailed(s) || !OfflineMode.NeedsActivation(s)
  }

  /** No request has gone out yet. */
  predicate AwaitsRequest(s: Status) {
    !Lifecycle.IsFailed(s) && !s.activated &&
    (s.processed == 0 || OfflineRequestReady !in s.marks || s.Is(OfflineRequestReady, No))
  }

  ghost predicate Allowed(mode: Mode, n: Node, e: Event) {
    match e
    case StatusWritten(before, after) =>
      before == n.status && exists m :: Enabled(mode, m, n) && after == Apply(mode, m, before)
    case SpecWritten(_, _) => false
    case RegisterCalled(_) => mode.Online? ==> !Lifecycle.IsFailed(n.status) && OnlineMode.NeedsRegistration(n.status)
    case ActivateCalled(_) => mode.Online? ==> !Lifecycle.IsFailed(n.status) && AwaitsActivation(n.status)
  }

  function After(n: Node, e: Event): Node {
    match e
    case StatusWritten(_, after) => n.(status := after, accepted := false)
    case RegisterCalled(ok) => n.(registered := n.registered || ok)
    case ActivateCalled(ok) => n.(accepted := ok)
    case _ => n
  }

  function Fold(start: Node, t: seq<Event>): Node {
    if t == [] then start else After(Fold(start, t[..|t| - 1]), t[|t| - 1])
  }

  /** The trace is a run of the automaton. */
  ghost predicate Follows(mode: Mode, start: Node, t: seq<Event>) {
    t == [] ||
    (Follows(mode, start, t[..|t| - 1]) && Allowed(mode, Fold(start, t[..|t| - 1]), t[|t| - 1]))
  }

  function Here(start: Node, w: World): Node {
    Fold(start, w.trace)
  }

  /** The world's history is a run of the automaton that ends in the stored status. */
  ghost predicate Sound(mode: Mode, start: Node, w: World) {
    Follows(mode, start, w.trace) && Here(start, w).status == w.stored.status && w.stored.spec.mode == mode
  }

  lemma Logged(mode: Mode, start: Node, w: World, e: Event)
    requires Follows(mode, start, w.trace) && Allowed(mode, Here(start, w), e)
    ensures Follows(mode, start, w.Log(e).trace) && Here(start, w.Log(e)) == After(Here(start, w), e)
  {
    assert (w.trace + [e])[..|w.trace|] == w.trace;
  }

  // ----- one API call

  /** Time passes between two looks at the server: other writers touched at most the spec, and each change has its version. */
  predicate Later(v: World, w: World) {
    v.stored.version <= w.stored.version &&
    v.stored.spec.mode == w.stored.spec.mode &&
    (v.stored.version == w.stored.version ==> v.stored == w.stored) &&
    (OthersLeaveSpec(v.script) ==> OthersLeaveSpec(w.script) && w.stored.spec == v.stored.spec)
  }

  predicate OthersLeaveSpec(script: seq<Beat>) {
    forall b :: b in script ==> !b.edit.Respec?
  }

  /** Only the environment acted. */
  predicate Idle(v: World, w: World) {
    Later(v, w) && w.trace == v.trace && w.stored.status == v.stored.status
  }

  lemma GetIsIdle(w: World)
    ensures var r := Get(w); Idle(w, r.world) && !r.error.Conflict? && (r.error.NoError? ==> r.record == r.world.stored)
  {
  }

  /** An object read from the server and written back with the same spec changes nothing through the main resource. */
  lemma UpdateIsIdle(w: World, obj: Record)
    requires obj.version <= w.stored.version && (obj.version == w.stored.version ==> obj.spec == w.stored.spec)
    ensures var r := Update(w, obj); Idle(w, r.world)
    ensures var r := Update(w, obj); r.error.Conflict? ==> obj.version < r.world.stored.version
  {
  }

  ghost predicate WriteOutcome(mode: Mode, start: Node, w: World, obj: Record, r: Reply) {
    && Sound(mode, start, r.world) && Later(w, r.world)
    && Here(start, r.world).registered == Here(start, w).registered
    && (r.error.Conflict? || obj.version < w.stored.version ==> Idle(w, r.world))
    && (r.error.NoError? ==> r.record == r.world.stored && r.record.status == obj.status)
    && (r.world.stored.status == w.stored.status || r.world.stored.status == obj.status)
    && (r.world.stored.status == w.stored.status ==> r.world.trace == w.trace)
  }

  /** A status write either reaches the server, and is one event, or the call leaves the status alone. */
  lemma UpdateStatusOutcome(w: World, obj: Record)
    requires obj.version <= w.stored.version
    ensures var r := UpdateStatus(w, obj);
            && Later(w, r.world)
            && (Idle(w, r.world) ||
                (r.world.trace == w.trace + [StatusWritten(w.stored.status, obj.status)] && r.world.stored.status == obj.status))
            && (r.error.Conflict? || obj.version < w.stored.version ==> Idle(w, r.world))
            && (r.error.NoError? ==> r.record == r.world.stored && r.record.status == obj.status)
            && (obj.status == w.stored.status ==> Idle(w, r.world))
  {
  }

  lemma {:induction false} AllowedWriteIsSound(mode: Mode, start: Node, w: World, obj: Record)
    requires Sound(mode, start, w) && obj.version <= w.stored.version
    requires obj.status == w.stored.status || Allowed(mode, Here(start, w), StatusWritten(w.stored.status, obj.status))
    ensures WriteOutcome(mode, start, w, obj, UpdateStatus(w, obj))
  {
    UpdateStatusOutcome(w, obj);
    if !Idle(w, UpdateStatus(w, obj).world) {
      Logged(mode, start, w, StatusWritten(w.stored.status, obj.status));
    }
  }

  lemma {:induction false} UpdateStatusIsSound(mode: Mode, start: Node, w: World, obj: Record, m: Mutation)
    requires Sound(mode, start, w) && obj.version <= w.stored.version
    requires obj.status == w.stored.status || obj.status == Apply(mode, m, w.stored.status)
    requires obj.status != w.stored.status ==> Enabled(mode, m, Here(start, w))
    ensures WriteOutcome(mode, start, w, obj, UpdateStatus(w, obj))
  {
    AllowedWriteIsSound(mode, start, w, obj);
  }

  // ----- the retry loops

  ghost predicate AttemptOutcome(mode: Mode, start: Node, w: World, r: Attempt) {
    && Sound(mode, start, r.world) && Later(w, r.world)
    && Here(start, r.world).registered == Here(start, w).registered
    && (r.error.Conflict? ==> r.world.stored.status == w.stored.status)
    && (r.world.stored.status == w.stored.status ==> r.world.trace == w.trace)
  }

  lemma {:induction false} ReconcileOnceIsSound(mode: Mode, start: Node, w: World, m: Mutation)
    requires Sound(mode, start, w) && Enabled(mode, m, Here(start, w))
    ensures AttemptOutcome(mode, start, w, ReconcileOnce(w, mode, m))
  {
    var got := Get(w);
    GetIsIdle(w);
    if got.error.NoError? {
      var obj := got.record.(status := Apply(mode, m, got.record.status));
      UpdateIsIdle(got.world, obj);
      var middle := if got.record.spec.DiffersFromItsCopy() then Update(got.world, obj).world else got.world;
      assert Idle(got.world, middle) && Idle(w, middle);
      UpdateStatusIsSound(mode, start, middle, obj, m);
    }
  }

  lemma {:induction false} ReconcileErrorIsSound(mode: Mode, start: Node, w: World, m: Mutation, tries: nat)
    requires Sound(mode, start, w) && Enabled(mode, m, Here(start, w))
    ensures AttemptOutcome(mode, start, w, ReconcileError(w, mode, m, tries))
    decreases tries
  {
    ReconcileOnceIsSound(mode, start, w, m);
    var once := ReconcileOnce(w, mode, m);
    if once.error.Conflict? && tries > 1 {
      ReconcileErrorIsSound(mode, start, once.world, m, tries - 1);
    }
  }

  lemma {:induction false} BeginRegistrationIsSound(mode: Mode, start: Node, w: World, obj: Record, tries: nat)
    requires Sound(mode, start, w) && obj.version <= w.stored.version && obj.spec.mode == mode
    requires Enabled(mode, Begin, Here(start, w))
    requires Apply(mode, Begin, obj.status) == Apply(mode, Begin, w.stored.status)
    ensures Sound(mode, start, BeginRegistration(w, obj, tries).world) && Later(w, BeginRegistration(w, obj, tries).world)
    decreases tries
  {
    var updated := obj.(status := Apply(mode, Begin, obj.status));
    var put := UpdateStatus(w, updated);
    UpdateStatusIsSound(mode, start, w, updated, Begin);
    if put.error.Conflict? && tries > 1 {
      assert updated.status.marks[Progressing := updated.status.marks[Progressing]] == updated.status.marks;
      BeginRegistrationIsSound(mode, start, put.world, updated, tries - 1);
    }
  }

  lemma {:induction false} SaveActivationIsSound(mode: Mode, start: Node, w: World, a: Answers, tries: nat)
    requires Sound(mode, start, w) && a.now > 0
    requires forall sub :: Enabled(mode, Activate(sub, a.now), Here(start, w))
    ensures Sound(mode, start, SaveActivation(w, mode, a, tries).world) && Later(w, SaveActivation(w, mode, a, tries).world)
    decreases tries
  {
    var got := Get(w);
    GetIsIdle(w);
    if got.error.NoError? {
      var sub := Subscribed(mode, a, tries);
      var next: World;
      if sub.None? {
        assert MayActivate(mode, Here(start, w)) by {
          assert Enabled(mode, Activate(OnlineMode.Subscription(0, ""), a.now), Here(start, w));
        }
        ReconcileErrorIsSound(mode, start, got.world, FailActivate(None, a.now), RETRY_STEPS);
        next := ReconcileError(got.world, mode, FailActivate(None, a.now), RETRY_STEPS).world;
      } else {
        var obj := got.record.(status := Apply(mode, Activate(sub.value, a.now), got.record.status));
        UpdateStatusIsSound(mode, start, got.world, obj, Activate(sub.value, a.now));
        next := UpdateStatus(got.world, obj).world;
      }
      if next.stored.status == w.stored.status && tries > 1 {
        assert Here(start, next) == Here(start, w);
        SaveActivationIsSound(mode, start, next, a, tries - 1);
      }
    }
  }

  lemma {:induction false} SaveKeepaliveIsSound(mode: Mode, start: Node, w: World, a: Answers, tries: nat)
    requires Sound(mode, start, w) && Enabled(mode, Keep(a.now), Here(start, w))
    ensures Sound(mode, start, SaveKeepalive(w, mode, a, tries).world) && Later(w, SaveKeepalive(w, mode, a, tries).world)
    decreases tries
  {
    var got := Get(w);
    GetIsIdle(w);
    if got.error.NoError? {
      var obj := got.record.(status := Apply(mode, Keep(a.now), got.record.status));
      UpdateStatusIsSound(mode, start, got.world, obj, Keep(a.now));
      if UpdateStatus(got.world, obj).error.Conflict? && tries > 1 {
        SaveKeepaliveIsSound(mode, start, UpdateStatus(got.world, obj).world, a, tries - 1);
      }
    }
  }

  lemma {:induction false} SaveKeepaliveErrorIsIdle(mode: Mode, w: World, f: Fault, a: Answers, tries: nat)
    ensures Idle(w, SaveKeepaliveError(w, mode, f, a, tries).world)
    decreases tries
  {
    var got := Get(w);
    GetIsIdle(w);
    if got.error.NoError? {
      var s := if mode.Online? then OnlineMode.KeepaliveErrorReconciled(got.record.status, f, a.now) else got.record.status;
      var put := Update(got.world, got.record.(status := s));
      UpdateIsIdle(got.world, got.record.(status := s));
      if put.error.Conflict? && tries > 1 {
        SaveKeepaliveErrorIsIdle(mode, put.world, f, a, tries - 1);
      }
    }
  }

  // ----- what the loops write, from any state

  /** Other writers can take the credentials away, but do not fill them in. */
  predicate VaultShrinks(v: World, w: World) {
    w.vault == v.vault || w.vault.Absent?
  }

  lemma CallsShrinkTheVault(w: World, obj: Record)
    ensures VaultShrinks(w, Get(w).world) && VaultShrinks(w, UpdateStatus(w, obj).world) && VaultShrinks(w, Update(w, obj).world)
  {
  }

  /** The error reconciler writes its mutation of the status once, or not at all. */
  lemma {:induction false} ReconcileOnceWrites(w: World, mode: Mode, m: Mutation)
    ensures var r := ReconcileOnce(w, mode, m);
            && r.world.stored.spec.mode == w.stored.spec.mode && VaultShrinks(w, r.world)
            && (r.world.stored.status == w.stored.status || r.world.stored.status == Apply(mode, m, w.stored.status))
            && (r.error.Conflict? ==> r.world.stored.status == w.stored.status)
  {
    var got := Get(w);
    GetIsIdle(w);
    CallsShrinkTheVault(w, w.stored);
    if got.error.NoError? {
      var obj := got.record.(status := Apply(mode, m, got.record.status));
      UpdateIsIdle(got.world, obj);
      CallsShrinkTheVault(got.world, obj);
      var middle := if got.record.spec.DiffersFromItsCopy() then Update(got.world, obj).world else got.world;
      UpdateStatusOutcome(middle, obj);
      CallsShrinkTheVault(middle, obj);
    }
  }

  lemma {:induction false} ReconcileErrorWrites(w: World, mode: Mode, m: Mutation, tries: nat)
    ensures var r := ReconcileError(w, mode, m, tries);
            && r.world.stored.spec.mode == w.stored.spec.mode && VaultShrinks(w, r.world)
            && (r.world.stored.status == w.stored.status || r.world.stored.status == Apply(mode, m, w.stored.status))
    decreases tries
  {
    ReconcileOnceWrites(w, mode, m);
    var once := ReconcileOnce(w, mode, m);
    if once.error.Conflict? && tries > 1 {
      ReconcileErrorWrites(once.world, mode, m, tries - 1);
    }
  }

  lemma {:induction false} SaveKeepaliveWrites(w: World, mode: Mode, a: Answers, tries: nat)
    ensures var r := SaveKeepalive(w, mode, a, tries);
            r.world.stored.status == w.stored.status || r.world.stored.status == Apply(mode, Keep(a.now), w.stored.status)
    decreases tries
  {
    var got := Get(w);
    GetIsIdle(w);
    if got.error.NoError? {
      var obj := got.record.(status := Apply(mode, Keep(a.now), got.record.status));
      UpdateStatusOutcome(got.world, obj);
      if UpdateStatus(got.world, obj).error.Conflict? && tries > 1 {
        SaveKeepaliveWrites(UpdateStatus(got.world, obj).world, mode, a, tries - 1);
      }
    }
  }

  lemma {:induction false} SaveOfflineActivationWrites(w: World, a: Answers, tries: nat)
    ensures var r := SaveActivation(w, Offline, a, tries);
            r.world.stored.status == w.stored.status ||
            r.world.stored.status == Apply(Offline, Activate(OnlineMode.Subscription(0, ""), a.now), w.stored.status)
    decreases tries
  {
    var got := Get(w);
    GetIsIdle(w);
    if got.error.NoError? {
      var m := Activate(OnlineMode.Subscription(0, ""), a.now);
      var obj := got.record.(status := Apply(Offline, m, got.record.status));
      UpdateStatusOutcome(got.world, obj);
      if UpdateStatus(got.world, obj).error.Conflict? && tries > 1 {
        SaveOfflineActivationWrites(UpdateStatus(got.world, obj).world, a, tries - 1);
      }
    }
  }

  // ----- the branches of OnRegistrationChange, on the current stored object

  lemma {:induction false} SecretErrorIsSound(mode: Mode, start: Node, v: World, f: Fault, a: Answers)
    requires Sound(mode, start, v) && a.now > 0 && Enabled(mode, AttachSecret, Here(start, v))
    ensures var r := ReconcileError(v, mode, FailRegister(f, OnlineMode.REGISTRATION_PREPARE, a.now), RETRY_STEPS);
            Sound(mode, start, r.world) && Later(v, r.world)
  {
    ReconcileErrorIsSound(mode, start, v, FailRegister(f, OnlineMode.REGISTRATION_PREPARE, a.now), RETRY_STEPS);
  }

  /** What registering may assume: the secret is attached and the announcement is still due. */
  predicate MayRegister(mode: Mode, n: Node) {
    Enabled(mode, AttachSecret, n) && (if mode.Online? then n.status.credentialsRef else n.status.requestRef)
  }

  lemma AttachedStaysEnabled(mode: Mode, n: Node, obj: Record)
    requires Enabled(mode, AttachSecret, n) && n.status == obj.status && obj.spec.mode == mode
    ensures forall k: Node :: k.status == Prepared(obj).status ==> MayRegister(mode, k)
  {
  }

  /** Calling SCC leaves an event, and maybe credentials. */
  lemma CalledIsSound(mode: Mode, start: Node, w: World, vault: Vault, ok: bool)
    requires Sound(mode, start, w) && MayRegister(mode, Here(start, w))
    ensures var v := w.(vault := vault).Log(RegisterCalled(ok));
            && Sound(mode, start, v) && Later(w, v) && MayRegister(mode, Here(start, v))
            && Here(start, v).status == Here(start, w).status && (ok ==> Here(start, v).registered)
  {
    Logged(mode, start, w.(vault := vault), RegisterCalled(ok));
  }

  lemma {:induction false} RegisterErrorIsSound(mode: Mode, start: Node, w: World, vault: Vault, f: Fault, a: Answers)
    requires Sound(mode, start, w) && a.now > 0 && MayRegister(mode, Here(start, w))
    ensures var failure := FailRegister(f, OnlineMode.REGISTRATION_MAIN, a.now);
            var r := ReconcileError(w.(vault := vault).Log(RegisterCalled(false)), mode, failure, RETRY_STEPS);
            Sound(mode, start, r.world) && Later(w, r.world)
  {
    CalledIsSound(mode, start, w, vault, false);
    var v := w.(vault := vault).Log(RegisterCalled(false));
    var failure := FailRegister(f, OnlineMode.REGISTRATION_MAIN, a.now);
    assert Enabled(mode, failure, Here(start, v));
    ReconcileErrorIsSound(mode, start, v, failure, RETRY_STEPS);
  }

  lemma {:induction false} RegisterAnswerIsSound(mode: Mode, start: Node, w: World, vault: Vault, obj: Record, id: int, a: Answers)
    requires Sound(mode, start, w) && a.now > 0 && MayRegister(mode, Here(start, w)) && obj.spec.mode == mode
    requires mode.Offline? ==> id == OFFLINE_SYSTEM_ID
    ensures var r := FinishAnnounce(w.(vault := vault).Log(RegisterCalled(true)), obj, w.stored, id, a);
            Sound(mode, start, r.world) && Later(w, r.world)
  {
    CalledIsSound(mode, start, w, vault, true);
    FinishAnnounceIsSound(mode, start, w.(vault := vault).Log(RegisterCalled(true)), obj, id, a);
  }

  lemma {:induction false} RegisterSystemIsSound(mode: Mode, start: Node, w: World, obj: Record, a: Answers)
    requires Sound(mode, start, w) && a.now > 0 && obj.spec.mode == mode && MayRegister(mode, Here(start, w))
    ensures Sound(mode, start, RegisterSystem(w, obj, w.stored, a).world)
    ensures Later(w, RegisterSystem(w, obj, w.stored, a).world)
  {
    var vault := VaultAfterRegister(w.stored.spec, w.vault, a);
    match CallRegister(w.stored.spec, w.vault, a) {
      case Nil =>
      case Error(f) => RegisterErrorIsSound(mode, start, w, vault, f, a);
      case Answer(id) => RegisterAnswerIsSound(mode, start, w, vault, obj, id, a);
    }
  }

  lemma {:induction false} FinishAnnounceIsSound(mode: Mode, start: Node, w: World, obj: Record, id: int, a: Answers)
    requires Sound(mode, start, w) && a.now > 0 && Here(start, w).registered && obj.spec.mode == mode
    requires MayRegister(mode, Here(start, w)) && (mode.Offline? ==> id == OFFLINE_SYSTEM_ID)
    ensures Sound(mode, start, FinishAnnounce(w, obj, w.stored, id, a).world) && Later(w, FinishAnnounce(w, obj, w.stored, id, a).world)
  {
    match SystemIdToSet(id, obj.status) {
      case Nil =>
      case Error(_) =>
      case Answer(toSet) =>
        if mode.Online? && toSet.None? && w.stored.status.systemId.None? {
          var f := Fault(None, "SCC system ID cannot be empty when preparing registered system");
          ReconcileErrorIsSound(mode, start, w, FailRegister(f, OnlineMode.REGISTRATION_FOR_ACTIVATION, a.now), RETRY_STEPS);
        } else {
          var m := Register(toSet, a.devMode, a.now);
          UpdateStatusIsSound(mode, start, w, w.stored.(status := Apply(mode, m, w.stored.status)), m);
        }
    }
  }

  lemma {:induction false} AttachIsSound(mode: Mode, start: Node, v: World)
    requires Sound(mode, start, v) && Enabled(mode, AttachSecret, Here(start, v))
    ensures var put := UpdateStatus(v, Prepared(v.stored));
            && Sound(mode, start, put.world) && Later(v, put.world)
            && (put.error.NoError? ==> put.record == put.world.stored && MayRegister(mode, Here(start, put.world)))
  {
    UpdateStatusIsSound(mode, start, v, Prepared(v.stored), AttachSecret);
    AttachedStaysEnabled(mode, Here(start, v), v.stored);
  }

  lemma {:induction false} AnnounceIsSound(mode: Mode, start: Node, w: World, a: Answers)
    requires Sound(mode, start, w) && a.now > 0
    requires Enabled(mode, AttachSecret, Here(start, w))
    ensures Sound(mode, start, Announce(w, w.stored, a).world) && Later(w, Announce(w, w.stored, a).world)
  {
    var obj := w.stored;
    var v := WithSecret(w, obj, a);
    assert Sound(mode, start, v) && Here(start, v) == Here(start, w) && Later(w, v);
    if MustAttach(obj) && !a.initSecret.Saved? {
      SecretErrorIsSound(mode, start, v, a.initSecret.fault, a);
    } else {
      AttachIsSound(mode, start, v);
      var put := UpdateStatus(v, Prepared(obj));
      if put.error.NoError? {
        RegisterSystemIsSound(mode, start, put.world, obj, a);
      }
    }
  }

  /** What activating may assume: the activation is due, whatever SCC will say to it. */
  predicate MayActivate(mode: Mode, n: Node) {
    !Lifecycle.IsFailed(n.status) &&
    (if mode.Online? then AwaitsActivation(n.status) else OfflineMode.NeedsActivation(n.status))
  }

  lemma {:induction false} FinishActivationIsSound(mode: Mode, start: Node, w: World, call: Call<()>, a: Answers)
    requires Sound(mode, start, w) && a.now > 0 && MayActivate(mode, Here(start, w))
    requires mode.Offline? && call.Error? ==> call.fault.text != OfflineMode.AWAITING_CERTIFICATE
    ensures Sound(mode, start, FinishActivation(w, mode, call, a).world) && Later(w, FinishActivation(w, mode, call, a).world)
  {
    match call {
      case Nil =>
      case Error(f) =>
        Logged(mode, start, w, ActivateCalled(false));
        ReconcileErrorIsSound(mode, start, w.Log(ActivateCalled(false)), FailActivate(Some(f), a.now), RETRY_STEPS);
      case Answer(_) =>
        Logged(mode, start, w, ActivateCalled(true));
        SaveActivationIsSound(mode, start, w.Log(ActivateCalled(true)), a, RETRY_STEPS);
    }
  }

  lemma OfflineErrorsAreOther(spec: Spec, vault: Vault, a: Answers)
    requires spec.mode.Offline? && CallActivate(spec, vault, a).Error?
    ensures CallActivate(spec, vault, a).fault.text != OfflineMode.AWAITING_CERTIFICATE
  {
  }

  lemma {:induction false} ActivateRegistrationIsSound(mode: Mode, start: Node, w: World, a: Answers)
    requires Sound(mode, start, w) && a.now > 0 && MayActivate(mode, Here(start, w))
    ensures Sound(mode, start, ActivateRegistration(w, w.stored, a).world) && Later(w, ActivateRegistration(w, w.stored, a).world)
  {
    var call := CallActivate(w.stored.spec, w.vault, a);
    if mode.Offline? && call.Error? {
      OfflineErrorsAreOther(w.stored.spec, w.vault, a);
    }
    FinishActivationIsSound(mode, start, w, call, a);
  }

  lemma {:induction false} ResetRegistrationIsSound(mode: Mode, start: Node, w: World, obj: Record, a: Answers)
    requires Sound(mode, start, w) && Enabled(mode, Reset, Here(start, w))
    requires obj.version == w.stored.version && obj.status == w.stored.status && obj.spec.mode == mode
    ensures Sound(mode, start, ResetRegistration(w, obj, a).world) && Later(w, ResetRegistration(w, obj, a).world)
  {
    var updated := obj.(status := Apply(mode, Reset, obj.status));
    UpdateStatusIsSound(mode, start, w, updated, Reset);
    var put := UpdateStatus(w, updated);
    if put.error.NoError? {
      UpdateIsIdle(put.world, put.record);
    }
  }

  /** One call of the handler on the current stored object extends the run by legal events only. */
  lemma {:induction false} StepIsSound(mode: Mode, start: Node, w: World, a: Answers)
    requires Sound(mode, start, w) && a.now > 0
    ensures Sound(mode, start, OnRegistrationChange(w, w.stored, a).world) && Later(w, OnRegistrationChange(w, w.stored, a).world)
  {
    var obj := w.stored;
    if !a.serverUrl {
    } else if NeedsPreprocess(obj) {
      ResetRegistrationIsSound(mode, start, w, obj, a);
    } else if Lifecycle.IsFailed(obj.status) || RecentlyValidated(obj, a) || !a.metrics {
    } else if NeedsRegistration(obj) {
      if NotProgressing(obj.status) {
        BeginRegistrationIsSound(mode, start, w, obj, RETRY_STEPS);
      } else {
        AnnounceIsSound(mode, start, w, a);
      }
    } else if NeedsActivation(obj) {
      if ReadyForActivation(obj) {
        ActivateRegistrationIsSound(mode, start, w, a);
      }
    } else if Lifecycle.NeedsSyncNow(obj.spec) {
      ResetRegistrationIsSound(mode, start, w, obj.(spec := obj.spec.WithoutSyncNow()), a);
    } else {
      match CallKeepalive(obj, w.vault, a) {
        case Nil =>
        case Error(f) => SaveKeepaliveErrorIsIdle(mode, w, f, a, RETRY_STEPS);
        case Answer(_) => SaveKeepaliveIsSound(mode, start, w, a, RETRY_STEPS);
      }
    }
  }
}
