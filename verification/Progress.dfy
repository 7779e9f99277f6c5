/** How fast registrations get where they are going when every call succeeds, and where they never arrive. */
module Progress {
  import opened Wrappers
  import opened Conditions
  import opened Registrations
  import opened ApiServer
  import opened Reconciliation
  import opened Automaton
  import opened Reachability
  import opened Simulation
  import Lifecycle
  import OnlineMode

  // ----- calls during which nothing goes wrong and nobody else writes

  const CLEAR := Beat(NoEdit, Answered)

  predicate Smooth(script: seq<Beat>) {
    |script| >= 2 && script[0] == CLEAR && script[1] == CLEAR
  }

  predicate AllAnswered(a: Answers) {
    && a.now > 0 && a.serverUrl && a.metrics && a.initSecret.Saved? && a.refresh.None?
    && a.register.Ok? && a.credentialsSave.Saved?
    && a.activate.None? && |a.subscriptions| > RETRY_STEPS && a.subscriptions[RETRY_STEPS].Ok?
    && a.keepalive.None? && a.requestSaved.None? && a.certificate.Valid? && a.removal.None?
  }

  predicate SmoothInput(i: Input) {
    i.edit.NoEdit? && Smooth(i.script) && AllAnswered(i.answers)
  }

  lemma ClearGet(w: World)
    requires w.present && w.script != [] && w.script[0] == CLEAR
    ensures Get(w) == Reply(w.(script := w.script[1..]), NoError, w.stored)
  {
  }

  lemma ClearUpdateStatus(w: World, obj: Record)
    requires w.present && w.script != [] && w.script[0] == CLEAR && obj.version == w.stored.version
    ensures var r := UpdateStatus(w, obj);
            r.error.NoError? && r.world.present && r.world.vault == w.vault && r.world.script == w.script[1..] &&
            r.record == r.world.stored && r.world.stored.status == obj.status && r.world.stored.spec == w.stored.spec
  {
  }

  // ----- online

  /** The distance to activation. */
  function Rank(s: Status): nat {
    match PhaseOf(s)
    case PhaseNew => 3
    case PhaseStarting => 2
    case PhaseAnnounced => 1
    case _ => 0
  }

  /** The secret is attached, but the credentials in it do not let the system register: they are complete, so that SCC is
      only sent a keepalive, or they are gone. */
  predicate Stranded(w: World) {
    w.stored.status.processed == 0 && w.stored.status.credentialsRef && !w.vault.Partial?
  }

  /** What reachable states satisfy that are not failed. */
  predicate OnlineAlive(w: World) {
    && w.present && w.stored.spec.mode.Online? && w.stored.spec.request.Some?
    && !Lifecycle.IsFailed(w.stored.status)
    && Good(Online, Node(w.stored.status, true, true))
  }

  /** And the credentials are there when they are needed. */
  predicate OnlineReady(w: World) {
    OnlineAlive(w) && !Stranded(w) && (w.stored.status.processed != 0 ==> !w.vault.Absent?)
  }

  /** The call succeeded, moved the status by one mutation and left the spec alone. */
  predicate Moved(w: World, o: Outcome, m: Mutation) {
    o.verdict.Finished? && o.world.present && o.world.stored.spec == w.stored.spec &&
    o.world.vault == w.vault &&
    o.world.stored.status == Apply(w.stored.spec.mode, m, w.stored.status)
  }

  lemma SmoothBegin(w: World, a: Answers)
    requires OnlineAlive(w) && Smooth(w.script) && AllAnswered(a) && PhaseOf(w.stored.status) == PhaseNew
    ensures Moved(w, OnRegistrationChange(w, w.stored, a), Begin)
  {
    ClearUpdateStatus(w, w.stored.(status := Apply(Online, Begin, w.stored.status)));
  }

  lemma SmoothRegister(w: World, obj: Record, a: Answers)
    requires w.present && w.script != [] && w.script[0] == CLEAR && AllAnswered(a) && w.vault.Partial?
    requires w.stored.spec.mode.Online? && w.stored.spec.request.Some? && obj.spec.mode.Online?
    ensures var m := Register(Some(a.register.value), a.devMode, a.now);
            Moved(w.(vault := Complete), RegisterSystem(w, obj, w.stored, a), m)
  {
    var v := w.(vault := Complete).Log(RegisterCalled(true));
    assert CallRegister(w.stored.spec, w.vault, a) == Answer(a.register.value);
    ClearUpdateStatus(v, v.stored.(status := Apply(Online, Register(Some(a.register.value), a.devMode, a.now), v.stored.status)));
  }

  lemma SmoothAnnounce(w: World, a: Answers)
    requires OnlineReady(w) && Smooth(w.script) && AllAnswered(a) && PhaseOf(w.stored.status) == PhaseStarting
    ensures var o := OnRegistrationChange(w, w.stored, a);
            o.verdict.Finished? && o.world.present && o.world.vault.Complete? && o.world.stored.spec == w.stored.spec &&
            o.world.stored.status ==
              Apply(Online, Register(Some(a.register.value), a.devMode, a.now), Apply(Online, AttachSecret, w.stored.status))
  {
    var attached := w.stored.(status := Apply(Online, AttachSecret, w.stored.status));
    assert Prepared(w.stored) == attached;
    var v := WithSecret(w, w.stored, a);
    assert v.vault.Partial?;
    ClearUpdateStatus(v, attached);
    var put := UpdateStatus(v, attached);
    SmoothRegister(put.world, w.stored, a);
    assert Announce(w, w.stored, a) == RegisterSystem(put.world, w.stored, put.record, a);
  }

  lemma SmoothActivate(w: World, a: Answers)
    requires OnlineReady(w) && Smooth(w.script) && AllAnswered(a) && PhaseOf(w.stored.status) == PhaseAnnounced
    ensures Moved(w, OnRegistrationChange(w, w.stored, a), Activate(a.subscriptions[RETRY_STEPS].value, a.now))
  {
    var v := w.Log(ActivateCalled(true));
    ClearGet(v);
    var u := Get(v).world;
    ClearUpdateStatus(u, u.stored.(status := Apply(Online, Activate(a.subscriptions[RETRY_STEPS].value, a.now), u.stored.status)));
  }

  lemma SmoothKeep(w: World, a: Answers)
    requires OnlineReady(w) && Smooth(w.script) && AllAnswered(a) && PhaseOf(w.stored.status) == PhaseActive
    requires !Lifecycle.NeedsSyncNow(w.stored.spec) && !RecentlyValidated(w.stored, a)
    ensures Moved(w, OnRegistrationChange(w, w.stored, a), Keep(a.now))
  {
    ClearGet(w);
    var u := Get(w).world;
    ClearUpdateStatus(u, u.stored.(status := Apply(Online, Keep(a.now), u.stored.status)));
  }

  lemma SmoothReset(w: World, a: Answers)
    requires OnlineReady(w) && Smooth(w.script) && AllAnswered(a) && PhaseOf(w.stored.status) == PhaseActive
    requires Lifecycle.NeedsSyncNow(w.stored.spec)
    ensures Moved(w, OnRegistrationChange(w, w.stored, a), Reset)
  {
    var updated := w.stored.(spec := w.stored.spec.WithoutSyncNow());
    ClearUpdateStatus(w, updated.(status := Apply(Online, Reset, updated.status)));
  }

  /** The mutation leads to its target phase, and the object stays ready for the next call. */
  lemma StaysReady(w: World, m: Mutation, v: World, n: Node)
    requires OnlineReady(w) && Good(Online, n) && n.status == w.stored.status && Enabled(Online, m, n)
    requires v.present && v.stored.spec == w.stored.spec && v.stored.status == Apply(Online, m, w.stored.status)
    requires v.vault == w.vault && Target(m) != PhaseFailed && !m.Register? && !m.AttachSecret?
    ensures OnlineReady(v) && PhaseOf(v.stored.status) == Target(m)
  {
    MutationIsEdge(m, n);
    MutationKeepsGood(Online, m, n);
    assert Good(Online, Node(v.stored.status, true, true));
  }

  lemma StartingMovesOn(w: World, a: Answers, n: Node)
    requires OnlineReady(w) && Smooth(w.script) && AllAnswered(a) && PhaseOf(w.stored.status) == PhaseStarting
    requires Good(Online, n) && n.status == w.stored.status && n.registered
    ensures var v := OnRegistrationChange(w, w.stored, a).world;
            OnlineReady(v) && v.stored.spec == w.stored.spec && PhaseOf(v.stored.status) == PhaseAnnounced
  {
    SmoothAnnounce(w, a);
    var attached := n.(status := Apply(Online, AttachSecret, n.status));
    MutationIsEdge(AttachSecret, n);
    MutationKeepsGood(Online, AttachSecret, n);
    MutationIsEdge(Register(Some(a.register.value), a.devMode, a.now), attached);
    MutationKeepsGood(Online, Register(Some(a.register.value), a.devMode, a.now), attached);
    RegisteringLeaves(attached.status, a);
  }

  /** One smooth call without SyncNow takes a waiting registration exactly one phase further. */
  lemma {:induction false} SmoothCallLowersRank(w: World, a: Answers)
    requires OnlineReady(w) && Smooth(w.script) && AllAnswered(a) && Rank(w.stored.status) > 0
    ensures var v := OnRegistrationChange(w, w.stored, a).world;
            OnlineReady(v) && v.stored.spec == w.stored.spec && Rank(v.stored.status) == Rank(w.stored.status) - 1 &&
            (Rank(v.stored.status) == 0 ==> v.stored.status.activated && v.stored.status.validated == a.now)
  {
    var n := Node(w.stored.status, true, true);
    var v := OnRegistrationChange(w, w.stored, a).world;
    match PhaseOf(w.stored.status) {
      case PhaseNew =>
        SmoothBegin(w, a);
        StaysReady(w, Begin, v, n);
      case PhaseStarting =>
        StartingMovesOn(w, a, n);
      case PhaseAnnounced =>
        SmoothActivate(w, a);
        StaysReady(w, Activate(a.subscriptions[RETRY_STEPS].value, a.now), v, n);
      case _ =>
    }
  }

  /** An active registration is left alone while its validation is young, and is validated again afterwards. */
  lemma ActiveStuttersWhileYoung(w: World, a: Answers)
    requires OnlineReady(w) && PhaseOf(w.stored.status) == PhaseActive && w.stored.spec.syncNow.None?
    requires a.serverUrl
    ensures w.stored.status.validated > a.now - MinCheckin(a.devMode) ==>
              OnRegistrationChange(w, w.stored, a) == Outcome(w, Finished)
    ensures w.stored.status.validated <= a.now - MinCheckin(a.devMode) && Smooth(w.script) && AllAnswered(a) ==>
              var v := OnRegistrationChange(w, w.stored, a).world;
              OnlineReady(v) && PhaseOf(v.stored.status) == PhaseActive && v.stored.status.validated == a.now &&
              v.stored.status.Is(Keepalive, Yes) && v.stored.status.Is(SccUrlReady, Yes)
  {
    if w.stored.status.validated <= a.now - MinCheckin(a.devMode) && Smooth(w.script) && AllAnswered(a) {
      SmoothKeep(w, a);
      StaysReady(w, Keep(a.now), OnRegistrationChange(w, w.stored, a).world, Node(w.stored.status, true, true));
    }
  }

  /** A fresh online registration is activated by exactly the third smooth call. */
  lemma ActivatedInExactlyThreeCalls(spec: Spec, inputs: seq<Input>)
    requires spec.mode.Online? && spec.request.Some? && |inputs| == 3 && forall i :: i in inputs ==> SmoothInput(i)
    ensures !Run(Created(spec), inputs[..1]).stored.status.activated
    ensures !Run(Created(spec), inputs[..2]).stored.status.activated
    ensures Run(Created(spec), inputs).stored.status.activated
    ensures Run(Created(spec), inputs).stored.spec == spec
  {
    var w0 := Created(spec);
    assert Good(Online, Node(FRESH, true, true));
    assert Run(w0, inputs[..0]) == w0;
    SmoothRunLowersRank(w0, inputs[..1]);
    SmoothRunLowersRank(w0, inputs[..2]);
    SmoothRunLowersRank(w0, inputs[..3]);
    assert inputs[..3] == inputs;
  }

  /** What an announcement leaves: the system ID and its address, the time, and the conditions of an announced system. */
  predicate AnnouncedAs(s: Status, a: Answers) {
    && a.register.Ok? && s.systemId == Some(a.register.value) && s.processed == a.now && s.credentialsRef
    && s.systemUrl == Some(SystemUrl(OnlineMode.BaseUrl(OnlineMode.Environment(a.devMode)), a.register.value))
    && s.Is(Announced, Yes) && s.Is(SccUrlReady, No) && s.Is(Failure, No) && s.Is(Ready, Yes)
  }

  lemma RegisteringLeaves(s: Status, a: Answers)
    requires AllAnswered(a) && s.credentialsRef
    ensures AnnouncedAs(Apply(Online, Register(Some(a.register.value), a.devMode, a.now), s), a)
  {
    OnlineMode.EnvironmentsHaveAddresses(a.devMode);
    OnlineMode.RegisteringAtLeaves(s.(systemId := Some(a.register.value)), OnlineMode.BaseUrl(OnlineMode.Environment(a.devMode)));
  }

  /** What an activation leaves: the time, the subscription that was read, and the conditions of an active system; the
      fields of the announcement stay. */
  predicate ActivatedAs(s: Status, before: Status, a: Answers) {
    && |a.subscriptions| > RETRY_STEPS && a.subscriptions[RETRY_STEPS].Ok?
    && s.product == Some(a.subscriptions[RETRY_STEPS].value.product) && s.expires == a.subscriptions[RETRY_STEPS].value.expires
    && s.validated == a.now && s.current == Some(Done)
    && s.Is(SccUrlReady, Yes) && s.Is(Activated, Yes) && s.Is(Ready, Yes) && s.Is(Done, Yes) && s.Is(Progressing, No)
    && s.Find(Announced) == before.Find(Announced) && s.Find(Failure) == before.Find(Failure)
    && s.systemId == before.systemId && s.processed == before.processed && s.systemUrl == before.systemUrl
    && s.credentialsRef == before.credentialsRef
  }

  lemma ActivatingLeaves(s: Status, a: Answers)
    requires AllAnswered(a)
    ensures ActivatedAs(Apply(Online, Activate(a.subscriptions[RETRY_STEPS].value, a.now), s), s, a)
  {
  }

  lemma AnnouncingCallLeaves(w: World, a: Answers)
    requires OnlineReady(w) && Smooth(w.script) && AllAnswered(a) && PhaseOf(w.stored.status) == PhaseStarting
    ensures AnnouncedAs(OnRegistrationChange(w, w.stored, a).world.stored.status, a)
  {
    SmoothAnnounce(w, a);
    RegisteringLeaves(Apply(Online, AttachSecret, w.stored.status), a);
  }

  lemma ActivatingCallLeaves(w: World, a: Answers)
    requires OnlineReady(w) && Smooth(w.script) && AllAnswered(a) && PhaseOf(w.stored.status) == PhaseAnnounced
    ensures ActivatedAs(OnRegistrationChange(w, w.stored, a).world.stored.status, w.stored.status, a)
  {
    SmoothActivate(w, a);
    ActivatingLeaves(w.stored.status, a);
  }

  /** Those calls leave what SCC answered in the second and the third of them. */
  lemma WhatThreeCallsLeave(spec: Spec, inputs: seq<Input>)
    requires spec.mode.Online? && spec.request.Some? && |inputs| == 3 && forall i :: i in inputs ==> SmoothInput(i)
    ensures var announced, active := Run(Created(spec), inputs[..2]).stored.status, Run(Created(spec), inputs).stored.status;
            AnnouncedAs(announced, inputs[1].answers) &&
            ActivatedAs(active, announced, inputs[2].answers)
  {
    var w0 := Created(spec);
    assert Good(Online, Node(FRESH, true, true)) && inputs[0] in inputs && inputs[1] in inputs && inputs[2] in inputs;
    assert Run(w0, inputs[..0]) == w0 && inputs[..3] == inputs;
    assert inputs[..2][..1] == inputs[..1];
    SmoothRunLowersRank(w0, inputs[..1]);
    SmoothRunLowersRank(w0, inputs[..2]);
    AnnouncingCallLeaves(Before(Run(w0, inputs[..1]), inputs[1]), inputs[1].answers);
    ActivatingCallLeaves(Before(Run(w0, inputs[..2]), inputs[2]), inputs[2].answers);
  }

  lemma {:induction false} SmoothRunLowersRank(w: World, inputs: seq<Input>)
    requires OnlineReady(w) && |inputs| <= Rank(w.stored.status) && forall i :: i in inputs ==> SmoothInput(i)
    ensures var v := Run(w, inputs);
            OnlineReady(v) && v.stored.spec == w.stored.spec && Rank(v.stored.status) == Rank(w.stored.status) - |inputs|
    ensures var s := Run(w, inputs).stored.status;
            Rank(s) > 0 ==> !s.activated
    ensures inputs != [] && Rank(w.stored.status) == |inputs| ==> Run(w, inputs).stored.status.activated
  {
    if inputs != [] {
      var last := inputs[|inputs| - 1];
      assert last in inputs;
      SmoothRunLowersRank(w, inputs[..|inputs| - 1]);
      SmoothCallLowersRank(Before(Run(w, inputs[..|inputs| - 1]), last), last.answers);
    }
  }

  /** Ready in the given phase, under the given spec. */
  ghost predicate ReadyIn(w: World, spec: Spec, phase: Phase) {
    OnlineReady(w) && w.stored.spec == spec && PhaseOf(w.stored.status) == phase
  }

  lemma ResetUnderSyncNow(w: World, i: Input, spec: Spec)
    requires ReadyIn(w, spec, PhaseActive) && Lifecycle.NeedsSyncNow(spec) && SmoothInput(i)
    ensures ReadyIn(Handle(w, i), spec, PhaseAnnounced)
  {
    var u := Before(w, i);
    SmoothReset(u, i.answers);
    StaysReady(u, Reset, OnRegistrationChange(u, u.stored, i.answers).world, Node(u.stored.status, true, true));
  }

  lemma ActivateUnderSyncNow(w: World, i: Input, spec: Spec)
    requires ReadyIn(w, spec, PhaseAnnounced) && SmoothInput(i)
    ensures ReadyIn(Handle(w, i), spec, PhaseActive)
  {
    var u := Before(w, i);
    SmoothActivate(u, i.answers);
    StaysReady(u, Activate(i.answers.subscriptions[RETRY_STEPS].value, i.answers.now),
               OnRegistrationChange(u, u.stored, i.answers).world, Node(u.stored.status, true, true));
  }

  lemma {:induction false} AfterEvenCalls(w: World, inputs: seq<Input>)
    requires ReadyIn(w, w.stored.spec, PhaseActive) && Lifecycle.NeedsSyncNow(w.stored.spec) && |inputs| % 2 == 0
    requires forall i :: i in inputs ==> SmoothInput(i)
    ensures ReadyIn(Run(w, inputs), w.stored.spec, PhaseActive)
    decreases |inputs|
  {
    if inputs != [] {
      assert inputs[|inputs| - 1] in inputs;
      AfterOddCalls(w, inputs[..|inputs| - 1]);
      ActivateUnderSyncNow(Run(w, inputs[..|inputs| - 1]), inputs[|inputs| - 1], w.stored.spec);
    }
  }

  lemma {:induction false} AfterOddCalls(w: World, inputs: seq<Input>)
    requires ReadyIn(w, w.stored.spec, PhaseActive) && Lifecycle.NeedsSyncNow(w.stored.spec) && |inputs| % 2 == 1
    requires forall i :: i in inputs ==> SmoothInput(i)
    ensures ReadyIn(Run(w, inputs), w.stored.spec, PhaseAnnounced)
    decreases |inputs|
  {
    assert inputs[|inputs| - 1] in inputs;
    AfterEvenCalls(w, inputs[..|inputs| - 1]);
    ResetUnderSyncNow(Run(w, inputs[..|inputs| - 1]), inputs[|inputs| - 1], w.stored.spec);
  }

  /** With SyncNow set and nobody else clearing it, smooth calls alternate between active and announced for ever. */
  lemma {:induction false} SyncNowNeverSettles(w: World, inputs: seq<Input>)
    requires OnlineReady(w) && PhaseOf(w.stored.status) == PhaseActive && Lifecycle.NeedsSyncNow(w.stored.spec)
    requires forall i :: i in inputs ==> SmoothInput(i)
    ensures ReadyIn(Run(w, inputs), w.stored.spec, if |inputs| % 2 == 0 then PhaseActive else PhaseAnnounced)
  {
    if |inputs| % 2 == 0 {
      AfterEvenCalls(w, inputs);
    } else {
      AfterOddCalls(w, inputs);
    }
  }
}
