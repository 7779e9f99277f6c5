/** What the verdict of a call tells: a call that ends without an error has done, and stored, what was due. */
module Verdicts {
  import opened Wrappers
  import opened Conditions
  import opened Registrations
  import opened ApiServer
  import opened Reconciliation
  import opened Automaton
  import opened Reachability
  import opened Simulation
  import opened Refusals
  import Lifecycle
  import OnlineMode
  import OfflineMode

  lemma AnAnsweredWriteIsStored(w: World, obj: Record)
    ensures UpdateStatus(w, obj).error.NoError? ==> UpdateStatus(w, obj).world.stored.status == obj.status
  {
  }

  lemma {:induction false} BegunMeansProgressing(w: World, obj: Record, tries: nat)
    ensures var r := BeginRegistration(w, obj, tries);
            r.error.NoError? ==> r.world.stored.status.Is(Progressing, Yes) && r.world.stored.status.current == Some(Progressing)
    decreases tries
  {
    var updated := obj.(status := Apply(obj.spec.mode, Begin, obj.status));
    AnAnsweredWriteIsStored(w, updated);
    var put := UpdateStatus(w, updated);
    if put.error.Conflict? && tries > 1 {
      BegunMeansProgressing(put.world, updated, tries - 1);
    }
  }

  lemma AddressedIsAnnounced(s: Status, base: string)
    ensures var r := OnlineMode.RegisteredAt(s, base);
            r.Some? ==> r.value.Is(Announced, Yes) && r.value.Is(Failure, No) && r.value.systemId == s.systemId && r.value.systemId.Some?
  {
  }

  lemma {:induction false} RegisteredIsAnnounced(mode: Mode, toSet: Option<int>, devMode: bool, now: nat, s: Status)
    requires mode.Online? ==> toSet.Some? || s.systemId.Some?
    ensures var r := Apply(mode, Register(toSet, devMode, now), s);
            && r.processed == now
            && (mode.Online? ==> r.Is(Announced, Yes) && r.Is(Failure, No) && r.systemId.Some?)
            && (mode.Offline? ==> r.Is(OfflineRequestReady, Yes) && r.Is(OfflineCertificateReady, No))
  {
    AddressedIsAnnounced(if toSet.Some? then s.(systemId := toSet) else s, OnlineMode.BaseUrl(OnlineMode.Environment(devMode)));
  }

  /** The announcement is stored. */
  predicate AnnouncedNow(mode: Mode, s: Status, now: nat) {
    s.processed == now &&
    if mode.Online? then s.Is(Announced, Yes) && s.Is(Failure, No) && s.systemId.Some?
    else s.Is(OfflineRequestReady, Yes) && s.Is(OfflineCertificateReady, No)
  }

  lemma {:induction false} FinishedMeansRegistered(w: World, obj: Record, id: int, a: Answers)
    requires obj.spec.mode == w.stored.spec.mode
    ensures var r := FinishAnnounce(w, obj, w.stored, id, a);
            r.verdict.Finished? ==> AnnouncedNow(obj.spec.mode, r.world.stored.status, a.now)
  {
    var call := SystemIdToSet(id, obj.status);
    if call.Answer? && !(obj.spec.mode.Online? && call.value.None? && w.stored.status.systemId.None?) {
      RegisteredIsAnnounced(obj.spec.mode, call.value, a.devMode, a.now, w.stored.status);
      AnAnsweredWriteIsStored(w, w.stored.(status := Apply(obj.spec.mode, Register(call.value, a.devMode, a.now), w.stored.status)));
    }
  }

  lemma {:induction false} FinishedMeansAnnounced(w: World, a: Answers)
    ensures var r := Announce(w, w.stored, a);
            r.verdict.Finished? ==> AnnouncedNow(w.stored.spec.mode, r.world.stored.status, a.now)
  {
    var v := WithSecret(w, w.stored, a);
    UpdateStatusOutcome(v, Prepared(w.stored));
    var put := UpdateStatus(v, Prepared(w.stored));
    if put.error.NoError? {
      var called := put.world.(vault := VaultAfterRegister(put.record.spec, put.world.vault, a)).Log(RegisterCalled(true));
      var call := CallRegister(put.record.spec, put.world.vault, a);
      if call.Answer? {
        FinishedMeansRegistered(called, w.stored, call.value, a);
      }
    }
  }

  lemma UpdateLeavesTheStatus(w: World, obj: Record)
    ensures Update(w, obj).world.stored.status == w.stored.status
  {
  }

  lemma ResettingClearsTheTime(mode: Mode, s: Status)
    ensures var r := Apply(mode, Reset, s); !r.activated && r.validated == 0 && r.Is(Progressing, Yes)
  {
  }

  lemma {:induction false} StoredTwice(w: World, obj: Record)
    ensures var r := StoreTwice(w, obj);
            r.verdict.Finished? ==>
              r.world.stored.status == obj.status && |w.script| >= 2 && w.script[0].fate.Answered? && w.script[1].fate.Answered?
  {
    AnAnsweredWriteIsStored(w, obj);
    var put := UpdateStatus(w, obj);
    if put.error.NoError? {
      UpdateLeavesTheStatus(put.world, put.record);
      assert put.world.script == w.script[1..];
    }
  }

  lemma {:induction false} FinishedMeansReset(w: World, obj: Record, a: Answers)
    ensures var r := ResetRegistration(w, obj, a);
            r.verdict.Finished? ==>
              && !r.world.stored.status.activated && r.world.stored.status.validated == 0
              && r.world.stored.status.Is(Progressing, Yes)
              && |w.script| >= 2 && w.script[0].fate.Answered? && w.script[1].fate.Answered?
  {
    ResettingClearsTheTime(obj.spec.mode, obj.status);
    StoredTwice(w, obj.(status := Apply(obj.spec.mode, Reset, obj.status)));
  }

  lemma {:induction false} KeptMeansValidated(w: World, mode: Mode, a: Answers, tries: nat)
    ensures var r := SaveKeepalive(w, mode, a, tries);
            r.error.NoError? ==> r.world.stored.status.validated == a.now && r.world.stored.status.activated &&
                                 r.world.stored.status.Is(Keepalive, Yes)
    decreases tries
  {
    var got := Get(w);
    if got.error.NoError? {
      var obj := got.record.(status := Apply(mode, Keep(a.now), got.record.status));
      AnAnsweredWriteIsStored(got.world, obj);
      if UpdateStatus(got.world, obj).error.Conflict? && tries > 1 {
        KeptMeansValidated(UpdateStatus(got.world, obj).world, mode, a, tries - 1);
      }
    }
  }

  /** What a call that finishes has stored, by what was due. */
  predicate DoneWhatWasDue(mode: Mode, before: Record, a: Answers, s: Status) {
    if NeedsRegistration(before) then
      if NotProgressing(before.status) then s.Is(Progressing, Yes) && s.current == Some(Progressing) else AnnouncedNow(mode, s, a.now)
    else if NeedsActivation(before) then
      if ReadyForActivation(before) then s.activated else s == before.status
    else if Lifecycle.NeedsSyncNow(before.spec) then !s.activated && s.validated == 0 && s.Is(Progressing, Yes)
    else s.activated && s.validated == a.now && s.Is(Keepalive, Yes)
  }

  lemma {:induction false} FinishedMeansDone(w: World, a: Answers)
    requires OnRegistrationChange(w, w.stored, a).verdict.Finished?
    ensures a.serverUrl
    ensures var s := OnRegistrationChange(w, w.stored, a).world.stored.status;
            if NeedsPreprocess(w.stored) then !s.activated && s.validated == 0 && s.Is(Progressing, Yes)
            else if Lifecycle.IsFailed(w.stored.status) || RecentlyValidated(w.stored, a) then s == w.stored.status
            else a.metrics && DoneWhatWasDue(w.stored.spec.mode, w.stored, a, s)
  {
    var obj := w.stored;
    FinishedMeansReset(w, obj, a);
    FinishedMeansReset(w, obj.(spec := obj.spec.WithoutSyncNow()), a);
    BegunMeansProgressing(w, obj, RETRY_STEPS);
    FinishedMeansAnnounced(w, a);
    ActivatingKeepsTheSystem(w, obj.spec.mode, CallActivate(obj.spec, w.vault, a), a);
    KeptMeansValidated(w, obj.spec.mode, a, RETRY_STEPS);
  }

  lemma PhasesSayWhatIsDue(r: Record)
    requires r.spec.mode.Online? && Good(Online, Node(r.status, true, true))
    ensures !NeedsPreprocess(r)
    ensures match PhaseOf(r.status)
            case PhaseNew => NeedsRegistration(r) && NotProgressing(r.status)
            case PhaseStarting => NeedsRegistration(r) && !NotProgressing(r.status)
            case PhaseAnnounced => !NeedsRegistration(r) && NeedsActivation(r) && ReadyForActivation(r)
            case PhaseActive => !NeedsRegistration(r) && !NeedsActivation(r)
            case PhaseFailed => Lifecycle.IsFailed(r.status)
    ensures PhaseOf(r.status).PhaseFailed? <==> Lifecycle.IsFailed(r.status)
  {
  }

  /** What a call that finishes makes of an online registration, by its phase. */
  predicate MovedOn(before: Record, s: Status, a: Answers) {
    match PhaseOf(before.status)
    case PhaseNew => s.Is(Progressing, Yes)
    case PhaseStarting => s.processed == a.now && s.Is(Announced, Yes) && s.systemId.Some?
    case PhaseAnnounced => s.activated
    case PhaseActive =>
      if before.spec.syncNow == Some(true) then !s.activated && s.validated == 0
      else (s.activated && s.validated == a.now) ||
           (s == before.status && before.spec.syncNow.None? && s.validated > a.now - MinCheckin(a.devMode))
    case PhaseFailed => s == before.status
  }

  lemma {:induction false} FinishedMovesOn(w: World, a: Answers)
    requires w.stored.spec.mode.Online? && Good(Online, Node(w.stored.status, true, true))
    requires OnRegistrationChange(w, w.stored, a).verdict.Finished?
    ensures MovedOn(w.stored, OnRegistrationChange(w, w.stored, a).world.stored.status, a)
  {
    FinishedMeansDone(w, a);
    PhasesSayWhatIsDue(w.stored);
  }

  /** A call on any reachable online registration that ends without an error has begun a new one, announced one that was
      starting, activated one that was announced, and reset or validated an active one, unless that was validated recently;
      a failed one it has left alone. */
  lemma {:induction false} AFinishedCallHasMovedOn(spec: Spec, inputs: seq<Input>, last: Input)
    requires spec.mode.Online? && TimesAreReal(inputs)
    ensures var u := Before(Run(Created(spec), inputs), last);
            var r := OnRegistrationChange(u, u.stored, last.answers);
            r.verdict.Finished? ==> MovedOn(u.stored, r.world.stored.status, last.answers)
  {
    ReachableIsGood(spec, inputs);
    var u := Before(Run(Created(spec), inputs), last);
    if OnRegistrationChange(u, u.stored, last.answers).verdict.Finished? {
      FinishedMovesOn(u, last.answers);
    }
  }
}
