/** Offline registrations: how they come to wait for a certificate, and how a failed one recovers. */
module OfflineProgress {
  import opened Wrappers
  import opened Conditions
  import opened Registrations
  import opened ApiServer
  import opened Reconciliation
  import opened Automaton
  import opened Reachability
  import opened Progress
  import opened Refusals
  import Lifecycle
  import OfflineMode
  import OnlineMode

  /** The request is out and the status says that the certificate is awaited. */
  predicate AwaitsCertificate(s: Status) {
    && s.requestRef && s.processed != 0 && !s.activated && !Lifecycle.IsFailed(s)
    && s.Is(OfflineRequestReady, Yes) && s.Is(OfflineCertificateReady, No)
    && s.Find(OfflineCertificateReady).message == OfflineMode.AWAITING_CERTIFICATE
  }

  predicate OfflineWorld(w: World) {
    w.present && w.stored.spec.mode.Offline? && w.stored.spec.certificate.None?
  }

  const STARTED := FRESH.Set(Progressing, Yes).PointAt(Progressing)

  lemma OfflineBegins(w: World, a: Answers)
    requires OfflineWorld(w) && w.stored.status == FRESH && Smooth(w.script) && AllAnswered(a)
    ensures var v := OnRegistrationChange(w, w.stored, a).world;
            OfflineWorld(v) && v.stored.spec == w.stored.spec && v.stored.status == STARTED
  {
    ClearUpdateStatus(w, w.stored.(status := STARTED));
  }

  lemma OfflineAnnounces(w: World, a: Answers)
    requires OfflineWorld(w) && w.stored.status == STARTED && Smooth(w.script) && AllAnswered(a)
    ensures var v := OnRegistrationChange(w, w.stored, a).world;
            OfflineWorld(v) && v.stored.spec == w.stored.spec && AwaitsCertificate(v.stored.status)
  {
    var attached := w.stored.(status := STARTED.(requestRef := true));
    ClearUpdateStatus(w, attached);
    var v := UpdateStatus(w, attached).world.Log(RegisterCalled(true));
    ClearUpdateStatus(v, v.stored.(status := Apply(Offline, Register(None, a.devMode, a.now), v.stored.status)));
  }

  /** A fresh offline registration without a certificate waits for one after exactly two smooth calls. */
  lemma AwaitsCertificateAfterTwoCalls(spec: Spec, first: Input, second: Input)
    requires spec.mode.Offline? && spec.certificate.None? && SmoothInput(first) && SmoothInput(second)
    ensures Run(Created(spec), [first]).stored.status == STARTED
    ensures AwaitsCertificate(Run(Created(spec), [first, second]).stored.status)
    ensures Run(Created(spec), [first, second]).stored.spec == spec
  {
    var w := Created(spec);
    assert [first][..0] == [] && Run(w, []) == w;
    OfflineBegins(Before(w, first), first.answers);
    assert [first, second][..1] == [first];
    OfflineAnnounces(Before(Run(w, [first]), second), second.answers);
  }

  /** Then nothing happens at all, whatever the outside does, as long as no certificate reference appears. */
  lemma WaitsForTheCertificate(w: World, a: Answers)
    requires OfflineWorld(w) && AwaitsCertificate(w.stored.status)
    ensures OnRegistrationChange(w, w.stored, a).world == w
    ensures a.serverUrl && a.metrics ==> OnRegistrationChange(w, w.stored, a).verdict.Finished?
  {
  }

  /** And the first smooth call that finds the reference activates the registration. */
  lemma ActivatesWithTheCertificate(w: World, a: Answers)
    requires w.present && w.stored.spec.mode.Offline? && w.stored.spec.certificate.Some?
    requires AwaitsCertificate(w.stored.status) && Smooth(w.script) && AllAnswered(a)
    ensures var v := OnRegistrationChange(w, w.stored, a).world;
            && v.stored.status.activated && v.stored.status.validated == a.now && v.stored.status.Is(OfflineActivationDone, Yes)
            && v.stored.status.Find(OfflineCertificateReady) == Mark(Yes, "", "")
  {
    var v := w.Log(ActivateCalled(true));
    ClearGet(v);
    var u := Get(v).world;
    ClearUpdateStatus(u, u.stored.(status := Apply(Offline, Activate(Subscribed(Offline, a, RETRY_STEPS).value, a.now), u.stored.status)));
  }

  /** Offline, "not yet ready" means exactly that the certificate reference is missing. */
  lemma NotReadyMeansNoCertificate(r: Record)
    requires r.spec.mode.Offline? && NeedsActivation(r)
    ensures !ReadyForActivation(r) <==> r.spec.certificate.None?
  {
  }

  // ----- activation without an announcement

  /** A fresh registration that has its certificate is activated by its first smooth call: unprocessed. */
  lemma ActivatedButNeverProcessed(spec: Spec, first: Input)
    requires spec.mode.Offline? && spec.certificate.Some? && !Lifecycle.NeedsSyncNow(spec) && SmoothInput(first)
    ensures var s := Run(Created(spec), [first]).stored.status;
            s.activated && s.processed == 0 && s.validated == first.answers.now && s.Is(Keepalive, Yes)
  {
    var w := Created(spec);
    assert [first][..0] == [] && Run(w, []) == w;
    var u := Before(w, first);
    ClearGet(u);
    var v := Get(u).world;
    ClearUpdateStatus(v, v.stored.(status := Apply(Offline, Keep(first.answers.now), v.stored.status)));
  }

  lemma {:induction false} ActivatingCallKeepsProcessed(w: World, a: Answers)
    requires w.stored.spec.mode.Offline? && Good(Offline, Node(w.stored.status, true, true))
    requires !w.stored.status.activated && !Lifecycle.IsFailed(w.stored.status)
    requires OnRegistrationChange(w, w.stored, a).world.stored.status.activated
    ensures OnRegistrationChange(w, w.stored, a).world.stored.status.processed == w.stored.status.processed
    ensures w.stored.spec.certificate.Some?
  {
    var obj := w.stored;
    if NeedsRegistration(obj) {
      BeginningGoesNowhere(w, obj, RETRY_STEPS);
      AnnouncingAnnounces(w, a);
    } else if NeedsActivation(obj) {
      var m := OfflineActivationWrites(w, CallActivate(obj.spec, w.vault, a), a);
      ActivatingChangesKeepProcessed(m, obj.status);
    } else if Lifecycle.NeedsSyncNow(obj.spec) {
      ResettingClears(w, obj.(spec := obj.spec.WithoutSyncNow()), a);
    } else {
      OfflineKeepaliveWrites(w, CallKeepalive(obj, w.vault, a), a);
      ActivatingChangesKeepProcessed(Keep(a.now), obj.status);
    }
  }

  /** So "activated implies processed" fails offline exactly where the activating call found the registration unprocessed,
      and that takes a certificate that was there before the announcement. */
  lemma {:induction false} ActivatesUnprocessedExactly(spec: Spec, inputs: seq<Input>, last: Input)
    requires spec.mode.Offline? && TimesAreReal(inputs)
    requires var s := Run(Created(spec), inputs).stored.status; !s.activated && !Lifecycle.IsFailed(s)
    requires Handle(Run(Created(spec), inputs), last).stored.status.activated
    ensures Before(Run(Created(spec), inputs), last).stored.spec.certificate.Some?
    ensures Handle(Run(Created(spec), inputs), last).stored.status.processed == 0 <==>
              Run(Created(spec), inputs).stored.status.processed == 0
  {
    ReachableIsGood(spec, inputs);
    ActivatingCallKeepsProcessed(Before(Run(Created(spec), inputs), last), last.answers);
  }

  /** An active offline registration is left alone by calls in which all goes well if and only if it has its certificate,
      nobody set SyncNow, its validation is young, and it was processed in case a request was made: with a request and
      unprocessed it is activated again by every call. */
  lemma {:induction false} ActiveOfflineStuttersExactly(w: World, a: Answers)
    requires w.present && w.stored.spec.mode.Offline? && Good(Offline, Node(w.stored.status, true, true)) && w.stored.status.activated
    requires Smooth(w.script) && AllAnswered(a)
    ensures OnRegistrationChange(w, w.stored, a).world == w <==>
              w.stored.spec.certificate.Some? && w.stored.spec.syncNow.None? &&
              (w.stored.status.requestRef ==> w.stored.status.processed != 0) &&
              w.stored.status.validated > a.now - MinCheckin(a.devMode)
  {
    if w.stored.spec.certificate.Some? && NeedsActivation(w.stored) {
      var v := w.Log(ActivateCalled(true));
      ClearGet(v);
      var m := Activate(OnlineMode.Subscription(0, ""), a.now);
      var u := Get(v).world;
      ClearUpdateStatus(u, u.stored.(status := Apply(Offline, m, u.stored.status)));
      assert |OnRegistrationChange(w, w.stored, a).world.script| < |w.script|;
    } else if w.stored.spec.certificate.Some? && !RecentlyValidated(w.stored, a) && !Lifecycle.NeedsSyncNow(w.stored.spec) {
      SmoothKeepaliveMoves(w, a);
    } else if w.stored.spec.certificate.None? || !RecentlyValidated(w.stored, a) {
      SmoothResetMoves(w, w.stored.(spec := if w.stored.spec.certificate.None? then w.stored.spec else w.stored.spec.WithoutSyncNow()), a);
    }
  }

  lemma SmoothKeepaliveMoves(w: World, a: Answers)
    requires w.present && w.stored.spec.mode.Offline? && Smooth(w.script) && AllAnswered(a)
    ensures KeepAlive(w, w.stored, a).world != w
  {
    ClearGet(w);
    var u := Get(w).world;
    ClearUpdateStatus(u, u.stored.(status := Apply(Offline, Keep(a.now), u.stored.status)));
    if CallKeepalive(w.stored, w.vault, a).Error? {
      var put := Update(u, u.stored);
      assert |put.world.script| < |w.script|;
    }
  }

  lemma SmoothResetMoves(w: World, obj: Record, a: Answers)
    requires w.present && obj.spec.mode.Offline? && obj.version == w.stored.version && Smooth(w.script) && AllAnswered(a)
    ensures ResetRegistration(w, obj, a).world != w
  {
    var updated := obj.(status := OfflineMode.Reset(obj.status));
    ClearUpdateStatus(w, updated);
    var put := UpdateStatus(w, updated);
    assert |Update(put.world, put.record).world.script| < |w.script|;
  }

  // ----- recovery

  /** A failed offline registration is preprocessed exactly when its certificate reference is gone; until then it is stuck. */
  lemma FailureRecoversExactlyByRemoval(spec: Spec, inputs: seq<Input>, a: Answers)
    requires spec.mode.Offline? && TimesAreReal(inputs) && Lifecycle.IsFailed(Run(Created(spec), inputs).stored.status)
    ensures var w := Run(Created(spec), inputs);
            && (NeedsPreprocess(w.stored) <==> w.stored.spec.certificate.None?)
            && (w.stored.spec.certificate.Some? ==> OnRegistrationChange(w, w.stored, a).world == w)
  {
    ReachableIsGood(spec, inputs);
  }

  /** After a reset the failure is gone, the certificate is awaited, and no spec makes the registration need
      preprocessing again. */
  lemma ResetClearsTheFailure(s: Status, later: Spec)
    requires later.mode.Offline?
    ensures var r := OfflineMode.Reset(s);
            && !Lifecycle.IsFailed(r) && !NeedsPreprocess(Record(0, later, r))
            && r.Is(OfflineCertificateReady, No)
            && r.Find(OfflineCertificateReady).message == OfflineMode.AWAITING_CERTIFICATE
  {
  }

  /** From every reachable failure the reset leads to waiting for the certificate exactly if the request went out before:
      otherwise the next calls announce again. */
  lemma ResetWaitsExactlyWhenProcessed(spec: Spec, inputs: seq<Input>)
    requires spec.mode.Offline? && TimesAreReal(inputs) && Lifecycle.IsFailed(Run(Created(spec), inputs).stored.status)
    ensures var s := Run(Created(spec), inputs).stored.status;
            && (AwaitsCertificate(OfflineMode.Reset(s)) <==> s.processed != 0)
            && (s.processed == 0 ==> NeedsRegistration(Record(0, Spec(Offline, None, None, None), OfflineMode.Reset(s))))
  {
    ReachableIsGood(spec, inputs);
    ResetClearsTheFailure(Run(Created(spec), inputs).stored.status, spec);
  }

  /** A preprocessing call stores the reset or nothing, and stores it when its calls are clear. If the certificate secret
      cannot be removed it ends in a nil dereference and changes nothing at all. */
  lemma PreprocessingRecovers(w: World, a: Answers)
    requires w.stored.spec.mode.Offline? && NeedsPreprocess(w.stored) && a.serverUrl
    ensures a.removal.Some? ==> OnRegistrationChange(w, w.stored, a) == Outcome(w, Panicked)
    ensures var s := OnRegistrationChange(w, w.stored, a).world.stored.status;
            && (s == w.stored.status || s == OfflineMode.Reset(w.stored.status))
            && (a.removal.None? && w.present && Smooth(w.script) ==> s == OfflineMode.Reset(w.stored.status))
  {
    if a.removal.None? {
      var obj := w.stored.(status := OfflineMode.Reset(w.stored.status));
      assert OnRegistrationChange(w, w.stored, a) == StoreTwice(w, obj);
      StoreTwiceWrites(w, obj);
      if w.present && Smooth(w.script) {
        ClearUpdateStatus(w, obj);
      }
    }
  }

  /** The row the reset leaves for each kind of condition. */
  function ResetRow(s: Status, k: Kind): Option<Mark> {
    match k
    case Activated => None
    case Failure => None
    case Ready => None
    case Progressing => Some(s.Find(Progressing).(truth := Yes))
    case OfflineRequestReady => Some(s.Find(OfflineRequestReady).(truth := Yes))
    case OfflineCertificateReady => Some(Mark(No, "", OfflineMode.AWAITING_CERTIFICATE))
    case _ => if k in s.marks then Some(s.marks[k]) else None
  }

  lemma ResetAt(s: Status, k: Kind)
    ensures var r := OfflineMode.Reset(s);
            ResetRow(s, k) == if k in r.marks then Some(r.marks[k]) else None
  {
  }

  /** Resetting twice is resetting once. */
  lemma ResetIsIdempotent(s: Status)
    ensures OfflineMode.Reset(OfflineMode.Reset(s)) == OfflineMode.Reset(s)
  {
    var once := OfflineMode.Reset(s);
    var twice := OfflineMode.Reset(once);
    forall k: Kind
      ensures k in once.marks <==> k in twice.marks
      ensures k in once.marks ==> once.marks[k] == twice.marks[k]
    {
      SecondResetAt(s, k);
    }
    assert once.marks == twice.marks;
  }

  lemma SecondResetAt(s: Status, k: Kind)
    ensures var once, twice := OfflineMode.Reset(s), OfflineMode.Reset(OfflineMode.Reset(s));
            (k in once.marks <==> k in twice.marks) && (k in once.marks ==> once.marks[k] == twice.marks[k])
  {
    ResetAt(s, k);
    ResetAt(OfflineMode.Reset(s), k);
    ResetAt(s, Progressing);
    ResetAt(s, OfflineRequestReady);
  }
}
