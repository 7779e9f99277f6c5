/** Where a call of the handler dereferences a nil pointer: exactly, for every reachable state of both modes. */
module Panics {
  import opened Wrappers
  import opened Conditions
  import opened Registrations
  import opened ApiServer
  import opened Reconciliation
  import opened Automaton
  import opened Reachability
  import Lifecycle

  /** The registration code is read through a registration request that is not there. */
  predicate RequestIsNil(spec: Spec, vault: Vault, a: Answers) {
    spec.mode.Online? && RefreshError(vault, a).None? && spec.request.None?
  }

  /** Announcing: the secret is there and saved, and then either the request is gone or SCC is sent a keepalive. No
      system ID is needed in the condition: while an announcement is due, none is ever stored. */
  predicate AnnouncingPanics(w: World, a: Answers) {
    var put := UpdateStatus(WithSecret(w, w.stored, a), Prepared(w.stored));
    && w.stored.spec.mode.Online? && (MustAttach(w.stored) ==> a.initSecret.Saved?)
    && put.error.NoError? && RefreshError(put.world.vault, a).None?
    && (put.world.stored.spec.request.None? || (put.world.vault.Complete? && a.keepalive.None?))
  }

  predicate CallPanics(w: World, a: Answers) {
    var obj := w.stored;
    a.serverUrl &&
    if NeedsPreprocess(obj) then a.removal.Some?
    else if Lifecycle.IsFailed(obj.status) || RecentlyValidated(obj, a) || !a.metrics then false
    else if NeedsRegistration(obj) then !NotProgressing(obj.status) && AnnouncingPanics(w, a)
    else if NeedsActivation(obj) then ReadyForActivation(obj) && RequestIsNil(obj.spec, w.vault, a)
    else if Lifecycle.NeedsSyncNow(obj.spec) then obj.spec.mode.Offline? && a.requestSaved.None? && a.removal.Some?
    else RequestIsNil(obj.spec, w.vault, a)
  }

  lemma FinishingPanicsExactly(w: World, obj: Record, announced: Record, id: int, a: Answers)
    requires obj.spec.mode.Online? ==> obj.status.systemId.None?
    requires obj.spec.mode.Offline? ==> id == OFFLINE_SYSTEM_ID
    ensures FinishAnnounce(w, obj, announced, id, a).verdict.Panicked? <==> id == KEEPALIVE_SYSTEM_ID
    ensures FinishAnnounce(w, obj, announced, id, a).verdict.Panicked? ==> FinishAnnounce(w, obj, announced, id, a).world == w
  {
  }

  lemma RegisteringPanicsExactly(w: World, obj: Record, a: Answers)
    requires obj.spec.mode == w.stored.spec.mode && (obj.spec.mode.Online? ==> obj.status.systemId.None?)
    ensures var r := RegisterSystem(w, obj, w.stored, a);
            && (r.verdict.Panicked? <==>
                  obj.spec.mode.Online? && RefreshError(w.vault, a).None? &&
                  (w.stored.spec.request.None? || (w.vault.Complete? && a.keepalive.None?)))
            && (r.verdict.Panicked? ==> r.world.stored == w.stored)
  {
    var v := w.(vault := VaultAfterRegister(w.stored.spec, w.vault, a));
    if CallRegister(w.stored.spec, w.vault, a).Answer? {
      FinishingPanicsExactly(v.Log(RegisterCalled(true)), obj, w.stored, CallRegister(w.stored.spec, w.vault, a).value, a);
    }
  }

  lemma AnnouncePanicsExactly(w: World, a: Answers)
    requires w.stored.spec.mode.Online? ==> w.stored.status.systemId.None?
    ensures var r := Announce(w, w.stored, a);
            && (r.verdict.Panicked? <==> AnnouncingPanics(w, a))
            && (r.verdict.Panicked? ==> r.world.stored.status == Prepared(w.stored).status)
  {
    var v := WithSecret(w, w.stored, a);
    UpdateStatusOutcome(v, Prepared(w.stored));
    var put := UpdateStatus(v, Prepared(w.stored));
    if put.error.NoError? {
      RegisteringPanicsExactly(put.world, w.stored, a);
    }
  }

  lemma {:induction false} PanicsOn(w: World, a: Answers)
    requires Good(w.stored.spec.mode, Node(w.stored.status, true, true))
    ensures OnRegistrationChange(w, w.stored, a).verdict.Panicked? <==> CallPanics(w, a)
    ensures var s := OnRegistrationChange(w, w.stored, a).world.stored.status;
            CallPanics(w, a) ==> s == w.stored.status || (NeedsRegistration(w.stored) && s == Prepared(w.stored).status)
  {
    if NeedsRegistration(w.stored) && !NeedsPreprocess(w.stored) {
      AnnouncePanicsExactly(w, a);
    }
  }

  /** For every reachable registration and every further input: the call panics if and only if one of its pointers is
      nil, and then it has written at most the reference of the secret it attached. */
  lemma {:induction false} PanicsExactly(spec: Spec, inputs: seq<Input>, last: Input)
    requires TimesAreReal(inputs)
    ensures var u := Before(Run(Created(spec), inputs), last);
            var r := OnRegistrationChange(u, u.stored, last.answers);
            && (r.verdict.Panicked? <==> CallPanics(u, last.answers))
            && (r.verdict.Panicked? ==> r.world.stored.status == u.stored.status ||
                                        r.world.stored.status == Prepared(u.stored).status)
  {
    ReachableIsGood(spec, inputs);
    PanicsOn(Before(Run(Created(spec), inputs), last), last.answers);
  }

  /** In particular a keepalive that answers a due announcement always ends in a panic. */
  lemma {:induction false} AKeepaliveNeverAnnounces(spec: Spec, inputs: seq<Input>)
    requires spec.mode.Online? && TimesAreReal(inputs) && NeedsRegistration(Run(Created(spec), inputs).stored)
    ensures SystemIdToSet(KEEPALIVE_SYSTEM_ID, Run(Created(spec), inputs).stored.status).Nil?
  {
    ReachableIsGood(spec, inputs);
  }
}
