/** The retry loops of the Registration handler: they give up on a conflict only after five rounds, and give up at once on
    every other error. */
module Retries {
  import opened Wrappers
  import opened Conditions
  import opened Registrations
  import opened ApiServer
  import opened Reconciliation
  import opened Automaton
  import Lifecycle
  import OnlineMode

  /** At least so many beats have passed. */
  predicate Spent(v: World, w: World, n: nat) {
    |v.script| >= |w.script| + n
  }

  lemma CallsSpendBeats(w: World, obj: Record)
    ensures Spent(w, Get(w).world, if Get(w).error.NoError? then 1 else 0)
    ensures Spent(w, Update(w, obj).world, 0)
    ensures Spent(w, UpdateStatus(w, obj).world, if UpdateStatus(w, obj).error.Conflict? then 1 else 0)
    ensures Spent(w, Update(w, obj).world, if Update(w, obj).error.Conflict? then 1 else 0)
  {
  }

  lemma {:induction false} ReconcilingOnceSpends(w: World, mode: Mode, m: Mutation)
    ensures ReconcileOnce(w, mode, m).error.Conflict? ==> Spent(w, ReconcileOnce(w, mode, m).world, 2)
  {
    var got := Get(w);
    CallsSpendBeats(w, w.stored);
    if got.error.NoError? {
      var obj := got.record.(status := Apply(mode, m, got.record.status));
      CallsSpendBeats(got.world, obj);
      var put := if got.record.spec.DiffersFromItsCopy() then Update(got.world, obj) else Reply(got.world, NoError, obj);
      CallsSpendBeats(put.world, obj);
      GetIsIdle(w);
    }
  }

  /** The error reconciler ends in a conflict only if every one of its rounds did. */
  lemma {:induction false} ReconcilingGivesUpLate(w: World, mode: Mode, m: Mutation, tries: nat)
    requires tries >= 1
    ensures ReconcileError(w, mode, m, tries).error.Conflict? ==> Spent(w, ReconcileError(w, mode, m, tries).world, 2 * tries)
    decreases tries
  {
    ReconcilingOnceSpends(w, mode, m);
    var once := ReconcileOnce(w, mode, m);
    if once.error.Conflict? && tries > 1 {
      ReconcilingGivesUpLate(once.world, mode, m, tries - 1);
    }
  }

  lemma {:induction false} BeginningGivesUpLate(w: World, obj: Record, tries: nat)
    requires tries >= 1
    ensures BeginRegistration(w, obj, tries).error.Conflict? ==> Spent(w, BeginRegistration(w, obj, tries).world, tries)
    decreases tries
  {
    var updated := obj.(status := Apply(obj.spec.mode, Begin, obj.status));
    CallsSpendBeats(w, updated);
    var put := UpdateStatus(w, updated);
    if put.error.Conflict? && tries > 1 {
      BeginningGivesUpLate(put.world, updated, tries - 1);
    }
  }

  lemma {:induction false} ActivatingGivesUpLate(w: World, mode: Mode, a: Answers, tries: nat)
    requires tries >= 1
    ensures SaveActivation(w, mode, a, tries).error.Conflict? ==> Spent(w, SaveActivation(w, mode, a, tries).world, 2 * tries)
    decreases tries
  {
    var got := Get(w);
    CallsSpendBeats(w, w.stored);
    GetIsIdle(w);
    if got.error.NoError? {
      var sub := Subscribed(mode, a, tries);
      var next := got.world;
      if sub.None? {
        ReconcilingGivesUpLate(got.world, mode, FailActivate(None, a.now), RETRY_STEPS);
        next := ReconcileError(got.world, mode, FailActivate(None, a.now), RETRY_STEPS).world;
      } else {
        var obj := got.record.(status := Apply(mode, Activate(sub.value, a.now), got.record.status));
        CallsSpendBeats(got.world, obj);
        next := UpdateStatus(got.world, obj).world;
      }
      if tries > 1 {
        ActivatingGivesUpLate(next, mode, a, tries - 1);
      }
    }
  }

  lemma {:induction false} KeepingGivesUpLate(w: World, mode: Mode, a: Answers, tries: nat)
    requires tries >= 1
    ensures SaveKeepalive(w, mode, a, tries).error.Conflict? ==> Spent(w, SaveKeepalive(w, mode, a, tries).world, 2 * tries)
    decreases tries
  {
    var got := Get(w);
    CallsSpendBeats(w, w.stored);
    GetIsIdle(w);
    if got.error.NoError? {
      var obj := got.record.(status := Apply(mode, Keep(a.now), got.record.status));
      CallsSpendBeats(got.world, obj);
      if tries > 1 {
        KeepingGivesUpLate(UpdateStatus(got.world, obj).world, mode, a, tries - 1);
      }
    }
  }

  lemma {:induction false} RefusedKeepingGivesUpLate(w: World, mode: Mode, f: Fault, a: Answers, tries: nat)
    requires tries >= 1
    ensures SaveKeepaliveError(w, mode, f, a, tries).error.Conflict? ==>
              Spent(w, SaveKeepaliveError(w, mode, f, a, tries).world, 2 * tries)
    decreases tries
  {
    var got := Get(w);
    CallsSpendBeats(w, w.stored);
    GetIsIdle(w);
    if got.error.NoError? {
      var s := if mode.Online? then OnlineMode.KeepaliveErrorReconciled(got.record.status, f, a.now) else got.record.status;
      var obj := got.record.(status := s);
      CallsSpendBeats(got.world, obj);
      if tries > 1 {
        RefusedKeepingGivesUpLate(Update(got.world, obj).world, mode, f, a, tries - 1);
      }
    }
  }

  /** Each of the loops ends in a conflict only after five rounds: five writes to start, and five reads and five writes to
      reconcile an error, to store an activation, or to store a keepalive or its failure. */
  lemma {:induction false} ConflictsAreRetriedFiveTimes(w: World, obj: Record, mode: Mode, m: Mutation, f: Fault, a: Answers)
    ensures var r := BeginRegistration(w, obj, RETRY_STEPS); r.error.Conflict? ==> |w.script| - |r.world.script| >= 5
    ensures var r := ReconcileError(w, mode, m, RETRY_STEPS); r.error.Conflict? ==> |w.script| - |r.world.script| >= 10
    ensures var r := SaveActivation(w, mode, a, RETRY_STEPS); r.error.Conflict? ==> |w.script| - |r.world.script| >= 10
    ensures var r := SaveKeepalive(w, mode, a, RETRY_STEPS); r.error.Conflict? ==> |w.script| - |r.world.script| >= 10
    ensures var r := SaveKeepaliveError(w, mode, f, a, RETRY_STEPS); r.error.Conflict? ==> |w.script| - |r.world.script| >= 10
  {
    BeginningGivesUpLate(w, obj, RETRY_STEPS);
    ReconcilingGivesUpLate(w, mode, m, RETRY_STEPS);
    ActivatingGivesUpLate(w, mode, a, RETRY_STEPS);
    KeepingGivesUpLate(w, mode, a, RETRY_STEPS);
    RefusedKeepingGivesUpLate(w, mode, f, a, RETRY_STEPS);
  }

  /** A write that is refused after an answered read ends each of the loops at once, and the refusal is what they report. */
  lemma {:induction false} RefusalsAreNotRetried(w: World, obj: Record, mode: Mode, m: Mutation, f: Fault, a: Answers, steps: nat)
    requires w.present && |w.script| >= 3 && w.script[0] == Beat(NoEdit, Answered)
    requires w.script[1] == Beat(NoEdit, Refused) && w.script[2] == Beat(NoEdit, Refused)
    ensures var r := BeginRegistration(w.(script := w.script[1..]), obj, steps); r.error.Refusal? && r.world.script == w.script[2..]
    ensures var r := ReconcileError(w, mode, m, steps);
            r.error.Refusal? && r.world.script == w.script[if w.stored.spec.DiffersFromItsCopy() then 3 else 2..]
    ensures Subscribed(mode, a, steps).Some? ==>
              var r := SaveActivation(w, mode, a, steps); r.error.Refusal? && r.world.script == w.script[2..]
    ensures a.requestSaved.None? ==>
              var r := SaveKeepalive(w, mode, a, steps); r.error.Refusal? && r.world.script == w.script[2..]
    ensures var r := SaveKeepaliveError(w, mode, f, a, steps); r.error.Refusal? && r.world.script == w.script[2..]
  {
    var v := Get(w).world;
    assert v == w.(script := w.script[1..]) && w.script[1..][1..] == w.script[2..] && w.script[2..][1..] == w.script[3..];
  }

  /** The error reconciler reports a refusal of either of its two writes, also if the other one was answered. */
  lemma {:induction false} NeitherRefusalIsLost(w: World, mode: Mode, m: Mutation, steps: nat)
    requires w.present && w.stored.spec.DiffersFromItsCopy() && |w.script| >= 3 && w.script[0] == Beat(NoEdit, Answered)
    requires w.script[1..3] == [Beat(NoEdit, Refused), Beat(NoEdit, Answered)] ||
             w.script[1..3] == [Beat(NoEdit, Answered), Beat(NoEdit, Refused)]
    ensures ReconcileError(w, mode, m, steps).error.Refusal?
  {
    var v := Get(w).world;
    assert v == w.(script := w.script[1..]) && w.script[1..][1..] == w.script[2..];
    assert w.script[1] == w.script[1..3][0] && w.script[2] == w.script[1..3][1];
  }
}
