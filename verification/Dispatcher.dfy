/** The tick of the lifecycle manager on a store of Registrations that others change, and bounded staleness over runs of
    ticks, passing time and changes. */
module Dispatcher {
  import opened Wrappers
  import opened Conditions
  import opened Registrations
  import opened Jitter
  import Automaton
  import Lifecycle
  import OnlineMode
  import Reachability
  import Reconciliation
  import Simulation

  const PRODUCTION := Settings(20 * HOUR, 3, HOUR, 0, 9 * MINUTE)
  const DEVELOPMENT := Settings(30 * MINUTE, 10, MINUTE, 0, 9)

  function Setup(devMode: bool): Settings {
    if devMode then DEVELOPMENT else PRODUCTION
  }

  // ----- one tick

  type Store = map<string, Record>

  datatype Listed = Listed(name: string, record: Record)

  datatype Fate = Answered | Refused | AnswerLost

  /** The informer's list, whether listing fails, what becomes of the Update for the k-th entry, and the number that is
      drawn if the interval is refreshed. */
  datatype Tick = Tick(list: seq<Listed>, listFails: bool, fates: seq<Fate>, draw: nat) {
    function FateOf(i: nat): Fate {
      if i < |fates| then fates[i] else Refused
    }
  }

  /** SyncNow was stored for a Registration that was last validated at some time. */
  datatype Request = Request(name: string, validated: int, at: int)

  /** Offline registrations and those that were never announced or validated are skipped. */
  predicate Eligible(r: Record) {
    r.spec.mode.Online? && !OnlineMode.NeedsRegistration(r.status) && r.status.validated != 0
  }

  predicate Due(r: Record, now: int, trigger: int, strict: int) {
    Eligible(r) && (now - r.status.validated >= trigger || now - r.status.validated >= strict)
  }

  function Asked(r: Record): Record {
    r.(spec := r.spec.(syncNow := Some(true)))
  }

  datatype Put = Put(store: Store, stored: bool, ok: bool)

  /** Update writes the spec of the listed copy if that is still the stored object: a version names its content. */
  function Update(store: Store, l: Listed, fate: Fate): Put {
    if fate.Refused? || l.name !in store || store[l.name] != l.record then Put(store, false, false)
    else if Asked(l.record) == l.record then Put(store, true, fate.Answered?)
    else Put(store[l.name := Asked(l.record).(version := l.record.version + 1)], true, fate.Answered?)
  }

  datatype Walk = Walk(store: Store, log: seq<Request>, verdict: Verdict)

  /** From the i-th entry on; an Update that is not answered ends the walk, even if it was stored. */
  function WalkFrom(store: Store, t: Tick, now: int, trigger: int, strict: int, i: nat, triggered: bool): Walk
    requires i <= |t.list|
    decreases |t.list| - i
  {
    if i == |t.list| then Walk(store, [], Verdict(triggered, false))
    else if !Due(t.list[i].record, now, trigger, strict) then WalkFrom(store, t, now, trigger, strict, i + 1, triggered)
    else
      var l := t.list[i];
      var put := Update(store, l, t.FateOf(i));
      var entry := if put.stored then [Request(l.name, l.record.status.validated, now)] else [];
      if !put.ok then Walk(put.store, entry, Verdict(true, true))
      else
        var rest := WalkFrom(put.store, t, now, trigger, strict, i + 1, true);
        Walk(rest.store, entry + rest.log, rest.verdict)
  }

  function Callback(store: Store, t: Tick, now: int, trigger: int, strict: int): Walk {
    if t.listFails then Walk(store, [], Verdict(false, true)) else WalkFrom(store, t, now, trigger, strict, 0, false)
  }

  predicate DueAt(t: Tick, k: nat, now: int, trigger: int, strict: int) {
    k < |t.list| && Due(t.list[k].record, now, trigger, strict)
  }

  function RequestFor(t: Tick, k: nat, now: int): Request
    requires k < |t.list|
  {
    Request(t.list[k].name, t.list[k].record.status.validated, now)
  }

  /** Only due registrations are asked for; without a failure all of them are, and an interval is drawn exactly if there
      were any. */
  lemma {:induction false} WalkRequests(store: Store, t: Tick, now: int, trigger: int, strict: int, i: nat, triggered: bool)
    requires i <= |t.list|
    ensures var w := WalkFrom(store, t, now, trigger, strict, i, triggered);
            && (forall q :: q in w.log ==> exists k: nat :: i <= k && DueAt(t, k, now, trigger, strict) && q == RequestFor(t, k, now))
            && (!w.verdict.failed ==>
                  forall k: nat :: i <= k && DueAt(t, k, now, trigger, strict) ==> RequestFor(t, k, now) in w.log)
            && (!w.verdict.failed ==> (w.verdict.refresh <==> triggered || w.log != []))
    decreases |t.list| - i
  {
    if i < |t.list| {
      if !DueAt(t, i, now, trigger, strict) {
        WalkRequests(store, t, now, trigger, strict, i + 1, triggered);
      } else {
        var put := Update(store, t.list[i], t.FateOf(i));
        WalkRequests(put.store, t, now, trigger, strict, i + 1, true);
      }
    }
  }

  /** A tick that succeeds asks for exactly the due registrations of its list, and draws a new interval exactly if there
      were any. */
  lemma TickAsksExactlyForTheDue(store: Store, t: Tick, now: int, trigger: int, strict: int, q: Request)
    requires !Callback(store, t, now, trigger, strict).verdict.failed
    ensures var w := Callback(store, t, now, trigger, strict);
            && (q in w.log <==> exists k: nat :: DueAt(t, k, now, trigger, strict) && q == RequestFor(t, k, now))
            && (w.verdict.refresh <==> w.log != [])
  {
    WalkRequests(store, t, now, trigger, strict, 0, false);
  }

  predicate Distinct(list: seq<Listed>) {
    forall j, k :: 0 <= j < k < |list| ==> list[j].name != list[k].name
  }

  lemma {:induction false} WalkFails(store: Store, t: Tick, now: int, trigger: int, strict: int, i: nat, triggered: bool)
    requires i <= |t.list| && Distinct(t.list)
    ensures WalkFrom(store, t, now, trigger, strict, i, triggered).verdict.failed <==>
              exists k: nat :: i <= k && DueAt(t, k, now, trigger, strict) && !Update(store, t.list[k], t.FateOf(k)).ok
    decreases |t.list| - i
  {
    if i < |t.list| {
      if !DueAt(t, i, now, trigger, strict) {
        WalkFails(store, t, now, trigger, strict, i + 1, triggered);
      } else {
        var put := Update(store, t.list[i], t.FateOf(i));
        if put.ok {
          WalkFails(put.store, t, now, trigger, strict, i + 1, true);
          forall k | i < k < |t.list|
            ensures Update(put.store, t.list[k], t.FateOf(k)).ok == Update(store, t.list[k], t.FateOf(k)).ok
          {
          }
        }
      }
    }
  }

  /** A tick fails exactly when the list fails or the Update of some due registration is not answered. */
  lemma TickFailsExactlyOnAnUnansweredUpdate(store: Store, t: Tick, now: int, trigger: int, strict: int)
    requires Distinct(t.list)
    ensures Callback(store, t, now, trigger, strict).verdict.failed <==>
              t.listFails || exists k: nat :: DueAt(t, k, now, trigger, strict) && !Update(store, t.list[k], t.FateOf(k)).ok
  {
    WalkFails(store, t, now, trigger, strict, 0, false);
  }

  /** The record as it was, or, if it was not asked for yet, with SyncNow stored as true in the next version: its mode, its
      references and its status stay. */
  predicate AsIsOrAsked(before: Record, after: Record) {
    after == before ||
    (before.spec.syncNow != Some(true) &&
     after == Record(before.version + 1,
                     Spec(before.spec.mode, before.spec.request, before.spec.certificate, Some(true)), before.status))
  }

  /** A tick changes nothing about any record but SyncNow and the version. */
  ghost predicate OnlyAsks(before: Store, after: Store) {
    before.Keys == after.Keys && forall n :: n in before ==> AsIsOrAsked(before[n], after[n])
  }

  /** The stored record asks the controller for a validation, and was last validated at that time. */
  predicate StoredAs(store: Store, name: string, validated: int) {
    name in store && Eligible(store[name]) && Lifecycle.NeedsSyncNow(store[name].spec) && store[name].status.validated == validated
  }

  ghost predicate LogIsStored(before: Store, after: Store, log: seq<Request>, now: int, trigger: int, strict: int) {
    && (forall q :: q in log ==> StoredAs(after, q.name, q.validated) && q.name in before && Due(before[q.name], now, trigger, strict))
    && (forall n :: n in before && n in after && after[n] != before[n] ==> exists q :: q in log && q.name == n)
  }

  lemma UpdateStores(store: Store, t: Tick, i: nat, now: int, trigger: int, strict: int)
    requires DueAt(t, i, now, trigger, strict)
    ensures var put := Update(store, t.list[i], t.FateOf(i));
            && OnlyAsks(store, put.store)
            && LogIsStored(store, put.store, if put.stored then [RequestFor(t, i, now)] else [], now, trigger, strict)
  {
    assert RequestFor(t, i, now) in [RequestFor(t, i, now)];
  }

  lemma AskingTwice(a: Store, b: Store, c: Store)
    requires OnlyAsks(a, b) && OnlyAsks(b, c)
    ensures OnlyAsks(a, c)
    ensures forall name, validated :: StoredAs(b, name, validated) ==> StoredAs(c, name, validated)
  {
  }

  lemma LogsJoin(a: Store, b: Store, c: Store, first: seq<Request>, rest: seq<Request>, now: int, trigger: int, strict: int)
    requires OnlyAsks(a, b) && OnlyAsks(b, c)
    requires LogIsStored(a, b, first, now, trigger, strict) && LogIsStored(b, c, rest, now, trigger, strict)
    ensures LogIsStored(a, c, first + rest, now, trigger, strict)
  {
    AskingTwice(a, b, c);
    forall n | n in a && n in c && c[n] != a[n] ensures exists q :: q in first + rest && q.name == n {
      if b[n] != a[n] {
        var q :| q in first && q.name == n;
        assert q in first + rest;
      } else {
        var q :| q in rest && q.name == n;
        assert q in first + rest;
      }
    }
  }

  lemma {:induction false} WalkStores(store: Store, t: Tick, now: int, trigger: int, strict: int, i: nat, triggered: bool)
    requires i <= |t.list|
    ensures var w := WalkFrom(store, t, now, trigger, strict, i, triggered);
            OnlyAsks(store, w.store) && LogIsStored(store, w.store, w.log, now, trigger, strict)
    decreases |t.list| - i
  {
    if i < |t.list| {
      if !DueAt(t, i, now, trigger, strict) {
        WalkStores(store, t, now, trigger, strict, i + 1, triggered);
      } else {
        var put := Update(store, t.list[i], t.FateOf(i));
        var rest := WalkFrom(put.store, t, now, trigger, strict, i + 1, true);
        UpdateStores(store, t, i, now, trigger, strict);
        WalkStores(put.store, t, now, trigger, strict, i + 1, true);
        AskingTwice(store, put.store, rest.store);
        LogsJoin(store, put.store, rest.store, if put.stored then [RequestFor(t, i, now)] else [], rest.log, now, trigger, strict);
      }
    }
  }

  /** What a tick stores, whether it fails or not: every request of its log stands in the store as SyncNow set to true on
      a record that was due, and every record that is not in the log is exactly as it was; of the others only SyncNow and
      the version have changed. */
  lemma WhatATickStores(store: Store, t: Tick, now: int, trigger: int, strict: int)
    ensures var w := Callback(store, t, now, trigger, strict);
            && w.store.Keys == store.Keys
            && (forall q :: q in w.log ==>
                  q.name in store && Due(store[q.name], now, trigger, strict) &&
                  w.store[q.name].spec.syncNow == Some(true) && w.store[q.name].status.validated == q.validated)
            && (forall n :: n in store ==>
                  w.store[n].status == store[n].status && w.store[n].spec.mode == store[n].spec.mode &&
                  w.store[n].spec.request == store[n].spec.request && w.store[n].spec.certificate == store[n].spec.certificate)
            && (forall n :: n in store && (forall q :: q in w.log ==> q.name != n) ==> w.store[n] == store[n])
  {
    if !t.listFails {
      WalkStores(store, t, now, trigger, strict, 0, false);
    }
  }

  /** So a tick that succeeds on a list of the stored records sets SyncNow for exactly the registered online ones whose
      validation has reached the interval in force or the deadline. */
  lemma {:induction false} AGoodTickSetsSyncNowExactly(store: Store, t: Tick, now: int, trigger: int, strict: int, n: string)
    requires !Callback(store, t, now, trigger, strict).verdict.failed && Sees(store, t.list) && n in store
    ensures var after := Callback(store, t, now, trigger, strict).store;
            var r, age := store[n], now - store[n].status.validated;
            n in after &&
            if r.spec.mode.Online? && !OnlineMode.NeedsRegistration(r.status) && r.status.validated != 0 &&
               age >= (if trigger <= strict then trigger else strict)
            then after[n].spec.syncNow == Some(true) else after[n] == r
  {
    WhatATickStores(store, t, now, trigger, strict);
    if Due(store[n], now, trigger, strict) {
      var k :| 0 <= k < |t.list| && t.list[k] == Listed(n, store[n]);
      WalkRequests(store, t, now, trigger, strict, 0, false);
      assert DueAt(t, k, now, trigger, strict) && RequestFor(t, k, now) in Callback(store, t, now, trigger, strict).log;
    }
  }

  /** The list holds every eligible record as it is stored. */
  ghost predicate Sees(store: Store, list: seq<Listed>) {
    forall n :: n in store && Eligible(store[n]) ==> Listed(n, store[n]) in list
  }

  // ----- runs

  /** The store, the clock, the interval in force, what was asked for so far, and the time of the last tick that succeeded
      on a list of the stored records. */
  datatype Fleet = Fleet(store: Store, clock: int, trigger: int, log: seq<Request>, lastGood: Option<int>)

  datatype Event =
    | Ticked(tick: Tick)
    | Passed(now: int)
    | Changed(name: string, record: Record)
    | Gone(name: string)

  ghost function Step(s: Settings, f: Fleet, e: Event): Fleet {
    match e
    case Ticked(t) =>
      var w := Callback(f.store, t, f.clock, f.trigger, s.strict);
      Fleet(w.store, f.clock, NextTrigger(s, f.trigger, w.verdict, t.draw), f.log + w.log,
            if !w.verdict.failed && Sees(f.store, t.list) then Some(f.clock) else f.lastGood)
    case Passed(now) => f.(clock := now)
    case Changed(name, record) => f.(store := f.store[name := record])
    case Gone(name) => f.(store := f.store - {name})
  }

  /** What others may do to a record: validate it now, or anything that leaves its validation, or leaves it ineligible. */
  predicate LegalChange(before: Option<Record>, after: Record, now: int) {
    Eligible(after) ==>
      after.status.validated == now ||
      (before.Some? && Eligible(before.value) && after.status.validated == before.value.status.validated)
  }

  /** The clock does not run back, and good ticks come at most `gap` apart. */
  predicate Legal(s: Settings, gap: nat, f: Fleet, e: Event) {
    match e
    case Ticked(t) => s.CanDraw(t.draw)
    case Passed(now) => f.clock <= now && (f.lastGood.Some? ==> now <= f.lastGood.value + gap)
    case Changed(name, record) => LegalChange(if name in f.store then Some(f.store[name]) else None, record, f.clock)
    case Gone(_) => true
  }

  ghost function RunFleet(s: Settings, f: Fleet, events: seq<Event>): Fleet {
    if events == [] then f else Step(s, RunFleet(s, f, events[..|events| - 1]), events[|events| - 1])
  }

  ghost predicate LegalRun(s: Settings, gap: nat, f: Fleet, events: seq<Event>) {
    forall k :: 0 <= k < |events| ==> Legal(s, gap, RunFleet(s, f, events[..k]), events[k])
  }

  /** Settings as the constructor completes them, with a positive jitter and the default deadline. */
  predicate Sane(s: Settings) {
    s.jitterMax > 0 && s.scale > 0 && s.base - s.JitterMaxDuration() >= 0 && s.strict == s.base + s.JitterMaxDuration()
  }

  /** A registration was asked for since it was last validated. */
  predicate AskedSince(log: seq<Request>, name: string, validated: int) {
    exists q :: q in log && q.name == name && q.validated == validated
  }

  // ----- the invariant of a run

  predicate TriggerIsWithin(s: Settings, trigger: int) {
    0 <= s.base - s.JitterMaxDuration() <= trigger <= s.strict
  }

  predicate NoneTooEarly(s: Settings, log: seq<Request>) {
    forall q :: q in log ==> q.at - q.validated >= s.base - s.JitterMaxDuration()
  }

  /** At the last good tick, every record that is still eligible was younger than the deadline or asked for. */
  ghost predicate NoneOverdue(s: Settings, f: Fleet) {
    f.lastGood.Some? ==>
      forall n :: n in f.store && Eligible(f.store[n]) ==>
        f.lastGood.value - f.store[n].status.validated < s.strict || AskedSince(f.log, n, f.store[n].status.validated)
  }

  ghost predicate Kept(s: Settings, gap: nat, f: Fleet) {
    && TriggerIsWithin(s, f.trigger) && NoneTooEarly(s, f.log) && NoneOverdue(s, f)
    && (f.lastGood.Some? ==> f.lastGood.value <= f.clock <= f.lastGood.value + gap)
  }

  lemma TriggerStaysWithin(s: Settings, trigger: int, v: Verdict, draw: nat)
    requires Sane(s) && s.CanDraw(draw) && TriggerIsWithin(s, trigger)
    ensures TriggerIsWithin(s, NextTrigger(s, trigger, v, draw))
  {
    ProductIsMonotone(0, s.jitterMax, s.scale);
    IntervalIsWithinTheJitter(s, draw);
  }

  lemma {:induction false} RequestsAreOldEnough(s: Settings, f: Fleet, t: Tick)
    requires TriggerIsWithin(s, f.trigger)
    ensures NoneTooEarly(s, Callback(f.store, t, f.clock, f.trigger, s.strict).log)
  {
    WalkRequests(f.store, t, f.clock, f.trigger, s.strict, 0, false);
  }

  lemma AskedStays(log: seq<Request>, more: seq<Request>, name: string, validated: int)
    requires AskedSince(log, name, validated) || AskedSince(more, name, validated)
    ensures AskedSince(log + more, name, validated)
  {
    if AskedSince(log, name, validated) {
      var q :| q in log && q.name == name && q.validated == validated;
      assert q in log + more;
    } else {
      var q :| q in more && q.name == name && q.validated == validated;
      assert q in log + more;
    }
  }

  /** After a good tick every eligible record is younger than the deadline, or was just asked for. */
  lemma {:induction false} AGoodTickAsksForTheOverdue(s: Settings, f: Fleet, t: Tick, n: string)
    requires TriggerIsWithin(s, f.trigger) && Sees(f.store, t.list) && n in f.store && Eligible(f.store[n])
    requires !Callback(f.store, t, f.clock, f.trigger, s.strict).verdict.failed
    ensures f.clock - f.store[n].status.validated < s.strict ||
              AskedSince(Callback(f.store, t, f.clock, f.trigger, s.strict).log, n, f.store[n].status.validated)
  {
    if f.clock - f.store[n].status.validated >= s.strict {
      var k :| 0 <= k < |t.list| && t.list[k] == Listed(n, f.store[n]);
      assert DueAt(t, k, f.clock, f.trigger, s.strict);
      WalkRequests(f.store, t, f.clock, f.trigger, s.strict, 0, false);
      assert RequestFor(t, k, f.clock) in Callback(f.store, t, f.clock, f.trigger, s.strict).log;
    }
  }

  lemma {:induction false} TickKeeps(s: Settings, gap: nat, f: Fleet, t: Tick)
    requires Sane(s) && Kept(s, gap, f) && Legal(s, gap, f, Ticked(t))
    ensures Kept(s, gap, Step(s, f, Ticked(t)))
  {
    var w := Callback(f.store, t, f.clock, f.trigger, s.strict);
    var g := Step(s, f, Ticked(t));
    TriggerStaysWithin(s, f.trigger, w.verdict, t.draw);
    RequestsAreOldEnough(s, f, t);
    if !t.listFails {
      WalkStores(f.store, t, f.clock, f.trigger, s.strict, 0, false);
    }
    if g.lastGood.Some? {
      forall n | n in g.store && Eligible(g.store[n])
        ensures g.lastGood.value - g.store[n].status.validated < s.strict || AskedSince(g.log, n, g.store[n].status.validated)
      {
        var validated := f.store[n].status.validated;
        if !w.verdict.failed && Sees(f.store, t.list) {
          AGoodTickAsksForTheOverdue(s, f, t, n);
        }
        if AskedSince(f.log, n, validated) || AskedSince(w.log, n, validated) {
          AskedStays(f.log, w.log, n, validated);
        }
      }
    }
  }

  lemma {:induction false} StepKeeps(s: Settings, gap: nat, f: Fleet, e: Event)
    requires Sane(s) && Kept(s, gap, f) && Legal(s, gap, f, e)
    ensures Kept(s, gap, Step(s, f, e))
  {
    match e {
      case Ticked(t) => TickKeeps(s, gap, f, t);
      case Passed(_) =>
      case Changed(_, _) => ProductIsMonotone(1, s.jitterMax, s.scale);
      case Gone(_) =>
    }
  }

  lemma {:induction false} RunKeeps(s: Settings, gap: nat, f: Fleet, events: seq<Event>)
    requires Sane(s) && Kept(s, gap, f) && LegalRun(s, gap, f, events)
    ensures Kept(s, gap, RunFleet(s, f, events))
  {
    if events != [] {
      var prior := events[..|events| - 1];
      assert LegalRun(s, gap, f, prior) by {
        forall k | 0 <= k < |prior| ensures Legal(s, gap, RunFleet(s, f, prior[..k]), prior[k]) {
          assert prior[..k] == events[..k] && prior[k] == events[k];
        }
      }
      RunKeeps(s, gap, f, prior);
      StepKeeps(s, gap, RunFleet(s, f, prior), events[|events| - 1]);
    }
  }

  /** A manager that has just drawn its first interval, over any store. */
  function Started(s: Settings, store: Store, clock: int, first: nat): Fleet {
    Fleet(store, clock, s.Interval(first), [], None)
  }

  lemma StartedIsKept(s: Settings, gap: nat, store: Store, clock: int, first: nat)
    requires Sane(s) && s.CanDraw(first)
    ensures Kept(s, gap, Started(s, store, clock, first))
  {
    IntervalIsWithinTheJitter(s, first);
    ProductIsMonotone(0, s.jitterMax, s.scale);
  }

  /** After the k-th event, a tick, the stored record asks the controller for the validation after that time. */
  ghost predicate AskedAt(s: Settings, f: Fleet, events: seq<Event>, k: nat, name: string, validated: int) {
    k < |events| && events[k].Ticked? && StoredAs(RunFleet(s, f, events[..k + 1]).store, name, validated)
  }

  /** Each request of the log was stored: after one of the ticks the controller found SyncNow on the record. */
  lemma {:induction false} LoggedMeansStored(s: Settings, f: Fleet, events: seq<Event>, q: Request)
    requires f.log == [] && q in RunFleet(s, f, events).log
    ensures exists k: nat :: AskedAt(s, f, events, k, q.name, q.validated)
  {
    if events != [] {
      var last := |events| - 1;
      var prior, e := events[..last], events[last];
      var g := RunFleet(s, f, prior);
      if q in g.log {
        LoggedMeansStored(s, f, prior, q);
        var k: nat :| AskedAt(s, f, prior, k, q.name, q.validated);
        assert prior[..k + 1] == events[..k + 1] && AskedAt(s, f, events, k, q.name, q.validated);
      } else {
        WalkStores(g.store, e.tick, g.clock, g.trigger, s.strict, 0, false);
        assert events[..last + 1] == events && AskedAt(s, f, events, last, q.name, q.validated);
      }
    }
  }

  /** Bounded staleness: at every point of a run after its first good tick, each eligible record is younger than the base
      plus the jitter plus the gap, or the store has asked the controller to validate it since it was last validated;
      whatever the store held at the start, whatever was drawn, and whatever others did in between. */
  lemma {:induction false} NobodyIsStale(s: Settings, gap: nat, store: Store, clock: int, first: nat, events: seq<Event>, n: string)
    requires Sane(s) && s.CanDraw(first) && LegalRun(s, gap, Started(s, store, clock, first), events)
    requires var f := RunFleet(s, Started(s, store, clock, first), events);
             f.lastGood.Some? && n in f.store && Eligible(f.store[n])
    ensures var f := RunFleet(s, Started(s, store, clock, first), events);
            f.clock - f.store[n].status.validated < s.base + s.JitterMaxDuration() + gap ||
            exists k: nat :: AskedAt(s, Started(s, store, clock, first), events, k, n, f.store[n].status.validated)
  {
    StartedIsKept(s, gap, store, clock, first);
    RunKeeps(s, gap, Started(s, store, clock, first), events);
    var f := RunFleet(s, Started(s, store, clock, first), events);
    if AskedSince(f.log, n, f.store[n].status.validated) {
      var q :| q in f.log && q.name == n && q.validated == f.store[n].status.validated;
      LoggedMeansStored(s, Started(s, store, clock, first), events, q);
    }
  }

  /** And no record is ever asked for at an age below the base less the jitter: the first request included. */
  lemma {:induction false} NobodyIsAskedTooEarly(s: Settings, gap: nat, store: Store, clock: int, first: nat, events: seq<Event>, q: Request)
    requires Sane(s) && s.CanDraw(first) && LegalRun(s, gap, Started(s, store, clock, first), events)
    requires q in RunFleet(s, Started(s, store, clock, first), events).log
    ensures q.at - q.validated >= s.base - s.JitterMaxDuration()
  {
    StartedIsKept(s, gap, store, clock, first);
    RunKeeps(s, gap, Started(s, store, clock, first), events);
  }

  /** The interval in force lies within the jitter of the base at every point of a run. */
  lemma {:induction false} TriggerStaysWithinTheJitter(s: Settings, gap: nat, store: Store, clock: int, first: nat, events: seq<Event>)
    requires Sane(s) && s.CanDraw(first) && LegalRun(s, gap, Started(s, store, clock, first), events)
    ensures TriggerIsWithin(s, RunFleet(s, Started(s, store, clock, first), events).trigger)
  {
    StartedIsKept(s, gap, store, clock, first);
    RunKeeps(s, gap, Started(s, store, clock, first), events);
  }

  /** A new interval is drawn by exactly the ticks that succeed and ask for somebody. */
  lemma {:induction false} AnIntervalIsDrawnExactlyAfterAsking(s: Settings, f: Fleet, t: Tick)
    ensures var w, g := Callback(f.store, t, f.clock, f.trigger, s.strict), Step(s, f, Ticked(t));
            g.trigger == if !w.verdict.failed && |g.log| > |f.log| then s.base + (t.draw - s.jitterMax) * s.scale else f.trigger
  {
    WalkRequests(f.store, t, f.clock, f.trigger, s.strict, 0, false);
  }

  // ----- the controller and the configurations

  /** What the controller does to an online registration is legal here: an enabled change validates it at its own time,
      leaves its validation, or leaves it ineligible. */
  lemma {:induction false} TheControllerIsLegal(m: Reconciliation.Mutation, n: Automaton.Node, before: Record, after: Record, now: int)
    requires Reachability.Good(Online, n) && Automaton.Enabled(Online, m, n)
    requires before.status == n.status && before.spec.mode.Online? && after.status == Reconciliation.Apply(Online, m, n.status)
    requires m.FailRegister? || m.FailActivate? || m.Activate? || m.Keep? ==> m.now == now
    ensures LegalChange(Some(before), after, now)
  {
    Simulation.MutationIsEdge(m, n);
    match m {
      case FailRegister(err, phase, t) =>
        if OnlineMode.NonRecoverable(Some(err)) {
          Reachability.NonRecoverableRegisterError(n.status, err, phase, t);
          NonRecoverableValidatesNow(n.status, err, phase, t);
        } else {
          Reachability.RecoverableRegisterError(n.status, err, phase, t);
        }
      case _ =>
    }
  }

  lemma NonRecoverableValidatesNow(s: Status, err: Fault, phase: nat, now: nat)
    requires OnlineMode.NonRecoverable(Some(err))
    ensures OnlineMode.RegisterErrorReconciled(s, err, phase, now).validated == now
  {
  }

  /** Both configurations are sane, and their lower bound is the minimum check-in of the controller: 17 hours, or 20 minutes
      in development, with deadlines of 23 hours and 40 minutes. */
  lemma ConfigurationsMatchTheController(devMode: bool)
    ensures var s := Setup(devMode).Completed();
            && s.Some? && Sane(s.value) && s.value.base - s.value.JitterMaxDuration() == Reconciliation.MinCheckin(devMode)
            && s.value.base == (if devMode then 30 * 60 else 20 * 3600)
            && s.value.strict == (if devMode then 40 * 60 else 23 * 3600)
            && s.value.polling == (if devMode then 9 else 9 * 60)
  {
  }

  /** So the controller never takes a registration that was asked for as recently validated, even if the request is lost
      again before the controller looks at it. */
  lemma {:induction false} AskedForIsNotRecent(devMode: bool, gap: nat, store: Store, clock: int, first: nat, events: seq<Event>,
                                               q: Request, r: Record, a: Reconciliation.Answers)
    requires var s := Setup(devMode).Completed().value;
             s.CanDraw(first) && LegalRun(s, gap, Started(s, store, clock, first), events) &&
             q in RunFleet(s, Started(s, store, clock, first), events).log
    requires r.status.validated == q.validated && a.devMode == devMode && a.now >= q.at
    ensures !Reconciliation.RecentlyValidated(r, a)
  {
    ConfigurationsMatchTheController(devMode);
    NobodyIsAskedTooEarly(Setup(devMode).Completed().value, gap, store, clock, first, events, q);
  }

  // ----- in place

  class Manager {
    var store: Store
    var log: seq<Request>
    const checker: JitterChecker

    constructor (s: Store, c: JitterChecker)
      ensures store == s && log == [] && checker == c
    {
      store, log, checker := s, [], c;
    }

    method OnTick(t: Tick, now: int, nextTrigger: int, strictDeadline: int) returns (checkInWasTriggered: bool, failed: bool)
      modifies this
      ensures var w := Callback(old(store), t, now, nextTrigger, strictDeadline);
              store == w.store && log == old(log) + w.log && Verdict(checkInWasTriggered, failed) == w.verdict
    {
      if t.listFails {
        return false, true;
      }
      checkInWasTriggered, failed := false, false;
      for i := 0 to |t.list|
        invariant var w := WalkFrom(store, t, now, nextTrigger, strictDeadline, i, checkInWasTriggered);
                  var all := Callback(old(store), t, now, nextTrigger, strictDeadline);
                  w.store == all.store && log + w.log == old(log) + all.log && w.verdict == all.verdict
        invariant !failed
      {
        var r := t.list[i].record;
        if r.spec.mode.Offline? || OnlineMode.NeedsRegistration(r.status) || r.status.validated == 0 {
          continue;
        }
        var timeSinceLastValidation := now - r.status.validated;
        if timeSinceLastValidation >= nextTrigger || timeSinceLastValidation >= strictDeadline {
          checkInWasTriggered := true;
          var put := Update(store, t.list[i], t.FateOf(i));
          store := put.store;
          if put.stored {
            log := log + [Request(t.list[i].name, r.status.validated, now)];
          }
          if !put.ok {
            return true, true;
          }
        }
      }
    }

    method Run(t: Tick, now: int)
      requires checker.config.View().CanDraw(t.draw)
      modifies this, checker
      ensures var s := checker.config.View();
              var w := Callback(old(store), t, now, old(checker.triggerInterval), s.strict);
              store == w.store && log == old(log) + w.log &&
              checker.triggerInterval == NextTrigger(s, old(checker.triggerInterval), w.verdict, t.draw)
    {
      var refresh, failed := OnTick(t, now, checker.triggerInterval, checker.config.strictDeadline);
      checker.Conclude(Verdict(refresh, failed), t.draw);
    }
  }
}
