/** The once-initialised values: any number of threads call Set, Get and GetWithContext on one value, and every step
    between two synchronisation points is one transition. A thread is an index into the sequence of program counters. */
module Initializer {
  import opened Wrappers

  /** Where a thread is. Set runs InitOnce; Get runs WaitForInit and then reads the value without the lock. */
  datatype Pc<V> =
    | SetStart(v: V) | SetLock(v: V) | SetTest(v: V) | SetBody(v: V) | SetFlag | SetBroadcast | SetUnlock | SetDone
    | GetStart | GetLock | GetTest | GetEnroll | GetRelease | GetAsleep | GetUnlock | GetRead | GetDone(result: V)
    | ContextWait(waiter: nat) | ContextRead | ContextDone(answer: Option<V>)

  /** `conds` counts the condition variables made, `bodies` the runs of the initialiser body, and `first` is the value
      of the first of them. */
  datatype State<V> = State(
    threads: seq<Pc<V>>,
    conds: nat,
    owner: Option<nat>,
    initialized: bool,
    value: V,
    waiters: set<nat>,
    bodies: nat,
    first: Option<V>)

  predicate IsSet(pc: Pc) {
    pc.SetStart? || pc.SetLock? || pc.SetTest? || pc.SetBody? || pc.SetFlag? || pc.SetBroadcast? || pc.SetUnlock? || pc.SetDone?
  }

  predicate IsGet(pc: Pc) {
    pc.GetStart? || pc.GetLock? || pc.GetTest? || pc.GetEnroll? || pc.GetRelease? || pc.GetAsleep? ||
    pc.GetUnlock? || pc.GetRead? || pc.GetDone?
  }

  predicate Finished(pc: Pc) {
    pc.SetDone? || pc.GetDone? || pc.ContextDone?
  }

  predicate HoldsLock(pc: Pc) {
    pc.SetTest? || pc.SetBody? || pc.SetFlag? || pc.SetBroadcast? || pc.SetUnlock? ||
    pc.GetTest? || pc.GetEnroll? || pc.GetRelease? || pc.GetUnlock?
  }

  /** What happened to the context of a thread that waits with one. */
  datatype Choice = Proceed | ContextOver

  predicate Enabled<V>(s: State<V>, t: nat, c: Choice) {
    t < |s.threads| &&
    match s.threads[t]
    case SetLock(_) => c.Proceed? && s.owner.None?
    case GetLock => c.Proceed? && s.owner.None?
    case GetAsleep => c.Proceed? && t !in s.waiters
    case SetDone => false
    case GetDone(_) => false
    case ContextDone(_) => false
    case ContextWait(w) =>
      c.ContextOver? || (w < |s.threads| && (s.threads[w].GetRead? || s.threads[w].GetDone?))
    case _ => c.Proceed?
  }

  function Goto<V>(s: State<V>, t: nat, pc: Pc<V>): State<V>
    requires t < |s.threads|
  {
    s.(threads := s.threads[t := pc])
  }

  function Next<V>(s: State<V>, t: nat, c: Choice): State<V>
    requires Enabled(s, t, c)
  {
    match s.threads[t]
    case SetStart(v) => Goto(s, t, SetLock(v)).(conds := if s.conds == 0 then 1 else s.conds)
    case SetLock(v) => Goto(s, t, SetTest(v)).(owner := Some(t))
    case SetTest(v) => Goto(s, t, if s.initialized then SetUnlock else SetBody(v))
    case SetBody(v) => Goto(s, t, SetFlag).(value := v, bodies := s.bodies + 1, first := if s.first.None? then Some(v) else s.first)
    case SetFlag => Goto(s, t, SetBroadcast).(initialized := true)
    case SetBroadcast => Goto(s, t, SetUnlock).(waiters := {})
    case SetUnlock => Goto(s, t, SetDone).(owner := None)
    case GetStart => Goto(s, t, GetLock).(conds := if s.conds == 0 then 1 else s.conds)
    case GetLock => Goto(s, t, GetTest).(owner := Some(t))
    case GetTest => Goto(s, t, if s.initialized then GetUnlock else GetEnroll)
    case GetEnroll => Goto(s, t, GetRelease).(waiters := s.waiters + {t})
    case GetRelease => Goto(s, t, GetAsleep).(owner := None)
    case GetAsleep => Goto(s, t, GetLock)
    case GetUnlock => Goto(s, t, GetRead).(owner := None)
    case GetRead => Goto(s, t, GetDone(s.value))
    case ContextWait(_) => Goto(s, t, if c.ContextOver? then ContextDone(None) else ContextRead)
    case ContextRead => Goto(s, t, ContextDone(Some(s.value)))
  }

  /** Every thread is about to start; a thread with a context has a getter that waits on its behalf. */
  predicate Initial<V>(s: State<V>) {
    && s.conds == 0 && s.owner.None? && !s.initialized && s.waiters == {} && s.bodies == 0 && s.first.None?
    && forall t :: 0 <= t < |s.threads| ==>
         match s.threads[t]
         case SetStart(_) => true
         case GetStart => true
         case ContextWait(w) => w < |s.threads| && s.threads[w].GetStart?
         case _ => false
  }

  // ----- the invariant

  ghost predicate LockInv<V>(s: State<V>) {
    && (s.owner.Some? ==> s.owner.value < |s.threads|)
    && forall t :: 0 <= t < |s.threads| ==> (HoldsLock(s.threads[t]) <==> s.owner == Some(t))
  }

  ghost predicate OnceInv<V>(s: State<V>) {
    && s.bodies <= 1
    && (s.bodies == 1 <==> s.first.Some?)
    && (s.first.Some? ==> s.value == s.first.value)
    && (s.initialized ==> s.bodies == 1)
    && (s.bodies == 1 && !s.initialized ==> s.owner.Some? && s.owner.value < |s.threads| && s.threads[s.owner.value].SetFlag?)
  }

  ghost predicate ThreadInv<V>(s: State<V>, t: nat)
    requires t < |s.threads|
  {
    match s.threads[t]
    case SetBody(_) => s.bodies == 0
    case SetFlag => s.bodies == 1 && !s.initialized
    case SetBroadcast => s.initialized
    case SetUnlock => s.initialized
    case SetDone => s.initialized
    case GetEnroll => s.bodies == 0
    case GetRelease => s.bodies == 0 && t in s.waiters
    case GetAsleep => t !in s.waiters ==> s.initialized
    case GetUnlock => s.initialized
    case GetRead => s.initialized
    case GetDone(r) => s.initialized && s.first == Some(r)
    case ContextWait(w) => w < |s.threads| && IsGet(s.threads[w])
    case ContextRead => s.initialized
    case ContextDone(r) => r.Some? ==> s.first == r
    case _ => true
  }

  ghost predicate WaitersInv<V>(s: State<V>) {
    && (forall t :: t in s.waiters ==> t < |s.threads| && (s.threads[t].GetRelease? || s.threads[t].GetAsleep?))
    && (s.initialized && s.waiters != {} ==>
          s.owner.Some? && s.owner.value < |s.threads| && s.threads[s.owner.value].SetBroadcast?)
  }

  ghost predicate Inv<V>(s: State<V>) {
    && LockInv(s) && OnceInv(s) && WaitersInv(s) && s.conds <= 1
    && forall t :: 0 <= t < |s.threads| ==> ThreadInv(s, t)
  }

  lemma NextKeepsLock<V>(s: State<V>, t: nat, c: Choice)
    requires Inv(s) && Enabled(s, t, c)
    ensures LockInv(Next(s, t, c)) && Next(s, t, c).conds <= 1
  {
    assert HoldsLock(s.threads[t]) <==> s.owner == Some(t);
  }

  lemma NextKeepsOnce<V>(s: State<V>, t: nat, c: Choice)
    requires Inv(s) && Enabled(s, t, c)
    ensures OnceInv(Next(s, t, c))
  {
    assert ThreadInv(s, t);
    assert HoldsLock(s.threads[t]) <==> s.owner == Some(t);
  }

  lemma NextKeepsWaiters<V>(s: State<V>, t: nat, c: Choice)
    requires Inv(s) && Enabled(s, t, c)
    ensures WaitersInv(Next(s, t, c))
  {
    assert ThreadInv(s, t);
    assert HoldsLock(s.threads[t]) <==> s.owner == Some(t);
  }

  lemma NextKeepsMover<V>(s: State<V>, t: nat, c: Choice)
    requires Inv(s) && Enabled(s, t, c)
    ensures ThreadInv(Next(s, t, c), t)
  {
    assert ThreadInv(s, t);
    assert HoldsLock(s.threads[t]) <==> s.owner == Some(t);
    if s.threads[t].ContextWait? {
      assert ThreadInv(s, s.threads[t].waiter);
    }
  }

  lemma NextKeepsOthers<V>(s: State<V>, t: nat, c: Choice, u: nat)
    requires Inv(s) && Enabled(s, t, c) && u < |s.threads| && u != t
    ensures ThreadInv(Next(s, t, c), u)
  {
    assert ThreadInv(s, t) && ThreadInv(s, u);
    assert HoldsLock(s.threads[t]) <==> s.owner == Some(t);
    assert HoldsLock(s.threads[u]) <==> s.owner == Some(u);
  }

  lemma NextKeepsInv<V>(s: State<V>, t: nat, c: Choice)
    requires Inv(s) && Enabled(s, t, c)
    ensures Inv(Next(s, t, c))
  {
    NextKeepsLock(s, t, c);
    NextKeepsOnce(s, t, c);
    NextKeepsWaiters(s, t, c);
    forall u | 0 <= u < |s.threads| ensures ThreadInv(Next(s, t, c), u) {
      if u == t {
        NextKeepsMover(s, t, c);
      } else {
        NextKeepsOthers(s, t, c, u);
      }
    }
  }

  // ----- runs

  datatype Move = Move(thread: nat, choice: Choice)

  /** A schedule every move of which is possible. */
  predicate Schedule<V>(s: State<V>, moves: seq<Move>)
    decreases |moves|
  {
    moves == [] ||
    (Enabled(s, moves[0].thread, moves[0].choice) &&
     Schedule(Next(s, moves[0].thread, moves[0].choice), moves[1..]))
  }

  function Execute<V>(s: State<V>, moves: seq<Move>): State<V>
    requires Schedule(s, moves)
    decreases |moves|
  {
    if moves == [] then s else Execute(Next(s, moves[0].thread, moves[0].choice), moves[1..])
  }

  lemma {:induction false} ExecuteKeepsInv<V>(s: State<V>, moves: seq<Move>)
    requires Inv(s) && Schedule(s, moves)
    ensures Inv(Execute(s, moves)) && |Execute(s, moves).threads| == |s.threads|
    decreases |moves|
  {
    if moves != [] {
      NextKeepsInv(s, moves[0].thread, moves[0].choice);
      ExecuteKeepsInv(Next(s, moves[0].thread, moves[0].choice), moves[1..]);
    }
  }

  /** The body runs at most once, on one condition variable, and every Get that returned has the value of that run. */
  lemma EveryGetReturnsTheFirstSet<V>(s: State<V>, moves: seq<Move>, t: nat)
    requires Initial(s) && Schedule(s, moves) && t < |s.threads|
    ensures Execute(s, moves).bodies <= 1 && Execute(s, moves).conds <= 1
    ensures |Execute(s, moves).threads| == |s.threads|
    ensures var r := Execute(s, moves); r.threads[t].GetDone? ==> r.first == Some(r.threads[t].result)
    ensures var r := Execute(s, moves); r.threads[t].ContextDone? && r.threads[t].answer.Some? ==> r.first == r.threads[t].answer
  {
    ExecuteKeepsInv(s, moves);
    assert ThreadInv(Execute(s, moves), t);
  }

  /** No wake-up is lost: once initialised, nobody sleeps in the wait set unless the broadcast is about to come. */
  lemma NoLostWakeUp<V>(s: State<V>, moves: seq<Move>)
    requires Initial(s) && Schedule(s, moves)
    ensures var r := Execute(s, moves); r.initialized && r.owner.None? ==> r.waiters == {}
  {
    ExecuteKeepsInv(s, moves);
  }

  lemma {:induction false} ContextsAnswer<V>(s: State<V>, moves: seq<Move>, t: nat)
    requires Schedule(s, moves) && t < |s.threads|
    ensures var r := Execute(s, moves);
            && |r.threads| == |s.threads|
            && (s.threads[t].ContextWait? && Move(t, ContextOver) in moves ==> r.threads[t] == ContextDone(None))
            && (s.threads[t].ContextWait? && Move(t, ContextOver) !in moves ==>
                  r.threads[t] == s.threads[t] || r.threads[t].ContextRead? || (r.threads[t].ContextDone? && r.threads[t].answer.Some?))
            && (s.threads[t].ContextRead? ==>
                  r.threads[t].ContextRead? || (r.threads[t].ContextDone? && r.threads[t].answer.Some?))
            && (s.threads[t].ContextDone? ==> r.threads[t] == s.threads[t])
    decreases |moves|
  {
    if moves != [] {
      var m := moves[0];
      ContextsAnswer(Next(s, m.thread, m.choice), moves[1..], t);
      assert Move(t, ContextOver) in moves <==> m == Move(t, ContextOver) || Move(t, ContextOver) in moves[1..];
      if Next(s, m.thread, m.choice).threads[t].ContextRead? {
        ContextReadersDoNotGiveUp(Next(s, m.thread, m.choice), moves[1..], t);
      }
    }
  }

  lemma {:induction false} ContextReadersDoNotGiveUp<V>(s: State<V>, moves: seq<Move>, t: nat)
    requires Schedule(s, moves) && t < |s.threads| && (s.threads[t].ContextRead? || s.threads[t].ContextDone?)
    ensures Move(t, ContextOver) !in moves
    decreases |moves|
  {
    if moves != [] {
      ContextReadersDoNotGiveUp(Next(s, moves[0].thread, moves[0].choice), moves[1..], t);
      assert forall m :: m in moves <==> m == moves[0] || m in moves[1..];
    }
  }

  /** A GetWithContext that has returned came back empty exactly if its context was over while it waited; otherwise it has
      the value of the first Set. */
  lemma AContextThatHoldsGetsTheValue<V>(s: State<V>, moves: seq<Move>, t: nat)
    requires Initial(s) && Schedule(s, moves) && t < |s.threads| && s.threads[t].ContextWait?
    ensures t < |Execute(s, moves).threads|
    ensures var r := Execute(s, moves);
            r.threads[t].ContextDone? ==>
              (r.threads[t].answer.None? <==> Move(t, ContextOver) in moves) &&
              (r.threads[t].answer.Some? ==> r.first == r.threads[t].answer)
  {
    ContextsAnswer(s, moves, t);
    EveryGetReturnsTheFirstSet(s, moves, t);
  }

  // ----- liveness

  ghost predicate Stuck<V>(s: State<V>) {
    forall t, c :: 0 <= t < |s.threads| ==> !Enabled(s, t, c)
  }

  ghost predicate WaitsForASet<V>(s: State<V>) {
    && !s.initialized
    && (forall t :: 0 <= t < |s.threads| ==>
          s.threads[t].ContextDone? || (s.threads[t].GetAsleep? && t in s.waiters))
  }

  /** A run can stop only when every thread is finished, or when there is no Set at all and every getter is asleep. */
  lemma StuckExactly<V>(s: State<V>)
    requires Inv(s)
    ensures Stuck(s) <==> (forall t :: 0 <= t < |s.threads| ==> Finished(s.threads[t])) || WaitsForASet(s)
  {
    if Stuck(s) {
      forall t | 0 <= t < |s.threads| ensures !Enabled(s, t, Proceed) && !Enabled(s, t, ContextOver) {
      }
      if s.owner.Some? {
        assert HoldsLock(s.threads[s.owner.value]);
        assert Enabled(s, s.owner.value, Proceed);
      }
      forall t | 0 <= t < |s.threads|
        ensures Finished(s.threads[t]) || (s.threads[t].GetAsleep? && t in s.waiters)
      {
        assert ThreadInv(s, t);
        assert !Enabled(s, t, Proceed) && !Enabled(s, t, ContextOver);
        assert !HoldsLock(s.threads[t]);
      }
      if t :| 0 <= t < |s.threads| && !Finished(s.threads[t]) {
        assert t in s.waiters && !s.initialized && s.first.None?;
        forall u | 0 <= u < |s.threads| ensures s.threads[u].ContextDone? || (s.threads[u].GetAsleep? && u in s.waiters) {
          assert ThreadInv(s, u);
        }
      }
    }
  }

  /** How many moves a thread still has: a getter sleeps at most once, since only the broadcast wakes it. */
  function Remaining<V>(s: State<V>, pc: Pc<V>): nat {
    match pc
    case SetStart(_) => 7
    case SetLock(_) => 6
    case SetTest(_) => 5
    case SetBody(_) => 4
    case SetFlag => 3
    case SetBroadcast => 2
    case SetUnlock => 1
    case GetStart => 10
    case GetLock => if s.initialized then 4 else 9
    case GetTest => if s.initialized then 3 else 8
    case GetEnroll => 7
    case GetRelease => 6
    case GetAsleep => 5
    case GetUnlock => 2
    case GetRead => 1
    case ContextWait(_) => 2
    case ContextRead => 1
    case _ => 0
  }

  function Total<V>(s: State<V>, n: nat): nat
    requires n <= |s.threads|
  {
    if n == 0 then 0 else Total(s, n - 1) + Remaining(s, s.threads[n - 1])
  }

  lemma {:induction false} TotalDecreases<V>(s: State<V>, r: State<V>, t: nat, n: nat)
    requires |s.threads| == |r.threads| && n <= |s.threads|
    requires forall u :: 0 <= u < n ==> Remaining(r, r.threads[u]) <= Remaining(s, s.threads[u])
    ensures Total(r, n) <= Total(s, n)
    ensures t < n && Remaining(r, r.threads[t]) < Remaining(s, s.threads[t]) ==> Total(r, n) < Total(s, n)
  {
    if n > 0 {
      TotalDecreases(s, r, t, n - 1);
    }
  }

  lemma MoverAdvances<V>(s: State<V>, t: nat, c: Choice)
    requires Inv(s) && Enabled(s, t, c)
    ensures Remaining(Next(s, t, c), Next(s, t, c).threads[t]) < Remaining(s, s.threads[t])
  {
    assert ThreadInv(s, t);
  }

  lemma OthersDoNotRecede<V>(s: State<V>, t: nat, c: Choice, u: nat)
    requires Inv(s) && Enabled(s, t, c) && u < |s.threads| && u != t
    ensures Remaining(Next(s, t, c), Next(s, t, c).threads[u]) <= Remaining(s, s.threads[u])
  {
    assert ThreadInv(s, t);
  }

  lemma MoveDecreases<V>(s: State<V>, t: nat, c: Choice)
    requires Inv(s) && Enabled(s, t, c)
    ensures Total(Next(s, t, c), |s.threads|) < Total(s, |s.threads|)
  {
    var r := Next(s, t, c);
    MoverAdvances(s, t, c);
    forall u | 0 <= u < |s.threads| ensures Remaining(r, r.threads[u]) <= Remaining(s, s.threads[u]) {
      if u != t {
        OthersDoNotRecede(s, t, c, u);
      }
    }
    TotalDecreases(s, r, t, |s.threads|);
  }

  lemma {:induction false} TotalIsBounded<V>(s: State<V>, n: nat)
    requires n <= |s.threads|
    ensures Total(s, n) <= 10 * n
  {
    if n > 0 {
      TotalIsBounded(s, n - 1);
    }
  }

  lemma {:induction false} RunsShorten<V>(s: State<V>, moves: seq<Move>)
    requires Inv(s) && Schedule(s, moves)
    ensures |moves| + Total(Execute(s, moves), |Execute(s, moves).threads|) <= Total(s, |s.threads|)
    decreases |moves|
  {
    if moves != [] {
      NextKeepsInv(s, moves[0].thread, moves[0].choice);
      MoveDecreases(s, moves[0].thread, moves[0].choice);
      RunsShorten(Next(s, moves[0].thread, moves[0].choice), moves[1..]);
    }
  }

  lemma {:induction false} SettersStay<V>(s: State<V>, moves: seq<Move>, t: nat)
    requires Schedule(s, moves) && t < |s.threads| && IsSet(s.threads[t])
    ensures t < |Execute(s, moves).threads| && IsSet(Execute(s, moves).threads[t])
    decreases |moves|
  {
    if moves != [] {
      SettersStay(Next(s, moves[0].thread, moves[0].choice), moves[1..], t);
    }
  }

  /** Every run is finite, at most ten moves a thread; and if anybody calls Set, a run that cannot go on has finished
      every thread: no getter is left waiting. */
  lemma SetReleasesEverybody<V>(s: State<V>, moves: seq<Move>, setter: nat)
    requires Initial(s) && Schedule(s, moves) && setter < |s.threads| && s.threads[setter].SetStart?
    ensures |moves| <= 10 * |s.threads|
    ensures var r := Execute(s, moves);
            Stuck(r) ==> forall t :: 0 <= t < |r.threads| ==> Finished(r.threads[t])
  {
    RunsShorten(s, moves);
    TotalIsBounded(s, |s.threads|);
    ExecuteKeepsInv(s, moves);
    StuckExactly(Execute(s, moves));
    SettersStay(s, moves, setter);
  }
}
