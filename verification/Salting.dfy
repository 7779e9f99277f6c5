/** How an entrypoint secret gets its salt: not by the patch that is meant to store it, whose snapshot shares its labels,
    but only by the retry after that patch has failed. Until then no Registration is made. */
module Salting {
  import opened Wrappers
  import opened Ownership
  import opened Cluster
  import opened Entrypoint
  import opened Orphans

  /** The handler's next step is to salt this secret. */
  predicate NeedsSalt(secret: Secret, a: Answers) {
    var l := secret.labels;
    !secret.deleting && (HasSccManagedBy(l) || !ShouldAdopt(l, a.operator)) && ShouldManage(l, a.operator) && OBJECT_SALT !in l
  }

  function Salted(secret: Secret, a: Answers): Secret {
    secret.(labels := secret.labels[OBJECT_SALT := a.salt])
  }

  lemma TheCallPatchesFromTheSaltedCopy(s: State, a: Answers)
    requires s.secret.Some? && NeedsSalt(s.secret.value, a)
    ensures var copy := Salted(s.secret.value, a);
            OnSecretChange(s, s.secret.value, a) == Judge(RetryingPatch(s, copy, copy))
  {
    ManagedObjectsHaveLabels(s.secret.value.labels, a.operator);
  }

  lemma APatchBetweenEqualsIsEmpty(s: State, copy: Secret)
    requires PatchSecret(s, copy, copy).error.NoError?
    ensures PatchSecret(s, copy, copy).state == Arrival(s)
  {
    var stored := Arrival(s).secret.value;
    PatchedExtremes(stored.labels, copy.labels);
    PatchedExtremes(stored.data, copy.data);
  }

  /** If the first patch is answered, the call succeeds and the state is what it would be without the handler. */
  lemma {:induction false} AnAnsweredPatchSaltsNothing(s: State, a: Answers)
    requires s.secret.Some? && NeedsSalt(s.secret.value, a) && s.script != [] && s.script[0].fate.Answered?
    ensures OnSecretChange(s, s.secret.value, a) == Outcome(Arrival(s), true)
  {
    var copy := Salted(s.secret.value, a);
    TheCallPatchesFromTheSaltedCopy(s, a);
    ArrivalIsCalm(s);
    APatchBetweenEqualsIsEmpty(s, copy);
  }

  lemma {:induction false} TheRetryStoresTheCopy(s: State, copy: Secret, tries: nat)
    requires s.secret.Some? && NobodyEdits(s.script) && RetryPatch(s, copy, tries).error.NoError?
    ensures RetryPatch(s, copy, tries).state.secret.Some? && RetryPatch(s, copy, tries).state.secret.value.labels == copy.labels
    decreases tries
  {
    var got := GetSecret(s);
    assert s.script != [] ==> s.script[0].edits == [];
    var put := PatchSecret(got.state, got.state.secret.value, copy);
    assert got.state.script != [] ==> got.state.script[0].edits == [];
    PatchedExtremes(got.state.secret.value.labels, copy.labels);
    if put.error.Conflict? && tries > 1 {
      TheRetryStoresTheCopy(put.state, copy, tries - 1);
    }
  }

  /** A call that succeeds, and that nobody disturbs, has stored the salt if and only if its first patch failed. */
  lemma {:induction false} SaltArrivesExactlyByTheRetry(s: State, a: Answers)
    requires s.secret.Some? && NeedsSalt(s.secret.value, a) && NobodyEdits(s.script)
    requires OnSecretChange(s, s.secret.value, a).ok
    ensures var copy := Salted(s.secret.value, a);
            var t := OnSecretChange(s, s.secret.value, a).state;
            t.secret.Some? && (OBJECT_SALT in t.secret.value.labels <==> !PatchSecret(s, copy, copy).error.NoError?)
  {
    var copy := Salted(s.secret.value, a);
    TheCallPatchesFromTheSaltedCopy(s, a);
    assert s.script != [] ==> s.script[0].edits == [];
    var first := PatchSecret(s, copy, copy);
    if first.error.NoError? {
      APatchBetweenEqualsIsEmpty(s, copy);
    } else {
      TheRetryStoresTheCopy(first.state, copy, RETRY_STEPS);
    }
  }

  // ----- what follows for runs

  predicate LeavesTheSalt(edits: seq<Edit>) {
    forall e :: e in edits ==> !(e.SetLabel? && e.key == OBJECT_SALT)
  }

  predicate AllLeaveTheSalt(script: seq<Beat>) {
    forall b :: b in script ==> LeavesTheSalt(b.edits)
  }

  /** There is no Registration, and the secret has no salt. */
  predicate Bare(s: State) {
    s.regs == map[] && (s.secret.Some? ==> OBJECT_SALT !in s.secret.value.labels)
  }

  predicate Tidy(s: State) {
    Bare(s) && AllLeaveTheSalt(s.script)
  }

  lemma {:induction false} EditsKeepBare(s: State, edits: seq<Edit>)
    requires Bare(s) && LeavesTheSalt(edits)
    ensures Bare(EditedAll(s, edits))
    decreases |edits|
  {
    if edits != [] {
      assert edits[0] in edits;
      EditsKeepBare(Edited(s, edits[0]), edits[1..]);
    }
  }

  lemma ArrivalKeepsTidy(s: State)
    requires Tidy(s) && s.script != []
    ensures Tidy(Arrival(s))
  {
    assert s.script[0] in s.script;
    EditsKeepBare(s.(script := s.script[1..]), s.script[0].edits);
  }

  lemma CallsKeepTidy(s: State, name: string, reg: Reg)
    requires Tidy(s)
    ensures Tidy(OtherCall(s).state) && Tidy(StripReg(s, name, reg).state) && Tidy(DeleteRegistration(s, name).state)
    ensures !StripReg(s, name, reg).error.NoError?
  {
    if s.script != [] {
      ArrivalKeepsTidy(s);
    }
  }

  lemma {:induction false} OtherCallsKeepTidy(s: State, n: nat)
    requires Tidy(s)
    ensures Tidy(OtherCalls(s, n).state)
    decreases n
  {
    if n > 0 {
      CallsKeepTidy(s, "", BLANK);
      OtherCallsKeepTidy(OtherCall(s).state, n - 1);
    }
  }

  lemma {:induction false} StripLoopKeepsTidy(s: State, name: string, reg: Reg, tries: nat)
    requires Tidy(s)
    ensures Tidy(StripLoop(s, name, reg, tries).state)
    decreases tries
  {
    CallsKeepTidy(s, name, reg);
    var c := StripReg(s, name, reg);
    if c.error.Conflict? && tries > 1 {
      StripLoopKeepsTidy(c.state, name, reg, tries - 1);
    }
  }

  lemma {:induction false} CleanupFromKeepsTidy(s: State, i: nat, hash: string)
    requires Tidy(s) && i <= |s.cache|
    ensures Tidy(CleanupFrom(s, i, hash).state)
    decreases |s.cache| - i
  {
    if i < |s.cache| {
      if CarriesHash(s.cache[i].reg, hash) {
        var l := s.cache[i];
        StripLoopKeepsTidy(Stripped(s, i), l.name, l.reg, RETRY_STEPS);
        CallsKeepTidy(StripLoop(Stripped(s, i), l.name, l.reg, RETRY_STEPS).state, l.name, l.reg);
        if CleanupOne(s, i).ok {
          CleanupFromKeepsTidy(CleanupOne(s, i).state, i + 1, hash);
        }
      } else {
        CleanupFromKeepsTidy(s, i + 1, hash);
      }
    }
  }

  lemma PatchKeepsBare(s: State, snapshot: Secret, copy: Secret)
    requires Tidy(s) && (s.script == [] || s.script[0].fate.Answered?) && s.secret.Some?
    requires OBJECT_SALT !in copy.labels || snapshot == copy
    ensures Bare(RetryingPatch(s, snapshot, copy).state)
  {
    if s.script != [] {
      ArrivalKeepsTidy(s);
      ArrivalIsCalm(s);
    }
  }

  lemma {:induction false} ChangeKeepsBare(s: State, a: Answers)
    requires Tidy(s) && (s.script == [] || s.script[0].fate.Answered?) && s.secret.Some?
    ensures Bare(OnSecretChange(s, s.secret.value, a).state)
  {
    var incoming := s.secret.value;
    if NeedsSalt(incoming, a) {
      TheCallPatchesFromTheSaltedCopy(s, a);
      PatchKeepsBare(s, Salted(incoming, a), Salted(incoming, a));
    } else {
      PatchKeepsBare(s, incoming, incoming.(labels := Owned(incoming.labels, a.operator)));
    }
  }

  lemma {:induction false} RemovalKeepsBare(s: State, a: Answers)
    requires Tidy(s) && s.secret.Some?
    ensures Bare(OnSecretRemove(s, s.secret.value, a).state)
  {
    var l := s.secret.value.labels;
    if ShouldManage(l, a.operator) && NAME_SUFFIX in l {
      CleanupFromKeepsTidy(s, 0, l[NAME_SUFFIX]);
      OtherCallsKeepTidy(Cleanup(s, l[NAME_SUFFIX], a).state, a.related);
    }
  }

  /** Nobody brings a salt, and every call to change is answered its first patch, unless the operator is dead by then. */
  predicate Unlucky(i: Input) {
    match i
    case Created(labels, _) => OBJECT_SALT !in labels
    case UserEdits(edits) => LeavesTheSalt(edits)
    case Delivered(_) => true
    case Changed(script, _) => AllLeaveTheSalt(script) && (script == [] || script[0].fate.Answered?)
    case Removed(script, _, _) => AllLeaveTheSalt(script)
  }

  lemma {:induction false} UnluckyKeepsBare(s: State, i: Input)
    requires Bare(s) && Unlucky(i)
    ensures Bare(Perform(s, i))
  {
    match i {
      case Created(_, _) =>
      case Delivered(_) =>
      case UserEdits(edits) => EditsKeepBare(s, edits);
      case Changed(script, a) =>
        if s.secret.Some? {
          ChangeKeepsBare(s.(script := script), a);
        }
      case Removed(script, a, _) =>
        if s.secret.Some? && s.secret.value.deleting {
          RemovalKeepsBare(s.(script := script), a);
        }
    }
  }

  /** Over every such run, however long: the secret never gets a salt, and no Registration is ever made. */
  lemma {:induction false} NothingIsMadeWithoutASalt(inputs: seq<Input>)
    requires forall i :: i in inputs ==> Unlucky(i)
    ensures Bare(RunAll(EMPTY, inputs))
  {
    if inputs != [] {
      assert inputs[|inputs| - 1] in inputs;
      NothingIsMadeWithoutASalt(inputs[..|inputs| - 1]);
      UnluckyKeepsBare(RunAll(EMPTY, inputs[..|inputs| - 1]), inputs[|inputs| - 1]);
    }
  }
}
