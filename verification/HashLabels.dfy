/** The hash labels are a fixed point of processing: once the secret carries them, processing it again extracts the
    same parameters, cleans nothing up and writes nothing to the secret. */
module HashLabels {
  import opened Wrappers
  import opened Ownership
  import opened Cluster
  import opened Entrypoint

  /** The extraction looks at the salt and the data only. */
  lemma ExtractionSeesSaltAndData(s: Secret, t: Secret, a: Answers)
    requires s.data == t.data && Value(s.labels, OBJECT_SALT) == Value(t.labels, OBJECT_SALT)
    ensures Extract(s, a) == Extract(t, a)
  {
  }

  function Relabel(s: Secret, p: Params): Secret {
    s.(labels := Merged(s.labels, p.Labels()))
  }

  /** Labelling keeps the salt, the data, the manager and every label that is not the operator's; Helm's value stays;
      a second labelling changes nothing. */
  lemma LabellingIsIdempotent(s: Secret, p: Params)
    requires ShouldManage(s.labels, p.managedBy)
    ensures var t := Relabel(s, p);
            && Relabel(t, p) == t
            && ShouldManage(t.labels, p.managedBy)
            && (forall k :: !Reserved(k) ==> (k in t.labels <==> k in s.labels) && Value(t.labels, k) == Value(s.labels, k))
            && (Value(s.labels, K8S_MANAGED_BY) == HELM ==> Value(t.labels, K8S_MANAGED_BY) == HELM)
  {
    var t := Relabel(s, p);
    assert Relabel(t, p).labels == t.labels;
  }

  /** Re-extraction yields the stored labels. */
  lemma LabelsAreReExtracted(s: Secret, a: Answers)
    requires ShouldManage(s.labels, a.operator) && OBJECT_SALT in s.labels && Extract(s, a).Some?
    ensures var p := Extract(s, a).value; var t := Relabel(s, p);
            && Extract(t, a) == Some(p)
            && Value(t.labels, NAME_SUFFIX) == p.nameId && Value(t.labels, SCC_HASH) == p.contentHash
  {
    var p := Extract(s, a).value;
    LabellingIsIdempotent(s, p);
    ExtractionSeesSaltAndData(s, Relabel(s, p), a);
  }

  /** A labelled secret takes neither cleanup, whatever the state of the cluster: the handler goes straight to
      materializing, after a patch that carries no label and no data. */
  lemma {:induction false} ProcessingAgainCleansNothing(state: State, s: Secret, a: Answers)
    requires ShouldManage(s.labels, a.operator) && OBJECT_SALT in s.labels && Extract(s, a).Some? && !s.deleting
    requires Extract(s, a).value.contentHash != ""
    ensures var p := Extract(s, a).value; var t := Relabel(s, p);
            && OnSecretChange(state, t, a) == LabelAndMaterialize(state, t, p, a)
            && Label(state, t, p) == RetryingPatch(state, t, t)
            && (PatchSecret(state, t, t).error.NoError? ==>
                  PatchSecret(state, t, t).state == Arrival(state))
  {
    var p := Extract(s, a).value;
    var t := Relabel(s, p);
    LabellingIsIdempotent(s, p);
    LabelsAreReExtracted(s, a);
    assert !(!HasSccManagedBy(t.labels) && ShouldAdopt(t.labels, a.operator));
    assert Label(state, t, p) == RetryingPatch(state, t, t);
    if state.script != [] && Arrival(state).secret.Some? {
      PatchedExtremes(Arrival(state).secret.value.labels, t.labels);
      PatchedExtremes(Arrival(state).secret.value.data, t.data);
    }
  }

  // ----- convergence

  /** Nobody else writes, and every call of the script is answered. */
  ghost predicate Undisturbed(script: seq<Beat>) {
    forall i :: 0 <= i < |script| ==> script[i] == Beat([], Answered)
  }

  /** The first call on a managed, salted secret without hashes labels it, and does no more than that. */
  lemma FirstCallLabels(state: State, a: Answers)
    requires state.secret.Some? && !state.secret.value.deleting && Undisturbed(state.script) && |state.script| >= 1
    requires ShouldManage(state.secret.value.labels, a.operator) && HasSccManagedBy(state.secret.value.labels)
    requires OBJECT_SALT in state.secret.value.labels && Value(state.secret.value.labels, SCC_HASH) == ""
    requires Extract(state.secret.value, a).Some?
    ensures var r := OnSecretChange(state, state.secret.value, a);
            r.ok && r.state.regs == state.regs && r.state.cache == state.cache &&
            r.state.secret == Some(Relabel(state.secret.value, Extract(state.secret.value, a).value))
  {
    var s := state.secret.value;
    var t := Relabel(s, Extract(s, a).value);
    assert state.script[0] == Beat([], Answered);
    PatchedExtremes(s.labels, t.labels);
    PatchedExtremes(s.data, t.data);
  }

  lemma {:induction false} OtherCallsUndisturbed(state: State, n: nat)
    requires Undisturbed(state.script) && |state.script| >= n
    ensures OtherCalls(state, n) == Call(state.(script := state.script[n..]), NoError)
    decreases n
  {
    if n > 0 {
      assert state.script[0] == Beat([], Answered);
      OtherCallsUndisturbed(state.(script := state.script[1..]), n - 1);
      assert state.script[1..][n - 1..] == state.script[n..];
    }
  }

  /** What the store then holds about a Registration that was made from the params. */
  ghost predicate Materialized(before: map<string, Reg>, after: map<string, Reg>, p: Params) {
    var name := RegistrationName(p.nameId);
    && after.Keys == before.Keys + {name}
    && (forall n :: n in before && n != name ==> after[n] == before[n])
    && after[name].Managed() && (name !in before ==> !after[name].deleting)
    && (forall k :: k in p.Labels() ==> k in after[name].labels && after[name].labels[k] == p.Labels()[k])
  }

  lemma StoringUndisturbed(state: State, name: string, reg: Reg, p: Params)
    requires Undisturbed(state.script) && |state.script| >= 3
    requires name == RegistrationName(p.nameId) && reg.Managed() && p.Labels().Items <= reg.labels.Items
    ensures var r := CreateOrUpdate(state, name, reg);
            r.error.NoError? && r.state.secret == state.secret && Materialized(state.regs, r.state.regs, p)
  {
    assert state.script[0] == Beat([], Answered) && state.script[1] == Beat([], Answered) && state.script[2] == Beat([], Answered);
    var s1 := state.(script := state.script[1..]);
    var s2 := state.(script := state.script[2..]);
    assert GetReg(state, name).state == s1;
    assert s1.script[1..] == s2.script;
    forall k | k in p.Labels() ensures k in reg.labels && reg.labels[k] == p.Labels()[k] {
      assert (k, p.Labels()[k]) in p.Labels().Items;
    }
    if name in state.regs {
      assert GetReg(s1, name).state == s2;
      PatchedExtremes(state.regs[name].labels, reg.labels);
      var put := PatchReg(s2, name, state.regs[name], reg);
      assert put.error.NoError?;
      assert CreateOrUpdate(state, name, reg) == put;
    }
  }

  lemma DesiredCarriesTheLabels(base: Reg, p: Params)
    ensures Desired(base, p).Managed() && p.Labels().Items <= Desired(base, p).labels.Items
  {
    forall i | i in p.Labels().Items ensures i in Desired(base, p).labels.Items {
      assert i.0 in p.Labels() && p.Labels()[i.0] == i.1;
      assert i.0 in Desired(base, p).labels && Desired(base, p).labels[i.0] == i.1;
    }
  }

  /** From the cached copy, the stored Registration or nothing. */
  lemma RegistrationUndisturbed(state: State, p: Params)
    requires Undisturbed(state.script) && |state.script| >= 4
    ensures var d := FromEntrypoint(state, RegistrationName(p.nameId), p);
            var r := CreateOrUpdate(d.state, d.name, d.reg);
            r.error.NoError? && r.state.secret == state.secret && Materialized(state.regs, r.state.regs, p)
  {
    var name := RegistrationName(p.nameId);
    var i := Position(state.cache, name);
    assert state.script[0] == Beat([], Answered);
    var d := FromEntrypoint(state, name, p);
    var base := if i < |state.cache| then state.cache[i].reg else if name in state.regs then state.regs[name] else BLANK;
    assert d.name == name && d.reg == Desired(base, p) && d.state.regs == state.regs && d.state.secret == state.secret;
    DesiredCarriesTheLabels(base, p);
    StoringUndisturbed(d.state, name, d.reg, p);
  }

  lemma MaterializeUndisturbed(state: State, p: Params, a: Answers)
    requires Undisturbed(state.script) && |state.script| >= a.written + 4
    ensures var r := Materialize(state, p, a);
            r.ok && r.state.secret == state.secret && Materialized(state.regs, r.state.regs, p)
  {
    var n := if p.mode == ONLINE || p.hasCertificate then a.written else 0;
    OtherCallsUndisturbed(state, n);
    var s1 := state.(script := state.script[n..]);
    RegistrationUndisturbed(s1, p);
  }

  /** From then on a call leaves the secret alone and makes sure of the one Registration that its hash names: made if
      missing, and carrying the params labels and the finalizer in any case. */
  lemma {:induction false} LaterCallsMaterialize(state: State, s: Secret, a: Answers)
    requires !s.deleting && Undisturbed(state.script)
    requires ShouldManage(s.labels, a.operator) && OBJECT_SALT in s.labels && Extract(s, a).Some?
    requires Extract(s, a).value.contentHash != ""
    requires state.secret == Some(Relabel(s, Extract(s, a).value))
    requires |state.script| >= a.written + 5
    ensures var p := Extract(s, a).value;
            var r := OnSecretChange(state, state.secret.value, a);
            r.ok && r.state.secret == state.secret && Materialized(state.regs, r.state.regs, p)
  {
    var p := Extract(s, a).value;
    var t := Relabel(s, p);
    ProcessingAgainCleansNothing(state, s, a);
    assert state.script[0] == Beat([], Answered);
    var labelled := Label(state, t, p);
    PatchedExtremes(t.labels, t.labels);
    assert labelled.error.NoError? && labelled.state == state.(script := state.script[1..]);
    MaterializeUndisturbed(labelled.state, p, a);
  }
}
