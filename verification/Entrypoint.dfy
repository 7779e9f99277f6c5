/** The entrypoint-secret reconciler: adoption, salt, hash labels, cleanup by hash and the Registration itself, as
    functions of what the outside answers. */
module Entrypoint {
  import opened Wrappers
  import opened Finalizers
  import opened Ownership
  import opened Cluster

  const RETRY_STEPS := 5

  const REGISTRATION_TYPE := "registrationType"
  const REGISTRATION_CODE := "regCode"
  const REGISTRATION_URL := "registrationUrl"
  const CERTIFICATE := "certificate"
  const ONLINE := "online"
  const OFFLINE := "offline"

  /** `hash` is the digest in hexadecimal, `related` and `written` the numbers of calls it takes to clean up and to write
      the other secrets. */
  datatype Answers = Answers(
    operator: string,
    hash: string -> string,
    defaultUrl: string,
    salt: string,
    indexFails: bool,
    related: nat,
    written: nat)

  datatype Params = Params(managedBy: string, mode: string, nameId: string, contentHash: string, hasCertificate: bool) {
    function Labels(): Labels {
      map[NAME_SUFFIX := nameId, SCC_HASH := contentHash,
          SCC_MANAGED_BY := SccManagedByValue(managedBy), K8S_MANAGED_BY := managedBy]
    }
  }

  function RegUrl(s: Secret, mode: string, a: Answers): string {
    if mode != ONLINE then "" else if REGISTRATION_URL in s.data then s.data[REGISTRATION_URL] else a.defaultUrl
  }

  /** What the name digest is made of: a plain concatenation. */
  function NameData(s: Secret, mode: string, a: Answers): string {
    Value(s.labels, OBJECT_SALT) + Value(s.data, REGISTRATION_TYPE) + Value(s.data, REGISTRATION_CODE) + RegUrl(s, mode, a)
  }

  function FromHashes(name: string, certificate: string, mode: string, a: Answers): (p: Params)
    ensures p.managedBy == a.operator && p.nameId == a.hash(name) && p.contentHash == a.hash(name + (name + certificate))
  {
    Params(a.operator, mode, a.hash(name), a.hash(name + (name + certificate)), certificate != "")
  }

  /** The content digest continues the name digest: the hasher is not reset in between. */
  function Extract(s: Secret, a: Answers): Option<Params> {
    var regType := Value(s.data, REGISTRATION_TYPE);
    var mode := if regType == "" then ONLINE else regType;
    if mode != ONLINE && mode != OFFLINE then None
    else if Value(s.data, REGISTRATION_CODE) == "" && mode == ONLINE then None
    else Some(FromHashes(NameData(s, mode, a), Value(s.data, CERTIFICATE), mode, a))
  }

  function RegistrationName(nameId: string): string {
    "scc-registration-" + nameId
  }

  datatype Outcome = Outcome(state: State, ok: bool)

  function Judge(c: Call): Outcome {
    Outcome(c.state, c.error.NoError?)
  }

  /** The first patch is from the caller's snapshot; later ones are from a re-read secret. */
  function RetryingPatch(s: State, snapshot: Secret, copy: Secret): (c: Call)
    ensures c.state.cache == s.cache
  {
    var first := PatchSecret(s, snapshot, copy);
    if first.error.NoError? then first else RetryPatch(first.state, copy, RETRY_STEPS)
  }

  function RetryPatch(s: State, copy: Secret, tries: nat): (c: Call)
    ensures c.state.cache == s.cache
    decreases tries
  {
    var got := GetSecret(s);
    if !got.error.NoError? then got
    else
      var put := PatchSecret(got.state, got.state.secret.value, copy);
      if put.error.Conflict? && tries > 1 then RetryPatch(put.state, copy, tries - 1) else put
  }

  function OtherCalls(s: State, n: nat): (c: Call)
    ensures c.state.cache == s.cache
    decreases n
  {
    if n == 0 then Call(s, NoError)
    else
      var c := OtherCall(s);
      if c.error.NoError? then OtherCalls(c.state, n - 1) else c
  }

  // ----- cleanup by name hash

  predicate CarriesHash(r: Reg, hash: string) {
    NAME_SUFFIX in r.labels && r.labels[NAME_SUFFIX] == hash
  }

  function StripLoop(s: State, name: string, reg: Reg, tries: nat): (c: Call)
    ensures c.state.cache == s.cache
    decreases tries
  {
    var c := StripReg(s, name, reg);
    if c.error.Conflict? && tries > 1 then StripLoop(c.state, name, reg, tries - 1) else c
  }

  /** The cached object loses the finalizer before the first write, and does not get it back when that fails. */
  function Stripped(s: State, i: nat): State
    requires i < |s.cache|
  {
    var reg := s.cache[i].reg;
    s.(cache := s.cache[i := s.cache[i].(reg := reg.(finalizers := Others(reg.finalizers, REGISTRATION_FINALIZER)))])
  }

  function CleanupOne(s: State, i: nat): (r: Outcome)
    requires i < |s.cache|
    ensures r.state.cache == Stripped(s, i).cache
  {
    var l := s.cache[i];
    if !l.reg.Managed() then
      OthersOfForeign(l.reg.finalizers, REGISTRATION_FINALIZER);
      Outcome(s, true)
    else
      var strip := StripLoop(Stripped(s, i), l.name, l.reg, RETRY_STEPS);
      if !strip.error.NoError? then Outcome(strip.state, false)
      else
        var del := DeleteRegistration(strip.state, l.name);
        Outcome(del.state, del.error.NoError? || del.error.NotFound?)
  }

  /** The index lists the cached Registrations that carry the hash. */
  function CleanupFrom(s: State, i: nat, hash: string): Outcome
    requires i <= |s.cache|
    decreases |s.cache| - i
  {
    if i == |s.cache| then Outcome(s, true)
    else if !CarriesHash(s.cache[i].reg, hash) then CleanupFrom(s, i + 1, hash)
    else
      var one := CleanupOne(s, i);
      if one.ok then CleanupFrom(one.state, i + 1, hash) else one
  }

  function Cleanup(s: State, hash: string, a: Answers): Outcome {
    if a.indexFails then Outcome(s, false) else CleanupFrom(s, 0, hash)
  }

  // ----- the Registration

  /** The desired object: the given one with the params labels and the finalizer on top. */
  function Desired(base: Reg, p: Params): Reg {
    base.(labels := base.labels + p.Labels(),
          finalizers := Added(base.finalizers, REGISTRATION_FINALIZER))
  }

  datatype Desire = Desire(state: State, name: string, reg: Reg)

  /** The position of the first cached Registration of a name, or the length of the cache. */
  function Position(cache: seq<Cached>, name: string): (i: nat)
    ensures i <= |cache| && (i < |cache| ==> cache[i].name == name)
    ensures forall j :: 0 <= j < i ==> cache[j].name != name
  {
    if cache == [] || cache[0].name == name then 0 else 1 + Position(cache[1..], name)
  }

  const BLANK := Reg(1, map[], [], false)

  /** It starts from the cached Registration, which it edits in place, else from the stored one, else from nothing. A
      read that fails leaves an empty object, and the error is lost: that object has no name. */
  function FromEntrypoint(s: State, name: string, p: Params): Desire {
    var i := Position(s.cache, name);
    if i < |s.cache| then
      var reg := Desired(s.cache[i].reg, p);
      Desire(s.(cache := s.cache[i := Cached(name, reg)]), name, reg)
    else
      var got := GetReg(s, name);
      if got.error.NoError? then Desire(got.state, name, Desired(got.state.regs[name], p))
      else Desire(got.state, if got.error.NotFound? then name else "", Desired(BLANK, p))
  }

  function PatchRegLoop(s: State, name: string, desired: Reg, tries: nat): (c: Call)
    ensures c.state.cache == s.cache
    decreases tries
  {
    var got := GetReg(s, name);
    if !got.error.NoError? then got
    else
      var put := PatchReg(got.state, name, got.state.regs[name], desired);
      if put.error.Conflict? && tries > 1 then PatchRegLoop(put.state, name, desired, tries - 1) else put
  }

  /** A call without a name does not leave the client. */
  function CreateOrUpdate(s: State, name: string, desired: Reg): (c: Call)
    ensures c.state.cache == s.cache
  {
    var got := GetReg(s, name);
    if name == "" then Call(s, Refusal)
    else if got.error.NotFound? then CreateReg(got.state, name, desired.(version := 1, deleting := false))
    else PatchRegLoop(got.state, name, desired, RETRY_STEPS)
  }

  // ----- the handlers

  function Adopt(s: State, incoming: Secret, a: Answers): Outcome {
    Judge(RetryingPatch(s, incoming, incoming.(labels := Owned(incoming.labels, a.operator))))
  }

  /** The salted copy shares its labels with the incoming secret, unless that has none. */
  function PrepareSalt(s: State, incoming: Secret, a: Answers): Outcome {
    var salted := incoming.(labels := incoming.labels[OBJECT_SALT := a.salt]);
    Judge(RetryingPatch(s, if incoming.labels == map[] then incoming else salted, salted))
  }

  function Label(s: State, incoming: Secret, p: Params): (c: Call)
    ensures c.state.cache == s.cache
  {
    RetryingPatch(s, incoming, incoming.(labels := Merged(incoming.labels, p.Labels())))
  }

  /** Online the registration code secret is written first, offline the certificate secret if there is one. */
  function Materialize(s: State, p: Params, a: Answers): Outcome {
    var secrets := OtherCalls(s, if p.mode == ONLINE || p.hasCertificate then a.written else 0);
    if !secrets.error.NoError? then Outcome(secrets.state, false)
    else
      var desire := FromEntrypoint(secrets.state, RegistrationName(p.nameId), p);
      Judge(CreateOrUpdate(desire.state, desire.name, desire.reg))
  }

  function LabelAndMaterialize(s: State, incoming: Secret, p: Params, a: Answers): Outcome {
    var labelled := Label(s, incoming, p);
    if !labelled.error.NoError? then Outcome(labelled.state, false) else Materialize(labelled.state, p, a)
  }

  function Process(s: State, incoming: Secret, p: Params, a: Answers): Outcome {
    var cleaned := if Value(incoming.labels, NAME_SUFFIX) != p.nameId
                   then Cleanup(s, Value(incoming.labels, NAME_SUFFIX), a) else Outcome(s, true);
    if !cleaned.ok then cleaned
    else
      var related := if Value(incoming.labels, SCC_HASH) != p.contentHash
                     then OtherCalls(cleaned.state, a.related) else Call(cleaned.state, NoError);
      if !related.error.NoError? then Outcome(related.state, false)
      else LabelAndMaterialize(related.state, incoming, p, a)
  }

  function OnSecretChange(s: State, incoming: Secret, a: Answers): Outcome {
    var l := incoming.labels;
    if incoming.deleting then Outcome(s, true)
    else if !HasSccManagedBy(l) && ShouldAdopt(l, a.operator) then Adopt(s, incoming, a)
    else if !ShouldManage(l, a.operator) then Outcome(s, true)
    else if OBJECT_SALT !in l then PrepareSalt(s, incoming, a)
    else
      match Extract(incoming, a)
      case None => Outcome(s, false)
      case Some(p) =>
        if Value(l, SCC_HASH) == "" then Judge(Label(s, incoming, p)) else Process(s, incoming, p, a)
  }

  function OnSecretRemove(s: State, incoming: Secret, a: Answers): Outcome {
    var l := incoming.labels;
    if !ShouldManage(l, a.operator) || NAME_SUFFIX !in l then Outcome(s, true)
    else
      var cleaned := Cleanup(s, l[NAME_SUFFIX], a);
      if !cleaned.ok || SCC_HASH !in l then cleaned
      else Judge(OtherCalls(cleaned.state, a.related))
  }
}
