/** The entrypoint secret, the Registrations made from it, and the API calls on them. As in ApiServer, every call is a
    beat of the environment's script. Users edit data, salt and foreign labels of the secret and delete or touch
    Registrations; the hash labels and the managed-by labels are the operator's. The informer's copies of the Registrations
    are part of the state: the handler edits some of them in place, and only the informer renews them. */
module Cluster {
  import opened Wrappers
  import opened Finalizers
  import opened Ownership

  datatype Secret = Secret(labels: Labels, data: map<string, string>, deleting: bool)

  datatype Reg = Reg(version: nat, labels: Labels, finalizers: seq<string>, deleting: bool) {
    predicate Managed() {
      REGISTRATION_FINALIZER in finalizers
    }

    /** Not on its way out, and carrying the finalizer of the operator. */
    predicate Live() {
      !deleting && Managed()
    }
  }

  datatype Edit =
    | NoEdit
    | SetData(data: map<string, string>)
    | SetLabel(key: string, value: string)
    | DropLabel(key: string)
    | DeleteSecret
    | DeleteReg(name: string)
    | TouchReg(name: string, foreign: seq<string>)

  datatype Fate = Answered | Contended | Refused | AnswerLost

  datatype Beat = Beat(edits: seq<Edit>, fate: Fate)

  datatype ApiError = NoError | Conflict | NotFound | Exists | Refusal | Silence

  datatype Cached = Cached(name: string, reg: Reg)

  datatype State = State(secret: Option<Secret>, regs: map<string, Reg>, cache: seq<Cached>, script: seq<Beat>)

  datatype Call = Call(state: State, error: ApiError)

  predicate Reserved(k: string) {
    k == NAME_SUFFIX || k == SCC_HASH || k == K8S_MANAGED_BY || k == SCC_MANAGED_BY
  }

  /** An object that is deleted goes at once without finalizers, and waits for their removal otherwise. */
  function Deleted(regs: map<string, Reg>, name: string): map<string, Reg> {
    if name !in regs then regs
    else if regs[name].finalizers == [] then regs - {name}
    else regs[name := regs[name].(deleting := true, version := regs[name].version + 1)]
  }

  function WithFinalizers(regs: map<string, Reg>, name: string, finalizers: seq<string>): map<string, Reg>
    requires name in regs
  {
    if regs[name].deleting && finalizers == [] then regs - {name}
    else regs[name := regs[name].(finalizers := finalizers, version := regs[name].version + 1)]
  }

  function Edited(s: State, e: Edit): (r: State)
    ensures r.cache == s.cache && r.script == s.script
  {
    match e
    case NoEdit => s
    case SetData(data) => if s.secret.None? then s else s.(secret := Some(s.secret.value.(data := data)))
    case SetLabel(k, v) =>
      if s.secret.None? || Reserved(k) then s
      else s.(secret := Some(s.secret.value.(labels := s.secret.value.labels[k := v])))
    case DropLabel(k) =>
      if s.secret.None? || Reserved(k) then s
      else s.(secret := Some(s.secret.value.(labels := s.secret.value.labels - {k})))
    case DeleteSecret => if s.secret.None? then s else s.(secret := Some(s.secret.value.(deleting := true)))
    case DeleteReg(name) => s.(regs := Deleted(s.regs, name))
    case TouchReg(name, foreign) =>
      if name !in s.regs then s
      else
        var kept := if s.regs[name].Managed() then [REGISTRATION_FINALIZER] else [];
        s.(regs := WithFinalizers(s.regs, name, kept + Others(foreign, REGISTRATION_FINALIZER)))
  }

  function EditedAll(s: State, edits: seq<Edit>): (r: State)
    ensures r.cache == s.cache && r.script == s.script
    decreases |edits|
  {
    if edits == [] then s else EditedAll(Edited(s, edits[0]), edits[1..])
  }

  function Arrival(s: State): (r: State)
    requires s.script != []
    ensures r.cache == s.cache && r.script == s.script[1..]
  {
    EditedAll(s.(script := s.script[1..]), s.script[0].edits)
  }

  /** The errors that come before the server looks at the object. */
  function Refusing(fate: Fate): ApiError {
    match fate
    case Refused => Refusal
    case Contended => Conflict
    case _ => NoError
  }

  function Told(fate: Fate): ApiError {
    if fate.AnswerLost? then Silence else NoError
  }

  /** A call on objects that play no role here: the other secrets. */
  function OtherCall(s: State): (c: Call)
    ensures c.state.cache == s.cache
  {
    if s.script == [] then Call(s, Silence)
    else if !Refusing(s.script[0].fate).NoError? then Call(Arrival(s), Refusing(s.script[0].fate))
    else Call(Arrival(s), Told(s.script[0].fate))
  }

  /** A read does not conflict. */
  function OtherRead(s: State): (c: Call)
    ensures c.state.cache == s.cache
  {
    var c := OtherCall(s);
    if c.error.Conflict? then Call(c.state, Refusal) else c
  }

  function GetSecret(s: State): (c: Call)
    ensures c.state.cache == s.cache
  {
    var c := OtherRead(s);
    if c.error.NoError? && c.state.secret.None? then Call(c.state, NotFound) else c
  }

  function PatchSecret(s: State, snapshot: Secret, copy: Secret): (c: Call)
    ensures c.state.cache == s.cache
  {
    if s.script == [] then Call(s, Silence)
    else
      var v, fate := Arrival(s), s.script[0].fate;
      if !Refusing(fate).NoError? then Call(v, Refusing(fate))
      else if v.secret.None? then Call(v, NotFound)
      else
        var stored := v.secret.value;
        var next := stored.(labels := Patched(stored.labels, snapshot.labels, copy.labels),
                        data := Patched(stored.data, snapshot.data, copy.data));
        Call(v.(secret := Some(next)), Told(fate))
  }

  function GetReg(s: State, name: string): (c: Call)
    ensures c.state.cache == s.cache
  {
    var c := OtherRead(s);
    if c.error.NoError? && name !in c.state.regs then Call(c.state, NotFound) else c
  }

  function CreateReg(s: State, name: string, reg: Reg): (c: Call)
    ensures c.state.cache == s.cache
  {
    if s.script == [] then Call(s, Silence)
    else
      var v, fate := Arrival(s), s.script[0].fate;
      if !Refusing(fate).NoError? then Call(v, Refusing(fate))
      else if name in v.regs then Call(v, Exists)
      else Call(v.(regs := v.regs[name := reg]), Told(fate))
  }

  /** Labels merge; a finalizer list that differs is replaced whole. */
  function PatchReg(s: State, name: string, snapshot: Reg, copy: Reg): (c: Call)
    ensures c.state.cache == s.cache
  {
    if s.script == [] then Call(s, Silence)
    else
      var v, fate := Arrival(s), s.script[0].fate;
      if !Refusing(fate).NoError? then Call(v, Refusing(fate))
      else if name !in v.regs then Call(v, NotFound)
      else
        var stored := v.regs[name];
        var finalizers := if snapshot.finalizers == copy.finalizers then stored.finalizers else copy.finalizers;
        var labelled := v.regs[name := stored.(labels := Patched(stored.labels, snapshot.labels, copy.labels))];
        Call(v.(regs := WithFinalizers(labelled, name, finalizers)), Told(fate))
  }

  /** Writes the object with the finalizers of the snapshot less the operator's, if its version is still the stored one. */
  function StripReg(s: State, name: string, snapshot: Reg): (c: Call)
    ensures c.state.cache == s.cache
  {
    if s.script == [] then Call(s, Silence)
    else
      var v, fate := Arrival(s), s.script[0].fate;
      if !Refusing(fate).NoError? then Call(v, Refusing(fate))
      else if name !in v.regs then Call(v, NotFound)
      else if v.regs[name].version != snapshot.version then Call(v, Conflict)
      else Call(v.(regs := WithFinalizers(v.regs, name, Others(snapshot.finalizers, REGISTRATION_FINALIZER))), Told(fate))
  }

  function DeleteRegistration(s: State, name: string): (c: Call)
    ensures c.state.cache == s.cache
  {
    if s.script == [] then Call(s, Silence)
    else
      var v, fate := Arrival(s), s.script[0].fate;
      if !Refusing(fate).NoError? then Call(v, Refusing(fate))
      else if name !in v.regs then Call(v, NotFound)
      else Call(v.(regs := Deleted(v.regs, name)), Told(fate))
  }
}
