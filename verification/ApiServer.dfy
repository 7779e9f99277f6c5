/** The API server as the operator meets it, for one Registration. Every call is one beat of a script that the
    environment writes: other writers may edit the spec or delete the object just before the call arrives, and the
    call may be refused or its answer lost. When the script is over the operator is dead and nothing more happens. */
module ApiServer {
  import opened Wrappers
  import opened Registrations

  /** `Forget` takes the credentials secret away. */
  datatype Edit =
    | NoEdit
    | Respec(request: Option<string>, certificate: Option<string>, syncNow: Option<bool>)
    | Remove
    | Forget

  datatype Fate = Answered | Refused | AnswerLost

  datatype Beat = Beat(edit: Edit, fate: Fate)

  /** `Silence` is an error that carries no API status: the connection broke, or the operator is gone. */
  datatype ApiError = NoError | Conflict | NotFound | Refusal | Silence

  datatype Event =
    | StatusWritten(before: Status, after: Status)
    | SpecWritten(oldSpec: Spec, newSpec: Spec)
    | RegisterCalled(ok: bool)
    | ActivateCalled(ok: bool)

  /** What the credentials secret holds: nothing at all, something, or all of token, login and password. */
  datatype Vault = Absent | Partial | Complete

  datatype World = World(stored: Record, present: bool, vault: Vault, script: seq<Beat>, trace: seq<Event>) {
    function Log(e: Event): World {
      this.(trace := trace + [e])
    }
  }

  datatype Reply = Reply(world: World, error: ApiError, record: Record)

  /** What other writers do before a call arrives. They own the spec, but not its mode. */
  function Edited(w: World, e: Edit): World {
    match e
    case NoEdit => w
    case Remove => w.(present := false)
    case Forget => w.(vault := Absent)
    case Respec(request, certificate, syncNow) =>
      var spec := Spec(w.stored.spec.mode, request, certificate, syncNow);
      if spec == w.stored.spec then w
      else w.(stored := w.stored.(version := w.stored.version + 1, spec := spec))
  }

  function Arrival(w: World): World
    requires w.script != []
  {
    Edited(w.(script := w.script[1..]), w.script[0].edit)
  }

  /** The answer to a call that reached the server: the caller may not hear it. */
  function Heard(w: World, fate: Fate, done: World, record: Record): Reply {
    if fate.AnswerLost? then Reply(done, Silence, record) else Reply(done, NoError, done.stored)
  }

  function Get(w: World): Reply {
    if w.script == [] then Reply(w, Silence, w.stored)
    else
      var v, fate := Arrival(w), w.script[0].fate;
      if fate.Refused? then Reply(v, Refusal, v.stored)
      else if !v.present then Reply(v, NotFound, v.stored)
      else Heard(w, fate, v, v.stored)
  }

  /** The status subresource: only the status of the object counts, and only if its version is the stored one.
      A write that changes nothing does not make a new version. */
  function UpdateStatus(w: World, obj: Record): Reply {
    if w.script == [] then Reply(w, Silence, obj)
    else
      var v, fate := Arrival(w), w.script[0].fate;
      if fate.Refused? then Reply(v, Refusal, obj)
      else if !v.present then Reply(v, NotFound, obj)
      else if v.stored.version != obj.version then Reply(v, Conflict, obj)
      else if v.stored.status == obj.status then Heard(w, fate, v, obj)
      else
        var next := v.stored.(version := v.stored.version + 1, status := obj.status);
        Heard(w, fate, v.(stored := next).Log(StatusWritten(v.stored.status, obj.status)), obj)
  }

  /** The main resource: only the spec of the object counts. */
  function Update(w: World, obj: Record): Reply {
    if w.script == [] then Reply(w, Silence, obj)
    else
      var v, fate := Arrival(w), w.script[0].fate;
      if fate.Refused? then Reply(v, Refusal, obj)
      else if !v.present then Reply(v, NotFound, obj)
      else if v.stored.version != obj.version then Reply(v, Conflict, obj)
      else if v.stored.spec == obj.spec then Heard(w, fate, v, obj)
      else
        var next := v.stored.(version := v.stored.version + 1, spec := obj.spec);
        Heard(w, fate, v.(stored := next).Log(SpecWritten(v.stored.spec, obj.spec)), obj)
  }

  /** The reason a joined pair of errors carries: that of the first one with an API status. */
  function Join(first: ApiError, second: ApiError): ApiError {
    if first.NoError? then second
    else if first.Silence? && !second.NoError? then second
    else first
  }

  /** The server the controller talks to. */
  class Client {
    var world: World

    constructor (w: World)
      ensures world == w
    {
      world := w;
    }

    method GetRegistration() returns (error: ApiError, obj: Registration?)
      modifies this
      ensures (world, error) == (Get(old(world)).world, Get(old(world)).error)
      ensures obj != null <==> error.NoError?
      ensures obj != null ==> fresh(obj) && obj.Valid() && obj.View() == Get(old(world)).record
    {
      var reply := Get(world);
      world, error, obj := reply.world, reply.error, null;
      if error.NoError? {
        obj := new Registration.Decode(reply.record);
      }
    }

    method PutStatus(obj: Registration) returns (error: ApiError, updated: Registration)
      requires obj.Valid()
      modifies this
      ensures (world, error) == (UpdateStatus(old(world), obj.View()).world, UpdateStatus(old(world), obj.View()).error)
      ensures fresh(updated) && updated.Valid() && updated.View() == UpdateStatus(old(world), obj.View()).record
    {
      var record := obj.Encode();
      var reply := UpdateStatus(world, record);
      world, error := reply.world, reply.error;
      updated := new Registration.Decode(reply.record);
    }

    method Put(obj: Registration) returns (error: ApiError)
      requires obj.Valid()
      modifies this
      ensures (world, error) == (Update(old(world), obj.View()).world, Update(old(world), obj.View()).error)
    {
      var record := obj.Encode();
      var reply := Update(world, record);
      world, error := reply.world, reply.error;
    }
  }
}
