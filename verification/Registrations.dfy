/** The Registration resource: the stored record, and the object the handlers hold and edit in place. */
module Registrations {
  import opened Wrappers
  import opened Conditions

  datatype Mode = Online | Offline

  /** `request` is the registration code reference, `certificate` the offline certificate reference. */
  datatype Spec = Spec(mode: Mode, request: Option<string>, certificate: Option<string>, syncNow: Option<bool>) {

    /** Go compares two copies of a spec by its pointers, so any pointer that is set makes the copies differ. */
    predicate DiffersFromItsCopy() {
      request.Some? || certificate.Some? || syncNow.Some?
    }

    function WithoutSyncNow(): Spec {
      Spec(mode, request, certificate, None)
    }
  }

  datatype SystemUrl = SystemUrl(base: string, id: int)

  /** The status as readers see it. Times are seconds, and 0 is the zero time (a nil time reads as zero too).
      `current` is the kind that CurrentCondition names: its content may alias the list, its kind never changes. */
  datatype Status = Status(
    marks: map<Kind, Mark>,
    current: Option<Kind>,
    processed: nat,
    systemId: Option<int>,
    product: Option<string>,
    expires: nat,
    activated: bool,
    validated: nat,
    systemUrl: Option<SystemUrl>,
    credentialsRef: bool,
    requestRef: bool)
  {
    predicate Is(k: Kind, t: Truth) {
      k in marks && marks[k].truth == t
    }

    /** The condition a setter works on: the existing one, or a blank one about to be appended. */
    function Find(k: Kind): Mark {
      if k in marks then marks[k] else Mark(Unknown, "", "")
    }

    function Set(k: Kind, t: Truth): Status {
      this.(marks := marks[k := Find(k).(truth := t)])
    }

    function Explain(k: Kind, reason: string): Status {
      this.(marks := marks[k := Find(k).(reason := reason)])
    }

    function Describe(k: Kind, message: string): Status {
      if Find(k).message == "" then this.(marks := marks[k := Find(k).(message := message)]) else this
    }

    /** A nil error affirms the condition, any other error denies it. */
    function Fail(k: Kind, reason: string, err: Option<Fault>): Status {
      var m := match err
               case None => Mark(Yes, reason, "")
               case Some(f) => Mark(No, if reason == "" then "Error" else reason, f.text);
      this.(marks := marks[k := m])
    }

    function Drop(k: Kind): Status {
      this.(marks := marks - {k})
    }

    /** CurrentCondition moves only to a condition that is in the list. */
    function PointAt(k: Kind): Status {
      if k in marks then this.(current := Some(k)) else this
    }

    /** CurrentCondition, when set, names a listed condition. */
    predicate CurrentIsListed() {
      current.Some? ==> current.value in marks
    }
  }

  const FRESH := Status(map[], None, 0, None, None, 0, false, 0, None, false, false)

  datatype Record = Record(version: nat, spec: Spec, status: Status)

  /** An object in memory. Its condition list is a slice; `rest` is its status without the list. */
  class Registration {
    var version: nat
    var spec: Spec
    var conditions: seq<Condition>
    var rest: Status

    ghost predicate Valid()
      reads this
    {
      Unique(conditions) && rest.marks == map[]
    }

    ghost function Status(): Status
      reads this
    {
      rest.(marks := Table(conditions))
    }

    ghost function View(): Record
      reads this
    {
      Record(version, spec, Status())
    }

    /** Decodes a stored record. */
    constructor Decode(r: Record)
      ensures Valid() && View() == r
    {
      version, spec, rest := r.version, r.spec, r.status.(marks := map[]);
      conditions := Listing(r.status.marks, ALL_KINDS);
      new;
      ListingIsComplete(r.status.marks);
    }

    method DeepCopy() returns (copy: Registration)
      requires Valid()
      ensures fresh(copy) && copy.Valid() && copy.View() == View()
    {
      copy := new Registration.Decode(Record(0, spec, FRESH));
      copy.version, copy.rest, copy.conditions := version, rest, conditions;
    }

    /** Encodes the object for a write to the API server. */
    method Encode() returns (r: Record)
      requires Valid()
      ensures r == View()
    {
      var t, i := map[], |conditions|;
      while i > 0
        invariant 0 <= i <= |conditions|
        invariant t == Table(conditions[i..])
      {
        i := i - 1;
        assert conditions[i..][1..] == conditions[i + 1..];
        t := t[conditions[i].kind := conditions[i].mark];
      }
      r := Record(version, spec, rest.(marks := t));
    }

    /** The index of the first condition of a kind, or the length of the list. */
    method Locate(k: Kind) returns (i: nat)
      ensures i <= |conditions| && Lacks(conditions[..i], k)
      ensures i < |conditions| ==> conditions[i].kind == k && k in Table(conditions) && Table(conditions)[k] == conditions[i].mark
      ensures i == |conditions| ==> Lacks(conditions, k) && k !in Table(conditions)
    {
      i := 0;
      while i < |conditions| && conditions[i].kind != k
        invariant 0 <= i <= |conditions| && Lacks(conditions[..i], k)
      {
        i := i + 1;
      }
      TableKeys(conditions, k);
      if i < |conditions| {
        TableOverwrite(conditions, i, conditions[i].mark);
      } else {
        assert conditions[..i] == conditions;
      }
    }

    method HasCondition(k: Kind) returns (has: bool)
      ensures has <==> k in Status().marks
    {
      var i := Locate(k);
      has := i < |conditions|;
    }

    method RemoveCondition(k: Kind)
      requires Valid()
      modifies this`conditions
      ensures Valid() && Status() == old(Status()).Drop(k)
    {
      ghost var all := conditions;
      var kept: seq<Condition>, i := [], 0;
      while i < |conditions|
        invariant 0 <= i <= |all| && conditions == all
        invariant kept == Without(all[..i], k)
      {
        WithoutLast(all[..i + 1], k);
        assert all[..i + 1][..i] == all[..i];
        if conditions[i].kind != k {
          kept := kept + [conditions[i]];
        }
        i := i + 1;
      }
      assert all[..i] == all;
      TableWithout(all, k);
      WithoutMembers(all, k);
      conditions := kept;
    }

    method SetCurrentCondition(k: Kind)
      requires Valid()
      modifies this`rest
      ensures Valid() && Status() == old(Status()).PointAt(k)
    {
      var i := Locate(k);
      if i < |conditions| {
        rest := rest.(current := Some(k));
      }
    }

    /** The find-or-create of the condition library: what is written to the condition of a kind. */
    method Write(k: Kind, m: Mark)
      requires Valid()
      modifies this`conditions
      ensures Valid() && Status() == old(Status()).(marks := old(Status()).marks[k := m])
    {
      var i := Locate(k);
      if i < |conditions| {
        TableOverwrite(conditions, i, m);
        conditions := conditions[i := Condition(k, m)];
      } else {
        TableAppend(conditions, Condition(k, m));
        conditions := conditions + [Condition(k, m)];
      }
    }

    method Read(k: Kind) returns (m: Mark)
      ensures m == Status().Find(k)
    {
      var i := Locate(k);
      m := if i < |conditions| then conditions[i].mark else Mark(Unknown, "", "");
    }

    method Assign(k: Kind, t: Truth)
      requires Valid()
      modifies this`conditions
      ensures Valid() && Status() == old(Status()).Set(k, t)
    {
      var m := Read(k);
      Write(k, m.(truth := t));
    }

    method Reason(k: Kind, reason: string)
      requires Valid()
      modifies this`conditions
      ensures Valid() && Status() == old(Status()).Explain(k, reason)
    {
      var m := Read(k);
      Write(k, m.(reason := reason));
    }

    method SetMessageIfBlank(k: Kind, message: string)
      requires Valid()
      modifies this`conditions
      ensures Valid() && Status() == old(Status()).Describe(k, message)
    {
      var m := Read(k);
      if m.message == "" {
        Write(k, m.(message := message));
      }
    }

    method SetError(k: Kind, reason: string, err: Option<Fault>)
      requires Valid()
      modifies this`conditions
      ensures Valid() && Status() == old(Status()).Fail(k, reason, err)
    {
      match err {
        case None => Write(k, Mark(Yes, reason, ""));
        case Some(f) => Write(k, Mark(No, if reason == "" then "Error" else reason, f.text));
      }
    }
  }
}
