/** The condition list of a Registration status, and the table by kind that it represents. */
module Conditions {

  datatype Kind =
    | Done | Failure | Progressing | Ready
    | OfflineRequestReady | OfflineCertificateReady | OfflineActivationDone
    | Announced | SccUrlReady | Activated | Keepalive

  datatype Truth = Yes | No | Unknown

  datatype Mark = Mark(truth: Truth, reason: string, message: string)

  datatype Condition = Condition(kind: Kind, mark: Mark)

  /** What readers of the list see: the first condition of each kind. */
  function Table(c: seq<Condition>): map<Kind, Mark> {
    if c == [] then map[] else Table(c[1..])[c[0].kind := c[0].mark]
  }

  /** At most one condition per kind: what the CRD's list-map key enforces on stored objects. */
  ghost predicate Unique(c: seq<Condition>) {
    forall i, j :: 0 <= i < j < |c| ==> c[i].kind != c[j].kind
  }

  predicate Lacks(c: seq<Condition>, k: Kind) {
    forall x :: x in c ==> x.kind != k
  }

  lemma {:induction false} TableKeys(c: seq<Condition>, k: Kind)
    ensures k in Table(c) <==> !Lacks(c, k)
  {
    if c != [] {
      TableKeys(c[1..], k);
      assert forall x :: x in c <==> x == c[0] || x in c[1..];
    }
  }

  /** Writing to the first condition of a kind writes that row of the table. */
  lemma {:induction false} TableOverwrite(c: seq<Condition>, i: nat, m: Mark)
    requires i < |c| && Lacks(c[..i], c[i].kind)
    ensures Table(c[i := Condition(c[i].kind, m)]) == Table(c)[c[i].kind := m]
    ensures c[i].kind in Table(c) && Table(c)[c[i].kind] == c[i].mark
    ensures Unique(c) ==> Unique(c[i := Condition(c[i].kind, m)])
  {
    var d := c[i := Condition(c[i].kind, m)];
    if i == 0 {
      assert d[1..] == c[1..];
    } else {
      assert d[1..] == c[1..][i - 1 := Condition(c[i].kind, m)];
      assert c[1..][..i - 1] == c[..i][1..];
      assert c[0] in c[..i];
      TableOverwrite(c[1..], i - 1, m);
    }
  }

  lemma {:induction false} TableAppend(c: seq<Condition>, x: Condition)
    requires Lacks(c, x.kind)
    ensures Table(c + [x]) == Table(c)[x.kind := x.mark]
    ensures Unique(c) ==> Unique(c + [x])
  {
    if c == [] {
      assert c + [x] == [x];
    } else {
      assert (c + [x])[1..] == c[1..] + [x];
      TableAppend(c[1..], x);
    }
  }

  /** The conditions of other kinds, in order. */
  function Without(c: seq<Condition>, k: Kind): seq<Condition> {
    if c == [] then []
    else (if c[0].kind == k then [] else [c[0]]) + Without(c[1..], k)
  }

  lemma {:induction false} WithoutLast(c: seq<Condition>, k: Kind)
    requires c != []
    ensures Without(c, k) == Without(c[..|c| - 1], k) + (if c[|c| - 1].kind == k then [] else [c[|c| - 1]])
  {
    if |c| > 1 {
      WithoutLast(c[1..], k);
      assert c[1..][..|c| - 2] == c[..|c| - 1][1..];
    }
  }

  lemma {:induction false} WithoutMembers(c: seq<Condition>, k: Kind)
    ensures forall x :: x in Without(c, k) <==> x in c && x.kind != k
    ensures Unique(c) ==> Unique(Without(c, k))
  {
    if c != [] {
      var rest := Without(c[1..], k);
      WithoutMembers(c[1..], k);
      assert forall x :: x in c <==> x == c[0] || x in c[1..];
      if c[0].kind == k {
        assert Without(c, k) == rest;
      } else {
        assert Without(c, k) == [c[0]] + rest;
        assert Unique(c) ==> Lacks(rest, c[0].kind);
      }
    }
  }

  lemma {:induction false} TableWithout(c: seq<Condition>, k: Kind)
    ensures Table(Without(c, k)) == Table(c) - {k}
  {
    if c != [] {
      var rest := Without(c[1..], k);
      TableWithout(c[1..], k);
      if c[0].kind == k {
        assert Without(c, k) == rest;
      } else {
        assert Without(c, k)[0] == c[0] && Without(c, k)[1..] == rest;
      }
    }
  }

  const ALL_KINDS := [Done, Failure, Progressing, Ready, OfflineRequestReady, OfflineCertificateReady,
                      OfflineActivationDone, Announced, SccUrlReady, Activated, Keepalive]

  /** A list without duplicates that represents a table: what decoding a stored object yields, up to order. */
  function Listing(t: map<Kind, Mark>, kinds: seq<Kind>): seq<Condition> {
    if kinds == [] then []
    else (if kinds[0] in t then [Condition(kinds[0], t[kinds[0]])] else []) + Listing(t, kinds[1..])
  }

  lemma {:induction false} ListingLooksUp(t: map<Kind, Mark>, kinds: seq<Kind>, k: Kind)
    ensures var l := Table(Listing(t, kinds));
            (k in l <==> k in t && k in kinds) && (k in l ==> l[k] == t[k])
  {
    if kinds != [] {
      ListingLooksUp(t, kinds[1..], k);
      assert k in kinds <==> k == kinds[0] || k in kinds[1..];
      if kinds[0] in t {
        assert Listing(t, kinds)[1..] == Listing(t, kinds[1..]);
      } else {
        assert Listing(t, kinds) == Listing(t, kinds[1..]);
      }
    }
  }

  lemma {:induction false} ListingIsUnique(t: map<Kind, Mark>, kinds: seq<Kind>)
    requires forall i, j :: 0 <= i < j < |kinds| ==> kinds[i] != kinds[j]
    ensures forall x :: x in Listing(t, kinds) ==> x.kind in kinds
    ensures Unique(Listing(t, kinds))
  {
    if kinds != [] {
      ListingIsUnique(t, kinds[1..]);
      assert kinds[0] !in kinds[1..];
      if kinds[0] in t {
        assert Listing(t, kinds)[1..] == Listing(t, kinds[1..]);
      }
    }
  }

  lemma ListingIsComplete(t: map<Kind, Mark>)
    ensures Table(Listing(t, ALL_KINDS)) == t && Unique(Listing(t, ALL_KINDS))
  {
    ListingIsUnique(t, ALL_KINDS);
    forall k: Kind ensures k in ALL_KINDS {
      match k {
        case Done => assert ALL_KINDS[0] == k;
        case Failure => assert ALL_KINDS[1] == k;
        case Progressing => assert ALL_KINDS[2] == k;
        case Ready => assert ALL_KINDS[3] == k;
        case OfflineRequestReady => assert ALL_KINDS[4] == k;
        case OfflineCertificateReady => assert ALL_KINDS[5] == k;
        case OfflineActivationDone => assert ALL_KINDS[6] == k;
        case Announced => assert ALL_KINDS[7] == k;
        case SccUrlReady => assert ALL_KINDS[8] == k;
        case Activated => assert ALL_KINDS[9] == k;
        case Keepalive => assert ALL_KINDS[10] == k;
      }
    }
    forall k: Kind
      ensures k in Table(Listing(t, ALL_KINDS)) <==> k in t
      ensures k in t ==> Table(Listing(t, ALL_KINDS))[k] == t[k]
    {
      ListingLooksUp(t, ALL_KINDS, k);
    }
    assert Table(Listing(t, ALL_KINDS)) == t;
  }
}
