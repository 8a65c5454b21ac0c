/** Vocabulary shared by every component: hosts, bytes, optional values, and
    the counting argument behind every quorum in the two consensus protocols. */
module Foundation {

  datatype Option<+T> = None | Some(value: T)

  /** A network identity: what the transport authenticates as the sender of a message. */
  datatype Host = Host(ip: string, port: nat)

  type Byte = b: int | 0 <= b < 256
  type Bytes = seq<Byte>

  /** The smallest strict majority of a group of n members. */
  function MajoritySize(n: nat): nat {
    n / 2 + 1
  }

  predicate Majority(group: set<Host>, part: set<Host>) {
    part <= group && |part| >= MajoritySize(|group|)
  }

  lemma SubsetSize<T>(a: set<T>, b: set<T>)
    requires a <= b
    ensures |a| <= |b|
  {
    assert b == a + (b - a);
  }

  /** Quorum intersection: any two majorities of a group share a member. */
  lemma MajoritiesMeet(group: set<Host>, a: set<Host>, b: set<Host>) returns (h: Host)
    requires Majority(group, a) && Majority(group, b)
    ensures h in a && h in b && h in group
  {
    if a * b == {} {
      assert |a + b| == |a| + |b|;
      SubsetSize(a + b, group);
      assert false;
    }
    h :| h in a * b;
  }

  lemma MajorityGrows(group: set<Host>, a: set<Host>, b: set<Host>)
    requires Majority(group, a) && a <= b <= group
    ensures Majority(group, b)
  {
    SubsetSize(a, b);
  }

  predicate Disjoint<T>(a: set<T>, b: set<T>) {
    a !! b
  }

  predicate NoDuplicates<T(==)>(s: seq<T>) {
    forall i, j | 0 <= i < j < |s| :: s[i] != s[j]
  }

  function Elements<T>(s: seq<T>): set<T> {
    set x | x in s
  }

  lemma {:induction false} ElementsSize<T>(s: seq<T>)
    requires NoDuplicates(s)
    ensures |Elements(s)| == |s|
  {
    if s != [] {
      var last, front := s[|s| - 1], s[..|s| - 1];
      ElementsSize(front);
      assert Elements(s) == Elements(front) + {last};
    }
  }

  /** The roster without self, in roster order. */
  function PeersOf(roster: seq<Host>, self: Host): seq<Host> {
    if roster == [] then []
    else if roster[0] == self then PeersOf(roster[1..], self)
    else [roster[0]] + PeersOf(roster[1..], self)
  }

  lemma {:induction false} PeersOfIs(roster: seq<Host>, self: Host)
    requires NoDuplicates(roster)
    ensures NoDuplicates(PeersOf(roster, self))
    ensures Elements(PeersOf(roster, self)) == Elements(roster) - {self}
  {
    if roster != [] {
      var rest := roster[1..];
      PeersOfIs(rest, self);
      assert Elements(roster) == {roster[0]} + Elements(rest);
      assert roster[0] !in Elements(rest);
      if roster[0] != self {
        var ps := PeersOf(rest, self);
        assert Elements([roster[0]] + ps) == {roster[0]} + Elements(ps);
        assert roster[0] !in Elements(ps);
      }
    }
  }

  lemma OthersAre(roster: seq<Host>, self: Host)
    requires NoDuplicates(roster)
    ensures NoDuplicates(PeersOf(roster, self)) && forall f :: f in PeersOf(roster, self) <==> f in roster && f != self
  {
    PeersOfIs(roster, self);
    assert forall f :: f in PeersOf(roster, self) <==> f in Elements(PeersOf(roster, self));
  }

  function Max(a: int, b: int): int {
    if a > b then a else b
  }

  function Min(a: int, b: int): int {
    if a < b then a else b
  }

  /** The network as a node sees it: a place to hand packets to. */
  class Outbox<P(==)> {
    var sent: set<P>

    constructor ()
      ensures sent == {}
    {
      sent := {};
    }

    method Send(p: P)
      modifies this
      ensures sent == old(sent) + {p}
    {
      sent := sent + {p};
    }
  }
}
