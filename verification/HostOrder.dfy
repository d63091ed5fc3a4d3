/**
  Host ports are strings ordered the way JavaScript's relational operators order
  them: lexicographically, character by character.
 */
module HostOrder {

  type HostPort = string

  predicate Less(a: HostPort, b: HostPort) {
    if b == "" then false
    else if a == "" then true
    else if a[0] != b[0] then a[0] < b[0]
    else Less(a[1..], b[1..])
  }

  predicate AtMost(a: HostPort, b: HostPort) {
    a == b || Less(a, b)
  }

  /** Sorted, possibly with repeated entries. */
  ghost predicate Sorted(a: seq<HostPort>) {
    forall i, j :: 0 <= i < j < |a| ==> AtMost(a[i], a[j])
  }

  /** Sorted and duplicate-free. */
  ghost predicate StrictlySorted(a: seq<HostPort>) {
    forall i, j :: 0 <= i < j < |a| ==> Less(a[i], a[j])
  }

  lemma {:induction false} Irreflexive(a: HostPort)
    ensures !Less(a, a)
  {
    if a != "" {
      Irreflexive(a[1..]);
    }
  }

  lemma {:induction false} Transitive(a: HostPort, b: HostPort, c: HostPort)
    requires Less(a, b) && Less(b, c)
    ensures Less(a, c)
  {
    if a != "" && a[0] == b[0] == c[0] {
      Transitive(a[1..], b[1..], c[1..]);
    }
  }

  lemma {:induction false} Total(a: HostPort, b: HostPort)
    ensures Less(a, b) || a == b || Less(b, a)
  {
    if a != "" && b != "" && a[0] == b[0] {
      Total(a[1..], b[1..]);
      assert a == [a[0]] + a[1..] && b == [b[0]] + b[1..];
    }
  }

  lemma Asymmetric(a: HostPort, b: HostPort)
    requires Less(a, b)
    ensures !Less(b, a) && a != b
  {
    Irreflexive(a);
    if Less(b, a) {
      Transitive(a, b, a);
    }
  }

  lemma StrictlySortedIsInjective(a: seq<HostPort>, i: nat, j: nat)
    requires StrictlySorted(a) && i < |a| && j < |a|
    ensures a[i] == a[j] <==> i == j
  {
    Irreflexive(a[i]);
  }

  /** The members of a host list, as a set. */
  ghost function Hosts(a: seq<HostPort>): set<HostPort> {
    set h | h in a
  }
}
