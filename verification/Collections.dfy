/** What the histories and the counting arguments share. */
module Collections {

  /** Everything but the last entry. */
  function Init<T>(s: seq<T>): (r: seq<T>)
    requires s != []
    ensures |r| == |s| - 1
  {
    s[..|s| - 1]
  }

  function Last<T>(s: seq<T>): T
    requires s != []
  {
    s[|s| - 1]
  }

  lemma Extend<T>(s: seq<T>, x: T)
    ensures Init(s + [x]) == s && Last(s + [x]) == x
  {}

  lemma {:induction false} SubsetIsSmaller<T>(a: set<T>, b: set<T>)
    requires a <= b
    ensures |a| <= |b|
  {
    if a != {} {
      var x :| x in a;
      SubsetIsSmaller(a - {x}, b - {x});
    }
  }

  lemma ProperSubsetIsSmaller<T>(a: set<T>, b: set<T>, x: T)
    requires a <= b && x in b && x !in a
    ensures |a| < |b|
  {
    SubsetIsSmaller(a, b - {x});
  }

  ghost function Below(n: nat): (s: set<nat>)
    ensures |s| == n && forall j: nat :: j in s <==> j < n
  {
    if n == 0 then {} else Below(n - 1) + {n - 1}
  }

  /** A set of numbers below `n` has `n` members exactly when it has all of them. */
  lemma FullBelow(a: set<nat>, n: nat)
    requires forall j: nat :: j in a ==> j < n
    ensures |a| <= n
    ensures |a| == n <==> forall j: nat :: j < n ==> j in a
  {
    SubsetIsSmaller(a, Below(n));
    if j: nat :| j < n && j !in a {
      ProperSubsetIsSmaller(a, Below(n), j);
    } else {
      SubsetIsSmaller(Below(n), a);
    }
  }
}
