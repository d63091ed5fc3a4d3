/**
  Binary search with a linear tail over a sorted list of host ports
  (lib/sorted-index-of.js). The answer is an index when the value is present and
  the two's complement of its insertion point when it is not.
 */
module SortedIndexOf {
  import opened HostOrder

  const DEFAULT_THRESHOLD: nat := 11

  /** Two's complement: `~n` for an integer `n`. */
  function Complement(n: int): (r: int)
    ensures r < 0 <==> n >= 0
    ensures -r - 1 == n
  {
    -n - 1
  }

  /** `r` answers the search for `value` in `a`. */
  ghost predicate IsAnswer(a: seq<HostPort>, value: HostPort, r: int) {
    if r >= 0 then
      r < |a| && a[r] == value
    else
      var p := Complement(r);
      p <= |a| && SplitAt(a, value, p)
  }

  /** Everything before position `p` is below `value`, everything from `p` on above it. */
  ghost predicate SplitAt(a: seq<HostPort>, value: HostPort, p: int)
    requires 0 <= p <= |a|
  {
    && (forall i :: 0 <= i < p ==> Less(a[i], value))
    && (forall i :: p <= i < |a| ==> Less(value, a[i]))
  }

  lemma BelowPrefix(a: seq<HostPort>, value: HostPort, mid: nat)
    requires Sorted(a) && mid < |a| && Less(a[mid], value)
    ensures forall i :: 0 <= i <= mid ==> Less(a[i], value)
  {
    forall i | 0 <= i < mid ensures Less(a[i], value) {
      if a[i] != a[mid] {
        Transitive(a[i], a[mid], value);
      }
    }
  }

  lemma AboveSuffix(a: seq<HostPort>, value: HostPort, mid: nat)
    requires Sorted(a) && mid < |a| && Less(value, a[mid])
    ensures forall i :: mid <= i < |a| ==> Less(value, a[i])
  {
    forall i | mid < i < |a| ensures Less(value, a[i]) {
      if a[i] != a[mid] {
        Transitive(value, a[mid], a[i]);
      }
    }
  }

  /** The search, for either setting of the threshold (`threshold == null ? 11 : 0`). */
  method Search(a: seq<HostPort>, value: HostPort, defaultThreshold: bool) returns (r: int)
    requires Sorted(a)
    ensures IsAnswer(a, value, r)
    ensures r >= 0 <==> value in a
  {
    var min, max := 0, |a| - 1;
    var threshold := if defaultThreshold then DEFAULT_THRESHOLD else 0;
    while min + threshold <= max
      invariant 0 <= min <= max + 1 <= |a|
      invariant forall i :: 0 <= i < min ==> Less(a[i], value)
      invariant forall i :: max < i < |a| ==> Less(value, a[i])
      decreases max - min + 1
    {
      var mid := (min + max) / 2;
      Total(value, a[mid]);
      if value == a[mid] {
        return mid;
      } else if Less(a[mid], value) {
        BelowPrefix(a, value, mid);
        min := mid + 1;
      } else {
        AboveSuffix(a, value, mid);
        max := mid - 1;
      }
    }
    while min <= max && AtMost(a[min], value)
      invariant 0 <= min <= max + 1 <= |a|
      invariant forall i :: 0 <= i < min ==> Less(a[i], value)
      invariant forall i :: max < i < |a| ==> Less(value, a[i])
    {
      if value == a[min] {
        return min;
      }
      min := min + 1;
    }
    if min <= max {
      Total(value, a[min]);
      AboveSuffix(a, value, min);
    }
    AbsentWhenSplit(a, value, min);
    r := Complement(min);
  }

  lemma AbsentWhenSplit(a: seq<HostPort>, value: HostPort, p: nat)
    requires p <= |a| && SplitAt(a, value, p)
    ensures value !in a
  {
    Irreflexive(value);
  }

  /** On a duplicate-free list the answer is unique, so both thresholds give the same one. */
  lemma AnswerIsUnique(a: seq<HostPort>, value: HostPort, r: int, r': int)
    requires StrictlySorted(a) && IsAnswer(a, value, r) && IsAnswer(a, value, r')
    ensures r == r'
  {
    if r >= 0 && r' >= 0 {
      StrictlySortedIsInjective(a, r, r');
    } else if r >= 0 {
      AbsentWhenSplit(a, value, Complement(r'));
    } else if r' >= 0 {
      AbsentWhenSplit(a, value, Complement(r));
    } else {
      var p, p' := Complement(r), Complement(r');
      if p < p' {
        Asymmetric(a[p], value);
      } else if p' < p {
        Asymmetric(a[p'], value);
      }
    }
  }
}
