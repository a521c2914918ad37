/** Python's `sorted` on a list of numbers, as an insertion sort on values. The only
    thing the scripts rely on is its result: the same values, ascending. */
module Sorting {
  import opened Common

  predicate IsSorted(s: seq<real>)
  {
    forall i, j :: 0 <= i < j < |s| ==> s[i] <= s[j]
  }

  /** Places `x` before the first element of the sorted list `s` that is not smaller. */
  function Insert(x: real, s: seq<real>): (r: seq<real>)
    requires IsSorted(s)
    ensures IsSorted(r)
    ensures multiset(r) == multiset(s) + multiset{x}
    ensures |r| == |s| + 1
  {
    if s == [] then [x]
    else if x <= s[0] then
      SortedCons(x, s);
      [x] + s
    else
      var rest := Insert(x, s[1..]);
      assert s == [s[0]] + s[1..];
      forall k | 0 <= k < |rest|
        ensures s[0] <= rest[k]
      {
        MultisetMember(rest, k);
        if rest[k] != x {
          assert rest[k] in multiset(s[1..]);
          var j := IndexOf(s[1..], rest[k]);
          assert s[j + 1] == rest[k];
        }
      }
      SortedCons(s[0], rest);
      [s[0]] + rest
  }

  lemma SortedCons(a: real, t: seq<real>)
    requires IsSorted(t)
    requires forall k :: 0 <= k < |t| ==> a <= t[k]
    ensures IsSorted([a] + t)
  {
  }

  lemma MultisetMember(t: seq<real>, k: int)
    requires 0 <= k < |t|
    ensures t[k] in multiset(t)
  {
  }

  /** A position holding a value known to be in the multiset of `t`. */
  function IndexOf(t: seq<real>, y: real): (j: int)
    requires y in multiset(t)
    ensures 0 <= j < |t| && t[j] == y
  {
    if t[0] == y then 0
    else
      assert t == [t[0]] + t[1..];
      1 + IndexOf(t[1..], y)
  }

  /** `sorted(s)`: an ascending rearrangement of `s`. */
  function Sort(s: seq<real>): (r: seq<real>)
    ensures IsSorted(r)
    ensures multiset(r) == multiset(s)
    ensures |r| == |s|
  {
    if s == [] then []
    else
      assert s == [s[0]] + s[1..];
      Insert(s[0], Sort(s[1..]))
  }

  /** Two ascending lists holding the same values are the same list: `sorted` does not
      depend on the order of its input. */
  lemma {:induction false} SortedUnique(a: seq<real>, b: seq<real>)
    requires IsSorted(a) && IsSorted(b)
    requires multiset(a) == multiset(b)
    ensures a == b
  {
    assert |a| == |multiset(a)| == |multiset(b)| == |b|;
    if a != [] {
      SameHead(a, b);
      DropHead(a);
      DropHead(b);
      SortedUnique(a[1..], b[1..]);
      assert a == [a[0]] + a[1..];
      assert b == [b[0]] + b[1..];
    }
  }

  /** Two non-empty ascending lists with the same values start with the same value. */
  lemma SameHead(a: seq<real>, b: seq<real>)
    requires IsSorted(a) && IsSorted(b) && |a| > 0 && |b| > 0
    requires multiset(a) == multiset(b)
    ensures a[0] == b[0]
  {
    MultisetMember(a, 0);
    MultisetMember(b, 0);
    var i := IndexOf(b, a[0]);
    var j := IndexOf(a, b[0]);
    assert a[0] <= a[j] && b[0] <= b[i];
  }

  lemma DropHead(a: seq<real>)
    requires |a| > 0
    ensures multiset(a[1..]) == multiset(a) - multiset{a[0]}
  {
    assert a == [a[0]] + a[1..];
  }

  lemma SortPermutationInvariant(a: seq<real>, b: seq<real>)
    requires multiset(a) == multiset(b)
    ensures Sort(a) == Sort(b)
  {
    SortedUnique(Sort(a), Sort(b));
  }

  /** The sorted copy starts with the minimum and ends with the maximum. */
  lemma SortedFirstIsMin(s: seq<real>)
    requires |s| > 0
    ensures Sort(s)[0] == MinOf(s)
    ensures Sort(s)[|s| - 1] == MaxOf(s)
  {
    SortedStartsAtMin(s);
    SortedEndsAtMax(s);
  }

  lemma SortedStartsAtMin(s: seq<real>)
    requires |s| > 0
    ensures Sort(s)[0] == MinOf(s)
  {
    SortedFirst(Sort(s), s, MinOf(s));
  }

  lemma SortedEndsAtMax(s: seq<real>)
    requires |s| > 0
    ensures Sort(s)[|s| - 1] == MaxOf(s)
  {
    SortedLast(Sort(s), s, MaxOf(s));
  }

  /** An ascending rearrangement of `s` starts with the element of `s` that bounds
      every other from below. */
  lemma SortedFirst(v: seq<real>, s: seq<real>, m: real)
    requires IsSorted(v) && multiset(v) == multiset(s) && |v| > 0
    requires m in s && forall x :: x in s ==> m <= x
    ensures v[0] == m
  {
    MultisetMember(v, 0);
    assert v[0] in multiset(s);
    assert m in multiset(v);
    var i := IndexOf(v, m);
    assert v[0] in s && v[0] <= v[i];
  }

  /** An ascending rearrangement of `s` ends with the element of `s` that bounds every
      other from above. */
  lemma SortedLast(v: seq<real>, s: seq<real>, m: real)
    requires IsSorted(v) && multiset(v) == multiset(s) && |v| > 0
    requires m in s && forall x :: x in s ==> x <= m
    ensures v[|v| - 1] == m
  {
    MultisetMember(v, |v| - 1);
    assert v[|v| - 1] in multiset(s);
    assert m in multiset(v);
    var i := IndexOf(v, m);
    assert v[|v| - 1] in s && v[i] <= v[|v| - 1];
  }

  lemma InSorted(s: seq<real>, i: int)
    requires 0 <= i < |s|
    ensures Sort(s)[i] in s
  {
    assert Sort(s)[i] in multiset(Sort(s));
  }

  /** Every element of the sorted copy lies between the minimum and the maximum. */
  lemma SortedWithinExtremes(s: seq<real>, i: int)
    requires 0 <= i < |s|
    ensures MinOf(s) <= Sort(s)[i] <= MaxOf(s)
  {
    InSorted(s, i);
  }
}
