/** The order statistics the test scripts compute by hand: the interpolating
    `percentile(data, percent)` helper, `statistics.median`, and the P95 read off a
    sorted list at index `int(len * 0.95)`. */
module Quantiles {
  import opened Common
  import opened Sorting

  /** The hand-written `percentile`: 0 for an empty list; otherwise the percentile of
      the sorted copy. */
  function Percentile(data: seq<real>, percent: real): (p: real)
    requires percent >= 0.0
    ensures data == [] ==> p == 0.0
  {
    if data == [] then 0.0 else SortedPercentile(Sort(data), percent)
  }

  /** On the sorted list v, the rank k = (n - 1) * percent / 100 is split into
      f = int(k) and c = f + 1; the last element is returned when c runs past the end,
      and the two neighbours are interpolated linearly otherwise. */
  function SortedPercentile(v: seq<real>, percent: real): real
    requires |v| > 0 && percent >= 0.0
  {
    var n := |v|;
    var k := Rank(n, percent);
    RankNonNegative(n, percent);
    var f := k.Floor;
    var c := f + 1;
    if c >= n then v[n - 1]
    else v[f] * (c as real - k) + v[c] * (k - f as real)
  }

  /** Rank of the requested percentile within the sorted list. */
  function Rank(n: nat, percent: real): real
  {
    (n - 1) as real * percent / 100.0
  }

  lemma RankNonNegative(n: nat, percent: real)
    requires n > 0 && percent >= 0.0
    ensures Rank(n, percent) >= 0.0
  {
    MulNonNegative((n - 1) as real, percent);
  }

  lemma RankMonotone(n: nat, p1: real, p2: real)
    requires n > 0 && p1 <= p2
    ensures Rank(n, p1) <= Rank(n, p2)
  {
    MulNonNegative((n - 1) as real, p2 - p1);
    assert (n - 1) as real * (p2 - p1) == (n - 1) as real * p2 - (n - 1) as real * p1;
  }

  lemma MulNonNegative(x: real, y: real)
    requires x >= 0.0 && y >= 0.0
    ensures x * y >= 0.0
  {
  }

  lemma MulMonotone(x: real, y: real, z: real)
    requires 0.0 <= x && y <= z
    ensures x * y <= x * z
  {
    MulNonNegative(x, z - y);
    assert x * (z - y) == x * z - x * y;
  }

  /** The interpolation formula with neighbours a <= b at fractional part w = k - f. */
  function Lerp(a: real, b: real, w: real): real
  {
    a + (b - a) * w
  }

  lemma LerpBetween(a: real, b: real, w: real)
    requires a <= b && 0.0 <= w <= 1.0
    ensures a <= Lerp(a, b, w) <= b
  {
    MulNonNegative(b - a, w);
    MulMonotone(b - a, w, 1.0);
    assert (b - a) * 1.0 == b - a;
  }

  lemma LerpMonotone(a: real, b: real, w1: real, w2: real)
    requires a <= b && w1 <= w2
    ensures Lerp(a, b, w1) <= Lerp(a, b, w2)
  {
    MulMonotone(b - a, w1, w2);
  }

  /** The source's formula v[f] * (c - k) + v[c] * (k - f) with c = f + 1 is Lerp. */
  lemma FormulaIsLerp(a: real, b: real, k: real, f: int)
    ensures a * ((f + 1) as real - k) + b * (k - f as real) == Lerp(a, b, k - f as real)
  {
    var w := k - f as real;
    assert (f + 1) as real - k == 1.0 - w;
    assert a * (1.0 - w) == a - a * w;
    assert (b - a) * w == b * w - a * w;
  }

  /** In the interpolating branch the value is Lerp of the two neighbours at the
      fractional part of the rank. */
  lemma SortedPercentileCases(v: seq<real>, percent: real)
    requires |v| > 0 && percent >= 0.0
    ensures var k := Rank(|v|, percent);
            var f := k.Floor;
            0 <= f &&
            (f + 1 >= |v| ==> SortedPercentile(v, percent) == v[|v| - 1]) &&
            (f + 1 < |v| ==> 0.0 <= k - f as real < 1.0 &&
                             SortedPercentile(v, percent) == Lerp(v[f], v[f + 1], k - f as real))
  {
    var k := Rank(|v|, percent);
    RankNonNegative(|v|, percent);
    FormulaIsLerp(v[0], v[0], k, k.Floor);
    if k.Floor + 1 < |v| {
      FormulaIsLerp(v[k.Floor], v[k.Floor + 1], k, k.Floor);
    }
  }

  /** On a sorted list the result lies between the two neighbours of the rank (or is
      the last element), hence between the first and the last element. */
  lemma SortedPercentileBounds(v: seq<real>, percent: real)
    requires |v| > 0 && percent >= 0.0 && IsSorted(v)
    ensures v[0] <= SortedPercentile(v, percent) <= v[|v| - 1]
  {
    SortedPercentileCases(v, percent);
    var k := Rank(|v|, percent);
    var f := k.Floor;
    if f + 1 < |v| {
      LerpBetween(v[f], v[f + 1], k - f as real);
      assert v[0] <= v[f] && v[f + 1] <= v[|v| - 1];
    }
  }

  /** The result lies between the smallest and the largest value. */
  lemma PercentileBounds(data: seq<real>, percent: real)
    requires |data| > 0 && percent >= 0.0
    ensures MinOf(data) <= Percentile(data, percent) <= MaxOf(data)
  {
    SortedPercentileBounds(Sort(data), percent);
    SortedFirstIsMin(data);
  }

  /** percentile(data, 0) is the minimum. */
  lemma PercentileZeroIsMin(data: seq<real>)
    requires |data| > 0
    ensures Percentile(data, 0.0) == MinOf(data)
  {
    var v := Sort(data);
    SortedFirstIsMin(data);
    assert Rank(|v|, 0.0) == 0.0;
    SortedPercentileCases(v, 0.0);
  }

  /** percentile(data, 100) is the maximum. */
  lemma PercentileHundredIsMax(data: seq<real>)
    requires |data| > 0
    ensures Percentile(data, 100.0) == MaxOf(data)
  {
    var v := Sort(data);
    SortedFirstIsMin(data);
    var n := |data|;
    assert Rank(n, 100.0) == (n - 1) as real;
    assert ((n - 1) as real).Floor == n - 1;
    SortedPercentileCases(v, 100.0);
  }

  /** The result does not depend on the order in which the samples were collected. */
  lemma PercentileOrderIndependent(a: seq<real>, b: seq<real>, percent: real)
    requires multiset(a) == multiset(b) && percent >= 0.0
    ensures Percentile(a, percent) == Percentile(b, percent)
  {
    SortPermutationInvariant(a, b);
    assert |a| == |multiset(a)| == |multiset(b)| == |b|;
  }

  /** A higher percentile never yields a smaller value. */
  lemma PercentileMonotone(data: seq<real>, p1: real, p2: real)
    requires |data| > 0 && 0.0 <= p1 <= p2
    ensures Percentile(data, p1) <= Percentile(data, p2)
  {
    SortedPercentileMonotone(Sort(data), p1, p2);
  }

  lemma SortedPercentileMonotone(v: seq<real>, p1: real, p2: real)
    requires |v| > 0 && IsSorted(v) && 0.0 <= p1 <= p2
    ensures SortedPercentile(v, p1) <= SortedPercentile(v, p2)
  {
    var n := |v|;
    var k1, k2 := Rank(n, p1), Rank(n, p2);
    RankMonotone(n, p1, p2);
    var f1, f2 := k1.Floor, k2.Floor;
    assert f1 <= f2;
    SortedPercentileCases(v, p1);
    SortedPercentileCases(v, p2);
    if f2 + 1 < n {
      var w1, w2 := k1 - f1 as real, k2 - f2 as real;
      LerpBetween(v[f1], v[f1 + 1], w1);
      LerpBetween(v[f2], v[f2 + 1], w2);
      if f1 == f2 {
        LerpMonotone(v[f1], v[f1 + 1], w1, w2);
      } else {
        assert v[f1 + 1] <= v[f2];
      }
    } else {
      SortedPercentileBounds(v, p1);
    }
  }

  /** A worked case: the 95th percentile of 10, 20, 30, 40 interpolates to 38.5. */
  lemma PercentileExample()
    ensures Percentile([10.0, 20.0, 30.0, 40.0], 95.0) == 38.5
  {
    var v := [10.0, 20.0, 30.0, 40.0];
    assert IsSorted(v);
    SortedUnique(Sort(v), v);
    SortedPercentileExample(v);
  }

  lemma SortedPercentileExample(v: seq<real>)
    requires v == [10.0, 20.0, 30.0, 40.0]
    ensures SortedPercentile(v, 95.0) == 38.5
  {
    assert Rank(4, 95.0) == 2.85;
    assert (2.85).Floor == 2;
    SortedPercentileCases(v, 95.0);
    assert Lerp(30.0, 40.0, 0.85) == 38.5;
  }

  // ---------------------------------------------------------------------------
  // statistics.median

  /** `statistics.median`: the middle element of the sorted list, or the mean of the two
      middle elements when the length is even. */
  function Median(data: seq<real>): real
    requires |data| > 0
  {
    SortedMedian(Sort(data))
  }

  function SortedMedian(v: seq<real>): real
    requires |v| > 0
  {
    var n := |v|;
    if n % 2 == 1 then v[n / 2] else (v[n / 2 - 1] + v[n / 2]) / 2.0
  }

  /** The median is the interpolating 50th percentile. */
  lemma MedianIsFiftiethPercentile(data: seq<real>)
    requires |data| > 0
    ensures Median(data) == Percentile(data, 50.0)
  {
    SortedMedianIsFiftiethPercentile(Sort(data));
  }

  lemma SortedMedianIsFiftiethPercentile(v: seq<real>)
    requires |v| > 0
    ensures SortedMedian(v) == SortedPercentile(v, 50.0)
  {
    var n := |v|;
    var k := Rank(n, 50.0);
    assert k == (n - 1) as real / 2.0;
    SortedPercentileCases(v, 50.0);
    var h := n / 2;
    if n % 2 == 1 {
      assert n == 2 * h + 1;
      assert k == h as real;
      assert k.Floor == h;
      if h + 1 < n {
        assert Lerp(v[h], v[h + 1], 0.0) == v[h];
      }
    } else {
      assert n == 2 * h;
      assert k == (h - 1) as real + 0.5;
      assert k.Floor == h - 1;
      assert Lerp(v[h - 1], v[h], 0.5) == (v[h - 1] + v[h]) / 2.0;
    }
  }

  lemma MedianBounds(data: seq<real>)
    requires |data| > 0
    ensures MinOf(data) <= Median(data) <= MaxOf(data)
  {
    MedianIsFiftiethPercentile(data);
    PercentileBounds(data, 50.0);
  }

  // ---------------------------------------------------------------------------
  // P95 as `sorted(durations)[int(len(durations) * 0.95)]`

  /** `int(n * 0.95)`: always a valid index of a non-empty list. */
  function P95Index(n: nat): (i: int)
    requires n > 0
    ensures 0 <= i < n
    ensures i as real <= n as real * 0.95 < (i + 1) as real
  {
    (n as real * 0.95).Floor
  }

  function P95(durations: seq<real>): real
    requires |durations| > 0
  {
    Sort(durations)[P95Index(|durations|)]
  }

  /** Number of values not above `t`. */
  function CountAtMost(s: seq<real>, t: real): nat
  {
    if s == [] then 0 else (if s[0] <= t then 1 else 0) + CountAtMost(s[1..], t)
  }

  lemma {:induction false} CountAtMostInsert(x: real, s: seq<real>, t: real)
    requires IsSorted(s)
    ensures CountAtMost(Insert(x, s), t) == CountAtMost(s, t) + (if x <= t then 1 else 0)
  {
    if s != [] && x > s[0] {
      var r := Insert(x, s);
      assert r[1..] == Insert(x, s[1..]);
      CountAtMostInsert(x, s[1..], t);
    } else if s != [] {
      assert (Insert(x, s))[1..] == s;
    }
  }

  /** Sorting keeps the number of values under any threshold. */
  lemma {:induction false} CountAtMostSort(s: seq<real>, t: real)
    ensures CountAtMost(Sort(s), t) == CountAtMost(s, t)
  {
    if s != [] {
      CountAtMostSort(s[1..], t);
      CountAtMostInsert(s[0], Sort(s[1..]), t);
    }
  }

  /** In a sorted list, v[i] has at least i + 1 values not above it. */
  lemma {:induction false} CountAtMostSortedPrefix(v: seq<real>, i: int)
    requires IsSorted(v) && 0 <= i < |v|
    ensures CountAtMost(v, v[i]) >= i + 1
  {
    if i > 0 {
      assert v[1..][i - 1] == v[i];
      CountAtMostSortedPrefix(v[1..], i - 1);
    }
  }

  /** The P95 value is one of the samples, lies between the extremes, and more than 95%
      of the samples do not exceed it. */
  lemma P95Property(durations: seq<real>)
    requires |durations| > 0
    ensures P95(durations) in durations
    ensures MinOf(durations) <= P95(durations) <= MaxOf(durations)
    ensures CountAtMost(durations, P95(durations)) as real > |durations| as real * 0.95
  {
    var i := P95Index(|durations|);
    InSorted(durations, i);
    SortedWithinExtremes(durations, i);
    CountAtMostSortedPrefix(Sort(durations), i);
    CountAtMostSort(durations, P95(durations));
  }
}
