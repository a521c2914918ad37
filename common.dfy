/** Shared vocabulary of the model: optional values, the descriptive statistics the
    test scripts compute with `statistics.mean`, `min`, `max` and `statistics.variance`,
    and the numeric routines the scripts borrow from numpy/scipy, which the model
    takes as opaque function values. */
module Common {

  datatype Option<T> = None | Some(value: T)

  /** Outcome of an expression the Python code evaluates without a guard: either the
      value, or the exception it raises (a ZeroDivisionError, a StatisticsError). */
  datatype Outcome<T> = Value(get: T) | Raises(exception: string)

  /** The text of the ZeroDivisionError a float division by zero raises. */
  const DivisionByZero := "float division by zero"
  /** The text of the ZeroDivisionError an integer division by zero raises. */
  const IntDivisionByZero := "division by zero"
  /** The texts of the StatisticsError `statistics.stdev` and `statistics.variance` raise
      on fewer than two values. */
  const StdevNeedsTwo := "stdev requires at least two data points"
  const VarianceNeedsTwo := "variance requires at least two data points"

  /** What a wrapped request does, in order: sleep for some seconds, or call the target. */
  datatype Effect = Sleep(seconds: real) | CallTarget

  /** One request through a simulator: the effects it performed and its outcome. */
  datatype Attempt<T> = Attempt(trace: seq<Effect>, result: Outcome<T>)

  /** Total time slept along a trace. */
  function SleptSeconds(trace: seq<Effect>): real
  {
    if trace == [] then 0.0
    else (if trace[0].Sleep? then trace[0].seconds else 0.0) + SleptSeconds(trace[1..])
  }

  lemma {:induction false} SleptSecondsAppend(a: seq<Effect>, b: seq<Effect>)
    ensures SleptSeconds(a + b) == SleptSeconds(a) + SleptSeconds(b)
  {
    if a == [] {
      assert a + b == b;
    } else {
      assert (a + b)[1..] == a[1..] + b;
      SleptSecondsAppend(a[1..], b);
    }
  }

  /** `time.sleep(d)` guarded by `if d > 0`. */
  function SleepIfPositive(d: real): (t: seq<Effect>)
    ensures SleptSeconds(t) == (if d > 0.0 then d else 0.0)
    ensures CallTarget !in t
  {
    if d > 0.0 then [Sleep(d)] else []
  }

  /** `max(0, x)`. */
  function ClampNonNegative(x: real): (r: real)
    ensures r >= 0.0 && r >= x
    ensures r == x || r == 0.0
  {
    if x > 0.0 then x else 0.0
  }

  // ---------------------------------------------------------------------------
  // Sums, means, extremes

  function Sum(s: seq<real>): real
  {
    if s == [] then 0.0 else s[0] + Sum(s[1..])
  }

  lemma {:induction false} SumAppend(a: seq<real>, b: seq<real>)
    ensures Sum(a + b) == Sum(a) + Sum(b)
  {
    if a == [] {
      assert a + b == b;
    } else {
      assert (a + b)[1..] == a[1..] + b;
      SumAppend(a[1..], b);
    }
  }

  /** `statistics.mean` / `np.mean` on exact reals. */
  function Mean(s: seq<real>): real
    requires |s| > 0
  {
    Sum(s) / |s| as real
  }

  /** `min(s)` for a non-empty list: an element that no other element undercuts. */
  function MinOf(s: seq<real>): (m: real)
    requires |s| > 0
    ensures m in s
    ensures forall x :: x in s ==> m <= x
  {
    if |s| == 1 then s[0]
    else
      var rest := MinOf(s[1..]);
      assert forall x :: x in s ==> x == s[0] || x in s[1..];
      if s[0] <= rest then s[0] else rest
  }

  /** `max(s)` for a non-empty list: an element that no other element exceeds. */
  function MaxOf(s: seq<real>): (m: real)
    requires |s| > 0
    ensures m in s
    ensures forall x :: x in s ==> x <= m
  {
    if |s| == 1 then s[0]
    else
      var rest := MaxOf(s[1..]);
      assert forall x :: x in s ==> x == s[0] || x in s[1..];
      if s[0] >= rest then s[0] else rest
  }

  /** Every element within [lo, hi] bounds the sum by |s|*lo and |s|*hi. */
  lemma SumBounds(s: seq<real>, lo: real, hi: real)
    requires forall x :: x in s ==> lo <= x <= hi
    ensures |s| as real * lo <= Sum(s) <= |s| as real * hi
  {
    assert forall i :: 0 <= i < |s| ==> s[i] in s;
    SumAtLeast(s, lo);
    SumAtMost(s, hi);
  }

  lemma {:induction false} SumAtLeast(s: seq<real>, lo: real)
    requires forall i :: 0 <= i < |s| ==> lo <= s[i]
    ensures |s| as real * lo <= Sum(s)
  {
    if s != [] {
      assert forall i :: 0 <= i < |s[1..]| ==> s[1..][i] == s[i + 1];
      SumAtLeast(s[1..], lo);
      assert |s| as real * lo == |s[1..]| as real * lo + lo;
    }
  }

  lemma {:induction false} SumAtMost(s: seq<real>, hi: real)
    requires forall i :: 0 <= i < |s| ==> s[i] <= hi
    ensures Sum(s) <= |s| as real * hi
  {
    if s != [] {
      assert forall i :: 0 <= i < |s[1..]| ==> s[1..][i] == s[i + 1];
      SumAtMost(s[1..], hi);
      assert |s| as real * hi == |s[1..]| as real * hi + hi;
    }
  }

  /** The mean of a non-empty list lies between its minimum and its maximum. */
  lemma MeanBetween(s: seq<real>)
    requires |s| > 0
    ensures MinOf(s) <= Mean(s) <= MaxOf(s)
  {
    MeanWithin(s, MinOf(s), MaxOf(s));
  }

  /** Dividing by a non-zero number and multiplying back gives the dividend. */
  lemma QuotientTimesDivisor(n: real, d: real)
    ensures d != 0.0 ==> (n / d) * d == n
  {
  }

  lemma DivideBounds(total: real, n: real, lo: real, hi: real)
    requires n > 0.0
    requires n * lo <= total <= n * hi
    ensures lo <= total / n <= hi
  {
    var q := total / n;
    assert q * n == total;
    assert (q - lo) * n >= 0.0;
    assert (hi - q) * n >= 0.0;
  }

  /** The mean of values that are all in [lo, hi] is in [lo, hi]. */
  lemma MeanWithin(s: seq<real>, lo: real, hi: real)
    requires |s| > 0
    requires forall x :: x in s ==> lo <= x <= hi
    ensures lo <= Mean(s) <= hi
  {
    SumBounds(s, lo, hi);
    DivideBounds(Sum(s), |s| as real, lo, hi);
  }

  // ---------------------------------------------------------------------------
  // Sample variance (`statistics.variance`)

  function SquaredDeviations(s: seq<real>, m: real): real
  {
    if s == [] then 0.0 else (s[0] - m) * (s[0] - m) + SquaredDeviations(s[1..], m)
  }

  lemma {:induction false} SquaredDeviationsNonNegative(s: seq<real>, m: real)
    ensures SquaredDeviations(s, m) >= 0.0
  {
    if s != [] {
      SquareNonNegative(s[0] - m);
      SquaredDeviationsNonNegative(s[1..], m);
    }
  }

  lemma SquareNonNegative(x: real)
    ensures x * x >= 0.0
  {
    if x < 0.0 {
      assert x * x == (-x) * (-x);
    }
  }

  /** `statistics.variance`: the sample variance, defined from two data points on. */
  function SampleVariance(s: seq<real>): (v: real)
    requires |s| >= 2
    ensures v >= 0.0
  {
    SquaredDeviationsNonNegative(s, Mean(s));
    SquaredDeviations(s, Mean(s)) / (|s| - 1) as real
  }

  /** A list whose values are all equal has no spread. */
  lemma {:induction false} ConstantHasNoDeviation(s: seq<real>, c: real)
    requires forall x :: x in s ==> x == c
    ensures SquaredDeviations(s, c) == 0.0
    ensures Sum(s) == |s| as real * c
  {
    if s != [] {
      assert s[0] in s;
      assert forall x :: x in s[1..] ==> x in s;
      ConstantHasNoDeviation(s[1..], c);
    }
  }

  lemma ConstantVarianceZero(s: seq<real>, c: real)
    requires |s| >= 2
    requires forall x :: x in s ==> x == c
    ensures Mean(s) == c
    ensures SampleVariance(s) == 0.0
  {
    ConstantHasNoDeviation(s, c);
  }

  // ---------------------------------------------------------------------------
  // Numeric routines taken from numpy and scipy

  /** The foreign numeric routines the scripts call, as opaque function values:
      `np.sqrt`, `scipy.stats.shapiro`, `levene`, `ttest_ind(equal_var)`, `mannwhitneyu`
      (two-sided) and `stats.t.ppf(q, df)`. A test that raises is `None`; one that
      returns gives its p-value. */
  datatype Numerics = Numerics(
    sqrt: real -> real,
    shapiroP: seq<real> -> Option<real>,
    leveneP: (seq<real>, seq<real>) -> Option<real>,
    tTestP: (seq<real>, seq<real>, bool) -> Option<real>,
    mannWhitneyP: (seq<real>, seq<real>) -> Option<real>,
    tQuantile: (real, real) -> real)

  /** The only facts the model relies on about the square root: it is zero at zero and
      positive on positive arguments. */
  ghost predicate SqrtSound(nx: Numerics)
  {
    nx.sqrt(0.0) == 0.0 && forall x :: x > 0.0 ==> nx.sqrt(x) > 0.0
  }

  /** `statistics.stdev`: the square root of the sample variance. */
  function StdDev(nx: Numerics, s: seq<real>): real
    requires |s| >= 2
  {
    nx.sqrt(SampleVariance(s))
  }

  /** `statistics.stdev(xs) if len(xs) > 1 else 0`, the guard the suites use. */
  function GuardedStdDev(nx: Numerics, s: seq<real>): (d: real)
    ensures |s| <= 1 ==> d == 0.0
  {
    if |s| > 1 then StdDev(nx, s) else 0.0
  }

  // ---------------------------------------------------------------------------
  // Sequences of values

  /** Values strictly above zero. */
  predicate AllPositive(s: seq<real>)
  {
    forall x :: x in s ==> x > 0.0
  }

  /** `[x for x in xs if x > 0]`: every positive occurrence is kept, as often as it
      occurs, and nothing else. */
  function KeepPositive(s: seq<real>): (r: seq<real>)
    ensures AllPositive(r)
    ensures forall x :: x in s && x > 0.0 ==> x in r
    ensures forall x :: x in r ==> x in s
    ensures |r| <= |s|
  {
    if s == [] then []
    else
      var rest := KeepPositive(s[1..]);
      assert forall x :: x in s ==> x == s[0] || x in s[1..];
      if s[0] > 0.0 then [s[0]] + rest else rest
  }

  /** The comprehension keeps each positive value as often as it occurs, and drops
      every other value. */
  lemma {:induction false} KeepPositiveMultiplicity(s: seq<real>)
    ensures forall x :: multiset(KeepPositive(s))[x] == if x > 0.0 then multiset(s)[x] else 0
  {
    if s != [] {
      KeepPositiveMultiplicity(s[1..]);
      assert s == [s[0]] + s[1..];
    }
  }

  /** The comprehension keeps the input's order: one more value at the end adds
      itself at the end exactly when it is positive. */
  lemma {:induction false} KeepPositiveSnoc(s: seq<real>, x: real)
    ensures KeepPositive(s + [x]) == KeepPositive(s) + (if x > 0.0 then [x] else [])
  {
    if s == [] {
      assert [] + [x] == [x];
      assert [x][1..] == [];
    } else {
      assert (s + [x])[0] == s[0];
      assert (s + [x])[1..] == s[1..] + [x];
      KeepPositiveSnoc(s[1..], x);
    }
  }

  // ---------------------------------------------------------------------------
  // Decimal rendering, as Python's `str(n)` / f-string `{n}` on integers

  function DigitChar(d: nat): (c: char)
    requires d < 10
    ensures '0' <= c <= '9'
  {
    ['0', '1', '2', '3', '4', '5', '6', '7', '8', '9'][d]
  }

  function NatToString(n: nat): (s: string)
    ensures |s| > 0
    ensures forall i :: 0 <= i < |s| ==> '0' <= s[i] <= '9'
  {
    if n < 10 then [DigitChar(n)] else NatToString(n / 10) + [DigitChar(n % 10)]
  }

  function IntToString(n: int): string
  {
    if n < 0 then "-" + NatToString(-n) else NatToString(n)
  }

  lemma DigitCharInjective(a: nat, b: nat)
    requires a < 10 && b < 10 && DigitChar(a) == DigitChar(b)
    ensures a == b
  {
  }

  lemma SingleDigitLength(n: nat)
    ensures |NatToString(n)| == 1 <==> n < 10
  {
    if n >= 10 {
      assert |NatToString(n / 10)| > 0;
    }
  }

  /** Distinct numbers print differently. */
  lemma {:induction false} NatToStringInjective(a: nat, b: nat)
    requires NatToString(a) == NatToString(b)
    ensures a == b
  {
    var s := NatToString(a);
    SingleDigitLength(a);
    SingleDigitLength(b);
    if a < 10 {
      DigitCharInjective(a, b);
    } else {
      assert s[|s| - 1] == DigitChar(a % 10) == DigitChar(b % 10);
      DigitCharInjective(a % 10, b % 10);
      assert s[..|s| - 1] == NatToString(a / 10) == NatToString(b / 10);
      NatToStringInjective(a / 10, b / 10);
    }
  }

  // ---------------------------------------------------------------------------
  // Distinct keys

  /** No element occurs twice. */
  predicate Distinct<T(==)>(s: seq<T>)
  {
    forall i, j :: 0 <= i < j < |s| ==> s[i] != s[j]
  }

  /** A list without repetitions has as many distinct elements as entries. */
  lemma {:induction false} DistinctCardinality<T>(s: seq<T>)
    requires Distinct(s)
    ensures |set x | x in s| == |s|
  {
    if s != [] {
      var t := s[..|s| - 1];
      var last := s[|s| - 1];
      assert Distinct(t);
      DistinctCardinality(t);
      forall i | 0 <= i < |t| ensures t[i] != last {
        assert t[i] == s[i];
      }
      assert s == t + [last];
      assert (set x | x in s) == (set x | x in t) + {last};
    }
  }

  lemma AppendAssoc<T>(a: seq<T>, b: seq<T>, c: seq<T>)
    ensures (a + b) + c == a + (b + c)
  {
  }

  /** A prefix of a repetition-free list is repetition-free, and its elements differ
      from every later one. */
  lemma DistinctPrefix<T>(s: seq<T>, n: nat)
    requires Distinct(s) && n <= |s|
    ensures Distinct(s[..n])
    ensures forall j :: n <= j < |s| ==> s[j] !in s[..n]
  {
    forall j | n <= j < |s| ensures s[j] !in s[..n] {
      forall i | 0 <= i < n ensures s[..n][i] != s[j] {
        assert s[..n][i] == s[i];
      }
    }
  }

  /** A dictionary filled key by key in list order; a later equal key overwrites an
      earlier one. */
  function Tabulate<K(!new), V>(keys: seq<K>, values: seq<V>): (m: map<K, V>)
    requires |keys| == |values|
    ensures forall k :: k in m <==> k in keys
  {
    if keys == [] then map[]
    else Tabulate(keys[..|keys| - 1], values[..|values| - 1])[keys[|keys| - 1] := values[|values| - 1]]
  }

  /** Filling one more key extends the dictionary filled so far. */
  lemma TabulateSnoc<K(!new), V>(keys: seq<K>, values: seq<V>, i: nat)
    requires |keys| == |values| && i < |keys|
    ensures Tabulate(keys[..i + 1], values[..i + 1]) == Tabulate(keys[..i], values[..i])[keys[i] := values[i]]
  {
    assert keys[..i + 1][..i] == keys[..i] && values[..i + 1][..i] == values[..i];
  }

  /** With distinct keys every key maps to its own value. */
  lemma {:induction false} TabulateEntries<K(!new), V>(keys: seq<K>, values: seq<V>, i: nat)
    requires |keys| == |values| && Distinct(keys) && i < |keys|
    ensures Tabulate(keys, values)[keys[i]] == values[i]
  {
    var n := |keys| - 1;
    if i < n {
      DistinctPrefix(keys, n);
      TabulateEntries(keys[..n], values[..n], i);
      assert keys[..n][i] == keys[i] && values[..n][i] == values[i];
    }
  }

  /** Two repetition-free lists with no common element concatenate to one. */
  lemma DistinctConcat<T>(a: seq<T>, b: seq<T>)
    requires Distinct(a) && Distinct(b)
    requires forall x :: x in a ==> x !in b
    ensures Distinct(a + b)
  {
    forall i, j | 0 <= i < j < |a + b|
      ensures (a + b)[i] != (a + b)[j]
    {
      if j < |a| {
        assert (a + b)[i] == a[i] && (a + b)[j] == a[j];
      } else if i >= |a| {
        assert (a + b)[i] == b[i - |a|] && (a + b)[j] == b[j - |a|];
      } else {
        assert (a + b)[i] == a[i] && (a + b)[j] == b[j - |a|];
        assert a[i] in a && b[j - |a|] in b;
      }
    }
  }
}
