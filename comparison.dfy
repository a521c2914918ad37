/** The decision rules both statistical analyzers share when they set the orchestrated
    variant against the choreographed one: the minimum-sample gate, the Shapiro-Wilk
    normality flag, significance, the pooled standard deviation behind Cohen's d, the
    effect-size buckets and the lower/higher-is-better winner rule. numpy results that
    are not finite (0/0, x/0) are represented explicitly. */
module Comparison {
  import opened Common

  /** Neither a normality test nor a comparison is run on fewer than 3 samples. */
  const MinSamples: nat := 3

  const Orchestrated := "orchestrated"
  const Choreographed := "choreographed"
  const Tie := "tie"

  /** The four metrics `run_complete_analysis` compares, in its order. */
  datatype Metric = Latencies | Throughputs | SuccessRates | P95Latencies

  const MetricsToCompare: seq<Metric> := [Latencies, Throughputs, SuccessRates, P95Latencies]

  /** For 'latencies' and 'p95_latencies' a lower mean is better. */
  predicate LowerIsBetter(m: Metric)
  {
    m == Latencies || m == P95Latencies
  }

  // ---------------------------------------------------------------------------
  // IEEE results of numpy arithmetic

  /** A numpy float64: a finite value, NaN, or an infinity with its sign. */
  datatype Float64 = Finite(x: real) | NaN | Infinity(positive: bool)

  /** numpy division: by zero it does not raise but yields NaN (0/0) or a signed infinity. */
  function NumpyDivide(n: real, d: real): (q: Float64)
    ensures q.Finite? <==> d != 0.0
    ensures q.Finite? ==> q.x == n / d
    ensures q.NaN? <==> d == 0.0 && n == 0.0
    ensures q.Infinity? ==> (q.positive <==> n > 0.0)
  {
    if d != 0.0 then Finite(n / d)
    else if n == 0.0 then NaN
    else Infinity(n > 0.0)
  }

  function Abs(x: real): (r: real)
    ensures r >= 0.0 && (r == x || r == -x)
  {
    if x < 0.0 then -x else x
  }

  /** `abs(q) * 100` on a numpy float: NaN stays NaN, an infinity becomes +inf. */
  function Percent(q: Float64): (r: Float64)
    ensures r.Finite? <==> q.Finite?
    ensures r.Finite? ==> r.x >= 0.0 && r.x == Abs(q.x) * 100.0
    ensures r.NaN? <==> q.NaN?
    ensures r.Infinity? ==> r.positive
  {
    match q
    case Finite(x) => Finite(Abs(x) * 100.0)
    case NaN => NaN
    case Infinity(_) => Infinity(true)
  }

  /** `abs(o - c) / divisor * 100` on plain Python floats (the report scripts and the
      archived analyzer): a zero divisor raises instead of yielding a non-finite value.
      A positive divisor gives a non-negative figure, at most 100 (below 100) when the
      gap is at most (below) the divisor, and 0 on equal values. */
  function GapPercent(o: real, c: real, divisor: real): (r: Outcome<real>)
    ensures r.Raises? <==> divisor == 0.0
    ensures r.Raises? ==> r.exception == DivisionByZero
    ensures r.Value? ==> r.get * divisor == Abs(o - c) * 100.0
    ensures divisor > 0.0 ==> r.Value? && r.get >= 0.0
    ensures divisor > 0.0 && Abs(o - c) <= divisor ==> r.get <= 100.0
    ensures divisor > 0.0 && Abs(o - c) < divisor ==> r.get < 100.0
    ensures divisor != 0.0 && o == c ==> r == Value(0.0)
  {
    if divisor == 0.0 then Raises(DivisionByZero)
    else
      GapFacts(Abs(o - c), divisor);
      Value(Abs(o - c) / divisor * 100.0)
  }

  lemma GapFacts(gap: real, divisor: real)
    requires gap >= 0.0 && divisor != 0.0
    ensures (gap / divisor * 100.0) * divisor == gap * 100.0
    ensures divisor > 0.0 ==> gap / divisor * 100.0 >= 0.0
    ensures divisor > 0.0 && gap <= divisor ==> gap / divisor * 100.0 <= 100.0
    ensures divisor > 0.0 && gap < divisor ==> gap / divisor * 100.0 < 100.0
    ensures gap == 0.0 ==> gap / divisor * 100.0 == 0.0
  {
    var q := gap / divisor;
    assert q * divisor == gap;
    if divisor > 0.0 {
      QuotientSign(gap, divisor);
      if gap <= divisor {
        DivideBounds(gap, divisor, 0.0, 1.0);
      }
      if gap < divisor {
        assert (1.0 - q) * divisor > 0.0;
      }
    }
  }

  // ---------------------------------------------------------------------------
  // Normality gate and significance

  /** The dictionary `test_normality` returns. A Shapiro-Wilk call that raises yields
      the 'error' entry. */
  datatype Normality =
    | InsufficientData(sampleSize: nat)
    | ShapiroWilk(pValue: real, isNormal: bool, sampleSize: nat)
    | NormalityError(sampleSize: nat)

  predicate IsNormal(n: Normality)
  {
    n.ShapiroWilk? && n.isNormal
  }

  /** `test_normality`: fewer than 3 samples are never normal; otherwise a sample is
      normal exactly when the Shapiro-Wilk p-value exceeds alpha. */
  function TestNormality(nx: Numerics, alpha: real, data: seq<real>): (r: Normality)
    ensures r.sampleSize == |data|
    ensures |data| < MinSamples ==> r.InsufficientData?
    ensures IsNormal(r) <==>
              |data| >= MinSamples && nx.shapiroP(data).Some? && nx.shapiroP(data).value > alpha
    ensures r.NormalityError? <==> |data| >= MinSamples && nx.shapiroP(data).None?
  {
    if |data| < MinSamples then InsufficientData(|data|)
    else
      match nx.shapiroP(data)
      case Some(p) => ShapiroWilk(p, p > alpha, |data|)
      case None => NormalityError(|data|)
  }

  /** A normal verdict at one level stays normal at any stricter (smaller) level. */
  lemma NormalityMonotone(nx: Numerics, alpha: real, stricter: real, data: seq<real>)
    requires stricter <= alpha
    ensures IsNormal(TestNormality(nx, alpha, data)) ==> IsNormal(TestNormality(nx, stricter, data))
  {
  }

  /** `significant = p_value < alpha`. */
  predicate Significant(p: real, alpha: real)
  {
    p < alpha
  }

  // ---------------------------------------------------------------------------
  // Cohen's d and its interpretation

  /** Both weights positive and both parts non-negative: the weighted sum is zero
      exactly when both parts are. */
  lemma WeightedSumZero(w1: real, v1: real, w2: real, v2: real)
    requires w1 > 0.0 && w2 > 0.0 && v1 >= 0.0 && v2 >= 0.0
    ensures w1 * v1 + w2 * v2 >= 0.0
    ensures w1 * v1 + w2 * v2 == 0.0 <==> v1 == 0.0 && v2 == 0.0
  {
    assert w1 * v1 >= 0.0;
    assert w2 * v2 >= 0.0;
    assert v1 > 0.0 ==> w1 * v1 > 0.0;
    assert v2 > 0.0 ==> w2 * v2 > 0.0;
  }

  /** `((n1-1)*s1**2 + (n2-1)*s2**2) / (n1+n2-2)`: never negative, and zero exactly
      when neither group varies. */
  function PooledVariance(a: seq<real>, b: seq<real>): (v: real)
    requires |a| >= 2 && |b| >= 2
    ensures v >= 0.0
    ensures v == 0.0 <==> SampleVariance(a) == 0.0 && SampleVariance(b) == 0.0
  {
    var w1 := (|a| - 1) as real;
    var w2 := (|b| - 1) as real;
    var total := w1 * SampleVariance(a) + w2 * SampleVariance(b);
    WeightedSumZero(w1, SampleVariance(a), w2, SampleVariance(b));
    var n := (|a| + |b| - 2) as real;
    assert total / n * n == total;
    total / n
  }

  /** The pooled standard deviation, `np.sqrt` of the pooled variance. */
  function PooledStd(nx: Numerics, a: seq<real>, b: seq<real>): (s: real)
    requires |a| >= 2 && |b| >= 2
    ensures SqrtSound(nx) ==>
              (s > 0.0 <==> SampleVariance(a) != 0.0 || SampleVariance(b) != 0.0) &&
              (s == 0.0 <==> SampleVariance(a) == 0.0 && SampleVariance(b) == 0.0)
  {
    nx.sqrt(PooledVariance(a, b))
  }

  /** Cohen's d with the zero guard: the standardised mean difference when the pooled
      standard deviation is positive, and 0 otherwise, so it never divides by zero. */
  function GuardedCohensD(nx: Numerics, a: seq<real>, b: seq<real>): (d: real)
    requires |a| >= 2 && |b| >= 2
    ensures PooledStd(nx, a, b) <= 0.0 ==> d == 0.0
    ensures PooledStd(nx, a, b) > 0.0 ==>
              IsQuotient(d, Mean(a) - Mean(b), PooledStd(nx, a, b)) &&
              (d > 0.0 <==> Mean(a) > Mean(b)) && (d == 0.0 <==> Mean(a) == Mean(b))
  {
    GuardedQuotient(Mean(a) - Mean(b), PooledStd(nx, a, b))
  }

  /** `q` times `s` gives back `n`. */
  predicate IsQuotient(q: real, n: real, s: real)
  {
    q * s == n
  }

  /** `n / s` when `s` is positive and 0 otherwise; the quotient keeps the sign of `n`. */
  function GuardedQuotient(n: real, s: real): (q: real)
    ensures s <= 0.0 ==> q == 0.0
    ensures s > 0.0 ==> IsQuotient(q, n, s) && (q > 0.0 <==> n > 0.0) && (q == 0.0 <==> n == 0.0)
  {
    if s > 0.0 then
      QuotientSign(n, s);
      n / s
    else 0.0
  }

  lemma QuotientSign(n: real, s: real)
    requires s > 0.0
    ensures (n / s) * s == n
    ensures n / s > 0.0 <==> n > 0.0
    ensures n / s == 0.0 <==> n == 0.0
  {
    var q := n / s;
    assert q * s == n;
    if q > 0.0 { assert q * s > 0.0; }
    if q < 0.0 { assert q * s < 0.0; }
  }

  /** `interpret_effect_size`: the label depends only on |d| (0.2 / 0.5 / 0.8 cut-offs).
      On numpy's NaN or an infinity every `<` test is false, so the label is "large". */
  function InterpretEffectSize(d: Float64): (size: string)
    ensures size == "negligible" <==> d.Finite? && Abs(d.x) < 0.2
    ensures size == "small" <==> d.Finite? && 0.2 <= Abs(d.x) < 0.5
    ensures size == "medium" <==> d.Finite? && 0.5 <= Abs(d.x) < 0.8
    ensures size == "large" <==> !d.Finite? || Abs(d.x) >= 0.8
  {
    if d.Finite? && Abs(d.x) < 0.2 then "negligible"
    else if d.Finite? && Abs(d.x) < 0.5 then "small"
    else if d.Finite? && Abs(d.x) < 0.8 then "medium"
    else "large"
  }

  /** The label ignores the sign of d. */
  lemma EffectSizeIgnoresSign(x: real)
    ensures InterpretEffectSize(Finite(x)) == InterpretEffectSize(Finite(-x))
  {
  }

  // ---------------------------------------------------------------------------
  // Winner rule

  /** Lower mean wins for latencies, higher mean otherwise; equal means go to
      'choreographed'. */
  function Winner(metric: Metric, orchMean: real, choreoMean: real): (w: string)
    ensures w == Orchestrated || w == Choreographed
    ensures w == Orchestrated <==>
              (if LowerIsBetter(metric) then orchMean < choreoMean else orchMean > choreoMean)
  {
    if LowerIsBetter(metric) then
      (if orchMean < choreoMean then Orchestrated else Choreographed)
    else
      (if orchMean > choreoMean then Orchestrated else Choreographed)
  }

  function Other(side: string): string
  {
    if side == Orchestrated then Choreographed else Orchestrated
  }

  /** The rule favours neither variant except on ties: exchanging two different means
      hands the win to the other side. */
  lemma WinnerSwap(metric: Metric, x: real, y: real)
    requires x != y
    ensures Winner(metric, y, x) == Other(Winner(metric, x, y))
  {
  }

  /** Lower-is-better and higher-is-better metrics name opposite winners on the same
      two different means. */
  lemma WinnerDirections(x: real, y: real)
    requires x != y
    ensures Winner(Latencies, x, y) == Other(Winner(Throughputs, x, y))
  {
  }

  // ---------------------------------------------------------------------------
  // The report scripts' rule

  const OrchestratedTitle := "Orchestrated"
  const ChoreographedTitle := "Choreographed"

  /** The report scripts name 'Orchestrated' only when it is strictly better (lower
      when lower is better, higher otherwise); equal values go to 'Choreographed'. */
  function TitledWinner(lowerIsBetter: bool, o: real, c: real): (w: string)
    ensures w == OrchestratedTitle || w == ChoreographedTitle
    ensures w == OrchestratedTitle <==> (if lowerIsBetter then o < c else o > c)
  {
    if (if lowerIsBetter then o < c else o > c) then OrchestratedTitle else ChoreographedTitle
  }

  /** Exchanging two different values hands the title to the other variant. */
  lemma TitledWinnerSwap(lowerIsBetter: bool, x: real, y: real)
    requires x != y
    ensures TitledWinner(lowerIsBetter, y, x) != TitledWinner(lowerIsBetter, x, y)
  {
  }

  /** `(loser - winner) / loser * 100` when lower is better and `(winner - loser) /
      loser * 100` otherwise, the loser being the side `TitledWinner` does not name;
      plain Python division, so a zero loser raises. Positive values give a
      non-negative figure, below 100 when lower is better. */
  function LoserGap(lowerIsBetter: bool, o: real, c: real): (r: Outcome<real>)
    ensures var orchWins := TitledWinner(lowerIsBetter, o, c) == OrchestratedTitle;
            var loser := if orchWins then c else o;
            var winner := if orchWins then o else c;
            (r.Raises? <==> loser == 0.0) && (r.Raises? ==> r.exception == DivisionByZero) &&
            (r.Value? ==> r.get * loser == (if lowerIsBetter then loser - winner else winner - loser) * 100.0) &&
            (loser > 0.0 ==> r.Value? && r.get >= 0.0)
    ensures lowerIsBetter && o > 0.0 && c > 0.0 ==> r.Value? && 0.0 <= r.get < 100.0
    ensures o == c && o != 0.0 ==> r == Value(0.0)
  {
    var orchWins := if lowerIsBetter then o < c else o > c;
    var loser := if orchWins then c else o;
    var winner := if orchWins then o else c;
    var gap := if lowerIsBetter then loser - winner else winner - loser;
    if loser == 0.0 then Raises(DivisionByZero)
    else
      GapFacts(gap, loser);
      Value(gap / loser * 100.0)
  }
}
