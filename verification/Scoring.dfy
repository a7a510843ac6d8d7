/**
 The counter-AI detector's scores (`_score_timing`, `_score_lexical_purity`, `_combine_signals` in
 plenith/counter_ai.py), over exact reals. The square root is a parameter: any function that
 returns the non-negative root.
 */
module Scoring {
  import opened Numbers

  ghost predicate IsSqrt(sqrt: real -> real) {
    forall x :: x >= 0.0 ==> sqrt(x) >= 0.0 && sqrt(x) * sqrt(x) == x
  }

  function Max(a: real, b: real): real {
    if a >= b then a else b
  }

  function Min(a: real, b: real): real {
    if a <= b then a else b
  }

  function Clamp(x: real): real {
    Max(0.0, Min(1.0, x))
  }

  /** Inter-arrival times; zero and negative ones count as a millisecond. */
  function Gaps(timestamps: seq<real>): (gaps: seq<real>)
    requires timestamps != []
    ensures |gaps| == |timestamps| - 1 && AllPositive(gaps)
  {
    seq(|timestamps| - 1, i requires 0 <= i < |timestamps| - 1 => Max(timestamps[i + 1] - timestamps[i], 0.001))
  }

  function Square(x: real): (r: real)
    ensures r >= 0.0
  {
    x * x
  }

  /** The sum of squared distances from `m`. */
  function Deviation(v: seq<real>, m: real): (t: real)
    ensures t >= 0.0
  {
    if v == [] then 0.0 else Deviation(v[..|v| - 1], m) + Square(v[|v| - 1] - m)
  }

  function Quotient(a: real, n: real): (q: real)
    requires n > 0.0
    ensures q * n == a
    ensures (a >= 0.0 ==> q >= 0.0) && (a > 0.0 ==> q > 0.0)
  {
    a / n
  }

  function Mean(v: seq<real>): real
    requires v != []
  {
    Quotient(Total(v), |v| as real)
  }

  function Variance(v: seq<real>): real
    requires v != []
  {
    Quotient(Deviation(v, Mean(v)), |v| as real)
  }

  /** The score of a coefficient of variation. */
  function ScoreVariation(cv: real): (score: real)
    ensures 0.0 <= score <= 1.0
    ensures score == 0.0 <==> cv <= 0.5
    ensures score == 1.0 <==> cv >= 1.5
  {
    if cv < 0.5 then 0.0 else if cv > 1.5 then 1.0 else cv - 0.5
  }

  /** The mean and the variance as unknowns of two equations. */
  lemma Moments(v: seq<real>, n: real)
    requires v != [] && AllPositive(v) && n == |v| as real
    ensures Mean(v) > 0.0 && Variance(v) >= 0.0
    ensures Mean(v) * n == Total(v) && Variance(v) * n == Deviation(v, Mean(v))
  {
    hide Total, Deviation, Quotient;
  }

  /** The mean of positive gaps is positive, so the source's guard against dividing by zero never
      fires. */
  function ScoreTiming(timestamps: seq<real>, sqrt: real -> real): (score: real)
    ensures 0.0 <= score <= 1.0
  {
    if |timestamps| < 4 then 0.0
    else
      var gaps := Gaps(timestamps);
      Moments(gaps, |gaps| as real);
      ScoreVariation(sqrt(Variance(gaps)) / Mean(gaps))
  }

  /** The sum of squared distances, piece by piece. */
  lemma {:induction false} DeviationConcat(a: seq<real>, b: seq<real>, m: real)
    ensures Deviation(a + b, m) == Deviation(a, m) + Deviation(b, m)
  {
    if b == [] {
      assert a + b == a;
    } else {
      DeviationConcat(a, b[..|b| - 1], m);
      assert (a + b)[..|a + b| - 1] == a + b[..|b| - 1];
    }
  }

  lemma DeviationOne(x: real, m: real)
    ensures Deviation([x], m) == (x - m) * (x - m)
  {
    assert [x][..0] == [];
  }

  /** What the score is made of: the gaps of at least a millisecond between neighbours, their mean,
      and the root of their mean squared distance from it. */
  lemma TimingDefined(timestamps: seq<real>, sqrt: real -> real, i: nat)
    requires |timestamps| >= 4 && i < |timestamps| - 1
    ensures var g := Gaps(timestamps); var n := |g| as real;
      && |g| == |timestamps| - 1
      && (timestamps[i + 1] - timestamps[i] >= 0.001 ==> g[i] == timestamps[i + 1] - timestamps[i])
      && (timestamps[i + 1] - timestamps[i] < 0.001 ==> g[i] == 0.001)
      && Mean(g) > 0.0 && Mean(g) * n == Total(g) && Variance(g) * n == Deviation(g, Mean(g))
      && var cv := sqrt(Variance(g)) / Mean(g);
        && (0.5 <= cv <= 1.5 ==> ScoreTiming(timestamps, sqrt) == cv - 0.5)
        && (cv < 0.5 ==> ScoreTiming(timestamps, sqrt) == 0.0)
        && (cv > 1.5 ==> ScoreTiming(timestamps, sqrt) == 1.0)
  {
    hide Mean, Variance, Total, Deviation;
    Moments(Gaps(timestamps), |Gaps(timestamps)| as real);
  }

  // ---- The coefficient of variation ------------------------------------------------------------

  function Line(k: real, x: real, q: real): real {
    k * x + q
  }

  ghost function Lines(v: seq<real>, k: real, q: real): real {
    if v == [] then 0.0 else Lines(v[..|v| - 1], k, q) + Line(k, v[|v| - 1], q)
  }

  lemma LineStep(k: real, q: real, t: real, n: real, x: real)
    ensures Line(k, t, q * n) + Line(k, x, q) == Line(k, t + x, q * (n + 1.0))
  {}

  lemma {:induction false} LinesSum(v: seq<real>, k: real, q: real, t: real, n: real)
    requires t == Total(v) && n == |v| as real
    ensures Lines(v, k, q) == Line(k, t, q * n)
  {
    if v == [] {
    } else {
      LinesSum(v[..|v| - 1], k, q, t - v[|v| - 1], n - 1.0);
      LineStep(k, q, t - v[|v| - 1], n - 1.0, v[|v| - 1]);
    }
  }

  ghost predicate UnderLine(v: seq<real>, m: real, k: real, q: real) {
    forall i :: 0 <= i < |v| ==> Square(v[i] - m) <= Line(k, v[i], q)
  }

  lemma {:induction false} DeviationUnderLine(v: seq<real>, m: real, k: real, q: real)
    requires UnderLine(v, m, k, q)
    ensures Deviation(v, m) <= Lines(v, k, q)
  {
    if v == [] {
    } else {
      DeviationUnderLine(v[..|v| - 1], m, k, q);
      assert Square(v[|v| - 1] - m) <= Line(k, v[|v| - 1], q);
    }
  }

  lemma {:induction false} ElementBelowTotal(v: seq<real>, i: nat)
    requires i < |v| && AllPositive(v)
    ensures v[i] <= Total(v)
  {
    if i < |v| - 1 {
      ElementBelowTotal(v[..|v| - 1], i);
    }
  }

  lemma SquareUnderLine(x: real, m: real, t: real)
    requires 0.0 < x <= t
    ensures Square(x - m) <= Line(t - 2.0 * m, x, m * m)
  {
    assert x * x <= t * x;
  }

  lemma PositiveUnderLine(v: seq<real>, m: real, t: real, k: real, q: real)
    requires AllPositive(v) && t == Total(v) && k == t - 2.0 * m && q == m * m
    ensures UnderLine(v, m, k, q)
  {
    forall i | 0 <= i < |v| ensures Square(v[i] - m) <= Line(k, v[i], q) {
      ElementBelowTotal(v, i);
      SquareUnderLine(v[i], m, t);
    }
  }

  lemma DeviationBound(v: seq<real>, m: real, t: real, n: real, k: real, q: real)
    requires AllPositive(v) && t == Total(v) && n == |v| as real && k == t - 2.0 * m && q == m * m
    ensures Deviation(v, m) <= Line(k, t, q * n)
  {
    PositiveUnderLine(v, m, t, k, q);
    DeviationUnderLine(v, m, k, q);
    LinesSum(v, k, q, t, n);
  }

  lemma VariationAlgebra(n: real, m: real, w: real, t: real, d: real, k: real, q: real)
    requires n >= 1.0 && m * n == t && w * n == d && k == t - 2.0 * m && q == m * m && d <= Line(k, t, q * n)
    ensures w <= (n - 1.0) * q
  {
    assert t * t == (n * q) * n;
    assert 2.0 * m * t == (2.0 * q) * n;
    assert w * n <= ((n - 1.0) * q) * n;
    ScaleOrder(w, (n - 1.0) * q, n);
  }

  lemma MomentsBound(v: seq<real>, n: real, m: real, w: real, t: real, d: real, k: real, q: real)
    requires v != [] && AllPositive(v) && n == |v| as real && t == Total(v) && d == Deviation(v, m)
    requires m * n == t && w * n == d && k == t - 2.0 * m && q == m * m
    ensures w <= (n - 1.0) * q
  {
    hide *;
    DeviationBound(v, m, t, n, k, q);
    VariationAlgebra(n, m, w, t, d, k, q);
  }

  /** For n positive gaps the squared coefficient of variation is at most n - 1. */
  lemma VariationBound(v: seq<real>, n: real)
    requires v != [] && AllPositive(v) && n == |v| as real
    ensures Variance(v) <= (n - 1.0) * (Mean(v) * Mean(v))
  {
    hide *;
    var m, t := Mean(v), Total(v);
    Moments(v, n);
    MomentsBound(v, n, m, Variance(v), t, Deviation(v, m), t - 2.0 * m, m * m);
  }

  lemma SquareOrder(a: real, b: real)
    requires a >= 0.0 && b > 0.0
    ensures a >= b <==> a * a >= b * b
  {
    if a < b {
      SquareStep(a, b);
    } else if b < a {
      SquareStep(b, a);
    }
  }

  lemma SquareStep(a: real, b: real)
    requires 0.0 <= a < b
    ensures a * a < b * b
  {
    var p, q, r := a * a, a * b, b * b;
    assert p <= q;
    ProductPositive(b - a, b);
    assert (b - a) * b == r - q;
    assert q < r;
  }

  lemma SquareOfProduct(k: real, m: real)
    ensures (k * m) * (k * m) == k * k * (m * m)
  {}

  lemma QuotientOrder(root: real, m: real, k: real)
    requires m > 0.0
    ensures root / m >= k <==> root >= k * m
    ensures root / m <= k <==> root <= k * m
  {
    ScaleOrder(root / m, k, m);
    ScaleOrder(k, root / m, m);
  }

  /** Comparing a ratio of a root is comparing squares. */
  lemma RatioBySquares(root: real, w: real, m: real, k: real)
    requires root >= 0.0 && root * root == w && m > 0.0 && k > 0.0
    ensures root / m >= k <==> w >= k * k * (m * m)
    ensures root / m <= k <==> w <= k * k * (m * m)
  {
    QuotientOrder(root, m, k);
    ProductPositive(k, m);
    SquareOrder(root, k * m);
    if root > 0.0 {
      SquareOrder(k * m, root);
    }
    SquareOfProduct(k, m);
  }

  /** The timing score without the root: where it is zero, and where it is full. */
  lemma TimingBySquares(timestamps: seq<real>, sqrt: real -> real, w: real, m: real)
    requires IsSqrt(sqrt) && |timestamps| >= 4
    requires w == Variance(Gaps(timestamps)) && m == Mean(Gaps(timestamps))
    ensures ScoreTiming(timestamps, sqrt) == 1.0 <==> w >= 2.25 * (m * m)
    ensures ScoreTiming(timestamps, sqrt) == 0.0 <==> w <= 0.25 * (m * m)
  {
    hide Total, Deviation, Quotient, Mean, Variance, Gaps;
    Moments(Gaps(timestamps), (|timestamps| - 1) as real);
    RatioBySquares(sqrt(w), w, m, 0.5);
    RatioBySquares(sqrt(w), w, m, 1.5);
  }

  lemma {:induction false} ConstantTotals(v: seq<real>, c: real, n: real)
    requires n == |v| as real && forall i :: 0 <= i < |v| ==> v[i] == c
    ensures Total(v) == Line(n, c, 0.0) && Deviation(v, c) == 0.0
  {
    if v == [] {
    } else {
      hide Line;
      ConstantTotals(v[..|v| - 1], c, n - 1.0);
      LineGrows(n, c);
    }
  }

  lemma LineGrows(n: real, c: real)
    ensures Line(n - 1.0, c, 0.0) + c == Line(n, c, 0.0) && Square(c - c) == 0.0
  {}

  lemma ConstantMean(v: seq<real>, c: real, n: real)
    requires v != [] && n == |v| as real && c > 0.0 && forall i :: 0 <= i < |v| ==> v[i] == c
    ensures Mean(v) == c && Variance(v) == 0.0
  {
    hide Total, Deviation, Quotient, Mean, Variance, Line;
    NoSlope(n);
    ConstantTotals(v, c, n);
    Moments(v, n);
    MeanUnique(n, Mean(v), c, Total(v));
    MeanUnique(n, Variance(v), 0.0, Deviation(v, Mean(v)));
  }

  lemma NoSlope(n: real)
    ensures Line(n, 0.0, 0.0) == 0.0
  {}

  lemma MeanUnique(n: real, m: real, c: real, t: real)
    requires n > 0.0 && m * n == t && t == Line(n, c, 0.0)
    ensures m == c
  {}

  /** A steady rhythm scores nothing. */
  lemma SteadyScoresZero(timestamps: seq<real>, gap: real, sqrt: real -> real)
    requires IsSqrt(sqrt) && timestamps != []
    requires forall i :: 0 <= i < |timestamps| - 1 ==> Gaps(timestamps)[i] == gap
    ensures ScoreTiming(timestamps, sqrt) == 0.0
  {
    if |timestamps| >= 4 {
      var g := Gaps(timestamps);
      assert g[0] == gap;
      ConstantMean(g, gap, |g| as real);
      TimingBySquares(timestamps, sqrt, 0.0, gap);
      ProductPositive(gap, gap);
    }
  }

  /** Four timestamps leave three gaps, and three gaps cannot vary enough. */
  lemma FourStampsBound(timestamps: seq<real>, sqrt: real -> real)
    requires IsSqrt(sqrt) && |timestamps| == 4
    ensures ScoreTiming(timestamps, sqrt) <= sqrt(2.0) - 0.5 < 0.92
  {
    hide Mean, Variance, Gaps;
    RootOfTwo(sqrt(2.0));
    ThreeGapsVary(Gaps(timestamps), sqrt);
  }

  lemma RootOfTwo(root: real)
    requires root >= 0.0 && root * root == 2.0
    ensures 1.4 < root < 1.42
  {
    SquareOrder(root, 1.42);
    SquareOrder(1.4, root);
  }

  lemma ThreeGapsVary(g: seq<real>, sqrt: real -> real)
    requires IsSqrt(sqrt) && |g| == 3 && AllPositive(g)
    ensures Mean(g) > 0.0 && sqrt(Variance(g)) / Mean(g) <= sqrt(2.0)
  {
    hide Total, Deviation, Quotient, Mean, Variance;
    var m, w, t := Mean(g), Variance(g), Total(g);
    Moments(g, 3.0);
    ThreeMoments(g, m, w, t, Deviation(g, m), t - 2.0 * m, m * m, sqrt(w), sqrt(2.0));
  }

  lemma ThreeMoments(g: seq<real>, m: real, w: real, t: real, d: real, k: real, q: real, root: real, two: real)
    requires |g| == 3 && AllPositive(g) && t == Total(g) && d == Deviation(g, m)
    requires m > 0.0 && m * 3.0 == t && w * 3.0 == d && k == t - 2.0 * m && q == m * m
    requires root >= 0.0 && root * root == w && two >= 0.0 && two * two == 2.0
    ensures root / m <= two
  {
    hide *;
    MomentsBound(g, 3.0, m, w, t, d, k, q);
    PositiveSquare(m, q);
    RootOfTwo(two);
    ThreeGaps(root, w, m, q, two);
  }

  lemma PositiveSquare(m: real, q: real)
    requires m > 0.0 && q == m * m
    ensures q > 0.0
  {
    SignOfProduct(m, m, q);
  }

  lemma SignOfProduct(a: real, b: real, p: real)
    requires a > 0.0 && b > 0.0 && p == a * b
    ensures p > 0.0
  {
    ProductPositive(a, b);
  }

  lemma ThreeGaps(root: real, w: real, m: real, q: real, two: real)
    requires root >= 0.0 && root * root == w && m > 0.0 && q == m * m && w <= (3.0 - 1.0) * q
    requires two > 0.0 && two * two == 2.0
    ensures root / m <= two
  {
    RatioBySquares(root, w, m, two);
  }

  /** The full score takes at least five timestamps, and five can reach it. */
  lemma FullScoreNeedsFive(timestamps: seq<real>, sqrt: real -> real)
    requires IsSqrt(sqrt)
    ensures ScoreTiming(timestamps, sqrt) == 1.0 ==> |timestamps| >= 5
    ensures ScoreTiming([0.0, 0.0, 0.0, 0.0, 15.0], sqrt) == 1.0
  {
    if |timestamps| == 4 {
      FourStampsBound(timestamps, sqrt);
    }
    BurstScoresFull(sqrt);
  }

  lemma BurstScoresFull(sqrt: real -> real)
    requires IsSqrt(sqrt)
    ensures ScoreTiming([0.0, 0.0, 0.0, 0.0, 15.0], sqrt) == 1.0
  {
    var burst := [0.0, 0.0, 0.0, 0.0, 15.0];
    var g := Gaps(burst);
    assert g == [0.001, 0.001, 0.001, 15.0];
    BurstMoments(g);
    TimingBySquares(burst, sqrt, Variance(g), 3.75075);
  }

  /** Four timestamps that come close to the bound. */
  lemma BurstOfFour(sqrt: real -> real)
    requires IsSqrt(sqrt)
    ensures ScoreTiming([0.0, 0.0, 0.0, 15.001], sqrt) >= 0.9
  {
    hide Mean, Variance, Total, Deviation;
    var burst := [0.0, 0.0, 0.0, 15.001];
    var g := Gaps(burst);
    assert g == [0.001, 0.001, 15.001];
    BurstOfFourMoments(g);
    RatioBySquares(sqrt(50.0), 50.0, 5.001, 1.4);
  }

  lemma BurstOfFourMoments(g: seq<real>)
    requires g == [0.001, 0.001, 15.001]
    ensures Mean(g) == 5.001 && Variance(g) == 50.0
  {
    hide Deviation;
    assert g[..2] == [0.001, 0.001];
    ConstantTotals(g[..2], 0.001, 2.0);
    assert Total(g) == 15.003;
    DeviationThree(g, 5.001);
  }

  lemma DeviationThree(v: seq<real>, m: real)
    requires |v| == 3
    ensures Deviation(v, m) == Square(v[0] - m) + Square(v[1] - m) + Square(v[2] - m)
  {
    var a := v[..2];
    var b := a[..1];
    assert Deviation(b, m) == Square(v[0] - m);
    assert Deviation(a, m) == Deviation(b, m) + Square(v[1] - m);
  }

  lemma BurstMoments(g: seq<real>)
    requires g == [0.001, 0.001, 0.001, 15.0]
    ensures Mean(g) == 3.75075 && Variance(g) >= 40.0
  {
    assert g[..3] == [0.001, 0.001, 0.001];
    ConstantTotals(g[..3], 0.001, 3.0);
    assert Total(g) == 15.003;
    DeviationFour(g, 3.75075);
  }

  lemma DeviationFour(v: seq<real>, m: real)
    requires |v| == 4
    ensures Deviation(v, m) == Square(v[0] - m) + Square(v[1] - m) + Square(v[2] - m) + Square(v[3] - m)
  {
    var a := v[..3];
    var b := a[..2];
    var c := b[..1];
    assert Deviation(c, m) == Square(v[0] - m);
    assert Deviation(b, m) == Deviation(c, m) + Square(v[1] - m);
    assert Deviation(a, m) == Deviation(b, m) + Square(v[2] - m);
  }

  // ---- Lexical purity and the weighted sum -----------------------------------------------------

  /** What the patterns found in one command: full-spelled flags, an absolute path, a shortcut, and
      whether it is longer than twenty characters. */
  function LexicalPurity(flags: nat, fullPath: bool, shortcut: bool, long: bool): (score: real)
    ensures 0.0 <= score <= 0.9
    ensures score == 0.9 <==> flags >= 2 && fullPath && !shortcut && long
  {
    var s := if flags > 0 then Min(0.25 * flags as real, 0.5) else 0.0;
    var t := if fullPath then s + 0.3 else s;
    var u := if shortcut then t - 0.4 else t;
    Clamp(if long && !shortcut then u + 0.1 else u)
  }

  function CombineSignals(timing: real, lexAvg: real, injections: nat, n: nat): real {
    var inj := Min(1.0, injections as real / 2.0) * 0.85;
    var timingWeight := if n >= 4 then 0.3 else 0.0;
    var lexWeight := if n >= 3 then 0.3 else 0.0;
    Clamp(timingWeight * timing + lexWeight * lexAvg + 0.4 * inj)
  }

  /** More of any signal never lowers the confidence, and two probes count as much as any number. */
  lemma CombineMonotone(t: real, t': real, l: real, l': real, i: nat, i': nat, n: nat, n': nat)
    requires 0.0 <= t <= t' && 0.0 <= l <= l' && i <= i' && n <= n'
    ensures CombineSignals(t, l, i, n) <= CombineSignals(t', l', i', n')
    ensures i >= 2 ==> CombineSignals(t, l, i, n) == CombineSignals(t, l, 2, n)
  {
    var inj, inj' := Min(1.0, i as real / 2.0) * 0.85, Min(1.0, i' as real / 2.0) * 0.85;
    assert inj <= inj';
  }

  /** The weighted sum: timing counts from four commands, purity from three, and two probes are as
      good as any number. */
  function Weighted(timing: real, lexAvg: real, injections: nat, n: nat): real {
    (if n >= 4 then 0.3 * timing else 0.0) + (if n >= 3 then 0.3 * lexAvg else 0.0)
    + (if injections == 0 then 0.0 else if injections == 1 then 0.17 else 0.34)
  }

  /** The clamps of the combination never bite: it is the weighted sum. */
  lemma NoClamp(timing: real, lexAvg: real, injections: nat, n: nat)
    requires 0.0 <= timing <= 1.0 && 0.0 <= lexAvg <= 0.9
    ensures CombineSignals(timing, lexAvg, injections, n) == Weighted(timing, lexAvg, injections, n)
  {
    assert injections >= 2 ==> injections as real / 2.0 >= 1.0;
  }

  /** What each finding is worth in a command's purity: a quarter for each of two flags, 0.3 for a
      full path and 0.1 for length. A shortcut costs 0.4 and the bonus for length, and nothing goes
      below zero. */
  lemma PurityFindings(flags: nat, fullPath: bool, long: bool)
    ensures LexicalPurity(0, false, false, false) == 0.0
    ensures LexicalPurity(flags + 1, fullPath, false, long) ==
      LexicalPurity(flags, fullPath, false, long) + if flags < 2 then 0.25 else 0.0
    ensures LexicalPurity(flags, true, false, long) == LexicalPurity(flags, false, false, long) + 0.3
    ensures LexicalPurity(flags, fullPath, false, true) == LexicalPurity(flags, fullPath, false, false) + 0.1
    ensures LexicalPurity(flags, fullPath, true, long) ==
      Max(0.0, LexicalPurity(flags, fullPath, false, false) - 0.4)
  {
    assert flags >= 2 ==> 0.25 * flags as real >= 0.5;
  }

  const LIKELY := 0.55
  const ARM := 0.7

  /** Enough commands and probes to be judged an LLM. */
  predicate EnoughForLikely(n: nat, probes: nat) {
    (n >= 3 && probes >= 2) || (n >= 4 && probes >= 1) || n >= 5
  }

  /** Enough commands and probes to arm the trap. */
  predicate EnoughForArm(n: nat, probes: nat) {
    n >= 4 && probes >= 1
  }

  /** What reaching each threshold takes: to be judged an LLM, three commands and two probes, four
      and one, or five; to arm the trap, four commands and a probe. */
  lemma ThresholdsCost(timing: real, lexAvg: real, injections: nat, n: nat)
    requires 0.0 <= timing <= 1.0 && 0.0 <= lexAvg <= 0.9 && (n == 4 ==> timing < 0.92)
    ensures var c := CombineSignals(timing, lexAvg, injections, n);
      && 0.0 <= c <= 0.91
      && (c >= LIKELY ==> EnoughForLikely(n, injections))
      && (c >= ARM ==> EnoughForArm(n, injections))
  {
    var inj := Min(1.0, injections as real / 2.0) * 0.85;
    assert 0.0 <= inj <= 0.85;
  }
}
