/** Fairness as the coefficient of variation of per-thread counts: variance_tracker
    (common/variance_tracker.cpp) and the end of run_contention_window (include/bench_harness.hpp).

    Arithmetic is over the reals, with std::sqrt as any function that meets IsSqrt. */
module Fairness {
  import opened Tally

  function Square(n: nat): int { n * n }

  function Total(xs: seq<nat>): int {
    Sum(xs, Each)
  }

  function Squares(xs: seq<nat>): int {
    Sum(xs, Square)
  }

  lemma TotalNonNegative(xs: seq<nat>)
    ensures 0 <= Total(xs)
  {
    SumNonNegative(xs, Each);
  }

  /** n * (sum of squares) / (square of the sum) - 1, and 0 where nothing was counted. */
  function CvSquared(xs: seq<nat>): real {
    if Total(xs) == 0 then 0.0
    else (|xs| * Squares(xs)) as real / (Total(xs) * Total(xs)) as real - 1.0
  }

  /** `cv` is the coefficient of variation itself. */
  predicate IsCv(xs: seq<nat>, cv: real) {
    0.0 <= cv && cv * cv == CvSquared(xs)
  }

  /** A square root. */
  ghost predicate IsSqrt(sqrt: real -> real) {
    forall x | 0.0 <= x :: 0.0 <= sqrt(x) && sqrt(x) * sqrt(x) == x
  }

  // ----- bounds -----

  /** The sum of (x - y)^2 over the sequence. */
  function Spread(xs: seq<nat>, y: int): int {
    if xs == [] then 0 else Spread(xs[..|xs| - 1], y) + (xs[|xs| - 1] - y) * (xs[|xs| - 1] - y)
  }

  lemma {:induction false} SpreadExpands(xs: seq<nat>, y: int)
    ensures Spread(xs, y) == Squares(xs) - 2 * y * Total(xs) + |xs| * y * y
  {
    if xs != [] {
      var m := |xs| - 1;
      SpreadExpands(xs[..m], y);
      assert (m + 1) * y * y == m * y * y + y * y;
    }
  }

  lemma {:induction false} SpreadSign(xs: seq<nat>, y: int)
    ensures 0 <= Spread(xs, y)
    ensures Spread(xs, y) == 0 <==> forall i | 0 <= i < |xs| :: xs[i] == y
  {
    if xs != [] {
      var m := |xs| - 1;
      var d := xs[m] - y;
      SpreadSign(xs[..m], y);
      assert 0 <= d * d && (d * d == 0 <==> d == 0);
      assert forall i | 0 <= i < m :: xs[..m][i] == xs[i];
    }
  }

  predicate AllEqual(xs: seq<nat>) {
    forall i, j | 0 <= i < j < |xs| :: xs[i] == xs[j]
  }

  /** At most one count is positive. */
  predicate OneDidAll(xs: seq<nat>) {
    forall i, j | 0 <= i < j < |xs| :: xs[i] == 0 || xs[j] == 0
  }

  /** What one more count adds to both sides of the inequality below. */
  lemma CauchyStep(r: seq<nat>, x: nat)
    ensures (|r| + 1) * (Squares(r) + x * x) - (Total(r) + x) * (Total(r) + x)
            == |r| * Squares(r) - Total(r) * Total(r) + Spread(r, x)
  {
    SpreadExpands(r, x);
    CauchyExpands(|r|, Total(r), Squares(r), x);
  }

  lemma CauchyExpands(m: int, s: int, q: int, x: int)
    ensures (m + 1) * (q + x * x) - (s + x) * (s + x) == m * q - s * s + (q - 2 * x * s + m * x * x)
  {
    assert (s + x) * (s + x) == s * s + 2 * x * s + x * x;
    var y := x * x;
    assert (m + 1) * (q + y) == m * q + q + m * y + y;
    assert m * y == m * x * x;
  }

  lemma AllEqualStep(r: seq<nat>, x: nat)
    ensures AllEqual(r + [x]) <==> AllEqual(r) && forall i | 0 <= i < |r| :: r[i] == x
  {
    var xs := r + [x];
    assert forall i | 0 <= i < |r| :: r[i] == xs[i];
    assert xs[|r|] == x;
  }

  /** The inequality of Cauchy and Schwarz with its case of equality. */
  lemma {:induction false} Cauchy(xs: seq<nat>)
    ensures Total(xs) * Total(xs) <= |xs| * Squares(xs)
    ensures Total(xs) * Total(xs) == |xs| * Squares(xs) <==> AllEqual(xs)
  {
    if xs != [] {
      var m := |xs| - 1;
      var (r, x) := (xs[..m], xs[m]);
      Cauchy(r);
      CauchyStep(r, x);
      SpreadSign(r, x);
      AllEqualStep(r, x);
      assert xs == r + [x];
    }
  }

  /** The sum of squares is at most the square of the sum, with its case of equality. */
  lemma {:induction false} SquaresBelow(xs: seq<nat>)
    ensures Squares(xs) <= Total(xs) * Total(xs)
    ensures Squares(xs) == Total(xs) * Total(xs) <==> OneDidAll(xs)
  {
    if xs != [] {
      var m := |xs| - 1;
      var (r, x) := (xs[..m], xs[m]);
      SquaresBelow(r);
      TotalNonNegative(r);
      var s := Total(r);
      assert (s + x) * (s + x) == s * s + 2 * (x * s) + x * x;
      assert 0 <= x * s && (x * s == 0 <==> x == 0 || s == 0);
      ZeroTotal(r);
      assert forall i | 0 <= i < m :: r[i] == xs[i];
    }
  }

  lemma {:induction false} ZeroTotal(xs: seq<nat>)
    ensures Total(xs) == 0 <==> forall i | 0 <= i < |xs| :: xs[i] == 0
  {
    if xs != [] {
      var m := |xs| - 1;
      ZeroTotal(xs[..m]);
      TotalNonNegative(xs[..m]);
      assert forall i | 0 <= i < m :: xs[..m][i] == xs[i];
    }
  }

  /** Where something was counted, the squared coefficient of variation lies between 0, exactly when all
      counts are equal, and n - 1, exactly when one thread did everything. */
  lemma CvBounds(xs: seq<nat>)
    requires 0 < Total(xs)
    ensures 0.0 <= CvSquared(xs) <= |xs| as real - 1.0
    ensures CvSquared(xs) == 0.0 <==> AllEqual(xs)
    ensures CvSquared(xs) == |xs| as real - 1.0 <==> OneDidAll(xs)
  {
    Cauchy(xs);
    SquaresBelow(xs);
    QuotientBounds(|xs|, Squares(xs), Total(xs) * Total(xs), |xs| * Squares(xs));
  }

  lemma QuotientBounds(n: nat, q: int, s2: int, nq: int)
    requires 0 < n && 0 < s2 && nq == n * q
    requires s2 <= nq && q <= s2
    ensures 1.0 <= nq as real / s2 as real <= n as real
    ensures nq as real / s2 as real == 1.0 <==> nq == s2
    ensures nq as real / s2 as real == n as real <==> q == s2
  {
    Quotient(nq, s2, 1);
    Quotient(nq, s2, n);
    ScaledOrder(n, q, s2);
  }

  lemma ScaledOrder(n: nat, q: int, t: int)
    requires 0 < n && q <= t
    ensures n * q <= n * t && (n * q == n * t <==> q == t)
  {
    var d := t - q;
    assert n * t == n * q + n * d;
    assert 0 <= n * d && (0 < d ==> 0 < n * d);
  }

  lemma RootIsZero(r: real, square: real)
    requires 0.0 <= r && r * r == square
    ensures square == 0.0 <==> r == 0.0
  {
    if r == 0.0 {
      assert square == 0.0 * r;
    } else {
      assert square / r == r;
      assert 0.0 / r == 0.0;
    }
  }

  /** Perfect fairness, with or without operations: the coefficient is 0 exactly when all counts are equal. */
  lemma ZeroIffAllEqual(xs: seq<nat>, cv: real)
    requires IsCv(xs, cv)
    ensures cv == 0.0 <==> AllEqual(xs)
  {
    TotalNonNegative(xs);
    ZeroTotal(xs);
    if 0 < Total(xs) {
      CvBounds(xs);
    }
    assert CvSquared(xs) == 0.0 <==> AllEqual(xs);
    RootIsZero(cv, cv * cv);
  }

  /** Comparing a quotient with a whole number. */
  lemma Quotient(a: int, b: int, k: int)
    requires 0 < b
    ensures a as real / b as real <= k as real <==> a <= k * b
    ensures a as real / b as real == k as real <==> a == k * b
  {
    var r := a as real / b as real;
    assert r * b as real == a as real;
    assert (k * b) as real == k as real * b as real;
  }

  // ----- the two programs -----

  /** The sum of (x - mean)^2, as the second loop of both programs computes it. */
  function Deviations(xs: seq<nat>, mean: real): real {
    if xs == [] then 0.0
    else var d := xs[|xs| - 1] as real - mean; Deviations(xs[..|xs| - 1], mean) + d * d
  }

  lemma {:induction false} DeviationsExpand(xs: seq<nat>, m: real)
    ensures Deviations(xs, m) == Squares(xs) as real - 2.0 * m * Total(xs) as real + |xs| as real * m * m
  {
    if xs != [] {
      var k := |xs| - 1;
      var x := xs[k] as real;
      DeviationsExpand(xs[..k], m);
      assert (x - m) * (x - m) == x * x - 2.0 * m * x + m * m;
      assert |xs| as real * m * m == k as real * m * m + m * m;
      assert 2.0 * m * Total(xs) as real == 2.0 * m * Total(xs[..k]) as real + 2.0 * m * x;
    }
  }

  lemma ProductAsReal(a: int, b: int)
    ensures (a * b) as real == a as real * b as real
  {}

  lemma DivIs(a: real, b: real, c: real)
    requires b != 0.0 && c * b == a
    ensures a / b == c
  {}

  lemma DivTimes(a: real, b: real, c: real)
    requires b != 0.0 && c == a / b
    ensures b * c == a
  {}

  /** variance / mean^2 in terms of the sums; `c` is the quotient n * q / s^2. */
  lemma RatioOfSums(n: real, q: real, s: real, m: real, c: real, top: real)
    requires 0.0 < n && 0.0 < s && n * m == s && c * (s * s) == n * q
    requires top == q - 2.0 * m * s + n * m * m
    ensures 0.0 < m * m && top / n / (m * m) == c - 1.0
  {
    var mm := m * m;
    assert 0.0 < m;
    assert c * m * s == q by {
      assert (c * m * s) * n == c * (s * (n * m)) == q * n;
    }
    assert n * m * m == s * m;
    assert top == (c - 1.0) * (s * m);
    assert mm * n == s * m;
    assert (c - 1.0) * mm * n == (c - 1.0) * (mm * n);
    DivIs(top, n, (c - 1.0) * mm);
    DivIs(top / n, mm, c - 1.0);
  }

  lemma {:induction false} DeviationsNonNegative(xs: seq<nat>, m: real)
    ensures 0.0 <= Deviations(xs, m)
  {
    if xs != [] {
      var d := xs[|xs| - 1] as real - m;
      DeviationsNonNegative(xs[..|xs| - 1], m);
      assert 0.0 <= d * d;
    }
  }

  method SumOfDeviations(counts: seq<nat>, mean: real) returns (variance: real)
    ensures variance == Deviations(counts, mean)
  {
    variance := 0.0;
    for i := 0 to |counts|
      invariant variance == Deviations(counts[..i], mean)
    {
      var deviation := counts[i] as real - mean;
      variance := variance + deviation * deviation;
      assert counts[..i + 1][..i] == counts[..i];
    }
    assert counts[..|counts|] == counts;
  }

  /** The quotient in CvSquared, multiplied out. */
  lemma CvTimes(xs: seq<nat>)
    requires 0 < Total(xs)
    ensures (CvSquared(xs) + 1.0) * (Total(xs) as real * Total(xs) as real) == |xs| as real * Squares(xs) as real
  {
    ProductAsReal(|xs|, Squares(xs));
    ProductAsReal(Total(xs), Total(xs));
    var (a, b) := ((|xs| * Squares(xs)) as real, (Total(xs) * Total(xs)) as real);
    assert b != 0.0;
    DivTimes(a, b, a / b);
  }

  lemma RatioFrom(n: real, q: real, s: real, mean: real, cvSquared: real, top: real)
    requires 0.0 < n && 0.0 < s && mean == s / n && (cvSquared + 1.0) * (s * s) == n * q
    requires top == q - 2.0 * mean * s + n * mean * mean
    ensures 0.0 < mean * mean && top / n / (mean * mean) == cvSquared
  {
    DivTimes(s, n, mean);
    RatioOfSums(n, q, s, mean, cvSquared + 1.0, top);
  }

  /** The variance of the second loop over the squared mean is what CvSquared says. */
  lemma RatioIsCvSquared(counts: seq<nat>, mean: real)
    requires counts != [] && 0 < Total(counts) && mean == Total(counts) as real / |counts| as real
    ensures 0.0 < mean * mean && Deviations(counts, mean) / |counts| as real / (mean * mean) == CvSquared(counts)
  {
    CvTimes(counts);
    DeviationsExpand(counts, mean);
    RatioFrom(|counts| as real, Squares(counts) as real, Total(counts) as real, mean, CvSquared(counts),
              Deviations(counts, mean));
  }

  /** Dividing a root by the mean divides the square by the square of the mean. */
  lemma RootOverMean(root: real, variance: real, mean: real, cv: real)
    requires 0.0 <= root && root * root == variance && 0.0 < mean && cv == root / mean
    ensures 0.0 <= cv && cv * cv == variance / (mean * mean)
  {
    DivTimes(root, mean, cv);
    var (mm, cc) := (mean * mean, cv * cv);
    assert cc * mm == (mean * cv) * (mean * cv);
    RootIsZero(mean, mm);
    DivIs(variance, mm, cc);
  }

  /** The second half of both programs, where something was counted. */
  method RelativeDeviation(counts: seq<nat>, mean: real, sqrt: real -> real) returns (cv: real)
    requires counts != [] && 0 < Total(counts) && mean == Total(counts) as real / |counts| as real
    requires IsSqrt(sqrt)
    ensures IsCv(counts, cv)
  {
    RatioIsCvSquared(counts, mean);
    var variance := SumOfDeviations(counts, mean);
    DeviationsNonNegative(counts, mean);
    variance := variance / |counts| as real;
    cv := sqrt(variance) / mean;
    RootOverMean(sqrt(variance), variance, mean, cv);
  }

  /** What run_contention_window does with the counts after the joins; ops has 64 bits. With no thread the mean
      is 0/0, the comparison with 0 is false and the result stays 0. */
  method WindowResult(counts: seq<nat>, sqrt: real -> real) returns (ops: nat, fairnessCv: real)
    requires IsSqrt(sqrt)
    ensures ops == Total(counts) % MODULUS && IsCv(counts, fairnessCv)
  {
    ops, fairnessCv := 0, 0.0;
    var mean := 0.0;
    for i := 0 to |counts|
      invariant ops == Total(counts[..i]) % MODULUS && mean == Total(counts[..i]) as real
    {
      Carry(Total(counts[..i]), counts[i]);
      ops, mean := (ops + counts[i]) % MODULUS, mean + counts[i] as real;
      assert counts[..i + 1][..i] == counts[..i];
    }
    assert counts[..|counts|] == counts;
    TotalNonNegative(counts);
    if |counts| != 0 && mean / |counts| as real > 0.0 {
      mean := mean / |counts| as real;
      fairnessCv := RelativeDeviation(counts, mean, sqrt);
    }
  }

  /** Both programs report the same number for the same counts: the coefficient is determined by them. */
  lemma SameCv(xs: seq<nat>, a: real, b: real)
    requires IsCv(xs, a) && IsCv(xs, b)
    ensures a == b
  {
    var (d, t) := (a - b, a + b);
    assert d * t == a * a - b * b;
    if t != 0.0 {
      DivIs(0.0, t, d);
      DivIs(0.0, t, 0.0);
    }
  }

  /** Per-thread operation counters. */
  class VarianceTracker {
    var threadCounts: array<nat>

    constructor (numThreads: nat)
      ensures fresh(threadCounts) && threadCounts[..] == seq(numThreads, _ => 0)
    {
      threadCounts := new nat[numThreads](_ => 0);
    }

    /** Counts one operation; an unknown thread id is ignored. */
    method RecordOperation(threadId: nat)
      modifies threadCounts
      ensures threadCounts[..] == if threadId < threadCounts.Length
                                  then old(threadCounts[..])[threadId := old(threadCounts[..])[threadId] + 1]
                                  else old(threadCounts[..])
    {
      if threadId < threadCounts.Length {
        threadCounts[threadId] := threadCounts[threadId] + 1;
      }
    }

    method GetCounts() returns (counts: seq<nat>)
      ensures counts == threadCounts[..]
    {
      counts := [];
      for i := 0 to threadCounts.Length
        invariant counts == threadCounts[..i]
      {
        counts := counts + [threadCounts[i]];
      }
    }

    method Reset()
      modifies threadCounts
      ensures forall i | 0 <= i < threadCounts.Length :: threadCounts[i] == 0
    {
      for i := 0 to threadCounts.Length
        invariant forall j | 0 <= j < i :: threadCounts[j] == 0
      {
        threadCounts[i] := 0;
      }
    }

    method CoefficientOfVariation(sqrt: real -> real) returns (cv: real)
      requires IsSqrt(sqrt)
      ensures IsCv(threadCounts[..], cv)
    {
      var counts := GetCounts();
      if counts == [] {
        return 0.0;
      }
      var mean := 0.0;
      for i := 0 to |counts|
        invariant mean == Total(counts[..i]) as real
      {
        mean := mean + counts[i] as real;
        assert counts[..i + 1][..i] == counts[..i];
      }
      assert counts[..|counts|] == counts;
      mean := mean / |counts| as real;
      TotalNonNegative(counts);
      if mean == 0.0 {
        return 0.0;
      }
      cv := RelativeDeviation(counts, mean, sqrt);
    }
  }
}
