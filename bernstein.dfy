// The private helpers of the Bezier class (`bernstein`, `binomial`, `factorial`) and the facts
// about them that make the curve evaluation meaningful: Pascal's rule, the degree-raising
// recurrence, the endpoint values and the partition of unity.
module BernsteinBasis {

  /** `pow(x, k)` for a whole exponent; `pow(x, 0)` is 1 for every `x`. */
  function Pow(x: real, k: nat): real {
    if k == 0 then 1.0 else x * Pow(x, k - 1)
  }

  /** `factorial(n)`: 1 for 0 and 1, otherwise `n * factorial(n - 1)`. */
  function Factorial(n: nat): real {
    if n == 1 || n == 0 then 1.0 else Factorial(n - 1) * (n as real)
  }

  /** `a / (b * c)`; the zero guard keeps the function total and is never taken for factorials. */
  function Ratio(a: real, b: real, c: real): real {
    if b * c == 0.0 then 0.0 else a / (b * c)
  }

  /** `binomial(n, k) = factorial(n) / (factorial(n - k) * factorial(k))`. */
  function Binomial(n: nat, k: nat): real
    requires k <= n
  {
    Ratio(Factorial(n), Factorial(n - k), Factorial(k))
  }

  /** `bernstein(t, n, i)`: the weight of the i-th of n + 1 control points at parameter t. */
  function Bernstein(t: real, n: nat, i: nat): real
    requires i <= n
  {
    Weight(Binomial(n, i), t, i, n - i)
  }

  /** `c * pow(t, i) * pow(1 - t, j)`, the shape of every Bernstein weight. */
  function Weight(c: real, t: real, i: nat, j: nat): real {
    c * Pow(t, i) * Pow(1.0 - t, j)
  }

  /** The linear interpolation `(1 - t) * a + t * b`. */
  function Lerp(t: real, a: real, b: real): real {
    (1.0 - t) * a + t * b
  }

  /** The sum of the first m weights of degree n: `bernstein(t, n, 0) + ... + bernstein(t, n, m - 1)`. */
  function WeightSum(t: real, n: nat, m: nat): real
    requires m <= n + 1
  {
    if m == 0 then 0.0 else WeightSum(t, n, m - 1) + Bernstein(t, n, m - 1)
  }

  lemma FactorialStep(n: nat)
    requires n >= 1
    ensures Factorial(n) == Factorial(n - 1) * (n as real)
  {
  }

  /** `factorial(n)` is at least 1, so the binomial quotient never divides by zero. */
  lemma {:induction false} FactorialAtLeastOne(n: nat)
    ensures 1.0 <= Factorial(n)
  {
    if n > 1 {
      FactorialAtLeastOne(n - 1);
      assert Factorial(n - 1) * (n as real) >= Factorial(n - 1) * 1.0;
    }
  }

  lemma FactorialSucc(n: nat)
    ensures Factorial(n + 1) == Factorial(n) * ((n + 1) as real)
  {
  }

  lemma PowOne(k: nat)
    ensures Pow(1.0, k) == 1.0
  {
    if k > 0 { PowOne(k - 1); }
  }

  lemma PowNonNegative(x: real, k: nat)
    requires 0.0 <= x
    ensures 0.0 <= Pow(x, k)
  {
    if k > 0 {
      PowNonNegative(x, k - 1);
      assert x * Pow(x, k - 1) >= 0.0;
    }
  }

  lemma ProductAtLeastOne(b: real, c: real)
    requires 1.0 <= b && 1.0 <= c
    ensures 1.0 <= b * c
  {
    assert b * c >= 1.0 * c;
  }

  /** Every binomial coefficient is positive. */
  lemma BinomialPositive(n: nat, k: nat)
    requires k <= n
    ensures 0.0 < Binomial(n, k)
  {
    FactorialAtLeastOne(n);
    FactorialAtLeastOne(n - k);
    FactorialAtLeastOne(k);
    ProductAtLeastOne(Factorial(n - k), Factorial(k));
    RatioPositive(Factorial(n), Factorial(n - k), Factorial(k));
  }

  lemma RatioPositive(a: real, b: real, c: real)
    requires 0.0 < a && 1.0 <= b * c
    ensures 0.0 < Ratio(a, b, c)
  {
  }

  /** The binomial coefficients of the two ends of every row are 1. */
  lemma BinomialEnds(n: nat)
    ensures Binomial(n, 0) == 1.0 && Binomial(n, n) == 1.0
  {
    FactorialAtLeastOne(n);
    RatioOfItself(Factorial(n), 1.0);
  }

  lemma RatioOfItself(a: real, c: real)
    requires 1.0 <= a && c == 1.0
    ensures Ratio(a, a, c) == 1.0 && Ratio(a, c, a) == 1.0
  {
  }

  lemma BinomialSymmetric(n: nat, k: nat)
    requires k <= n
    ensures Binomial(n, k) == Binomial(n, n - k)
  {
    assert n - (n - k) == k;
    RatioSwap(Factorial(n), Factorial(n - k), Factorial(k));
  }

  lemma RatioSwap(a: real, b: real, c: real)
    ensures Ratio(a, b, c) == Ratio(a, c, b)
  {
    assert b * c == c * b;
  }

  /** Pascal's rule for the factorial-quotient definition of `binomial`. */
  lemma Pascal(n: nat, k: nat)
    requires 1 <= k <= n
    ensures Binomial(n + 1, k) == Binomial(n, k - 1) + Binomial(n, k)
  {
    PascalFactorials(n, k);
    RatioPascal(Factorial(n), Factorial(n - k), Factorial(k - 1), (n + 1 - k) as real, k as real, (n + 1) as real,
                Factorial(n + 1), Factorial(n + 1 - k), Factorial(k));
  }

  /** The factorial facts Pascal's rule rests on, one multiplication step each. */
  lemma PascalFactorials(n: nat, k: nat)
    requires 1 <= k <= n
    ensures 1.0 <= Factorial(n - k) && 1.0 <= Factorial(k - 1)
    ensures Factorial(n + 1) == Factorial(n) * ((n + 1) as real)
    ensures Factorial(n + 1 - k) == Factorial(n - k) * ((n + 1 - k) as real)
    ensures Factorial(k) == Factorial(k - 1) * (k as real)
  {
    FactorialSucc(n);
    FactorialStep(n + 1 - k);
    FactorialStep(k);
    FactorialAtLeastOne(n - k);
    FactorialAtLeastOne(k - 1);
  }

  /** The field identity behind Pascal's rule: the upper quotient is the sum of the two lower ones. */
  lemma RatioPascal(a: real, b: real, c: real, m: real, kk: real, s: real, upper: real, left: real, right: real)
    requires 1.0 <= b && 1.0 <= c && 0.0 < m && 0.0 < kk && s == m + kk
    requires upper == a * s && left == b * m && right == c * kk
    ensures Ratio(upper, left, right) == Ratio(a, left, c) + Ratio(a, b, right)
  {
    assert 0.0 < left && 0.0 < right;
    var d := left * right;
    assert 0.0 < d;
    assert d == (left * c) * kk;
    assert d == (b * right) * m;
    assert a / (left * c) == (a * kk) / d;
    assert a / (b * right) == (a * m) / d;
    assert (a * kk) / d + (a * m) / d == (a * kk + a * m) / d;
    assert upper == a * kk + a * m;
  }

  lemma PowStep(x: real, k: nat)
    ensures Pow(x, k + 1) == x * Pow(x, k)
  {
  }

  /** Splitting the coefficient of a weight one degree up into its two neighbours one degree down. */
  lemma WeightMix(c0: real, c1: real, t: real, i: nat, j: nat)
    ensures Weight(c0 + c1, t, i + 1, j + 1) == (1.0 - t) * Weight(c1, t, i + 1, j) + t * Weight(c0, t, i, j + 1)
  {
    var u := 1.0 - t;
    var p, bigP, q, bigQ := Pow(t, i), Pow(t, i + 1), Pow(u, j), Pow(u, j + 1);
    PowStep(t, i);
    PowStep(u, j);
    assert Weight(c0 + c1, t, i + 1, j + 1) == (c0 + c1) * bigP * bigQ;
    assert Weight(c1, t, i + 1, j) == c1 * bigP * q;
    assert Weight(c0, t, i, j + 1) == c0 * p * bigQ;
    MixAlgebra(c0 + c1, c0, c1, t, u, bigP, p, bigQ, q);
  }

  lemma MixAlgebra(b: real, b0: real, b1: real, t: real, u: real, bigP: real, p: real, bigQ: real, q: real)
    requires b == b0 + b1 && bigP == t * p && bigQ == u * q
    ensures b * bigP * bigQ == u * (b1 * bigP * q) + t * (b0 * p * bigQ)
  {
  }

  /** Raising the degree: every weight of degree n + 1 mixes two neighbouring weights of degree n. */
  lemma BernsteinRecurrence(t: real, n: nat, i: nat)
    requires i <= n + 1
    ensures Bernstein(t, n + 1, i) ==
              (if i <= n then (1.0 - t) * Bernstein(t, n, i) else 0.0) +
              (if 1 <= i then t * Bernstein(t, n, i - 1) else 0.0)
  {
    if i == 0 {
      FirstWeightRecurrence(t, n);
    } else if i == n + 1 {
      LastWeightRecurrence(t, n);
    } else {
      InnerWeightRecurrence(t, n, i);
    }
  }

  lemma FirstWeightRecurrence(t: real, n: nat)
    ensures Bernstein(t, n + 1, 0) == (1.0 - t) * Bernstein(t, n, 0)
  {
    BinomialEnds(n);
    BinomialEnds(n + 1);
    PowStep(1.0 - t, n);
  }

  lemma LastWeightRecurrence(t: real, n: nat)
    ensures Bernstein(t, n + 1, n + 1) == t * Bernstein(t, n, n)
  {
    BinomialEnds(n);
    BinomialEnds(n + 1);
    PowStep(t, n);
  }

  lemma InnerWeightRecurrence(t: real, n: nat, i: nat)
    requires 1 <= i <= n
    ensures Bernstein(t, n + 1, i) == Lerp(t, Bernstein(t, n, i), Bernstein(t, n, i - 1))
  {
    var c0, c1 := Binomial(n, i - 1), Binomial(n, i);
    var ii, jj := i - 1, n - i;
    assert ii + 1 == i && jj + 1 == n + 1 - i && n - (i - 1) == jj + 1;
    Pascal(n, i);
    WeightMix(c0, c1, t, ii, jj);
    assert Bernstein(t, n + 1, i) == Weight(c0 + c1, t, ii + 1, jj + 1);
    assert Bernstein(t, n, i) == Weight(c1, t, ii + 1, jj);
    assert Bernstein(t, n, i - 1) == Weight(c0, t, ii, jj + 1);
  }

  /** The prefix sums of two consecutive degrees are related in the same way as single weights. */
  lemma {:induction false} WeightSumRecurrence(t: real, n: nat, m: nat)
    requires 1 <= m <= n + 1
    ensures WeightSum(t, n + 1, m) == Lerp(t, WeightSum(t, n, m), WeightSum(t, n, m - 1))
  {
    if m == 1 {
      FirstWeightRecurrence(t, n);
      assert WeightSum(t, n + 1, 1) == Bernstein(t, n + 1, 0);
      assert WeightSum(t, n, 1) == Bernstein(t, n, 0);
    } else {
      var k := m - 1;
      WeightSumRecurrence(t, n, k);
      InnerWeightRecurrence(t, n, k);
      PrefixRecurrence(t, WeightSum(t, n + 1, m), WeightSum(t, n + 1, k), Bernstein(t, n + 1, k),
                       WeightSum(t, n, m), WeightSum(t, n, k), WeightSum(t, n, k - 1),
                       Bernstein(t, n, k), Bernstein(t, n, k - 1));
    }
  }

  /** One step of the prefix-sum recurrence, with the sums and weights as plain numbers. */
  lemma PrefixRecurrence(t: real, up: real, upPrev: real, upWeight: real,
                         s: real, sPrev: real, sPrev2: real, w: real, wPrev: real)
    requires up == upPrev + upWeight
    requires upPrev == Lerp(t, sPrev, sPrev2)
    requires upWeight == Lerp(t, w, wPrev)
    requires s == sPrev + w
    requires sPrev == sPrev2 + wPrev
    ensures up == Lerp(t, s, sPrev)
  {
  }

  /** Partition of unity: the n + 1 weights of degree n always add up to 1. */
  lemma {:induction false} PartitionOfUnity(t: real, n: nat)
    ensures WeightSum(t, n, n + 1) == 1.0
  {
    if n == 0 {
      BinomialEnds(0);
    } else {
      PartitionOfUnity(t, n - 1);
      UnityStep(t, n);
    }
  }

  /** If the weights of degree n - 1 add up to 1, so do those of degree n. */
  lemma UnityStep(t: real, n: nat)
    requires 1 <= n && WeightSum(t, n - 1, n - 1 + 1) == 1.0
    ensures WeightSum(t, n, n + 1) == 1.0
  {
    WeightSumUnfold(t, n, n);
    WeightSumUnfold(t, n - 1, n - 1);
    TopSumRecurrence(t, n);
    TopWeightRecurrence(t, n);
    UnityAlgebra(t, WeightSum(t, n, n + 1), WeightSum(t, n, n), Bernstein(t, n, n),
                 WeightSum(t, n - 1, n - 1 + 1), WeightSum(t, n - 1, n - 1), Bernstein(t, n - 1, n - 1));
  }

  /** The relations between the sums and weights of one partition-of-unity step, as plain numbers. */
  predicate UnityShape(t: real, total: real, head: real, last: real, prevTotal: real, prevHead: real, prevLast: real) {
    total == head + last && head == Lerp(t, prevTotal, prevHead) && last == t * prevLast &&
    prevTotal == prevHead + prevLast && prevTotal == 1.0
  }

  lemma WeightSumUnfold(t: real, n: nat, m: nat)
    requires m <= n
    ensures WeightSum(t, n, m + 1) == WeightSum(t, n, m) + Bernstein(t, n, m)
  {
  }

  lemma TopSumRecurrence(t: real, n: nat)
    requires 1 <= n
    ensures WeightSum(t, n, n) == Lerp(t, WeightSum(t, n - 1, n - 1 + 1), WeightSum(t, n - 1, n - 1))
  {
    WeightSumRecurrence(t, n - 1, n);
  }

  lemma TopWeightRecurrence(t: real, n: nat)
    requires 1 <= n
    ensures Bernstein(t, n, n) == t * Bernstein(t, n - 1, n - 1)
  {
    LastWeightRecurrence(t, n - 1);
  }

  /** The arithmetic of one partition-of-unity step, with the sums and weights as plain numbers. */
  lemma UnityAlgebra(t: real, total: real, head: real, last: real, prevTotal: real, prevHead: real, prevLast: real)
    requires UnityShape(t, total, head, last, prevTotal, prevHead, prevLast)
    ensures total == 1.0
  {
  }

  /** At t = 0 all weight is on the first control point, at t = 1 all of it is on the last. */
  lemma BernsteinEndpoints(n: nat, i: nat)
    requires i <= n
    ensures Bernstein(0.0, n, i) == if i == 0 then 1.0 else 0.0
    ensures Bernstein(1.0, n, i) == if i == n then 1.0 else 0.0
  {
    BinomialEnds(n);
    PowOne(n);
    PowOne(i);
    if i > 0 { assert Pow(0.0, i) == 0.0 * Pow(0.0, i - 1); }
    if i < n { assert Pow(0.0, n - i) == 0.0 * Pow(0.0, n - i - 1); }
  }

  /** Inside the unit interval no weight is negative. */
  lemma BernsteinNonNegative(t: real, n: nat, i: nat)
    requires 0.0 <= t <= 1.0 && i <= n
    ensures 0.0 <= Bernstein(t, n, i)
  {
    PowNonNegative(t, i);
    PowNonNegative(1.0 - t, n - i);
    var b := Binomial(n, i);
    BinomialPositive(n, i);
    ProductNonNegative(b, Pow(t, i));
    ProductNonNegative(b * Pow(t, i), Pow(1.0 - t, n - i));
  }

  lemma ProductNonNegative(x: real, y: real)
    requires 0.0 <= x && 0.0 <= y
    ensures 0.0 <= x * y
  {
  }
}
