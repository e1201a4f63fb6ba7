/**
 Exact rational arithmetic over unbounded naturals, and the fraction it computes for e: the
 partial sums of 1/k!, in lowest terms.
 */
module Fractions {
  import opened Arithmetic

  datatype Fraction = Fraction(num: nat, den: nat)

  // ----- the greatest common divisor -----

  function Mcd(x: nat, y: nat): nat
    decreases y
  {
    if y == 0 then x else Mcd(y, x % y)
  }

  ghost predicate Divides(d: nat, n: nat) {
    exists k: nat :: n == k * d
  }

  lemma DividesIntro(d: nat, n: nat, k: nat)
    requires n == k * d
    ensures Divides(d, n)
  {
  }

  lemma DividesSum(d: nat, a: nat, b: nat)
    requires Divides(d, a) && Divides(d, b)
    ensures Divides(d, a + b)
  {
    var i: nat :| a == i * d;
    var j: nat :| b == j * d;
    assert a + b == (i + j) * d;
  }

  lemma DividesDifference(d: nat, a: nat, b: nat)
    requires Divides(d, a) && Divides(d, b) && b <= a
    ensures Divides(d, a - b)
  {
    var i: nat :| a == i * d;
    var j: nat :| b == j * d;
    assert a - b == (i - j) * d;
    if i < j {
      assert (j - i) * d >= 0;
      assert a - b == 0;
      DividesIntro(d, 0, 0);
    } else {
      DividesIntro(d, a - b, i - j);
    }
  }

  lemma DividesMultiple(d: nat, a: nat, m: nat)
    requires Divides(d, a)
    ensures Divides(d, m * a)
  {
    var i: nat :| a == i * d;
    assert m * a == (m * i) * d;
    DividesIntro(d, m * a, m * i);
  }

  /** `MCD` divides both numbers, and every common divisor divides it: it is the greatest. */
  lemma {:induction false} McdIsGreatest(x: nat, y: nat)
    ensures Divides(Mcd(x, y), x) && Divides(Mcd(x, y), y)
    ensures forall d: nat :: Divides(d, x) && Divides(d, y) ==> Divides(d, Mcd(x, y))
    ensures x > 0 || y > 0 ==> Mcd(x, y) > 0
    decreases y
  {
    if y == 0 {
      DividesIntro(x, x, 1);
      DividesIntro(x, 0, 0);
    } else {
      var q, r, g := x / y, x % y, Mcd(x, y);
      DivMod(x, y);
      McdIsGreatest(y, r);
      DividesMultiple(g, y, q);
      DividesSum(g, q * y, r);
      forall d: nat | Divides(d, x) && Divides(d, y) ensures Divides(d, g) {
        DividesMultiple(d, y, q);
        DividesDifference(d, x, q * y);
      }
    }
  }

  lemma DivisorAtMost(d: nat, n: nat)
    requires Divides(d, n) && n > 0
    ensures 0 < d <= n
  {
    var k: nat :| n == k * d;
    assert k >= 1 && d >= 1;
    assert (k - 1) * d >= 0;
    assert n == (k - 1) * d + d;
  }

  // ----- fractions -----

  function ScalarMultiply(x: nat, f: Fraction): Fraction {
    Fraction(f.num * x, f.den * x)
  }

  function Simplify(f: Fraction): Fraction
    requires f.den > 0
  {
    McdIsGreatest(f.num, f.den);
    var m := Mcd(f.num, f.den);
    Fraction(f.num / m, f.den / m)
  }

  function Sum(x: Fraction, y: Fraction): Fraction
    requires x.den > 0 && y.den > 0
  {
    var asX := ScalarMultiply(y.den, x);
    var asY := ScalarMultiply(x.den, y);
    PositiveProduct(x.den, y.den);
    Simplify(Fraction(asX.num + asY.num, asX.den))
  }

  lemma PositiveProduct(a: nat, b: nat)
    requires a > 0 && b > 0
    ensures a * b > 0
  {
  }

  function Value(f: Fraction): real
    requires f.den > 0
  {
    f.num as real / f.den as real
  }

  ghost predicate LowestTerms(f: Fraction) {
    f.den > 0 && Mcd(f.num, f.den) == 1
  }

  lemma ExactQuotient(n: nat, d: nat)
    requires d > 0 && Divides(d, n)
    ensures n == (n / d) * d
  {
    var k: nat :| n == k * d;
    DivMod(n, d);
    var q := n / d;
    MulMinus(k, q, d);
    MulMinus(q, k, d);
    MulAtLeast(k - q, d);
    MulAtLeast(q - k, d);
  }

  /** A common divisor `h` of the quotients gives the common divisor `h * g` of the numbers. */
  lemma ScaledDivisor(h: nat, g: nat, a: nat, x: nat)
    requires a == x * g && Divides(h, x)
    ensures Divides(h * g, a)
  {
    var i: nat :| x == i * h;
    assert a == i * (h * g);
    DividesIntro(h * g, a, i);
  }

  /** What is left after dividing by the greatest common divisor has no common divisor but 1. */
  lemma QuotientsAreCoprime(a: nat, b: nat)
    requires b > 0
    ensures var g := Mcd(a, b);
            g > 0 && a == (a / g) * g && b == (b / g) * g && b / g > 0 && Mcd(a / g, b / g) == 1
  {
    McdIsGreatest(a, b);
    var g := Mcd(a, b);
    ExactQuotient(a, g);
    ExactQuotient(b, g);
    var x, y := a / g, b / g;
    MulAtLeast(y, g);
    McdIsGreatest(x, y);
    var h := Mcd(x, y);
    ScaledDivisor(h, g, a, x);
    ScaledDivisor(h, g, b, y);
    DivisorAtMost(h * g, g);
    MulMinus(h, 1, g);
    MulAtLeast(h - 1, g);
  }

  lemma SameValue(a: nat, b: nat, g: nat)
    requires b > 0 && g > 0
    ensures b * g > 0 && Value(Fraction(a * g, b * g)) == Value(Fraction(a, b))
  {
    PositiveProduct(b, g);
    var x, y, z := a as real, b as real, g as real;
    assert (a * g) as real == x * z && (b * g) as real == y * z;
    assert (x * z) / (y * z) == x / y;
  }

  lemma SimplifySpec(f: Fraction)
    requires f.den > 0
    ensures LowestTerms(Simplify(f)) && Value(Simplify(f)) == Value(f)
  {
    QuotientsAreCoprime(f.num, f.den);
    var g := Mcd(f.num, f.den);
    SameValue(f.num / g, f.den / g, g);
  }

  lemma AddValues(a: nat, c: nat, d: nat)
    requires d > 0
    ensures Value(Fraction(a + c, d)) == Value(Fraction(a, d)) + Value(Fraction(c, d))
  {
  }

  /** `Sum` is exact addition, and its result is in lowest terms. */
  lemma SumSpec(x: Fraction, y: Fraction)
    requires x.den > 0 && y.den > 0
    ensures LowestTerms(Sum(x, y)) && Value(Sum(x, y)) == Value(x) + Value(y)
  {
    PositiveProduct(x.den, y.den);
    var d := x.den * y.den;
    SimplifySpec(Fraction(x.num * y.den + y.num * x.den, d));
    AddValues(x.num * y.den, y.num * x.den, d);
    SameValue(x.num, x.den, y.den);
    SameValue(y.num, y.den, x.den);
    assert y.den * x.den == d;
  }

  // ----- e -----

  function Factorial(n: nat): (f: nat)
    ensures f > 0
  {
    if n == 0 then 1
    else
      PositiveProduct(n, Factorial(n - 1));
      n * Factorial(n - 1)
  }

  /** The numbers from 1 to n. */
  function UpTo(n: nat): (s: seq<nat>)
    ensures |s| == n && forall i :: 0 <= i < n ==> s[i] == i + 1
  {
    if n == 0 then [] else UpTo(n - 1) + [n]
  }

  function Product(s: seq<nat>): nat {
    if s == [] then 1 else s[0] * Product(s[1..])
  }

  lemma {:induction false} ProductAppend(s: seq<nat>, n: nat)
    ensures Product(s + [n]) == n * Product(s)
  {
    if s == [] {
      assert s + [n] == [n] && [n][1..] == [];
    } else {
      ProductAppend(s[1..], n);
      assert (s + [n])[1..] == s[1..] + [n];
      Exchange(s[0], n, Product(s[1..]));
    }
  }

  lemma Exchange(a: nat, b: nat, c: nat)
    ensures a * (b * c) == b * (a * c)
  {
  }

  /** The factorial is the product of the numbers from 1 to n. */
  lemma {:induction false} FactorialIsProduct(n: nat)
    ensures Factorial(n) == Product(UpTo(n))
  {
    if n > 0 {
      FactorialIsProduct(n - 1);
      ProductAppend(UpTo(n - 1), n);
    }
  }

  lemma FactorialStep(result: nat, left: nat)
    requires left > 0
    ensures result * Factorial(left) == (result * left) * Factorial(left - 1)
  {
    var f := Factorial(left - 1);
    assert result * (left * f) == (result * left) * f;
  }

  /** `fact`: the loop multiplies downward. */
  method Fact(n: nat) returns (result: nat)
    ensures result == Factorial(n) == Product(UpTo(n))
  {
    FactorialIsProduct(n);
    result := 1;
    var left := n;
    while left > 0
      invariant 0 <= left && result * Factorial(left) == Factorial(n)
    {
      FactorialStep(result, left);
      result := result * left;
      left := left - 1;
    }
  }

  function E(n: nat): (f: Fraction)
    ensures f.den > 0
  {
    if n == 0 then Fraction(1, 1)
    else
      SumSpec(Fraction(1, Factorial(n)), E(n - 1));
      Sum(Fraction(1, Factorial(n)), E(n - 1))
  }

  lemma {:induction false} ProductPositive(s: seq<nat>)
    requires forall i :: 0 <= i < |s| ==> s[i] > 0
    ensures Product(s) > 0
  {
    if s != [] {
      ProductPositive(s[1..]);
      PositiveProduct(s[0], Product(s[1..]));
    }
  }

  /** The partial sum of 1 / (1 * 2 * ... * k) for k up to n. */
  function PartialSum(n: nat): real {
    ProductPositive(UpTo(n));
    1.0 / Product(UpTo(n)) as real + if n == 0 then 0.0 else PartialSum(n - 1)
  }

  lemma PartialSumStep(n: nat)
    ensures PartialSum(n) == if n == 0 then 1.0 else 1.0 / Factorial(n) as real + PartialSum(n - 1)
  {
    FactorialIsProduct(n);
  }

  /** `E<N>` is exactly the partial sum, in lowest terms. */
  lemma {:induction false} EIsPartialSum(n: nat)
    ensures LowestTerms(E(n)) && Value(E(n)) == PartialSum(n)
  {
    PartialSumStep(n);
    if n > 0 {
      EIsPartialSum(n - 1);
      SumSpec(Fraction(1, Factorial(n)), E(n - 1));
    }
  }

  /** The first approximations, as fractions. */
  lemma FirstApproximations()
    ensures E(0) == Fraction(1, 1) && E(1) == Fraction(2, 1) && E(2) == Fraction(5, 2)
  {
    assert Factorial(1) == 1 && Factorial(2) == 2;
    assert E(1) == Fraction(2, 1);
    assert E(2) == Simplify(Fraction(5, 2));
  }

  // ----- how close the partial sums are -----

  lemma TailTerm(n: real, f: real)
    requires n >= 1.0 && f > 0.0
    ensures n * f > 0.0 && (n + 1.0) * f > 0.0 && (n + 1.0) * ((n + 1.0) * f) > 0.0
    ensures 1.0 / ((n + 1.0) * f) + 1.0 / ((n + 1.0) * ((n + 1.0) * f)) < 1.0 / (n * f)
  {
    var g, h := (n + 1.0) * f, n * f;
    assert h > 0.0 && g > 0.0;
    var k := (n + 1.0) * g;
    assert k > 0.0;
    assert 1.0 / g == (n + 1.0) / k;
    assert 1.0 / g + 1.0 / k == (n + 2.0) / k;
    assert (n + 2.0) * h < k by {
      assert (n + 2.0) * h == (n * n + 2.0 * n) * f;
      assert k == (n * n + 2.0 * n + 1.0) * f;
    }
    CrossMultiply(n + 2.0, k, h);
  }

  lemma RealMulAtLeast(z: real, b: real)
    requires b > 0.0
    ensures z >= 1.0 ==> z * b >= b
    ensures z < 1.0 ==> z * b < b
  {
  }

  lemma CrossMultiply(a: real, b: real, h: real)
    requires b > 0.0 && h > 0.0 && a * h < b
    ensures a / b < 1.0 / h
  {
    var x, y := a / b, 1.0 / h;
    assert x * b == a && y * h == 1.0;
    assert (x * h) * b == a * h;
    RealMulAtLeast(x * h, b);
    RealMulAtLeast(x / y, y * h);
    assert (x / y) * (y * h) == x * h;
  }

  /** An upper bound for all later partial sums, and it falls as n grows. */
  function Ceiling(n: nat): real
    requires n > 0
  {
    PositiveProduct(n, Factorial(n));
    PartialSum(n) + 1.0 / (n * Factorial(n)) as real
  }

  lemma TermsFall(n: nat, f: nat)
    requires n > 0 && f > 0
    ensures n * f > 0 && (n + 1) * f > 0 && (n + 1) * ((n + 1) * f) > 0
    ensures 1.0 / ((n + 1) * f) as real + 1.0 / ((n + 1) * ((n + 1) * f)) as real < 1.0 / (n * f) as real
  {
    var x, y := n as real, f as real;
    TailTerm(x, y);
    assert (n * f) as real == x * y;
    assert ((n + 1) * f) as real == (x + 1.0) * y;
    assert ((n + 1) * ((n + 1) * f)) as real == (x + 1.0) * ((x + 1.0) * y);
  }

  lemma CeilingStep(n: nat, f: nat)
    requires n > 0 && f == Factorial(n)
    ensures n * f > 0 && Ceiling(n) == PartialSum(n) + 1.0 / (n * f) as real
  {
    PositiveProduct(n, f);
  }

  lemma CeilingFalls(n: nat)
    requires n > 0
    ensures Ceiling(n + 1) < Ceiling(n)
  {
    var f := Factorial(n);
    TermsFall(n, f);
    PartialSumStep(n + 1);
    CeilingStep(n, f);
    CeilingStep(n + 1, (n + 1) * f);
  }

  lemma {:induction false} CeilingsFall(n: nat, m: nat)
    requires 0 < n <= m
    ensures Ceiling(m) <= Ceiling(n)
    ensures PartialSum(n) <= PartialSum(m) && (n < m ==> PartialSum(n) < PartialSum(m))
    decreases m
  {
    if n < m {
      CeilingsFall(n, m - 1);
      CeilingFalls(m - 1);
      PartialSumStep(m);
      assert 1.0 / Factorial(m) as real > 0.0;
    }
  }

  /** For 1 <= n < m the approximations differ by more than 0 and less than 1/(n * n!). */
  lemma ApproximationError(n: nat, m: nat)
    requires 1 <= n < m
    ensures n * Factorial(n) > 0
    ensures 0.0 < Value(E(m)) - Value(E(n)) < 1.0 / (n * Factorial(n)) as real
  {
    PositiveProduct(n, Factorial(n));
    PositiveProduct(m, Factorial(m));
    EIsPartialSum(n);
    EIsPartialSum(m);
    CeilingsFall(n, m);
    assert 1.0 / (m * Factorial(m)) as real > 0.0;
  }
}
