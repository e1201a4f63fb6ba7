/** Facts about multiplication, quotient and remainder that the solver does not find unaided. */
module Arithmetic {

  lemma MulAtLeast(d: int, m: nat)
    ensures d >= 1 ==> d * m >= m
    ensures d <= 0 ==> d * m <= 0
  {
  }

  lemma MulMinus(a: int, b: int, m: int)
    ensures (a - b) * m == a * m - b * m
  {
  }

  lemma DivMod(x: nat, m: nat)
    requires m > 0
    ensures x == (x / m) * m + x % m
  {
  }

  lemma RemainderUnique(x: nat, m: nat, q: nat, r: nat)
    requires m > 0 && x == q * m + r && r < m
    ensures x % m == r
  {
    DivMod(x, m);
    MulMinus(q, x / m, m);
    MulMinus(x / m, q, m);
    MulAtLeast(q - x / m, m);
    MulAtLeast(x / m - q, m);
  }

  lemma MultiplesApart(a: nat, b: nat, m: nat)
    requires m > 0 && a % m == 0 && b % m == 0 && b < a
    ensures b + m <= a
  {
    DivMod(a, m);
    DivMod(b, m);
    MulMinus(a / m, b / m, m);
    MulAtLeast(a / m - b / m, m);
  }
}
