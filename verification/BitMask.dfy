/**
 Unsigned 64-bit masking on naturals: `&` bit by bit, and the rounding that `align_up` does
 with it.
 */
module BitMask {
  import opened Arithmetic

  const WORD: nat := 0x1_0000_0000_0000_0000

  function Pow2(k: nat): (p: nat)
    ensures p > 0
  {
    if k == 0 then 1 else 2 * Pow2(k - 1)
  }

  function And(x: nat, y: nat): nat {
    if x == 0 || y == 0 then 0
    else 2 * And(x / 2, y / 2) + (if x % 2 == 1 && y % 2 == 1 then 1 else 0)
  }

  /** `~m` of a 64-bit word. */
  function Complement(m: nat): nat
    requires m < WORD
  {
    WORD - 1 - m
  }

  /** `align_up`, with the addition wrapping as `std::size_t` does. */
  function AlignUp(n: nat, alignment: nat): nat
    requires 0 < alignment <= WORD
  {
    And((n + (alignment - 1)) % WORD, Complement(alignment - 1))
  }

  lemma {:induction false} Pow2Monotone(k: nat, w: nat)
    requires k <= w
    ensures Pow2(k) <= Pow2(w)
  {
    if k < w {
      Pow2Monotone(k, w - 1);
    }
  }

  lemma HalveRemainder(x: nat, p: nat)
    requires p > 0
    ensures x % (2 * p) == 2 * ((x / 2) % p) + x % 2
  {
    DivMod(x / 2, p);
    var q := (x / 2) / p;
    assert x == 2 * (q * p + (x / 2) % p) + x % 2;
    assert 2 * (q * p) == q * (2 * p);
    RemainderUnique(x, 2 * p, q, 2 * ((x / 2) % p) + x % 2);
  }

  // ----- masking -----

  /** The low `k` bits. */
  function Low(x: nat, k: nat): (r: nat)
    ensures r <= x
  {
    if k == 0 then 0 else 2 * Low(x / 2, k - 1) + x % 2
  }

  lemma {:induction false} LowIsRemainder(x: nat, k: nat)
    ensures Low(x, k) == x % Pow2(k)
  {
    if k > 0 {
      LowIsRemainder(x / 2, k - 1);
      HalveRemainder(x, Pow2(k - 1));
    }
  }

  lemma {:induction false} LowOfSmall(x: nat, k: nat)
    requires x < Pow2(k)
    ensures Low(x, k) == x
  {
    if k > 0 {
      LowOfSmall(x / 2, k - 1);
    }
  }

  /** One bit of `And`, the mask being `2 * h + b`. */
  lemma AndStep(x: nat, h: nat, b: nat)
    requires b < 2
    ensures And(x, 2 * h + b) == 2 * And(x / 2, h) + (if x % 2 == 1 && b == 1 then 1 else 0)
  {
    assert (2 * h + b) / 2 == h && (2 * h + b) % 2 == b;
  }

  lemma {:induction false} MaskKeeps(x: nat, w: nat)
    requires x < Pow2(w)
    ensures And(x, Pow2(w) - 1) == x
  {
    if w > 0 {
      MaskKeeps(x / 2, w - 1);
      AndStep(x, Pow2(w - 1) - 1, 1);
    }
  }

  /** Masking with a word whose low `k` bits are clear and all others set clears those bits. */
  lemma {:induction false} MaskClears(x: nat, k: nat, w: nat)
    requires k <= w && x < Pow2(w)
    ensures Pow2(k) <= Pow2(w)
    ensures And(x, Pow2(w) - Pow2(k)) == x - Low(x, k)
    decreases w
  {
    Pow2Monotone(k, w);
    if k == w {
      LowOfSmall(x, k);
    } else if k == 0 {
      MaskKeeps(x, w);
    } else {
      MaskClears(x / 2, k - 1, w - 1);
      AndStep(x, Pow2(w - 1) - Pow2(k - 1), 0);
    }
  }

  lemma EightBits(k: nat)
    ensures Pow2(k + 8) == 0x100 * Pow2(k)
  {
    assert Pow2(k + 2) == 4 * Pow2(k);
    assert Pow2(k + 4) == 4 * Pow2(k + 2);
    assert Pow2(k + 6) == 4 * Pow2(k + 4);
    assert Pow2(k + 8) == 4 * Pow2(k + 6);
  }

  lemma WordIsPow2()
    ensures Pow2(64) == WORD
  {
    EightBits(0);
    EightBits(8);
    EightBits(16);
    EightBits(24);
    EightBits(32);
    EightBits(40);
    EightBits(48);
    EightBits(56);
  }

  // ----- align_up -----

  lemma MaskIsFloor(x: nat, k: nat)
    requires k <= 64 && x < WORD
    ensures Pow2(k) <= WORD
    ensures And(x, WORD - Pow2(k)) == x - x % Pow2(k)
  {
    WordIsPow2();
    MaskClears(x, k, 64);
    LowIsRemainder(x, k);
  }

  lemma AlignUpIsMask(n: nat, p: nat)
    requires 0 < p <= WORD
    ensures AlignUp(n, p) == And((n + (p - 1)) % WORD, WORD - p)
  {
  }

  /** Before the mask the sum is `x`; the mask leaves the multiple of the alignment at or below it. */
  lemma AlignUpMasks(n: nat, k: nat)
    requires k <= 64
    ensures Pow2(k) <= WORD
    ensures var x := (n + (Pow2(k) - 1)) % WORD;
            AlignUp(n, Pow2(k)) == x - x % Pow2(k) && (x - x % Pow2(k)) % Pow2(k) == 0
  {
    var x, p := (n + (Pow2(k) - 1)) % WORD, Pow2(k);
    MaskIsFloor(x, k);
    AlignUpIsMask(n, p);
    FloorIsMultiple(x, p);
  }

  lemma FloorIsMultiple(x: nat, p: nat)
    requires p > 0
    ensures x % p <= x && (x - x % p) % p == 0
  {
    DivMod(x, p);
    RemainderUnique(x - x % p, p, x / p, 0);
  }

  lemma WrapOnce(y: nat)
    ensures y < WORD ==> y % WORD == y
    ensures WORD <= y < 2 * WORD ==> y % WORD == y - WORD
  {
  }

  lemma LeastMultiple(n: nat, p: nat)
    requires p > 0
    ensures var x := n + (p - 1); var a := x - x % p;
            && a % p == 0 && n <= a < n + p
            && forall m: nat :: m % p == 0 && n <= m ==> a <= m
  {
    var x := n + (p - 1);
    var a := x - x % p;
    FloorIsMultiple(x, p);
    assert n <= a < n + p;
    forall m: nat | m % p == 0 && n <= m ensures a <= m {
      if m < a {
        MultiplesApart(a, m, p);
      }
    }
  }

  /** Without wrap-around the result is the least multiple of the alignment not below `n`. */
  lemma AlignUpIsLeast(n: nat, k: nat)
    requires k <= 64 && n + Pow2(k) - 1 < WORD
    ensures Pow2(k) <= WORD
    ensures var a := AlignUp(n, Pow2(k));
            && a % Pow2(k) == 0 && n <= a < n + Pow2(k)
            && forall m: nat :: m % Pow2(k) == 0 && n <= m ==> a <= m
  {
    AlignUpMasks(n, k);
    WrapOnce(n + (Pow2(k) - 1));
    LeastMultiple(n, Pow2(k));
  }

  lemma AlignUpWraps(n: nat, k: nat)
    requires k <= 64 && n < WORD && n + Pow2(k) - 1 >= WORD
    ensures Pow2(k) <= WORD
    ensures AlignUp(n, Pow2(k)) == 0
  {
    AlignUpMasks(n, k);
    WrapOnce(n + (Pow2(k) - 1));
    var x := n + Pow2(k) - 1 - WORD;
    RemainderUnique(x, Pow2(k), 0, x);
  }

  /** The rounding is upward exactly when the addition does not wrap; otherwise the result is 0. */
  lemma AlignUpExactlyWhen(n: nat, k: nat)
    requires k <= 64 && n < WORD
    ensures Pow2(k) <= WORD
    ensures n <= AlignUp(n, Pow2(k)) <==> n + Pow2(k) - 1 < WORD
    ensures n + Pow2(k) - 1 >= WORD ==> AlignUp(n, Pow2(k)) == 0
  {
    if n + Pow2(k) - 1 < WORD {
      AlignUpIsLeast(n, k);
    } else {
      AlignUpWraps(n, k);
    }
  }
}
