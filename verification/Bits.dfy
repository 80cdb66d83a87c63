/** The unsigned bit operations the program uses, on mathematical naturals:
    shifting is doubling or halving, and the masks are tied to remainders by the
    lemmas below. */
module Bits {

  function Pow2(k: nat): (p: nat)
    ensures p >= 1
  {
    if k == 0 then 1 else 2 * Pow2(k - 1)
  }

  ghost predicate IsPow2(n: nat) {
    exists k: nat :: n == Pow2(k)
  }

  /** `a >> k`. */
  function Shr(a: nat, k: nat): nat {
    if k == 0 then a else Shr(a / 2, k - 1)
  }

  /** `a << k`. */
  function Shl(a: nat, k: nat): (r: nat)
    ensures r >= a
  {
    if k == 0 then a else 2 * Shl(a, k - 1)
  }

  /** Bitwise `a & b`. */
  function And(a: nat, b: nat): nat {
    if a == 0 || b == 0 then 0
    else (a % 2) * (b % 2) + 2 * And(a / 2, b / 2)
  }

  /** Bitwise `a | b`. */
  function Or(a: nat, b: nat): nat
    decreases a + b
  {
    if a == 0 then b
    else if b == 0 then a
    else (if a % 2 + b % 2 > 0 then 1 else 0) + 2 * Or(a / 2, b / 2)
  }

  lemma {:induction false} Pow2Add(a: nat, b: nat)
    ensures Pow2(a + b) == Pow2(a) * Pow2(b)
  {
    if a > 0 {
      Pow2Add(a - 1, b);
      assert Pow2(a + b) == 2 * Pow2(a - 1 + b);
    }
  }

  lemma {:induction false} Pow2Monotone(a: nat, b: nat)
    requires a <= b
    ensures Pow2(a) <= Pow2(b)
  {
    if a < b {
      Pow2Monotone(a, b - 1);
    }
  }

  /** Masking with one less than a power of two is taking the remainder. */
  lemma {:induction false} AndMask(a: nat, k: nat)
    ensures And(a, Pow2(k) - 1) == a % Pow2(k)
  {
    if a != 0 && k != 0 {
      var p := Pow2(k - 1);
      AndMask(a / 2, k - 1);
      assert (2 * p - 1) % 2 == 1 && (2 * p - 1) / 2 == p - 1;
      if p - 1 != 0 {
        assert And(a, 2 * p - 1) == a % 2 + 2 * And(a / 2, p - 1);
      }
      HalfRemainder(a, p);
    } else if a == 0 {
      assert 0 % Pow2(k) == 0;
    }
  }

  lemma HalfRemainder(a: nat, p: nat)
    requires p >= 1
    ensures a % (2 * p) == a % 2 + 2 * ((a / 2) % p)
  {
    var h := a / 2;
    var q := h / p;
    var r := a % 2 + 2 * (h % p);
    assert a == a % 2 + 2 * h && h == q * p + h % p;
    assert a == q * (2 * p) + r;
    DivModUnique(a, 2 * p, q, r);
  }

  lemma MulAtLeast(k: int, d: int)
    requires k >= 1 && d > 0
    ensures k * d >= d
  {
  }

  /** Quotient and remainder are the only pair that fits. */
  lemma DivModUnique(a: int, d: int, q: int, r: int)
    requires d > 0 && a == q * d + r && 0 <= r < d
    ensures a / d == q && a % d == r
  {
    var q', r' := a / d, a % d;
    assert a == q' * d + r' && 0 <= r' < d;
    var k := q - q';
    assert k * d == q * d - q' * d;
    if k >= 1 {
      MulAtLeast(k, d);
      assert false;
    } else if k <= -1 {
      MulAtLeast(-k, d);
      assert false;
    }
  }

  /** `a << k | b` is a sum when `b` fits below the shift. */
  lemma {:induction false} OrShifted(a: nat, b: nat, k: nat)
    requires b < Pow2(k)
    ensures Or(Shl(a, k), b) == Shl(a, k) + b
  {
    if k > 0 {
      OrShifted(a, b / 2, k - 1);
      OrDoubled(Shl(a, k - 1), b);
    }
  }

  lemma OrDoubled(x: nat, b: nat)
    ensures Or(2 * x, b) == b % 2 + 2 * Or(x, b / 2)
  {
    if x != 0 && b != 0 {
      assert (2 * x) % 2 == 0 && (2 * x) / 2 == x;
    }
  }

  lemma {:induction false} ShlNext(a: nat, k: nat)
    ensures Shl(a + 1, k) == Shl(a, k) + Pow2(k)
  {
    if k > 0 {
      ShlNext(a, k - 1);
    }
  }

  lemma {:induction false} ShlMonotone(a: nat, b: nat, k: nat)
    requires a <= b
    ensures Shl(a, k) <= Shl(b, k)
  {
    if k > 0 {
      ShlMonotone(a, b, k - 1);
    }
  }

  lemma {:induction false} ShlPow2(a: nat, k: nat)
    ensures Shl(Pow2(a), k) == Pow2(a + k)
  {
    if k > 0 {
      ShlPow2(a, k - 1);
      assert Pow2(a + k) == 2 * Pow2(a + k - 1);
    }
  }

  /** Two different numbers closer than `d` apart leave different remainders. */
  lemma RemaindersDiffer(a: nat, b: nat, d: nat)
    requires 0 < d && a < b < a + d
    ensures a % d != b % d
  {
    if a % d == b % d {
      var i, j, r := a / d, b / d, a % d;
      assert a == i * d + r && b == j * d + r;
      assert b - a == (j - i) * d + 0;
      DivModUnique(b - a, d, 0, b - a);
      DivModUnique(b - a, d, j - i, 0);
    }
  }

  /** `len(bits)`, the position past the leading one: `2^(n-1) <= a < 2^n`. */
  function Len(a: nat): (n: nat)
    ensures a < Pow2(n)
    ensures a > 0 ==> n > 0 && Pow2(n - 1) <= a
  {
    if a == 0 then 0 else 1 + Len(a / 2)
  }

  lemma MulMonotone(a: int, b: int, d: nat)
    requires a <= b
    ensures a * d <= b * d
  {
    assert (b - a) * d == b * d - a * d && (b - a) * d >= 0;
  }

  /** Shifting right drops what is left below the shift. */
  lemma {:induction false} ShrBounds(a: nat, k: nat)
    ensures Shl(Shr(a, k), k) <= a < Shl(Shr(a, k), k) + Pow2(k)
  {
    if k > 0 {
      ShrBounds(a / 2, k - 1);
    }
  }

  /** What lies between two multiples of `2^k` shifts to between their counts. */
  lemma {:induction false} ShrBetween(a: nat, k: nat, lo: nat, hi: nat)
    requires Shl(lo, k) <= a < Shl(hi, k)
    ensures lo <= Shr(a, k) < hi
  {
    if k > 0 {
      ShrBetween(a / 2, k - 1, lo, hi);
    }
  }

  lemma {:induction false} ShrMonotone(a: nat, b: nat, k: nat)
    requires a <= b
    ensures Shr(a, k) <= Shr(b, k)
  {
    if k > 0 {
      ShrMonotone(a / 2, b / 2, k - 1);
    }
  }

  lemma {:induction false} LenIs(a: nat, n: nat)
    requires 0 < n && Pow2(n - 1) <= a < Pow2(n)
    ensures Len(a) == n
  {
    if n > 1 {
      LenIs(a / 2, n - 1);
    }
  }

  lemma {:induction false} LenMonotone(a: nat, b: nat)
    requires a <= b
    ensures Len(a) <= Len(b)
  {
    if a > 0 {
      LenMonotone(a / 2, b / 2);
    }
  }
}
