// Numeric helpers on exact reals: `min`, `max` and Python's `round(x, k)`.
//
// Scores are Python floats in the source; here they are exact reals, and
// `round` is rounding to `k` decimal places with ties going to the even
// neighbour, the rule Python applies.
module Numbers {
  function Min(a: real, b: real): real { if a <= b then a else b }

  function Max(a: real, b: real): real { if a >= b then a else b }

  function Pow10(k: nat): (r: nat)
    ensures r >= 1
  {
    if k == 0 then 1 else 10 * Pow10(k - 1)
  }

  /** The nearest integer to `y`; an exact half goes to the even neighbour. */
  function RoundHalfEven(y: real): int
  {
    var n := y.Floor;
    var f := y - n as real;
    if f > 0.5 then n + 1
    else if f < 0.5 then n
    else if n % 2 == 0 then n
    else n + 1
  }

  /** `round(x, k)`. */
  function Round(x: real, k: nat): real
  {
    ScaledRound(x, Pow10(k) as real)
  }

  /** Rounding to the nearest multiple of `1 / p`. */
  function ScaledRound(x: real, p: real): real
    requires p > 0.0
  {
    RoundHalfEven(x * p) as real / p
  }

  /** The rounded integer is within one half of the input. */
  lemma RoundHalfEvenClose(y: real)
    ensures y - 0.5 <= RoundHalfEven(y) as real <= y + 0.5
  {
  }

  lemma RoundHalfEvenOfInt(n: int)
    ensures RoundHalfEven(n as real) == n
  {
    assert (n as real).Floor == n;
  }

  /** Rounding never reverses the order of two values. */
  lemma RoundHalfEvenMonotone(a: real, b: real)
    requires a <= b
    ensures RoundHalfEven(a) <= RoundHalfEven(b)
  {
    var na, nb := a.Floor, b.Floor;
    if na == nb {
      assert a - na as real <= b - nb as real;
    } else {
      assert na < nb;
    }
  }

  lemma MulMonotone(x: real, y: real, p: real)
    requires x <= y && p > 0.0
    ensures x * p <= y * p
  {
    assert y * p - x * p == (y - x) * p;
  }

  lemma MulMonotoneNonNeg(x: real, y: real, p: real)
    requires x <= y && p >= 0.0
    ensures x * p <= y * p
  {
    assert y * p - x * p == (y - x) * p;
  }

  lemma MulStrict(x: real, y: real, p: real)
    requires x < y && p > 0.0
    ensures x * p < y * p
  {
    assert y * p - x * p == (y - x) * p;
  }

  /** Comparing a quotient with `c` is comparing the dividend with `c` times the divisor. */
  lemma QuotientCompare(a: real, l: real, c: real)
    requires l > 0.0
    ensures a / l <= c <==> a <= c * l
    ensures a / l < c <==> a < c * l
  {
    var q := a / l;
    assert q * l == a;
    if q <= c { MulMonotone(q, c, l); } else { MulStrict(c, q, l); }
    if q < c { MulStrict(q, c, l); } else { MulMonotone(c, q, l); }
  }

  lemma DivMonotone(a: real, b: real, p: real)
    requires a <= b && p > 0.0
    ensures a / p <= b / p
  {
    var qa, qb := a / p, b / p;
    assert qa * p == a && qb * p == b;
    if qa > qb {
      MulMonotone(qb, qa, p);
    }
  }

  lemma ScaledRoundMonotone(x: real, y: real, p: real)
    requires x <= y && p > 0.0
    ensures ScaledRound(x, p) <= ScaledRound(y, p)
  {
    MulMonotone(x, y, p);
    RoundHalfEvenMonotone(x * p, y * p);
    DivMonotone(RoundHalfEven(x * p) as real, RoundHalfEven(y * p) as real, p);
  }

  lemma RoundMonotone(x: real, y: real, k: nat)
    requires x <= y
    ensures Round(x, k) <= Round(y, k)
  {
    ScaledRoundMonotone(x, y, Pow10(k) as real);
  }

  /** Whole numbers are left unchanged by rounding. */
  lemma RoundOfInt(n: int, k: nat)
    ensures Round(n as real, k) == n as real
  {
    var p := Pow10(k);
    var q := (n as real) * (p as real);
    assert q == (n * p) as real;
    RoundHalfEvenOfInt(n * p);
    assert RoundHalfEven(q) as real == q;
    assert q / (p as real) == n as real;
  }

  /** Rounding keeps a value between two whole-number bounds. */
  lemma RoundWithin(x: real, k: nat, lo: int, hi: int)
    requires lo as real <= x <= hi as real
    ensures lo as real <= Round(x, k) <= hi as real
  {
    RoundMonotone(lo as real, x, k);
    RoundMonotone(x, hi as real, k);
    RoundOfInt(lo, k);
    RoundOfInt(hi, k);
  }
}
