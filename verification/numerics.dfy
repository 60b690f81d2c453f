/** The floating-point numerics the engine leans on, kept uninterpreted.
    Nothing in the model depends on the actual values of these functions;
    where a property needs one of their algebraic laws, it says so in a
    `requires`. */
module Numerics {

  /** The transcendental functions and rounding used by the source, passed
      around as one opaque record. */
  datatype Math = Math(
    pi: real,
    sin: real -> real,
    exp: real -> real,
    ln: real -> real,
    /** x |-> 2^x */
    pow2: real -> real,
    /** f |-> round(f, 2), expressed in hundredths */
    hundredths: real -> int
  )

  /** sin stays within [-1, 1]. */
  ghost predicate SineBounded(m: Math)
  {
    forall x :: -1.0 <= m.sin(x) <= 1.0
  }

  /** The exponent laws of 2^x that the pitch properties rely on. */
  ghost predicate ExponentLaws(m: Math)
  {
    && m.pow2(0.0) == 1.0
    && (forall x :: m.pow2(x + 1.0) == 2.0 * m.pow2(x))
    && (forall x, y :: x < y ==> m.pow2(x) < m.pow2(y))
  }

  /** 2^x is positive everywhere: were some 2^x <= 0, doubling it could not
      give the strictly larger 2^(x + 1). */
  lemma Pow2Positive(m: Math, x: real)
    requires ExponentLaws(m)
    ensures m.pow2(x) > 0.0
  {
    assert m.pow2(x + 1.0) == 2.0 * m.pow2(x);
    assert m.pow2(x) < m.pow2(x + 1.0);
  }
}

/** Arithmetic facts shared by the pitch, scale and tone arithmetic. */
module Arith {

  /** A value in [-1, 1] scaled by a non-negative factor stays within that
      factor of zero. */
  lemma UnitTimesBounded(x: real, v: real)
    requires -1.0 <= x <= 1.0 && v >= 0.0
    ensures -v <= x * v <= v
  {
    assert (x + 1.0) * v >= 0.0;
    assert (1.0 - x) * v >= 0.0;
  }

  /** A positive multiple of n is at least n. */
  lemma MulAtLeast(a: int, n: int)
    requires a >= 1 && n > 0
    ensures a * n >= n
  {
    var b := a - 1;
    assert a * n == b * n + n;
    assert b * n >= 0;
  }

  /** Division by a positive n recovers the quotient and remainder of q*n + r. */
  lemma DivModUnique(q: int, r: int, n: int)
    requires n > 0 && 0 <= r < n
    ensures (q * n + r) / n == q
    ensures (q * n + r) % n == r
  {
    var x := q * n + r;
    var q', r' := x / n, x % n;
    assert x == q' * n + r';
    assert 0 <= r' < n;
    assert q * n - q' * n == r' - r;
    assert (q - q') * n == q * n - q' * n;
    if q > q' {
      MulAtLeast(q - q', n);
      assert false;
    } else if q < q' {
      MulAtLeast(q' - q, n);
      assert false;
    }
  }
}
