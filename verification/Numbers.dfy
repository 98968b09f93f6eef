/** Exact-real versions of the numeric helpers the controller takes from numpy. */
module Numbers {

  datatype Option<+T> = None | Some(value: T)

  function Abs(x: real): real { if x < 0.0 then -x else x }

  function Min(x: real, y: real): real { if x < y then x else y }

  function Max(x: real, y: real): real { if x < y then y else x }

  /** `np.clip(x, lo, hi)`: the upper bound wins when the bounds cross. */
  function Clamp(x: real, lo: real, hi: real): real { Min(Max(x, lo), hi) }

  function MaxInt(x: int, y: int): int { if x < y then y else x }

  function MinInt(x: int, y: int): int { if x < y then x else y }

  /** `int(np.ceil(x))`. */
  function Ceil(x: real): int { -((-x).Floor) }

  /** Python's `int(round(x))`: ties go to the even neighbour. */
  function Round(x: real): int {
    var f := x.Floor;
    var d := x - f as real;
    if d < 0.5 then f
    else if d > 0.5 then f + 1
    else if f % 2 == 0 then f else f + 1
  }

  lemma CeilBounds(x: real)
    ensures (Ceil(x) - 1) as real < x <= Ceil(x) as real
  {
    assert (-x).Floor as real <= -x < (-x).Floor as real + 1.0;
  }

  lemma CeilAtMost(x: real, n: int)
    ensures Ceil(x) <= n <==> x <= n as real
  {
    CeilBounds(x);
    if Ceil(x) <= n {
      assert Ceil(x) as real <= n as real;
    } else {
      assert Ceil(x) - 1 >= n;
      assert (Ceil(x) - 1) as real >= n as real;
    }
  }

  lemma RoundBounds(x: real)
    ensures x - 0.5 <= Round(x) as real <= x + 0.5
  {
    assert x.Floor as real <= x < x.Floor as real + 1.0;
  }

  /** The nearest whole number, and of two equally near ones the even one. */
  lemma RoundIsNearest(x: real)
    ensures Abs(x - Round(x) as real) <= 0.5
    ensures Abs(x - Round(x) as real) == 0.5 ==> Round(x) % 2 == 0
  {
    assert x.Floor as real <= x < x.Floor as real + 1.0;
  }

  // Facts about products and quotients. Every product is between plain variables, so that
  // callers can pass compound arguments and read the expanded result.

  lemma Cross(p: real, q: real, r: real, s: real)
    requires p <= q && r <= s
    ensures 0.0 <= q * s - q * r - p * s + p * r
  {
    assert 0.0 <= (q - p) * (s - r);
  }

  lemma CrossStrict(p: real, q: real, r: real, s: real)
    requires p < q && r < s
    ensures 0.0 < q * s - q * r - p * s + p * r
  {
    assert 0.0 < (q - p) * (s - r);
  }

  lemma MulMono(a: real, b: real, c: real)
    requires a <= b && 0.0 <= c
    ensures a * c <= b * c && c * a <= c * b
  {
    Cross(a, b, 0.0, c);
  }

  lemma MulNonNeg(a: real, b: real)
    requires 0.0 <= a && 0.0 <= b
    ensures 0.0 <= a * b
  {
    Cross(0.0, a, 0.0, b);
  }

  lemma MulCancel(q: real, b: real, c: real)
    requires 0.0 < c
    ensures q <= b <==> q * c <= b * c
  {
    if q <= b { Cross(q, b, 0.0, c); } else { CrossStrict(b, q, 0.0, c); }
  }

  lemma DivMul(a: real, b: real)
    requires b != 0.0
    ensures a / b * b == a
    ensures b * (a / b) == a
  {}

  /** a/c <= b exactly when a <= b*c, for positive c. */
  lemma DivAtMost(a: real, b: real, c: real)
    requires 0.0 < c
    ensures a / c <= b <==> a <= b * c
  {
    var q := a / c;
    DivMul(a, c);
    MulCancel(q, b, c);
  }

  /** b <= a/c exactly when b*c <= a, for positive c. */
  lemma DivAtLeast(a: real, b: real, c: real)
    requires 0.0 < c
    ensures b <= a / c <==> b * c <= a
  {
    var q := a / c;
    DivMul(a, c);
    MulCancel(b, q, c);
  }

  lemma DivUnit(a: real, c: real)
    requires 0.0 < c && 0.0 <= a <= c
    ensures 0.0 <= a / c <= 1.0
  {
    DivAtMost(a, 1.0, c);
    DivAtLeast(a, 0.0, c);
  }

  lemma AbsMul(a: real, b: real)
    ensures Abs(a * b) == Abs(a) * Abs(b)
  {
    var p, q := Abs(a), Abs(b);
    MulNonNeg(p, q);
    if a >= 0.0 {
      if b < 0.0 { assert a * -b == -(a * b); }
    } else if b >= 0.0 {
      assert -a * b == -(a * b);
    } else {
      assert -a * -b == a * b;
    }
  }

  lemma SquareStrict(a: real, b: real)
    requires 0.0 <= b < a
    ensures b * b < a * a
  {
    CrossStrict(b, a, 0.0, a);
    Cross(b, a, 0.0, b);
  }

  /** Squares order non-negative reals. */
  lemma SquareMono(a: real, b: real)
    requires 0.0 <= a && 0.0 <= b && a * a <= b * b
    ensures a <= b
  {
    if b < a { SquareStrict(a, b); }
  }
}
