/** Quaternion algebra and pose composition. */
module Transforms {
  import opened Numbers
  import opened Geometry

  const EPS := 0.000000001

  const IDENTITY := Quat(1.0, 0.0, 0.0, 0.0)

  function Negate(q: Quat): Quat { Quat(-q.w, -q.x, -q.y, -q.z) }

  function Divide(q: Quat, n: real): Quat
    requires n != 0.0
  {
    Quat(q.w / n, q.x / n, q.y / n, q.z / n)
  }

  function NormSquared(q: Quat): real { q.w * q.w + q.x * q.x + q.y * q.y + q.z * q.z }

  ghost predicate IsQuatNorm(qnorm: Quat -> real) {
    forall q: Quat :: 0.0 <= qnorm(q) && qnorm(q) * qnorm(q) == NormSquared(q)
  }

  /** Unit length with the sign chosen so that w >= 0; (near) zero becomes the identity. */
  function QuatNormalize(qnorm: Quat -> real, q: Quat): Quat {
    var n := qnorm(q);
    if n < EPS then IDENTITY
    else
      var u := Divide(q, n);
      if u.w < 0.0 then Negate(u) else u
  }

  function QuatMul(a: Quat, b: Quat): Quat {
    Quat(a.w * b.w - a.x * b.x - a.y * b.y - a.z * b.z,
         a.w * b.x + a.x * b.w + a.y * b.z - a.z * b.y,
         a.w * b.y - a.x * b.z + a.y * b.w + a.z * b.x,
         a.w * b.z + a.x * b.y - a.y * b.x + a.z * b.w)
  }

  function QuatConj(q: Quat): Quat { Quat(q.w, -q.x, -q.y, -q.z) }

  function Pure(v: Vec): Quat { Quat(0.0, v.x, v.y, v.z) }

  function Imaginary(q: Quat): Vec { Vec(q.x, q.y, q.z) }

  /** `q v q*`, without the normalisation of q. */
  function Sandwich(q: Quat, v: Vec): Vec { Imaginary(QuatMul(QuatMul(q, Pure(v)), QuatConj(q))) }

  function QuatRotate(qnorm: Quat -> real, q: Quat, v: Vec): Vec { Sandwich(QuatNormalize(qnorm, q), v) }

  datatype DeltaFrame = Base | Tcp

  /** A displacement and a rotation vector applied to a pose; the rotation acts in the body
      frame, the displacement in the given one. `fromRotvec` is the exponential map. */
  function IntegratePose(qnorm: Quat -> real, fromRotvec: Vec -> Quat, pose: Pose, move: Vec, turn: Vec,
                         frame: DeltaFrame): Pose
  {
    Pose(pose.pos.Add(if frame.Tcp? then QuatRotate(qnorm, pose.quat, move) else move),
         QuatNormalize(qnorm, QuatMul(pose.quat, fromRotvec(turn))))
  }

  // The algebra.

  ghost predicate Unit(q: Quat) { NormSquared(q) == 1.0 }

  // Products are named so that the identities below are linear in them.

  function P2(x: real, y: real): real { x * y }

  function P3(x: real, y: real, z: real): real { x * y * z }

  lemma MulParts(a: Quat, b: Quat)
    ensures var p := QuatMul(a, b);
      && p.w == P2(a.w, b.w) - P2(a.x, b.x) - P2(a.y, b.y) - P2(a.z, b.z)
      && p.x == P2(a.w, b.x) + P2(a.x, b.w) + P2(a.y, b.z) - P2(a.z, b.y)
      && p.y == P2(a.w, b.y) - P2(a.x, b.z) + P2(a.y, b.w) + P2(a.z, b.x)
      && p.z == P2(a.w, b.z) + P2(a.x, b.y) - P2(a.y, b.x) + P2(a.z, b.w)
  {}

  lemma Times(p: real, a: real, b: real, c: real, d: real, e: real, f: real, g: real, h: real, t: real)
    requires p == a * b - c * d - e * f - g * h
    ensures p * t == a * b * t - c * d * t - e * f * t - g * h * t
  {}

  lemma ExpandLeft(a: Quat, b: Quat, t: real)
    ensures var p := QuatMul(a, b);
      && P2(p.w, t) == P3(a.w, b.w, t) - P3(a.x, b.x, t) - P3(a.y, b.y, t) - P3(a.z, b.z, t)
      && P2(p.x, t) == P3(a.w, b.x, t) + P3(a.x, b.w, t) + P3(a.y, b.z, t) - P3(a.z, b.y, t)
      && P2(p.y, t) == P3(a.w, b.y, t) - P3(a.x, b.z, t) + P3(a.y, b.w, t) + P3(a.z, b.x, t)
      && P2(p.z, t) == P3(a.w, b.z, t) + P3(a.x, b.y, t) - P3(a.y, b.x, t) + P3(a.z, b.w, t)
  {
    var p := QuatMul(a, b);
    Times(p.w, a.w, b.w, a.x, b.x, a.y, b.y, a.z, b.z, t);
    Times(p.x, a.w, b.x, -a.x, b.w, -a.y, b.z, a.z, b.y, t);
    Times(p.y, a.w, b.y, a.x, b.z, -a.y, b.w, -a.z, b.x, t);
    Times(p.z, a.w, b.z, -a.x, b.y, a.y, b.x, -a.z, b.w, t);
  }

  lemma Swap(t: real, x: real, y: real)
    ensures P3(t, x, y) == P3(x, y, t)
  {}

  lemma Commute(x: real, y: real)
    ensures P2(x, y) == P2(y, x)
  {}

  lemma ExpandRight(t: real, b: Quat, c: Quat)
    ensures var q := QuatMul(b, c);
      && P2(t, q.w) == P3(t, b.w, c.w) - P3(t, b.x, c.x) - P3(t, b.y, c.y) - P3(t, b.z, c.z)
      && P2(t, q.x) == P3(t, b.w, c.x) + P3(t, b.x, c.w) + P3(t, b.y, c.z) - P3(t, b.z, c.y)
      && P2(t, q.y) == P3(t, b.w, c.y) - P3(t, b.x, c.z) + P3(t, b.y, c.w) + P3(t, b.z, c.x)
      && P2(t, q.z) == P3(t, b.w, c.z) + P3(t, b.x, c.y) - P3(t, b.y, c.x) + P3(t, b.z, c.w)
  {
    hide P2, P3, QuatMul;
    var q := QuatMul(b, c);
    ExpandLeft(b, c, t);
    Commute(t, q.w); Commute(t, q.x); Commute(t, q.y); Commute(t, q.z);
    Swap(t, b.w, c.w); Swap(t, b.x, c.x); Swap(t, b.y, c.y); Swap(t, b.z, c.z);
    Swap(t, b.w, c.x); Swap(t, b.x, c.w); Swap(t, b.y, c.z); Swap(t, b.z, c.y);
    Swap(t, b.w, c.y); Swap(t, b.x, c.z); Swap(t, b.y, c.w); Swap(t, b.z, c.x);
    Swap(t, b.w, c.z); Swap(t, b.x, c.y); Swap(t, b.y, c.x); Swap(t, b.z, c.w);
  }

  lemma MulAssoc(a: Quat, b: Quat, c: Quat)
    ensures QuatMul(QuatMul(a, b), c) == QuatMul(a, QuatMul(b, c))
  {
    hide P2, P3, QuatMul;
    MulParts(QuatMul(a, b), c);
    MulParts(a, QuatMul(b, c));
    ExpandLeft(a, b, c.w); ExpandLeft(a, b, c.x); ExpandLeft(a, b, c.y); ExpandLeft(a, b, c.z);
    ExpandRight(a.w, b, c); ExpandRight(a.x, b, c); ExpandRight(a.y, b, c); ExpandRight(a.z, b, c);
  }

  lemma Signs(x: real, y: real)
    ensures P2(-y, -x) == P2(x, y) && P2(-y, x) == -P2(x, y) && P2(y, -x) == -P2(x, y) && P2(y, x) == P2(x, y)
  {}

  lemma ConjMul(a: Quat, b: Quat)
    ensures QuatConj(QuatMul(a, b)) == QuatMul(QuatConj(b), QuatConj(a))
  {
    hide P2, QuatMul;
    MulParts(a, b);
    MulParts(QuatConj(b), QuatConj(a));
    Signs(a.w, b.w); Signs(a.w, b.x); Signs(a.w, b.y); Signs(a.w, b.z);
    Signs(a.x, b.w); Signs(a.x, b.x); Signs(a.x, b.y); Signs(a.x, b.z);
    Signs(a.y, b.w); Signs(a.y, b.x); Signs(a.y, b.y); Signs(a.y, b.z);
    Signs(a.z, b.w); Signs(a.z, b.x); Signs(a.z, b.y); Signs(a.z, b.z);
  }

  function Real(n: real): Quat { Quat(n, 0.0, 0.0, 0.0) }

  lemma RealCommutes(n: real, q: Quat)
    ensures QuatMul(Real(n), q) == QuatMul(q, Real(n)) == Quat(n * q.w, n * q.x, n * q.y, n * q.z)
  {}

  lemma NormParts(q: Quat)
    ensures NormSquared(q) == P2(q.w, q.w) + P2(q.x, q.x) + P2(q.y, q.y) + P2(q.z, q.z)
  {}

  lemma TimesConj(q: Quat)
    ensures QuatMul(q, QuatConj(q)) == Real(NormSquared(q)) == QuatMul(QuatConj(q), q)
  {
    NormParts(q);
    hide P2, QuatMul, NormSquared;
    MulParts(q, QuatConj(q));
    MulParts(QuatConj(q), q);
    Signs(q.x, q.x); Signs(q.y, q.y); Signs(q.z, q.z);
    Signs(q.w, q.x); Signs(q.w, q.y); Signs(q.w, q.z); Signs(q.x, q.w); Signs(q.y, q.w); Signs(q.z, q.w);
    Signs(q.x, q.y); Signs(q.y, q.x); Signs(q.x, q.z); Signs(q.z, q.x); Signs(q.y, q.z); Signs(q.z, q.y);
  }

  /** The norm is multiplicative: (ab)(ab)* = a (b b*) a*. */
  lemma NormMul(a: Quat, b: Quat)
    ensures NormSquared(QuatMul(a, b)) == NormSquared(a) * NormSquared(b)
  {
    hide QuatMul, QuatConj, NormSquared;
    var p, n, m := QuatMul(a, b), NormSquared(a), NormSquared(b);
    var a', b' := QuatConj(a), QuatConj(b);
    calc {
      Real(NormSquared(p));
      { TimesConj(p); ConjMul(a, b); }
      QuatMul(p, QuatMul(b', a'));
      { MulAssoc(p, b', a'); MulAssoc(a, b, b'); }
      QuatMul(QuatMul(a, QuatMul(b, b')), a');
      { TimesConj(b); RealCommutes(m, a); }
      QuatMul(QuatMul(Real(m), a), a');
      { MulAssoc(Real(m), a, a'); TimesConj(a); }
      QuatMul(Real(m), Real(n));
      { RealCommutes(m, Real(n)); }
      Real(m * n);
    }
  }

  // Rotations.

  lemma UnitNorm(qnorm: Quat -> real, q: Quat)
    requires IsQuatNorm(qnorm) && Unit(q)
    ensures qnorm(q) == 1.0
  {
    var n := qnorm(q);
    assert n * n == 1.0;
    SquareMono(n, 1.0);
    SquareMono(1.0, n);
  }

  /** Two quaternions of the same orientation. */
  predicate UpToSign(a: Quat, b: Quat) { a == b || a == Negate(b) }

  lemma NormalizeUnit(qnorm: Quat -> real, q: Quat)
    requires IsQuatNorm(qnorm) && Unit(q)
    ensures UpToSign(QuatNormalize(qnorm, q), q)
    ensures Divide(q, 1.0) == q
  {
    UnitNorm(qnorm, q);
  }

  lemma NegateMul(a: Quat, b: Quat)
    ensures QuatMul(Negate(a), b) == Negate(QuatMul(a, b)) == QuatMul(a, Negate(b))
    ensures QuatConj(Negate(a)) == Negate(QuatConj(a)) && Negate(Negate(a)) == a
  {
    hide P2, QuatMul;
    MulParts(a, b);
    MulParts(Negate(a), b);
    MulParts(a, Negate(b));
    Signs(b.w, a.w); Signs(b.x, a.w); Signs(b.y, a.w); Signs(b.z, a.w);
    Signs(b.w, a.x); Signs(b.x, a.x); Signs(b.y, a.x); Signs(b.z, a.x);
    Signs(b.w, a.y); Signs(b.x, a.y); Signs(b.y, a.y); Signs(b.z, a.y);
    Signs(b.w, a.z); Signs(b.x, a.z); Signs(b.y, a.z); Signs(b.z, a.z);
    Signs(a.w, b.w); Signs(a.x, b.w); Signs(a.y, b.w); Signs(a.z, b.w);
    Signs(a.w, b.x); Signs(a.x, b.x); Signs(a.y, b.x); Signs(a.z, b.x);
    Signs(a.w, b.y); Signs(a.x, b.y); Signs(a.y, b.y); Signs(a.z, b.y);
    Signs(a.w, b.z); Signs(a.x, b.z); Signs(a.y, b.z); Signs(a.z, b.z);
  }

  lemma NegateSquares(q: Quat)
    ensures NormSquared(Negate(q)) == NormSquared(q)
  {
    hide P2, NormSquared;
    NormParts(q);
    NormParts(Negate(q));
    Signs(q.w, q.w); Signs(q.x, q.x); Signs(q.y, q.y); Signs(q.z, q.z);
  }

  /** q and -q rotate alike. */
  lemma SandwichUpToSign(a: Quat, b: Quat, v: Vec)
    requires UpToSign(a, b)
    ensures Sandwich(a, v) == Sandwich(b, v)
  {
    hide QuatMul, QuatConj;
    NegateMul(b, Pure(v));
    NegateMul(QuatMul(b, Pure(v)), Negate(QuatConj(b)));
    NegateMul(QuatMul(b, Pure(v)), QuatConj(b));
    NegateMul(b, b);
  }

  lemma UpToSignMul(a: Quat, b: Quat, c: Quat, d: Quat)
    requires UpToSign(a, b) && UpToSign(c, d)
    ensures UpToSign(QuatMul(a, c), QuatMul(b, d))
  {
    hide QuatMul;
    NegateMul(b, d);
    NegateMul(b, Negate(d));
    NegateMul(QuatMul(b, d), d);
  }

  lemma UpToSignTrans(a: Quat, b: Quat, c: Quat)
    requires UpToSign(a, b) && UpToSign(b, c)
    ensures UpToSign(a, c) && UpToSign(b, a)
  {}

  lemma UnitUpToSign(a: Quat, b: Quat)
    requires UpToSign(a, b) && Unit(b)
    ensures Unit(a)
  {
    NegateSquares(b);
  }

  lemma UnitMul(a: Quat, b: Quat)
    requires Unit(a) && Unit(b)
    ensures Unit(QuatMul(a, b))
  {
    hide QuatMul;
    NormMul(a, b);
  }

  /** `q v q*` has no scalar part. */
  lemma SandwichIsPure(q: Quat, v: Vec)
    ensures QuatMul(QuatMul(q, Pure(v)), QuatConj(q)) == Pure(Sandwich(q, v))
  {
    // The quaternion equals the negative of its own conjugate.
    hide QuatMul;
    var c, u := QuatConj(q), Pure(v);
    var r := QuatMul(QuatMul(q, u), c);
    ConjMul(QuatMul(q, u), c);
    ConjMul(q, u);
    assert QuatConj(c) == q && QuatConj(u) == Negate(u);
    NegateMul(u, c);
    MulAssoc(q, u, c);
    NegateMul(q, QuatMul(u, c));
    assert QuatConj(r) == Negate(r);
  }

  /** Rotating by a product is rotating twice. */
  lemma SandwichMul(a: Quat, b: Quat, v: Vec)
    ensures Sandwich(QuatMul(a, b), v) == Sandwich(a, Sandwich(b, v))
  {
    hide QuatMul, QuatConj;
    var a', b', u := QuatConj(a), QuatConj(b), Pure(v);
    calc {
      QuatMul(QuatMul(QuatMul(a, b), u), QuatConj(QuatMul(a, b)));
      { ConjMul(a, b); MulAssoc(a, b, u); }
      QuatMul(QuatMul(a, QuatMul(b, u)), QuatMul(b', a'));
      { MulAssoc(QuatMul(a, QuatMul(b, u)), b', a'); MulAssoc(a, QuatMul(b, u), b'); }
      QuatMul(QuatMul(a, QuatMul(QuatMul(b, u), b')), a');
      { SandwichIsPure(b, v); }
      QuatMul(QuatMul(a, Pure(Sandwich(b, v))), a');
    }
  }

  function QuatAdd(a: Quat, b: Quat): Quat { Quat(a.w + b.w, a.x + b.x, a.y + b.y, a.z + b.z) }

  lemma Sum(x: real, y: real, z: real)
    ensures P2(x + y, z) == P2(x, z) + P2(y, z) && P2(z, x + y) == P2(z, x) + P2(z, y)
  {}

  lemma MulAdd(a: Quat, b: Quat, c: Quat)
    ensures QuatMul(QuatAdd(a, b), c) == QuatAdd(QuatMul(a, c), QuatMul(b, c))
    ensures QuatMul(c, QuatAdd(a, b)) == QuatAdd(QuatMul(c, a), QuatMul(c, b))
  {
    hide P2, QuatMul;
    MulParts(QuatAdd(a, b), c); MulParts(a, c); MulParts(b, c);
    MulParts(c, QuatAdd(a, b)); MulParts(c, a); MulParts(c, b);
    Sum(a.w, b.w, c.w); Sum(a.w, b.w, c.x); Sum(a.w, b.w, c.y); Sum(a.w, b.w, c.z);
    Sum(a.x, b.x, c.w); Sum(a.x, b.x, c.x); Sum(a.x, b.x, c.y); Sum(a.x, b.x, c.z);
    Sum(a.y, b.y, c.w); Sum(a.y, b.y, c.x); Sum(a.y, b.y, c.y); Sum(a.y, b.y, c.z);
    Sum(a.z, b.z, c.w); Sum(a.z, b.z, c.x); Sum(a.z, b.z, c.y); Sum(a.z, b.z, c.z);
  }

  /** Rotations are additive. */
  lemma SandwichAdd(q: Quat, v: Vec, w: Vec)
    ensures Sandwich(q, v.Add(w)) == Sandwich(q, v).Add(Sandwich(q, w))
  {
    hide QuatMul, QuatConj;
    assert Pure(v.Add(w)) == QuatAdd(Pure(v), Pure(w));
    MulAdd(Pure(v), Pure(w), q);
    MulAdd(QuatMul(q, Pure(v)), QuatMul(q, Pure(w)), QuatConj(q));
  }

  // What the functions mean in coordinates.

  /** `q v q*` turns v by the matrix of q, right-handed: with q = cos(a/2) + sin(a/2) k it takes the x axis
      towards the y axis. */
  lemma SandwichIsMatrix(q: Quat, v: Vec)
    ensures Sandwich(q, v) == Vec(
      (q.w * q.w + q.x * q.x - q.y * q.y - q.z * q.z) * v.x
        + 2.0 * (q.x * q.y - q.w * q.z) * v.y + 2.0 * (q.x * q.z + q.w * q.y) * v.z,
      2.0 * (q.x * q.y + q.w * q.z) * v.x
        + (q.w * q.w - q.x * q.x + q.y * q.y - q.z * q.z) * v.y + 2.0 * (q.y * q.z - q.w * q.x) * v.z,
      2.0 * (q.x * q.z - q.w * q.y) * v.x + 2.0 * (q.y * q.z + q.w * q.x) * v.y
        + (q.w * q.w - q.x * q.x - q.y * q.y + q.z * q.z) * v.z)
  {}

  /** Normalising gives the unit quaternion of the same orientation whose w is not negative, and the
      identity for a (near) zero one. */
  lemma NormalizeIsCanonical(qnorm: Quat -> real, q: Quat)
    requires IsQuatNorm(qnorm)
    ensures var (n, u) := (qnorm(q), QuatNormalize(qnorm, q));
      && (n < EPS ==> u == Quat(1.0, 0.0, 0.0, 0.0))
      && (n >= EPS ==>
            && 0.0 <= u.w && Unit(u)
            && (q == Quat(n * u.w, n * u.x, n * u.y, n * u.z)
                || q == Negate(Quat(n * u.w, n * u.x, n * u.y, n * u.z))))
  {
    var n := qnorm(q);
    assert n * n == NormSquared(q);
    hide IsQuatNorm;
    if n >= EPS {
      var u := Divide(q, n);
      assert u == Quat(q.w / n, q.x / n, q.y / n, q.z / n);
      DividedIsUnit(n, q);
      hide Divide, NormSquared;
      NegateSquares(u);
      NegateScaled(n, u);
    }
  }

  lemma DividedIsUnit(n: real, q: Quat)
    requires 0.0 < n && n * n == NormSquared(q)
    ensures var u := Divide(q, n); Unit(u) && q == Quat(n * u.w, n * u.x, n * u.y, n * u.z)
  {
    var u := Divide(q, n);
    DivMul(q.w, n);
    DivMul(q.x, n);
    DivMul(q.y, n);
    DivMul(q.z, n);
    hide Divide, NormSquared;
    ScaledSquares(n, u, q);
  }

  lemma ScaledSquares(n: real, u: Quat, q: Quat)
    requires 0.0 < n && q == Quat(n * u.w, n * u.x, n * u.y, n * u.z) && n * n == NormSquared(q)
    ensures Unit(u)
  {
    SquareOfProduct(n, u.w);
    SquareOfProduct(n, u.x);
    SquareOfProduct(n, u.y);
    SquareOfProduct(n, u.z);
    var m, s := n * n, NormSquared(u);
    CrossStrict(0.0, n, 0.0, n);
    assert NormSquared(q) == m * s;
    assert m * s == m * 1.0;
    if s < 1.0 { CrossStrict(0.0, m, s, 1.0); }
    if s > 1.0 { CrossStrict(0.0, m, 1.0, s); }
  }

  lemma NegateScaled(n: real, u: Quat)
    ensures Negate(Quat(n * Negate(u).w, n * Negate(u).x, n * Negate(u).y, n * Negate(u).z))
         == Quat(n * u.w, n * u.x, n * u.y, n * u.z)
  {}

  /** A displacement in the TCP frame is the rotated one in the base frame, where it is simply added; the
      rotation acts in the body frame either way. */
  lemma FramesAgree(qnorm: Quat -> real, fromRotvec: Vec -> Quat, pose: Pose, move: Vec, turn: Vec)
    ensures IntegratePose(qnorm, fromRotvec, pose, move, turn, Tcp)
         == IntegratePose(qnorm, fromRotvec, pose, QuatRotate(qnorm, pose.quat, move), turn, Base)
    ensures IntegratePose(qnorm, fromRotvec, pose, move, turn, Base).pos.Sub(pose.pos) == move
    ensures IntegratePose(qnorm, fromRotvec, pose, move, turn, Base).quat
         == IntegratePose(qnorm, fromRotvec, pose, move, turn, Tcp).quat
  {
    hide QuatNormalize, QuatMul, QuatRotate;
  }
}
