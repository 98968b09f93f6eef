/** Positions, orientations and the abstract geometry every motion result is stated over. */
module Geometry {
  import opened Numbers

  datatype Vec = Vec(x: real, y: real, z: real) {
    function Add(v: Vec): Vec { Vec(x + v.x, y + v.y, z + v.z) }
    function Sub(v: Vec): Vec { Vec(x - v.x, y - v.y, z - v.z) }
    function Scale(t: real): Vec { Vec(t * x, t * y, t * z) }
    function Dot(v: Vec): real { x * v.x + y * v.y + z * v.z }
  }

  const ORIGIN := Vec(0.0, 0.0, 0.0)

  /** `a + t * (b - a)`, the form used by the interpolator and by every step limit. */
  function Toward(a: Vec, b: Vec, t: real): Vec { a.Add(b.Sub(a).Scale(t)) }

  /** Quaternions are stored (w, x, y, z). */
  datatype Quat = Quat(w: real, x: real, y: real, z: real)

  datatype Pose = Pose(pos: Vec, quat: Quat)

  /** The functions of the source that have no closed form over exact reals: `np.linalg.norm`
      on 3- and 4-vectors, `quat_angle`, `quat_slerp`, `_cosine_blend` and `_BLEND_PEAK`. */
  datatype Space = Space(
    norm: Vec -> real,
    qnorm: Quat -> real,
    angle: (Quat, Quat) -> real,
    slerp: (Quat, Quat, real) -> Quat,
    ease: real -> real,
    peak: real)

  ghost predicate IsNorm(norm: Vec -> real) {
    && (forall v: Vec :: 0.0 <= norm(v))
    && (forall v: Vec, w: Vec :: norm(v.Add(w)) <= norm(v) + norm(w))
    && (forall t: real, v: Vec :: norm(v.Scale(t)) == Abs(t) * norm(v))
    && (forall v: Vec :: norm(v) == 0.0 ==> v == ORIGIN)
  }

  ghost predicate IsEuclidean(norm: Vec -> real) {
    forall v: Vec :: 0.0 <= norm(v) && norm(v) * norm(v) == v.Dot(v)
  }

  /** Properties of the cosine ease: it runs monotonically from 0 to 1 and its slope never
      exceeds the peak factor (pi/2 in the source). */
  ghost predicate IsEase(ease: real -> real, peak: real) {
    && ease(0.0) == 0.0
    && ease(1.0) == 1.0
    && (forall s: real, t: real {:trigger ease(s), ease(t)} ::
          0.0 <= s <= t <= 1.0 ==> 0.0 <= ease(t) - ease(s) <= peak * (t - s))
  }

  lemma EasePeak(ease: real -> real, peak: real)
    requires IsEase(ease, peak)
    ensures 1.0 <= peak
  {
    assert ease(1.0) - ease(0.0) <= peak * (1.0 - 0.0);
  }

  lemma Lagrange(x: real, y: real, z: real, u: real, v: real, w: real)
    ensures (x * u + y * v + z * w) * (x * u + y * v + z * w)
         <= (x * x + y * y + z * z) * (u * u + v * v + w * w)
  {
    var a2 := (x * v - y * u) * (x * v - y * u);
    var b2 := (y * w - z * v) * (y * w - z * v);
    var c2 := (x * w - z * u) * (x * w - z * u);
    var d := (x * u + y * v + z * w) * (x * u + y * v + z * w);
    var s := (x * x + y * y + z * z) * (u * u + v * v + w * w);
    assert a2 == x * x * v * v - 2.0 * (x * u * y * v) + y * y * u * u;
    assert b2 == y * y * w * w - 2.0 * (y * v * z * w) + z * z * v * v;
    assert c2 == x * x * w * w - 2.0 * (x * u * z * w) + z * z * u * u;
    assert d == x * x * u * u + y * y * v * v + z * z * w * w
             + 2.0 * (x * u * y * v) + 2.0 * (x * u * z * w) + 2.0 * (y * v * z * w);
    assert s - d == a2 + b2 + c2;
    assert a2 >= 0.0 && b2 >= 0.0 && c2 >= 0.0;
  }

  lemma CauchySchwarz(norm: Vec -> real, v: Vec, w: Vec)
    requires IsEuclidean(norm)
    ensures v.Dot(w) <= norm(v) * norm(w)
  {
    Lagrange(v.x, v.y, v.z, w.x, w.y, w.z);
    var a, b, d := norm(v), norm(w), v.Dot(w);
    var p, q, m := a * a, b * b, a * b;
    assert m * m == p * q by { assert (a * b) * (a * b) == (a * a) * (b * b); }
    assert p == v.Dot(v) && q == w.Dot(w);
    MulNonNeg(a, b);
    if d > 0.0 { SquareMono(d, m); }
  }

  lemma SquareOfSum(a: real, b: real)
    ensures (a + b) * (a + b) == a * a + 2.0 * (a * b) + b * b
  {}

  lemma DotOfSum(v: Vec, w: Vec)
    ensures v.Add(w).Dot(v.Add(w)) == v.Dot(v) + 2.0 * v.Dot(w) + w.Dot(w)
  {
    SquareOfSum(v.x, w.x);
    SquareOfSum(v.y, w.y);
    SquareOfSum(v.z, w.z);
  }

  lemma EuclideanTriangle(norm: Vec -> real, v: Vec, w: Vec)
    requires IsEuclidean(norm)
    ensures norm(v.Add(w)) <= norm(v) + norm(w)
  {
    CauchySchwarz(norm, v, w);
    var a, b, n := norm(v), norm(w), norm(v.Add(w));
    SquareOfSum(a, b);
    DotOfSum(v, w);
    var c := a + b;
    assert n * n <= c * c;
    SquareMono(n, c);
  }

  lemma DotOfScale(t: real, v: Vec)
    ensures v.Scale(t).Dot(v.Scale(t)) == (t * t) * v.Dot(v)
  {
    assert (t * v.x) * (t * v.x) == (t * t) * (v.x * v.x);
    assert (t * v.y) * (t * v.y) == (t * t) * (v.y * v.y);
    assert (t * v.z) * (t * v.z) == (t * t) * (v.z * v.z);
    var s := t * t;
    assert s * (v.x * v.x + v.y * v.y + v.z * v.z) == s * (v.x * v.x) + s * (v.y * v.y) + s * (v.z * v.z);
  }

  lemma SquareOfProduct(a: real, m: real)
    ensures (a * m) * (a * m) == (a * a) * (m * m)
  {}

  lemma EuclideanScale(norm: Vec -> real, t: real, v: Vec)
    requires IsEuclidean(norm)
    ensures norm(v.Scale(t)) == Abs(t) * norm(v)
  {
    var a, m, n := Abs(t), norm(v), norm(v.Scale(t));
    DotOfScale(t, v);
    SquareOfProduct(a, m);
    assert a * a == t * t;
    var p := a * m;
    MulNonNeg(a, m);
    assert p * p == n * n;
    SquareMono(n, p);
    SquareMono(p, n);
  }

  lemma SquarePositive(x: real)
    ensures 0.0 <= x * x && (x * x == 0.0 ==> x == 0.0)
  {
    if x > 0.0 { CrossStrict(0.0, x, 0.0, x); }
    if x < 0.0 { CrossStrict(x, 0.0, x, 0.0); }
  }

  /** `np.linalg.norm` meets every law the results below ask of a norm. */
  lemma EuclideanIsNorm(norm: Vec -> real)
    requires IsEuclidean(norm)
    ensures IsNorm(norm)
  {
    forall v: Vec, w: Vec ensures norm(v.Add(w)) <= norm(v) + norm(w) {
      EuclideanTriangle(norm, v, w);
    }
    forall t: real, v: Vec ensures norm(v.Scale(t)) == Abs(t) * norm(v) {
      EuclideanScale(norm, t, v);
    }
    forall v: Vec | norm(v) == 0.0 ensures v == ORIGIN {
      SquarePositive(v.x);
      SquarePositive(v.y);
      SquarePositive(v.z);
    }
  }

  function Taxicab(v: Vec): real { Abs(v.x) + Abs(v.y) + Abs(v.z) }

  lemma Distribute(a: real, p: real, q: real, r: real)
    ensures a * p + a * q + a * r == a * (p + q + r)
  {}

  lemma TaxicabScales(t: real, v: Vec)
    ensures Taxicab(v.Scale(t)) == Abs(t) * Taxicab(v)
  {
    hide Abs;
    AbsMul(t, v.x);
    AbsMul(t, v.y);
    AbsMul(t, v.z);
    var a, p, q, r := Abs(t), Abs(v.x), Abs(v.y), Abs(v.z);
    var s := v.Scale(t);
    assert s.x == t * v.x && s.y == t * v.y && s.z == t * v.z;
    assert Abs(s.x) == a * p && Abs(s.y) == a * q && Abs(s.z) == a * r;
    Distribute(a, p, q, r);
  }

  lemma TaxicabDefinite(v: Vec)
    ensures 0.0 <= Taxicab(v) && (Taxicab(v) == 0.0 ==> v == ORIGIN)
  {}

  lemma TaxicabTriangle(v: Vec, w: Vec)
    ensures Taxicab(v.Add(w)) <= Taxicab(v) + Taxicab(w)
  {}

  lemma TaxicabIsNorm()
    ensures IsNorm(Taxicab)
  {
    hide Taxicab, Abs, Vec.Scale, Vec.Add;
    forall v: Vec ensures 0.0 <= Taxicab(v) && (Taxicab(v) == 0.0 ==> v == ORIGIN) {
      TaxicabDefinite(v);
    }
    forall t: real, v: Vec ensures Taxicab(v.Scale(t)) == Abs(t) * Taxicab(v) {
      TaxicabScales(t, v);
    }
    forall v: Vec, w: Vec ensures Taxicab(v.Add(w)) <= Taxicab(v) + Taxicab(w) {
      TaxicabTriangle(v, w);
    }
  }

  /** The laws can be met: the taxicab length is a norm, and the identity an ease. */
  lemma LawsAreSatisfiable()
    ensures IsNorm(Taxicab) && IsEase((s: real) => s, 1.0)
  {
    TaxicabIsNorm();
  }

  // Consequences of the norm laws, each stated for the vectors it is used on.

  lemma Triangle(norm: Vec -> real, v: Vec, w: Vec)
    requires IsNorm(norm)
    ensures norm(v.Add(w)) <= norm(v) + norm(w)
  {}

  lemma NormNonNeg(norm: Vec -> real, v: Vec)
    requires IsNorm(norm)
    ensures 0.0 <= norm(v)
  {}

  lemma Scaled(norm: Vec -> real, t: real, v: Vec)
    requires IsNorm(norm) && 0.0 <= t
    ensures norm(v.Scale(t)) == t * norm(v)
  {
    assert norm(v.Scale(t)) == Abs(t) * norm(v);
  }

  lemma SamePoint(norm: Vec -> real, a: Vec, b: Vec)
    requires IsNorm(norm) && norm(a.Sub(b)) == 0.0
    ensures a == b
  {
    assert a.Sub(b) == ORIGIN;
  }

  lemma ZeroNorm(norm: Vec -> real)
    requires IsNorm(norm)
    ensures norm(ORIGIN) == 0.0
  {
    assert ORIGIN.Scale(0.0) == ORIGIN;
    assert norm(ORIGIN.Scale(0.0)) == Abs(0.0) * norm(ORIGIN);
  }

  /** Moving a fraction t of the way covers that fraction of the distance. */
  lemma TowardDistance(norm: Vec -> real, a: Vec, b: Vec, t: real)
    requires IsNorm(norm) && 0.0 <= t <= 1.0
    ensures norm(Toward(a, b, t).Sub(a)) == t * norm(b.Sub(a))
    ensures norm(b.Sub(Toward(a, b, t))) == (1.0 - t) * norm(b.Sub(a))
  {
    hide IsNorm;
    var d, u := b.Sub(a), 1.0 - t;
    assert Toward(a, b, t).Sub(a) == d.Scale(t);
    assert b.Sub(Toward(a, b, t)) == d.Scale(u) by {
      Remainder(a.x, b.x, t, u);
      Remainder(a.y, b.y, t, u);
      Remainder(a.z, b.z, t, u);
    }
    hide Toward, Vec.Sub, Vec.Scale;
    Scaled(norm, t, d);
    Scaled(norm, u, d);
    var n := norm(d);
    assert (1.0 - t) * n == u * n;
  }

  lemma Remainder(a: real, b: real, t: real, u: real)
    requires u == 1.0 - t
    ensures b - (a + t * (b - a)) == u * (b - a)
  {
    var c := b - a;
    assert (1.0 - t) * c == c - t * c;
  }

  lemma TowardBetween(norm: Vec -> real, a: Vec, b: Vec, s: real, t: real, gap: real)
    requires IsNorm(norm) && s <= t && gap == t - s
    ensures norm(Toward(a, b, t).Sub(Toward(a, b, s))) == gap * norm(b.Sub(a))
  {
    hide IsNorm;
    var d := b.Sub(a);
    assert Toward(a, b, t).Sub(Toward(a, b, s)) == d.Scale(gap) by {
      Between(d.x, s, t, gap);
      Between(d.y, s, t, gap);
      Between(d.z, s, t, gap);
    }
    Scaled(norm, gap, d);
  }

  lemma Between(c: real, s: real, t: real, gap: real)
    requires gap == t - s
    ensures t * c - s * c == gap * c
  {
    assert (t - s) * c == t * c - s * c;
  }

  lemma TowardEnds(a: Vec, b: Vec)
    ensures Toward(a, b, 0.0) == a && Toward(a, b, 1.0) == b
  {}

  datatype Box = Box(lo: Vec, hi: Vec) {
    predicate Contains(v: Vec) {
      lo.x <= v.x <= hi.x && lo.y <= v.y <= hi.y && lo.z <= v.z <= hi.z
    }

    function Clip(v: Vec): Vec {
      Vec(Clamp(v.x, lo.x, hi.x), Clamp(v.y, lo.y, hi.y), Clamp(v.z, lo.z, hi.z))
    }
  }

  lemma BetweenReals(a: real, b: real, t: real, lo: real, hi: real)
    requires 0.0 <= t <= 1.0 && lo <= a <= hi && lo <= b <= hi
    ensures lo <= a + t * (b - a) <= hi
  {
    Cross(0.0, t, lo, b);
    Cross(t, 1.0, lo, a);
    Cross(0.0, t, b, hi);
    Cross(t, 1.0, a, hi);
  }

  /** Boxes are convex. */
  lemma TowardStaysInside(box: Box, a: Vec, b: Vec, t: real)
    requires 0.0 <= t <= 1.0 && box.Contains(a) && box.Contains(b)
    ensures box.Contains(Toward(a, b, t))
  {
    BetweenReals(a.x, b.x, t, box.lo.x, box.hi.x);
    BetweenReals(a.y, b.y, t, box.lo.y, box.hi.y);
    BetweenReals(a.z, b.z, t, box.lo.z, box.hi.z);
  }
}
