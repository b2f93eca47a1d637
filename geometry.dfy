// Two-dimensional vector arithmetic over the reals, the handful of geometric
// helpers the simulation calls without defining (square root, rotation,
// tangent points, local-space transform), and the pitch layout the players
// consult (region centres and membership tests).
module Geometry {

  function Abs(r: real): real { if r < 0.0 then -r else r }

  function Min(a: real, b: real): real { if a < b then a else b }

  function Max(a: real, b: real): real { if a < b then b else a }

  /** A vector of the simulation's plane. */
  datatype Vector2D = Vector2D(x: real, y: real)
  {
    function Plus(v: Vector2D): Vector2D { Vector2D(x + v.x, y + v.y) }

    function Minus(v: Vector2D): Vector2D { Vector2D(x - v.x, y - v.y) }

    function Scale(k: real): Vector2D { Vector2D(x * k, y * k) }

    function Div(k: real): Vector2D
      requires k != 0.0
    {
      Vector2D(x / k, y / k)
    }

    function Dot(v: Vector2D): real { x * v.x + y * v.y }

    function LengthSq(): real { x * x + y * y }

    /** The vector turned a quarter clockwise in screen coordinates. */
    function Perp(): Vector2D { Vector2D(-y, x) }

    predicate IsZero() { x == 0.0 && y == 0.0 }

    /** The component of the vector across `v`: zero exactly when the two are parallel. */
    function Cross(v: Vector2D): real { x * v.y - y * v.x }
  }

  const Zero := Vector2D(0.0, 0.0)

  /** The largest finite double, the start value of every minimum search. */
  const MaxFloat: real := 179769313486231570814527423731704356798070567525844996598917476803157260780028538760589558632766878171540458953514382464234321326889464182768467546703537516986049910576551282076245490090389328944075868508455133942304583236903222948165808559332123348274797826204144723168738177180919299881250404026184124858368.0

  /** `x` kept within `[lo, hi]`. */
  function Clamp(x: real, lo: real, hi: real): real
  {
    if x < lo then lo else if x > hi then hi else x
  }

  /** A double converted to an int, truncating toward zero. */
  function Trunc(r: real): int
  {
    if r >= 0.0 then r.Floor else -((-r).Floor)
  }

  function DistanceSq(a: Vector2D, b: Vector2D): real { b.Minus(a).LengthSq() }

  /**
   * Geometric helpers that the simulation uses but does not define, given
   * as functions.  `Sound` states what the model relies on about them.
   */
  datatype Geometry = Geometry(
    sqrt: real -> real,
    // the Euclidean length of a vector
    length: Vector2D -> real,
    // the unit vector along a vector
    normalize: Vector2D -> Vector2D,
    // rotation of a vector about the origin by an angle in radians
    rotate: (Vector2D, real) -> Vector2D,
    // the two points where tangents from a point touch a circle (centre, radius, point)
    tangentPoints: (Vector2D, real, Vector2D) -> (Vector2D, Vector2D),
    // a point in the local space of an agent (point, heading, side, agent position)
    toLocal: (Vector2D, Vector2D, Vector2D, Vector2D) -> Vector2D,
    // the heading after turning towards a point by at most the turn rate
    // (heading, position, point, turn rate)
    faceTowards: (Vector2D, Vector2D, Vector2D, real) -> Vector2D)
  {
    ghost predicate Sound()
    {
      (forall r: real :: 0.0 <= r ==> 0.0 <= sqrt(r) && sqrt(r) * sqrt(r) == r) &&
      (forall v: Vector2D :: 0.0 <= length(v) && length(v) * length(v) == v.LengthSq()) &&
      (forall v: Vector2D :: normalize(v) == if length(v) > 0.0 then v.Div(length(v)) else v) &&
      (forall v: Vector2D, a: real :: rotate(v, a).LengthSq() == v.LengthSq())
    }

    function Length(v: Vector2D): real { length(v) }

    function Distance(a: Vector2D, b: Vector2D): real { Length(b.Minus(a)) }

    /** A vector of length one along `v`; a zero vector is left as it is. */
    function Normalize(v: Vector2D): Vector2D { normalize(v) }

    /** `v` cut down to length `max` when it is longer. */
    function Truncate(v: Vector2D, max: real): Vector2D
    {
      if Length(v) > max then Normalize(v).Scale(max) else v
    }
  }

  lemma SqrtIs(g: Geometry, r: real, s: real)
    requires g.Sound() && 0.0 <= r && 0.0 <= s && s * s == r
    ensures g.sqrt(r) == s
  {
    var t := g.sqrt(r);
    assert 0.0 <= t && t * t == r;
    if t < s {
      SquareMonotone(t, s);
    } else if s < t {
      SquareMonotone(s, t);
    }
  }

  /** The length is the non-negative root of the squared length. */
  lemma LengthIs(g: Geometry, v: Vector2D, s: real)
    requires g.Sound() && 0.0 <= s && s * s == v.LengthSq()
    ensures g.Length(v) == s
  {
    var t := g.Length(v);
    assert 0.0 <= t && t * t == v.LengthSq();
    if t < s {
      SquareMonotone(t, s);
    } else if s < t {
      SquareMonotone(s, t);
    }
  }

  /** With a positive length, normalising divides by it. */
  lemma NormalizeIs(g: Geometry, v: Vector2D)
    requires g.Sound()
    ensures g.Length(v) > 0.0 ==> g.Normalize(v) == v.Div(g.Length(v))
    ensures g.Length(v) <= 0.0 ==> g.Normalize(v) == v
  {
  }

  lemma SquareMonotone(a: real, b: real)
    requires 0.0 <= a < b
    ensures a * a < b * b
  {
    assert b * b - a * a == (b - a) * (b + a);
    assert 0.0 < b - a && 0.0 < b + a;
  }

  lemma SquareNonNegative(a: real)
    ensures 0.0 <= a * a
  {
    if a < 0.0 {
      assert a * a == (-a) * (-a);
    }
  }

  lemma LengthNonNegative(g: Geometry, v: Vector2D)
    requires g.Sound()
    ensures 0.0 <= g.Length(v) && g.Length(v) * g.Length(v) == v.LengthSq()
  {
    assert 0.0 <= v.LengthSq();
  }

  /** A vector has length zero exactly when it is the zero vector. */
  lemma LengthZero(g: Geometry, v: Vector2D)
    requires g.Sound()
    ensures g.Length(v) == 0.0 <==> v == Zero
  {
    LengthNonNegative(g, v);
    RootZero(g.Length(v), v.LengthSq());
    LengthSqZero(v);
  }

  /** A non-negative root is zero exactly when its square is. */
  lemma RootZero(r: real, sq: real)
    requires 0.0 <= r && r * r == sq
    ensures r == 0.0 <==> sq == 0.0
  {
    if r != 0.0 {
      SquareMonotone(0.0, r);
    }
  }

  lemma LengthSqZero(v: Vector2D)
    ensures v.LengthSq() == 0.0 <==> v == Zero
  {
    if v != Zero {
      LengthSqPositive(v);
    }
  }

  lemma LengthSqPositive(v: Vector2D)
    requires v != Zero
    ensures v.LengthSq() > 0.0
  {
    SquareNonNegative(v.x);
    SquareNonNegative(v.y);
    if v.x != 0.0 {
      SquareMonotone(0.0, Abs(v.x));
      assert v.x * v.x == Abs(v.x) * Abs(v.x);
    } else {
      SquareMonotone(0.0, Abs(v.y));
      assert v.y * v.y == Abs(v.y) * Abs(v.y);
    }
  }

  /** Scaling a vector scales its length by the absolute factor. */
  lemma LengthScale(g: Geometry, v: Vector2D, k: real)
    requires g.Sound()
    ensures g.Length(v.Scale(k)) == Abs(k) * g.Length(v)
  {
    LengthNonNegative(g, v);
    var s := ScaledVectorRoot(v, g.Length(v), k);
    LengthIs(g, v.Scale(k), s);
  }

  /** `|k| r` is the non-negative root of the scaled vector's squared length when `r` is that of the vector's. */
  lemma ScaledVectorRoot(v: Vector2D, r: real, k: real) returns (s: real)
    requires 0.0 <= r && r * r == v.LengthSq()
    ensures s == Abs(k) * r && 0.0 <= s && s * s == v.Scale(k).LengthSq()
  {
    ScaledLengthSq(v, k);
    ScaledRoot(r, v.LengthSq(), k);
    s := Abs(k) * r;
  }

  /** Scaling distributes over a sum of factors. */
  lemma ScaleSum(n: Vector2D, a: real, b: real)
    ensures n.Scale(a).Plus(n.Scale(b)) == n.Scale(a + b)
  {
    assert n.x * a + n.x * b == n.x * (a + b);
    assert n.y * a + n.y * b == n.y * (a + b);
  }

  /** `|k| r` is the non-negative root of `k^2 sq` when `r` is that of `sq`. */
  lemma ScaledRoot(r: real, sq: real, k: real)
    requires 0.0 <= r && r * r == sq
    ensures 0.0 <= Abs(k) * r && (Abs(k) * r) * (Abs(k) * r) == (k * k) * sq
  {
    var a := Abs(k);
    assert a * a == k * k;
    ProductSquare(a, r);
    NonNegativeProduct(a, r);
  }

  lemma ProductSquare(a: real, b: real)
    ensures (a * b) * (a * b) == (a * a) * (b * b)
  {
  }

  lemma NonNegativeProduct(a: real, b: real)
    requires 0.0 <= a && 0.0 <= b
    ensures 0.0 <= a * b
  {
  }

  lemma ScaledLengthSq(v: Vector2D, k: real)
    ensures v.Scale(k).LengthSq() == (k * k) * v.LengthSq()
  {
    assert (v.x * k) * (v.x * k) == (k * k) * (v.x * v.x);
    assert (v.y * k) * (v.y * k) == (k * k) * (v.y * v.y);
  }

  /** Lagrange's identity in the plane. */
  lemma DotCrossIdentity(a: Vector2D, b: Vector2D)
    ensures a.Dot(b) * a.Dot(b) + a.Cross(b) * a.Cross(b) == a.LengthSq() * b.LengthSq()
  {
  }

  lemma DivIsScale(v: Vector2D, k: real)
    requires k != 0.0
    ensures v.Div(k) == v.Scale(1.0 / k)
  {
  }

  /** Normalising a non-zero vector yields a unit vector along it. */
  lemma NormalizeUnit(g: Geometry, v: Vector2D)
    requires g.Sound() && g.Length(v) > 0.0
    ensures g.Length(g.Normalize(v)) == 1.0
    ensures g.Normalize(v).Scale(g.Length(v)) == v
  {
    var l := g.Length(v);
    NormalizeIs(g, v);
    DivIsScale(v, l);
    LengthScale(g, v, 1.0 / l);
  }

  /** The length of the normalised vector is one, or zero for the zero vector. */
  lemma NormalizeLengthAtMostOne(g: Geometry, v: Vector2D)
    requires g.Sound()
    ensures g.Length(g.Normalize(v)) <= 1.0
    ensures g.Normalize(v) == Zero <==> v == Zero
  {
    LengthNonNegative(g, v);
    LengthZero(g, v);
    if g.Length(v) > 0.0 {
      NormalizeUnit(g, v);
      LengthZero(g, g.Normalize(v));
    }
  }

  /** A truncated vector is never longer than the bound. */
  lemma TruncateBound(g: Geometry, v: Vector2D, max: real)
    requires g.Sound() && 0.0 <= max
    ensures g.Length(g.Truncate(v, max)) <= max
  {
    if g.Length(v) > max {
      NormalizeUnit(g, v);
      LengthScale(g, g.Normalize(v), max);
    }
  }

  /** Truncation keeps the vector on its own line. */
  lemma TruncateParallel(g: Geometry, v: Vector2D, max: real, h: Vector2D)
    requires g.Sound() && v.Cross(h) == 0.0
    ensures g.Truncate(v, max).Cross(h) == 0.0
  {
    if g.Length(v) > max {
      var l := g.Length(v);
      LengthNonNegative(g, v);
      NormalizeIs(g, v);
      if l > 0.0 {
        assert g.Normalize(v).Scale(max) == Vector2D(v.x * (1.0 / l) * max, v.y * (1.0 / l) * max);
        assert g.Normalize(v).Scale(max).Cross(h) == (v.x * h.y - v.y * h.x) * ((1.0 / l) * max);
      }
    }
  }

  /** Cauchy-Schwarz in the plane, for lengths given by their squares. */
  lemma CauchySchwarz(a: Vector2D, b: Vector2D, la: real, lb: real)
    requires 0.0 <= la && la * la == a.LengthSq()
    requires 0.0 <= lb && lb * lb == b.LengthSq()
    ensures a.Dot(b) <= la * lb
  {
    ProductSquare(la, lb);
    DotCrossIdentity(a, b);
    NonNegativeProduct(la, lb);
    if a.Dot(b) > la * lb {
      SquareMonotone(la * lb, a.Dot(b));
      SquareNonNegative(a.Cross(b));
    }
  }

  /** The triangle inequality. */
  lemma Triangle(g: Geometry, a: Vector2D, b: Vector2D)
    requires g.Sound()
    ensures g.Length(a.Plus(b)) <= g.Length(a) + g.Length(b)
  {
    var la, lb, lab := g.Length(a), g.Length(b), g.Length(a.Plus(b));
    LengthNonNegative(g, a);
    LengthNonNegative(g, b);
    LengthNonNegative(g, a.Plus(b));
    CauchySchwarz(a, b, la, lb);
    assert lab * lab == la * la + 2.0 * a.Dot(b) + lb * lb;
    assert lab * lab <= (la + lb) * (la + lb);
    if lab > la + lb {
      SquareMonotone(la + lb, lab);
    }
  }

  /** How a region membership test treats the region's border. */
  datatype RegionMode = Normal | HalfSize

  datatype TeamColor = Blue | Red

  /** The extent of the playing area. */
  datatype Rect = Rect(left: real, top: real, right: real, width: real, height: real)

  /**
   * The pitch layout: the centres of the numbered regions, the membership
   * tests on them, and the extent of the playing area.
   */
  datatype Field = Field(
    area: Rect,
    regionCenter: int -> Vector2D,
    insideRegion: (int, Vector2D, RegionMode) -> bool,
    insidePlayingArea: Vector2D -> bool)
}
