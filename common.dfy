/** Shared vocabulary of the page script: optional values (JavaScript's
    `undefined`), points in the plane, and the browser's square root and
    angle functions, which the model receives as parameters rather than
    computing. */
module Common {

  /** A value that may be absent; `None` stands for JavaScript's `undefined`. */
  datatype Option<T> = None | Some(value: T)

  /** A point (or a vector) in pixel coordinates. */
  datatype Point = Point(x: real, y: real)

  /** Squared length of a vector. */
  function Norm2(v: Point): real {
    v.x * v.x + v.y * v.y
  }

  function Abs(v: real): (r: real)
    ensures 0.0 <= r && (r == v || r == -v)
  {
    if v < 0.0 then -v else v
  }

  /** `sqrt` behaves as `Math.sqrt` on the non-negative reals: it returns the
      non-negative root. Nothing else about it is assumed. */
  ghost predicate IsSqrt(sqrt: real -> real) {
    forall v :: 0.0 <= v ==> 0.0 <= sqrt(v) && sqrt(v) * sqrt(v) == v
  }

  /** `Math.sqrt(v.x * v.x + v.y * v.y)`: the length of a vector. */
  function Length(v: Point, sqrt: real -> real): real {
    sqrt(v.x * v.x + v.y * v.y)
  }

  /** `(Math.cos(a), Math.sin(a))` for `a = Math.atan2(dy, dx)`, where
      `distance` is the length of `(dx, dy)`. `atan2(0, 0)` is 0, so the
      degenerate vector gives the direction `(1, 0)`. */
  function Direction(dx: real, dy: real, distance: real): Point {
    if distance == 0.0 then Point(1.0, 0.0) else Point(dx / distance, dy / distance)
  }

  /** A product of reals is zero only when a factor is. */
  lemma MulZero(a: real, b: real)
    requires a * b == 0.0
    ensures a == 0.0 || b == 0.0
  {
    if a != 0.0 {
      assert b == (a * b) / a;
    }
  }

  /** A square is never negative. */
  lemma SquareNonNegative(a: real)
    ensures 0.0 <= a * a
  {
    if a < 0.0 {
      assert a * a == (-a) * (-a);
    }
  }

  /** Only zero squares to zero. */
  lemma SquareZero(a: real)
    ensures a * a == 0.0 ==> a == 0.0
  {
    if a * a == 0.0 {
      MulZero(a, a);
    }
  }

  lemma SquareEq(a: real, b: real)
    requires a == b
    ensures a * a == b * b
  {
  }

  lemma ScaledSquare(u: real, d: real)
    ensures (u * d) * (u * d) == (u * u) * (d * d)
  {
  }

  /** A vector has length zero exactly when both of its components are zero. */
  lemma ZeroLength(dx: real, dy: real, distance: real)
    requires 0.0 <= distance && distance * distance == dx * dx + dy * dy
    ensures distance == 0.0 <==> dx == 0.0 && dy == 0.0
  {
    SquareNonNegative(dx);
    SquareNonNegative(dy);
    SquareZero(dx);
    SquareZero(dy);
    SquareZero(distance);
  }

  /** The direction points along the vector: scaling it by the length gives
      the vector back. */
  lemma DirectionScales(dx: real, dy: real, distance: real)
    requires 0.0 <= distance && distance * distance == dx * dx + dy * dy
    ensures Direction(dx, dy, distance).x * distance == dx
    ensures Direction(dx, dy, distance).y * distance == dy
  {
    ZeroLength(dx, dy, distance);
  }

  /** If scaling `(u, v)` by a non-zero `d` gives a vector of length `d`,
      then `(u, v)` has unit length. */
  lemma UnitFromScaled(u: real, v: real, d: real, a: real, b: real)
    requires d != 0.0 && u * d == a && v * d == b && a * a + b * b == d * d
    ensures u * u + v * v == 1.0
  {
    SquareEq(u * d, a);
    SquareEq(v * d, b);
    ScaledSquare(u, d);
    ScaledSquare(v, d);
    assert (u * u + v * v - 1.0) * (d * d) == 0.0;
    MulZero(u * u + v * v - 1.0, d * d);
    SquareZero(d);
  }

  /** The direction of a vector has unit length, as `(cos a, sin a)` does. */
  lemma DirectionIsUnit(dx: real, dy: real, distance: real)
    requires 0.0 <= distance && distance * distance == dx * dx + dy * dy
    ensures Norm2(Direction(dx, dy, distance)) == 1.0
  {
    if distance != 0.0 {
      DirectionScales(dx, dy, distance);
      var c := Direction(dx, dy, distance);
      UnitFromScaled(c.x, c.y, distance, dx, dy);
    }
  }

  /** `sqrt` applied to a sum of squares gives that vector's length. */
  lemma SqrtOfSquares(sqrt: real -> real, dx: real, dy: real)
    requires IsSqrt(sqrt)
    ensures 0.0 <= sqrt(dx * dx + dy * dy)
    ensures sqrt(dx * dx + dy * dy) * sqrt(dx * dx + dy * dy) == dx * dx + dy * dy
  {
    SquareNonNegative(dx);
    SquareNonNegative(dy);
  }

  /** Non-negative reals with equal squares are equal. */
  lemma RootUnique(a: real, b: real)
    requires 0.0 <= a && 0.0 <= b && a * a == b * b
    ensures a == b
  {
    assert (a - b) * (a + b) == 0.0;
    MulZero(a - b, a + b);
  }

  /** Multiplying by a sum that equals one changes nothing. */
  lemma MulOne(s: real, k: real)
    requires s == 1.0
    ensures s * k == k
  {
  }

  /** A unit direction scaled by a non-negative `r` has length `r`. */
  lemma ScaledUnitLength(c: Point, r: real, sqrt: real -> real)
    requires IsSqrt(sqrt) && Norm2(c) == 1.0 && 0.0 <= r
    ensures Length(Point(c.x * r, c.y * r), sqrt) == r
  {
    var v := Point(c.x * r, c.y * r);
    ScaledSquare(c.x, r);
    ScaledSquare(c.y, r);
    MulOne(c.x * c.x + c.y * c.y, r * r);
    assert Norm2(v) == r * r;
    SqrtOfSquares(sqrt, v.x, v.y);
    RootUnique(Length(v, sqrt), r);
  }
}
