/** Plane vectors, the square-root oracle standing for Math.sqrt, point distance
    and the canvas <-> math coordinate transforms of the 2-D PCA widget. */
module Vectors {

  datatype Vec2 = Vec2(x: real, y: real)

  function Add(p: Vec2, q: Vec2): Vec2 { Vec2(p.x + q.x, p.y + q.y) }

  function Sub(p: Vec2, q: Vec2): Vec2 { Vec2(p.x - q.x, p.y - q.y) }

  function Scale(c: real, p: Vec2): Vec2 { Vec2(c * p.x, c * p.y) }

  function Dot(p: Vec2, q: Vec2): real { p.x * q.x + p.y * q.y }

  function NormSq(p: Vec2): (r: real)
    ensures r >= 0.0
  {
    SumOfSquares(p.x, p.y);
    p.x * p.x + p.y * p.y
  }

  /** A square is non-negative, and zero only for zero. */
  lemma SquareNonNeg(a: real)
    ensures a * a >= 0.0
    ensures a != 0.0 ==> a * a > 0.0
  {
    if a < 0.0 {
      MulPos(-a, -a);
      assert a * a == (-a) * (-a);
    } else if a > 0.0 {
      MulPos(a, a);
    }
  }

  lemma SumOfSquares(a: real, b: real)
    ensures a * a + b * b >= 0.0
    ensures a != 0.0 || b != 0.0 ==> a * a + b * b > 0.0
  {
    SquareNonNeg(a);
    SquareNonNeg(b);
    if a != 0.0 {
      assert a * a > 0.0;
    } else if b != 0.0 {
      assert b * b > 0.0;
    }
  }

  lemma MulPos(a: real, b: real)
    requires a > 0.0 && b > 0.0
    ensures a * b > 0.0
  {
  }

  /** Multiplying by a non-negative factor keeps order; by a positive one, strict order. */
  lemma MulMonotone(c: real, a: real, b: real)
    requires 0.0 <= c && a <= b
    ensures c * a <= c * b
    ensures 0.0 < c && a < b ==> c * a < c * b
  {
    assert c * b - c * a == c * (b - a);
    if 0.0 < c && a < b {
      MulPos(c, b - a);
    } else {
      MulNonNeg(c, b - a);
    }
  }

  lemma MulNonNeg(a: real, b: real)
    requires a >= 0.0 && b >= 0.0
    ensures a * b >= 0.0
  {
    if a > 0.0 && b > 0.0 { MulPos(a, b); }
  }

  /** The 90-degree counter-clockwise rotation (x, y) -> (-y, x). */
  function Rotate90(p: Vec2): Vec2
  {
    Vec2(-p.y, p.x)
  }

  /** The rotated vector is perpendicular to the original and as long. */
  lemma RotatePerpendicular(p: Vec2)
    ensures Dot(Rotate90(p), p) == 0.0 && Dot(p, Rotate90(p)) == 0.0
    ensures NormSq(Rotate90(p)) == NormSq(p)
  {
  }

  /** Math.sqrt is a foreign call: the model receives it as a function value
      that is only known to return the non-negative square root of a non-negative argument. */
  ghost predicate IsSqrt(sqrt: real -> real)
  {
    forall x: real :: 0.0 <= x ==> SqrtLaw(sqrt, x)
  }

  ghost predicate SqrtLaw(sqrt: real -> real, x: real)
  {
    0.0 <= sqrt(x) && sqrt(x) * sqrt(x) == x
  }

  /** The square-root law at one argument; proofs ask for it where they need it. */
  lemma SqrtAt(sqrt: real -> real, x: real)
    requires IsSqrt(sqrt) && 0.0 <= x
    ensures 0.0 <= sqrt(x) && sqrt(x) * sqrt(x) == x
  {
    assert SqrtLaw(sqrt, x);
  }

  /** Squaring is strictly monotone on the non-negative reals. */
  lemma SquareMonotone(a: real, b: real)
    requires 0.0 <= a && 0.0 <= b
    ensures a <= b ==> a * a <= b * b
    ensures a < b ==> a * a < b * b
  {
    if a < b {
      assert b * b - a * a == (b - a) * (b + a);
      MulPos(b - a, b + a);
    }
  }

  /** The non-negative square root is unique. */
  lemma {:induction false} SqrtUnique(sqrt: real -> real, x: real, r: real)
    requires IsSqrt(sqrt)
    requires 0.0 <= r && r * r == x
    ensures sqrt(x) == r
  {
    var s := sqrt(x);
    SqrtAt(sqrt, x);
    SquareMonotone(s, r);
    SquareMonotone(r, s);
  }

  /** Square roots preserve strict order. */
  lemma SqrtLess(sqrt: real -> real, a: real, b: real)
    requires IsSqrt(sqrt)
    requires 0.0 <= a && 0.0 <= b
    ensures sqrt(a) < sqrt(b) <==> a < b
  {
    var sa, sb := sqrt(a), sqrt(b);
    SqrtAt(sqrt, a);
    SqrtAt(sqrt, b);
    SquareMonotone(sa, sb);
    SquareMonotone(sb, sa);
  }

  function SquaredDistance(p: Vec2, q: Vec2): real
  {
    (p.x - q.x) * (p.x - q.x) + (p.y - q.y) * (p.y - q.y)
  }

  /** getDistance: the Euclidean distance sqrt((x1-x2)^2 + (y1-y2)^2). */
  function Distance(sqrt: real -> real, p: Vec2, q: Vec2): (r: real)
    requires IsSqrt(sqrt)
    ensures r >= 0.0
    ensures r * r == SquaredDistance(p, q)
  {
    var d := SquaredDistance(p, q);
    assert NormSq(Sub(p, q)) == d;
    SqrtAt(sqrt, d);
    sqrt(d)
  }

  /** The 0.5 pick radius used for deletion and dragging is a bound on the squared distance. */
  lemma WithinPickRadius(sqrt: real -> real, p: Vec2, q: Vec2)
    requires IsSqrt(sqrt)
    ensures Distance(sqrt, p, q) < 0.5 <==> SquaredDistance(p, q) < 0.25
  {
    SqrtUnique(sqrt, 0.25, 0.5);
    assert NormSq(Sub(p, q)) == SquaredDistance(p, q);
    SqrtLess(sqrt, SquaredDistance(p, q), 0.25);
  }

  /** The canvas transform fields: the canvas shows math coordinates -10..10
      on both axes, so scale = size / 20 and the origin sits at size / 2. */
  datatype Viewport = Viewport(scaleX: real, scaleY: real, offsetX: real, offsetY: real)

  /** updateCanvasSize's transform for a canvas of the given pixel size. */
  function ViewportFor(width: real, height: real): (v: Viewport)
    ensures width > 0.0 && height > 0.0 ==> v.scaleX > 0.0 && v.scaleY > 0.0
    ensures MathToCanvasRaw(v, Vec2(0.0, 0.0)) == Vec2(width / 2.0, height / 2.0)
  {
    Viewport(width / 20.0, height / 20.0, width / 2.0, height / 2.0)
  }

  function MathToCanvasRaw(v: Viewport, m: Vec2): Vec2
  {
    Vec2(m.x * v.scaleX + v.offsetX, -m.y * v.scaleY + v.offsetY)
  }

  /** canvasToMath: pixel position to math coordinates (the y axis points up). */
  function CanvasToMath(v: Viewport, c: Vec2): (m: Vec2)
    requires v.scaleX != 0.0 && v.scaleY != 0.0
    ensures MathToCanvasRaw(v, m) == c
  {
    var m := Vec2((c.x - v.offsetX) / v.scaleX, -(c.y - v.offsetY) / v.scaleY);
    assert m.x * v.scaleX == c.x - v.offsetX;
    assert -m.y * v.scaleY == c.y - v.offsetY;
    assert MathToCanvasRaw(v, m).x == c.x;
    assert MathToCanvasRaw(v, m).y == c.y;
    m
  }

  /** mathToCanvas: math coordinates to pixel position; undone by CanvasToMath. */
  function MathToCanvas(v: Viewport, m: Vec2): (c: Vec2)
    requires v.scaleX != 0.0 && v.scaleY != 0.0
    ensures CanvasToMath(v, c) == m
  {
    var c := MathToCanvasRaw(v, m);
    assert (c.x - v.offsetX) / v.scaleX == m.x;
    assert -(c.y - v.offsetY) / v.scaleY == m.y;
    c
  }
}
