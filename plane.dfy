/**
 * Plane geometry shared by both Koch variants: exact coordinates, points,
 * directed lines, the three new vertices of a Koch kink, and the map from
 * the logical square [-1,1] x [-1,1] to pixel coordinates.
 *
 * Coordinates are exact numbers of the form a + b*sqrt(3). The only
 * irrational constant the construction needs is sqrt(3)/2 (the sine of
 * 60 degrees); with rational seeds and pixel sizes every coordinate the
 * program computes lies in this field, so the model is exact where the
 * program rounds to doubles.
 */
module Plane {

  /** The number a + b*sqrt(3). */
  datatype Coord = Coord(a: real, b: real)

  /** A plain real number, embedded. */
  function Of(r: real): Coord { Coord(r, 0.0) }

  function Add(u: Coord, v: Coord): Coord { Coord(u.a + v.a, u.b + v.b) }

  function Sub(u: Coord, v: Coord): Coord { Coord(u.a - v.a, u.b - v.b) }

  /** Multiplication by a real factor. */
  function Scale(u: Coord, k: real): Coord { Coord(u.a * k, u.b * k) }

  /** u / 3. */
  function Third(u: Coord): Coord { Coord(u.a / 3.0, u.b / 3.0) }

  /** u * 2. */
  function Double(u: Coord): Coord { Coord(u.a * 2.0, u.b * 2.0) }

  /** u * 0.5. */
  function Half(u: Coord): Coord { Coord(u.a * 0.5, u.b * 0.5) }

  /** (a + b*sqrt(3)) * (c + d*sqrt(3)) = (ac + 3bd) + (ad + bc)*sqrt(3). */
  function Mul(u: Coord, v: Coord): Coord
  {
    Coord(u.a * v.a + 3.0 * u.b * v.b, u.a * v.b + u.b * v.a)
  }

  /** sqrt(3)/2, the sine of 60 degrees (np.sqrt(3)/2 in the program). */
  const Sqrt3Half: Coord := Coord(0.0, 0.5)

  /** u * sqrt(3)/2: (a + b*sqrt(3)) * sqrt(3)/2 = 3b/2 + (a/2)*sqrt(3). */
  function TimesSqrt3Half(u: Coord): (r: Coord)
    ensures r == Mul(u, Sqrt3Half)
  {
    Coord(1.5 * u.b, 0.5 * u.a)
  }

  /** The real number that u denotes once r is fixed as a square root of 3. */
  ghost function Value(u: Coord, r: real): real { u.a + u.b * r }

  /** (a + b r)(c + d r) = (ac + 3bd) + (ad + bc) r when r * r == 3. */
  lemma ProductWithRoot(a: real, b: real, c: real, d: real, r: real)
    requires r * r == 3.0
    ensures (a + b * r) * (c + d * r) == a * c + 3.0 * b * d + (a * d + b * c) * r
  {
    calc {
      (a + b * r) * (c + d * r);
    ==
      a * c + (a * d + b * c) * r + b * d * (r * r);
    ==
      a * c + 3.0 * b * d + (a * d + b * c) * r;
    }
  }

  /** Scaling a Coord scales the real it denotes, whatever r is. */
  lemma ValueScales(u: Coord, k: real, r: real)
    ensures Value(Scale(u, k), r) == Value(u, r) * k
    ensures Value(Third(u), r) == Value(u, r) / 3.0
    ensures Value(Double(u), r) == Value(u, r) * 2.0
    ensures Value(Half(u), r) == Value(u, r) * 0.5
  {
    assert (u.a + u.b * r) * k == u.a * k + (u.b * r) * k;
  }

  /** The arithmetic on Coord is the arithmetic of the reals it denotes. */
  lemma ValueHomomorphism(u: Coord, v: Coord, k: real, r: real)
    requires r * r == 3.0
    ensures Value(Add(u, v), r) == Value(u, r) + Value(v, r)
    ensures Value(Sub(u, v), r) == Value(u, r) - Value(v, r)
    ensures Value(Scale(u, k), r) == Value(u, r) * k
    ensures Value(Mul(u, v), r) == Value(u, r) * Value(v, r)
    ensures Value(Of(k), r) == k
    ensures Value(Third(u), r) == Value(u, r) / 3.0
    ensures Value(Double(u), r) == Value(u, r) * 2.0
    ensures Value(Half(u), r) == Value(u, r) * 0.5
  {
    ValueScales(u, k, r);
    ProductWithRoot(u.a, u.b, v.a, v.b, r);
  }

  /** Sqrt3Half is the positive square root of 3/4. */
  lemma Sqrt3HalfSquared(r: real)
    requires r > 0.0 && r * r == 3.0
    ensures Mul(Sqrt3Half, Sqrt3Half) == Of(0.75)
    ensures Value(Sqrt3Half, r) > 0.0 && 2.0 * Value(Sqrt3Half, r) == r
  {
  }

  /** A point [x, y] of the program. */
  datatype Point = Point(x: Coord, y: Coord)

  /** The point with plain real coordinates (x, y). */
  function P(x: real, y: real): Point { Point(Of(x), Of(y)) }

  /** Vector difference p - q. */
  function Minus(p: Point, q: Point): Point { Point(Sub(p.x, q.x), Sub(p.y, q.y)) }

  /** Vector p scaled by a real factor. */
  function Times(p: Point, k: real): Point { Point(Scale(p.x, k), Scale(p.y, k)) }

  function Dot(p: Point, q: Point): Coord { Add(Mul(p.x, q.x), Mul(p.y, q.y)) }

  /** The z-component of the cross product p x q: positive when q lies counter-clockwise of p. */
  function Cross(p: Point, q: Point): Coord { Sub(Mul(p.x, q.y), Mul(p.y, q.x)) }

  /** Squared Euclidean length. */
  function Norm2(p: Point): Coord { Dot(p, p) }

  /** A directed segment between two points (class Line of both variants). */
  datatype Line = Line(start: Point, end: Point)

  /** Line.lx: the x-extent of the line, so that start.x + lx == end.x. */
  function Lx(l: Line): (r: Coord)
    ensures Add(l.start.x, r) == l.end.x
  {
    Sub(l.end.x, l.start.x)
  }

  /** Line.ly: the y-extent of the line, so that start.y + ly == end.y. */
  function Ly(l: Line): (r: Coord)
    ensures Add(l.start.y, r) == l.end.y
  {
    Sub(l.end.y, l.start.y)
  }

  /** The offset (lx, ly) of a line, as a vector. */
  function Offset(l: Line): Point { Point(Lx(l), Ly(l)) }

  /** lx and ly lead from the start of a line to its end. */
  lemma LineOffset(l: Line)
    ensures Add(l.start.x, Lx(l)) == l.end.x && Add(l.start.y, Ly(l)) == l.end.y
    ensures Offset(l) == Minus(l.end, l.start)
  {
  }

  /** The first new vertex of the kink: start + (lx, ly)/3. */
  function OneThird(l: Line): (r: Point)
    ensures Times(Minus(r, l.start), 3.0) == Minus(l.end, l.start)
  {
    Point(Add(l.start.x, Third(Lx(l))), Add(l.start.y, Third(Ly(l))))
  }

  /** The third new vertex of the kink: start + (lx, ly)*2/3. */
  function TwoThirds(l: Line): (r: Point)
    ensures Times(Minus(l.end, r), 3.0) == Minus(l.end, l.start)
  {
    Point(Add(l.start.x, Third(Double(Lx(l)))), Add(l.start.y, Third(Double(Ly(l)))))
  }

  /**
   * The apex erected on [p1, p2]: p1 plus (p2 - p1) rotated by +60 degrees,
   * x' = dx/2 - dy*sqrt(3)/2, y' = dx*sqrt(3)/2 + dy/2.
   */
  function Apex(p1: Point, p2: Point): (r: Point)
  {
    var dx := Sub(p2.x, p1.x);
    var dy := Sub(p2.y, p1.y);
    Point(Sub(Add(p1.x, Half(dx)), TimesSqrt3Half(dy)),
          Add(Add(p1.y, TimesSqrt3Half(dx)), Half(dy)))
  }

  /** The two third points cut the line into three equal pieces. */
  lemma ThirdsSplitLine(l: Line)
    ensures Minus(OneThird(l), l.start) == Minus(TwoThirds(l), OneThird(l))
    ensures Minus(TwoThirds(l), OneThird(l)) == Minus(l.end, TwoThirds(l))
    ensures Times(Minus(OneThird(l), l.start), 3.0) == Minus(l.end, l.start)
  {
  }

  /** Points with the same four components are the same point. */
  lemma SamePoint(p: Point, q: Point)
    requires p.x.a == q.x.a && p.x.b == q.x.b && p.y.a == q.y.a && p.y.b == q.y.b
    ensures p == q
  {
  }

  /** The two third points of a line coincide only when the line is a single point. */
  lemma ThirdsCoincide(l: Line)
    ensures OneThird(l) == TwoThirds(l) ==> l.start == l.end
  {
    ThirdsSplitLine(l);
    if OneThird(l) == TwoThirds(l) {
      SamePoint(l.start, l.end);
    }
  }

  /** (d.x, d.y) turned counter-clockwise by 60 degrees. */
  function Rotate60(d: Point): Point
  {
    Point(Sub(Half(d.x), TimesSqrt3Half(d.y)), Add(TimesSqrt3Half(d.x), Half(d.y)))
  }

  /**
   * The component identities behind Rotate60Identities, for d = (x1 + x2*sqrt(3), y1 + y2*sqrt(3))
   * and its rotation e = (ea + eb*sqrt(3), fa + fb*sqrt(3)).
   */
  lemma RotationPolynomials(x1: real, x2: real, y1: real, y2: real, ea: real, eb: real, fa: real, fb: real)
    requires ea == 0.5 * x1 - 1.5 * y2 && eb == 0.5 * x2 - 0.5 * y1
    requires fa == 1.5 * x2 + 0.5 * y1 && fb == 0.5 * x1 + 0.5 * y2
    ensures x1 * ea + 3.0 * x2 * eb + (y1 * fa + 3.0 * y2 * fb) == 0.5 * (x1 * x1 + 3.0 * x2 * x2 + (y1 * y1 + 3.0 * y2 * y2))
    ensures x1 * eb + x2 * ea + (y1 * fb + y2 * fa) == 0.5 * (x1 * x2 + x2 * x1 + (y1 * y2 + y2 * y1))
    ensures x1 * fa + 3.0 * x2 * fb - (y1 * ea + 3.0 * y2 * eb) == 3.0 * 0.5 * (x1 * x2 + x2 * x1 + (y1 * y2 + y2 * y1))
    ensures x1 * fb + x2 * fa - (y1 * eb + y2 * ea) == 0.5 * (x1 * x1 + 3.0 * x2 * x2 + (y1 * y1 + 3.0 * y2 * y2))
    ensures ea * ea + 3.0 * eb * eb + (fa * fa + 3.0 * fb * fb) == x1 * x1 + 3.0 * x2 * x2 + (y1 * y1 + 3.0 * y2 * y2)
    ensures ea * eb + eb * ea + (fa * fb + fb * fa) == x1 * x2 + x2 * x1 + (y1 * y2 + y2 * y1)
    ensures (x1 - ea) * (x1 - ea) + 3.0 * (x2 - eb) * (x2 - eb) + ((y1 - fa) * (y1 - fa) + 3.0 * (y2 - fb) * (y2 - fb))
         == x1 * x1 + 3.0 * x2 * x2 + (y1 * y1 + 3.0 * y2 * y2)
    ensures (x1 - ea) * (x2 - eb) + (x2 - eb) * (x1 - ea) + ((y1 - fa) * (y2 - fb) + (y2 - fb) * (y1 - fa))
         == x1 * x2 + x2 * x1 + (y1 * y2 + y2 * y1)
  {
  }

  /** Dot product written out in the components of a + b*sqrt(3). */
  lemma DotComponents(d: Point, e: Point)
    ensures Dot(d, e) == Coord(d.x.a * e.x.a + 3.0 * d.x.b * e.x.b + (d.y.a * e.y.a + 3.0 * d.y.b * e.y.b),
                               d.x.a * e.x.b + d.x.b * e.x.a + (d.y.a * e.y.b + d.y.b * e.y.a))
  {
  }

  /** Cross product written out in the components of a + b*sqrt(3). */
  lemma CrossComponents(d: Point, e: Point)
    ensures Cross(d, e) == Coord(d.x.a * e.y.a + 3.0 * d.x.b * e.y.b - (d.y.a * e.x.a + 3.0 * d.y.b * e.x.b),
                                 d.x.a * e.y.b + d.x.b * e.y.a - (d.y.a * e.x.b + d.y.b * e.x.a))
  {
  }

  /** The offset e is d turned by 60 degrees, component by component. */
  predicate IsRotation60(d: Point, e: Point)
  {
    e.x.a == 0.5 * d.x.a - 1.5 * d.y.b && e.x.b == 0.5 * d.x.b - 0.5 * d.y.a &&
    e.y.a == 1.5 * d.x.b + 0.5 * d.y.a && e.y.b == 0.5 * d.x.a + 0.5 * d.y.b
  }

  lemma DotOfRotation(d: Point, e: Point)
    requires IsRotation60(d, e)
    ensures Dot(d, e) == Half(Norm2(d))
  {
    RotationPolynomials(d.x.a, d.x.b, d.y.a, d.y.b, e.x.a, e.x.b, e.y.a, e.y.b);
    DotFromComponents(d, e);
  }

  lemma DotFromComponents(d: Point, e: Point)
    requires d.x.a * e.x.a + 3.0 * d.x.b * e.x.b + (d.y.a * e.y.a + 3.0 * d.y.b * e.y.b)
          == 0.5 * (d.x.a * d.x.a + 3.0 * d.x.b * d.x.b + (d.y.a * d.y.a + 3.0 * d.y.b * d.y.b))
    requires d.x.a * e.x.b + d.x.b * e.x.a + (d.y.a * e.y.b + d.y.b * e.y.a)
          == 0.5 * (d.x.a * d.x.b + d.x.b * d.x.a + (d.y.a * d.y.b + d.y.b * d.y.a))
    ensures Dot(d, e) == Half(Norm2(d))
  {
    DotComponents(d, d);
    DotComponents(d, e);
  }

  lemma CrossOfRotation(d: Point, e: Point)
    requires IsRotation60(d, e)
    ensures Cross(d, e) == Mul(Sqrt3Half, Norm2(d))
  {
    RotationPolynomials(d.x.a, d.x.b, d.y.a, d.y.b, e.x.a, e.x.b, e.y.a, e.y.b);
    CrossFromComponents(d, e);
  }

  lemma CrossFromComponents(d: Point, e: Point)
    requires d.x.a * e.y.a + 3.0 * d.x.b * e.y.b - (d.y.a * e.x.a + 3.0 * d.y.b * e.x.b)
          == 3.0 * 0.5 * (d.x.a * d.x.b + d.x.b * d.x.a + (d.y.a * d.y.b + d.y.b * d.y.a))
    requires d.x.a * e.y.b + d.x.b * e.y.a - (d.y.a * e.x.b + d.y.b * e.x.a)
          == 0.5 * (d.x.a * d.x.a + 3.0 * d.x.b * d.x.b + (d.y.a * d.y.a + 3.0 * d.y.b * d.y.b))
    ensures Cross(d, e) == Mul(Sqrt3Half, Norm2(d))
  {
    DotComponents(d, d);
    CrossComponents(d, e);
  }

  lemma NormOfRotation(d: Point, e: Point)
    requires IsRotation60(d, e)
    ensures Norm2(e) == Norm2(d)
  {
    RotationPolynomials(d.x.a, d.x.b, d.y.a, d.y.b, e.x.a, e.x.b, e.y.a, e.y.b);
    NormFromComponents(d, e);
  }

  lemma NormFromComponents(d: Point, e: Point)
    requires e.x.a * e.x.a + 3.0 * e.x.b * e.x.b + (e.y.a * e.y.a + 3.0 * e.y.b * e.y.b)
          == d.x.a * d.x.a + 3.0 * d.x.b * d.x.b + (d.y.a * d.y.a + 3.0 * d.y.b * d.y.b)
    requires e.x.a * e.x.b + e.x.b * e.x.a + (e.y.a * e.y.b + e.y.b * e.y.a)
          == d.x.a * d.x.b + d.x.b * d.x.a + (d.y.a * d.y.b + d.y.b * d.y.a)
    ensures Norm2(e) == Norm2(d)
  {
    DotComponents(d, d);
    DotComponents(e, e);
  }

  lemma RemainderOfRotation(d: Point, e: Point)
    requires IsRotation60(d, e)
    ensures Norm2(Minus(d, e)) == Norm2(d)
  {
    var m := Minus(d, e);
    assert m.x.a == d.x.a - e.x.a && m.x.b == d.x.b - e.x.b;
    assert m.y.a == d.y.a - e.y.a && m.y.b == d.y.b - e.y.b;
    RotationPolynomials(d.x.a, d.x.b, d.y.a, d.y.b, e.x.a, e.x.b, e.y.a, e.y.b);
    NormFromComponents(d, m);
  }

  /** Rotating by 60 degrees gives dot product |d|^2 cos 60 and cross product |d|^2 sin 60 with d, and keeps |d|^2. */
  lemma Rotate60Identities(d: Point)
    ensures Dot(d, Rotate60(d)) == Half(Norm2(d))
    ensures Cross(d, Rotate60(d)) == Mul(Sqrt3Half, Norm2(d))
    ensures Norm2(Rotate60(d)) == Norm2(d)
    ensures Norm2(Minus(d, Rotate60(d))) == Norm2(d)
  {
    assert IsRotation60(d, Rotate60(d));
    DotOfRotation(d, Rotate60(d));
    CrossOfRotation(d, Rotate60(d));
    NormOfRotation(d, Rotate60(d));
    RemainderOfRotation(d, Rotate60(d));
  }

  /**
   * The apex is p1 plus (p2 - p1) turned counter-clockwise by exactly 60 degrees:
   * its offset has dot product |d|^2 cos 60 and cross product |d|^2 sin 60 with
   * d = p2 - p1, and p1, p2 and the apex form an equilateral triangle.
   */
  lemma ApexIsRotation(p1: Point, p2: Point)
    ensures Minus(Apex(p1, p2), p1) == Rotate60(Minus(p2, p1))
    ensures Dot(Minus(p2, p1), Minus(Apex(p1, p2), p1)) == Half(Norm2(Minus(p2, p1)))
    ensures Cross(Minus(p2, p1), Minus(Apex(p1, p2), p1)) == Mul(Sqrt3Half, Norm2(Minus(p2, p1)))
    ensures Norm2(Minus(Apex(p1, p2), p1)) == Norm2(Minus(p2, p1))
    ensures Norm2(Minus(p2, Apex(p1, p2))) == Norm2(Minus(p2, p1))
  {
    var d := Minus(p2, p1);
    assert Minus(Apex(p1, p2), p1) == Rotate60(d);
    assert Minus(p2, Apex(p1, p2)) == Minus(d, Rotate60(d));
    Rotate60Identities(d);
  }

  /** 4^k, the factor by which k refinements multiply the number of segments. */
  function Pow4(k: nat): (r: nat)
    ensures r >= 1
  {
    if k == 0 then 1 else 4 * Pow4(k - 1)
  }

  /** One more refinement multiplies m pieces by 4^k as four times 4^(k-1) m. */
  lemma Pow4Times(k: nat, m: nat)
    requires k > 0
    ensures Pow4(k) * m == 4 * (Pow4(k - 1) * m)
  {
    var p := Pow4(k - 1);
    assert Pow4(k) == 4 * p;
    assert (4 * p) * m == 4 * (p * m);
  }

  /** On a level segment of length d the apex stands d*sqrt(3)/2 above the midpoint. */
  lemma LevelApex(x: real, y: real, d: real)
    ensures Apex(P(x, y), P(x + d, y)) == Point(Of(x + d / 2.0), Add(Of(y), Scale(Sqrt3Half, d)))
  {
  }

  /**
   * The kink on the segment from (0,0) to (3,0) erects its apex on the
   * middle third from (1,0) to (2,0), at (1.5, sqrt(3)/2).
   */
  lemma ApexExample()
    ensures Apex(P(1.0, 0.0), P(2.0, 0.0)) == Point(Of(1.5), Sqrt3Half)
  {
    LevelApex(1.0, 0.0, 1.0);
  }

  /**
   * Scene.cart_mapper: [-1,1] x [-1,1] onto a width x height canvas, y
   * pointing down; the corners of the logical square land on the corners of
   * the canvas and the origin at its centre.
   */
  function ToPixel(p: Point, width: real, height: real): (r: Point)
    ensures p == P(-1.0, 1.0) ==> r == P(0.0, 0.0)
    ensures p == P(1.0, -1.0) ==> r == P(width, height)
    ensures p == P(0.0, 0.0) ==> r == P(width / 2.0, height / 2.0)
  {
    Point(Add(Of(width / 2.0), Scale(p.x, width / 2.0)),
          Sub(Of(height / 2.0), Scale(p.y, height / 2.0)))
  }

  /** The inverse of ToPixel, defined for a canvas of non-zero size. */
  function FromPixel(q: Point, width: real, height: real): Point
    requires width != 0.0 && height != 0.0
  {
    Point(Scale(Sub(q.x, Of(width / 2.0)), 2.0 / width),
          Scale(Sub(Of(height / 2.0), q.y), 2.0 / height))
  }

  /**
   * Korsh's Scene.cart_mapper: both endpoints of a line mapped to pixels, so
   * the diagonal of the logical square becomes the diagonal of the canvas.
   */
  function LineToPixel(l: Line, width: real, height: real): (r: Line)
    ensures l == Line(P(-1.0, 1.0), P(1.0, -1.0)) ==> r == Line(P(0.0, 0.0), P(width, height))
  {
    Line(ToPixel(l.start, width, height), ToPixel(l.end, width, height))
  }

  /** The pixel map stretches a line's offset by width/2 across and by height/2 downwards. */
  lemma LineToPixelOffset(l: Line, width: real, height: real)
    ensures Offset(LineToPixel(l, width, height))
         == Point(Scale(Lx(l), width / 2.0), Scale(Ly(l), -(height / 2.0)))
  {
  }

  /** On a canvas of non-zero size the pixel map is a bijection. */
  lemma PixelRoundTrip(p: Point, q: Point, width: real, height: real)
    requires width != 0.0 && height != 0.0
    ensures FromPixel(ToPixel(p, width, height), width, height) == p
    ensures ToPixel(FromPixel(q, width, height), width, height) == q
  {
  }
}
