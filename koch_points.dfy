/**
 * The point-list variant of the Koch refinement (Koch.py): the curve is a
 * polyline held as a list of points (PLine), and one update walks the list
 * and inserts the new points of each kink into it in place.
 *
 * The update is modelled as the program runs it, not as the textbook
 * refinement: the range of the loop is fixed when the loop starts, the
 * rebinding `i = i+3` inside the loop body has no effect on the next
 * iteration, the three inserts at the same index put the new points in
 * reverse order, and iteration i subdivides whatever sits at positions
 * i-1 and i at that moment, which is a point inserted earlier in the same
 * pass as soon as i >= 2. The textbook refinement, Refine, is defined
 * beside it.
 *
 * The shape of a pass (how long the list gets, what stays where) does not
 * depend on where the kink puts its points, so the pass is defined for any
 * rule that gives five points per line; the program's rule is Gamma.
 */
module KochPoints {
  import opened Plane

  /** gamma: the five points of the kink on a line, from its start to its end. */
  function Gamma(line: Line): (r: seq<Point>)
    ensures |r| == 5
    ensures r[0] == line.start && r[4] == line.end
  {
    var one := OneThird(line);
    var two := TwoThirds(line);
    [line.start, one, Apex(one, two), two, line.end]
  }

  /**
   * The points of gamma are start, one-third point, apex, two-thirds point
   * and end: the two third points cut the line into three equal pieces, and
   * the apex stands on the middle piece as an equilateral triangle, to the
   * left of the line's direction (the middle piece turned by +60 degrees).
   */
  lemma GammaKink(line: Line)
    ensures var r := Gamma(line);
      && Minus(r[1], r[0]) == Minus(r[3], r[1]) == Minus(r[4], r[3])
      && Times(Minus(r[1], r[0]), 3.0) == Minus(r[4], r[0])
      && Minus(r[2], r[1]) == Rotate60(Minus(r[3], r[1]))
      && Norm2(Minus(r[2], r[1])) == Norm2(Minus(r[3], r[1]))
      && Norm2(Minus(r[3], r[2])) == Norm2(Minus(r[3], r[1]))
      && Cross(Minus(r[3], r[1]), Minus(r[2], r[1])) == Mul(Sqrt3Half, Norm2(Minus(r[3], r[1])))
  {
    ThirdsSplitLine(line);
    ApexIsRotation(OneThird(line), TwoThirds(line));
  }
  /** The list the curve starts from, [[-1,0], [1,0]]: two distinct points mirrored through the y axis. */
  /** The list the curve starts from: [[-1,0], [1,0]]. */
  function Seed(): (r: seq<Point>)
    ensures |r| == 2 && r[0] != r[1] && r[0].y == r[1].y && r[1].x == Scale(r[0].x, -1.0)
  {
    [P(-1.0, 0.0), P(1.0, 0.0)]
  }

  /** A kink rule: five points for every line, as gamma gives. */
  ghost predicate FivePoints(kink: Line -> seq<Point>)
  {
    forall l :: |kink(l)| == 5
  }

  lemma GammaFivePoints()
    ensures FivePoints(Gamma)
  {
  }

  /** list.insert(i, p) for an index within the list. */
  function Insert(s: seq<Point>, i: nat, p: Point): (r: seq<Point>)
    requires i <= |s|
    ensures |r| == |s| + 1 && r[i] == p
    ensures r[..i] == s[..i] && r[i + 1..] == s[i..]
  {
    s[..i] + [p] + s[i..]
  }

  /** Three inserts at the same index i leave the inserted points in reverse order. */
  lemma InsertThrice(s: seq<Point>, i: nat, a: Point, b: Point, c: Point)
    requires i <= |s|
    ensures Insert(Insert(Insert(s, i, a), i, b), i, c) == s[..i] + [c, b, a] + s[i..]
  {
    var t := Insert(Insert(Insert(s, i, a), i, b), i, c);
    assert t[..i] == s[..i] && t[i..i + 3] == [c, b, a] && t[i + 3..] == s[i..];
    assert t == t[..i] + t[i..i + 3] + t[i + 3..];
  }

  /**
   * The body of the update loop for index i >= 1: the kink of the pair at
   * i-1 and i, whose points 1, 2 and 3 are inserted one after another at
   * index i, so that they end up in the order 3, 2, 1 (InsertThrice).
   */
  function Subdivide(kink: Line -> seq<Point>, s: seq<Point>, i: nat): (r: seq<Point>)
    requires FivePoints(kink)
    requires 1 <= i < |s|
    ensures |r| == |s| + 3
    ensures r[..i] == s[..i] && r[i + 3..] == s[i..]
  {
    var g := kink(Line(s[i - 1], s[i]));
    s[..i] + [g[3], g[2], g[1]] + s[i..]
  }

  /** The three inserts of iteration i, with start == s[i-1], build Subdivide(Gamma, s, i). */
  lemma InsertedKink(s: seq<Point>, i: nat)
    requires 1 <= i < |s|
    ensures FivePoints(Gamma)
    ensures var g := Gamma(Line(s[i - 1], s[i]));
      Insert(Insert(Insert(s, i, g[1]), i, g[2]), i, g[3]) == Subdivide(Gamma, s, i)
  {
    GammaFivePoints();
    var g := Gamma(Line(s[i - 1], s[i]));
    InsertThrice(s, i, g[1], g[2], g[3]);
  }

  /**
   * With gamma, iteration i puts the kink of the pair (s[i-1], s[i]) between
   * them with its three new points reversed: two-thirds point, apex,
   * one-third point.
   */
  lemma SubdivideKink(s: seq<Point>, i: nat)
    requires 1 <= i < |s|
    ensures FivePoints(Gamma)
    ensures var g := Gamma(Line(s[i - 1], s[i]));
      Subdivide(Gamma, s, i)[i - 1..i + 4] == [g[0], g[3], g[2], g[1], g[4]]
  {
    GammaFivePoints();
  }

  /** Iterations i, i+1, ..., n-1 of the update loop, on the list as it is before iteration i. */
  function Pass(kink: Line -> seq<Point>, s: seq<Point>, i: nat, n: nat): (r: seq<Point>)
    requires FivePoints(kink)
    requires 1 <= i <= n <= |s|
    ensures |r| == |s| + 3 * (n - i)
    decreases n - i
  {
    if i == n then s else Pass(kink, Subdivide(kink, s, i), i + 1, n)
  }

  /** Iteration i followed by iterations i+1 .. n-1 is iterations i .. n-1. */
  lemma PassStep(kink: Line -> seq<Point>, s: seq<Point>, i: nat, n: nat)
    requires FivePoints(kink)
    requires 1 <= i < n <= |s|
    ensures Pass(kink, Subdivide(kink, s, i), i + 1, n) == Pass(kink, s, i, n)
  {
  }

  /**
   * What one run of the update loop leaves in the list: iteration 0 only
   * records the first point, iterations 1 .. n-1 (n the length on entry)
   * each subdivide.
   */
  function UpdatedBy(kink: Line -> seq<Point>, s: seq<Point>): (r: seq<Point>)
    requires FivePoints(kink)
    ensures |s| == 0 ==> r == []
    ensures |s| >= 1 ==> |r| == 4 * (|s| - 1) + 1
  {
    if |s| == 0 then s else Pass(kink, s, 1, |s|)
  }

  /** Koch.update's effect on the list of points. */
  function Updated(s: seq<Point>): (r: seq<Point>)
    ensures |s| >= 1 ==> |r| == 4 * (|s| - 1) + 1 && r[0] == s[0] && r[|r| - 1] == s[|s| - 1]
  {
    GammaFivePoints();
    UpdatedShape(Gamma, s);
    UpdatedBy(Gamma, s)
  }

  /** Two lists that agree on their first i+1 points agree on their first i. */
  lemma ShorterPrefix(a: seq<Point>, b: seq<Point>, i: nat)
    requires i < |a| && i < |b| && a[..i + 1] == b[..i + 1]
    ensures a[..i] == b[..i]
  {
    assert a[..i] == a[..i + 1][..i];
  }

  /** Two lists whose tails from k and m agree, agree on their tails from k+2 and m+2. */
  lemma LaterSuffix(a: seq<Point>, b: seq<Point>, k: nat, m: nat)
    requires k + 2 <= |a| && m + 2 <= |b| && a[k..] == b[m..]
    ensures a[k + 2..] == b[m + 2..]
  {
    assert a[k + 2..] == a[k..][2..];
    assert b[m + 2..] == b[m..][2..];
  }

  /** Iterations i .. n-1 leave the first i points untouched. */
  lemma {:induction false} PassPrefix(kink: Line -> seq<Point>, s: seq<Point>, i: nat, n: nat)
    requires FivePoints(kink)
    requires 1 <= i <= n <= |s|
    ensures i <= |Pass(kink, s, i, n)| && Pass(kink, s, i, n)[..i] == s[..i]
    decreases n - i
  {
    if i < n {
      var t := Subdivide(kink, s, i);
      PassPrefix(kink, t, i + 1, n);
      ShorterPrefix(Pass(kink, t, i + 1, n), t, i);
    }
  }

  /**
   * Iterations i .. n-1 leave the points that were at i and later at the
   * end of the list, unchanged and in order.
   */
  lemma {:induction false} PassSuffix(kink: Line -> seq<Point>, s: seq<Point>, i: nat, n: nat)
    requires FivePoints(kink)
    requires 1 <= i <= n <= |s|
    ensures |Pass(kink, s, i, n)| == |s| + 3 * (n - i)
    ensures Pass(kink, s, i, n)[i + 3 * (n - i)..] == s[i..]
    decreases n - i
  {
    if i < n {
      var t := Subdivide(kink, s, i);
      PassSuffix(kink, t, i + 1, n);
      LaterSuffix(Pass(kink, t, i + 1, n), t, i + 1 + 3 * (n - (i + 1)), i + 1);
    }
  }

  /** The first point of a list, read off a prefix. */
  lemma FirstOfPrefix(a: seq<Point>, b: seq<Point>)
    requires 1 <= |a| && 1 <= |b| && a[..1] == b[..1]
    ensures a[0] == b[0]
  {
    assert a[0] == a[..1][0];
  }

  /** The last point of a list, read off a suffix. */
  lemma LastOfSuffix(a: seq<Point>, b: seq<Point>, k: nat)
    requires k < |a| && 2 <= |b| && a[k..] == b[1..]
    ensures a[|a| - 1] == b[|b| - 1]
  {
    assert a[|a| - 1] == a[k..][|a| - 1 - k];
  }

  /**
   * One update of n >= 1 points gives 4(n-1)+1 points; the first point
   * stays first, and the original points 1 .. n-1, the last one included,
   * end the list unchanged and in order. The update of the empty list
   * leaves it empty.
   */
  lemma UpdatedShape(kink: Line -> seq<Point>, s: seq<Point>)
    requires FivePoints(kink)
    ensures |s| == 0 ==> UpdatedBy(kink, s) == []
    ensures |s| >= 1 ==> |UpdatedBy(kink, s)| == 4 * (|s| - 1) + 1
    ensures |s| >= 1 ==> UpdatedBy(kink, s)[0] == s[0]
    ensures |s| >= 1 ==> UpdatedBy(kink, s)[3 * (|s| - 1) + 1..] == s[1..]
    ensures |s| >= 1 ==> UpdatedBy(kink, s)[|UpdatedBy(kink, s)| - 1] == s[|s| - 1]
  {
    if |s| >= 1 {
      var r := UpdatedBy(kink, s);
      PassPrefix(kink, s, 1, |s|);
      PassSuffix(kink, s, 1, |s|);
      FirstOfPrefix(r, s);
      if |s| >= 2 {
        LastOfSuffix(r, s, 3 * (|s| - 1) + 1);
      }
    }
  }

  /**
   * One update of the two-point list [a, b] gives [a, two-thirds point,
   * apex, one-third point, b]: the kink's interior points in reverse order.
   */
  lemma UpdatedSegment(a: Point, b: Point)
    ensures var g := Gamma(Line(a, b)); Updated([a, b]) == [a, g[3], g[2], g[1], b]
  {
    GammaFivePoints();
    assert Updated([a, b]) == Subdivide(Gamma, [a, b], 1);
  }

  /**
   * So for any two distinct points the update's second point is the
   * two-thirds point, which is not the one-third point the kink starts with.
   */
  lemma UpdatedSegmentReversed(a: Point, b: Point)
    requires a != b
    ensures Updated([a, b])[1] == TwoThirds(Line(a, b))
    ensures Updated([a, b])[1] != OneThird(Line(a, b))
  {
    UpdatedSegment(a, b);
    ThirdsCoincide(Line(a, b));
  }

  /**
   * The point that iteration 2 inserts last into a list of three points:
   * the one-third point of the line from the two-thirds point to the apex,
   * both inserted by iteration 1.
   */
  function Resubdivided(p: Point, q: Point): Point
  {
    var l := Line(p, q);
    OneThird(Line(TwoThirds(l), Apex(OneThird(l), TwoThirds(l))))
  }

  /**
   * The component equations of "turning e = (x1 + x2*sqrt(3), y1 + y2*sqrt(3))
   * by 60 degrees and taking away 4e leaves 3g" force g = 0 only when e = 0,
   * and then the offset d = 3e vanishes too.
   */
  lemma NoStretchingRotation(x1: real, x2: real, y1: real, y2: real,
                             d1: real, d2: real, d3: real, d4: real,
                             g1: real, g2: real, g3: real, g4: real)
    requires 0.5 * x1 - 1.5 * y2 - x1 * 4.0 == g1 * 3.0 && 0.5 * x2 - 0.5 * y1 - x2 * 4.0 == g2 * 3.0
    requires 1.5 * x2 + 0.5 * y1 - y1 * 4.0 == g3 * 3.0 && 0.5 * x1 + 0.5 * y2 - y2 * 4.0 == g4 * 3.0
    requires d1 == x1 * 3.0 && d2 == x2 * 3.0 && d3 == y1 * 3.0 && d4 == y2 * 3.0
    ensures g1 == 0.0 && g2 == 0.0 && g3 == 0.0 && g4 == 0.0 ==> d1 == 0.0 && d2 == 0.0 && d3 == 0.0 && d4 == 0.0
  {
  }

  /** When w - q = 0 forces q - p = 0 component by component, w = q forces p = q. */
  lemma SameFromComponents(p: Point, q: Point, w: Point)
    requires w.x.a - q.x.a == 0.0 && w.x.b - q.x.b == 0.0 && w.y.a - q.y.a == 0.0 && w.y.b - q.y.b == 0.0
             ==> q.x.a - p.x.a == 0.0 && q.x.b - p.x.b == 0.0 && q.y.a - p.y.a == 0.0 && q.y.b - p.y.b == 0.0
    ensures w == q ==> p == q
  {
    if w == q {
      SamePoint(p, q);
    }
  }

  /**
   * Three times the gap from the resubdivided point to q is R e - 4e, where
   * e is a third of the line from p to q and R the turn by 60 degrees.
   */
  lemma ResubdividedOffset(p: Point, q: Point)
    ensures var e := Minus(OneThird(Line(p, q)), p);
      Minus(Rotate60(e), Times(e, 4.0)) == Times(Minus(Resubdivided(p, q), q), 3.0)
  {
    var l := Line(p, q);
    var o := OneThird(l);
    var t := TwoThirds(l);
    var a := Apex(o, t);
    var w := OneThird(Line(t, a));
    var e := Minus(o, p);
    ThirdsSplitLine(l);
    assert Minus(t, o) == e && Minus(q, t) == e;
    assert Minus(a, o) == Rotate60(e);
    assert Times(Minus(w, t), 3.0) == Minus(a, t);
    assert Minus(a, t) == Minus(Rotate60(e), e);
  }

  /** Three times the gap from the point to q, component by component. */
  lemma OffsetComponents(p: Point, q: Point, e: Point)
    requires Minus(q, p) == Times(e, 3.0)
    ensures q.x.a - p.x.a == e.x.a * 3.0 && q.x.b - p.x.b == e.x.b * 3.0
    ensures q.y.a - p.y.a == e.y.a * 3.0 && q.y.b - p.y.b == e.y.b * 3.0
  {
  }

  /** R e - 4e = 3(w - q), component by component. */
  lemma StretchComponents(e: Point, w: Point, q: Point)
    requires Minus(Rotate60(e), Times(e, 4.0)) == Times(Minus(w, q), 3.0)
    ensures 0.5 * e.x.a - 1.5 * e.y.b - e.x.a * 4.0 == (w.x.a - q.x.a) * 3.0
    ensures 0.5 * e.x.b - 0.5 * e.y.a - e.x.b * 4.0 == (w.x.b - q.x.b) * 3.0
    ensures 1.5 * e.x.b + 0.5 * e.y.a - e.y.a * 4.0 == (w.y.a - q.y.a) * 3.0
    ensures 0.5 * e.x.a + 0.5 * e.y.b - e.y.b * 4.0 == (w.y.b - q.y.b) * 3.0
  {
  }

  /**
   * A point w with 3(w - q) = R e - 4e, where 3e = q - p, is q only when p
   * is q: a turn by 60 degrees does not stretch e fourfold unless e is zero.
   */
  lemma OffsetMissesEnd(p: Point, q: Point, w: Point, e: Point)
    requires Minus(Rotate60(e), Times(e, 4.0)) == Times(Minus(w, q), 3.0)
    requires Minus(q, p) == Times(e, 3.0)
    ensures w == q ==> p == q
  {
    StretchComponents(e, w, q);
    OffsetComponents(p, q, e);
    NoStretchingRotation(e.x.a, e.x.b, e.y.a, e.y.b,
                         q.x.a - p.x.a, q.x.b - p.x.b, q.y.a - p.y.a, q.y.b - p.y.b,
                         w.x.a - q.x.a, w.x.b - q.x.b, w.y.a - q.y.a, w.y.b - q.y.b);
    SameFromComponents(p, q, w);
  }

  /** The resubdivided point lands on q only when p and q coincide. */
  lemma ResubdividedMissesEnd(p: Point, q: Point)
    ensures Resubdivided(p, q) == q ==> p == q
  {
    ResubdividedOffset(p, q);
    ThirdsSplitLine(Line(p, q));
    OffsetMissesEnd(p, q, Resubdivided(p, q), Minus(OneThird(Line(p, q)), p));
  }

  /**
   * One update of three points [p, q, w] with p != q: iteration 2
   * subdivides the pair (two-thirds point, apex) that iteration 1 has just
   * inserted, so index 4 holds Resubdivided(p, q) and not the original
   * point q.
   */
  lemma UpdatedResubdivides(s: seq<Point>)
    requires |s| == 3 && s[0] != s[1]
    ensures Updated(s)[4] == Resubdivided(s[0], s[1])
    ensures Updated(s)[4] != s[1]
  {
    GammaFivePoints();
    var t := Subdivide(Gamma, s, 1);
    var u := Subdivide(Gamma, t, 2);
    assert Pass(Gamma, s, 1, 3) == Pass(Gamma, t, 2, 3);
    assert Pass(Gamma, t, 2, 3) == u;
    assert t[1] == TwoThirds(Line(s[0], s[1]));
    assert t[2] == Apex(OneThird(Line(s[0], s[1])), TwoThirds(Line(s[0], s[1])));
    assert u[4] == OneThird(Line(t[1], t[2]));
    ResubdividedMissesEnd(s[0], s[1]);
  }

  /** The list after k runs of the update loop. */
  function IteratedBy(kink: Line -> seq<Point>, s: seq<Point>, k: nat): seq<Point>
    requires FivePoints(kink)
  {
    if k == 0 then s else UpdatedBy(kink, IteratedBy(kink, s, k - 1))
  }

  /** The list after k calls of update. */
  function Iterated(s: seq<Point>, k: nat): seq<Point>
  {
    GammaFivePoints();
    IteratedBy(Gamma, s, k)
  }

  /** k updates of n >= 1 points give 4^k (n-1) + 1 points, with the first and last point kept. */
  lemma {:induction false} IteratedShape(kink: Line -> seq<Point>, s: seq<Point>, k: nat)
    requires FivePoints(kink)
    requires |s| >= 1
    ensures |IteratedBy(kink, s, k)| == Pow4(k) * (|s| - 1) + 1
    ensures IteratedBy(kink, s, k)[0] == s[0]
    ensures IteratedBy(kink, s, k)[|IteratedBy(kink, s, k)| - 1] == s[|s| - 1]
  {
    if k > 0 {
      IteratedShape(kink, s, k - 1);
      UpdatedShape(kink, IteratedBy(kink, s, k - 1));
      Pow4Times(k, |s| - 1);
    }
  }

  /** k updates of the seed give 4^k + 1 points, from (-1,0) to (1,0). */
  lemma SeedIterated(k: nat)
    ensures |Iterated(Seed(), k)| == Pow4(k) + 1
    ensures Iterated(Seed(), k)[0] == P(-1.0, 0.0)
    ensures Iterated(Seed(), k)[Pow4(k)] == P(1.0, 0.0)
  {
    GammaFivePoints();
    IteratedShape(Gamma, Seed(), k);
  }

  /**
   * The refinement the loop was evidently meant to perform: every segment
   * of the list replaced by its kink, in the kink's own order.
   */
  function Refine(s: seq<Point>): (r: seq<Point>)
    ensures |s| >= 1 ==> |r| == 4 * (|s| - 1) + 1 && r[0] == s[0]
    decreases |s|
  {
    if |s| <= 1 then s else Gamma(Line(s[0], s[1]))[..4] + Refine(s[1..])
  }

  /** Indexing into the second part of a concatenation. */
  lemma ConcatIndex(a: seq<Point>, b: seq<Point>, k: nat)
    requires k < |b|
    ensures (a + b)[|a| + k] == b[k]
  {
  }

  /** Slicing the second part of a concatenation. */
  lemma ConcatSlice(a: seq<Point>, b: seq<Point>, k: nat, m: nat)
    requires k <= m <= |b|
    ensures (a + b)[|a| + k..|a| + m] == b[k..m]
  {
  }

  /** A prefix of a concatenation reaching one point into its second part. */
  lemma ConcatPrefix(a: seq<Point>, b: seq<Point>)
    requires 1 <= |b|
    ensures (a + b)[..|a| + 1] == a + [b[0]]
  {
  }

  /** A list of five points is its first four followed by its last. */
  lemma FiveSplit(g: seq<Point>)
    requires |g| == 5
    ensures g[..4] + [g[4]] == g
  {
  }

  /** Refine keeps every original point j, at index 4j. */
  lemma {:induction false} RefineVertex(s: seq<Point>, j: nat)
    requires j < |s|
    ensures 4 * j < |Refine(s)| && Refine(s)[4 * j] == s[j]
    decreases |s|
  {
    if j > 0 {
      var t := s[1..];
      var h := Gamma(Line(s[0], s[1]))[..4];
      RefineVertex(t, j - 1);
      ConcatIndex(h, Refine(t), 4 * (j - 1));
      assert t[j - 1] == s[j];
    }
  }

  /** Refine puts the kink of segment j, in its own order, at indices 4j .. 4j+4. */
  lemma {:induction false} RefineKink(s: seq<Point>, j: nat)
    requires j + 1 < |s|
    ensures 4 * j + 5 <= |Refine(s)|
    ensures Refine(s)[4 * j..4 * j + 5] == Gamma(Line(s[j], s[j + 1]))
    decreases |s|
  {
    var g := Gamma(Line(s[0], s[1]));
    var t := s[1..];
    if j == 0 {
      RefineVertex(t, 0);
      ConcatPrefix(g[..4], Refine(t));
      FiveSplit(g);
    } else {
      RefineKink(t, j - 1);
      ConcatSlice(g[..4], Refine(t), 4 * (j - 1), 4 * (j - 1) + 5);
      assert t[j - 1] == s[j] && t[j] == s[j + 1];
    }
  }

  /**
   * For any segment [a, b] with a != b the update and the refinement part
   * ways at index 1: the update puts the two-thirds point there, Refine the
   * one-third point.
   */
  lemma UpdateIsNotRefine(a: Point, b: Point)
    requires a != b
    ensures Refine([a, b])[1] == OneThird(Line(a, b))
    ensures Updated([a, b]) != Refine([a, b])
  {
    UpdatedSegmentReversed(a, b);
    RefineKink([a, b], 0);
    assert Refine([a, b])[1] == Refine([a, b])[0..5][1];
  }

  /** A polyline (PLine): a list of points that grows by appending. */
  class PLine {
    var points: seq<Point>

    constructor()
      ensures points == []
    {
      points := [];
    }

    /** PLine.add: append one point. */
    method Add(p: Point)
      modifies this
      ensures points == old(points) + [p]
    {
      points := points + [p];
    }
  }

  /** The Koch curve: one polyline, updated in place. */
  class Koch {
    const structure: PLine

    /** The curve starts as the segment from (-1,0) to (1,0). */
    constructor()
      ensures fresh(structure)
      ensures structure.points == Seed()
    {
      var pline := new PLine();
      pline.Add(P(-1.0, 0.0));
      pline.Add(P(1.0, 0.0));
      structure := pline;
    }

    /**
     * Koch.update: one pass of the insertion loop over the list. The loop
     * bound is the length on entry; `start` always holds the point just
     * before index i.
     */
    method Update()
      modifies structure
      ensures structure.points == Updated(old(structure.points))
    {
      GammaFivePoints();
      var n := |structure.points|;
      var start: Point := *;
      for i := 0 to n
        invariant i == 0 ==> structure.points == old(structure.points)
        invariant 1 <= i ==> n <= |structure.points| && start == structure.points[i - 1]
        invariant 1 <= i ==> Pass(Gamma, structure.points, i, n) == Pass(Gamma, old(structure.points), 1, n)
      {
        if i == 0 {
          start := structure.points[i];
        } else {
          var g := Gamma(Line(start, structure.points[i]));
          ghost var before := structure.points;
          structure.points := Insert(structure.points, i, g[1]);
          structure.points := Insert(structure.points, i, g[2]);
          structure.points := Insert(structure.points, i, g[3]);
          InsertedKink(before, i);
          PassStep(Gamma, before, i, n);
          start := structure.points[i];
          // the source's `i = i+3` rebinds the loop variable only: the next
          // iteration takes i+1 from the range regardless
        }
      }
    }
  }

  /** The module-level driver: n updates of one curve. */
  method ApplyUpdates(koch: Koch, n: nat)
    modifies koch.structure
    ensures koch.structure.points == Iterated(old(koch.structure.points), n)
  {
    for k := 0 to n
      invariant koch.structure.points == Iterated(old(koch.structure.points), k)
    {
      koch.Update();
    }
  }

  /** The scene: a canvas of width x height pixels and the polylines drawn on it. */
  class Scene {
    const name: string
    var items: seq<PLine>
    const height: int
    const width: int

    constructor(name: string := "svg", height: int := 768, width: int := 1024)
      ensures this.name == name && this.height == height && this.width == width
      ensures items == []
    {
      this.name := name;
      this.height := height;
      this.width := width;
      items := [];
    }

    /** Scene.cart_mapper: the pixel position of a point of [-1,1] x [-1,1], y pointing down. */
    function CartMapper(p: Point): (r: Point)
      ensures p == P(-1.0, 1.0) ==> r == P(0.0, 0.0)
      ensures p == P(1.0, -1.0) ==> r == P(width as real, height as real)
    {
      ToPixel(p, width as real, height as real)
    }

    /**
     * Scene.add_pline: map every point of the curve's polyline to pixels,
     * in place, once, then add the polyline itself (the same object) to the
     * scene as one item.
     */
    method AddPline(figure: Koch)
      modifies this, figure.structure
      ensures |figure.structure.points| == |old(figure.structure.points)|
      ensures forall j :: 0 <= j < |figure.structure.points| ==>
                figure.structure.points[j] == CartMapper(old(figure.structure.points)[j])
      ensures items == old(items) + [figure.structure]
    {
      var pline := figure.structure;
      for j := 0 to |pline.points|
        invariant |pline.points| == |old(pline.points)|
        invariant forall k :: 0 <= k < j ==> pline.points[k] == CartMapper(old(pline.points)[k])
        invariant forall k :: j <= k < |pline.points| ==> pline.points[k] == old(pline.points)[k]
        invariant items == old(items)
      {
        pline.points := pline.points[j := CartMapper(pline.points[j])];
      }
      items := items + [pline];
    }
  }
}
