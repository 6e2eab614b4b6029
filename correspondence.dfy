/**
 * The two variants side by side. A chained list of lines and the polyline
 * through its vertices carry the same curve; under that correspondence the
 * segment-list update (Korsh.py) is exactly the textbook refinement of the
 * point list, Refine, which the point-list update (Koch.py) was meant to
 * perform.
 */
module Correspondence {
  import opened Plane
  import KochPoints
  import KochSegments

  /** The polyline through a list of lines: the start of every line, then the end of the last. */
  function Vertices(ls: seq<Line>): (r: seq<Point>)
    ensures |r| == if |ls| == 0 then 0 else |ls| + 1
    ensures |ls| > 0 ==> r[|ls|] == ls[|ls| - 1].end
    ensures forall j :: 0 <= j < |ls| ==> r[j] == ls[j].start
  {
    if |ls| == 0 then []
    else seq(|ls| + 1, j requires 0 <= j <= |ls| => if j < |ls| then ls[j].start else ls[|ls| - 1].end)
  }

  /** The lines between consecutive points of a polyline. */
  function Segments(s: seq<Point>): (r: seq<Line>)
    ensures |r| == if |s| == 0 then 0 else |s| - 1
    ensures forall j :: 0 <= j < |r| ==> r[j] == Line(s[j], s[j + 1])
  {
    if |s| <= 1 then [] else seq(|s| - 1, j requires 0 <= j < |s| - 1 => Line(s[j], s[j + 1]))
  }

  /** The lines between the points of a polyline are chained. */
  lemma SegmentsChained(s: seq<Point>)
    ensures KochSegments.Chained(Segments(s))
  {
  }

  /** Vertex j of a chained list is the start of line j, and the end of line j-1. */
  lemma VertexAt(ls: seq<Line>, j: nat)
    requires KochSegments.Chained(ls)
    requires j < |ls|
    ensures Vertices(ls)[j] == ls[j].start && Vertices(ls)[j + 1] == ls[j].end
  {
    if j + 1 < |ls| {
      assert ls[j].end == ls[j + 1].start;
    }
  }

  /**
   * Chained lists of lines and polylines of at least two points are the
   * same thing: each is recovered from the other.
   */
  lemma VerticesRoundTrip(ls: seq<Line>, s: seq<Point>)
    ensures KochSegments.Chained(ls) ==> Segments(Vertices(ls)) == ls
    ensures |s| >= 2 ==> Vertices(Segments(s)) == s
  {
    if KochSegments.Chained(ls) {
      var r := Segments(Vertices(ls));
      forall j | 0 <= j < |ls|
        ensures r[j] == ls[j]
      {
        VertexAt(ls, j);
      }
    }
    if |s| >= 2 {
      SegmentsChained(s);
      var v := Vertices(Segments(s));
      forall j | 0 <= j < |s|
        ensures v[j] == s[j]
      {
        if j < |s| - 1 {
          VertexAt(Segments(s), j);
        } else {
          VertexAt(Segments(s), j - 1);
        }
      }
    }
  }

  /** Vertex j of two lists of lines, one after the other. */
  lemma ConcatVertexAt(a: seq<Line>, b: seq<Line>, j: nat)
    requires |a| > 0 && |b| > 0 && j <= |a| + |b|
    ensures |Vertices(a + b)| == |Vertices(a)[..|a|] + Vertices(b)|
    ensures Vertices(a + b)[j] == (Vertices(a)[..|a|] + Vertices(b))[j]
  {
    var c := a + b;
    if j < |a| {
      assert c[j] == a[j];
    } else if j < |c| {
      assert c[j] == b[j - |a|];
    } else {
      assert c[|c| - 1] == b[|b| - 1];
    }
  }

  /** The polyline through two non-empty lists of lines, one after the other. */
  lemma VerticesConcat(a: seq<Line>, b: seq<Line>)
    requires |a| > 0 && |b| > 0
    ensures Vertices(a + b) == Vertices(a)[..|a|] + Vertices(b)
  {
    ConcatVertexAt(a, b, 0);
    forall j | 0 <= j <= |a| + |b|
      ensures Vertices(a + b)[j] == (Vertices(a)[..|a|] + Vertices(b))[j]
    {
      ConcatVertexAt(a, b, j);
    }
  }

  /** The vertices of the four lines of Korsh's gamma are the five points of Koch's gamma. */
  lemma GammasAgree(l: Line)
    ensures Vertices(KochSegments.Gamma(l)) == KochPoints.Gamma(l)
  {
    var g := KochSegments.Gamma(l);
    assert g[0].end == g[1].start && g[1].end == g[2].start && g[2].end == g[3].start;
  }

  /**
   * One update of a chained, non-empty list of lines draws the polyline
   * that Refine makes of the polyline through the lines.
   */
  lemma {:induction false} RefinedIsRefine(ls: seq<Line>)
    requires KochSegments.Chained(ls) && |ls| > 0
    ensures Vertices(KochSegments.Refined(ls)) == KochPoints.Refine(Vertices(ls))
  {
    var l := ls[0];
    var g := KochSegments.Gamma(l);
    GammasAgree(l);
    var v := Vertices(ls);
    if |ls| == 1 {
      assert ls[1..] == [];
      assert KochSegments.RefinedBy(KochSegments.Gamma, ls) == g + KochSegments.RefinedBy(KochSegments.Gamma, []);
      assert KochSegments.Refined(ls) == g;
      assert v[1..] == [l.end];
      assert KochPoints.Refine(v) == KochPoints.Gamma(Line(v[0], v[1]))[..4] + [l.end];
    } else {
      var t := ls[1..];
      KochSegments.ChainedTail(ls);
      RefinedIsRefine(t);
      KochSegments.GammaFourChained();
      VerticesConcat(g, KochSegments.Refined(t));
      assert v[1..] == Vertices(t);
      assert v[1] == l.end by {
        VertexAt(ls, 0);
      }
      assert Line(v[0], v[1]) == l;
    }
  }

  /**
   * So the segment-list update is determined by Refine: it returns the
   * lines between the points that Refine makes of the polyline through the
   * old lines.
   */
  lemma RefinedThroughPoints(ls: seq<Line>)
    requires KochSegments.Chained(ls) && |ls| > 0
    ensures KochSegments.Refined(ls) == Segments(KochPoints.Refine(Vertices(ls)))
  {
    KochSegments.GammaFourChained();
    KochSegments.RefinedKeepsChain(KochSegments.Gamma, ls);
    RefinedIsRefine(ls);
    VerticesRoundTrip(KochSegments.Refined(ls), []);
  }
}
