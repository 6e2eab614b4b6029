/**
 * The segment-list variant of the Koch refinement (Korsh.py): the curve is
 * a list of Lines, and one update replaces every line by the four lines of
 * its kink and flattens the result.
 *
 * How the list grows and stays connected does not depend on where the kink
 * puts its new vertices, only on the kink giving four chained lines from
 * the line's start to its end; so the refinement is defined for any such
 * rule, and the program's rule is Gamma.
 */
module KochSegments {
  import opened Plane

  /**
   * Every line ends where the next one starts. The quantifier names both
   * neighbours, j and k = j + 1, so that each is an index term the solver can
   * match, and no instance creates a new index ls[j + 1] to match again.
   */
  ghost predicate Chained(ls: seq<Line>)
  {
    forall j, k :: 0 <= j < k < |ls| && k == j + 1 ==> ls[j].end == ls[k].start
  }

  /**
   * gamma: the kink on a line as four lines, start to one-third point, on to
   * the apex, on to the two-thirds point and on to the end.
   */
  function Gamma(line: Line): (r: seq<Line>)
    ensures |r| == 4 && Chained(r)
    ensures r[0].start == line.start && r[3].end == line.end
  {
    var one := OneThird(line);
    var two := TwoThirds(line);
    var apex := Apex(one, two);
    [Line(line.start, one), Line(one, apex), Line(apex, two), Line(two, line.end)]
  }

  /**
   * The four pieces of gamma, as offsets (lx, ly): the first is a third of
   * the line, the second is the first turned by +60 degrees, the third
   * closes the equilateral triangle over the middle third, and the fourth
   * repeats the first; all four have the same length. Together with the
   * first start and the chaining this fixes every point of the kink.
   */
  lemma GammaPieces(line: Line)
    ensures var r := Gamma(line);
      && Times(Offset(r[0]), 3.0) == Offset(line)
      && Offset(r[1]) == Rotate60(Offset(r[0]))
      && Offset(r[2]) == Minus(Offset(r[0]), Offset(r[1]))
      && Offset(r[3]) == Offset(r[0])
      && Norm2(Offset(r[1])) == Norm2(Offset(r[0]))
      && Norm2(Offset(r[2])) == Norm2(Offset(r[0]))
  {
    var r := Gamma(line);
    ThirdsSplitLine(line);
    ApexIsRotation(OneThird(line), TwoThirds(line));
    assert Offset(r[0]) == Minus(TwoThirds(line), OneThird(line));
  }

  /**
   * The list the curve starts from: the one line from (-1,0) to (1,0), a
   * level line of non-zero length mirrored through the y axis.
   */
  function Seed(): (r: seq<Line>)
    ensures |r| == 1 && r[0].start != r[0].end
    ensures r[0].start.y == r[0].end.y && r[0].end.x == Scale(r[0].start.x, -1.0)
  {
    [Line(P(-1.0, 0.0), P(1.0, 0.0))]
  }

  /** A kink rule as gamma is one: four chained lines from the line's start to its end. */
  ghost predicate FourChained(kink: Line -> seq<Line>)
  {
    forall l :: |kink(l)| == 4 && Chained(kink(l)) && kink(l)[0].start == l.start && kink(l)[3].end == l.end
  }

  lemma GammaFourChained()
    ensures FourChained(Gamma)
  {
  }

  /** Every line replaced by the lines its kink gives, in order. */
  function RefinedBy(kink: Line -> seq<Line>, ls: seq<Line>): (r: seq<Line>)
    ensures FourChained(kink) ==> |r| == 4 * |ls|
  {
    if |ls| == 0 then [] else kink(ls[0]) + RefinedBy(kink, ls[1..])
  }

  /**
   * Koch.update's effect on the list of lines: four lines for every line, a
   * chain kept a chain, from the same first start to the same last end.
   */
  function Refined(ls: seq<Line>): (r: seq<Line>)
    ensures |r| == 4 * |ls|
    ensures Chained(ls) ==> Chained(r)
    ensures |ls| > 0 ==> r[0].start == ls[0].start && r[|r| - 1].end == ls[|ls| - 1].end
  {
    GammaFourChained();
    RefinedKeepsChain(Gamma, ls);
    RefinedBy(Gamma, ls)
  }

  /** Lines 4j .. 4j+3 of the refinement are the kink of line j. */
  lemma {:induction false} RefinedAt(kink: Line -> seq<Line>, ls: seq<Line>, j: nat, k: nat)
    requires FourChained(kink)
    requires j < |ls| && k < 4
    ensures 4 * j + k < |RefinedBy(kink, ls)|
    ensures RefinedBy(kink, ls)[4 * j + k] == kink(ls[j])[k]
  {
    if j > 0 {
      RefinedAt(kink, ls[1..], j - 1, k);
    }
  }

  /** Two chained lists, the second starting where the first ends, chain up. */
  lemma ChainedConcat(a: seq<Line>, b: seq<Line>)
    requires Chained(a) && Chained(b)
    requires |a| > 0 && |b| > 0 ==> a[|a| - 1].end == b[0].start
    ensures Chained(a + b)
  {
    var c := a + b;
    forall j, k | 0 <= j < k < |c| && k == j + 1
      ensures c[j].end == c[k].start
    {
      if k < |a| {
        assert c[j] == a[j] && c[k] == a[k];
      } else if j >= |a| {
        assert c[j] == b[j - |a|] && c[k] == b[k - |a|];
      }
    }
  }

  /** The tail of a chained list is chained. */
  lemma ChainedTail(ls: seq<Line>)
    requires |ls| > 0 && Chained(ls)
    ensures Chained(ls[1..])
  {
    var t := ls[1..];
    forall j, k | 0 <= j < k < |t| && k == j + 1
      ensures t[j].end == t[k].start
    {
      assert t[j] == ls[j + 1] && t[k] == ls[k + 1];
    }
  }

  /**
   * The refinement keeps the first start and the last end, and a chained
   * list refines to a chained list.
   */
  lemma {:induction false} RefinedKeepsChain(kink: Line -> seq<Line>, ls: seq<Line>)
    requires FourChained(kink)
    ensures |RefinedBy(kink, ls)| == 4 * |ls|
    ensures |ls| > 0 ==> RefinedBy(kink, ls)[0].start == ls[0].start
    ensures |ls| > 0 ==> RefinedBy(kink, ls)[4 * |ls| - 1].end == ls[|ls| - 1].end
    ensures Chained(ls) ==> Chained(RefinedBy(kink, ls))
  {
    if |ls| > 0 {
      var g := kink(ls[0]);
      var t := ls[1..];
      RefinedKeepsChain(kink, t);
      if Chained(ls) {
        ChainedTail(ls);
        if |t| > 0 {
          assert ls[0].end == t[0].start;
        }
        ChainedConcat(g, RefinedBy(kink, t));
      }
      if |t| > 0 {
        assert RefinedBy(kink, ls)[4 * |ls| - 1] == RefinedBy(kink, t)[4 * |t| - 1];
      }
    }
  }

  /**
   * Conversely, a list whose refinement is chained was chained: line j ends
   * where the last piece of its kink ends, which is where the first piece of
   * the kink of line j+1 starts.
   */
  lemma RefinedChainedOnlyIfChained(kink: Line -> seq<Line>, ls: seq<Line>)
    requires FourChained(kink)
    ensures Chained(RefinedBy(kink, ls)) ==> Chained(ls)
  {
    if Chained(RefinedBy(kink, ls)) {
      var r := RefinedBy(kink, ls);
      forall j, k | 0 <= j < k < |ls| && k == j + 1
        ensures ls[j].end == ls[k].start
      {
        RefinedAt(kink, ls, j, 3);
        RefinedAt(kink, ls, k, 0);
        assert r[4 * j + 3].end == r[4 * k].start;
      }
    }
  }

  /** The list after k refinements. */
  function IteratedBy(kink: Line -> seq<Line>, ls: seq<Line>, k: nat): seq<Line>
  {
    if k == 0 then ls else RefinedBy(kink, IteratedBy(kink, ls, k - 1))
  }

  /** The list after k calls of update. */
  function Iterated(ls: seq<Line>, k: nat): seq<Line>
  {
    IteratedBy(Gamma, ls, k)
  }

  /** k refinements of m lines give 4^k m lines; a chain stays a chain with the same two ends. */
  lemma {:induction false} IteratedShape(kink: Line -> seq<Line>, ls: seq<Line>, k: nat)
    requires FourChained(kink)
    ensures |IteratedBy(kink, ls, k)| == Pow4(k) * |ls|
    ensures |ls| > 0 ==> IteratedBy(kink, ls, k)[0].start == ls[0].start
    ensures |ls| > 0 ==> IteratedBy(kink, ls, k)[Pow4(k) * |ls| - 1].end == ls[|ls| - 1].end
    ensures Chained(ls) ==> Chained(IteratedBy(kink, ls, k))
  {
    if k > 0 {
      var before := IteratedBy(kink, ls, k - 1);
      IteratedShape(kink, ls, k - 1);
      RefinedKeepsChain(kink, before);
      Pow4Times(k, |ls|);
    }
  }

  /** k updates of one line give 4^k chained lines from its start to its end. */
  lemma LineIterated(l: Line, k: nat)
    ensures |Iterated([l], k)| == Pow4(k)
    ensures Chained(Iterated([l], k))
    ensures Iterated([l], k)[0].start == l.start
    ensures Iterated([l], k)[Pow4(k) - 1].end == l.end
  {
    GammaFourChained();
    IteratedShape(Gamma, [l], k);
    assert Chained([l]);
  }

  /** k updates of the seed give 4^k chained lines from (-1,0) to (1,0). */
  lemma SeedIterated(k: nat)
    ensures |Iterated(Seed(), k)| == Pow4(k)
    ensures Chained(Iterated(Seed(), k))
    ensures Iterated(Seed(), k)[0].start == P(-1.0, 0.0)
    ensures Iterated(Seed(), k)[Pow4(k) - 1].end == P(1.0, 0.0)
  {
    LineIterated(Seed()[0], k);
  }

  /** The list comprehension that flattens a list of lists, one level. */
  function Flatten(blocks: seq<seq<Line>>): (r: seq<Line>)
    ensures (forall j :: 0 <= j < |blocks| ==> |blocks[j]| == 4) ==> |r| == 4 * |blocks|
    ensures |blocks| > 0 ==> |blocks[0]| <= |r| && r[..|blocks[0]|] == blocks[0]
  {
    if |blocks| == 0 then [] else blocks[0] + Flatten(blocks[1..])
  }

  /** Flattening the kinks of the lines, block by block, is the refinement. */
  lemma {:induction false} FlattenKinks(kink: Line -> seq<Line>, blocks: seq<seq<Line>>, ls: seq<Line>)
    requires |blocks| == |ls|
    requires forall j :: 0 <= j < |ls| ==> blocks[j] == kink(ls[j])
    ensures Flatten(blocks) == RefinedBy(kink, ls)
  {
    if |ls| > 0 {
      FlattenKinks(kink, blocks[1..], ls[1..]);
    }
  }

  /** The pixel images of a list of lines, line by line. */
  function LinesToPixels(ls: seq<Line>, width: real, height: real): (r: seq<Line>)
    ensures |r| == |ls|
    ensures forall j :: 0 <= j < |ls| ==> r[j] == LineToPixel(ls[j], width, height)
  {
    seq(|ls|, j requires 0 <= j < |ls| => LineToPixel(ls[j], width, height))
  }

  /**
   * Mapping to pixels keeps a chain a chain, and on a canvas of non-zero
   * size it creates no chain either, since the map is one-to-one.
   */
  lemma PixelsKeepChain(ls: seq<Line>, width: real, height: real)
    ensures Chained(ls) ==> Chained(LinesToPixels(ls, width, height))
    ensures width != 0.0 && height != 0.0 && Chained(LinesToPixels(ls, width, height)) ==> Chained(ls)
  {
    var r := LinesToPixels(ls, width, height);
    if width != 0.0 && height != 0.0 && Chained(r) {
      forall j, k | 0 <= j < k < |ls| && k == j + 1
        ensures ls[j].end == ls[k].start
      {
        assert r[j].end == r[k].start;
        PixelRoundTrip(ls[j].end, r[j].end, width, height);
        PixelRoundTrip(ls[k].start, r[k].start, width, height);
      }
    }
  }

  /** The Koch curve as a list of lines; k is set to 0 and never changed. */
  class Koch {
    var k: int
    var structure: seq<Line>

    constructor()
      ensures k == 0 && structure == Seed()
    {
      k := 0;
      structure := [];
      structure := structure + [Line(P(-1.0, 0.0), P(1.0, 0.0))];
    }

    /**
     * Koch.update: the enumerate loop turns entry i into the block gamma(item)
     * (the blocks are kept apart from the lines here, where the program
     * overwrites the entries of the same list), then the blocks are flattened.
     */
    method Update()
      modifies this
      ensures structure == Refined(old(structure))
      ensures k == old(k)
    {
      var blocks: seq<seq<Line>> := [];
      for i := 0 to |structure|
        invariant |blocks| == i
        invariant forall j :: 0 <= j < i ==> blocks[j] == Gamma(structure[j])
      {
        blocks := blocks + [Gamma(structure[i])];
      }
      FlattenKinks(Gamma, blocks, structure);
      structure := Flatten(blocks);
    }
  }

  /** The module-level driver: n updates of one curve. */
  method ApplyUpdates(koch: Koch, n: nat)
    modifies koch
    ensures koch.structure == Iterated(old(koch.structure), n)
    ensures koch.k == old(koch.k)
  {
    for i := 0 to n
      invariant koch.structure == Iterated(old(koch.structure), i)
      invariant koch.k == old(koch.k)
    {
      koch.Update();
    }
  }

  /** The scene: a canvas of width x height pixels and the lines drawn on it. */
  class Scene {
    const name: string
    var items: seq<Line>
    const height: int
    const width: int

    constructor(name: string := "svg", height: int := 768, width: int := 1024)
      ensures this.name == name && this.height == height && this.width == width
      ensures items == []
    {
      this.name := name;
      this.height := height;
      this.width := width;
      items := [];
    }

    /** Scene.cart_mapper: both endpoints of a line mapped to pixels, y pointing down. */
    function CartMapper(element: Line): (r: Line)
      ensures element == Line(P(-1.0, 1.0), P(1.0, -1.0)) ==> r == Line(P(0.0, 0.0), P(width as real, height as real))
    {
      LineToPixel(element, width as real, height as real)
    }

    /**
     * Scene.add_figure: map every line of the curve to pixels, in place, and
     * add each to the scene's items, in order.
     */
    method AddFigure(figure: Koch)
      modifies this, figure
      ensures figure.structure == LinesToPixels(old(figure.structure), width as real, height as real)
      ensures items == old(items) + figure.structure
      ensures figure.k == old(figure.k)
    {
      for j := 0 to |figure.structure|
        invariant |figure.structure| == |old(figure.structure)|
        invariant forall m :: 0 <= m < j ==> figure.structure[m] == CartMapper(old(figure.structure)[m])
        invariant forall m :: j <= m < |figure.structure| ==> figure.structure[m] == old(figure.structure)[m]
        invariant items == old(items) + figure.structure[..j]
        invariant figure.k == old(figure.k)
      {
        figure.structure := figure.structure[j := CartMapper(figure.structure[j])];
        items := items + [figure.structure[j]];
      }
      assert figure.structure[..|figure.structure|] == figure.structure;
    }
  }
}
