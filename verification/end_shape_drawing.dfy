/**
  Drawing an end shape on the cutting template (drawEndShapeOnPDF and
  drawEndShapeMirroredOnPDF): the contour is scaled so that its 76-unit
  content height matches the belt width, shifted up by one scaled unit, and
  either anchored at its left edge or mirrored so that its tip points right.
  The model returns what the line-drawing call would receive and the x
  coordinate the function returns.
*/
module EndShapeDrawing {
  import opened Wrappers
  import opened PathParser
  import opened PathProperties
  import opened PathScaling
  import opened PathReplay
  import opened EndShapes

  /** The result of drawing: the start point and segments handed to the
      line-drawing call (`None` when nothing is drawn) and the returned x. */
  datatype Drawn = Drawn(lines: Option<ParsedPath>, nextX: real)

  /** Output units per contour unit for a belt of the given width. */
  function ShapeScale(beltWidth: real): real
  {
    beltWidth / ContentHeight
  }

  /** The vertical origin that puts the top of the contour at `y`. */
  function TopOrigin(y: real, beltWidth: real): real
  {
    y - TopOffset * ShapeScale(beltWidth)
  }

  /** Draws the contour `toks` with its left edge at `x` and its top at `y`;
      returns the x coordinate of its right edge.  A contour with fewer than
      two segments draws nothing and returns `x`. */
  function DrawPath(toks: seq<Token>, x: real, y: real, beltWidth: real): Drawn
  {
    var scale := ShapeScale(beltWidth);
    match Parse(toks, scale, x, TopOrigin(y, beltWidth))
    case None => Drawn(None, x)
    case Some(p) =>
      if |p.segments| < 2 then Drawn(None, x)
      else Drawn(Some(p), x + ShapeWidth * scale)
  }

  /** The end shape drawn with its left edge at `x`. */
  function DrawEndShape(s: EndShape, x: real, y: real, beltWidth: real, outline: bool): Drawn
  {
    DrawPath(ShapeTokens(s, outline), x, y, beltWidth)
  }

  /** A segment reflected left to right: every x component negated, every y
      component kept. */
  function MirrorSeg(g: Seg): Seg
  {
    match g
    case Line(dx, dy) => Line(-dx, dy)
    case Curve(x1, y1, x2, y2, x3, y3) => Curve(-x1, y1, -x2, y2, -x3, y3)
  }

  /** Reflects every segment of a list. */
  function MirrorSegs(segs: seq<Seg>): (r: seq<Seg>)
    ensures |r| == |segs|
    ensures forall i :: 0 <= i < |segs| ==> r[i] == MirrorSeg(segs[i])
  {
    seq(|segs|, i requires 0 <= i < |segs| => MirrorSeg(segs[i]))
  }

  /** A path parsed with origin 0, re-anchored at `rightEdgeX` and reflected. */
  function Mirror(p: ParsedPath, rightEdgeX: real): ParsedPath
  {
    ParsedPath(rightEdgeX - p.startX, p.startY, MirrorSegs(p.segments))
  }

  /** Draws the contour `toks` reflected so that its tip points right, with
      its right edge at `rightEdgeX`; returns the x coordinate of its left
      edge.  A contour with fewer than two segments draws nothing and returns
      `rightEdgeX`. */
  function DrawPathMirrored(toks: seq<Token>, rightEdgeX: real, y: real, beltWidth: real): Drawn
  {
    var scale := ShapeScale(beltWidth);
    match Parse(toks, scale, 0.0, TopOrigin(y, beltWidth))
    case None => Drawn(None, rightEdgeX)
    case Some(p) =>
      if |p.segments| < 2 then Drawn(None, rightEdgeX)
      else Drawn(Some(Mirror(p, rightEdgeX)), rightEdgeX - ShapeWidth * scale)
  }

  /** The end shape drawn mirrored, its right edge at `rightEdgeX`. */
  function DrawEndShapeMirrored(s: EndShape, rightEdgeX: real, y: real, beltWidth: real, outline: bool): Drawn
  {
    DrawPathMirrored(ShapeTokens(s, outline), rightEdgeX, y, beltWidth)
  }

  /** Segments of the drawn contour: the outline's, plus the closing edge. */
  function DrawnSegmentCount(s: EndShape, outline: bool): nat
  {
    if outline then OutlineSegmentCount(s) else OutlineSegmentCount(s) + 1
  }

  /** Every authored contour parses, at every scale and origin, to its
      segment count and a fixed start point. */
  lemma ShapeParses(s: EndShape, outline: bool, t: Transform)
    ensures var r := ParseState(ShapeTokens(s, outline), t);
      r.Some? && |r.value.segs| == DrawnSegmentCount(s, outline) && r.value.started
  {
    OutlineParses(s, t);
    if !outline {
      ClosedParse(s, t);
    }
  }

  /** A contour that parses to `n >= 2` segments is drawn whole, and the
      returned x is the left edge plus 105 contour units at the belt's scale. */
  lemma DrawPathExtent(toks: seq<Token>, n: nat, x: real, y: real, beltWidth: real)
    requires n >= 2
    requires var r := ParseState(toks, Transform(ShapeScale(beltWidth), x, TopOrigin(y, beltWidth)));
      r.Some? && |r.value.segs| == n
    ensures var r := DrawPath(toks, x, y, beltWidth);
      && r.lines.Some?
      && |r.lines.value.segments| == n
      && r.nextX == x + ShapeWidth * ShapeScale(beltWidth)
  {
  }

  /** Every shape is drawn, and the returned x is the left edge plus 105
      contour units at the belt's scale. */
  lemma DrawExtent(s: EndShape, x: real, y: real, beltWidth: real, outline: bool)
    ensures var r := DrawEndShape(s, x, y, beltWidth, outline);
      && r.lines.Some?
      && |r.lines.value.segments| == DrawnSegmentCount(s, outline)
      && r.nextX == x + ShapeWidth * ShapeScale(beltWidth)
  {
    ShapeParses(s, outline, Transform(ShapeScale(beltWidth), x, TopOrigin(y, beltWidth)));
    DrawPathExtent(ShapeTokens(s, outline), DrawnSegmentCount(s, outline), x, y, beltWidth);
  }

  /** A contour that parses (at origin 0) to `n >= 2` segments is drawn
      whole, and the returned x is the right edge minus 105 contour units at
      the belt's scale. */
  lemma MirroredPathExtent(toks: seq<Token>, n: nat, rightEdgeX: real, y: real, beltWidth: real)
    requires n >= 2
    requires var r := ParseState(toks, Transform(ShapeScale(beltWidth), 0.0, TopOrigin(y, beltWidth)));
      r.Some? && |r.value.segs| == n
    ensures var r := DrawPathMirrored(toks, rightEdgeX, y, beltWidth);
      && r.lines.Some?
      && |r.lines.value.segments| == n
      && r.nextX == rightEdgeX - ShapeWidth * ShapeScale(beltWidth)
  {
  }

  /** Every mirrored shape is drawn, and the returned x is the right edge
      minus 105 contour units at the belt's scale. */
  lemma MirroredExtent(s: EndShape, rightEdgeX: real, y: real, beltWidth: real, outline: bool)
    ensures var r := DrawEndShapeMirrored(s, rightEdgeX, y, beltWidth, outline);
      && r.lines.Some?
      && |r.lines.value.segments| == DrawnSegmentCount(s, outline)
      && r.nextX == rightEdgeX - ShapeWidth * ShapeScale(beltWidth)
  {
    ShapeParses(s, outline, Transform(ShapeScale(beltWidth), 0.0, TopOrigin(y, beltWidth)));
    MirroredPathExtent(ShapeTokens(s, outline), DrawnSegmentCount(s, outline), rightEdgeX, y, beltWidth);
  }

  /** Reflecting twice about the same right edge gives the path back. */
  lemma MirrorInvolution(p: ParsedPath, rightEdgeX: real)
    ensures Mirror(Mirror(p, rightEdgeX), rightEdgeX) == p
  {
    var m := Mirror(Mirror(p, rightEdgeX), rightEdgeX);
    forall i | 0 <= i < |p.segments|
      ensures m.segments[i] == p.segments[i]
    {
      var g := p.segments[i];
      assert MirrorSeg(MirrorSeg(g)) == g;
    }
  }

  lemma {:induction false} MirrorSums(segs: seq<Seg>)
    ensures SumX(MirrorSegs(segs)) == -SumX(segs)
    ensures SumY(MirrorSegs(segs)) == SumY(segs)
    decreases |segs|
  {
    if |segs| > 0 {
      var n := |segs| - 1;
      assert MirrorSegs(segs)[..n] == MirrorSegs(segs[..n]);
      MirrorSums(segs[..n]);
    }
  }

  /** The reflection is about the anchor: after any number of segments the
      mirrored pen sits at `rightEdgeX` minus the original pen's x, at the
      same height. */
  lemma MirrorReflects(p: ParsedPath, rightEdgeX: real, i: nat)
    requires i <= |p.segments|
    ensures var m := Mirror(p, rightEdgeX);
      && m.startX + SumX(m.segments[..i]) == rightEdgeX - (p.startX + SumX(p.segments[..i]))
      && m.startY + SumY(m.segments[..i]) == p.startY + SumY(p.segments[..i])
  {
    assert Mirror(p, rightEdgeX).segments[..i] == MirrorSegs(p.segments[..i]);
    MirrorSums(p.segments[..i]);
  }

  /** For a contour that parses to at least two segments and fixes a start
      point, the mirrored drawing is the plain drawing at any left edge `x`,
      reflected: every x component negated, the start point's offset from
      `x` turned into the same offset back from `rightEdgeX`, the start height
      unchanged. */
  lemma PathMirrorIsReflection(toks: seq<Token>, x: real, rightEdgeX: real, y: real, beltWidth: real)
    requires var r := ParseState(toks, Transform(ShapeScale(beltWidth), x, TopOrigin(y, beltWidth)));
      r.Some? && |r.value.segs| >= 2 && r.value.started
    ensures var d, m := DrawPath(toks, x, y, beltWidth), DrawPathMirrored(toks, rightEdgeX, y, beltWidth);
      && d.lines.Some? && m.lines.Some?
      && m.lines.value.segments == MirrorSegs(d.lines.value.segments)
      && m.lines.value.startY == d.lines.value.startY
      && m.lines.value.startX == rightEdgeX - (d.lines.value.startX - x)
  {
    OriginShift(toks, ShapeScale(beltWidth), x, TopOrigin(y, beltWidth), 0.0, TopOrigin(y, beltWidth));
  }

  /** The mirrored end shape is the plain one reflected (see
      `PathMirrorIsReflection`). */
  lemma MirroredIsReflection(s: EndShape, x: real, rightEdgeX: real, y: real, beltWidth: real, outline: bool)
    ensures var d, m := DrawEndShape(s, x, y, beltWidth, outline), DrawEndShapeMirrored(s, rightEdgeX, y, beltWidth, outline);
      && d.lines.Some? && m.lines.Some?
      && m.lines.value.segments == MirrorSegs(d.lines.value.segments)
      && m.lines.value.startY == d.lines.value.startY
      && m.lines.value.startX == rightEdgeX - (d.lines.value.startX - x)
  {
    ShapeParses(s, outline, Transform(ShapeScale(beltWidth), x, TopOrigin(y, beltWidth)));
    PathMirrorIsReflection(ShapeTokens(s, outline), x, rightEdgeX, y, beltWidth);
  }
}
