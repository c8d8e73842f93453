/**
  The full-size cutting templates of the order document's second page
  (drawPage2 and drawRuler of src/utils/pdfGenerator.ts), in inches on an
  11 x 17 sheet.  Template A is the tip end: the end shape, the straight
  body up to two inches past the last hole, the holes and a ruler.
  Template B is the buckle end: its length follows the end shape's
  reference proportions, with a fold line and buckle slot at the centre,
  stitch guides, rivets and snaps placed symmetrically about it.  The model
  keeps the coordinates each drawing call receives.
*/
module CuttingTemplates {
  import opened Wrappers
  import opened EndShapes
  import opened EndShapeDrawing
  import opened BeltDesign

  const PageMargin: real := 0.75

  /** Left edge of both templates. */
  const TemplateLeft: real := PageMargin + 1.0

  /** Top edge of template A. */
  const TipTop: real := 2.0

  /** A straight line from `(x1, y1)` to `(x2, y2)`. */
  datatype Line = Line(x1: real, y1: real, x2: real, y2: real)

  /** A circle drawn at `(x, y)`. */
  datatype Circle = Circle(x: real, y: real, radius: real)

  /** A rectangle from its top-left corner. */
  datatype Rect = Rect(x: real, y: real, width: real, height: real)

  /** A hole of the tip template and the inch count printed below it. */
  datatype Hole = Hole(circle: Circle, inch: real, captionY: real)

  /** A ruler: its top-left point and its length. */
  datatype Ruler = Ruler(x: real, y: real, length: real)

  /** The horizontal extent of an end shape drawn for a belt of width `w`. */
  function ShapeExtent(w: real): real
  {
    ShapeWidth * ShapeScale(w)
  }

  // ---------------------------------------------------------------- rulers

  /** One tick of a ruler: its x, the whole inch it marks (also its caption),
      whether it is a major tick, and its height. */
  datatype Tick = Tick(x: real, inch: nat, major: bool, height: real)

  /** The tick for inch `i` of a ruler starting at `x`: every fifth inch is a
      major tick, drawn taller. */
  function TickAt(x: real, i: nat): Tick
  {
    var major := i % 5 == 0;
    Tick(x + i as real, i, major, if major then 0.15 else 0.08)
  }

  /** How many whole inches lie in `[0, length]`. */
  function TickCount(length: real): nat
  {
    if length < 0.0 then 0 else length.Floor + 1
  }

  /** The ticks of a ruler of the given length: one per whole inch from 0
      while the inch does not exceed the length. */
  method RulerTicks(x: real, length: real) returns (ticks: seq<Tick>)
    ensures |ticks| == TickCount(length)
    ensures forall i :: 0 <= i < |ticks| ==> ticks[i] == TickAt(x, i)
  {
    ticks := [];
    var inch: nat := 0;
    while inch as real <= length
      invariant inch == |ticks|
      invariant forall i :: 0 <= i < |ticks| ==> ticks[i] == TickAt(x, i)
      invariant inch > 0 ==> (inch - 1) as real <= length
      decreases length.Floor + 1 - inch
    {
      ticks := ticks + [TickAt(x, inch)];
      inch := inch + 1;
    }
  }

  /** Ticks lie on the ruler, one inch apart, and a tick is major exactly
      when its inch is a multiple of five. */
  lemma TickPlacement(x: real, length: real, i: nat)
    requires i < TickCount(length)
    ensures x <= TickAt(x, i).x <= x + length
    ensures i > 0 ==> TickAt(x, i).x - TickAt(x, i - 1).x == 1.0
    ensures TickAt(x, i).major <==> exists k: nat :: k <= i && i == 5 * k
  {
    assert i as real <= length;
    if i % 5 == 0 {
      assert i == 5 * (i / 5);
    }
  }

  // ---------------------------------------------------------- template A

  /** Inches from the tip to the last hole. */
  function HoleEndFromTip(): real
  {
    Specs.firstHoleFromTip + (Specs.holeCount - 1) as real * Specs.holeSpacing
  }

  /** Template A runs two inches past the last hole. */
  function TipTemplateLength(): real
  {
    HoleEndFromTip() + 2.0
  }

  /** The tip template and everything drawn on it. */
  datatype TipTemplate = TipTemplate(
    shapeFill: Drawn,
    bodyFill: Rect,
    shapeOutline: Drawn,
    top: Line,
    bottom: Line,
    rightEnd: Line,
    centerLine: Line,
    holes: seq<Hole>,
    ruler: Ruler)

  /** The holes of the tip template, measured from its left edge. */
  function TipHoles(w: real): (r: seq<Hole>)
    ensures |r| == Specs.holeCount
  {
    seq(Specs.holeCount, i requires 0 <= i < Specs.holeCount =>
      var inch := Specs.firstHoleFromTip + i as real * Specs.holeSpacing;
      Hole(Circle(TemplateLeft + inch, TipTop + w / 2.0, Specs.holeDiameter / 2.0), inch, TipTop + w + 0.3))
  }

  /** Template A for a design: the closed end shape filled, the body filled
      from just inside the shape to the body end, the open contour stroked,
      the top and bottom edges continuing it, a dashed right end, the centre
      line, the holes and the ruler. */
  function TipLayout(d: Design): TipTemplate
  {
    var w := d.width.Inches();
    var shapeW := ShapeExtent(w);
    var bodyEnd := TemplateLeft + TipTemplateLength();
    TipTemplate(
      DrawEndShape(d.endShape, TemplateLeft, TipTop, w, false),
      Rect(TemplateLeft + shapeW - 0.03, TipTop, bodyEnd - (TemplateLeft + shapeW - 0.03), w),
      DrawEndShape(d.endShape, TemplateLeft, TipTop, w, true),
      Line(TemplateLeft + shapeW, TipTop, bodyEnd, TipTop),
      Line(TemplateLeft + shapeW, TipTop + w, bodyEnd, TipTop + w),
      Line(bodyEnd, TipTop, bodyEnd, TipTop + w),
      Line(TemplateLeft, TipTop + w / 2.0, TemplateLeft + TipTemplateLength(), TipTop + w / 2.0),
      TipHoles(w),
      Ruler(TemplateLeft, TipTop + w + 0.5, TipTemplateLength()))
  }

  /** The tip template is 14 inches long whatever the waist, and carries one
      ruler tick per inch from 0 to 14. */
  lemma TipTemplateLength14(d: Design, e: Design)
    ensures TipTemplateLength() == 14.0
    ensures TipLayout(d).ruler.length == TipLayout(e).ruler.length == 14.0
    ensures TickCount(TipLayout(d).ruler.length) == 15
  {
  }

  /** Hole `i` sits `5 + i` inches from the left edge on the centre line,
      captioned `5 + i`; every hole lies strictly inside the template, past
      the end shape, for each of the four widths. */
  lemma TipHolePlacement(d: Design, i: nat)
    requires i < Specs.holeCount
    ensures var t := TipLayout(d); var h := t.holes[i];
      && h.circle.x == TemplateLeft + 5.0 + i as real
      && h.inch == 5.0 + i as real
      && h.circle.y == t.centerLine.y1
      && t.top.x1 < h.circle.x < t.rightEnd.x1
      && TemplateLeft < h.circle.x < TemplateLeft + TipTemplateLength()
  {
    var w := d.width.Inches();
    assert ShapeExtent(w) < 5.0 by {
      assert ShapeExtent(w) == 105.0 * w / 76.0;
    }
    assert TipLayout(d).holes == TipHoles(w);
  }

  /** The outline joins the body seamlessly: the stroked contour ends where
      the top and bottom edges begin, the body fill starts 0.03 inch inside
      the shape and runs to the dashed right end. */
  lemma TipSeams(d: Design)
    ensures var t := TipLayout(d);
      && t.shapeOutline.lines.Some?
      && t.shapeOutline.nextX == t.top.x1 == t.bottom.x1
      && t.shapeFill.nextX == t.top.x1
      && t.bodyFill.x == t.top.x1 - 0.03
      && t.bodyFill.x + t.bodyFill.width == t.rightEnd.x1 == t.top.x2
      && t.bottom.y1 - t.top.y1 == d.width.Inches()
  {
    var w := d.width.Inches();
    DrawExtent(d.endShape, TemplateLeft, TipTop, w, true);
    DrawExtent(d.endShape, TemplateLeft, TipTop, w, false);
  }

  // ---------------------------------------------------------- template B

  /** Width over height of the reference buckle-end artwork of each shape. */
  function BuckleRatio(s: EndShape): real
  {
    match s
    case Round => 293.0 / 99.0
    case Square => 293.0 / 98.5
    case SquareTaper => 313.0 / 98.4
    case Spear => 332.0 / 99.0
  }

  /** The ratio in use: the shape's ratio, or 3 when it is missing or zero. */
  function TemplateRatio(s: EndShape): real
  {
    if BuckleRatio(s) != 0.0 then BuckleRatio(s) else 3.0
  }

  /** Template B's length for a shape and belt width. */
  function BuckleTemplateLength(s: EndShape, w: real): real
  {
    TemplateRatio(s) * w
  }

  /** The fallback ratio is never used; each ratio lies between 2.9 and 3.4,
      so the template is about three belt widths long, and its length is
      linear in the width. */
  lemma BuckleLengthLinear(s: EndShape, a: real, b: real, c: real)
    ensures TemplateRatio(s) == BuckleRatio(s)
    ensures 2.9 < TemplateRatio(s) < 3.4
    ensures BuckleTemplateLength(s, a + b) == BuckleTemplateLength(s, a) + BuckleTemplateLength(s, b)
    ensures BuckleTemplateLength(s, c * a) == c * BuckleTemplateLength(s, a)
  {
  }

  /** Top edge of template B. */
  function BuckleTop(w: real): real
  {
    TipTop + w + 2.5
  }

  /** The cut outline of template B.  The left end shape and its outline
      exist only for a separate buckle piece; the dashed left edge only for an
      integrated buckle end. */
  datatype BuckleOutline = BuckleOutline(
    body: Rect,
    leftFill: Option<Drawn>,
    rightFill: Drawn,
    leftOutline: Option<Drawn>,
    dashedLeft: Option<Line>,
    rightOutline: Drawn,
    top: Line,
    bottom: Line)

  /** The guides marked on template B: centre line, fold line, buckle slot,
      stitch guides, rivets, alternative stitch lines, snaps and the ruler. */
  datatype BuckleMarks = BuckleMarks(
    centerLine: Line,
    fold: Line,
    slot: Rect,
    stitches: seq<Line>,
    rivets: seq<Circle>,
    altStitches: seq<Line>,
    snaps: seq<Circle>,
    ruler: Ruler)

  /** Template B: its outline and its guides. */
  datatype BuckleTemplate = BuckleTemplate(outline: BuckleOutline, marks: BuckleMarks)

  /** The outline of template B for an end shape, belt width, attachment,
      template length and top edge. */
  function BuckleOutlineOf(s: EndShape, w: real, a: BuckleAttachment, len: real, top: real): BuckleOutline
  {
    var right := TemplateLeft + len;
    AssembleOutline(
      DrawEndShape(s, TemplateLeft, top, w, false), DrawEndShapeMirrored(s, right, top, w, false),
      DrawEndShape(s, TemplateLeft, top, w, true), DrawEndShapeMirrored(s, right, top, w, true),
      ShapeExtent(w), w, a, len, top)
  }

  /** The outline of template B around the drawn end shapes (left and right
      fill, left and right outline), each `shapeW` wide.  The left shapes are
      used only for a separate buckle piece. */
  function AssembleOutline(leftFill: Drawn, rightFill: Drawn, leftOutline: Drawn, rightOutline: Drawn,
                           shapeW: real, w: real, a: BuckleAttachment, len: real, top: real): BuckleOutline
  {
    var right := TemplateLeft + len;
    var integrated := a == Integrated;
    BuckleOutline(
      if integrated then Rect(TemplateLeft, top, len, w)
      else Rect(TemplateLeft + shapeW - 0.03, top, len - 2.0 * shapeW + 0.06, w),
      if integrated then None else Some(leftFill),
      rightFill,
      if integrated then None else Some(leftOutline),
      if integrated then Some(Line(TemplateLeft, top, TemplateLeft, top + w)) else None,
      rightOutline,
      Line(if integrated then TemplateLeft else TemplateLeft + shapeW, top, right - shapeW, top),
      Line(if integrated then TemplateLeft else TemplateLeft + shapeW, top + w, right - shapeW, top + w))
  }

  /** The guides of a template of length `len` and belt width `w` whose top
      edge is at `top`. */
  function BuckleMarksOf(len: real, w: real, top: real): BuckleMarks
  {
    var centerX := TemplateLeft + len / 2.0;
    var midY := top + w / 2.0;
    var stitchY1, stitchY2 := top + w * 0.15, top + w * 0.85;
    var innerL, outerL := TemplateLeft + len * 0.22, centerX - 0.2;
    var innerR, outerR := TemplateLeft + len * 0.78, centerX + 0.2;
    var rivetL, rivetR := TemplateLeft + len * 0.29, TemplateLeft + len * 0.71;
    var rivetUp, rivetLow := top + w * 0.17, top + w * 0.83;
    BuckleMarks(
      Line(TemplateLeft, midY, TemplateLeft + len, midY),
      Line(centerX, top - 0.2, centerX, top + w + 0.2),
      Rect(centerX - Specs.buckleSlotWidth / 2.0, midY - Specs.buckleSlotLength / 2.0,
           Specs.buckleSlotWidth, Specs.buckleSlotLength),
      [Line(innerL, stitchY1, outerL, stitchY1), Line(innerL, stitchY2, outerL, stitchY2),
       Line(outerR, stitchY1, innerR, stitchY1), Line(outerR, stitchY2, innerR, stitchY2)],
      [Circle(rivetL, rivetUp, 0.05), Circle(rivetL, rivetLow, 0.05),
       Circle(rivetR, rivetUp, 0.05), Circle(rivetR, rivetLow, 0.05)],
      [Line(rivetL, rivetUp, rivetL, rivetLow), Line(rivetR, rivetUp, rivetR, rivetLow)],
      [Circle(TemplateLeft + len * 0.13, midY, 0.06), Circle(TemplateLeft + len * 0.87, midY, 0.06)],
      Ruler(TemplateLeft, top + w + 0.5, len))
  }

  /** Template B for a design. */
  function BuckleLayout(d: Design): BuckleTemplate
  {
    var w := d.width.Inches();
    var len := BuckleTemplateLength(d.endShape, w);
    var top := BuckleTop(w);
    BuckleTemplate(BuckleOutlineOf(d.endShape, w, d.buckleAttachment, len, top), BuckleMarksOf(len, w, top))
  }

  /** In both attachment modes the fold line is vertical at half the template
      length, reaching 0.2 inch past both edges, and the buckle slot is
      centred on the fold line and on the centre line, which is halfway
      between the top and bottom edges. */
  lemma FoldAtCentre(len: real, w: real, top: real)
    ensures var m, cx := BuckleMarksOf(len, w, top), TemplateLeft + len / 2.0;
      && m.fold.x1 == m.fold.x2 == cx
      && cx - TemplateLeft == m.ruler.length / 2.0
      && m.fold.y1 == top - 0.2 && m.fold.y2 == top + w + 0.2
      && m.slot.x + m.slot.width / 2.0 == cx
      && m.slot.y + m.slot.height / 2.0 == m.centerLine.y1
      && m.centerLine.y1 - top == top + w - m.centerLine.y1
  {
  }

  /** The rivets are symmetric about the fold line `x = cx` and the centre
      line `y = cy`: reflecting rivet `i` left to right gives rivet
      `i + 2` (and back), and top to bottom swaps the two rivets of a column. */
  lemma RivetsSymmetric(len: real, w: real, top: real)
    ensures var m, cx, cy := BuckleMarksOf(len, w, top), TemplateLeft + len / 2.0, top + w / 2.0;
      && |m.rivets| == 4
      && (forall i :: 0 <= i < 2 ==>
            && m.rivets[i + 2] == m.rivets[i].(x := 2.0 * cx - m.rivets[i].x)
            && m.rivets[i] == m.rivets[i + 2].(x := 2.0 * cx - m.rivets[i + 2].x))
      && (forall k :: 0 <= k < 2 ==>
            && m.rivets[2 * k + 1] == m.rivets[2 * k].(y := 2.0 * cy - m.rivets[2 * k].y)
            && m.rivets[2 * k] == m.rivets[2 * k + 1].(y := 2.0 * cy - m.rivets[2 * k + 1].y))
  {
    var xl, xr := TemplateLeft + len * 0.29, TemplateLeft + len * 0.71;
    var yu, yl := top + w * 0.17, top + w * 0.83;
    assert BuckleMarksOf(len, w, top).rivets
      == [Circle(xl, yu, 0.05), Circle(xl, yl, 0.05), Circle(xr, yu, 0.05), Circle(xr, yl, 0.05)];
    GridSymmetric(xl, xr, yu, yl, TemplateLeft + len / 2.0, top + w / 2.0, 0.05);
  }

  /** Four equal circles at the corners of a rectangle centred on
      `(cx, cy)`, listed column by column, are symmetric in both centre
      lines. */
  lemma GridSymmetric(xl: real, xr: real, yu: real, yl: real, cx: real, cy: real, rad: real)
    requires xl + xr == 2.0 * cx && yu + yl == 2.0 * cy
    ensures var r := [Circle(xl, yu, rad), Circle(xl, yl, rad), Circle(xr, yu, rad), Circle(xr, yl, rad)];
      && (forall i :: 0 <= i < 2 ==>
            && r[i + 2] == r[i].(x := 2.0 * cx - r[i].x)
            && r[i] == r[i + 2].(x := 2.0 * cx - r[i + 2].x))
      && (forall k :: 0 <= k < 2 ==>
            && r[2 * k + 1] == r[2 * k].(y := 2.0 * cy - r[2 * k].y)
            && r[2 * k] == r[2 * k + 1].(y := 2.0 * cy - r[2 * k + 1].y))
  {
  }

  /** The snaps are each other's reflection in the fold line and sit on the
      centre line; each rivet column is joined top to bottom by an
      alternative stitch line. */
  lemma SnapsAndColumns(len: real, w: real, top: real)
    ensures var m, cx, cy := BuckleMarksOf(len, w, top), TemplateLeft + len / 2.0, top + w / 2.0;
      && |m.snaps| == 2 && |m.altStitches| == 2 && |m.rivets| == 4
      && m.snaps[1] == m.snaps[0].(x := 2.0 * cx - m.snaps[0].x)
      && m.snaps[0].y == m.snaps[1].y == cy
      && (forall k :: 0 <= k < 2 ==>
            m.altStitches[k] == Line(m.rivets[2 * k].x, m.rivets[2 * k].y, m.rivets[2 * k + 1].x, m.rivets[2 * k + 1].y))
  {
  }

  /** The stitch guides are symmetric about the fold line `x = cx`: the
      right-hand lines are the left-hand ones reflected (and so drawn in the
      opposite direction), and the two rows are symmetric about the centre
      line.  Each guide ends 0.2 inch short of the fold. */
  lemma StitchesSymmetric(len: real, w: real, top: real)
    ensures var m, cx, cy := BuckleMarksOf(len, w, top), TemplateLeft + len / 2.0, top + w / 2.0;
      && |m.stitches| == 4
      && (forall k :: 0 <= k < 2 ==>
            m.stitches[k + 2] == Line(2.0 * cx - m.stitches[k].x2, m.stitches[k].y2, 2.0 * cx - m.stitches[k].x1, m.stitches[k].y1))
      && m.stitches[1].y1 == 2.0 * cy - m.stitches[0].y1
      && m.stitches[0].x2 == cx - 0.2 && m.stitches[2].x1 == cx + 0.2
  {
  }

  /** The edges of an outline meet its end shapes: for a separate buckle
      piece they run from the right edge of the left shape to the left edge
      of the mirrored right shape, and the body fill overlaps each shape by
      0.03 inch; for an integrated end they start at the dashed left edge and
      the body fill covers the whole length `len`. */
  predicate Seamless(o: BuckleOutline, a: BuckleAttachment, len: real)
  {
    && o.rightOutline.lines.Some?
    && o.top.x2 == o.bottom.x2 == o.rightOutline.nextX == o.rightFill.nextX
    && (a == Additional ==>
          && o.leftOutline.Some? && o.leftOutline.value.lines.Some?
          && o.top.x1 == o.bottom.x1 == o.leftOutline.value.nextX
          && o.body.x == o.top.x1 - 0.03 && o.body.x + o.body.width == o.top.x2 + 0.03)
    && (a == Integrated ==>
          && o.leftOutline.None? && o.dashedLeft.Some?
          && o.top.x1 == o.bottom.x1 == o.dashedLeft.value.x1 == TemplateLeft
          && o.body.x == TemplateLeft && o.body.width == len)
  }

  /** For every shape, width, attachment and length, the straight edges of
      template B join its end shapes. */
  lemma BuckleSeams(s: EndShape, w: real, a: BuckleAttachment, len: real, top: real)
    ensures Seamless(BuckleOutlineOf(s, w, a, len, top), a, len)
  {
    if a == Additional {
      PieceSeams(s, w, len, top);
    } else {
      IntegratedSeams(s, w, len, top);
    }
  }

  /** The end shapes of template B are drawn, each one shape extent wide:
      the left ones from the template's left edge, the mirrored ones up to
      its right edge. */
  lemma ShapesAtExtent(s: EndShape, w: real, len: real, top: real)
    ensures var right := TemplateLeft + len;
      && DrawEndShape(s, TemplateLeft, top, w, true).lines.Some?
      && DrawEndShape(s, TemplateLeft, top, w, true).nextX == TemplateLeft + ShapeExtent(w)
      && DrawEndShapeMirrored(s, right, top, w, true).lines.Some?
      && DrawEndShapeMirrored(s, right, top, w, true).nextX == right - ShapeExtent(w)
      && DrawEndShapeMirrored(s, right, top, w, false).nextX == right - ShapeExtent(w)
  {
    var right := TemplateLeft + len;
    MirroredExtent(s, right, top, w, true);
    MirroredExtent(s, right, top, w, false);
    DrawExtent(s, TemplateLeft, top, w, true);
  }

  /** `BuckleSeams` for a separate buckle piece. */
  lemma PieceSeams(s: EndShape, w: real, len: real, top: real)
    ensures Seamless(BuckleOutlineOf(s, w, Additional, len, top), Additional, len)
  {
    var right := TemplateLeft + len;
    ShapesAtExtent(s, w, len, top);
    AssembledSeams(
      DrawEndShape(s, TemplateLeft, top, w, false), DrawEndShapeMirrored(s, right, top, w, false),
      DrawEndShape(s, TemplateLeft, top, w, true), DrawEndShapeMirrored(s, right, top, w, true),
      ShapeExtent(w), w, Additional, len, top);
  }

  /** `BuckleSeams` for an integrated buckle end. */
  lemma IntegratedSeams(s: EndShape, w: real, len: real, top: real)
    ensures Seamless(BuckleOutlineOf(s, w, Integrated, len, top), Integrated, len)
  {
    var right := TemplateLeft + len;
    ShapesAtExtent(s, w, len, top);
    AssembledSeams(
      DrawEndShape(s, TemplateLeft, top, w, false), DrawEndShapeMirrored(s, right, top, w, false),
      DrawEndShape(s, TemplateLeft, top, w, true), DrawEndShapeMirrored(s, right, top, w, true),
      ShapeExtent(w), w, Integrated, len, top);
  }

  /** `BuckleSeams` for drawn shapes of a known extent. */
  lemma AssembledSeams(lf: Drawn, rf: Drawn, lo: Drawn, ro: Drawn,
                       shapeW: real, w: real, a: BuckleAttachment, len: real, top: real)
    requires ro.lines.Some? && lo.lines.Some?
    requires ro.nextX == TemplateLeft + len - shapeW && rf.nextX == ro.nextX
    requires lo.nextX == TemplateLeft + shapeW
    ensures Seamless(AssembleOutline(lf, rf, lo, ro, shapeW, w, a, len, top), a, len)
  {
  }

  /** For every shape and width the straight stretch between the two end
      shapes of a separate buckle piece has positive length: the template is
      longer than two end shapes. */
  lemma BuckleBodyPositive(d: Design)
    ensures var o := BuckleLayout(d).outline; o.top.x1 < o.top.x2
  {
    var w := d.width.Inches();
    var len := BuckleTemplateLength(d.endShape, w);
    assert 2.0 * ShapeExtent(w) < len by {
      BuckleLengthLinear(d.endShape, w, w, 1.0);
      assert ShapeExtent(w) == 105.0 * w / 76.0;
    }
  }
}
