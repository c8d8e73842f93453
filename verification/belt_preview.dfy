/**
  The geometry of the on-screen belt preview (src/components/BeltPreview/
  BeltPreview.tsx): the whole belt length is drawn over a fixed span of the
  picture, so one inch of belt becomes `span / totalLength` picture units;
  the holes, the buckle zone and the five-inch ruler marks are placed with
  that scale, measured from the tip at the left.
*/
module BeltPreview {
  import opened Text
  import opened BeltDesign

  const ViewWidth: real := 640.0
  const BeltTop: real := 30.0
  const BeltHeight: real := 50.0
  const BeltLeft: real := 10.0

  /** The horizontal span the belt is drawn over. */
  const BeltSpan: real := ViewWidth - 50.0

  /** Inches between two ruler marks. */
  const MarkInterval: nat := 5

  /** The width of the tip area, from the 105:78 aspect of the end-shape
      artwork at the drawn belt height. */
  const TipWidth: real := BeltHeight * (105.0 / 78.0)

  /** The tip area keeps the artwork's aspect at the drawn height, and so is
      the same for every design, a little over 67 units wide. */
  lemma TipWidthAspect()
    ensures TipWidth * 78.0 == BeltHeight * 105.0
    ensures 67.0 < TipWidth < 67.5
  {
  }

  /** Picture units per inch of belt: the whole length fills the span. */
  function HoleScale(d: Design): (r: real)
    requires TotalLength(d) != 0.0
    ensures r * TotalLength(d) == BeltSpan
    ensures TotalLength(d) > 0.0 ==> r > 0.0
  {
    BeltSpan / TotalLength(d)
  }

  /** The picture position `inches` from the tip. */
  function AtInch(d: Design, inches: real): real
    requires TotalLength(d) != 0.0
  {
    BeltLeft + inches * HoleScale(d)
  }

  /** Positions are affine in the inch count: a gap of `b - a` inches is
      `b - a` scaled inches, and order is kept on a positive scale. */
  lemma AtInchGap(d: Design, a: real, b: real)
    requires TotalLength(d) != 0.0
    ensures AtInch(d, b) - AtInch(d, a) == (b - a) * HoleScale(d)
    ensures TotalLength(d) > 0.0 && a < b ==> AtInch(d, a) < AtInch(d, b)
    ensures TotalLength(d) > 0.0 && a <= b ==> AtInch(d, a) <= AtInch(d, b)
  {
    Affine(BeltLeft, HoleScale(d), a, b);
  }

  /** A step of `g` inches is `g` scaled inches. */
  lemma AtInchStep(d: Design, a: real, g: real)
    requires TotalLength(d) != 0.0
    ensures AtInch(d, a + g) - AtInch(d, a) == g * HoleScale(d)
  {
    var k := HoleScale(d);
    assert (a + g) * k == a * k + g * k;
  }

  /** `base + x * k` is affine in `x`, and increasing when `k > 0`. */
  lemma Affine(base: real, k: real, a: real, b: real)
    ensures (base + b * k) - (base + a * k) == (b - a) * k
    ensures k > 0.0 && a < b ==> base + a * k < base + b * k
    ensures k > 0.0 && a <= b ==> base + a * k <= base + b * k
  {
    assert b * k - a * k == (b - a) * k;
    if k > 0.0 && a <= b {
      MulNonNeg(b - a, k);
    }
  }

  lemma MulNonNeg(x: real, y: real)
    requires x >= 0.0 && y > 0.0
    ensures x * y >= 0.0
    ensures x > 0.0 ==> x * y > 0.0
  {
  }

  /** The hole positions: hole `i` is `firstHoleFromTip + i * holeSpacing`
      inches from the tip. */
  function Holes(d: Design): (r: seq<real>)
    requires TotalLength(d) != 0.0
    ensures |r| == Specs.holeCount
  {
    seq(Specs.holeCount, i requires 0 <= i < Specs.holeCount =>
      AtInch(d, Specs.firstHoleFromTip + i as real * Specs.holeSpacing))
  }

  /** The first hole is five scaled inches from the tip, and consecutive holes
      are one scaled inch apart; on a belt of positive length they are in
      strictly increasing order. */
  lemma HolesSpacing(d: Design)
    requires TotalLength(d) != 0.0
    ensures Holes(d)[0] == BeltLeft + 5.0 * HoleScale(d)
    ensures forall i :: 0 <= i < |Holes(d)| - 1 ==> Holes(d)[i + 1] - Holes(d)[i] == HoleScale(d)
    ensures TotalLength(d) > 0.0 ==> forall i, j :: 0 <= i < j < |Holes(d)| ==> Holes(d)[i] < Holes(d)[j]
  {
    var h := Holes(d);
    forall i | 0 <= i < |h| - 1
      ensures h[i + 1] - h[i] == HoleScale(d)
    {
      AtInchGap(d, 5.0 + i as real, 5.0 + (i + 1) as real);
    }
    if TotalLength(d) > 0.0 {
      forall i, j | 0 <= i < j < |h|
        ensures h[i] < h[j]
      {
        AtInchGap(d, 5.0 + i as real, 5.0 + j as real);
      }
    }
  }

  /** The buckle zone at the right end of the belt. */
  datatype Zone = Zone(start: real, width: real)

  /** The buckle allowance, scaled, at the right end of the drawn span. */
  function BuckleArea(d: Design): (r: Zone)
    requires TotalLength(d) != 0.0
    ensures r.start + r.width == BeltLeft + BeltSpan
    ensures r.start == AtInch(d, TotalLength(d) - Specs.buckleAllowance)
    ensures r.width == Specs.buckleAllowance * HoleScale(d)
  {
    Zone(BeltLeft + BeltSpan - Specs.buckleAllowance * HoleScale(d), Specs.buckleAllowance * HoleScale(d))
  }

  /** The right end of the drawn belt is the total length from the tip. */
  lemma BeltEnd(d: Design)
    requires TotalLength(d) != 0.0
    ensures AtInch(d, TotalLength(d)) == BeltLeft + BeltSpan
    ensures AtInch(d, 0.0) == BeltLeft
  {
  }

  /** For every waist the inputs allow, all holes lie on the drawn belt and
      to the left of the buckle zone. */
  lemma HolesOnBelt(d: Design)
    requires d.waistSize >= WaistMin
    ensures TotalLength(d) > 0.0
    ensures forall i :: 0 <= i < |Holes(d)| ==> BeltLeft <= Holes(d)[i] <= BeltLeft + BeltSpan
    ensures forall i :: 0 <= i < |Holes(d)| ==> Holes(d)[i] < BuckleArea(d).start
  {
    var t := TotalLength(d);
    var h := Holes(d);
    BeltEnd(d);
    forall i | 0 <= i < |h|
      ensures BeltLeft <= h[i] <= BeltLeft + BeltSpan && h[i] < BuckleArea(d).start
    {
      var x := 5.0 + i as real;
      assert h[i] == AtInch(d, x);
      AtInchGap(d, 0.0, x);
      AtInchGap(d, x, t);
      AtInchGap(d, x, t - 6.0);
    }
  }

  /** A ruler mark of the preview: position and label. */
  datatype Mark = Mark(x: real, caption: string)

  /** The `k`-th ruler mark: `5k` inches from the tip, labelled with the
      inch count and an inch sign. */
  function MarkAt(d: Design, k: nat): Mark
    requires TotalLength(d) != 0.0
  {
    Mark(AtInch(d, (MarkInterval * k) as real), NatToString(MarkInterval * k) + "\"")
  }

  /** How many multiples of five lie in `[0, total]`. */
  function MarkCount(total: real): nat
  {
    if total < 0.0 then 0 else (total / 5.0).Floor + 1
  }

  /** The ruler marks: a mark at every multiple of five inches up to the
      total length. */
  method Marks(d: Design) returns (marks: seq<Mark>)
    requires TotalLength(d) != 0.0
    ensures |marks| == MarkCount(TotalLength(d))
    ensures forall k :: 0 <= k < |marks| ==> marks[k] == MarkAt(d, k)
  {
    var total := TotalLength(d);
    marks := [];
    var inch: nat := 0;
    while inch as real <= total
      invariant inch == MarkInterval * |marks|
      invariant |marks| > 0 ==> (inch - MarkInterval) as real <= total
      invariant forall k :: 0 <= k < |marks| ==> marks[k] == MarkAt(d, k)
      decreases total.Floor + 1 - inch
    {
      marks := marks + [MarkAt(d, |marks|)];
      inch := inch + MarkInterval;
    }
    if total >= 0.0 {
      assert |marks| > 0;
      assert (total / 5.0).Floor == |marks| - 1;
    }
  }

  /** The zero mark is at the tip. */
  lemma FirstMark(d: Design)
    requires TotalLength(d) != 0.0
    ensures MarkAt(d, 0) == Mark(BeltLeft, "0\"")
  {
    assert NatToString(0) == "0";
    assert (MarkInterval * 0) as real == 0.0;
    BeltEnd(d);
  }

  /** Every counted mark lies within the length. */
  lemma MarkWithin(total: real, k: nat)
    requires k < MarkCount(total)
    ensures (MarkInterval * k) as real <= total
  {
    var q := total / 5.0;
    assert k <= q.Floor;
    assert k as real <= q;
    assert q * 5.0 == total;
  }

  /** A counted mark is not beyond the right end of the drawn belt. */
  lemma MarkOnBelt(d: Design, k: nat)
    requires TotalLength(d) > 0.0
    requires k < MarkCount(TotalLength(d))
    ensures MarkAt(d, k).x <= BeltLeft + BeltSpan
  {
    MarkWithin(TotalLength(d), k);
    AtInchGap(d, (MarkInterval * k) as real, TotalLength(d));
    BeltEnd(d);
  }

  /** Neighbouring marks are five scaled inches apart. */
  lemma MarkGap(d: Design, k: nat)
    requires TotalLength(d) != 0.0 && k > 0
    ensures MarkAt(d, k).x - MarkAt(d, k - 1).x == 5.0 * HoleScale(d)
  {
    var m: int := MarkInterval * (k - 1);
    assert (MarkInterval * k) as real == m as real + 5.0;
    AtInchStep(d, m as real, 5.0);
  }

  /** On a belt of positive length the first mark sits at the tip labelled
      `0"`, the marks run left to right one every five scaled inches, and
      none lies beyond the right end of the drawn belt. */
  lemma MarksPlacement(d: Design, k: nat)
    requires TotalLength(d) > 0.0
    requires k < MarkCount(TotalLength(d))
    ensures MarkAt(d, 0) == Mark(BeltLeft, "0\"")
    ensures MarkAt(d, k).x <= BeltLeft + BeltSpan
    ensures k > 0 ==> MarkAt(d, k).x - MarkAt(d, k - 1).x == 5.0 * HoleScale(d)
  {
    FirstMark(d);
    MarkOnBelt(d, k);
    if k > 0 {
      MarkGap(d, k);
    }
  }
}
