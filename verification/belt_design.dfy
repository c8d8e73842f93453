/**
  The belt design, the customer details and the order record (src/types.ts),
  the belt constants (src/constants.ts), and the design-editing handlers of
  the application shell (src/App.tsx): the total length shown to the maker,
  the clamped waist adjustments, the typed waist inputs, the readiness check
  for generating an order, and the reset and duplicate actions.
*/
module BeltDesign {
  import opened Wrappers
  import opened Text
  import opened EndShapes

  /** The four belt widths on offer, in inches. */
  datatype BeltWidth = OneInch | OneAndQuarter | OneAndHalf | OneAndThreeQuarters
  {
    function Inches(): (r: real)
      ensures 1.0 <= r <= 1.75
    {
      match this
      case OneInch => 1.0
      case OneAndQuarter => 1.25
      case OneAndHalf => 1.5
      case OneAndThreeQuarters => 1.75
    }
  }

  /** A separate buckle piece, or the buckle end folded back from the body. */
  datatype BuckleAttachment = Additional | Integrated

  datatype BuckleShape = SquareBuckle | RoundBuckle

  datatype BuckleMaterial = AntiqueBrass | GoldBrass | Silver | Black

  /** A belt design.  Waist sizes are whole inches; the actual waist size is
      an optional reference measurement. */
  datatype Design = Design(
    waistSize: int,
    actualWaistSize: Option<int>,
    width: BeltWidth,
    colorId: string,
    endShape: EndShape,
    buckleShape: BuckleShape,
    buckleMaterial: BuckleMaterial,
    buckleAttachment: BuckleAttachment)

  datatype CustomerDetails = CustomerDetails(name: string, phone: string, email: string, notes: string)

  /** A placed order: identifiers, the date text, the design, the customer and
      the total length at the time of ordering. */
  datatype BeltOrder = BeltOrder(
    id: string,
    orderNumber: string,
    date: string,
    design: Design,
    customer: CustomerDetails,
    totalLength: real)

  /** The leatherwork constants, in inches. */
  datatype BeltSpecs = BeltSpecs(
    buckleAllowance: real,
    holeAllowance: real,
    holeCount: nat,
    holeSpacing: real,
    firstHoleFromTip: real,
    integratedFoldBack: real,
    holeDiameter: real,
    buckleSlotWidth: real,
    buckleSlotLength: real)

  const Specs := BeltSpecs(6.0, 5.0, 8, 1.0, 5.0, 2.5, 0.15625, 0.75, 0.1875)

  /** The range the waist inputs are clamped to. */
  const WaistMin: int := 26
  const WaistMax: int := 54

  /** The extra length an integrated buckle end needs for its fold-back. */
  function FoldBack(a: BuckleAttachment): real
  {
    if a == Integrated then Specs.integratedFoldBack else 0.0
  }

  /** Full belt length: waist, buckle allowance, hole allowance, and the
      fold-back of an integrated buckle end. */
  function TotalLength(d: Design): real
  {
    d.waistSize as real + Specs.buckleAllowance + Specs.holeAllowance + FoldBack(d.buckleAttachment)
  }

  /** The allowances add 11 inches to the waist, and an integrated buckle end
      exactly 2.5 more; the length depends on nothing else. */
  lemma TotalLengthParts(d: Design, e: Design)
    ensures d.buckleAttachment == Additional ==> TotalLength(d) == d.waistSize as real + 11.0
    ensures d.buckleAttachment == Integrated ==> TotalLength(d) == d.waistSize as real + 13.5
    ensures TotalLength(d.(buckleAttachment := Integrated)) == TotalLength(d.(buckleAttachment := Additional)) + 2.5
    ensures d.waistSize == e.waistSize && d.buckleAttachment == e.buckleAttachment ==> TotalLength(d) == TotalLength(e)
  {
  }

  /** Every waist in the input range gives a belt between 37 and 67.5
      inches, one more inch of waist giving one more inch of belt. */
  lemma TotalLengthRange(d: Design)
    requires WaistMin <= d.waistSize <= WaistMax
    ensures 37.0 <= TotalLength(d) <= 67.5
    ensures TotalLength(d.(waistSize := d.waistSize + 1)) == TotalLength(d) + 1.0
  {
  }

  /** `Math.min(WAIST_MAX, Math.max(WAIST_MIN, v))`. */
  function Clamp(v: int): (r: int)
    ensures WaistMin <= r <= WaistMax
    ensures WaistMin <= v <= WaistMax ==> r == v
    ensures v < WaistMin ==> r == WaistMin
    ensures v > WaistMax ==> r == WaistMax
  {
    if v < WaistMin then WaistMin else if v > WaistMax then WaistMax else v
  }

  /** Clamping is idempotent and never reverses the order of two values. */
  lemma ClampProperties(u: int, v: int)
    ensures Clamp(Clamp(v)) == Clamp(v)
    ensures u <= v ==> Clamp(u) <= Clamp(v)
    ensures Clamp(v) == v <==> WaistMin <= v <= WaistMax
  {
  }

  /** The minus and plus buttons of the waist size. */
  function AdjustWaist(d: Design, delta: int): (r: Design)
    ensures WaistMin <= r.waistSize <= WaistMax
    ensures WaistMin <= d.waistSize + delta <= WaistMax ==> r.waistSize == d.waistSize + delta
    ensures d.waistSize + delta < WaistMin ==> r.waistSize == WaistMin
    ensures d.waistSize + delta > WaistMax ==> r.waistSize == WaistMax
    ensures r == d.(waistSize := r.waistSize)
  {
    d.(waistSize := Clamp(d.waistSize + delta))
  }

  /** The minus and plus buttons of the actual waist size, which start from
      the waist size while no actual size is recorded. */
  function AdjustActualWaist(d: Design, delta: int): (r: Design)
    ensures r.actualWaistSize.Some?
    ensures WaistMin <= r.actualWaistSize.value <= WaistMax
    ensures var base := if d.actualWaistSize.Some? then d.actualWaistSize.value else d.waistSize;
      && (WaistMin <= base + delta <= WaistMax ==> r.actualWaistSize.value == base + delta)
      && (base + delta < WaistMin ==> r.actualWaistSize.value == WaistMin)
      && (base + delta > WaistMax ==> r.actualWaistSize.value == WaistMax)
    ensures r == d.(actualWaistSize := r.actualWaistSize)
  {
    d.(actualWaistSize := Some(Clamp(d.actualWaistSize.GetOr(d.waistSize) + delta)))
  }

  /** With no actual size recorded, the actual-size buttons step from the
      waist size exactly as if it had been recorded; with one recorded, the
      actual size moves the way the waist buttons move the waist. */
  lemma AdjustActualWaistFromWaist(d: Design, delta: int)
    ensures d.actualWaistSize.None? ==>
      AdjustActualWaist(d, delta) == AdjustActualWaist(d.(actualWaistSize := Some(d.waistSize)), delta)
    ensures d.actualWaistSize.Some? ==>
      AdjustActualWaist(d, delta).actualWaistSize
        == Some(AdjustWaist(d.(waistSize := d.actualWaistSize.value), delta).waistSize)
  {
  }

  /** A step of the actual size that stays in range is undone by the opposite
      step. */
  lemma AdjustActualWaistUndo(d: Design, delta: int)
    requires d.actualWaistSize.Some? ==> WaistMin <= d.actualWaistSize.value <= WaistMax
    requires d.actualWaistSize.None? ==> WaistMin <= d.waistSize <= WaistMax
    requires WaistMin <= d.actualWaistSize.GetOr(d.waistSize) + delta <= WaistMax
    ensures AdjustActualWaist(AdjustActualWaist(d, delta), -delta)
      == d.(actualWaistSize := Some(d.actualWaistSize.GetOr(d.waistSize)))
  {
  }

  /** A step down followed by a step up returns to the same waist size
      whenever the first step stays in range. */
  lemma AdjustWaistUndo(d: Design, delta: int)
    requires WaistMin <= d.waistSize + delta <= WaistMax
    requires WaistMin <= d.waistSize <= WaistMax
    ensures AdjustWaist(AdjustWaist(d, delta), -delta) == d
  {
  }

  /** The typed waist size: a text with a leading integer sets the clamped
      value; any other text leaves the design as it is. */
  function WaistInput(d: Design, text: string): (r: Design)
    ensures r == d.(waistSize := r.waistSize)
    ensures ParseInt(text).None? ==> r == d
    ensures ParseInt(text).Some? ==> WaistMin <= r.waistSize <= WaistMax
  {
    match ParseInt(text)
    case None => d
    case Some(v) => d.(waistSize := Clamp(v))
  }

  /** The typed actual waist size: a text with a leading integer sets the
      clamped value; any other text clears the field. */
  function ActualWaistInput(d: Design, text: string): (r: Design)
    ensures r == d.(actualWaistSize := r.actualWaistSize)
    ensures ParseInt(text).None? <==> r.actualWaistSize.None?
    ensures r.actualWaistSize.Some? ==> WaistMin <= r.actualWaistSize.value <= WaistMax
  {
    match ParseInt(text)
    case None => d.(actualWaistSize := None)
    case Some(v) => d.(actualWaistSize := Some(Clamp(v)))
  }

  /** Typing a number, with or without a fraction after it, sets the waist
      to that number brought into range; an empty field changes nothing. */
  lemma WaistInputTyped(d: Design, n: int, fraction: string)
    requires |fraction| == 0 || !IsDigit(fraction[0])
    ensures WaistInput(d, IntToString(n) + fraction).waistSize == Clamp(n)
    ensures WaistMin <= n <= WaistMax ==> WaistInput(d, IntToString(n) + fraction) == d.(waistSize := n)
    ensures WaistInput(d, "") == d
  {
    ParseIntRoundTrip(n, fraction);
  }

  /** Typing a number sets the actual waist to it brought into range;
      clearing the field removes the actual waist. */
  lemma ActualWaistInputTyped(d: Design, n: int, fraction: string)
    requires |fraction| == 0 || !IsDigit(fraction[0])
    ensures ActualWaistInput(d, IntToString(n) + fraction).actualWaistSize == Some(Clamp(n))
    ensures ActualWaistInput(d, "").actualWaistSize.None?
  {
    ParseIntRoundTrip(n, fraction);
  }

  /** An order can be generated once the customer name has a character that
      is not whitespace. */
  predicate CanGenerate(c: CustomerDetails)
  {
    |Trim(c.name)| > 0
  }

  /** The readiness check holds exactly when the name has a non-whitespace
      character. */
  lemma CanGenerateIff(c: CustomerDetails)
    ensures CanGenerate(c) <==> exists i :: 0 <= i < |c.name| && !IsWhitespace(c.name[i])
  {
    TrimEmpty(c.name);
  }

  /** The design a new order starts from: waist 34, no actual waist, width
      1.5, light brown, round end, square antique-brass buckle on an
      additional piece. */
  const DefaultDesign := Design(34, None, OneAndHalf, "light-brown", Round, SquareBuckle, AntiqueBrass, Additional)

  /** Empty customer details. */
  const DefaultCustomer := CustomerDetails("", "", "", "")

  /** What the editor holds: the design and the customer details. */
  datatype Editor = Editor(design: Design, customer: CustomerDetails)

  /** "New order": both defaults are restored, whatever was there before. */
  function Reset(e: Editor): (r: Editor)
    ensures r.design == DefaultDesign
    ensures r.design.waistSize == 34 && r.design.actualWaistSize.None?
    ensures r.design.width == OneAndHalf && r.design.colorId == "light-brown"
    ensures r.design.endShape == Round && r.design.buckleShape == SquareBuckle
    ensures r.design.buckleMaterial == AntiqueBrass && r.design.buckleAttachment == Additional
    ensures r.customer.name == "" && r.customer.phone == "" && r.customer.email == "" && r.customer.notes == ""
  {
    Editor(DefaultDesign, DefaultCustomer)
  }

  /** Loading an order from the history restores its design and customer. */
  function LoadOrder(e: Editor, o: BeltOrder): (r: Editor)
    ensures r.design == o.design && r.customer == o.customer
  {
    Editor(o.design, o.customer)
  }

  /** Duplicating an order keeps its design and starts with empty customer
      details. */
  function Duplicate(e: Editor, o: BeltOrder): (r: Editor)
    ensures r.design == o.design
    ensures r.customer.name == "" && r.customer.phone == "" && r.customer.email == "" && r.customer.notes == ""
  {
    Editor(o.design, DefaultCustomer)
  }

  /** After a reset or a duplicate no order can be generated until a name is
      entered. */
  lemma FreshCustomerBlocked(e: Editor, o: BeltOrder)
    ensures !CanGenerate(Reset(e).customer) && !CanGenerate(Duplicate(e, o).customer)
  {
  }

  /** Reset and duplicate ignore the editor they act on, and a duplicate
      differs from a reset only in its design; a duplicate loaded back has the
      design of the order it came from. */
  lemma ResetAndDuplicate(e: Editor, f: Editor, o: BeltOrder)
    ensures Reset(e) == Reset(f)
    ensures Duplicate(e, o) == Duplicate(f, o)
    ensures Duplicate(e, o) == Reset(e).(design := o.design)
    ensures Duplicate(e, o).design == LoadOrder(f, o).design
  {
  }

  /** The default design's total length: 34 + 6 + 5 inches. */
  lemma DefaultTotalLength()
    ensures TotalLength(DefaultDesign) == 45.0
    ensures WaistMin <= DefaultDesign.waistSize <= WaistMax
  {
  }
}
