/**
  The four authored end-shape contours and the two ways the cutting template
  draws them: as printed, anchored at its left edge, and mirrored, anchored
  at its right edge.  Contour units are those of a 105 x 78 drawing whose
  content is 76 units tall; the belt width fixes the scale.
*/
module EndShapes {
  import opened Wrappers
  import opened PathParser
  import opened PathProperties
  import opened PathPieces
  import opened PathScaling
  import opened PathReplay

  /** The tip style of the belt. */
  datatype EndShape = Round | Square | SquareTaper | Spear

  /** Height of the contour content, the belt width in contour units. */
  const ContentHeight: real := 76.0

  /** The contours start about one unit below the top of the drawing. */
  const TopOffset: real := 1.0

  /** Width of a drawn end shape in contour units. */
  const ShapeWidth: real := 105.0

  /** The closed contours, used for fills: each ends with the vertical right
      edge and a closepath. */
  function ClosedPieces(s: EndShape): seq<Piece>
  {
    match s
    case Round => [
      Piece('M', [104.26, 77.17]),
      Piece('l', [-73.96, -1.28]),
      Piece('c', [-9.23, -0.16, -17.3, -7.14, -22.49, -14.38]),
      Piece('C', [-0.94, 49.29, -1.08, 33.37, 6.38, 20.45, 13.32, 8.43, 26.22, 0.96, 41.34, 1.0]),
      Piece('l', [62.92, 0.17]),
      Piece('v', [76.0]),
      Piece('Z', [])]
    case Square => [
      Piece('M', [104.11, 77.0]),
      Piece('l', [-91.5, -0.09]),
      Piece('c', [-6.14, 0.0, -10.67, -4.95, -10.93, -10.93, -0.86, -19.06, -0.88, -37.76,
                  -0.15, -56.99, 0.14, -3.61, 1.8, -7.75, 6.06, -7.76]),
      Piece('l', [96.52, -0.24]),
      Piece('v', [76.0]),
      Piece('Z', [])]
    case SquareTaper => [
      Piece('M', [104.0, 76.36]),
      Piece('c', [-11.68, 1.54, -24.0, 1.02, -36.18, -1.68]),
      Piece('l', [-57.94, -12.83]),
      Piece('c', [-5.3, -1.17, -8.24, -5.32, -8.43, -10.44, -0.35, -9.91, -0.66, -18.88,
                  -0.28, -28.92, 0.1, -2.76, 4.88, -6.01, 7.69, -6.69]),
      Piece('C', [29.11, 10.96, 48.52, 5.97, 69.1, 2.39]),
      Piece('c', [11.78, -2.05, 23.56, -1.3, 34.9, -1.03]),
      Piece('v', [75.0]),
      Piece('Z', [])]
    case Spear => [
      Piece('M', [104.16, 76.02]),
      Piece('h', [-33.6]),
      Piece('c', [-6.8, 0.0, -13.56, -0.95, -20.09, -2.83]),
      Piece('l', [-8.69, -2.51]),
      Piece('C', [30.97, 67.57, 1.03, 52.37, 1.0, 41.5]),
      Piece('c', [0.0, -3.0, 1.44, -6.49, 3.85, -8.83]),
      Piece('C', [21.78, 16.21, 42.71, 5.78, 66.14, 1.88]),
      Piece('l', [38.03, -0.86]),
      Piece('v', [75.0]),
      Piece('Z', [])]
  }

  /** The open contours, used for outline strokes: no right edge. */
  function OutlinePieces(s: EndShape): seq<Piece>
  {
    match s
    case Round => [
      Piece('M', [104.26, 77.17]),
      Piece('l', [-73.96, -1.28]),
      Piece('c', [-9.23, -0.16, -17.3, -7.14, -22.49, -14.38]),
      Piece('C', [-0.94, 49.29, -1.08, 33.37, 6.38, 20.45, 13.32, 8.43, 26.22, 0.96, 41.34, 1.0]),
      Piece('l', [62.92, 0.17])]
    case Square => [
      Piece('M', [104.11, 77.0]),
      Piece('l', [-91.5, -0.09]),
      Piece('c', [-6.14, 0.0, -10.67, -4.95, -10.93, -10.93, -0.86, -19.06, -0.88, -37.76,
                  -0.15, -56.99, 0.14, -3.61, 1.8, -7.75, 6.06, -7.76]),
      Piece('l', [96.52, -0.24])]
    case SquareTaper => [
      Piece('M', [104.0, 76.36]),
      Piece('c', [-11.68, 1.54, -24.0, 1.02, -36.18, -1.68]),
      Piece('l', [-57.94, -12.83]),
      Piece('c', [-5.3, -1.17, -8.24, -5.32, -8.43, -10.44, -0.35, -9.91, -0.66, -18.88,
                  -0.28, -28.92, 0.1, -2.76, 4.88, -6.01, 7.69, -6.69]),
      Piece('C', [29.11, 10.96, 48.52, 5.97, 69.1, 2.39]),
      Piece('c', [11.78, -2.05, 23.56, -1.3, 34.9, -1.03])]
    case Spear => [
      Piece('M', [104.16, 76.02]),
      Piece('h', [-33.6]),
      Piece('c', [-6.8, 0.0, -13.56, -0.95, -20.09, -2.83]),
      Piece('l', [-8.69, -2.51]),
      Piece('C', [30.97, 67.57, 1.03, 52.37, 1.0, 41.5]),
      Piece('c', [0.0, -3.0, 1.44, -6.49, 3.85, -8.83]),
      Piece('C', [21.78, 16.21, 42.71, 5.78, 66.14, 1.88]),
      Piece('l', [38.03, -0.86])]
  }

  /** The height of the right edge that closes each contour. */
  function EdgeHeight(s: EndShape): real
  {
    if s == Round || s == Square then 76.0 else 75.0
  }

  /** The token sequence the template draws: outline or closed contour. */
  function ShapeTokens(s: EndShape, outline: bool): seq<Token>
  {
    Flatten(if outline then OutlinePieces(s) else ClosedPieces(s))
  }

  /** Each closed contour is its outline followed by the vertical right edge
      and a closepath. */
  lemma ClosedExtendsOutline(s: EndShape)
    ensures ClosedPieces(s) == OutlinePieces(s) + Edge(EdgeHeight(s))
  {
  }

  /** Segments in the open contour of each shape. */
  function OutlineSegmentCount(s: EndShape): nat
  {
    if s == Round || s == Square then 5 else 7
  }

  /** Each open contour is a well-formed piece list.  The square outline,
      for one, emits one `l` segment, three curves from its 18-number `c` and
      a final `l` segment; its moveto has no extra pairs. */
  lemma OutlineFits(s: EndShape)
    ensures Fits(OutlinePieces(s)) && SegCount(OutlinePieces(s)) == OutlineSegmentCount(s)
  {
    match s
    case Round => RoundFits();
    case Square => SquareFits();
    case SquareTaper => SquareTaperFits();
    case Spear => SpearFits();
  }

  lemma RoundFits()
    ensures Fits(OutlinePieces(Round)) && SegCount(OutlinePieces(Round)) == OutlineSegmentCount(Round)
  {
    var ps := OutlinePieces(Round);
    assert CountFrom(ps, 4) == 1;
    assert CountFrom(ps, 3) == 3;
    assert CountFrom(ps, 2) == 4;
    assert CountFrom(ps, 1) == 5;
  }

  lemma SquareFits()
    ensures Fits(OutlinePieces(Square)) && SegCount(OutlinePieces(Square)) == OutlineSegmentCount(Square)
  {
    var ps := OutlinePieces(Square);
    assert CountFrom(ps, 3) == 1;
    assert CountFrom(ps, 2) == 4;
    assert CountFrom(ps, 1) == 5;
  }

  lemma SquareTaperFits()
    ensures Fits(OutlinePieces(SquareTaper)) && SegCount(OutlinePieces(SquareTaper)) == OutlineSegmentCount(SquareTaper)
  {
    var ps := OutlinePieces(SquareTaper);
    assert CountFrom(ps, 5) == 1;
    assert CountFrom(ps, 4) == 2;
    assert CountFrom(ps, 3) == 5;
    assert CountFrom(ps, 2) == 6;
    assert CountFrom(ps, 1) == 7;
  }

  lemma SpearFits()
    ensures Fits(OutlinePieces(Spear)) && SegCount(OutlinePieces(Spear)) == OutlineSegmentCount(Spear)
  {
    var ps := OutlinePieces(Spear);
    assert CountFrom(ps, 7) == 1;
    assert CountFrom(ps, 6) == 2;
    assert CountFrom(ps, 5) == 3;
    assert CountFrom(ps, 4) == 4;
    assert CountFrom(ps, 3) == 5;
    assert CountFrom(ps, 2) == 6;
    assert CountFrom(ps, 1) == 7;
  }

  /** The open contour parses at every scale and origin, emits its segment
      count, and has its start point fixed by its moveto. */
  lemma OutlineParses(s: EndShape, t: Transform)
    ensures var r := ParseState(ShapeTokens(s, true), t);
      && r.Some?
      && |r.value.segs| == OutlineSegmentCount(s)
      && r.value.started
  {
    var ps := OutlinePieces(s);
    OutlineFits(s);
    assert ps[0].c == 'M' && |ps[0].vs| == 2;
    MovePiecesParse(ps, t);
  }

  /** A command letter with two numbers, as tokens. */
  lemma PairChunk(c: char, vs: seq<real>)
    requires |vs| == 2
    ensures Chunk(c, vs) == [Cmd(c), Num(vs[0]), Num(vs[1])]
  {
    assert Nums(vs) == [Num(vs[0]), Num(vs[1])];
  }

  /** A fitting piece list led by a plain moveto parses, emits its segment
      count, and ends with the start point fixed. */
  lemma MovePiecesParse(ps: seq<Piece>, t: Transform)
    requires Fits(ps) && |ps| > 0 && ps[0].c == 'M' && |ps[0].vs| == 2
    ensures var r := ParseState(Flatten(ps), t);
      r.Some? && |r.value.segs| == SegCount(ps) && r.value.started
  {
    RunPieces(ps, t, Init);
    var vs := ps[0].vs;
    PairChunk('M', vs);
    StartPoint(vs[0], vs[1], Flatten(ps[1..]), t);
  }

  /** The pieces that close a contour: a vertical edge of height `h` and a
      closepath. */
  function Edge(h: real): seq<Piece>
  {
    [Piece('v', [h]), Piece('Z', [])]
  }

  /** The state after a vertical edge of height `h`: the pen moves down by
      `h` and one vertical segment is emitted. */
  function AfterEdge(st: State, h: real, t: Transform): State
  {
    st.(cy := st.cy + h, segs := st.segs + [ScaleSeg(Line(0.0, h), t.scale)])
  }

  /** The closing pieces, parsed from any state. */
  lemma EdgeRun(h: real, t: Transform, st: State)
    ensures Run(Flatten(Edge(h)), t, st) == Some(AfterEdge(st, h, t))
  {
    var after := AfterEdge(st, h, t);
    EdgeTokens(h);
    assert OpOf('v') == Some(VertRel);
    SingleCommand('v', h, [Cmd('Z')], t, st);
    AxisApply(VertRel, h, t, st);
    assert ApplyOp(VertRel, [h], t, st) == after;
    ClosepathRun(t, after);
    assert Run([Cmd('v'), Num(h)] + [Cmd('Z')], t, st) == Run([Cmd('Z')], t, after);
  }

  lemma EdgeTokens(h: real)
    ensures Flatten(Edge(h)) == [Cmd('v'), Num(h)] + [Cmd('Z')]
  {
    assert Edge(h)[1..] == [Piece('Z', [])];
    assert Flatten(Edge(h)[1..]) == [Cmd('Z')];
  }

  /** A closepath alone changes nothing. */
  lemma ClosepathRun(t: Transform, st: State)
    ensures Run([Cmd('Z')], t, st) == Some(st)
  {
    SkippedTokens(Cmd('Z'), [], t, st);
    assert [Cmd('Z')] + [] == [Cmd('Z')];
  }

  /** Closing a parsed piece list with an edge of height `h`. */
  lemma CloseWithEdge(ps: seq<Piece>, h: real, t: Transform)
    requires ParseState(Flatten(ps), t).Some?
    ensures ParseState(Flatten(ps + Edge(h)), t) == Some(AfterEdge(ParseState(Flatten(ps), t).value, h, t))
  {
    FlattenAppend(ps, Edge(h));
    RunConcat(Flatten(ps), Flatten(Edge(h)), t, Init);
    EdgeRun(h, t, ParseState(Flatten(ps), t).value);
  }

  /** Open versus closed contour: the closed one parses to the outline's
      segments followed by exactly one vertical segment of the edge height
      (76 units for round and square, 75 for square-taper and spear), scaled,
      from the same start point. */
  lemma ClosedParse(s: EndShape, t: Transform)
    ensures var o, c := ParseState(ShapeTokens(s, true), t), ParseState(ShapeTokens(s, false), t);
      && o.Some? && c.Some?
      && c.value == AfterEdge(o.value, EdgeHeight(s), t)
  {
    ClosedExtendsOutline(s);
    OutlineParses(s, t);
    CloseWithEdge(OutlinePieces(s), EdgeHeight(s), t);
  }
}
