/**
  The path mini-language of the end-shape contours and the engine that turns
  it into relative segments (the parser of src/utils/pdfGenerator.ts).

  A path is a token sequence of command letters and numbers, the output of
  the tokenizing regular expression of the source.  The parser keeps an
  absolute pen in the source frame and emits every command as a RELATIVE
  segment multiplied by the scale; the first moveto is the only absolute
  point of the output, scaled and then translated by the origin.
*/
module PathParser {
  import opened Wrappers

  /** One token: a command letter or a number. */
  datatype Token = Cmd(c: char) | Num(v: real)

  /** The number tokens of a list of values, in order. */
  function Nums(vs: seq<real>): (r: seq<Token>)
    ensures |r| == |vs|
    ensures forall i :: 0 <= i < |vs| ==> r[i] == Num(vs[i])
  {
    seq(|vs|, i requires 0 <= i < |vs| => Num(vs[i]))
  }

  /** A command letter followed by its numbers. */
  function Chunk(c: char, vs: seq<real>): seq<Token>
  {
    [Cmd(c)] + Nums(vs)
  }

  /** A relative segment: a straight line, or a cubic curve whose three pairs
      (two control points and the end point) are all relative to the pen
      position before the segment. */
  datatype Seg =
    | Line(dx: real, dy: real)
    | Curve(x1: real, y1: real, x2: real, y2: real, x3: real, y3: real)
  {
    /** Horizontal component of the final pair, the pen displacement. */
    function EndX(): real { if Line? then dx else x3 }

    /** Vertical component of the final pair, the pen displacement. */
    function EndY(): real { if Line? then dy else y3 }
  }

  /** The parser's output: one absolute start point and the relative segments. */
  datatype ParsedPath = ParsedPath(startX: real, startY: real, segments: seq<Seg>)

  /** Uniform scale followed by a translation by the origin `(ox, oy)`. */
  datatype Transform = Transform(scale: real, ox: real, oy: real)

  /** The parser's local variables between two commands: the pen `(cx, cy)` in
      the source frame, whether a moveto has been seen, the start point and the
      segments emitted so far. */
  datatype State = State(cx: real, cy: real, started: bool, startX: real, startY: real, segs: seq<Seg>)

  /** Pen at the source origin, no moveto seen, start point (0, 0). */
  const Init := State(0.0, 0.0, false, 0.0, 0.0, [])

  /** A state together with the tokens not yet consumed. */
  datatype Stepped = Stepped(rest: seq<Token>, st: State)

  /** The commands that emit segments (moveto is handled on its own). */
  datatype Op = LineAbs | LineRel | HorizAbs | HorizRel | VertAbs | VertRel | CurveAbs | CurveRel

  /** How many numbers one application of the command reads. */
  function Arity(op: Op): nat
  {
    match op
    case LineAbs => 2
    case LineRel => 2
    case CurveAbs => 6
    case CurveRel => 6
    case _ => 1
  }

  /** Line and curve commands repeat while numbers follow; the horizontal and
      vertical commands read exactly one number. */
  predicate Repeats(op: Op)
  {
    op.LineAbs? || op.LineRel? || op.CurveAbs? || op.CurveRel?
  }

  /** The segment-emitting command a letter names; `M` and every other letter
      (including `m`, `Z` and `z`) name none. */
  function OpOf(c: char): Option<Op>
  {
    match c
    case 'L' => Some(LineAbs)
    case 'l' => Some(LineRel)
    case 'H' => Some(HorizAbs)
    case 'h' => Some(HorizRel)
    case 'V' => Some(VertAbs)
    case 'v' => Some(VertRel)
    case 'C' => Some(CurveAbs)
    case 'c' => Some(CurveRel)
    case _ => None
  }

  /** The values of the first `n` tokens, when all of them are numbers; a
      missing number (end of input or a command letter where the source reads
      one) makes the path malformed. */
  function TakeNums(toks: seq<Token>, n: nat): (r: Option<seq<real>>)
    ensures r.Some? <==> n <= |toks| && forall i :: 0 <= i < n ==> toks[i].Num?
    ensures r.Some? ==> |r.value| == n && forall i :: 0 <= i < n ==> toks[i] == Num(r.value[i])
  {
    if n == 0 then Some([])
    else if |toks| == 0 || toks[0].Cmd? then None
    else
      match TakeNums(toks[1..], n - 1)
      case None => None
      case Some(vs) => Some([toks[0].v] + vs)
  }

  /** Every component of a segment multiplied by `k`. */
  function ScaleSeg(s: Seg, k: real): Seg
  {
    match s
    case Line(dx, dy) => Line(dx * k, dy * k)
    case Curve(x1, y1, x2, y2, x3, y3) => Curve(x1 * k, y1 * k, x2 * k, y2 * k, x3 * k, y3 * k)
  }

  /** The segment one application of `op` to its numbers `a` describes in the
      source frame, relative to the pen `(cx, cy)`: uppercase commands give
      the difference between the absolute target and the pen, lowercase ones
      the delta itself; horizontal and vertical commands zero the other axis. */
  function RawSeg(op: Op, a: seq<real>, cx: real, cy: real): Seg
    requires |a| == Arity(op)
  {
    match op
    case LineAbs => Line(a[0] - cx, a[1] - cy)
    case LineRel => Line(a[0], a[1])
    case HorizAbs => Line(a[0] - cx, 0.0)
    case HorizRel => Line(a[0], 0.0)
    case VertAbs => Line(0.0, a[0] - cy)
    case VertRel => Line(0.0, a[0])
    case CurveAbs => Curve(a[0] - cx, a[1] - cy, a[2] - cx, a[3] - cy, a[4] - cx, a[5] - cy)
    case CurveRel => Curve(a[0], a[1], a[2], a[3], a[4], a[5])
  }

  /** The pen after one application of `op`: the absolute target, or the pen
      moved by the delta. */
  function NewPen(op: Op, a: seq<real>, cx: real, cy: real): (real, real)
    requires |a| == Arity(op)
  {
    match op
    case LineAbs => (a[0], a[1])
    case LineRel => (cx + a[0], cy + a[1])
    case HorizAbs => (a[0], cy)
    case HorizRel => (cx + a[0], cy)
    case VertAbs => (cx, a[0])
    case VertRel => (cx, cy + a[0])
    case CurveAbs => (a[4], a[5])
    case CurveRel => (cx + a[4], cy + a[5])
  }

  /** One application of `op` to its numbers `a`: the segment it describes is
      emitted with every component multiplied by the scale, and the pen moves
      in the source frame. */
  function ApplyOp(op: Op, a: seq<real>, t: Transform, st: State): State
    requires |a| == Arity(op)
  {
    var pen := NewPen(op, a, st.cx, st.cy);
    st.(cx := pen.0, cy := pen.1, segs := st.segs + [ScaleSeg(RawSeg(op, a, st.cx, st.cy), t.scale)])
  }

  /** The body of one command: a repeating command applies itself while the
      next token is a number; the others apply once. */
  function RunOp(op: Op, toks: seq<Token>, t: Transform, st: State): (r: Option<Stepped>)
    ensures r.Some? ==> |r.value.rest| <= |toks| && r.value.rest == toks[|toks| - |r.value.rest|..]
    decreases |toks|
  {
    if Repeats(op) then
      if |toks| == 0 || toks[0].Cmd? then Some(Stepped(toks, st))
      else
        match TakeNums(toks, Arity(op))
        case None => None
        case Some(a) => RunOp(op, toks[Arity(op)..], t, ApplyOp(op, a, t, st))
    else
      match TakeNums(toks, Arity(op))
      case None => None
      case Some(a) => Some(Stepped(toks[Arity(op)..], ApplyOp(op, a, t, st)))
  }

  /** The pen jumps to `(x, y)`; the first moveto also fixes the start point,
      scaled and translated by the origin, and later ones leave it alone. */
  function MoveState(x: real, y: real, t: Transform, st: State): State
  {
    var moved := st.(cx := x, cy := y);
    if st.started then moved
    else moved.(started := true, startX := x * t.scale + t.ox, startY := y * t.scale + t.oy)
  }

  /** The moveto command: a jump to the first pair read, then every further
      pair is an implicit absolute lineto. */
  function MoveTo(toks: seq<Token>, t: Transform, st: State): (r: Option<Stepped>)
    ensures r.Some? ==> |r.value.rest| <= |toks| && r.value.rest == toks[|toks| - |r.value.rest|..]
  {
    match TakeNums(toks, 2)
    case None => None
    case Some(p) => RunOp(LineAbs, toks[2..], t, MoveState(p[0], p[1], t, st))
  }

  /** What one command letter does to the tokens after it. */
  function Dispatch(c: char, toks: seq<Token>, t: Transform, st: State): (r: Option<Stepped>)
    ensures r.Some? ==> |r.value.rest| <= |toks| && r.value.rest == toks[|toks| - |r.value.rest|..]
  {
    if c == 'M' then MoveTo(toks, t, st)
    else match OpOf(c)
      case Some(op) => RunOp(op, toks, t, st)
      case None => Some(Stepped(toks, st))
  }

  /** The main loop: a command letter is dispatched; a number where a command
      is expected is consumed and ignored. */
  function Run(toks: seq<Token>, t: Transform, st: State): Option<State>
    decreases |toks|
  {
    if |toks| == 0 then Some(st)
    else
      match toks[0]
      case Num(_) => Run(toks[1..], t, st)
      case Cmd(c) =>
        match Dispatch(c, toks[1..], t, st)
        case None => None
        case Some(s) => Run(s.rest, t, s.st)
  }

  /** The final state of parsing `toks` from the initial state. */
  function ParseState(toks: seq<Token>, t: Transform): Option<State>
  {
    Run(toks, t, Init)
  }

  /** The parser's result: start point and segments, or `None` when a command
      lacks one of its numbers. */
  function Parse(toks: seq<Token>, scale: real, ox: real, oy: real): Option<ParsedPath>
  {
    match ParseState(toks, Transform(scale, ox, oy))
    case None => None
    case Some(s) => Some(ParsedPath(s.startX, s.startY, s.segs))
  }
}
