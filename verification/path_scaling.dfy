/**
  How the parser's output depends on the transform: every segment is the
  unit-scale segment multiplied by the scale, and the origin never reaches
  the segments, only the start point.
*/
module PathScaling {
  import opened Wrappers
  import opened PathParser

  /** `a` is the state `b` becomes at scale `k`: the same pen (kept in the
      source frame), the same moveto flag, and every segment of `b`
      multiplied by `k`. */
  predicate ScaledFrom(a: State, b: State, k: real)
  {
    && a.cx == b.cx && a.cy == b.cy && a.started == b.started
    && |a.segs| == |b.segs|
    && forall i :: 0 <= i < |a.segs| ==> a.segs[i] == ScaleSeg(b.segs[i], k)
  }

  /** Two step results fail together, or leave the same tokens and related states. */
  predicate StepScaled(r: Option<Stepped>, q: Option<Stepped>, k: real)
  {
    r.Some? == q.Some? && (r.Some? ==> r.value.rest == q.value.rest && ScaledFrom(r.value.st, q.value.st, k))
  }

  /** Two run results fail together, or end in related states. */
  predicate RunScaled(r: Option<State>, q: Option<State>, k: real)
  {
    r.Some? == q.Some? && (r.Some? ==> ScaledFrom(r.value, q.value, k))
  }

  lemma ScaleAfterUnit(s: Seg, k: real)
    ensures ScaleSeg(ScaleSeg(s, 1.0), k) == ScaleSeg(s, k)
  {
  }

  lemma ApplyOpScaled(op: Op, a: seq<real>, t: Transform, u: Transform, sa: State, sb: State)
    requires |a| == Arity(op) && u.scale == 1.0 && ScaledFrom(sa, sb, t.scale)
    ensures ScaledFrom(ApplyOp(op, a, t, sa), ApplyOp(op, a, u, sb), t.scale)
  {
    var raw := RawSeg(op, a, sa.cx, sa.cy);
    ScaleAfterUnit(raw, t.scale);
    var ra, rb := ApplyOp(op, a, t, sa), ApplyOp(op, a, u, sb);
    assert ra.segs == sa.segs + [ScaleSeg(raw, t.scale)];
    assert rb.segs == sb.segs + [ScaleSeg(raw, 1.0)];
    forall i | 0 <= i < |ra.segs|
      ensures ra.segs[i] == ScaleSeg(rb.segs[i], t.scale)
    {
      if i < |sa.segs| {
        assert ra.segs[i] == sa.segs[i] && rb.segs[i] == sb.segs[i];
      }
    }
  }

  lemma {:induction false} RunOpScaled(op: Op, toks: seq<Token>, t: Transform, u: Transform, sa: State, sb: State)
    requires u.scale == 1.0 && ScaledFrom(sa, sb, t.scale)
    ensures StepScaled(RunOp(op, toks, t, sa), RunOp(op, toks, u, sb), t.scale)
    decreases |toks|
  {
    if Repeats(op) && (|toks| == 0 || toks[0].Cmd?) {
    } else {
      match TakeNums(toks, Arity(op))
      case None =>
      case Some(a) =>
        ApplyOpScaled(op, a, t, u, sa, sb);
        if Repeats(op) {
          RunOpScaled(op, toks[Arity(op)..], t, u, ApplyOp(op, a, t, sa), ApplyOp(op, a, u, sb));
        }
    }
  }

  lemma DispatchScaled(c: char, toks: seq<Token>, t: Transform, u: Transform, sa: State, sb: State)
    requires u.scale == 1.0 && ScaledFrom(sa, sb, t.scale)
    ensures StepScaled(Dispatch(c, toks, t, sa), Dispatch(c, toks, u, sb), t.scale)
  {
    if c == 'M' {
      match TakeNums(toks, 2)
      case None =>
      case Some(p) =>
        var ma, mb := MoveState(p[0], p[1], t, sa), MoveState(p[0], p[1], u, sb);
        assert ScaledFrom(ma, mb, t.scale);
        RunOpScaled(LineAbs, toks[2..], t, u, ma, mb);
    } else {
      match OpOf(c)
      case Some(op) => RunOpScaled(op, toks, t, u, sa, sb);
      case None =>
    }
  }

  lemma {:induction false} RunScaledFrom(toks: seq<Token>, t: Transform, u: Transform, sa: State, sb: State)
    requires u.scale == 1.0 && ScaledFrom(sa, sb, t.scale)
    ensures RunScaled(Run(toks, t, sa), Run(toks, u, sb), t.scale)
    decreases |toks|
  {
    if |toks| > 0 {
      match toks[0]
      case Num(_) => RunScaledFrom(toks[1..], t, u, sa, sb);
      case Cmd(c) =>
        DispatchScaled(c, toks[1..], t, u, sa, sb);
        match Dispatch(c, toks[1..], t, sa)
        case None =>
        case Some(s) =>
          var q := Dispatch(c, toks[1..], u, sb).value;
          RunScaledFrom(s.rest, t, u, s.st, q.st);
    }
  }

  /** Scale linearity: a path parses at scale `k` exactly when it parses at
      scale 1, and then each segment is the unit-scale segment multiplied by
      `k`, whatever the origin. */
  lemma ParseScaleLinear(toks: seq<Token>, k: real, ox: real, oy: real)
    ensures var p, b := Parse(toks, k, ox, oy), Parse(toks, 1.0, 0.0, 0.0);
      && p.Some? == b.Some?
      && (p.Some? ==>
            |p.value.segments| == |b.value.segments|
            && forall i :: 0 <= i < |p.value.segments| ==> p.value.segments[i] == ScaleSeg(b.value.segments[i], k))
  {
    RunScaledFrom(toks, Transform(k, ox, oy), Transform(1.0, 0.0, 0.0), Init, Init);
  }

  /** `a` is the state `b` becomes when the origin moves by `(dx, dy)`: all
      the same, except that a start point fixed by a moveto moves with it. */
  predicate ShiftedFrom(a: State, b: State, dx: real, dy: real)
  {
    && a.cx == b.cx && a.cy == b.cy && a.started == b.started && a.segs == b.segs
    && (a.started ==> a.startX == b.startX + dx && a.startY == b.startY + dy)
    && (!a.started ==> a.startX == b.startX && a.startY == b.startY)
  }

  predicate StepShifted(r: Option<Stepped>, q: Option<Stepped>, dx: real, dy: real)
  {
    r.Some? == q.Some? && (r.Some? ==> r.value.rest == q.value.rest && ShiftedFrom(r.value.st, q.value.st, dx, dy))
  }

  lemma {:induction false} RunOpShifted(op: Op, toks: seq<Token>, t: Transform, u: Transform, sa: State, sb: State)
    requires t.scale == u.scale && ShiftedFrom(sa, sb, t.ox - u.ox, t.oy - u.oy)
    ensures StepShifted(RunOp(op, toks, t, sa), RunOp(op, toks, u, sb), t.ox - u.ox, t.oy - u.oy)
    decreases |toks|
  {
    if Repeats(op) && (|toks| == 0 || toks[0].Cmd?) {
    } else {
      match TakeNums(toks, Arity(op))
      case None =>
      case Some(a) =>
        if Repeats(op) {
          RunOpShifted(op, toks[Arity(op)..], t, u, ApplyOp(op, a, t, sa), ApplyOp(op, a, u, sb));
        }
    }
  }

  lemma MoveShifted(x: real, y: real, t: Transform, u: Transform, sa: State, sb: State)
    requires t.scale == u.scale && ShiftedFrom(sa, sb, t.ox - u.ox, t.oy - u.oy)
    ensures ShiftedFrom(MoveState(x, y, t, sa), MoveState(x, y, u, sb), t.ox - u.ox, t.oy - u.oy)
  {
  }

  lemma DispatchShifted(c: char, toks: seq<Token>, t: Transform, u: Transform, sa: State, sb: State)
    requires t.scale == u.scale && ShiftedFrom(sa, sb, t.ox - u.ox, t.oy - u.oy)
    ensures StepShifted(Dispatch(c, toks, t, sa), Dispatch(c, toks, u, sb), t.ox - u.ox, t.oy - u.oy)
  {
    if c == 'M' {
      match TakeNums(toks, 2)
      case None =>
      case Some(p) =>
        MoveShifted(p[0], p[1], t, u, sa, sb);
        RunOpShifted(LineAbs, toks[2..], t, u, MoveState(p[0], p[1], t, sa), MoveState(p[0], p[1], u, sb));
    } else {
      match OpOf(c)
      case Some(op) => RunOpShifted(op, toks, t, u, sa, sb);
      case None =>
    }
  }

  lemma {:induction false} RunShifted(toks: seq<Token>, t: Transform, u: Transform, sa: State, sb: State)
    requires t.scale == u.scale && ShiftedFrom(sa, sb, t.ox - u.ox, t.oy - u.oy)
    ensures var r, q := Run(toks, t, sa), Run(toks, u, sb);
      r.Some? == q.Some? && (r.Some? ==> ShiftedFrom(r.value, q.value, t.ox - u.ox, t.oy - u.oy))
    decreases |toks|
  {
    if |toks| > 0 {
      match toks[0]
      case Num(_) => RunShifted(toks[1..], t, u, sa, sb);
      case Cmd(c) =>
        DispatchShifted(c, toks[1..], t, u, sa, sb);
        match Dispatch(c, toks[1..], t, sa)
        case None =>
        case Some(s) =>
          var q := Dispatch(c, toks[1..], u, sb).value;
          RunShifted(s.rest, t, u, s.st, q.st);
    }
  }

  /** Moving the origin moves the start point with it, once a moveto has
      fixed one, and changes nothing else: the segments, the pen and whether
      the path parses at all do not depend on the origin. */
  lemma OriginShift(toks: seq<Token>, k: real, ox: real, oy: real, ox': real, oy': real)
    ensures var r, q := ParseState(toks, Transform(k, ox, oy)), ParseState(toks, Transform(k, ox', oy'));
      && r.Some? == q.Some?
      && (r.Some? ==> ShiftedFrom(r.value, q.value, ox - ox', oy - oy'))
  {
    RunShifted(toks, Transform(k, ox, oy), Transform(k, ox', oy'), Init, Init);
  }
}
