/**
  The replay identity: walking the emitted segments from the start point, by
  the final pair of each one, lands on the parser's final pen (scaled and
  translated), provided the path's only moveto is its first command.
*/
module PathReplay {
  import opened Wrappers
  import opened PathParser

  /** Total horizontal displacement of a segment list. */
  function SumX(segs: seq<Seg>): real
  {
    if |segs| == 0 then 0.0 else SumX(segs[..|segs| - 1]) + segs[|segs| - 1].EndX()
  }

  /** Total vertical displacement of a segment list. */
  function SumY(segs: seq<Seg>): real
  {
    if |segs| == 0 then 0.0 else SumY(segs[..|segs| - 1]) + segs[|segs| - 1].EndY()
  }

  /** The start point plus the displacements of all segments is the pen,
      mapped to the output frame by the transform. */
  predicate Replays(st: State, t: Transform)
  {
    && st.started
    && st.startX + SumX(st.segs) == st.cx * t.scale + t.ox
    && st.startY + SumY(st.segs) == st.cy * t.scale + t.oy
  }

  /** A token list without a moveto. */
  predicate NoMove(toks: seq<Token>)
  {
    forall i :: 0 <= i < |toks| ==> toks[i] != Cmd('M')
  }

  lemma SumAppend(segs: seq<Seg>, s: Seg)
    ensures SumX(segs + [s]) == SumX(segs) + s.EndX()
    ensures SumY(segs + [s]) == SumY(segs) + s.EndY()
  {
    assert (segs + [s])[..|segs|] == segs;
  }

  /** The final pair of a raw segment is the pen's displacement. */
  lemma RawSegEnd(op: Op, a: seq<real>, cx: real, cy: real)
    requires |a| == Arity(op)
    ensures RawSeg(op, a, cx, cy).EndX() == NewPen(op, a, cx, cy).0 - cx
    ensures RawSeg(op, a, cx, cy).EndY() == NewPen(op, a, cx, cy).1 - cy
  {
  }

  lemma ScaledEnd(s: Seg, k: real)
    ensures ScaleSeg(s, k).EndX() == s.EndX() * k
    ensures ScaleSeg(s, k).EndY() == s.EndY() * k
  {
  }

  /** One step of the replay, in plain arithmetic. */
  lemma Shift(start: real, sum: real, c: real, p: real, k: real, o: real)
    requires start + sum == c * k + o
    ensures start + (sum + (p - c) * k) == p * k + o
  {
    assert (p - c) * k == p * k - c * k;
  }

  /** Appending a segment whose final pair is the scaled pen displacement
      keeps the replay identity. */
  lemma ReplaysStep(st: State, r: State, seg: Seg, t: Transform)
    requires Replays(st, t)
    requires r.started && r.startX == st.startX && r.startY == st.startY && r.segs == st.segs + [seg]
    requires seg.EndX() == (r.cx - st.cx) * t.scale && seg.EndY() == (r.cy - st.cy) * t.scale
    ensures Replays(r, t)
  {
    SumAppend(st.segs, seg);
    Shift(st.startX, SumX(st.segs), st.cx, r.cx, t.scale, t.ox);
    Shift(st.startY, SumY(st.segs), st.cy, r.cy, t.scale, t.oy);
  }

  /** Moving the pen to `pen` and emitting the scaled `raw`, whose final
      pair is the pen's displacement, keeps the replay identity. */
  lemma ReplaysApplied(st: State, t: Transform, pen: (real, real), raw: Seg)
    requires Replays(st, t)
    requires raw.EndX() == pen.0 - st.cx && raw.EndY() == pen.1 - st.cy
    ensures Replays(st.(cx := pen.0, cy := pen.1, segs := st.segs + [ScaleSeg(raw, t.scale)]), t)
  {
    ScaledEnd(raw, t.scale);
    ReplaysStep(st, st.(cx := pen.0, cy := pen.1, segs := st.segs + [ScaleSeg(raw, t.scale)]), ScaleSeg(raw, t.scale), t);
  }

  lemma ApplyOpReplays(op: Op, a: seq<real>, t: Transform, st: State)
    requires |a| == Arity(op) && Replays(st, t)
    ensures Replays(ApplyOp(op, a, t, st), t)
  {
    RawSegEnd(op, a, st.cx, st.cy);
    ReplaysApplied(st, t, NewPen(op, a, st.cx, st.cy), RawSeg(op, a, st.cx, st.cy));
  }

  lemma {:induction false} RunOpReplays(op: Op, toks: seq<Token>, t: Transform, st: State)
    requires Replays(st, t)
    ensures RunOp(op, toks, t, st).Some? ==> Replays(RunOp(op, toks, t, st).value.st, t)
    decreases |toks|
  {
    if Repeats(op) && (|toks| == 0 || toks[0].Cmd?) {
    } else {
      match TakeNums(toks, Arity(op))
      case None =>
      case Some(a) =>
        ApplyOpReplays(op, a, t, st);
        if Repeats(op) {
          RunOpReplays(op, toks[Arity(op)..], t, ApplyOp(op, a, t, st));
        }
    }
  }

  lemma NoMoveSuffix(toks: seq<Token>, rest: seq<Token>)
    requires NoMove(toks) && |rest| <= |toks| && rest == toks[|toks| - |rest|..]
    ensures NoMove(rest)
  {
    forall i | 0 <= i < |rest|
      ensures rest[i] != Cmd('M')
    {
      assert rest[i] == toks[|toks| - |rest| + i];
    }
  }

  /** Without a further moveto, the main loop keeps the replay identity. */
  lemma {:induction false} RunReplays(toks: seq<Token>, t: Transform, st: State)
    requires Replays(st, t) && NoMove(toks)
    ensures Run(toks, t, st).Some? ==> Replays(Run(toks, t, st).value, t)
    decreases |toks|
  {
    if |toks| > 0 {
      NoMoveSuffix(toks, toks[1..]);
      match toks[0]
      case Num(_) => RunReplays(toks[1..], t, st);
      case Cmd(c) =>
        assert c != 'M';
        match OpOf(c)
        case Some(op) =>
          RunOpReplays(op, toks[1..], t, st);
          match RunOp(op, toks[1..], t, st) {
            case None =>
            case Some(s) =>
              NoMoveSuffix(toks[1..], s.rest);
              RunReplays(s.rest, t, s.st);
          }
        case None => RunReplays(toks[1..], t, st);
    }
  }

  /** For a path whose only moveto is its first command, the start point plus
      the summed final pairs of all segments is the final pen, scaled and
      translated by the origin. */
  lemma Replay(x: real, y: real, rest: seq<Token>, scale: real, ox: real, oy: real)
    requires NoMove(rest)
    ensures var t := Transform(scale, ox, oy);
      var r := ParseState([Cmd('M'), Num(x), Num(y)] + rest, t);
      r.Some? ==> Replays(r.value, t)
  {
    var t := Transform(scale, ox, oy);
    var toks := [Cmd('M'), Num(x), Num(y)] + rest;
    assert toks[1..] == [Num(x), Num(y)] + rest;
    assert toks[1..][2..] == rest;
    var p := TakeNums(toks[1..], 2);
    assert p.Some?;
    assert Num(p.value[0]) == Num(x) && Num(p.value[1]) == Num(y);
    var moved := MoveState(x, y, t, Init);
    assert moved.segs == [] && moved.cx == x && moved.cy == y;
    assert Replays(moved, t);
    RunOpReplays(LineAbs, rest, t, moved);
    match RunOp(LineAbs, rest, t, moved)
    case None =>
    case Some(s) =>
      NoMoveSuffix(rest, s.rest);
      RunReplays(s.rest, t, s.st);
  }
}
