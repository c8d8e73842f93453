/**
  Properties of the path parser: how it composes over concatenated paths,
  what each command emits and how a command repeats over extra numbers,
  where the start point comes from, and how a path splits into chunks.
*/
module PathProperties {
  import opened Wrappers
  import opened PathParser

  /** A token list that cannot continue the current command: empty, or led by
      a command letter. */
  predicate AtCommand(toks: seq<Token>)
  {
    |toks| == 0 || toks[0].Cmd?
  }

  /** A step result with `tail` appended to its unconsumed tokens. */
  function WithTail(r: Option<Stepped>, tail: seq<Token>): Option<Stepped>
  {
    match r
    case None => None
    case Some(s) => Some(Stepped(s.rest + tail, s.st))
  }

  /** Parse `tail` on from where a first run ended. */
  function ThenRun(r: Option<State>, tail: seq<Token>, t: Transform): Option<State>
  {
    match r
    case None => None
    case Some(s) => Run(tail, t, s)
  }

  /** Two states agree on whether a moveto was seen and on the start point. */
  predicate SameStart(a: State, b: State)
  {
    a.started == b.started && a.startX == b.startX && a.startY == b.startY
  }

  // ---------------------------------------------------------------------
  // Concatenation
  // ---------------------------------------------------------------------

  lemma TakeNumsConcat(a: seq<Token>, b: seq<Token>, n: nat)
    requires AtCommand(b)
    ensures TakeNums(a + b, n) == TakeNums(a, n)
  {
    var ra, rab := TakeNums(a, n), TakeNums(a + b, n);
    if ra.Some? {
      assert forall i :: 0 <= i < n ==> (a + b)[i] == a[i];
      assert rab.Some?;
      assert forall i :: 0 <= i < n ==> Num(rab.value[i]) == Num(ra.value[i]);
      assert rab.value == ra.value;
    } else if n <= |a| {
      var i :| 0 <= i < n && a[i].Cmd?;
      assert (a + b)[i] == a[i];
    } else if |b| > 0 {
      assert (a + b)[|a|] == b[0];
    }
  }

  lemma RunOpConcat(op: Op, a: seq<Token>, b: seq<Token>, t: Transform, st: State)
    requires AtCommand(b)
    ensures RunOp(op, a + b, t, st) == WithTail(RunOp(op, a, t, st), b)
    decreases |a|
  {
    var n := Arity(op);
    TakeNumsConcat(a, b, n);
    if Repeats(op) && |a| == 0 {
      assert a + b == b;
    } else if Repeats(op) && a[0].Cmd? {
      assert (a + b)[0] == a[0];
    } else {
      if |a| > 0 {
        assert (a + b)[0] == a[0];
      }
      match TakeNums(a, n)
      case None =>
      case Some(v) =>
        assert (a + b)[n..] == a[n..] + b;
        if Repeats(op) {
          RunOpConcat(op, a[n..], b, t, ApplyOp(op, v, t, st));
        }
    }
  }

  lemma DispatchConcat(c: char, a: seq<Token>, b: seq<Token>, t: Transform, st: State)
    requires AtCommand(b)
    ensures Dispatch(c, a + b, t, st) == WithTail(Dispatch(c, a, t, st), b)
  {
    if c == 'M' {
      TakeNumsConcat(a, b, 2);
      match TakeNums(a, 2)
      case None =>
      case Some(p) =>
        assert (a + b)[2..] == a[2..] + b;
        RunOpConcat(LineAbs, a[2..], b, t, MoveState(p[0], p[1], t, st));
    } else {
      match OpOf(c)
      case Some(op) => RunOpConcat(op, a, b, t, st);
      case None =>
    }
  }

  /** Parsing a concatenation whose second part starts at a command letter is
      parsing the first part and then the second from where it ended. */
  lemma {:induction false} RunConcat(a: seq<Token>, b: seq<Token>, t: Transform, st: State)
    requires AtCommand(b)
    ensures Run(a + b, t, st) == ThenRun(Run(a, t, st), b, t)
    decreases |a|
  {
    if |a| == 0 {
      assert a + b == b;
    } else {
      assert (a + b)[0] == a[0];
      assert (a + b)[1..] == a[1..] + b;
      match a[0]
      case Num(_) =>
        RunConcat(a[1..], b, t, st);
      case Cmd(c) =>
        DispatchConcat(c, a[1..], b, t, st);
        match Dispatch(c, a[1..], t, st)
        case None =>
        case Some(s) => RunConcat(s.rest, b, t, s.st);
    }
  }

  // ---------------------------------------------------------------------
  // The start point
  // ---------------------------------------------------------------------

  lemma RunOpKeepsStart(op: Op, toks: seq<Token>, t: Transform, st: State)
    ensures RunOp(op, toks, t, st).Some? ==> SameStart(RunOp(op, toks, t, st).value.st, st)
    decreases |toks|
  {
    if Repeats(op) && !(|toks| == 0 || toks[0].Cmd?) {
      match TakeNums(toks, Arity(op))
      case None =>
      case Some(a) => RunOpKeepsStart(op, toks[Arity(op)..], t, ApplyOp(op, a, t, st));
    }
  }

  /** Once a moveto has been seen, no command changes the start point. */
  lemma DispatchKeepsStart(c: char, toks: seq<Token>, t: Transform, st: State)
    requires st.started
    ensures Dispatch(c, toks, t, st).Some? ==> SameStart(Dispatch(c, toks, t, st).value.st, st)
  {
    if c == 'M' {
      match TakeNums(toks, 2)
      case None =>
      case Some(p) => RunOpKeepsStart(LineAbs, toks[2..], t, MoveState(p[0], p[1], t, st));
    } else if OpOf(c).Some? {
      RunOpKeepsStart(OpOf(c).value, toks, t, st);
    }
  }

  /** Once a moveto has been seen, nothing changes the start point. */
  lemma {:induction false} RunKeepsStart(toks: seq<Token>, t: Transform, st: State)
    requires st.started
    ensures Run(toks, t, st).Some? ==> SameStart(Run(toks, t, st).value, st)
    decreases |toks|
  {
    if |toks| > 0 {
      if toks[0].Num? {
        RunKeepsStart(toks[1..], t, st);
      } else {
        var d := Dispatch(toks[0].c, toks[1..], t, st);
        DispatchKeepsStart(toks[0].c, toks[1..], t, st);
        if d.Some? {
          RunKeepsStart(d.value.rest, t, d.value.st);
        }
      }
    }
  }

  /** A moveto reads its pair, jumps there and continues as absolute lineto. */
  lemma MoveToPair(x: real, y: real, rest: seq<Token>, t: Transform, st: State)
    ensures MoveTo([Num(x), Num(y)] + rest, t, st) == RunOp(LineAbs, rest, t, MoveState(x, y, t, st))
  {
    var toks := [Num(x), Num(y)] + rest;
    assert toks[0] == Num(x) && toks[1] == Num(y);
    assert toks[2..] == rest;
    var p := TakeNums(toks, 2);
    assert p.Some?;
    assert Num(p.value[0]) == Num(x) && Num(p.value[1]) == Num(y);
  }

  /** After a moveto has fixed the start point, the rest of its command and
      every command after it keep that start point. */
  lemma StartAfterMove(rest: seq<Token>, t: Transform, m: State)
    requires m.started
    ensures var o := RunOp(LineAbs, rest, t, m);
      o.Some? ==> var f := Run(o.value.rest, t, o.value.st); f.Some? ==> SameStart(f.value, m)
  {
    RunOpKeepsStart(LineAbs, rest, t, m);
    match RunOp(LineAbs, rest, t, m)
    case None =>
    case Some(s) => RunKeepsStart(s.rest, t, s.st);
  }

  /** A path opened by a moveto keeps the start point that moveto sets,
      whatever follows (later movetos included). */
  lemma {:induction false} MovedStart(x: real, y: real, rest: seq<Token>, t: Transform)
    ensures var r := ParseState([Cmd('M'), Num(x), Num(y)] + rest, t);
      r.Some? ==> SameStart(r.value, MoveState(x, y, t, Init))
  {
    var tail := [Num(x), Num(y)] + rest;
    assert [Cmd('M'), Num(x), Num(y)] + rest == [Cmd('M')] + tail;
    RunCommand('M', tail, t, Init);
    MoveToPair(x, y, rest, t, Init);
    MoveFromInit(x, y, t);
    StartAfterMove(rest, t, MoveState(x, y, t, Init));
  }

  /** The first moveto sets the start point to its pair, scaled and
      translated by the origin. */
  lemma MoveFromInit(x: real, y: real, t: Transform)
    ensures MoveState(x, y, t, Init).started
    ensures MoveState(x, y, t, Init).startX == x * t.scale + t.ox
    ensures MoveState(x, y, t, Init).startY == y * t.scale + t.oy
  {
  }

  /** The start point is the first moveto's pair scaled and translated by the
      origin, whatever follows (later movetos included). */
  lemma {:induction false} StartPoint(x: real, y: real, rest: seq<Token>, t: Transform)
    ensures var r := ParseState([Cmd('M'), Num(x), Num(y)] + rest, t);
      r.Some? ==> r.value.started && r.value.startX == x * t.scale + t.ox && r.value.startY == y * t.scale + t.oy
  {
    MovedStart(x, y, rest, t);
    MoveFromInit(x, y, t);
  }

  // ---------------------------------------------------------------------
  // What each command emits
  // ---------------------------------------------------------------------

  /** `h`/`H` emit a horizontal segment and `v`/`V` a vertical one, each
      reading exactly one number; whatever follows is parsed on its own. */
  lemma AxisCommands(c: char, d: real, rest: seq<Token>, t: Transform, st: State)
    requires c in {'h', 'H', 'v', 'V'}
    ensures c == 'h' ==> Run([Cmd(c), Num(d)] + rest, t, st)
                         == Run(rest, t, st.(cx := st.cx + d, segs := st.segs + [ScaleSeg(Line(d, 0.0), t.scale)]))
    ensures c == 'H' ==> Run([Cmd(c), Num(d)] + rest, t, st)
                         == Run(rest, t, st.(cx := d, segs := st.segs + [ScaleSeg(Line(d - st.cx, 0.0), t.scale)]))
    ensures c == 'v' ==> Run([Cmd(c), Num(d)] + rest, t, st)
                         == Run(rest, t, st.(cy := st.cy + d, segs := st.segs + [ScaleSeg(Line(0.0, d), t.scale)]))
    ensures c == 'V' ==> Run([Cmd(c), Num(d)] + rest, t, st)
                         == Run(rest, t, st.(cy := d, segs := st.segs + [ScaleSeg(Line(0.0, d - st.cy), t.scale)]))
  {
    var op := OpOf(c).value;
    SingleCommand(c, d, rest, t, st);
    AxisApply(op, d, t, st);
  }

  /** A command that reads one number, followed by that number. */
  lemma SingleCommand(c: char, d: real, rest: seq<Token>, t: Transform, st: State)
    requires c != 'M' && OpOf(c).Some? && !Repeats(OpOf(c).value)
    ensures Run([Cmd(c), Num(d)] + rest, t, st) == Run(rest, t, ApplyOp(OpOf(c).value, [d], t, st))
  {
    SingleOp(OpOf(c).value, d, rest, t, st);
    RunCommand(c, [Num(d)] + rest, t, st);
    assert [Cmd(c), Num(d)] + rest == [Cmd(c)] + ([Num(d)] + rest);
  }

  /** The state one horizontal or vertical command leaves. */
  lemma AxisApply(op: Op, d: real, t: Transform, st: State)
    requires !Repeats(op)
    ensures op == HorizRel ==> ApplyOp(op, [d], t, st) == st.(cx := st.cx + d, segs := st.segs + [ScaleSeg(Line(d, 0.0), t.scale)])
    ensures op == HorizAbs ==> ApplyOp(op, [d], t, st) == st.(cx := d, segs := st.segs + [ScaleSeg(Line(d - st.cx, 0.0), t.scale)])
    ensures op == VertRel ==> ApplyOp(op, [d], t, st) == st.(cy := st.cy + d, segs := st.segs + [ScaleSeg(Line(0.0, d), t.scale)])
    ensures op == VertAbs ==> ApplyOp(op, [d], t, st) == st.(cy := d, segs := st.segs + [ScaleSeg(Line(0.0, d - st.cy), t.scale)])
  {
    assert [d][0] == d;
    match op
    case HorizRel =>
      assert RawSeg(op, [d], st.cx, st.cy) == Line(d, 0.0);
    case HorizAbs =>
      assert RawSeg(op, [d], st.cx, st.cy) == Line(d - st.cx, 0.0);
    case VertRel =>
      assert RawSeg(op, [d], st.cx, st.cy) == Line(0.0, d);
    case VertAbs =>
      assert RawSeg(op, [d], st.cx, st.cy) == Line(0.0, d - st.cy);
    case _ =>
  }

  /** Unfolds the main loop once at a command letter. */
  lemma RunCommand(c: char, r: seq<Token>, t: Transform, st: State)
    ensures Run([Cmd(c)] + r, t, st) == (match Dispatch(c, r, t, st)
                                         case None => None
                                         case Some(s) => Run(s.rest, t, s.st))
  {
    assert ([Cmd(c)] + r)[1..] == r;
  }

  /** A horizontal or vertical command reads exactly one number. */
  lemma SingleOp(op: Op, d: real, rest: seq<Token>, t: Transform, st: State)
    requires !Repeats(op)
    ensures RunOp(op, [Num(d)] + rest, t, st) == Some(Stepped(rest, ApplyOp(op, [d], t, st)))
  {
    var toks := [Num(d)] + rest;
    assert toks == Nums([d]) + rest;
    TakeNumsOfNums([d], rest, 1);
    assert [d][..1] == [d];
  }

  /** Closepath, the unhandled relative moveto `m`, any other letter and a
      stray number are all consumed without emitting anything. */
  lemma SkippedTokens(tok: Token, rest: seq<Token>, t: Transform, st: State)
    requires tok.Num? || (tok.c != 'M' && OpOf(tok.c).None?)
    ensures Run([tok] + rest, t, st) == Run(rest, t, st)
  {
    assert ([tok] + rest)[1..] == rest;
  }

  /** The letters the parser skips: `Z`, `z` and `m` among them. */
  lemma SkippedLetters()
    ensures forall c :: c in {'Z', 'z', 'm'} ==> c != 'M' && OpOf(c).None?
  {
  }

  /** How many segments a command letter followed by `n` numbers emits, or
      `None` when the numbers do not fit the command. */
  function ChunkSegments(c: char, n: nat): Option<nat>
  {
    if c == 'M' then
      if n >= 2 && n % 2 == 0 then Some(n / 2 - 1) else None
    else match OpOf(c)
      case Some(op) =>
        if Repeats(op) then (if n % Arity(op) == 0 then Some(n / Arity(op)) else None)
        else if n == 1 then Some(1) else None
      case None => Some(0)
  }

  lemma TakeNumsOfNums(vs: seq<real>, rest: seq<Token>, n: nat)
    requires n <= |vs|
    ensures TakeNums(Nums(vs) + rest, n) == Some(vs[..n])
    ensures (Nums(vs) + rest)[n..] == Nums(vs[n..]) + rest
  {
    var toks := Nums(vs) + rest;
    assert forall i :: 0 <= i < n ==> toks[i] == Num(vs[i]);
    var r := TakeNums(toks, n);
    assert forall i :: 0 <= i < n ==> Num(r.value[i]) == Num(vs[..n][i]);
    assert r.value == vs[..n];
  }

  /** One application of a command appends exactly one segment and leaves
      the start point alone. */
  lemma ApplyOpAppends(op: Op, a: seq<real>, t: Transform, st: State)
    requires |a| == Arity(op)
    ensures SameStart(ApplyOp(op, a, t, st), st)
    ensures |ApplyOp(op, a, t, st).segs| == |st.segs| + 1
    ensures ApplyOp(op, a, t, st).segs[..|st.segs|] == st.segs
  {
  }

  /** One round of a repeating command: the first group of numbers is applied
      and the command carries on over the remaining numbers. */
  lemma RepeatStep(op: Op, vs: seq<real>, rest: seq<Token>, t: Transform, st: State)
    requires Repeats(op) && Arity(op) <= |vs|
    ensures RunOp(op, Nums(vs) + rest, t, st)
            == RunOp(op, Nums(vs[Arity(op)..]) + rest, t, ApplyOp(op, vs[..Arity(op)], t, st))
  {
    var toks := Nums(vs) + rest;
    TakeNumsOfNums(vs, rest, Arity(op));
    assert toks[0] == Num(vs[0]);
  }

  /** A repeating command stops, consuming nothing, at a command letter or at
      the end of the input. */
  lemma RepeatStop(op: Op, rest: seq<Token>, t: Transform, st: State)
    requires Repeats(op) && AtCommand(rest)
    ensures RunOp(op, rest, t, st) == Some(Stepped(rest, st))
  {
  }

  /** A command run that succeeded, stopped at `rest`, kept the start point
      and every earlier segment, and appended `k` segments. */
  predicate Appended(r: Option<Stepped>, rest: seq<Token>, st: State, k: nat)
  {
    && r.Some? && r.value.rest == rest && SameStart(r.value.st, st)
    && |r.value.st.segs| == |st.segs| + k
    && r.value.st.segs[..|st.segs|] == st.segs
  }

  /** Appending `k - 1` segments after a state that appended one more is
      appending `k`. */
  lemma AppendedStep(r: Option<Stepped>, rest: seq<Token>, st: State, st': State, k: nat)
    requires k > 0 && Appended(r, rest, st', k - 1)
    requires SameStart(st', st) && |st'.segs| == |st.segs| + 1 && st'.segs[..|st.segs|] == st.segs
    ensures Appended(r, rest, st, k)
  {
    var s := r.value.st.segs;
    assert s[..|st.segs|] == s[..|st'.segs|][..|st.segs|];
  }

  /** `k` groups of `n` numbers less one group are `k - 1` groups. */
  lemma GroupsLeft(k: nat, n: nat, len: nat)
    requires k > 0 && len == k * n
    ensures n <= len && len - n == (k - 1) * n
  {
  }

  /** A repeating command over `k` groups of numbers of its arity emits one
      segment per group and stops at the next command letter. */
  lemma {:induction false} RepeatedOp(op: Op, k: nat, vs: seq<real>, rest: seq<Token>, t: Transform, st: State)
    requires Repeats(op) && |vs| == k * Arity(op) && AtCommand(rest)
    ensures Appended(RunOp(op, Nums(vs) + rest, t, st), rest, st, k)
    decreases k
  {
    var n := Arity(op);
    if k == 0 {
      assert Nums(vs) + rest == rest;
      RepeatStop(op, rest, t, st);
    } else {
      GroupsLeft(k, n, |vs|);
      RepeatedOp(op, k - 1, vs[n..], rest, t, ApplyOp(op, vs[..n], t, st));
      RepeatedOpFrom(op, k, vs, rest, t, st);
    }
  }

  /** The inductive step of `RepeatedOp`: one group applied, then `k - 1`
      groups appended after it. */
  lemma RepeatedOpFrom(op: Op, k: nat, vs: seq<real>, rest: seq<Token>, t: Transform, st: State)
    requires Repeats(op) && k > 0 && Arity(op) <= |vs|
    requires var st' := ApplyOp(op, vs[..Arity(op)], t, st);
      Appended(RunOp(op, Nums(vs[Arity(op)..]) + rest, t, st'), rest, st', k - 1)
    ensures Appended(RunOp(op, Nums(vs) + rest, t, st), rest, st, k)
  {
    var n := Arity(op);
    RepeatStep(op, vs, rest, t, st);
    var st' := ApplyOp(op, vs[..n], t, st);
    ApplyOpAppends(op, vs[..n], t, st);
    AppendedStep(RunOp(op, Nums(vs[n..]) + rest, t, st'), rest, st, st', k);
  }

  lemma SkipNums(vs: seq<real>, t: Transform, st: State)
    ensures Run(Nums(vs), t, st) == Some(st)
    decreases |vs|
  {
    if |vs| > 0 {
      assert Nums(vs)[1..] == Nums(vs[1..]);
      SkipNums(vs[1..], t, st);
    }
  }

  /** The main loop over one command letter and its numbers, when the
      command consumes all of them. */
  lemma RunWholeChunk(c: char, vs: seq<real>, t: Transform, st: State, s: Stepped)
    requires Dispatch(c, Nums(vs), t, st) == Some(s) && s.rest == []
    ensures Run(Chunk(c, vs), t, st) == Some(s.st)
  {
    RunCommand(c, Nums(vs), t, st);
  }

  lemma MoveChunk(vs: seq<real>, t: Transform, st: State)
    requires |vs| >= 2 && |vs| % 2 == 0
    ensures var r := Run(Chunk('M', vs), t, st);
      && r.Some?
      && |r.value.segs| == |st.segs| + (|vs| / 2 - 1)
      && r.value.segs[..|st.segs|] == st.segs
      && SameStart(r.value, MoveState(vs[0], vs[1], t, st))
  {
    var k := |vs| / 2 - 1;
    assert |vs[2..]| == k * 2;
    assert Nums(vs) == [Num(vs[0]), Num(vs[1])] + (Nums(vs[2..]) + []);
    MoveToPair(vs[0], vs[1], Nums(vs[2..]) + [], t, st);
    var moved := MoveState(vs[0], vs[1], t, st);
    RepeatedOp(LineAbs, k, vs[2..], [], t, moved);
    RunWholeChunk('M', vs, t, st, RunOp(LineAbs, Nums(vs[2..]) + [], t, moved).value);
  }

  /** A parse that succeeded, kept every earlier segment and appended `k`. */
  predicate Grown(r: Option<State>, st: State, k: nat)
  {
    r.Some? && |r.value.segs| == |st.segs| + k && r.value.segs[..|st.segs|] == st.segs
  }

  /** A segment command that consumes all its numbers appends to the parse
      exactly what it appends on its own. */
  lemma ChunkOfOp(c: char, op: Op, vs: seq<real>, t: Transform, st: State, k: nat)
    requires OpOf(c) == Some(op) && Appended(RunOp(op, Nums(vs), t, st), [], st, k)
    ensures Grown(Run(Chunk(c, vs), t, st), st, k) && SameStart(Run(Chunk(c, vs), t, st).value, st)
  {
    assert c != 'M';
    RunWholeChunk(c, vs, t, st, RunOp(op, Nums(vs), t, st).value);
  }

  lemma OpChunk(c: char, op: Op, vs: seq<real>, t: Transform, st: State)
    requires OpOf(c) == Some(op) && ChunkSegments(c, |vs|).Some?
    ensures Grown(Run(Chunk(c, vs), t, st), st, ChunkSegments(c, |vs|).value)
    ensures SameStart(Run(Chunk(c, vs), t, st).value, st)
  {
    assert Nums(vs) + [] == Nums(vs);
    var k := ChunkSegments(c, |vs|).value;
    ChunkCount(c, op, |vs|);
    if Repeats(op) {
      RepeatedOp(op, k, vs, [], t, st);
      ChunkOfOp(c, op, vs, t, st, k);
    } else {
      assert vs == [vs[0]];
      SingleOp(op, vs[0], [], t, st);
      ApplyOpAppends(op, vs, t, st);
      ChunkOfOp(c, op, vs, t, st, 1);
    }
  }

  /** The numbers a segment command's count is made of. */
  lemma ChunkCount(c: char, op: Op, n: nat)
    requires OpOf(c) == Some(op) && ChunkSegments(c, n).Some?
    ensures Repeats(op) ==> n == ChunkSegments(c, n).value * Arity(op)
    ensures !Repeats(op) ==> n == 1 && ChunkSegments(c, n).value == 1
  {
    assert c != 'M';
  }

  lemma SkipChunk(c: char, vs: seq<real>, t: Transform, st: State)
    requires c != 'M' && OpOf(c).None?
    ensures Run(Chunk(c, vs), t, st) == Some(st)
  {
    SkippedTokens(Cmd(c), Nums(vs), t, st);
    SkipNums(vs, t, st);
  }

  /** A command whose numbers fit it parses without error, emits the number of
      segments `ChunkSegments` names, and keeps every earlier segment; only a
      moveto can change the start point. */
  lemma RunChunk(c: char, vs: seq<real>, t: Transform, st: State)
    requires ChunkSegments(c, |vs|).Some?
    ensures var r := Run(Chunk(c, vs), t, st);
      && r.Some?
      && |r.value.segs| == |st.segs| + ChunkSegments(c, |vs|).value
      && r.value.segs[..|st.segs|] == st.segs
      && (c == 'M' ==> SameStart(r.value, MoveState(vs[0], vs[1], t, st)))
      && (c != 'M' ==> SameStart(r.value, st))
  {
    if c == 'M' {
      MoveChunk(vs, t, st);
    } else if OpOf(c).Some? {
      OpChunk(c, OpOf(c).value, vs, t, st);
    } else {
      SkipChunk(c, vs, t, st);
    }
  }
}
