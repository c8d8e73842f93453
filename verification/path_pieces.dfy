/**
  Paths written as a list of pieces, one command letter with its numbers
  each, the way the authored path strings read.  Parsing a well-formed piece
  list always succeeds and emits a number of segments fixed by the pieces.
*/
module PathPieces {
  import opened Wrappers
  import opened PathParser
  import opened PathProperties

  /** One command letter and the numbers written after it. */
  datatype Piece = Piece(c: char, vs: seq<real>)

  /** The token sequence of a piece list. */
  function Flatten(ps: seq<Piece>): (r: seq<Token>)
    ensures |ps| > 0 ==> r == Chunk(ps[0].c, ps[0].vs) + Flatten(ps[1..])
    ensures AtCommand(r)
  {
    if |ps| == 0 then [] else Chunk(ps[0].c, ps[0].vs) + Flatten(ps[1..])
  }

  /** Every piece carries a number of values its command accepts. */
  predicate Fits(ps: seq<Piece>)
  {
    forall i :: 0 <= i < |ps| ==> ChunkSegments(ps[i].c, |ps[i].vs|).Some?
  }

  /** The number of segments the pieces from index `k` on emit, each piece
      counted by `ChunkSegments` (a piece that does not fit counts as none). */
  function CountFrom(ps: seq<Piece>, k: nat): nat
    decreases |ps| - k
  {
    if k >= |ps| then 0 else ChunkSegments(ps[k].c, |ps[k].vs|).GetOr(0) + CountFrom(ps, k + 1)
  }

  /** The number of segments a piece list emits. */
  function SegCount(ps: seq<Piece>): nat
  {
    CountFrom(ps, 0)
  }

  lemma {:induction false} CountShift(ps: seq<Piece>, k: nat)
    requires |ps| > 0
    ensures CountFrom(ps, k + 1) == CountFrom(ps[1..], k)
    decreases |ps| - k
  {
    if k + 1 < |ps| {
      assert ps[1..][k] == ps[k + 1];
      CountShift(ps, k + 1);
    }
  }

  lemma CountCons(ps: seq<Piece>)
    requires |ps| > 0
    ensures SegCount(ps) == ChunkSegments(ps[0].c, |ps[0].vs|).GetOr(0) + SegCount(ps[1..])
  {
    CountShift(ps, 0);
  }

  lemma {:induction false} FlattenAppend(a: seq<Piece>, b: seq<Piece>)
    ensures Flatten(a + b) == Flatten(a) + Flatten(b)
    decreases |a|
  {
    if |a| == 0 {
      assert a + b == b;
    } else {
      assert (a + b)[0] == a[0];
      assert (a + b)[1..] == a[1..] + b;
      FlattenAppend(a[1..], b);
    }
  }

  /** A fitting piece list parses from any state: it emits exactly
      `SegCount` segments after the ones already there. */
  lemma {:induction false} RunPieces(ps: seq<Piece>, t: Transform, st: State)
    requires Fits(ps)
    ensures var r := Run(Flatten(ps), t, st);
      && r.Some?
      && |r.value.segs| == |st.segs| + SegCount(ps)
      && r.value.segs[..|st.segs|] == st.segs
    decreases |ps|
  {
    if |ps| == 0 {
    } else {
      var p := ps[0];
      var tail := Flatten(ps[1..]);
      RunConcat(Chunk(p.c, p.vs), tail, t, st);
      RunChunk(p.c, p.vs, t, st);
      var mid := Run(Chunk(p.c, p.vs), t, st).value;
      assert Fits(ps[1..]) by {
        forall i | 0 <= i < |ps[1..]|
          ensures ChunkSegments(ps[1..][i].c, |ps[1..][i].vs|).Some?
        {
          assert ps[1..][i] == ps[i + 1];
        }
      }
      RunPieces(ps[1..], t, mid);
      CountCons(ps);
      var fin := Run(tail, t, mid).value;
      assert fin.segs[..|st.segs|] == fin.segs[..|mid.segs|][..|st.segs|];
    }
  }
}
