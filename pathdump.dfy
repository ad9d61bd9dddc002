/** Which path positions `DumpPath` writes to the output stream. Each slot
    owns a chunk of `spk` (steps per kernel) positions in the path buffer;
    its step counter says how many of them the last dispatch wrote. */
module PathDump {
  import opened Types
  import opened Arith

  /** The filter of the dump loop: a counter that is a nonzero multiple of
      spk means the whole chunk is fresh; otherwise only the first
      `sc % spk` positions are. */
  predicate Emits(sc: nat, step: nat, spk: nat)
    requires spk > 0
    ensures Emits(sc, step, spk) ==> sc != 0
    ensures sc != 0 && sc % spk == 0 ==> Emits(sc, step, spk)
  {
    (sc % spk == 0 && sc != 0) || step < sc % spk
  }

  /** How many positions of a chunk are fresh: (sc - 1) % spk + 1 for a
      nonzero counter, none for a zero one. */
  function EmitCount(sc: nat, spk: nat): (n: nat)
    requires spk > 0
    ensures n <= spk
    ensures n == 0 <==> sc == 0
  {
    if sc % spk == 0 && sc != 0 then spk else sc % spk
  }

  /** An independent closed form: a nonzero counter shows (sc - 1) % spk + 1
      fresh positions. */
  lemma EmitCountShifted(sc: nat, spk: nat)
    requires spk > 0 && sc > 0
    ensures EmitCount(sc, spk) == (sc - 1) % spk + 1
  {
    var q, r := sc / spk, sc % spk;
    assert sc == spk * q + r;
    if r == 0 {
      assert q >= 1;
      ModUnique(sc - 1, spk, q - 1, spk - 1);
    } else {
      ModUnique(sc - 1, spk, q, r - 1);
    }
  }

  /** The filter keeps exactly the first EmitCount positions of a chunk. */
  lemma EmitsIffBelowCount(sc: nat, step: nat, spk: nat)
    requires spk > 0 && step < spk
    ensures Emits(sc, step, spk) <==> step < EmitCount(sc, spk)
  {
  }

  /** The lines the inner loop writes for one slot after its first `n` steps. */
  function SlotLines(tag: nat, chunk: seq<Float4>, sc: nat, spk: nat, n: nat): (r: seq<Line>)
    requires spk > 0 && n <= |chunk|
    ensures |r| <= n
  {
    if n == 0 then []
    else SlotLines(tag, chunk, sc, spk, n - 1)
         + (if Emits(sc, n - 1, spk) then [Line(tag, chunk[n - 1])] else [])
  }

  /** The first m positions of a chunk, tagged with the slot. */
  function Tagged(tag: nat, chunk: seq<Float4>, m: nat): (r: seq<Line>)
    requires m <= |chunk|
    ensures |r| == m
    ensures forall k :: 0 <= k < m ==> r[k] == Line(tag, chunk[k])
    ensures forall l :: l in r ==> l.slot == tag
  {
    seq(m, k requires 0 <= k < m => Line(tag, chunk[k]))
  }

  function Min(x: nat, y: nat): nat {
    if x <= y then x else y
  }

  lemma {:induction false} SlotLinesPrefix(tag: nat, chunk: seq<Float4>, sc: nat, spk: nat, n: nat)
    requires spk > 0 && n <= spk <= |chunk|
    ensures SlotLines(tag, chunk, sc, spk, n) == Tagged(tag, chunk, Min(n, EmitCount(sc, spk)))
  {
    if n > 0 {
      SlotLinesPrefix(tag, chunk, sc, spk, n - 1);
      EmitsIffBelowCount(sc, n - 1, spk);
      var m := Min(n - 1, EmitCount(sc, spk));
      if Emits(sc, n - 1, spk) {
        assert Tagged(tag, chunk, m) + [Line(tag, chunk[n - 1])] == Tagged(tag, chunk, m + 1);
      }
    }
  }

  /** One slot writes exactly its first EmitCount positions, in step order. */
  lemma SlotLinesClosedForm(tag: nat, chunk: seq<Float4>, sc: nat, spk: nat)
    requires spk > 0 && |chunk| == spk
    ensures SlotLines(tag, chunk, sc, spk, spk) == Tagged(tag, chunk, EmitCount(sc, spk))
  {
    SlotLinesPrefix(tag, chunk, sc, spk, spk);
  }

  /** Slot `id`'s chunk of the read-back path buffer. */
  function Chunk(pathBuf: seq<Float4>, id: nat, spk: nat): (c: seq<Float4>)
    requires id * spk + spk <= |pathBuf|
    ensures |c| == spk
  {
    pathBuf[id * spk .. id * spk + spk]
  }

  /** The lines of the whole dump loop after its first n slots. Slot `id`
      of the range is tagged `offset + id`. */
  function DumpLines(offset: nat, pathBuf: seq<Float4>, stepBuf: seq<u16>, spk: nat, n: nat): (r: seq<Line>)
    requires spk > 0 && |pathBuf| == |stepBuf| * spk && n <= |stepBuf|
  {
    if n == 0 then []
    else
      SegmentFits(n - 1, |stepBuf|, spk);
      DumpLines(offset, pathBuf, stepBuf, spk, n - 1)
      + SlotLines(offset + n - 1, Chunk(pathBuf, n - 1, spk), stepBuf[n - 1] as nat, spk, spk)
  }

  /** Total fresh positions of the first n slots. */
  function TotalEmitted(stepBuf: seq<u16>, spk: nat, n: nat): nat
    requires spk > 0 && n <= |stepBuf|
  {
    if n == 0 then 0 else TotalEmitted(stepBuf, spk, n - 1) + EmitCount(stepBuf[n - 1] as nat, spk)
  }

  /** The dump writes, slot after slot in ascending order, each slot's fresh
      positions tagged with that slot's index. */
  lemma {:induction false} DumpLinesClosedForm(offset: nat, pathBuf: seq<Float4>, stepBuf: seq<u16>, spk: nat, n: nat)
    requires spk > 0 && |pathBuf| == |stepBuf| * spk && n <= |stepBuf|
    ensures n > 0 ==> (SegmentFits(n - 1, |stepBuf|, spk);
      DumpLines(offset, pathBuf, stepBuf, spk, n)
      == DumpLines(offset, pathBuf, stepBuf, spk, n - 1)
         + Tagged(offset + n - 1, Chunk(pathBuf, n - 1, spk), EmitCount(stepBuf[n - 1] as nat, spk)))
    ensures |DumpLines(offset, pathBuf, stepBuf, spk, n)| == TotalEmitted(stepBuf, spk, n)
  {
    if n > 0 {
      SegmentFits(n - 1, |stepBuf|, spk);
      SlotLinesClosedForm(offset + n - 1, Chunk(pathBuf, n - 1, spk), stepBuf[n - 1] as nat, spk);
      DumpLinesClosedForm(offset, pathBuf, stepBuf, spk, n - 1);
    }
  }

  /** Every dumped line is tagged with a slot of the dumped range. */
  lemma {:induction false} DumpLinesInRange(offset: nat, pathBuf: seq<Float4>, stepBuf: seq<u16>, spk: nat, n: nat)
    requires spk > 0 && |pathBuf| == |stepBuf| * spk && n <= |stepBuf|
    ensures forall l :: l in DumpLines(offset, pathBuf, stepBuf, spk, n) ==> offset <= l.slot < offset + n
  {
    if n > 0 {
      SegmentFits(n - 1, |stepBuf|, spk);
      DumpLinesInRange(offset, pathBuf, stepBuf, spk, n - 1);
      var chunk := Chunk(pathBuf, n - 1, spk);
      var sc := stepBuf[n - 1] as nat;
      SlotLinesClosedForm(offset + n - 1, chunk, sc, spk);
      var prev := DumpLines(offset, pathBuf, stepBuf, spk, n - 1);
      var last := Tagged(offset + n - 1, chunk, EmitCount(sc, spk));
      assert DumpLines(offset, pathBuf, stepBuf, spk, n) == prev + last;
      forall l: Line | l in prev + last
        ensures offset <= l.slot < offset + n
      {
        if l !in prev {
          assert l in last;
        }
      }
    }
  }

  /** A slot whose counter is k * spk (k >= 1) completed a chunk: all spk positions
      are written; a slot whose counter is not a multiple writes counter % spk. */
  lemma FullAndPartialChunks(sc: nat, spk: nat, k: nat)
    requires spk > 0
    ensures k >= 1 && sc == k * spk ==> EmitCount(sc, spk) == spk
    ensures sc % spk != 0 ==> EmitCount(sc, spk) == sc % spk
  {
    if k >= 1 && sc == k * spk {
      ModUnique(sc, spk, k, 0);
    }
  }
}
