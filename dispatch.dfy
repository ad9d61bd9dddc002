/** The launch descriptor of the advance kernel: the work-item range of a
    bank and the fixed-arity argument list, with absent optional buffers
    bound as NULL. The launch itself is not modelled. */
module Dispatch {
  import opened Types
  import opened Arith

  /** The handler's own device buffers. */
  datatype OwnBuffer =
    | DataBuf | SetsBuf | PathBuf | StepCountBuf | CompleteBuf
    | LocalPdfBuf | WaypointsBuf | ExclusionBuf | LoopcheckBuf

  datatype BufferRef = Own(own: OwnBuffer) | External(handle: nat)

  datatype KernelArg = AttrsArg(attrs: Attrs) | BufferArg(buffer: BufferRef) | NullArg

  /** A one-dimensional NDRange: global offset and size, and local size. */
  datatype Range = Range(offset: nat, global: nat, local: nat)

  datatype Launch = Launch(range: Range, args: seq<KernelArg>)

  /** Which optional own buffers were allocated. */
  datatype Present = Present(path: bool, waypoints: bool, exclusion: bool, loopcheck: bool)

  const INTERP_ARITY: nat := 20

  /** A present buffer is bound; a NULL one is bound as an explicit NULL argument. */
  function SetInterpArg(buf: Option<BufferRef>): (arg: KernelArg)
    ensures arg.NullArg? <==> buf.None?
    ensures !arg.AttrsArg?
    ensures buf.Some? ==> arg == BufferArg(buf.value)
  {
    match buf
    case Some(b) => BufferArg(b)
    case None => NullArg
  }

  function OwnIf(b: OwnBuffer, present: bool): Option<BufferRef> {
    if present then Some(Own(b)) else None
  }

  function Ext(h: Option<nat>): Option<BufferRef> {
    match h
    case Some(n) => Some(External(n))
    case None => None
  }

  /** The buffers in argument positions 1 to 19, in binding order. */
  function InterpBuffers(p: Present, e: EnvBuffers): (bufs: seq<Option<BufferRef>>)
    ensures |bufs| == INTERP_ARITY - 1
  {
    [ Some(Own(DataBuf)), Some(Own(SetsBuf)), OwnIf(PathBuf, p.path),
      Some(Own(StepCountBuf)), Some(Own(CompleteBuf)), Some(Own(LocalPdfBuf)),
      OwnIf(WaypointsBuf, p.waypoints), OwnIf(ExclusionBuf, p.exclusion),
      OwnIf(LoopcheckBuf, p.loopcheck),
      Ext(e.fSamples0), Ext(e.phiSamples0), Ext(e.thetaSamples0),
      Ext(e.fSamples1), Ext(e.phiSamples1), Ext(e.thetaSamples1),
      Ext(e.brainMask), Ext(e.waypointMasks), Ext(e.terminationMask),
      Ext(e.exclusionMaskBuffer) ]
  }

  /** Argument 0 is the attribute block; argument i > 0 binds the i-th buffer. */
  function InterpArgs(a: Attrs, p: Present, e: EnvBuffers): (args: seq<KernelArg>)
    ensures |args| == INTERP_ARITY
    ensures args[0] == AttrsArg(a)
    ensures forall i :: 1 <= i < INTERP_ARITY ==> args[i] == SetInterpArg(InterpBuffers(p, e)[i - 1])
  {
    var bufs := InterpBuffers(p, e);
    [AttrsArg(a)] + seq(INTERP_ARITY - 1, i requires 0 <= i < INTERP_ARITY - 1 => SetInterpArg(bufs[i]))
  }

  /** The argument list has the same length whatever is enabled, and an
      optional own buffer is NULL exactly when it was not allocated; the
      mandatory own buffers are always bound. */
  lemma InterpArgsShape(a: Attrs, p: Present, e: EnvBuffers)
    ensures var args := InterpArgs(a, p, e);
            && args[1] == BufferArg(Own(DataBuf))
            && args[2] == BufferArg(Own(SetsBuf))
            && (args[3].NullArg? <==> !p.path)
            && args[4] == BufferArg(Own(StepCountBuf))
            && args[5] == BufferArg(Own(CompleteBuf))
            && args[6] == BufferArg(Own(LocalPdfBuf))
            && (args[7].NullArg? <==> !p.waypoints)
            && (args[8].NullArg? <==> !p.exclusion)
            && (args[9].NullArg? <==> !p.loopcheck)
            && (args[16].NullArg? <==> e.brainMask.None?)
            && (args[19].NullArg? <==> e.exclusionMaskBuffer.None?)
  {
    var args := InterpArgs(a, p, e);
    var bufs := InterpBuffers(p, e);
    assert args[3] == SetInterpArg(bufs[2]);
    assert args[7] == SetInterpArg(bufs[6]);
    assert args[8] == SetInterpArg(bufs[7]);
    assert args[9] == SetInterpArg(bufs[8]);
    assert args[16] == SetInterpArg(bufs[15]);
    assert args[19] == SetInterpArg(bufs[18]);
  }

  /** `RunInterpKernel(side)`: particles_per_side work-items starting at
      side * particles_per_side, in workgroups of wg. */
  function InterpRange(pps: nat, wg: nat, side: nat): (r: Range)
    ensures r.offset == side * pps && r.global == pps && r.local == wg
  {
    Range(pps * side, pps, wg)
  }

  /** With pps = wg * num_wg the range splits into exactly num_wg workgroups. */
  lemma InterpRangeWorkgroups(wg: nat, numWg: nat, side: nat)
    requires wg > 0
    ensures var r := InterpRange(wg * numWg, wg, side);
            r.global % r.local == 0 && r.global / r.local == numWg
  {
    ModUnique(wg * numWg, wg, numWg, 0);
  }

  predicate InRange(r: Range, slot: nat) {
    r.offset <= slot < r.offset + r.global
  }

  /** The two banks partition the 2 * pps slots: each slot belongs to
      exactly the bank slot / pps, and no bank reaches past the last slot. */
  lemma BanksPartitionSlots(pps: nat, wg: nat, slot: nat)
    requires slot < 2 * pps
    ensures InRange(InterpRange(pps, wg, 0), slot) <==> slot < pps
    ensures InRange(InterpRange(pps, wg, 1), slot) <==> pps <= slot
    ensures InRange(InterpRange(pps, wg, 0), slot) != InRange(InterpRange(pps, wg, 1), slot)
    ensures InterpRange(pps, wg, 1).offset + InterpRange(pps, wg, 1).global == 2 * pps
  {
  }
}
