/** One device's particle handler: the double-banked per-slot buffers, the
    initial writes, slot refills, status read-back and the path dump. The
    device buffers are arrays; a disabled optional buffer is null. */
module Handler {
  import opened Types
  import opened Arith
  import opened Failure
  import opened Sizing
  import opened Segments
  import opened PathDump
  import opened Dispatch

  class OclPtxHandler {
    const attrs: Attrs
    const env: Env
    const wgSize: nat
    /** sizeof(struct particle_data), opaque to the handler. */
    const recordBytes: nat
    /** Whether a path output stream is attached (path_dump_fd != NULL). */
    const sinkAttached: bool
    /** rbtree_size(max_steps): the bytes of one slot's visited set. */
    const rbtreeBytes: nat
    /** Voxels of the sample grid, nx * ny * nz. */
    const voxels: nat
    /** Loop-check history entries of one slot, lx * ly * lz. */
    const loopcheckEntries: nat

    var firstTime: bool
    /** The records written to the path output stream so far. */
    var sink: seq<Line>

    const data: array<ParticleData>
    const sets: array<u8>
    const complete: array<u16>
    const localPdf: array<int>
    const path: array?<Float4>
    const stepCount: array<u16>
    const waypoints: array?<u16>
    const exclusion: array?<u16>
    const loopcheck: array?<Float4>

    /** Slot count of both banks. */
    function Slots(): nat {
      2 * attrs.particlesPerSide
    }

    /** The sizing `Init` derived from the memory budget. */
    ghost predicate Sized() {
      && wgSize > 0 && attrs.maxSteps >= 1
      && attrs.numWg == InitSizing(env.dynamicMemLeft, ParticleSize(attrs, env, wgSize, recordBytes), wgSize).numWg
      && attrs.particlesPerSide == wgSize * attrs.numWg
      && rbtreeBytes == RbtreeSize(attrs.maxSteps)
      && voxels == Voxels(attrs)
      && loopcheckEntries == LoopcheckEntries(attrs)
    }

    /** The buffer shapes `InitParticles` allocated. */
    ghost predicate Valid() {
      && wgSize > 0 && attrs.maxSteps >= 1
      && attrs.particlesPerSide == wgSize * attrs.numWg
      && data.Length == Slots()
      && sets.Length == Slots() * rbtreeBytes
      && complete.Length == Slots()
      && localPdf.Length == voxels * attrs.numWg
      && stepCount.Length == Slots()
      && (path != null <==> env.savePaths)
      && (path != null ==> path.Length == Slots() * attrs.stepsPerKernel)
      && (waypoints != null <==> 0 < env.nWaypts)
      && (waypoints != null ==> waypoints.Length == Slots() * attrs.nWaypointMasks)
      && (exclusion != null <==> env.exclusionMask)
      && (exclusion != null ==> exclusion.Length == Slots())
      && (loopcheck != null <==> env.loopcheck)
      && (loopcheck != null ==> loopcheck.Length == Slots() * loopcheckEntries)
      // distinct allocations
      && complete != stepCount
      && waypoints != complete && waypoints != stepCount
      && exclusion != complete && exclusion != stepCount
      && (waypoints != null ==> waypoints != exclusion)
      && (path != null ==> path != loopcheck)
    }

    /** `Init`: size the banks from the budget, then allocate the buffers
        (the allocation half of `InitParticles`) and make the initial writes. */
    constructor Init(attrsIn: Attrs, envIn: Env, wg: nat, sinkAttached: bool, recordBytes: nat)
      requires wg > 0 && attrsIn.maxSteps >= 1
      ensures Valid() && Sized()
      ensures var layout := InitSizing(envIn.dynamicMemLeft, ParticleSize(attrsIn, envIn, wg, recordBytes), wg);
              attrs == attrsIn.(numWg := layout.numWg, particlesPerSide := layout.particlesPerSide)
      ensures env == envIn && wgSize == wg
      ensures this.sinkAttached == sinkAttached && this.recordBytes == recordBytes
      ensures firstTime && sink == []
      ensures fresh(data) && fresh(sets) && fresh(complete) && fresh(localPdf) && fresh(stepCount)
      ensures forall i :: 0 <= i < complete.Length ==> complete[i] == BREAK_INIT
      ensures forall i :: 0 <= i < localPdf.Length ==> localPdf[i] == 0
    {
      var layout := InitSizing(envIn.dynamicMemLeft, ParticleSize(attrsIn, envIn, wg, recordBytes), wg);
      var a := attrsIn.(numWg := layout.numWg, particlesPerSide := layout.particlesPerSide);
      assert ParticleSize(a, envIn, wg, recordBytes) == ParticleSize(attrsIn, envIn, wg, recordBytes);
      attrs := a;
      env := envIn;
      wgSize := wg;
      this.recordBytes := recordBytes;
      this.sinkAttached := sinkAttached;
      var rb, vox, entries := RbtreeSize(a.maxSteps), Voxels(a), LoopcheckEntries(a);
      rbtreeBytes, voxels, loopcheckEntries := rb, vox, entries;
      firstTime := true;
      sink := [];

      var slots := 2 * a.particlesPerSide;
      data := new ParticleData[slots];
      sets := new u8[Times(slots, rb)];
      complete := new u16[slots];
      localPdf := new int[Times(vox, a.numWg)];
      if envIn.savePaths {
        path := new Float4[Times(slots, a.stepsPerKernel)];
      } else {
        path := null;
      }
      stepCount := new u16[slots];
      if 0 < envIn.nWaypts {
        waypoints := new u16[Times(slots, a.nWaypointMasks)];
      } else {
        waypoints := null;
      }
      if envIn.exclusionMask {
        exclusion := new u16[slots];
      } else {
        exclusion := null;
      }
      if envIn.loopcheck {
        loopcheck := new Float4[Times(slots, entries)];
      } else {
        loopcheck := null;
      }
      new;
      InitParticles();
    }

    /** The initial writes of `InitParticles`: every completion code is the
        BREAK_INIT sentinel and the local PDF is zero. */
    method InitParticles()
      requires Valid()
      modifies complete, localPdf
      ensures forall i :: 0 <= i < complete.Length ==> complete[i] == BREAK_INIT
      ensures forall i :: 0 <= i < localPdf.Length ==> localPdf[i] == 0
    {
      var n := Slots();
      var tempCompletion := new u16[n];
      for i := 0 to n
        invariant forall j :: 0 <= j < i ==> tempCompletion[j] == BREAK_INIT
      {
        tempCompletion[i] := BREAK_INIT;
      }
      forall i | 0 <= i < n {
        complete[i] := tempCompletion[i];
      }
      forall i | 0 <= i < localPdf.Length {
        localPdf[i] := 0;
      }
    }

    /** Bytes of all buffers the handler holds on the device. */
    ghost function DeviceBytes(): nat
      requires Valid()
    {
      Times(data.Length, recordBytes)
      + sets.Length
      + Times(complete.Length, USHORT_BYTES)
      + Times(localPdf.Length, INT_BYTES)
      + (if path != null then Times(path.Length, FLOAT4_BYTES) else 0)
      + Times(stepCount.Length, USHORT_BYTES)
      + (if waypoints != null then Times(waypoints.Length, USHORT_BYTES) else 0)
      + (if exclusion != null then Times(exclusion.Length, USHORT_BYTES) else 0)
      + (if loopcheck != null then Times(loopcheck.Length, FLOAT4_BYTES) else 0)
    }

    /** The buffers of a handler fit in the memory budget it was sized from. */
    lemma DeviceFitsBudget()
      requires Valid() && Sized()
      ensures DeviceBytes() <= env.dynamicMemLeft
    {
      AllocationFitsBudget(attrs, env, wgSize, recordBytes);
      assert DeviceBytes() == AllocatedBytes(attrs, env, recordBytes);
    }

    /** Put a fresh particle into slot `offset`: the record is written, the
        slot becomes active with no steps taken, its enabled loop-check,
        waypoint and exclusion state is cleared, and the seed position goes
        to the path stream when one is attached. Every other slot, the
        visited sets, the path buffer and the local PDF are untouched. */
    method WriteParticle(d: ParticleData, offset: nat)
      requires Valid()
      requires offset < Slots()
      modifies this`sink, data, complete, stepCount, loopcheck, waypoints, exclusion
      ensures sink == old(sink) + (if sinkAttached then [Line(offset, d.position)] else [])
      ensures data[..] == old(data[..])[offset := d]
      ensures complete[..] == old(complete[..])[offset := ACTIVE]
      ensures stepCount[..] == old(stepCount[..])[offset := 0]
      ensures loopcheck != null ==> (SegmentFits(offset, Slots(), loopcheckEntries);
        loopcheck[..] == Fill(old(loopcheck[..]), Times(offset, loopcheckEntries), loopcheckEntries, ZERO4))
      ensures waypoints != null ==> (SegmentFits(offset, Slots(), attrs.nWaypointMasks);
        waypoints[..] == Fill(old(waypoints[..]), Times(offset, attrs.nWaypointMasks), attrs.nWaypointMasks, 0))
      ensures exclusion != null ==> exclusion[..] == old(exclusion[..])[offset := 0]
      ensures unchanged(sets, localPdf)
      ensures path != null ==> unchanged(path)
    {
      data[offset] := d;
      complete[offset] := ACTIVE;
      stepCount[offset] := 0;
      ClearLoopcheck(offset);
      ClearWaypoints(offset);
      if exclusion != null {
        exclusion[offset] := 0;
      }
      if sinkAttached {
        sink := sink + [Line(offset, d.position)];
      }
    }

    /** When loop checking is on, zero the slot's lx * ly * lz history entries. */
    method ClearLoopcheck(offset: nat)
      requires Valid() && offset < Slots()
      modifies loopcheck
      ensures loopcheck != null ==> (SegmentFits(offset, Slots(), loopcheckEntries);
        loopcheck[..] == Fill(old(loopcheck[..]), Times(offset, loopcheckEntries), loopcheckEntries, ZERO4))
    {
      if loopcheck != null {
        var tempLoopcheck := Filled(loopcheckEntries, ZERO4);
        SegmentFits(offset, Slots(), loopcheckEntries);
        WriteRegion(loopcheck, Times(offset, loopcheckEntries), tempLoopcheck);
      }
    }

    /** When waypoints are on, zero the slot's n_waypoint_masks flags. */
    method ClearWaypoints(offset: nat)
      requires Valid() && offset < Slots()
      modifies waypoints
      ensures waypoints != null ==> (SegmentFits(offset, Slots(), attrs.nWaypointMasks);
        waypoints[..] == Fill(old(waypoints[..]), Times(offset, attrs.nWaypointMasks), attrs.nWaypointMasks, 0))
    {
      if waypoints != null {
        var tempWaypoints := Filled(attrs.nWaypointMasks, 0 as u16);
        SegmentFits(offset, Slots(), attrs.nWaypointMasks);
        WriteRegion(waypoints, Times(offset, attrs.nWaypointMasks), tempWaypoints);
      }
    }

    /** `ReadStatus`: the completion codes of `count` slots from `offset`, or
        what `die` makes of a failed read. `status` is the runtime's answer
        to the blocking read. */
    method ReadStatus(offset: nat, count: nat, status: int) returns (r: Result<seq<u16>>)
      requires Valid()
      requires ReadStatusAllowed(offset, count, complete.Length, status)
      ensures r.Ok? <==> status == CL_SUCCESS
      ensures r.Ok? ==> 0 < count && offset + count <= Slots() && r.value == complete[offset..offset + count]
      ensures r.Err? ==> r.fatal == Die(status)
      ensures !(0 < count && offset + count <= Slots()) ==> r == Err(Abort(CL_INVALID_VALUE))
    {
      match Check(status)
      case Some(f) =>
        r := Err(f);
      case None =>
        r := Ok(complete[offset..offset + count]);
    }

    /** The slot range a non-suppressed dump can read back. */
    predicate DumpReadable(offset: nat, count: nat) {
      0 < count && 0 < attrs.stepsPerKernel && offset + count <= Slots()
    }

    /** The path chunks of slots offset .. offset + count - 1. */
    ghost function PathWindow(offset: nat, count: nat): (w: seq<Float4>)
      reads path
      requires Valid() && path != null && offset + count <= Slots()
      ensures |w| == count * attrs.stepsPerKernel
    {
      var spk := attrs.stepsPerKernel;
      if count == 0 then []
      else
        SegmentFits(offset + count - 1, Slots(), spk);
        path[offset * spk .. offset * spk + count * spk]
    }

    /** The inner dump loop for one slot: the chunk's fresh positions go to
        the path stream, tagged `tag`, in step order. */
    method EmitSlot(tag: nat, chunk: seq<Float4>, sc: nat, spk: nat)
      requires spk > 0 && |chunk| == spk
      modifies this`sink
      ensures sink == old(sink) + SlotLines(tag, chunk, sc, spk, spk)
    {
      var step := 0;
      while step < spk
        modifies this`sink
        invariant 0 <= step <= spk
        invariant sink == old(sink) + SlotLines(tag, chunk, sc, spk, step)
      {
        var value := chunk[step];
        if Emits(sc, step, spk) {
          sink := sink + [Line(tag, value)];
        }
        step := step + 1;
      }
    }

    /** The dump loop: slot by slot, every fresh position of the read-back
        window goes to the path stream tagged with its slot. */
    method EmitWindow(offset: nat, pathBuf: seq<Float4>, stepBuf: seq<u16>, spk: nat)
      requires spk > 0 && |pathBuf| == |stepBuf| * spk
      modifies this`sink
      ensures sink == old(sink) + DumpLines(offset, pathBuf, stepBuf, spk, |stepBuf|)
    {
      var id := 0;
      while id < |stepBuf|
        modifies this`sink
        invariant 0 <= id <= |stepBuf|
        invariant sink == old(sink) + DumpLines(offset, pathBuf, stepBuf, spk, id)
      {
        SegmentFits(id, |stepBuf|, spk);
        EmitSlot(offset + id, Chunk(pathBuf, id, spk), stepBuf[id] as nat, spk);
        id := id + 1;
      }
    }

    /** `DumpPath`: nothing when paths are off; the first call only clears
        the first-time flag; later calls append, slot by slot, each slot's
        fresh positions, or end in `die` when a read back fails. `pathStatus`
        and `stepStatus` are the runtime's answers to the two blocking reads. */
    method DumpPath(offset: nat, count: nat, pathStatus: int, stepStatus: int) returns (r: Result<()>)
      requires Valid()
      // the source asserts that a path stream is open before anything else
      requires env.savePaths ==> sinkAttached
      requires path != null ==>
        ReadStatusAllowed(Times(offset, attrs.stepsPerKernel), Times(count, attrs.stepsPerKernel), path.Length, pathStatus)
      requires ReadStatusAllowed(offset, count, stepCount.Length, stepStatus)
      modifies this`firstTime, this`sink
      ensures !env.savePaths ==> r.Ok? && sink == old(sink) && firstTime == old(firstTime)
      ensures env.savePaths && old(firstTime) ==> r.Ok? && sink == old(sink) && !firstTime
      ensures env.savePaths && !old(firstTime) ==>
        !firstTime && (r.Ok? <==> pathStatus == CL_SUCCESS && stepStatus == CL_SUCCESS)
      ensures env.savePaths && !old(firstTime) && pathStatus != CL_SUCCESS ==> r == Err(Die(pathStatus))
      ensures env.savePaths && !old(firstTime) && pathStatus == CL_SUCCESS && stepStatus != CL_SUCCESS ==>
        r == Err(Die(stepStatus))
      ensures env.savePaths && !old(firstTime) && !DumpReadable(offset, count) ==> r == Err(Abort(CL_INVALID_VALUE))
      ensures env.savePaths && !old(firstTime) && r.Ok? ==>
        DumpReadable(offset, count) &&
        sink == old(sink) + DumpLines(offset, PathWindow(offset, count), stepCount[offset..offset + count],
                                      attrs.stepsPerKernel, count)
      ensures r.Err? ==> sink == old(sink)
    {
      if !env.savePaths {
        return Ok(());
      }
      if firstTime {
        firstTime := false;
        return Ok(());
      }
      var spk := attrs.stepsPerKernel;
      WindowFits(offset, count, Slots(), spk);
      if pathStatus != CL_SUCCESS {
        return Err(Die(pathStatus));
      }
      var pathBuf := path[offset * spk .. offset * spk + count * spk];
      if stepStatus != CL_SUCCESS {
        return Err(Die(stepStatus));
      }
      var stepBuf := stepCount[offset..offset + count];

      EmitWindow(offset, pathBuf, stepBuf, spk);
      assert pathBuf == PathWindow(offset, count);
      return Ok(());
    }

    /** The optional own buffers that were allocated. */
    function BuffersPresent(): Present
    {
      Present(path != null, waypoints != null, exclusion != null, loopcheck != null)
    }

    /** `RunInterpKernel(side)` as a descriptor: the bank's work-item range in
        num_wg workgroups of wg_size, and the twenty arguments with every
        disabled buffer bound as NULL. */
    function InterpLaunch(side: nat): (l: Launch)
      requires Valid()
      ensures l.range.offset == side * attrs.particlesPerSide
      ensures l.range.global == attrs.particlesPerSide && l.range.local == wgSize
      ensures l.range.global / l.range.local == attrs.numWg && l.range.global % l.range.local == 0
      ensures |l.args| == INTERP_ARITY && l.args[0] == AttrsArg(attrs)
      ensures l.args[3].NullArg? <==> !env.savePaths
      ensures l.args[7].NullArg? <==> env.nWaypts == 0
      ensures l.args[8].NullArg? <==> !env.exclusionMask
      ensures l.args[9].NullArg? <==> !env.loopcheck
    {
      InterpArgsShape(attrs, BuffersPresent(), env.buffers);
      InterpRangeWorkgroups(wgSize, attrs.numWg, side);
      Launch(InterpRange(attrs.particlesPerSide, wgSize, side), InterpArgs(attrs, BuffersPresent(), env.buffers))
    }
  }
}
