# oclptx particle handler, modelled in Dafny

oclptx runs probabilistic tractography on OpenCL devices. Each device has
one `OclPtxHandler`. It owns that device's double-banked particle buffers:
two banks ("sides") of `particles_per_side` slots each. The handler:

- sizes those buffers from the device-memory budget;
- writes fresh particles into slots;
- reads back completion codes;
- dumps fresh path positions to a text stream;
- describes the launch of the advance kernel over one bank.

The model has eight modules:

- `Types`: the value types shared by the others. These are the simulation
  attributes (`Attrs`), the environment data (`Env`), the particle record,
  opaque float4 positions and the records of the path stream (`Line`).
- `Arith`: helper facts about products, floors and remainders, and `Times`,
  the byte count of `count` elements of `each` bytes.
- `Sizing`: the budget arithmetic.
  - `rbtree_size` becomes `RbtreeSize`.
  - `ParticleSize` stays `ParticleSize`.
  - The `num_wg` / `particles_per_side` computation in `Init` becomes
    `InitSizing`.
  - `AllocationFitsBudget` proves that everything `InitParticles` allocates
    fits in the budget.
- `Segments`: a flat device buffer after a contiguous write (`Fill`,
  `Overwrite`), the zero-filled host buffers, and the blocking write itself
  (`WriteRegion`).
- `PathDump`: the emission rule of `DumpPath` as functions (`Emits`,
  `EmitCount`, `SlotLines`, `DumpLines`) and their closed forms.
- `Dispatch`: the `RunInterpKernel` descriptor. It gives the NDRange of a
  bank and the 20 kernel arguments; `SetInterpArg` binds an absent buffer
  as NULL.
- `Failure`: `die` as a value. An allocation failure exits with guidance;
  any other code aborts.
- `Handler`: the class `OclPtxHandler`.
  - Its device buffers are `const` array fields. A disabled optional buffer
    is `null`.
  - `firstTime` is the `first_time_` flag. `sink` is the sequence of
    records written to the path stream.
  - Its methods are `Init`, `InitParticles`, `WriteParticle`,
    `ReadStatus` and `DumpPath`.
  - `InterpLaunch` is the `RunInterpKernel` descriptor of this handler.

Sizes are bytes and unbounded naturals. The element sizes used are:

- `cl_ushort` / `cl_short`: 2
- `cl_int`: 4
- `cl_float4`: 16
- the red-black tree node: 8

`sizeof(struct particle_data)` is the parameter `recordBytes`.

Array lengths are element counts. The status the OpenCL runtime answers to a
blocking read is an input of `ReadStatus` and `DumpPath`, constrained only by
section 5.2.2 of the OpenCL 1.2 specification for `clEnqueueReadBuffer`: a read
of an empty region, or of one that runs past the end of the buffer, gets
CL_INVALID_VALUE (`Failure.ReadStatusAllowed`). A read inside the buffer may
succeed or fail with any code, and whatever it answers goes to `die` as in the
source. Scaling offset, size and length by the element size changes neither
condition.

Two facts about the code that a reader might not expect:

- `rbtree_size` computes `max_steps * 8 + 2 * ceil(log2(max_steps)) * 2 * 2 + 2 * 2`,
  so it reserves `8 * ceil(log2(max_steps))` bytes of stack
  (oclptxhandler.cc:79-81).
- The visited-set size, and with it the per-particle footprint, is
  non-decreasing in `max_steps` but not strictly increasing:
  `RbtreeSize(5) == RbtreeSize(6) == 80`.

## Model

| member | source | states |
|---|---|---|
| Failure.Die | oclptxhandler.cc:22-36 | An allocation failure, and only that code, exits with status -1 after the guidance message. Every other code aborts and reports the code unchanged. |
| Failure.Check | oclptxhandler.cc:227-228 | The `if (CL_SUCCESS != ret) die(ret)` guard. It yields no failure exactly when the status is CL_SUCCESS; otherwise the failure is `die`'s classification of the status. |
| Failure.RejectedReadAborts | oclptxhandler.cc:486-493 | A read of an empty or out-of-range region is never taken for the allocation failure: `die` of its status aborts with CL_INVALID_VALUE. |
| Failure.AdmissibleReadMayExitWithGuidance | oclptxhandler.cc:486-493 | A read inside the buffer may still be answered with the allocation failure, and `die` then takes the guided exit. |
| Sizing.CeilLog2 | oclptxhandler.cc:80 | The integer ceil(log2(n)) for n >= 1: the k with 2^(k-1) < n <= 2^k. |
| Sizing.CeilLog2Unique | oclptxhandler.cc:80 | Those two bounds determine the ceiling logarithm uniquely. |
| Sizing.CeilLog2Monotone | oclptxhandler.cc:80 | The ceiling logarithm is monotone. |
| Sizing.RoundUp16 | oclptxhandler.cc:84 | `size - (size - 1) % 16 + 15` is a multiple of 16, at least `size` and below `size + 16`. |
| Sizing.RoundUp16Least | oclptxhandler.cc:83-84 | No multiple of 16 lies between `size` and its rounding, so the rounding is the least such multiple. |
| Sizing.RoundUp16Monotone | oclptxhandler.cc:83-84 | The rounding is monotone. |
| Sizing.RawRbtreeSize | oclptxhandler.cc:79-81 | The unrounded visited-set size holds at least the `max_steps` 8-byte nodes and the two-short header. |
| Sizing.RbtreeSize | oclptxhandler.cc:77-87 | The visited-set size is a multiple of 16 and lies in [raw, raw + 16), where raw is the unrounded size. |
| Sizing.RbtreeSizeLeast | oclptxhandler.cc:77-87 | The visited-set size is the smallest multiple of 16 that holds the raw size. |
| Sizing.RbtreeSizeMonotone | oclptxhandler.cc:77-87 | More steps never give a smaller visited set. |
| Sizing.RbtreeSizeNotStrictlyIncreasing | oclptxhandler.cc:77-87 | 5 and 6 steps both give 80 bytes, so the size is not strictly increasing. |
| Sizing.BrainBytes | oclptxhandler.cc:100-104 | The per-particle share of the local PDF is a whole number of ints, at least one. Its sufficiency is `Sizing.AllocationFitsBudget`. |
| Sizing.ParticleSize | oclptxhandler.cc:89-121 | The per-particle footprint always includes the record, two ushorts, the visited set and the per-workgroup brain term `((nx*ny*nz/wg/2)+1)*4`. |
| Sizing.ParticleSizeTerms | oclptxhandler.cc:91-116 | The footprint is exactly the fixed terms plus each optional term, where an optional term is zero when its flag is off. |
| Sizing.SavePathsAddsPathTerm | oclptxhandler.cc:106-107 | Turning `save_paths` on adds exactly `steps_per_kernel * 16` bytes. |
| Sizing.WaypointsAddWaypointTerm | oclptxhandler.cc:109-110 | Going from no waypoints to `n > 0` adds exactly `n_waypoint_masks * 2` bytes. |
| Sizing.ExclusionAddsFlagTerm | oclptxhandler.cc:112-113 | Turning `exclusion_mask` on adds exactly 2 bytes. |
| Sizing.LoopcheckAddsHistoryTerm | oclptxhandler.cc:115-116 | Turning `loopcheck` on adds exactly `lx*ly*lz*16` bytes. |
| Sizing.ParticleSizeMonotoneInMaxSteps | oclptxhandler.cc:89-121 | A larger step budget never shrinks the footprint. |
| Sizing.SizingBounds | oclptxhandler.cc:65-70 | With m = mem_left / size and n = m / wg / 2: `m * size <= mem_left < (m+1) * size`, `2*wg*n <= m < 2*(wg*n + wg)`, and `2*wg*n*size <= mem_left`. |
| Sizing.InitSizing | oclptxhandler.cc:65-70 | `particles_per_side == wg * num_wg`; `max_particles` is the floor of budget / size; the assert `particles_per_side <= max_particles` holds and is strengthened to `2*pps <= max_particles < 2*(pps + wg)`; both banks fit the budget. |
| Sizing.InitSizingMonotone | oclptxhandler.cc:65-69 | Lowering the memory budget never increases `particles_per_side`. |
| Sizing.AllocatedBytes | oclptxhandler.cc:127-214 | The allocated bytes include the records, visited sets, completion codes and step counters of all `2*pps` slots, and the path buffer when paths are saved. |
| Sizing.AllocationFitsBudget | oclptxhandler.cc:127-214 | The bytes of every buffer `InitParticles` allocates are at most `2*pps * ParticleSize`, which is at most the budget. |
| Segments.Overwrite | oclptxhandler.cc:340-345 | A buffer after a write of `t` at `start`: the same length, the written entries replaced, all others unchanged. |
| Segments.Fill | oclptxhandler.cc:337-345 | A buffer after a zero-fill write of `len` entries at `start`: those entries hold the value and every other entry is unchanged. |
| Segments.Filled | oclptxhandler.cc:337-338 | The zero-fill loop over a fresh host buffer leaves it `n` copies of the value. |
| Segments.WriteRegion | oclptxhandler.cc:340-345 | A blocking write of a host buffer into a device buffer at an offset leaves the device buffer as `Overwrite` says. |
| Segments.FillDisjointCommute | oclptxhandler.cc:325-367 | Clearing two segments that do not overlap gives the same buffer in either order, so resets of different slots are independent. |
| PathDump.Emits | oclptxhandler.cc:550-552 | The dump filter never emits for a zero counter and emits every step when the counter is a nonzero multiple of `steps_per_kernel`. Its exact extent is `PathDump.EmitsIffBelowCount`. |
| PathDump.EmitCount | oclptxhandler.cc:550-552 | A slot shows at most `steps_per_kernel` fresh positions, and none exactly when its counter is 0. |
| PathDump.EmitCountShifted | oclptxhandler.cc:550-552 | An independent closed form: a nonzero counter shows `(sc - 1) % spk + 1` positions. |
| PathDump.EmitsIffBelowCount | oclptxhandler.cc:550-552 | The dump filter emits step `step` exactly when `step < EmitCount(sc)`. |
| PathDump.FullAndPartialChunks | oclptxhandler.cc:550-552 | A counter that is a nonzero multiple of spk emits all spk positions; any other counter emits `sc % spk` positions. |
| PathDump.SlotLines | oclptxhandler.cc:546-558 | The inner loop writes at most one line per step. Its closed form is `PathDump.SlotLinesClosedForm`. |
| PathDump.SlotLinesPrefix | oclptxhandler.cc:546-558 | After the first n steps of the inner loop, the lines written are the first min(n, EmitCount) positions of the chunk, tagged with the slot. |
| PathDump.SlotLinesClosedForm | oclptxhandler.cc:546-558 | The inner loop writes exactly the first EmitCount positions of the slot's chunk, in step order. |
| PathDump.DumpLines | oclptxhandler.cc:543-559 | The lines of the nested loop over the first `n` slots. Its closed form is `PathDump.DumpLinesClosedForm` and its tags are bounded by `PathDump.DumpLinesInRange`. |
| PathDump.DumpLinesClosedForm | oclptxhandler.cc:543-559 | The dump is slot after slot in ascending order, each slot's fresh prefix tagged `id + offset`. The number of lines is the sum of the EmitCounts. |
| PathDump.DumpLinesInRange | oclptxhandler.cc:544-557 | Every dumped line is tagged with a slot of the dumped range `[offset, offset + count)`. |
| Dispatch.SetInterpArg | oclptxhandler.cc:387-393 | A present buffer is bound as itself; an absent one is bound as NULL, and only then. |
| Dispatch.InterpArgs | oclptxhandler.cc:410-433 | There are exactly 20 arguments. Argument 0 is the attribute block, and argument i >= 1 binds the i-th buffer in source order. |
| Dispatch.InterpArgsShape | oclptxhandler.cc:414-433 | The mandatory own buffers (1, 2, 4, 5, 6) are always bound. The path, waypoint, exclusion and loop-check buffers (3, 7, 8, 9), the brain mask (16) and the exclusion-mask buffer (19) are NULL exactly when absent. |
| Dispatch.InterpRange | oclptxhandler.cc:406-408 | A bank's range starts at `side * pps`, has `pps` work-items and a local size of `wg`. |
| Dispatch.InterpRangeWorkgroups | oclptxhandler.cc:67-69 | With `pps == wg * num_wg`, the range splits into exactly `num_wg` whole workgroups. |
| Dispatch.BanksPartitionSlots | oclptxhandler.cc:406-408 | Banks 0 and 1 partition the `2*pps` slots: slot s is in bank 0 iff s < pps, in bank 1 otherwise, and bank 1 ends at the last slot. |
| Handler.OclPtxHandler.constructor | oclptxhandler.cc:38-75 | Sizes the banks by `InitSizing` and allocates every buffer with its source length, with optional buffers null exactly when their feature is off. The first-time flag is set and the stream is empty. After the initial writes, every completion code is BREAK_INIT and the local PDF is zero. |
| Handler.OclPtxHandler.InitParticles | oclptxhandler.cc:216-245 | All `2*pps` completion codes equal 8 (BREAK_INIT) and all `nx*ny*nz*num_wg` local-PDF entries equal 0. |
| Handler.OclPtxHandler.DeviceFitsBudget | oclptxhandler.cc:65-70 | The buffers of a handler sized by `Init` take at most `dynamic_mem_left` bytes. |
| Handler.OclPtxHandler.WriteParticle | oclptxhandler.cc:268-385 | For `offset < 2*pps`: the record is written; the completion code and step counter become 0. The enabled loop-check and waypoint segments of the slot are zero-filled and the exclusion flag cleared. Every other entry of those buffers is unchanged, as are the visited sets, the path buffer and the local PDF. Exactly one seed line tagged `offset` goes to the path stream iff a stream is attached. |
| Handler.OclPtxHandler.ClearLoopcheck | oclptxhandler.cc:326-349 | The slot's `lx*ly*lz` loop-check entries from `offset*lx*ly*lz` on are zero; the rest of the buffer is unchanged. |
| Handler.OclPtxHandler.ClearWaypoints | oclptxhandler.cc:352-368 | The slot's `n_waypoint_masks` waypoint flags from `offset*n_waypoint_masks` on are zero; the rest of the buffer is unchanged. |
| Handler.OclPtxHandler.ReadStatus | oclptxhandler.cc:484-494 | The read succeeds exactly when the runtime answers CL_SUCCESS, and then the window is nonempty, inside the `2*pps` codes, and the result is those codes. Any other status ends in `die` of that status; an empty or out-of-range window always aborts with CL_INVALID_VALUE. |
| Handler.OclPtxHandler.PathWindow | oclptxhandler.cc:519-529 | The read-back window of `count` slots has `count * steps_per_kernel` positions. |
| Handler.OclPtxHandler.EmitSlot | oclptxhandler.cc:546-558 | The inner loop appends exactly `SlotLines` of the slot's chunk to the stream. |
| Handler.OclPtxHandler.EmitWindow | oclptxhandler.cc:543-559 | The nested loop appends exactly `DumpLines` of the read-back window to the stream. |
| Handler.OclPtxHandler.DumpPath | oclptxhandler.cc:496-563 | With paths off: a no-op that leaves `first_time_` alone. Otherwise the first call emits nothing and clears the flag, and later calls are never suppressed. A later call succeeds iff both reads answer CL_SUCCESS, and then the window is readable and the call appends exactly the dump lines of that window. A failed path read ends in `die` of its status, and so does a failed step-counter read after it. An unreadable window always aborts with CL_INVALID_VALUE. A failed call emits nothing. |
| Handler.OclPtxHandler.InterpLaunch | oclptxhandler.cc:403-433 | The bank's range starts at `side * pps`, with `pps` items in workgroups of `wg_size` (exactly `num_wg` of them). There are 20 arguments, argument 0 is the attributes, and each optional own buffer is NULL exactly when its feature is off. |

## Left out

- OpenCL plumbing (contexts, queues, `cl::Buffer`, `setArg`, `enqueueNDRangeKernel`, `finish`): device buffers are arrays; the kernel launch is a descriptor value; the launch and its status codes are not modelled.
- The advance kernel's effect on the buffers and the whole of `RunSumKernel` (oclptxhandler.cc:450-477, with `SetSumArg` at 395-401): the kernel sources are not part of this model.
- `RunKernel` (oclptxhandler.cc:479-482) only forwards to `RunInterpKernel`; `InterpLaunch` covers it.
- `particles_per_side()` (oclptxhandler.cc:263-266) is the field `attrs.particlesPerSide` of the class.
- Failed buffer allocations and failed writes (the `abort()` after each `new cl::Buffer`, and `die` after each `enqueueWriteBuffer`): allocation is total in Dafny, and the model's writes cannot fail.
- The `exit`/`abort` side effects of `die`, its `puts`/`printf` messages, the "Write failed!" and "Failed to read back path" messages and the "Particle size" / "Allocating" prints: a failure is the returned `Fatal` value.
- The destructor (oclptxhandler.cc:248-261): deallocation is not observable in Dafny.
- Floating point: positions are opaque `Float4` values, the stream holds `(slot, position)` records instead of `printf` text, and the stray `n` in the seed-line format (oclptxhandler.cc:280) is not reproduced. `ceil(log2(max_steps))` is evaluated in double precision in the source and is modelled as the exact integer ceiling logarithm.
- Sizing.ParticleSize: `max_steps >= 1` and `wg_size > 0` are assumed; the source takes `log2(0)` and divides by `wg_size_` without checking either.
- Fixed-width arithmetic: `int` and `size_t` products and the `int` narrowing of `max_particles` are unbounded naturals; offsets and counts are naturals, so negative `int` arguments are not modelled.
- Handler.OclPtxHandler.WriteParticle: the seed line is appended after the device writes, whereas the source prints it first; writes cannot fail in the model, so the order is not observable.
- The `assert(NULL != path_dump_fd_)` of `DumpPath` (oclptxhandler.cc:506) is its precondition `env.savePaths ==> sinkAttached`; a failed assertion is not modelled.
- Which codes the runtime actually answers to a read inside the buffer is left open: `ReadStatus` and `DumpPath` take it as an input.
- The host-side `path_buf` and `step_count_buf` allocations of `DumpPath` are not modelled, nor that both leak on the first call, which returns before the `delete`s (oclptxhandler.cc:501-502, 513-517, 561-562).
- `main.cc` (threads over a work queue and a sample manager) and `oclptx.cc` (a timing test driver) are not part of this model.
