/** Failure classification of the handler (`die`) and the status codes of the
    OpenCL runtime calls it reacts to. */
module Failure {
  import opened Types

  const CL_SUCCESS: int := 0
  const CL_MEM_OBJECT_ALLOCATION_FAILURE: int := -4
  const CL_INVALID_VALUE: int := -30

  /** The process exit status `die` passes to exit() after the guidance message. */
  const GUIDED_EXIT_STATUS: int := -1

  /** How the process ends: a clean exit with advice to lower the memory-risk
      fraction, or an abort that reports the raw code. */
  datatype Fatal = ExitWithGuidance(status: int) | Abort(reason: int)

  datatype Result<T> = Ok(value: T) | Err(fatal: Fatal)

  /** Allocation failure is the only recoverable code: it exits with guidance;
      everything else aborts and reports the code. */
  function Die(reason: int): (f: Fatal)
    ensures f.ExitWithGuidance? <==> reason == CL_MEM_OBJECT_ALLOCATION_FAILURE
    ensures f.ExitWithGuidance? ==> f.status == GUIDED_EXIT_STATUS
    ensures f.Abort? ==> f.reason == reason
  {
    if reason == CL_MEM_OBJECT_ALLOCATION_FAILURE then ExitWithGuidance(GUIDED_EXIT_STATUS)
    else Abort(reason)
  }

  /** The `if (CL_SUCCESS != ret) die(ret);` pattern after every device call. */
  function Check(ret: int): (r: Option<Fatal>)
    ensures r.None? <==> ret == CL_SUCCESS
    ensures r.Some? ==> r.value == Die(ret)
  {
    if ret == CL_SUCCESS then None else Some(Die(ret))
  }

  /** Whether a blocking read of `size` elements at element `offset` from a
      buffer of `length` elements is rejected outright: section 5.2.2 of the
      OpenCL 1.2 specification answers CL_INVALID_VALUE when the region is out
      of bounds or its size is 0. (Offsets and sizes in bytes are these times
      the element size, which does not change either condition.) */
  predicate RegionRejected(offset: nat, size: nat, length: nat) {
    size == 0 || offset + size > length
  }

  /** The statuses the runtime may answer to such a read. A rejected region
      always gets CL_INVALID_VALUE; an admissible one may succeed or fail with
      any code the runtime reports (an allocation failure, lack of resources
      or of host memory, among others). */
  predicate ReadStatusAllowed(offset: nat, size: nat, length: nat, status: int) {
    RegionRejected(offset, size, length) ==> status == CL_INVALID_VALUE
  }

  /** A read of an empty or out-of-range region is never taken for the
      recoverable allocation failure: it always aborts with CL_INVALID_VALUE. */
  lemma RejectedReadAborts(offset: nat, size: nat, length: nat, status: int)
    requires ReadStatusAllowed(offset, size, length, status)
    requires RegionRejected(offset, size, length)
    ensures Check(status) == Some(Abort(CL_INVALID_VALUE))
  {
  }

  /** An admissible read may still fail at run time, and an allocation failure
      reported by it takes the guided exit like any other call's. */
  lemma AdmissibleReadMayExitWithGuidance(offset: nat, size: nat, length: nat)
    requires !RegionRejected(offset, size, length)
    ensures ReadStatusAllowed(offset, size, length, CL_MEM_OBJECT_ALLOCATION_FAILURE)
    ensures Check(CL_MEM_OBJECT_ALLOCATION_FAILURE) == Some(ExitWithGuidance(GUIDED_EXIT_STATUS))
  {
  }
}
