/** Value types shared by the handler model: the host-side images of the
    device records, the simulation attributes and the environment data. */
module Types {

  datatype Option<T> = None | Some(value: T)

  /** A byte of a device buffer that the host treats as raw memory. */
  newtype u8 = x: int | 0 <= x < 0x100

  /** A cl_ushort: completion codes, step counters, waypoint and exclusion flags. */
  newtype u16 = x: int | 0 <= x < 0x1_0000

  /** A cl_float4. The handler never computes with its components, so reals
      stand in for the floats. */
  datatype Float4 = Float4(s0: real, s1: real, s2: real, s3: real)

  const ZERO4: Float4 := Float4(0.0, 0.0, 0.0, 0.0)

  /** The per-particle record. Only its position is looked at on the host;
      the remaining fields are opaque bytes. */
  datatype ParticleData = ParticleData(position: Float4, rest: seq<u8>)

  /** One record of the path output stream, `slot:x,y,z`. */
  datatype Line = Line(slot: nat, point: Float4)

  /** The simulation attributes copied verbatim into argument 0 of the
      advance kernel. */
  datatype Attrs = Attrs(
    stepsPerKernel: nat,
    maxSteps: nat,
    particlesPerSide: nat,
    sampleNx: nat,
    sampleNy: nat,
    sampleNz: nat,
    numSamples: nat,
    curvatureThreshold: real,
    nWaypointMasks: nat,
    stepLength: real,
    lx: nat,
    ly: nat,
    lz: nat,
    numWg: nat)

  /** Handles of the buffers owned by the environment; None is a NULL pointer. */
  datatype EnvBuffers = EnvBuffers(
    fSamples0: Option<nat>,
    phiSamples0: Option<nat>,
    thetaSamples0: Option<nat>,
    fSamples1: Option<nat>,
    phiSamples1: Option<nat>,
    thetaSamples1: Option<nat>,
    brainMask: Option<nat>,
    waypointMasks: Option<nat>,
    terminationMask: Option<nat>,
    exclusionMaskBuffer: Option<nat>)

  /** The environment data the handler reads: feature flags, the remaining
      device-memory budget in bytes and the external buffers. */
  datatype Env = Env(
    savePaths: bool,
    nWaypts: nat,
    exclusionMask: bool,
    loopcheck: bool,
    dynamicMemLeft: nat,
    buffers: EnvBuffers)

  // Sizes in bytes of the device types the handler sizes buffers with.
  const USHORT_BYTES: nat := 2
  const SHORT_BYTES: nat := 2
  const INT_BYTES: nat := 4
  const FLOAT4_BYTES: nat := 16
  const RBTREE_NODE_BYTES: nat := 8

  /** The completion code of a slot that holds no particle (BREAK_INIT). */
  const BREAK_INIT: u16 := 8
  /** The completion code of a freshly written, live particle. */
  const ACTIVE: u16 := 0

  function Voxels(a: Attrs): nat {
    a.sampleNx * a.sampleNy * a.sampleNz
  }

  function LoopcheckEntries(a: Attrs): nat {
    a.lx * a.ly * a.lz
  }
}
