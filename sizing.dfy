/** Device-memory budgeting of the particle handler: the visited-set size,
    the per-particle footprint and the number of resident particles derived
    from the memory budget. All sizes are bytes; products are unbounded
    naturals (no size_t or int wrap-around). */
module Sizing {
  import opened Types
  import opened Arith

  function Pow2(k: nat): (p: nat)
    ensures p >= 1
  {
    if k == 0 then 1 else 2 * Pow2(k - 1)
  }

  lemma {:induction false} Pow2Monotone(i: nat, j: nat)
    requires i <= j
    ensures Pow2(i) <= Pow2(j)
    decreases j - i
  {
    if i < j {
      Pow2Monotone(i, j - 1);
    }
  }

  /** The integer ceil(log2(n)): the least k with n <= 2^k. */
  function CeilLog2(n: nat): (k: nat)
    requires n >= 1
    ensures n <= Pow2(k)
    ensures k > 0 ==> Pow2(k - 1) < n
    decreases n
  {
    if n == 1 then 0 else 1 + CeilLog2((n + 1) / 2)
  }

  /** The two bounds of CeilLog2 determine it. */
  lemma CeilLog2Unique(n: nat, k: nat)
    requires n >= 1
    requires n <= Pow2(k) && (k > 0 ==> Pow2(k - 1) < n)
    ensures k == CeilLog2(n)
  {
    var c := CeilLog2(n);
    if k < c {
      Pow2Monotone(k, c - 1);
    } else if c < k {
      Pow2Monotone(c, k - 1);
    }
  }

  lemma CeilLog2Monotone(m: nat, n: nat)
    requires 1 <= m <= n
    ensures CeilLog2(m) <= CeilLog2(n)
  {
    var a, b := CeilLog2(m), CeilLog2(n);
    if b < a {
      Pow2Monotone(b, a - 1);
    }
  }

  /** `size - (size - 1) % 16 + 15`: the least multiple of 16 not below size. */
  function RoundUp16(size: nat): (r: nat)
    requires size >= 1
    ensures r % 16 == 0
    ensures size <= r < size + 16
  {
    size - (size - 1) % 16 + 15
  }

  /** No multiple of 16 between size and its rounding. */
  lemma RoundUp16Least(size: nat, m: nat)
    requires size >= 1 && m % 16 == 0 && size <= m
    ensures RoundUp16(size) <= m
  {
    var r := RoundUp16(size);
    var i, j := r / 16, m / 16;
    assert r == 16 * i && m == 16 * j;
    assert 16 * i < 16 * (j + 1);
  }

  lemma RoundUp16Monotone(a: nat, b: nat)
    requires 1 <= a <= b
    ensures RoundUp16(a) <= RoundUp16(b)
  {
    RoundUp16Least(a, RoundUp16(b));
  }

  /** The unrounded visited-set size: max_steps nodes of 8 bytes, two stacks
      of ceil(log2(max_steps)) pairs of shorts, and two shorts of header. */
  function RawRbtreeSize(maxSteps: nat): (r: nat)
    requires maxSteps >= 1
    ensures maxSteps * RBTREE_NODE_BYTES + 2 * SHORT_BYTES <= r
  {
    maxSteps * RBTREE_NODE_BYTES + 2 * CeilLog2(maxSteps) * 2 * SHORT_BYTES + 2 * SHORT_BYTES
  }

  /** Visited-set bytes per particle: the raw size rounded up to 16. */
  function RbtreeSize(maxSteps: nat): (r: nat)
    requires maxSteps >= 1
    ensures r % 16 == 0
    ensures RawRbtreeSize(maxSteps) <= r < RawRbtreeSize(maxSteps) + 16
  {
    RoundUp16(RawRbtreeSize(maxSteps))
  }

  /** RbtreeSize is the least multiple of 16 that holds the raw size. */
  lemma RbtreeSizeLeast(maxSteps: nat, m: nat)
    requires maxSteps >= 1 && m % 16 == 0 && RawRbtreeSize(maxSteps) <= m
    ensures RbtreeSize(maxSteps) <= m
  {
    RoundUp16Least(RawRbtreeSize(maxSteps), m);
  }

  lemma RbtreeSizeMonotone(m: nat, n: nat)
    requires 1 <= m <= n
    ensures RbtreeSize(m) <= RbtreeSize(n)
  {
    CeilLog2Monotone(m, n);
    RoundUp16Monotone(RawRbtreeSize(m), RawRbtreeSize(n));
  }

  /** A larger step budget need not cost more: 5 and 6 steps both need 80 bytes. */
  lemma RbtreeSizeNotStrictlyIncreasing()
    ensures RbtreeSize(5) == RbtreeSize(6) == 80
  {
    assert Pow2(2) == 4 && Pow2(3) == 8;
    CeilLog2Unique(5, 3);
    CeilLog2Unique(6, 3);
  }

  /** The per-workgroup share of the local PDF, charged to each particle. */
  function BrainBytes(a: Attrs, wg: nat): (r: nat)
    requires wg > 0
    ensures r % INT_BYTES == 0 && INT_BYTES <= r
  {
    ((Voxels(a) / wg / 2) + 1) * INT_BYTES
  }

  // The optional per-particle terms, each zero when its feature is off.
  function PathBytes(a: Attrs, e: Env): nat {
    if e.savePaths then a.stepsPerKernel * FLOAT4_BYTES else 0
  }

  function WaypointBytes(a: Attrs, e: Env): nat {
    if 0 < e.nWaypts then a.nWaypointMasks * USHORT_BYTES else 0
  }

  function ExclusionBytes(e: Env): nat {
    if e.exclusionMask then USHORT_BYTES else 0
  }

  function LoopcheckBytes(a: Attrs, e: Env): nat {
    if e.loopcheck then LoopcheckEntries(a) * FLOAT4_BYTES else 0
  }

  /** Device bytes per resident particle, accumulated term by term. */
  function ParticleSize(a: Attrs, e: Env, wg: nat, recordBytes: nat): (size: nat)
    requires wg > 0 && a.maxSteps >= 1
    ensures size >= recordBytes + 2 * USHORT_BYTES + RbtreeSize(a.maxSteps) + BrainBytes(a, wg)
  {
    var s0 := recordBytes;
    var s1 := s0 + USHORT_BYTES;                 // completion code
    var s2 := s1 + USHORT_BYTES;                 // step counter
    var s3 := s2 + RbtreeSize(a.maxSteps);
    var s4 := s3 + BrainBytes(a, wg);            // per-workgroup brain
    var s5 := if e.savePaths then s4 + a.stepsPerKernel * FLOAT4_BYTES else s4;
    var s6 := if 0 < e.nWaypts then s5 + a.nWaypointMasks * USHORT_BYTES else s5;
    var s7 := if e.exclusionMask then s6 + USHORT_BYTES else s6;
    var s8 := if e.loopcheck then s7 + LoopcheckEntries(a) * FLOAT4_BYTES else s7;
    s8
  }

  /** The footprint is the fixed terms plus exactly the enabled optional terms. */
  lemma ParticleSizeTerms(a: Attrs, e: Env, wg: nat, recordBytes: nat)
    requires wg > 0 && a.maxSteps >= 1
    ensures ParticleSize(a, e, wg, recordBytes)
         == recordBytes + 2 * USHORT_BYTES + RbtreeSize(a.maxSteps) + BrainBytes(a, wg)
          + PathBytes(a, e) + WaypointBytes(a, e) + ExclusionBytes(e) + LoopcheckBytes(a, e)
  {
  }

  lemma SavePathsAddsPathTerm(a: Attrs, e: Env, wg: nat, recordBytes: nat)
    requires wg > 0 && a.maxSteps >= 1
    ensures ParticleSize(a, e.(savePaths := true), wg, recordBytes)
         == ParticleSize(a, e.(savePaths := false), wg, recordBytes) + a.stepsPerKernel * FLOAT4_BYTES
  {
  }

  lemma WaypointsAddWaypointTerm(a: Attrs, e: Env, wg: nat, recordBytes: nat, n: nat)
    requires wg > 0 && a.maxSteps >= 1 && 0 < n
    ensures ParticleSize(a, e.(nWaypts := n), wg, recordBytes)
         == ParticleSize(a, e.(nWaypts := 0), wg, recordBytes) + a.nWaypointMasks * USHORT_BYTES
  {
  }

  lemma ExclusionAddsFlagTerm(a: Attrs, e: Env, wg: nat, recordBytes: nat)
    requires wg > 0 && a.maxSteps >= 1
    ensures ParticleSize(a, e.(exclusionMask := true), wg, recordBytes)
         == ParticleSize(a, e.(exclusionMask := false), wg, recordBytes) + USHORT_BYTES
  {
  }

  lemma LoopcheckAddsHistoryTerm(a: Attrs, e: Env, wg: nat, recordBytes: nat)
    requires wg > 0 && a.maxSteps >= 1
    ensures ParticleSize(a, e.(loopcheck := true), wg, recordBytes)
         == ParticleSize(a, e.(loopcheck := false), wg, recordBytes) + LoopcheckEntries(a) * FLOAT4_BYTES
  {
  }

  /** More steps per particle never shrink the footprint. */
  lemma ParticleSizeMonotoneInMaxSteps(a: Attrs, e: Env, wg: nat, recordBytes: nat, m: nat)
    requires wg > 0 && 1 <= a.maxSteps <= m
    ensures ParticleSize(a, e, wg, recordBytes) <= ParticleSize(a.(maxSteps := m), e, wg, recordBytes)
  {
    RbtreeSizeMonotone(a.maxSteps, m);
    ParticleSizeTerms(a, e, wg, recordBytes);
    ParticleSizeTerms(a.(maxSteps := m), e, wg, recordBytes);
  }

  /** The figures `Init` derives from the budget. */
  datatype Layout = Layout(maxParticles: nat, numWg: nat, particlesPerSide: nat)

  lemma SizingBounds(memLeft: nat, particleSize: nat, wg: nat, m: nat, n: nat)
    requires particleSize > 0 && wg > 0
    requires m == memLeft / particleSize && n == m / wg / 2
    ensures m * particleSize <= memLeft < (m + 1) * particleSize
    ensures 2 * (wg * n) <= m < 2 * (wg * n + wg)
    ensures wg * n <= m
    ensures 2 * (wg * n) * particleSize <= memLeft
  {
    var q := m / wg;
    DivBounds(memLeft, particleSize);
    DivBounds(m, wg);
    assert 2 * n <= q < 2 * n + 2;
    MulLe(wg, 2 * n, q);
    MulLe(wg, q + 1, 2 * n + 2);
    assert 2 * (wg * n) == wg * (2 * n);
    assert 2 * (wg * n + wg) == wg * (2 * n + 2);
    MulLe(particleSize, 2 * (wg * n), m);
    assert 2 * (wg * n) * particleSize == particleSize * (2 * (wg * n));
  }

  /** `num_wg = (mem_left / ParticleSize) / wg / 2`, `particles_per_side = wg * num_wg`:
      both banks fit the budget, and one more workgroup per bank would not. */
  function InitSizing(memLeft: nat, particleSize: nat, wg: nat): (s: Layout)
    requires particleSize > 0 && wg > 0
    ensures s.particlesPerSide == wg * s.numWg
    ensures s.maxParticles * particleSize <= memLeft < (s.maxParticles + 1) * particleSize
    ensures s.particlesPerSide <= s.maxParticles
    ensures 2 * s.particlesPerSide <= s.maxParticles < 2 * (s.particlesPerSide + wg)
    ensures 2 * s.particlesPerSide * particleSize <= memLeft
  {
    var maxParticles := memLeft / particleSize;
    var numWg := maxParticles / wg / 2;
    SizingBounds(memLeft, particleSize, wg, maxParticles, numWg);
    Layout(maxParticles, numWg, wg * numWg)
  }

  /** A smaller budget never yields more resident particles. */
  lemma InitSizingMonotone(m1: nat, m2: nat, particleSize: nat, wg: nat)
    requires particleSize > 0 && wg > 0 && m1 <= m2
    ensures InitSizing(m1, particleSize, wg).particlesPerSide <= InitSizing(m2, particleSize, wg).particlesPerSide
  {
    DivLe(m1, m2, particleSize);
    DivLe(m1 / particleSize, m2 / particleSize, wg);
    DivLe(m1 / particleSize / wg, m2 / particleSize / wg, 2);
    MulLe(wg, m1 / particleSize / wg / 2, m2 / particleSize / wg / 2);
  }

  /** Bytes of every buffer the handler allocates, as sized at allocation. */
  function AllocatedBytes(a: Attrs, e: Env, recordBytes: nat): (r: nat)
    requires a.maxSteps >= 1
    ensures Times(2 * a.particlesPerSide, recordBytes) + Times(2 * a.particlesPerSide, RbtreeSize(a.maxSteps))
            + 2 * Times(2 * a.particlesPerSide, USHORT_BYTES) <= r
    ensures e.savePaths ==> Times(Times(2 * a.particlesPerSide, a.stepsPerKernel), FLOAT4_BYTES) <= r
  {
    var slots := 2 * a.particlesPerSide;
    Times(slots, recordBytes)                                        // particle records
    + Times(slots, RbtreeSize(a.maxSteps))                           // visited sets
    + Times(slots, USHORT_BYTES)                                     // completion codes
    + Times(Times(Voxels(a), a.numWg), INT_BYTES)                    // local PDF
    + (if e.savePaths then Times(Times(slots, a.stepsPerKernel), FLOAT4_BYTES) else 0)
    + Times(slots, USHORT_BYTES)                                     // step counters
    + (if 0 < e.nWaypts then Times(Times(slots, a.nWaypointMasks), USHORT_BYTES) else 0)
    + (if e.exclusionMask then Times(slots, USHORT_BYTES) else 0)
    + (if e.loopcheck then Times(Times(slots, LoopcheckEntries(a)), FLOAT4_BYTES) else 0)
  }

  /** The per-workgroup brain term covers a workgroup's slice of the local PDF. */
  lemma VoxelsWithinBrainShare(v: nat, wg: nat)
    requires wg > 0
    ensures v < 2 * wg * ((v / wg / 2) + 1)
  {
    var q := v / wg;
    var h := q / 2;
    DivBounds(v, wg);
    assert q + 1 <= 2 * (h + 1);
    MulLe(wg, q + 1, 2 * (h + 1));
    assert (q + 1) * wg == wg * (q + 1);
    assert 2 * wg * (h + 1) == wg * (2 * (h + 1));
  }

  lemma LocalPdfWithinBrainTerm(a: Attrs, wg: nat)
    requires wg > 0
    ensures Times(Times(Voxels(a), a.numWg), INT_BYTES) <= Times(2 * (wg * a.numWg), BrainBytes(a, wg))
  {
    var v := Voxels(a);
    var h := (v / wg / 2) + 1;
    var k := a.numWg * INT_BYTES;
    VoxelsWithinBrainShare(v, wg);
    MulLe(k, v, 2 * wg * h);
    assert Times(Times(v, a.numWg), INT_BYTES) == k * v;
    assert Times(2 * (wg * a.numWg), BrainBytes(a, wg)) == k * (2 * wg * h);
  }

  /** Multiplying out the per-slot sum. */
  lemma Distribute(k: nat, x0: nat, x1: nat, x2: nat, x3: nat, x4: nat, x5: nat, x6: nat, x7: nat, x8: nat)
    ensures Times(k, x0 + x1 + x2 + x3 + x4 + x5 + x6 + x7 + x8)
         == Times(k, x0) + Times(k, x1) + Times(k, x2) + Times(k, x3) + Times(k, x4)
          + Times(k, x5) + Times(k, x6) + Times(k, x7) + Times(k, x8)
  {
  }

  lemma Associate(k: nat, x: nat, y: nat)
    ensures Times(Times(k, x), y) == Times(k, x * y)
  {
  }

  /** Everything `InitParticles` allocates fits in the budget `Init` sized it from. */
  lemma AllocationFitsBudget(a: Attrs, e: Env, wg: nat, recordBytes: nat)
    requires wg > 0 && a.maxSteps >= 1
    requires a.numWg == InitSizing(e.dynamicMemLeft, ParticleSize(a, e, wg, recordBytes), wg).numWg
    requires a.particlesPerSide == wg * a.numWg
    ensures AllocatedBytes(a, e, recordBytes)
         <= Times(2 * a.particlesPerSide, ParticleSize(a, e, wg, recordBytes))
         <= e.dynamicMemLeft
  {
    var slots := 2 * a.particlesPerSide;
    ParticleSizeTerms(a, e, wg, recordBytes);
    Distribute(slots, recordBytes, USHORT_BYTES, USHORT_BYTES, RbtreeSize(a.maxSteps), BrainBytes(a, wg),
               PathBytes(a, e), WaypointBytes(a, e), ExclusionBytes(e), LoopcheckBytes(a, e));
    Associate(slots, a.stepsPerKernel, FLOAT4_BYTES);
    Associate(slots, a.nWaypointMasks, USHORT_BYTES);
    Associate(slots, LoopcheckEntries(a), FLOAT4_BYTES);
    LocalPdfWithinBrainTerm(a, wg);
  }
}
