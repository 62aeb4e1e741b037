/**
 * Host-side scheduling for the GPU fluid worker: workgroup batching, the
 * initial buffers, the stage list of the bitonic sorting network over the
 * particle indices, and the reset that rewrites every buffer.
 */
module FluidCompute {
  import opened Vectors

  /** Unsigned 32-bit integers. */
  type U32 = x: int | 0 <= x < 0x1_0000_0000

  /** Threads per workgroup of every compute pass. */
  const WORKGROUP_SIZE: U32 := 1024

  datatype Option<T> = None | Some(value: T)

  // ---------------------------------------------------------------------
  // Batching and the index buffer
  // ---------------------------------------------------------------------

  /**
   * `get_batch_size`: the number of workgroups needed to cover dataLength
   * threads, the least b with b * WORKGROUP_SIZE >= dataLength.
   */
  method GetBatchSize(dataLength: U32) returns (batchSize: U32)
    ensures batchSize * WORKGROUP_SIZE >= dataLength
    ensures batchSize == 0 || (batchSize - 1) * WORKGROUP_SIZE < dataLength
    ensures batchSize == 0 <==> dataLength == 0
  {
    batchSize := dataLength / WORKGROUP_SIZE;
    if dataLength % WORKGROUP_SIZE > 0 {
      batchSize := batchSize + 1;
    }
  }

  /** `s` is the identity permutation of 0 .. n-1. */
  predicate IsIdentity(s: seq<U32>, n: nat) {
    |s| == n && forall i :: 0 <= i < |s| ==> s[i] == i
  }

  /** `create_initial_index_buffer`: the indices 0, 1, ..., dataLength - 1 in order. */
  method CreateInitialIndexBuffer(dataLength: U32) returns (indices: seq<U32>)
    ensures IsIdentity(indices, dataLength)
  {
    indices := [];
    for it := 0 to dataLength
      invariant IsIdentity(indices, it)
    {
      indices := indices + [it];
    }
  }

  /** The identity buffer is a permutation: every index below n occurs exactly once. */
  lemma IdentityIsPermutation(s: seq<U32>, n: nat)
    requires IsIdentity(s, n)
    ensures forall k :: 0 <= k < n ==> k in s && multiset(s)[k] == 1
    ensures forall x :: x in s ==> x < n
  {
    forall k | 0 <= k < n
      ensures k in s && multiset(s)[k] == 1
    {
      assert s[k] == k;
      OccursOnce(s, k);
    }
  }

  /** In an identity sequence the value k occurs once, at index k. */
  lemma {:induction false} OccursOnce(s: seq<U32>, k: nat)
    requires IsIdentity(s, |s|) && k < |s|
    ensures multiset(s)[k] == 1
    decreases |s|
  {
    var last := |s| - 1;
    assert s == s[..last] + [s[last]];
    assert IsIdentity(s[..last], last);
    if k < last {
      OccursOnce(s[..last], k);
    } else {
      assert k !in s[..last];
    }
  }

  // ---------------------------------------------------------------------
  // The particle buffer
  // ---------------------------------------------------------------------

  /** One particle as the shaders see it (four-component vectors padded with w). */
  datatype FluidParticle = FluidParticle(
    position: Vec4,
    density: Vec2,
    pressure: Vec2,
    velocity: Vec4,
    acceleration: Vec4,
    predictedPosition: Vec4)

  /**
   * `particles` is the initial buffer for `points`: one particle per point
   * in the same order, at rest at the point (with w = 0) and predicted
   * there, with all other components zero.
   */
  predicate IsInitialParticles(points: seq<Vec3>, particles: seq<FluidParticle>) {
    |particles| == |points| &&
    forall i :: 0 <= i < |points| ==>
      var at := Vec4(points[i].x, points[i].y, points[i].z, 0.0);
      particles[i].position == at && particles[i].predictedPosition == at &&
      particles[i].density == ZERO2 && particles[i].pressure == ZERO2 &&
      particles[i].velocity == ZERO4 && particles[i].acceleration == ZERO4
  }

  /** `FluidParticle::make_vec_from_positions`. */
  method MakeVecFromPositions(points: seq<Vec3>) returns (particles: seq<FluidParticle>)
    ensures IsInitialParticles(points, particles)
  {
    particles := [];
    for k := 0 to |points|
      invariant IsInitialParticles(points[..k], particles)
    {
      var point := points[k];
      particles := particles + [FluidParticle(point.Extend(0.0), ZERO2, ZERO2, ZERO4, ZERO4, point.Extend(0.0))];
    }
    assert points[..|points|] == points;
  }

  /** The initial particle buffer is determined by the points alone. */
  lemma InitialParticlesUnique(points: seq<Vec3>, a: seq<FluidParticle>, b: seq<FluidParticle>)
    requires IsInitialParticles(points, a) && IsInitialParticles(points, b)
    ensures a == b
  {
    assert forall i :: 0 <= i < |a| ==> a[i] == b[i];
  }

  // ---------------------------------------------------------------------
  // Powers of two
  // ---------------------------------------------------------------------

  predicate IsPowerOfTwo(x: nat)
    decreases x
  {
    x == 1 || (x > 1 && x % 2 == 0 && IsPowerOfTwo(x / 2))
  }

  function Pow2(k: nat): (p: nat)
    ensures IsPowerOfTwo(p) && p >= 1
  {
    if k == 0 then 1 else 2 * Pow2(k - 1)
  }

  /** The exponent of a power of two: every power of two is some `Pow2(k)`. */
  function Log2(x: nat): (k: nat)
    requires IsPowerOfTwo(x)
    ensures Pow2(k) == x
    decreases x
  {
    if x == 1 then 0 else 1 + Log2(x / 2)
  }

  /** The least power of two at least n (1 for n = 0), as `u32::next_power_of_two` computes it. */
  function NextPowerOfTwo(n: nat): (p: nat)
    ensures IsPowerOfTwo(p) && p >= n
    ensures p == 1 || p / 2 < n
  {
    NextPowerOfTwoFrom(n, 1)
  }

  function NextPowerOfTwoFrom(n: nat, p: nat): (q: nat)
    requires IsPowerOfTwo(p) && (p == 1 || p / 2 < n)
    ensures IsPowerOfTwo(q) && q >= n && (q == 1 || q / 2 < n)
    decreases n - p
  {
    if p >= n then p else NextPowerOfTwoFrom(n, 2 * p)
  }

  /** `u32::checked_next_power_of_two`: none when the power does not fit in 32 bits. */
  function CheckedNextPowerOfTwo(n: U32): (r: Option<U32>)
    ensures r.Some? ==> r.value == NextPowerOfTwo(n)
  {
    var p := NextPowerOfTwo(n);
    if p < 0x1_0000_0000 then Some(p) else None
  }

  /** The check fails exactly for inputs above 2^31, whose next power of two is 2^32 or more. */
  lemma CheckedNextPowerOfTwoFails(n: U32)
    ensures CheckedNextPowerOfTwo(n).None? <==> n > 0x8000_0000
  {
    var p := NextPowerOfTwo(n);
    Pow2Literal();
    if p > 0x8000_0000 {
      PowersOfTwoApart(0x8000_0000, p);
    }
  }

  /** 2^31 is a power of two. */
  lemma Pow2Literal()
    ensures IsPowerOfTwo(0x8000_0000)
  {
    assert Pow2(2) == 4;
    Pow2Add(2, 2);
    Pow2Add(4, 4);
    Pow2Add(8, 8);
    Pow2Add(16, 15);
    assert Pow2(15) * 2 == Pow2(16) by { Pow2Add(15, 1); }
  }

  lemma {:induction false} Pow2Add(a: nat, b: nat)
    ensures Pow2(a + b) == Pow2(a) * Pow2(b)
    decreases b
  {
    if b > 0 {
      Pow2Add(a, b - 1);
      var x, y := Pow2(a), Pow2(b - 1);
      assert Pow2(b) == 2 * y;
      DoubleFactor(x, y);
    }
  }

  /** Doubling one factor doubles the product. */
  lemma DoubleFactor(x: nat, y: nat)
    ensures x * (2 * y) == 2 * (x * y)
  {
  }

  /** Between two powers of two there is at least a factor of two. */
  lemma {:induction false} PowersOfTwoApart(m: nat, p: nat)
    requires IsPowerOfTwo(m) && IsPowerOfTwo(p) && p > m
    ensures p >= 2 * m
    decreases m
  {
    if m > 1 {
      PowersOfTwoApart(m / 2, p / 2);
    }
  }

  lemma Pow2Doubles(k: nat)
    ensures Pow2(k + 1) == 2 * Pow2(k)
  {
  }

  /** Pow2 is strictly increasing. */
  lemma {:induction false} Pow2Increasing(j: nat, k: nat)
    requires j < k
    ensures Pow2(j) < Pow2(k)
    decreases k
  {
    if j < k - 1 {
      Pow2Increasing(j, k - 1);
    }
  }

  // ---------------------------------------------------------------------
  // The bitonic sorting network
  // ---------------------------------------------------------------------

  /** One compare-exchange step of the network: partner distance `block` within runs of length `dim`. */
  datatype BitSorter = BitSorter(block: U32, dim: U32)

  /** A pass of the bitonic sort: its parameters, its dispatch size and its uniform's name. */
  datatype BitSorterStage = BitSorterStage(bitSorter: BitSorter, workgroups: seq<U32>, uniformName: string)

  /** The length the network sorts: the input length padded to a power of two. */
  function InputLength(dataLength: U32): (l: U32)
    ensures dataLength <= 0x4000_0000 ==>
              IsPowerOfTwo(l) && l >= dataLength && (l == 1 || l / 2 < dataLength)
  {
    match CheckedNextPowerOfTwo(dataLength)
    case Some(pot) => pot
    case None => dataLength
  }

  /** The steps for one run length `dim`: block = block, block / 2, ..., 1. */
  function Blocks(block: U32, dim: U32): seq<BitSorter>
    decreases block
  {
    if block == 0 then [] else [BitSorter(block, dim)] + Blocks(block / 2, dim)
  }

  /** The steps for run lengths dim, 2 dim, 4 dim, ... up to l, each with its blocks from dim / 2 down. */
  function Dims(dim: nat, l: U32): seq<BitSorter>
    requires dim >= 1
    decreases l + 1 - dim
  {
    if dim > l then [] else Blocks(dim / 2, dim) + Dims(2 * dim, l)
  }

  /** The whole network over l elements, run lengths from 2 up. */
  function Schedule(l: U32): seq<BitSorter> {
    Dims(2, l)
  }

  /** The uniform name of the stage with the given 1-based number. */
  function UniformName(id: nat): string {
    "bit_sorter_" + DecimalString(id)
  }

  /** The decimal digits of n, without leading zeros. */
  function DecimalString(n: nat): (s: string)
    ensures |s| >= 1 && (n >= 10 ==> |s| >= 2)
    ensures forall k :: 0 <= k < |s| ==> '0' <= s[k] <= '9'
  {
    if n < 10 then [Digit(n)] else DecimalString(n / 10) + [Digit(n % 10)]
  }

  function Digit(d: nat): (c: char)
    requires d < 10
    ensures '0' <= c <= '9'
  {
    ('0' as int + d) as char
  }

  /** Distinct numbers have distinct decimal strings. */
  lemma {:induction false} DecimalStringInjective(a: nat, b: nat)
    requires DecimalString(a) == DecimalString(b)
    ensures a == b
    decreases a
  {
    var s := DecimalString(a);
    if a >= 10 && b >= 10 {
      assert s[|s| - 1] == Digit(a % 10) && s[|s| - 1] == Digit(b % 10);
      assert DecimalString(a / 10) == s[..|s| - 1] == DecimalString(b / 10);
      DecimalStringInjective(a / 10, b / 10);
    }
  }

  /** Distinct stage numbers give distinct uniform names. */
  lemma UniformNamesDistinct(i: nat, j: nat)
    requires i != j
    ensures UniformName(i) != UniformName(j)
  {
    if UniformName(i) == UniformName(j) {
      var prefix := "bit_sorter_";
      assert UniformName(i)[|prefix|..] == DecimalString(i);
      assert UniformName(j)[|prefix|..] == DecimalString(j);
      DecimalStringInjective(i, j);
    }
  }

  /**
   * The stages so far are the first steps of `schedule`, stage i carrying
   * step i, dispatched as [batchSize, 1, 1] and named `bit_sorter_{i+1}`.
   */
  predicate StagesFollow(stages: seq<BitSorterStage>, schedule: seq<BitSorter>, batchSize: U32) {
    |stages| <= |schedule| &&
    forall i :: 0 <= i < |stages| ==>
      stages[i] == BitSorterStage(schedule[i], [batchSize, 1, 1], UniformName(i + 1))
  }

  /** Appending the stage for the next step keeps the stages following the schedule. */
  lemma StagesFollowExtend(stages: seq<BitSorterStage>, schedule: seq<BitSorter>, batchSize: U32)
    requires StagesFollow(stages, schedule, batchSize) && |stages| < |schedule|
    ensures StagesFollow(stages + [BitSorterStage(schedule[|stages|], [batchSize, 1, 1], UniformName(|stages| + 1))],
                         schedule, batchSize)
  {
  }

  /** Where the remaining steps start with the blocks of `block`, the next step is that block's. */
  lemma BlocksStep(s: seq<BitSorter>, n: nat, block: U32, dim: U32, later: seq<BitSorter>)
    requires n <= |s| && block > 0 && s[n..] == Blocks(block, dim) + later
    ensures n < |s| && s[n] == BitSorter(block, dim)
    ensures s[n + 1..] == Blocks(block / 2, dim) + later
  {
    var suffix := s[n..];
    assert suffix == [BitSorter(block, dim)] + (Blocks(block / 2, dim) + later);
    assert s[n] == suffix[0];
    assert s[n + 1..] == suffix[1..];
  }

  /**
   * The inner loop of `get_bit_sorter_stages`: one stage for each block
   * size dim/2, dim/4, ..., 1 of the current dim, numbered on from uniformId.
   */
  method AppendBlockStages(stages: seq<BitSorterStage>, uniformId: nat, dim: U32, batchSize: U32,
                           ghost s: seq<BitSorter>, ghost later: seq<BitSorter>)
    returns (stages': seq<BitSorterStage>, uniformId': nat)
    requires uniformId == |stages| + 1 && |stages| <= |s|
    requires s[|stages|..] == Blocks(dim / 2, dim) + later
    requires StagesFollow(stages, s, batchSize)
    ensures uniformId' == |stages'| + 1 && |stages'| <= |s|
    ensures s[|stages'|..] == later
    ensures StagesFollow(stages', s, batchSize)
  {
    stages', uniformId' := stages, uniformId;
    var block: U32 := dim / 2;
    while block > 0
      invariant uniformId' == |stages'| + 1 && |stages'| <= |s|
      invariant s[|stages'|..] == Blocks(block, dim) + later
      invariant StagesFollow(stages', s, batchSize)
    {
      BlocksStep(s, |stages'|, block, dim, later);
      StagesFollowExtend(stages', s, batchSize);
      stages' := stages' + [BitSorterStage(BitSorter(block, dim), [batchSize, 1, 1], UniformName(uniformId'))];
      block := block / 2;
      uniformId' := uniformId' + 1;
    }
  }

  /**
   * `FluidWorker::get_bit_sorter_stages`: one stage per step of the
   * network over the padded length, in schedule order, every one dispatched
   * as [batchSize, 1, 1] and named after its 1-based position.  Beyond
   * 2^30 elements the doubling of `dim` would wrap around.
   */
  method GetBitSorterStages(dataLength: U32, batchSize: U32) returns (stages: seq<BitSorterStage>)
    requires dataLength <= 0x4000_0000
    ensures |stages| == |Schedule(InputLength(dataLength))|
    ensures StagesFollow(stages, Schedule(InputLength(dataLength)), batchSize)
  {
    var inputLength: U32;
    match CheckedNextPowerOfTwo(dataLength) {
      case Some(pot) => inputLength := pot;
      case None => inputLength := dataLength;
    }
    assert inputLength == InputLength(dataLength);
    ghost var s := Schedule(inputLength);
    var uniformId := 1;
    var dim: U32 := 2;
    stages := [];
    while dim <= inputLength
      invariant 2 <= dim <= 2 * inputLength
      invariant uniformId == |stages| + 1 && |stages| <= |s|
      invariant s[|stages|..] == Dims(dim, inputLength)
      invariant StagesFollow(stages, s, batchSize)
      decreases inputLength + 1 - dim
    {
      stages, uniformId := AppendBlockStages(stages, uniformId, dim, batchSize, s, Dims(2 * dim, inputLength));
      dim := dim * 2;
    }
  }

  // ---------------------------------------------------------------------
  // Properties of the schedule
  // ---------------------------------------------------------------------

  /** Zero or one element needs no sorting: the schedule is empty. */
  lemma NoStagesForTinyInput(dataLength: U32)
    requires dataLength <= 1
    ensures InputLength(dataLength) == 1 && Schedule(InputLength(dataLength)) == []
  {
  }

  /** The blocks from 2^t down to 1 are t + 1 steps. */
  lemma {:induction false} BlocksLength(t: nat, dim: U32)
    requires Pow2(t) < 0x1_0000_0000
    ensures |Blocks(Pow2(t), dim)| == t + 1
    decreases t
  {
    if t > 0 {
      assert Pow2(t) / 2 == Pow2(t - 1);
      BlocksLength(t - 1, dim);
    }
  }

  /** Run lengths 2^j .. 2^k contribute j + (j + 1) + ... + k steps. */
  lemma {:induction false} DimsLength(j: nat, k: nat)
    requires 1 <= j <= k + 1 && Pow2(k) < 0x1_0000_0000
    ensures 2 * |Dims(Pow2(j), Pow2(k))| == k * (k + 1) - j * (j - 1)
    decreases k + 1 - j
  {
    if j <= k {
      if j < k {
        Pow2Increasing(j, k);
      }
      assert Pow2(j) / 2 == Pow2(j - 1);
      BlocksLength(j - 1, Pow2(j));
      Pow2Doubles(j);
      DimsLength(j + 1, k);
    } else {
      Pow2Increasing(k, j);
    }
  }

  /** Over 2^k elements the network has k(k+1)/2 stages. */
  lemma ScheduleLength(k: nat)
    requires Pow2(k) < 0x1_0000_0000
    ensures 2 * |Schedule(Pow2(k))| == k * (k + 1)
  {
    DimsLength(1, k);
  }

  /**
   * The sorter for `dataLength` elements has k(k+1)/2 stages, where 2^k is
   * the padded length `InputLength(dataLength)`.
   */
  lemma StageCount(dataLength: U32)
    requires dataLength <= 0x4000_0000
    ensures var k := Log2(InputLength(dataLength));
            2 * |Schedule(InputLength(dataLength))| == k * (k + 1)
  {
    ScheduleLength(Log2(InputLength(dataLength)));
  }

  /** Every step of a block run is a power of two no larger than the first block. */
  lemma {:induction false} BlocksBounds(block: U32, dim: U32)
    requires block == 0 || IsPowerOfTwo(block)
    ensures forall i :: 0 <= i < |Blocks(block, dim)| ==>
              Blocks(block, dim)[i].dim == dim && IsPowerOfTwo(Blocks(block, dim)[i].block) &&
              1 <= Blocks(block, dim)[i].block <= block
    decreases block
  {
    if block > 0 {
      BlocksBounds(block / 2, dim);
    }
  }

  /**
   * Every step for run lengths from dim up to l has a power-of-two run
   * length between dim and l and a power-of-two block at most half of it.
   */
  lemma {:induction false} DimsBounds(dim: nat, l: U32)
    requires dim >= 2 && IsPowerOfTwo(dim)
    ensures forall i :: 0 <= i < |Dims(dim, l)| ==>
              var st := Dims(dim, l)[i];
              IsPowerOfTwo(st.dim) && dim <= st.dim <= l &&
              IsPowerOfTwo(st.block) && 1 <= st.block && 2 * st.block <= st.dim
    decreases l + 1 - dim
  {
    if dim <= l {
      BlocksBounds(dim / 2, dim);
      DimsBounds(2 * dim, l);
      var bs, rest := Blocks(dim / 2, dim), Dims(2 * dim, l);
      assert Dims(dim, l) == bs + rest;
      forall i | 0 <= i < |Dims(dim, l)|
        ensures var st := Dims(dim, l)[i];
                IsPowerOfTwo(st.dim) && dim <= st.dim <= l &&
                IsPowerOfTwo(st.block) && 1 <= st.block && 2 * st.block <= st.dim
      {
        if i < |bs| {
          assert Dims(dim, l)[i] == bs[i];
        } else {
          assert Dims(dim, l)[i] == rest[i - |bs|];
        }
      }
    }
  }

  /** Bounds of every stage of the network over l elements. */
  lemma ScheduleBounds(l: U32)
    ensures forall i :: 0 <= i < |Schedule(l)| ==>
              var st := Schedule(l)[i];
              IsPowerOfTwo(st.dim) && 2 <= st.dim <= l &&
              IsPowerOfTwo(st.block) && 1 <= st.block && 2 * st.block <= st.dim
  {
    DimsBounds(2, l);
  }

  /**
   * How consecutive stages follow each other: the block halves within one
   * run length, or, after block 1, the run length doubles and the block
   * starts again at half of it.
   */
  predicate Follows(a: BitSorter, b: BitSorter) {
    (b.dim == a.dim && b.block >= 1 && 2 * b.block == a.block) ||
    (a.dim >= 1 && b.dim == 2 * a.dim && a.block == 1 && 2 * b.block == b.dim)
  }

  predicate Chained(s: seq<BitSorter>) {
    forall i :: 0 <= i < |s| - 1 ==> Follows(s[i], s[i + 1])
  }

  lemma ChainedConcat(a: seq<BitSorter>, b: seq<BitSorter>)
    requires Chained(a) && Chained(b)
    requires a != [] && b != [] ==> Follows(a[|a| - 1], b[0])
    ensures Chained(a + b)
  {
    var c := a + b;
    forall i | 0 <= i < |c| - 1
      ensures Follows(c[i], c[i + 1])
    {
      if i < |a| - 1 {
        assert c[i] == a[i] && c[i + 1] == a[i + 1];
      } else if i == |a| - 1 {
        assert c[i] == a[|a| - 1] && c[i + 1] == b[0];
      } else {
        assert c[i] == b[i - |a|] && c[i + 1] == b[i - |a| + 1];
      }
    }
  }

  /** A block run starts at its first block, halves at each step and ends at block 1. */
  lemma {:induction false} BlocksChained(block: U32, dim: U32)
    requires IsPowerOfTwo(block)
    ensures Chained(Blocks(block, dim))
    ensures Blocks(block, dim) != [] && Blocks(block, dim)[0] == BitSorter(block, dim)
    ensures Blocks(block, dim)[|Blocks(block, dim)| - 1] == BitSorter(1, dim)
    decreases block
  {
    if block > 1 {
      BlocksChained(block / 2, dim);
      ChainedConcat([BitSorter(block, dim)], Blocks(block / 2, dim));
    }
  }

  /** The steps for run lengths from dim up are chained and start at (dim / 2, dim). */
  lemma {:induction false} DimsChained(dim: nat, l: U32)
    requires dim >= 2 && IsPowerOfTwo(dim)
    ensures Chained(Dims(dim, l))
    ensures dim <= l ==> Dims(dim, l) != [] && Dims(dim, l)[0] == BitSorter(dim / 2, dim)
    decreases l + 1 - dim
  {
    if dim <= l {
      BlocksChained(dim / 2, dim);
      DimsChained(2 * dim, l);
      ChainedConcat(Blocks(dim / 2, dim), Dims(2 * dim, l));
    }
  }

  /**
   * The network's stages go by ascending run length; within one run length
   * the block halves from dim / 2 down to 1; the first stage is (1, 2).
   */
  lemma ScheduleOrdered(l: U32)
    ensures Chained(Schedule(l))
    ensures l >= 2 ==> Schedule(l) != [] && Schedule(l)[0] == BitSorter(1, 2)
  {
    DimsChained(2, l);
  }

  /** Along a chain, later stages have a larger run length, or the same one and a smaller block. */
  lemma {:induction false} ChainedAscending(s: seq<BitSorter>, i: nat, j: nat)
    requires Chained(s) && i < j < |s|
    ensures s[i].dim < s[j].dim || (s[i].dim == s[j].dim && s[i].block > s[j].block)
    decreases j - i
  {
    if i + 1 < j {
      ChainedAscending(s, i + 1, j);
      assert Follows(s[i], s[i + 1]);
    } else {
      assert Follows(s[i], s[j]);
    }
  }

  /** No step of the network is repeated. */
  lemma ScheduleStepsDistinct(l: U32, i: nat, j: nat)
    requires i < j < |Schedule(l)|
    ensures Schedule(l)[i] != Schedule(l)[j]
  {
    ScheduleOrdered(l);
    ChainedAscending(Schedule(l), i, j);
  }

  // ---------------------------------------------------------------------
  // The reset on Space
  // ---------------------------------------------------------------------

  /**
   * The worker's host-visible buffers, the initial positions `build` keeps
   * in `FluidParticlesInitial`, and whether the game is switching to GameOver.
   */
  class FluidWorkerBuffers {
    const initialPositions: seq<Vec3>
    var particles: seq<FluidParticle>
    var particleIndices: seq<U32>
    var particleCellIndices: seq<U32>
    var cellOffsets: seq<U32>
    var gameOver: bool

    /**
     * The buffer contents `build` writes: the particles at the stored initial
     * positions and the identity of length `len as u32` in all three index buffers.
     */
    predicate AsBuilt()
      reads this
    {
      IsInitialParticles(initialPositions, particles) &&
      IsIdentity(particleIndices, |initialPositions| % 0x1_0000_0000) &&
      particleCellIndices == particleIndices && cellOffsets == particleIndices
    }

    /** Every buffer has the length it was created with. */
    predicate Sized()
      reads this
    {
      |particles| == |initialPositions| &&
      |particleIndices| == |initialPositions| % 0x1_0000_0000 &&
      |particleCellIndices| == |particleIndices| && |cellOffsets| == |particleIndices|
    }

    constructor (positions: seq<Vec3>)
      ensures initialPositions == positions
      ensures AsBuilt() && Sized()
      ensures !gameOver
    {
      initialPositions := positions;
      var num: U32 := |positions| % 0x1_0000_0000;
      var indices := CreateInitialIndexBuffer(num);
      var initialParticles := MakeVecFromPositions(positions);
      particles := initialParticles;
      particleIndices, particleCellIndices, cellOffsets := indices, indices, indices;
      gameOver := false;
    }

    /**
     * `despawn_liquid`: unless Space was just pressed and the worker is
     * ready, nothing happens; otherwise the game switches to GameOver and
     * every buffer is rewritten from the stored initial positions alone
     * (the particle count taken modulo 2^32, as `as u32` does), which puts
     * the buffers back exactly as they were built and keeps their lengths.
     */
    method DespawnLiquid(spaceJustPressed: bool, workerReady: bool)
      modifies this
      ensures !spaceJustPressed || !workerReady ==>
                particles == old(particles) && particleIndices == old(particleIndices) &&
                particleCellIndices == old(particleCellIndices) && cellOffsets == old(cellOffsets) &&
                gameOver == old(gameOver)
      ensures spaceJustPressed && workerReady ==> gameOver && AsBuilt() && Sized()
      ensures old(AsBuilt()) ==>
                particles == old(particles) && particleIndices == old(particleIndices) &&
                particleCellIndices == old(particleCellIndices) && cellOffsets == old(cellOffsets)
      ensures old(Sized()) ==> Sized()
    {
      if !spaceJustPressed || !workerReady {
        return;
      }
      ghost var oldParticles, oldIndices := particles, particleIndices;
      ghost var wasBuilt := AsBuilt();
      gameOver := true;
      var numParticles: U32 := |initialPositions| % 0x1_0000_0000;
      var initialIndexBuffer := CreateInitialIndexBuffer(numParticles);
      var initialParticleBuffer := MakeVecFromPositions(initialPositions);
      particles := initialParticleBuffer;
      particleIndices := initialIndexBuffer;
      particleCellIndices := initialIndexBuffer;
      cellOffsets := initialIndexBuffer;
      if wasBuilt {
        ResetsAgree(initialPositions, oldParticles, oldIndices, particles, particleIndices);
      }
    }
  }

  /** Two identity buffers of the same length are equal. */
  lemma IdentityUnique(a: seq<U32>, b: seq<U32>, n: nat)
    requires IsIdentity(a, n) && IsIdentity(b, n)
    ensures a == b
  {
    assert forall i :: 0 <= i < n ==> a[i] == b[i];
  }

  /**
   * Two resets from the same initial positions write identical contents,
   * whatever the buffers held before.
   */
  lemma ResetsAgree(initialPositions: seq<Vec3>,
                    particles: seq<FluidParticle>, indices: seq<U32>,
                    particles': seq<FluidParticle>, indices': seq<U32>)
    requires IsInitialParticles(initialPositions, particles) && IsInitialParticles(initialPositions, particles')
    requires IsIdentity(indices, |initialPositions| % 0x1_0000_0000)
    requires IsIdentity(indices', |initialPositions| % 0x1_0000_0000)
    ensures particles == particles' && indices == indices'
  {
    InitialParticlesUnique(initialPositions, particles, particles');
    IdentityUnique(indices, indices', |initialPositions| % 0x1_0000_0000);
  }

  /**
   * Any two buffer sets built from the same initial positions hold the same
   * contents, so a reset returns the buffers to exactly what `build` created.
   */
  lemma ResetRestoresBuild(a: FluidWorkerBuffers, b: FluidWorkerBuffers)
    requires a.initialPositions == b.initialPositions
    requires a.AsBuilt() && b.AsBuilt()
    ensures a.particles == b.particles && a.particleIndices == b.particleIndices
    ensures a.particleCellIndices == b.particleCellIndices && a.cellOffsets == b.cellOffsets
  {
    ResetsAgree(a.initialPositions, a.particles, a.particleIndices, b.particles, b.particleIndices);
  }
}
