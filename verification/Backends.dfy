/** What the parts say about each implementation: its kernels against the serial
    ones, and its dot against the dot product. */
module Backends {
  import opened Sums
  import opened Kernels
  import opened Interleave
  import opened Outcomes
  import opened Partition
  import opened Tree
  import opened DotLaunch
  import ThreadedDot
  import opened Fill
  import Driver
  import DriverLaws

  // ----- elementwise kernels

  /** Threads that tile the arrays give the serial result in every interleaving. */
  lemma TiledSerial(n: nat, k: Kernel, scalar: real, loops: seq<Loop>, m0: Mem, final: Mem)
    requires m0.Sized(n) && Tiles(loops, n) && Reaches(n, k, scalar, loops, m0, final)
    ensures final == Apply(k, scalar, m0)
  {
    TilesSuit(n, k, loops);
    SuitsIff(n, k, scalar, loops);
  }

  /** The threads that share whole slices equal the single thread when the full chunks fit. */
  lemma UnsafeIsSerial(n: nat, ncore: nat, k: Kernel, scalar: real, m0: Mem, final: Mem)
    requires ncore >= 1 && ChunksFit(n, ncore) && m0.Sized(n)
    requires Reaches(n, k, scalar, ThreadRanges(n, ncore), m0, final)
    ensures final == Apply(k, scalar, m0)
  {
    ThreadRangesTileIff(n, ncore);
    TiledSerial(n, k, scalar, ThreadRanges(n, ncore), m0, final);
  }

  /** Those threads can be joined at all, and then always equal the single thread,
      exactly when the full chunks fit; otherwise some thread runs out of the arrays. */
  lemma UnsafeSerialIff(n: nat, ncore: nat, k: Kernel, scalar: real, m0: Mem)
    requires ncore >= 1 && m0.Sized(n)
    ensures (exists final: Mem :: Reaches(n, k, scalar, ThreadRanges(n, ncore), m0, final)) <==> ChunksFit(n, ncore)
    ensures ChunksFit(n, ncore) ==>
              forall final: Mem :: Reaches(n, k, scalar, ThreadRanges(n, ncore), m0, final) ==>
                                   final == Apply(k, scalar, m0)
  {
    ThreadRangesTileIff(n, ncore);
    CompletesIff(n, k, scalar, ThreadRanges(n, ncore), m0);
    RangesInBounds(n, ncore);
    if ChunksFit(n, ncore) {
      forall final: Mem | Reaches(n, k, scalar, ThreadRanges(n, ncore), m0, final)
        ensures final == Apply(k, scalar, m0)
      {
        UnsafeIsSerial(n, ncore, k, scalar, m0, final);
      }
    }
  }

  /** The scoped threads over slices equal the single thread, always. */
  lemma CrossbeamIsSerial(n: nat, ncore: nat, k: Kernel, scalar: real, m0: Mem, final: Mem)
    requires ncore >= 1 && n >= 1 && m0.Sized(n)
    requires Reaches(n, k, scalar, ZippedChunks(n, ncore), m0, final)
    ensures final == Apply(k, scalar, m0)
  {
    CrossbeamTiles(n, ncore);
    TiledSerial(n, k, scalar, ZippedChunks(n, ncore), m0, final);
  }

  /** Grid-strided CUDA and HIP kernels equal the serial ones, for any launch. */
  lemma GridStrideIsSerial(n: nat, blocks: nat, dim: nat, k: Kernel, scalar: real, m0: Mem, final: Mem)
    requires blocks >= 1 && dim >= 1 && m0.Sized(n)
    requires Reaches(n, k, scalar, GridStride(blocks, dim, n), m0, final)
    ensures final == Apply(k, scalar, m0)
  {
    GridStrideTiles(blocks, dim, n);
    TiledSerial(n, k, scalar, GridStride(blocks, dim, n), m0, final);
  }

  // ----- dot products

  /** CUDA, HIP and HC launch fixed power-of-two groups without unrolling. */
  lemma FixedGroupsExact(n: nat, groups: nat, a: seq<real>, b: seq<real>)
    requires groups >= 1 && |a| == |b| == n
    ensures CountedDot(Launch(n, groups, 1024, 1), a, b) == DotProduct(n, a, b)
    ensures CountedDot(Launch(n, groups, 256, 1), a, b) == DotProduct(n, a, b)
  {
    PowersUpTo1024();
    LaunchExactIff(Launch(n, groups, 1024, 1));
    LaunchExactIff(Launch(n, groups, 256, 1));
  }

  /** OpenCL, the plain SYCL stream and Aparapi take the group size from the
      device: exact for all arrays exactly when it is a power of two, or the
      arrays end before the first dropped lane. */
  lemma DeviceGroupsExactIff(n: nat, groups: nat, local: nat)
    requires groups >= 1 && local >= 1
    ensures (forall a: seq<real>, b: seq<real> | |a| == |b| == n ::
               CountedDot(Launch(n, groups, local, 1), a, b) == DotProduct(n, a, b)) <==>
            (PowerOfTwo(local) || n <= FirstDropped(local))
  {
    LaunchExactIff(Launch(n, groups, local, 1));
  }

  // ----- whole benchmarks

  type BlockSize = d: nat | d >= 1 witness 1

  /** The threads of one CUDA launch, with either loop. */
  function CudaLoops(n: nat, threadsPerBlock: BlockSize, gridStride: bool): seq<Loop> {
    match ForEachShape(n, threadsPerBlock)
    case DivisionByZero => []
    case Shape(blocks, start) =>
      if gridStride then GridStride(blocks, TBSIZE, n) else BlockStride(start, blocks, TBSIZE, n)
  }

  predicate BlocksAligned(shape: Shape, n: nat) {
    shape.Shape? && (shape.start % 256 == 0 || n <= shape.start)
  }

  /** Every CUDA launch has 256 threads to a block and covers the arrays, and suits
      its kernel unless it is a block-strided nstream whose blocks do not align. */
  lemma CudaLaunch(n: nat, threadsPerBlock: BlockSize, gridStride: bool, k: Kernel)
    requires n >= 4
    ensures ForEachShape(n, threadsPerBlock).Shape?
    ensures |CudaLoops(n, threadsPerBlock, gridStride)| == ForEachShape(n, threadsPerBlock).blocks * 256
    ensures Covers(CudaLoops(n, threadsPerBlock, gridStride), n)
    ensures Suits(CudaLoops(n, threadsPerBlock, gridStride), n, k) <==>
            gridStride || !k.Nstream? || BlocksAligned(ForEachShape(n, threadsPerBlock), n)
  {
    ForEachShapeOk(n, threadsPerBlock);
    var shape := ForEachShape(n, threadsPerBlock);
    if gridStride {
      GridStrideTiles(shape.blocks, TBSIZE, n);
    } else {
      BlockStrideSuitsIff(n, threadsPerBlock, k);
    }
  }

  predicate RunsNstream(selection: Driver.BenchId) {
    selection.All? || selection.Nstream?
  }

  lemma NstreamEntry(selection: Driver.BenchId, table: seq<Driver.Benchmark>)
    requires table == Driver.BENCH
    ensures RunsNstream(selection) <==>
            exists i: nat :: i < |table| && table[i].id.Nstream? && Driver.RunBenchmark(selection, table[i])
  {
    assert table[5].id.Nstream?;
  }

  /** A launch with no unrolling and a power-of-two group counts every element. */
  lemma PlainLaunchPasses(selection: Driver.BenchId, numTimes: nat, launch: Launch, epsilon: real)
    requires launch.Valid() && PowerOfTwo(launch.local) && launch.unroll == 1 && epsilon >= 0.0
    ensures DriverLaws.Passes(selection, numTimes, CountedElements(launch), launch.n, epsilon)
    ensures CountedElements(launch) == launch.n
  {
    AllCountedIff(launch);
    DriverLaws.NoneLost(launch.n, epsilon);
  }

  /** What a run that is exact leaves: the readings of its order, the final gold values
      in every element, and the gold sum. */
  ghost predicate ExactRun(table: seq<Driver.Benchmark>, selection: Driver.BenchId, order: Driver.Order, numTimes: nat,
                           clock: (nat, nat) -> real, n: nat, timings: seq<seq<real>>, m: Mem, sum: real)
  {
    var g := DriverLaws.Final(selection, order, numTimes, Driver.START_SCALAR, n, Driver.START);
    && Driver.TimingsOk(table, selection, order, numTimes, clock, timings)
    && m == Uniform(n, g.a, g.b, g.c) && sum == g.s
  }

  /** A run of a stream whose dot counts every element. */
  method RunExact(stream: Driver.Stream, launch: Launch, table: seq<Driver.Benchmark>, selection: Driver.BenchId,
                  order: Driver.Order, numTimes: nat, clock: (nat, nat) -> real, epsilon: real, silenceErrors: bool)
    returns (timings: seq<seq<real>>, m: Mem, sum: real, failed: nat, exit: bool)
    requires table == Driver.BENCH && epsilon >= 0.0 && stream.Valid() && stream.SuitedFor(table, selection)
    requires stream.Contents() == Uniform(stream.arraySize, Driver.START_A, Driver.START_B, Driver.START_C)
    requires stream.scalar == Driver.START_SCALAR && stream.mode == Driver.DotMode.Manual(launch)
    requires PowerOfTwo(launch.local) && launch.unroll == 1
    modifies stream, stream.a, stream.b, stream.c
    ensures ExactRun(table, selection, order, numTimes, clock, stream.arraySize, timings, m, sum)
    ensures failed == 0 && !exit
  {
    PlainLaunchPasses(selection, numTimes, launch, epsilon);
    timings, sum, failed, exit :=
      DriverLaws.RunBench(stream, table, selection, order, numTimes, clock, epsilon, silenceErrors);
    m := Mem(stream.a[..], stream.b[..], stream.c[..]);
    Driver.AllOf(sum, DriverLaws.Final(selection, order, numTimes, Driver.START_SCALAR, stream.arraySize,
                                       Driver.START).s, stream.arraySize);
  }

  /** A CUDA run, with either loop and with the block size the runtime picks for each
      kernel: from the init kernel on it runs every selected kernel, ends with the gold
      values and passes the check, for every selection and order. Only an nstream with
      the block-strided loop needs aligned blocks. */
  method CudaBenchmark(n: nat, initThreads: BlockSize, threadsPerBlock: Kernel -> BlockSize, multiprocessors: nat,
                       gridStride: bool, sums: seq<real>, table: seq<Driver.Benchmark>, selection: Driver.BenchId,
                       order: Driver.Order, numTimes: nat, clock: (nat, nat) -> real, epsilon: real,
                       silenceErrors: bool)
    returns (timings: seq<seq<real>>, m: Mem, sum: real, failed: nat, exit: bool)
    requires n >= 4 && multiprocessors >= 1 && epsilon >= 0.0 && table == Driver.BENCH
    requires |sums| == 4 * multiprocessors
    requires gridStride || !RunsNstream(selection) || BlocksAligned(ForEachShape(n, threadsPerBlock(Nstream)), n)
    ensures ExactRun(table, selection, order, numTimes, clock, n, timings, m, sum)
    ensures failed == 0 && !exit
  {
    CudaLaunch(n, initThreads, gridStride, Copy);
    var launch := Launch(n, 4 * multiprocessors, 1024, 1);
    PowersUpTo1024();
    var stream := new Driver.Stream(n, Driver.START_SCALAR, ByIndex,
                                    Values(Driver.START_A, Driver.START_B, Driver.START_C),
                                    CudaLoops(n, initThreads, gridStride),
                                    (k: Kernel) => CudaLoops(n, threadsPerBlock(k), gridStride),
                                    Driver.DotMode.Manual(launch), sums);
    CudaSuited(stream, table, selection, n, threadsPerBlock, gridStride);
    timings, m, sum, failed, exit :=
      RunExact(stream, launch, table, selection, order, numTimes, clock, epsilon, silenceErrors);
  }

  lemma CudaSuited(stream: Driver.Stream, table: seq<Driver.Benchmark>, selection: Driver.BenchId, n: nat,
                   threadsPerBlock: Kernel -> BlockSize, gridStride: bool)
    requires table == Driver.BENCH && n >= 4 && stream.arraySize == n
    requires forall k: Kernel :: stream.loops(k) == CudaLoops(n, threadsPerBlock(k), gridStride)
    requires gridStride || !RunsNstream(selection) || BlocksAligned(ForEachShape(n, threadsPerBlock(Nstream)), n)
    ensures stream.SuitedFor(table, selection)
  {
    NstreamEntry(selection, table);
    forall i: nat | i < |table| && Driver.RunBenchmark(selection, table[i]) ensures stream.Suited(table[i].id) {
      var id := table[i].id;
      if !id.Dot? && !id.Classic? && !id.All? {
        var k := Driver.KernelOf(id);
        CudaLaunch(n, threadsPerBlock(k), gridStride, k);
      }
    }
  }

  /** The threads of one HIP launch. */
  function HipLoops(n: nat): seq<Loop> {
    GridStride(CeilDiv(n, HIP_TBSIZE), HIP_TBSIZE, n)
  }

  /** A HIP launch is the fewest whole blocks of 1024 threads that have one for every
      element, and tiles the arrays. */
  lemma HipLaunch(n: nat)
    requires n >= 1
    ensures Tiles(HipLoops(n), n)
    ensures n <= |HipLoops(n)| < n + 1024 && |HipLoops(n)| % 1024 == 0
  {
    var blocks := CeilDiv(n, HIP_TBSIZE);
    CeilDivBounds(n, HIP_TBSIZE);
    GridStrideTiles(blocks, HIP_TBSIZE, n);
    ModOfMultiple(blocks, 1024);
  }

  /** A HIP run, for elements of any size. */
  method HipBenchmark(n: nat, sizeOfT: nat, sums: seq<real>, table: seq<Driver.Benchmark>, selection: Driver.BenchId,
                      order: Driver.Order, numTimes: nat, clock: (nat, nat) -> real, epsilon: real,
                      silenceErrors: bool)
    returns (timings: seq<seq<real>>, m: Mem, sum: real, failed: nat, exit: bool)
    requires n >= 1 && sizeOfT >= 1 && epsilon >= 0.0 && table == Driver.BENCH
    requires |sums| == DotNumBlocks(n, sizeOfT)
    ensures ExactRun(table, selection, order, numTimes, clock, n, timings, m, sum)
    ensures failed == 0 && !exit
  {
    CeilDivBounds(n, HIP_TBSIZE * DotElementsPerLane(sizeOfT));
    HipLaunch(n);
    var loops, launch := HipLoops(n), Launch(n, DotNumBlocks(n, sizeOfT), HIP_TBSIZE, 1);
    PowersUpTo1024();
    var stream := new Driver.Stream(n, Driver.START_SCALAR, ByIndex,
                                    Values(Driver.START_A, Driver.START_B, Driver.START_C), loops,
                                    (k: Kernel) => loops, Driver.DotMode.Manual(launch), sums);
    forall k: Kernel ensures Suits(loops, n, k) { TilesSuit(n, k, loops); }
    timings, m, sum, failed, exit :=
      RunExact(stream, launch, table, selection, order, numTimes, clock, epsilon, silenceErrors);
  }
}
