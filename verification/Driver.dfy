/** The benchmark driver: which kernels run in which order, the stream they run
    on, and the check that replays the same order on four scalars. */
module Driver {
  import opened Sums
  import opened Kernels
  import opened Interleave
  import opened DotLaunch
  import DotMachine
  import ThreadedDot
  import opened Fill

  datatype BenchId = Copy | Mul | Add | Triad | Nstream | Dot | Classic | All

  /** An entry of the table of benchmarks; labels and weights are for the output only. */
  datatype Benchmark = Benchmark(id: BenchId, classic: bool)

  datatype Order = InTurn | Isolated

  const BENCH: seq<Benchmark> := [
    Benchmark(BenchId.Copy, true),
    Benchmark(BenchId.Mul, true),
    Benchmark(BenchId.Add, true),
    Benchmark(BenchId.Triad, true),
    Benchmark(BenchId.Dot, true),
    Benchmark(BenchId.Nstream, false)
  ]

  const START_A: real := 0.1
  const START_B: real := 0.2
  const START_C: real := 0.0
  const START_SCALAR: real := 0.4

  predicate RunBenchmark(selection: BenchId, b: Benchmark) {
    selection.All? || (selection.Classic? && b.classic) || selection == b.id
  }

  function KernelOf(id: BenchId): Kernel
    requires !id.Dot? && !id.Classic? && !id.All?
  {
    match id
    case Copy => Kernel.Copy
    case Mul => Kernel.Mul
    case Add => Kernel.Add
    case Triad => Kernel.Triad
    case Nstream => Kernel.Nstream
  }

  // ----- the order of kernel runs

  /** The selected kernels of a table, in its order. */
  function Selected(table: seq<Benchmark>, selection: BenchId): seq<BenchId> {
    if |table| == 0 then []
    else
      var last := |table| - 1;
      Selected(table[..last], selection) + (if RunBenchmark(selection, table[last]) then [table[last].id] else [])
  }

  /** The table names kernels only, not groups of kernels. */
  predicate KernelTable(table: seq<Benchmark>) {
    forall i | 0 <= i < |table| :: !table[i].id.Classic? && !table[i].id.All?
  }

  function Repeat(ids: seq<BenchId>, times: nat): seq<BenchId> {
    if times == 0 then [] else Repeat(ids, times - 1) + ids
  }

  /** Each kernel of the list `times` times before the next one. */
  function Each(ids: seq<BenchId>, times: nat): seq<BenchId> {
    if |ids| == 0 then [] else Each(ids[..|ids| - 1], times) + Repeat([ids[|ids| - 1]], times)
  }

  /** The kernel runs of one benchmark, in order. */
  function Schedule(table: seq<Benchmark>, selection: BenchId, order: Order, numTimes: nat): seq<BenchId> {
    match order
    case InTurn => Repeat(Selected(table, selection), numTimes)
    case Isolated => Each(Selected(table, selection), numTimes)
  }

  // ----- two meanings of a schedule

  /** How the dot product is computed. */
  datatype DotMode = Library | Threads(loops: seq<Loop>) | Manual(launch: Launch)

  /** The mode can be used on arrays of n elements; a manual launch need not be exact. */
  ghost predicate DotReady(mode: DotMode, n: nat) {
    match mode
    case Library => true
    case Threads(loops) => Tiles(loops, n)
    case Manual(launch) => launch.n == n && launch.Valid()
  }

  /** What a dot in this mode returns. */
  function DotOf(mode: DotMode, n: nat, a: seq<real>, b: seq<real>): real
    requires mode.Manual? ==> mode.launch.Valid()
  {
    if mode.Manual? then CountedDot(mode.launch, a, b) else DotProduct(n, a, b)
  }

  /** How many elements take part in it. */
  function CountOf(mode: DotMode, n: nat): (k: nat)
    requires mode.Manual? ==> mode.launch.Valid()
    ensures mode.Manual? ==> k <= mode.launch.n
    ensures !mode.Manual? ==> k == n
  {
    if mode.Manual? then CountedElements(mode.launch) else n
  }

  datatype Setup = Setup(scalar: real, mode: DotMode) {
    predicate Ok() {
      mode.Manual? ==> mode.launch.Valid()
    }
  }

  /** The arrays, and the last dot product. */
  datatype World = World(mem: Mem, sum: real)

  function StepWorld(id: BenchId, u: Setup, w: World): World
    requires w.mem.Sized(|w.mem.a|) && u.Ok()
  {
    if id.Dot? then w.(sum := DotOf(u.mode, |w.mem.a|, w.mem.a, w.mem.b))
    else if id.Classic? || id.All? then w
    else w.(mem := Apply(KernelOf(id), u.scalar, w.mem))
  }

  function RunWorld(ids: seq<BenchId>, u: Setup, w: World): (r: World)
    requires w.mem.Sized(|w.mem.a|) && u.Ok()
    ensures r.mem.Sized(|w.mem.a|)
  {
    if |ids| == 0 then w else StepWorld(ids[|ids| - 1], u, RunWorld(ids[..|ids| - 1], u, w))
  }

  /** The scalars of the solution check. */
  datatype Gold = Gold(a: real, b: real, c: real, s: real)

  const START: Gold := Gold(START_A, START_B, START_C, 0.0)

  function StepGold(id: BenchId, scalar: real, n: nat, g: Gold): Gold {
    match id
    case Copy => g.(c := g.a)
    case Mul => g.(b := scalar * g.c)
    case Add => g.(c := g.a + g.b)
    case Triad => g.(a := g.b + scalar * g.c)
    case Nstream => g.(a := g.a + (g.b + scalar * g.c))
    case Dot => g.(s := g.a * g.b * n as real)
    case _ => g
  }

  function RunGold(ids: seq<BenchId>, scalar: real, n: nat, g: Gold): Gold {
    if |ids| == 0 then g else StepGold(ids[|ids| - 1], scalar, n, RunGold(ids[..|ids| - 1], scalar, n, g))
  }

  lemma {:induction false} RunWorldAppend(xs: seq<BenchId>, ys: seq<BenchId>, u: Setup, w: World)
    requires w.mem.Sized(|w.mem.a|) && u.Ok()
    ensures RunWorld(xs + ys, u, w) == RunWorld(ys, u, RunWorld(xs, u, w))
  {
    if |ys| == 0 {
      assert xs + ys == xs;
    } else {
      assert (xs + ys)[..|xs + ys| - 1] == xs + ys[..|ys| - 1];
      RunWorldAppend(xs, ys[..|ys| - 1], u, w);
    }
  }

  lemma {:induction false} RunGoldAppend(xs: seq<BenchId>, ys: seq<BenchId>, scalar: real, n: nat, g: Gold)
    ensures RunGold(xs + ys, scalar, n, g) == RunGold(ys, scalar, n, RunGold(xs, scalar, n, g))
  {
    if |ys| == 0 {
      assert xs + ys == xs;
    } else {
      assert (xs + ys)[..|xs + ys| - 1] == xs + ys[..|ys| - 1];
      RunGoldAppend(xs, ys[..|ys| - 1], scalar, n, g);
    }
  }

  // ----- the simulation

  /** The sum is k products where the gold sum is n of them. */
  predicate ProductsOf(v: real, sum: real, gold: real, k: nat, n: nat) {
    sum == k as real * v && gold == v * n as real
  }

  ghost predicate Proportional(sum: real, gold: real, k: nat, n: nat) {
    exists v: real :: ProductsOf(v, sum, gold, k, n)
  }

  lemma AllOf(sum: real, gold: real, n: nat)
    requires Proportional(sum, gold, n, n)
    ensures sum == gold
  {
    var v: real :| ProductsOf(v, sum, gold, n, n);
  }

  /** Every element is the gold scalar, and the last sum is the share of the gold
      sum that k of n elements make. */
  ghost predicate Matches(w: World, n: nat, k: nat, g: Gold) {
    w.mem == Uniform(n, g.a, g.b, g.c) && Proportional(w.sum, g.s, k, n)
  }

  lemma ManualShare(launch: Launch, m: Mem, x: real, y: real, z: real, v: real, gold: real)
    requires launch.Valid() && m == Uniform(launch.n, x, y, z) && v == x * y && gold == v * launch.n as real
    ensures Proportional(CountedDot(launch, m.a, m.b), gold, CountedElements(launch), launch.n)
  {
    UniformDotCounted(launch, x, y, z, v);
    assert ProductsOf(v, CountedDot(launch, m.a, m.b), gold, CountedElements(launch), launch.n);
  }

  lemma PlainShare(n: nat, m: Mem, x: real, y: real, z: real, v: real, gold: real)
    requires m == Uniform(n, x, y, z) && v == x * y && gold == v * n as real
    ensures Proportional(DotProduct(n, m.a, m.b), gold, n, n)
  {
    UniformDot(n, m.a, m.b, x, y);
    assert ProductsOf(v, DotProduct(n, m.a, m.b), gold, n, n);
  }

  lemma DotMatches(mode: DotMode, n: nat, m: Mem, g: Gold, v: real, gold: real)
    requires DotReady(mode, n) && m == Uniform(n, g.a, g.b, g.c) && v == g.a * g.b && gold == v * n as real
    ensures Proportional(DotOf(mode, n, m.a, m.b), gold, CountOf(mode, n), n)
  {
    match mode
    case Manual(launch) => ManualShare(launch, m, g.a, g.b, g.c, v, gold);
    case _ => PlainShare(n, m, g.a, g.b, g.c, v, gold);
  }

  lemma GoldDot(n: nat, g: Gold, v: real, scalar: real)
    requires v == g.a * g.b
    ensures StepGold(BenchId.Dot, scalar, n, g).s == v * n as real
  {
  }

  lemma KernelMatches(id: BenchId, u: Setup, n: nat, w: World, g: Gold)
    requires !id.Dot? && u.Ok() && w.mem == Uniform(n, g.a, g.b, g.c)
    ensures var h := StepGold(id, u.scalar, n, g);
            StepWorld(id, u, w).mem == Uniform(n, h.a, h.b, h.c) && StepWorld(id, u, w).sum == w.sum && h.s == g.s
  {
    if !id.Classic? && !id.All? {
      var k, h := KernelOf(id), StepGold(id, u.scalar, n, g);
      forall i: nat | i < n ensures Value(k, u.scalar, w.mem, i) == Target(k, Uniform(n, h.a, h.b, h.c))[i] {
      }
      assert Target(k, StepWorld(id, u, w).mem) == Target(k, Uniform(n, h.a, h.b, h.c));
    }
  }

  lemma StepMatches(id: BenchId, u: Setup, n: nat, w: World, g: Gold)
    requires DotReady(u.mode, n) && Matches(w, n, CountOf(u.mode, n), g)
    ensures Matches(StepWorld(id, u, w), n, CountOf(u.mode, n), StepGold(id, u.scalar, n, g))
  {
    if id.Dot? {
      GoldDot(n, g, g.a * g.b, u.scalar);
      DotMatches(u.mode, n, w.mem, g, g.a * g.b, StepGold(id, u.scalar, n, g).s);
    } else {
      KernelMatches(id, u, n, w, g);
    }
  }

  /** The arrays and the scalars stay in step over every run. */
  lemma {:induction false} RunMatches(ids: seq<BenchId>, u: Setup, n: nat, w: World, g: Gold)
    requires DotReady(u.mode, n) && Matches(w, n, CountOf(u.mode, n), g)
    ensures Matches(RunWorld(ids, u, w), n, CountOf(u.mode, n), RunGold(ids, u.scalar, n, g))
  {
    if |ids| > 0 {
      RunMatches(ids[..|ids| - 1], u, n, w, g);
      StepMatches(ids[|ids| - 1], u, n, RunWorld(ids[..|ids| - 1], u, w),
                  RunGold(ids[..|ids| - 1], u.scalar, n, g));
    }
  }

  // ----- a stream on some device

  /** A stream whose kernels are launched as interleaved threads, dealt by
      `loops`, and whose dot runs in the given mode. */
  class Stream {
    const arraySize: nat
    const scalar: real
    const loops: Kernel -> seq<Loop>
    const mode: DotMode
    const a: array<real>
    const b: array<real>
    const c: array<real>
    var dSum: seq<real>

    ghost predicate Valid()
      reads this
    {
      && a.Length == arraySize && b.Length == arraySize && c.Length == arraySize
      && a != b && b != c && a != c
      && DotReady(mode, arraySize)
      && (mode.Manual? ==> mode.launch.groups <= |dSum|)
    }

    function Config(): Setup {
      Setup(scalar, mode)
    }

    /** The launch of this kernel is one that gives the serial result. */
    ghost predicate Suited(id: BenchId) {
      id.Dot? || id.Classic? || id.All? || Suits(loops(KernelOf(id)), arraySize, KernelOf(id))
    }

    /** All launches of a run are. */
    ghost predicate SuitedFor(table: seq<Benchmark>, selection: BenchId) {
      forall i: nat | i < |table| && RunBenchmark(selection, table[i]) :: Suited(table[i].id)
    }

    ghost function Contents(): (m: Mem)
      reads this, a, b, c
      requires Valid()
      ensures m.Sized(arraySize)
    {
      Mem(a[..], b[..], c[..])
    }

    /** Fresh buffers, filled by the threads of the init kernel. */
    constructor (size: nat, startScalar: real, fill: FillOrder, init: Values, initLoops: seq<Loop>,
                 deal: Kernel -> seq<Loop>, dot: DotMode, partialSums: seq<real>)
      requires Covers(initLoops, size)
      requires DotReady(dot, size) && (dot.Manual? ==> dot.launch.groups <= |partialSums|)
      ensures Valid() && fresh(a) && fresh(b) && fresh(c)
      ensures arraySize == size && scalar == startScalar && loops == deal && mode == dot
      ensures Contents() == Uniform(size, init.a, init.b, init.c)
    {
      arraySize, scalar, loops, mode, dSum := size, startScalar, deal, dot, partialSums;
      a, b, c := new real[size], new real[size], new real[size];
      new;
      ExecuteFill(fill, init, initLoops, a, b, c);
    }

    /** A stream over buffers that are already there. */
    constructor Over (bufA: array<real>, bufB: array<real>, bufC: array<real>, startScalar: real,
                      deal: Kernel -> seq<Loop>, dot: DotMode, partialSums: seq<real>)
      requires bufA.Length == bufB.Length == bufC.Length && bufA != bufB && bufB != bufC && bufA != bufC
      requires DotReady(dot, bufA.Length) && (dot.Manual? ==> dot.launch.groups <= |partialSums|)
      ensures Valid() && a == bufA && b == bufB && c == bufC
      ensures arraySize == bufA.Length && scalar == startScalar && loops == deal && mode == dot
      ensures Contents() == Mem(bufA[..], bufB[..], bufC[..])
    {
      arraySize, scalar, loops, mode, dSum := bufA.Length, startScalar, deal, dot, partialSums;
      a, b, c := bufA, bufB, bufC;
    }

    method RunKernel(k: Kernel)
      requires Valid() && Suits(loops(k), arraySize, k)
      modifies a, b, c
      ensures Valid() && Contents() == Apply(k, scalar, old(Contents()))
    {
      Execute(k, scalar, loops(k), a, b, c);
    }

    method RunDot() returns (sum: real)
      requires Valid()
      modifies this`dSum
      ensures Valid() && Contents() == old(Contents())
      ensures sum == DotOf(mode, arraySize, a[..], b[..])
    {
      match mode
      case Library =>
        sum := 0.0;
        for i := 0 to arraySize
          invariant sum == DotProduct(i, a[..], b[..])
        {
          DotProductNext(i, a[..], b[..]);
          sum := sum + a[i] * b[i];
        }
      case Threads(ls) => sum := ThreadedDot.Dot(ls, a[..], b[..]);
      case Manual(launch) =>
        var junk: real := *;
        var local := seq(launch.groups, (grp: nat) => seq(launch.local, (li: nat) => junk));
        sum, dSum := DotMachine.ManualDot(launch, a[..], b[..], local, dSum);
    }
  }

  // ----- run_all

  /** The readings of entry i in the first `times` rounds. */
  function TurnReadings(clock: (nat, nat) -> real, i: nat, times: nat): seq<real> {
    seq(times, (k: nat) => clock(k, i))
  }

  /** One elapsed time, spread evenly. */
  function Averages(times: nat, elapsed: real): (r: seq<real>)
    ensures |r| == times
  {
    seq(times, (k: nat) requires times > 0 => elapsed / times as real)
  }

  /** Spread evenly, the readings add up to the elapsed time again. */
  lemma AveragesAddUp(times: nat, elapsed: real)
    requires times >= 1
    ensures Sum(times, (i: nat) => if i < times then Averages(times, elapsed)[i] else 0.0) == elapsed
    ensures forall i: nat | i < times :: Averages(times, elapsed)[i] == Averages(times, elapsed)[0]
  {
    var each, r := elapsed / times as real, Averages(times, elapsed);
    assert forall i: nat | i < times :: r[i] == each;
    SumConst(times, (i: nat) => if i < times then r[i] else 0.0, each);
    assert each * times as real == elapsed;
    SumCong(times, (i: nat) => if i < times then r[i] else 0.0,
            (i: nat) => if i < times then Averages(times, elapsed)[i] else 0.0);
  }

  /** What is recorded for entry i: one reading a round, or the average of all runs. */
  function Readings(table: seq<Benchmark>, selection: BenchId, order: Order, times: nat, clock: (nat, nat) -> real,
                    i: nat): seq<real>
    requires i < |table|
  {
    if !RunBenchmark(selection, table[i]) then []
    else match order
         case InTurn => TurnReadings(clock, i, times)
         case Isolated => Averages(times, clock(0, i))
  }

  ghost predicate TimingsOk(table: seq<Benchmark>, selection: BenchId, order: Order, times: nat,
                            clock: (nat, nat) -> real, timings: seq<seq<real>>)
  {
    && |timings| == |table|
    && forall i: nat | i < |table| :: timings[i] == Readings(table, selection, order, times, clock, i)
  }

  lemma SelectedNext(table: seq<Benchmark>, selection: BenchId, i: nat)
    requires i < |table|
    ensures RunBenchmark(selection, table[i]) ==>
              Selected(table[..i + 1], selection) == Selected(table[..i], selection) + [table[i].id]
    ensures !RunBenchmark(selection, table[i]) ==>
              Selected(table[..i + 1], selection) == Selected(table[..i], selection)
  {
    assert table[..i + 1][..i] == table[..i];
  }

  lemma RunWorldSnoc(ids: seq<BenchId>, id: BenchId, u: Setup, w: World)
    requires w.mem.Sized(|w.mem.a|) && u.Ok()
    ensures RunWorld(ids + [id], u, w) == StepWorld(id, u, RunWorld(ids, u, w))
  {
    assert (ids + [id])[..|ids + [id]| - 1] == ids;
  }

  lemma RunGoldSnoc(ids: seq<BenchId>, id: BenchId, scalar: real, n: nat, g: Gold)
    ensures RunGold(ids + [id], scalar, n, g) == StepGold(id, scalar, n, RunGold(ids, scalar, n, g))
  {
    assert (ids + [id])[..|ids + [id]| - 1] == ids;
  }

  lemma EachSnoc(ids: seq<BenchId>, id: BenchId, times: nat)
    ensures Each(ids + [id], times) == Each(ids, times) + Repeat([id], times)
  {
    assert (ids + [id])[..|ids + [id]| - 1] == ids;
  }

  /** `switch(b.id)`: one kernel run. Only the dot changes the sum. */
  method RunOne(stream: Stream, id: BenchId, sum: real) returns (newSum: real)
    requires stream.Valid() && !id.Classic? && !id.All? && stream.Suited(id)
    modifies stream, stream.a, stream.b, stream.c
    ensures stream.Valid()
    ensures World(stream.Contents(), newSum) == StepWorld(id, stream.Config(), World(old(stream.Contents()), sum))
  {
    newSum := sum;
    match id
    case Copy => stream.RunKernel(Kernel.Copy);
    case Mul => stream.RunKernel(Kernel.Mul);
    case Add => stream.RunKernel(Kernel.Add);
    case Triad => stream.RunKernel(Kernel.Triad);
    case Dot => newSum := stream.RunDot();
    case Nstream => stream.RunKernel(Kernel.Nstream);
  }

  /** One more reading for each selected kernel among the first m, in round k. */
  ghost predicate OneMoreReading(table: seq<Benchmark>, selection: BenchId, clock: (nat, nat) -> real, k: nat,
                                 before: seq<seq<real>>, after: seq<seq<real>>, m: nat)
  {
    && |before| == |table| == |after|
    && forall i: nat | i < |table| ::
         after[i] == before[i] + if i < m && RunBenchmark(selection, table[i]) then [clock(k, i)] else []
  }

  function Push(timings: seq<seq<real>>, i: nat, x: real): seq<seq<real>>
    requires i < |timings|
  {
    timings[i := timings[i] + [x]]
  }

  lemma PushReading(table: seq<Benchmark>, selection: BenchId, clock: (nat, nat) -> real, k: nat,
                    before: seq<seq<real>>, after: seq<seq<real>>, i: nat)
    requires i < |table| && OneMoreReading(table, selection, clock, k, before, after, i)
    ensures RunBenchmark(selection, table[i]) ==>
              OneMoreReading(table, selection, clock, k, before, Push(after, i, clock(k, i)), i + 1)
    ensures !RunBenchmark(selection, table[i]) ==> OneMoreReading(table, selection, clock, k, before, after, i + 1)
  {
  }

  lemma RoundReadings(table: seq<Benchmark>, selection: BenchId, clock: (nat, nat) -> real, k: nat,
                      before: seq<seq<real>>, after: seq<seq<real>>)
    requires TimingsOk(table, selection, InTurn, k, clock, before)
    requires OneMoreReading(table, selection, clock, k, before, after, |table|)
    ensures TimingsOk(table, selection, InTurn, k + 1, clock, after)
  {
    forall i: nat | i < |table| ensures after[i] == Readings(table, selection, InTurn, k + 1, clock, i) {
      assert TurnReadings(clock, i, k + 1) == TurnReadings(clock, i, k) + [clock(k, i)];
    }
  }

  /** One pass over the table, timing each selected kernel once. */
  method RunRound(stream: Stream, table: seq<Benchmark>, selection: BenchId, timings: seq<seq<real>>, sum: real,
                  clock: (nat, nat) -> real, k: nat)
    returns (newTimings: seq<seq<real>>, newSum: real)
    requires stream.Valid() && KernelTable(table) && stream.SuitedFor(table, selection) && |timings| == |table|
    modifies stream, stream.a, stream.b, stream.c
    ensures stream.Valid()
    ensures World(stream.Contents(), newSum) ==
            RunWorld(Selected(table, selection), stream.Config(), World(old(stream.Contents()), sum))
    ensures OneMoreReading(table, selection, clock, k, timings, newTimings, |table|)
  {
    newTimings, newSum := timings, sum;
    ghost var w := World(stream.Contents(), sum);
    for i := 0 to |table|
      invariant stream.Valid()
      invariant World(stream.Contents(), newSum) == RunWorld(Selected(table[..i], selection), stream.Config(), w)
      invariant OneMoreReading(table, selection, clock, k, timings, newTimings, i)
    {
      SelectedNext(table, selection, i);
      PushReading(table, selection, clock, k, timings, newTimings, i);
      if RunBenchmark(selection, table[i]) {
        newSum := RunOne(stream, table[i].id, newSum);
        newTimings := Push(newTimings, i, clock(k, i));
        RunWorldSnoc(Selected(table[..i], selection), table[i].id, stream.Config(), w);
      }
    }
    assert table[..|table|] == table;
  }

  /** One kernel many times over. */
  method RunRepeated(stream: Stream, id: BenchId, numTimes: nat, sum: real) returns (newSum: real)
    requires stream.Valid() && !id.Classic? && !id.All? && stream.Suited(id)
    modifies stream, stream.a, stream.b, stream.c
    ensures stream.Valid()
    ensures World(stream.Contents(), newSum) ==
            RunWorld(Repeat([id], numTimes), stream.Config(), World(old(stream.Contents()), sum))
  {
    newSum := sum;
    ghost var w := World(stream.Contents(), sum);
    for k := 0 to numTimes
      invariant stream.Valid()
      invariant World(stream.Contents(), newSum) == RunWorld(Repeat([id], k), stream.Config(), w)
    {
      newSum := RunOne(stream, id, newSum);
      RunWorldSnoc(Repeat([id], k), id, stream.Config(), w);
    }
  }

  /** Every selected kernel once per round, num_times rounds. */
  method RunInTurn(stream: Stream, table: seq<Benchmark>, selection: BenchId, numTimes: nat,
                   clock: (nat, nat) -> real)
    returns (timings: seq<seq<real>>, sum: real)
    requires stream.Valid() && KernelTable(table) && stream.SuitedFor(table, selection)
    modifies stream, stream.a, stream.b, stream.c
    ensures stream.Valid()
    ensures World(stream.Contents(), sum) ==
            RunWorld(Repeat(Selected(table, selection), numTimes), stream.Config(), World(old(stream.Contents()), 0.0))
    ensures TimingsOk(table, selection, InTurn, numTimes, clock, timings)
  {
    timings := seq(|table|, (i: nat) => []);
    sum := 0.0;
    ghost var w, round := World(stream.Contents(), 0.0), Selected(table, selection);
    for k := 0 to numTimes
      invariant stream.Valid() && TimingsOk(table, selection, InTurn, k, clock, timings)
      invariant World(stream.Contents(), sum) == RunWorld(Repeat(round, k), stream.Config(), w)
    {
      ghost var before := timings;
      timings, sum := RunRound(stream, table, selection, timings, sum, clock, k);
      RoundReadings(table, selection, clock, k, before, timings);
      RunWorldAppend(Repeat(round, k), round, stream.Config(), w);
    }
  }

  /** The first m kernels have their readings. */
  ghost predicate TimingsUpTo(table: seq<Benchmark>, selection: BenchId, times: nat, clock: (nat, nat) -> real,
                              timings: seq<seq<real>>, m: nat)
  {
    && |timings| == |table|
    && forall i: nat | i < |table| ::
         timings[i] == if i < m then Readings(table, selection, Isolated, times, clock, i) else []
  }

  lemma NextTimings(table: seq<Benchmark>, selection: BenchId, times: nat, clock: (nat, nat) -> real,
                    timings: seq<seq<real>>, i: nat)
    requires i < |table| && TimingsUpTo(table, selection, times, clock, timings, i)
    ensures RunBenchmark(selection, table[i]) ==>
              TimingsUpTo(table, selection, times, clock, timings[i := Averages(times, clock(0, i))], i + 1)
    ensures !RunBenchmark(selection, table[i]) ==> TimingsUpTo(table, selection, times, clock, timings, i + 1)
  {
  }

  /** Every selected kernel num_times, before the next one. */
  method RunIsolated(stream: Stream, table: seq<Benchmark>, selection: BenchId, numTimes: nat,
                     clock: (nat, nat) -> real)
    returns (timings: seq<seq<real>>, sum: real)
    requires stream.Valid() && KernelTable(table) && stream.SuitedFor(table, selection)
    modifies stream, stream.a, stream.b, stream.c
    ensures stream.Valid()
    ensures World(stream.Contents(), sum) ==
            RunWorld(Each(Selected(table, selection), numTimes), stream.Config(), World(old(stream.Contents()), 0.0))
    ensures TimingsOk(table, selection, Isolated, numTimes, clock, timings)
  {
    timings := seq(|table|, (i: nat) => []);
    sum := 0.0;
    ghost var w := World(stream.Contents(), 0.0);
    for i := 0 to |table|
      invariant stream.Valid() && TimingsUpTo(table, selection, numTimes, clock, timings, i)
      invariant World(stream.Contents(), sum) ==
                RunWorld(Each(Selected(table[..i], selection), numTimes), stream.Config(), w)
    {
      SelectedNext(table, selection, i);
      NextTimings(table, selection, numTimes, clock, timings, i);
      if RunBenchmark(selection, table[i]) {
        ghost var before := Selected(table[..i], selection);
        sum := RunRepeated(stream, table[i].id, numTimes, sum);
        timings := timings[i := Averages(numTimes, clock(0, i))];
        EachSnoc(before, table[i].id, numTimes);
        RunWorldAppend(Each(before, numTimes), Repeat([table[i].id], numTimes), stream.Config(), w);
      }
    }
    assert table[..|table|] == table;
  }

  /** Recorded readings, entry by entry: those of the rounds, or equal ones that add
      up to the time of all runs. */
  lemma ReadingsMean(table: seq<Benchmark>, selection: BenchId, order: Order, times: nat, clock: (nat, nat) -> real,
                     timings: seq<seq<real>>, e: nat)
    requires TimingsOk(table, selection, order, times, clock, timings) && e < |table|
    ensures |timings[e]| == if RunBenchmark(selection, table[e]) then times else 0
    ensures RunBenchmark(selection, table[e]) && order.InTurn? ==> forall k: nat | k < times :: timings[e][k] == clock(k, e)
    ensures RunBenchmark(selection, table[e]) && order.Isolated? && times >= 1 ==>
              && Sum(times, (i: nat) => if i < |timings[e]| then timings[e][i] else 0.0) == clock(0, e)
              && forall k: nat | k < times :: timings[e][k] == timings[e][0]
  {
    if RunBenchmark(selection, table[e]) && order.Isolated? && times >= 1 {
      var r := Averages(times, clock(0, e));
      AveragesAddUp(times, clock(0, e));
      SumCong(times, (i: nat) => if i < times then r[i] else 0.0,
              (i: nat) => if i < |timings[e]| then timings[e][i] else 0.0);
    }
  }

  /** Runs the selected kernels. `clock(k, i)` is the k-th elapsed time measured
      for entry i of the table: a run of it each round, or all its runs at once. */
  method RunAll(stream: Stream, table: seq<Benchmark>, selection: BenchId, order: Order, numTimes: nat,
                clock: (nat, nat) -> real)
    returns (timings: seq<seq<real>>, sum: real)
    requires stream.Valid() && KernelTable(table) && stream.SuitedFor(table, selection)
    modifies stream, stream.a, stream.b, stream.c
    ensures stream.Valid()
    ensures World(stream.Contents(), sum) ==
            RunWorld(Schedule(table, selection, order, numTimes), stream.Config(), World(old(stream.Contents()), 0.0))
    ensures TimingsOk(table, selection, order, numTimes, clock, timings)
    ensures forall e: nat | e < |table| && RunBenchmark(selection, table[e]) :: |timings[e]| == numTimes
    ensures order.InTurn? ==> forall e: nat, k: nat | e < |table| && RunBenchmark(selection, table[e]) && k < numTimes ::
              timings[e][k] == clock(k, e)
    ensures order.Isolated? && numTimes >= 1 ==> forall e: nat | e < |table| && RunBenchmark(selection, table[e]) ::
              Sum(numTimes, (i: nat) => if i < |timings[e]| then timings[e][i] else 0.0) == clock(0, e)
  {
    match order
    case InTurn => timings, sum := RunInTurn(stream, table, selection, numTimes, clock);
    case Isolated =>
      timings, sum := RunIsolated(stream, table, selection, numTimes, clock);
      forall e: nat | e < |table| { ReadingsMean(table, selection, order, numTimes, clock, timings, e); }
  }

  // ----- check_solution

  function Abs(x: real): real {
    if x < 0.0 then -x else x
  }

  function Max(x: real, y: real): real {
    if x >= y then x else y
  }

  /** The relative tolerance test. */
  predicate Same(actual: real, should: real, maxRel: real) {
    Abs(actual - should) <= Max(Abs(actual), Abs(should)) * maxRel
  }

  function CheckFails(actual: real, should: real, maxRel: real): nat {
    if Same(actual, should, maxRel) then 0 else 1
  }

  ghost predicate ElementsAccepted(m: Mem, count: nat, g: Gold, rel: real)
    requires m.Sized(|m.a|) && count <= |m.a|
  {
    forall i: nat | i < count :: Same(m.a[i], g.a, rel) && Same(m.b[i], g.b, rel) && Same(m.c[i], g.c, rel)
  }

  /** Everything the check looks at is within tolerance of the replayed values. */
  ghost predicate Accepted(table: seq<Benchmark>, selection: BenchId, m: Mem, sum: real, g: Gold, epsilon: real)
    requires m.Sized(|m.a|)
  {
    && (BenchId.Dot in Selected(table, selection) ==> Same(sum, g.s, epsilon * 10000000.0))
    && ElementsAccepted(m, |m.a|, g, epsilon * 100.0)
  }

  /** A dot over k of n elements is within tolerance. */
  predicate Tolerated(k: nat, n: nat, epsilon: real) {
    n as real - k as real <= n as real * (epsilon * 10000000.0)
  }

  lemma Part(x: real, rel: real)
    requires x >= 0.0 && 0.0 <= rel < 1.0
    ensures 0.0 <= x * rel <= x && (x > 0.0 ==> x * rel < x)
    ensures x * (1.0 - rel) == x - x * rel
  {
  }

  lemma TooFar(distance: real, largest: real, rel: real)
    requires distance >= largest > 0.0 && 0.0 <= rel < 1.0
    ensures !(distance <= largest * rel)
  {
    Part(largest, rel);
  }

  lemma BandNegative(x: real, should: real, rel: real)
    requires x < 0.0 && should >= 0.0 && 0.0 <= rel < 1.0
    ensures !Same(x, should, rel)
  {
    TooFar(Abs(x - should), Max(Abs(x), Abs(should)), rel);
  }

  lemma BandNonNegative(x: real, should: real, rel: real)
    requires x < 0.0 && should >= 0.0 && 0.0 <= rel < 1.0
    ensures should * (1.0 - rel) > x
  {
    Part(should, rel);
  }

  lemma BandBelow(x: real, should: real, rel: real)
    requires 0.0 <= x <= should && 0.0 <= rel < 1.0
    ensures Same(x, should, rel) <==> should * (1.0 - rel) <= x
    ensures x * (1.0 - rel) <= should
  {
    Part(should, rel);
    Part(x, rel);
  }

  lemma BandAbove(x: real, should: real, rel: real)
    requires 0.0 <= should < x && 0.0 <= rel < 1.0
    ensures Same(x, should, rel) <==> x * (1.0 - rel) <= should
    ensures should * (1.0 - rel) <= x
  {
    Part(should, rel);
    Part(x, rel);
  }

  /** The tolerance test, for values that should not be negative, is a band on both
      sides: neither too small nor too large. */
  lemma SameBand(x: real, should: real, rel: real)
    requires should >= 0.0 && 0.0 <= rel < 1.0
    ensures Same(x, should, rel) <==> should * (1.0 - rel) <= x && x * (1.0 - rel) <= should
  {
    if x < 0.0 {
      BandNegative(x, should, rel);
      BandNonNegative(x, should, rel);
    } else if x <= should {
      BandBelow(x, should, rel);
    } else {
      BandAbove(x, should, rel);
    }
  }

  /** x is at least `should` less its fraction rel, and not so large that `should`
      is less than x less its own. */
  predicate InBand(x: real, should: real, rel: real) {
    should * (1.0 - rel) <= x && x * (1.0 - rel) <= should
  }

  lemma SameInBand(x: real, should: real, rel: real)
    requires should >= 0.0 && 0.0 <= rel < 1.0
    ensures Same(x, should, rel) <==> InBand(x, should, rel)
  {
    SameBand(x, should, rel);
  }

  lemma BandsAt(m: Mem, g: Gold, rel: real, i: nat)
    requires m.Sized(|m.a|) && i < |m.a| && 0.0 <= rel < 1.0 && g.a >= 0.0 && g.b >= 0.0 && g.c >= 0.0
    ensures Same(m.a[i], g.a, rel) <==> InBand(m.a[i], g.a, rel)
    ensures Same(m.b[i], g.b, rel) <==> InBand(m.b[i], g.b, rel)
    ensures Same(m.c[i], g.c, rel) <==> InBand(m.c[i], g.c, rel)
  {
    SameInBand(m.a[i], g.a, rel);
    SameInBand(m.b[i], g.b, rel);
    SameInBand(m.c[i], g.c, rel);
  }

  /** Every element of each of the three arrays is in the band of its gold value. */
  lemma ElementBands(m: Mem, g: Gold, rel: real)
    requires m.Sized(|m.a|) && 0.0 <= rel < 1.0 && g.a >= 0.0 && g.b >= 0.0 && g.c >= 0.0
    ensures ElementsAccepted(m, |m.a|, g, rel) <==>
            forall i: nat | i < |m.a| :: InBand(m.a[i], g.a, rel) && InBand(m.b[i], g.b, rel) && InBand(m.c[i], g.c, rel)
  {
    if ElementsAccepted(m, |m.a|, g, rel) {
      forall i: nat | i < |m.a| ensures InBand(m.a[i], g.a, rel) && InBand(m.b[i], g.b, rel) && InBand(m.c[i], g.c, rel) {
        BandsAt(m, g, rel, i);
      }
    } else {
      var i: nat :| i < |m.a| &&
                    !(Same(m.a[i], g.a, rel) && Same(m.b[i], g.b, rel) && Same(m.c[i], g.c, rel));
      BandsAt(m, g, rel, i);
    }
  }

  method CheckElements(m: Mem, g: Gold, rel: real) returns (failed: nat)
    requires m.Sized(|m.a|)
    ensures failed == 0 <==> ElementsAccepted(m, |m.a|, g, rel)
    ensures 0.0 <= rel < 1.0 && g.a >= 0.0 && g.b >= 0.0 && g.c >= 0.0 ==>
              (failed == 0 <==> forall i: nat | i < |m.a| ::
                 InBand(m.a[i], g.a, rel) && InBand(m.b[i], g.b, rel) && InBand(m.c[i], g.c, rel))
  {
    if 0.0 <= rel < 1.0 && g.a >= 0.0 && g.b >= 0.0 && g.c >= 0.0 { ElementBands(m, g, rel); }
    failed := 0;
    for i := 0 to |m.a|
      invariant failed == 0 <==> ElementsAccepted(m, i, g, rel)
    {
      failed := failed + CheckFails(m.a[i], g.a, rel) + CheckFails(m.b[i], g.b, rel) + CheckFails(m.c[i], g.c, rel);
    }
  }

  /** Looks for the dot in the table, and checks the sum if it was run. */
  method CheckSum(table: seq<Benchmark>, selection: BenchId, sum: real, gold: real, rel: real) returns (failed: nat)
    requires forall i, j | 0 <= i < |table| && 0 <= j < |table| && table[i].id == table[j].id :: i == j
    ensures failed == 0 <==> (BenchId.Dot in Selected(table, selection) ==> Same(sum, gold, rel))
    ensures gold >= 0.0 && 0.0 <= rel < 1.0 ==>
              (failed == 0 <==> (BenchId.Dot in Selected(table, selection) ==> InBand(sum, gold, rel)))
  {
    if gold >= 0.0 && 0.0 <= rel < 1.0 { SameInBand(sum, gold, rel); }
    failed := 0;
    DotSelected(table, selection);
    for i := 0 to |table|
      invariant failed == 0 && forall j | 0 <= j < i :: table[j].id != BenchId.Dot
    {
      if table[i].id == BenchId.Dot {
        if RunBenchmark(selection, table[i]) {
          failed := CheckFails(sum, gold, rel);
        }
        break;
      }
    }
  }

  /** Replays the schedule on scalars and counts the values out of tolerance; the
      program exits with an error if there are any, unless told to be silent. */
  method CheckSolution(table: seq<Benchmark>, selection: BenchId, order: Order, numTimes: nat, scalar: real,
                       start: Gold, m: Mem, sum: real, epsilon: real, silenceErrors: bool)
    returns (failed: nat, exit: bool)
    requires m.Sized(|m.a|) && KernelTable(table)
    requires forall i, j | 0 <= i < |table| && 0 <= j < |table| && table[i].id == table[j].id :: i == j
    ensures failed == 0 <==>
            Accepted(table, selection, m, sum,
                     RunGold(Schedule(table, selection, order, numTimes), scalar, |m.a|, start), epsilon)
    ensures exit <==> failed > 0 && !silenceErrors
    ensures var g := RunGold(Schedule(table, selection, order, numTimes), scalar, |m.a|, start);
            0.0 <= epsilon < 0.0000001 && g.a >= 0.0 && g.b >= 0.0 && g.c >= 0.0 && g.s >= 0.0 ==>
              (failed == 0 <==>
                 && (BenchId.Dot in Selected(table, selection) ==> InBand(sum, g.s, epsilon * 10000000.0))
                 && forall i: nat | i < |m.a| ::
                      && InBand(m.a[i], g.a, epsilon * 100.0)
                      && InBand(m.b[i], g.b, epsilon * 100.0)
                      && InBand(m.c[i], g.c, epsilon * 100.0))
    ensures var g := RunGold(Schedule(table, selection, order, numTimes), scalar, |m.a|, start);
            0.0 <= epsilon < 0.01 && g.a >= 0.0 && g.b >= 0.0 && g.c >= 0.0 && failed == 0 ==>
              forall i: nat | i < |m.a| ::
                && InBand(m.a[i], g.a, epsilon * 100.0)
                && InBand(m.b[i], g.b, epsilon * 100.0)
                && InBand(m.c[i], g.c, epsilon * 100.0)
  {
    var g := Replay(table, selection, order, numTimes, scalar, |m.a|, start);
    var sumFailed := CheckSum(table, selection, sum, g.s, epsilon * 10000000.0);
    var elementsFailed := CheckElements(m, g, epsilon * 100.0);
    failed := sumFailed + elementsFailed;
    exit := failed > 0 && !silenceErrors;
  }

  lemma {:induction false} DotSelected(table: seq<Benchmark>, selection: BenchId)
    ensures BenchId.Dot in Selected(table, selection) <==>
            exists i: nat :: i < |table| && table[i].id == BenchId.Dot && RunBenchmark(selection, table[i])
  {
    if |table| > 0 {
      var last := |table| - 1;
      DotSelected(table[..last], selection);
      assert forall i: nat | i < last :: table[..last][i] == table[i];
    }
  }

  method ReplayOne(id: BenchId, scalar: real, n: nat, g: Gold) returns (h: Gold)
    requires !id.Classic? && !id.All?
    ensures h == StepGold(id, scalar, n, g)
  {
    var Gold(goldA, goldB, goldC, goldS) := g;
    match id {
      case Copy => goldC := goldA;
      case Mul => goldB := scalar * goldC;
      case Add => goldC := goldA + goldB;
      case Triad => goldA := goldB + scalar * goldC;
      case Nstream => goldA := goldA + (goldB + scalar * goldC);
      case Dot => goldS := goldA * goldB * n as real;
    }
    h := Gold(goldA, goldB, goldC, goldS);
  }

  method ReplayRound(table: seq<Benchmark>, selection: BenchId, scalar: real, n: nat, g: Gold) returns (h: Gold)
    requires KernelTable(table)
    ensures h == RunGold(Selected(table, selection), scalar, n, g)
  {
    h := g;
    for i := 0 to |table|
      invariant h == RunGold(Selected(table[..i], selection), scalar, n, g)
    {
      SelectedNext(table, selection, i);
      if RunBenchmark(selection, table[i]) {
        h := ReplayOne(table[i].id, scalar, n, h);
        RunGoldSnoc(Selected(table[..i], selection), table[i].id, scalar, n, g);
      }
    }
    assert table[..|table|] == table;
  }

  method ReplayRepeated(id: BenchId, numTimes: nat, scalar: real, n: nat, g: Gold) returns (h: Gold)
    requires !id.Classic? && !id.All?
    ensures h == RunGold(Repeat([id], numTimes), scalar, n, g)
  {
    h := g;
    for k := 0 to numTimes
      invariant h == RunGold(Repeat([id], k), scalar, n, g)
    {
      h := ReplayOne(id, scalar, n, h);
      RunGoldSnoc(Repeat([id], k), id, scalar, n, g);
    }
  }

  method Replay(table: seq<Benchmark>, selection: BenchId, order: Order, numTimes: nat, scalar: real, n: nat,
                start: Gold)
    returns (g: Gold)
    requires KernelTable(table)
    ensures g == RunGold(Schedule(table, selection, order, numTimes), scalar, n, start)
  {
    g := start;
    match order
    case InTurn =>
      ghost var round := Selected(table, selection);
      for k := 0 to numTimes
        invariant g == RunGold(Repeat(round, k), scalar, n, start)
      {
        g := ReplayRound(table, selection, scalar, n, g);
        RunGoldAppend(Repeat(round, k), round, scalar, n, start);
      }
    case Isolated =>
      for i := 0 to |table|
        invariant g == RunGold(Each(Selected(table[..i], selection), numTimes), scalar, n, start)
      {
        SelectedNext(table, selection, i);
        if RunBenchmark(selection, table[i]) {
          g := ReplayRepeated(table[i].id, numTimes, scalar, n, g);
          EachSnoc(Selected(table[..i], selection), table[i].id, numTimes);
          RunGoldAppend(Each(Selected(table[..i], selection), numTimes), Repeat([table[i].id], numTimes),
                        scalar, n, start);
        }
      }
      assert table[..|table|] == table;
  }

  lemma SameScaled(sum: real, k: nat, n: nat, v: real, gold: real, rel: real)
    requires k <= n && v > 0.0 && sum == k as real * v && gold == v * n as real
    ensures Same(sum, gold, rel) <==> n as real - k as real <= n as real * rel
  {
    assert gold - sum == (n as real - k as real) * v;
    assert 0.0 <= sum <= gold;
    assert gold * rel == (n as real * rel) * v;
    Cancel(n as real - k as real, n as real * rel, v);
  }

  lemma Cancel(x: real, y: real, v: real)
    requires v > 0.0
    ensures x * v <= y * v <==> x <= y
  {
    assert (y - x) * v == y * v - x * v;
    if x <= y { assert (y - x) * v >= 0.0; } else { assert (x - y) * v > 0.0; }
  }

  /** Of a positive product n times over, k of them are within tolerance exactly
      when the n - k that are missing are. */
  lemma SameProportional(sum: real, gold: real, k: nat, n: nat, rel: real)
    requires Proportional(sum, gold, k, n) && k <= n && gold >= 0.0 && rel >= 0.0
    ensures Same(sum, gold, rel) <==> gold == 0.0 || n as real - k as real <= n as real * rel
  {
    var v: real :| ProductsOf(v, sum, gold, k, n);
    if n > 0 {
      PositiveFactor(v, n);
      if v > 0.0 { SameScaled(sum, k, n, v, gold, rel); }
    }
  }

  lemma PositiveFactor(v: real, n: nat)
    requires n > 0 && v * n as real >= 0.0
    ensures v >= 0.0 && (v * n as real == 0.0 <==> v == 0.0)
  {
  }

  lemma {:induction false} RunNonNegative(ids: seq<BenchId>, scalar: real, n: nat, g: Gold)
    requires scalar >= 0.0 && g.a >= 0.0 && g.b >= 0.0 && g.c >= 0.0 && g.s >= 0.0
    ensures var h := RunGold(ids, scalar, n, g);
            h.a >= 0.0 && h.b >= 0.0 && h.c >= 0.0 && h.s >= 0.0
  {
    if |ids| > 0 {
      RunNonNegative(ids[..|ids| - 1], scalar, n, g);
      StepNonNegative(ids[|ids| - 1], scalar, n, RunGold(ids[..|ids| - 1], scalar, n, g));
    }
  }

  lemma StepNonNegative(id: BenchId, scalar: real, n: nat, g: Gold)
    requires scalar >= 0.0 && g.a >= 0.0 && g.b >= 0.0 && g.c >= 0.0 && g.s >= 0.0
    ensures var h := StepGold(id, scalar, n, g);
            h.a >= 0.0 && h.b >= 0.0 && h.c >= 0.0 && h.s >= 0.0
  {
    NonNegativeProduct(scalar, g.c);
    NonNegativeProduct(g.a, g.b);
    NonNegativeProduct(g.a * g.b, n as real);
  }

  lemma NonNegativeProduct(x: real, y: real)
    requires x >= 0.0 && y >= 0.0
    ensures x * y >= 0.0
  {
  }

  lemma SumTolerated(sum: real, gold: real, k: nat, n: nat, epsilon: real)
    requires Proportional(sum, gold, k, n) && k <= n && gold >= 0.0 && epsilon >= 0.0
    ensures Same(sum, gold, epsilon * 10000000.0) <==> gold == 0.0 || Tolerated(k, n, epsilon)
  {
    SameProportional(sum, gold, k, n, epsilon * 10000000.0);
  }

  lemma SameSelf(x: real, rel: real)
    requires rel >= 0.0
    ensures Same(x, x, rel)
  {
  }

  lemma UniformAccepted(m: Mem, n: nat, g: Gold, rel: real)
    requires rel >= 0.0 && m == Uniform(n, g.a, g.b, g.c)
    ensures ElementsAccepted(m, |m.a|, g, rel)
  {
    SameSelf(g.a, rel);
    SameSelf(g.b, rel);
    SameSelf(g.c, rel);
  }

  /** After a run in step with the scalars, the check accepts all elements, and the
      sum exactly when the elements that took no part are few enough. */
  lemma MatchesAccepted(table: seq<Benchmark>, selection: BenchId, w: World, n: nat, k: nat, g: Gold, epsilon: real)
    requires Matches(w, n, k, g) && k <= n && g.s >= 0.0 && epsilon >= 0.0
    ensures Accepted(table, selection, w.mem, w.sum, g, epsilon) <==>
            BenchId.Dot !in Selected(table, selection) || g.s == 0.0 || Tolerated(k, n, epsilon)
  {
    SumTolerated(w.sum, g.s, k, n, epsilon);
    UniformAccepted(w.mem, n, g, epsilon * 100.0);
  }

  /** The precisions of the two element types: 2^-52 and 2^-23. */
  const DOUBLE_EPSILON: real := 1.0 / 4503599627370496.0
  const FLOAT_EPSILON: real := 1.0 / 8388608.0

  /** In single precision the tolerance of the dot is above one: the check accepts
      every sum that is not negative, zero included. */
  lemma FloatDotAlwaysPasses(sum: real, gold: real)
    requires sum >= 0.0 && gold >= 0.0
    ensures Same(sum, gold, FLOAT_EPSILON * 10000000.0) && FLOAT_EPSILON * 8388608.0 == 1.0
  {
    assert FLOAT_EPSILON * 10000000.0 >= 1.0;
    AtLeastItself(Max(sum, gold), FLOAT_EPSILON * 10000000.0);
  }

  lemma AtLeastItself(x: real, rel: real)
    requires x >= 0.0 && rel >= 1.0
    ensures x * rel >= x
  {
  }

  /** In double precision no loss at all is tolerated, up to 450359962 elements,
      and one lost element of one more is. */
  lemma DoubleToleratesIff(k: nat, n: nat)
    requires k <= n
    ensures n <= 450359962 ==> (Tolerated(k, n, DOUBLE_EPSILON) <==> k == n)
    ensures n == 450359963 && k == n - 1 ==> Tolerated(k, n, DOUBLE_EPSILON)
  {
    var rel := DOUBLE_EPSILON * 10000000.0;
    assert rel == 10000000.0 / 4503599627370496.0;
    assert n <= 450359962 ==> 0.0 <= n as real * rel < 1.0;
  }

  /** In double precision one element in three is too much to lose. */
  lemma DoubleNoticesThird(k: nat, n: nat)
    requires n >= 3 && k + n / 3 == n
    ensures !Tolerated(k, n, DOUBLE_EPSILON)
  {
    assert n <= 5 * (n - k);
    assert DOUBLE_EPSILON * 10000000.0 < 0.1;
  }

  /** run(): a stream at its start values, the selected kernels in the selected
      order, and the check. Whatever the device interleaves, the check reports a
      failure exactly when a dot ran that left out too many elements. */
  method RunAndCheck(stream: Stream, table: seq<Benchmark>, selection: BenchId, order: Order, numTimes: nat,
                     clock: (nat, nat) -> real, epsilon: real, silenceErrors: bool)
    returns (timings: seq<seq<real>>, sum: real, failed: nat, exit: bool)
    requires stream.Valid() && epsilon >= 0.0 && KernelTable(table) && stream.SuitedFor(table, selection)
    requires forall i, j | 0 <= i < |table| && 0 <= j < |table| && table[i].id == table[j].id :: i == j
    requires stream.Contents() == Uniform(stream.arraySize, START_A, START_B, START_C)
    requires stream.scalar == START_SCALAR
    modifies stream, stream.a, stream.b, stream.c
    ensures stream.Valid() && TimingsOk(table, selection, order, numTimes, clock, timings)
    ensures var g := RunGold(Schedule(table, selection, order, numTimes), START_SCALAR, stream.arraySize, START);
            && stream.Contents() == Uniform(stream.arraySize, g.a, g.b, g.c)
            && Proportional(sum, g.s, CountOf(stream.mode, stream.arraySize), stream.arraySize)
            && (failed == 0 <==>
                  BenchId.Dot !in Selected(table, selection) || g.s == 0.0 ||
                  Tolerated(CountOf(stream.mode, stream.arraySize), stream.arraySize, epsilon))
    ensures exit <==> failed > 0 && !silenceErrors
  {
    ghost var ids := Schedule(table, selection, order, numTimes);
    ghost var n, k := stream.arraySize, CountOf(stream.mode, stream.arraySize);
    ghost var w0 := World(stream.Contents(), 0.0);
    timings, sum := RunAll(stream, table, selection, order, numTimes, clock);
    assert ProductsOf(0.0, w0.sum, START.s, k, n);
    RunMatches(ids, stream.Config(), n, w0, START);
    RunNonNegative(ids, START_SCALAR, n, START);
    MatchesAccepted(table, selection, World(stream.Contents(), sum), n, k, RunGold(ids, START_SCALAR, n, START),
                    epsilon);
    failed, exit := CheckSolution(table, selection, order, numTimes, START_SCALAR, START,
                                  Mem(stream.a[..], stream.b[..], stream.c[..]), sum, epsilon, silenceErrors);
  }
}
