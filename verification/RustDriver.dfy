/** The driver of the Rust streams: its three benchmarks, its check, which averages
    errors and recomputes the dot from the final values, and whole runs of the
    Unsafe, Crossbeam and Arc streams. */
module RustDriver {
  import opened Sums
  import opened Kernels
  import opened Interleave
  import opened Partition
  import opened Chunks
  import opened Fill
  import opened Driver
  import DriverLaws
  import ArcStream

  datatype Choice = Everything | TriadOnly | NstreamOnly

  /** The kernels of one repetition. */
  function RoundOf(choice: Choice): seq<BenchId> {
    match choice
    case Everything => DriverLaws.CLASSIC_IDS
    case TriadOnly => [BenchId.Triad]
    case NstreamOnly => [BenchId.Nstream]
  }

  /** The values after a run. */
  function GoldOf(choice: Choice, numTimes: nat, scalar: real, n: nat, init: Values): Gold {
    RunGold(Repeat(RoundOf(choice), numTimes), scalar, n, Gold(init.a, init.b, init.c, 0.0))
  }

  /** Only triad: a takes its new value at the first repetition and keeps it. */
  lemma TriadValues(numTimes: nat, scalar: real, n: nat, init: Values)
    requires numTimes >= 1
    ensures GoldOf(TriadOnly, numTimes, scalar, n, init) == Gold(init.b + scalar * init.c, init.b, init.c, 0.0)
  {
    var start := Gold(init.a, init.b, init.c, 0.0);
    DriverLaws.RepeatSettles(BenchId.Triad, scalar, n, start, StepGold(BenchId.Triad, scalar, n, start), numTimes);
  }

  /** Only nstream: a grows by the same amount at every repetition. */
  lemma NstreamValues(numTimes: nat, scalar: real, n: nat, init: Values)
    ensures GoldOf(NstreamOnly, numTimes, scalar, n, init) ==
            Gold(init.a + numTimes as real * (init.b + scalar * init.c), init.b, init.c, 0.0)
  {
    var inc := init.b + scalar * init.c;
    DriverLaws.NstreamRepeats(scalar, n, Gold(init.a, init.b, init.c, 0.0), inc, numTimes);
    LinearIsScaled(init.a, inc, numTimes);
  }

  /** All kernels: a is multiplied by s*s + 2s at every repetition. */
  lemma AllValues(numTimes: nat, scalar: real, n: nat, init: Values)
    ensures GoldOf(Everything, numTimes, scalar, n, init).a ==
            DriverLaws.Pow(scalar * scalar + 2.0 * scalar, numTimes) * init.a
  {
    DriverLaws.ClassicRounds(scalar, n, Gold(init.a, init.b, init.c, 0.0), numTimes);
    DriverLaws.GeometricIsPow(scalar * scalar + 2.0 * scalar, numTimes, init.a);
  }

  // ----- the check

  function TotalError(xs: seq<real>, from: real): real {
    Sum(|xs|, (i: nat) => if i < |xs| then Abs(xs[i] - from) else 0.0)
  }

  /** The average error is within tolerance. Without elements there is none to exceed it. */
  predicate AverageOk(xs: seq<real>, from: real, tolerance: real) {
    |xs| == 0 || TotalError(xs, from) / |xs| as real <= tolerance
  }

  /** The relative error of the sum. Nothing divided by nothing fails no test. */
  predicate DotOk(sum: real, gold: real) {
    if gold == 0.0 then sum == 0.0 else Abs((sum - gold) / gold) <= 0.00000001
  }

  /** The total error is at most the tolerance for each element. */
  predicate TotalWithin(xs: seq<real>, from: real, tolerance: real) {
    Sum(|xs|, (i: nat) => if i < |xs| then Abs(xs[i] - from) else 0.0) <= tolerance * |xs| as real
  }

  /** The error of the sum is at most a hundred-millionth of the gold value. */
  predicate DotWithin(sum: real, gold: real) {
    Abs(sum - gold) * 100000000.0 <= Abs(gold)
  }

  /** Not divided: the total error is within the tolerance times the length. */
  lemma AverageOkIff(xs: seq<real>, from: real, tolerance: real)
    requires |xs| > 0
    ensures AverageOk(xs, from, tolerance) <==>
            Sum(|xs|, (i: nat) => if i < |xs| then Abs(xs[i] - from) else 0.0) <= tolerance * |xs| as real
  {
    DividedIff(TotalError(xs, from), |xs|, tolerance);
  }

  lemma DividedIff(total: real, n: nat, tolerance: real)
    requires n > 0
    ensures total / n as real <= tolerance <==> total <= tolerance * n as real
  {
    var average := total / n as real;
    assert total == average * n as real;
    if average <= tolerance {
      assert (tolerance - average) * n as real >= 0.0;
    } else {
      assert (average - tolerance) * n as real > 0.0;
    }
  }

  /** Not divided: the error of the sum is at most a hundred-millionth of the gold value. */
  lemma DotOkIff(sum: real, gold: real)
    ensures DotOk(sum, gold) <==> Abs(sum - gold) * 100000000.0 <= Abs(gold)
  {
    if gold != 0.0 { RelativeError(sum - gold, gold); }
  }

  lemma RelativeError(error: real, gold: real)
    requires gold != 0.0
    ensures Abs(error / gold) * Abs(gold) == Abs(error)
    ensures Abs(error / gold) <= 0.00000001 <==> Abs(error) * 100000000.0 <= Abs(gold)
  {
    var q := error / gold;
    assert q * gold == error;
    AbsProduct(q, gold);
    Scaling(Abs(q), Abs(gold), Abs(error));
  }

  lemma AbsProduct(x: real, y: real)
    ensures Abs(x * y) == Abs(x) * Abs(y)
  {
  }

  lemma Scaling(q: real, g: real, e: real)
    requires g > 0.0 && e == q * g
    ensures q <= 0.00000001 <==> e * 100000000.0 <= g
  {
    if q <= 0.00000001 { assert (0.00000001 - q) * g >= 0.0; } else { assert (q - 0.00000001) * g > 0.0; }
  }

  method Validate(xs: seq<real>, from: real, tolerance: real) returns (ok: bool)
    ensures ok <==> AverageOk(xs, from, tolerance)
    ensures |xs| > 0 ==> (ok <==> TotalWithin(xs, from, tolerance))
  {
    if |xs| > 0 { AverageOkIff(xs, from, tolerance); }
    var error := 0.0;
    ghost var f := (i: nat) => if i < |xs| then Abs(xs[i] - from) else 0.0;
    for i := 0 to |xs|
      invariant error == Sum(i, f)
    {
      error := error + Abs(xs[i] - from);
    }
    SumCong(|xs|, f, (i: nat) => if i < |xs| then Abs(xs[i] - from) else 0.0);
    ok := |xs| == 0 || error / |xs| as real <= tolerance;
  }

  /** Within the average tolerance, no single error exceeds the tolerance times the length. */
  lemma AverageBounds(xs: seq<real>, from: real, tolerance: real, i: nat)
    requires AverageOk(xs, from, tolerance) && i < |xs|
    ensures Abs(xs[i] - from) <= tolerance * |xs| as real
  {
    var f := (j: nat) => if j < |xs| then Abs(xs[j] - from) else 0.0;
    OneOfMany(|xs|, i, f);
    SumCong(|xs|, f, (j: nat) => if j < |xs| then Abs(xs[j] - from) else 0.0);
    DividedIff(TotalError(xs, from), |xs|, tolerance);
  }

  lemma {:induction false} OneOfMany(n: nat, i: nat, f: nat -> real)
    requires i < n && forall j: nat :: f(j) >= 0.0
    ensures f(i) <= Sum(n, f)
  {
    if i < n - 1 { OneOfMany(n - 1, i, f); } else { NonNegativeSum(n - 1, f); }
  }

  lemma {:induction false} NonNegativeSum(n: nat, f: nat -> real)
    requires forall j: nat :: f(j) >= 0.0
    ensures Sum(n, f) >= 0.0
  {
    if n > 0 { NonNegativeSum(n - 1, f); }
  }

  /** The dot of the check: the final values, multiplied out. */
  function Recomputed(a: real, b: real, n: nat): real {
    a * b * n as real
  }

  lemma FourSteps(scalar: real, n: nat, g: Gold, a: real, b: real, c: real)
    requires b == scalar * g.a && c == g.a + b && a == b + scalar * c
    ensures var h := RunGold(DriverLaws.CLASSIC_IDS, scalar, n, g);
            h.a == a && h.b == b && h.c == c
  {
    DriverLaws.ClassicSteps(scalar, n, g);
    var g1 := StepGold(BenchId.Copy, scalar, n, g);
    var g2 := StepGold(BenchId.Mul, scalar, n, g1);
    assert g2 == Gold(g.a, b, g.a, g.s);
    LastThree(scalar, n, g2, a, b, c);
  }

  lemma LastThree(scalar: real, n: nat, g: Gold, a: real, b: real, c: real)
    requires g.b == b && c == g.a + b && a == b + scalar * c
    ensures var h := StepGold(BenchId.Dot, scalar, n, StepGold(BenchId.Triad, scalar, n,
                       StepGold(BenchId.Add, scalar, n, g)));
            h.a == a && h.b == b && h.c == c
  {
  }

  /** One repetition on scalars. */
  method ReplayRound(choice: Choice, scalar: real, a: real, b: real, c: real, ghost n: nat, ghost g: Gold)
    returns (goldA: real, goldB: real, goldC: real)
    requires g.a == a && g.b == b && g.c == c
    ensures var h := RunGold(RoundOf(choice), scalar, n, g);
            goldA == h.a && goldB == h.b && goldC == h.c
  {
    goldA, goldB, goldC := a, b, c;
    match choice {
      case Everything =>
        goldC := goldA;
        goldB := scalar * goldC;
        goldC := goldA + goldB;
        goldA := goldB + scalar * goldC;
        FourSteps(scalar, n, g, goldA, goldB, goldC);
      case TriadOnly =>
        DriverLaws.RunOneId(BenchId.Triad, scalar, n, g);
        goldA := goldB + scalar * goldC;
      case NstreamOnly =>
        DriverLaws.RunOneId(BenchId.Nstream, scalar, n, g);
        goldA := goldA + (goldB + scalar * goldC);
    }
  }

  /** The kernels on scalars. */
  method ReplayGold(choice: Choice, numTimes: nat, scalar: real, init: Values, ghost n: nat)
    returns (goldA: real, goldB: real, goldC: real)
    ensures var g := GoldOf(choice, numTimes, scalar, n, init);
            goldA == g.a && goldB == g.b && goldC == g.c
  {
    goldA, goldB, goldC := init.a, init.b, init.c;
    ghost var start := Gold(init.a, init.b, init.c, 0.0);
    for k := 0 to numTimes
      invariant var g := RunGold(Repeat(RoundOf(choice), k), scalar, n, start);
                goldA == g.a && goldB == g.b && goldC == g.c
    {
      RunGoldAppend(Repeat(RoundOf(choice), k), RoundOf(choice), scalar, n, start);
      goldA, goldB, goldC := ReplayRound(choice, scalar, goldA, goldB, goldC, n,
                                         RunGold(Repeat(RoundOf(choice), k), scalar, n, start));
    }
  }

  ghost predicate CheckOk(m: Mem, dotSum: Option<real>, g: Gold, epsilon: real) {
    && AverageOk(m.a, g.a, epsilon * 100.0) && AverageOk(m.b, g.b, epsilon * 100.0)
    && AverageOk(m.c, g.c, epsilon * 100.0)
    && (dotSum.Some? ==> DotOk(dotSum.value, Recomputed(g.a, g.b, |m.a|)))
  }

  method ValidateDot(dotSum: Option<real>, gold: real) returns (ok: bool)
    ensures ok <==> (dotSum.Some? ==> DotOk(dotSum.value, gold))
    ensures ok <==> (dotSum.Some? ==> DotWithin(dotSum.value, gold))
  {
    if dotSum.Some? { DotOkIff(dotSum.value, gold); }
    ok := dotSum.Some? ==> DotOk(dotSum.value, gold);
  }

  /** Average errors and the relative error of the dot, all within tolerance. */
  method CheckSolution(choice: Choice, numTimes: nat, scalar: real, init: Values, m: Mem, dotSum: Option<real>,
                       epsilon: real)
    returns (ok: bool)
    ensures ok <==> CheckOk(m, dotSum, GoldOf(choice, numTimes, scalar, |m.a|, init), epsilon)
    ensures var g := GoldOf(choice, numTimes, scalar, |m.a|, init);
            m.Sized(|m.a|) && |m.a| > 0 ==>
              (ok <==>
                 && TotalWithin(m.a, g.a, epsilon * 100.0) && TotalWithin(m.b, g.b, epsilon * 100.0)
                 && TotalWithin(m.c, g.c, epsilon * 100.0)
                 && (dotSum.Some? ==> DotWithin(dotSum.value, Recomputed(g.a, g.b, |m.a|))))
  {
    var goldA, goldB, goldC := ReplayGold(choice, numTimes, scalar, init, |m.a|);
    var aOk := Validate(m.a, goldA, epsilon * 100.0);
    var bOk := Validate(m.b, goldB, epsilon * 100.0);
    var cOk := Validate(m.c, goldC, epsilon * 100.0);
    var dotOk := ValidateDot(dotSum, Recomputed(goldA, goldB, |m.a|));
    ok := aOk && bOk && cOk && dotOk;
  }

  lemma ExactAverage(xs: seq<real>, from: real, tolerance: real)
    requires tolerance >= 0.0 && forall i: nat | i < |xs| :: xs[i] == from
    ensures AverageOk(xs, from, tolerance)
  {
    SumPad(0, |xs|, (i: nat) => if i < |xs| then Abs(xs[i] - from) else 0.0);
  }

  lemma ExactOk(m: Mem, n: nat, dotSum: Option<real>, g: Gold, epsilon: real)
    requires m == Uniform(n, g.a, g.b, g.c) && epsilon >= 0.0
    requires dotSum.Some? ==> dotSum.value == Recomputed(g.a, g.b, n)
    ensures CheckOk(m, dotSum, g, epsilon)
  {
    ExactAverage(m.a, g.a, epsilon * 100.0);
    ExactAverage(m.b, g.b, epsilon * 100.0);
    ExactAverage(m.c, g.c, epsilon * 100.0);
    if dotSum.Some? { ExactDot(dotSum.value, Recomputed(g.a, g.b, |m.a|)); }
  }

  lemma ExactDot(sum: real, gold: real)
    requires sum == gold
    ensures DotOk(sum, gold)
  {
    if gold != 0.0 { assert (sum - gold) / gold == 0.0; }
  }

  // ----- repetitions

  /** One repetition of all kernels, kernel by kernel. */
  lemma ClassicWorld(u: Setup, w: World)
    requires w.mem.Sized(|w.mem.a|) && u.Ok()
    ensures RunWorld(DriverLaws.CLASSIC_IDS, u, w) ==
            StepWorld(BenchId.Dot, u, StepWorld(BenchId.Triad, u, StepWorld(BenchId.Add, u,
              StepWorld(BenchId.Mul, u, StepWorld(BenchId.Copy, u, w)))))
  {
    var ids := DriverLaws.CLASSIC_IDS;
    assert RunWorld([], u, w) == w && [] + [BenchId.Copy] == ids[..1];
    RunWorldSnoc([], BenchId.Copy, u, w);
    RunWorldSnoc(ids[..1], BenchId.Mul, u, w);
    RunWorldSnoc(ids[..2], BenchId.Add, u, w);
    RunWorldSnoc(ids[..3], BenchId.Triad, u, w);
    RunWorldSnoc(ids[..4], BenchId.Dot, u, w);
    assert ids[..1] + [BenchId.Mul] == ids[..2] && ids[..2] + [BenchId.Add] == ids[..3];
    assert ids[..3] + [BenchId.Triad] == ids[..4] && ids[..4] + [BenchId.Dot] == ids;
  }

  /** `run_all` on a stream that shares its arrays. */
  method RunAllShared(stream: Stream, numTimes: nat) returns (lastSum: real)
    requires stream.Valid() && forall id: BenchId :: stream.Suited(id)
    modifies stream, stream.a, stream.b, stream.c
    ensures stream.Valid()
    ensures World(stream.Contents(), lastSum) ==
            RunWorld(Repeat(DriverLaws.CLASSIC_IDS, numTimes), stream.Config(), World(old(stream.Contents()), 0.0))
  {
    lastSum := 0.0;
    ghost var w, u := World(stream.Contents(), 0.0), stream.Config();
    for k := 0 to numTimes
      invariant stream.Valid()
      invariant World(stream.Contents(), lastSum) == RunWorld(Repeat(DriverLaws.CLASSIC_IDS, k), u, w)
    {
      lastSum := RoundShared(stream, lastSum);
      RunWorldAppend(Repeat(DriverLaws.CLASSIC_IDS, k), DriverLaws.CLASSIC_IDS, u, w);
    }
  }

  method RoundShared(stream: Stream, before: real) returns (sum: real)
    requires stream.Valid() && forall id: BenchId :: stream.Suited(id)
    modifies stream, stream.a, stream.b, stream.c
    ensures stream.Valid()
    ensures World(stream.Contents(), sum) ==
            RunWorld(DriverLaws.CLASSIC_IDS, stream.Config(), World(old(stream.Contents()), before))
  {
    ClassicWorld(stream.Config(), World(stream.Contents(), before));
    sum := RunOne(stream, BenchId.Copy, before);
    sum := RunOne(stream, BenchId.Mul, sum);
    sum := RunOne(stream, BenchId.Add, sum);
    sum := RunOne(stream, BenchId.Triad, sum);
    sum := RunOne(stream, BenchId.Dot, sum);
  }

  /** The benchmark chosen, on a stream that shares its arrays. */
  method RunShared(stream: Stream, choice: Choice, numTimes: nat) returns (lastSum: real)
    requires stream.Valid() && forall id: BenchId :: stream.Suited(id)
    modifies stream, stream.a, stream.b, stream.c
    ensures stream.Valid()
    ensures World(stream.Contents(), lastSum) ==
            RunWorld(Repeat(RoundOf(choice), numTimes), stream.Config(), World(old(stream.Contents()), 0.0))
  {
    match choice
    case Everything => lastSum := RunAllShared(stream, numTimes);
    case TriadOnly => lastSum := RunRepeated(stream, BenchId.Triad, numTimes, 0.0);
    case NstreamOnly => lastSum := RunRepeated(stream, BenchId.Nstream, numTimes, 0.0);
  }

  // ----- the Arc stream

  /** The Arc stream's setup: its dot is exact. */
  function ArcConfig(scalar: real): (u: Setup)
    ensures u.Ok() && u.scalar == scalar
  {
    Setup(scalar, Library)
  }

  method OneArc(stream: ArcStream.ArcStream, id: BenchId, before: real) returns (sum: real)
    requires stream.Valid() && !id.Classic? && !id.All?
    modifies stream
    ensures stream.Valid()
    ensures World(stream.Contents(), sum) ==
            StepWorld(id, ArcConfig(stream.scalar), World(old(stream.Contents()), before))
  {
    sum := before;
    match id
    case Copy => stream.RunKernel(Kernel.Copy);
    case Mul => stream.RunKernel(Kernel.Mul);
    case Add => stream.RunKernel(Kernel.Add);
    case Triad => stream.RunKernel(Kernel.Triad);
    case Dot => sum := stream.Dot();
    case Nstream => stream.RunKernel(Kernel.Nstream);
  }

  method RoundArc(stream: ArcStream.ArcStream, choice: Choice, before: real) returns (sum: real)
    requires stream.Valid()
    modifies stream
    ensures stream.Valid()
    ensures World(stream.Contents(), sum) ==
            RunWorld(RoundOf(choice), ArcConfig(stream.scalar), World(old(stream.Contents()), before))
  {
    ghost var u, w := ArcConfig(stream.scalar), World(stream.Contents(), before);
    match choice
    case Everything =>
      ClassicWorld(u, w);
      sum := OneArc(stream, BenchId.Copy, before);
      sum := OneArc(stream, BenchId.Mul, sum);
      sum := OneArc(stream, BenchId.Add, sum);
      sum := OneArc(stream, BenchId.Triad, sum);
      sum := OneArc(stream, BenchId.Dot, sum);
    case TriadOnly =>
      SingleWorld(BenchId.Triad, u, w);
      sum := OneArc(stream, BenchId.Triad, before);
    case NstreamOnly =>
      SingleWorld(BenchId.Nstream, u, w);
      sum := OneArc(stream, BenchId.Nstream, before);
  }

  lemma SingleWorld(id: BenchId, u: Setup, w: World)
    requires w.mem.Sized(|w.mem.a|) && u.Ok()
    ensures RunWorld([id], u, w) == StepWorld(id, u, w)
  {
    RunWorldSnoc([], id, u, w);
    assert [] + [id] == [id];
  }

  method RunArc(stream: ArcStream.ArcStream, choice: Choice, numTimes: nat) returns (lastSum: real)
    requires stream.Valid()
    modifies stream
    ensures stream.Valid()
    ensures World(stream.Contents(), lastSum) ==
            RunWorld(Repeat(RoundOf(choice), numTimes), ArcConfig(stream.scalar), World(old(stream.Contents()), 0.0))
  {
    lastSum := 0.0;
    ghost var w, u := World(stream.Contents(), 0.0), ArcConfig(stream.scalar);
    for k := 0 to numTimes
      invariant stream.Valid()
      invariant World(stream.Contents(), lastSum) == RunWorld(Repeat(RoundOf(choice), k), u, w)
    {
      lastSum := RoundArc(stream, choice, lastSum);
      RunWorldAppend(Repeat(RoundOf(choice), k), RoundOf(choice), u, w);
    }
  }

  // ----- whole runs

  /** A run panics, or ends with its arrays, its last dot and the verdict of the check. */
  datatype Run = Panicked | Finished(mem: Mem, lastSum: real, correct: bool)

  /** The arrays hold the gold values, the last dot is the one recomputed from them,
      and the check says so. */
  ghost predicate EndsGold(r: Run, choice: Choice, numTimes: nat, scalar: real, n: nat, init: Values) {
    var g := GoldOf(choice, numTimes, scalar, n, init);
    && r.Finished? && r.correct && r.mem == Uniform(n, g.a, g.b, g.c)
    && (choice.Everything? ==> r.lastSum == Recomputed(g.a, g.b, n))
  }

  /** The last dot of a run, when its dot counts all elements. */
  lemma LastDot(choice: Choice, numTimes: nat, scalar: real, n: nat, init: Values, sum: real)
    requires numTimes >= 1 && choice.Everything?
    requires Proportional(sum, GoldOf(choice, numTimes, scalar, n, init).s, n, n)
    ensures var g := GoldOf(choice, numTimes, scalar, n, init); sum == Recomputed(g.a, g.b, n)
  {
    DriverLaws.SelectedIds(BenchId.Classic, BENCH);
    DriverLaws.ClassicFinalDot(scalar, n, Gold(init.a, init.b, init.c, 0.0), numTimes);
    AllOf(sum, GoldOf(choice, numTimes, scalar, n, init).s, n);
  }

  /** What a run from the initial values leaves, when its dot counts all elements. */
  lemma WorldEndsGold(choice: Choice, numTimes: nat, u: Setup, n: nat, init: Values, w: World)
    requires numTimes >= 1 && !u.mode.Manual? && DotReady(u.mode, n)
    requires w == RunWorld(Repeat(RoundOf(choice), numTimes), u, World(Uniform(n, init.a, init.b, init.c), 0.0))
    ensures var g := GoldOf(choice, numTimes, u.scalar, n, init);
            && w.mem == Uniform(n, g.a, g.b, g.c)
            && (choice.Everything? ==> w.sum == Recomputed(g.a, g.b, n))
  {
    var start := Gold(init.a, init.b, init.c, 0.0);
    assert ProductsOf(0.0, 0.0, start.s, n, n);
    RunMatches(Repeat(RoundOf(choice), numTimes), u, n, World(Uniform(n, init.a, init.b, init.c), 0.0), start);
    if choice.Everything? { LastDot(choice, numTimes, u.scalar, n, init, w.sum); }
  }

  /** The end of every run: the check on what is left. */
  method Finish(choice: Choice, numTimes: nat, scalar: real, n: nat, init: Values, epsilon: real, m: Mem,
                lastSum: real)
    returns (r: Run)
    requires var g := GoldOf(choice, numTimes, scalar, n, init);
             && m == Uniform(n, g.a, g.b, g.c)
             && (choice.Everything? ==> lastSum == Recomputed(g.a, g.b, n))
    requires epsilon >= 0.0
    ensures EndsGold(r, choice, numTimes, scalar, n, init)
  {
    var dotSum := if choice.Everything? then Some(lastSum) else None;
    var correct := CheckSolution(choice, numTimes, scalar, init, m, dotSum, epsilon);
    ExactOk(m, n, dotSum, GoldOf(choice, numTimes, scalar, n, init), epsilon);
    r := Finished(m, lastSum, correct);
  }

  /** Threads that share the arrays and tile them, with any tiling dot. */
  method SharedRun(n: nat, fill: FillOrder, deal: seq<Loop>, dot: seq<Loop>, choice: Choice, numTimes: nat,
                   scalar: real, init: Values, epsilon: real)
    returns (r: Run)
    requires Tiles(deal, n) && Tiles(dot, n) && numTimes >= 1 && epsilon >= 0.0
    ensures EndsGold(r, choice, numTimes, scalar, n, init)
  {
    forall k: Kernel ensures Suits(deal, n, k) { TilesSuit(n, k, deal); }
    var stream := new Stream(n, scalar, fill, init, deal, (k: Kernel) => deal, DotMode.Threads(dot), []);
    var lastSum := RunShared(stream, choice, numTimes);
    var m := Mem(stream.a[..], stream.b[..], stream.c[..]);
    WorldEndsGold(choice, numTimes, stream.Config(), n, init, World(m, lastSum));
    r := Finish(choice, numTimes, scalar, n, init, epsilon, m, lastSum);
  }

  /** The Unsafe stream: a thread runs out of the arrays, or the run ends at the gold values. */
  method UnsafeRun(n: nat, ncore: nat, choice: Choice, numTimes: nat, scalar: real, init: Values, epsilon: real)
    returns (r: Run)
    requires ncore >= 1 && numTimes >= 1 && epsilon >= 0.0
    ensures r == Panicked <==> !ChunksFit(n, ncore)
    ensures ChunksFit(n, ncore) ==> EndsGold(r, choice, numTimes, scalar, n, init)
  {
    ThreadRangesTileIff(n, ncore);
    if !ChunksFit(n, ncore) { return Panicked; }
    r := SharedRun(n, ByIndex, ThreadRanges(n, ncore), ThreadRanges(n, ncore), choice, numTimes, scalar, init, epsilon);
  }

  /** The Crossbeam stream: slicing into chunks of no elements panics, otherwise the
      run ends at the gold values. */
  method CrossbeamRun(n: nat, ncore: nat, choice: Choice, numTimes: nat, scalar: real, init: Values, epsilon: real)
    returns (r: Run)
    requires ncore >= 1 && numTimes >= 1 && epsilon >= 0.0
    ensures r == Panicked <==> n == 0
    ensures n >= 1 ==> EndsGold(r, choice, numTimes, scalar, n, init)
  {
    CrossbeamTiles(n, ncore);
    if n == 0 { return Panicked; }
    r := SharedRun(n, ByArray, ZippedChunks(n, ncore), ClippedRanges(n, ncore), choice, numTimes, scalar, init,
                   epsilon);
  }

  /** A new Arc stream at its initial values, if its shares can be computed. */
  method StartArc(n: nat, ncore: nat, scalar: real, init: Values) returns (ok: bool, stream: ArcStream.ArcStream)
    requires ncore >= 1
    ensures fresh(stream) && stream.scalar == scalar && stream.size == n
    ensures ok <==> ChunksFit(n, ncore)
    ensures ok ==> stream.Valid() && stream.Contents() == Uniform(n, init.a, init.b, init.c)
  {
    stream := new ArcStream.ArcStream(n, ncore, scalar, (init.a, init.b, init.c));
    ok := stream.InitArrays();
    if ok {
      ArcStream.FirstInitIsUniform(n, ncore, stream.aChunks, init.a);
      ArcStream.FirstInitIsUniform(n, ncore, stream.bChunks, init.b);
      ArcStream.FirstInitIsUniform(n, ncore, stream.cChunks, init.c);
    }
  }

  /** The Arc stream: the share of the last thread underflows, or the run ends at
      the gold values. */
  method ArcRun(n: nat, ncore: nat, choice: Choice, numTimes: nat, scalar: real, init: Values, epsilon: real)
    returns (r: Run)
    requires ncore >= 1 && numTimes >= 1 && epsilon >= 0.0
    ensures r == Panicked <==> !ChunksFit(n, ncore)
    ensures ChunksFit(n, ncore) ==> EndsGold(r, choice, numTimes, scalar, n, init)
  {
    var ok, stream := StartArc(n, ncore, scalar, init);
    if !ok { return Panicked; }
    var lastSum := RunArc(stream, choice, numTimes);
    stream.ReadArrays();
    var m := Mem(stream.a, stream.b, stream.c);
    WorldEndsGold(choice, numTimes, ArcConfig(scalar), n, init, World(m, lastSum));
    r := Finish(choice, numTimes, scalar, n, init, epsilon, m, lastSum);
  }
}
