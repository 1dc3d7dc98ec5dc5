/** Closed forms of the values a benchmark run ends with, for any number of
    repetitions: what the solution check expects without replaying the run. */
module DriverLaws {
  import opened Sums
  import opened Kernels
  import opened DotLaunch
  import opened Driver

  function Pow(x: real, k: nat): real {
    if k == 0 then 1.0 else x * Pow(x, k - 1)
  }

  /** x^k * a. */
  function Geometric(x: real, k: nat, a: real): real {
    if k == 0 then a else x * Geometric(x, k - 1, a)
  }

  lemma {:induction false} GeometricIsPow(x: real, k: nat, a: real)
    ensures Geometric(x, k, a) == Pow(x, k) * a
  {
    if k > 0 {
      GeometricIsPow(x, k - 1, a);
      Assoc(x, Pow(x, k - 1), a);
    }
  }

  lemma LinearSelf(x: real, k: nat)
    ensures Linear(x, x, k) == (k + 1) as real * x
  {
    LinearIsScaled(x, x, k);
    AddOne(k, x);
  }

  lemma Assoc(x: real, y: real, z: real)
    ensures (x * y) * z == x * (y * z)
  {
  }

  /** What one classic round multiplies a by. */
  function Factor(s: real): real {
    s * s + 2.0 * s
  }

  function Final(selection: BenchId, order: Order, numTimes: nat, s: real, n: nat, start: Gold): Gold {
    RunGold(Schedule(BENCH, selection, order, numTimes), s, n, start)
  }

  const CLASSIC_IDS: seq<BenchId> := [BenchId.Copy, BenchId.Mul, BenchId.Add, BenchId.Triad, BenchId.Dot]

  function Entry(selection: BenchId, b: Benchmark): seq<BenchId> {
    if RunBenchmark(selection, b) then [b.id] else []
  }

  lemma SelectedStep(selection: BenchId, table: seq<Benchmark>, i: nat)
    requires i < |table|
    ensures Selected(table[..i + 1], selection) == Selected(table[..i], selection) + Entry(selection, table[i])
  {
    SelectedNext(table, selection, i);
  }

  lemma TwoEntries(selection: BenchId, t: seq<Benchmark>, i: nat)
    requires i + 1 < |t|
    ensures Selected(t[..i + 2], selection) ==
            Selected(t[..i], selection) + (Entry(selection, t[i]) + Entry(selection, t[i + 1]))
  {
    SelectedStep(selection, t, i);
    SelectedStep(selection, t, i + 1);
  }

  lemma FourEntries(selection: BenchId, t: seq<Benchmark>)
    requires |t| == 6
    ensures Selected(t[..4], selection) ==
            (Entry(selection, t[0]) + Entry(selection, t[1])) + (Entry(selection, t[2]) + Entry(selection, t[3]))
  {
    TwoEntries(selection, t, 0);
    TwoEntries(selection, t, 2);
    Joined(Selected(t[..0], selection), Selected(t[..2], selection), Selected(t[..4], selection),
           Entry(selection, t[0]) + Entry(selection, t[1]), Entry(selection, t[2]) + Entry(selection, t[3]));
  }

  /** The table, entry by entry. */
  lemma SixEntries(selection: BenchId, t: seq<Benchmark>)
    requires |t| == 6
    ensures Selected(t, selection) ==
            (Entry(selection, t[0]) + Entry(selection, t[1])) + (Entry(selection, t[2]) + Entry(selection, t[3])) +
            (Entry(selection, t[4]) + Entry(selection, t[5]))
  {
    FourEntries(selection, t);
    TwoEntries(selection, t, 4);
    assert t[..6] == t;
  }

  lemma Joined<T>(s0: seq<T>, s2: seq<T>, s4: seq<T>, x: seq<T>, y: seq<T>)
    requires s0 == [] && s2 == s0 + x && s4 == s2 + y
    ensures s4 == x + y
  {
  }

  /** What each selection runs. */
  lemma SelectedIds(selection: BenchId, table: seq<Benchmark>)
    requires table == BENCH
    ensures selection.Classic? ==> Selected(table, selection) == CLASSIC_IDS
    ensures selection.All? ==> Selected(table, selection) == CLASSIC_IDS + [BenchId.Nstream]
    ensures !selection.Classic? && !selection.All? ==> Selected(table, selection) == [selection]
  {
    SixEntries(selection, table);
  }

  lemma RunOneId(id: BenchId, s: real, n: nat, g: Gold)
    ensures RunGold([id], s, n, g) == StepGold(id, s, n, g)
  {
    RunGoldSnoc([], id, s, n, g);
    assert [] + [id] == [id];
  }

  /** One classic round depends on a alone. */
  function ClassicRound(s: real, n: nat, a: real): Gold {
    Gold(Factor(s) * a, s * a, (1.0 + s) * a, Factor(s) * a * (s * a) * n as real)
  }

  lemma ClassicSteps(s: real, n: nat, g: Gold)
    ensures RunGold(CLASSIC_IDS, s, n, g) ==
            StepGold(BenchId.Dot, s, n, StepGold(BenchId.Triad, s, n, StepGold(BenchId.Add, s, n,
              StepGold(BenchId.Mul, s, n, StepGold(BenchId.Copy, s, n, g)))))
  {
    var ids := CLASSIC_IDS;
    RunOneId(BenchId.Copy, s, n, g);
    RunGoldSnoc(ids[..1], BenchId.Mul, s, n, g);
    RunGoldSnoc(ids[..2], BenchId.Add, s, n, g);
    RunGoldSnoc(ids[..3], BenchId.Triad, s, n, g);
    RunGoldSnoc(ids[..4], BenchId.Dot, s, n, g);
    assert ids[..1] == [BenchId.Copy] && ids[..1] + [BenchId.Mul] == ids[..2] && ids[..2] + [BenchId.Add] == ids[..3];
    assert ids[..3] + [BenchId.Triad] == ids[..4] && ids[..4] + [BenchId.Dot] == ids;
  }

  lemma ClassicArithmetic(s: real, a: real, c: real)
    requires c == a + s * a
    ensures c == (1.0 + s) * a
    ensures s * a + s * c == Factor(s) * a
  {
    assert s * c == s * a + s * (s * a);
  }

  lemma OneClassicRound(s: real, n: nat, g: Gold)
    ensures RunGold(CLASSIC_IDS, s, n, g) == ClassicRound(s, n, g.a)
  {
    ClassicSteps(s, n, g);
    var g1 := StepGold(BenchId.Copy, s, n, g);
    var g2 := StepGold(BenchId.Mul, s, n, g1);
    var g3 := StepGold(BenchId.Add, s, n, g2);
    ClassicArithmetic(s, g.a, g3.c);
    LastTwoSteps(s, n, g3, g.a);
  }

  lemma LastTwoSteps(s: real, n: nat, g: Gold, a: real)
    requires g.b == s * a && g.c == (1.0 + s) * a && g.b + s * g.c == Factor(s) * a
    ensures StepGold(BenchId.Dot, s, n, StepGold(BenchId.Triad, s, n, g)) == ClassicRound(s, n, a)
  {
  }

  /** The run multiplies a by f. */
  ghost predicate Scales(ids: seq<BenchId>, s: real, n: nat, f: real) {
    forall h: Gold {:trigger RunGold(ids, s, n, h)} :: RunGold(ids, s, n, h).a == f * h.a
  }

  /** The run adds inc to a and changes nothing else, while b and c are as given. */
  ghost predicate Adds(ids: seq<BenchId>, s: real, n: nat, b: real, c: real, inc: real) {
    forall h: Gold {:trigger RunGold(ids, s, n, h)} | h.b == b && h.c == c :: RunGold(ids, s, n, h) == h.(a := h.a + inc)
  }

  function Iterate(round: Gold -> Gold, k: nat, g: Gold): Gold {
    if k == 0 then g else round(Iterate(round, k - 1, g))
  }

  lemma {:induction false} RepeatIsIterate(ids: seq<BenchId>, s: real, n: nat, g: Gold, round: Gold -> Gold, k: nat)
    requires forall h: Gold {:trigger round(h)} :: round(h) == RunGold(ids, s, n, h)
    ensures RunGold(Repeat(ids, k), s, n, g) == Iterate(round, k, g)
  {
    if k > 0 {
      RepeatIsIterate(ids, s, n, g, round, k - 1);
      RunGoldAppend(Repeat(ids, k - 1), ids, s, n, g);
    }
  }

  lemma {:induction false} IterateScales(round: Gold -> Gold, f: real, k: nat, g: Gold)
    requires forall h: Gold {:trigger round(h)} :: round(h).a == f * h.a
    ensures Iterate(round, k, g).a == Geometric(f, k, g.a)
  {
    if k > 0 { IterateScales(round, f, k - 1, g); }
  }

  lemma RepeatScales(ids: seq<BenchId>, s: real, n: nat, g: Gold, f: real, k: nat)
    requires Scales(ids, s, n, f)
    ensures RunGold(Repeat(ids, k), s, n, g).a == Geometric(f, k, g.a)
  {
    var round := (h: Gold) => RunGold(ids, s, n, h);
    RepeatIsIterate(ids, s, n, g, round, k);
    IterateScales(round, f, k, g);
  }

  lemma {:induction false} RepeatAdds(ids: seq<BenchId>, s: real, n: nat, g: Gold, inc: real, k: nat)
    requires Adds(ids, s, n, g.b, g.c, inc)
    ensures RunGold(Repeat(ids, k), s, n, g) == g.(a := Linear(g.a, inc, k))
  {
    if k > 0 {
      RepeatAdds(ids, s, n, g, inc, k - 1);
      RunGoldAppend(Repeat(ids, k - 1), ids, s, n, g);
    }
  }

  lemma ClassicRounds(s: real, n: nat, start: Gold, k: nat)
    ensures RunGold(Repeat(CLASSIC_IDS, k), s, n, start).a == Geometric(Factor(s), k, start.a)
  {
    forall g: Gold {:trigger RunGold(CLASSIC_IDS, s, n, g)} ensures RunGold(CLASSIC_IDS, s, n, g).a == Factor(s) * g.a {
      OneClassicRound(s, n, g);
    }
    RepeatScales(CLASSIC_IDS, s, n, start, Factor(s), k);
  }

  /** After k >= 1 classic rounds a is Factor^k of its start, and b, c and the last
      dot are those of one round from Factor^(k-1) of it (see GeometricIsPow). */
  lemma ClassicClosedForm(s: real, n: nat, start: Gold, k: nat)
    requires k >= 1
    ensures var g := Final(BenchId.Classic, InTurn, k, s, n, start);
            && g == ClassicRound(s, n, Geometric(Factor(s), k - 1, start.a))
            && g.a == Geometric(Factor(s), k, start.a)
  {
    SelectedIds(BenchId.Classic, BENCH);
    RunGoldAppend(Repeat(CLASSIC_IDS, k - 1), CLASSIC_IDS, s, n, start);
    OneClassicRound(s, n, RunGold(Repeat(CLASSIC_IDS, k - 1), s, n, start));
    ClassicRounds(s, n, start, k - 1);
    ClassicRounds(s, n, start, k);
  }

  /** At the end of a classic run the gold sum is the one recomputed from the
      final a and b, as the Rust check does. */
  lemma ClassicFinalDot(s: real, n: nat, start: Gold, k: nat)
    requires k >= 1
    ensures var g := Final(BenchId.Classic, InTurn, k, s, n, start);
            g.s == g.a * g.b * n as real
  {
    ClassicClosedForm(s, n, start, k);
    RoundDot(s, n, Geometric(Factor(s), k - 1, start.a));
  }

  lemma RoundDot(s: real, n: nat, a: real)
    ensures var g := ClassicRound(s, n, a);
            g.s == g.a * g.b * n as real
  {
  }

  /** With the benchmark's own scalar the classic values stay positive and shrink
      every round. */
  lemma {:induction false} ClassicDecays(n: nat, start: Gold, k: nat)
    requires start.a > 0.0
    ensures var now, next := Final(BenchId.Classic, InTurn, k, START_SCALAR, n, start),
                             Final(BenchId.Classic, InTurn, k + 1, START_SCALAR, n, start);
            0.0 < next.a < now.a <= start.a
  {
    SelectedIds(BenchId.Classic, BENCH);
    assert Factor(START_SCALAR) == 0.96;
    ClassicRounds(START_SCALAR, n, start, k);
    ClassicRounds(START_SCALAR, n, start, k + 1);
    if k > 0 { ClassicDecays(n, start, k - 1); }
  }

  /** After a classic round, nstream would add exactly a. */
  lemma NstreamAfterRound(s: real, n: nat, a: real)
    ensures var g := ClassicRound(s, n, a);
            g.b + s * g.c == g.a
  {
    assert s * ((1.0 + s) * a) == s * a + s * s * a;
  }

  lemma OneFullRound(s: real, n: nat, g: Gold, f: real)
    requires f == 2.0 * Factor(s)
    ensures RunGold(CLASSIC_IDS + [BenchId.Nstream], s, n, g).a == f * g.a
  {
    RunGoldSnoc(CLASSIC_IDS, BenchId.Nstream, s, n, g);
    OneClassicRound(s, n, g);
    NstreamAfterRound(s, n, g.a);
    Assoc(2.0, Factor(s), g.a);
  }

  lemma FullRounds(s: real, n: nat, start: Gold, f: real, k: nat)
    requires f == 2.0 * Factor(s)
    ensures RunGold(Repeat(CLASSIC_IDS + [BenchId.Nstream], k), s, n, start).a == Geometric(f, k, start.a)
  {
    forall g: Gold {:trigger RunGold(CLASSIC_IDS + [BenchId.Nstream], s, n, g)}
      ensures RunGold(CLASSIC_IDS + [BenchId.Nstream], s, n, g).a == f * g.a
    {
      OneFullRound(s, n, g, f);
    }
    RepeatScales(CLASSIC_IDS + [BenchId.Nstream], s, n, start, f, k);
  }

  /** All kernels in turn: nstream doubles a after each classic round. */
  lemma AllInTurnClosedForm(s: real, n: nat, start: Gold, k: nat)
    ensures Final(BenchId.All, InTurn, k, s, n, start).a == Geometric(2.0 * Factor(s), k, start.a)
  {
    SelectedIds(BenchId.All, BENCH);
    FullRounds(s, n, start, 2.0 * Factor(s), k);
  }

  lemma StepTwice(id: BenchId, s: real, n: nat, g: Gold)
    requires !id.Nstream?
    ensures StepGold(id, s, n, StepGold(id, s, n, g)) == StepGold(id, s, n, g)
  {
    match id
    case Copy =>
    case Mul =>
    case Add =>
    case Triad =>
    case Dot =>
    case _ =>
  }

  /** A kernel that does not read its target settles after one run. */
  lemma {:induction false} RepeatSettles(id: BenchId, s: real, n: nat, g: Gold, h: Gold, k: nat)
    requires k >= 1 && h == StepGold(id, s, n, g) && h == StepGold(id, s, n, h)
    ensures RunGold(Repeat([id], k), s, n, g) == h
  {
    RunGoldSnoc(Repeat([id], k - 1), id, s, n, g);
    if k > 1 { RepeatSettles(id, s, n, g, h, k - 1); }
  }

  lemma {:induction false} EachSettles(ids: seq<BenchId>, s: real, n: nat, g: Gold, k: nat)
    requires k >= 1 && BenchId.Nstream !in ids
    ensures RunGold(Each(ids, k), s, n, g) == RunGold(ids, s, n, g)
  {
    if |ids| > 0 {
      var last := |ids| - 1;
      EachSettles(ids[..last], s, n, g, k);
      RunGoldAppend(Each(ids[..last], k), Repeat([ids[last]], k), s, n, g);
      var before := RunGold(ids[..last], s, n, g);
      StepTwice(ids[last], s, n, before);
      RepeatSettles(ids[last], s, n, before, StepGold(ids[last], s, n, before), k);
    }
  }

  /** Run in isolation, the classic kernels end as after a single round, however
      often each is repeated. */
  lemma IsolatedClassic(s: real, n: nat, start: Gold, k: nat)
    requires k >= 1
    ensures Final(BenchId.Classic, Isolated, k, s, n, start) == ClassicRound(s, n, start.a)
  {
    SelectedIds(BenchId.Classic, BENCH);
    EachSettles(CLASSIC_IDS, s, n, start, k);
    OneClassicRound(s, n, start);
  }

  lemma NstreamAdds(s: real, n: nat, b: real, c: real, inc: real)
    requires inc == b + s * c
    ensures Adds([BenchId.Nstream], s, n, b, c, inc)
  {
    forall h: Gold {:trigger RunGold([BenchId.Nstream], s, n, h)} | h.b == b && h.c == c
      ensures RunGold([BenchId.Nstream], s, n, h) == h.(a := h.a + inc)
    {
      RunOneId(BenchId.Nstream, s, n, h);
    }
  }

  lemma NstreamRepeats(s: real, n: nat, g: Gold, inc: real, k: nat)
    requires inc == g.b + s * g.c
    ensures RunGold(Repeat([BenchId.Nstream], k), s, n, g) == g.(a := Linear(g.a, inc, k))
  {
    NstreamAdds(s, n, g.b, g.c, inc);
    RepeatAdds([BenchId.Nstream], s, n, g, inc, k);
  }

  /** Run in isolation, all kernels end with a grown linearly by nstream. */
  lemma IsolatedAll(s: real, n: nat, start: Gold, g: Gold, k: nat)
    requires k >= 1 && g == ClassicRound(s, n, start.a)
    ensures Final(BenchId.All, Isolated, k, s, n, start).a == (k + 1) as real * g.a
  {
    IsolatedAllRuns(s, n, start, k);
    NstreamAfterRound(s, n, start.a);
    GrowsFromRound(s, n, g, k);
  }

  lemma GrowsFromRound(s: real, n: nat, g: Gold, k: nat)
    requires g.a == g.b + s * g.c
    ensures RunGold(Repeat([BenchId.Nstream], k), s, n, g).a == (k + 1) as real * g.a
  {
    NstreamRepeats(s, n, g, g.a, k);
    LinearSelf(g.a, k);
  }

  lemma IsolatedAllRuns(s: real, n: nat, start: Gold, k: nat)
    requires k >= 1
    ensures Final(BenchId.All, Isolated, k, s, n, start) ==
            RunGold(Repeat([BenchId.Nstream], k), s, n, ClassicRound(s, n, start.a))
  {
    SelectedIds(BenchId.All, BENCH);
    EachSnoc(CLASSIC_IDS, BenchId.Nstream, k);
    RunGoldAppend(Each(CLASSIC_IDS, k), Repeat([BenchId.Nstream], k), s, n, start);
    EachSettles(CLASSIC_IDS, s, n, start, k);
    OneClassicRound(s, n, start);
  }

  lemma {:induction false} EachOne(id: BenchId, k: nat)
    ensures Each([id], k) == Repeat([id], k)
  {
    assert [] + Repeat([id], k) == Repeat([id], k);
    EachSnoc([], id, k);
    assert [] + [id] == [id];
  }

  /** Nstream alone grows a linearly, in either order (see LinearIsScaled). */
  lemma NstreamAlone(s: real, n: nat, start: Gold, order: Order, k: nat)
    ensures Final(BenchId.Nstream, order, k, s, n, start) ==
            start.(a := Linear(start.a, start.b + s * start.c, k))
  {
    SelectedIds(BenchId.Nstream, BENCH);
    EachOne(BenchId.Nstream, k);
    NstreamRepeats(s, n, start, start.b + s * start.c, k);
  }

  // ----- when the check speaks

  predicate RunsDot(selection: BenchId) {
    selection.All? || selection.Classic? || selection.Dot?
  }

  lemma PositiveProduct(x: real, y: real)
    requires x > 0.0 && y > 0.0
    ensures x * y > 0.0
  {
  }

  lemma {:induction false} GeometricPositive(x: real, k: nat, a: real)
    requires x > 0.0 && a > 0.0
    ensures Geometric(x, k, a) > 0.0
  {
    if k > 0 {
      GeometricPositive(x, k - 1, a);
      PositiveProduct(x, Geometric(x, k - 1, a));
    }
  }

  lemma RoundPositive(s: real, n: nat, a: real)
    requires s > 0.0 && a > 0.0 && n >= 1
    ensures ClassicRound(s, n, a).s > 0.0
  {
    PositiveProduct(s, s);
    PositiveProduct(Factor(s), a);
    PositiveProduct(s, a);
    PositiveProduct(Factor(s) * a, s * a);
    PositiveProduct(Factor(s) * a * (s * a), n as real);
  }

  lemma FullRoundDot(s: real, n: nat, g: Gold)
    ensures RunGold(CLASSIC_IDS + [BenchId.Nstream], s, n, g).s == ClassicRound(s, n, g.a).s
  {
    RunGoldSnoc(CLASSIC_IDS, BenchId.Nstream, s, n, g);
    OneClassicRound(s, n, g);
  }

  lemma ClassicDotPositive(s: real, n: nat, start: Gold, order: Order, k: nat)
    requires s > 0.0 && start.a > 0.0 && n >= 1 && k >= 1
    ensures Final(BenchId.Classic, order, k, s, n, start).s > 0.0
  {
    PositiveProduct(s, s);
    match order
    case InTurn =>
      ClassicClosedForm(s, n, start, k);
      GeometricPositive(Factor(s), k - 1, start.a);
      RoundPositive(s, n, Geometric(Factor(s), k - 1, start.a));
    case Isolated =>
      IsolatedClassic(s, n, start, k);
      RoundPositive(s, n, start.a);
  }

  lemma AllInTurnDotPositive(s: real, n: nat, start: Gold, k: nat)
    requires s > 0.0 && start.a > 0.0 && n >= 1 && k >= 1
    ensures Final(BenchId.All, InTurn, k, s, n, start).s > 0.0
  {
    SelectedIds(BenchId.All, BENCH);
    var ids := CLASSIC_IDS + [BenchId.Nstream];
    var before := RunGold(Repeat(ids, k - 1), s, n, start);
    RunGoldAppend(Repeat(ids, k - 1), ids, s, n, start);
    FullRounds(s, n, start, 2.0 * Factor(s), k - 1);
    PositiveProduct(s, s);
    GeometricPositive(2.0 * Factor(s), k - 1, start.a);
    FullRoundDot(s, n, before);
    RoundPositive(s, n, before.a);
  }

  lemma AllIsolatedDotPositive(s: real, n: nat, start: Gold, k: nat)
    requires s > 0.0 && start.a > 0.0 && n >= 1 && k >= 1
    ensures Final(BenchId.All, Isolated, k, s, n, start).s > 0.0
  {
    var g := ClassicRound(s, n, start.a);
    IsolatedAllRuns(s, n, start, k);
    NstreamRepeats(s, n, g, g.b + s * g.c, k);
    RoundPositive(s, n, start.a);
  }

  lemma DotAlone(s: real, n: nat, start: Gold, order: Order, k: nat)
    requires k >= 1
    ensures Final(BenchId.Dot, order, k, s, n, start) == start.(s := start.a * start.b * n as real)
  {
    SelectedIds(BenchId.Dot, BENCH);
    EachOne(BenchId.Dot, k);
    RepeatSettles(BenchId.Dot, s, n, start, StepGold(BenchId.Dot, s, n, start), k);
  }

  lemma NothingRuns(selection: BenchId, order: Order, s: real, n: nat, start: Gold)
    ensures Final(selection, order, 0, s, n, start) == start
  {
    NoRuns(Selected(BENCH, selection));
  }

  lemma {:induction false} NoRuns(ids: seq<BenchId>)
    ensures Each(ids, 0) == []
  {
    if |ids| > 0 { NoRuns(ids[..|ids| - 1]); }
  }

  /** The gold sum of a benchmark run that has run a dot is positive. */
  lemma FinalDotPositive(selection: BenchId, order: Order, numTimes: nat, n: nat)
    requires RunsDot(selection) && numTimes >= 1 && n >= 1
    ensures Final(selection, order, numTimes, START_SCALAR, n, START).s > 0.0
  {
    match selection
    case Dot =>
      DotAlone(START_SCALAR, n, START, order, numTimes);
      PositiveProduct(START_A * START_B, n as real);
    case Classic => ClassicDotPositive(START_SCALAR, n, START, order, numTimes);
    case All =>
      match order
      case InTurn => AllInTurnDotPositive(START_SCALAR, n, START, numTimes);
      case Isolated => AllIsolatedDotPositive(START_SCALAR, n, START, numTimes);
  }

  lemma DotIsSelected(selection: BenchId, table: seq<Benchmark>)
    requires table == BENCH
    ensures BenchId.Dot in Selected(table, selection) <==> RunsDot(selection)
  {
    SelectedIds(selection, table);
    assert CLASSIC_IDS[4] == BenchId.Dot;
  }

  /** A benchmark run passes its check if it runs no dot, or no kernel at all, or
      if the elements its dot leaves out are within tolerance. */
  predicate Passes(selection: BenchId, numTimes: nat, counted: nat, n: nat, epsilon: real) {
    !RunsDot(selection) || numTimes == 0 || Tolerated(counted, n, epsilon)
  }

  lemma PassesIff(selection: BenchId, order: Order, numTimes: nat, counted: nat, n: nat, epsilon: real)
    requires RunsDot(selection) && counted <= n && epsilon >= 0.0
    ensures Final(selection, order, numTimes, START_SCALAR, n, START).s == 0.0 || Tolerated(counted, n, epsilon) <==>
            Passes(selection, numTimes, counted, n, epsilon)
  {
    if numTimes == 0 {
      NothingRuns(selection, order, START_SCALAR, n, START);
    } else if n >= 1 {
      FinalDotPositive(selection, order, numTimes, n);
    } else {
      NothingLost(epsilon);
    }
  }

  lemma NothingLost(epsilon: real)
    ensures Tolerated(0, 0, epsilon)
  {
  }

  lemma NoneLost(n: nat, epsilon: real)
    requires epsilon >= 0.0
    ensures Tolerated(n, n, epsilon)
  {
    NonNegativeProduct(n as real, epsilon * 10000000.0);
  }

  /** In double precision, on arrays up to that length, a run that includes a manual
      dot passes exactly when the launch is the dot product on all arrays. */
  lemma DoublePassesIff(selection: BenchId, numTimes: nat, launch: Launch)
    requires RunsDot(selection) && numTimes >= 1 && launch.Valid() && launch.n <= 450359962
    ensures Passes(selection, numTimes, CountOf(Manual(launch), launch.n), launch.n, DOUBLE_EPSILON) <==>
            ExactLaunch(launch)
  {
    DoubleToleratesIff(CountedElements(launch), launch.n);
    AllCountedIff(launch);
  }

  /** The whole program on its own table: the check fails exactly when a dot ran
      and lost more elements than the tolerance lets pass. */
  method RunBench(stream: Stream, table: seq<Benchmark>, selection: BenchId, order: Order, numTimes: nat,
                  clock: (nat, nat) -> real, epsilon: real, silenceErrors: bool)
    returns (timings: seq<seq<real>>, sum: real, failed: nat, exit: bool)
    requires table == BENCH && epsilon >= 0.0 && stream.Valid() && stream.SuitedFor(table, selection)
    requires stream.Contents() == Uniform(stream.arraySize, START_A, START_B, START_C)
    requires stream.scalar == START_SCALAR
    modifies stream, stream.a, stream.b, stream.c
    ensures stream.Valid() && TimingsOk(table, selection, order, numTimes, clock, timings)
    ensures var g := Final(selection, order, numTimes, START_SCALAR, stream.arraySize, START);
            && stream.Contents() == Uniform(stream.arraySize, g.a, g.b, g.c)
            && Proportional(sum, g.s, CountOf(stream.mode, stream.arraySize), stream.arraySize)
    ensures failed == 0 <==>
            Passes(selection, numTimes, CountOf(stream.mode, stream.arraySize), stream.arraySize, epsilon)
    ensures exit <==> failed > 0 && !silenceErrors
  {
    TableOk(table);
    DotIsSelected(selection, table);
    timings, sum, failed, exit :=
      RunAndCheck(stream, table, selection, order, numTimes, clock, epsilon, silenceErrors);
    if RunsDot(selection) {
      PassesIff(selection, order, numTimes, CountOf(stream.mode, stream.arraySize), stream.arraySize, epsilon);
    }
  }

  // ----- the default run, in numbers

  /** After k classic rounds from 0.1, 0.2, 0.0 with scalar 0.4 a is (24/25)^k / 10,
      and b, c and the last dot follow from the a before the last round. */
  lemma DefaultClassic(n: nat, k: nat)
    ensures Final(BenchId.Classic, InTurn, k, START_SCALAR, n, START).a == Pow(24.0 / 25.0, k) * 0.1
    ensures k >= 1 ==>
              var g, a := Final(BenchId.Classic, InTurn, k, START_SCALAR, n, START), Pow(24.0 / 25.0, k - 1) * 0.1;
              g.b == 0.4 * a && g.c == 1.4 * a && g.s == (0.96 * a) * (0.4 * a) * n as real
  {
    assert Factor(START_SCALAR) == 24.0 / 25.0;
    GeometricIsPow(24.0 / 25.0, k, 0.1);
    if k == 0 {
      NothingRuns(BenchId.Classic, InTurn, START_SCALAR, n, START);
    } else {
      ClassicClosedForm(START_SCALAR, n, START, k);
      GeometricIsPow(24.0 / 25.0, k - 1, 0.1);
    }
  }

  /** Run alone, nstream adds 0.2 every time, and the dot of the initial arrays is a
      fiftieth of the length. */
  lemma DefaultAlone(n: nat, order: Order, k: nat)
    requires k >= 1
    ensures Final(BenchId.Nstream, order, k, START_SCALAR, n, START) == Gold(0.1 + k as real * 0.2, 0.2, 0.0, 0.0)
    ensures Final(BenchId.Dot, order, k, START_SCALAR, n, START) == Gold(0.1, 0.2, 0.0, 0.02 * n as real)
  {
    NstreamAlone(START_SCALAR, n, START, order, k);
    LinearIsScaled(0.1, 0.2, k);
    DotAlone(START_SCALAR, n, START, order, k);
  }

  lemma TableOk(table: seq<Benchmark>)
    requires table == BENCH
    ensures KernelTable(table)
    ensures forall i, j | 0 <= i < |table| && 0 <= j < |table| && table[i].id == table[j].id :: i == j
  {
  }
}
