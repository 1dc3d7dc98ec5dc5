/** The self-tuning SYCL stream: how it configures itself from the device and the
    environment, and how it searches for faster configurations on its own live
    buffers, for any clock. */
module SyclTuner {
  import opened Sums
  import opened Kernels
  import opened Interleave
  import opened Partition
  import opened Tree
  import opened DotLaunch
  import DotMachine
  import Driver
  import DriverLaws
  import opened Fill

  datatype Device = Device(maxWg: nat, computeUnits: nat, isGpu: bool, isIntelGpu: bool)

  /** An environment variable read as a size. */
  datatype Setting = Unset | Invalid | Number(n: nat) {
    function Or(fallback: nat): nat {
      if Number? && n != 0 then n else fallback
    }
  }

  /** An environment variable read as a flag. */
  datatype Flag = NotSet | Unclear | Yes | No {
    function Or(fallback: bool): bool {
      match this
      case Yes => true
      case No => false
      case _ => fallback
    }
  }

  datatype Env = Env(wg: Setting, copyWg: Setting, mulWg: Setting, addWg: Setting, triadWg: Setting, nstreamWg: Setting,
                     dotGroupsPerCu: Setting, dotManual: Flag, dotWg: Setting, dotUnroll: Setting,
                     streamAutotune: Flag, dotAutotune: Flag, streamTrials: Setting, dotTrials: Setting)

  datatype DotConfig = DotConfig(manual: bool, wg: nat, groups: nat, unroll: nat)

  function AtLeastOne(x: nat): nat {
    if x >= 1 then x else 1
  }

  // ----- the configuration before tuning

  function DefaultWg(d: Device): nat {
    if d.isIntelGpu then 1024 else if d.isGpu then 256 else 64
  }

  function StreamWg(d: Device, env: Env): nat {
    var wg := Min(d.maxWg, env.wg.Or(DefaultWg(d)));
    if wg == 0 then Min(d.maxWg, 1) else wg
  }

  function KernelSetting(env: Env, k: Kernel): Setting {
    match k
    case Copy => env.copyWg
    case Mul => env.mulWg
    case Add => env.addWg
    case Triad => env.triadWg
    case Nstream => env.nstreamWg
  }

  function KernelWg(d: Device, env: Env, k: Kernel): nat {
    var wg := Min(d.maxWg, KernelSetting(env, k).Or(StreamWg(d, env)));
    if wg == 0 then Min(d.maxWg, 1) else wg
  }

  function InitialDot(d: Device, env: Env): DotConfig {
    var perCu := env.dotGroupsPerCu.Or(if d.isGpu || d.isIntelGpu then 8 else 1);
    var wg := Min(d.maxWg, env.dotWg.Or(StreamWg(d, env)));
    DotConfig(env.dotManual.Or(d.isIntelGpu),
              if wg == 0 then Min(d.maxWg, 1) else wg,
              AtLeastOne(d.computeUnits * perCu),
              env.dotUnroll.Or(if d.isIntelGpu then 4 else 1))
  }

  function DotSumCapacity(d: Device, env: Env): nat {
    var groups := InitialDot(d, env).groups;
    var most := AtLeastOne(d.computeUnits) * 32;
    if groups >= most then groups else most
  }

  /** The configuration before tuning fits the device and the buffer. */
  lemma ConfigurationFits(d: Device, env: Env)
    requires d.maxWg >= 1
    ensures 1 <= StreamWg(d, env) <= d.maxWg
    ensures forall k: Kernel :: 1 <= KernelWg(d, env, k) <= d.maxWg
    ensures var p := InitialDot(d, env);
            1 <= p.wg <= d.maxWg && 1 <= p.groups <= DotSumCapacity(d, env) && p.unroll >= 1
    ensures DotSumCapacity(d, env) >= 32 && DotSumCapacity(d, env) >= d.computeUnits * 32
    ensures DotSumCapacity(d, env) in {InitialDot(d, env).groups, 32, d.computeUnits * 32}
  {
  }

  /** The setting names a size; unset, unreadable and zero ones do not. */
  predicate Asks(s: Setting) {
    s.Number? && s.n >= 1
  }

  /** A size asked for, for the stream, for any of its kernels or for the dot, is
      used when the device can take it and cut to the limit when not; where none is
      asked for, kernels and dot take the stream size and the stream its default. */
  lemma OverridesHonoured(d: Device, env: Env)
    requires d.maxWg >= 1
    ensures StreamWg(d, env) ==
            Min(d.maxWg, if Asks(env.wg) then env.wg.n else if d.isIntelGpu then 1024 else if d.isGpu then 256 else 64)
    ensures KernelWg(d, env, Copy) == if Asks(env.copyWg) then Min(d.maxWg, env.copyWg.n) else StreamWg(d, env)
    ensures KernelWg(d, env, Mul) == if Asks(env.mulWg) then Min(d.maxWg, env.mulWg.n) else StreamWg(d, env)
    ensures KernelWg(d, env, Add) == if Asks(env.addWg) then Min(d.maxWg, env.addWg.n) else StreamWg(d, env)
    ensures KernelWg(d, env, Triad) == if Asks(env.triadWg) then Min(d.maxWg, env.triadWg.n) else StreamWg(d, env)
    ensures KernelWg(d, env, Nstream) == if Asks(env.nstreamWg) then Min(d.maxWg, env.nstreamWg.n) else StreamWg(d, env)
    ensures InitialDot(d, env).wg == if Asks(env.dotWg) then Min(d.maxWg, env.dotWg.n) else StreamWg(d, env)
    ensures InitialDot(d, env).unroll ==
            if Asks(env.dotUnroll) then env.dotUnroll.n else if d.isIntelGpu then 4 else 1
    ensures var groups := d.computeUnits * if Asks(env.dotGroupsPerCu) then env.dotGroupsPerCu.n
                                           else if d.isGpu || d.isIntelGpu then 8 else 1;
            InitialDot(d, env).groups == if groups >= 1 then groups else 1
    ensures InitialDot(d, env).manual <==> env.dotManual.Yes? || (!env.dotManual.No? && d.isIntelGpu)
  {
  }

  predicate UserPinnedDot(env: Env) {
    !env.dotWg.Unset? || !env.dotGroupsPerCu.Unset? || !env.dotUnroll.Unset? || !env.dotManual.NotSet?
  }

  /** Nothing in the environment changes the size of a work group or the unrolling. */
  predicate NoSizeOverrides(env: Env) {
    !Asks(env.wg) && !Asks(env.dotWg) && !Asks(env.dotUnroll)
  }

  predicate TunesStream(env: Env) {
    env.streamAutotune.Or(false)
  }

  predicate TunesDot(d: Device, env: Env) {
    env.dotAutotune.Or(d.isIntelGpu && !UserPinnedDot(env))
  }

  /** When each search is made: the one of the kernels only when asked for; the one of
      the dot when asked for, and on an Intel GPU also when nothing about the dot is
      set, the four settings being readable or not. */
  lemma TunesWhen(d: Device, env: Env)
    ensures TunesStream(env) <==> env.streamAutotune.Yes?
    ensures TunesDot(d, env) <==>
            || env.dotAutotune.Yes?
            || (!env.dotAutotune.No? && d.isIntelGpu && env.dotWg.Unset? && env.dotGroupsPerCu.Unset?
                && env.dotUnroll.Unset? && env.dotManual.NotSet?)
  {
  }

  // ----- candidates

  function Fitting(sizes: seq<nat>, maxWg: nat): seq<nat> {
    if |sizes| == 0 then []
    else
      var rest := Fitting(sizes[..|sizes| - 1], maxWg);
      var last := sizes[|sizes| - 1];
      if last <= maxWg then rest + [last] else rest
  }

  function WgCandidates(sizes: seq<nat>, maxWg: nat, streamWg: nat): seq<nat> {
    var fitting := Fitting(sizes, maxWg);
    if |fitting| == 0 then [Min(maxWg, streamWg)] else fitting
  }

  const STREAM_SIZES: seq<nat> := [128, 256, 512, 1024]
  const DOT_SIZES: seq<nat> := [256, 512, 1024]
  const UNROLLS: seq<nat> := [1, 2, 4]

  function GroupsPerCu(isIntelGpu: bool): seq<nat> {
    if isIntelGpu then [4, 6, 8, 12] else [2, 4, 8]
  }

  lemma {:induction false} FittingIn(sizes: seq<nat>, maxWg: nat)
    ensures forall w: nat | w in Fitting(sizes, maxWg) :: w in sizes && w <= maxWg
  {
    if |sizes| > 0 { FittingIn(sizes[..|sizes| - 1], maxWg); }
  }

  lemma CandidatesOk(sizes: seq<nat>, maxWg: nat, streamWg: nat)
    requires maxWg >= 1 && streamWg >= 1 && forall w: nat | w in sizes :: w >= 1
    ensures forall i | 0 <= i < |WgCandidates(sizes, maxWg, streamWg)| ::
              1 <= WgCandidates(sizes, maxWg, streamWg)[i] <= maxWg
  {
    FittingIn(sizes, maxWg);
    forall i | 0 <= i < |WgCandidates(sizes, maxWg, streamWg)|
      ensures 1 <= WgCandidates(sizes, maxWg, streamWg)[i] <= maxWg
    {
      assert WgCandidates(sizes, maxWg, streamWg)[i] in WgCandidates(sizes, maxWg, streamWg);
    }
  }

  /** Every listed size the device can take is a candidate, and there is always one. */
  lemma {:induction false} FittingComplete(sizes: seq<nat>, maxWg: nat, w: nat)
    requires w in sizes && w <= maxWg
    ensures w in Fitting(sizes, maxWg)
  {
    var last := |sizes| - 1;
    if w == sizes[last] {
      assert Fitting(sizes, maxWg)[|Fitting(sizes[..last], maxWg)|] == w;
    } else {
      var i :| 0 <= i < |sizes| && sizes[i] == w;
      assert sizes[..last][i] == w;
      FittingComplete(sizes[..last], maxWg, w);
    }
  }

  lemma CandidatesComplete(sizes: seq<nat>, maxWg: nat, streamWg: nat, w: nat)
    ensures |WgCandidates(sizes, maxWg, streamWg)| >= 1
    ensures w in sizes && w <= maxWg ==> w in WgCandidates(sizes, maxWg, streamWg)
  {
    if w in sizes && w <= maxWg { FittingComplete(sizes, maxWg, w); }
  }

  lemma FittingNext(sizes: seq<nat>, more: nat, maxWg: nat)
    ensures Fitting(sizes + [more], maxWg) == Fitting(sizes, maxWg) + if more <= maxWg then [more] else []
  {
    assert (sizes + [more])[..|sizes|] == sizes;
  }

  lemma FittingFour(w: nat, x: nat, y: nat, z: nat, maxWg: nat)
    ensures Fitting([w, x, y, z], maxWg) ==
            (if w <= maxWg then [w] else []) + (if x <= maxWg then [x] else []) +
            (if y <= maxWg then [y] else []) + (if z <= maxWg then [z] else [])
  {
    FittingNext([], w, maxWg);
    FittingNext([w], x, maxWg);
    FittingNext([w, x], y, maxWg);
    FittingNext([w, x, y], z, maxWg);
    assert [] + [w] == [w] && [w] + [x] == [w, x] && [w, x] + [y] == [w, x, y] && [w, x, y] + [z] == [w, x, y, z];
  }

  lemma FittingThree(w: nat, x: nat, y: nat, maxWg: nat)
    ensures Fitting([w, x, y], maxWg) ==
            (if w <= maxWg then [w] else []) + (if x <= maxWg then [x] else []) + (if y <= maxWg then [y] else [])
  {
    FittingNext([], w, maxWg);
    FittingNext([w], x, maxWg);
    FittingNext([w, x], y, maxWg);
    assert [] + [w] == [w] && [w] + [x] == [w, x] && [w, x] + [y] == [w, x, y];
  }

  /** The sizes the kernel searches try, in their order. */
  lemma StreamCandidates(maxWg: nat, streamWg: nat)
    requires streamWg <= maxWg
    ensures WgCandidates(STREAM_SIZES, maxWg, streamWg) ==
            if maxWg >= 1024 then [128, 256, 512, 1024] else if maxWg >= 512 then [128, 256, 512]
            else if maxWg >= 256 then [128, 256] else if maxWg >= 128 then [128] else [streamWg]
  {
    FittingFour(128, 256, 512, 1024, maxWg);
  }

  /** The sizes the dot search tries, in their order. */
  lemma DotCandidates(maxWg: nat, streamWg: nat)
    requires streamWg <= maxWg
    ensures WgCandidates(DOT_SIZES, maxWg, streamWg) ==
            if maxWg >= 1024 then [256, 512, 1024] else if maxWg >= 512 then [256, 512]
            else if maxWg >= 256 then [256] else [streamWg]
  {
    FittingThree(256, 512, 1024, maxWg);
  }

  /** The device can take the smallest listed dot size, or the size that stands in is a power of two. */
  predicate PowerCandidates(maxWg: nat, streamWg: nat) {
    maxWg >= 256 || PowerOfTwo(streamWg)
  }

  lemma CandidatesPowers(maxWg: nat, streamWg: nat)
    requires streamWg <= maxWg
    ensures (forall i | 0 <= i < |WgCandidates(DOT_SIZES, maxWg, streamWg)| ::
               PowerOfTwo(WgCandidates(DOT_SIZES, maxWg, streamWg)[i])) <==>
            PowerCandidates(maxWg, streamWg)
    ensures !PowerCandidates(maxWg, streamWg) ==> WgCandidates(DOT_SIZES, maxWg, streamWg) == [streamWg]
  {
    var candidates := WgCandidates(DOT_SIZES, maxWg, streamWg);
    FittingIn(DOT_SIZES, maxWg);
    PowersUpTo1024();
    if maxWg >= 256 {
      assert DOT_SIZES[0] == 256;
      FittingComplete(DOT_SIZES, maxWg, 256);
      forall i | 0 <= i < |candidates| ensures PowerOfTwo(candidates[i]) {
        assert candidates[i] in Fitting(DOT_SIZES, maxWg);
      }
    } else {
      NoneFits(DOT_SIZES, maxWg);
      assert candidates[0] == streamWg;
    }
  }

  lemma NoneFits(sizes: seq<nat>, maxWg: nat)
    requires forall w: nat | w in sizes :: w > maxWg
    ensures Fitting(sizes, maxWg) == []
  {
    FittingIn(sizes, maxWg);
    if |Fitting(sizes, maxWg)| > 0 { assert Fitting(sizes, maxWg)[0] in Fitting(sizes, maxWg); }
  }

  // ----- the search

  /** The largest double, the time to beat at the start: (2^53 - 1) * 2^971. */
  const MAX_TIME: real := 179769313486231570814527423731704356798070567525844996598917476803157260780028538760589558632766878171540458953514382464234321326889464182768467546703537516986049910576551282076245490090389328944075868508455133942304583236903222948165808559332123348274797826204144723168738177180919299881250404026184124858368.0

  /** The j-th measurement of a search that starts at reading `base`. */
  function Reading(clock: nat -> real, base: nat, j: nat): real {
    clock(base + j)
  }

  /** `best` is the first of the fastest probes, with its time; or no probe beat
      the starting time and it is still the initial configuration. */
  ghost predicate Best<T(!new)>(log: seq<T>, clock: nat -> real, base: nat, initial: T, best: T, bestTime: real) {
    || (best == initial && bestTime == MAX_TIME && forall i: nat | i < |log| :: Reading(clock, base, i) >= MAX_TIME)
    || exists j: nat :: FirstFastest(log, clock, base, j, best, bestTime)
  }

  ghost predicate FirstFastest<T(!new)>(log: seq<T>, clock: nat -> real, base: nat, j: nat, best: T, bestTime: real) {
    && j < |log| && log[j] == best && Reading(clock, base, j) == bestTime && bestTime < MAX_TIME
    && (forall i: nat | i < |log| :: bestTime <= Reading(clock, base, i))
    && (forall i: nat | i < j :: bestTime < Reading(clock, base, i))
  }

  /** Keeping the better of the best so far and the next probe, ties to the earlier. */
  lemma BestNext<T(!new)>(log: seq<T>, clock: nat -> real, base: nat, initial: T, best: T, bestTime: real, probe: T)
    requires Best(log, clock, base, initial, best, bestTime)
    ensures var t := Reading(clock, base, |log|);
            Best(log + [probe], clock, base, initial, if t < bestTime then probe else best,
                 if t < bestTime then t else bestTime)
  {
    var t, next := Reading(clock, base, |log|), log + [probe];
    if t < bestTime {
      assert FirstFastest(next, clock, base, |log|, probe, t);
    } else if j: nat :| FirstFastest(log, clock, base, j, best, bestTime) {
      assert FirstFastest(next, clock, base, j, best, bestTime);
    }
  }

  /** What a search ends with, from the times of its probes, the readings from `base` on.
      If any probe took less than 1e308 seconds, it is the first of the fastest; if none
      took less than the largest double, nothing changes. */
  lemma BestMeans<T(!new)>(log: seq<T>, clock: nat -> real, base: nat, initial: T, best: T, bestTime: real,
                           times: seq<real>)
    requires Best(log, clock, base, initial, best, bestTime)
    requires |times| == |log| && forall i: nat | i < |times| :: times[i] == clock(base + i)
    ensures (exists i: nat :: i < |times| && times[i] < 1.0e308) ==>
              exists j: nat :: j < |times| && log[j] == best
                && (forall i: nat | i < |times| :: times[j] <= times[i])
                && (forall i: nat | i < j :: times[j] < times[i])
    ensures (forall i: nat | i < |times| :: times[i] >= 1.8e308) ==> best == initial
  {
    forall i: nat | i < |times| ensures times[i] == Reading(clock, base, i) {
    }
    if j: nat :| FirstFastest(log, clock, base, j, best, bestTime) {
      assert times[j] == bestTime < MAX_TIME;
      forall i: nat | i < |times| ensures times[j] <= times[i] {
        assert bestTime <= Reading(clock, base, i);
      }
      forall i: nat | i < j ensures times[j] < times[i] {
        assert bestTime < Reading(clock, base, i);
      }
    } else {
      forall i: nat | i < |times| ensures times[i] >= MAX_TIME {
        assert Reading(clock, base, i) >= MAX_TIME;
      }
    }
  }

  // ----- the order in which dot configurations are tried

  datatype Search = Search(wgs: seq<nat>, gpcs: seq<nat>, units: nat, capacity: nat)

  function Probe(s: Search, w: nat, g: nat, u: nat): DotConfig
    requires w < |s.wgs| && g < |s.gpcs| && u < |UNROLLS|
  {
    DotConfig(true, s.wgs[w], Min(s.capacity, AtLeastOne(s.units * s.gpcs[g])), UNROLLS[u])
  }

  function ByUnroll(s: Search, w: nat, g: nat, m: nat): seq<DotConfig>
    requires w < |s.wgs| && g < |s.gpcs| && m <= |UNROLLS|
  {
    if m == 0 then [] else ByUnroll(s, w, g, m - 1) + [Probe(s, w, g, m - 1)]
  }

  function ByGroups(s: Search, w: nat, m: nat): seq<DotConfig>
    requires w < |s.wgs| && m <= |s.gpcs|
  {
    if m == 0 then [] else ByGroups(s, w, m - 1) + ByUnroll(s, w, m - 1, |UNROLLS|)
  }

  function ByWg(s: Search, m: nat): seq<DotConfig>
    requires m <= |s.wgs|
  {
    if m == 0 then [] else ByWg(s, m - 1) + ByGroups(s, m - 1, |s.gpcs|)
  }

  /** Every combination is tried. */
  lemma EveryCombinationTried(s: Search, w: nat, g: nat, u: nat)
    requires w < |s.wgs| && g < |s.gpcs| && u < |UNROLLS|
    ensures Probe(s, w, g, u) in ByWg(s, |s.wgs|)
  {
    TriedByUnroll(s, w, g, u, |UNROLLS|);
    TriedByGroups(s, w, g, Probe(s, w, g, u), |s.gpcs|);
    TriedByWg(s, w, Probe(s, w, g, u), |s.wgs|);
  }

  lemma InConcat<T>(p: T, xs: seq<T>, ys: seq<T>)
    requires p in xs || p in ys
    ensures p in xs + ys
  {
    if p in xs {
      var i :| 0 <= i < |xs| && xs[i] == p;
      assert (xs + ys)[i] == p;
    } else {
      var i :| 0 <= i < |ys| && ys[i] == p;
      assert (xs + ys)[|xs| + i] == p;
    }
  }

  lemma {:induction false} TriedByUnroll(s: Search, w: nat, g: nat, u: nat, m: nat)
    requires w < |s.wgs| && g < |s.gpcs| && u < m <= |UNROLLS|
    ensures Probe(s, w, g, u) in ByUnroll(s, w, g, m)
  {
    if u < m - 1 { TriedByUnroll(s, w, g, u, m - 1); }
    InConcat(Probe(s, w, g, u), ByUnroll(s, w, g, m - 1), [Probe(s, w, g, m - 1)]);
  }

  lemma {:induction false} TriedByGroups(s: Search, w: nat, g: nat, p: DotConfig, m: nat)
    requires w < |s.wgs| && g < m <= |s.gpcs| && p in ByUnroll(s, w, g, |UNROLLS|)
    ensures p in ByGroups(s, w, m)
  {
    if g < m - 1 { TriedByGroups(s, w, g, p, m - 1); }
    InConcat(p, ByGroups(s, w, m - 1), ByUnroll(s, w, m - 1, |UNROLLS|));
  }

  lemma {:induction false} TriedByWg(s: Search, w: nat, p: DotConfig, m: nat)
    requires w < m <= |s.wgs| && p in ByGroups(s, w, |s.gpcs|)
    ensures p in ByWg(s, m)
  {
    if w < m - 1 { TriedByWg(s, w, p, m - 1); }
    InConcat(p, ByWg(s, m - 1), ByGroups(s, m - 1, |s.gpcs|));
  }

  // ----- where each combination is tried

  lemma {:induction false} UnrollAt(s: Search, w: nat, g: nat, u: nat, m: nat)
    requires w < |s.wgs| && g < |s.gpcs| && m <= |UNROLLS|
    ensures |ByUnroll(s, w, g, m)| == m
    ensures u < m ==> ByUnroll(s, w, g, m)[u] == Probe(s, w, g, u)
  {
    if m > 0 { UnrollAt(s, w, g, u, m - 1); }
  }

  lemma {:induction false} GroupsLength(s: Search, w: nat, m: nat)
    requires w < |s.wgs| && m <= |s.gpcs|
    ensures |ByGroups(s, w, m)| == m * 3
  {
    if m > 0 {
      GroupsLength(s, w, m - 1);
      UnrollAt(s, w, m - 1, 0, |UNROLLS|);
    }
  }

  lemma AtConcat<T>(xs: seq<T>, ys: seq<T>, i: nat)
    ensures i < |xs| ==> (xs + ys)[i] == xs[i]
    ensures i < |ys| ==> (xs + ys)[|xs| + i] == ys[i]
  {
  }

  lemma {:induction false} GroupsAt(s: Search, w: nat, g: nat, u: nat, m: nat)
    requires w < |s.wgs| && g < m <= |s.gpcs| && u < 3
    ensures |ByGroups(s, w, m)| == m * 3
    ensures ByGroups(s, w, m)[g * 3 + u] == Probe(s, w, g, u)
  {
    GroupsLength(s, w, m);
    GroupsLength(s, w, m - 1);
    UnrollAt(s, w, m - 1, u, |UNROLLS|);
    if g < m - 1 {
      GroupsAt(s, w, g, u, m - 1);
      AtConcat(ByGroups(s, w, m - 1), ByUnroll(s, w, m - 1, |UNROLLS|), g * 3 + u);
    } else {
      AtConcat(ByGroups(s, w, m - 1), ByUnroll(s, w, m - 1, |UNROLLS|), u);
    }
  }

  lemma {:induction false} WgAt(s: Search, w: nat, g: nat, u: nat, m: nat, row: nat)
    requires m <= |s.wgs| && u < 3 && row == |s.gpcs| * 3
    ensures |ByWg(s, m)| == m * row
    ensures w < m && g < |s.gpcs| ==> w * row + (g * 3 + u) < m * row
    ensures w < m && g < |s.gpcs| ==> ByWg(s, m)[w * row + (g * 3 + u)] == Probe(s, w, g, u)
  {
    if m > 0 {
      WgAt(s, w, g, u, m - 1, row);
      GroupsLength(s, m - 1, |s.gpcs|);
      if g < |s.gpcs| { GroupsAt(s, m - 1, g, u, |s.gpcs|); }
      assert m * row == (m - 1) * row + row;
    }
  }

  /** The dot search, probe by probe: first the native reduction with the sizes as they
      are; then for each candidate size, for each number of groups, unrolling once,
      twice and four times. Readings count in the same order. */
  lemma SearchAt(d: Device, streamWg: nat, capacity: nat, initial: DotConfig, w: nat, g: nat, u: nat)
    requires w < |WgCandidates(DOT_SIZES, d.maxWg, streamWg)| && g < (if d.isIntelGpu then 4 else 3) && u < 3
    ensures var log, groups := SearchOrder(SearchOf(d, streamWg, capacity), initial), if d.isIntelGpu then 4 else 3;
            var units, j := if d.computeUnits >= 1 then d.computeUnits else 1, 1 + w * (groups * 3) + (g * 3 + u);
            && |log| == 1 + |WgCandidates(DOT_SIZES, d.maxWg, streamWg)| * (groups * 3)
            && log[0] == DotConfig(false, initial.wg, initial.groups, initial.unroll)
            && j < |log|
            && log[j] == DotConfig(true, WgCandidates(DOT_SIZES, d.maxWg, streamWg)[w],
                                   Min(capacity, units * (if d.isIntelGpu then [4, 6, 8, 12][g] else [2, 4, 8][g])),
                                   [1, 2, 4][u])
  {
    var s := SearchOf(d, streamWg, capacity);
    WgAt(s, w, g, u, |s.wgs|, |s.gpcs| * 3);
    GroupCount(d, g);
  }

  lemma GroupCount(d: Device, g: nat)
    requires g < |GroupsPerCu(d.isIntelGpu)|
    ensures var units := if d.computeUnits >= 1 then d.computeUnits else 1;
            AtLeastOne(AtLeastOne(d.computeUnits) * GroupsPerCu(d.isIntelGpu)[g]) == units * GroupsPerCu(d.isIntelGpu)[g]
  {
    assert GroupsPerCu(d.isIntelGpu)[g] >= 1;
  }

  /** A manual probe comes from some combination. */
  lemma {:induction false} UnrollOf(s: Search, w: nat, g: nat, m: nat, p: DotConfig) returns (u: nat)
    requires w < |s.wgs| && g < |s.gpcs| && m <= |UNROLLS| && p in ByUnroll(s, w, g, m)
    ensures u < |UNROLLS| && p == Probe(s, w, g, u)
  {
    if p == Probe(s, w, g, m - 1) { u := m - 1; } else { u := UnrollOf(s, w, g, m - 1, p); }
  }

  lemma {:induction false} GroupsOf(s: Search, w: nat, m: nat, p: DotConfig) returns (g: nat, u: nat)
    requires w < |s.wgs| && m <= |s.gpcs| && p in ByGroups(s, w, m)
    ensures g < |s.gpcs| && u < |UNROLLS| && p == Probe(s, w, g, u)
  {
    if p in ByUnroll(s, w, m - 1, |UNROLLS|) {
      g := m - 1;
      u := UnrollOf(s, w, g, |UNROLLS|, p);
    } else {
      g, u := GroupsOf(s, w, m - 1, p);
    }
  }

  lemma {:induction false} CombinationOf(s: Search, m: nat, p: DotConfig) returns (w: nat, g: nat, u: nat)
    requires m <= |s.wgs| && p in ByWg(s, m)
    ensures w < |s.wgs| && g < |s.gpcs| && u < |UNROLLS| && p == Probe(s, w, g, u)
  {
    if p in ByGroups(s, m - 1, |s.gpcs|) {
      w := m - 1;
      g, u := GroupsOf(s, w, |s.gpcs|, p);
    } else {
      w, g, u := CombinationOf(s, m - 1, p);
    }
  }

  /** The manual configurations the dot search tries, exactly: every candidate size, a
      number of groups for each compute unit, and an unrolling. */
  ghost predicate Tried(d: Device, streamWg: nat, p: DotConfig) {
    var units := if d.computeUnits >= 1 then d.computeUnits else 1;
    && p.manual
    && p.wg in (if d.maxWg >= 1024 then {256, 512, 1024} else if d.maxWg >= 512 then {256, 512}
                else if d.maxWg >= 256 then {256} else {streamWg})
    && p.unroll in {1, 2, 4}
    && p.groups in (if d.isIntelGpu then {units * 4, units * 6, units * 8, units * 12}
                    else {units * 2, units * 4, units * 8})
  }

  lemma ProbeTried(d: Device, streamWg: nat, capacity: nat, w: nat, g: nat, u: nat)
    requires streamWg <= d.maxWg && capacity >= 32 && capacity >= d.computeUnits * 32
    requires w < |WgCandidates(DOT_SIZES, d.maxWg, streamWg)| && g < |GroupsPerCu(d.isIntelGpu)| && u < |UNROLLS|
    ensures Tried(d, streamWg, Probe(SearchOf(d, streamWg, capacity), w, g, u))
  {
    DotCandidates(d.maxWg, streamWg);
    GroupCount(d, g);
    assert UNROLLS[u] in {1, 2, 4};
    assert GroupsPerCu(d.isIntelGpu)[g] in (if d.isIntelGpu then {4, 6, 8, 12} else {2, 4, 8});
    assert GroupsPerCu(d.isIntelGpu)[g] <= 12;
  }

  /** The manual probes of a stream with the configured buffer are those, and no others. */
  lemma SearchTriesIff(d: Device, env: Env, streamWg: nat, p: DotConfig)
    requires d.maxWg >= 1 && streamWg <= d.maxWg
    ensures var s := SearchOf(d, streamWg, DotSumCapacity(d, env));
            p in ByWg(s, |s.wgs|) <==>
            var units := if d.computeUnits >= 1 then d.computeUnits else 1;
            && p.manual
            && p.wg in (if d.maxWg >= 1024 then {256, 512, 1024} else if d.maxWg >= 512 then {256, 512}
                        else if d.maxWg >= 256 then {256} else {streamWg})
            && p.unroll in {1, 2, 4}
            && p.groups in (if d.isIntelGpu then {units * 4, units * 6, units * 8, units * 12}
                            else {units * 2, units * 4, units * 8})
  {
    var s := SearchOf(d, streamWg, DotSumCapacity(d, env));
    ConfigurationFits(d, env);
    if p in ByWg(s, |s.wgs|) {
      var w, g, u := CombinationOf(s, |s.wgs|, p);
      ProbeTried(d, streamWg, DotSumCapacity(d, env), w, g, u);
    }
    if Tried(d, streamWg, p) {
      var w, g, u := TriedProbe(d, streamWg, DotSumCapacity(d, env), p);
      EveryCombinationTried(s, w, g, u);
    }
  }

  lemma TriedProbe(d: Device, streamWg: nat, capacity: nat, p: DotConfig) returns (w: nat, g: nat, u: nat)
    requires streamWg <= d.maxWg && capacity >= 32 && capacity >= d.computeUnits * 32 && Tried(d, streamWg, p)
    ensures w < |WgCandidates(DOT_SIZES, d.maxWg, streamWg)| && g < |GroupsPerCu(d.isIntelGpu)| && u < |UNROLLS|
    ensures p == Probe(SearchOf(d, streamWg, capacity), w, g, u)
  {
    var units := if d.computeUnits >= 1 then d.computeUnits else 1;
    DotCandidates(d.maxWg, streamWg);
    w := if p.wg == 512 && d.maxWg >= 512 then 1 else if p.wg == 1024 && d.maxWg >= 1024 then 2 else 0;
    u := if p.unroll == 1 then 0 else if p.unroll == 2 then 1 else 2;
    g := if d.isIntelGpu then
           if p.groups == units * 4 then 0 else if p.groups == units * 6 then 1 else if p.groups == units * 8 then 2 else 3
         else
           if p.groups == units * 2 then 0 else if p.groups == units * 4 then 1 else 2;
    GroupCount(d, g);
    assert GroupsPerCu(d.isIntelGpu)[g] <= 12;
  }

  lemma Associate<T>(xs: seq<T>, ys: seq<T>, zs: seq<T>)
    ensures xs + ys + zs == xs + (ys + zs)
  {
  }

  /** Readings used by the kernel searches before the dot search starts. */
  function StreamReadings(d: Device, streamWg: nat, env: Env): nat {
    if TunesStream(env) then 5 * |WgCandidates(STREAM_SIZES, d.maxWg, streamWg)| else 0
  }

  /** Five kernels, one reading for each candidate, if the kernels are searched at all. */
  lemma ReadingsBefore(d: Device, streamWg: nat, env: Env)
    ensures StreamReadings(d, streamWg, env) ==
            if env.streamAutotune.Yes? then 5 * |WgCandidates(STREAM_SIZES, d.maxWg, streamWg)| else 0
  {
    TunesWhen(d, env);
  }

  function SearchOf(d: Device, streamWg: nat, capacity: nat): Search {
    Search(WgCandidates(DOT_SIZES, d.maxWg, streamWg), GroupsPerCu(d.isIntelGpu), AtLeastOne(d.computeUnits), capacity)
  }

  /** The native reduction with the sizes as they are, then every manual combination. */
  function SearchOrder(s: Search, initial: DotConfig): seq<DotConfig> {
    [initial.(manual := false)] + ByWg(s, |s.wgs|)
  }

  /** The order of the kernel searches. */
  function KernelTurn(k: Kernel): nat {
    match k
    case Copy => 0
    case Mul => 1
    case Add => 2
    case Triad => 3
    case Nstream => 4
  }

  const KERNELS: seq<Kernel> := [Copy, Mul, Add, Triad, Nstream]

  function AllKernels(): set<Kernel> {
    {Copy, Mul, Add, Triad, Nstream}
  }

  lemma AllKernelsListed()
    ensures forall k: Kernel :: k in AllKernels()
  {
    forall k: Kernel ensures k in AllKernels() {
      match k
      case Copy =>
      case Mul =>
      case Add =>
      case Triad =>
      case Nstream =>
    }
  }

  /** A kernel's size is the first fastest candidate, or unchanged if none beat the start time. */
  ghost predicate WgTuned(candidates: seq<nat>, clock: nat -> real, base: nat, initial: nat, best: nat) {
    exists bestTime: real :: Best<nat>(candidates, clock, base, initial, best, bestTime)
  }

  /** The sizes after the first i kernel searches. */
  ghost predicate TunedUpTo(candidates: seq<nat>, clock: nat -> real, base: nat, w0: map<Kernel, nat>,
                            w: map<Kernel, nat>, i: nat)
  {
    forall k: Kernel ::
      && k in w0 && k in w
      && if KernelTurn(k) < i then WgTuned(candidates, clock, base + KernelTurn(k) * |candidates|, w0[k], w[k])
         else w[k] == w0[k]
  }

  lemma TurnTaken(candidates: seq<nat>, clock: nat -> real, base: nat, w0: map<Kernel, nat>, before: map<Kernel, nat>,
                  after: map<Kernel, nat>, i: nat)
    requires i < |KERNELS| && TunedUpTo(candidates, clock, base, w0, before, i)
    requires KERNELS[i] in after && after == before[KERNELS[i] := after[KERNELS[i]]]
    requires WgTuned(candidates, clock, base + i * |candidates|, before[KERNELS[i]], after[KERNELS[i]])
    ensures TunedUpTo(candidates, clock, base, w0, after, i + 1)
  {
    assert KernelTurn(KERNELS[i]) == i;
  }

  /** After the five searches each kernel has the first fastest of the same candidates,
      by its own readings. */
  lemma AllTuned(candidates: seq<nat>, clock: nat -> real, base: nat, w0: map<Kernel, nat>, w: map<Kernel, nat>)
    requires TunedUpTo(candidates, clock, base, w0, w, |KERNELS|)
    ensures forall k: Kernel :: k in w0 && k in w
    ensures WgTuned(candidates, clock, base, w0[Copy], w[Copy])
    ensures WgTuned(candidates, clock, base + |candidates|, w0[Mul], w[Mul])
    ensures WgTuned(candidates, clock, base + 2 * |candidates|, w0[Add], w[Add])
    ensures WgTuned(candidates, clock, base + 3 * |candidates|, w0[Triad], w[Triad])
    ensures WgTuned(candidates, clock, base + 4 * |candidates|, w0[Nstream], w[Nstream])
  {
    assert Copy in w && Mul in w && Add in w && Triad in w && Nstream in w;
  }

  ghost predicate DotTuned(log: seq<DotConfig>, clock: nat -> real, base: nat, initial: DotConfig, best: DotConfig) {
    exists bestTime: real :: Best<DotConfig>(log, clock, base, initial, best, bestTime)
  }

  /** How often each candidate of a kernel search is run under the clock. */
  function StreamTrials(d: Device, env: Env): nat {
    env.streamTrials.Or(if d.isIntelGpu then 3 else 2)
  }

  /** How often each probe of the dot search is. */
  function DotTrials(env: Env): nat {
    env.dotTrials.Or(2)
  }

  lemma TrialsAre(d: Device, env: Env)
    ensures StreamTrials(d, env) == if Asks(env.streamTrials) then env.streamTrials.n else if d.isIntelGpu then 3 else 2
    ensures DotTrials(env) == if Asks(env.dotTrials) then env.dotTrials.n else 2
  {
  }

  // ----- the dots that are run

  /** One run of the dot: under which configuration, and what it returned. */
  datatype DotRun = DotRun(config: DotConfig, result: real)

  function LaunchOn(n: nat, p: DotConfig): Launch {
    Launch(n, p.groups, p.wg, p.unroll)
  }

  /** What a dot returns on the arrays of the search. */
  function ProbeDot(n: nat, p: DotConfig): real
    requires LaunchOn(n, p).Valid()
  {
    var u := Uniform(n, 1.0, 2.0, 0.0);
    if p.manual then CountedDot(LaunchOn(n, p), u.a, u.b) else DotProduct(n, u.a, u.b)
  }

  function Copies<T>(times: nat, x: T): (r: seq<T>)
    ensures |r| == times
  {
    seq(times, i => x)
  }

  /** One run of a kernel: which one, and in groups of what size. */
  datatype KernelRun = KernelRun(kernel: Kernel, wg: nat)

  /** The runs of one kernel search: a warm-up and `trials` more for each candidate. */
  function CandidateRuns(k: Kernel, candidates: seq<nat>, trials: nat): seq<KernelRun> {
    if |candidates| == 0 then []
    else CandidateRuns(k, candidates[..|candidates| - 1], trials) +
         Copies(trials + 1, KernelRun(k, candidates[|candidates| - 1]))
  }

  /** The runs of the first i kernel searches. */
  function SearchRuns(i: nat, candidates: seq<nat>, trials: nat): seq<KernelRun>
    requires i <= |KERNELS|
  {
    if i == 0 then [] else SearchRuns(i - 1, candidates, trials) + CandidateRuns(KERNELS[i - 1], candidates, trials)
  }

  /** The five searches, one kernel after another. */
  lemma AllSearchRuns(candidates: seq<nat>, trials: nat)
    ensures SearchRuns(|KERNELS|, candidates, trials) ==
            CandidateRuns(Copy, candidates, trials) + CandidateRuns(Mul, candidates, trials) +
            CandidateRuns(Add, candidates, trials) + CandidateRuns(Triad, candidates, trials) +
            CandidateRuns(Nstream, candidates, trials)
  {
    assert SearchRuns(1, candidates, trials) == CandidateRuns(Copy, candidates, trials);
    assert SearchRuns(2, candidates, trials) ==
           SearchRuns(1, candidates, trials) + CandidateRuns(Mul, candidates, trials);
    assert SearchRuns(3, candidates, trials) ==
           SearchRuns(2, candidates, trials) + CandidateRuns(Add, candidates, trials);
    assert SearchRuns(4, candidates, trials) ==
           SearchRuns(3, candidates, trials) + CandidateRuns(Triad, candidates, trials);
  }

  /** On zeroed arrays every kernel stores zeros. */
  lemma ZerosStay(k: Kernel, scalar: real, n: nat)
    ensures Apply(k, scalar, Uniform(n, 0.0, 0.0, 0.0)) == Uniform(n, 0.0, 0.0, 0.0)
  {
    var m := Uniform(n, 0.0, 0.0, 0.0);
    assert Target(k, Apply(k, scalar, m)) == Target(k, m);
  }

  ghost predicate Launchable(n: nat, log: seq<DotConfig>) {
    forall i: nat | i < |log| :: LaunchOn(n, log[i]).Valid()
  }

  /** The dots that probing the configurations of a log runs: a warm-up and `trials`
      more for each, in the order of the log. */
  ghost function Performed(n: nat, log: seq<DotConfig>, trials: nat): seq<DotRun>
    requires Launchable(n, log)
  {
    if |log| == 0 then []
    else
      var p := log[|log| - 1];
      Performed(n, log[..|log| - 1], trials) + Copies(trials + 1, DotRun(p, ProbeDot(n, p)))
  }

  lemma PerformedNext(n: nat, log: seq<DotConfig>, trials: nat, p: DotConfig)
    requires Launchable(n, log) && LaunchOn(n, p).Valid()
    ensures Launchable(n, log + [p])
    ensures Performed(n, log + [p], trials) ==
            Performed(n, log, trials) + Copies(trials + 1, DotRun(p, ProbeDot(n, p)))
  {
    assert (log + [p])[..|log|] == log;
  }

  /** The search multiplies arrays of ones and twos. */
  lemma ExactProbe(n: nat, p: DotConfig)
    requires LaunchOn(n, p).Valid() && (p.manual ==> ExactLaunch(LaunchOn(n, p)))
    ensures ProbeDot(n, p) == 2.0 * n as real
  {
    var u := Uniform(n, 1.0, 2.0, 0.0);
    UniformDot(n, u.a, u.b, 1.0, 2.0);
    if p.manual { LaunchExactIff(LaunchOn(n, p)); }
  }

  /** All configurations of the log compute the dot product. */
  ghost predicate AllExact(n: nat, log: seq<DotConfig>) {
    forall i: nat | i < |log| && log[i].manual :: LaunchOn(n, log[i]).Valid() && ExactLaunch(LaunchOn(n, log[i]))
  }

  lemma {:induction false} ExactRuns(n: nat, log: seq<DotConfig>, trials: nat)
    requires Launchable(n, log) && AllExact(n, log)
    ensures forall i: nat | i < |Performed(n, log, trials)| :: Performed(n, log, trials)[i].result == 2.0 * n as real
  {
    if |log| > 0 {
      ExactRuns(n, log[..|log| - 1], trials);
      ExactProbe(n, log[|log| - 1]);
    }
  }

  // ----- what the search is worth

  lemma {:induction false} ProbeSizes(s: Search, m: nat)
    requires m <= |s.wgs|
    ensures forall p | p in ByWg(s, m) :: p.wg in s.wgs && p.groups == Min(s.capacity, p.groups) && p.unroll in UNROLLS
  {
    if m > 0 {
      ProbeSizes(s, m - 1);
      GroupProbes(s, m - 1, |s.gpcs|);
    }
  }

  lemma {:induction false} GroupProbes(s: Search, w: nat, m: nat)
    requires w < |s.wgs| && m <= |s.gpcs|
    ensures forall p | p in ByGroups(s, w, m) ::
              p.wg == s.wgs[w] && p.groups == Min(s.capacity, p.groups) && p.unroll in UNROLLS
  {
    if m > 0 {
      GroupProbes(s, w, m - 1);
      UnrollProbes(s, w, m - 1, |UNROLLS|);
    }
  }

  lemma {:induction false} UnrollProbes(s: Search, w: nat, g: nat, m: nat)
    requires w < |s.wgs| && g < |s.gpcs| && m <= |UNROLLS|
    ensures forall p | p in ByUnroll(s, w, g, m) ::
              p.wg == s.wgs[w] && p.groups == Min(s.capacity, p.groups) && p.unroll in UNROLLS
  {
    if m > 0 { UnrollProbes(s, w, g, m - 1); }
  }

  /** Probes unroll too little to lose anything: only their group size matters. */
  lemma ProbeExactIff(n: nat, p: DotConfig)
    requires LaunchOn(n, p).Valid() && p.unroll in UNROLLS
    ensures ExactLaunch(LaunchOn(n, p)) <==> PowerOfTwo(p.wg) || n <= FirstDropped(p.wg)
  {
  }

  lemma ManualProbes(s: Search, initial: DotConfig, i: nat)
    requires i < |SearchOrder(s, initial)|
    ensures SearchOrder(s, initial)[i].manual ==>
              i > 0 && SearchOrder(s, initial)[i] in ByWg(s, |s.wgs|)
  {
    if i > 0 { assert SearchOrder(s, initial)[i] == ByWg(s, |s.wgs|)[i - 1]; }
  }

  /** Every candidate size folds all its lanes, or the one size there is loses
      nothing of n elements. */
  predicate SearchIsExact(n: nat, d: Device, streamWg: nat)
    requires streamWg >= 1
  {
    PowerCandidates(d.maxWg, streamWg) || n <= FirstDropped(streamWg)
  }

  /** Every manual dot of the search computes the dot product, for the n of the
      stream, exactly then. */
  lemma SearchExactIff(n: nat, d: Device, streamWg: nat, capacity: nat, initial: DotConfig)
    requires 1 <= streamWg <= d.maxWg && Launchable(n, SearchOrder(SearchOf(d, streamWg, capacity), initial))
    ensures AllExact(n, SearchOrder(SearchOf(d, streamWg, capacity), initial)) <==>
            SearchIsExact(n, d, streamWg)
  {
    var s := SearchOf(d, streamWg, capacity);
    var log := SearchOrder(s, initial);
    CandidatesPowers(d.maxWg, streamWg);
    ProbeSizes(s, |s.wgs|);
    if SearchIsExact(n, d, streamWg) {
      forall i: nat | i < |log| && log[i].manual ensures ExactLaunch(LaunchOn(n, log[i])) {
        ManualProbes(s, initial, i);
        ProbeExactIff(n, log[i]);
      }
    } else {
      CandidatesComplete(DOT_SIZES, d.maxWg, streamWg, 0);
      EveryCombinationTried(s, 0, 0, 0);
      var j :| 0 <= j < |ByWg(s, |s.wgs|)| && ByWg(s, |s.wgs|)[j] == Probe(s, 0, 0, 0);
      assert log[j + 1] == Probe(s, 0, 0, 0);
      ProbeExactIff(n, log[j + 1]);
    }
  }

  /** Then every dot run during the search returned twice the number of elements. */
  lemma SearchDots(n: nat, d: Device, streamWg: nat, capacity: nat, initial: DotConfig, trials: nat)
    requires 1 <= streamWg <= d.maxWg && Launchable(n, SearchOrder(SearchOf(d, streamWg, capacity), initial))
    requires SearchIsExact(n, d, streamWg)
    ensures var runs := Performed(n, SearchOrder(SearchOf(d, streamWg, capacity), initial), trials);
            forall i: nat | i < |runs| :: runs[i].result == 2.0 * n as real
  {
    SearchExactIff(n, d, streamWg, capacity, initial);
    ExactRuns(n, SearchOrder(SearchOf(d, streamWg, capacity), initial), trials);
  }

  lemma SearchOutcome(n: nat, d: Device, streamWg: nat, capacity: nat, initial: DotConfig, log: seq<DotConfig>,
                      trials: nat, before: seq<DotRun>, after: seq<DotRun>)
    requires 1 <= streamWg <= d.maxWg && Launchable(n, log)
    requires log == SearchOrder(SearchOf(d, streamWg, capacity), initial)
    requires after == before + Performed(n, log, trials)
    ensures AllExact(n, log) <==> SearchIsExact(n, d, streamWg)
    ensures SearchIsExact(n, d, streamWg) ==>
              forall i: nat | |before| <= i < |after| :: after[i].result == 2.0 * n as real
  {
    SearchExactIff(n, d, streamWg, capacity, initial);
    if SearchIsExact(n, d, streamWg) {
      SearchDots(n, d, streamWg, capacity, initial, trials);
      forall i: nat | |before| <= i < |after| ensures after[i].result == 2.0 * n as real {
        assert after[i] == Performed(n, log, trials)[i - |before|];
      }
    }
  }

  class SyclStream {
    const n: nat
    const scalar: real
    const device: Device
    const streamWg: nat
    const a: array<real>
    const b: array<real>
    const c: array<real>
    var wg: map<Kernel, nat>
    var dot: DotConfig
    var dSum: seq<real>
    /** Every dot this stream has run. */
    ghost var dots: seq<DotRun>
    /** Every kernel this stream has run. */
    ghost var runs: seq<KernelRun>

    /** Every configuration is one the device and the buffers can take. */
    ghost predicate Valid()
      reads this
    {
      && a.Length == n && b.Length == n && c.Length == n && a != b && b != c && a != c
      && 1 <= streamWg <= device.maxWg
      && (forall k: Kernel :: k in wg && 1 <= wg[k] <= device.maxWg)
      && DotFits(dot)
    }

    ghost predicate DotFits(p: DotConfig)
      reads this`dSum
    {
      1 <= p.wg <= device.maxWg && 1 <= p.groups <= |dSum| && 1 <= p.unroll
    }

    ghost function Contents(): (m: Mem)
      reads this, a, b, c
      requires Valid()
      ensures m.Sized(n)
    {
      Mem(a[..], b[..], c[..])
    }

    function LaunchOf(p: DotConfig): Launch {
      LaunchOn(n, p)
    }

    /** Configuration and allocation; the partial-sum buffer starts out as anything. */
    constructor (size: nat, startScalar: real, d: Device, env: Env, initA: real, initB: real, initC: real)
      requires d.maxWg >= 1
      ensures Valid() && fresh(a) && fresh(b) && fresh(c)
      ensures n == size && scalar == startScalar && device == d && streamWg == StreamWg(d, env)
      ensures forall k: Kernel :: wg[k] == KernelWg(d, env, k)
      ensures dot == InitialDot(d, env) && |dSum| == DotSumCapacity(d, env) && dots == [] && runs == []
      ensures Contents() == Uniform(size, initA, initB, initC)
    {
      ConfigurationFits(d, env);
      AllKernelsListed();
      n, scalar, device, streamWg := size, startScalar, d, StreamWg(d, env);
      wg := map k: Kernel | k in AllKernels() :: KernelWg(d, env, k);
      dot := InitialDot(d, env);
      var junk: real := *;
      dSum := seq(DotSumCapacity(d, env), i => junk);
      dots, runs := [], [];
      a, b, c := new real[size], new real[size], new real[size];
      new;
      InitArrays(initA, initB, initC);
    }

    /** One work item per element of the rounded-up range, guarded. */
    method InitArrays(initA: real, initB: real, initC: real)
      requires Valid()
      modifies a, b, c
      ensures Contents() == Uniform(n, initA, initB, initC)
    {
      GuardedTiles(n, streamWg);
      ExecuteFill(ByIndex, Values(initA, initB, initC), Guarded(n, streamWg), a, b, c);
    }

    /** One kernel, in groups of its current size. */
    method RunKernel(k: Kernel)
      requires Valid()
      modifies this`runs, a, b, c
      ensures Valid() && Contents() == Apply(k, scalar, old(Contents()))
      ensures runs == old(runs) + [KernelRun(k, wg[k])]
    {
      GuardedTiles(n, wg[k]);
      TilesSuit(n, k, Guarded(n, wg[k]));
      Execute(k, scalar, Guarded(n, wg[k]), a, b, c);
      runs := runs + [KernelRun(k, wg[k])];
    }

    /** The dot in its current mode. The manual one is exact for exact launches. */
    method Dot() returns (sum: real)
      requires Valid()
      modifies this`dSum, this`dots
      ensures |dSum| == |old(dSum)| && dots == old(dots) + [DotRun(dot, sum)]
      ensures sum == if dot.manual then CountedDot(LaunchOf(dot), a[..], b[..]) else DotProduct(n, a[..], b[..])
    {
      if dot.manual {
        var launch := LaunchOf(dot);
        var junk: real := *;
        var local := seq(launch.groups, (grp: nat) => seq(launch.local, (li: nat) => junk));
        sum, dSum := DotMachine.ManualDot(launch, a[..], b[..], local, dSum);
      } else {
        sum := 0.0;
        for i := 0 to n
          invariant sum == DotProduct(i, a[..], b[..]) && dSum == old(dSum) && dots == old(dots)
        {
          DotProductNext(i, a[..], b[..]);
          sum := sum + a[i] * b[i];
        }
      }
      dots := dots + [DotRun(dot, sum)];
    }

    /** The arrays during the kernel searches. */
    ghost predicate Zeroed()
      reads this, a, b, c
    {
      Valid() && Contents() == Uniform(n, 0.0, 0.0, 0.0)
    }

    /** A warm-up and `trials` runs of one kernel with one size. */
    method RunCandidate(k: Kernel, size: nat, trials: nat)
      requires Zeroed() && 1 <= size <= device.maxWg
      modifies this`wg, this`runs, a, b, c
      ensures Zeroed() && wg == old(wg)[k := size]
      ensures runs == old(runs) + Copies(trials + 1, KernelRun(k, size))
    {
      ZerosStay(k, scalar, n);
      wg := wg[k := size];
      RunKernel(k);
      for trial := 0 to trials
        invariant Zeroed() && wg == old(wg)[k := size]
        invariant runs == old(runs) + Copies(trial + 1, KernelRun(k, size))
      {
        RunKernel(k);
      }
    }

    /** One kernel's search: every candidate is run once to warm up and `trials`
        times under the clock; the first fastest stays. */
    method TuneOne(k: Kernel, candidates: seq<nat>, trials: nat, clock: nat -> real, base: nat)
      requires Zeroed() && forall i | 0 <= i < |candidates| :: 1 <= candidates[i] <= device.maxWg
      modifies this`wg, this`runs, a, b, c
      ensures Zeroed()
      ensures wg == old(wg)[k := wg[k]]
      ensures WgTuned(candidates, clock, base, old(wg)[k], wg[k])
      ensures runs == old(runs) + CandidateRuns(k, candidates, trials)
    {
      var bestTime, bestWg := MAX_TIME, wg[k];
      ghost var initial := wg[k];
      assert wg == wg[k := wg[k]];
      for i := 0 to |candidates|
        invariant Zeroed() && wg == old(wg)[k := wg[k]]
        invariant bestWg == old(wg)[k] || 1 <= bestWg <= device.maxWg
        invariant Best<nat>(candidates[..i], clock, base, initial, bestWg, bestTime)
        invariant runs == old(runs) + CandidateRuns(k, candidates[..i], trials)
      {
        RunCandidate(k, candidates[i], trials);
        var avg := Reading(clock, base, i);
        BestNext<nat>(candidates[..i], clock, base, initial, bestWg, bestTime, candidates[i]);
        CandidateRunsNext(k, candidates, trials, i);
        Associate(old(runs), CandidateRuns(k, candidates[..i], trials), Copies(trials + 1, KernelRun(k, candidates[i])));
        if avg < bestTime {
          bestTime := avg;
          bestWg := candidates[i];
        }
      }
      assert candidates[..|candidates|] == candidates;
      assert Best<nat>(candidates, clock, base, initial, bestWg, bestTime);
      wg := wg[k := bestWg];
      assert wg[k] == bestWg && Best<nat>(candidates, clock, base, old(wg)[k], wg[k], bestTime);
    }

    lemma CandidateRunsNext(k: Kernel, candidates: seq<nat>, trials: nat, i: nat)
      requires i < |candidates|
      ensures candidates[..i] + [candidates[i]] == candidates[..i + 1]
      ensures CandidateRuns(k, candidates[..i + 1], trials) ==
              CandidateRuns(k, candidates[..i], trials) + Copies(trials + 1, KernelRun(k, candidates[i]))
    {
      assert candidates[..i + 1][..i] == candidates[..i];
    }

    /** The five searches, one kernel after another, on zeroed arrays. */
    method AutotuneStreamKernels(env: Env, clock: nat -> real, base: nat)
      requires Valid()
      modifies this`wg, this`runs, a, b, c
      ensures Zeroed()
      ensures var candidates := WgCandidates(STREAM_SIZES, device.maxWg, streamWg);
              && TunedUpTo(candidates, clock, base, old(wg), wg, |KERNELS|)
              && runs == old(runs) + SearchRuns(|KERNELS|, candidates, StreamTrials(device, env))
    {
      InitArrays(0.0, 0.0, 0.0);
      var candidates := WgCandidates(STREAM_SIZES, device.maxWg, streamWg);
      CandidatesOk(STREAM_SIZES, device.maxWg, streamWg);
      var trials := StreamTrials(device, env);
      for i := 0 to |KERNELS|
        invariant Zeroed() && TunedUpTo(candidates, clock, base, old(wg), wg, i)
        invariant runs == old(runs) + SearchRuns(i, candidates, trials)
      {
        ghost var before := wg;
        TuneOne(KERNELS[i], candidates, trials, clock, base + i * |candidates|);
        TurnTaken(candidates, clock, base, old(wg), before, wg, i);
        Associate(old(runs), SearchRuns(i, candidates, trials), CandidateRuns(KERNELS[i], candidates, trials));
      }
    }

    /** `bench_once`: runs the current configuration trials + 1 times. */
    method BenchOnce(manual: bool, trials: nat)
      requires Valid() && Contents() == Uniform(n, 1.0, 2.0, 0.0)
      modifies this`dot, this`dSum, this`dots
      ensures Valid() && dot == old(dot).(manual := manual) && |dSum| == |old(dSum)|
      ensures dots == old(dots) + Copies(trials + 1, DotRun(dot, ProbeDot(n, dot)))
    {
      dot := dot.(manual := manual);
      ghost var run := DotRun(dot, ProbeDot(n, dot));
      var sink := Dot();
      for i := 0 to trials
        invariant Valid() && dot == old(dot).(manual := manual) && |dSum| == |old(dSum)|
        invariant dots == old(dots) + Copies(i + 1, run)
      {
        sink := Dot();
      }
    }

    /** One probe of the search, and the better of it and the best so far. */
    method TryDot(p: DotConfig, best: DotConfig, bestTime: real, trials: nat, clock: nat -> real, base: nat,
                  ghost initial: DotConfig, ghost log: seq<DotConfig>, probe: nat)
      returns (newBest: DotConfig, newTime: real)
      requires Valid() && DotFits(p) && DotFits(best) && probe == |log|
      requires Contents() == Uniform(n, 1.0, 2.0, 0.0)
      requires Best(log, clock, base, initial, best, bestTime)
      modifies this`dot, this`dSum, this`dots
      ensures Valid() && dot == p && |dSum| == |old(dSum)| && DotFits(newBest)
      ensures Best(log + [p], clock, base, initial, newBest, newTime)
      ensures dots == old(dots) + Copies(trials + 1, DotRun(p, ProbeDot(n, p)))
    {
      dot := p;
      BenchOnce(p.manual, trials);
      BestNext(log, clock, base, initial, best, bestTime, p);
      var t := Reading(clock, base, probe);
      if t < bestTime {
        newBest, newTime := p, t;
      } else {
        newBest, newTime := best, bestTime;
      }
    }

    /** The native reduction with the configuration as it is, then every manual
        combination; the first fastest of all stays. The log is what was probed,
        and the dots run are those of the log. */
    method AutotuneDot(env: Env, clock: nat -> real, base: nat) returns (ghost log: seq<DotConfig>)
      requires Valid()
      modifies this`dot, this`dSum, this`dots, a, b, c
      ensures Valid() && |dSum| == |old(dSum)|
      ensures log == SearchOrder(SearchOf(device, streamWg, |dSum|), old(dot))
      ensures DotTuned(log, clock, base, old(dot), dot)
      ensures Launchable(n, log) && dots == old(dots) + Performed(n, log, DotTrials(env))
      ensures AllExact(n, log) <==> SearchIsExact(n, device, streamWg)
      ensures SearchIsExact(n, device, streamWg) ==>
                forall i: nat | |old(dots)| <= i < |dots| :: dots[i].result == 2.0 * n as real
    {
      ghost var initial, before := dot, dots;
      InitArrays(1.0, 2.0, 0.0);
      var trials := DotTrials(env);
      var s := SearchOf(device, streamWg, |dSum|);
      CandidatesOk(DOT_SIZES, device.maxWg, streamWg);
      var native := dot.(manual := false);
      var best, bestTime;
      best, bestTime := TryDot(native, dot, MAX_TIME, trials, clock, base, initial, [], 0);
      PerformedNext(n, [], trials, native);
      log := [native];
      assert [] + [native] == log;
      assert dots == before + Performed(n, log, trials);
      best, bestTime, log := TryWgs(s, best, bestTime, trials, clock, base, before, initial, log, 1);
      dot := best;
      assert Best(log, clock, base, initial, best, bestTime);
      SearchOutcome(n, device, streamWg, |dSum|, initial, log, trials, before, dots);
    }

    /** The search over work-group sizes. */
    method TryWgs(s: Search, best: DotConfig, bestTime: real, trials: nat, clock: nat -> real, base: nat,
                  ghost before: seq<DotRun>, ghost initial: DotConfig, ghost log: seq<DotConfig>, probe: nat)
      returns (newBest: DotConfig, newTime: real, ghost newLog: seq<DotConfig>)
      requires probe == |log|
      requires SearchInv(s, before, trials, initial, best, bestTime, clock, base, log)
      modifies this`dot, this`dSum, this`dots
      ensures SearchInv(s, before, trials, initial, newBest, newTime, clock, base, newLog)
      ensures newLog == log + ByWg(s, |s.wgs|)
    {
      newBest, newTime, newLog := best, bestTime, log;
      var next := probe;
      for w := 0 to |s.wgs|
        invariant SearchInv(s, before, trials, initial, newBest, newTime, clock, base, newLog)
        invariant newLog == log + ByWg(s, w) && |newLog| == next
      {
        newBest, newTime, newLog :=
          TryGroups(s, w, newBest, newTime, trials, clock, base, before, initial, newLog, next);
        GroupsLength(s, w, |s.gpcs|);
        Associate(log, ByWg(s, w), ByGroups(s, w, |s.gpcs|));
        next := next + |s.gpcs| * |UNROLLS|;
      }
    }

    /** The search over groups per compute unit, for one work-group size. */
    method TryGroups(s: Search, w: nat, best: DotConfig, bestTime: real, trials: nat, clock: nat -> real, base: nat,
                     ghost before: seq<DotRun>, ghost initial: DotConfig, ghost log: seq<DotConfig>, probe: nat)
      returns (newBest: DotConfig, newTime: real, ghost newLog: seq<DotConfig>)
      requires w < |s.wgs| && probe == |log|
      requires SearchInv(s, before, trials, initial, best, bestTime, clock, base, log)
      modifies this`dot, this`dSum, this`dots
      ensures SearchInv(s, before, trials, initial, newBest, newTime, clock, base, newLog)
      ensures newLog == log + ByGroups(s, w, |s.gpcs|)
    {
      newBest, newTime, newLog := best, bestTime, log;
      var next := probe;
      for g := 0 to |s.gpcs|
        invariant SearchInv(s, before, trials, initial, newBest, newTime, clock, base, newLog)
        invariant newLog == log + ByGroups(s, w, g) && |newLog| == next
      {
        newBest, newTime, newLog :=
          TryUnrolls(s, w, g, newBest, newTime, trials, clock, base, before, initial, newLog, next);
        Associate(log, ByGroups(s, w, g), ByUnroll(s, w, g, |UNROLLS|));
        next := next + |UNROLLS|;
      }
    }

    /** One probe, entered in the log. */
    method TryProbe(s: Search, p: DotConfig, best: DotConfig, bestTime: real, trials: nat, clock: nat -> real,
                    base: nat, ghost before: seq<DotRun>, ghost initial: DotConfig, ghost log: seq<DotConfig>,
                    probe: nat)
      returns (newBest: DotConfig, newTime: real, ghost newLog: seq<DotConfig>)
      requires DotFits(p) && probe == |log|
      requires SearchInv(s, before, trials, initial, best, bestTime, clock, base, log)
      modifies this`dot, this`dSum, this`dots
      ensures SearchInv(s, before, trials, initial, newBest, newTime, clock, base, newLog)
      ensures newLog == log + [p] && |dSum| == |old(dSum)|
    {
      newBest, newTime := TryDot(p, best, bestTime, trials, clock, base, initial, log, probe);
      PerformedNext(n, log, trials, p);
      newLog := log + [p];
    }

    /** The innermost loop of the search. */
    method TryUnrolls(s: Search, w: nat, g: nat, best: DotConfig, bestTime: real, trials: nat, clock: nat -> real,
                      base: nat, ghost before: seq<DotRun>, ghost initial: DotConfig, ghost log: seq<DotConfig>,
                      probe: nat)
      returns (newBest: DotConfig, newTime: real, ghost newLog: seq<DotConfig>)
      requires w < |s.wgs| && g < |s.gpcs| && probe == |log|
      requires SearchInv(s, before, trials, initial, best, bestTime, clock, base, log)
      modifies this`dot, this`dSum, this`dots
      ensures SearchInv(s, before, trials, initial, newBest, newTime, clock, base, newLog)
      ensures newLog == log + ByUnroll(s, w, g, |UNROLLS|) && |newLog| == |log| + |UNROLLS|
    {
      newBest, newTime, newLog := best, bestTime, log;
      for u := 0 to |UNROLLS|
        invariant SearchInv(s, before, trials, initial, newBest, newTime, clock, base, newLog)
        invariant newLog == log + ByUnroll(s, w, g, u) && |newLog| == probe + u
      {
        newBest, newTime, newLog :=
          TryProbe(s, Probe(s, w, g, u), newBest, newTime, trials, clock, base, before, initial, newLog, probe + u);
        Associate(log, ByUnroll(s, w, g, u), [Probe(s, w, g, u)]);
      }
      UnrollAt(s, w, g, 0, |UNROLLS|);
    }

    /** What the search keeps from probe to probe. */
    ghost predicate SearchInv(s: Search, before: seq<DotRun>, trials: nat, initial: DotConfig, best: DotConfig,
                              bestTime: real, clock: nat -> real, base: nat, log: seq<DotConfig>)
      reads this, a, b, c
    {
      && Valid() && DotFits(best) && Contents() == Uniform(n, 1.0, 2.0, 0.0)
      && s.capacity == |dSum|
      && (forall i | 0 <= i < |s.wgs| :: 1 <= s.wgs[i] <= device.maxWg)
      && Best(log, clock, base, initial, best, bestTime)
      && Launchable(n, log) && dots == before + Performed(n, log, trials)
    }

    /** The rest of construction: the enabled searches, then the arrays restored. */
    method Tune(env: Env, clock: nat -> real, initA: real, initB: real, initC: real)
      returns (ghost log: seq<DotConfig>)
      requires Valid()
      modifies this`wg, this`runs, this`dot, this`dSum, this`dots, a, b, c
      ensures Valid() && |dSum| == |old(dSum)|
      ensures Contents() == Uniform(n, initA, initB, initC)
      ensures !TunesStream(env) ==> wg == old(wg) && runs == old(runs)
      ensures TunesStream(env) ==>
                var candidates := WgCandidates(STREAM_SIZES, device.maxWg, streamWg);
                && TunedUpTo(candidates, clock, 0, old(wg), wg, |KERNELS|)
                && runs == old(runs) + SearchRuns(|KERNELS|, candidates, StreamTrials(device, env))
      ensures !TunesDot(device, env) ==> dot == old(dot) && log == []
      ensures TunesDot(device, env) ==>
                && log == SearchOrder(SearchOf(device, streamWg, |dSum|), old(dot))
                && DotTuned(log, clock, StreamReadings(device, streamWg, env), old(dot), dot)
      ensures Launchable(n, log) && dots == old(dots) + Performed(n, log, DotTrials(env))
      ensures TunesDot(device, env) ==> (AllExact(n, log) <==> SearchIsExact(n, device, streamWg))
      ensures SearchIsExact(n, device, streamWg) ==>
                forall i: nat | |old(dots)| <= i < |dots| :: dots[i].result == 2.0 * n as real
    {
      log := [];
      if TunesStream(env) {
        AutotuneStreamKernels(env, clock, 0);
      }
      if TunesDot(device, env) {
        log := AutotuneDot(env, clock, StreamReadings(device, streamWg, env));
      }
      InitArrays(initA, initB, initC);
    }
  }

  // ----- what the search finds

  /** The winner of a search through powers of two is one and unrolls at most eight
      times, if the configuration before the search did. */
  lemma BestIsSearched(d: Device, streamWg: nat, capacity: nat, initial: DotConfig, clock: nat -> real, base: nat,
                       best: DotConfig)
    requires streamWg <= d.maxWg && PowerCandidates(d.maxWg, streamWg)
    requires PowerOfTwo(initial.wg) && initial.unroll <= 8
    requires DotTuned(SearchOrder(SearchOf(d, streamWg, capacity), initial), clock, base, initial, best)
    ensures PowerOfTwo(best.wg) && best.unroll <= 8
  {
    var s := SearchOf(d, streamWg, capacity);
    var log := SearchOrder(s, initial);
    CandidatesPowers(d.maxWg, streamWg);
    ProbeSizes(s, |s.wgs|);
    var bestTime: real :| Best<DotConfig>(log, clock, base, initial, best, bestTime);
    if best != initial {
      var j: nat :| FirstFastest(log, clock, base, j, best, bestTime);
      if j > 0 { assert log[j] == ByWg(s, |s.wgs|)[j - 1]; }
    }
  }

  /** Without size overrides, on a device whose largest group is a power of two,
      every configured size is a power of two. */
  lemma DefaultsArePowers(d: Device, env: Env)
    requires PowerOfTwo(d.maxWg) && NoSizeOverrides(env)
    ensures PowerOfTwo(StreamWg(d, env)) && PowerCandidates(d.maxWg, StreamWg(d, env))
    ensures PowerOfTwo(InitialDot(d, env).wg) && InitialDot(d, env).unroll <= 8
  {
    PowersUpTo1024();
  }

  /** A size override can make the configured manual dot lose elements: three lanes
      to a group drop every third element. */
  lemma OverrideLosesElements(d: Device, env: Env, n: nat)
    requires d.maxWg >= 3 && env.dotManual.Yes? && env.dotWg == Number(3) && n >= 3
    ensures InitialDot(d, env).manual && !ExactLaunch(LaunchOn(n, InitialDot(d, env)))
  {
    assert !PowerOfTwo(3) && FirstDropped(3) == 2;
  }

  /** So can an unroll override above eight, as soon as one unrolled turn fits. */
  lemma UnrollLosesElements(d: Device, env: Env, n: nat)
    requires d.maxWg >= 1 && env.dotManual.Yes? && env.dotUnroll.Number? && env.dotUnroll.n > 8
    requires n > (env.dotUnroll.n - 1) * LaunchOn(n, InitialDot(d, env)).Global()
    ensures InitialDot(d, env).manual && !ExactLaunch(LaunchOn(n, InitialDot(d, env)))
  {
  }

  // ----- the whole program

  /** How the driver sees the dot of a configuration. */
  function ModeOf(n: nat, p: DotConfig): Driver.DotMode {
    if p.manual then Driver.DotMode.Manual(LaunchOn(n, p)) else Driver.DotMode.Library
  }

  /** What a run leaves: the readings of its order, the final gold values in every
      element, and of the gold sum the share that the counted elements make. */
  ghost predicate RunLeaves(table: seq<Driver.Benchmark>, selection: Driver.BenchId, order: Driver.Order, numTimes: nat,
                            clock: (nat, nat) -> real, n: nat, counted: nat, timings: seq<seq<real>>, m: Mem, sum: real)
  {
    var g := DriverLaws.Final(selection, order, numTimes, Driver.START_SCALAR, n, Driver.START);
    && Driver.TimingsOk(table, selection, order, numTimes, clock, timings)
    && m == Uniform(n, g.a, g.b, g.c) && Driver.Proportional(sum, g.s, counted, n)
  }

  /** The driver on a constructed stream. */
  method RunTuned(s: SyclStream, table: seq<Driver.Benchmark>, selection: Driver.BenchId, order: Driver.Order,
                  numTimes: nat, clock: (nat, nat) -> real, epsilon: real, silenceErrors: bool)
    returns (timings: seq<seq<real>>, m: Mem, sum: real, failed: nat, exit: bool)
    requires s.Valid() && epsilon >= 0.0 && s.scalar == Driver.START_SCALAR && table == Driver.BENCH
    requires s.Contents() == Uniform(s.n, Driver.START_A, Driver.START_B, Driver.START_C)
    modifies s.a, s.b, s.c
    ensures var counted := Driver.CountOf(ModeOf(s.n, s.dot), s.n);
            && RunLeaves(table, selection, order, numTimes, clock, s.n, counted, timings, m, sum)
            && (failed == 0 <==> DriverLaws.Passes(selection, numTimes, counted, s.n, epsilon))
    ensures exit <==> failed > 0 && !silenceErrors
  {
    var wg, n := s.wg, s.n;
    var mode := ModeOf(s.n, s.dot);
    var loops := (k: Kernel) => if k in wg then Guarded(n, wg[k]) else [];
    forall k: Kernel ensures Suits(loops(k), n, k) {
      GuardedTiles(n, wg[k]);
      TilesSuit(n, k, loops(k));
    }
    var stream := new Driver.Stream.Over(s.a, s.b, s.c, s.scalar, loops, mode, s.dSum);
    timings, sum, failed, exit :=
      DriverLaws.RunBench(stream, table, selection, order, numTimes, clock, epsilon, silenceErrors);
    m := Mem(stream.a[..], stream.b[..], stream.c[..]);
  }

  lemma ExactPasses(selection: Driver.BenchId, numTimes: nat, n: nat, p: DotConfig, epsilon: real)
    requires LaunchOn(n, p).Valid() && PowerOfTwo(p.wg) && p.unroll <= 8 && epsilon >= 0.0
    ensures DriverLaws.Passes(selection, numTimes, Driver.CountOf(ModeOf(n, p), n), n, epsilon)
  {
    AllCountedIff(LaunchOn(n, p));
    DriverLaws.NoneLost(n, epsilon);
  }

  /** Construct, tune and run. For every clock, interleaving, selection and order the
      check fails exactly when the dot of the final configuration runs and loses too
      many elements; and with power-of-two group sizes and at most eight-fold
      unrolling configured it does not fail, whatever the search finds. */
  method Benchmark(size: nat, d: Device, env: Env, tuneClock: nat -> real, table: seq<Driver.Benchmark>,
                   selection: Driver.BenchId, order: Driver.Order, numTimes: nat, clock: (nat, nat) -> real,
                   epsilon: real, silenceErrors: bool)
    returns (config: DotConfig, timings: seq<seq<real>>, m: Mem, sum: real, failed: nat, exit: bool)
    requires d.maxWg >= 1 && epsilon >= 0.0 && table == Driver.BENCH
    ensures LaunchOn(size, config).Valid()
    ensures var counted := Driver.CountOf(ModeOf(size, config), size);
            && RunLeaves(table, selection, order, numTimes, clock, size, counted, timings, m, sum)
            && (failed == 0 <==> DriverLaws.Passes(selection, numTimes, counted, size, epsilon))
    ensures exit <==> failed > 0 && !silenceErrors
    ensures !TunesDot(d, env) ==> config == InitialDot(d, env)
    ensures TunesDot(d, env) ==>
              DotTuned(SearchOrder(SearchOf(d, StreamWg(d, env), DotSumCapacity(d, env)), InitialDot(d, env)),
                       tuneClock, StreamReadings(d, StreamWg(d, env), env), InitialDot(d, env), config)
    ensures (PowerCandidates(d.maxWg, StreamWg(d, env)) && PowerOfTwo(InitialDot(d, env).wg) &&
             InitialDot(d, env).unroll <= 8) ==> failed == 0
  {
    var s := new SyclStream(size, Driver.START_SCALAR, d, env, Driver.START_A, Driver.START_B, Driver.START_C);
    ghost var initial := s.dot;
    ghost var log := s.Tune(env, tuneClock, Driver.START_A, Driver.START_B, Driver.START_C);
    config := s.dot;
    if PowerCandidates(d.maxWg, s.streamWg) && PowerOfTwo(initial.wg) && initial.unroll <= 8 {
      if TunesDot(d, env) {
        BestIsSearched(d, s.streamWg, |s.dSum|, initial, tuneClock, StreamReadings(d, s.streamWg, env), s.dot);
      }
      ExactPasses(selection, numTimes, size, config, epsilon);
    }
    timings, m, sum, failed, exit :=
      RunTuned(s, table, selection, order, numTimes, clock, epsilon, silenceErrors);
  }

  /** An environment that makes the benchmark fail in double precision: a manual dot
      in groups of three, which switches the search off unless it is asked for. */
  lemma ThreeLaneRunFails(d: Device, env: Env, n: nat, selection: Driver.BenchId, numTimes: nat)
    requires d.maxWg >= 3 && env.dotManual.Yes? && env.dotWg == Number(3) && !Asks(env.dotUnroll)
    requires !env.dotAutotune.Yes? && n >= 3 && DriverLaws.RunsDot(selection) && numTimes >= 1
    ensures !TunesDot(d, env)
    ensures !DriverLaws.Passes(selection, numTimes, Driver.CountOf(ModeOf(n, InitialDot(d, env)), n), n,
                               Driver.DOUBLE_EPSILON)
  {
    ThreeLanesCount(LaunchOn(n, InitialDot(d, env)));
    Driver.DoubleNoticesThird(Driver.CountOf(ModeOf(n, InitialDot(d, env)), n), n);
  }
}
