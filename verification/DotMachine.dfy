/** The dot kernel as it runs: lanes that interleave freely between barriers,
    one local memory per work group, and a buffer of published partial sums. */
module DotMachine {
  import opened Sums
  import opened Tree
  import opened Kernels
  import opened DotLaunch

  /** Where a lane is. `Wait` is the barrier at the head of the halving loop;
      the statement after it is a load of both operands followed by a store. */
  datatype Pc =
    | Start
    | Main(i: nat)
    | Tail(i: nat)
    | Wait(offset: nat)
    | Load(offset: nat)
    | Store(offset: nat, value: real)
    | Exit
    | Done

  /** One work group: its lanes, its local memory, and how often its barrier opened. */
  datatype Group = Group(pc: seq<Pc>, wg: seq<real>, gen: nat)

  datatype State = State(group: seq<Group>, sum: seq<real>)

  /** Either one lane takes a step, or the barrier of one group opens. */
  datatype Event = Lane(grp: nat, li: nat) | Release(grp: nat)

  predicate PcFits(c: Launch, li: nat, pc: Pc) {
    match pc
    case Load(o) => 2 * o <= c.local
    case Wait(o) => 2 * o <= c.local
    case Store(o, _) => li < o
    case _ => true
  }

  predicate GroupFits(c: Launch, g: Group) {
    && |g.pc| == c.local && |g.wg| == c.local
    && forall li: nat | li < c.local :: PcFits(c, li, g.pc[li])
  }

  /** Sizes fit; the buffer of partial sums may be longer than needed. */
  predicate Fits(c: Launch, s: State) {
    && |s.group| == c.groups && c.groups <= |s.sum|
    && forall grp: nat | grp < c.groups :: GroupFits(c, s.group[grp])
  }

  /** A kernel about to start. Local memory and the partial sums hold anything. */
  predicate Initial(c: Launch, s: State) {
    && Fits(c, s)
    && forall grp: nat | grp < c.groups ::
         s.group[grp].gen == 0 && forall li: nat | li < c.local :: s.group[grp].pc[li] == Start
  }

  predicate LaneReady(pc: Pc) {
    !pc.Wait? && !pc.Done?
  }

  predicate AllWait(c: Launch, g: Group)
    requires GroupFits(c, g)
  {
    forall li: nat | li < c.local :: g.pc[li].Wait?
  }

  predicate Enabled(c: Launch, s: State, e: Event)
    requires Fits(c, s)
  {
    match e
    case Lane(grp, li) => grp < c.groups && li < c.local && LaneReady(s.group[grp].pc[li])
    case Release(grp) => grp < c.groups && AllWait(c, s.group[grp])
  }

  /** The head of the halving loop. */
  function Arrive(offset: nat): Pc {
    if offset > 0 then Wait(offset) else Exit
  }

  function Move(g: Group, li: nat, pc: Pc): Group
    requires li < |g.pc|
  {
    g.(pc := g.pc[li := pc])
  }

  function Write(g: Group, li: nat, x: real, pc: Pc): Group
    requires li < |g.pc| && li < |g.wg|
  {
    g.(pc := g.pc[li := pc], wg := g.wg[li := x])
  }

  /** One step of one lane, on its own group. */
  function LaneStep(c: Launch, a: seq<real>, b: seq<real>, grp: nat, li: nat, g: Group): Group
    requires GroupFits(c, g) && li < c.local && LaneReady(g.pc[li])
  {
    match g.pc[li]
    case Start => Write(g, li, 0.0, Main(GlobalId(c, grp, li)))
    case Main(i) =>
      if c.unroll >= 1 && i + (c.unroll - 1) * c.Global() < c.n then
        Write(g, li, Unrolled(c, a, b, g.wg[li], i, Rungs(c)), Main(i + c.unroll * c.Global()))
      else
        Move(g, li, Tail(i))
    case Tail(i) =>
      if i < c.n then
        Write(g, li, g.wg[li] + Term(a, b, i), Tail(i + c.Global()))
      else
        Move(g, li, Arrive(c.local / 2))
    case Load(o) =>
      if li < o then
        Move(g, li, Store(o, g.wg[li] + g.wg[li + o]))
      else
        Move(g, li, Arrive(o / 2))
    case Store(o, value) => Write(g, li, value, Arrive(o / 2))
    case Exit => Move(g, li, Done)
  }

  function OpenBarrier(c: Launch, g: Group): Group
    requires GroupFits(c, g) && AllWait(c, g)
  {
    Group(seq(c.local, (li: nat) requires li < c.local => Load(g.pc[li].offset)), g.wg, g.gen + 1)
  }

  /** Lane 0 publishes its slot on the way out. */
  function Step(c: Launch, a: seq<real>, b: seq<real>, s: State, e: Event): State
    requires Fits(c, s) && Enabled(c, s, e)
  {
    match e
    case Lane(grp, li) =>
      var g := s.group[grp];
      var sum := if g.pc[li].Exit? && li == 0 then s.sum[grp := g.wg[0]] else s.sum;
      State(s.group[grp := LaneStep(c, a, b, grp, li, g)], sum)
    case Release(grp) => s.(group := s.group[grp := OpenBarrier(c, s.group[grp])])
  }

  // ----- the invariant

  /** Local memory after `gen` phases of the halving loop. */
  function Stage(c: Launch, a: seq<real>, b: seq<real>, grp: nat, gen: nat): (r: seq<real>)
    requires c.Valid()
    ensures |r| == c.local
  {
    Folded(Partials(c, a, b, grp), gen)
  }

  /** What a lane's program counter says about its slot and about the barrier:
      in generation `gen` a lane is either still working on phase `gen`, or has
      arrived at the head of the next one. */
  ghost predicate LaneOk(c: Launch, a: seq<real>, b: seq<real>, grp: nat, gen: nat, out: real,
                         li: nat, pc: Pc, slot: real)
    requires c.Valid() && li < c.local
  {
    var g := GlobalId(c, grp, li);
    match pc
    case Start => gen == 0
    case Main(i) =>
      gen == 0 && exists k: nat :: k % c.unroll == 0 && i == Index(c, g, k) && slot == LaneSum(c, a, b, g, k)
    case Tail(i) =>
      gen == 0 && exists k: nat :: InTail(c, g, k) && i == Index(c, g, k) && slot == LaneSum(c, a, b, g, k)
    case Wait(o) => o == Offset(c.local, gen + 1) && o > 0 && slot == Stage(c, a, b, grp, gen)[li]
    case Load(o) => gen > 0 && o == Offset(c.local, gen) && slot == Stage(c, a, b, grp, gen - 1)[li]
    case Store(o, value) =>
      && gen > 0 && o == Offset(c.local, gen) && slot == Stage(c, a, b, grp, gen - 1)[li]
      && li < o && value == Stage(c, a, b, grp, gen)[li]
    case Exit => Offset(c.local, gen + 1) == 0 && slot == Stage(c, a, b, grp, gen)[li]
    case Done => Offset(c.local, gen + 1) == 0 && slot == Stage(c, a, b, grp, gen)[li] && (li == 0 ==> out == slot)
  }

  ghost predicate GroupOk(c: Launch, a: seq<real>, b: seq<real>, grp: nat, g: Group, out: real)
    requires c.Valid()
  {
    && GroupFits(c, g)
    && Offset(c.local, g.gen) > 0
    && forall li: nat | li < c.local :: LaneOk(c, a, b, grp, g.gen, out, li, g.pc[li], g.wg[li])
  }

  ghost predicate Inv(c: Launch, a: seq<real>, b: seq<real>, s: State) {
    && c.Valid() && |a| == |b| == c.n
    && |s.group| == c.groups && c.groups <= |s.sum|
    && forall grp: nat | grp < c.groups :: GroupOk(c, a, b, grp, s.group[grp], s.sum[grp])
  }

  lemma InitialInv(c: Launch, a: seq<real>, b: seq<real>, s: State)
    requires c.Valid() && |a| == |b| == c.n && Initial(c, s)
    ensures Inv(c, a, b, s)
  {
  }

  /** A loading lane's partner slot still holds the value of the last barrier:
      within a phase, slots at or above the offset are not written. */
  lemma PartnerUnchanged(c: Launch, a: seq<real>, b: seq<real>, grp: nat, g: Group, out: real, li: nat)
    requires c.Valid() && GroupOk(c, a, b, grp, g, out)
    requires li < c.local && g.pc[li].Load? && li < g.pc[li].offset
    ensures g.wg[li + g.pc[li].offset] == Stage(c, a, b, grp, g.gen - 1)[li + g.pc[li].offset]
  {
    var o := g.pc[li].offset;
    var partner := li + o;
    assert LaneOk(c, a, b, grp, g.gen, out, li, g.pc[li], g.wg[li]);
    assert LaneOk(c, a, b, grp, g.gen, out, partner, g.pc[partner], g.wg[partner]);
    assert Stage(c, a, b, grp, g.gen)[partner] == Stage(c, a, b, grp, g.gen - 1)[partner];
  }

  /** The accumulation loops keep the lane's account of its indices. */
  lemma AccumulateStep(c: Launch, a: seq<real>, b: seq<real>, grp: nat, g: Group, out: real, li: nat)
    requires c.Valid() && |a| == |b| == c.n && GroupOk(c, a, b, grp, g, out)
    requires li < c.local && (g.pc[li].Start? || g.pc[li].Main? || g.pc[li].Tail?)
    ensures var h := LaneStep(c, a, b, grp, li, g);
            PcFits(c, li, h.pc[li]) && LaneOk(c, a, b, grp, g.gen, out, li, h.pc[li], h.wg[li])
  {
    var id, w := GlobalId(c, grp, li), c.Global();
    assert LaneOk(c, a, b, grp, g.gen, out, li, g.pc[li], g.wg[li]);
    match g.pc[li]
    case Start =>
      assert 0 % c.unroll == 0 && id == Index(c, id, 0) && 0.0 == LaneSum(c, a, b, id, 0);
    case Main(i) =>
      var k: nat :| k % c.unroll == 0 && i == Index(c, id, k) && g.wg[li] == LaneSum(c, a, b, id, k);
      if i + (c.unroll - 1) * w < c.n {
        TurnSum(c, a, b, id, k, c.unroll);
        MulDistributes(k, c.unroll, w);
        NextTurn(k, c.unroll);
        assert i + c.unroll * w == Index(c, id, k + c.unroll);
      } else {
        assert InTail(c, id, k);
      }
    case Tail(i) =>
      var k: nat :| InTail(c, id, k) && i == Index(c, id, k) && g.wg[li] == LaneSum(c, a, b, id, k);
      if i < c.n {
        TailStep(c, a, b, id, k);
        assert LaneStep(c, a, b, grp, li, g).wg[li] == LaneSum(c, a, b, id, k + 1);
      } else {
        LaneFinished(c, a, b, id, k);
        assert Stage(c, a, b, grp, 0)[li] == LaneTotal(c, a, b, id);
        assert Offset(c.local, 0) == c.local;
      }
    case _ =>
  }

  lemma NextTurn(k: nat, u: nat)
    requires u >= 1 && k % u == 0
    ensures (k + u) % u == 0
  {
    MulDistributes(k / u, 1, u);
    DivModOf(k / u + 1, u, 0);
  }

  /** The halving loop moves the lane's slot from one stage to the next. */
  lemma FoldStep(c: Launch, a: seq<real>, b: seq<real>, grp: nat, g: Group, out: real, li: nat)
    requires c.Valid() && GroupOk(c, a, b, grp, g, out)
    requires li < c.local && (g.pc[li].Load? || g.pc[li].Store? || g.pc[li].Exit?)
    ensures var h := LaneStep(c, a, b, grp, li, g);
            var out' := if g.pc[li].Exit? && li == 0 then g.wg[0] else out;
            PcFits(c, li, h.pc[li]) && LaneOk(c, a, b, grp, g.gen, out', li, h.pc[li], h.wg[li])
  {
    assert LaneOk(c, a, b, grp, g.gen, out, li, g.pc[li], g.wg[li]);
    OffsetBound(c.local, g.gen);
    OffsetBound(c.local, g.gen + 1);
    if g.pc[li].Load? && li < g.pc[li].offset {
      PartnerUnchanged(c, a, b, grp, g, out, li);
    }
  }

  /** A step of one lane leaves the account of every other lane as it was. */
  lemma OtherLaneOk(c: Launch, a: seq<real>, b: seq<real>, grp: nat, g: Group, out: real, li: nat, lj: nat)
    requires c.Valid() && GroupOk(c, a, b, grp, g, out)
    requires li < c.local && lj < c.local && lj != li && LaneReady(g.pc[li])
    ensures var h := LaneStep(c, a, b, grp, li, g);
            var out' := if g.pc[li].Exit? && li == 0 then g.wg[0] else out;
            && h.gen == g.gen && h.pc[lj] == g.pc[lj] && h.wg[lj] == g.wg[lj]
            && LaneOk(c, a, b, grp, g.gen, out', lj, g.pc[lj], g.wg[lj])
  {
    assert LaneOk(c, a, b, grp, g.gen, out, lj, g.pc[lj], g.wg[lj]);
  }

  lemma ThisLaneOk(c: Launch, a: seq<real>, b: seq<real>, grp: nat, g: Group, out: real, li: nat)
    requires c.Valid() && |a| == |b| == c.n && GroupOk(c, a, b, grp, g, out)
    requires li < c.local && LaneReady(g.pc[li])
    ensures var h := LaneStep(c, a, b, grp, li, g);
            var out' := if g.pc[li].Exit? && li == 0 then g.wg[0] else out;
            PcFits(c, li, h.pc[li]) && LaneOk(c, a, b, grp, g.gen, out', li, h.pc[li], h.wg[li])
  {
    if g.pc[li].Start? || g.pc[li].Main? || g.pc[li].Tail? {
      AccumulateStep(c, a, b, grp, g, out, li);
    } else {
      FoldStep(c, a, b, grp, g, out, li);
    }
  }

  lemma LaneStepOk(c: Launch, a: seq<real>, b: seq<real>, grp: nat, g: Group, out: real, li: nat)
    requires c.Valid() && |a| == |b| == c.n && GroupOk(c, a, b, grp, g, out)
    requires li < c.local && LaneReady(g.pc[li])
    ensures var out' := if g.pc[li].Exit? && li == 0 then g.wg[0] else out;
            GroupOk(c, a, b, grp, LaneStep(c, a, b, grp, li, g), out')
  {
    var h := LaneStep(c, a, b, grp, li, g);
    var out' := if g.pc[li].Exit? && li == 0 then g.wg[0] else out;
    ThisLaneOk(c, a, b, grp, g, out, li);
    forall lj: nat | lj < c.local
      ensures PcFits(c, lj, h.pc[lj]) && LaneOk(c, a, b, grp, h.gen, out', lj, h.pc[lj], h.wg[lj])
    {
      if lj != li { OtherLaneOk(c, a, b, grp, g, out, li, lj); }
    }
  }

  lemma OpenBarrierOk(c: Launch, a: seq<real>, b: seq<real>, grp: nat, g: Group, out: real)
    requires c.Valid() && GroupOk(c, a, b, grp, g, out) && AllWait(c, g)
    ensures GroupOk(c, a, b, grp, OpenBarrier(c, g), out)
  {
    var h := OpenBarrier(c, g);
    forall li: nat | li < c.local
      ensures PcFits(c, li, h.pc[li]) && LaneOk(c, a, b, grp, h.gen, out, li, h.pc[li], h.wg[li])
    {
      assert LaneOk(c, a, b, grp, g.gen, out, li, g.pc[li], g.wg[li]);
    }
    assert LaneOk(c, a, b, grp, g.gen, out, 0, g.pc[0], g.wg[0]);
  }

  /** Every step of every lane, and every barrier, keeps the invariant. */
  lemma StepKeepsInv(c: Launch, a: seq<real>, b: seq<real>, s: State, e: Event)
    requires Inv(c, a, b, s) && Enabled(c, s, e)
    ensures Inv(c, a, b, Step(c, a, b, s, e))
  {
    match e
    case Lane(grp, li) => LaneStepOk(c, a, b, grp, s.group[grp], s.sum[grp], li);
    case Release(grp) => OpenBarrierOk(c, a, b, grp, s.group[grp], s.sum[grp]);
  }

  // ----- termination

  /** The most steps a lane can still take. */
  function Rank(c: Launch, pc: Pc): nat {
    match pc
    case Start => 2 * c.n + 3 * c.local + 8
    case Main(i) => (if i < c.n then 2 * (c.n - i) else 0) + 3 * c.local + 6
    case Tail(i) => (if i < c.n then 2 * (c.n - i) else 0) + 3 * c.local + 5
    case Wait(o) => 3 * o + 4
    case Load(o) => 3 * o + 3
    case Store(o, _) => 3 * o + 2
    case Exit => 1
    case Done => 0
  }

  function GroupRank(c: Launch, g: Group): nat {
    Total(seq(|g.pc|, (li: nat) requires li < |g.pc| => Rank(c, g.pc[li])))
  }

  function Measure(c: Launch, s: State): nat {
    Total(seq(|s.group|, (grp: nat) requires grp < |s.group| => GroupRank(c, s.group[grp])))
  }

  lemma LaneRank(c: Launch, a: seq<real>, b: seq<real>, grp: nat, li: nat, g: Group)
    requires c.Valid() && GroupFits(c, g) && li < c.local && LaneReady(g.pc[li])
    ensures Rank(c, LaneStep(c, a, b, grp, li, g).pc[li]) < Rank(c, g.pc[li])
  {
    GlobalPositive(c);
    MulMono(1, c.unroll, c.Global());
    MulMono(0, c.unroll - 1, c.Global());
  }

  lemma LaneGroupRank(c: Launch, a: seq<real>, b: seq<real>, grp: nat, li: nat, g: Group)
    requires c.Valid() && GroupFits(c, g) && li < c.local && LaneReady(g.pc[li])
    ensures GroupRank(c, LaneStep(c, a, b, grp, li, g)) < GroupRank(c, g)
  {
    var h := LaneStep(c, a, b, grp, li, g);
    LaneRank(c, a, b, grp, li, g);
    var ranks := seq(|g.pc|, (lj: nat) requires lj < |g.pc| => Rank(c, g.pc[lj]));
    assert seq(|h.pc|, (lj: nat) requires lj < |h.pc| => Rank(c, h.pc[lj])) == ranks[li := Rank(c, h.pc[li])];
    TotalUpdate(ranks, li, Rank(c, h.pc[li]));
  }

  lemma BarrierGroupRank(c: Launch, g: Group)
    requires c.Valid() && GroupFits(c, g) && AllWait(c, g)
    ensures GroupRank(c, OpenBarrier(c, g)) < GroupRank(c, g)
  {
    var h := OpenBarrier(c, g);
    TotalLess(seq(|h.pc|, (li: nat) requires li < |h.pc| => Rank(c, h.pc[li])),
              seq(|g.pc|, (li: nat) requires li < |g.pc| => Rank(c, g.pc[li])));
  }

  /** Every event uses up some of the remaining work. */
  lemma StepDecreases(c: Launch, a: seq<real>, b: seq<real>, s: State, e: Event)
    requires c.Valid() && Fits(c, s) && Enabled(c, s, e)
    ensures Measure(c, Step(c, a, b, s, e)) < Measure(c, s)
  {
    var t := Step(c, a, b, s, e);
    match e {
      case Lane(grp, li) => LaneGroupRank(c, a, b, grp, li, s.group[grp]);
      case Release(grp) => BarrierGroupRank(c, s.group[grp]);
    }
    var ranks := seq(|s.group|, (i: nat) requires i < |s.group| => GroupRank(c, s.group[i]));
    assert seq(|t.group|, (i: nat) requires i < |t.group| => GroupRank(c, t.group[i])) ==
           ranks[e.grp := GroupRank(c, t.group[e.grp])];
    TotalUpdate(ranks, e.grp, GroupRank(c, t.group[e.grp]));
  }

  // ----- what the lanes fetch from the arrays

  /** A lane's next step fetches a and b at j. */
  ghost predicate Fetches(c: Launch, pc: Pc, j: nat) {
    match pc
    case Main(i) =>
      i + (c.unroll - 1) * c.Global() < c.n && exists rung: nat :: rung < Rungs(c) && j == i + rung * c.Global()
    case Tail(i) => i < c.n && j == i
    case _ => false
  }

  lemma RungIndex(c: Launch, i: nat, rung: nat)
    requires c.Valid() && rung < Rungs(c) && i + (c.unroll - 1) * c.Global() < c.n
    ensures i + rung * c.Global() < c.n
  {
    MulMono(rung, c.unroll - 1, c.Global());
  }

  /** Every element a lane fetches is inside the arrays: the guards of both loops suffice. */
  lemma FetchesInBounds(c: Launch, pc: Pc, j: nat)
    requires c.Valid() && Fetches(c, pc, j)
    ensures j < c.n
  {
    if pc.Main? {
      var rung: nat :| rung < Rungs(c) && j == pc.i + rung * c.Global();
      RungIndex(c, pc.i, rung);
    }
  }

  lemma {:induction false} UnrolledFetches(c: Launch, a: seq<real>, b: seq<real>, a': seq<real>, b': seq<real>,
                                         acc: real, i: nat, rungs: nat)
    requires forall rung: nat | rung < rungs :: Term(a, b, i + rung * c.Global()) == Term(a', b', i + rung * c.Global())
    ensures Unrolled(c, a, b, acc, i, rungs) == Unrolled(c, a', b', acc, i, rungs)
  {
    if rungs > 0 { UnrolledFetches(c, a, b, a', b', acc, i, rungs - 1); }
  }

  /** The two pairs of arrays agree wherever the next step of the lane fetches. */
  ghost predicate Agree(c: Launch, pc: Pc, a: seq<real>, b: seq<real>, a': seq<real>, b': seq<real>) {
    forall j: nat {:trigger Fetches(c, pc, j)} | Fetches(c, pc, j) :: Term(a, b, j) == Term(a', b', j)
  }

  lemma MainFetches(c: Launch, a: seq<real>, b: seq<real>, a': seq<real>, b': seq<real>, acc: real, i: nat)
    requires i + (c.unroll - 1) * c.Global() < c.n && Agree(c, Main(i), a, b, a', b')
    ensures Unrolled(c, a, b, acc, i, Rungs(c)) == Unrolled(c, a', b', acc, i, Rungs(c))
  {
    forall rung: nat | rung < Rungs(c)
      ensures Term(a, b, i + rung * c.Global()) == Term(a', b', i + rung * c.Global())
    {
      assert Fetches(c, Main(i), i + rung * c.Global());
    }
    UnrolledFetches(c, a, b, a', b', acc, i, Rungs(c));
  }

  /** And it fetches no others: arrays that agree there give the same step. */
  lemma FetchesAreAll(c: Launch, a: seq<real>, b: seq<real>, a': seq<real>, b': seq<real>, grp: nat, li: nat, g: Group)
    requires c.Valid() && GroupFits(c, g) && li < c.local && LaneReady(g.pc[li])
    requires Agree(c, g.pc[li], a, b, a', b')
    ensures LaneStep(c, a, b, grp, li, g) == LaneStep(c, a', b', grp, li, g)
  {
    var pc := g.pc[li];
    if pc.Main? && pc.i + (c.unroll - 1) * c.Global() < c.n {
      MainFetches(c, a, b, a', b', g.wg[li], pc.i);
    }
    if pc.Tail? && pc.i < c.n { assert Fetches(c, pc, pc.i); }
  }

  // ----- progress and races

  predicate Finished(c: Launch, s: State)
    requires Fits(c, s)
  {
    forall grp: nat, li: nat | grp < c.groups && li < c.local :: s.group[grp].pc[li].Done?
  }

  /** No lane is ever left behind at a barrier: until every lane is done some event is enabled. */
  lemma Progress(c: Launch, a: seq<real>, b: seq<real>, s: State)
    requires Inv(c, a, b, s) && !Finished(c, s)
    ensures exists e: Event :: Enabled(c, s, e)
  {
    var grp: nat, li: nat :| grp < c.groups && li < c.local && !s.group[grp].pc[li].Done?;
    var g := s.group[grp];
    if lj: nat :| lj < c.local && LaneReady(g.pc[lj]) {
      assert Enabled(c, s, Lane(grp, lj));
    } else {
      assert LaneOk(c, a, b, grp, g.gen, s.sum[grp], li, g.pc[li], g.wg[li]);
      forall lj: nat | lj < c.local ensures g.pc[lj].Wait? {
        assert LaneOk(c, a, b, grp, g.gen, s.sum[grp], lj, g.pc[lj], g.wg[lj]);
      }
      assert Enabled(c, s, Release(grp));
    }
  }

  /** The local slot a lane is about to write. */
  predicate Writes(pc: Pc, li: nat, slot: nat) {
    slot == li && (pc.Start? || pc.Main? || pc.Tail? || pc.Store?)
  }

  /** A local slot a lane is about to read. */
  predicate Reads(pc: Pc, li: nat, slot: nat) {
    || (slot == li && (pc.Main? || pc.Tail? || (pc.Load? && li < pc.offset) || (pc.Exit? && li == 0)))
    || (pc.Load? && li < pc.offset && slot == li + pc.offset)
  }

  /** The barriers are enough: no lane is about to write a slot that another lane
      of its group is about to read or write, and no slot a lane reads is out of
      the group's local memory. */
  lemma RaceFree(c: Launch, a: seq<real>, b: seq<real>, s: State, grp: nat, li: nat, lj: nat, slot: nat)
    requires Inv(c, a, b, s) && grp < c.groups && li < c.local && lj < c.local && li != lj
    ensures Writes(s.group[grp].pc[li], li, slot) ==>
              !Reads(s.group[grp].pc[lj], lj, slot) && !Writes(s.group[grp].pc[lj], lj, slot)
    ensures Reads(s.group[grp].pc[lj], lj, slot) ==> slot < c.local
  {
    var g := s.group[grp];
    assert LaneOk(c, a, b, grp, g.gen, s.sum[grp], li, g.pc[li], g.wg[li]);
    assert LaneOk(c, a, b, grp, g.gen, s.sum[grp], lj, g.pc[lj], g.wg[lj]);
  }

  // ----- whole runs

  /** The events can happen in this order. */
  ghost predicate Legal(c: Launch, a: seq<real>, b: seq<real>, s: State, events: seq<Event>)
    decreases |events|
  {
    |events| == 0 ||
    (Fits(c, s) && Enabled(c, s, events[0]) && Legal(c, a, b, Step(c, a, b, s, events[0]), events[1..]))
  }

  ghost function Run(c: Launch, a: seq<real>, b: seq<real>, s: State, events: seq<Event>): State
    requires Legal(c, a, b, s, events)
    decreases |events|
  {
    if |events| == 0 then s else Run(c, a, b, Step(c, a, b, s, events[0]), events[1..])
  }

  lemma {:induction false} RunKeepsInv(c: Launch, a: seq<real>, b: seq<real>, s: State, events: seq<Event>)
    requires Inv(c, a, b, s) && Legal(c, a, b, s, events)
    ensures Inv(c, a, b, Run(c, a, b, s, events))
    ensures |events| + Measure(c, Run(c, a, b, s, events)) <= Measure(c, s)
    decreases |events|
  {
    if |events| > 0 {
      StepKeepsInv(c, a, b, s, events[0]);
      StepDecreases(c, a, b, s, events[0]);
      RunKeepsInv(c, a, b, Step(c, a, b, s, events[0]), events[1..]);
    }
  }

  /** The host's loop over the partial sums. */
  function HostSum(c: Launch, s: State): real
    requires c.groups <= |s.sum|
  {
    Sum(c.groups, (grp: nat) => if grp < c.groups then s.sum[grp] else 0.0)
  }

  /** When every lane is done the partial sums add up to the counted dot, and every
      group passed the same floor(log2 local) barriers. */
  lemma FinishedSum(c: Launch, a: seq<real>, b: seq<real>, s: State)
    requires Inv(c, a, b, s) && Finished(c, s)
    ensures HostSum(c, s) == CountedDot(c, a, b)
    ensures forall grp: nat | grp < c.groups :: s.group[grp].gen == FloorLog2(c.local)
  {
    forall grp: nat | grp < c.groups
      ensures s.group[grp].gen == FloorLog2(c.local) && s.sum[grp] == GroupSum(c, a, b, grp)
    {
      var g := s.group[grp];
      assert LaneOk(c, a, b, grp, g.gen, s.sum[grp], 0, g.pc[0], g.wg[0]);
      assert Offset(c.local, g.gen) == 1;
      PhaseCount(c.local, g.gen);
      RootHoldsKeptSum(Partials(c, a, b, grp), g.gen);
    }
    SumCong(c.groups, (grp: nat) => if grp < c.groups then s.sum[grp] else 0.0,
            (grp: nat) => GroupSum(c, a, b, grp));
    LaunchTotal(c, a, b);
  }

  /** Every interleaving, from any leftover memory: runs are bounded, never stuck
      early, and end with the counted dot; so with the dot product itself exactly
      when the configuration is exact (see LaunchExactIff). */
  lemma EveryInterleaving(c: Launch, a: seq<real>, b: seq<real>, s: State, events: seq<Event>)
    requires c.Valid() && |a| == |b| == c.n && Initial(c, s) && Legal(c, a, b, s, events)
    ensures |events| <= Measure(c, s)
    ensures var t := Run(c, a, b, s, events);
            Fits(c, t) &&
            ((forall e: Event :: !Enabled(c, t, e)) ==>
               && Finished(c, t)
               && HostSum(c, t) == CountedDot(c, a, b)
               && forall grp: nat | grp < c.groups :: t.group[grp].gen == FloorLog2(c.local))
  {
    InitialInv(c, a, b, s);
    RunKeepsInv(c, a, b, s, events);
    var t := Run(c, a, b, s, events);
    if forall e: Event :: !Enabled(c, t, e) {
      if !Finished(c, t) { Progress(c, a, b, t); }
      FinishedSum(c, a, b, t);
    }
  }

  // ----- running it

  /** The host side: launch the kernel, let any enabled event happen next until
      every lane is done, and add up the partial sums. `local` and `dSum` hold
      whatever the last launch left there. */
  method ManualDot(c: Launch, a: seq<real>, b: seq<real>, local: seq<seq<real>>, dSum: seq<real>)
    returns (finalSum: real, hSum: seq<real>)
    requires c.Valid() && |a| == |b| == c.n && c.groups <= |dSum|
    requires |local| == c.groups && forall grp | 0 <= grp < c.groups :: |local[grp]| == c.local
    ensures finalSum == CountedDot(c, a, b)
    ensures |hSum| == |dSum|
  {
    var idle := seq(c.local, (li: nat) => Start);
    var s := State(seq(c.groups, (grp: nat) requires grp < c.groups => Group(idle, local[grp], 0)), dSum);
    InitialInv(c, a, b, s);
    while !Finished(c, s)
      invariant Inv(c, a, b, s) && |s.sum| == |dSum|
      decreases Measure(c, s)
    {
      Progress(c, a, b, s);
      var e := PickEvent(c, s);
      StepKeepsInv(c, a, b, s, e);
      StepDecreases(c, a, b, s, e);
      s := Step(c, a, b, s, e);
    }
    FinishedSum(c, a, b, s);
    hSum := s.sum;
    finalSum := 0.0;
    ghost var published := (grp: nat) => if grp < c.groups then s.sum[grp] else 0.0;
    for i := 0 to c.groups
      invariant finalSum == Sum(i, published)
    {
      finalSum := finalSum + hSum[i];
    }
    SumCong(c.groups, published, (grp: nat) => if grp < c.groups then s.sum[grp] else 0.0);
  }

  /** Any enabled event: the scheduler is not constrained further. */
  method PickEvent(c: Launch, s: State) returns (e: Event)
    requires Fits(c, s) && exists e: Event :: Enabled(c, s, e)
    ensures Enabled(c, s, e)
  {
    if {
      case exists grp: nat, li: nat :: grp < c.groups && li < c.local && Enabled(c, s, Lane(grp, li)) =>
        var grp: nat, li: nat :| grp < c.groups && li < c.local && Enabled(c, s, Lane(grp, li));
        e := Lane(grp, li);
      case exists grp: nat :: grp < c.groups && Enabled(c, s, Release(grp)) =>
        var grp: nat :| grp < c.groups && Enabled(c, s, Release(grp));
        e := Release(grp);
    }
  }
}
