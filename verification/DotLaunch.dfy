/** The arithmetic of a dot launch: which products each lane accumulates, and
    what the whole launch adds up to, for every configuration. */
module DotLaunch {
  import opened Sums
  import opened Tree
  import opened Kernels

  /** n array elements, `groups` work groups of `local` lanes, and the unroll factor. */
  datatype Launch = Launch(n: nat, groups: nat, local: nat, unroll: nat) {
    predicate Valid() {
      groups >= 1 && local >= 1 && unroll >= 1
    }

    function Global(): nat {
      groups * local
    }
  }

  function GlobalId(c: Launch, grp: nat, li: nat): nat {
    grp * c.local + li
  }

  /** The index a lane reaches after k strides. */
  function Index(c: Launch, g: nat, k: nat): nat {
    g + k * c.Global()
  }

  /** The ladder `if (unroll >= 1) ... if (unroll >= 8) ...` stops at eight. */
  function Rungs(c: Launch): nat {
    if c.unroll <= 8 then c.unroll else 8
  }

  /** The body of the unrolled loop: `rungs` products, one stride apart. */
  function Unrolled(c: Launch, a: seq<real>, b: seq<real>, acc: real, i: nat, rungs: nat): real {
    if rungs == 0 then acc
    else Unrolled(c, a, b, acc, i, rungs - 1) + Term(a, b, i + (rungs - 1) * c.Global())
  }

  /** The lane's k-th index is added: it is on a rung of the ladder, or its turn
      of the unrolled loop never ran and the remainder loop takes it. */
  predicate Accumulated(c: Launch, g: nat, k: nat)
    requires c.Valid()
  {
    var slot := k % c.unroll;
    slot < 8 || Index(c, g, k - slot) + (c.unroll - 1) * c.Global() >= c.n
  }

  function Share(c: Launch, a: seq<real>, b: seq<real>, g: nat, k: nat): real
    requires c.Valid()
  {
    if Accumulated(c, g, k) then Term(a, b, Index(c, g, k)) else 0.0
  }

  /** What lane g holds after its first k indices. */
  function LaneSum(c: Launch, a: seq<real>, b: seq<real>, g: nat, k: nat): real
    requires c.Valid()
  {
    Sum(k, (j: nat) => Share(c, a, b, g, j))
  }

  function LaneTotal(c: Launch, a: seq<real>, b: seq<real>, g: nat): real
    requires c.Valid()
  {
    LaneSum(c, a, b, g, c.n)
  }

  /** The lane totals of one group: what its local memory holds at the first barrier. */
  function Partials(c: Launch, a: seq<real>, b: seq<real>, grp: nat): (r: seq<real>)
    requires c.Valid()
    ensures |r| == c.local
  {
    seq(c.local, (li: nat) => LaneTotal(c, a, b, GlobalId(c, grp, li)))
  }

  /** Element i of the arrays takes part in the result. */
  predicate Counted(c: Launch, i: nat)
    requires c.Valid()
  {
    KeptIndex(c, i) && AccumulatedIndex(c, i)
  }

  predicate KeptIndex(c: Launch, i: nat)
    requires c.Valid()
  {
    Kept(c.local, i % c.local)
  }

  predicate AccumulatedIndex(c: Launch, i: nat)
    requires c.Valid()
  {
    GlobalPositive(c);
    Accumulated(c, i % c.Global(), i / c.Global())
  }

  function CountedTerm(c: Launch, a: seq<real>, b: seq<real>, i: nat): real
    requires c.Valid()
  {
    if Counted(c, i) then Term(a, b, i) else 0.0
  }

  /** What the launch returns: the products of the counted elements, each once. */
  function CountedDot(c: Launch, a: seq<real>, b: seq<real>): real
    requires c.Valid()
  {
    Sum(c.n, (i: nat) => CountedTerm(c, a, b, i))
  }

  /** A condition on the configuration alone, for the launch to be a dot product. */
  predicate ExactLaunch(c: Launch)
    requires c.Valid()
  {
    && (PowerOfTwo(c.local) || c.n <= FirstDropped(c.local))
    && (c.unroll <= 8 || c.n <= (c.unroll - 1) * c.Global())
  }

  // ----- index arithmetic

  lemma GlobalPositive(c: Launch)
    requires c.Valid()
    ensures c.Global() >= 1
  {
    assert c.groups * c.local >= 1 * c.local;
  }

  lemma DivModOf(k: nat, m: nat, r: nat)
    requires r < m
    ensures (k * m + r) / m == k && (k * m + r) % m == r
  {
    var x := k * m + r;
    var q := x / m;
    assert x == q * m + x % m;
    if q < k { MulMono(q + 1, k, m); }
    if q > k { MulMono(k + 1, q, m); }
  }

  lemma MulDistributes(x: nat, y: nat, m: nat)
    ensures (x + y) * m == x * m + y * m
  {
  }

  /** Consecutive slots inside one turn of the unrolled loop. */
  lemma SlotOf(k: nat, m: nat, u: nat)
    requires u >= 1 && k % u == 0 && m < u
    ensures (k + m) % u == m
  {
    var q := k / u;
    assert k + m == q * u + m;
    DivModOf(q, u, m);
  }

  lemma NextSlot(k: nat, u: nat)
    requires u >= 1
    ensures k % u <= k
    ensures (k + 1) % u == if k % u + 1 < u then k % u + 1 else 0
  {
    var q, r := k / u, k % u;
    assert k == q * u + r;
    if r + 1 < u {
      DivModOf(q, u, r + 1);
    } else {
      MulDistributes(q, 1, u);
      DivModOf(q + 1, u, 0);
    }
  }

  // ----- one lane

  /** After m slots of one full turn starting at slot 0, only the first eight were added. */
  lemma {:induction false} TurnSum(c: Launch, a: seq<real>, b: seq<real>, g: nat, k: nat, m: nat)
    requires c.Valid() && k % c.unroll == 0 && m <= c.unroll
    requires Index(c, g, k) + (c.unroll - 1) * c.Global() < c.n
    ensures LaneSum(c, a, b, g, k + m) ==
            Unrolled(c, a, b, LaneSum(c, a, b, g, k), Index(c, g, k), if m <= 8 then m else 8)
  {
    if m > 0 {
      TurnSum(c, a, b, g, k, m - 1);
      SlotOf(k, m - 1, c.unroll);
      MulDistributes(k, m - 1, c.Global());
    }
  }

  /** The remainder loop has started: the rest of this turn of the unrolled loop does not fit. */
  predicate InTail(c: Launch, g: nat, k: nat)
    requires c.Valid()
  {
    Index(c, g, k) >= c.n ||
    Index(c, g, k - k % c.unroll) + (c.unroll - 1) * c.Global() >= c.n
  }

  lemma TailAccumulated(c: Launch, g: nat, k: nat)
    requires c.Valid() && InTail(c, g, k) && Index(c, g, k) < c.n
    ensures Accumulated(c, g, k)
  {
  }

  lemma IndexNext(c: Launch, g: nat, k: nat)
    ensures Index(c, g, k + 1) == Index(c, g, k) + c.Global()
  {
    MulDistributes(k, 1, c.Global());
  }

  lemma TailStays(c: Launch, g: nat, k: nat)
    requires c.Valid() && InTail(c, g, k) && Index(c, g, k) < c.n
    ensures InTail(c, g, k + 1)
  {
    NextSlot(k, c.unroll);
    StaysAt(c, g, k, k % c.unroll, (k + 1) % c.unroll);
  }

  lemma StaysAt(c: Launch, g: nat, k: nat, slot: nat, next: nat)
    requires c.Valid() && slot == k % c.unroll && next == (k + 1) % c.unroll && slot <= k
    requires next == if slot + 1 < c.unroll then slot + 1 else 0
    requires Index(c, g, k - slot) + (c.unroll - 1) * c.Global() >= c.n && Index(c, g, k) < c.n
    ensures InTail(c, g, k + 1)
  {
    TailSlots(c, g, k, slot, next);
    SameTurn(c, g, k, slot, next);
  }

  lemma SameTurn(c: Launch, g: nat, k: nat, slot: nat, next: nat)
    requires c.Valid() && slot <= k && next == (k + 1) % c.unroll && (k + 1) - next == k - slot
    requires Index(c, g, k - slot) + (c.unroll - 1) * c.Global() >= c.n
    ensures InTail(c, g, k + 1)
  {
  }

  /** One turn of the remainder loop. */
  lemma TailStep(c: Launch, a: seq<real>, b: seq<real>, g: nat, k: nat)
    requires c.Valid() && InTail(c, g, k) && Index(c, g, k) < c.n
    ensures LaneSum(c, a, b, g, k + 1) == LaneSum(c, a, b, g, k) + Term(a, b, Index(c, g, k))
    ensures InTail(c, g, k + 1)
    ensures Index(c, g, k + 1) == Index(c, g, k) + c.Global()
  {
    IndexNext(c, g, k);
    TailStays(c, g, k);
    TailAccumulated(c, g, k);
  }

  /** The remainder loop never reaches the end of an unrolled turn. */
  lemma TailSlots(c: Launch, g: nat, k: nat, slot: nat, next: nat)
    requires c.Valid() && slot <= k && slot < c.unroll
    requires Index(c, g, k - slot) + (c.unroll - 1) * c.Global() >= c.n && Index(c, g, k) < c.n
    requires next == if slot + 1 < c.unroll then slot + 1 else 0
    ensures slot + 1 < c.unroll && (k + 1) - next == k - slot
  {
    MulDistributes(k - slot, slot, c.Global());
  }

  lemma LateShare(c: Launch, a: seq<real>, b: seq<real>, g: nat, j: nat)
    requires c.Valid() && |a| == |b| == c.n && Index(c, g, j) >= c.n
    ensures Share(c, a, b, g, j) == 0.0
  {
  }

  lemma IndexMono(c: Launch, g: nat, k: nat, j: nat)
    requires c.Valid()
    ensures k <= j ==> Index(c, g, k) <= Index(c, g, j)
    ensures Index(c, g, j) >= j
  {
    GlobalPositive(c);
    if k <= j { MulMono(k, j, c.Global()); }
    MulMono(1, c.Global(), j);
  }

  /** Past the end of the arrays a lane's total no longer changes. */
  lemma LaneFinished(c: Launch, a: seq<real>, b: seq<real>, g: nat, k: nat)
    requires c.Valid() && |a| == |b| == c.n && Index(c, g, k) >= c.n
    ensures LaneSum(c, a, b, g, k) == LaneTotal(c, a, b, g)
  {
    var f := (j: nat) => Share(c, a, b, g, j);
    forall j: nat | j >= k || j >= c.n ensures f(j) == 0.0 {
      IndexMono(c, g, k, j);
      LateShare(c, a, b, g, j);
    }
    if k <= c.n { SumPad(k, c.n, f); } else { SumPad(c.n, k, f); }
  }

  // ----- the whole launch

  function LaneTerm(c: Launch, a: seq<real>, b: seq<real>, g: nat): real
    requires c.Valid()
  {
    if Kept(c.local, g % c.local) then LaneTotal(c, a, b, g) else 0.0
  }

  function GroupSum(c: Launch, a: seq<real>, b: seq<real>, grp: nat): real
    requires c.Valid()
  {
    KeptSum(c.local, Partials(c, a, b, grp))
  }

  lemma GroupOfLanes(c: Launch, a: seq<real>, b: seq<real>, grp: nat, lanes: nat -> real)
    requires c.Valid() && forall g: nat :: lanes(g) == LaneTerm(c, a, b, g)
    ensures GroupSum(c, a, b, grp) == Sum(c.local, (r: nat) => lanes(grp * c.local + r))
  {
    var v := Partials(c, a, b, grp);
    forall r: nat | r < c.local
      ensures KeptTerm(c.local, v, r) == lanes(grp * c.local + r)
    {
      DivModOf(grp, c.local, r);
    }
    SumCong(c.local, (s: nat) => KeptTerm(c.local, v, s), (r: nat) => lanes(grp * c.local + r));
  }

  lemma LanesByGroup(c: Launch, a: seq<real>, b: seq<real>)
    requires c.Valid()
    ensures Sum(c.groups, (grp: nat) => GroupSum(c, a, b, grp)) ==
            Sum(c.Global(), (g: nat) => LaneTerm(c, a, b, g))
  {
    var lanes := (g: nat) => LaneTerm(c, a, b, g);
    var groups := (grp: nat) => GroupSum(c, a, b, grp);
    forall grp: nat | grp < c.groups
      ensures groups(grp) == Sum(c.local, (r: nat) => lanes(grp * c.local + r))
    {
      GroupOfLanes(c, a, b, grp, lanes);
    }
    SumBlocks(c.groups, c.local, lanes, groups);
  }

  /** One stride of all lanes together covers one stretch of consecutive indices. */
  lemma Turns(n: nat, w: nat, counted: nat -> real, lanes: nat -> real)
    requires w >= 1 && forall i: nat | i >= n :: counted(i) == 0.0
    requires forall g: nat | g < w :: lanes(g) == Sum(n, (k: nat) => counted(k * w + g))
    ensures Sum(w, lanes) == Sum(n, counted)
  {
    var dealt := (g: nat, k: nat) => counted(k * w + g);
    var perTurn := (k: nat) => Sum(w, (g: nat) => counted(k * w + g));
    forall g: nat | g < w ensures lanes(g) == Sum(n, (k: nat) => dealt(g, k)) {
      SumCong(n, (k: nat) => counted(k * w + g), (k: nat) => dealt(g, k));
    }
    forall k: nat | k < n ensures perTurn(k) == Sum(w, (g: nat) => dealt(g, k)) {
      SumCong(w, (g: nat) => counted(k * w + g), (g: nat) => dealt(g, k));
    }
    SumSwap(w, n, dealt, lanes, perTurn);
    SumBlocks(n, w, counted, perTurn);
    MulMono(1, w, n);
    SumPad(n, n * w, counted);
  }

  lemma LanesByTurn(c: Launch, a: seq<real>, b: seq<real>)
    requires c.Valid() && |a| == |b| == c.n
    ensures Sum(c.Global(), (g: nat) => LaneTerm(c, a, b, g)) == CountedDot(c, a, b)
  {
    GlobalPositive(c);
    var w := c.Global();
    var counted := (i: nat) => CountedTerm(c, a, b, i);
    var lanes := (g: nat) => LaneTerm(c, a, b, g);
    forall g: nat | g < w ensures lanes(g) == Sum(c.n, (k: nat) => counted(k * w + g)) {
      LaneDeal(c, a, b, g, counted);
    }
    Turns(c.n, w, counted, lanes);
  }

  /** The kept lanes of every group, added up, are the counted elements, each once:
      grid striding deals every index to exactly one lane and slot. */
  lemma LaunchTotal(c: Launch, a: seq<real>, b: seq<real>)
    requires c.Valid() && |a| == |b| == c.n
    ensures Sum(c.groups, (grp: nat) => GroupSum(c, a, b, grp)) == CountedDot(c, a, b)
  {
    LanesByGroup(c, a, b);
    LanesByTurn(c, a, b);
  }

  /** The k-th element dealt to lane g. */
  lemma DealtTerm(c: Launch, a: seq<real>, b: seq<real>, g: nat, k: nat)
    requires c.Valid() && g < c.Global()
    ensures CountedTerm(c, a, b, k * c.Global() + g) ==
            if Kept(c.local, g % c.local) then Share(c, a, b, g, k) else 0.0
  {
    DivModOf(k, c.Global(), g);
    LocalOf(c, k, g);
  }

  /** Lane g's contribution, as the counted elements dealt to it. */
  lemma LaneDeal(c: Launch, a: seq<real>, b: seq<real>, g: nat, counted: nat -> real)
    requires c.Valid() && |a| == |b| == c.n && g < c.Global()
    requires forall i: nat :: counted(i) == CountedTerm(c, a, b, i)
    ensures LaneTerm(c, a, b, g) == Sum(c.n, (k: nat) => counted(k * c.Global() + g))
  {
    var w := c.Global();
    var mine := (k: nat) => counted(k * w + g);
    var kept := Kept(c.local, g % c.local);
    forall k: nat | k < c.n ensures mine(k) == if kept then Share(c, a, b, g, k) else 0.0 {
      DealtTerm(c, a, b, g, k);
    }
    if kept {
      SumCong(c.n, mine, (j: nat) => Share(c, a, b, g, j));
    } else {
      SumPad(0, c.n, mine);
    }
    SumCong(c.n, mine, (k: nat) => counted(k * c.Global() + g));
  }

  /** A stride keeps the local id, because groups are whole. */
  lemma LocalOf(c: Launch, k: nat, g: nat)
    requires c.Valid()
    ensures (k * c.Global() + g) % c.local == g % c.local
  {
    var q, r := g / c.local, g % c.local;
    assert g == q * c.local + r;
    assert k * c.Global() == (k * c.groups) * c.local;
    MulDistributes(k * c.groups, q, c.local);
    DivModOf(k * c.groups + q, c.local, r);
  }

  lemma AccumulatedWhenExact(c: Launch, g: nat, k: nat)
    requires c.Valid() && ExactLaunch(c)
    ensures Accumulated(c, g, k)
  {
    if c.unroll <= 8 {
      assert k % c.unroll < 8;
    }
  }

  lemma AccumulatedIndexWhenExact(c: Launch, i: nat)
    requires c.Valid() && ExactLaunch(c)
    ensures AccumulatedIndex(c, i)
  {
    GlobalPositive(c);
    AccumulatedWhenExact(c, i % c.Global(), i / c.Global());
  }

  lemma KeptIndexWhenExact(c: Launch, i: nat)
    requires c.Valid() && ExactLaunch(c) && i < c.n
    ensures KeptIndex(c, i)
  {
    KeptWhen(c.local, c.n, i);
  }

  lemma CountedWhenExact(c: Launch, i: nat)
    requires c.Valid() && ExactLaunch(c) && i < c.n
    ensures Counted(c, i)
  {
    KeptIndexWhenExact(c, i);
    AccumulatedIndexWhenExact(c, i);
  }

  /** The first index left out: the first dropped slot, or the ninth rung of the
      ladder in lane 0's first turn. */
  lemma LostIndex(c: Launch)
    requires c.Valid() && !ExactLaunch(c)
    ensures exists i: nat :: i < c.n && !Counted(c, i)
  {
    GlobalPositive(c);
    var w := c.Global();
    if !PowerOfTwo(c.local) && c.n > FirstDropped(c.local) {
      var d := FirstDropped(c.local);
      FirstDroppedIsFirst(c.local, 0);
      SmallMod(d, c.local);
      assert d < c.n && !Counted(c, d);
    } else {
      MulMono(8, c.unroll - 1, w);
      DivModOf(8, w, 0);
      SmallMod(8, c.unroll);
      assert 8 * w < c.n && !Counted(c, 8 * w);
    }
  }

  /** The launch computes the dot product of all arrays of its length exactly
      when the configuration is exact. */
  lemma LaunchExactIff(c: Launch)
    requires c.Valid()
    ensures (forall a: seq<real>, b: seq<real> | |a| == |b| == c.n ::
               CountedDot(c, a, b) == DotProduct(c.n, a, b)) <==> ExactLaunch(c)
  {
    if ExactLaunch(c) {
      forall a: seq<real>, b: seq<real> | |a| == |b| == c.n
        ensures CountedDot(c, a, b) == DotProduct(c.n, a, b)
      {
        forall i: nat | i < c.n ensures Counted(c, i) { CountedWhenExact(c, i); }
        SumCong(c.n, (i: nat) => CountedTerm(c, a, b, i), (i: nat) => Term(a, b, i));
      }
    } else {
      LostIndex(c);
      var i: nat :| i < c.n && !Counted(c, i);
      LostElement(c, i);
    }
  }

  /** An element that is not counted is missed: arrays that are zero elsewhere show it. */
  lemma LostElement(c: Launch, i: nat)
    requires c.Valid() && i < c.n && !Counted(c, i)
    ensures exists a: seq<real>, b: seq<real> ::
              |a| == |b| == c.n && CountedDot(c, a, b) != DotProduct(c.n, a, b)
  {
    var unit := seq(c.n, (j: nat) => if j == i then 1.0 else 0.0);
    SumPoint(c.n, i, (j: nat) => Term(unit, unit, j));
    SumPad(0, c.n, (j: nat) => CountedTerm(c, unit, unit, j));
    assert |unit| == |unit| == c.n && CountedDot(c, unit, unit) != DotProduct(c.n, unit, unit);
  }

  /** Unrolling up to eight changes no lane's total: the unrolled and the remainder
      loop together add exactly what the plain grid-stride loop adds. */
  lemma UnrollTransparent(c: Launch, a: seq<real>, b: seq<real>, g: nat)
    requires c.Valid() && c.unroll <= 8
    ensures LaneTotal(c, a, b, g) == LaneTotal(c.(unroll := 1), a, b, g)
  {
    var plain := c.(unroll := 1);
    forall k: nat | k < c.n ensures Share(c, a, b, g, k) == Share(plain, a, b, g, k) {
      assert k % c.unroll < 8 && k % plain.unroll < 8;
      assert Index(c, g, k) == Index(plain, g, k);
    }
    SumCong(c.n, (k: nat) => Share(c, a, b, g, k), (k: nat) => Share(plain, a, b, g, k));
  }

  /** How many elements take part. */
  function CountedElements(c: Launch): (k: nat)
    requires c.Valid()
    ensures k <= c.n
  {
    Count(c.n, (i: nat) => Counted(c, i))
  }

  /** The products of the chosen elements. */
  function ChosenDot(n: nat, chosen: nat -> bool, a: seq<real>, b: seq<real>): real {
    Sum(n, (i: nat) => if chosen(i) then Term(a, b, i) else 0.0)
  }

  lemma ChosenUniform(n: nat, chosen: nat -> bool, a: seq<real>, b: seq<real>, v: real)
    requires forall i: nat | i < n :: Term(a, b, i) == v
    ensures ChosenDot(n, chosen, a, b) == Count(n, chosen) as real * v
  {
    CountScaled(n, chosen, (i: nat) => if chosen(i) then Term(a, b, i) else 0.0, v);
  }

  lemma CountedChoice(c: Launch, a: seq<real>, b: seq<real>) returns (chosen: nat -> bool)
    requires c.Valid()
    ensures CountedDot(c, a, b) == ChosenDot(c.n, chosen, a, b)
    ensures CountedElements(c) == Count(c.n, chosen)
  {
    chosen := (i: nat) => Counted(c, i);
    SumCong(c.n, (i: nat) => CountedTerm(c, a, b, i), (i: nat) => if chosen(i) then Term(a, b, i) else 0.0);
    CountCong(c.n, (i: nat) => Counted(c, i), chosen);
  }

  /** k of n equal products, as totals that are given. */
  lemma ChosenTotals(n: nat, chosen: nat -> bool, a: seq<real>, b: seq<real>, v: real, k: nat, total: real)
    requires forall i: nat | i < n :: Term(a, b, i) == v
    requires total == ChosenDot(n, chosen, a, b) && k == Count(n, chosen)
    ensures total == k as real * v
  {
    ChosenUniform(n, chosen, a, b, v);
  }

  /** On uniform arrays a launch returns the product once per counted element. */
  lemma CountedUniform(c: Launch, a: seq<real>, b: seq<real>, v: real)
    requires c.Valid() && forall i: nat | i < c.n :: Term(a, b, i) == v
    ensures CountedDot(c, a, b) == CountedElements(c) as real * v
  {
    var chosen := CountedChoice(c, a, b);
    ChosenTotals(c.n, chosen, a, b, v, CountedElements(c), CountedDot(c, a, b));
  }

  lemma UniformDotCounted(c: Launch, x: real, y: real, z: real, v: real)
    requires c.Valid() && v == x * y
    ensures var u := Uniform(c.n, x, y, z);
            CountedDot(c, u.a, u.b) == CountedElements(c) as real * v
  {
    var u := Uniform(c.n, x, y, z);
    forall i: nat | i < c.n ensures Term(u.a, u.b, i) == v {
      assert u.a[i] == x && u.b[i] == y;
    }
    CountedUniform(c, u.a, u.b, v);
  }

  lemma AllCount(c: Launch)
    requires c.Valid() && forall i: nat | i < c.n :: Counted(c, i)
    ensures CountedElements(c) == c.n
  {
    CountAll(c.n, (i: nat) => Counted(c, i));
  }

  lemma LostCounts(c: Launch, i: nat)
    requires c.Valid() && i < c.n && !Counted(c, i)
    ensures CountedElements(c) < c.n
  {
    var p := (j: nat) => Counted(c, j);
    CountAll(c.n, p);
    assert !p(i);
  }

  /** Every element takes part exactly when the configuration is exact. */
  lemma AllCountedIff(c: Launch)
    requires c.Valid()
    ensures CountedElements(c) == c.n <==> ExactLaunch(c)
  {
    if ExactLaunch(c) {
      forall i: nat | i < c.n ensures Counted(c, i) { CountedWhenExact(c, i); }
      AllCount(c);
    } else {
      LostIndex(c);
      var i: nat :| i < c.n && !Counted(c, i);
      LostCounts(c, i);
    }
  }

  /** Groups of three lanes drop every third element. */
  lemma ThirdLaneLost(c: Launch, i: nat)
    requires c.Valid() && c.local == 3 && c.unroll <= 8
    ensures Counted(c, i) <==> i % 3 != 2
  {
    GlobalPositive(c);
    var slot := (i / c.Global()) % c.unroll;
    assert slot < c.unroll;
  }

  lemma {:induction false} CountThirds(n: nat, p: nat -> bool)
    requires forall i: nat | i < n :: p(i) <==> i % 3 != 2
    ensures Count(n, p) + n / 3 == n
  {
    if n > 0 { CountThirds(n - 1, p); }
  }

  lemma ThreeLanesCount(c: Launch)
    requires c.Valid() && c.local == 3 && c.unroll <= 8
    ensures CountedElements(c) + c.n / 3 == c.n
  {
    forall i: nat ensures Counted(c, i) <==> i % 3 != 2 {
      ThirdLaneLost(c, i);
    }
    CountThirds(c.n, (i: nat) => Counted(c, i));
  }
}
