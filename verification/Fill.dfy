/** The init kernels: every thread stores the three initial values at each of its
    indices, and the stores of all threads interleave. */
module Fill {
  import opened Sums
  import opened Kernels
  import opened Interleave

  /** Whether a thread fills all three arrays index by index, or one array after another. */
  datatype FillOrder = ByIndex | ByArray

  /** A thread at index i of its loop, about to store to the array that `next` counts:
      0, 1 or 2; at 3 it is done. */
  datatype Filler = Filler(i: nat, next: nat)

  datatype State = State(mem: Mem, threads: seq<Filler>)

  datatype Values = Values(a: real, b: real, c: real)

  function SpawnFill(loops: seq<Loop>): seq<Filler> {
    seq(|loops|, (t: nat) requires t < |loops| => Filler(loops[t].first, 0))
  }

  predicate Busy(l: Loop, th: Filler) {
    th.i < l.limit && th.next < 3
  }

  predicate FillEnabled(n: nat, loops: seq<Loop>, s: State, t: nat) {
    && t < |loops| && |s.threads| == |loops| && s.mem.Sized(n)
    && s.threads[t].i < n && Busy(loops[t], s.threads[t])
  }

  function FillMem(v: Values, m: Mem, th: Filler): Mem
    requires m.Sized(|m.a|) && th.i < |m.a|
  {
    if th.next == 0 then m.(a := m.a[th.i := v.a])
    else if th.next == 1 then m.(b := m.b[th.i := v.b])
    else m.(c := m.c[th.i := v.c])
  }

  function NextFiller(order: FillOrder, l: Loop, th: Filler): Filler {
    match order
    case ByIndex => if th.next < 2 then Filler(th.i, th.next + 1) else Filler(th.i + l.stride, 0)
    case ByArray => if th.i + l.stride < l.limit then Filler(th.i + l.stride, th.next) else Filler(l.first, th.next + 1)
  }

  /** One store of thread t. */
  function FillStep(n: nat, order: FillOrder, v: Values, loops: seq<Loop>, s: State, t: nat): State
    requires FillEnabled(n, loops, s, t)
  {
    State(FillMem(v, s.mem, s.threads[t]), s.threads[t := NextFiller(order, loops[t], s.threads[t])])
  }

  /** The thread has been past the store to this array at x. */
  predicate Written(order: FillOrder, th: Filler, which: nat, x: nat) {
    match order
    case ByIndex => x < th.i || (x == th.i && which < th.next)
    case ByArray => which < th.next || (which == th.next && x < th.i)
  }

  /** The array holds its initial value at x. */
  predicate Filled(v: Values, m: Mem, which: nat, x: nat)
    requires m.Sized(|m.a|)
  {
    && x < |m.a|
    && (which == 0 ==> m.a[x] == v.a)
    && (which == 1 ==> m.b[x] == v.b)
    && (which == 2 ==> m.c[x] == v.c)
  }

  ghost predicate FillerOk(order: FillOrder, v: Values, l: Loop, m: Mem, th: Filler)
    requires m.Sized(|m.a|)
  {
    && OnStride(l, th.i) && th.next <= 3 && (order.ByIndex? ==> th.next <= 2)
    && (order.ByArray? ==> th.i < l.limit || th.i == l.first)
    && forall which: nat, x: nat {:trigger Filled(v, m, which, x)} ::
         which < 3 && Hits(l, x) && Written(order, th, which, x) ==> Filled(v, m, which, x)
  }

  ghost predicate FillInv(n: nat, order: FillOrder, v: Values, loops: seq<Loop>, s: State) {
    && s.mem.Sized(n) && |s.threads| == |loops|
    && forall t: nat | t < |loops| :: InBounds(loops[t], n) && FillerOk(order, v, loops[t], s.mem, s.threads[t])
  }

  /** No store undoes another: all threads store the same values. */
  lemma StoresAgree(order: FillOrder, v: Values, l: Loop, m: Mem, th: Filler, other: Filler)
    requires m.Sized(|m.a|) && other.i < |m.a| && FillerOk(order, v, l, m, th)
    ensures FillerOk(order, v, l, FillMem(v, m, other), th)
  {
    forall which: nat, x: nat | which < 3 && Hits(l, x) && Written(order, th, which, x)
      ensures Filled(v, FillMem(v, m, other), which, x)
    {
      assert Filled(v, m, which, x);
    }
  }

  /** The next position is past this store and the earlier ones, and past no others. */
  lemma WrittenNext(order: FillOrder, l: Loop, th: Filler, which: nat, x: nat)
    requires OnStride(l, th.i) && Busy(l, th) && which < 3 && Hits(l, x)
    requires Written(order, NextFiller(order, l, th), which, x)
    ensures Written(order, th, which, x) || (which == th.next && x == th.i)
  {
    StrideNext(l, th.i, x);
    OnStrideFrom(l, x);
  }

  lemma OnStrideNext(order: FillOrder, l: Loop, th: Filler)
    requires OnStride(l, th.i)
    ensures OnStride(l, NextFiller(order, l, th).i) && OnStride(l, l.first)
  {
    StrideNext(l, th.i, 0);
  }

  lemma OwnStore(n: nat, order: FillOrder, v: Values, l: Loop, m: Mem, th: Filler)
    requires m.Sized(n) && InBounds(l, n) && th.i < n && Busy(l, th) && FillerOk(order, v, l, m, th)
    ensures FillerOk(order, v, l, FillMem(v, m, th), NextFiller(order, l, th))
  {
    StoresAgree(order, v, l, m, th, th);
    OnStrideNext(order, l, th);
    var after := FillMem(v, m, th);
    forall which: nat, x: nat | which < 3 && Hits(l, x) && Written(order, NextFiller(order, l, th), which, x)
      ensures Filled(v, after, which, x)
    {
      WrittenNext(order, l, th, which, x);
    }
  }

  lemma FillKeepsInv(n: nat, order: FillOrder, v: Values, loops: seq<Loop>, s: State, t: nat)
    requires FillInv(n, order, v, loops, s) && FillEnabled(n, loops, s, t)
    ensures FillInv(n, order, v, loops, FillStep(n, order, v, loops, s, t))
  {
    OwnStore(n, order, v, loops[t], s.mem, s.threads[t]);
    forall u: nat | u < |loops| && u != t
      ensures FillerOk(order, v, loops[u], FillMem(v, s.mem, s.threads[t]), s.threads[u])
    {
      StoresAgree(order, v, loops[u], s.mem, s.threads[u], s.threads[t]);
    }
  }

  lemma SpawnFillInv(n: nat, order: FillOrder, v: Values, loops: seq<Loop>, m: Mem)
    requires m.Sized(n) && forall t: nat | t < |loops| :: InBounds(loops[t], n)
    ensures FillInv(n, order, v, loops, State(m, SpawnFill(loops)))
  {
    forall t: nat | t < |loops| ensures FillerOk(order, v, loops[t], m, SpawnFill(loops)[t]) {
      forall x: nat | Hits(loops[t], x) ensures x >= loops[t].first { OnStrideFrom(loops[t], x); }
    }
  }

  lemma BusyEnabled(n: nat, order: FillOrder, v: Values, loops: seq<Loop>, s: State, t: nat)
    requires FillInv(n, order, v, loops, s) && t < |loops| && Busy(loops[t], s.threads[t])
    ensures FillEnabled(n, loops, s, t)
  {
    assert Hits(loops[t], s.threads[t].i);
  }

  /** The most stores a thread has left, and one more for each array. */
  function FillRank(order: FillOrder, l: Loop, th: Filler): nat {
    var here := if th.i < l.limit then l.limit - th.i else 0;
    var whole := if l.first < l.limit then l.limit - l.first + 1 else 1;
    if th.next >= 3 then 0
    else match order
         case ByIndex => 3 * here + 3 - th.next
         case ByArray => (if th.next == 0 then 2 * whole else if th.next == 1 then whole else 0) + here + 1
  }

  function FillMeasure(order: FillOrder, loops: seq<Loop>, threads: seq<Filler>): nat
    requires |loops| == |threads|
  {
    Total(seq(|loops|, (t: nat) requires t < |loops| => FillRank(order, loops[t], threads[t])))
  }

  lemma FillDecreases(n: nat, order: FillOrder, v: Values, loops: seq<Loop>, s: State, t: nat)
    requires FillEnabled(n, loops, s, t) && loops[t].stride >= 1
    ensures FillMeasure(order, loops, FillStep(n, order, v, loops, s, t).threads) <
            FillMeasure(order, loops, s.threads)
  {
    var after := FillStep(n, order, v, loops, s, t).threads;
    var ranks := seq(|loops|, (u: nat) requires u < |loops| => FillRank(order, loops[u], s.threads[u]));
    assert seq(|loops|, (u: nat) requires u < |loops| => FillRank(order, loops[u], after[u])) ==
           ranks[t := FillRank(order, loops[t], after[t])];
    TotalUpdate(ranks, t, FillRank(order, loops[t], after[t]));
  }

  /** A thread that is not busy has stored to all arrays at all of its indices. */
  lemma IdleFilled(order: FillOrder, v: Values, l: Loop, m: Mem, th: Filler, x: nat)
    requires m.Sized(|m.a|) && FillerOk(order, v, l, m, th) && !Busy(l, th) && Hits(l, x)
    ensures x < |m.a| && m.a[x] == v.a && m.b[x] == v.b && m.c[x] == v.c
  {
    OnStrideFrom(l, x);
    assert Filled(v, m, 0, x) && Filled(v, m, 1, x) && Filled(v, m, 2, x);
  }

  /** The threads stay inside the arrays and leave no index out. */
  ghost predicate Covers(loops: seq<Loop>, n: nat) {
    && (forall t: nat | t < |loops| :: InBounds(loops[t], n))
    && (forall x: nat | x < n :: Visits(loops, x) >= 1)
  }

  /** When no thread has anything left to store, arrays whose every index some
      thread visits hold the initial values. */
  lemma FillDone(n: nat, order: FillOrder, v: Values, loops: seq<Loop>, s: State)
    requires FillInv(n, order, v, loops, s) && Covers(loops, n)
    requires forall t: nat | t < |loops| :: !Busy(loops[t], s.threads[t])
    ensures s.mem == Uniform(n, v.a, v.b, v.c)
  {
    var u := Uniform(n, v.a, v.b, v.c);
    forall x: nat | x < n ensures s.mem.a[x] == u.a[x] && s.mem.b[x] == u.b[x] && s.mem.c[x] == u.c[x] {
      assert Visits(loops, x) >= 1;
      CountZero(|loops|, (t: nat) => t < |loops| && Hits(loops[t], x));
      var t: nat :| t < |loops| && Hits(loops[t], x);
      IdleFilled(order, v, loops[t], s.mem, s.threads[t], x);
    }
    assert s.mem.a == u.a && s.mem.b == u.b && s.mem.c == u.c;
  }

  /** An init kernel on live buffers: any busy thread may store next. */
  method ExecuteFill(order: FillOrder, v: Values, loops: seq<Loop>, a: array<real>, b: array<real>, c: array<real>)
    requires a.Length == b.Length == c.Length && a != b && b != c && a != c
    requires Covers(loops, a.Length)
    modifies a, b, c
    ensures Mem(a[..], b[..], c[..]) == Uniform(a.Length, v.a, v.b, v.c)
  {
    var threads := SpawnFill(loops);
    ghost var n := a.Length;
    SpawnFillInv(n, order, v, loops, Mem(a[..], b[..], c[..]));
    while exists t: nat :: t < |loops| && Busy(loops[t], threads[t])
      invariant |threads| == |loops|
      invariant FillInv(n, order, v, loops, State(Mem(a[..], b[..], c[..]), threads))
      decreases FillMeasure(order, loops, threads)
    {
      var t: nat :| t < |loops| && Busy(loops[t], threads[t]);
      ghost var s := State(Mem(a[..], b[..], c[..]), threads);
      BusyEnabled(n, order, v, loops, s, t);
      FillKeepsInv(n, order, v, loops, s, t);
      FillDecreases(n, order, v, loops, s, t);
      var i := threads[t].i;
      match threads[t].next {
        case 0 => a[i] := v.a; assert a[..] == s.mem.a[i := v.a];
        case 1 => b[i] := v.b; assert b[..] == s.mem.b[i := v.b];
        case _ => c[i] := v.c; assert c[..] == s.mem.c[i := v.c];
      }
      threads := threads[t := NextFiller(order, loops[t], threads[t])];
      assert State(Mem(a[..], b[..], c[..]), threads) == FillStep(n, order, v, loops, s, t);
    }
    FillDone(n, order, v, loops, State(Mem(a[..], b[..], c[..]), threads));
  }
}
