/** The dot product of the Rust threads: each sums its own loop into a local
    accumulator, and the accumulators are added in the order of the joins. */
module ThreadedDot {
  import opened Sums
  import opened Kernels
  import opened Interleave

  /** What a loop at index i has still to add. */
  function LoopDot(l: Loop, a: seq<real>, b: seq<real>, i: nat): real
    decreases l.limit - i
  {
    if i < l.limit && l.stride >= 1 then Term(a, b, i) + LoopDot(l, a, b, i + l.stride) else 0.0
  }

  function Remaining(l: Loop, a: seq<real>, b: seq<real>, i: nat, x: nat): real {
    if x >= i && Hits(l, x) then Term(a, b, x) else 0.0
  }

  /** A loop adds exactly the indices it hits. */
  lemma {:induction false} LoopAddsHits(n: nat, l: Loop, a: seq<real>, b: seq<real>, i: nat)
    requires InBounds(l, n) && OnStride(l, i)
    ensures LoopDot(l, a, b, i) == Sum(n, (x: nat) => Remaining(l, a, b, i, x))
    decreases l.limit - i
  {
    var now := (x: nat) => Remaining(l, a, b, i, x);
    if i < l.limit {
      assert Hits(l, i);
      var next := i + l.stride;
      StrideNext(l, i, 0);
      LoopAddsHits(n, l, a, b, next);
      var here := (x: nat) => if x == i then Term(a, b, i) else 0.0;
      forall x: nat | x < n
        ensures now(x) == here(x) + Remaining(l, a, b, next, x)
      {
        StrideNext(l, i, x);
      }
      SumPlus(n, here, (x: nat) => Remaining(l, a, b, next, x), now);
      SumPoint(n, i, here);
    } else {
      SumPad(0, n, now);
    }
  }

  function Share(loops: seq<Loop>, a: seq<real>, b: seq<real>, t: nat, x: nat): real {
    if t < |loops| && Hits(loops[t], x) then Term(a, b, x) else 0.0
  }

  /** Added over all threads, an index counts as often as it is visited. */
  lemma SharesByVisits(loops: seq<Loop>, a: seq<real>, b: seq<real>, x: nat)
    ensures Sum(|loops|, (t: nat) => Share(loops, a, b, t, x)) == Visits(loops, x) as real * Term(a, b, x)
  {
    CountScaled(|loops|, (t: nat) => t < |loops| && Hits(loops[t], x), (t: nat) => Share(loops, a, b, t, x),
                Term(a, b, x));
  }

  /** The joined accumulators are the products weighted by how often each index is visited. */
  lemma JoinedDot(n: nat, loops: seq<Loop>, a: seq<real>, b: seq<real>)
    requires forall t: nat | t < |loops| :: InBounds(loops[t], n)
    ensures Sum(|loops|, (t: nat) => if t < |loops| then LoopDot(loops[t], a, b, loops[t].first) else 0.0) ==
            Sum(n, (x: nat) => Visits(loops, x) as real * Term(a, b, x))
  {
    var h := (t: nat, x: nat) => Share(loops, a, b, t, x);
    var rows := (t: nat) => if t < |loops| then LoopDot(loops[t], a, b, loops[t].first) else 0.0;
    var cols := (x: nat) => Visits(loops, x) as real * Term(a, b, x);
    forall t: nat | t < |loops| ensures rows(t) == Sum(n, (x: nat) => h(t, x)) {
      LoopAddsHits(n, loops[t], a, b, loops[t].first);
      SumCong(n, (x: nat) => Remaining(loops[t], a, b, loops[t].first, x), (x: nat) => h(t, x));
    }
    forall x: nat | x < n ensures cols(x) == Sum(|loops|, (t: nat) => h(t, x)) {
      SharesByVisits(loops, a, b, x);
      SumCong(|loops|, (t: nat) => Share(loops, a, b, t, x), (t: nat) => h(t, x));
    }
    SumSwap(|loops|, n, h, rows, cols);
  }

  /** Threads that tile the index space add up to the dot product. */
  lemma TiledDot(n: nat, loops: seq<Loop>, a: seq<real>, b: seq<real>)
    requires Tiles(loops, n)
    ensures Sum(|loops|, (t: nat) => if t < |loops| then LoopDot(loops[t], a, b, loops[t].first) else 0.0) ==
            DotProduct(n, a, b)
  {
    JoinedDot(n, loops, a, b);
    SumCong(n, (x: nat) => Visits(loops, x) as real * Term(a, b, x), (x: nat) => Term(a, b, x));
  }

  method Dot(loops: seq<Loop>, a: seq<real>, b: seq<real>) returns (total: real)
    requires |a| == |b| && Tiles(loops, |a|)
    ensures total == DotProduct(|a|, a, b)
  {
    total := 0.0;
    ghost var joined := (t: nat) => if t < |loops| then LoopDot(loops[t], a, b, loops[t].first) else 0.0;
    for t := 0 to |loops|
      invariant total == Sum(t, joined)
    {
      var l := loops[t];
      assert InBounds(l, |a|);
      var p, i := 0.0, l.first;
      while i < l.limit
        invariant OnStride(l, i) && p + LoopDot(l, a, b, i) == LoopDot(l, a, b, l.first)
        decreases l.limit - i
      {
        assert Hits(l, i);
        StrideNext(l, i, 0);
        p := p + a[i] * b[i];
        i := i + l.stride;
      }
      total := total + p;
    }
    TiledDot(|a|, loops, a, b);
    SumCong(|loops|, joined, (t: nat) => if t < |loops| then LoopDot(loops[t], a, b, loops[t].first) else 0.0);
  }
}
