/** Arrays kept as one chunk per thread, against the flat arrays of the serial stream. */
module Chunks {
  import opened Sums
  import opened Kernels
  import opened Interleave
  import opened Partition

  datatype Option<+T> = None | Some(value: T)

  /** The first t chunks in thread order. */
  function FlatTo(chunks: seq<seq<real>>, t: nat): seq<real>
    requires t <= |chunks|
  {
    if t == 0 then [] else FlatTo(chunks, t - 1) + chunks[t - 1]
  }

  function Flat(chunks: seq<seq<real>>): seq<real> {
    FlatTo(chunks, |chunks|)
  }

  /** A thread's share. The last one takes what is left, and the subtraction
      underflows when the full chunks before it are already too long. */
  function ThreadLen(len: nat, ncore: nat, t: nat): Option<nat>
    requires t < ncore
  {
    var chunk := ChunkSize(len, ncore);
    if t == ncore - 1 then
      if t * chunk <= len then Some(len - t * chunk) else None
    else
      Some(chunk)
  }

  /** `Vec::resize`: cut, or pad with x; what fits is kept. */
  function Resize(v: seq<real>, n: nat, x: real): (r: seq<real>)
    ensures |r| == n
  {
    if n <= |v| then v[..n] else v + seq(n - |v|, i => x)
  }

  predicate Shaped(len: nat, ncore: nat, chunks: seq<seq<real>>)
    requires ncore >= 1 && ChunksFit(len, ncore)
  {
    && |chunks| == ncore
    && forall t: nat | t < ncore :: ThreadLen(len, ncore, t) == Some(|chunks[t]|)
  }

  /** The shares of all threads. */
  function Lens(len: nat, ncore: nat): (r: seq<nat>)
    requires ncore >= 1 && ChunksFit(len, ncore)
    ensures |r| == ncore
  {
    seq(ncore, (t: nat) requires t < ncore => ThreadLen(len, ncore, t).value)
  }

  /** Chunk t has length ns[t]. */
  predicate Fits(ns: seq<nat>, chunks: seq<seq<real>>) {
    |chunks| == |ns| && forall t: nat | t < |ns| :: |chunks[t]| == ns[t]
  }

  /** Where chunk t starts in the flat array. */
  function Start(ns: seq<nat>, t: nat): nat
    requires t <= |ns|
  {
    if t == 0 then 0 else Start(ns, t - 1) + ns[t - 1]
  }

  function Size(ns: seq<nat>): nat {
    Start(ns, |ns|)
  }

  lemma ShapedFits(len: nat, ncore: nat, chunks: seq<seq<real>>)
    requires ncore >= 1 && ChunksFit(len, ncore)
    ensures Shaped(len, ncore, chunks) <==> Fits(Lens(len, ncore), chunks)
  {
  }

  // ----- chunks and the flat array

  lemma {:induction false} FlatToLength(ns: seq<nat>, chunks: seq<seq<real>>, t: nat)
    requires Fits(ns, chunks) && t <= |ns|
    ensures |FlatTo(chunks, t)| == Start(ns, t)
  {
    if t > 0 { FlatToLength(ns, chunks, t - 1); }
  }

  /** Chunks lie one after another. */
  lemma {:induction false} StartMono(ns: seq<nat>, t: nat, u: nat)
    requires t < u <= |ns|
    ensures Start(ns, t) + ns[t] <= Start(ns, u)
  {
    if t < u - 1 { StartMono(ns, t, u - 1); }
  }

  lemma {:induction false} FlatToAt(ns: seq<nat>, chunks: seq<seq<real>>, u: nat, t: nat, i: nat)
    requires Fits(ns, chunks) && t < u <= |ns| && i < ns[t]
    ensures Start(ns, t) + i < |FlatTo(chunks, u)| == Start(ns, u)
    ensures FlatTo(chunks, u)[Start(ns, t) + i] == chunks[t][i]
  {
    FlatToLength(ns, chunks, u);
    FlatToLength(ns, chunks, u - 1);
    if t < u - 1 { FlatToAt(ns, chunks, u - 1, t, i); }
  }

  /** Element i of chunk t is element Start(t) + i of the flat array. */
  lemma FlatAt(ns: seq<nat>, chunks: seq<seq<real>>, t: nat, i: nat)
    requires Fits(ns, chunks) && t < |ns| && i < ns[t]
    ensures Start(ns, t) + i < |Flat(chunks)| == Size(ns)
    ensures Flat(chunks)[Start(ns, t) + i] == chunks[t][i]
  {
    FlatToAt(ns, chunks, |ns|, t, i);
  }

  lemma {:induction false} FlatToSame(xs: seq<seq<real>>, ys: seq<seq<real>>, u: nat)
    requires u <= |xs| && u <= |ys| && forall t: nat | t < u :: xs[t] == ys[t]
    ensures FlatTo(xs, u) == FlatTo(ys, u)
  {
    if u > 0 { FlatToSame(xs, ys, u - 1); }
  }

  lemma UpdateLeft(xs: seq<real>, ys: seq<real>, p: nat, v: real)
    requires p < |xs|
    ensures (xs + ys)[p := v] == xs[p := v] + ys
  {
  }

  lemma UpdateRight(xs: seq<real>, ys: seq<real>, i: nat, v: real)
    requires i < |ys|
    ensures (xs + ys)[|xs| + i := v] == xs + ys[i := v]
  {
  }

  lemma {:induction false} FlatToUpdate(ns: seq<nat>, chunks: seq<seq<real>>, after: seq<seq<real>>, u: nat, t: nat,
                                        i: nat, v: real)
    requires Fits(ns, chunks) && t < u <= |ns| && i < ns[t] && Start(ns, t) + i < |FlatTo(chunks, u)|
    requires after == chunks[t := chunks[t][i := v]]
    ensures FlatTo(after, u) == FlatTo(chunks, u)[Start(ns, t) + i := v]
  {
    FlatToLength(ns, chunks, u - 1);
    if t < u - 1 {
      FlatToAt(ns, chunks, u - 1, t, i);
      FlatToUpdate(ns, chunks, after, u - 1, t, i, v);
      UpdateLeft(FlatTo(chunks, u - 1), chunks[u - 1], Start(ns, t) + i, v);
    } else {
      FlatToSame(after, chunks, u - 1);
      UpdateRight(FlatTo(chunks, u - 1), chunks[u - 1], i, v);
    }
  }

  /** A store in chunk t is a store in the flat array. */
  lemma FlatUpdate(ns: seq<nat>, chunks: seq<seq<real>>, t: nat, i: nat, v: real)
    requires Fits(ns, chunks) && t < |ns| && i < ns[t] && Start(ns, t) + i < |Flat(chunks)|
    ensures Flat(chunks[t := chunks[t][i := v]]) == Flat(chunks)[Start(ns, t) + i := v]
  {
    FlatToUpdate(ns, chunks, chunks[t := chunks[t][i := v]], |ns|, t, i, v);
  }

  /** Chunks of given lengths are determined by the flat array. */
  lemma FlatInjective(ns: seq<nat>, xs: seq<seq<real>>, ys: seq<seq<real>>)
    requires Fits(ns, xs) && Fits(ns, ys) && Flat(xs) == Flat(ys)
    ensures xs == ys
  {
    forall t: nat | t < |ns| ensures xs[t] == ys[t] {
      forall i: nat | i < ns[t] ensures xs[t][i] == ys[t][i] {
        FlatAt(ns, xs, t, i);
        FlatAt(ns, ys, t, i);
      }
    }
  }

  lemma Successor(t: nat, chunk: nat)
    requires t > 0
    ensures t * chunk == (t - 1) * chunk + chunk
  {
  }

  lemma {:induction false} FullShares(len: nat, ncore: nat, t: nat)
    requires ncore >= 1 && ChunksFit(len, ncore) && t < ncore
    ensures Start(Lens(len, ncore), t) == t * ChunkSize(len, ncore)
  {
    if t > 0 {
      FullShares(len, ncore, t - 1);
      Successor(t, ChunkSize(len, ncore));
    }
  }

  /** The shares add up to the whole array. */
  lemma SharesAddUp(len: nat, ncore: nat)
    requires ncore >= 1 && ChunksFit(len, ncore)
    ensures Size(Lens(len, ncore)) == len
  {
    FullShares(len, ncore, ncore - 1);
  }

  /** The chunks hold exactly the whole array. */
  lemma FlatLength(len: nat, ncore: nat, chunks: seq<seq<real>>)
    requires ncore >= 1 && ChunksFit(len, ncore) && Shaped(len, ncore, chunks)
    ensures |Flat(chunks)| == len
  {
    ShapedFits(len, ncore, chunks);
    FlatToLength(Lens(len, ncore), chunks, ncore);
    SharesAddUp(len, ncore);
  }

  lemma {:induction false} FlatUniform(chunks: seq<seq<real>>, t: nat, x: real)
    requires t <= |chunks| && forall u, i | 0 <= u < t && 0 <= i < |chunks[u]| :: chunks[u][i] == x
    ensures FlatTo(chunks, t) == seq(|FlatTo(chunks, t)|, i => x)
  {
    if t > 0 { FlatUniform(chunks, t - 1, x); }
  }

  // ----- chunks as ranges of the flat array

  /** The chunks as the loops of their threads over the flat array. */
  function Ranges(ns: seq<nat>): (r: seq<Loop>)
    ensures |r| == |ns|
  {
    seq(|ns|, (t: nat) requires t < |ns| => Loop(Start(ns, t), 1, Start(ns, t) + ns[t]))
  }

  lemma {:induction false} ChunkOf(ns: seq<nat>, u: nat, x: nat) returns (t: nat)
    requires u <= |ns| && x < Start(ns, u)
    ensures t < |ns| && Start(ns, t) <= x < Start(ns, t) + ns[t]
  {
    if x >= Start(ns, u - 1) { t := u - 1; } else { t := ChunkOf(ns, u - 1, x); }
  }

  lemma RangesTile(ns: seq<nat>)
    ensures Tiles(Ranges(ns), Size(ns))
  {
    var loops := Ranges(ns);
    forall t: nat | t < |ns| ensures InBounds(loops[t], Size(ns)) {
      StartMono(ns, t, |ns|);
    }
    forall x: nat | x < Size(ns) ensures Visits(loops, x) == 1 {
      var owner := ChunkOf(ns, |ns|, x);
      UnitHits(Start(ns, owner), Start(ns, owner) + ns[owner], x);
      forall t: nat | t < |loops| && Hits(loops[t], x) ensures t == owner {
        UnitHits(Start(ns, t), Start(ns, t) + ns[t], x);
        if t < owner { StartMono(ns, t, owner); }
        if owner < t { StartMono(ns, owner, t); }
      }
      OneOwner(loops, x, owner);
    }
  }

  /** The chunked threads and the threads that share whole arrays deal the same ranges. */
  lemma SameDeal(len: nat, ncore: nat)
    requires ncore >= 1 && ChunksFit(len, ncore)
    ensures Ranges(Lens(len, ncore)) == ThreadRanges(len, ncore)
  {
    var ns := Lens(len, ncore);
    forall t: nat | t < ncore ensures Ranges(ns)[t] == ThreadRanges(len, ncore)[t] {
      FullShares(len, ncore, t);
      Successor(t + 1, ChunkSize(len, ncore));
    }
  }

  // ----- whole kernels, chunk by chunk

  function Append(m: Mem, w: Mem): Mem {
    Mem(m.a + w.a, m.b + w.b, m.c + w.c)
  }

  lemma SameValue(k: Kernel, scalar: real, m: Mem, i: nat, w: Mem, j: nat)
    requires m.Sized(|m.a|) && i < |m.a| && w.Sized(|w.a|) && j < |w.a|
    requires m.a[i] == w.a[j] && m.b[i] == w.b[j] && m.c[i] == w.c[j]
    ensures Value(k, scalar, m, i) == Value(k, scalar, w, j)
  {
  }

  lemma ApplyAt(k: Kernel, scalar: real, m: Mem, i: nat)
    requires m.Sized(|m.a|) && i < |m.a|
    ensures |Target(k, Apply(k, scalar, m))| == |m.a|
    ensures Target(k, Apply(k, scalar, m))[i] == Value(k, scalar, m, i)
  {
  }

  lemma ApplyAppend(k: Kernel, scalar: real, m: Mem, w: Mem)
    requires m.Sized(|m.a|) && w.Sized(|w.a|)
    ensures Target(k, Apply(k, scalar, Append(m, w))) ==
            Target(k, Apply(k, scalar, m)) + Target(k, Apply(k, scalar, w))
  {
    var left, right := Target(k, Apply(k, scalar, m)), Target(k, Apply(k, scalar, w));
    var both := Target(k, Apply(k, scalar, Append(m, w)));
    assert |both| == |left| + |right|;
    forall i: nat | i < |both| ensures both[i] == (left + right)[i] {
      ApplyAt(k, scalar, Append(m, w), i);
      if i < |m.a| {
        SameValue(k, scalar, Append(m, w), i, m, i);
        ApplyAt(k, scalar, m, i);
      } else {
        SameValue(k, scalar, Append(m, w), i, w, i - |m.a|);
        ApplyAt(k, scalar, w, i - |m.a|);
      }
    }
  }

  /** A kernel on every chunk is the kernel on the flat arrays. */
  lemma {:induction false} FlatApply(k: Kernel, scalar: real, ns: seq<nat>, a: seq<seq<real>>, b: seq<seq<real>>,
                                     c: seq<seq<real>>, r: seq<seq<real>>, t: nat)
    requires Fits(ns, a) && Fits(ns, b) && Fits(ns, c) && |r| == |ns| && t <= |ns|
    requires forall u: nat | u < |ns| :: r[u] == Target(k, Apply(k, scalar, Mem(a[u], b[u], c[u])))
    ensures Mem(FlatTo(a, t), FlatTo(b, t), FlatTo(c, t)).Sized(Start(ns, t))
    ensures FlatTo(r, t) == Target(k, Apply(k, scalar, Mem(FlatTo(a, t), FlatTo(b, t), FlatTo(c, t))))
  {
    FlatToLength(ns, a, t);
    FlatToLength(ns, b, t);
    FlatToLength(ns, c, t);
    if t > 0 {
      FlatApply(k, scalar, ns, a, b, c, r, t - 1);
      ApplyAppend(k, scalar, Mem(FlatTo(a, t - 1), FlatTo(b, t - 1), FlatTo(c, t - 1)),
                  Mem(a[t - 1], b[t - 1], c[t - 1]));
    }
  }

  /** The threads' dot products, joined in order, are the dot product of the flat arrays. */
  lemma FlatDotNext(ns: seq<nat>, a: seq<seq<real>>, b: seq<seq<real>>, t: nat)
    requires Fits(ns, a) && Fits(ns, b) && t < |ns|
    ensures DotProduct(Start(ns, t + 1), FlatTo(a, t + 1), FlatTo(b, t + 1)) ==
            DotProduct(Start(ns, t), FlatTo(a, t), FlatTo(b, t)) + DotProduct(|a[t]|, a[t], b[t])
  {
    FlatToLength(ns, a, t);
    FlatToLength(ns, b, t);
    DotAppend(FlatTo(a, t), FlatTo(b, t), a[t], b[t]);
  }

  lemma DotAppend(a: seq<real>, b: seq<real>, x: seq<real>, y: seq<real>)
    requires |a| == |b| && |x| == |y|
    ensures DotProduct(|a + x|, a + x, b + y) == DotProduct(|a|, a, b) + DotProduct(|x|, x, y)
  {
    var whole := (i: nat) => Term(a + x, b + y, i);
    forall i: nat ensures i < |a| ==> whole(i) == Term(a, b, i) {
    }
    forall i: nat | i < |x| ensures whole(|a| + i) == Term(x, y, i) {
    }
    SumCong(|a|, whole, (i: nat) => Term(a, b, i));
    SumSplit(|a|, |x|, whole, (i: nat) => Term(x, y, i));
  }
}
