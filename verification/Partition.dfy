/** How each implementation deals the indices of an elementwise kernel to its
    threads, and exactly when every index is dealt once. */
module Partition {
  import opened Sums
  import opened Kernels
  import opened Interleave

  function CeilDiv(a: nat, b: nat): nat
    requires b >= 1
  {
    (a + b - 1) / b
  }

  lemma CeilDivBounds(a: nat, b: nat)
    requires b >= 1
    ensures CeilDiv(a, b) * b >= a
    ensures a > 0 ==> CeilDiv(a, b) >= 1 && (CeilDiv(a, b) - 1) * b < a
    ensures a == 0 ==> CeilDiv(a, b) == 0
  {
    var q, r := (a + b - 1) / b, (a + b - 1) % b;
    assert a + b - 1 == q * b + r;
    if a > 0 {
      if q == 0 { assert false; }
      assert q * b == (q - 1) * b + b;
    } else if q >= 1 {
      MulMono(1, q, b);
    }
  }

  lemma CeilDivLeast(a: nat, b: nat, m: nat)
    requires b >= 1 && a <= m * b
    ensures CeilDiv(a, b) <= m
  {
    CeilDivBounds(a, b);
    if CeilDiv(a, b) > m { MulMono(m, CeilDiv(a, b) - 1, b); }
  }

  lemma DivUnique(x: nat, d: nat, t: nat)
    requires d >= 1 && t * d <= x < (t + 1) * d
    ensures t == x / d
  {
    var q := x / d;
    assert q * d <= x < (q + 1) * d;
    if q < t { MulMono(q + 1, t, d); }
    if q > t { MulMono(t + 1, q, d); }
  }

  lemma ModOfMultiple(q: nat, s: nat)
    requires s >= 1
    ensures (q * s) % s == 0
  {
    var r := (q * s) % s;
    var p := (q * s) / s;
    assert q * s == p * s + r;
    if p < q { MulMono(p + 1, q, s); }
    if p > q { MulMono(q + 1, p, s); }
  }

  lemma ModLess(r: nat, s: nat)
    requires s >= 1 && r >= s
    ensures (r - s) % s == r % s
  {
    var q := r / s;
    assert r == q * s + r % s;
    assert (q - 1) * s == q * s - s;
    if q >= 1 { DivUnique(r - s, s, q - 1); }
  }

  /** The values of the loop variable are the first one plus whole strides. */
  lemma {:induction false} OnStrideIff(l: Loop, x: nat)
    requires l.stride >= 1
    ensures OnStride(l, x) <==> x >= l.first && (x - l.first) % l.stride == 0
    decreases x
  {
    if x >= l.first + l.stride {
      OnStrideIff(l, x - l.stride);
      ModLess(x - l.first, l.stride);
    }
  }

  lemma HitsIff(l: Loop, x: nat)
    requires l.stride >= 1
    ensures Hits(l, x) <==> x < l.limit && x >= l.first && (x - l.first) % l.stride == 0
  {
    OnStrideIff(l, x);
  }

  /** Unit-stride loops hit exactly their range. */
  lemma UnitHits(first: nat, limit: nat, x: nat)
    ensures Hits(Loop(first, 1, limit), x) <==> first <= x < limit
  {
    HitsIff(Loop(first, 1, limit), x);
  }

  /** One thread for x, and no other: x is visited once. */
  lemma OneOwner(loops: seq<Loop>, x: nat, owner: nat)
    requires owner < |loops| && Hits(loops[owner], x)
    requires forall t: nat | t < |loops| && Hits(loops[t], x) :: t == owner
    ensures Visits(loops, x) == 1
  {
    var p := (t: nat) => t < |loops| && Hits(loops[t], x);
    CountUnique(|loops|, owner, p);
  }

  lemma TwoOwners(loops: seq<Loop>, x: nat, t: nat, u: nat)
    requires t < |loops| && u < |loops| && t != u && Hits(loops[t], x) && Hits(loops[u], x)
    ensures Visits(loops, x) > 1
  {
    var p := (v: nat) => v < |loops| && Hits(loops[v], x);
    CountTwo(|loops|, t, u, p);
  }

  lemma SomeOwner(loops: seq<Loop>, x: nat, t: nat)
    requires t < |loops| && Hits(loops[t], x)
    ensures Visits(loops, x) >= 1
  {
    var p := (v: nat) => v < |loops| && Hits(loops[v], x);
    CountZero(|loops|, p);
    assert p(t);
  }

  // ----- contiguous chunks: the Rust threads

  /** ceil(len / ncore), with the quotient taken exactly. */
  function ChunkSize(len: nat, ncore: nat): nat
    requires ncore >= 1
  {
    CeilDiv(len, ncore)
  }

  /** The ranges of the threads that share the whole arrays: the last one stops at len. */
  function ThreadRanges(len: nat, ncore: nat): (r: seq<Loop>)
    requires ncore >= 1
    ensures |r| == ncore
  {
    var chunk := ChunkSize(len, ncore);
    seq(ncore, (t: nat) => Loop(t * chunk, 1, if t == ncore - 1 then len else (t + 1) * chunk))
  }

  /** All full chunks but the last fit. */
  predicate ChunksFit(len: nat, ncore: nat)
    requires ncore >= 1
  {
    (ncore - 1) * ChunkSize(len, ncore) <= len
  }

  /** The ranges tile the arrays exactly when the full chunks fit; otherwise a
      thread runs past the end. */
  lemma ThreadRangesTileIff(len: nat, ncore: nat)
    requires ncore >= 1
    ensures Tiles(ThreadRanges(len, ncore), len) <==> ChunksFit(len, ncore)
  {
    var chunk, loops := ChunkSize(len, ncore), ThreadRanges(len, ncore);
    CeilDivBounds(len, ncore);
    if ChunksFit(len, ncore) {
      forall t: nat | t < ncore ensures InBounds(loops[t], len) {
        if t < ncore - 1 { MulMono(t + 1, ncore - 1, chunk); }
      }
      forall x: nat | x < len ensures Visits(loops, x) == 1 {
        RangeOwner(len, ncore, x);
      }
    } else {
      RangeOutside(len, ncore);
    }
  }

  /** The threads stay inside the arrays exactly then, too. */
  lemma RangesInBounds(len: nat, ncore: nat)
    requires ncore >= 1
    ensures (forall t: nat | t < ncore :: InBounds(ThreadRanges(len, ncore)[t], len)) <==> ChunksFit(len, ncore)
  {
    if ChunksFit(len, ncore) { ThreadRangesTileIff(len, ncore); } else { RangeOutside(len, ncore); }
  }

  lemma RangeOutside(len: nat, ncore: nat)
    requires ncore >= 1 && !ChunksFit(len, ncore)
    ensures ncore >= 2 && !InBounds(ThreadRanges(len, ncore)[ncore - 2], len)
  {
    var chunk, t := ChunkSize(len, ncore), ncore - 2;
    CeilDivBounds(len, ncore);
    assert (t + 1) * chunk == t * chunk + chunk;
    UnitHits(t * chunk, (t + 1) * chunk, (t + 1) * chunk - 1);
    assert Hits(ThreadRanges(len, ncore)[t], (t + 1) * chunk - 1);
  }

  lemma RangeOwner(len: nat, ncore: nat, x: nat)
    requires ncore >= 1 && ChunksFit(len, ncore) && x < len
    ensures Visits(ThreadRanges(len, ncore), x) == 1
  {
    var chunk, last, loops := ChunkSize(len, ncore), ncore - 1, ThreadRanges(len, ncore);
    CeilDivBounds(len, ncore);
    var owner := RangeOwnerHits(len, chunk, last, x);
    forall t: nat | t < ncore && Hits(loops[t], x) ensures t == owner {
      RangeOwnerUnique(len, chunk, last, x, t, loops[t]);
    }
    OneOwner(loops, x, owner);
  }

  lemma RangeOwnerHits(len: nat, chunk: nat, last: nat, x: nat) returns (owner: nat)
    requires chunk >= 1 && last * chunk <= len && x < len
    ensures owner == if x >= last * chunk then last else x / chunk
    ensures owner <= last
    ensures Hits(Loop(owner * chunk, 1, if owner == last then len else (owner + 1) * chunk), x)
  {
    if x >= last * chunk {
      owner := last;
      UnitHits(last * chunk, len, x);
    } else {
      owner := x / chunk;
      ChunkIndex(x, chunk, last);
      UnitHits(owner * chunk, (owner + 1) * chunk, x);
    }
  }

  lemma RangeOwnerUnique(len: nat, chunk: nat, last: nat, x: nat, t: nat, l: Loop)
    requires chunk >= 1 && t <= last
    requires l == Loop(t * chunk, 1, if t == last then len else (t + 1) * chunk) && Hits(l, x)
    ensures t == if x >= last * chunk then last else x / chunk
  {
    UnitHits(t * chunk, if t == last then len else (t + 1) * chunk, x);
    if t < last {
      MulMono(t + 1, last, chunk);
      DivUnique(x, chunk, t);
    }
  }

  lemma ChunkIndex(x: nat, chunk: nat, m: nat)
    requires chunk >= 1 && x < m * chunk
    ensures x / chunk < m && (x / chunk) * chunk <= x < (x / chunk + 1) * chunk
  {
    var q := x / chunk;
    QuotientBounds(x, chunk, q);
    if q >= m { MulMono(m, q, chunk); }
  }

  /** The chunk size from quotient and remainder. */
  lemma ChunkSizeIs(len: nat, ncore: nat)
    requires ncore >= 1
    ensures ChunkSize(len, ncore) == len / ncore + (if len % ncore == 0 then 0 else 1)
  {
    var q, r := len / ncore, len % ncore;
    assert len == q * ncore + r;
    if r == 0 {
      DivUnique(len + ncore - 1, ncore, q);
    } else {
      assert (q + 1) * ncore == q * ncore + ncore;
      DivUnique(len + ncore - 1, ncore, q + 1);
    }
  }

  /** The same condition as a caller would check it. */
  lemma ChunksFitIff(len: nat, ncore: nat)
    requires ncore >= 1
    ensures ChunksFit(len, ncore) <==> (len % ncore == 0 || len / ncore + len % ncore >= ncore - 1)
  {
    var q, r := len / ncore, len % ncore;
    ChunkSizeIs(len, ncore);
    Expand(q, ncore);
    assert len == q * ncore + r;
  }

  lemma Expand(q: nat, ncore: nat)
    requires ncore >= 1
    ensures (ncore - 1) * q == q * ncore - q
    ensures (ncore - 1) * (q + 1) == q * ncore - q + ncore - 1
  {
  }

  /** Long arrays are always fine, and (ncore-1)(ncore-2) is the sharp bound. */
  lemma LongArraysFit(len: nat, ncore: nat)
    requires ncore >= 2
    ensures len >= (ncore - 1) * (ncore - 2) ==> ChunksFit(len, ncore)
    ensures ncore >= 3 && len == (ncore - 1) * (ncore - 2) - 1 ==> !ChunksFit(len, ncore)
  {
    CeilDivBounds(len, ncore);
    var chunk := ChunkSize(len, ncore);
    if len >= (ncore - 1) * (ncore - 2) { LongChunk(len, ncore, chunk); }
    if ncore >= 3 && len == (ncore - 1) * (ncore - 2) - 1 { ShortChunk(len, ncore, chunk); }
  }

  lemma LongChunk(len: nat, ncore: nat, chunk: nat)
    requires ncore >= 2 && len >= (ncore - 1) * (ncore - 2)
    requires if len == 0 then chunk == 0 else chunk >= 1 && (chunk - 1) * ncore < len
    ensures (ncore - 1) * chunk <= len
  {
    if chunk >= 1 { OneLess(ncore, chunk); }
    if chunk <= ncore - 2 { MulMono(chunk, ncore - 2, ncore - 1); }
  }

  lemma ShortChunk(len: nat, ncore: nat, chunk: nat)
    requires ncore >= 3 && len == (ncore - 1) * (ncore - 2) - 1 && chunk * ncore >= len
    ensures (ncore - 1) * chunk > len
  {
    OneLess(ncore, ncore - 2);
    OneLess(ncore - 2, ncore);
    if chunk <= ncore - 3 { MulMono(chunk, ncore - 3, ncore); } else { MulMono(ncore - 2, chunk, ncore - 1); }
  }

  lemma OneLess(x: nat, y: nat)
    requires x >= 1 && y >= 1
    ensures (x - 1) * y == x * y - y && (y - 1) * x == x * y - x
  {
  }

  /** The crossbeam ranges are clipped at both ends. */
  function ClippedRanges(len: nat, ncore: nat): (r: seq<Loop>)
    requires ncore >= 1
    ensures |r| == ncore
  {
    var chunk := ChunkSize(len, ncore);
    seq(ncore, (t: nat) => Loop(t * chunk, 1, Min((t + 1) * chunk, len)))
  }

  /** The slices `chunks(chunk_size)` makes, one loop each. Slicing by zero panics. */
  function SliceChunks(len: nat, chunk: nat): (r: seq<Loop>)
    requires chunk >= 1
    ensures |r| == CeilDiv(len, chunk)
  {
    seq(CeilDiv(len, chunk), (t: nat) => Loop(t * chunk, 1, Min((t + 1) * chunk, len)))
  }

  /** Zipping with the cores keeps at most ncore slices. */
  function ZippedChunks(len: nat, ncore: nat): seq<Loop>
    requires ncore >= 1 && len >= 1
  {
    CeilDivBounds(len, ncore);
    var chunks := SliceChunks(len, ChunkSize(len, ncore));
    chunks[..Min(ncore, |chunks|)]
  }

  lemma ClippedHits(len: nat, chunk: nat, x: nat, t: nat)
    requires chunk >= 1 && x < len
    ensures Hits(Loop(t * chunk, 1, Min((t + 1) * chunk, len)), x) <==> t == x / chunk
  {
    UnitHits(t * chunk, Min((t + 1) * chunk, len), x);
    if t == x / chunk {
      QuotientBounds(x, chunk, t);
    } else if t * chunk <= x < (t + 1) * chunk {
      DivUnique(x, chunk, t);
    }
  }

  lemma QuotientBounds(x: nat, chunk: nat, q: nat)
    requires chunk >= 1 && q == x / chunk
    ensures q * chunk <= x < (q + 1) * chunk
  {
    assert (q + 1) * chunk == q * chunk + chunk;
  }

  lemma ClippedOwner(loops: seq<Loop>, len: nat, chunk: nat, x: nat)
    requires chunk >= 1 && x < len && x < |loops| * chunk
    requires forall t: nat | t < |loops| :: loops[t] == Loop(t * chunk, 1, Min((t + 1) * chunk, len))
    ensures Visits(loops, x) == 1
  {
    var owner := x / chunk;
    ChunkIndex(x, chunk, |loops|);
    ClippedHits(len, chunk, x, owner);
    forall t: nat | t < |loops| && Hits(loops[t], x) ensures t == owner {
      ClippedHits(len, chunk, x, t);
    }
    OneOwner(loops, x, owner);
  }

  /** Crossbeam tiles unconditionally: the clipped ranges of its dot, and the
      slices of its kernels, of which the zip drops none. */
  lemma CrossbeamTiles(len: nat, ncore: nat)
    requires ncore >= 1
    ensures Tiles(ClippedRanges(len, ncore), len)
    ensures len >= 1 ==>
              && |ZippedChunks(len, ncore)| == CeilDiv(len, ChunkSize(len, ncore))
              && Tiles(ZippedChunks(len, ncore), len)
  {
    CeilDivBounds(len, ncore);
    var chunk := ChunkSize(len, ncore);
    forall t: nat | t < ncore ensures InBounds(ClippedRanges(len, ncore)[t], len) {
      assert ClippedRanges(len, ncore)[t] == Loop(t * chunk, 1, Min((t + 1) * chunk, len));
    }
    forall x: nat | x < len ensures Visits(ClippedRanges(len, ncore), x) == 1 {
      ClippedOwner(ClippedRanges(len, ncore), len, chunk, x);
    }
    if len >= 1 {
      CeilDivBounds(len, chunk);
      CeilDivLeast(len, chunk, ncore);
      forall x: nat | x < len ensures Visits(ZippedChunks(len, ncore), x) == 1 {
        ClippedOwner(ZippedChunks(len, ncore), len, chunk, x);
      }
    }
  }

  // ----- strided loops: CUDA and HIP

  /** `for (i = g; i < n; i += total)` for every global thread id g. */
  function GridStride(blocks: nat, dim: nat, n: nat): (r: seq<Loop>)
    ensures |r| == blocks * dim
  {
    seq(blocks * dim, (g: nat) => Loop(g, blocks * dim, n))
  }

  lemma GridStrideTiles(blocks: nat, dim: nat, n: nat)
    requires blocks >= 1 && dim >= 1
    ensures Tiles(GridStride(blocks, dim, n), n)
  {
    MulMono(1, blocks, dim);
    var w, loops := blocks * dim, GridStride(blocks, dim, n);
    forall x: nat | x < n ensures Visits(loops, x) == 1 {
      forall t: nat | t < w ensures Hits(loops[t], x) <==> t == x % w {
        ResidueHits(x, t, w, n);
      }
      OneOwner(loops, x, x % w);
    }
  }

  lemma ResidueUnique(x: nat, t: nat, w: nat)
    requires w >= 1 && t < w && t <= x && (x - t) % w == 0
    ensures t == x % w
  {
    var k := (x - t) / w;
    assert x == k * w + t;
    assert (k + 1) * w == k * w + w;
    DivUnique(x, w, k);
  }

  lemma ResidueIff(r: nat, t: nat, w: nat)
    requires w >= 1 && t < w
    ensures t <= r && (r - t) % w == 0 <==> t == r % w
  {
    if t == r % w {
      assert r - t == (r / w) * w;
      ModOfMultiple(r / w, w);
    } else if t <= r && (r - t) % w == 0 {
      ResidueUnique(r, t, w);
    }
  }

  lemma ResidueHits(x: nat, t: nat, w: nat, n: nat)
    requires w >= 1 && t < w && x < n
    ensures Hits(Loop(t, w, n), x) <==> t == x % w
  {
    HitsIff(Loop(t, w, n), x);
    ResidueIff(x, t, w);
  }

  /** Block k strides through [start*k, start*(k+1)) by its own width, with each
      thread's end shifted by its id. */
  function BlockStride(start: nat, blocks: nat, dim: nat, n: nat): (r: seq<Loop>)
    requires dim >= 1
    ensures |r| == blocks * dim
  {
    seq(blocks * dim, (g: nat) => BlockLoop(start, dim, n, g / dim, g % dim))
  }

  function BlockLoop(start: nat, dim: nat, n: nat, k: nat, t: nat): Loop {
    Loop(k * start + t, dim, Min(n, (k + 1) * start + t))
  }

  lemma BlockLoopAt(start: nat, blocks: nat, dim: nat, n: nat, k: nat, t: nat)
    requires dim >= 1 && k < blocks && t < dim
    ensures k * dim + t < blocks * dim
    ensures BlockStride(start, blocks, dim, n)[k * dim + t] == BlockLoop(start, dim, n, k, t)
  {
    assert (k + 1) * dim == k * dim + dim;
    MulMono(k + 1, blocks, dim);
    DivUnique(k * dim + t, dim, k);
  }

  /** Thread t of block k reaches x when x is its turn in a row that starts inside the block. */
  lemma BlockLoopHits(start: nat, dim: nat, n: nat, k: nat, t: nat, x: nat)
    requires dim >= 1 && t < dim && x < n
    ensures Hits(BlockLoop(start, dim, n, k, t), x) <==>
            (x >= k * start && t == (x - k * start) % dim && x - k * start - t < start)
  {
    assert (k + 1) * start == k * start + start;
    RowHits(k * start, start, dim, n, t, x);
  }

  /** The same for a block that starts at `base`. */
  lemma RowHits(base: nat, start: nat, dim: nat, n: nat, t: nat, x: nat)
    requires dim >= 1 && t < dim && x < n
    ensures Hits(Loop(base + t, dim, Min(n, base + start + t)), x) <==>
            (x >= base && t == (x - base) % dim && x - base - t < start)
  {
    HitsIff(Loop(base + t, dim, Min(n, base + start + t)), x);
    if x >= base { ResidueIff(x - base, t, dim); }
  }

  /** Every index is visited at least once, so the four kernels that do not read
      their target cannot tell. */
  lemma BlockStrideCovers(start: nat, blocks: nat, dim: nat, n: nat, x: nat)
    requires dim >= 1 && blocks * start >= n && x < n
    ensures Visits(BlockStride(start, blocks, dim, n), x) >= 1
  {
    if start > 0 {
      var k := BlockOf(x, start, blocks);
      BlockReaches(start, blocks, dim, n, x, k);
    }
  }

  lemma BlockOf(x: nat, start: nat, blocks: nat) returns (k: nat)
    requires start >= 1 && x < blocks * start
    ensures k < blocks && k * start <= x < (k + 1) * start
  {
    k := x / start;
    QuotientBounds(x, start, k);
    if k >= blocks { MulMono(blocks, k, start); }
  }

  lemma BlockReaches(start: nat, blocks: nat, dim: nat, n: nat, x: nat, k: nat)
    requires dim >= 1 && k < blocks && x < n && k * start <= x < (k + 1) * start
    ensures Visits(BlockStride(start, blocks, dim, n), x) >= 1
  {
    assert (k + 1) * start == k * start + start;
    var t := (x - k * start) % dim;
    BlockLoopHits(start, dim, n, k, t, x);
    BlockLoopAt(start, blocks, dim, n, k, t);
    SomeOwner(BlockStride(start, blocks, dim, n), x, k * dim + t);
  }

  lemma BlockStrideBounds(start: nat, blocks: nat, dim: nat, n: nat)
    requires dim >= 1
    ensures forall g: nat | g < blocks * dim :: InBounds(BlockStride(start, blocks, dim, n)[g], n)
  {
  }

  /** A row that starts inside a block of whole rows ends inside it. */
  lemma RowInside(r: nat, start: nat, dim: nat)
    requires dim >= 1 && start % dim == 0 && r - r % dim < start
    ensures r < start
  {
    var j, m := r / dim, start / dim;
    assert r == j * dim + r % dim && start == m * dim;
    if j >= m { MulMono(m, j, dim); }
    MulMono(j + 1, m, dim);
    assert (j + 1) * dim == j * dim + dim;
  }

  lemma BlockOwner(start: nat, dim: nat, n: nat, x: nat, k: nat, t: nat)
    requires dim >= 1 && start >= 1 && x < n && t < dim
    requires start % dim == 0 || n <= start
    requires Hits(BlockLoop(start, dim, n, k, t), x)
    ensures k == x / start && x >= k * start && t == (x - k * start) % dim
  {
    BlockLoopHits(start, dim, n, k, t, x);
    var r := x - k * start;
    if n <= start {
      if k >= 1 { MulMono(1, k, start); }
    } else {
      RowInside(r, start, dim);
    }
    assert (k + 1) * start == k * start + start;
    DivUnique(x, start, k);
  }

  lemma BlockThreadOwner(start: nat, blocks: nat, dim: nat, n: nat, x: nat, g: nat)
    requires dim >= 1 && start >= 1 && x < n && g < blocks * dim
    requires start % dim == 0 || n <= start
    requires Hits(BlockStride(start, blocks, dim, n)[g], x)
    ensures g / dim == x / start && x >= (x / start) * start && g % dim == (x - (x / start) * start) % dim
  {
    BlockOwner(start, dim, n, x, g / dim, g % dim);
  }

  lemma BlockStrideOnce(start: nat, blocks: nat, dim: nat, n: nat, x: nat)
    requires dim >= 1 && start >= 1 && blocks * start >= n && x < n
    requires start % dim == 0 || n <= start
    ensures Visits(BlockStride(start, blocks, dim, n), x) == 1
  {
    var loops := BlockStride(start, blocks, dim, n);
    BlockStrideCovers(start, blocks, dim, n, x);
    var owner := FindOwner(loops, x);
    BlockThreadOwner(start, blocks, dim, n, x, owner);
    forall g: nat | g < |loops| && Hits(loops[g], x) ensures g == owner {
      BlockThreadOwner(start, blocks, dim, n, x, g);
      SameDivMod(g, owner, dim);
    }
    OneOwner(loops, x, owner);
  }

  lemma FindOwner(loops: seq<Loop>, x: nat) returns (owner: nat)
    requires Visits(loops, x) >= 1
    ensures owner < |loops| && Hits(loops[owner], x)
  {
    var p := (g: nat) => g < |loops| && Hits(loops[g], x);
    CountZero(|loops|, p);
    owner :| owner < |loops| && p(owner);
  }

  lemma SameDivMod(g: nat, h: nat, dim: nat)
    requires dim >= 1 && g / dim == h / dim && g % dim == h % dim
    ensures g == h
  {
    assert g == (g / dim) * dim + g % dim;
    assert h == (h / dim) * dim + h % dim;
  }

  /** Where one block ends in the middle of a row, the next block starts too. */
  lemma BlockStrideOverlaps(start: nat, blocks: nat, dim: nat, n: nat)
    requires dim >= 1 && blocks * start >= n && start % dim != 0 && start < n
    ensures Visits(BlockStride(start, blocks, dim, n), start) > 1
  {
    if blocks <= 1 { MulMono(blocks, 1, start); }
    var t := start % dim;
    BlockLoopHits(start, dim, n, 0, t, start);
    BlockLoopHits(start, dim, n, 1, 0, start);
    BlockLoopAt(start, blocks, dim, n, 0, t);
    BlockLoopAt(start, blocks, dim, n, 1, 0);
    TwoOwners(BlockStride(start, blocks, dim, n), start, 0 * dim + t, 1 * dim + 0);
  }

  /** Exactly once each, exactly when the block width divides the block length or
      one block does it all; otherwise neighbours overlap. */
  lemma BlockStrideTilesIff(start: nat, blocks: nat, dim: nat, n: nat)
    requires dim >= 1 && n >= 1 && blocks * start >= n
    ensures Tiles(BlockStride(start, blocks, dim, n), n) <==> (start % dim == 0 || n <= start)
  {
    BlockStrideBounds(start, blocks, dim, n);
    if start % dim == 0 || n <= start {
      forall x: nat | x < n ensures Visits(BlockStride(start, blocks, dim, n), x) == 1 {
        BlockStrideOnce(start, blocks, dim, n, x);
      }
    } else {
      BlockStrideOverlaps(start, blocks, dim, n);
    }
  }

  const UNROLL_FACTOR: nat := 4
  const TBSIZE: nat := 256

  datatype Shape = Shape(blocks: nat, start: nat) | DivisionByZero

  /** The launch configuration of the CUDA kernels, from the tuned block size. */
  function ForEachShape(n: nat, threadsPerBlock: nat): Shape
    requires threadsPerBlock >= 1
  {
    var blocks := CeilDiv(n / UNROLL_FACTOR, threadsPerBlock);
    if blocks == 0 then DivisionByZero else Shape(blocks, CeilDiv(n, blocks))
  }

  /** There is a launch unless the division by the number of blocks is by zero.
      It has the fewest blocks that give every thread four elements or fewer,
      rounded down, and the shortest blocks that cover the array. */
  lemma ForEachShapeOk(n: nat, threadsPerBlock: nat)
    requires threadsPerBlock >= 1
    ensures var shape := ForEachShape(n, threadsPerBlock);
            && (shape.Shape? <==> n >= 4)
            && (shape.Shape? ==>
                  && shape.blocks >= 1 && shape.start >= 1
                  && (shape.blocks - 1) * threadsPerBlock < n / 4 <= shape.blocks * threadsPerBlock
                  && (shape.start - 1) * shape.blocks < n <= shape.blocks * shape.start)
  {
    CeilDivBounds(n / UNROLL_FACTOR, threadsPerBlock);
    var blocks := CeilDiv(n / UNROLL_FACTOR, threadsPerBlock);
    if blocks > 0 { CeilDivBounds(n, blocks); }
  }

  /** The block-strided CUDA kernels that do not read their target match the
      serial ones in every interleaving, overlaps or not. */
  lemma CudaBlockStrideSerial(n: nat, threadsPerBlock: nat, k: Kernel, scalar: real, m0: Mem, final: Mem)
    requires threadsPerBlock >= 1 && n >= 4 && m0.Sized(n) && !k.Nstream?
    requires var shape := ForEachShape(n, threadsPerBlock);
             shape.Shape? ==> Reaches(n, k, scalar, BlockStride(shape.start, shape.blocks, TBSIZE, n), m0, final)
    ensures final == Apply(k, scalar, m0)
  {
    ForEachShapeOk(n, threadsPerBlock);
    var shape := ForEachShape(n, threadsPerBlock);
    var loops := BlockStride(shape.start, shape.blocks, TBSIZE, n);
    BlockStrideBounds(shape.start, shape.blocks, TBSIZE, n);
    forall x: nat | x < n ensures Settled(k, scalar, loops, m0, x) {
      BlockStrideCovers(shape.start, shape.blocks, TBSIZE, n, x);
    }
    SerialIff(n, k, scalar, loops, m0);
  }

  /** The block-strided CUDA nstream matches the serial one for all arrays and all
      interleavings exactly when the block width divides the block length, or one
      block does it all. */
  lemma CudaNstreamIff(n: nat, threadsPerBlock: nat, scalar: real)
    requires threadsPerBlock >= 1 && n >= 4
    ensures var shape := ForEachShape(n, threadsPerBlock);
            shape.Shape? &&
            ((forall m0: Mem, final: Mem |
                m0.Sized(n) && Reaches(n, Nstream, scalar, BlockStride(shape.start, shape.blocks, TBSIZE, n), m0, final) ::
                final == Apply(Nstream, scalar, m0)) <==>
             (shape.start % 256 == 0 || n <= shape.start))
  {
    ForEachShapeOk(n, threadsPerBlock);
    var shape := ForEachShape(n, threadsPerBlock);
    var loops := BlockStride(shape.start, shape.blocks, TBSIZE, n);
    BlockStrideBounds(shape.start, shape.blocks, TBSIZE, n);
    BlockStrideTilesIff(shape.start, shape.blocks, TBSIZE, n);
    SuitsIff(n, Nstream, scalar, loops);
  }

  /** A launch the code makes, with blocks that do not align: 2000 elements in two
      blocks of 1000, whose rows are 256 wide. For some arrays and some
      interleaving its nstream is not the serial one. */
  lemma UnalignedNstream(scalar: real)
    ensures ForEachShape(2000, 256) == Shape(2, 1000)
    ensures exists m0: Mem, final: Mem ::
              && m0.Sized(2000) && Reaches(2000, Nstream, scalar, BlockStride(1000, 2, 256, 2000), m0, final)
              && final != Apply(Nstream, scalar, m0)
  {
    CudaNstreamIff(2000, 256, scalar);
  }

  /** And one whose blocks do align: 1536 elements in two blocks of 768, three rows of
      256 each. Every interleaving of its nstream is the serial one. */
  lemma AlignedNstream(scalar: real, m0: Mem, final: Mem)
    requires m0.Sized(1536)
    requires var shape := ForEachShape(1536, 256);
             shape.Shape? ==>
               Reaches(1536, Nstream, scalar, BlockStride(shape.start, shape.blocks, TBSIZE, 1536), m0, final)
    ensures ForEachShape(1536, 256) == Shape(2, 768)
    ensures final == Apply(Nstream, scalar, m0)
  {
    CudaNstreamIff(1536, 256, scalar);
  }

  /** The block-strided launch of a kernel covers the arrays without leaving them;
      for nstream it suits exactly when it also tiles them. */
  lemma BlockStrideSuitsIff(n: nat, threadsPerBlock: nat, k: Kernel)
    requires threadsPerBlock >= 1 && n >= 4
    ensures var shape := ForEachShape(n, threadsPerBlock);
            && shape.Shape?
            && var loops := BlockStride(shape.start, shape.blocks, TBSIZE, n);
            && (forall t: nat | t < |loops| :: InBounds(loops[t], n))
            && (forall x: nat | x < n :: Visits(loops, x) >= 1)
            && (Suits(loops, n, k) <==> !k.Nstream? || shape.start % 256 == 0 || n <= shape.start)
  {
    ForEachShapeOk(n, threadsPerBlock);
    var shape := ForEachShape(n, threadsPerBlock);
    var loops := BlockStride(shape.start, shape.blocks, TBSIZE, n);
    BlockStrideBounds(shape.start, shape.blocks, TBSIZE, n);
    forall x: nat | x < n ensures Visits(loops, x) >= 1 {
      BlockStrideCovers(shape.start, shape.blocks, TBSIZE, n, x);
    }
    BlockStrideTilesIff(shape.start, shape.blocks, TBSIZE, n);
  }

  // ----- one work item per index: SYCL

  function RoundUp(value: nat, multiple: nat): nat {
    if multiple == 0 then value
    else
      var rem := value % multiple;
      if rem == 0 then value else value + (multiple - rem)
  }

  /** The least multiple that covers the value. */
  lemma RoundUpLeast(value: nat, multiple: nat)
    requires multiple >= 1
    ensures value <= RoundUp(value, multiple) < value + multiple
    ensures RoundUp(value, multiple) % multiple == 0
  {
    var q, r := value / multiple, value % multiple;
    assert value == q * multiple + r;
    if r != 0 {
      assert (q + 1) * multiple == q * multiple + multiple;
      ModOfMultiple(q + 1, multiple);
    }
  }

  /** `if (idx < N) body` for every work item of the rounded-up range. */
  function Guarded(n: nat, wg: nat): (r: seq<Loop>)
    ensures |r| == RoundUp(n, wg)
  {
    seq(RoundUp(n, wg), (idx: nat) => Loop(idx, 1, if idx < n then idx + 1 else idx))
  }

  lemma GuardedTiles(n: nat, wg: nat)
    ensures Tiles(Guarded(n, wg), n)
  {
    if wg >= 1 { RoundUpLeast(n, wg); }
    forall x: nat | x < n ensures Visits(Guarded(n, wg), x) == 1 {
      OneOwner(Guarded(n, wg), x, x);
    }
  }

  // ----- HIP's dot launch

  const HIP_TBSIZE: nat := 1024
  const DOT_READ_DWORDS_PER_LANE: nat := 4
  const SIZEOF_DWORD: nat := 4

  function DotElementsPerLane(sizeOfT: nat): (e: nat)
    requires sizeOfT >= 1
    ensures sizeOfT > 16 ==> e == 1
    ensures sizeOfT <= 16 ==> e * sizeOfT <= 16 < (e + 1) * sizeOfT
    ensures e >= 1
  {
    if DOT_READ_DWORDS_PER_LANE * SIZEOF_DWORD < sizeOfT then 1
    else DOT_READ_DWORDS_PER_LANE * SIZEOF_DWORD / sizeOfT
  }

  function DotNumBlocks(n: nat, sizeOfT: nat): nat
    requires sizeOfT >= 1
  {
    var perBlock := HIP_TBSIZE * DotElementsPerLane(sizeOfT);
    (n + (perBlock - 1)) / perBlock
  }

  /** No lane of HIP's dot takes more than its allotted number of elements: the
      index after that many strides is past the end; and one block fewer would not do. */
  lemma HipLaneBound(n: nat, sizeOfT: nat, g: nat, k: nat)
    requires sizeOfT >= 1
    ensures k >= DotElementsPerLane(sizeOfT) ==> !(g + k * (DotNumBlocks(n, sizeOfT) * 1024) < n)
    ensures n > 0 ==>
              (DotElementsPerLane(sizeOfT) * ((DotNumBlocks(n, sizeOfT) - 1) * 1024) < n)
  {
    var e := DotElementsPerLane(sizeOfT);
    var blocks := DotNumBlocks(n, sizeOfT);
    CeilDivBounds(n, HIP_TBSIZE * e);
    Regroup(blocks, HIP_TBSIZE, e);
    if n > 0 { Regroup(blocks - 1, HIP_TBSIZE, e); }
    if k >= e { MulMono(e, k, blocks * HIP_TBSIZE); }
  }

  lemma Regroup(blocks: nat, width: nat, e: nat)
    ensures blocks * (width * e) == e * (blocks * width)
  {
  }
}
