/** The halving loop at the end of every dot kernel:
    `for (offset = size / 2; offset > 0; offset /= 2) if (li < offset) v[li] += v[li + offset]`.
    Which slots it folds into slot 0, for every size and not only for powers of two. */
module Tree {
  import opened Sums

  /** The loop variable after `gen` halvings of the work-group size. */
  function Offset(size: nat, gen: nat): nat {
    if gen == 0 then size else Offset(size, gen - 1) / 2
  }

  /** One barrier-to-barrier phase: every slot below `offset` takes in its partner. */
  function Phase(v: seq<real>, offset: nat): seq<real>
    requires 2 * offset <= |v|
  {
    seq(|v|, (i: nat) requires i < |v| => if i < offset then v[i] + v[i + offset] else v[i])
  }

  lemma {:induction false} OffsetBound(size: nat, gen: nat)
    ensures Offset(size, gen) <= size
    ensures gen > 0 ==> 2 * Offset(size, gen) <= size
  {
    if gen > 0 { OffsetBound(size, gen - 1); }
  }

  /** The slots after `gen` phases. */
  function Folded(v: seq<real>, gen: nat): (r: seq<real>)
    ensures |r| == |v|
  {
    if gen == 0 then v
    else OffsetBound(|v|, gen); Phase(Folded(v, gen - 1), Offset(|v|, gen))
  }

  /** Slot s of a work group of the given size reaches slot 0. */
  predicate Kept(size: nat, s: nat)
    requires s < size
  {
    size == 1 || (s < 2 * (size / 2) && Kept(size / 2, if s < size / 2 then s else s - size / 2))
  }

  /** v(s) if slot s is kept, else nothing. */
  function KeptTerm(size: nat, v: seq<real>, s: nat): real
    requires size <= |v|
  {
    if s < size && Kept(size, s) then v[s] else 0.0
  }

  function KeptSum(size: nat, v: seq<real>): real
    requires size <= |v|
  {
    Sum(size, (s: nat) => KeptTerm(size, v, s))
  }

  predicate PowerOfTwo(n: nat) {
    n == 1 || (n >= 2 && n % 2 == 0 && PowerOfTwo(n / 2))
  }

  lemma PowersUpTo1024()
    ensures PowerOfTwo(64) && PowerOfTwo(256) && PowerOfTwo(512) && PowerOfTwo(1024)
  {
    assert PowerOfTwo(8) && PowerOfTwo(16) && PowerOfTwo(32);
    assert PowerOfTwo(64) && PowerOfTwo(128);
    assert PowerOfTwo(256) && PowerOfTwo(512);
  }

  function FloorLog2(n: nat): nat
    requires n >= 1
  {
    if n == 1 then 0 else FloorLog2(n / 2) + 1
  }

  function Pow2(k: nat): nat {
    if k == 0 then 1 else 2 * Pow2(k - 1)
  }

  /** The first slot lost by a group whose size is not a power of two. */
  function FirstDropped(size: nat): nat
    requires size >= 1 && !PowerOfTwo(size)
  {
    if PowerOfTwo(size / 2) then size - 1 else FirstDropped(size / 2)
  }

  /** One phase keeps the kept total. */
  lemma PhaseKeeps(size: nat, v: seq<real>)
    requires 2 <= size <= |v|
    ensures KeptSum(size, v) == KeptSum(size / 2, Phase(v, size / 2))
  {
    var o := size / 2;
    var w := Phase(v, o);
    var all := (s: nat) => KeptTerm(size, v, s);
    var low := (s: nat) => if s < o && Kept(o, s) then v[s] else 0.0;
    var high := (s: nat) => if s < o && Kept(o, s) then v[s + o] else 0.0;
    SumPad(2 * o, size, all);
    SumSplit(o, o, all, high);
    SumCong(o, all, low);
    SumPlus(o, low, high, (s: nat) => KeptTerm(o, w, s));
  }

  /** After any number of phases the surviving slots still hold the kept total. */
  lemma {:induction false} FoldKeeps(v: seq<real>, gen: nat)
    requires |v| >= 1 && Offset(|v|, gen) >= 1
    ensures Offset(|v|, gen) <= |v|
    ensures KeptSum(|v|, v) == KeptSum(Offset(|v|, gen), Folded(v, gen))
  {
    OffsetBound(|v|, gen);
    if gen > 0 {
      FoldKeeps(v, gen - 1);
      PhaseKeeps(Offset(|v|, gen - 1), Folded(v, gen - 1));
    }
  }

  /** When the offset has come down to one, slot 0 holds the kept total. */
  lemma RootHoldsKeptSum(v: seq<real>, gen: nat)
    requires |v| >= 1 && Offset(|v|, gen) == 1
    ensures Folded(v, gen)[0] == KeptSum(|v|, v)
  {
    FoldKeeps(v, gen);
    var f := (s: nat) => KeptTerm(1, Folded(v, gen), s);
    SumPoint(1, 0, f);
  }

  lemma {:induction false} OffsetShift(size: nat, gen: nat)
    ensures Offset(size, gen + 1) == Offset(size / 2, gen)
  {
    if gen > 0 { OffsetShift(size, gen - 1); }
  }

  /** The loop runs exactly floor(log2(size)) phases. */
  lemma {:induction false} PhaseCount(size: nat, gen: nat)
    requires size >= 1
    ensures Offset(size, gen) == 1 <==> gen == FloorLog2(size)
  {
    if size == 1 {
      if gen > 0 { OffsetShift(1, gen - 1); OffsetBound(0, gen - 1); }
    } else if gen > 0 {
      OffsetShift(size, gen - 1);
      PhaseCount(size / 2, gen - 1);
    }
  }

  /** Of `size` slots exactly 2^floor(log2 size) are kept. */
  lemma KeptCount(size: nat)
    requires size >= 1
    ensures Count(size, (s: nat) => s < size && Kept(size, s)) == Pow2(FloorLog2(size))
  {
    var v := seq(size, (i: nat) => 1.0);
    KeptValue(size, v, 1.0, Pow2(FloorLog2(size)) as real);
    CountScaled(size, (s: nat) => s < size && Kept(size, s), (s: nat) => KeptTerm(size, v, s), 1.0);
  }

  lemma {:induction false} KeptValue(size: nat, v: seq<real>, x: real, total: real)
    requires 1 <= size <= |v| && total == Pow2(FloorLog2(size)) as real * x
    requires forall i | 0 <= i < size :: v[i] == x
    ensures KeptSum(size, v) == total
  {
    if size == 1 {
      SumPoint(1, 0, (s: nat) => KeptTerm(1, v, s));
    } else {
      PhaseKeeps(size, v);
      HalfPow(size);
      Doubled(Pow2(FloorLog2(size / 2)), x);
      KeptValue(size / 2, Phase(v, size / 2), x + x, total);
    }
  }

  lemma HalfPow(size: nat)
    requires size >= 2
    ensures Pow2(FloorLog2(size)) == 2 * Pow2(FloorLog2(size / 2))
  {
  }

  lemma Doubled(p: nat, x: real)
    ensures p as real * (x + x) == (2 * p) as real * x
  {
  }

  lemma {:induction false} PowerOfTwoKeepsAll(size: nat, s: nat)
    requires PowerOfTwo(size) && s < size
    ensures Kept(size, s)
  {
    if size > 1 { PowerOfTwoKeepsAll(size / 2, if s < size / 2 then s else s - size / 2); }
  }

  lemma {:induction false} FirstDroppedIsFirst(size: nat, s: nat)
    requires size >= 1 && !PowerOfTwo(size)
    ensures FirstDropped(size) < size && !Kept(size, FirstDropped(size))
    ensures s < FirstDropped(size) ==> Kept(size, s)
  {
    var o := size / 2;
    if PowerOfTwo(o) {
      if s < size - 1 { PowerOfTwoKeepsAll(o, if s < o then s else s - o); }
    } else {
      FirstDroppedIsFirst(o, s);
    }
  }

  lemma SmallMod(i: nat, m: nat)
    requires i < m
    ensures i % m == i && i / m == 0
  {
  }

  lemma KeptWhen(size: nat, n: nat, i: nat)
    requires size >= 1 && i < n
    requires PowerOfTwo(size) || n <= FirstDropped(size)
    ensures Kept(size, i % size)
  {
    if PowerOfTwo(size) {
      PowerOfTwoKeepsAll(size, i % size);
    } else {
      FirstDroppedIsFirst(size, i);
      SmallMod(i, size);
    }
  }

  /** The halving loop keeps all of the first n items of a grid-strided deal, for
      a group of any size, exactly when the size is a power of two or the first
      loss comes later. */
  lemma AllKeptIff(size: nat, n: nat)
    requires size >= 1
    ensures (forall i: nat | i < n :: Kept(size, i % size)) <==>
            (PowerOfTwo(size) || n <= FirstDropped(size))
  {
    if PowerOfTwo(size) || n <= FirstDropped(size) {
      forall i: nat | i < n ensures Kept(size, i % size) { KeptWhen(size, n, i); }
    } else {
      var d := FirstDropped(size);
      FirstDroppedIsFirst(size, 0);
      SmallMod(d, size);
      assert !Kept(size, d % size);
    }
  }
}
