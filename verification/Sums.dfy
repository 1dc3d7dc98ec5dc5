/** Finite sums and counts over index ranges, the common vocabulary of every
    reduction and every partition in this project. */
module Sums {

  /** f(0) + ... + f(n-1). */
  function Sum(n: nat, f: nat -> real): real {
    if n == 0 then 0.0 else Sum(n - 1, f) + f(n - 1)
  }

  /** The number of i below n with p(i). */
  function Count(n: nat, p: nat -> bool): (r: nat)
    ensures r <= n
  {
    if n == 0 then 0 else Count(n - 1, p) + (if p(n - 1) then 1 else 0)
  }

  /** The total of a sequence of naturals. */
  function Total(xs: seq<nat>): nat {
    if |xs| == 0 then 0 else Total(xs[..|xs| - 1]) + xs[|xs| - 1]
  }

  lemma {:induction false} SumCong(n: nat, f: nat -> real, g: nat -> real)
    requires forall i: nat | i < n :: f(i) == g(i)
    ensures Sum(n, f) == Sum(n, g)
  {
    if n > 0 { SumCong(n - 1, f, g); }
  }

  lemma {:induction false} SumConst(n: nat, f: nat -> real, x: real)
    requires forall i: nat | i < n :: f(i) == x
    ensures Sum(n, f) == x * n as real
  {
    if n > 0 { SumConst(n - 1, f, x); }
  }

  lemma {:induction false} SumPlus(n: nat, f: nat -> real, g: nat -> real, h: nat -> real)
    requires forall i: nat | i < n :: h(i) == f(i) + g(i)
    ensures Sum(n, h) == Sum(n, f) + Sum(n, g)
  {
    if n > 0 { SumPlus(n - 1, f, g, h); }
  }

  lemma {:induction false} SumPad(n: nat, m: nat, f: nat -> real)
    requires n <= m
    requires forall i: nat | n <= i < m :: f(i) == 0.0
    ensures Sum(m, f) == Sum(n, f)
    decreases m
  {
    if n < m { SumPad(n, m - 1, f); }
  }

  lemma {:induction false} SumSplit(n: nat, m: nat, f: nat -> real, g: nat -> real)
    requires forall i: nat | i < m :: g(i) == f(n + i)
    ensures Sum(n + m, f) == Sum(n, f) + Sum(m, g)
    decreases m
  {
    if m > 0 { SumSplit(n, m - 1, f, g); }
  }

  lemma {:induction false} SumPoint(n: nat, p: nat, f: nat -> real)
    requires p < n
    requires forall i: nat | i < n && i != p :: f(i) == 0.0
    ensures Sum(n, f) == f(p)
  {
    if p == n - 1 {
      SumPad(0, n - 1, f);
    } else {
      SumPoint(n - 1, p, f);
    }
  }

  /** Summing rows first or columns first is the same: rows(i) is the sum of
      row i, and cols(j) the sum of column j. */
  lemma {:induction false} SumSwap(n: nat, m: nat, h: (nat, nat) -> real, rows: nat -> real, cols: nat -> real)
    requires forall i: nat | i < n :: rows(i) == Sum(m, (j: nat) => h(i, j))
    requires forall j: nat | j < m :: cols(j) == Sum(n, (i: nat) => h(i, j))
    ensures Sum(n, rows) == Sum(m, cols)
  {
    if n == 0 {
      SumPad(0, m, cols);
    } else {
      var cols' := (j: nat) => Sum(n - 1, (i: nat) => h(i, j));
      var row := (j: nat) => h(n - 1, j);
      SumSwap(n - 1, m, h, rows, cols');
      forall j: nat | j < m ensures cols(j) == cols'(j) + row(j) {
        SumCong(n - 1, (i: nat) => h(i, j), (i: nat) => h(i, j));
      }
      SumPlus(m, cols', row, cols);
      SumCong(m, row, (j: nat) => h(n - 1, j));
    }
  }

  /** k consecutive blocks of width w, summed block by block. */
  lemma {:induction false} SumBlocks(k: nat, w: nat, f: nat -> real, blocks: nat -> real)
    requires forall b: nat | b < k :: blocks(b) == Sum(w, (r: nat) => f(b * w + r))
    ensures Sum(k * w, f) == Sum(k, blocks)
  {
    if k > 0 {
      SumBlocks(k - 1, w, f, blocks);
      LastBlock(k, w, f, (k - 1) * w);
    }
  }

  lemma LastBlock(k: nat, w: nat, f: nat -> real, start: nat)
    requires k > 0 && start == (k - 1) * w
    ensures Sum(k * w, f) == Sum(start, f) + Sum(w, (r: nat) => f(start + r))
  {
    assert k * w == start + w;
    SumSplit(start, w, f, (r: nat) => f(start + r));
  }

  lemma {:induction false} CountCong(n: nat, p: nat -> bool, q: nat -> bool)
    requires forall i: nat | i < n :: p(i) == q(i)
    ensures Count(n, p) == Count(n, q)
  {
    if n > 0 { CountCong(n - 1, p, q); }
  }

  lemma {:induction false} CountZero(n: nat, p: nat -> bool)
    ensures Count(n, p) == 0 <==> forall i: nat | i < n :: !p(i)
  {
    if n > 0 { CountZero(n - 1, p); }
  }

  lemma {:induction false} CountAll(n: nat, p: nat -> bool)
    ensures Count(n, p) == n <==> forall i: nat | i < n :: p(i)
  {
    if n > 0 { CountAll(n - 1, p); }
  }

  /** Turning one more index on raises the count by one. */
  lemma {:induction false} CountFlip(n: nat, t: nat, p: nat -> bool, q: nat -> bool)
    requires t < n && !p(t) && q(t)
    requires forall i: nat | i < n && i != t :: p(i) == q(i)
    ensures Count(n, q) == Count(n, p) + 1
  {
    if t == n - 1 {
      CountCong(n - 1, p, q);
    } else {
      CountFlip(n - 1, t, p, q);
    }
  }

  lemma {:induction false} CountMono(n: nat, p: nat -> bool, q: nat -> bool)
    requires forall i: nat | i < n && p(i) :: q(i)
    ensures Count(n, p) <= Count(n, q)
  {
    if n > 0 { CountMono(n - 1, p, q); }
  }

  /** One index, and no other. */
  lemma CountUnique(n: nat, t: nat, p: nat -> bool)
    requires t < n && p(t)
    requires forall i: nat | i < n && p(i) :: i == t
    ensures Count(n, p) == 1
  {
    CountFlip(n, t, (i: nat) => false, p);
    CountZero(n, (i: nat) => false);
  }

  lemma CountTwo(n: nat, t: nat, u: nat, p: nat -> bool)
    requires t < n && u < n && t != u && p(t) && p(u)
    ensures Count(n, p) >= 2
  {
    var others := (i: nat) => p(i) && i != t;
    CountFlip(n, t, others, p);
    CountZero(n, others);
    assert others(u);
  }

  /** A sum of one value over the chosen indices. */
  lemma {:induction false} CountScaled(n: nat, p: nat -> bool, f: nat -> real, v: real)
    requires forall i: nat | i < n :: f(i) == if p(i) then v else 0.0
    ensures Sum(n, f) == Count(n, p) as real * v
  {
    if n > 0 {
      CountScaled(n - 1, p, f, v);
      AddOne(Count(n - 1, p), v);
    }
  }

  lemma AddOne(k: nat, v: real)
    ensures (k + 1) as real * v == k as real * v + v
  {
  }

  /** a + inc + ... + inc, k times. */
  function Linear(a: real, inc: real, k: nat): real {
    if k == 0 then a else Linear(a, inc, k - 1) + inc
  }

  lemma {:induction false} LinearIsScaled(a: real, inc: real, k: nat)
    ensures Linear(a, inc, k) == a + k as real * inc
  {
    if k > 0 {
      LinearIsScaled(a, inc, k - 1);
      AddOne(k - 1, inc);
    }
  }

  lemma MulMono(x: nat, y: nat, m: nat)
    requires x <= y
    ensures x * m <= y * m
  {
  }

  function Min(x: nat, y: nat): nat {
    if x <= y then x else y
  }

  lemma {:induction false} TotalUpdate(xs: seq<nat>, i: nat, v: nat)
    requires i < |xs|
    ensures Total(xs[i := v]) + xs[i] == Total(xs) + v
  {
    var last := |xs| - 1;
    if i < last {
      assert xs[i := v][..last] == xs[..last][i := v];
      TotalUpdate(xs[..last], i, v);
    } else {
      assert xs[i := v][..last] == xs[..last];
    }
  }

  lemma {:induction false} TotalLess(xs: seq<nat>, ys: seq<nat>)
    requires |xs| == |ys|
    requires forall i | 0 <= i < |xs| :: xs[i] < ys[i]
    ensures Total(xs) + |xs| <= Total(ys)
  {
    if |xs| > 0 {
      var last := |xs| - 1;
      TotalLess(xs[..last], ys[..last]);
    }
  }
}
