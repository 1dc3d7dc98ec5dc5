/** The five elementwise kernels and the dot product, as the single-threaded
    stream computes them. Every parallel form is compared with this one. */
module Kernels {
  import opened Sums

  datatype Kernel = Copy | Mul | Add | Triad | Nstream

  /** The three arrays of a stream. */
  datatype Mem = Mem(a: seq<real>, b: seq<real>, c: seq<real>) {
    predicate Sized(n: nat) {
      |a| == n && |b| == n && |c| == n
    }
  }

  function Uniform(n: nat, a: real, b: real, c: real): (m: Mem)
    ensures m.Sized(n)
  {
    Mem(seq(n, i => a), seq(n, i => b), seq(n, i => c))
  }

  /** The array a kernel writes. */
  function Target(k: Kernel, m: Mem): seq<real> {
    match k
    case Copy => m.c
    case Mul => m.b
    case Add => m.c
    case Triad => m.a
    case Nstream => m.a
  }

  /** What a kernel assigns to its target at index i. */
  function Value(k: Kernel, scalar: real, m: Mem, i: nat): real
    requires i < |m.a| && i < |m.b| && i < |m.c|
  {
    match k
    case Copy => m.a[i]
    case Mul => scalar * m.c[i]
    case Add => m.a[i] + m.b[i]
    case Triad => m.b[i] + scalar * m.c[i]
    case Nstream => m.a[i] + (m.b[i] + scalar * m.c[i])
  }

  function WithTarget(k: Kernel, m: Mem, x: seq<real>): Mem {
    match k
    case Copy => m.(c := x)
    case Mul => m.(b := x)
    case Add => m.(c := x)
    case Triad => m.(a := x)
    case Nstream => m.(a := x)
  }

  /** One whole kernel: every index gets its value once. */
  function Apply(k: Kernel, scalar: real, m: Mem): (r: Mem)
    requires m.Sized(|m.a|)
    ensures r.Sized(|m.a|)
  {
    WithTarget(k, m, seq(|m.a|, (i: nat) requires i < |m.a| => Value(k, scalar, m, i)))
  }

  function Term(a: seq<real>, b: seq<real>, i: nat): real {
    if i < |a| && i < |b| then a[i] * b[i] else 0.0
  }

  /** a[0]*b[0] + ... + a[n-1]*b[n-1]. */
  function DotProduct(n: nat, a: seq<real>, b: seq<real>): real {
    Sum(n, (i: nat) => Term(a, b, i))
  }

  lemma DotProductNext(n: nat, a: seq<real>, b: seq<real>)
    requires n < |a| && n < |b|
    ensures DotProduct(n + 1, a, b) == DotProduct(n, a, b) + a[n] * b[n]
  {
  }

  /** The dot of two uniform arrays, the value the solution check expects. */
  lemma UniformDot(n: nat, a: seq<real>, b: seq<real>, x: real, y: real)
    requires |a| == n && |b| == n
    requires forall i | 0 <= i < n :: a[i] == x && b[i] == y
    ensures DotProduct(n, a, b) == x * y * n as real
  {
    SumConst(n, (i: nat) => Term(a, b, i), x * y);
  }

  /** The serial stream: three buffers and one loop per kernel. */
  class SerialStream {
    const arraySize: nat
    const scalar: real
    const a: array<real>
    const b: array<real>
    const c: array<real>

    ghost predicate Valid() {
      && a.Length == arraySize && b.Length == arraySize && c.Length == arraySize
      && a != b && b != c && a != c
    }

    ghost function Contents(): (m: Mem)
      requires Valid()
      reads a, b, c
      ensures m.Sized(arraySize)
    {
      Mem(a[..], b[..], c[..])
    }

    constructor (size: nat, startScalar: real, initA: real, initB: real, initC: real)
      ensures Valid() && fresh(a) && fresh(b) && fresh(c)
      ensures arraySize == size && scalar == startScalar
      ensures Contents() == Uniform(size, initA, initB, initC)
    {
      arraySize, scalar := size, startScalar;
      a, b, c := new real[size], new real[size], new real[size];
      new;
      InitArrays(initA, initB, initC);
    }

    method InitArrays(initA: real, initB: real, initC: real)
      requires Valid()
      modifies a, b, c
      ensures Contents() == Uniform(arraySize, initA, initB, initC)
    {
      for i := 0 to arraySize
        invariant forall j | 0 <= j < i :: a[j] == initA && b[j] == initB && c[j] == initC
      {
        a[i] := initA;
        b[i] := initB;
        c[i] := initC;
      }
    }

    method Copy()
      requires Valid()
      modifies c
      ensures Contents() == Apply(Kernel.Copy, scalar, old(Contents()))
    {
      ghost var before := Contents();
      for i := 0 to arraySize
        invariant forall j | 0 <= j < i :: c[j] == Value(Kernel.Copy, scalar, before, j)
      {
        c[i] := a[i];
      }
    }

    method Mul()
      requires Valid()
      modifies b
      ensures Contents() == Apply(Kernel.Mul, scalar, old(Contents()))
    {
      ghost var before := Contents();
      for i := 0 to arraySize
        invariant forall j | 0 <= j < i :: b[j] == Value(Kernel.Mul, scalar, before, j)
      {
        assert scalar * c[i] == Value(Kernel.Mul, scalar, before, i);
        b[i] := scalar * c[i];
      }
    }

    method Add()
      requires Valid()
      modifies c
      ensures Contents() == Apply(Kernel.Add, scalar, old(Contents()))
    {
      ghost var before := Contents();
      for i := 0 to arraySize
        invariant forall j | 0 <= j < i :: c[j] == Value(Kernel.Add, scalar, before, j)
      {
        c[i] := a[i] + b[i];
      }
    }

    method Triad()
      requires Valid()
      modifies a
      ensures Contents() == Apply(Kernel.Triad, scalar, old(Contents()))
    {
      ghost var before := Contents();
      for i := 0 to arraySize
        invariant forall j | 0 <= j < i :: a[j] == Value(Kernel.Triad, scalar, before, j)
      {
        assert b[i] + scalar * c[i] == Value(Kernel.Triad, scalar, before, i);
        a[i] := b[i] + scalar * c[i];
      }
    }

    method Nstream()
      requires Valid()
      modifies a
      ensures Contents() == Apply(Kernel.Nstream, scalar, old(Contents()))
    {
      ghost var before := Contents();
      for i := 0 to arraySize
        invariant forall j | 0 <= j < i :: a[j] == Value(Kernel.Nstream, scalar, before, j)
        invariant forall j | i <= j < arraySize :: a[j] == before.a[j]
      {
        assert a[i] + (b[i] + scalar * c[i]) == Value(Kernel.Nstream, scalar, before, i);
        a[i] := a[i] + (b[i] + scalar * c[i]);
      }
    }

    method Dot() returns (sum: real)
      requires Valid()
      ensures sum == DotProduct(arraySize, a[..], b[..])
    {
      sum := 0.0;
      for i := 0 to arraySize
        invariant sum == DotProduct(i, a[..], b[..])
      {
        DotProductNext(i, a[..], b[..]);
        sum := sum + a[i] * b[i];
      }
    }
  }
}
