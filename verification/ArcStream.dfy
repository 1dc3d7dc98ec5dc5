/** The Arc stream keeps each array as one locked chunk per thread. Read in
    thread order the chunks are the flat arrays of the serial stream. */
module ArcStream {
  import opened Sums
  import opened Kernels
  import opened Partition
  import opened Chunks
  import opened ArcMachine
  import Interleave

  class ArcStream {
    const size: nat
    const ncore: nat
    const scalar: real
    const init: (real, real, real)
    var aChunks: seq<seq<real>>
    var bChunks: seq<seq<real>>
    var cChunks: seq<seq<real>>
    var a: seq<real>
    var b: seq<real>
    var c: seq<real>

    /** The chunks have been laid out. */
    ghost predicate Valid()
      reads this
    {
      && ncore >= 1 && ChunksFit(size, ncore)
      && Shaped(size, ncore, aChunks) && Shaped(size, ncore, bChunks) && Shaped(size, ncore, cChunks)
      && |a| == size && |b| == size && |c| == size
    }

    /** The abstract arrays. */
    ghost function Contents(): (m: Mem)
      reads this
      requires Valid()
      ensures m.Sized(size)
    {
      FlatLength(size, ncore, aChunks);
      FlatLength(size, ncore, bChunks);
      FlatLength(size, ncore, cChunks);
      Mem(Flat(aChunks), Flat(bChunks), Flat(cChunks))
    }

    constructor (arraySize: nat, cores: nat, startScalar: real, initial: (real, real, real))
      requires cores >= 1
      ensures size == arraySize && ncore == cores && scalar == startScalar && init == initial
      ensures aChunks == bChunks == cChunks == seq(cores, i => [])
      ensures |a| == size && |b| == size && |c| == size
    {
      size, ncore, scalar, init := arraySize, cores, startScalar, initial;
      aChunks, bChunks, cChunks := seq(cores, i => []), seq(cores, i => []), seq(cores, i => []);
      a, b, c := seq(arraySize, i => 0.0), seq(arraySize, i => 0.0), seq(arraySize, i => 0.0);
    }

    /** Lays out the chunks, or panics when the share of the last thread underflows.
        Only what a resize adds is set to the initial values. */
    method InitArrays() returns (ok: bool)
      requires ncore >= 1 && |aChunks| == ncore && |bChunks| == ncore && |cChunks| == ncore
      requires |a| == size && |b| == size && |c| == size
      modifies this
      ensures a == old(a) && b == old(b) && c == old(c)
      ensures ok <==> ChunksFit(size, ncore)
      ensures ok ==> Valid()
      ensures ok ==> forall t: nat | t < ncore ::
                && aChunks[t] == Resize(old(aChunks[t]), |aChunks[t]|, init.0)
                && bChunks[t] == Resize(old(bChunks[t]), |bChunks[t]|, init.1)
                && cChunks[t] == Resize(old(cChunks[t]), |cChunks[t]|, init.2)
    {
      for t := 0 to ncore
        invariant |aChunks| == ncore && |bChunks| == ncore && |cChunks| == ncore
        invariant a == old(a) && b == old(b) && c == old(c)
        invariant forall u: nat | u < t ::
                    && ThreadLen(size, ncore, u) == Some(|aChunks[u]|)
                    && |bChunks[u]| == |aChunks[u]| && |cChunks[u]| == |aChunks[u]|
                    && aChunks[u] == Resize(old(aChunks[u]), |aChunks[u]|, init.0)
                    && bChunks[u] == Resize(old(bChunks[u]), |bChunks[u]|, init.1)
                    && cChunks[u] == Resize(old(cChunks[u]), |cChunks[u]|, init.2)
        invariant forall u: nat | t <= u < ncore ::
                    aChunks[u] == old(aChunks[u]) && bChunks[u] == old(bChunks[u]) && cChunks[u] == old(cChunks[u])
      {
        match ThreadLen(size, ncore, t)
        case None => return false;
        case Some(n) =>
          aChunks := aChunks[t := Resize(aChunks[t], n, init.0)];
          bChunks := bChunks[t := Resize(bChunks[t], n, init.1)];
          cChunks := cChunks[t := Resize(cChunks[t], n, init.2)];
      }
      assert ThreadLen(size, ncore, ncore - 1).Some?;
      return true;
    }

    /** The chunks as they are, with the given owners and threads. */
    ghost function Snapshot(owner: map<Mutex, nat>, threads: seq<Thread>): State
      reads this
    {
      State(Heap(aChunks, bChunks, cChunks), owner, threads)
    }

    /** One step of thread t on the live chunks. */
    method StepThread(k: Kernel, ns: seq<nat>, owner: map<Mutex, nat>, threads: seq<Thread>, t: nat)
      returns (newOwner: map<Mutex, nat>, newThreads: seq<Thread>)
      requires Enabled(k, ns, Snapshot(owner, threads), t)
      modifies this`aChunks, this`bChunks, this`cChunks
      ensures Snapshot(newOwner, newThreads) == Step(k, scalar, ns, old(Snapshot(owner, threads)), t)
    {
      newOwner, newThreads := owner, threads;
      match threads[t]
      case Locking(held) =>
        newOwner := owner[Mutex(Locks(k)[held], t) := t];
        newThreads := threads[t := if held + 1 == |Locks(k)| then Running(Interleave.Ready(0)) else Locking(held + 1)];
      case Running(Ready(i)) =>
        if i < ns[t] {
          var v := match k
            case Copy => aChunks[t][i]
            case Mul => scalar * cChunks[t][i]
            case Add => aChunks[t][i] + bChunks[t][i]
            case Triad => bChunks[t][i] + scalar * cChunks[t][i]
            case Nstream => aChunks[t][i] + (bChunks[t][i] + scalar * cChunks[t][i]);
          assert v == Value(k, scalar, Mem(aChunks[t], bChunks[t], cChunks[t]), i);
          newThreads := threads[t := Running(Interleave.Loaded(i, v))];
        } else {
          newThreads := threads[t := Unlocking(|Locks(k)|)];
        }
      case Running(Loaded(i, v)) =>
        match k {
          case Copy => cChunks := cChunks[t := cChunks[t][i := v]];
          case Mul => bChunks := bChunks[t := bChunks[t][i := v]];
          case Add => cChunks := cChunks[t := cChunks[t][i := v]];
          case Triad => aChunks := aChunks[t := aChunks[t][i := v]];
          case Nstream => aChunks := aChunks[t := aChunks[t][i := v]];
        }
        newThreads := threads[t := Running(Interleave.Ready(i + 1))];
      case Unlocking(held) =>
        newOwner := owner - {Mutex(Locks(k)[held - 1], t)};
        newThreads := threads[t := Unlocking(held - 1)];
    }

    ghost function Chunked(): Heap
      reads this
    {
      Heap(aChunks, bChunks, cChunks)
    }

    /** A thread per chunk, any of which may take the next step, until all of them
        can be joined. */
    method RunThreads(k: Kernel, ns: seq<nat>)
      requires Chunked().Shaped(ns)
      modifies this`aChunks, this`bChunks, this`cChunks
      ensures Chunked().Shaped(ns) && old(Flats(Chunked())).Sized(Size(ns))
      ensures Flats(Chunked()) == Apply(k, scalar, old(Flats(Chunked())))
    {
      ghost var h := Chunked();
      ghost var spawned := Spawn(h, ns);
      SpawnInv(k, ns, h);
      Interleave.LeadsStay(Size(ns), k, scalar, Ranges(ns), Abstract(ns, spawned));
      var owner, threads := map[], seq(|ns|, (t: nat) => Locking(0));
      assert threads == spawned.threads;
      while exists t: nat :: t < |ns| && threads[t] != Unlocking(0)
        invariant Inv(k, ns, Snapshot(owner, threads))
        invariant Interleave.Leads(Size(ns), k, scalar, Ranges(ns), Abstract(ns, spawned),
                                   Abstract(ns, Snapshot(owner, threads)))
        decreases Measure(k, ns, threads)
      {
        var t: nat :| t < |ns| && threads[t] != Unlocking(0);
        RunOn(k, scalar, ns, spawned, Snapshot(owner, threads), t);
        owner, threads := StepThread(k, ns, owner, threads, t);
      }
      FinishedComplete(k, ns, Snapshot(owner, threads));
      FinishedSerial(k, scalar, ns, h, Snapshot(owner, threads));
    }

    /** One kernel. Read in thread order, the chunks hold afterwards what the serial
        kernel makes of the abstract arrays. */
    method RunKernel(k: Kernel)
      requires Valid()
      modifies this`aChunks, this`bChunks, this`cChunks
      ensures Valid() && Contents() == Apply(k, scalar, old(Contents()))
    {
      ValidShaped(Lens(size, ncore));
      RunThreads(k, Lens(size, ncore));
      ValidShaped(Lens(size, ncore));
    }

    lemma ValidShaped(ns: seq<nat>)
      requires ncore >= 1 && ChunksFit(size, ncore) && ns == Lens(size, ncore) && |a| == |b| == |c| == size
      ensures Valid() <==> Chunked().Shaped(ns)
    {
      ShapedFits(size, ncore, aChunks);
      ShapedFits(size, ncore, bChunks);
      ShapedFits(size, ncore, cChunks);
    }

    method Unlift(drain: seq<real>, source: seq<seq<real>>) returns (r: seq<real>)
      requires |drain| == size && |Flat(source)| >= size
      ensures r == Flat(source)[..size]
    {
      var xs := Flat(source);
      r := drain;
      for i := 0 to size
        invariant |r| == size && r[..i] == xs[..i]
      {
        r := r[i := xs[i]];
      }
    }

    /** The host vectors become the abstract arrays. */
    method ReadArrays()
      requires Valid()
      modifies this`a, this`b, this`c
      ensures Valid() && Contents() == old(Contents()) && Mem(a, b, c) == Contents()
    {
      FlatLength(size, ncore, aChunks);
      FlatLength(size, ncore, bChunks);
      FlatLength(size, ncore, cChunks);
      a := Unlift(a, aChunks);
      b := Unlift(b, bChunks);
      c := Unlift(c, cChunks);
    }

    method DotThread(x: seq<real>, y: seq<real>) returns (p: real)
      requires |x| == |y|
      ensures p == DotProduct(|x|, x, y)
    {
      p := 0.0;
      for i := 0 to |x|
        invariant p == DotProduct(i, x, y)
      {
        DotProductNext(i, x, y);
        p := p + x[i] * y[i];
      }
    }

    method Dot() returns (sum: real)
      requires Valid()
      ensures sum == DotProduct(size, Contents().a, Contents().b)
    {
      ghost var ns := Lens(size, ncore);
      ValidShaped(ns);
      SharesAddUp(size, ncore);
      sum := 0.0;
      for t := 0 to ncore
        invariant sum == DotProduct(Start(ns, t), FlatTo(aChunks, t), FlatTo(bChunks, t))
      {
        var p := DotThread(aChunks[t], bChunks[t]);
        FlatDotNext(ns, aChunks, bChunks, t);
        sum := sum + p;
      }
    }
  }

  /** The first init, from the empty chunks of a new stream, gives the flat initial arrays. */
  lemma FirstInitIsUniform(len: nat, ncore: nat, chunks: seq<seq<real>>, x: real)
    requires ncore >= 1 && ChunksFit(len, ncore) && Shaped(len, ncore, chunks)
    requires forall t: nat | t < ncore :: chunks[t] == Resize([], |chunks[t]|, x)
    ensures Flat(chunks) == seq(len, i => x)
  {
    FlatUniform(chunks, ncore, x);
    FlatLength(len, ncore, chunks);
  }

  /** A later init finds every chunk at its full length, and changes nothing. */
  lemma LaterInitChangesNothing(len: nat, ncore: nat, before: seq<seq<real>>, after: seq<seq<real>>, x: real)
    requires ncore >= 1 && ChunksFit(len, ncore) && Shaped(len, ncore, before) && Shaped(len, ncore, after)
    requires forall t: nat | t < ncore :: after[t] == Resize(before[t], |after[t]|, x)
    ensures after == before
  {
    forall t: nat | t < ncore ensures after[t] == before[t] {
      assert ThreadLen(len, ncore, t) == Some(|before[t]|);
      assert ThreadLen(len, ncore, t) == Some(|after[t]|);
    }
  }
}
