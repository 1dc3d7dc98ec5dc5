/** The threads of the Arc stream, step by step. Thread t takes the mutexes of its
    own chunks one after another, loops over the chunk with a load and a store per
    element, and gives the mutexes back; the steps of all threads interleave. On the
    flat arrays every such run is a run of the threads of `Interleave`. */
module ArcMachine {
  import opened Sums
  import opened Kernels
  import opened Partition
  import opened Chunks
  import Interleave

  datatype Name = A | B | C

  /** The mutex around one chunk of one array. */
  datatype Mutex = Mutex(name: Name, chunk: nat)

  /** The arrays, in chunks. */
  datatype Heap = Heap(a: seq<seq<real>>, b: seq<seq<real>>, c: seq<seq<real>>) {
    predicate Shaped(ns: seq<nat>) {
      Fits(ns, a) && Fits(ns, b) && Fits(ns, c)
    }
  }

  /** A thread that has taken `held` mutexes, one at index `at.i` of its loop with all
      of them taken, or one that still has `held` of them to give back. */
  datatype Thread = Locking(held: nat) | Running(at: Interleave.Thread) | Unlocking(held: nat)

  /** `owner` maps each taken mutex to the thread that took it. */
  datatype State = State(heap: Heap, owner: map<Mutex, nat>, threads: seq<Thread>)

  /** The arrays a kernel locks, in the order in which it locks them. */
  function Locks(k: Kernel): (r: seq<Name>)
    ensures |r| >= 2
  {
    match k
    case Copy => [A, C]
    case Mul => [B, C]
    case Add => [A, B, C]
    case Triad => [A, B, C]
    case Nstream => [A, B, C]
  }

  function ChunkMem(h: Heap, t: nat): Mem
    requires t < |h.a| && t < |h.b| && t < |h.c|
  {
    Mem(h.a[t], h.b[t], h.c[t])
  }

  function TargetName(k: Kernel): Name {
    match k
    case Copy => C
    case Mul => B
    case Add => C
    case Triad => A
    case Nstream => A
  }

  function ChunksOf(h: Heap, x: Name): seq<seq<real>> {
    match x
    case A => h.a
    case B => h.b
    case C => h.c
  }

  function WithChunks(h: Heap, x: Name, chunks: seq<seq<real>>): Heap {
    match x
    case A => h.(a := chunks)
    case B => h.(b := chunks)
    case C => h.(c := chunks)
  }

  /** Chunk t of the target, changed at i. */
  function StoreChunk(k: Kernel, h: Heap, t: nat, i: nat, v: real): Heap
    requires t < |ChunksOf(h, TargetName(k))| && i < |ChunksOf(h, TargetName(k))[t]|
  {
    var chunks := ChunksOf(h, TargetName(k));
    WithChunks(h, TargetName(k), chunks[t := chunks[t][i := v]])
  }

  predicate Enabled(k: Kernel, ns: seq<nat>, s: State, t: nat) {
    && s.heap.Shaped(ns) && |s.threads| == |ns| && t < |ns|
    && match s.threads[t]
       case Locking(held) => held < |Locks(k)| && Mutex(Locks(k)[held], t) !in s.owner
       case Running(at) => at.Ready? || at.i < ns[t]
       case Unlocking(held) => 0 < held <= |Locks(k)|
  }

  /** One step of thread t; `ns[t]` is the share it was given when it was spawned. */
  function Step(k: Kernel, scalar: real, ns: seq<nat>, s: State, t: nat): State
    requires Enabled(k, ns, s, t)
  {
    match s.threads[t]
    case Locking(held) =>
      var next := if held + 1 == |Locks(k)| then Running(Interleave.Ready(0)) else Locking(held + 1);
      s.(owner := s.owner[Mutex(Locks(k)[held], t) := t], threads := s.threads[t := next])
    case Running(Ready(i)) =>
      if i < ns[t] then
        s.(threads := s.threads[t := Running(Interleave.Loaded(i, Value(k, scalar, ChunkMem(s.heap, t), i)))])
      else
        s.(threads := s.threads[t := Unlocking(|Locks(k)|)])
    case Running(Loaded(i, v)) =>
      State(StoreChunk(k, s.heap, t, i, v), s.owner, s.threads[t := Running(Interleave.Ready(i + 1))])
    case Unlocking(held) =>
      s.(owner := s.owner - {Mutex(Locks(k)[held - 1], t)}, threads := s.threads[t := Unlocking(held - 1)])
  }

  // ----- what every step keeps

  predicate ThreadFits(k: Kernel, n: nat, th: Thread) {
    match th
    case Locking(held) => held < |Locks(k)|
    case Running(at) => at.i <= n && (at.Loaded? ==> at.i < n)
    case Unlocking(held) => held <= |Locks(k)|
  }

  function HeldCount(k: Kernel, th: Thread): nat {
    match th
    case Locking(held) => held
    case Running(_) => |Locks(k)|
    case Unlocking(held) => held
  }

  /** x is one of the first `held` names. */
  predicate Among(locks: seq<Name>, held: nat, x: Name) {
    exists j: nat :: j < |locks| && j < held && locks[j] == x
  }

  /** The thread has taken the mutex of its chunk of array x. */
  predicate Holds(k: Kernel, th: Thread, x: Name) {
    Among(Locks(k), HeldCount(k, th), x)
  }

  /** The taken mutexes are those the threads hold, each on its own chunk. */
  ghost predicate Owned(k: Kernel, s: State) {
    && (forall m: Mutex | m in s.owner :: m.chunk < |s.threads| && s.owner[m] == m.chunk)
    && (forall t: nat, x: Name {:trigger Mutex(x, t)} | t < |s.threads| ::
          Mutex(x, t) in s.owner <==> Holds(k, s.threads[t], x))
  }

  ghost predicate Inv(k: Kernel, ns: seq<nat>, s: State) {
    && s.heap.Shaped(ns) && |s.threads| == |ns|
    && (forall t: nat | t < |ns| :: ThreadFits(k, ns[t], s.threads[t]))
    && Owned(k, s)
  }

  function Spawn(h: Heap, ns: seq<nat>): State {
    State(h, map[], seq(|ns|, (t: nat) => Locking(0)))
  }

  lemma SpawnInv(k: Kernel, ns: seq<nat>, h: Heap)
    requires h.Shaped(ns)
    ensures Inv(k, ns, Spawn(h, ns))
  {
  }

  function Place(x: Name): nat {
    match x
    case A => 0
    case B => 1
    case C => 2
  }

  /** Every kernel locks in the same order, so none locks an array twice; and it locks
      all arrays but the one that copy and mul do without. */
  lemma LocksAscend(k: Kernel)
    ensures forall i: nat, j: nat | i < j < |Locks(k)| :: Place(Locks(k)[i]) < Place(Locks(k)[j])
    ensures (A in Locks(k) <==> !k.Mul?) && (B in Locks(k) <==> !k.Copy?) && C in Locks(k)
  {
    var locks := Locks(k);
    match k {
      case Copy => assert locks[0] == A && locks[1] == C;
      case Mul => assert locks[0] == B && locks[1] == C;
      case _ => assert locks[0] == A && locks[1] == B && locks[2] == C;
    }
  }

  lemma LocksDistinct(k: Kernel)
    ensures forall i: nat, j: nat | i < j < |Locks(k)| :: Locks(k)[i] != Locks(k)[j]
  {
  }

  /** One more mutex is one more name, and a new one. */
  lemma AmongNext(locks: seq<Name>, held: nat, x: Name)
    requires held < |locks| && forall i: nat, j: nat | i < j < |locks| :: locks[i] != locks[j]
    ensures Among(locks, held + 1, x) <==> Among(locks, held, x) || x == locks[held]
    ensures !Among(locks, held, locks[held])
  {
    if Among(locks, held, x) {
      var j: nat :| j < |locks| && j < held && locks[j] == x;
      assert j < held + 1;
    }
    if x == locks[held] { assert held < held + 1; }
  }

  lemma Taken(locks: seq<Name>, held: nat, owner: map<Mutex, nat>, t: nat, x: Name)
    requires held < |locks| && forall i: nat, j: nat | i < j < |locks| :: locks[i] != locks[j]
    requires Mutex(x, t) in owner <==> Among(locks, held, x)
    ensures Mutex(x, t) in owner[Mutex(locks[held], t) := t] <==> Among(locks, held + 1, x)
  {
    AmongNext(locks, held, x);
  }

  lemma GivenBack(locks: seq<Name>, held: nat, owner: map<Mutex, nat>, t: nat, x: Name)
    requires held < |locks| && forall i: nat, j: nat | i < j < |locks| :: locks[i] != locks[j]
    requires Mutex(x, t) in owner <==> Among(locks, held + 1, x)
    ensures Mutex(x, t) in owner - {Mutex(locks[held], t)} <==> Among(locks, held, x)
  {
    AmongNext(locks, held, x);
  }

  lemma TakesMutex(k: Kernel, scalar: real, ns: seq<nat>, s: State, t: nat, x: Name)
    requires Enabled(k, ns, s, t) && s.threads[t].Locking?
    requires Mutex(x, t) in s.owner <==> Holds(k, s.threads[t], x)
    ensures var after := Step(k, scalar, ns, s, t);
            Mutex(x, t) in after.owner <==> Holds(k, after.threads[t], x)
  {
    LocksDistinct(k);
    var locks, held := Locks(k), s.threads[t].held;
    Taken(locks, held, s.owner, t, x);
    assert HeldCount(k, Step(k, scalar, ns, s, t).threads[t]) == held + 1;
  }

  lemma GivesMutexBack(k: Kernel, scalar: real, ns: seq<nat>, s: State, t: nat, x: Name)
    requires Enabled(k, ns, s, t) && s.threads[t].Unlocking?
    requires Mutex(x, t) in s.owner <==> Holds(k, s.threads[t], x)
    ensures var after := Step(k, scalar, ns, s, t);
            Mutex(x, t) in after.owner <==> Holds(k, after.threads[t], x)
  {
    LocksDistinct(k);
    GivenBack(Locks(k), s.threads[t].held - 1, s.owner, t, x);
  }

  /** A thread's step changes what it holds and the owners of its mutexes alike. */
  lemma OwnMutexes(k: Kernel, scalar: real, ns: seq<nat>, s: State, t: nat, x: Name)
    requires Enabled(k, ns, s, t) && (Mutex(x, t) in s.owner <==> Holds(k, s.threads[t], x))
    ensures var after := Step(k, scalar, ns, s, t);
            Mutex(x, t) in after.owner <==> Holds(k, after.threads[t], x)
  {
    match s.threads[t]
    case Locking(_) => TakesMutex(k, scalar, ns, s, t, x);
    case Running(_) =>
    case Unlocking(_) => GivesMutexBack(k, scalar, ns, s, t, x);
  }

  lemma OtherMutexes(k: Kernel, scalar: real, ns: seq<nat>, s: State, t: nat, m: Mutex)
    requires Enabled(k, ns, s, t) && m.chunk != t
    ensures var after := Step(k, scalar, ns, s, t);
            (m in after.owner <==> m in s.owner) && (m in s.owner ==> after.owner[m] == s.owner[m])
  {
  }

  lemma StepOwned(k: Kernel, scalar: real, ns: seq<nat>, s: State, t: nat)
    requires Inv(k, ns, s) && Enabled(k, ns, s, t)
    ensures Owned(k, Step(k, scalar, ns, s, t))
  {
    var after := Step(k, scalar, ns, s, t);
    forall u: nat, x: Name | u < |ns|
      ensures Mutex(x, u) in after.owner <==> Holds(k, after.threads[u], x)
    {
      assert Mutex(x, u) in s.owner <==> Holds(k, s.threads[u], x);
      if u == t { OwnMutexes(k, scalar, ns, s, t, x); } else { OtherMutexes(k, scalar, ns, s, t, Mutex(x, u)); }
    }
  }

  lemma StepFits(k: Kernel, scalar: real, ns: seq<nat>, s: State, t: nat)
    requires Enabled(k, ns, s, t) && ThreadFits(k, ns[t], s.threads[t])
    ensures Step(k, scalar, ns, s, t).heap.Shaped(ns)
    ensures ThreadFits(k, ns[t], Step(k, scalar, ns, s, t).threads[t])
  {
  }

  /** Every step of every thread keeps the shapes, and the owners of the mutexes. */
  lemma StepKeepsInv(k: Kernel, scalar: real, ns: seq<nat>, s: State, t: nat)
    requires Inv(k, ns, s) && Enabled(k, ns, s, t)
    ensures Inv(k, ns, Step(k, scalar, ns, s, t))
  {
    StepFits(k, scalar, ns, s, t);
    StepOwned(k, scalar, ns, s, t);
  }

  /** No thread ever waits: the mutexes it wants are those of its own chunks. */
  lemma NeverWaits(k: Kernel, ns: seq<nat>, s: State, t: nat)
    requires Inv(k, ns, s) && t < |ns|
    ensures Enabled(k, ns, s, t) <==> s.threads[t] != Unlocking(0)
  {
    assert ThreadFits(k, ns[t], s.threads[t]);
    if s.threads[t].Locking? {
      var held := s.threads[t].held;
      LocksDistinct(k);
      AmongNext(Locks(k), held, Locks(k)[held]);
      assert Mutex(Locks(k)[held], t) !in s.owner;
    }
  }

  /** What a kernel computes at i depends on the arrays it locks alone. */
  lemma ReadsLocked(k: Kernel, scalar: real, m: Mem, other: Mem, i: nat)
    requires m.Sized(|m.a|) && other.Sized(|m.a|) && i < |m.a|
    requires A in Locks(k) ==> other.a == m.a
    requires B in Locks(k) ==> other.b == m.b
    requires C in Locks(k) ==> other.c == m.c
    ensures Value(k, scalar, other, i) == Value(k, scalar, m, i)
  {
    var locks := Locks(k);
    match k {
      case Copy => assert locks[0] == A;
      case Mul => assert locks[1] == C;
      case Add => assert locks[0] == A && locks[1] == B;
      case Triad => assert locks[1] == B && locks[2] == C;
      case Nstream => assert locks[0] == A && locks[1] == B && locks[2] == C;
    }
  }

  /** In its loop a thread owns the mutex of every chunk it locks, so that ... */
  lemma LoopOwns(k: Kernel, ns: seq<nat>, s: State, t: nat, x: Name)
    requires Inv(k, ns, s) && t < |ns| && s.threads[t].Running? && x in Locks(k)
    ensures Mutex(x, t) in s.owner && s.owner[Mutex(x, t)] == t
  {
    var j: nat :| j < |Locks(k)| && Locks(k)[j] == x;
    assert Holds(k, s.threads[t], x);
  }

  /** ... what it loads depends on chunks it owns alone, whatever the rest of the heap is, ... */
  lemma LoadsOwned(k: Kernel, scalar: real, ns: seq<nat>, s: State, other: Heap, t: nat, i: nat)
    requires Inv(k, ns, s) && t < |ns| && s.threads[t].Running? && i < ns[t] && other.Shaped(ns)
    requires forall x: Name | Mutex(x, t) in s.owner && s.owner[Mutex(x, t)] == t ::
               ChunksOf(other, x)[t] == ChunksOf(s.heap, x)[t]
    ensures Value(k, scalar, ChunkMem(other, t), i) == Value(k, scalar, ChunkMem(s.heap, t), i)
  {
    if A in Locks(k) { LoopOwns(k, ns, s, t, A); assert ChunksOf(other, A)[t] == ChunksOf(s.heap, A)[t]; }
    if B in Locks(k) { LoopOwns(k, ns, s, t, B); assert ChunksOf(other, B)[t] == ChunksOf(s.heap, B)[t]; }
    if C in Locks(k) { LoopOwns(k, ns, s, t, C); assert ChunksOf(other, C)[t] == ChunksOf(s.heap, C)[t]; }
    ReadsLocked(k, scalar, ChunkMem(s.heap, t), ChunkMem(other, t), i);
  }

  lemma TargetLocked(k: Kernel)
    ensures TargetName(k) in Locks(k)
  {
    var locks := Locks(k);
    assert locks[0] == TargetName(k) || locks[1] == TargetName(k) || locks[|locks| - 1] == TargetName(k);
  }

  /** ... and its steps change no chunk but the one it stores to, which it owns. */
  lemma StoresOwned(k: Kernel, scalar: real, ns: seq<nat>, s: State, t: nat, x: Name, u: nat)
    requires Inv(k, ns, s) && Enabled(k, ns, s, t) && u < |ns|
    requires ChunksOf(Step(k, scalar, ns, s, t).heap, x)[u] != ChunksOf(s.heap, x)[u]
    ensures x == TargetName(k) && u == t && Mutex(x, t) in s.owner && s.owner[Mutex(x, t)] == t
  {
    TargetLocked(k);
    if s.threads[t].Running? { LoopOwns(k, ns, s, t, TargetName(k)); }
  }

  // ----- the flat view

  function Flats(h: Heap): Mem {
    Mem(Flat(h.a), Flat(h.b), Flat(h.c))
  }

  /** Before its loop a thread stands at the start of its range, after it at the end. */
  function FlatThread(start: nat, n: nat, th: Thread): Interleave.Thread {
    match th
    case Locking(_) => Interleave.Ready(start)
    case Running(Ready(i)) => Interleave.Ready(start + i)
    case Running(Loaded(i, v)) => Interleave.Loaded(start + i, v)
    case Unlocking(_) => Interleave.Ready(start + n)
  }

  function FlatThreads(ns: seq<nat>, threads: seq<Thread>): (r: seq<Interleave.Thread>)
    requires |threads| == |ns|
    ensures |r| == |ns|
  {
    seq(|ns|, (t: nat) requires t < |ns| => FlatThread(Start(ns, t), ns[t], threads[t]))
  }

  function Abstract(ns: seq<nat>, s: State): Interleave.Machine
    requires |s.threads| == |ns|
  {
    Interleave.Machine(Flats(s.heap), FlatThreads(ns, s.threads))
  }

  /** The step is a load or a store, not a lock, an unlock or the end of a loop. */
  predicate Touches(ns: seq<nat>, s: State, t: nat) {
    t < |ns| && t < |s.threads| && s.threads[t].Running? && s.threads[t].at.i < ns[t]
  }

  lemma FlatsSized(ns: seq<nat>, h: Heap)
    requires h.Shaped(ns)
    ensures Flats(h).Sized(Size(ns))
  {
    FlatToLength(ns, h.a, |ns|);
    FlatToLength(ns, h.b, |ns|);
    FlatToLength(ns, h.c, |ns|);
  }

  lemma FlatValue(k: Kernel, scalar: real, ns: seq<nat>, h: Heap, t: nat, i: nat)
    requires h.Shaped(ns) && t < |ns| && i < ns[t]
    ensures Flats(h).Sized(Size(ns)) && Start(ns, t) + i < Size(ns)
    ensures Value(k, scalar, Flats(h), Start(ns, t) + i) == Value(k, scalar, ChunkMem(h, t), i)
  {
    FlatsSized(ns, h);
    FlatAt(ns, h.a, t, i);
    FlatAt(ns, h.b, t, i);
    FlatAt(ns, h.c, t, i);
    SameValue(k, scalar, Flats(h), Start(ns, t) + i, ChunkMem(h, t), i);
  }

  predicate SameMem(m: Mem, w: Mem) {
    m.a == w.a && m.b == w.b && m.c == w.c
  }

  lemma FlatStore(k: Kernel, ns: seq<nat>, h: Heap, t: nat, i: nat, v: real)
    requires h.Shaped(ns) && t < |ns| && i < ns[t]
    ensures Flats(h).Sized(Size(ns)) && Start(ns, t) + i < Size(ns)
    ensures SameMem(Flats(StoreChunk(k, h, t, i, v)), Interleave.Store(k, Flats(h), Start(ns, t) + i, v))
  {
    FlatValue(k, 0.0, ns, h, t, i);
    FlatUpdate(ns, ChunksOf(h, TargetName(k)), t, i, v);
  }

  /** Where one thread has moved, one thread of the flat view has. */
  lemma OneMoves(ns: seq<nat>, threads: seq<Thread>, t: nat, th: Thread, after: seq<Thread>, flat: Interleave.Thread)
    requires |threads| == |ns| && t < |ns| && after == threads[t := th]
    requires FlatThread(Start(ns, t), ns[t], th) == flat
    ensures FlatThreads(ns, after) == FlatThreads(ns, threads)[t := flat]
  {
  }

  /** Locks, unlocks and ends of loops are invisible in the flat view. */
  lemma Stutters(k: Kernel, scalar: real, ns: seq<nat>, s: State, t: nat)
    requires Inv(k, ns, s) && Enabled(k, ns, s, t) && !Touches(ns, s, t)
    ensures Abstract(ns, Step(k, scalar, ns, s, t)) == Abstract(ns, s)
  {
    var after := Step(k, scalar, ns, s, t);
    assert ThreadFits(k, ns[t], s.threads[t]);
    OneMoves(ns, s.threads, t, after.threads[t], after.threads, FlatThread(Start(ns, t), ns[t], s.threads[t]));
  }

  lemma FlatEnabled(k: Kernel, ns: seq<nat>, s: State, t: nat)
    requires Enabled(k, ns, s, t) && Touches(ns, s, t)
    ensures Interleave.Enabled(Size(ns), Ranges(ns), Abstract(ns, s), t)
    ensures Abstract(ns, s).threads[t].i == Start(ns, t) + s.threads[t].at.i
    ensures Ranges(ns)[t].stride == 1
  {
    FlatValue(k, 0.0, ns, s.heap, t, s.threads[t].at.i);
  }

  /** `after` is what the flat machine's load gives. */
  lemma IsLoad(n: nat, k: Kernel, scalar: real, loops: seq<Interleave.Loop>, m: Interleave.Machine, t: nat, j: nat,
               v: real, after: Interleave.Machine)
    requires Interleave.Enabled(n, loops, m, t) && m.threads[t] == Interleave.Ready(j)
    requires v == Value(k, scalar, m.mem, j)
    requires after.mem == m.mem && after.threads == m.threads[t := Interleave.Loaded(j, v)]
    ensures after == Interleave.Step(n, k, scalar, loops, m, t)
  {
  }

  /** `after` is what the flat machine's store gives. */
  lemma IsStore(n: nat, k: Kernel, scalar: real, loops: seq<Interleave.Loop>, m: Interleave.Machine, t: nat, j: nat,
                v: real, after: Interleave.Machine)
    requires Interleave.Enabled(n, loops, m, t) && m.threads[t] == Interleave.Loaded(j, v) && loops[t].stride == 1
    requires SameMem(after.mem, Interleave.Store(k, m.mem, j, v))
    requires after.threads == m.threads[t := Interleave.Ready(j + 1)]
    ensures after == Interleave.Step(n, k, scalar, loops, m, t)
  {
  }

  lemma AfterLoad(k: Kernel, scalar: real, ns: seq<nat>, s: State, t: nat, i: nat, v: real)
    requires Enabled(k, ns, s, t) && s.threads[t] == Running(Interleave.Ready(i)) && i < ns[t]
    requires v == Value(k, scalar, ChunkMem(s.heap, t), i)
    ensures var after := Step(k, scalar, ns, s, t);
            after.heap == s.heap && after.threads == s.threads[t := Running(Interleave.Loaded(i, v))]
  {
  }

  lemma AfterStore(k: Kernel, scalar: real, ns: seq<nat>, s: State, t: nat, i: nat, v: real)
    requires Enabled(k, ns, s, t) && s.threads[t] == Running(Interleave.Loaded(i, v))
    ensures var after := Step(k, scalar, ns, s, t);
            && s.heap.Shaped(ns) && Flats(s.heap).Sized(Size(ns)) && Start(ns, t) + i < Size(ns)
            && SameMem(Flats(after.heap), Interleave.Store(k, Flats(s.heap), Start(ns, t) + i, v))
            && after.threads == s.threads[t := Running(Interleave.Ready(i + 1))]
  {
    FlatStore(k, ns, s.heap, t, i, v);
  }

  lemma LoadRefines(k: Kernel, scalar: real, ns: seq<nat>, s: State, t: nat, i: nat)
    requires Enabled(k, ns, s, t) && s.threads[t] == Running(Interleave.Ready(i)) && i < ns[t]
    ensures Interleave.Enabled(Size(ns), Ranges(ns), Abstract(ns, s), t)
    ensures Abstract(ns, Step(k, scalar, ns, s, t)) ==
            Interleave.Step(Size(ns), k, scalar, Ranges(ns), Abstract(ns, s), t)
  {
    var v, after := Value(k, scalar, ChunkMem(s.heap, t), i), Step(k, scalar, ns, s, t);
    FlatValue(k, scalar, ns, s.heap, t, i);
    FlatEnabled(k, ns, s, t);
    AfterLoad(k, scalar, ns, s, t, i, v);
    OneMoves(ns, s.threads, t, Running(Interleave.Loaded(i, v)), after.threads, Interleave.Loaded(Start(ns, t) + i, v));
    IsLoad(Size(ns), k, scalar, Ranges(ns), Abstract(ns, s), t, Start(ns, t) + i, v, Abstract(ns, after));
  }

  /** A store by one thread, on flat memories. */
  lemma StoreOnFlat(k: Kernel, scalar: real, ns: seq<nat>, m: Mem, w: Mem, before: seq<Thread>, after: seq<Thread>,
                    t: nat, i: nat, v: real)
    requires m.Sized(Size(ns)) && t < |ns| == |before| && Start(ns, t) + i < Size(ns)
    requires before[t] == Running(Interleave.Loaded(i, v)) && after == before[t := Running(Interleave.Ready(i + 1))]
    requires SameMem(w, Interleave.Store(k, m, Start(ns, t) + i, v))
    ensures var flat := Interleave.Machine(m, FlatThreads(ns, before));
            && Interleave.Enabled(Size(ns), Ranges(ns), flat, t)
            && Interleave.Machine(w, FlatThreads(ns, after)) ==
               Interleave.Step(Size(ns), k, scalar, Ranges(ns), flat, t)
  {
    OneMoves(ns, before, t, after[t], after, Interleave.Ready(Start(ns, t) + i + 1));
    IsStore(Size(ns), k, scalar, Ranges(ns), Interleave.Machine(m, FlatThreads(ns, before)), t, Start(ns, t) + i, v,
            Interleave.Machine(w, FlatThreads(ns, after)));
  }

  lemma StoreRefines(k: Kernel, scalar: real, ns: seq<nat>, s: State, t: nat, i: nat, v: real)
    requires Enabled(k, ns, s, t) && s.threads[t] == Running(Interleave.Loaded(i, v))
    ensures Interleave.Enabled(Size(ns), Ranges(ns), Abstract(ns, s), t)
    ensures Abstract(ns, Step(k, scalar, ns, s, t)) ==
            Interleave.Step(Size(ns), k, scalar, Ranges(ns), Abstract(ns, s), t)
  {
    AfterStore(k, scalar, ns, s, t, i, v);
    var after := Step(k, scalar, ns, s, t);
    StoreOnFlat(k, scalar, ns, Flats(s.heap), Flats(after.heap), s.threads, after.threads, t, i, v);
  }

  /** A load or store at i of chunk t is thread t's step at Start(t) + i. */
  lemma Refines(k: Kernel, scalar: real, ns: seq<nat>, s: State, t: nat)
    requires Enabled(k, ns, s, t) && Touches(ns, s, t)
    ensures Interleave.Enabled(Size(ns), Ranges(ns), Abstract(ns, s), t)
    ensures Abstract(ns, Step(k, scalar, ns, s, t)) ==
            Interleave.Step(Size(ns), k, scalar, Ranges(ns), Abstract(ns, s), t)
  {
    match s.threads[t].at
    case Ready(i) => LoadRefines(k, scalar, ns, s, t, i);
    case Loaded(i, v) => StoreRefines(k, scalar, ns, s, t, i, v);
  }

  // ----- termination

  function Rank(k: Kernel, n: nat, th: Thread): nat {
    match th
    case Locking(held) => if held < |Locks(k)| then 2 * |Locks(k)| - held + 2 * n + 2 else 0
    case Running(Ready(i)) => |Locks(k)| + 1 + (if i < n then 2 * (n - i) else 0)
    case Running(Loaded(i, _)) => |Locks(k)| + (if i < n then 2 * (n - i) else 0)
    case Unlocking(held) => held
  }

  function Measure(k: Kernel, ns: seq<nat>, threads: seq<Thread>): nat
    requires |threads| == |ns|
  {
    Total(seq(|ns|, (t: nat) requires t < |ns| => Rank(k, ns[t], threads[t])))
  }

  lemma RankDecreases(k: Kernel, scalar: real, ns: seq<nat>, s: State, t: nat)
    requires Enabled(k, ns, s, t)
    ensures Rank(k, ns[t], Step(k, scalar, ns, s, t).threads[t]) < Rank(k, ns[t], s.threads[t])
  {
  }

  /** Every step, of locks and unlocks too, uses up some of the remaining work. */
  lemma StepDecreases(k: Kernel, scalar: real, ns: seq<nat>, s: State, t: nat)
    requires Enabled(k, ns, s, t)
    ensures Measure(k, ns, Step(k, scalar, ns, s, t).threads) < Measure(k, ns, s.threads)
  {
    var after := Step(k, scalar, ns, s, t).threads;
    var ranks := seq(|ns|, (u: nat) requires u < |ns| => Rank(k, ns[u], s.threads[u]));
    assert seq(|ns|, (u: nat) requires u < |ns| => Rank(k, ns[u], after[u])) ==
           ranks[t := Rank(k, ns[t], after[t])];
    RankDecreases(k, scalar, ns, s, t);
    TotalUpdate(ranks, t, Rank(k, ns[t], after[t]));
  }

  // ----- whole runs

  ghost predicate Legal(k: Kernel, scalar: real, ns: seq<nat>, s: State, schedule: seq<nat>)
    decreases |schedule|
  {
    |schedule| == 0 ||
    (Enabled(k, ns, s, schedule[0]) && Legal(k, scalar, ns, Step(k, scalar, ns, s, schedule[0]), schedule[1..]))
  }

  ghost function Run(k: Kernel, scalar: real, ns: seq<nat>, s: State, schedule: seq<nat>): State
    requires Legal(k, scalar, ns, s, schedule)
    decreases |schedule|
  {
    if |schedule| == 0 then s
    else Run(k, scalar, ns, Step(k, scalar, ns, s, schedule[0]), schedule[1..])
  }

  /** The flat view of a step is a run of one step or none. */
  lemma StepLeads(k: Kernel, scalar: real, ns: seq<nat>, s: State, t: nat)
    requires Inv(k, ns, s) && Enabled(k, ns, s, t)
    ensures Interleave.Leads(Size(ns), k, scalar, Ranges(ns), Abstract(ns, s), Abstract(ns, Step(k, scalar, ns, s, t)))
  {
    if Touches(ns, s, t) {
      Refines(k, scalar, ns, s, t);
      Interleave.LeadsStep(Size(ns), k, scalar, Ranges(ns), Abstract(ns, s), t);
    } else {
      Stutters(k, scalar, ns, s, t);
      Interleave.LeadsStay(Size(ns), k, scalar, Ranges(ns), Abstract(ns, s));
    }
  }

  /** Runs of the locking threads are, on the flat arrays, runs of the sharing threads. */
  lemma {:induction false} RunRefines(k: Kernel, scalar: real, ns: seq<nat>, s: State, schedule: seq<nat>)
    requires Inv(k, ns, s) && Legal(k, scalar, ns, s, schedule)
    ensures Inv(k, ns, Run(k, scalar, ns, s, schedule))
    ensures Interleave.Leads(Size(ns), k, scalar, Ranges(ns), Abstract(ns, s),
                             Abstract(ns, Run(k, scalar, ns, s, schedule)))
    ensures |schedule| + Measure(k, ns, Run(k, scalar, ns, s, schedule).threads) <= Measure(k, ns, s.threads)
    decreases |schedule|
  {
    if |schedule| == 0 {
      Interleave.LeadsStay(Size(ns), k, scalar, Ranges(ns), Abstract(ns, s));
    } else {
      var next := Step(k, scalar, ns, s, schedule[0]);
      StepKeepsInv(k, scalar, ns, s, schedule[0]);
      StepDecreases(k, scalar, ns, s, schedule[0]);
      StepLeads(k, scalar, ns, s, schedule[0]);
      RunRefines(k, scalar, ns, next, schedule[1..]);
      Interleave.LeadsOn(Size(ns), k, scalar, Ranges(ns), Abstract(ns, s), Abstract(ns, next),
                         Abstract(ns, Run(k, scalar, ns, s, schedule)));
    }
  }

  /** A run so far, and one more step of any thread that is not done. */
  lemma RunOn(k: Kernel, scalar: real, ns: seq<nat>, start: State, s: State, t: nat)
    requires Inv(k, ns, s) && |start.threads| == |ns| && t < |ns| && s.threads[t] != Unlocking(0)
    requires Interleave.Leads(Size(ns), k, scalar, Ranges(ns), Abstract(ns, start), Abstract(ns, s))
    ensures Enabled(k, ns, s, t)
    ensures var after := Step(k, scalar, ns, s, t);
            && Inv(k, ns, after) && Measure(k, ns, after.threads) < Measure(k, ns, s.threads)
            && Interleave.Leads(Size(ns), k, scalar, Ranges(ns), Abstract(ns, start), Abstract(ns, after))
  {
    NeverWaits(k, ns, s, t);
    StepKeepsInv(k, scalar, ns, s, t);
    StepDecreases(k, scalar, ns, s, t);
    StepLeads(k, scalar, ns, s, t);
    Interleave.LeadsOn(Size(ns), k, scalar, Ranges(ns), Abstract(ns, start), Abstract(ns, s),
                       Abstract(ns, Step(k, scalar, ns, s, t)));
  }

  lemma SpawnFlat(ns: seq<nat>, h: Heap)
    ensures Abstract(ns, Spawn(h, ns)) == Interleave.Machine(Flats(h), Interleave.Spawn(Ranges(ns)))
  {
  }

  predicate Finished(s: State) {
    forall t: nat | t < |s.threads| :: s.threads[t] == Unlocking(0)
  }

  lemma FinishedComplete(k: Kernel, ns: seq<nat>, s: State)
    requires Inv(k, ns, s) && Finished(s)
    ensures Interleave.Complete(Ranges(ns), Abstract(ns, s).threads)
    ensures s.owner == map[]
  {
    forall m: Mutex ensures m !in s.owner {
      assert m == Mutex(m.name, m.chunk);
      assert m.chunk < |s.threads| ==> !Holds(k, s.threads[m.chunk], m.name);
    }
  }

  /** Threads stop only at their ends. */
  lemma StuckFinished(k: Kernel, ns: seq<nat>, s: State)
    requires Inv(k, ns, s) && forall t: nat | t < |ns| :: !Enabled(k, ns, s, t)
    ensures Finished(s) && Interleave.Complete(Ranges(ns), Abstract(ns, s).threads)
    ensures s.owner == map[]
  {
    forall t: nat | t < |ns| ensures s.threads[t] == Unlocking(0) { NeverWaits(k, ns, s, t); }
    FinishedComplete(k, ns, s);
  }

  lemma FinishedSerial(k: Kernel, scalar: real, ns: seq<nat>, h: Heap, end: State)
    requires h.Shaped(ns) && |end.threads| == |ns|
    requires Interleave.Leads(Size(ns), k, scalar, Ranges(ns), Abstract(ns, Spawn(h, ns)), Abstract(ns, end))
    requires Interleave.Complete(Ranges(ns), Abstract(ns, end).threads)
    ensures Flats(h).Sized(Size(ns)) && Flats(end.heap) == Apply(k, scalar, Flats(h))
  {
    SpawnFlat(ns, h);
    FlatsSized(ns, h);
    RangesTile(ns);
    assert Interleave.Reaches(Size(ns), k, scalar, Ranges(ns), Flats(h), Flats(end.heap));
    Interleave.TilesSuit(Size(ns), k, Ranges(ns));
    Interleave.SuitsIff(Size(ns), k, scalar, Ranges(ns));
  }

  /** A run that cannot go on has finished, with every mutex free and the flat
      arrays as the serial kernel leaves them. */
  lemma StuckSerial(k: Kernel, scalar: real, ns: seq<nat>, h: Heap, end: State)
    requires h.Shaped(ns) && Inv(k, ns, end) && forall t: nat | t < |ns| :: !Enabled(k, ns, end, t)
    requires Interleave.Leads(Size(ns), k, scalar, Ranges(ns), Abstract(ns, Spawn(h, ns)), Abstract(ns, end))
    ensures Finished(end) && end.owner == map[]
    ensures Flats(h).Sized(Size(ns)) && Flats(end.heap) == Apply(k, scalar, Flats(h))
  {
    StuckFinished(k, ns, end);
    FinishedSerial(k, scalar, ns, h, end);
  }

  /** From the spawn on every interleaving of lock, load, store and unlock steps is
      bounded, and one that cannot go on has finished with every mutex free and
      the flat arrays as the serial kernel leaves them. */
  lemma EveryInterleaving(k: Kernel, scalar: real, ns: seq<nat>, h: Heap, schedule: seq<nat>)
    requires h.Shaped(ns) && Legal(k, scalar, ns, Spawn(h, ns), schedule)
    ensures |schedule| <= Measure(k, ns, Spawn(h, ns).threads)
    ensures var end := Run(k, scalar, ns, Spawn(h, ns), schedule);
            (forall t: nat | t < |ns| :: !Enabled(k, ns, end, t)) ==>
              && Finished(end) && end.owner == map[]
              && Flats(h).Sized(Size(ns)) && Flats(end.heap) == Apply(k, scalar, Flats(h))
  {
    SpawnInv(k, ns, h);
    RunRefines(k, scalar, ns, Spawn(h, ns), schedule);
    var end := Run(k, scalar, ns, Spawn(h, ns), schedule);
    if forall t: nat | t < |ns| :: !Enabled(k, ns, end, t) {
      StuckSerial(k, scalar, ns, h, end);
    }
  }

  function ChunkResults(k: Kernel, scalar: real, ns: seq<nat>, h: Heap): (r: seq<seq<real>>)
    requires h.Shaped(ns)
    ensures Fits(ns, r)
  {
    seq(|ns|, (t: nat) requires t < |ns| => Target(k, Apply(k, scalar, ChunkMem(h, t))))
  }

  lemma ResultsFlat(k: Kernel, scalar: real, ns: seq<nat>, h: Heap)
    requires h.Shaped(ns)
    ensures Flats(h).Sized(Size(ns))
    ensures Flat(ChunkResults(k, scalar, ns, h)) == Target(k, Apply(k, scalar, Flats(h)))
  {
    FlatsSized(ns, h);
    FlatApply(k, scalar, ns, h.a, h.b, h.c, ChunkResults(k, scalar, ns, h), |ns|);
  }

  /** What the serial kernel does to the flat arrays it does to each chunk by itself. */
  lemma EachChunkSerial(k: Kernel, scalar: real, ns: seq<nat>, h: Heap, end: Heap, t: nat)
    requires h.Shaped(ns) && end.Shaped(ns) && Flats(h).Sized(Size(ns)) && t < |ns|
    requires Flats(end) == Apply(k, scalar, Flats(h))
    ensures ChunksOf(end, TargetName(k))[t] == Target(k, Apply(k, scalar, ChunkMem(h, t)))
    ensures forall x: Name | x != TargetName(k) :: ChunksOf(end, x) == ChunksOf(h, x)
  {
    ResultsFlat(k, scalar, ns, h);
    FlatInjective(ns, ChunksOf(end, TargetName(k)), ChunkResults(k, scalar, ns, h));
    forall x: Name | x != TargetName(k) ensures ChunksOf(end, x) == ChunksOf(h, x) {
      FlatInjective(ns, ChunksOf(end, x), ChunksOf(h, x));
    }
  }
}
