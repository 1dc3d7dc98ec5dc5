/** Elementwise kernels run by many threads at once. A thread is a loop
    `for (i = first; i < limit; i += stride)` whose body loads the operands at i
    and later stores the result at i; the threads interleave freely. */
module Interleave {
  import opened Sums
  import opened Kernels

  datatype Loop = Loop(first: nat, stride: nat, limit: nat)

  /** The loop variable takes the value x, if the loop goes on that far. */
  predicate OnStride(l: Loop, x: nat) {
    l.stride >= 1 && (x == l.first || (x >= l.first + l.stride && OnStride(l, x - l.stride)))
  }

  /** The loop's body runs for index x. */
  predicate Hits(l: Loop, x: nat) {
    x < l.limit && OnStride(l, x)
  }

  /** The loop advances, and stays inside arrays of n elements. */
  ghost predicate InBounds(l: Loop, n: nat) {
    l.stride >= 1 && forall x: nat :: Hits(l, x) ==> x < n
  }

  /** How many threads run the body for index x. */
  function Visits(loops: seq<Loop>, x: nat): nat {
    Count(|loops|, (t: nat) => t < |loops| && Hits(loops[t], x))
  }

  /** Every index below n is visited once, and nothing else is. */
  ghost predicate Tiles(loops: seq<Loop>, n: nat) {
    && (forall t: nat | t < |loops| :: InBounds(loops[t], n))
    && (forall x: nat | x < n :: Visits(loops, x) == 1)
  }

  /** A thread at the head of its loop, or between load and store. */
  datatype Thread = Ready(i: nat) | Loaded(i: nat, value: real)

  datatype Machine = Machine(mem: Mem, threads: seq<Thread>)

  function Spawn(loops: seq<Loop>): seq<Thread> {
    seq(|loops|, (t: nat) requires t < |loops| => Ready(loops[t].first))
  }

  predicate Active(l: Loop, th: Thread) {
    th.Loaded? || th.i < l.limit
  }

  predicate Enabled(n: nat, loops: seq<Loop>, st: Machine, t: nat) {
    && t < |loops| && |st.threads| == |loops| && st.mem.Sized(n)
    && st.threads[t].i < n && Active(loops[t], st.threads[t])
  }

  function Store(k: Kernel, m: Mem, i: nat, value: real): Mem
    requires i < |Target(k, m)|
  {
    WithTarget(k, m, Target(k, m)[i := value])
  }

  /** One step of thread t. */
  function Step(n: nat, k: Kernel, scalar: real, loops: seq<Loop>, st: Machine, t: nat): Machine
    requires Enabled(n, loops, st, t)
  {
    match st.threads[t]
    case Ready(i) => st.(threads := st.threads[t := Loaded(i, Value(k, scalar, st.mem, i))])
    case Loaded(i, value) => Machine(Store(k, st.mem, i, value), st.threads[t := Ready(i + loops[t].stride)])
  }

  /** What one nstream update adds at x. */
  function Increment(scalar: real, m: Mem, x: nat): real
    requires m.Sized(|m.a|) && x < |m.a|
  {
    m.b[x] + scalar * m.c[x]
  }

  /** The target at x after r effective updates of the original memory. Only
      nstream reads what it writes, so only there does r matter beyond r > 0. */
  function Outcome(k: Kernel, scalar: real, m: Mem, x: nat, r: nat): real
    requires m.Sized(|m.a|) && x < |m.a|
  {
    if r == 0 then Target(k, m)[x]
    else if k.Nstream? then Linear(m.a[x], Increment(scalar, m, x), r)
    else Value(k, scalar, m, x)
  }

  // ----- the invariant

  predicate Passed(l: Loop, th: Thread, x: nat) {
    Hits(l, x) && x < th.i
  }

  /** How many visits to x are complete. */
  function Stored(loops: seq<Loop>, threads: seq<Thread>, x: nat): nat {
    Count(|loops|, (t: nat) => t < |loops| && t < |threads| && Passed(loops[t], threads[t], x))
  }

  /** `value` is what between min(lo, hi) and hi effective updates leave at x. */
  ghost predicate Between(k: Kernel, scalar: real, m: Mem, x: nat, lo: nat, hi: nat, value: real)
    requires m.Sized(|m.a|) && x < |m.a|
  {
    exists r: nat :: lo <= r <= hi && value == Outcome(k, scalar, m, x, r)
  }

  function AtLeastOnce(visits: nat): nat {
    if visits == 0 then 0 else 1
  }

  ghost predicate ThreadOk(k: Kernel, scalar: real, m0: Mem, l: Loop, th: Thread, stored: nat)
    requires m0.Sized(|m0.a|)
  {
    && OnStride(l, th.i)
    && (th.Loaded? ==>
          th.i < l.limit && th.i < |m0.a| && Between(k, scalar, m0, th.i, 1, stored + 1, th.value))
  }

  ghost predicate ThreadAt(k: Kernel, scalar: real, loops: seq<Loop>, m0: Mem, st: Machine, t: nat)
    requires m0.Sized(|m0.a|) && |st.threads| == |loops| && t < |loops|
  {
    ThreadOk(k, scalar, m0, loops[t], st.threads[t], Stored(loops, st.threads, st.threads[t].i))
  }

  ghost predicate IndexAt(k: Kernel, scalar: real, loops: seq<Loop>, m0: Mem, st: Machine, x: nat)
    requires m0.Sized(|m0.a|) && st.mem.Sized(|m0.a|) && x < |m0.a|
  {
    Between(k, scalar, m0, x, AtLeastOnce(Stored(loops, st.threads, x)), Stored(loops, st.threads, x),
            Target(k, st.mem)[x])
  }

  ghost predicate Inv(n: nat, k: Kernel, scalar: real, loops: seq<Loop>, m0: Mem, st: Machine) {
    && m0.Sized(n) && st.mem.Sized(n) && |st.threads| == |loops|
    && (forall t: nat | t < |loops| :: InBounds(loops[t], n))
    && st.mem == WithTarget(k, m0, Target(k, st.mem))
    && (forall t: nat {:trigger ThreadAt(k, scalar, loops, m0, st, t)} | t < |loops| ::
          ThreadAt(k, scalar, loops, m0, st, t))
    && (forall x: nat {:trigger IndexAt(k, scalar, loops, m0, st, x)} | x < n ::
          IndexAt(k, scalar, loops, m0, st, x))
  }

  lemma SpawnInv(n: nat, k: Kernel, scalar: real, loops: seq<Loop>, m0: Mem)
    requires m0.Sized(n)
    requires forall t: nat | t < |loops| :: InBounds(loops[t], n)
    ensures Inv(n, k, scalar, loops, m0, Machine(m0, Spawn(loops)))
    ensures forall x: nat :: Stored(loops, Spawn(loops), x) == 0
  {
    var threads := Spawn(loops);
    forall x: nat ensures Stored(loops, threads, x) == 0 {
      CountZero(|loops|, (t: nat) => t < |loops| && t < |threads| && Passed(loops[t], threads[t], x));
    }
    var st := Machine(m0, threads);
    forall x: nat | x < n ensures IndexAt(k, scalar, loops, m0, st, x) {
      assert Target(k, m0)[x] == Outcome(k, scalar, m0, x, 0);
    }
    forall t: nat | t < |loops| ensures ThreadAt(k, scalar, loops, m0, st, t) {
    }
  }

  lemma ActiveInBounds(n: nat, k: Kernel, scalar: real, loops: seq<Loop>, m0: Mem, st: Machine, t: nat)
    requires Inv(n, k, scalar, loops, m0, st) && t < |loops| && Active(loops[t], st.threads[t])
    ensures Enabled(n, loops, st, t)
  {
    assert ThreadAt(k, scalar, loops, m0, st, t);
    assert Hits(loops[t], st.threads[t].i);
  }

  lemma {:induction false} StrideNext(l: Loop, i: nat, x: nat)
    requires OnStride(l, i)
    ensures OnStride(l, i + l.stride)
    ensures i < x < i + l.stride ==> !OnStride(l, x)
    decreases i
  {
    OnStrideFrom(l, i);
    if i != l.first && x >= l.stride { StrideNext(l, i - l.stride, x - l.stride); }
  }

  lemma {:induction false} OnStrideFrom(l: Loop, x: nat)
    requires OnStride(l, x)
    ensures x >= l.first
  {
  }

  /** A load changes no visit count. */
  lemma LoadStored(n: nat, k: Kernel, scalar: real, loops: seq<Loop>, st: Machine, t: nat, x: nat)
    requires Enabled(n, loops, st, t) && st.threads[t].Ready?
    ensures Stored(loops, Step(n, k, scalar, loops, st, t).threads, x) == Stored(loops, st.threads, x)
  {
    var after := Step(n, k, scalar, loops, st, t).threads;
    CountCong(|loops|,
              (u: nat) => u < |loops| && u < |st.threads| && Passed(loops[u], st.threads[u], x),
              (u: nat) => u < |loops| && u < |after| && Passed(loops[u], after[u], x));
  }

  /** A store completes one visit to its own index and to no other. */
  lemma StoreStored(n: nat, k: Kernel, scalar: real, loops: seq<Loop>, st: Machine, t: nat, x: nat)
    requires Enabled(n, loops, st, t) && st.threads[t].Loaded? && Hits(loops[t], st.threads[t].i)
    ensures Stored(loops, Step(n, k, scalar, loops, st, t).threads, x) ==
            Stored(loops, st.threads, x) + (if x == st.threads[t].i then 1 else 0)
  {
    var after := Step(n, k, scalar, loops, st, t).threads;
    var p := (u: nat) => u < |loops| && u < |st.threads| && Passed(loops[u], st.threads[u], x);
    var q := (u: nat) => u < |loops| && u < |after| && Passed(loops[u], after[u], x);
    StrideNext(loops[t], st.threads[t].i, x);
    if x == st.threads[t].i {
      CountFlip(|loops|, t, p, q);
    } else {
      CountCong(|loops|, p, q);
    }
  }

  /** Running the body on a memory with r updates at x computes the update after them. */
  lemma OutcomeNext(k: Kernel, scalar: real, m0: Mem, m: Mem, x: nat, r: nat)
    requires m0.Sized(|m0.a|) && m.Sized(|m0.a|) && x < |m0.a|
    requires m == WithTarget(k, m0, Target(k, m)) && Target(k, m)[x] == Outcome(k, scalar, m0, x, r)
    ensures Value(k, scalar, m, x) == Outcome(k, scalar, m0, x, r + 1)
  {
    if k.Nstream? {
      assert Increment(scalar, m, x) == Increment(scalar, m0, x);
      assert m.a[x] == Linear(m0.a[x], Increment(scalar, m0, x), r);
    }
  }

  lemma LoadKeepsInv(n: nat, k: Kernel, scalar: real, loops: seq<Loop>, m0: Mem, st: Machine, t: nat)
    requires Inv(n, k, scalar, loops, m0, st) && Enabled(n, loops, st, t) && st.threads[t].Ready?
    ensures Inv(n, k, scalar, loops, m0, Step(n, k, scalar, loops, st, t))
  {
    var after := Step(n, k, scalar, loops, st, t);
    var i := st.threads[t].i;
    forall x: nat ensures Stored(loops, after.threads, x) == Stored(loops, st.threads, x) {
      LoadStored(n, k, scalar, loops, st, t, x);
    }
    var stored := Stored(loops, st.threads, i);
    assert IndexAt(k, scalar, loops, m0, st, i);
    var r: nat :| AtLeastOnce(stored) <= r <= stored && Target(k, st.mem)[i] == Outcome(k, scalar, m0, i, r);
    OutcomeNext(k, scalar, m0, st.mem, i, r);
    assert after.threads[t].value == Outcome(k, scalar, m0, i, r + 1);
    forall u: nat | u < |loops|
      ensures ThreadAt(k, scalar, loops, m0, after, u)
    {
      assert ThreadAt(k, scalar, loops, m0, st, u);
    }
    forall x: nat | x < n ensures IndexAt(k, scalar, loops, m0, after, x) {
      assert IndexAt(k, scalar, loops, m0, st, x);
    }
  }

  lemma StoreKeepsInv(n: nat, k: Kernel, scalar: real, loops: seq<Loop>, m0: Mem, st: Machine, t: nat)
    requires Inv(n, k, scalar, loops, m0, st) && Enabled(n, loops, st, t) && st.threads[t].Loaded?
    ensures Inv(n, k, scalar, loops, m0, Step(n, k, scalar, loops, st, t))
  {
    var after := Step(n, k, scalar, loops, st, t);
    var i := st.threads[t].i;
    assert ThreadAt(k, scalar, loops, m0, st, t);
    assert Hits(loops[t], i);
    StrideNext(loops[t], i, 0);
    forall x: nat
      ensures Stored(loops, after.threads, x) == Stored(loops, st.threads, x) + (if x == i then 1 else 0)
    {
      StoreStored(n, k, scalar, loops, st, t, x);
    }
    forall u: nat | u < |loops|
      ensures ThreadAt(k, scalar, loops, m0, after, u)
    {
      assert ThreadAt(k, scalar, loops, m0, st, u);
    }
    forall x: nat | x < n
      ensures IndexAt(k, scalar, loops, m0, after, x)
    {
      assert IndexAt(k, scalar, loops, m0, st, x);
    }
  }

  lemma StepKeepsInv(n: nat, k: Kernel, scalar: real, loops: seq<Loop>, m0: Mem, st: Machine, t: nat)
    requires Inv(n, k, scalar, loops, m0, st) && Enabled(n, loops, st, t)
    ensures Inv(n, k, scalar, loops, m0, Step(n, k, scalar, loops, st, t))
  {
    if st.threads[t].Ready? {
      LoadKeepsInv(n, k, scalar, loops, m0, st, t);
    } else {
      StoreKeepsInv(n, k, scalar, loops, m0, st, t);
    }
  }

  // ----- termination

  function Rank(l: Loop, th: Thread): nat {
    match th
    case Ready(i) => if i < l.limit then 2 * (l.limit - i) else 0
    case Loaded(i, _) => if i < l.limit then 2 * (l.limit - i) - 1 else 1
  }

  function Measure(loops: seq<Loop>, threads: seq<Thread>): nat
    requires |loops| == |threads|
  {
    Total(seq(|loops|, (t: nat) requires t < |loops| => Rank(loops[t], threads[t])))
  }

  /** Every step uses up some of the remaining work. */
  lemma StepDecreases(n: nat, k: Kernel, scalar: real, loops: seq<Loop>, st: Machine, t: nat)
    requires Enabled(n, loops, st, t) && loops[t].stride >= 1
    ensures Measure(loops, Step(n, k, scalar, loops, st, t).threads) < Measure(loops, st.threads)
  {
    var after := Step(n, k, scalar, loops, st, t).threads;
    var ranks := seq(|loops|, (u: nat) requires u < |loops| => Rank(loops[u], st.threads[u]));
    assert seq(|loops|, (u: nat) requires u < |loops| => Rank(loops[u], after[u])) ==
           ranks[t := Rank(loops[t], after[t])];
    TotalUpdate(ranks, t, Rank(loops[t], after[t]));
  }

  // ----- whole runs

  predicate Complete(loops: seq<Loop>, threads: seq<Thread>) {
    |threads| == |loops| && forall t: nat | t < |loops| :: !Active(loops[t], threads[t])
  }

  ghost predicate Legal(n: nat, k: Kernel, scalar: real, loops: seq<Loop>, st: Machine, schedule: seq<nat>)
    decreases |schedule|
  {
    |schedule| == 0 ||
    (Enabled(n, loops, st, schedule[0]) &&
     Legal(n, k, scalar, loops, Step(n, k, scalar, loops, st, schedule[0]), schedule[1..]))
  }

  ghost function Run(n: nat, k: Kernel, scalar: real, loops: seq<Loop>, st: Machine, schedule: seq<nat>): Machine
    requires Legal(n, k, scalar, loops, st, schedule)
    decreases |schedule|
  {
    if |schedule| == 0 then st
    else Run(n, k, scalar, loops, Step(n, k, scalar, loops, st, schedule[0]), schedule[1..])
  }

  lemma {:induction false} RunKeepsInv(n: nat, k: Kernel, scalar: real, loops: seq<Loop>, m0: Mem, st: Machine,
                                       schedule: seq<nat>)
    requires Inv(n, k, scalar, loops, m0, st) && Legal(n, k, scalar, loops, st, schedule)
    ensures Inv(n, k, scalar, loops, m0, Run(n, k, scalar, loops, st, schedule))
    ensures |schedule| + Measure(loops, Run(n, k, scalar, loops, st, schedule).threads) <= Measure(loops, st.threads)
    decreases |schedule|
  {
    if |schedule| > 0 {
      StepKeepsInv(n, k, scalar, loops, m0, st, schedule[0]);
      StepDecreases(n, k, scalar, loops, st, schedule[0]);
      RunKeepsInv(n, k, scalar, loops, m0, Step(n, k, scalar, loops, st, schedule[0]), schedule[1..]);
    }
  }

  lemma CompleteStored(loops: seq<Loop>, threads: seq<Thread>, x: nat)
    requires Complete(loops, threads)
    ensures Stored(loops, threads, x) == Visits(loops, x)
  {
    CountCong(|loops|,
              (t: nat) => t < |loops| && t < |threads| && Passed(loops[t], threads[t], x),
              (t: nat) => t < |loops| && Hits(loops[t], x));
  }

  /** Some run leads from one machine to the other. */
  ghost predicate Leads(n: nat, k: Kernel, scalar: real, loops: seq<Loop>, st: Machine, end: Machine) {
    exists schedule: seq<nat> ::
      Legal(n, k, scalar, loops, st, schedule) && Run(n, k, scalar, loops, st, schedule) == end
  }

  lemma LeadsStay(n: nat, k: Kernel, scalar: real, loops: seq<Loop>, st: Machine)
    ensures Leads(n, k, scalar, loops, st, st)
  {
    assert Legal(n, k, scalar, loops, st, []);
  }

  lemma LeadsStep(n: nat, k: Kernel, scalar: real, loops: seq<Loop>, st: Machine, t: nat)
    requires Enabled(n, loops, st, t)
    ensures Leads(n, k, scalar, loops, st, Step(n, k, scalar, loops, st, t))
  {
    var one: seq<nat> := [t];
    assert one[1..] == [];
    assert Legal(n, k, scalar, loops, st, one);
    assert Run(n, k, scalar, loops, st, one) == Step(n, k, scalar, loops, st, t);
  }

  lemma {:induction false} RunAppend(n: nat, k: Kernel, scalar: real, loops: seq<Loop>, st: Machine,
                                     first: seq<nat>, rest: seq<nat>)
    requires Legal(n, k, scalar, loops, st, first)
    requires Legal(n, k, scalar, loops, Run(n, k, scalar, loops, st, first), rest)
    ensures Legal(n, k, scalar, loops, st, first + rest)
    ensures Run(n, k, scalar, loops, st, first + rest) ==
            Run(n, k, scalar, loops, Run(n, k, scalar, loops, st, first), rest)
    decreases |first|
  {
    if |first| == 0 {
      assert first + rest == rest;
    } else {
      assert (first + rest)[1..] == first[1..] + rest;
      RunAppend(n, k, scalar, loops, Step(n, k, scalar, loops, st, first[0]), first[1..], rest);
    }
  }

  lemma LeadsOn(n: nat, k: Kernel, scalar: real, loops: seq<Loop>, st: Machine, mid: Machine, end: Machine)
    requires Leads(n, k, scalar, loops, st, mid) && Leads(n, k, scalar, loops, mid, end)
    ensures Leads(n, k, scalar, loops, st, end)
  {
    var first: seq<nat> :| Legal(n, k, scalar, loops, st, first) && Run(n, k, scalar, loops, st, first) == mid;
    var rest: seq<nat> :| Legal(n, k, scalar, loops, mid, rest) && Run(n, k, scalar, loops, mid, rest) == end;
    RunAppend(n, k, scalar, loops, st, first, rest);
  }

  lemma LeadsKeepsInv(n: nat, k: Kernel, scalar: real, loops: seq<Loop>, m0: Mem, st: Machine, end: Machine)
    requires Inv(n, k, scalar, loops, m0, st) && Leads(n, k, scalar, loops, st, end)
    ensures Inv(n, k, scalar, loops, m0, end)
  {
    var schedule: seq<nat> :|
      Legal(n, k, scalar, loops, st, schedule) && Run(n, k, scalar, loops, st, schedule) == end;
    RunKeepsInv(n, k, scalar, loops, m0, st, schedule);
  }

  /** `final` is a possible result of running the kernel with these threads. */
  ghost predicate Reaches(n: nat, k: Kernel, scalar: real, loops: seq<Loop>, m0: Mem, final: Mem) {
    exists end: Machine ::
      && Leads(n, k, scalar, loops, Machine(m0, Spawn(loops)), end)
      && Complete(loops, end.threads) && end.mem == final
  }

  /** What any complete run leaves, in terms of how often each index is visited. */
  lemma CompleteOutcome(n: nat, k: Kernel, scalar: real, loops: seq<Loop>, m0: Mem, st: Machine)
    requires Inv(n, k, scalar, loops, m0, st) && Complete(loops, st.threads)
    ensures st.mem == WithTarget(k, m0, Target(k, st.mem))
    ensures forall x: nat | x < n ::
              Between(k, scalar, m0, x, AtLeastOnce(Visits(loops, x)), Visits(loops, x), Target(k, st.mem)[x])
  {
    forall x: nat | x < n
      ensures Between(k, scalar, m0, x, AtLeastOnce(Visits(loops, x)), Visits(loops, x), Target(k, st.mem)[x])
    {
      CompleteStored(loops, st.threads, x);
      assert IndexAt(k, scalar, loops, m0, st, x);
    }
  }

  /** The threads are sure to leave the serial value at x. */
  predicate Settled(k: Kernel, scalar: real, loops: seq<Loop>, m0: Mem, x: nat)
    requires m0.Sized(|m0.a|) && x < |m0.a|
  {
    || Visits(loops, x) == 1
    || (Visits(loops, x) > 1 && !k.Nstream?)
    || Value(k, scalar, m0, x) == Target(k, m0)[x]
  }

  lemma UpdatesOnce(r: nat, x: real, inc: real)
    ensures r == 1 || inc == 0.0 ==> Linear(x, inc, r) == x + inc
  {
    LinearIsScaled(x, inc, r);
  }

  lemma SettledValue(k: Kernel, scalar: real, loops: seq<Loop>, m0: Mem, x: nat, value: real)
    requires m0.Sized(|m0.a|) && x < |m0.a| && Settled(k, scalar, loops, m0, x)
    requires Between(k, scalar, m0, x, AtLeastOnce(Visits(loops, x)), Visits(loops, x), value)
    ensures value == Value(k, scalar, m0, x)
  {
    var r: nat :| AtLeastOnce(Visits(loops, x)) <= r <= Visits(loops, x) && value == Outcome(k, scalar, m0, x, r);
    if k.Nstream? {
      UpdatesOnce(r, m0.a[x], Increment(scalar, m0, x));
    }
  }

  lemma CompleteIsSerial(n: nat, k: Kernel, scalar: real, loops: seq<Loop>, m0: Mem, st: Machine)
    requires Inv(n, k, scalar, loops, m0, st) && Complete(loops, st.threads)
    requires forall x: nat | x < n :: Settled(k, scalar, loops, m0, x)
    ensures st.mem == Apply(k, scalar, m0)
  {
    CompleteOutcome(n, k, scalar, loops, m0, st);
    forall x: nat | x < n ensures Target(k, st.mem)[x] == Value(k, scalar, m0, x) {
      SettledValue(k, scalar, loops, m0, x, Target(k, st.mem)[x]);
    }
    assert Target(k, st.mem) == Target(k, Apply(k, scalar, m0));
  }

  /** A load and the store that follows it, with nothing in between. */
  function Visit(n: nat, k: Kernel, scalar: real, loops: seq<Loop>, st: Machine, t: nat): Machine
    requires Enabled(n, loops, st, t) && st.threads[t].Ready?
    requires Enabled(n, loops, Step(n, k, scalar, loops, st, t), t)
  {
    Step(n, k, scalar, loops, Step(n, k, scalar, loops, st, t), t)
  }

  lemma VisitEnabled(n: nat, k: Kernel, scalar: real, loops: seq<Loop>, m0: Mem, st: Machine, t: nat)
    requires Inv(n, k, scalar, loops, m0, st)
    requires t < |loops| && st.threads[t].Ready? && Active(loops[t], st.threads[t])
    ensures Enabled(n, loops, st, t)
    ensures var one := Step(n, k, scalar, loops, st, t);
            Inv(n, k, scalar, loops, m0, one) && Enabled(n, loops, one, t)
  {
    ActiveInBounds(n, k, scalar, loops, m0, st, t);
    var one := Step(n, k, scalar, loops, st, t);
    StepKeepsInv(n, k, scalar, loops, m0, st, t);
    ActiveInBounds(n, k, scalar, loops, m0, one, t);
  }

  lemma VisitLeads(n: nat, k: Kernel, scalar: real, loops: seq<Loop>, st: Machine, t: nat)
    requires Enabled(n, loops, st, t) && st.threads[t].Ready? && loops[t].stride >= 1
    requires Enabled(n, loops, Step(n, k, scalar, loops, st, t), t)
    ensures var two := Visit(n, k, scalar, loops, st, t);
            && Leads(n, k, scalar, loops, st, two)
            && two.threads == st.threads[t := Ready(st.threads[t].i + loops[t].stride)]
            && Measure(loops, two.threads) < Measure(loops, st.threads)
  {
    var one := Step(n, k, scalar, loops, st, t);
    LeadsStep(n, k, scalar, loops, st, t);
    LeadsStep(n, k, scalar, loops, one, t);
    LeadsOn(n, k, scalar, loops, st, one, Step(n, k, scalar, loops, one, t));
    StepDecreases(n, k, scalar, loops, st, t);
    StepDecreases(n, k, scalar, loops, one, t);
  }

  lemma VisitKeepsInv(n: nat, k: Kernel, scalar: real, loops: seq<Loop>, m0: Mem, st: Machine, t: nat)
    requires Inv(n, k, scalar, loops, m0, st)
    requires t < |loops| && st.threads[t].Ready? && Active(loops[t], st.threads[t])
    ensures Enabled(n, loops, st, t) && Enabled(n, loops, Step(n, k, scalar, loops, st, t), t)
    ensures var two := Visit(n, k, scalar, loops, st, t);
            && Inv(n, k, scalar, loops, m0, two) && Leads(n, k, scalar, loops, st, two)
            && two.threads == st.threads[t := Ready(st.threads[t].i + loops[t].stride)]
            && Measure(loops, two.threads) < Measure(loops, st.threads)
  {
    VisitEnabled(n, k, scalar, loops, m0, st, t);
    StepKeepsInv(n, k, scalar, loops, m0, Step(n, k, scalar, loops, st, t), t);
    VisitLeads(n, k, scalar, loops, st, t);
  }

  /** One undisturbed visit is one more update of its index, and of no other. */
  lemma VisitOutcome(n: nat, k: Kernel, scalar: real, loops: seq<Loop>, m0: Mem, st: Machine, t: nat, x: nat, r: nat)
    requires Inv(n, k, scalar, loops, m0, st) && Enabled(n, loops, st, t) && st.threads[t].Ready?
    requires Enabled(n, loops, Step(n, k, scalar, loops, st, t), t)
    requires x < n && Target(k, st.mem)[x] == Outcome(k, scalar, m0, x, r)
    ensures var two, here := Visit(n, k, scalar, loops, st, t), if x == st.threads[t].i then 1 else 0;
            && two.mem.Sized(n) && Target(k, two.mem)[x] == Outcome(k, scalar, m0, x, r + here)
            && Stored(loops, two.threads, x) == Stored(loops, st.threads, x) + here
  {
    var i := st.threads[t].i;
    var one := Step(n, k, scalar, loops, st, t);
    assert ThreadAt(k, scalar, loops, m0, st, t);
    assert Hits(loops[t], i);
    LoadStored(n, k, scalar, loops, st, t, x);
    StoreStored(n, k, scalar, loops, one, t, x);
    if x == i { OutcomeNext(k, scalar, m0, st.mem, x, r); }
  }

  /** Running the threads one visit after another applies every visit in full. */
  lemma {:induction false} OneByOne(n: nat, k: Kernel, scalar: real, loops: seq<Loop>, m0: Mem, st: Machine)
    returns (end: Machine)
    requires Inv(n, k, scalar, loops, m0, st)
    requires forall t: nat | t < |loops| :: st.threads[t].Ready?
    requires forall x: nat | x < n :: Target(k, st.mem)[x] == Outcome(k, scalar, m0, x, Stored(loops, st.threads, x))
    ensures Leads(n, k, scalar, loops, st, end) && Complete(loops, end.threads) && end.mem.Sized(n)
    ensures forall x: nat | x < n :: Target(k, end.mem)[x] == Outcome(k, scalar, m0, x, Visits(loops, x))
    decreases Measure(loops, st.threads)
  {
    if Complete(loops, st.threads) {
      end := st;
      LeadsStay(n, k, scalar, loops, st);
      forall x: nat ensures Stored(loops, st.threads, x) == Visits(loops, x) {
        CompleteStored(loops, st.threads, x);
      }
    } else {
      var t: nat :| t < |loops| && Active(loops[t], st.threads[t]);
      VisitKeepsInv(n, k, scalar, loops, m0, st, t);
      var two := Visit(n, k, scalar, loops, st, t);
      forall x: nat | x < n
        ensures Target(k, two.mem)[x] == Outcome(k, scalar, m0, x, Stored(loops, two.threads, x))
      {
        VisitOutcome(n, k, scalar, loops, m0, st, t, x, Stored(loops, st.threads, x));
      }
      end := OneByOne(n, k, scalar, loops, m0, two);
      LeadsOn(n, k, scalar, loops, st, two, end);
    }
  }

  /** The undisturbed result is among the possible ones. */
  lemma FullOutcomeReached(n: nat, k: Kernel, scalar: real, loops: seq<Loop>, m0: Mem) returns (final: Mem)
    requires m0.Sized(n) && forall t: nat | t < |loops| :: InBounds(loops[t], n)
    ensures Reaches(n, k, scalar, loops, m0, final) && final.Sized(n)
    ensures forall x: nat | x < n :: Target(k, final)[x] == Outcome(k, scalar, m0, x, Visits(loops, x))
  {
    SpawnInv(n, k, scalar, loops, m0);
    var end := OneByOne(n, k, scalar, loops, m0, Machine(m0, Spawn(loops)));
    final := end.mem;
  }

  lemma ReachesInv(n: nat, k: Kernel, scalar: real, loops: seq<Loop>, m0: Mem, final: Mem) returns (st: Machine)
    requires m0.Sized(n) && (forall t: nat | t < |loops| :: InBounds(loops[t], n))
    requires Reaches(n, k, scalar, loops, m0, final)
    ensures Inv(n, k, scalar, loops, m0, st) && Complete(loops, st.threads) && st.mem == final
  {
    SpawnInv(n, k, scalar, loops, m0);
    st :| Leads(n, k, scalar, loops, Machine(m0, Spawn(loops)), st)
          && Complete(loops, st.threads) && st.mem == final;
    LeadsKeepsInv(n, k, scalar, loops, m0, Machine(m0, Spawn(loops)), st);
  }

  /** Every interleaving gives the serial result, exactly when every index is
      visited once, or more often by a kernel that does not read its target, or
      would not change anyway. */
  lemma SerialIff(n: nat, k: Kernel, scalar: real, loops: seq<Loop>, m0: Mem)
    requires m0.Sized(n) && forall t: nat | t < |loops| :: InBounds(loops[t], n)
    ensures (forall final: Mem :: Reaches(n, k, scalar, loops, m0, final) ==> final == Apply(k, scalar, m0)) <==>
            (forall x: nat | x < n :: Settled(k, scalar, loops, m0, x))
  {
    if forall x: nat | x < n :: Settled(k, scalar, loops, m0, x) {
      forall final: Mem | Reaches(n, k, scalar, loops, m0, final) ensures final == Apply(k, scalar, m0) {
        var st := ReachesInv(n, k, scalar, loops, m0, final);
        CompleteIsSerial(n, k, scalar, loops, m0, st);
      }
    } else {
      var final := FullOutcomeReached(n, k, scalar, loops, m0);
      var x: nat :| x < n && !Settled(k, scalar, loops, m0, x);
      OutcomesDiffer(k, scalar, m0, x, Visits(loops, x));
      assert Target(k, Apply(k, scalar, m0))[x] == Value(k, scalar, m0, x);
    }
  }

  lemma UpdatesDiffer(r: nat, x: real, inc: real)
    requires r > 1 && inc != 0.0
    ensures Linear(x, inc, r) != x + inc
  {
    LinearIsScaled(x, inc, r);
    AddOne(r - 1, inc);
    assert (r - 1) as real * inc != 0.0;
  }

  lemma OutcomesDiffer(k: Kernel, scalar: real, m0: Mem, x: nat, r: nat)
    requires m0.Sized(|m0.a|) && x < |m0.a|
    requires r == 0 || (k.Nstream? && r > 1)
    requires Value(k, scalar, m0, x) != Target(k, m0)[x]
    ensures Outcome(k, scalar, m0, x, r) != Value(k, scalar, m0, x)
  {
    if r > 1 {
      UpdatesDiffer(r, m0.a[x], Increment(scalar, m0, x));
    }
  }

  /** Kernel k can be launched with these threads: they stay inside the arrays and
      visit every index, more than once only where the kernel does not read its target. */
  ghost predicate Suits(loops: seq<Loop>, n: nat, k: Kernel) {
    && (forall t: nat | t < |loops| :: InBounds(loops[t], n))
    && forall x: nat | x < n :: Visits(loops, x) == 1 || (Visits(loops, x) > 1 && !k.Nstream?)
  }

  /** When the threads tile the index space, nothing is left to chance. */
  lemma TilesSuit(n: nat, k: Kernel, loops: seq<Loop>)
    requires Tiles(loops, n)
    ensures Suits(loops, n, k)
  {
  }

  /** The threads give the serial result for all arrays in every interleaving,
      exactly when they suit the kernel. */
  lemma SuitsIff(n: nat, k: Kernel, scalar: real, loops: seq<Loop>)
    requires forall t: nat | t < |loops| :: InBounds(loops[t], n)
    ensures Suits(loops, n, k) <==>
            (forall m0: Mem, final: Mem | m0.Sized(n) && Reaches(n, k, scalar, loops, m0, final) ::
               final == Apply(k, scalar, m0))
  {
    if Suits(loops, n, k) {
      forall m0: Mem, final: Mem | m0.Sized(n) && Reaches(n, k, scalar, loops, m0, final)
        ensures final == Apply(k, scalar, m0)
      {
        SerialIff(n, k, scalar, loops, m0);
      }
    } else {
      var m0 := Uniform(n, 3.0, 1.0, 0.0);
      var x: nat :| x < n && Visits(loops, x) != 1 && !(Visits(loops, x) > 1 && !k.Nstream?);
      assert Value(k, scalar, m0, x) != Target(k, m0)[x];
      assert !Settled(k, scalar, loops, m0, x);
      SerialIff(n, k, scalar, loops, m0);
    }
  }

  /** One step of thread t on live buffers. */
  method ExecuteStep(k: Kernel, scalar: real, loops: seq<Loop>, threads: seq<Thread>, t: nat,
                     a: array<real>, b: array<real>, c: array<real>)
    returns (next: seq<Thread>)
    requires a.Length == b.Length == c.Length && a != b && b != c && a != c
    requires Enabled(a.Length, loops, Machine(Mem(a[..], b[..], c[..]), threads), t)
    modifies a, b, c
    ensures Machine(Mem(a[..], b[..], c[..]), next) ==
            Step(a.Length, k, scalar, loops, old(Machine(Mem(a[..], b[..], c[..]), threads)), t)
  {
    match threads[t]
    case Ready(i) =>
      var value := match k
        case Copy => a[i]
        case Mul => scalar * c[i]
        case Add => a[i] + b[i]
        case Triad => b[i] + scalar * c[i]
        case Nstream => a[i] + (b[i] + scalar * c[i]);
      assert value == Value(k, scalar, Mem(a[..], b[..], c[..]), i);
      next := threads[t := Loaded(i, value)];
    case Loaded(i, value) =>
      match k {
        case Copy => c[i] := value; assert c[..] == old(c[..])[i := value];
        case Mul => b[i] := value; assert b[..] == old(b[..])[i := value];
        case Add => c[i] := value; assert c[..] == old(c[..])[i := value];
        case Triad => a[i] := value; assert a[..] == old(a[..])[i := value];
        case Nstream => a[i] := value; assert a[..] == old(a[..])[i := value];
      }
      next := threads[t := Ready(i + loops[t].stride)];
      assert Mem(a[..], b[..], c[..]) == Store(k, old(Mem(a[..], b[..], c[..])), i, value);
  }

  /** A launch on live buffers: any active thread may go next. */
  method Execute(k: Kernel, scalar: real, loops: seq<Loop>, a: array<real>, b: array<real>, c: array<real>)
    requires a.Length == b.Length == c.Length && a != b && b != c && a != c
    requires Suits(loops, a.Length, k)
    modifies a, b, c
    ensures Mem(a[..], b[..], c[..]) == Apply(k, scalar, old(Mem(a[..], b[..], c[..])))
  {
    var threads := Spawn(loops);
    ghost var n, m0 := a.Length, Mem(a[..], b[..], c[..]);
    SpawnInv(n, k, scalar, loops, m0);
    while exists t: nat :: t < |loops| && Active(loops[t], threads[t])
      invariant |threads| == |loops|
      invariant Inv(n, k, scalar, loops, m0, Machine(Mem(a[..], b[..], c[..]), threads))
      decreases Measure(loops, threads)
    {
      var t: nat :| t < |loops| && Active(loops[t], threads[t]);
      ghost var st := Machine(Mem(a[..], b[..], c[..]), threads);
      ActiveInBounds(n, k, scalar, loops, m0, st, t);
      StepKeepsInv(n, k, scalar, loops, m0, st, t);
      StepDecreases(n, k, scalar, loops, st, t);
      threads := ExecuteStep(k, scalar, loops, threads, t, a, b, c);
    }
    CompleteIsSerial(n, k, scalar, loops, m0, Machine(Mem(a[..], b[..], c[..]), threads));
  }
}
