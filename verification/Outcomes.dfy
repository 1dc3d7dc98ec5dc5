/** Everything that interleaving can do to the arrays: which runs come to an end,
    and which memories they can end with. */
module Outcomes {
  import opened Sums
  import opened Kernels
  import opened Interleave

  // ----- threads that leave the arrays

  /** A thread whose loop goes outside the arrays never gets past that index. */
  lemma {:induction false} StuckOutside(n: nat, k: Kernel, scalar: real, loops: seq<Loop>, st: Machine,
                                        schedule: seq<nat>, t: nat, x: nat)
    requires Legal(n, k, scalar, loops, st, schedule) && |st.threads| == |loops| && t < |loops|
    requires Hits(loops[t], x) && x >= n && OnStride(loops[t], st.threads[t].i) && st.threads[t].i <= x
    ensures var end := Run(n, k, scalar, loops, st, schedule);
            |end.threads| == |loops| && end.threads[t].i <= x
    decreases |schedule|
  {
    if |schedule| > 0 {
      StrideNext(loops[t], st.threads[t].i, x);
      StrideNext(loops[t], st.threads[t].i, 0);
      StuckOutside(n, k, scalar, loops, Step(n, k, scalar, loops, st, schedule[0]), schedule[1..], t, x);
    }
  }

  lemma NeverComplete(n: nat, k: Kernel, scalar: real, loops: seq<Loop>, m0: Mem, t: nat, x: nat)
    requires t < |loops| && Hits(loops[t], x) && x >= n
    ensures !exists final: Mem :: Reaches(n, k, scalar, loops, m0, final)
  {
    var st := Machine(m0, Spawn(loops));
    forall end: Machine | Leads(n, k, scalar, loops, st, end) ensures !Complete(loops, end.threads) {
      var schedule: seq<nat> :|
        Legal(n, k, scalar, loops, st, schedule) && Run(n, k, scalar, loops, st, schedule) == end;
      OnStrideFrom(loops[t], x);
      StuckOutside(n, k, scalar, loops, st, schedule, t, x);
      assert Active(loops[t], end.threads[t]);
    }
  }

  /** Some run completes exactly when no thread leaves the arrays. */
  lemma CompletesIff(n: nat, k: Kernel, scalar: real, loops: seq<Loop>, m0: Mem)
    requires m0.Sized(n) && forall t: nat | t < |loops| :: loops[t].stride >= 1
    ensures (exists final: Mem :: Reaches(n, k, scalar, loops, m0, final)) <==>
            (forall t: nat | t < |loops| :: InBounds(loops[t], n))
  {
    if forall t: nat | t < |loops| :: InBounds(loops[t], n) {
      var final := FullOutcomeReached(n, k, scalar, loops, m0);
    } else {
      var t: nat :| t < |loops| && !InBounds(loops[t], n);
      var x: nat :| Hits(loops[t], x) && x >= n;
      NeverComplete(n, k, scalar, loops, m0, t, x);
    }
  }

  // ----- visits of one index

  /** Index y is as it was at `base`. */
  predicate SameAt(n: nat, k: Kernel, base: Machine, st: Machine, y: nat)
    requires base.mem.Sized(n) && st.mem.Sized(n) && y < n
  {
    Target(k, st.mem)[y] == Target(k, base.mem)[y]
  }

  /** The thread has not moved, or it has only been visiting x. */
  predicate MovedAt(l: Loop, before: Thread, after: Thread, x: nat) {
    after == before || (before.i == x && x < l.limit && (after.i == x || after == Ready(x + l.stride)))
  }

  predicate ThreadSince(loops: seq<Loop>, base: Machine, st: Machine, x: nat, t: nat)
    requires |base.threads| == |st.threads| == |loops| && t < |loops|
  {
    MovedAt(loops[t], base.threads[t], st.threads[t], x)
  }

  /** Since `base` only visits of x have been going on. */
  ghost predicate Since(n: nat, k: Kernel, loops: seq<Loop>, base: Machine, st: Machine, x: nat) {
    && base.mem.Sized(n) && st.mem.Sized(n) && |base.threads| == |st.threads| == |loops|
    && (forall y: nat {:trigger SameAt(n, k, base, st, y)} | y < n && y != x :: SameAt(n, k, base, st, y))
    && (forall t: nat {:trigger ThreadSince(loops, base, st, x, t)} | t < |loops| ::
          ThreadSince(loops, base, st, x, t))
  }

  lemma StepSince(n: nat, k: Kernel, scalar: real, loops: seq<Loop>, base: Machine, st: Machine, t: nat, x: nat)
    requires Since(n, k, loops, base, st, x) && Enabled(n, loops, st, t)
    requires st.threads[t].i == x && x < loops[t].limit && loops[t].stride >= 1
    ensures Since(n, k, loops, base, Step(n, k, scalar, loops, st, t), x)
  {
    var after := Step(n, k, scalar, loops, st, t);
    forall y: nat | y < n && y != x ensures SameAt(n, k, base, after, y) {
      assert SameAt(n, k, base, st, y);
    }
    forall u: nat | u < |loops| ensures ThreadSince(loops, base, after, x, u) {
      assert ThreadSince(loops, base, st, x, u);
    }
  }

  /** At `base` the threads that visit x are all about to do so. */
  ghost predicate Gathered(loops: seq<Loop>, base: Machine, x: nat) {
    |base.threads| == |loops| && forall u: nat | u < |loops| && Hits(loops[u], x) :: base.threads[u].i == x
  }

  /** Thread t is about to visit x or holds what it loaded there, and every other
      thread is between visits. */
  predicate Poised(loops: seq<Loop>, threads: seq<Thread>, t: nat, x: nat) {
    && |threads| == |loops| && t < |loops| && Hits(loops[t], x) && threads[t].i == x
    && forall u: nat | u < |loops| && u != t :: threads[u].Ready?
  }

  /** While visits to x are pending besides the one of thread t, some other thread has one. */
  lemma OtherVisitor(loops: seq<Loop>, threads: seq<Thread>, t: nat, x: nat) returns (u: nat)
    requires Poised(loops, threads, t, x) && Stored(loops, threads, x) + 1 < Visits(loops, x)
    ensures u < |loops| && u != t && Hits(loops[u], x) && threads[u].i <= x
  {
    var p := (v: nat) => v < |loops| && v < |threads| && Passed(loops[v], threads[v], x);
    var q := (v: nat) => v < |loops| && Hits(loops[v], x);
    if forall v: nat | v < |loops| && v != t :: p(v) == q(v) {
      CountFlip(|loops|, t, p, q);
      assert false;
    } else {
      u :| u < |loops| && u != t && p(u) != q(u);
    }
  }

  lemma VisitorAt(n: nat, k: Kernel, loops: seq<Loop>, base: Machine, st: Machine, x: nat, u: nat)
    requires Since(n, k, loops, base, st, x) && Gathered(loops, base, x)
    requires u < |loops| && loops[u].stride >= 1 && Hits(loops[u], x) && st.threads[u].i <= x
    ensures st.threads[u].i == x
  {
    assert ThreadSince(loops, base, st, x, u);
  }

  lemma VisitSince(n: nat, k: Kernel, scalar: real, loops: seq<Loop>, base: Machine, st: Machine, u: nat, x: nat)
    requires Since(n, k, loops, base, st, x) && Enabled(n, loops, st, u) && st.threads[u] == Ready(x)
    requires x < loops[u].limit && loops[u].stride >= 1
    requires Enabled(n, loops, Step(n, k, scalar, loops, st, u), u)
    ensures Since(n, k, loops, base, Visit(n, k, scalar, loops, st, u), x)
  {
    StepSince(n, k, scalar, loops, base, st, u, x);
    StepSince(n, k, scalar, loops, base, Step(n, k, scalar, loops, st, u), u, x);
  }

  /** One whole visit of x by another thread than t. */
  lemma OtherVisit(n: nat, k: Kernel, scalar: real, loops: seq<Loop>, m0: Mem, base: Machine, st: Machine,
                   t: nat, u: nat, x: nat, r: nat)
    returns (two: Machine)
    requires Inv(n, k, scalar, loops, m0, st) && Poised(loops, st.threads, t, x) && x < n
    requires Since(n, k, loops, base, st, x)
    requires u < |loops| && u != t && Hits(loops[u], x) && st.threads[u].i == x
    requires Target(k, st.mem)[x] == Outcome(k, scalar, m0, x, r)
    ensures Inv(n, k, scalar, loops, m0, two) && Leads(n, k, scalar, loops, st, two)
    ensures Poised(loops, two.threads, t, x) && two.threads[t] == st.threads[t]
    ensures Since(n, k, loops, base, two, x)
    ensures Stored(loops, two.threads, x) == Stored(loops, st.threads, x) + 1
    ensures Target(k, two.mem)[x] == Outcome(k, scalar, m0, x, r + 1)
  {
    VisitKeepsInv(n, k, scalar, loops, m0, st, u);
    VisitOutcome(n, k, scalar, loops, m0, st, u, x, r);
    VisitSince(n, k, scalar, loops, base, st, u, x);
    two := Visit(n, k, scalar, loops, st, u);
  }

  /** The other threads complete visits to x, one after another, while thread t
      stays where it is: before x, or holding what it loaded there. */
  lemma {:induction false} OthersVisit(n: nat, k: Kernel, scalar: real, loops: seq<Loop>, m0: Mem, base: Machine,
                                       st: Machine, t: nat, x: nat, r: nat, more: nat)
    returns (end: Machine)
    requires Inv(n, k, scalar, loops, m0, st) && Poised(loops, st.threads, t, x) && x < n
    requires Since(n, k, loops, base, st, x) && Gathered(loops, base, x)
    requires Stored(loops, st.threads, x) + more < Visits(loops, x)
    requires Target(k, st.mem)[x] == Outcome(k, scalar, m0, x, r)
    ensures Inv(n, k, scalar, loops, m0, end) && Leads(n, k, scalar, loops, st, end)
    ensures Poised(loops, end.threads, t, x) && end.threads[t] == st.threads[t]
    ensures Since(n, k, loops, base, end, x)
    ensures Stored(loops, end.threads, x) == Stored(loops, st.threads, x) + more
    ensures Target(k, end.mem)[x] == Outcome(k, scalar, m0, x, r + more)
    decreases more
  {
    if more == 0 {
      end := st;
      LeadsStay(n, k, scalar, loops, st);
    } else {
      var u := OtherVisitor(loops, st.threads, t, x);
      VisitorAt(n, k, loops, base, st, x, u);
      var two := OtherVisit(n, k, scalar, loops, m0, base, st, t, u, x, r);
      end := OthersVisit(n, k, scalar, loops, m0, base, two, t, x, r + 1, more - 1);
      LeadsOn(n, k, scalar, loops, st, two, end);
    }
  }

  lemma LoadAt(n: nat, k: Kernel, scalar: real, loops: seq<Loop>, m0: Mem, base: Machine, st: Machine,
               t: nat, x: nat, r: nat)
    returns (end: Machine)
    requires Inv(n, k, scalar, loops, m0, st) && Poised(loops, st.threads, t, x) && x < n && st.threads[t].Ready?
    requires Since(n, k, loops, base, st, x)
    requires Target(k, st.mem)[x] == Outcome(k, scalar, m0, x, r)
    ensures Inv(n, k, scalar, loops, m0, end) && Leads(n, k, scalar, loops, st, end)
    ensures end.mem == st.mem && end.threads[t] == Loaded(x, Outcome(k, scalar, m0, x, r + 1))
    ensures Poised(loops, end.threads, t, x) && Since(n, k, loops, base, end, x)
    ensures Stored(loops, end.threads, x) == Stored(loops, st.threads, x)
  {
    ActiveInBounds(n, k, scalar, loops, m0, st, t);
    end := Step(n, k, scalar, loops, st, t);
    StepKeepsInv(n, k, scalar, loops, m0, st, t);
    StepSince(n, k, scalar, loops, base, st, t, x);
    LeadsStep(n, k, scalar, loops, st, t);
    LoadStored(n, k, scalar, loops, st, t, x);
    OutcomeNext(k, scalar, m0, st.mem, x, r);
  }

  lemma StoreAt(n: nat, k: Kernel, scalar: real, loops: seq<Loop>, m0: Mem, base: Machine, st: Machine,
                t: nat, x: nat, r: nat)
    returns (end: Machine)
    requires Inv(n, k, scalar, loops, m0, st) && Poised(loops, st.threads, t, x) && x < n
    requires Since(n, k, loops, base, st, x)
    requires st.threads[t] == Loaded(x, Outcome(k, scalar, m0, x, r))
    ensures Inv(n, k, scalar, loops, m0, end) && Leads(n, k, scalar, loops, st, end)
    ensures forall u: nat | u < |loops| :: end.threads[u].Ready?
    ensures Since(n, k, loops, base, end, x)
    ensures Stored(loops, end.threads, x) == Stored(loops, st.threads, x) + 1
    ensures Target(k, end.mem)[x] == Outcome(k, scalar, m0, x, r)
  {
    ActiveInBounds(n, k, scalar, loops, m0, st, t);
    end := Step(n, k, scalar, loops, st, t);
    StepKeepsInv(n, k, scalar, loops, m0, st, t);
    StepSince(n, k, scalar, loops, base, st, t, x);
    LeadsStep(n, k, scalar, loops, st, t);
    StoreStored(n, k, scalar, loops, st, t, x);
  }

  /** Thread t loads at x, the others complete `lost` visits to x, and t stores
      over them: however many they were, the result is one update more than t saw. */
  lemma LoseUpdates(n: nat, k: Kernel, scalar: real, loops: seq<Loop>, m0: Mem, base: Machine, st: Machine,
                    t: nat, x: nat, r: nat, lost: nat)
    returns (end: Machine)
    requires Inv(n, k, scalar, loops, m0, st) && Poised(loops, st.threads, t, x) && x < n && st.threads[t].Ready?
    requires Since(n, k, loops, base, st, x) && Gathered(loops, base, x)
    requires Stored(loops, st.threads, x) + lost + 1 == Visits(loops, x)
    requires Target(k, st.mem)[x] == Outcome(k, scalar, m0, x, r)
    ensures Inv(n, k, scalar, loops, m0, end) && Leads(n, k, scalar, loops, st, end)
    ensures forall u: nat | u < |loops| :: end.threads[u].Ready?
    ensures Since(n, k, loops, base, end, x)
    ensures Stored(loops, end.threads, x) == Visits(loops, x)
    ensures Target(k, end.mem)[x] == Outcome(k, scalar, m0, x, r + 1)
  {
    var loaded := LoadAt(n, k, scalar, loops, m0, base, st, t, x, r);
    var overtaken := OthersVisit(n, k, scalar, loops, m0, base, loaded, t, x, r, lost);
    end := StoreAt(n, k, scalar, loops, m0, base, overtaken, t, x, r + 1);
    LeadsOn(n, k, scalar, loops, st, loaded, overtaken);
    LeadsOn(n, k, scalar, loops, st, overtaken, end);
  }

  // ----- one index after another

  /** The thread is between visits, and has done exactly its indices below x. */
  ghost predicate DoneBelow(l: Loop, th: Thread, x: nat) {
    th.Ready? && forall y: nat :: Hits(l, y) ==> (y < th.i <==> y < x)
  }

  ghost predicate Swept(loops: seq<Loop>, threads: seq<Thread>, x: nat) {
    && |threads| == |loops|
    && forall t: nat {:trigger DoneBelow(loops[t], threads[t], x)} | t < |loops| :: DoneBelow(loops[t], threads[t], x)
  }

  lemma SpawnSwept(loops: seq<Loop>)
    ensures Swept(loops, Spawn(loops), 0)
  {
    forall t: nat | t < |loops| ensures DoneBelow(loops[t], Spawn(loops)[t], 0) {
      forall y: nat | Hits(loops[t], y) ensures y >= loops[t].first { OnStrideFrom(loops[t], y); }
    }
  }

  lemma SweptGathered(n: nat, k: Kernel, scalar: real, loops: seq<Loop>, m0: Mem, st: Machine, x: nat)
    requires Inv(n, k, scalar, loops, m0, st) && Swept(loops, st.threads, x)
    ensures Gathered(loops, st, x) && Since(n, k, loops, st, st, x)
    ensures Stored(loops, st.threads, x) == 0
  {
    forall u: nat | u < |loops|
      ensures (Hits(loops[u], x) ==> st.threads[u].i == x) && !Passed(loops[u], st.threads[u], x)
    {
      assert DoneBelow(loops[u], st.threads[u], x) && ThreadAt(k, scalar, loops, m0, st, u);
      if Hits(loops[u], x) && st.threads[u].i < x { assert Hits(loops[u], st.threads[u].i); }
    }
    CountZero(|loops|, (t: nat) => t < |loops| && t < |st.threads| && Passed(loops[t], st.threads[t], x));
  }

  lemma AllPassed(loops: seq<Loop>, threads: seq<Thread>, x: nat, t: nat)
    requires Stored(loops, threads, x) == Visits(loops, x) && |threads| == |loops|
    requires t < |loops| && Hits(loops[t], x)
    ensures x < threads[t].i
  {
    var p := (v: nat) => v < |loops| && v < |threads| && Passed(loops[v], threads[v], x);
    var q := (v: nat) => v < |loops| && Hits(loops[v], x);
    if !p(t) {
      var r := (v: nat) => p(v) || v == t;
      CountFlip(|loops|, t, p, r);
      CountMono(|loops|, r, q);
    }
  }

  lemma NextSwept(n: nat, k: Kernel, scalar: real, loops: seq<Loop>, m0: Mem, base: Machine, st: Machine, x: nat)
    requires Inv(n, k, scalar, loops, m0, base) && Swept(loops, base.threads, x)
    requires Since(n, k, loops, base, st, x) && Stored(loops, st.threads, x) == Visits(loops, x)
    requires forall u: nat | u < |loops| :: st.threads[u].Ready?
    ensures Swept(loops, st.threads, x + 1)
  {
    forall t: nat | t < |loops| ensures DoneBelow(loops[t], st.threads[t], x + 1) {
      assert DoneBelow(loops[t], base.threads[t], x) && ThreadSince(loops, base, st, x, t);
      assert ThreadAt(k, scalar, loops, m0, base, t);
      if Hits(loops[t], x) { AllPassed(loops, st.threads, x, t); }
      if st.threads[t] != base.threads[t] {
        assert Hits(loops[t], x);
        forall y: nat | Hits(loops[t], y) ensures y < st.threads[t].i <==> y < x + 1 {
          StrideNext(loops[t], x, y);
        }
      }
    }
  }

  /** All visits of x, so that r of them take effect, and no visit of another index. */
  lemma SettleIndex(n: nat, k: Kernel, scalar: real, loops: seq<Loop>, m0: Mem, st: Machine, x: nat, r: nat)
    returns (end: Machine)
    requires Inv(n, k, scalar, loops, m0, st) && Swept(loops, st.threads, x) && x < n
    requires AtLeastOnce(Visits(loops, x)) <= r <= Visits(loops, x)
    requires Target(k, st.mem)[x] == Outcome(k, scalar, m0, x, 0)
    ensures Inv(n, k, scalar, loops, m0, end) && Leads(n, k, scalar, loops, st, end)
    ensures Swept(loops, end.threads, x + 1) && Since(n, k, loops, st, end, x)
    ensures Target(k, end.mem)[x] == Outcome(k, scalar, m0, x, r)
  {
    SweptGathered(n, k, scalar, loops, m0, st, x);
    if r == 0 {
      end := st;
      LeadsStay(n, k, scalar, loops, st);
      ReadyAll(loops, st.threads, x);
    } else {
      end := VisitAll(n, k, scalar, loops, m0, st, x, r);
    }
    NextSwept(n, k, scalar, loops, m0, st, end, x);
  }

  lemma ReadyAll(loops: seq<Loop>, threads: seq<Thread>, x: nat)
    requires Swept(loops, threads, x)
    ensures forall u: nat | u < |loops| :: threads[u].Ready?
  {
    forall u: nat | u < |loops| ensures threads[u].Ready? { assert DoneBelow(loops[u], threads[u], x); }
  }

  lemma VisitAll(n: nat, k: Kernel, scalar: real, loops: seq<Loop>, m0: Mem, st: Machine, x: nat, r: nat)
    returns (end: Machine)
    requires Inv(n, k, scalar, loops, m0, st) && Swept(loops, st.threads, x) && x < n
    requires Gathered(loops, st, x) && Since(n, k, loops, st, st, x) && Stored(loops, st.threads, x) == 0
    requires 1 <= r <= Visits(loops, x)
    requires Target(k, st.mem)[x] == Outcome(k, scalar, m0, x, 0)
    ensures Inv(n, k, scalar, loops, m0, end) && Leads(n, k, scalar, loops, st, end)
    ensures forall u: nat | u < |loops| :: end.threads[u].Ready?
    ensures Since(n, k, loops, st, end, x)
    ensures Stored(loops, end.threads, x) == Visits(loops, x)
    ensures Target(k, end.mem)[x] == Outcome(k, scalar, m0, x, r)
  {
    var t := FirstVisitor(loops, st, x);
    ReadyAll(loops, st.threads, x);
    var seen := OthersVisit(n, k, scalar, loops, m0, st, st, t, x, 0, r - 1);
    end := LoseUpdates(n, k, scalar, loops, m0, st, seen, t, x, r - 1, Visits(loops, x) - r);
    LeadsOn(n, k, scalar, loops, st, seen, end);
  }

  lemma FirstVisitor(loops: seq<Loop>, st: Machine, x: nat) returns (t: nat)
    requires Gathered(loops, st, x) && Visits(loops, x) >= 1
    ensures t < |loops| && Hits(loops[t], x) && st.threads[t].i == x
  {
    var p := (v: nat) => v < |loops| && Hits(loops[v], x);
    CountZero(|loops|, p);
    t :| t < |loops| && p(t);
  }

  // ----- whole memories

  ghost predicate WantedAt(n: nat, k: Kernel, scalar: real, loops: seq<Loop>, m0: Mem, want: seq<real>, x: nat)
    requires m0.Sized(n) && |want| == n && x < n
  {
    Between(k, scalar, m0, x, AtLeastOnce(Visits(loops, x)), Visits(loops, x), want[x])
  }

  /** Each index holds the result of between one and all of its visits, or its old value. */
  ghost predicate Wanted(n: nat, k: Kernel, scalar: real, loops: seq<Loop>, m0: Mem, want: seq<real>)
    requires m0.Sized(n)
  {
    && |want| == n
    && forall x: nat {:trigger WantedAt(n, k, scalar, loops, m0, want, x)} | x < n ::
         WantedAt(n, k, scalar, loops, m0, want, x)
  }

  /** Indices below x are as wanted, the others as at the start. */
  ghost predicate HalfWay(n: nat, k: Kernel, m0: Mem, st: Machine, want: seq<real>, x: nat)
    requires m0.Sized(n) && st.mem.Sized(n) && |want| == n
  {
    forall y: nat | y < n :: Target(k, st.mem)[y] == if y < x then want[y] else Target(k, m0)[y]
  }

  lemma NextHalf(n: nat, k: Kernel, loops: seq<Loop>, m0: Mem, st: Machine, end: Machine, want: seq<real>, x: nat)
    requires m0.Sized(n) && |want| == n && x < n && Since(n, k, loops, st, end, x)
    requires HalfWay(n, k, m0, st, want, x) && Target(k, end.mem)[x] == want[x]
    ensures HalfWay(n, k, m0, end, want, x + 1)
  {
    forall y: nat | y < n
      ensures Target(k, end.mem)[y] == if y < x + 1 then want[y] else Target(k, m0)[y]
    {
      if y != x { assert SameAt(n, k, st, end, y); }
    }
  }

  lemma SweptComplete(n: nat, k: Kernel, scalar: real, loops: seq<Loop>, m0: Mem, st: Machine)
    requires Inv(n, k, scalar, loops, m0, st) && Swept(loops, st.threads, n)
    ensures Complete(loops, st.threads)
  {
    forall t: nat | t < |loops| ensures !Active(loops[t], st.threads[t]) {
      assert DoneBelow(loops[t], st.threads[t], n) && ThreadAt(k, scalar, loops, m0, st, t);
      if st.threads[t].i < loops[t].limit { assert Hits(loops[t], st.threads[t].i); }
    }
  }

  /** Visiting the indices in increasing order, each can be given any value it can have. */
  lemma {:induction false} Sweep(n: nat, k: Kernel, scalar: real, loops: seq<Loop>, m0: Mem, st: Machine,
                                 want: seq<real>, x: nat)
    returns (end: Machine)
    requires Inv(n, k, scalar, loops, m0, st) && Swept(loops, st.threads, x) && x <= n
    requires Wanted(n, k, scalar, loops, m0, want) && HalfWay(n, k, m0, st, want, x)
    ensures Inv(n, k, scalar, loops, m0, end) && Leads(n, k, scalar, loops, st, end)
    ensures Complete(loops, end.threads) && Target(k, end.mem) == want
    decreases n - x
  {
    if x == n {
      end := st;
      LeadsStay(n, k, scalar, loops, st);
      SweptComplete(n, k, scalar, loops, m0, st);
      assert Target(k, end.mem) == want;
    } else {
      var next := SweepOne(n, k, scalar, loops, m0, st, want, x);
      end := Sweep(n, k, scalar, loops, m0, next, want, x + 1);
      LeadsOn(n, k, scalar, loops, st, next, end);
    }
  }

  lemma SweepOne(n: nat, k: Kernel, scalar: real, loops: seq<Loop>, m0: Mem, st: Machine, want: seq<real>, x: nat)
    returns (next: Machine)
    requires Inv(n, k, scalar, loops, m0, st) && Swept(loops, st.threads, x) && x < n
    requires Wanted(n, k, scalar, loops, m0, want) && HalfWay(n, k, m0, st, want, x)
    ensures Inv(n, k, scalar, loops, m0, next) && Leads(n, k, scalar, loops, st, next)
    ensures Swept(loops, next.threads, x + 1) && HalfWay(n, k, m0, next, want, x + 1)
  {
    assert WantedAt(n, k, scalar, loops, m0, want, x);
    var r: nat :|
      AtLeastOnce(Visits(loops, x)) <= r <= Visits(loops, x) && want[x] == Outcome(k, scalar, m0, x, r);
    next := SettleIndex(n, k, scalar, loops, m0, st, x, r);
    NextHalf(n, k, loops, m0, st, next, want, x);
  }

  lemma AnyMemory(n: nat, k: Kernel, scalar: real, loops: seq<Loop>, m0: Mem, want: seq<real>)
    requires m0.Sized(n) && forall t: nat | t < |loops| :: InBounds(loops[t], n)
    requires Wanted(n, k, scalar, loops, m0, want)
    ensures Reaches(n, k, scalar, loops, m0, WithTarget(k, m0, want))
  {
    SpawnInv(n, k, scalar, loops, m0);
    SpawnSwept(loops);
    var end := Sweep(n, k, scalar, loops, m0, Machine(m0, Spawn(loops)), want, 0);
  }

  /** The memories a kernel can leave, exactly: only its target changes, and every
      index of it, independently of the others, holds the result of between one and
      all of its visits, or its old value where no thread visits it. */
  lemma PossibleMemories(n: nat, k: Kernel, scalar: real, loops: seq<Loop>, m0: Mem, final: Mem)
    requires m0.Sized(n) && forall t: nat | t < |loops| :: InBounds(loops[t], n)
    ensures Reaches(n, k, scalar, loops, m0, final) <==>
            final == WithTarget(k, m0, Target(k, final)) && Wanted(n, k, scalar, loops, m0, Target(k, final))
  {
    if Reaches(n, k, scalar, loops, m0, final) {
      var st := ReachesInv(n, k, scalar, loops, m0, final);
      CompleteOutcome(n, k, scalar, loops, m0, st);
    }
    if final == WithTarget(k, m0, Target(k, final)) && Wanted(n, k, scalar, loops, m0, Target(k, final)) {
      AnyMemory(n, k, scalar, loops, m0, Target(k, final));
    }
  }

  /** In particular an index that is visited m times can end with any number of
      updates from one to m. */
  lemma AnyOutcome(n: nat, k: Kernel, scalar: real, loops: seq<Loop>, m0: Mem, x: nat, r: nat)
    returns (final: Mem)
    requires m0.Sized(n) && x < n && forall t: nat | t < |loops| :: InBounds(loops[t], n)
    requires 1 <= r <= Visits(loops, x)
    ensures Reaches(n, k, scalar, loops, m0, final) && final.Sized(n)
    ensures Target(k, final)[x] == Outcome(k, scalar, m0, x, r)
  {
    var want := seq(n, (y: nat) requires y < n =>
                         Outcome(k, scalar, m0, y, if y == x then r else Visits(loops, y)));
    forall y: nat | y < n ensures WantedAt(n, k, scalar, loops, m0, want, y) {
      assert want[y] == Outcome(k, scalar, m0, y, if y == x then r else Visits(loops, y));
    }
    AnyMemory(n, k, scalar, loops, m0, want);
    final := WithTarget(k, m0, want);
  }

  /** What one index can end with, exactly. */
  lemma PossibleOutcomes(n: nat, k: Kernel, scalar: real, loops: seq<Loop>, m0: Mem, x: nat, value: real)
    requires m0.Sized(n) && x < n && forall t: nat | t < |loops| :: InBounds(loops[t], n)
    ensures (exists final: Mem ::
               Reaches(n, k, scalar, loops, m0, final) && final.Sized(n) && Target(k, final)[x] == value) <==>
            Between(k, scalar, m0, x, AtLeastOnce(Visits(loops, x)), Visits(loops, x), value)
  {
    if final: Mem :| Reaches(n, k, scalar, loops, m0, final) && final.Sized(n) && Target(k, final)[x] == value {
      var st := ReachesInv(n, k, scalar, loops, m0, final);
      CompleteOutcome(n, k, scalar, loops, m0, st);
    }
    if Between(k, scalar, m0, x, AtLeastOnce(Visits(loops, x)), Visits(loops, x), value) {
      var r: nat :| AtLeastOnce(Visits(loops, x)) <= r <= Visits(loops, x) && value == Outcome(k, scalar, m0, x, r);
      var final;
      if r == 0 {
        final := FullOutcomeReached(n, k, scalar, loops, m0);
      } else {
        final := AnyOutcome(n, k, scalar, loops, m0, x, r);
      }
    }
  }
}
