/** A launch: threads that share a memory and are stepped one at a time in any order. Generic in the
    thread state, so that the same theorem serves the device IR and its lowered form. */
module LaunchMachine {
  import opened Options
  import opened DeviceIr
  import opened DeviceSemantics

  /** How thread number `t` takes a step, what it has logged, when it has returned, and how all start. */
  datatype System<!S> = System(step: (nat, Memory, S) -> (S, Effect), log: S -> Log, done: S -> bool, start: S)

  datatype Global<S> = Global(threads: seq<S>, mem: Memory)

  function Apply(mem: Memory, e: Effect): Memory {
    match e
    case Stored(obj, off, v) =>
      if obj in mem && 0 <= off < |mem[obj].cells|
      then mem[obj := mem[obj].(cells := mem[obj].cells[off := v])] else mem
    case _ => mem
  }

  function Tick<S>(sys: System<S>, g: Global<S>, t: nat): Global<S>
    requires t < |g.threads|
  {
    var (s, e) := sys.step(t, g.mem, g.threads[t]);
    Global(g.threads[t := s], Apply(g.mem, e))
  }

  /** Which thread steps, time after time. */
  ghost predicate IsSchedule(schedule: seq<nat>, threads: nat) {
    forall i :: 0 <= i < |schedule| ==> schedule[i] < threads
  }

  function Run<S>(sys: System<S>, g: Global<S>, schedule: seq<nat>): (r: Global<S>)
    requires IsSchedule(schedule, |g.threads|)
    ensures |r.threads| == |g.threads|
  {
    if schedule == [] then g
    else Tick(sys, Run(sys, g, schedule[..|schedule| - 1]), schedule[|schedule| - 1])
  }

  /** Only threads that have not returned are ever scheduled. */
  ghost predicate IsLive<S>(sys: System<S>, g: Global<S>, schedule: seq<nat>)
    requires IsSchedule(schedule, |g.threads|)
  {
    forall i :: 0 <= i < |schedule| ==> !sys.done(Run(sys, g, schedule[..i]).threads[schedule[i]])
  }

  ghost predicate AllDone<S>(sys: System<S>, g: Global<S>) {
    forall t :: 0 <= t < |g.threads| ==> sys.done(g.threads[t])
  }

  /** Equal flags and lengths, and equal contents wherever reading is allowed. */
  ghost predicate SameReadable(a: Memory, b: Memory) {
    && a.Keys == b.Keys
    && forall o :: o in a ==>
         && a[o].readable == b[o].readable && a[o].writable == b[o].writable && |a[o].cells| == |b[o].cells|
         && (a[o].readable ==> a[o].cells == b[o].cells)
  }

  /** No buffer is both readable and writable. */
  ghost predicate Separated(mem: Memory) {
    forall o :: o in mem ==> !(mem[o].readable && mem[o].writable)
  }

  ghost predicate Sound<S(!new)>(sys: System<S>) {
    && (forall t: nat, m, m', s :: SameReadable(m, m') ==> sys.step(t, m, s) == sys.step(t, m', s))
    && (forall t: nat, m, s :: sys.log(sys.step(t, m, s).0) == Record(sys.log(s), sys.step(t, m, s).1))
    && (forall t: nat, m, s :: sys.done(s) ==> sys.step(t, m, s) == (s, Silent))
    && (forall t: nat, m, s :: sys.step(t, m, s).1.Stored? ==>
          CanStore(m, AddrV(sys.step(t, m, s).1.obj, sys.step(t, m, s).1.off)))
  }

  /** Thread `t` after `n` steps on its own. */
  function Alone<S>(sys: System<S>, t: nat, mem: Memory, n: nat): S {
    if n == 0 then sys.start else sys.step(t, mem, Alone(sys, t, mem, n - 1)).0
  }

  ghost predicate Agree(stores: seq<Write>, want: (nat, int) -> Val) {
    forall i :: 0 <= i < |stores| ==> stores[i].v == want(stores[i].obj, stores[i].off)
  }

  /** On its own, thread `t` has returned after `n` steps and stored only wanted values. */
  ghost predicate Finishes<S(!new)>(sys: System<S>, t: nat, mem: Memory, n: nat, want: (nat, int) -> Val) {
    sys.done(Alone(sys, t, mem, n)) && Agree(sys.log(Alone(sys, t, mem, n)).stores, want)
  }

  // ----- one thread on its own -----

  lemma {:induction false} AloneStays<S(!new)>(sys: System<S>, t: nat, mem: Memory, n: nat, m: nat)
    requires Sound(sys) && sys.done(Alone(sys, t, mem, n)) && n <= m
    ensures Alone(sys, t, mem, m) == Alone(sys, t, mem, n)
  {
    if n < m {
      AloneStays(sys, t, mem, n, m - 1);
    }
  }

  lemma {:induction false} StoresGrow<S(!new)>(sys: System<S>, t: nat, mem: Memory, n: nat, m: nat)
    requires Sound(sys) && n <= m
    ensures sys.log(Alone(sys, t, mem, n)).stores <= sys.log(Alone(sys, t, mem, m)).stores
  {
    if n < m {
      StoresGrow(sys, t, mem, n, m - 1);
      var s := Alone(sys, t, mem, m - 1);
      assert sys.log(sys.step(t, mem, s).0) == Record(sys.log(s), sys.step(t, mem, s).1);
    }
  }

  /** Whatever a thread has stored at any moment is wanted. */
  lemma AgreeAlways<S(!new)>(sys: System<S>, t: nat, mem: Memory, n: nat, want: (nat, int) -> Val, m: nat)
    requires Sound(sys) && Finishes(sys, t, mem, n, want)
    ensures Agree(sys.log(Alone(sys, t, mem, m)).stores, want)
  {
    hide Sound;
    if m <= n {
      StoresGrow(sys, t, mem, m, n);
    } else {
      AloneStays(sys, t, mem, n, m);
    }
  }

  // ----- all threads together -----

  /** How often each thread has been scheduled. */
  function Count(schedule: seq<nat>, t: nat): nat {
    if schedule == [] then 0
    else Count(schedule[..|schedule| - 1], t) + if schedule[|schedule| - 1] == t then 1 else 0
  }

  ghost predicate InMemory(stores: seq<Write>, mem: Memory) {
    forall i :: 0 <= i < |stores| ==>
      && stores[i].obj in mem && 0 <= stores[i].off < |mem[stores[i].obj].cells|
      && mem[stores[i].obj].cells[stores[i].off] == stores[i].v
  }

  ghost predicate StartsAt<S(!new)>(sys: System<S>, g: Global<S>) {
    Separated(g.mem) && sys.log(sys.start) == EMPTY_LOG && forall t :: 0 <= t < |g.threads| ==> g.threads[t] == sys.start
  }

  /** Every thread is where it would be on its own; read-only memory is untouched; every store made
      so far, by any thread, is still in memory. */
  ghost predicate Invariant<S(!new)>(sys: System<S>, g0: Global<S>, schedule: seq<nat>, g: Global<S>) {
    && |g.threads| == |g0.threads|
    && SameReadable(g0.mem, g.mem)
    && (forall t: nat :: t < |g.threads| ==> g.threads[t] == Alone(sys, t, g0.mem, Count(schedule, t)))
    && (forall t: nat :: t < |g.threads| ==> InMemory(sys.log(g.threads[t]).stores, g.mem))
  }

  lemma ApplyKeeps(m0: Memory, m: Memory, e: Effect)
    requires SameReadable(m0, m) && Separated(m0)
    requires e.Stored? ==> CanStore(m, AddrV(e.obj, e.off))
    ensures SameReadable(m0, Apply(m, e))
  {
  }

  /** A store of a wanted value leaves earlier stores of wanted values in memory. */
  lemma InMemoryApply(stores: seq<Write>, want: (nat, int) -> Val, m: Memory, e: Effect)
    requires InMemory(stores, m) && Agree(stores, want)
    requires e.Stored? ==> e.v == want(e.obj, e.off)
    ensures InMemory(stores, Apply(m, e))
  {
  }

  lemma InMemoryNew(log: Log, m: Memory, e: Effect)
    requires InMemory(log.stores, Apply(m, e))
    requires e.Stored? ==> CanStore(m, AddrV(e.obj, e.off))
    ensures InMemory(Record(log, e).stores, Apply(m, e))
  {
  }

  ghost predicate AllFinish<S(!new)>(sys: System<S>, g0: Global<S>, steps: seq<nat>, want: (nat, int) -> Val) {
    |steps| == |g0.threads| && forall t: nat :: t < |steps| ==> Finishes(sys, t, g0.mem, steps[t], want)
  }

  /** What the next tick of thread `t` does is what it would do on its own. */
  lemma TickAlone<S(!new)>(sys: System<S>, g0: Global<S>, schedule: seq<nat>, g: Global<S>, t: nat, steps: seq<nat>,
                     want: (nat, int) -> Val)
    requires Sound(sys) && AllFinish(sys, g0, steps, want) && Invariant(sys, g0, schedule, g) && t < |g.threads|
    ensures var (s, e) := sys.step(t, g.mem, g.threads[t]);
            && s == Alone(sys, t, g0.mem, Count(schedule, t) + 1)
            && sys.log(s) == Record(sys.log(g.threads[t]), e)
            && (e.Stored? ==> CanStore(g.mem, AddrV(e.obj, e.off)) && e.v == want(e.obj, e.off))
  {
    var n := Count(schedule, t);
    var (s, e) := sys.step(t, g.mem, g.threads[t]);
    assert sys.step(t, g.mem, g.threads[t]) == sys.step(t, g0.mem, g.threads[t]);
    AgreeAlways(sys, t, g0.mem, steps[t], want, n + 1);
    if e.Stored? {
      var stores := sys.log(s).stores;
      assert stores[|stores| - 1] == Write(e.obj, e.off, e.v);
    }
  }

  lemma TickKeepsInvariant<S(!new)>(sys: System<S>, g0: Global<S>, schedule: seq<nat>, g: Global<S>, t: nat, steps: seq<nat>,
                              want: (nat, int) -> Val)
    requires Sound(sys) && AllFinish(sys, g0, steps, want) && Separated(g0.mem)
    requires Invariant(sys, g0, schedule, g) && t < |g.threads|
    ensures Invariant(sys, g0, schedule + [t], Tick(sys, g, t))
  {
    TickAlone(sys, g0, schedule, g, t, steps, want);
    var (s, e) := sys.step(t, g.mem, g.threads[t]);
    var g', sched' := Tick(sys, g, t), schedule + [t];
    assert sched'[..|sched'| - 1] == schedule;
    hide Sound;
    ApplyKeeps(g0.mem, g.mem, e);
    forall u: nat | u < |g.threads| ensures InMemory(sys.log(g'.threads[u]).stores, g'.mem) {
      AgreeAlways(sys, u, g0.mem, steps[u], want, Count(schedule, u));
      InMemoryApply(sys.log(g.threads[u]).stores, want, g.mem, e);
      if u == t {
        InMemoryNew(sys.log(g.threads[t]), g.mem, e);
      }
    }
    forall u: nat | u < |g.threads| ensures g'.threads[u] == Alone(sys, u, g0.mem, Count(sched', u)) {
      assert Count(sched', u) == Count(schedule, u) + if t == u then 1 else 0;
    }
  }

  /** The invariant holds after every schedule. */
  lemma {:induction false} InvariantAlways<S(!new)>(sys: System<S>, g0: Global<S>, schedule: seq<nat>, steps: seq<nat>,
                                                    want: (nat, int) -> Val)
    requires Sound(sys) && AllFinish(sys, g0, steps, want) && StartsAt(sys, g0) && IsSchedule(schedule, |g0.threads|)
    ensures Invariant(sys, g0, schedule, Run(sys, g0, schedule))
  {
    hide Sound, Finishes, AllFinish;
    if schedule != [] {
      var n := |schedule| - 1;
      InvariantAlways(sys, g0, schedule[..n], steps, want);
      TickKeepsInvariant(sys, g0, schedule[..n], Run(sys, g0, schedule[..n]), schedule[n], steps, want);
      assert schedule[..n] + [schedule[n]] == schedule;
    }
  }

  // ----- termination -----

  function SumOf(xs: seq<nat>): nat {
    if xs == [] then 0 else SumOf(xs[..|xs| - 1]) + xs[|xs| - 1]
  }

  function Counts(schedule: seq<nat>, threads: nat): (counts: seq<nat>)
    ensures |counts| == threads && forall t :: 0 <= t < threads ==> counts[t] == Count(schedule, t)
  {
    seq(threads, t requires 0 <= t < threads => Count(schedule, t))
  }

  lemma {:induction false} SumMonotone(a: seq<nat>, b: seq<nat>)
    requires |a| == |b| && forall i :: 0 <= i < |a| ==> a[i] <= b[i]
    ensures SumOf(a) <= SumOf(b)
  {
    if a != [] {
      SumMonotone(a[..|a| - 1], b[..|b| - 1]);
    }
  }

  lemma {:induction false} SumBump(a: seq<nat>, b: seq<nat>, t: nat)
    requires |a| == |b| && t < |a| && b[t] == a[t] + 1 && forall i :: 0 <= i < |a| && i != t ==> a[i] == b[i]
    ensures SumOf(b) == SumOf(a) + 1
  {
    var n := |a| - 1;
    if t == n {
      assert a[..n] == b[..n];
    } else {
      SumBump(a[..n], b[..n], t);
    }
  }

  /** The scheduled steps are shared out among the threads. */
  lemma {:induction false} CountsAddUp(schedule: seq<nat>, threads: nat)
    requires IsSchedule(schedule, threads)
    ensures SumOf(Counts(schedule, threads)) == |schedule|
  {
    if schedule == [] {
      AllZero(Counts(schedule, threads));
    } else {
      var n := |schedule| - 1;
      CountsAddUp(schedule[..n], threads);
      SumBump(Counts(schedule[..n], threads), Counts(schedule, threads), schedule[n]);
    }
  }

  lemma {:induction false} AllZero(xs: seq<nat>)
    requires forall i :: 0 <= i < |xs| ==> xs[i] == 0
    ensures SumOf(xs) == 0
  {
    if xs != [] {
      AllZero(xs[..|xs| - 1]);
    }
  }

  /** A live thread has not used up its own steps. */
  lemma {:induction false} LiveWithinSteps<S(!new)>(sys: System<S>, g0: Global<S>, schedule: seq<nat>, steps: seq<nat>,
                                                    want: (nat, int) -> Val, t: nat)
    requires Sound(sys) && AllFinish(sys, g0, steps, want) && StartsAt(sys, g0) && IsSchedule(schedule, |g0.threads|)
    requires IsLive(sys, g0, schedule) && t < |g0.threads|
    ensures Count(schedule, t) <= steps[t]
  {
    hide Sound;
    if schedule != [] {
      var n := |schedule| - 1;
      var before := schedule[..n];
      assert forall i :: 0 <= i < n ==> before[..i] == schedule[..i];
      LiveWithinSteps(sys, g0, before, steps, want, t);
      if schedule[n] == t && Count(before, t) >= steps[t] {
        InvariantAlways(sys, g0, before, steps, want);
        AloneStays(sys, t, g0.mem, steps[t], Count(before, t));
        assert false;
      }
    }
  }

  /** Every run that only steps unfinished threads is finite: it has at most as many steps as the
      threads have on their own. */
  lemma RunsAreFinite<S(!new)>(sys: System<S>, g0: Global<S>, schedule: seq<nat>, steps: seq<nat>, want: (nat, int) -> Val)
    requires Sound(sys) && AllFinish(sys, g0, steps, want) && StartsAt(sys, g0) && IsSchedule(schedule, |g0.threads|)
    requires IsLive(sys, g0, schedule)
    ensures |schedule| <= SumOf(steps)
  {
    hide Sound, AllFinish, IsLive;
    assert |steps| == |g0.threads| by { SameLength(sys, g0, steps, want); }
    forall t | 0 <= t < |g0.threads| ensures Counts(schedule, |g0.threads|)[t] <= steps[t] {
      LiveWithinSteps(sys, g0, schedule, steps, want, t);
    }
    SumMonotone(Counts(schedule, |g0.threads|), steps);
    CountsAddUp(schedule, |g0.threads|);
  }

  lemma SameLength<S(!new)>(sys: System<S>, g0: Global<S>, steps: seq<nat>, want: (nat, int) -> Val)
    requires AllFinish(sys, g0, steps, want)
    ensures |steps| == |g0.threads|
  {
  }

  /** Whatever the order of steps, once all threads have returned each is in its own final state and
      every store of every thread is in memory; what could be read has not changed. */
  lemma FinalState<S(!new)>(sys: System<S>, g0: Global<S>, schedule: seq<nat>, steps: seq<nat>, want: (nat, int) -> Val, t: nat)
    requires Sound(sys) && AllFinish(sys, g0, steps, want) && StartsAt(sys, g0) && IsSchedule(schedule, |g0.threads|)
    requires t < |g0.threads| && sys.done(Run(sys, g0, schedule).threads[t])
    ensures var g := Run(sys, g0, schedule);
            && g.threads[t] == Alone(sys, t, g0.mem, steps[t])
            && InMemory(sys.log(g.threads[t]).stores, g.mem)
            && SameReadable(g0.mem, g.mem)
  {
    hide Sound;
    InvariantAlways(sys, g0, schedule, steps, want);
    var n := Count(schedule, t);
    if n <= steps[t] {
      AloneStays(sys, t, g0.mem, n, steps[t]);
    } else {
      AloneStays(sys, t, g0.mem, steps[t], n);
    }
  }

  // ----- what no thread stores -----

  ghost predicate Avoids(stores: seq<Write>, obj: nat, off: int) {
    forall i :: 0 <= i < |stores| ==> stores[i].obj != obj || stores[i].off != off
  }

  /** On its own, thread `t` never stores to this cell. */
  ghost predicate NeverStores<S(!new)>(sys: System<S>, t: nat, mem: Memory, n: nat, obj: nat, off: int) {
    Avoids(sys.log(Alone(sys, t, mem, n)).stores, obj, off)
  }

  function CellAt(mem: Memory, obj: nat, off: int): Option<Val> {
    if obj in mem && 0 <= off < |mem[obj].cells| then Some(mem[obj].cells[off]) else None
  }

  lemma AvoidsAlways<S(!new)>(sys: System<S>, t: nat, mem: Memory, n: nat, want: (nat, int) -> Val, m: nat, obj: nat, off: int)
    requires Sound(sys) && Finishes(sys, t, mem, n, want) && NeverStores(sys, t, mem, n, obj, off)
    ensures NeverStores(sys, t, mem, m, obj, off)
  {
    hide Sound;
    if m <= n {
      StoresGrow(sys, t, mem, m, n);
    } else {
      AloneStays(sys, t, mem, n, m);
    }
  }

  lemma ApplyElsewhere(m: Memory, e: Effect, obj: nat, off: int)
    requires e.Stored? ==> e.obj != obj || e.off != off
    ensures CellAt(Apply(m, e), obj, off) == CellAt(m, obj, off)
  {
  }

  /** A cell that no thread stores to on its own is the same after every schedule. */
  lemma {:induction false} UntouchedCell<S(!new)>(sys: System<S>, g0: Global<S>, schedule: seq<nat>, steps: seq<nat>,
                                                  want: (nat, int) -> Val, obj: nat, off: int)
    requires Sound(sys) && AllFinish(sys, g0, steps, want) && StartsAt(sys, g0) && IsSchedule(schedule, |g0.threads|)
    requires forall t: nat :: t < |g0.threads| ==> NeverStores(sys, t, g0.mem, steps[t], obj, off)
    ensures CellAt(Run(sys, g0, schedule).mem, obj, off) == CellAt(g0.mem, obj, off)
  {
    hide Sound, CellAt, Apply, Record;
    if schedule != [] {
      var n := |schedule| - 1;
      var t, before := schedule[n], schedule[..n];
      UntouchedCell(sys, g0, before, steps, want, obj, off);
      InvariantAlways(sys, g0, before, steps, want);
      var g := Run(sys, g0, before);
      TickAlone(sys, g0, before, g, t, steps, want);
      AvoidsAlways(sys, t, g0.mem, steps[t], want, Count(before, t) + 1, obj, off);
      var (s, e) := sys.step(t, g.mem, g.threads[t]);
      NewStoreAvoids(sys.log(g.threads[t]), e, obj, off);
      ApplyElsewhere(g.mem, e, obj, off);
    }
  }

  lemma NewStoreAvoids(log: Log, e: Effect, obj: nat, off: int)
    requires Avoids(Record(log, e).stores, obj, off)
    ensures e.Stored? ==> e.obj != obj || e.off != off
  {
    if e.Stored? {
      assert Record(log, e).stores[|log.stores|] == Write(e.obj, e.off, e.v);
    }
  }

  // ----- some schedule finishes -----

  lemma {:induction false} CountAppend(a: seq<nat>, t: nat, n: nat, u: nat)
    ensures Count(a + seq(n, _ => t), u) == Count(a, u) + if t == u then n else 0
  {
    var b := seq(n, _ => t);
    if n == 0 {
      assert a + b == a;
    } else {
      CountAppend(a, t, n - 1, u);
      assert (a + b)[..|a + b| - 1] == a + seq(n - 1, _ => t);
    }
  }

  /** One thread after the other, each for as long as it needs. */
  lemma {:induction false} OneByOne(steps: seq<nat>, n: nat) returns (schedule: seq<nat>)
    requires n <= |steps|
    ensures IsSchedule(schedule, |steps|) && forall t: nat :: t < n ==> Count(schedule, t) >= steps[t]
  {
    schedule := [];
    if n > 0 {
      var before := OneByOne(steps, n - 1);
      schedule := before + seq(steps[n - 1], _ => n - 1);
      forall t: nat | t < n ensures Count(schedule, t) >= steps[t] {
        CountAppend(before, n - 1, steps[n - 1], t);
      }
    }
  }

  /** There is an order of steps in which all threads return. */
  lemma CompleteRunExists<S(!new)>(sys: System<S>, g0: Global<S>, steps: seq<nat>, want: (nat, int) -> Val) returns (schedule: seq<nat>)
    requires Sound(sys) && AllFinish(sys, g0, steps, want) && StartsAt(sys, g0)
    ensures IsSchedule(schedule, |g0.threads|) && AllDone(sys, Run(sys, g0, schedule))
  {
    hide Sound;
    schedule := OneByOne(steps, |steps|);
    InvariantAlways(sys, g0, schedule, steps, want);
    forall t: nat | t < |steps| ensures sys.done(Run(sys, g0, schedule).threads[t]) {
      assert Finishes(sys, t, g0.mem, steps[t], want);
      AloneStays(sys, t, g0.mem, steps[t], Count(schedule, t));
    }
  }
}
