/** The whole launch: whatever the order in which the threads take their steps, the launch ends, and
    the output buffer then holds the host reference. Stated for any form of the kernel whose threads
    each end with the expected log; the device IR is one such form. */
module AttentionLaunch {
  import opened Options
  import Floats
  import opened DeviceIr
  import opened DeviceSemantics
  import opened LaunchMachine
  import opened SoundSteps
  import opened AttentionKernel
  import opened AttentionThread
  import opened AttentionLoops
  import opened AttentionRun
  import opened AttentionDims
  import opened AttentionEntry
  import opened AttentionTiles
  import opened AttentionGrid
  import opened Sums
  import P = AttentionPlan
  import R = AttentionReference

  /** On its own, thread `t` returns after `n` steps with this log. */
  ghost predicate Completes<S>(sys: System<S>, t: nat, mem: Memory, n: nat, log: Log) {
    sys.done(Alone(sys, t, mem, n)) && sys.log(Alone(sys, t, mem, n)) == log
  }

  ghost predicate Ends<S>(sys: System<S>, t: nat, mem: Memory, log: Log) {
    exists n: nat :: Completes(sys, t, mem, n, log)
  }

  /** A launch of the kernel: its memory, its threads, and what each thread does on its own. */
  ghost predicate Launch<S(!new)>(sys: System<S>, fm: Floats.FloatModel, run: R.AttentionRun, p: P.Plan, g0: Global<S>) {
    && RunsOn(fm, run, p) && p.gridX > 0
    && Sound(sys) && StartsAt(sys, g0) && |g0.threads| == ThreadCount(p)
    && LaunchMemory(run, g0.mem)
    && forall t: nat :: t < ThreadCount(p) ==>
         Ends(sys, t, g0.mem, FinalLog(JobAt(fm, run, p.gridX, t)))
  }

  /** The byte the reference gives for an output cell. */
  function Wanted(fm: Floats.FloatModel, run: R.AttentionRun, off: int): Val
    requires R.Accepted(run)
  {
    if 0 <= off && run.head_dim > 0 && off / run.head_dim < run.sequence
    then FromSigned(8, R.Output(fm, run, off / run.head_dim, off % run.head_dim))
    else FromSigned(8, 0)
  }

  lemma WantedAt(fm: Floats.FloatModel, run: R.AttentionRun, query: nat, dim: nat)
    requires R.Accepted(run) && query < run.sequence && dim < run.head_dim
    ensures Wanted(fm, run, R.Index(query, dim, run.head_dim)) == FromSigned(8, R.Output(fm, run, query, dim))
  {
    hide R.Output, FromSigned;
    DivModUnique(R.Index(query, dim, run.head_dim), run.head_dim, query, dim);
  }

  lemma LogWanted(fm: Floats.FloatModel, run: R.AttentionRun, j: Job, i: nat)
    requires R.Accepted(run) && j.fm == fm && j.run == run && i < |FinalLog(j).stores|
    ensures FinalLog(j).stores[i].v == Wanted(fm, run, FinalLog(j).stores[i].off)
    ensures FinalLog(j).stores[i].obj == Obj(Out)
  {
    hide R.Accepted, FinalLog, R.Index, R.Output, FromSigned, Wanted;
    FinalLogShape(j);
    WantedAt(fm, run, j.QueryRow(), j.FirstDim() + BLOCK * i);
  }

  /** The launch satisfies the premises of the interleaving theorem. */
  lemma {:induction false} LaunchFinishes<S(!new)>(sys: System<S>, fm: Floats.FloatModel, run: R.AttentionRun, p: P.Plan,
                                                   g0: Global<S>, n: nat) returns (steps: seq<nat>)
    requires R.Accepted(run) && Launch(sys, fm, run, p, g0) && n <= ThreadCount(p)
    ensures |steps| == n
    ensures forall t: nat :: t < n ==> Completes(sys, t, g0.mem, steps[t], FinalLog(JobAt(fm, run, p.gridX, t)))
    ensures forall t: nat :: t < n ==> Finishes(sys, t, g0.mem, steps[t], (o, off) => Wanted(fm, run, off))
  {
    hide Sound, StartsAt, RunsOn, LaunchMemory, R.Accepted, FinalLog, JobAt, Wanted;
    if n == 0 {
      steps := [];
    } else {
      var before := LaunchFinishes(sys, fm, run, p, g0, n - 1);
      var t := n - 1;
      JobParts(fm, run, p.gridX, t);
      assert Ends(sys, t, g0.mem, FinalLog(JobAt(fm, run, p.gridX, t)));
      var k: nat :| Completes(sys, t, g0.mem, k, FinalLog(JobAt(fm, run, p.gridX, t)));
      steps := before + [k];
      forall i | 0 <= i < |FinalLog(JobAt(fm, run, p.gridX, t)).stores|
        ensures FinalLog(JobAt(fm, run, p.gridX, t)).stores[i].v
                == Wanted(fm, run, FinalLog(JobAt(fm, run, p.gridX, t)).stores[i].off)
      {
        LogWanted(fm, run, JobAt(fm, run, p.gridX, t), i);
      }
    }
  }

  lemma JobParts(fm: Floats.FloatModel, run: R.AttentionRun, gridX: nat, t: nat)
    requires gridX > 0
    ensures JobAt(fm, run, gridX, t).fm == fm && JobAt(fm, run, gridX, t).run == run
  {
  }

  /** Every run that keeps stepping unfinished threads ends, within a bound that does not depend on the order. */
  lemma LaunchTerminates<S(!new)>(sys: System<S>, fm: Floats.FloatModel, run: R.AttentionRun, p: P.Plan, g0: Global<S>)
    returns (bound: nat)
    requires R.Accepted(run) && Launch(sys, fm, run, p, g0)
    ensures forall schedule :: IsSchedule(schedule, |g0.threads|) && IsLive(sys, g0, schedule) ==> |schedule| <= bound
  {
    hide RunsOn, LaunchMemory, R.Accepted, FinalLog, JobAt, Wanted, Sound;
    var steps := LaunchFinishes(sys, fm, run, p, g0, ThreadCount(p));
    bound := SumOf(steps);
    forall schedule | IsSchedule(schedule, |g0.threads|) && IsLive(sys, g0, schedule) ensures |schedule| <= bound {
      RunsAreFinite(sys, g0, schedule, steps, (o, off) => Wanted(fm, run, off));
    }
  }

  /** When all threads have returned, in whatever order they ran, each has its own expected log. */
  lemma LaunchLogs<S(!new)>(sys: System<S>, fm: Floats.FloatModel, run: R.AttentionRun, p: P.Plan, g0: Global<S>,
                            schedule: seq<nat>, t: nat)
    requires R.Accepted(run) && Launch(sys, fm, run, p, g0) && IsSchedule(schedule, |g0.threads|) && t < |g0.threads|
    requires AllDone(sys, Run(sys, g0, schedule))
    ensures var g := Run(sys, g0, schedule);
            && sys.log(g.threads[t]) == FinalLog(JobAt(fm, run, p.gridX, t))
            && InMemory(sys.log(g.threads[t]).stores, g.mem)
            && SameReadable(g0.mem, g.mem)
  {
    hide RunsOn, LaunchMemory, R.Accepted, FinalLog, JobAt, Wanted, Sound;
    var steps := LaunchFinishes(sys, fm, run, p, g0, ThreadCount(p));
    FinalState(sys, g0, schedule, steps, (o, off) => Wanted(fm, run, off), t);
  }

  /** Element (query, dim) of the output buffer, when all threads have returned and some thread computes the row. */
  lemma LaunchElement<S(!new)>(sys: System<S>, fm: Floats.FloatModel, run: R.AttentionRun, p: P.Plan, g0: Global<S>,
                               schedule: seq<nat>, query: nat, dim: nat)
    requires R.Accepted(run) && Launch(sys, fm, run, p, g0) && IsSchedule(schedule, |g0.threads|)
    requires AllDone(sys, Run(sys, g0, schedule)) && query < run.sequence && dim < run.head_dim
    requires RowHit(p.gridX, run.query_tile, query)
    ensures var mem := Run(sys, g0, schedule).mem;
            && Obj(Out) in mem && R.Index(query, dim, run.head_dim) < |mem[Obj(Out)].cells|
            && mem[Obj(Out)].cells[R.Index(query, dim, run.head_dim)] == FromSigned(8, R.Output(fm, run, query, dim))
  {
    hide LaunchMemory, R.Accepted, FinalLog, JobAt, Wanted, Sound, R.Index, R.Output, FromSigned, Visits, Run, StartsAt,
         Completes, P.Launchable, R.WellTyped, R.DotsFit, Floats.FloatModel.Valid, ThreadAt, RowOf, RowHit;
    GridNonempty(p);
    var t := VisitingThread(fm, run, p, query, dim);
    var j := JobAt(fm, run, p.gridX, t);
    JobParts(fm, run, p.gridX, t);
    var i := (dim - j.FirstDim()) / BLOCK;
    VisitIndex(j, query, dim, i);
    StoredExactlyOnce(j, query, dim, i);
    LaunchLogs(sys, fm, run, p, g0, schedule, t);
    LogWanted(fm, run, j, i);
    WantedAt(fm, run, query, dim);
  }

  lemma VisitingThread(fm: Floats.FloatModel, run: R.AttentionRun, p: P.Plan, query: nat, dim: nat) returns (t: nat)
    requires P.Launchable(p) && p.gridX > 0 && run.head_dim <= p.shape.head_dim
    requires query < run.sequence && dim < run.head_dim && RowHit(p.gridX, run.query_tile, query)
    ensures t < ThreadCount(p) && Visits(JobAt(fm, run, p.gridX, t), query, dim)
  {
    GridNonempty(p);
    hide P.Launchable, RowOf, Visits, ThreadAt;
    var bx: nat, ty: nat :| bx < p.gridX && ty < 4 && RowOf(run.query_tile, bx, ty) == query;
    t := ThreadAt(p.gridX, bx, ty, dim);
    ThreadInGrid(p.gridX, p.gridZ, bx, ty, dim);
    ThreadDecodes(fm, run, p.gridX, bx, ty, dim);
    ThreadVisits(Job(fm, run, bx, dim / 64, dim % 4, ty), query, dim);
  }

  /** No thread stores to a row that no thread computes. */
  lemma RowAvoided(fm: Floats.FloatModel, run: R.AttentionRun, p: P.Plan, t: nat, query: nat, dim: nat)
    requires R.Accepted(run) && p.gridX > 0 && query < run.sequence && dim < run.head_dim
    requires !RowHit(p.gridX, run.query_tile, query)
    ensures Avoids(FinalLog(JobAt(fm, run, p.gridX, t)).stores, Obj(Out), R.Index(query, dim, run.head_dim))
  {
    hide R.Accepted, FinalLog, R.Index, R.Output, FromSigned, RowOf;
    var j := JobAt(fm, run, p.gridX, t);
    if !Avoids(FinalLog(j).stores, Obj(Out), R.Index(query, dim, run.head_dim)) {
      var i: nat :| i < |FinalLog(j).stores| && FinalLog(j).stores[i].off == R.Index(query, dim, run.head_dim);
      StoredExactlyOnce(j, query, dim, i);
    }
  }

  /** Element (query, dim) of the output buffer, when no thread computes the row: it has kept its initial value. */
  lemma LaunchUntouched<S(!new)>(sys: System<S>, fm: Floats.FloatModel, run: R.AttentionRun, p: P.Plan, g0: Global<S>,
                                 schedule: seq<nat>, query: nat, dim: nat)
    requires R.Accepted(run) && Launch(sys, fm, run, p, g0) && IsSchedule(schedule, |g0.threads|)
    requires query < run.sequence && dim < run.head_dim && !RowHit(p.gridX, run.query_tile, query)
    ensures var off := R.Index(query, dim, run.head_dim);
            CellAt(Run(sys, g0, schedule).mem, Obj(Out), off) == CellAt(g0.mem, Obj(Out), off)
  {
    hide RunsOn, LaunchMemory, R.Accepted, FinalLog, JobAt, Wanted, Sound, Alone, Avoids, RowHit, R.Index, CellAt;
    var steps := LaunchFinishes(sys, fm, run, p, g0, ThreadCount(p));
    var off := R.Index(query, dim, run.head_dim);
    forall t: nat | t < |g0.threads| ensures NeverStores(sys, t, g0.mem, steps[t], Obj(Out), off) {
      JobParts(fm, run, p.gridX, t);
      assert Completes(sys, t, g0.mem, steps[t], FinalLog(JobAt(fm, run, p.gridX, t)));
      RowAvoided(fm, run, p, t, query, dim);
    }
    UntouchedCell(sys, g0, schedule, steps, (o, off) => Wanted(fm, run, off), Obj(Out), off);
  }

  lemma ThreadsExist(p: P.Plan)
    requires P.Launchable(p)
    ensures ThreadCount(p) > 0
  {
    GridNonempty(p);
    P.MulAtLeast(p.gridZ, p.gridX);
  }

  lemma VisitIndex(j: Job, query: nat, dim: nat, i: int)
    requires Visits(j, query, dim) && i == (dim - j.FirstDim()) / BLOCK
    ensures i >= 0
  {
  }

  /** If the tile argument reaches every row, the output buffer holds the reference output, byte for byte,
      whatever it held before and whatever the order of steps; nothing else in memory has changed. */
  lemma LaunchComputesReference<S(!new)>(sys: System<S>, fm: Floats.FloatModel, run: R.AttentionRun, p: P.Plan,
                                         g0: Global<S>, schedule: seq<nat>, out: seq<int>)
    requires R.Accepted(run) && Launch(sys, fm, run, p, g0) && IsSchedule(schedule, |g0.threads|)
    requires AllDone(sys, Run(sys, g0, schedule)) && R.IsOutput(fm, run, out)
    requires RowsHit(p.gridX, run.query_tile, run.sequence)
    ensures Obj(Out) in g0.mem
    ensures Run(sys, g0, schedule).mem == g0.mem[Obj(Out) := g0.mem[Obj(Out)].(cells := Cells(out))]
  {
    hide R.Accepted, FinalLog, JobAt, Wanted, Sound, R.Index, R.Output, FromSigned, Run, StartsAt, Completes, P.Launchable,
         R.WellTyped, R.DotsFit, Floats.FloatModel.Valid, ThreadCount, LaunchMemory, SameReadable, RowHit;
    var mem := Run(sys, g0, schedule).mem;
    ThreadsExist(p);
    LaunchLogs(sys, fm, run, p, g0, schedule, 0);
    AcceptedLength(run);
    BuffersOf(run, g0.mem, mem);
    var cells := mem[Obj(Out)].cells;
    forall i | 0 <= i < |out| ensures cells[i] == FromSigned(8, out[i]) {
      var query, dim := R.RowCol(i, run.sequence, run.head_dim);
      assert RowHit(p.gridX, run.query_tile, query);
      LaunchElement(sys, fm, run, p, g0, schedule, query, dim);
      assert R.Holds(fm, run, out, query, dim);
    }
    assert cells == Cells(out);
  }

  lemma AcceptedLength(run: R.AttentionRun)
    requires R.Accepted(run)
    ensures |run.q| == run.sequence * run.head_dim
  {
  }

  /** Only the contents of the output buffer can differ. */
  lemma BuffersOf(run: R.AttentionRun, m0: Memory, m: Memory)
    requires LaunchMemory(run, m0) && SameReadable(m0, m)
    ensures Obj(Out) in m0 && Obj(Out) in m && |m[Obj(Out)].cells| == |run.q|
    ensures m == m0[Obj(Out) := m0[Obj(Out)].(cells := m[Obj(Out)].cells)]
  {
    var m' := m0[Obj(Out) := m0[Obj(Out)].(cells := m[Obj(Out)].cells)];
    forall o | o in m ensures m[o] == m'[o] {
      assert o in m0;
    }
  }

  // ----- exactly when a launch computes the reference -----

  /** The plan's own tile reaches every row. */
  lemma OwnTileHits(run: R.AttentionRun, p: P.Plan)
    requires P.Launchable(p) && run.sequence <= p.shape.sequence && OwnTile(run, p)
    ensures p.gridX > 0 && RowsHit(p.gridX, run.query_tile, run.sequence)
  {
    GridNonempty(p);
    TileOfPlan(p);
    hide P.Launchable, RowsHit;
    ReachingHits(p.gridX, 4, run.sequence);
  }

  /** Complete runs of this launch leave the reference output in the buffer. */
  ghost predicate EndsInReference<S(!new)>(sys: System<S>, fm: Floats.FloatModel, run: R.AttentionRun, g0: Global<S>,
                                           schedule: seq<nat>, out: seq<int>)
    requires R.Accepted(run)
  {
    IsSchedule(schedule, |g0.threads|) && AllDone(sys, Run(sys, g0, schedule)) && R.IsOutput(fm, run, out) ==>
      && Obj(Out) in g0.mem
      && Run(sys, g0, schedule).mem == g0.mem[Obj(Out) := g0.mem[Obj(Out)].(cells := Cells(out))]
  }

  function Begin<S(!new)>(sys: System<S>, p: P.Plan, mem: Memory): Global<S> {
    Global(seq(ThreadCount(p), _ => sys.start), mem)
  }

  /** So do those of every launch of the kernel on this input, whatever the output buffer holds at first. */
  ghost predicate AlwaysReference<S(!new)>(sys: System<S>, fm: Floats.FloatModel, run: R.AttentionRun, p: P.Plan)
    requires R.Accepted(run)
  {
    forall mem, schedule, out :: LaunchMemory(run, mem) ==> EndsInReference(sys, fm, run, Begin(sys, p, mem), schedule, out)
  }

  ghost predicate AllLaunch<S(!new)>(sys: System<S>, fm: Floats.FloatModel, run: R.AttentionRun, p: P.Plan) {
    forall mem :: LaunchMemory(run, mem) ==> Launch(sys, fm, run, p, Begin(sys, p, mem))
  }

  /** Some order of steps completes the launch. */
  lemma LaunchCompletes<S(!new)>(sys: System<S>, fm: Floats.FloatModel, run: R.AttentionRun, p: P.Plan, g0: Global<S>)
    returns (schedule: seq<nat>)
    requires R.Accepted(run) && Launch(sys, fm, run, p, g0)
    ensures IsSchedule(schedule, |g0.threads|) && AllDone(sys, Run(sys, g0, schedule))
  {
    hide RunsOn, LaunchMemory, R.Accepted, FinalLog, JobAt, Wanted, Sound, AllDone;
    var steps := LaunchFinishes(sys, fm, run, p, g0, ThreadCount(p));
    schedule := CompleteRunExists(sys, g0, steps, (o, off) => Wanted(fm, run, off));
  }

  /** A launch memory whose output buffer holds these bytes. */
  function MemoryWith(run: R.AttentionRun, initial: seq<Val>): (mem: Memory)
    requires |initial| == |run.q|
    ensures LaunchMemory(run, mem) && mem[Obj(Out)].cells == initial
  {
    map[0 := Object(ArgCells(run), true, false), Obj(Q) := Object(Cells(run.q), true, false),
        Obj(K) := Object(Cells(run.k), true, false), Obj(V) := Object(Cells(run.v), true, false),
        Obj(Out) := Object(initial, false, true)]
  }

  /** The input on which a launch that misses a row goes wrong: any buffer that does not already hold the result. */
  lemma MissedRowFails<S(!new)>(sys: System<S>, fm: Floats.FloatModel, run: R.AttentionRun, p: P.Plan, query: nat)
    returns (mem: Memory, schedule: seq<nat>, out: seq<int>)
    requires R.Accepted(run) && AllLaunch(sys, fm, run, p) && query < run.sequence
    requires !RowHit(p.gridX, run.query_tile, query)
    ensures LaunchMemory(run, mem) && !EndsInReference(sys, fm, run, Begin(sys, p, mem), schedule, out)
  {
    hide Launch, R.Accepted, LaunchMemory, Run, AllDone, R.IsOutput, RowHit, FromSigned, R.Index;
    out := R.OutputExists(fm, run);
    OutputLength(fm, run, out);
    mem := MemoryWith(run, seq(|out|, i requires 0 <= i < |out| => FromSigned(8, out[i] + 1)));
    var g0 := Begin(sys, p, mem);
    assert Launch(sys, fm, run, p, g0);
    schedule := LaunchCompletes(sys, fm, run, p, g0);
    LaunchUntouched(sys, fm, run, p, g0, schedule, query, 0);
    var off := R.Index(query, 0, run.head_dim);
    OffsetBelow(run, query);
    NextByteDiffers(out[off]);
  }

  lemma OutputLength(fm: Floats.FloatModel, run: R.AttentionRun, out: seq<int>)
    requires R.Accepted(run) && R.IsOutput(fm, run, out)
    ensures |out| == |run.q| && run.head_dim > 0
  {
  }

  lemma OffsetBelow(run: R.AttentionRun, query: nat)
    requires R.Accepted(run) && query < run.sequence
    ensures R.Index(query, 0, run.head_dim) < |run.q|
  {
    R.IndexInRange(query, 0, run.sequence, run.head_dim);
  }

  lemma NextByteDiffers(x: int)
    ensures FromSigned(8, x + 1) != FromSigned(8, x)
  {
  }

  /** Whatever the tile argument: launches of the kernel on an accepted input always compute the reference if and
      only if the argument reaches every query row. */
  lemma ReferenceIff<S(!new)>(sys: System<S>, fm: Floats.FloatModel, run: R.AttentionRun, p: P.Plan)
    requires R.Accepted(run) && AllLaunch(sys, fm, run, p)
    ensures AlwaysReference(sys, fm, run, p) <==> RowsHit(p.gridX, run.query_tile, run.sequence)
  {
    hide Launch, R.Accepted, LaunchMemory, Run, AllDone, R.IsOutput, RowHit;
    if query: nat :| query < run.sequence && !RowHit(p.gridX, run.query_tile, query) {
      var mem, schedule, out := MissedRowFails(sys, fm, run, p, query);
    } else {
      forall mem, schedule, out | LaunchMemory(run, mem)
        ensures EndsInReference(sys, fm, run, Begin(sys, p, mem), schedule, out)
      {
        var g0 := Begin(sys, p, mem);
        assert Launch(sys, fm, run, p, g0);
        if IsSchedule(schedule, |g0.threads|) && AllDone(sys, Run(sys, g0, schedule)) && R.IsOutput(fm, run, out) {
          LaunchComputesReference(sys, fm, run, p, g0, schedule, out);
        }
      }
    }
  }

  // ----- the cost of a launch -----

  /** The logs of all threads, added up, are the cost model: its multiplications, its bytes read, and one
      store for each byte it says is written. */
  lemma LaunchCost<S(!new)>(sys: System<S>, fm: Floats.FloatModel, run: R.AttentionRun, p: P.Plan, g0: Global<S>,
                            schedule: seq<nat>, macs: nat -> nat, bytes: nat -> nat, stores: nat -> nat)
    requires R.Accepted(run) && Launch(sys, fm, run, p, g0) && IsSchedule(schedule, |g0.threads|)
    requires AllDone(sys, Run(sys, g0, schedule)) && OwnTile(run, p)
    requires forall t: nat :: t < |g0.threads| ==>
               var log := sys.log(Run(sys, g0, schedule).threads[t]);
               macs(t) == log.macs && bytes(t) == log.bytesRead && stores(t) == |log.stores|
    ensures SumRange(macs, 0, |g0.threads|) == P.LoweredMacs(run.sequence, run.head_dim)
    ensures SumRange(bytes, 0, |g0.threads|) == P.BytesRead(run.sequence, run.head_dim)
    ensures SumRange(stores, 0, |g0.threads|) == run.sequence * run.head_dim
  {
    hide R.Accepted, FinalLog, JobAt, Sound, Run, StartsAt, Completes, RunsOn, LaunchMemory, SumRange, StoreCount, MacsPerDim,
         BytesPerDim, SameReadable, Total;
    var n := ThreadCount(p);
    var f := (t: nat) => Elements(fm, run, p.gridX, t);
    RunsOnPlan(fm, run, p);
    GridElements(fm, run, p, f);
    forall t: nat | t < n
      ensures stores(0 + t) == f(t) * 1
      ensures macs(0 + t) == f(t) * MacsPerDim(run) && bytes(0 + t) == f(t) * BytesPerDim(run)
    {
      LaunchLogs(sys, fm, run, p, g0, schedule, t);
      JobParts(fm, run, p.gridX, t);
      FinalLogShape(JobAt(fm, run, p.gridX, t));
      TotalIsProduct(f(t), MacsPerDim(run));
      TotalIsProduct(f(t), BytesPerDim(run));
    }
    SumScaled(f, stores, 1, 0, n);
    SumScaled(f, macs, MacsPerDim(run), 0, n);
    SumScaled(f, bytes, BytesPerDim(run), 0, n);
    PerDimCosts(run);
  }

  lemma RunsOnPlan(fm: Floats.FloatModel, run: R.AttentionRun, p: P.Plan)
    requires RunsOn(fm, run, p)
    ensures P.Launchable(p) && run.sequence <= p.shape.sequence && run.head_dim <= p.shape.head_dim
  {
    hide R.WellTyped, R.DotsFit, Floats.FloatModel.Valid, P.Launchable;
  }

  lemma PerDimCosts(run: R.AttentionRun)
    ensures run.sequence * run.head_dim * MacsPerDim(run) == P.LoweredMacs(run.sequence, run.head_dim)
    ensures run.sequence * run.head_dim * BytesPerDim(run) == P.BytesRead(run.sequence, run.head_dim)
  {
    hide Total;
    TotalIsProduct(run.sequence, run.head_dim);
    var e := run.sequence * run.head_dim;
    Scale(e, 2, e, run.sequence);
    Scale(e, 4, e, run.sequence);
  }

  lemma Scale(e: nat, c: nat, x: nat, y: nat)
    ensures e * (c * x + y) == c * (e * x) + y * e
  {
    assert e * (c * x + y) == e * (c * x) + e * y;
    assert e * (c * x) == c * (e * x);
  }
}
