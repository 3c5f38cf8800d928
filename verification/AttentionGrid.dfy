/** How the launch grid divides the output: every element belongs to exactly one thread and one
    iteration of its strided loop, and the work of all threads adds up to the cost model. */
module AttentionGrid {
  import opened Options
  import opened Arithmetic
  import Floats
  import opened DeviceSemantics
  import opened AttentionThread
  import opened AttentionLoops
  import opened AttentionRun
  import opened AttentionDims
  import opened AttentionEntry
  import P = AttentionPlan
  import R = AttentionReference
  import opened AttentionKernel
  import opened Sums

  /** Thread number `t` of the grid: x fastest, then y, then workgroups with the x coordinate inner. */
  function JobAt(fm: Floats.FloatModel, run: R.AttentionRun, gridX: nat, t: nat): Job
    requires gridX > 0
  {
    Job(fm, run, (t / 16) % gridX, (t / 16) / gridX, t % 4, (t / 4) % 4)
  }

  function ThreadCount(p: P.Plan): nat { p.gridZ * p.gridX * 16 }

  /** A runtime input for a compiled plan: shape within the compiled one, and any tile arguments. */
  ghost predicate RunsOn(fm: Floats.FloatModel, run: R.AttentionRun, p: P.Plan) {
    && P.Launchable(p) && fm.Valid() && R.Accepted(run) && R.WellTyped(run) && R.DotsFit(run)
    && run.sequence <= p.shape.sequence && run.head_dim <= p.shape.head_dim
  }

  /** The input has the query tile the grid was sized for. */
  predicate OwnTile(run: R.AttentionRun, p: P.Plan) { run.query_tile == p.query_tile }

  lemma CeilCovers(n: nat, d: nat)
    requires d == 4 || d == 64
    ensures n <= DivCeil(n, d) * d < n + d
  {
  }

  lemma DivModBound(i: nat, a: nat, b: nat)
    requires b > 0 && i < a * b
    ensures i / b < a && i % b < b && i == (i / b) * b + i % b
  {
    if i / b >= a {
      MulLe(a, i / b, b);
    }
  }

  lemma GridNonempty(p: P.Plan)
    requires P.Launchable(p)
    ensures p.gridX > 0 && p.gridZ > 0
    ensures p.shape.sequence <= p.gridX * 4 < p.shape.sequence + 4
    ensures p.shape.head_dim <= p.gridZ * 64 < p.shape.head_dim + 64
    ensures p.shape.sequence < P.I32_LIMIT && p.shape.head_dim < P.I32_LIMIT
  {
    CeilCovers(p.shape.sequence, 4);
    CeilCovers(p.shape.head_dim, 64);
    P.SmallFactor(p.shape.sequence, p.shape.head_dim, P.I32_LIMIT);
    P.SmallFactor(p.shape.head_dim, p.shape.sequence, P.I32_LIMIT);
  }

  /** Every thread of a launch of a compiled plan meets the conditions under which threads were run. */
  lemma JobsFit(fm: Floats.FloatModel, run: R.AttentionRun, p: P.Plan, t: nat)
    requires RunsOn(fm, run, p) && t < ThreadCount(p)
    ensures p.gridX > 0 && JobAt(fm, run, p.gridX, t).Fits()
  {
    hide R.WellTyped, R.DotsFit, P.Launchable, Floats.FloatModel.Valid;
    TileOfPlan(p);
    GridNonempty(p);
    DivModBound(t, p.gridZ * p.gridX, 16);
    DivModBound(t / 16, p.gridZ, p.gridX);
    P.MulMono(run.sequence, p.shape.sequence, run.head_dim, p.shape.head_dim);
  }

  lemma TileOfPlan(p: P.Plan)
    requires P.Launchable(p)
    ensures p.query_tile == 4 && p.shape.sequence * p.shape.head_dim < P.I32_LIMIT
  {
  }

  // ----- who stores an element -----

  /** The thread at this row of this workgroup that passes the dimension. */
  function ThreadAt(gridX: nat, bx: nat, ty: nat, dim: nat): nat {
    (((dim / 64) * gridX + bx) * 4 + ty) * 4 + dim % 4
  }

  function Owner(gridX: nat, query: nat, dim: nat): nat { ThreadAt(gridX, query / 4, query % 4, dim) }

  /** The thread computes this element: its row, and a dimension its strided loop passes. */
  predicate Visits(j: Job, query: nat, dim: nat) {
    && j.QueryRow() == query && query < j.run.sequence
    && j.FirstDim() <= dim < j.DimEnd() && (dim - j.FirstDim()) % BLOCK == 0
  }

  lemma ThreadDecodes(fm: Floats.FloatModel, run: R.AttentionRun, gridX: nat, bx: nat, ty: nat, dim: nat)
    requires bx < gridX && ty < 4
    ensures JobAt(fm, run, gridX, ThreadAt(gridX, bx, ty, dim)) == Job(fm, run, bx, dim / 64, dim % 4, ty)
  {
    var w := (dim / 64) * gridX + bx;
    DigitsOf(w, ty, dim % 4);
    DivModUnique(w, gridX, dim / 64, bx);
  }

  lemma DigitsOf(w: nat, y: nat, x: nat)
    requires x < 4 && y < 4
    ensures var t := (w * 4 + y) * 4 + x; t / 16 == w && t % 4 == x && (t / 4) % 4 == y
  {
  }

  lemma DivModUnique(n: nat, b: nat, q: nat, r: nat)
    requires r < b && n == q * b + r
    ensures n / b == q && n % b == r
  {
    var q', r' := n / b, n % b;
    assert n == q' * b + r';
    if q < q' {
      MulLe(q + 1, q', b);
    } else if q' < q {
      MulLe(q' + 1, q, b);
    }
  }

  /** Workgroups four rows apart: the 32-bit arithmetic does not wrap. */
  lemma PlainRow(bx: nat, ty: nat)
    requires bx * 4 + ty < U32_LIMIT
    ensures RowOf(4, bx, ty) == bx * 4 + ty
  {
  }

  /** Exactly one thread of the grid computes each element, and it is a thread of the launch. */
  lemma ExactlyOneThread(fm: Floats.FloatModel, run: R.AttentionRun, p: P.Plan, query: nat, dim: nat, t: nat)
    requires P.Launchable(p) && run.sequence <= p.shape.sequence && run.head_dim <= p.shape.head_dim && OwnTile(run, p)
    requires query < run.sequence && dim < run.head_dim && t < ThreadCount(p)
    ensures p.gridX > 0 && Owner(p.gridX, query, dim) < ThreadCount(p)
    ensures Visits(JobAt(fm, run, p.gridX, t), query, dim) <==> t == Owner(p.gridX, query, dim)
  {
    GridNonempty(p);
    TileOfPlan(p);
    hide P.Launchable, RowOf;
    ThreadDecodes(fm, run, p.gridX, query / 4, query % 4, dim);
    ThreadInGrid(p.gridX, p.gridZ, query / 4, query % 4, dim);
    var j := JobAt(fm, run, p.gridX, t);
    DivModBound(t, p.gridZ * p.gridX, 16);
    DivModBound(t / 16, p.gridZ, p.gridX);
    PlainRow(j.bx, j.ty);
    if Visits(j, query, dim) {
      StrideDecodes(j.bz, j.tx, dim);
      RowDecodes(j.bx, j.ty, query);
      Recombine(t, p.gridX, j.bx, j.bz, j.tx, j.ty);
    }
    PlainRow(query / 4, query % 4);
    ThreadVisits(Job(fm, run, query / 4, dim / 64, dim % 4, query % 4), query, dim);
  }

  lemma ThreadInGrid(gridX: nat, gridZ: nat, bx: nat, ty: nat, dim: nat)
    requires bx < gridX && ty < 4 && dim < gridZ * 64
    ensures ThreadAt(gridX, bx, ty, dim) < gridZ * gridX * 16
  {
    MulLe(dim / 64 + 1, gridZ, gridX);
    assert (dim / 64 + 1) * gridX == (dim / 64) * gridX + gridX;
    ThreadBelow((dim / 64) * gridX + bx, gridZ * gridX, ty, dim % 4);
  }

  lemma ThreadBelow(w: nat, groups: nat, ty: nat, tx: nat)
    requires w < groups && ty < 4 && tx < 4
    ensures (w * 4 + ty) * 4 + tx < groups * 16
  {
  }

  lemma StrideDecodes(bz: nat, tx: nat, dim: nat)
    requires tx < 4 && bz * 64 + tx <= dim < bz * 64 + 64 && (dim - (bz * 64 + tx)) % 4 == 0
    ensures bz == dim / 64 && tx == dim % 4
  {
  }

  lemma RowDecodes(bx: nat, ty: nat, query: nat)
    requires ty < 4 && query == bx * 4 + ty
    ensures bx == query / 4 && ty == query % 4
  {
  }

  lemma Recombine(t: nat, gridX: nat, bx: nat, bz: nat, tx: nat, ty: nat)
    requires gridX > 0 && bx == (t / 16) % gridX && bz == (t / 16) / gridX && tx == t % 4 && ty == (t / 4) % 4
    ensures t == ((bz * gridX + bx) * 4 + ty) * 4 + tx
  {
    assert t / 16 == bz * gridX + bx;
  }

  lemma ThreadVisits(j: Job, query: nat, dim: nat)
    requires j.QueryRow() == query && j.bz == dim / 64 && j.tx == dim % 4
    requires query < j.run.sequence && dim < j.run.head_dim
    ensures Visits(j, query, dim)
  {
    hide Job.QueryRow;
    StrideReaches(dim);
  }

  lemma StrideReaches(dim: nat)
    ensures var start := (dim / 64) * 64 + dim % 4; start <= dim < (dim / 64) * 64 + 64 && (dim - start) % 4 == 0
  {
    var q, r := dim / 64, dim % 64;
    assert dim % 4 == r % 4;
  }

  // ----- what a thread has stored and counted -----

  function DimCount(dim: nat, end: nat): nat
    decreases end - dim
  {
    if dim < end then 1 + DimCount(dim + BLOCK, end) else 0
  }

  lemma {:induction false} DimCountReaches(dim: nat, end: nat, i: nat)
    ensures dim + BLOCK * i < end <==> i < DimCount(dim, end)
    decreases i
  {
    if dim < end && i > 0 {
      DimCountReaches(dim + BLOCK, end, i - 1);
    }
  }

  function MacsPerDim(run: R.AttentionRun): nat { 2 * Total(run.sequence, run.head_dim) + run.sequence }

  function BytesPerDim(run: R.AttentionRun): nat { 4 * Total(run.sequence, run.head_dim) + run.sequence }

  function DimWrite(j: Job, dim: nat): Write
    requires R.Accepted(j.run) && j.QueryRow() < j.run.sequence && dim < j.run.head_dim
  {
    Write(Obj(Out), OutIndex(j, dim), FromSigned(8, OutputOf(j, dim)))
  }

  /** The strided loop adds one store per visited dimension. */
  lemma {:induction false} RowLogLength(j: Job, dim: nat, log: Log)
    requires R.Accepted(j.run) && j.QueryRow() < j.run.sequence
    ensures var out := RowLog(j, dim, log);
            |out.stores| == |log.stores| + DimCount(dim, j.DimEnd()) && log.stores <= out.stores
    decreases j.DimEnd() - dim
  {
    hide R.Accepted, DimWrite, MacsPerDim, BytesPerDim, DimLog;
    if dim < j.DimEnd() {
      RowLogLength(j, dim + BLOCK, DimLog(j, dim, log));
      DimLogStores(j, dim, log);
    }
  }

  /** The `i`-th store is that of the `i`-th visited dimension. */
  lemma {:induction false} RowLogStoreAt(j: Job, dim: nat, log: Log, i: nat)
    requires R.Accepted(j.run) && j.QueryRow() < j.run.sequence && i < DimCount(dim, j.DimEnd())
    ensures dim + BLOCK * i < j.DimEnd() && |log.stores| + i < |RowLog(j, dim, log).stores|
    ensures RowLog(j, dim, log).stores[|log.stores| + i] == DimWrite(j, dim + BLOCK * i)
    decreases i
  {
    hide R.Accepted, DimWrite, MacsPerDim, BytesPerDim, DimLog;
    var mid := DimLog(j, dim, log);
    RowLogLength(j, dim, log);
    RowLogLength(j, dim + BLOCK, mid);
    DimLogStores(j, dim, log);
    if i > 0 {
      RowLogStoreAt(j, dim + BLOCK, mid, i - 1);
    } else {
      assert RowLog(j, dim, log).stores[|log.stores|] == mid.stores[|log.stores|];
    }
  }

  lemma DimLogStores(j: Job, dim: nat, log: Log)
    requires R.Accepted(j.run) && j.QueryRow() < j.run.sequence && dim < j.run.head_dim
    ensures DimLog(j, dim, log).stores == log.stores + [DimWrite(j, dim)]
    ensures DimLog(j, dim, log).macs == log.macs + MacsPerDim(j.run)
    ensures DimLog(j, dim, log).bytesRead == log.bytesRead + BytesPerDim(j.run)
  {
    hide R.Accepted, OutputOf, OutIndex, FromSigned;
  }

  /** Each visited dimension costs the same. */
  lemma {:induction false} RowLogCost(j: Job, dim: nat, log: Log)
    requires R.Accepted(j.run) && j.QueryRow() < j.run.sequence
    ensures var out, n := RowLog(j, dim, log), DimCount(dim, j.DimEnd());
            && out.macs == log.macs + Total(n, MacsPerDim(j.run))
            && out.bytesRead == log.bytesRead + Total(n, BytesPerDim(j.run))
    decreases j.DimEnd() - dim
  {
    hide R.Accepted, DimWrite, MacsPerDim, BytesPerDim, DimLog;
    if dim < j.DimEnd() {
      RowLogCost(j, dim + BLOCK, DimLog(j, dim, log));
      DimLogStores(j, dim, log);
    }
  }

  function StoreCount(j: Job): nat {
    if j.QueryRow() < j.run.sequence then DimCount(j.FirstDim(), j.DimEnd()) else 0
  }

  lemma FinalLogShape(j: Job)
    requires R.Accepted(j.run)
    ensures |FinalLog(j).stores| == StoreCount(j)
    ensures FinalLog(j).macs == Total(StoreCount(j), MacsPerDim(j.run))
    ensures FinalLog(j).bytesRead == Total(StoreCount(j), BytesPerDim(j.run))
    ensures forall i: nat :: i < StoreCount(j) ==>
              j.FirstDim() + BLOCK * i < j.DimEnd() && FinalLog(j).stores[i] == DimWrite(j, j.FirstDim() + BLOCK * i)
  {
    hide R.Accepted, RowLog, MacsPerDim, BytesPerDim, DimWrite;
    if j.QueryRow() < j.run.sequence {
      RowLogLength(j, j.FirstDim(), EMPTY_LOG);
      forall i: nat | i < StoreCount(j)
        ensures j.FirstDim() + BLOCK * i < j.DimEnd() && FinalLog(j).stores[i] == DimWrite(j, j.FirstDim() + BLOCK * i)
      {
        RowLogStoreAt(j, j.FirstDim(), EMPTY_LOG, i);
      }
      RowLogCost(j, j.FirstDim(), EMPTY_LOG);
    }
  }

  /** Iteration `i` of the thread's loop stores element (query, dim). */
  ghost predicate StoresAt(j: Job, i: nat, query: nat, dim: nat)
    requires R.Accepted(j.run)
  {
    i < |FinalLog(j).stores| && FinalLog(j).stores[i].off == R.Index(query, dim, j.run.head_dim)
  }

  /** An element is stored by a thread exactly when the thread visits it, in exactly one iteration. */
  lemma StoredExactlyOnce(j: Job, query: nat, dim: nat, i: nat)
    requires R.Accepted(j.run) && query < j.run.sequence && dim < j.run.head_dim
    ensures StoresAt(j, i, query, dim) <==> Visits(j, query, dim) && i == (dim - j.FirstDim()) / BLOCK
  {
    hide R.Accepted, OutputOf, FromSigned, R.Index, FinalLog, DimCount, RowLog;
    FinalLogShape(j);
    if Visits(j, query, dim) && i == (dim - j.FirstDim()) / BLOCK {
      DimCountReaches(j.FirstDim(), j.DimEnd(), i);
      assert j.FirstDim() + BLOCK * i == dim;
    }
    if StoresAt(j, i, query, dim) {
      R.IndexInjective(j.QueryRow(), j.FirstDim() + BLOCK * i, query, dim, j.run.head_dim);
    }
  }

  // ----- the work of the whole grid -----

  /** The four threads of a row of the workgroup share out the dimensions of their tile. */
  lemma {:induction false} FourStrides(dim: nat, end: nat)
    ensures DimCount(dim, end) + DimCount(dim + 1, end) + DimCount(dim + 2, end) + DimCount(dim + 3, end)
            == if dim < end then end - dim else 0
    decreases end - dim
  {
    if dim < end {
      FourStrides(dim + 4, end);
    }
  }

  function Elements(fm: Floats.FloatModel, run: R.AttentionRun, gridX: nat, t: nat): nat
    requires gridX > 0
  {
    StoreCount(JobAt(fm, run, gridX, t))
  }

  lemma JobOf(fm: Floats.FloatModel, run: R.AttentionRun, gridX: nat, w: nat, ty: nat, tx: nat)
    requires gridX > 0 && tx < 4 && ty < 4
    ensures JobAt(fm, run, gridX, w * 16 + ty * 4 + tx) == Job(fm, run, w % gridX, w / gridX, tx, ty)
  {
    DigitsOf(w, ty, tx);
    assert w * 16 + ty * 4 + tx == (w * 4 + ty) * 4 + tx;
  }

  lemma RowOfThreads(fm: Floats.FloatModel, run: R.AttentionRun, gridX: nat, w: nat, ty: nat)
    requires gridX > 0 && ty < 4 && run.query_tile == 4 && gridX * 4 <= U32_LIMIT
    ensures var n := w * 16 + ty * 4;
            Elements(fm, run, gridX, n) + Elements(fm, run, gridX, n + 1) + Elements(fm, run, gridX, n + 2)
            + Elements(fm, run, gridX, n + 3)
            == if (w % gridX) * 4 + ty < run.sequence then InTile(w / gridX, 64, run.head_dim) else 0
  {
    hide JobAt;
    JobOf(fm, run, gridX, w, ty, 0);
    JobOf(fm, run, gridX, w, ty, 1);
    JobOf(fm, run, gridX, w, ty, 2);
    JobOf(fm, run, gridX, w, ty, 3);
    RowOfJobs(fm, run, w % gridX, w / gridX, ty);
  }

  lemma RowOfJobs(fm: Floats.FloatModel, run: R.AttentionRun, bx: nat, bz: nat, ty: nat)
    requires run.query_tile == 4 && bx * 4 + ty < U32_LIMIT
    ensures StoreCount(Job(fm, run, bx, bz, 0, ty)) + StoreCount(Job(fm, run, bx, bz, 1, ty))
            + StoreCount(Job(fm, run, bx, bz, 2, ty)) + StoreCount(Job(fm, run, bx, bz, 3, ty))
            == if bx * 4 + ty < run.sequence then InTile(bz, 64, run.head_dim) else 0
  {
    var j := Job(fm, run, bx, bz, 0, ty);
    FourStrides(j.FirstDim(), j.DimEnd());
  }

  /** A workgroup stores its rows times its dimensions. */
  lemma WorkgroupElements(fm: Floats.FloatModel, run: R.AttentionRun, gridX: nat, f: nat -> nat, w: nat)
    requires gridX > 0 && run.query_tile == 4 && gridX * 4 <= U32_LIMIT
    requires forall t: nat :: f(t) == Elements(fm, run, gridX, t)
    ensures SumRange(f, w * 16, 16) == GroupSize(run, gridX, w)
  {
    hide Elements, InTile, GroupSize, RowSize, SumRange;
    Sixteen(f, w * 16);
    FourOfRow(fm, run, gridX, f, w, 0);
    FourOfRow(fm, run, gridX, f, w, 1);
    FourOfRow(fm, run, gridX, f, w, 2);
    FourOfRow(fm, run, gridX, f, w, 3);
    GroupSizeByRows(run, gridX, w);
  }

  function GroupSize(run: R.AttentionRun, gridX: nat, w: nat): nat
    requires gridX > 0
  {
    InTile(w % gridX, 4, run.sequence) * InTile(w / gridX, 64, run.head_dim)
  }

  function RowSize(run: R.AttentionRun, gridX: nat, w: nat, ty: nat): nat
    requires gridX > 0
  {
    if (w % gridX) * 4 + ty < run.sequence then InTile(w / gridX, 64, run.head_dim) else 0
  }

  lemma FourOfRow(fm: Floats.FloatModel, run: R.AttentionRun, gridX: nat, f: nat -> nat, w: nat, ty: nat)
    requires gridX > 0 && ty < 4 && run.query_tile == 4 && gridX * 4 <= U32_LIMIT
    requires forall t: nat :: f(t) == Elements(fm, run, gridX, t)
    ensures var n := w * 16 + ty * 4; f(n) + f(n + 1) + f(n + 2) + f(n + 3) == RowSize(run, gridX, w, ty)
  {
    hide Elements, InTile;
    RowOfThreads(fm, run, gridX, w, ty);
  }

  lemma GroupSizeByRows(run: R.AttentionRun, gridX: nat, w: nat)
    requires gridX > 0
    ensures RowSize(run, gridX, w, 0) + RowSize(run, gridX, w, 1) + RowSize(run, gridX, w, 2) + RowSize(run, gridX, w, 3)
            == GroupSize(run, gridX, w)
  {
    RowsTimes(w % gridX, run.sequence, InTile(w / gridX, 64, run.head_dim));
  }

  lemma RowsTimes(bx: nat, rows: nat, c: nat)
    ensures (if bx * 4 < rows then c else 0) + (if bx * 4 + 1 < rows then c else 0)
            + (if bx * 4 + 2 < rows then c else 0) + (if bx * 4 + 3 < rows then c else 0)
            == InTile(bx, 4, rows) * c
  {
    var n := InTile(bx, 4, rows);
    assert n == 0 || n == 1 || n == 2 || n == 3 || n == 4;
  }

  /** The workgroups of one column of the grid. */
  lemma ColumnElements(rows: nat -> nat, product: nat -> nat, run: R.AttentionRun, gx: nat, bz: nat)
    requires gx > 0 && run.sequence <= gx * 4
    requires forall bx: nat :: rows(bx) == InTile(bx, 4, run.sequence)
    requires forall w: nat :: product(w) == GroupSize(run, gx, w)
    ensures SumRange(product, bz * gx, gx) == run.sequence * InTile(bz, 64, run.head_dim)
  {
    hide InTile, GroupSize;
    forall bx: nat | bx < gx ensures product(bz * gx + bx) == rows(bx) * InTile(bz, 64, run.head_dim) {
      GroupSizeAt(run, gx, bz, bx);
    }
    SumScaled(rows, product, InTile(bz, 64, run.head_dim), bz * gx, gx);
    TilesCover(rows, 4, run.sequence, gx);
  }

  lemma GroupSizeAt(run: R.AttentionRun, gx: nat, bz: nat, bx: nat)
    requires bx < gx
    ensures GroupSize(run, gx, bz * gx + bx) == InTile(bx, 4, run.sequence) * InTile(bz, 64, run.head_dim)
  {
    hide InTile;
    DivModUnique(bz * gx + bx, gx, bz, bx);
  }

  lemma AllColumns(product: nat -> nat, dims: nat -> nat, columns: nat -> nat, run: R.AttentionRun, gx: nat, gz: nat)
    requires gx > 0 && run.sequence <= gx * 4 && run.head_dim <= gz * 64
    requires forall w: nat :: product(w) == GroupSize(run, gx, w)
    requires forall bz: nat :: dims(bz) == InTile(bz, 64, run.head_dim) && columns(bz) == dims(bz) * run.sequence
    ensures SumRange(product, 0, gz * gx) == run.sequence * run.head_dim
  {
    hide InTile, GroupSize, SumRange;
    forall bz: nat | bz < gz ensures columns(bz) == SumRange(product, bz * gx, gx) {
      ColumnOf(product, dims, columns, run, gx, bz);
    }
    SumGroups(product, columns, gz, gx);
    ColumnsSum(dims, columns, run, gz);
  }

  lemma ColumnOf(product: nat -> nat, dims: nat -> nat, columns: nat -> nat, run: R.AttentionRun, gx: nat, bz: nat)
    requires gx > 0 && run.sequence <= gx * 4
    requires forall w: nat :: product(w) == GroupSize(run, gx, w)
    requires dims(bz) == InTile(bz, 64, run.head_dim) && columns(bz) == dims(bz) * run.sequence
    ensures columns(bz) == SumRange(product, bz * gx, gx)
  {
    hide InTile, GroupSize, SumRange;
    ColumnElements((bx: nat) => InTile(bx, 4, run.sequence), product, run, gx, bz);
  }

  lemma ColumnsSum(dims: nat -> nat, columns: nat -> nat, run: R.AttentionRun, gz: nat)
    requires run.head_dim <= gz * 64
    requires forall bz: nat :: dims(bz) == InTile(bz, 64, run.head_dim) && columns(bz) == dims(bz) * run.sequence
    ensures SumRange(columns, 0, gz) == run.sequence * run.head_dim
  {
    hide InTile, SumRange;
    SumScaled(dims, columns, run.sequence, 0, gz);
    TilesCover(dims, 64, run.head_dim, gz);
  }

  lemma AllGroups(fm: Floats.FloatModel, run: R.AttentionRun, gx: nat, groups: nat, f: nat -> nat, product: nat -> nat)
    requires gx > 0 && run.query_tile == 4 && gx * 4 <= U32_LIMIT
    requires forall t: nat :: f(t) == Elements(fm, run, gx, t)
    requires forall w: nat :: product(w) == GroupSize(run, gx, w)
    ensures SumRange(f, 0, groups * 16) == SumRange(product, 0, groups)
  {
    hide Elements, GroupSize;
    forall w: nat | w < groups ensures product(w) == SumRange(f, w * 16, 16) {
      WorkgroupElements(fm, run, gx, f, w);
    }
    SumGroups(f, product, groups, 16);
  }

  /** All threads together store each element of the output once: sequence * head_dim stores. */
  lemma GridElements(fm: Floats.FloatModel, run: R.AttentionRun, p: P.Plan, f: nat -> nat)
    requires P.Launchable(p) && run.sequence <= p.shape.sequence && run.head_dim <= p.shape.head_dim && OwnTile(run, p)
    requires p.gridX > 0 && forall t: nat :: f(t) == Elements(fm, run, p.gridX, t)
    ensures SumRange(f, 0, ThreadCount(p)) == run.sequence * run.head_dim
  {
    hide P.Launchable, Elements, InTile, GroupSize;
    GridNonempty(p);
    TileOfPlan(p);
    var gx, gz := p.gridX, p.gridZ;
    var product := (w: nat) => GroupSize(run, gx, w);
    AllGroups(fm, run, gx, gz * gx, f, product);
    AllColumns(product, (bz: nat) => InTile(bz, 64, run.head_dim), (bz: nat) => InTile(bz, 64, run.head_dim) * run.sequence,
               run, gx, gz);
  }
}
