/** A thread of the attention kernel: its place in the grid, the memory of its launch, and the straight-line
    pieces its loops share, from address arithmetic to one step of a dot product. */
module AttentionThread {
  import opened Options
  import opened Arithmetic
  import Floats
  import opened DeviceIr
  import opened DeviceSemantics
  import opened StraightLine
  import opened AttentionKernel
  import R = AttentionReference

  const TILE := 64
  const BLOCK := 4
  const I32_LIMIT := 0x8000_0000
  const U32_LIMIT := 0x1_0000_0000

  /** The query row of a thread: workgroups are `tile` rows apart, in wrapping 32-bit arithmetic. */
  function RowOf(tile: nat, bx: nat, ty: nat): nat { (bx * tile + ty) % U32_LIMIT }

  /** One thread of a launch: the input and its place in the grid. */
  datatype Job = Job(fm: Floats.FloatModel, run: R.AttentionRun, bx: nat, bz: nat, tx: nat, ty: nat) {
    function QueryRow(): nat { RowOf(run.query_tile, bx, ty) }
    function FirstDim(): nat { bz * TILE + tx }
    function TileEnd(): nat { bz * TILE + TILE }
    function DimEnd(): nat { if run.head_dim < TileEnd() then run.head_dim else TileEnd() }

    /** The input is one the reference accepts and does not overflow on, with any tile argument; and
        coordinates and dimensions stay below 2^31. */
    ghost predicate Fits() {
      && fm.Valid() && R.Accepted(run) && R.WellTyped(run) && R.DotsFit(run)
      && tx < BLOCK && ty < BLOCK
      && bx < I32_LIMIT && bz * TILE + TILE <= I32_LIMIT
      && |run.q| < I32_LIMIT
    }
  }

  type Env = map<Reg, Val>

  function U(n: nat): Val { IntV(32, n) }

  function S(n: int): Val { FromSigned(32, n) }

  predicate Has(e: Env, r: Reg, v: Val) { r in e && e[r] == v }

  function Obj(b: Buffer): nat {
    match b case Q => 1 case K => 2 case V => 3 case Out => 4
  }

  function Cells(xs: seq<int>): (cells: seq<Val>)
    ensures |cells| == |xs| && forall i :: 0 <= i < |xs| ==> cells[i] == FromSigned(8, xs[i])
  {
    seq(|xs|, i requires 0 <= i < |xs| => FromSigned(8, xs[i]))
  }

  function ArgCells(run: R.AttentionRun): seq<Val> {
    [ AddrV(Obj(Q), 0), AddrV(Obj(K), 0), AddrV(Obj(V), 0), AddrV(Obj(Out), 0),
      U(run.sequence), U(run.head_dim), U(run.query_tile), U(run.key_tile) ]
  }

  /** Argument structure and buffers with the access flags the backend creates them with. */
  ghost predicate LaunchMemory(run: R.AttentionRun, mem: Memory) {
    && mem.Keys == {0, Obj(Q), Obj(K), Obj(V), Obj(Out)}
    && mem[0] == Object(ArgCells(run), true, false)
    && mem[Obj(Q)] == Object(Cells(run.q), true, false)
    && mem[Obj(K)] == Object(Cells(run.k), true, false)
    && mem[Obj(V)] == Object(Cells(run.v), true, false)
    && |mem[Obj(Out)].cells| == |run.q| && !mem[Obj(Out)].readable && mem[Obj(Out)].writable
  }

  function DeviceContext(j: Job): (ctx: Context)
    ensures ctx.fm == j.fm
  {
    Context(j.fm, map[BlockId(X).Encoded() := j.bx, BlockId(Z).Encoded() := j.bz, BlockDim(X).Encoded() := BLOCK,
                      ThreadId(X).Encoded() := j.tx, ThreadId(Y).Encoded() := j.ty])
  }

  function AttentionKernelFor(j: Job): Kernel<Reg, Label> {
    Kernel(AttentionBlocks(TILE), DeviceContext(j))
  }

  /** What every block after the entry may rely on. */
  ghost predicate Row(j: Job, e: Env) {
    && Has(e, Base(Q), AddrV(Obj(Q), 0)) && Has(e, Base(K), AddrV(Obj(K), 0))
    && Has(e, Base(V), AddrV(Obj(V), 0)) && Has(e, Base(Out), AddrV(Obj(Out), 0))
    && Has(e, FieldValue(Sequence), U(j.run.sequence)) && Has(e, FieldValue(HeadDim), U(j.run.head_dim))
    && Has(e, Query, U(j.QueryRow())) && Has(e, DimTileEnd, U(j.TileEnd())) && Has(e, BlockDimX, U(BLOCK))
  }

  ghost predicate InDim(j: Job, e: Env, dim: nat) {
    Row(j, e) && Has(e, Dim, U(dim)) && dim < j.run.head_dim && dim < j.TileEnd() && j.QueryRow() < j.run.sequence
  }

  // ----- arithmetic on machine integers -----

  lemma WrapSmall(n: nat)
    requires n < 0x1_0000_0000
    ensures FromSigned(32, n) == U(n) && FromSigned(64, n) == IntV(64, n)
  {
  }

  lemma SignedRoundTrip(n: int)
    requires R.FitsI32(n)
    ensures S(n).width == 32 && SignedOf(32, S(n).bits) == n && HasType(S(n), I32)
    ensures FitsSigned(32, n)
  {
  }

  lemma SextByte(x: int)
    requires R.IsI8(x)
    ensures FromSigned(8, x).bits < 256 && SignedOf(8, FromSigned(8, x).bits) == x && HasType(FromSigned(8, x), I8)
  {
  }

  // ----- matrix addresses -----

  function AddressEnv(e: Env, a: Access, obj: nat, offset: nat, index: nat): Env {
    e[RowOffset(a) := U(offset)][Index32(a) := U(index)][Index(a) := IntV(64, index)][CellPtr(a) := AddrV(obj, index)]
  }

  lemma AddressExec(j: Job, mem: Memory, e: Env, log: Log, a: Access, base: Buffer,
                    row: Operand<Reg>, col: Operand<Reg>, r: nat, c: nat)
    requires j.Fits() && LaunchMemory(j.run, mem) && Row(j, e)
    requires Eval(j.fm, e, row, I32) == Some(U(r)) && Eval(j.fm, e, col, I32) == Some(U(c))
    requires col != Ref(RowOffset(a)) && r < j.run.sequence && c < j.run.head_dim
    ensures Walk(DeviceContext(j), mem, AddressOps(a, base, row, col), 0, Frame(e, log)).At(
              4, Frame(AddressEnv(e, a, Obj(base), r * j.run.head_dim, R.Index(r, c, j.run.head_dim)), log))
  {
    hide Walk.At, Row, LaunchMemory, Job.Fits, R.Index, IntBinary, DeviceContext, FromSigned;
    var w := Walk(DeviceContext(j), mem, AddressOps(a, base, row, col), 0, Frame(e, log));
    var offset, index := r * j.run.head_dim, R.Index(r, c, j.run.head_dim);
    WalkStart(w);
    AddressArithmetic(j, mem, e, base, r, c);
    StepInt(w, 0, w.from, r, j.run.head_dim, U(offset));
    var e1 := e[RowOffset(a) := U(offset)];
    StepInt(w, 1, Frame(e1, log), offset, c, U(index));
    var e2 := e1[Index32(a) := U(index)];
    StepCast(w, 2, Frame(e2, log), U(index), IntV(64, index));
    StepGep(w, 3, Frame(e2[Index(a) := IntV(64, index)], log), Obj(base), index);
  }

  /** The address arithmetic of element (r, c) does not wrap and stays inside the buffer. */
  lemma AddressArithmetic(j: Job, mem: Memory, e: Env, base: Buffer, r: nat, c: nat)
    requires j.Fits() && LaunchMemory(j.run, mem) && Row(j, e) && r < j.run.sequence && c < j.run.head_dim
    ensures var offset, index := r * j.run.head_dim, R.Index(r, c, j.run.head_dim);
            && IntBinary(Mul, 32, r, j.run.head_dim, Wrap) == Some(U(offset))
            && IntBinary(Add, 32, offset, c, Wrap) == Some(U(index))
            && FromSigned(64, index) == IntV(64, index)
            && Obj(base) in mem && index < |mem[Obj(base)].cells| && index < I32_LIMIT
    ensures Has(e, FieldValue(HeadDim), U(j.run.head_dim)) && Has(e, Base(base), AddrV(Obj(base), 0))
  {
    hide R.DotsFit, R.WellTyped, Floats.FloatModel.Valid;
    var offset, index := r * j.run.head_dim, R.Index(r, c, j.run.head_dim);
    R.IndexInRange(r, c, j.run.sequence, j.run.head_dim);
    WrapSmall(offset);
    WrapSmall(index);
  }

  // ----- matrix loads -----

  function LoadEnv(e: Env, a: Access, obj: nat, offset: nat, index: nat, x: int): Env {
    AddressEnv(e, a, obj, offset, index)[LoadedI8(a) := FromSigned(8, x)][LoadedI32(a) := S(x)]
  }

  function Source(run: R.AttentionRun, b: Buffer): seq<int>
    requires !b.Out?
  {
    match b case Q => run.q case K => run.k case V => run.v
  }

  /** One byte loaded and sign-extended. */
  lemma MatrixLoadExec(j: Job, mem: Memory, e: Env, log: Log, a: Access, base: Buffer,
                       row: Operand<Reg>, col: Operand<Reg>, r: nat, c: nat, x: int)
    requires j.Fits() && LaunchMemory(j.run, mem) && Row(j, e) && !base.Out?
    requires Eval(j.fm, e, row, I32) == Some(U(r)) && Eval(j.fm, e, col, I32) == Some(U(c))
    requires col != Ref(RowOffset(a)) && r < j.run.sequence && c < j.run.head_dim
    requires R.Index(r, c, j.run.head_dim) < |Source(j.run, base)|
             && x == Source(j.run, base)[R.Index(r, c, j.run.head_dim)]
    ensures Walk(DeviceContext(j), mem, MatrixLoadOps(a, base, row, col), 0, Frame(e, log)).At(
              6, Frame(LoadEnv(e, a, Obj(base), r * j.run.head_dim, R.Index(r, c, j.run.head_dim), x),
                       log.(bytesRead := log.bytesRead + 1)))
  {
    hide R.Index, Walk.At, CastValue, Row, LaunchMemory, Job.Fits, AddressOps, FromSigned, Source, DeviceContext, Eval;
    var f := Frame(e, log);
    var w := Walk(DeviceContext(j), mem, MatrixLoadOps(a, base, row, col), 0, f);
    var offset, index := r * j.run.head_dim, R.Index(r, c, j.run.head_dim);
    AddressExec(j, mem, e, log, a, base, row, col, r, c);
    LoadedCell(j, mem, base, index);
    WalkStart(w);
    var addr := AddressEnv(e, a, Obj(base), offset, index);
    var g := Frame(addr, log);
    StepMany(w, 0, f, Walk(w.ctx, mem, AddressOps(a, base, row, col), 0, f), g);
    StepLoad(w, 4, g, Obj(base), index);
    var loaded := addr[LoadedI8(a) := FromSigned(8, x)];
    EvalRegister(j.fm, loaded, LoadedI8(a), I8);
    StepCast(w, 5, Frame(loaded, Record(log, Loaded(Obj(base), index, I8))), FromSigned(8, x), S(x));
  }

  lemma EvalRegister(fm: Floats.FloatModel, e: Env, r: Reg, ty: LlvmType)
    requires r in e && HasType(e[r], ty)
    ensures Eval(fm, e, Ref(r), ty) == Some(e[r])
  {
  }

  /** An input cell is readable, holds its byte, and sign-extends to its value. */
  lemma LoadedCell(j: Job, mem: Memory, b: Buffer, index: nat)
    requires j.Fits() && LaunchMemory(j.run, mem) && !b.Out? && index < |Source(j.run, b)|
    ensures var x := Source(j.run, b)[index];
            && Obj(b) in mem && mem[Obj(b)].readable && index < |mem[Obj(b)].cells|
            && mem[Obj(b)].cells[index] == FromSigned(8, x) && HasType(FromSigned(8, x), I8)
            && CastValue(j.fm, Sext, FromSigned(8, x), I32) == Some(S(x))
  {
    hide R.DotsFit, Floats.FloatModel.Valid;
    SextByte(Source(j.run, b)[index]);
  }

  /** Multiplications and byte loads added to a log. */
  function Work(log: Log, macs: nat, bytes: nat): Log {
    log.(macs := log.macs + macs, bytesRead := log.bytesRead + bytes)
  }

  // ----- one step of a dot product -----

  /** Registers written inside the dot loop of a phase. */
  predicate DotTemp(p: Phase, r: Reg) {
    || ((r.RowOffset? || r.Index32? || r.Index? || r.CellPtr? || r.LoadedI8? || r.LoadedI32?)
        && (r.access == DotQ(p) || r.access == DotK(p)))
    || ((r.QkProduct? || r.Depth? || r.Dot? || r.DepthNext? || r.DotNext? || r.HasDepth?) && r.phase == p)
    || (r.Score0F32? && p.Score0?)
  }

  ghost predicate Keeps(p: Phase, e: Env, e': Env) {
    forall r :: r in e && !DotTemp(p, r) ==> Has(e', r, e[r])
  }

  lemma KeepsRow(j: Job, p: Phase, e: Env, e': Env)
    requires Row(j, e) && Keeps(p, e, e')
    ensures Row(j, e')
  {
  }

  predicate AccessTemp(a: Access, r: Reg) {
    r == RowOffset(a) || r == Index32(a) || r == Index(a) || r == CellPtr(a) || r == LoadedI8(a) || r == LoadedI32(a)
  }

  /** `e'` differs from `e` at most in the temporaries of one access. */
  ghost predicate KeepsBut(a: Access, e: Env, e': Env) {
    forall r :: r in e && !AccessTemp(a, r) ==> Has(e', r, e[r])
  }

  lemma LoadFrame(e: Env, a: Access, obj: nat, offset: nat, index: nat, x: int)
    ensures KeepsBut(a, e, LoadEnv(e, a, obj, offset, index, x))
    ensures Has(LoadEnv(e, a, obj, offset, index, x), LoadedI32(a), S(x))
  {
    hide FromSigned;
  }

  lemma LoadInto(j: Job, mem: Memory, e: Env, log: Log, a: Access, base: Buffer,
                 row: Operand<Reg>, col: Operand<Reg>, r: nat, c: nat) returns (e': Env, x: int)
    requires j.Fits() && LaunchMemory(j.run, mem) && Row(j, e) && !base.Out?
    requires Eval(j.fm, e, row, I32) == Some(U(r)) && Eval(j.fm, e, col, I32) == Some(U(c))
    requires col != Ref(RowOffset(a)) && r < j.run.sequence && c < j.run.head_dim
    ensures R.Index(r, c, j.run.head_dim) < |Source(j.run, base)|
            && x == Source(j.run, base)[R.Index(r, c, j.run.head_dim)] && R.IsI8(x)
    ensures Walk(DeviceContext(j), mem, MatrixLoadOps(a, base, row, col), 0, Frame(e, log)).At(
              6, Frame(e', Work(log, 0, 1)))
    ensures Has(e', LoadedI32(a), S(x)) && KeepsBut(a, e, e')
  {
    hide Walk.At, LaunchMemory, Row, Job.Fits, LoadEnv, KeepsBut, MatrixLoadOps, FromSigned, R.Index, Source, Eval;
    SourceIndex(j, base, r, c);
    var index := R.Index(r, c, j.run.head_dim);
    x := Source(j.run, base)[index];
    MatrixLoadExec(j, mem, e, log, a, base, row, col, r, c, x);
    e' := LoadEnv(e, a, Obj(base), r * j.run.head_dim, index, x);
    LoadFrame(e, a, Obj(base), r * j.run.head_dim, index, x);
  }

  lemma SourceIndex(j: Job, b: Buffer, r: nat, c: nat)
    requires j.Fits() && !b.Out? && r < j.run.sequence && c < j.run.head_dim
    ensures R.Index(r, c, j.run.head_dim) < |Source(j.run, b)|
    ensures R.IsI8(Source(j.run, b)[R.Index(r, c, j.run.head_dim)])
  {
    hide R.DotsFit, Floats.FloatModel.Valid;
    R.IndexInRange(r, c, j.run.sequence, j.run.head_dim);
  }

  lemma LoadKeeps(p: Phase, e: Env, e': Env, a: Access)
    requires a == DotQ(p) || a == DotK(p)
    requires KeepsBut(a, e, e')
    ensures Keeps(p, e, e')
  {
  }

  lemma KeepsTrans(p: Phase, a: Env, b: Env, c: Env)
    requires Keeps(p, a, b) && Keeps(p, b, c)
    ensures Keeps(p, a, c)
  {
    hide DotTemp;
  }

  ghost predicate Ready(j: Job, mem: Memory, e: Env) {
    j.Fits() && LaunchMemory(j.run, mem) && Row(j, e) && j.QueryRow() < j.run.sequence
  }

  /** The exact partial dot product of the thread's query with a key. */
  function Partial(j: Job, key: nat, n: nat): int
    requires R.Accepted(j.run) && j.QueryRow() < j.run.sequence && key < j.run.sequence && n <= j.run.head_dim
  {
    R.Dot(j.run, j.QueryRow(), key, n)
  }

  lemma PartialFits(j: Job, key: nat, n: nat)
    requires j.Fits() && j.QueryRow() < j.run.sequence && key < j.run.sequence && n <= j.run.head_dim
    ensures R.FitsI32(Partial(j, key, n))
  {
    hide R.Dot, R.Accepted, R.WellTyped;
    assert R.PairFits(j.run, j.QueryRow(), key);
  }

  /** The two signed steps of an accumulation stay within 32 bits. */
  lemma MacArithmetic(x: int, y: int, acc: int)
    requires R.IsI8(x) && R.IsI8(y) && R.FitsI32(acc) && R.FitsI32(acc + x * y)
    ensures S(x).IntV? && S(x).width == 32 && S(y).IntV? && S(y).width == 32 && S(acc).IntV? && S(acc).width == 32
    ensures S(x * y).IntV? && S(x * y).width == 32 && S(acc + x * y).IntV? && S(acc + x * y).width == 32
    ensures HasType(S(x), I32) && HasType(S(y), I32) && HasType(S(acc), I32) && HasType(S(x * y), I32)
    ensures IntBinary(Mul, 32, S(x).bits, S(y).bits, Nsw) == Some(S(x * y))
    ensures IntBinary(Add, 32, S(acc).bits, S(x * y).bits, Nsw) == Some(S(acc + x * y))
  {
    R.I8Product(x, y);
    SignedRoundTrip(x);
    SignedRoundTrip(y);
    SignedRoundTrip(acc);
    SignedRoundTrip(x * y);
    SignedRoundTrip(acc + x * y);
    AddWraps(acc, x * y);
  }

  lemma AddWraps(a: int, b: int)
    requires R.FitsI32(a) && R.FitsI32(b) && R.FitsI32(a + b)
    ensures FromSigned(32, S(a).bits + S(b).bits) == S(a + b)
  {
  }

  lemma QkDotShape(p: Phase, key: Operand<Reg>)
    ensures var ops := QkDotOps(p, key);
            && |ops| == 15
            && ops[0..6] == MatrixLoadOps(DotQ(p), Q, Ref(Query), Ref(Depth(p)))
            && ops[6..12] == MatrixLoadOps(DotK(p), K, key, Ref(Depth(p)))
            && ops[12] == BinaryNsw(QkProduct(p), Mul, Ref(LoadedI32(DotQ(p))), Ref(LoadedI32(DotK(p))))
            && ops[13] == BinaryNsw(DotNext(p), Add, Ref(Dot(p)), Ref(QkProduct(p)))
            && ops[14] == BinaryOf(DepthNext(p), Add, Ref(Depth(p)), ONE)
  {
    hide MatrixLoadOps;
  }

  /** The two byte loads of a step. */
  lemma LoadPair(j: Job, mem: Memory, p: Phase, key: nat, e: Env, log: Log, n: nat) returns (e': Env, x: int, y: int)
    requires Ready(j, mem, e) && key < j.run.sequence && n < j.run.head_dim
    requires Eval(j.fm, e, KeyOf(p), I32) == Some(U(key)) && Has(e, Depth(p), U(n))
    ensures Walk(DeviceContext(j), mem, QkDotOps(p, KeyOf(p)), 0, Frame(e, log)).At(12, Frame(e', Work(log, 0, 2)))
    ensures R.IsI8(x) && R.IsI8(y) && Partial(j, key, n + 1) == Partial(j, key, n) + x * y
    ensures Has(e', LoadedI32(DotQ(p)), S(x)) && Has(e', LoadedI32(DotK(p)), S(y)) && Has(e', Depth(p), U(n))
    ensures Dot(p) in e ==> Has(e', Dot(p), e[Dot(p)])
    ensures Keeps(p, e, e')
  {
    hide Walk.At, LaunchMemory, Row, Job.Fits, R.Index, R.Accepted, Partial, FromSigned, MatrixLoadOps, QkDotOps, Keeps,
         KeepsBut, DotTemp, DeviceContext, Floats.FloatModel.Valid;
    var f := Frame(e, log);
    var w := Walk(DeviceContext(j), mem, QkDotOps(p, KeyOf(p)), 0, f);
    WalkStart(w);
    FitsBasics(j);
    QkDotShape(p, KeyOf(p));
    RowQuery(j, e);
    var e1;
    e1, x := LoadInto(j, mem, e, log, DotQ(p), Q, Ref(Query), Ref(Depth(p)), j.QueryRow(), n);
    LoadKeeps(p, e, e1, DotQ(p));
    LoadKeepsDepth(p, key, j.fm, e, e1, DotQ(p), n);
    KeepsRow(j, p, e, e1);
    var g1 := Frame(e1, Work(log, 0, 1));
    e', y := LoadInto(j, mem, e1, g1.log, DotK(p), K, KeyOf(p), Ref(Depth(p)), key, n);
    LoadKeeps(p, e1, e', DotK(p));
    LoadKeepsDepth(p, key, j.fm, e1, e', DotK(p), n);
    KeepsTrans(p, e, e1, e');
    PartialNext(j, key, n);
    StepMany(w, 0, f, Walk(w.ctx, mem, MatrixLoadOps(DotQ(p), Q, Ref(Query), Ref(Depth(p))), 0, f), g1);
    StepMany(w, 6, g1, Walk(w.ctx, mem, MatrixLoadOps(DotK(p), K, KeyOf(p), Ref(Depth(p))), 0, g1),
             Frame(e', Work(log, 0, 2)));
  }

  lemma FitsBasics(j: Job)
    requires j.Fits()
    ensures R.Accepted(j.run) && j.fm.Valid()
  {
  }

  lemma RowQuery(j: Job, e: Env)
    requires Row(j, e)
    ensures Eval(j.fm, e, Ref(Query), I32) == Some(U(j.QueryRow()))
  {
  }

  /** A load of either matrix leaves the depth, the key, the accumulator and the other load alone. */
  lemma LoadKeepsDepth(p: Phase, key: nat, fm: Floats.FloatModel, e: Env, e': Env, a: Access, n: nat)
    requires KeepsBut(a, e, e') && (a == DotQ(p) || a == DotK(p))
    requires Eval(fm, e, KeyOf(p), I32) == Some(U(key)) && Has(e, Depth(p), U(n))
    ensures Eval(fm, e', KeyOf(p), I32) == Some(U(key))
    ensures Has(e', Depth(p), U(n)) && Eval(fm, e', Ref(Depth(p)), I32) == Some(U(n))
    ensures Dot(p) in e ==> Has(e', Dot(p), e[Dot(p)])
    ensures a == DotK(p) && LoadedI32(DotQ(p)) in e ==> Has(e', LoadedI32(DotQ(p)), e[LoadedI32(DotQ(p))])
  {
  }

  lemma PartialNext(j: Job, key: nat, n: nat)
    requires R.Accepted(j.run) && j.QueryRow() < j.run.sequence && key < j.run.sequence && n < j.run.head_dim
    ensures var qi, ki := R.Index(j.QueryRow(), n, j.run.head_dim), R.Index(key, n, j.run.head_dim);
            qi < |j.run.q| && ki < |j.run.k|
            && Partial(j, key, n + 1) == Partial(j, key, n) + j.run.q[qi] * j.run.k[ki]
  {
    R.IndexInRange(j.QueryRow(), n, j.run.sequence, j.run.head_dim);
    R.IndexInRange(key, n, j.run.sequence, j.run.head_dim);
  }

  lemma Literals(fm: Floats.FloatModel, e: Env)
    requires fm.Valid()
    ensures Eval(fm, e, ZERO, I32) == Some(U(0)) && Eval(fm, e, ONE, I32) == Some(U(1))
    ensures Eval(fm, e, FZERO, LlvmType.F32) == Some(FloatV(Floats.Fin(0.0)))
    ensures Eval(fm, e, Lit(FloatLit(127.0)), LlvmType.F32) == Some(FloatV(Floats.Fin(127.0)))
    ensures Eval(fm, e, Lit(FloatLit(-128.0)), LlvmType.F32) == Some(FloatV(Floats.Fin(-128.0)))
    ensures Eval(fm, e, Lit(IntLit(TILE)), I32) == Some(U(TILE))
  {
    assert fm.ExactAt(0) && fm.ExactAt(127) && fm.ExactAt(-128);
  }

  /** The three arithmetic operations that end a step, on machine words. */
  lemma MacSteps(w: Walk<Reg, Label>, p: Phase, e: Env, log: Log, x: nat, y: nat, prod: nat, acc: nat, sum: nat, n: nat)
    requires w.ops == QkDotOps(p, KeyOf(p)) && w.At(12, Frame(e, log)) && w.ctx.fm.Valid()
    requires Has(e, LoadedI32(DotQ(p)), IntV(32, x)) && Has(e, LoadedI32(DotK(p)), IntV(32, y))
    requires Has(e, Dot(p), IntV(32, acc)) && Has(e, Depth(p), U(n))
    requires IntBinary(Mul, 32, x, y, Nsw) == Some(IntV(32, prod))
    requires IntBinary(Add, 32, acc, prod, Nsw) == Some(IntV(32, sum))
    requires IntBinary(Add, 32, n, 1, Wrap) == Some(U(n + 1))
    ensures w.At(15, Frame(e[QkProduct(p) := IntV(32, prod)][DotNext(p) := IntV(32, sum)][DepthNext(p) := U(n + 1)],
                           Work(log, 1, 0)))
  {
    QkDotShape(p, KeyOf(p));
    var e3 := e[QkProduct(p) := IntV(32, prod)];
    var e4 := e3[DotNext(p) := IntV(32, sum)];
    Literals(w.ctx.fm, e4);
    hide Walk.At, IntBinary, QkDotOps, Floats.FloatModel.Valid;
    StepInt(w, 12, Frame(e, log), x, y, IntV(32, prod));
    StepInt(w, 13, Frame(e3, Work(log, 1, 0)), acc, prod, IntV(32, sum));
    StepInt(w, 14, Frame(e4, Work(log, 1, 0)), n, 1, U(n + 1));
  }

  lemma QkDotExec(j: Job, mem: Memory, p: Phase, key: nat, e: Env, log: Log, n: nat) returns (e': Env)
    requires Ready(j, mem, e) && key < j.run.sequence && n < j.run.head_dim
    requires Eval(j.fm, e, KeyOf(p), I32) == Some(U(key))
    requires Has(e, Depth(p), U(n)) && Has(e, Dot(p), S(Partial(j, key, n)))
    ensures Walk(DeviceContext(j), mem, QkDotOps(p, KeyOf(p)), 0, Frame(e, log)).At(15, Frame(e', Work(log, 1, 2)))
    ensures Has(e', DepthNext(p), U(n + 1)) && Has(e', DotNext(p), S(Partial(j, key, n + 1)))
    ensures Keeps(p, e, e')
  {
    hide Walk.At, LaunchMemory, Row, Job.Fits, Partial, FromSigned, QkDotOps, Keeps, IntBinary, DeviceContext, R.Accepted,
         KeyOf, Eval, Floats.FloatModel.Valid;
    var w := Walk(DeviceContext(j), mem, QkDotOps(p, KeyOf(p)), 0, Frame(e, log));
    FitsBasics(j);
    var e2, x, y := LoadPair(j, mem, p, key, e, log, n);
    var acc := Partial(j, key, n);
    PartialFits(j, key, n);
    PartialFits(j, key, n + 1);
    MacArithmetic(x, y, acc);
    CountUp(j, n);
    MacSteps(w, p, e2, Work(log, 0, 2), S(x).bits, S(y).bits, S(x * y).bits, S(acc).bits, S(acc + x * y).bits, n);
    e' := e2[QkProduct(p) := S(x * y)][DotNext(p) := S(acc + x * y)][DepthNext(p) := U(n + 1)];
    UpdatesKeep(p, e, e2, S(x * y), S(acc + x * y), U(n + 1));
  }

  lemma CountUp(j: Job, n: nat)
    requires j.Fits() && n < j.run.head_dim
    ensures IntBinary(Add, 32, n, 1, Wrap) == Some(U(n + 1)) && n + 1 < I32_LIMIT
  {
    MulLe(1, j.run.sequence, j.run.head_dim);
  }

  lemma DotTemps(p: Phase)
    ensures DotTemp(p, QkProduct(p)) && DotTemp(p, DotNext(p)) && DotTemp(p, DepthNext(p))
    ensures DotTemp(p, Depth(p)) && DotTemp(p, Dot(p)) && DotTemp(p, HasDepth(p)) && DotTemp(Score0, Score0F32)
  {
  }

  lemma UpdatesKeep(p: Phase, e: Env, e': Env, a: Val, b: Val, c: Val)
    requires Keeps(p, e, e')
    ensures Keeps(p, e, e'[QkProduct(p) := a][DotNext(p) := b][DepthNext(p) := c])
  {
    hide DotTemp, Keeps;
    DotTemps(p);
    UpdateKeeps(p, e, e', QkProduct(p), a);
    UpdateKeeps(p, e, e'[QkProduct(p) := a], DotNext(p), b);
    UpdateKeeps(p, e, e'[QkProduct(p) := a][DotNext(p) := b], DepthNext(p), c);
  }

  lemma UpdateKeeps(p: Phase, e: Env, e': Env, r: Reg, v: Val)
    requires Keeps(p, e, e') && DotTemp(p, r)
    ensures Keeps(p, e, e'[r := v])
  {
    hide DotTemp;
  }
}
