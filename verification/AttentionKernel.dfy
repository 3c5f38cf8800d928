/** The attention-prefill kernel as the code generator builds it
    (crates/vortex-codegen/src/codegen/attention_mlir.rs): builders push operations into blocks, and
    functions say what each block then holds. */
module AttentionKernel {
  import opened Options
  import opened DeviceIr

  /** The three dot-product loops, named by their register prefix. */
  datatype Phase = Score0 | Max | Softmax

  datatype Field = QAddr | KAddr | VAddr | OutAddr | Sequence | HeadDim | QueryTile | KeyTile

  datatype Buffer = Q | K | V | Out

  /** A matrix access; its temporaries share the prefix. */
  datatype Access = DotQ(phase: Phase) | DotK(phase: Phase) | SoftmaxV | OutStore

  datatype Reg =
    | Arg
    | FieldPtr(field: Field) | FieldValue(field: Field)
    | Base(buffer: Buffer)
    | BlockX | BlockX64 | BlockXRaw | BlockZ | BlockZ64 | BlockZRaw | BlockDimX | BlockDimX64 | BlockDimXRaw
    | ThreadX | ThreadX64 | ThreadY | ThreadY64
    | QueryBase | Query | DimTileBase | DimStart | DimTileEnd | QueryOob
    | Dim | DimLtHead | DimLtTileEnd | HasDim | DimNext
    | RowOffset(access: Access) | Index32(access: Access) | Index(access: Access) | CellPtr(access: Access)
    | LoadedI8(access: Access) | LoadedI32(access: Access)
    | QkProduct(phase: Phase) | Depth(phase: Phase) | Dot(phase: Phase)
    | DepthNext(phase: Phase) | DotNext(phase: Phase) | HasDepth(phase: Phase)
    | Score0F32
    | MaxKey | MaxScore | MaxHasKey | MaxCandidate | MaxIsLarger | MaxScoreNext | MaxKeyNext
    | SoftmaxKey | Denom | Numer | SoftmaxHasKey | SoftmaxScore | SoftmaxShifted | SoftmaxWeight
    | SoftmaxVF32 | SoftmaxWeightedV | DenomNext | NumerNext | SoftmaxKeyNext
    | OutRaw | OutGtMax | OutHi | OutLtMin | OutClamped | OutI32 | OutI8

  datatype Label =
    | Entry | DimLoop | DotLoop(phase: Phase) | DotBody(phase: Phase)
    | MaxKeyLoop | MaxUpdate | SoftmaxKeyLoop | SoftmaxUpdate | StoreOutput | Exit

  type KOp = Op<Reg, Label>
  type KBlock = DeviceIr.Block<Reg, Label>

  const ZERO: Operand<Reg> := Lit(IntLit(0))
  const ONE: Operand<Reg> := Lit(IntLit(1))
  const FZERO: Operand<Reg> := Lit(FloatLit(0.0))

  function BinaryOf(result: Reg, op: BinaryOp, lhs: Operand<Reg>, rhs: Operand<Reg>): KOp {
    Binary(result, op, I32, lhs, rhs, Wrap)
  }

  function BinaryNsw(result: Reg, op: BinaryOp, lhs: Operand<Reg>, rhs: Operand<Reg>): KOp {
    Binary(result, op, I32, lhs, rhs, Nsw)
  }

  function FloatOf(result: Reg, op: FloatBinaryOp, lhs: Operand<Reg>, rhs: Operand<Reg>): KOp {
    FloatBinary(result, op, LlvmType.F32, lhs, rhs)
  }

  // ----- what the emitters append -----

  function FieldType(f: Field): LlvmType {
    if f in {QAddr, KAddr, VAddr, OutAddr} then I64 else I32
  }

  function FieldIndex(f: Field): nat {
    match f
    case QAddr => 0 case KAddr => 1 case VAddr => 2 case OutAddr => 3
    case Sequence => 4 case HeadDim => 5 case QueryTile => 6 case KeyTile => 7
  }

  function FieldLoad(f: Field): seq<KOp> {
    [StructFieldPtr(FieldPtr(f), Arg, FieldIndex(f)), Load(FieldValue(f), FieldType(f), FieldPtr(f))]
  }

  function BufferOf(f: Field): Buffer
    requires f in {QAddr, KAddr, VAddr, OutAddr}
  {
    match f case QAddr => Q case KAddr => K case VAddr => V case OutAddr => Out
  }

  function PointerLoad(f: Field): seq<KOp>
    requires f in {QAddr, KAddr, VAddr, OutAddr}
  {
    FieldLoad(f) + [IntToPtr(Base(BufferOf(f)), I64, Ref(FieldValue(f)))]
  }

  function ArgOps(): seq<KOp> {
    PointerLoad(QAddr) + PointerLoad(KAddr) + PointerLoad(VAddr) + PointerLoad(OutAddr)
    + FieldLoad(Sequence) + FieldLoad(HeadDim) + FieldLoad(QueryTile) + FieldLoad(KeyTile)
  }

  function CoordinateOps(tile: nat): seq<KOp> {
    [ CtaCsrI32(BlockX64, Some(BlockXRaw), BlockX, BlockId(X), true),
      CtaCsrI32(BlockZ64, Some(BlockZRaw), BlockZ, BlockId(Z), true),
      CtaCsrI32(BlockDimX64, Some(BlockDimXRaw), BlockDimX, BlockDim(X), true),
      CtaCsrI32(ThreadX64, None, ThreadX, ThreadId(X), false),
      CtaCsrI32(ThreadY64, None, ThreadY, ThreadId(Y), false),
      BinaryOf(QueryBase, Mul, Ref(BlockX), Ref(FieldValue(QueryTile))),
      BinaryOf(Query, Add, Ref(QueryBase), Ref(ThreadY)),
      BinaryOf(DimTileBase, Mul, Ref(BlockZ), Lit(IntLit(tile))),
      BinaryOf(DimStart, Add, Ref(DimTileBase), Ref(ThreadX)),
      BinaryOf(DimTileEnd, Add, Ref(DimTileBase), Lit(IntLit(tile))) ]
  }

  /** Address of element (row, col) of a row-major matrix: 32-bit index arithmetic, then a zero extension. */
  function AddressOps(a: Access, base: Buffer, row: Operand<Reg>, col: Operand<Reg>): (ops: seq<KOp>)
    ensures |ops| == 4
  {
    [ BinaryOf(RowOffset(a), Mul, row, Ref(FieldValue(HeadDim))),
      BinaryOf(Index32(a), Add, Ref(RowOffset(a)), col),
      Cast(Index(a), Zext, I32, Ref(Index32(a)), I64),
      Gep(CellPtr(a), I8, Base(base), Ref(Index(a)), true) ]
  }

  function MatrixLoadOps(a: Access, base: Buffer, row: Operand<Reg>, col: Operand<Reg>): (ops: seq<KOp>)
    ensures |ops| == 6
  {
    AddressOps(a, base, row, col)
    + [ Load(LoadedI8(a), I8, CellPtr(a)),
        Cast(LoadedI32(a), Sext, I8, Ref(LoadedI8(a)), I32) ]
  }

  function MatrixStoreOps(a: Access, base: Buffer, row: Operand<Reg>, col: Operand<Reg>, value: Operand<Reg>): seq<KOp> {
    AddressOps(a, base, row, col) + [Store(I8, value, CellPtr(a))]
  }

  function QkDotOps(p: Phase, key: Operand<Reg>): seq<KOp> {
    MatrixLoadOps(DotQ(p), Q, Ref(Query), Ref(Depth(p)))
    + MatrixLoadOps(DotK(p), K, key, Ref(Depth(p)))
    + [ BinaryNsw(QkProduct(p), Mul, Ref(LoadedI32(DotQ(p))), Ref(LoadedI32(DotK(p)))),
        BinaryNsw(DotNext(p), Add, Ref(Dot(p)), Ref(QkProduct(p))),
        BinaryOf(DepthNext(p), Add, Ref(Depth(p)), ONE) ]
  }

  // ----- what each block holds -----

  function EntryOps(tile: nat): seq<KOp> {
    ArgOps() + CoordinateOps(tile) + [Icmp(QueryOob, Uge, I32, Ref(Query), Ref(FieldValue(Sequence)))]
  }

  function DimLoopOps(): seq<KOp> {
    [ Phi(Dim, I32, [PhiIncoming(Ref(DimStart), Entry), PhiIncoming(Ref(DimNext), StoreOutput)]),
      Icmp(DimLtHead, Ult, I32, Ref(Dim), Ref(FieldValue(HeadDim))),
      Icmp(DimLtTileEnd, Ult, I32, Ref(Dim), Ref(DimTileEnd)),
      Binary(HasDim, And, I1, Ref(DimLtHead), Ref(DimLtTileEnd), Wrap) ]
  }

  /** The block a dot loop is entered from, and the one it leaves to. */
  function OuterOf(p: Phase): Label {
    match p case Score0 => DimLoop case Max => MaxKeyLoop case Softmax => SoftmaxKeyLoop
  }

  function AfterDot(p: Phase): Label {
    match p case Score0 => MaxKeyLoop case Max => MaxUpdate case Softmax => SoftmaxUpdate
  }

  function KeyOf(p: Phase): Operand<Reg> {
    match p case Score0 => ZERO case Max => Ref(MaxKey) case Softmax => Ref(SoftmaxKey)
  }

  function DotLoopOps(p: Phase): seq<KOp> {
    [ Phi(Depth(p), I32, [PhiIncoming(ZERO, OuterOf(p)), PhiIncoming(Ref(DepthNext(p)), DotBody(p))]),
      Phi(Dot(p), I32, [PhiIncoming(ZERO, OuterOf(p)), PhiIncoming(Ref(DotNext(p)), DotBody(p))]),
      Icmp(HasDepth(p), Ult, I32, Ref(Depth(p)), Ref(FieldValue(HeadDim))) ]
    + (if p.Score0? then [Cast(Score0F32, Sitofp, I32, Ref(Dot(p)), LlvmType.F32)] else [])
  }

  function MaxKeyLoopOps(): seq<KOp> {
    [ Phi(MaxKey, I32, [PhiIncoming(ONE, DotLoop(Score0)), PhiIncoming(Ref(MaxKeyNext), MaxUpdate)]),
      Phi(MaxScore, LlvmType.F32, [PhiIncoming(Ref(Score0F32), DotLoop(Score0)), PhiIncoming(Ref(MaxScoreNext), MaxUpdate)]),
      Icmp(MaxHasKey, Ult, I32, Ref(MaxKey), Ref(FieldValue(Sequence))) ]
  }

  function MaxUpdateOps(): seq<KOp> {
    [ Cast(MaxCandidate, Sitofp, I32, Ref(Dot(Max)), LlvmType.F32),
      Fcmp(MaxIsLarger, Ogt, LlvmType.F32, Ref(MaxCandidate), Ref(MaxScore)),
      Select(MaxScoreNext, Ref(MaxIsLarger), LlvmType.F32, Ref(MaxCandidate), Ref(MaxScore)),
      BinaryOf(MaxKeyNext, Add, Ref(MaxKey), ONE) ]
  }

  function SoftmaxKeyLoopOps(): seq<KOp> {
    [ Phi(SoftmaxKey, I32, [PhiIncoming(ZERO, MaxKeyLoop), PhiIncoming(Ref(SoftmaxKeyNext), SoftmaxUpdate)]),
      Phi(Denom, LlvmType.F32, [PhiIncoming(FZERO, MaxKeyLoop), PhiIncoming(Ref(DenomNext), SoftmaxUpdate)]),
      Phi(Numer, LlvmType.F32, [PhiIncoming(FZERO, MaxKeyLoop), PhiIncoming(Ref(NumerNext), SoftmaxUpdate)]),
      Icmp(SoftmaxHasKey, Ult, I32, Ref(SoftmaxKey), Ref(FieldValue(Sequence))) ]
  }

  function SoftmaxUpdateOps(): seq<KOp> {
    [ Cast(SoftmaxScore, Sitofp, I32, Ref(Dot(Softmax)), LlvmType.F32),
      FloatOf(SoftmaxShifted, FSub, Ref(SoftmaxScore), Ref(MaxScore)),
      FloatExp(SoftmaxWeight, LlvmType.F32, Ref(SoftmaxShifted)) ]
    + MatrixLoadOps(SoftmaxV, V, Ref(SoftmaxKey), Ref(Dim))
    + [ Cast(SoftmaxVF32, Sitofp, I32, Ref(LoadedI32(SoftmaxV)), LlvmType.F32),
        FloatOf(SoftmaxWeightedV, FMul, Ref(SoftmaxWeight), Ref(SoftmaxVF32)),
        FloatOf(DenomNext, FAdd, Ref(Denom), Ref(SoftmaxWeight)),
        FloatOf(NumerNext, FAdd, Ref(Numer), Ref(SoftmaxWeightedV)),
        BinaryOf(SoftmaxKeyNext, Add, Ref(SoftmaxKey), ONE) ]
  }

  function StoreOutputOps(): seq<KOp> {
    [ FloatOf(OutRaw, FDiv, Ref(Numer), Ref(Denom)),
      Fcmp(OutGtMax, Ogt, LlvmType.F32, Ref(OutRaw), Lit(FloatLit(127.0))),
      Select(OutHi, Ref(OutGtMax), LlvmType.F32, Lit(FloatLit(127.0)), Ref(OutRaw)),
      Fcmp(OutLtMin, Olt, LlvmType.F32, Ref(OutHi), Lit(FloatLit(-128.0))),
      Select(OutClamped, Ref(OutLtMin), LlvmType.F32, Lit(FloatLit(-128.0)), Ref(OutHi)),
      Cast(OutI32, Fptosi, LlvmType.F32, Ref(OutClamped), I32),
      Cast(OutI8, Trunc, I32, Ref(OutI32), I8) ]
    + MatrixStoreOps(OutStore, Out, Ref(Query), Ref(Dim), Ref(OutI8))
    + [ BinaryOf(DimNext, Add, Ref(Dim), Ref(BlockDimX)) ]
  }

  /** The block with a given label. */
  function BlockOf(l: Label, tile: nat): KBlock {
    match l
    case Entry => Block(l, EntryOps(tile), CondBr(Ref(QueryOob), Exit, DimLoop))
    case DimLoop => Block(l, DimLoopOps(), CondBr(Ref(HasDim), DotLoop(Score0), Exit))
    case DotLoop(p) => Block(l, DotLoopOps(p), CondBr(Ref(HasDepth(p)), DotBody(p), AfterDot(p)))
    case DotBody(p) => Block(l, QkDotOps(p, KeyOf(p)), Br(DotLoop(p)))
    case MaxKeyLoop => Block(l, MaxKeyLoopOps(), CondBr(Ref(MaxHasKey), DotLoop(Max), SoftmaxKeyLoop))
    case MaxUpdate => Block(l, MaxUpdateOps(), Br(MaxKeyLoop))
    case SoftmaxKeyLoop => Block(l, SoftmaxKeyLoopOps(), CondBr(Ref(SoftmaxHasKey), DotLoop(Softmax), StoreOutput))
    case SoftmaxUpdate => Block(l, SoftmaxUpdateOps(), Br(SoftmaxKeyLoop))
    case StoreOutput => Block(l, StoreOutputOps(), Br(DimLoop))
    case Exit => Block(l, [], RetVoid)
  }

  const LABELS: seq<Label> := [
    Entry, DimLoop, DotLoop(Score0), DotBody(Score0), MaxKeyLoop, DotLoop(Max), DotBody(Max), MaxUpdate,
    SoftmaxKeyLoop, DotLoop(Softmax), DotBody(Softmax), SoftmaxUpdate, StoreOutput, Exit ]

  /** The kernel: one block per label, in emission order. */
  function AttentionBlocks(tile: nat): seq<KBlock> {
    ScoreBlocks(tile) + SoftmaxBlocks(tile)
  }

  function ScoreBlocks(tile: nat): (s: seq<KBlock>)
    ensures |s| == 8
  {
    [ BlockOf(Entry, tile), BlockOf(DimLoop, tile), BlockOf(DotLoop(Score0), tile), BlockOf(DotBody(Score0), tile),
      BlockOf(MaxKeyLoop, tile), BlockOf(DotLoop(Max), tile), BlockOf(DotBody(Max), tile), BlockOf(MaxUpdate, tile) ]
  }

  function SoftmaxBlocks(tile: nat): (s: seq<KBlock>)
    ensures |s| == 6
  {
    [ BlockOf(SoftmaxKeyLoop, tile), BlockOf(DotLoop(Softmax), tile), BlockOf(DotBody(Softmax), tile),
      BlockOf(SoftmaxUpdate, tile), BlockOf(StoreOutput, tile), BlockOf(Exit, tile) ]
  }

  lemma ScoreBlocksFollow(tile: nat, i: nat)
    requires i < 8
    ensures ScoreBlocks(tile)[i] == BlockOf(LABELS[i], tile)
  {
    hide BlockOf;
  }

  lemma SoftmaxBlocksFollow(tile: nat, i: nat)
    requires i < 6
    ensures SoftmaxBlocks(tile)[i] == BlockOf(LABELS[i + 8], tile)
  {
    hide BlockOf;
  }

  lemma BlocksFollowLabels(tile: nat, i: nat)
    requires i < |LABELS|
    ensures AttentionBlocks(tile)[i] == BlockOf(LABELS[i], tile) && AttentionBlocks(tile)[i].name == LABELS[i]
  {
    hide BlockOf, ScoreBlocks, SoftmaxBlocks;
    BlockName(LABELS[i], tile);
    if i < 8 {
      ScoreBlocksFollow(tile, i);
    } else {
      SoftmaxBlocksFollow(tile, i - 8);
    }
  }

  lemma BlockName(l: Label, tile: nat)
    ensures BlockOf(l, tile).name == l
  {
  }

  lemma LabelListed(l: Label) returns (i: nat)
    ensures i < |LABELS| && LABELS[i] == l
    ensures forall j :: 0 <= j < i ==> LABELS[j] != l
  {
    i := match l
      case Entry => 0 case DimLoop => 1
      case DotLoop(p) => (match p case Score0 => 2 case Max => 5 case Softmax => 9)
      case DotBody(p) => (match p case Score0 => 3 case Max => 6 case Softmax => 10)
      case MaxKeyLoop => 4 case MaxUpdate => 7 case SoftmaxKeyLoop => 8
      case SoftmaxUpdate => 11 case StoreOutput => 12 case Exit => 13;
  }

  lemma {:induction false} LookupFirst<R, L>(blocks: seq<DeviceIr.Block<R, L>>, i: nat)
    requires i < |blocks| && forall j :: 0 <= j < i ==> blocks[j].name != blocks[i].name
    ensures Lookup(blocks, blocks[i].name) == Some(blocks[i])
  {
    if i > 0 {
      LookupFirst(blocks[1..], i - 1);
    }
  }

  /** Every label resolves, to its own block. */
  lemma BlockFound(l: Label, tile: nat)
    ensures Lookup(AttentionBlocks(tile), l) == Some(BlockOf(l, tile))
  {
    var i := LabelListed(l);
    forall j | 0 <= j < |LABELS|
      ensures AttentionBlocks(tile)[j] == BlockOf(LABELS[j], tile) && AttentionBlocks(tile)[j].name == LABELS[j]
    {
      BlocksFollowLabels(tile, j);
    }
    hide BlockOf, LABELS, AttentionBlocks;
    LookupFirst(AttentionBlocks(tile), i);
  }

  // ----- the builders -----

  class Builder {
    static method EmitStructFieldLoad(block: VortexBlock<Reg, Label>, f: Field)
      modifies block
      ensures block.ops == old(block.ops) + FieldLoad(f)
    {
      block.PushOp(StructFieldPtr(FieldPtr(f), Arg, FieldIndex(f)));
      block.PushOp(Load(FieldValue(f), FieldType(f), FieldPtr(f)));
    }

    static method EmitPointerLoad(block: VortexBlock<Reg, Label>, f: Field)
      requires f in {QAddr, KAddr, VAddr, OutAddr}
      modifies block
      ensures block.ops == old(block.ops) + PointerLoad(f)
    {
      EmitStructFieldLoad(block, f);
      block.PushOp(IntToPtr(Base(BufferOf(f)), I64, Ref(FieldValue(f))));
    }

    static method EmitLoadArgs(block: VortexBlock<Reg, Label>)
      modifies block
      ensures block.ops == old(block.ops) + ArgOps()
    {
      EmitPointerLoad(block, QAddr);
      EmitPointerLoad(block, KAddr);
      EmitPointerLoad(block, VAddr);
      EmitPointerLoad(block, OutAddr);
      EmitStructFieldLoad(block, Sequence);
      EmitStructFieldLoad(block, HeadDim);
      EmitStructFieldLoad(block, QueryTile);
      EmitStructFieldLoad(block, KeyTile);
    }

    static method EmitThreadCoordinates(block: VortexBlock<Reg, Label>, tile: nat)
      modifies block
      ensures block.ops == old(block.ops) + CoordinateOps(tile)
    {
      block.PushOp(CtaCsrI32(BlockX64, Some(BlockXRaw), BlockX, BlockId(X), true));
      block.PushOp(CtaCsrI32(BlockZ64, Some(BlockZRaw), BlockZ, BlockId(Z), true));
      block.PushOp(CtaCsrI32(BlockDimX64, Some(BlockDimXRaw), BlockDimX, BlockDim(X), true));
      block.PushOp(CtaCsrI32(ThreadX64, None, ThreadX, ThreadId(X), false));
      block.PushOp(CtaCsrI32(ThreadY64, None, ThreadY, ThreadId(Y), false));
      block.PushOp(BinaryOf(QueryBase, Mul, Ref(BlockX), Ref(FieldValue(QueryTile))));
      block.PushOp(BinaryOf(Query, Add, Ref(QueryBase), Ref(ThreadY)));
      block.PushOp(BinaryOf(DimTileBase, Mul, Ref(BlockZ), Lit(IntLit(tile))));
      block.PushOp(BinaryOf(DimStart, Add, Ref(DimTileBase), Ref(ThreadX)));
      block.PushOp(BinaryOf(DimTileEnd, Add, Ref(DimTileBase), Lit(IntLit(tile))));
    }

    static method EmitAddress(block: VortexBlock<Reg, Label>, a: Access, base: Buffer, row: Operand<Reg>, col: Operand<Reg>)
      modifies block
      ensures block.ops == old(block.ops) + AddressOps(a, base, row, col)
    {
      block.PushOp(BinaryOf(RowOffset(a), Mul, row, Ref(FieldValue(HeadDim))));
      block.PushOp(BinaryOf(Index32(a), Add, Ref(RowOffset(a)), col));
      block.PushOp(Cast(Index(a), Zext, I32, Ref(Index32(a)), I64));
      block.PushOp(Gep(CellPtr(a), I8, Base(base), Ref(Index(a)), true));
    }

    static method EmitMatrixLoad(block: VortexBlock<Reg, Label>, a: Access, base: Buffer, row: Operand<Reg>, col: Operand<Reg>)
      modifies block
      ensures block.ops == old(block.ops) + MatrixLoadOps(a, base, row, col)
    {
      EmitAddress(block, a, base, row, col);
      block.PushOp(Load(LoadedI8(a), I8, CellPtr(a)));
      block.PushOp(Cast(LoadedI32(a), Sext, I8, Ref(LoadedI8(a)), I32));
    }

    static method EmitMatrixStore(block: VortexBlock<Reg, Label>, a: Access, base: Buffer, row: Operand<Reg>, col: Operand<Reg>,
                                  value: Operand<Reg>)
      modifies block
      ensures block.ops == old(block.ops) + MatrixStoreOps(a, base, row, col, value)
    {
      EmitAddress(block, a, base, row, col);
      block.PushOp(Store(I8, value, CellPtr(a)));
    }

    static method EmitQkDotBody(block: VortexBlock<Reg, Label>, p: Phase, key: Operand<Reg>)
      modifies block
      ensures block.ops == old(block.ops) + QkDotOps(p, key)
    {
      EmitMatrixLoad(block, DotQ(p), Q, Ref(Query), Ref(Depth(p)));
      EmitMatrixLoad(block, DotK(p), K, key, Ref(Depth(p)));
      block.PushOp(BinaryNsw(QkProduct(p), Mul, Ref(LoadedI32(DotQ(p))), Ref(LoadedI32(DotK(p)))));
      block.PushOp(BinaryNsw(DotNext(p), Add, Ref(Dot(p)), Ref(QkProduct(p))));
      block.PushOp(BinaryOf(DepthNext(p), Add, Ref(Depth(p)), ONE));
    }

    static method BuildEntry(tile: nat) returns (value: KBlock)
      ensures value == BlockOf(Entry, tile)
    {
      hide ArgOps, CoordinateOps;
      var block := new VortexBlock(Entry, CondBr(Ref(QueryOob), Exit, DimLoop));
      EmitLoadArgs(block);
      EmitThreadCoordinates(block, tile);
      block.PushOp(Icmp(QueryOob, Uge, I32, Ref(Query), Ref(FieldValue(Sequence))));
      value := block.Value();
    }

    static method BuildDimLoop(tile: nat) returns (value: KBlock)
      ensures value == BlockOf(DimLoop, tile)
    {
      var block := new VortexBlock(DimLoop, CondBr(Ref(HasDim), DotLoop(Score0), Exit));
      block.PushOp(Phi(Dim, I32, [PhiIncoming(Ref(DimStart), Entry), PhiIncoming(Ref(DimNext), StoreOutput)]));
      block.PushOp(Icmp(DimLtHead, Ult, I32, Ref(Dim), Ref(FieldValue(HeadDim))));
      block.PushOp(Icmp(DimLtTileEnd, Ult, I32, Ref(Dim), Ref(DimTileEnd)));
      block.PushOp(Binary(HasDim, And, I1, Ref(DimLtHead), Ref(DimLtTileEnd), Wrap));
      value := block.Value();
    }

    static method BuildDotLoop(p: Phase, tile: nat) returns (value: KBlock)
      ensures value == BlockOf(DotLoop(p), tile)
    {
      var block := new VortexBlock(DotLoop(p), CondBr(Ref(HasDepth(p)), DotBody(p), AfterDot(p)));
      block.PushOp(Phi(Depth(p), I32, [PhiIncoming(ZERO, OuterOf(p)), PhiIncoming(Ref(DepthNext(p)), DotBody(p))]));
      block.PushOp(Phi(Dot(p), I32, [PhiIncoming(ZERO, OuterOf(p)), PhiIncoming(Ref(DotNext(p)), DotBody(p))]));
      block.PushOp(Icmp(HasDepth(p), Ult, I32, Ref(Depth(p)), Ref(FieldValue(HeadDim))));
      if p.Score0? {
        block.PushOp(Cast(Score0F32, Sitofp, I32, Ref(Dot(p)), LlvmType.F32));
      }
      value := block.Value();
    }

    static method BuildDotBody(p: Phase, tile: nat) returns (value: KBlock)
      ensures value == BlockOf(DotBody(p), tile)
    {
      var block := new VortexBlock(DotBody(p), Br(DotLoop(p)));
      EmitQkDotBody(block, p, KeyOf(p));
      value := block.Value();
    }

    static method BuildMaxKeyLoop(tile: nat) returns (value: KBlock)
      ensures value == BlockOf(MaxKeyLoop, tile)
    {
      var block := new VortexBlock(MaxKeyLoop, CondBr(Ref(MaxHasKey), DotLoop(Max), SoftmaxKeyLoop));
      block.PushOp(Phi(MaxKey, I32, [PhiIncoming(ONE, DotLoop(Score0)), PhiIncoming(Ref(MaxKeyNext), MaxUpdate)]));
      block.PushOp(Phi(MaxScore, LlvmType.F32,
                       [PhiIncoming(Ref(Score0F32), DotLoop(Score0)), PhiIncoming(Ref(MaxScoreNext), MaxUpdate)]));
      block.PushOp(Icmp(MaxHasKey, Ult, I32, Ref(MaxKey), Ref(FieldValue(Sequence))));
      value := block.Value();
    }

    static method BuildMaxUpdate(tile: nat) returns (value: KBlock)
      ensures value == BlockOf(MaxUpdate, tile)
    {
      var block := new VortexBlock(MaxUpdate, Br(MaxKeyLoop));
      block.PushOp(Cast(MaxCandidate, Sitofp, I32, Ref(Dot(Max)), LlvmType.F32));
      block.PushOp(Fcmp(MaxIsLarger, Ogt, LlvmType.F32, Ref(MaxCandidate), Ref(MaxScore)));
      block.PushOp(Select(MaxScoreNext, Ref(MaxIsLarger), LlvmType.F32, Ref(MaxCandidate), Ref(MaxScore)));
      block.PushOp(BinaryOf(MaxKeyNext, Add, Ref(MaxKey), ONE));
      value := block.Value();
    }

    static method BuildSoftmaxKeyLoop(tile: nat) returns (value: KBlock)
      ensures value == BlockOf(SoftmaxKeyLoop, tile)
    {
      var block := new VortexBlock(SoftmaxKeyLoop, CondBr(Ref(SoftmaxHasKey), DotLoop(Softmax), StoreOutput));
      block.PushOp(Phi(SoftmaxKey, I32, [PhiIncoming(ZERO, MaxKeyLoop), PhiIncoming(Ref(SoftmaxKeyNext), SoftmaxUpdate)]));
      block.PushOp(Phi(Denom, LlvmType.F32, [PhiIncoming(FZERO, MaxKeyLoop), PhiIncoming(Ref(DenomNext), SoftmaxUpdate)]));
      block.PushOp(Phi(Numer, LlvmType.F32, [PhiIncoming(FZERO, MaxKeyLoop), PhiIncoming(Ref(NumerNext), SoftmaxUpdate)]));
      block.PushOp(Icmp(SoftmaxHasKey, Ult, I32, Ref(SoftmaxKey), Ref(FieldValue(Sequence))));
      value := block.Value();
    }

    static method BuildSoftmaxUpdate(tile: nat) returns (value: KBlock)
      ensures value == BlockOf(SoftmaxUpdate, tile)
    {
      hide MatrixLoadOps;
      var block := new VortexBlock(SoftmaxUpdate, Br(SoftmaxKeyLoop));
      block.PushOp(Cast(SoftmaxScore, Sitofp, I32, Ref(Dot(Softmax)), LlvmType.F32));
      block.PushOp(FloatOf(SoftmaxShifted, FSub, Ref(SoftmaxScore), Ref(MaxScore)));
      block.PushOp(FloatExp(SoftmaxWeight, LlvmType.F32, Ref(SoftmaxShifted)));
      EmitMatrixLoad(block, SoftmaxV, V, Ref(SoftmaxKey), Ref(Dim));
      block.PushOp(Cast(SoftmaxVF32, Sitofp, I32, Ref(LoadedI32(SoftmaxV)), LlvmType.F32));
      block.PushOp(FloatOf(SoftmaxWeightedV, FMul, Ref(SoftmaxWeight), Ref(SoftmaxVF32)));
      block.PushOp(FloatOf(DenomNext, FAdd, Ref(Denom), Ref(SoftmaxWeight)));
      block.PushOp(FloatOf(NumerNext, FAdd, Ref(Numer), Ref(SoftmaxWeightedV)));
      block.PushOp(BinaryOf(SoftmaxKeyNext, Add, Ref(SoftmaxKey), ONE));
      value := block.Value();
    }

    static method BuildStoreOutput(tile: nat) returns (value: KBlock)
      ensures value == BlockOf(StoreOutput, tile)
    {
      hide MatrixStoreOps;
      var block := new VortexBlock(StoreOutput, Br(DimLoop));
      block.PushOp(FloatOf(OutRaw, FDiv, Ref(Numer), Ref(Denom)));
      block.PushOp(Fcmp(OutGtMax, Ogt, LlvmType.F32, Ref(OutRaw), Lit(FloatLit(127.0))));
      block.PushOp(Select(OutHi, Ref(OutGtMax), LlvmType.F32, Lit(FloatLit(127.0)), Ref(OutRaw)));
      block.PushOp(Fcmp(OutLtMin, Olt, LlvmType.F32, Ref(OutHi), Lit(FloatLit(-128.0))));
      block.PushOp(Select(OutClamped, Ref(OutLtMin), LlvmType.F32, Lit(FloatLit(-128.0)), Ref(OutHi)));
      block.PushOp(Cast(OutI32, Fptosi, LlvmType.F32, Ref(OutClamped), I32));
      block.PushOp(Cast(OutI8, Trunc, I32, Ref(OutI32), I8));
      EmitMatrixStore(block, OutStore, Out, Ref(Query), Ref(Dim), Ref(OutI8));
      block.PushOp(BinaryOf(DimNext, Add, Ref(Dim), Ref(BlockDimX)));
      value := block.Value();
    }

    static method BuildExit(tile: nat) returns (value: KBlock)
      ensures value == BlockOf(Exit, tile)
    {
      var block := new VortexBlock(Exit, RetVoid);
      value := block.Value();
    }

    static method PushScoreBlocks(kernel: VortexKernelFunction<Reg, Label>, tile: nat)
      modifies kernel
      ensures kernel.blocks == old(kernel.blocks) + ScoreBlocks(tile)
    {
      hide BlockOf;
      var b := BuildEntry(tile);
      kernel.PushBlock(b);
      b := BuildDimLoop(tile);
      kernel.PushBlock(b);
      b := BuildDotLoop(Score0, tile);
      kernel.PushBlock(b);
      b := BuildDotBody(Score0, tile);
      kernel.PushBlock(b);
      b := BuildMaxKeyLoop(tile);
      kernel.PushBlock(b);
      b := BuildDotLoop(Max, tile);
      kernel.PushBlock(b);
      b := BuildDotBody(Max, tile);
      kernel.PushBlock(b);
      b := BuildMaxUpdate(tile);
      kernel.PushBlock(b);
    }

    static method PushSoftmaxBlocks(kernel: VortexKernelFunction<Reg, Label>, tile: nat)
      modifies kernel
      ensures kernel.blocks == old(kernel.blocks) + SoftmaxBlocks(tile)
    {
      hide BlockOf;
      var b := BuildSoftmaxKeyLoop(tile);
      kernel.PushBlock(b);
      b := BuildDotLoop(Softmax, tile);
      kernel.PushBlock(b);
      b := BuildDotBody(Softmax, tile);
      kernel.PushBlock(b);
      b := BuildSoftmaxUpdate(tile);
      kernel.PushBlock(b);
      b := BuildStoreOutput(tile);
      kernel.PushBlock(b);
      b := BuildExit(tile);
      kernel.PushBlock(b);
    }

    /** The fourteen blocks in emission order. */
    static method BuildKernel(tile: nat) returns (kernel: VortexKernelFunction<Reg, Label>)
      ensures fresh(kernel) && kernel.blocks == AttentionBlocks(tile)
    {
      kernel := new VortexKernelFunction();
      PushScoreBlocks(kernel, tile);
      PushSoftmaxBlocks(kernel, tile);
    }
  }
}
