/** Where each register of the attention kernel is defined: in one place. */
module AttentionDefinitions {
  import opened Options
  import opened DeviceIr
  import opened AttentionKernel
  import opened AttentionNames

  /** The block that defines a register. */
  function Home(r: Reg): Label {
    match r
    case Dim | DimLtHead | DimLtTileEnd | HasDim => DimLoop
    case RowOffset(a) => AccessHome(a) case Index32(a) => AccessHome(a) case Index(a) => AccessHome(a)
    case CellPtr(a) => AccessHome(a) case LoadedI8(a) => AccessHome(a) case LoadedI32(a) => AccessHome(a)
    case QkProduct(p) => DotBody(p) case DotNext(p) => DotBody(p) case DepthNext(p) => DotBody(p)
    case Depth(p) => DotLoop(p) case Dot(p) => DotLoop(p) case HasDepth(p) => DotLoop(p)
    case Score0F32 => DotLoop(Score0)
    case MaxKey | MaxScore | MaxHasKey => MaxKeyLoop
    case MaxCandidate | MaxIsLarger | MaxScoreNext | MaxKeyNext => MaxUpdate
    case SoftmaxKey | Denom | Numer | SoftmaxHasKey => SoftmaxKeyLoop
    case SoftmaxScore | SoftmaxShifted | SoftmaxWeight | SoftmaxVF32 | SoftmaxWeightedV | DenomNext | NumerNext | SoftmaxKeyNext =>
      SoftmaxUpdate
    case OutRaw | OutGtMax | OutHi | OutLtMin | OutClamped | OutI32 | OutI8 | DimNext => StoreOutput
    case _ => Entry
  }

  function AccessHome(a: Access): Label {
    match a case DotQ(p) => DotBody(p) case DotK(p) => DotBody(p) case SoftmaxV => SoftmaxUpdate case OutStore => StoreOutput
  }

  function AccessPlace(a: Access): nat {
    match a case DotQ(_) => 0 case DotK(_) => 6 case SoftmaxV => 3 case OutStore => 7
  }

  function FieldPlace(f: Field): nat {
    match f
    case QAddr => 0 case KAddr => 3 case VAddr => 6 case OutAddr => 9
    case Sequence => 12 case HeadDim => 14 case QueryTile => 16 case KeyTile => 18
  }

  /** The operation of that block that defines it. */
  function Place(r: Reg): nat {
    match r
    case FieldPtr(f) => FieldPlace(f) case FieldValue(f) => FieldPlace(f) + 1
    case Base(b) => (match b case Q => 2 case K => 5 case V => 8 case Out => 11)
    case BlockX | BlockX64 | BlockXRaw => 20 case BlockZ | BlockZ64 | BlockZRaw => 21
    case BlockDimX | BlockDimX64 | BlockDimXRaw => 22 case ThreadX | ThreadX64 => 23 case ThreadY | ThreadY64 => 24
    case QueryBase => 25 case Query => 26 case DimTileBase => 27 case DimStart => 28 case DimTileEnd => 29 case QueryOob => 30
    case Dim => 0 case DimLtHead => 1 case DimLtTileEnd => 2 case HasDim => 3
    case RowOffset(a) => AccessPlace(a) case Index32(a) => AccessPlace(a) + 1 case Index(a) => AccessPlace(a) + 2
    case CellPtr(a) => AccessPlace(a) + 3 case LoadedI8(a) => AccessPlace(a) + 4 case LoadedI32(a) => AccessPlace(a) + 5
    case QkProduct(_) => 12 case DotNext(_) => 13 case DepthNext(_) => 14
    case Depth(_) => 0 case Dot(_) => 1 case HasDepth(_) => 2 case Score0F32 => 3
    case MaxKey => 0 case MaxScore => 1 case MaxHasKey => 2
    case MaxCandidate => 0 case MaxIsLarger => 1 case MaxScoreNext => 2 case MaxKeyNext => 3
    case SoftmaxKey => 0 case Denom => 1 case Numer => 2 case SoftmaxHasKey => 3
    case SoftmaxScore => 0 case SoftmaxShifted => 1 case SoftmaxWeight => 2
    case SoftmaxVF32 => 9 case SoftmaxWeightedV => 10 case DenomNext => 11 case NumerNext => 12 case SoftmaxKeyNext => 13
    case OutRaw => 0 case OutGtMax => 1 case OutHi => 2 case OutLtMin => 3 case OutClamped => 4 case OutI32 => 5 case OutI8 => 6
    case DimNext => 12
    case Arg => 0
  }

  /** An operation that reads a coordinate register defines up to three names, one after the other. */
  function Turn(r: Reg): nat {
    match r
    case BlockXRaw | BlockZRaw | BlockDimXRaw => 1
    case BlockX | BlockZ | BlockDimX => 2
    case ThreadX | ThreadY => 1
    case _ => 0
  }

  ghost predicate PlacedOp(op: KOp, l: Label, i: nat) {
    forall k :: 0 <= k < |Defs(op)| ==> DefinedAt(Defs(op)[k], l, i, k)
  }

  predicate DefinedAt(r: Reg, l: Label, i: nat, k: int) { r != Arg && Used(r) && Home(r) == l && Place(r) == i && Turn(r) == k }

  ghost predicate Placed(ops: seq<KOp>, l: Label, from: nat) {
    forall i :: 0 <= i < |ops| ==> PlacedOp(ops[i], l, from + i)
  }

  lemma PlacedAppend(a: seq<KOp>, b: seq<KOp>, l: Label, from: nat)
    requires Placed(a, l, from) && Placed(b, l, from + |a|)
    ensures Placed(a + b, l, from)
  {
    hide PlacedOp;
    forall i | 0 <= i < |a + b| ensures PlacedOp((a + b)[i], l, from + i) {
      if i >= |a| {
        assert (a + b)[i] == b[i - |a|];
      }
    }
  }

  predicate ResultAt(op: KOp, l: Label, i: nat) { !op.Store? && !op.CtaCsrI32? && DefinedAt(op.result, l, i, 0) }

  lemma ResultPlaced(op: KOp, l: Label, i: nat)
    requires ResultAt(op, l, i)
    ensures PlacedOp(op, l, i)
  {
    hide DefinedAt;
  }

  lemma {:induction false} ResultsPlaced(ops: seq<KOp>, l: Label, from: nat)
    requires forall i :: 0 <= i < |ops| ==> ResultAt(ops[i], l, from + i)
    ensures Placed(ops, l, from)
  {
    hide ResultAt, PlacedOp;
    forall i | 0 <= i < |ops| ensures PlacedOp(ops[i], l, from + i) {
      ResultPlaced(ops[i], l, from + i);
    }
  }

  lemma FieldPlaced(f: Field)
    ensures Placed(FieldLoad(f), Entry, FieldPlace(f))
  {
  }

  lemma PointerPlaced(f: Field)
    requires f in {QAddr, KAddr, VAddr, OutAddr}
    ensures Placed(PointerLoad(f), Entry, FieldPlace(f))
  {
    hide FieldLoad;
    FieldPlaced(f);
    var base: KOp := IntToPtr(Base(BufferOf(f)), I64, Ref(FieldValue(f)));
    assert PlacedOp(base, Entry, FieldPlace(f) + 2);
    FieldLength(f);
    PlacedAppend(FieldLoad(f), [base], Entry, FieldPlace(f));
  }

  lemma FieldLength(f: Field)
    ensures |FieldLoad(f)| == 2
  {
  }

  lemma ArgsPlaced()
    ensures Placed(ArgOps(), Entry, 0) && |ArgOps()| == 20
  {
    hide FieldLoad, Placed;
    PointerPlaced(QAddr);
    PointerPlaced(KAddr);
    PointerPlaced(VAddr);
    PointerPlaced(OutAddr);
    FieldPlaced(Sequence);
    FieldPlaced(HeadDim);
    FieldPlaced(QueryTile);
    FieldPlaced(KeyTile);
    forall f ensures |FieldLoad(f)| == 2 {
      FieldLength(f);
    }
    PlacedAppend(PointerLoad(QAddr), PointerLoad(KAddr), Entry, 0);
    var p3 := PointerLoad(QAddr) + PointerLoad(KAddr);
    PlacedAppend(p3, PointerLoad(VAddr), Entry, 0);
    var p4 := p3 + PointerLoad(VAddr);
    PlacedAppend(p4, PointerLoad(OutAddr), Entry, 0);
    var p5 := p4 + PointerLoad(OutAddr);
    PlacedAppend(p5, FieldLoad(Sequence), Entry, 0);
    var p6 := p5 + FieldLoad(Sequence);
    PlacedAppend(p6, FieldLoad(HeadDim), Entry, 0);
    var p7 := p6 + FieldLoad(HeadDim);
    PlacedAppend(p7, FieldLoad(QueryTile), Entry, 0);
    PlacedAppend(p7 + FieldLoad(QueryTile), FieldLoad(KeyTile), Entry, 0);
  }

  lemma CsrPlaced(tile: nat)
    ensures Placed(CoordinateOps(tile)[..5], Entry, 20)
  {
    hide AccessHome, AccessPlace, FieldPlace;
  }

  lemma ArithmeticPlaced(tile: nat)
    ensures Placed(CoordinateOps(tile)[5..], Entry, 25) && |CoordinateOps(tile)| == 10
  {
    hide AccessHome, AccessPlace, FieldPlace;
  }

  lemma CoordinatesPlaced(tile: nat)
    ensures Placed(CoordinateOps(tile), Entry, 20) && |CoordinateOps(tile)| == 10
  {
    hide CoordinateOps, Placed;
    CsrPlaced(tile);
    ArithmeticPlaced(tile);
    PlacedAppend(CoordinateOps(tile)[..5], CoordinateOps(tile)[5..], Entry, 20);
    assert CoordinateOps(tile)[..5] + CoordinateOps(tile)[5..] == CoordinateOps(tile);
  }

  lemma EntryPlaced(tile: nat)
    ensures Placed(EntryOps(tile), Entry, 0)
  {
    hide ArgOps, CoordinateOps, Placed;
    ArgsPlaced();
    CoordinatesPlaced(tile);
    PlacedAppend(ArgOps(), CoordinateOps(tile), Entry, 0);
    var last: KOp := Icmp(QueryOob, Uge, I32, Ref(Query), Ref(FieldValue(Sequence)));
    OnePlaced(last, Entry, 30);
    PlacedAppend(ArgOps() + CoordinateOps(tile), [last], Entry, 0);
  }

  lemma OnePlaced(op: KOp, l: Label, i: nat)
    requires PlacedOp(op, l, i)
    ensures Placed([op], l, i)
  {
  }

  lemma AccessPlaced(a: Access, base: Buffer, row: Operand<Reg>, col: Operand<Reg>)
    ensures Placed(AddressOps(a, base, row, col), AccessHome(a), AccessPlace(a))
  {
    hide Placed, AccessHome, AccessPlace;
    ResultsPlaced(AddressOps(a, base, row, col), AccessHome(a), AccessPlace(a));
  }

  lemma LoadPlaced(a: Access, base: Buffer, row: Operand<Reg>, col: Operand<Reg>)
    requires !a.OutStore?
    ensures Placed(MatrixLoadOps(a, base, row, col), AccessHome(a), AccessPlace(a))
  {
    hide AddressOps;
    AccessPlaced(a, base, row, col);
    var load: seq<KOp> := [Load(LoadedI8(a), I8, CellPtr(a)), Cast(LoadedI32(a), Sext, I8, Ref(LoadedI8(a)), I32)];
    assert Placed(load, AccessHome(a), AccessPlace(a) + 4);
    PlacedAppend(AddressOps(a, base, row, col), load, AccessHome(a), AccessPlace(a));
  }

  lemma MacPlaced(p: Phase)
    ensures Placed(QkDotOps(p, KeyOf(p))[12..], DotBody(p), 12)
  {
    hide MatrixLoadOps, KeyOf, AccessHome, AccessPlace, FieldPlace, Placed;
    ResultsPlaced(QkDotOps(p, KeyOf(p))[12..], DotBody(p), 12);
  }

  lemma DotBodyPlaced(p: Phase)
    ensures Placed(QkDotOps(p, KeyOf(p)), DotBody(p), 0)
  {
    hide MatrixLoadOps, KeyOf, PlacedOp;
    LoadPlaced(DotQ(p), Q, Ref(Query), Ref(Depth(p)));
    LoadPlaced(DotK(p), K, KeyOf(p), Ref(Depth(p)));
    var a, b := MatrixLoadOps(DotQ(p), Q, Ref(Query), Ref(Depth(p))), MatrixLoadOps(DotK(p), K, KeyOf(p), Ref(Depth(p)));
    PlacedAppend(a, b, DotBody(p), 0);
    MacPlaced(p);
    assert QkDotOps(p, KeyOf(p)) == a + b + QkDotOps(p, KeyOf(p))[12..];
    PlacedAppend(a + b, QkDotOps(p, KeyOf(p))[12..], DotBody(p), 0);
  }

  lemma DimLoopPlaced()
    ensures Placed(DimLoopOps(), DimLoop, 0)
  {
    hide AccessHome, AccessPlace, FieldPlace, Placed;
    ResultsPlaced(DimLoopOps(), DimLoop, 0);
  }

  lemma DotLoopPlaced(p: Phase)
    ensures Placed(DotLoopOps(p), DotLoop(p), 0)
  {
    hide AccessHome, AccessPlace, FieldPlace, Placed;
    ResultsPlaced(DotLoopOps(p), DotLoop(p), 0);
  }

  lemma MaxKeyLoopPlaced()
    ensures Placed(MaxKeyLoopOps(), MaxKeyLoop, 0)
  {
    hide AccessHome, AccessPlace, FieldPlace, Placed;
    ResultsPlaced(MaxKeyLoopOps(), MaxKeyLoop, 0);
  }

  lemma MaxUpdatePlaced()
    ensures Placed(MaxUpdateOps(), MaxUpdate, 0)
  {
    hide AccessHome, AccessPlace, FieldPlace, Placed;
    ResultsPlaced(MaxUpdateOps(), MaxUpdate, 0);
  }

  lemma SoftmaxKeyLoopPlaced()
    ensures Placed(SoftmaxKeyLoopOps(), SoftmaxKeyLoop, 0)
  {
    hide AccessHome, AccessPlace, FieldPlace, Placed;
    ResultsPlaced(SoftmaxKeyLoopOps(), SoftmaxKeyLoop, 0);
  }

  lemma WeightPlaced()
    ensures Placed(SoftmaxUpdateOps()[..3], SoftmaxUpdate, 0)
  {
    hide AccessHome, AccessPlace, FieldPlace, MatrixLoadOps, Placed;
    ResultsPlaced(SoftmaxUpdateOps()[..3], SoftmaxUpdate, 0);
  }

  lemma SumsPlaced()
    ensures Placed(SoftmaxUpdateOps()[9..], SoftmaxUpdate, 9)
  {
    hide AccessHome, AccessPlace, FieldPlace, MatrixLoadOps, Placed;
    ResultsPlaced(SoftmaxUpdateOps()[9..], SoftmaxUpdate, 9);
  }

  lemma SoftmaxPlaced()
    ensures Placed(SoftmaxUpdateOps(), SoftmaxUpdate, 0)
  {
    hide MatrixLoadOps, Placed;
    LoadPlaced(SoftmaxV, V, Ref(SoftmaxKey), Ref(Dim));
    WeightPlaced();
    SumsPlaced();
    var ops := SoftmaxUpdateOps();
    var load := MatrixLoadOps(SoftmaxV, V, Ref(SoftmaxKey), Ref(Dim));
    assert ops == ops[..3] + load + ops[9..];
    PlacedAppend(ops[..3], load, SoftmaxUpdate, 0);
    PlacedAppend(ops[..3] + load, ops[9..], SoftmaxUpdate, 0);
  }

  lemma ConvertPlaced()
    ensures Placed(StoreOutputOps()[..7], StoreOutput, 0)
  {
    hide AccessHome, AccessPlace, FieldPlace, AddressOps, Placed;
    ResultsPlaced(StoreOutputOps()[..7], StoreOutput, 0);
  }

  lemma NextPlaced()
    ensures Placed(StoreOutputOps()[11..], StoreOutput, 11)
  {
    hide AccessHome, AccessPlace, FieldPlace, AddressOps;
  }

  lemma StorePlaced()
    ensures Placed(StoreOutputOps(), StoreOutput, 0)
  {
    hide AddressOps, Placed;
    AccessPlaced(OutStore, Out, Ref(Query), Ref(Dim));
    ConvertPlaced();
    NextPlaced();
    var ops := StoreOutputOps();
    var address := AddressOps(OutStore, Out, Ref(Query), Ref(Dim));
    assert ops == ops[..7] + address + ops[11..];
    PlacedAppend(ops[..7], address, StoreOutput, 0);
    PlacedAppend(ops[..7] + address, ops[11..], StoreOutput, 0);
  }

  lemma NothingPlaced()
    ensures Placed([], Exit, 0)
  {
  }

  /** Every block defines its registers in their places. */
  lemma BlockPlaced(l: Label, tile: nat)
    ensures Placed(BlockOf(l, tile).ops, l, 0)
  {
    hide EntryOps, QkDotOps, StoreOutputOps, SoftmaxUpdateOps, Placed, DimLoopOps, DotLoopOps, MaxKeyLoopOps, MaxUpdateOps,
         SoftmaxKeyLoopOps;
    match l
    case Entry => EntryPlaced(tile);
    case DotBody(p) => DotBodyPlaced(p);
    case SoftmaxUpdate => SoftmaxPlaced();
    case StoreOutput => StorePlaced();
    case DimLoop => DimLoopPlaced();
    case DotLoop(p) => DotLoopPlaced(p);
    case MaxKeyLoop => MaxKeyLoopPlaced();
    case MaxUpdate => MaxUpdatePlaced();
    case SoftmaxKeyLoop => SoftmaxKeyLoopPlaced();
    case Exit => NothingPlaced();
  }

  // ----- so no register is defined twice -----

  predicate Before(r: Reg, s: Reg) { Place(r) < Place(s) || (Place(r) == Place(s) && Turn(r) < Turn(s)) }

  predicate HomeBelow(r: Reg, l: Label, n: nat) { r != Arg && Used(r) && Home(r) == l && Place(r) < n }

  ghost predicate Increasing(regs: seq<Reg>, l: Label, n: nat) {
    && (forall i :: 0 <= i < |regs| ==> HomeBelow(regs[i], l, n))
    && (forall i, j :: 0 <= i < j < |regs| ==> Before(regs[i], regs[j]))
  }

  lemma {:induction false} PlacedIncreasing(ops: seq<KOp>, l: Label)
    requires Placed(ops, l, 0)
    ensures Increasing(DefsOf(ops), l, |ops|)
  {
    hide Defs, Home, Place, Turn, Used;
    if ops != [] {
      var n := |ops| - 1;
      assert forall i :: 0 <= i < n ==> PlacedOp(ops[..n][i], l, 0 + i) by {
        hide PlacedOp;
      }
      PlacedIncreasing(ops[..n], l);
      IncreasingAppend(DefsOf(ops[..n]), Defs(ops[n]), l, n, ops[n]);
    }
  }

  lemma IncreasingAppend(a: seq<Reg>, b: seq<Reg>, l: Label, n: nat, op: KOp)
    requires Increasing(a, l, n) && PlacedOp(op, l, n) && b == Defs(op)
    ensures Increasing(a + b, l, n + 1)
  {
    hide Defs, Home, Place, Turn, Used;
    forall i | 0 <= i < |a + b| ensures HomeBelow((a + b)[i], l, n + 1) {
      if i >= |a| {
        assert DefinedAt(b[i - |a|], l, n, i - |a|);
      }
    }
    forall i, j | 0 <= i < j < |a + b| ensures Before((a + b)[i], (a + b)[j]) {
      if j >= |a| {
        assert DefinedAt(b[j - |a|], l, n, j - |a|);
        if i >= |a| {
          assert DefinedAt(b[i - |a|], l, n, i - |a|);
        } else {
          assert HomeBelow(a[i], l, n);
        }
      }
    }
  }

  /** The registers defined by the first `n` blocks, each at home in one of them. */
  ghost predicate AtHome(regs: seq<Reg>, n: nat)
    requires n <= |LABELS|
  {
    forall r :: r in regs ==> r != Arg && Used(r) && Home(r) in LABELS[..n]
  }

  lemma {:induction false} DefinitionsUpTo(tile: nat, n: nat)
    requires n <= |LABELS|
    ensures var regs := Definitions(AttentionBlocks(tile)[..n]); Distinct(regs) && AtHome(regs, n)
  {
    hide BlockOf, AttentionBlocks, DefsOf, Home, Place, Turn, Used, LABELS;
    var blocks := AttentionBlocks(tile);
    KernelLength(tile);
    if n == 0 {
      assert Definitions(blocks[..0]) == [];
    } else {
      DefinitionsUpTo(tile, n - 1);
      assert blocks[..n][..n - 1] == blocks[..n - 1] && LABELS[..n] == LABELS[..n - 1] + [LABELS[n - 1]];
      BlocksFollowLabels(tile, n - 1);
      BlockPlaced(LABELS[n - 1], tile);
      PlacedIncreasing(BlockOf(LABELS[n - 1], tile).ops, LABELS[n - 1]);
      LabelsDiffer(n - 1);
    }
  }

  lemma LabelsDiffer(n: nat)
    requires n < |LABELS|
    ensures LABELS[n] !in LABELS[..n]
  {
    var i := LabelListed(LABELS[n]);
    hide LABELS;
  }

  /** Every register of the kernel is defined once, and the argument register never. */
  lemma DefinedOnce(tile: nat)
    ensures Distinct(Definitions(AttentionBlocks(tile)))
    ensures forall r :: r in Definitions(AttentionBlocks(tile)) ==> r != Arg && Used(r)
  {
    hide AttentionBlocks, Used, Home;
    DefinitionsUpTo(tile, |LABELS|);
    KernelLength(tile);
    assert AttentionBlocks(tile)[..|LABELS|] == AttentionBlocks(tile);
  }

  lemma KernelLength(tile: nat)
    ensures |AttentionBlocks(tile)| == |LABELS|
  {
    hide ScoreBlocks, SoftmaxBlocks;
  }
}
