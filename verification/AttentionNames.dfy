/** How the code generator spells the registers and labels of the attention kernel, and why no two spellings,
    nor any constant the renderer adds, can be confused (crates/vortex-codegen/src/codegen/attention_mlir.rs). */
module AttentionNames {
  import opened Options
  import opened DeviceIr
  import opened AttentionKernel
  import opened MlirText

  // ----- spelling -----

  function PhaseText(p: Phase): string {
    match p case Score0 => "score0" case Max => "max" case Softmax => "softmax"
  }

  function FieldText(f: Field): string {
    match f
    case QAddr => "q_addr" case KAddr => "k_addr" case VAddr => "v_addr" case OutAddr => "out_addr"
    case Sequence => "sequence" case HeadDim => "head_dim" case QueryTile => "query_tile" case KeyTile => "key_tile"
  }

  /** The prefix that the temporaries of a matrix access share. */
  function AccessText(a: Access): string {
    match a
    case DotQ(p) => PhaseText(p) + "_q"
    case DotK(p) => PhaseText(p) + "_k"
    case SoftmaxV => "softmax_v"
    case OutStore => "out"
  }

  function RegText(r: Reg): string {
    match r
    case Arg => "%arg"
    case FieldPtr(f) => "%" + FieldText(f) + "_ptr"
    case FieldValue(f) => "%" + FieldText(f)
    case Base(b) => (match b case Q => "%q" case K => "%k" case V => "%v" case Out => "%out")
    case RowOffset(a) => "%" + AccessText(a) + "_row_offset"
    case Index32(a) => "%" + AccessText(a) + "_index32"
    case Index(a) => "%" + AccessText(a) + "_index"
    case CellPtr(a) => "%" + AccessText(a) + "_ptr"
    case LoadedI8(a) => "%" + AccessText(a) + "_i8"
    case LoadedI32(a) => "%" + AccessText(a) + "_i32"
    case QkProduct(p) => "%" + PhaseText(p) + "_qk_product"
    case Depth(p) => "%" + PhaseText(p) + "_depth"
    case Dot(p) => "%" + PhaseText(p) + "_dot"
    case DepthNext(p) => "%" + PhaseText(p) + "_depth_next"
    case DotNext(p) => "%" + PhaseText(p) + "_dot_next"
    case HasDepth(p) => "%" + PhaseText(p) + "_has_depth"
    case _ => PlainText(r)
  }

  function PlainText(r: Reg): string {
    match r
    case BlockX => "%block_x" case BlockX64 => "%block_x64" case BlockXRaw => "%block_x_raw"
    case BlockZ => "%block_z" case BlockZ64 => "%block_z64" case BlockZRaw => "%block_z_raw"
    case BlockDimX => "%block_dim_x" case BlockDimX64 => "%block_dim_x64" case BlockDimXRaw => "%block_dim_x_raw"
    case ThreadX => "%thread_x" case ThreadX64 => "%thread_x64" case ThreadY => "%thread_y"
    case ThreadY64 => "%thread_y64" case QueryBase => "%query_base" case Query => "%query"
    case DimTileBase => "%dim_tile_base" case DimStart => "%dim_start" case DimTileEnd => "%dim_tile_end"
    case QueryOob => "%query_oob" case Dim => "%dim" case DimLtHead => "%dim_lt_head"
    case DimLtTileEnd => "%dim_lt_tile_end" case HasDim => "%has_dim" case DimNext => "%dim_next"
    case Score0F32 => "%score0_f32" case MaxKey => "%max_key" case MaxScore => "%max_score"
    case MaxHasKey => "%max_has_key" case MaxCandidate => "%max_candidate_score"
    case MaxIsLarger => "%max_is_larger" case MaxScoreNext => "%max_score_next" case MaxKeyNext => "%max_key_next"
    case SoftmaxKey => "%softmax_key" case Denom => "%denom" case Numer => "%numer"
    case SoftmaxHasKey => "%softmax_has_key" case SoftmaxScore => "%softmax_score"
    case SoftmaxShifted => "%softmax_shifted" case SoftmaxWeight => "%softmax_weight"
    case SoftmaxVF32 => "%softmax_v_f32" case SoftmaxWeightedV => "%softmax_weighted_v"
    case DenomNext => "%denom_next" case NumerNext => "%numer_next" case SoftmaxKeyNext => "%softmax_key_next"
    case OutRaw => "%out_f32_raw" case OutGtMax => "%out_gt_i8_max" case OutHi => "%out_f32_hi"
    case OutLtMin => "%out_lt_i8_min" case OutClamped => "%out_f32_clamped" case OutI32 => "%out_i32"
    case OutI8 => "%out_i8"
    case _ => ""
  }

  function LabelText(l: Label): string {
    match l
    case Entry => "entry" case DimLoop => "dim_loop"
    case DotLoop(p) => PhaseText(p) + "_dot_loop"
    case DotBody(p) => PhaseText(p) + "_dot_body"
    case MaxKeyLoop => "max_key_loop" case MaxUpdate => "max_update"
    case SoftmaxKeyLoop => "softmax_key_loop" case SoftmaxUpdate => "softmax_update"
    case StoreOutput => "store_output" case Exit => "exit"
  }

  /** The output is stored, never loaded, so its load temporaries do not occur. */
  predicate Used(r: Reg) { !((r.LoadedI8? || r.LoadedI32?) && r.access.OutStore?) }

  /** Where every constant of the kernel has a letter of a label, no register has. */
  predicate ShapedApart(t: string) { |t| > 1 && t[1] == 'v' ==> |t| == 2 || t[2] == '_' }

  // ----- reading a register back from its spelling -----

  function Read2(s: string): Reg
    requires |s| == 2
  {
    if s[1] == 'k' then Base(K)
    else if s[1] == 'q' then Base(Q)
    else Base(V)
  }

  function Read4(s: string): Reg
    requires |s| == 4
  {
    if s[1] == 'a' then Arg
    else if s[1] == 'd' then Dim
    else Base(Out)
  }

  function Read6(s: string): Reg
    requires |s| == 6
  {
    if s[1] == 'd' then Denom
    else if s[1] == 'n' then Numer
    else Query
  }

  function Read7(s: string): Reg
    requires |s| == 7
  {
    if s[1] == 'k' then FieldValue(KAddr)
    else if s[1] == 'o' then OutI8
    else if s[1] == 'q' then FieldValue(QAddr)
    else FieldValue(VAddr)
  }

  function Read8(s: string): Reg
    requires |s| == 8
  {
    if s[7] == 'x' then BlockX
    else if s[7] == 'z' then BlockZ
    else if s[7] == 'm' then HasDim
    else if s[7] == 't' then Dot(Max)
    else if s[7] == 'y' then MaxKey
    else if s[7] == '2' then OutI32
    else CellPtr(OutStore)
  }

  function Read9(s: string): Reg
    requires |s| == 9
  {
    if s[1] == 'd' then DimNext
    else if s[1] == 'h' then FieldValue(HeadDim)
    else if s[1] == 'k' then FieldValue(KeyTile)
    else if s[1] == 'o' then FieldValue(OutAddr)
    else if s[1] == 's' then FieldValue(Sequence)
    else if s[1] == 'm' then
      if s[5] == 'k' then LoadedI8(DotK(Max))
      else LoadedI8(DotQ(Max))
    else
      if s[8] == 'x' then ThreadX
      else ThreadY
  }

  function Read10(s: string): Reg
    requires |s| == 10
  {
    if s[9] == 't' then DimStart
    else if s[9] == 'h' then Depth(Max)
    else if s[9] == 'e' then MaxScore
    else if s[9] == 'x' then Index(OutStore)
    else if s[9] == 'b' then QueryOob
    else if s[9] == '4' then
      if s[7] == 'x' then BlockX64
      else BlockZ64
    else if s[9] == '2' then
      if s[5] == 'k' then LoadedI32(DotK(Max))
      else LoadedI32(DotQ(Max))
    else
      if s[5] == 'k' then CellPtr(DotK(Max))
      else CellPtr(DotQ(Max))
  }

  function Read11(s: string): Reg
    requires |s| == 11
  {
    if s[8] == '_' then OutHi
    else if s[8] == 'a' then QueryBase
    else if s[8] == 'i' then FieldValue(QueryTile)
    else if s[8] == 'd' then Dot(Score0)
    else if s[8] == 'f' then Score0F32
    else if s[8] == 'x' then ThreadX64
    else if s[8] == 'y' then ThreadY64
    else if s[8] == 'e' then
      if s[1] == 'd' then DenomNext
      else NumerNext
    else
      if s[1] == 'k' then FieldPtr(KAddr)
      else if s[1] == 'q' then FieldPtr(QAddr)
      else FieldPtr(VAddr)
  }

  function Read12(s: string): Reg
    requires |s| == 12
  {
    if s[5] == 'l' then DimLtHead
    else if s[5] == 'h' then MaxHasKey
    else if s[5] == 'q' then Index(DotQ(Max))
    else if s[5] == 'f' then OutRaw
    else if s[5] == 'i' then Index32(OutStore)
    else if s[5] == 'e' then
      if s[8] == 'k' then LoadedI8(DotK(Score0))
      else LoadedI8(DotQ(Score0))
    else if s[5] == 'm' then
      if s[9] == 'd' then Dot(Softmax)
      else SoftmaxKey
    else
      if s[7] == 'd' then BlockDimX
      else if s[7] == 'x' then BlockXRaw
      else if s[7] == 'z' then BlockZRaw
      else Index(DotK(Max))
  }

  function Read13(s: string): Reg
    requires |s| == 13
  {
    if s[3] == 'm' then DimTileEnd
    else if s[3] == 'a' then FieldPtr(HeadDim)
    else if s[3] == 'y' then FieldPtr(KeyTile)
    else if s[3] == 't' then FieldPtr(OutAddr)
    else if s[3] == 'q' then FieldPtr(Sequence)
    else if s[3] == 'x' then
      if s[5] == 'd' then DotNext(Max)
      else MaxKeyNext
    else if s[3] == 'f' then
      if s[9] == 'k' then LoadedI8(DotK(Softmax))
      else if s[9] == 'q' then LoadedI8(DotQ(Softmax))
      else LoadedI8(SoftmaxV)
    else
      if s[8] == 'd' then Depth(Score0)
      else if s[8] == 'k' then
        if s[10] == 'i' then LoadedI32(DotK(Score0))
        else CellPtr(DotK(Score0))
      else
        if s[10] == 'i' then LoadedI32(DotQ(Score0))
        else CellPtr(DotQ(Score0))
  }

  function Read14(s: string): Reg
    requires |s| == 14
  {
    if s[9] == 'm' then BlockDimX64
    else if s[9] == '_' then DimTileBase
    else if s[9] == 'a' then MaxIsLarger
    else if s[9] == 's' then SoftmaxScore
    else if s[9] == '8' then
      if s[5] == 'g' then OutGtMax
      else OutLtMin
    else if s[9] == 'k' then
      if s[11] == 'i' then LoadedI32(DotK(Softmax))
      else CellPtr(DotK(Softmax))
    else if s[9] == 'q' then
      if s[11] == 'i' then LoadedI32(DotQ(Softmax))
      else CellPtr(DotQ(Softmax))
    else if s[9] == 'v' then
      if s[11] == 'f' then SoftmaxVF32
      else if s[11] == 'i' then LoadedI32(SoftmaxV)
      else CellPtr(SoftmaxV)
    else
      if s[5] == 'h' then HasDepth(Max)
      else if s[5] == 'k' then Index32(DotK(Max))
      else if s[5] == 'q' then Index32(DotQ(Max))
      else Depth(Softmax)
  }

  function Read15(s: string): Reg
    requires |s| == 15
  {
    if s[5] == 'd' then DepthNext(Max)
    else if s[5] == 'q' then QkProduct(Max)
    else if s[5] == 's' then MaxScoreNext
    else if s[5] == 'r' then RowOffset(OutStore)
    else if s[5] == 'y' then FieldPtr(QueryTile)
    else if s[5] == 'm' then SoftmaxWeight
    else
      if s[8] == 'k' then Index(DotK(Score0))
      else Index(DotQ(Score0))
  }

  function Read16(s: string): Reg
    requires |s| == 16
  {
    if s[9] == 'm' then BlockDimXRaw
    else if s[9] == 'i' then DimLtTileEnd
    else if s[9] == 'c' then OutClamped
    else if s[9] == 'o' then DotNext(Score0)
    else if s[9] == 'h' then SoftmaxHasKey
    else if s[9] == 'k' then Index(DotK(Softmax))
    else if s[9] == 'q' then Index(DotQ(Softmax))
    else if s[9] == 's' then SoftmaxShifted
    else Index(SoftmaxV)
  }

  function Read17(s: string): Reg
    requires |s| == 17
  {
    if s[8] == 'h' then HasDepth(Score0)
    else if s[8] == 'k' then Index32(DotK(Score0))
    else if s[8] == 'q' then Index32(DotQ(Score0))
    else if s[8] == 'o' then
      if s[5] == 'k' then RowOffset(DotK(Max))
      else RowOffset(DotQ(Max))
    else
      if s[9] == 'd' then DotNext(Softmax)
      else SoftmaxKeyNext
  }

  function Read18(s: string): Reg
    requires |s| == 18
  {
    if s[9] == 'e' then DepthNext(Score0)
    else if s[9] == 'h' then HasDepth(Softmax)
    else if s[9] == 'q' then Index32(DotQ(Softmax))
    else if s[9] == 'v' then Index32(SoftmaxV)
    else
      if s[2] == 'c' then QkProduct(Score0)
      else Index32(DotK(Softmax))
  }

  function Read19(s: string): Reg
    requires |s| == 19
  {
    if s[9] == 'd' then DepthNext(Softmax)
    else if s[9] == 'q' then QkProduct(Softmax)
    else SoftmaxWeightedV
  }

  function Read20(s: string): Reg
    requires |s| == 20
  {
    if s[8] == 'd' then MaxCandidate
    else if s[8] == 'k' then RowOffset(DotK(Score0))
    else RowOffset(DotQ(Score0))
  }

  function Read21(s: string): Reg
    requires |s| == 21
  {
    if s[9] == 'k' then RowOffset(DotK(Softmax))
    else if s[9] == 'q' then RowOffset(DotQ(Softmax))
    else RowOffset(SoftmaxV)
  }


  function ReadReg(s: string): Reg {
    if |s| == 2 then Read2(s)
    else if |s| == 4 then Read4(s)
    else if |s| == 6 then Read6(s)
    else if |s| == 7 then Read7(s)
    else if |s| == 8 then Read8(s)
    else if |s| == 9 then Read9(s)
    else if |s| == 10 then Read10(s)
    else if |s| == 11 then Read11(s)
    else if |s| == 12 then Read12(s)
    else if |s| == 13 then Read13(s)
    else if |s| == 14 then Read14(s)
    else if |s| == 15 then Read15(s)
    else if |s| == 16 then Read16(s)
    else if |s| == 17 then Read17(s)
    else if |s| == 18 then Read18(s)
    else if |s| == 19 then Read19(s)
    else if |s| == 20 then Read20(s)
    else if |s| == 21 then Read21(s)
    else Arg
  }

  lemma PlainBack0(r: Reg)
    requires r.BlockX? || r.BlockX64? || r.BlockXRaw? || r.BlockZ? || r.BlockZ64? || r.BlockZRaw? ||
      r.BlockDimX? || r.BlockDimX64?
    ensures ReadReg(RegText(r)) == r && ShapedApart(RegText(r))
  {
    hide PhaseText, FieldText, AccessText;
  }

  lemma PlainBack1(r: Reg)
    requires r.BlockDimXRaw? || r.ThreadX? || r.ThreadX64? || r.ThreadY? || r.ThreadY64? || r.QueryBase? ||
      r.Query? || r.DimTileBase?
    ensures ReadReg(RegText(r)) == r && ShapedApart(RegText(r))
  {
    hide PhaseText, FieldText, AccessText;
  }

  lemma PlainBack2(r: Reg)
    requires r.DimStart? || r.DimTileEnd? || r.QueryOob? || r.Dim? || r.DimLtHead? || r.DimLtTileEnd? ||
      r.HasDim? || r.DimNext?
    ensures ReadReg(RegText(r)) == r && ShapedApart(RegText(r))
  {
    hide PhaseText, FieldText, AccessText;
  }

  lemma PlainBack3(r: Reg)
    requires r.Score0F32? || r.MaxKey? || r.MaxScore? || r.MaxHasKey?
    ensures ReadReg(RegText(r)) == r && ShapedApart(RegText(r))
  {
    hide PhaseText, FieldText, AccessText;
  }

  lemma PlainBack4(r: Reg)
    requires r.MaxCandidate? || r.MaxIsLarger? || r.MaxScoreNext? || r.MaxKeyNext?
    ensures ReadReg(RegText(r)) == r && ShapedApart(RegText(r))
  {
    hide PhaseText, FieldText, AccessText;
  }

  lemma PlainBack5(r: Reg)
    requires r.SoftmaxKey? || r.Denom? || r.Numer? || r.SoftmaxHasKey?
    ensures ReadReg(RegText(r)) == r && ShapedApart(RegText(r))
  {
    hide PhaseText, FieldText, AccessText;
  }

  lemma PlainBack6(r: Reg)
    requires r.SoftmaxScore? || r.SoftmaxShifted? || r.SoftmaxWeight? || r.SoftmaxVF32?
    ensures ReadReg(RegText(r)) == r && ShapedApart(RegText(r))
  {
    hide PhaseText, FieldText, AccessText;
  }

  lemma PlainBack7(r: Reg)
    requires r.SoftmaxWeightedV? || r.DenomNext? || r.NumerNext? || r.SoftmaxKeyNext?
    ensures ReadReg(RegText(r)) == r && ShapedApart(RegText(r))
  {
    hide PhaseText, FieldText, AccessText;
  }

  lemma PlainBack8(r: Reg)
    requires r.OutRaw? || r.OutGtMax? || r.OutHi? || r.OutLtMin?
    ensures ReadReg(RegText(r)) == r && ShapedApart(RegText(r))
  {
    hide PhaseText, FieldText, AccessText;
  }

  lemma PlainBack9(r: Reg)
    requires r.OutClamped? || r.OutI32? || r.OutI8?
    ensures ReadReg(RegText(r)) == r && ShapedApart(RegText(r))
  {
    hide PhaseText, FieldText, AccessText;
  }

  lemma RowBack(r: Reg)
    requires r.RowOffset?
    ensures ReadReg(RegText(r)) == r
  {
    hide PlainText, FieldText;
  }

  lemma Index32Back(r: Reg)
    requires r.Index32?
    ensures ReadReg(RegText(r)) == r
  {
    hide PlainText, FieldText;
  }

  lemma IndexBack(r: Reg)
    requires r.Index?
    ensures ReadReg(RegText(r)) == r
  {
    hide PlainText, FieldText;
  }

  lemma CellBack(r: Reg)
    requires r.CellPtr?
    ensures ReadReg(RegText(r)) == r
  {
    hide PlainText, FieldText;
  }

  lemma LoadedI8Back(r: Reg)
    requires r.LoadedI8? && Used(r)
    ensures ReadReg(RegText(r)) == r
  {
    hide PlainText, FieldText;
  }

  lemma LoadedI32Back(r: Reg)
    requires r.LoadedI32? && Used(r)
    ensures ReadReg(RegText(r)) == r
  {
    hide PlainText, FieldText;
  }

  lemma ProductBack(r: Reg)
    requires r.QkProduct?
    ensures ReadReg(RegText(r)) == r
  {
    hide PlainText, FieldText, AccessText;
  }

  lemma DotBack(r: Reg)
    requires r.Dot? || r.DotNext?
    ensures ReadReg(RegText(r)) == r
  {
    hide PlainText, FieldText, AccessText;
  }

  lemma DepthBack(r: Reg)
    requires r.Depth? || r.DepthNext? || r.HasDepth?
    ensures ReadReg(RegText(r)) == r
  {
    hide PlainText, FieldText, AccessText;
  }

  lemma FieldBack(r: Reg)
    requires r.Arg? || r.FieldPtr? || r.FieldValue? || r.Base?
    ensures ReadReg(RegText(r)) == r
  {
    hide PlainText, PhaseText, AccessText;
  }

  /** Every spelling is read back as the register it spells. */
  lemma ReadBack(r: Reg)
    requires Used(r)
    ensures ReadReg(RegText(r)) == r
  {
    hide ReadReg, RegText;
    match r
    case RowOffset(_) => RowBack(r);
    case Index32(_) => Index32Back(r);
    case Index(_) => IndexBack(r);
    case CellPtr(_) => CellBack(r);
    case LoadedI8(_) => LoadedI8Back(r);
    case LoadedI32(_) => LoadedI32Back(r);
    case QkProduct(_) => ProductBack(r);
    case Dot(_) => DotBack(r);
    case DotNext(_) => DotBack(r);
    case Depth(_) => DepthBack(r);
    case DepthNext(_) => DepthBack(r);
    case HasDepth(_) => DepthBack(r);
    case Arg => FieldBack(r);
    case FieldPtr(_) => FieldBack(r);
    case FieldValue(_) => FieldBack(r);
    case Base(_) => FieldBack(r);
    case BlockX => PlainBack0(r);
    case BlockX64 => PlainBack0(r);
    case BlockXRaw => PlainBack0(r);
    case BlockZ => PlainBack0(r);
    case BlockZ64 => PlainBack0(r);
    case BlockZRaw => PlainBack0(r);
    case BlockDimX => PlainBack0(r);
    case BlockDimX64 => PlainBack0(r);
    case BlockDimXRaw => PlainBack1(r);
    case ThreadX => PlainBack1(r);
    case ThreadX64 => PlainBack1(r);
    case ThreadY => PlainBack1(r);
    case ThreadY64 => PlainBack1(r);
    case QueryBase => PlainBack1(r);
    case Query => PlainBack1(r);
    case DimTileBase => PlainBack1(r);
    case DimStart => PlainBack2(r);
    case DimTileEnd => PlainBack2(r);
    case QueryOob => PlainBack2(r);
    case Dim => PlainBack2(r);
    case DimLtHead => PlainBack2(r);
    case DimLtTileEnd => PlainBack2(r);
    case HasDim => PlainBack2(r);
    case DimNext => PlainBack2(r);
    case Score0F32 => PlainBack3(r);
    case MaxKey => PlainBack3(r);
    case MaxScore => PlainBack3(r);
    case MaxHasKey => PlainBack3(r);
    case MaxCandidate => PlainBack4(r);
    case MaxIsLarger => PlainBack4(r);
    case MaxScoreNext => PlainBack4(r);
    case MaxKeyNext => PlainBack4(r);
    case SoftmaxKey => PlainBack5(r);
    case Denom => PlainBack5(r);
    case Numer => PlainBack5(r);
    case SoftmaxHasKey => PlainBack5(r);
    case SoftmaxScore => PlainBack6(r);
    case SoftmaxShifted => PlainBack6(r);
    case SoftmaxWeight => PlainBack6(r);
    case SoftmaxVF32 => PlainBack6(r);
    case SoftmaxWeightedV => PlainBack7(r);
    case DenomNext => PlainBack7(r);
    case NumerNext => PlainBack7(r);
    case SoftmaxKeyNext => PlainBack7(r);
    case OutRaw => PlainBack8(r);
    case OutGtMax => PlainBack8(r);
    case OutHi => PlainBack8(r);
    case OutLtMin => PlainBack8(r);
    case OutClamped => PlainBack9(r);
    case OutI32 => PlainBack9(r);
    case OutI8 => PlainBack9(r);
  }

  /** So different registers are spelled differently. */
  lemma RegistersApart(r: Reg, s: Reg)
    requires Used(r) && Used(s)
    ensures RegText(r) == RegText(s) <==> r == s
  {
    hide RegText, ReadReg;
    ReadBack(r);
    ReadBack(s);
  }

  // ----- constants -----

  lemma PhaseShape(p: Phase)
    ensures PhaseText(p) != "" && PhaseText(p)[0] != 'v' && PhaseText(p)[0] != '_' && IsIdentifier(PhaseText(p))
  {
  }

  lemma AccessShape(a: Access)
    ensures AccessText(a) != "" && AccessText(a)[0] != 'v'
  {
    hide PhaseText;
    if a.DotQ? || a.DotK? {
      PhaseShape(a.phase);
    }
  }

  lemma FieldShape(f: Field)
    ensures |FieldText(f)| > 1 && (FieldText(f)[0] == 'v' ==> FieldText(f)[1] == '_')
  {
  }

  lemma AccessRegShape(r: Reg, a: Access)
    requires r in {RowOffset(a), Index32(a), Index(a), CellPtr(a), LoadedI8(a), LoadedI32(a)}
    ensures ShapedApart(RegText(r))
  {
    hide PlainText, AccessText, PhaseText, FieldText;
    AccessShape(a);
  }

  lemma PhaseRegShape(r: Reg, p: Phase)
    requires r in {QkProduct(p), Depth(p), Dot(p), DepthNext(p), DotNext(p), HasDepth(p)}
    ensures ShapedApart(RegText(r))
  {
    hide PlainText, AccessText, PhaseText, FieldText;
    PhaseShape(p);
  }

  lemma FieldRegShape(r: Reg)
    requires r.Arg? || r.FieldPtr? || r.FieldValue? || r.Base?
    ensures ShapedApart(RegText(r))
  {
    hide PlainText, AccessText, PhaseText, FieldText;
    if r.FieldPtr? || r.FieldValue? {
      FieldShape(r.field);
    }
  }

  lemma RegisterShape(r: Reg)
    ensures ShapedApart(RegText(r))
  {
    hide RegText, ShapedApart;
    match r
    case RowOffset(a) => AccessRegShape(r, a);
    case Index32(a) => AccessRegShape(r, a);
    case Index(a) => AccessRegShape(r, a);
    case CellPtr(a) => AccessRegShape(r, a);
    case LoadedI8(a) => AccessRegShape(r, a);
    case LoadedI32(a) => AccessRegShape(r, a);
    case QkProduct(p) => PhaseRegShape(r, p);
    case Depth(p) => PhaseRegShape(r, p);
    case Dot(p) => PhaseRegShape(r, p);
    case DepthNext(p) => PhaseRegShape(r, p);
    case DotNext(p) => PhaseRegShape(r, p);
    case HasDepth(p) => PhaseRegShape(r, p);
    case Arg => FieldRegShape(r);
    case FieldPtr(_) => FieldRegShape(r);
    case FieldValue(_) => FieldRegShape(r);
    case Base(_) => FieldRegShape(r);
    case BlockX => PlainBack0(r);
    case BlockX64 => PlainBack0(r);
    case BlockXRaw => PlainBack0(r);
    case BlockZ => PlainBack0(r);
    case BlockZ64 => PlainBack0(r);
    case BlockZRaw => PlainBack0(r);
    case BlockDimX => PlainBack0(r);
    case BlockDimX64 => PlainBack0(r);
    case BlockDimXRaw => PlainBack1(r);
    case ThreadX => PlainBack1(r);
    case ThreadX64 => PlainBack1(r);
    case ThreadY => PlainBack1(r);
    case ThreadY64 => PlainBack1(r);
    case QueryBase => PlainBack1(r);
    case Query => PlainBack1(r);
    case DimTileBase => PlainBack1(r);
    case DimStart => PlainBack2(r);
    case DimTileEnd => PlainBack2(r);
    case QueryOob => PlainBack2(r);
    case Dim => PlainBack2(r);
    case DimLtHead => PlainBack2(r);
    case DimLtTileEnd => PlainBack2(r);
    case HasDim => PlainBack2(r);
    case DimNext => PlainBack2(r);
    case Score0F32 => PlainBack3(r);
    case MaxKey => PlainBack3(r);
    case MaxScore => PlainBack3(r);
    case MaxHasKey => PlainBack3(r);
    case MaxCandidate => PlainBack4(r);
    case MaxIsLarger => PlainBack4(r);
    case MaxScoreNext => PlainBack4(r);
    case MaxKeyNext => PlainBack4(r);
    case SoftmaxKey => PlainBack5(r);
    case Denom => PlainBack5(r);
    case Numer => PlainBack5(r);
    case SoftmaxHasKey => PlainBack5(r);
    case SoftmaxScore => PlainBack6(r);
    case SoftmaxShifted => PlainBack6(r);
    case SoftmaxWeight => PlainBack6(r);
    case SoftmaxVF32 => PlainBack6(r);
    case SoftmaxWeightedV => PlainBack7(r);
    case DenomNext => PlainBack7(r);
    case NumerNext => PlainBack7(r);
    case SoftmaxKeyNext => PlainBack7(r);
    case OutRaw => PlainBack8(r);
    case OutGtMax => PlainBack8(r);
    case OutHi => PlainBack8(r);
    case OutLtMin => PlainBack8(r);
    case OutClamped => PlainBack9(r);
    case OutI32 => PlainBack9(r);
    case OutI8 => PlainBack9(r);
  }

  lemma DotLabelShape(l: Label)
    requires l.DotLoop? || l.DotBody?
    ensures IsIdentifier(LabelText(l)) && LabelText(l) != "" && LabelText(l)[0] != '_'
  {
    hide PhaseText;
    PhaseShape(l.phase);
  }

  lemma KeyLabelShape(l: Label)
    requires l in {MaxKeyLoop, MaxUpdate, SoftmaxKeyLoop, SoftmaxUpdate}
    ensures IsIdentifier(LabelText(l)) && LabelText(l) != "" && LabelText(l)[0] != '_'
  {
  }

  lemma OuterLabelShape(l: Label)
    requires l in {Entry, DimLoop, StoreOutput, Exit}
    ensures IsIdentifier(LabelText(l)) && LabelText(l) != "" && LabelText(l)[0] != '_'
  {
  }

  lemma LabelShape(l: Label)
    ensures IsIdentifier(LabelText(l)) && LabelText(l) != "" && LabelText(l)[0] != '_'
  {
    hide LabelText, IsIdentifier;
    if l.DotLoop? || l.DotBody? {
      DotLabelShape(l);
    } else if l in {MaxKeyLoop, MaxUpdate, SoftmaxKeyLoop, SoftmaxUpdate} {
      KeyLabelShape(l);
    } else {
      OuterLabelShape(l);
    }
  }

  lemma ConstantsApart(r: Reg, l: Label, n: nat, ty: TypeSuffix)
    ensures RegText(r) != ValueName(LabelText(l), n, ty)
  {
    hide RegText, LabelText, Sanitized;
    RegisterShape(r);
    LabelShape(l);
    var t, s := ValueName(LabelText(l), n, ty), Sanitized(LabelText(l));
    assert t[1] == s[0] && t[2] == s[1];
  }

  function ReadLabel(s: string): Label {
    if |s| == 4 then Exit
    else if |s| == 5 then Entry
    else if |s| == 8 then DimLoop
    else if |s| == 10 then MaxUpdate
    else if |s| == 14 then SoftmaxUpdate
    else if |s| == 12 then (if s[4] == 'd' then (if s[8] == 'l' then DotLoop(Max) else DotBody(Max))
                            else if s[4] == 'k' then MaxKeyLoop else StoreOutput)
    else if |s| == 15 then (if s[11] == 'l' then DotLoop(Score0) else DotBody(Score0))
    else if |s| == 16 then (if s[8] == 'k' then SoftmaxKeyLoop else if s[12] == 'l' then DotLoop(Softmax) else DotBody(Softmax))
    else Exit
  }

  lemma LabelBack(l: Label)
    ensures ReadLabel(LabelText(l)) == l
  {
  }

  /** Different labels are different prefixes of constants. */
  lemma LabelsApart(l: Label, m: Label)
    ensures Sanitized(LabelText(l)) == Sanitized(LabelText(m)) <==> l == m
  {
    hide LabelText, ReadLabel, Sanitized;
    LabelShape(l);
    LabelShape(m);
    SanitizeCollides(LabelText(l), LabelText(m));
    LabelBack(l);
    LabelBack(m);
  }
}
