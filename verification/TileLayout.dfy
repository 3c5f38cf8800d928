/** Layouts and thread maps of a tile (crates/schedule/src/layout.rs), in checked machine arithmetic. */
module TileLayout {
  import opened Options
  import opened Arithmetic
  import opened Offsets

  datatype Shape2D = Shape2D(rows: nat, cols: nat) {
    predicate IsNonzero() { rows != 0 && cols != 0 }
    predicate Word() { rows < USIZE_LIMIT && cols < USIZE_LIMIT }
  }

  datatype Stride2D = Stride2D(row: nat, col: nat)

  datatype Layout2D = Layout2D(shape: Shape2D, stride: Stride2D) {
    static function RowMajor(rows: nat, cols: nat): Layout2D { Layout2D(Shape2D(rows, cols), Stride2D(cols, 1)) }

    static function ColumnMajor(rows: nat, cols: nat): Layout2D { Layout2D(Shape2D(rows, cols), Stride2D(1, rows)) }

    function ElementOffset(row: nat, col: nat): Option<nat> {
      if row >= shape.rows || col >= shape.cols then None
      else
        var a := CheckedMul(row, stride.row);
        if a.None? then None
        else
          var b := CheckedMul(col, stride.col);
          if b.None? then None else CheckedAdd(a.value, b.value)
    }

    function SpanElements(): Option<nat> {
      if !shape.IsNonzero() then Some(0)
      else
        var last := ElementOffset(shape.rows - 1, shape.cols - 1);
        if last.None? then None else CheckedAdd(last.value, 1)
    }
  }

  datatype ThreadTileMap2D = ThreadTileMap2D(tile: Shape2D, blockX: nat, blockY: nat, values: Shape2D) {
    predicate Word() { tile.Word() && values.Word() && blockX < USIZE_LIMIT && blockY < USIZE_LIMIT }

    function LogicalCoord(x: nat, y: nat, r: nat, c: nat): Option<(nat, nat)> {
      if x >= blockX || y >= blockY || r >= values.rows || c >= values.cols then None
      else
        var rowBase := CheckedMul(y, values.rows);
        if rowBase.None? then None
        else
          var row := CheckedAdd(rowBase.value, r);
          if row.None? then None
          else
            var colBase := CheckedMul(x, values.cols);
            if colBase.None? then None
            else
              var col := CheckedAdd(colBase.value, c);
              if col.None? then None
              else if row.value < tile.rows && col.value < tile.cols then Some((row.value, col.value)) else None
    }

    predicate CoversTile() {
      && values.IsNonzero()
      && CheckedMul(blockY, values.rows).Some? && CheckedMul(blockX, values.cols).Some?
      && blockY * values.rows >= tile.rows && blockX * values.cols >= tile.cols
    }
  }

  // ----- row-major layouts -----

  /** A row-major layout whose span fits a word numbers its elements row after row, without overflow. */
  lemma RowMajorOffset(rows: nat, cols: nat, row: nat, col: nat)
    requires Layout2D.RowMajor(rows, cols).SpanElements().Some? && row < rows && col < cols
    ensures Layout2D.RowMajor(rows, cols).ElementOffset(row, col) == Some(row * cols + col)
    ensures row * cols + col < rows * cols
    ensures Layout2D.RowMajor(rows, cols).SpanElements() == Some(rows * cols)
  {
    InRange(row, rows, col, cols);
    InRange(rows - 1, rows, cols - 1, cols);
    assert (rows - 1) * cols + cols == rows * cols;
  }

  /** The span is always the element count, when it has one. */
  lemma SpanIsCount(rows: nat, cols: nat)
    ensures var span := Layout2D.RowMajor(rows, cols).SpanElements(); span.Some? ==> span.value == rows * cols
  {
    if Layout2D.RowMajor(rows, cols).SpanElements().Some? && rows > 0 && cols > 0 {
      RowMajorOffset(rows, cols, 0, 0);
    }
  }

  // ----- the thread map -----

  datatype Slot = Slot(x: nat, y: nat, r: nat, c: nat)

  function CoordOf(m: ThreadTileMap2D, s: Slot): Option<(nat, nat)> { m.LogicalCoord(s.x, s.y, s.r, s.c) }

  /** The only slot that can hold a coordinate. */
  function SlotOf(m: ThreadTileMap2D, row: nat, col: nat): Slot
    requires m.values.IsNonzero()
  {
    Slot(col / m.values.cols, row / m.values.rows, row % m.values.rows, col % m.values.cols)
  }

  lemma CoordUnique(m: ThreadTileMap2D, s: Slot, row: nat, col: nat)
    requires CoordOf(m, s) == Some((row, col))
    ensures m.values.IsNonzero() && s == SlotOf(m, row, col) && row < m.tile.rows && col < m.tile.cols
  {
    Decode(s.y, s.r, m.values.rows);
    Decode(s.x, s.c, m.values.cols);
  }

  lemma AxisReached(i: nat, blocks: nat, width: nat)
    requires width > 0
    ensures i / width < blocks <==> i < blocks * width
    ensures (i / width) * width + i % width == i && i % width < width
  {
    if i < blocks * width {
      RowBound(i, blocks, width);
    } else if i / width < blocks {
      InRange(i / width, blocks, i % width, width);
    }
  }

  /** A coordinate of the tile is held by its slot exactly when the block reaches that far. */
  lemma CoordReached(m: ThreadTileMap2D, row: nat, col: nat)
    requires m.Word() && m.values.IsNonzero() && row < m.tile.rows && col < m.tile.cols
    ensures CoordOf(m, SlotOf(m, row, col)) == Some((row, col))
            <==> row < m.blockY * m.values.rows && col < m.blockX * m.values.cols
  {
    hide ThreadTileMap2D.LogicalCoord;
    AxisReached(row, m.blockY, m.values.rows);
    AxisReached(col, m.blockX, m.values.cols);
    var s := SlotOf(m, row, col);
    SlotCoord(m, row, col, s.y, s.r, s.x, s.c);
  }

  lemma SlotCoord(m: ThreadTileMap2D, row: nat, col: nat, y: nat, r: nat, x: nat, c: nat)
    requires m.Word() && row < m.tile.rows && col < m.tile.cols && r < m.values.rows && c < m.values.cols
    requires y * m.values.rows + r == row && x * m.values.cols + c == col
    ensures m.LogicalCoord(x, y, r, c) == if x < m.blockX && y < m.blockY then Some((row, col)) else None
  {
  }

  ghost predicate HeldOnce(m: ThreadTileMap2D, row: nat, col: nat) {
    && (exists s :: CoordOf(m, s) == Some((row, col)))
    && forall s, s' :: CoordOf(m, s) == Some((row, col)) && CoordOf(m, s') == Some((row, col)) ==> s == s'
  }

  /** Covering means that every coordinate of the tile comes from exactly one thread and value slot. */
  lemma CoveredOnce(m: ThreadTileMap2D, row: nat, col: nat)
    requires m.Word() && m.CoversTile() && row < m.tile.rows && col < m.tile.cols
    ensures HeldOnce(m, row, col)
  {
    CoordReached(m, row, col);
    assert CoordOf(m, SlotOf(m, row, col)) == Some((row, col));
    forall s, s' | CoordOf(m, s) == Some((row, col)) && CoordOf(m, s') == Some((row, col)) ensures s == s' {
      CoordUnique(m, s, row, col);
      CoordUnique(m, s', row, col);
    }
  }

  /** For a nonempty tile the check is exact, except where a product does not fit a word: then it refuses. */
  lemma CoversIff(m: ThreadTileMap2D)
    requires m.Word() && m.tile.IsNonzero()
    ensures m.CoversTile() <==>
              && CheckedMul(m.blockY, m.values.rows).Some? && CheckedMul(m.blockX, m.values.cols).Some?
              && forall row, col :: 0 <= row < m.tile.rows && 0 <= col < m.tile.cols ==> HeldOnce(m, row, col)
  {
    if m.CoversTile() {
      forall row, col | 0 <= row < m.tile.rows && 0 <= col < m.tile.cols ensures HeldOnce(m, row, col) {
        CoveredOnce(m, row, col);
      }
    } else if forall row, col :: 0 <= row < m.tile.rows && 0 <= col < m.tile.cols ==> HeldOnce(m, row, col) {
      var row, col := m.tile.rows - 1, m.tile.cols - 1;
      assert HeldOnce(m, row, col);
      var s :| CoordOf(m, s) == Some((row, col));
      CoordUnique(m, s, row, col);
      CoordReached(m, row, col);
    }
  }

  /** A map whose threads reach every coordinate, refused because a product overflows. */
  lemma OverflowRefused()
    ensures var m := ThreadTileMap2D(Shape2D(1, 1), 1, 0x8000_0000_0000_0000, Shape2D(2, 1));
            m.Word() && !m.CoversTile() && forall row, col :: 0 <= row < 1 && 0 <= col < 1 ==> HeldOnce(m, row, col)
  {
    var m := ThreadTileMap2D(Shape2D(1, 1), 1, 0x8000_0000_0000_0000, Shape2D(2, 1));
    CoordReached(m, 0, 0);
    assert CoordOf(m, SlotOf(m, 0, 0)) == Some((0, 0));
    forall s, s' | CoordOf(m, s) == Some((0, 0)) && CoordOf(m, s') == Some((0, 0)) ensures s == s' {
      CoordUnique(m, s, 0, 0);
      CoordUnique(m, s', 0, 0);
    }
  }

  // ----- map and layout together -----

  /** The element a slot touches in a row-major tile. */
  function ElementOf(m: ThreadTileMap2D, s: Slot): Option<nat> {
    var coord := CoordOf(m, s);
    if coord.None? then None
    else Layout2D.RowMajor(m.tile.rows, m.tile.cols).ElementOffset(coord.value.0, coord.value.1)
  }

  ghost predicate InSpan(m: ThreadTileMap2D, s: Slot, n: nat) {
    CoordOf(m, s).Some? ==> ElementOf(m, s).Some? && ElementOf(m, s).value < n
  }

  ghost predicate Touched(m: ThreadTileMap2D, i: nat) { exists s :: ElementOf(m, s) == Some(i) }

  /** Distinct slots touch distinct elements, all within the span, and every element is touched: a bijection. */
  lemma TileBijection(m: ThreadTileMap2D, n: nat)
    requires m.Word() && m.CoversTile() && Layout2D.RowMajor(m.tile.rows, m.tile.cols).SpanElements() == Some(n)
    ensures forall s :: InSpan(m, s, n)
    ensures forall s, s' :: ElementOf(m, s).Some? && ElementOf(m, s) == ElementOf(m, s') ==> s == s'
    ensures forall i :: 0 <= i < n ==> Touched(m, i)
  {
    hide ElementOf, InSpan, Touched, CoordOf, Layout2D.SpanElements;
    forall s ensures InSpan(m, s, n) {
      SlotInSpan(m, s, n);
    }
    forall s, s' | ElementOf(m, s).Some? && ElementOf(m, s) == ElementOf(m, s') ensures s == s' {
      ElementHasCoord(m, s);
      ElementHasCoord(m, s');
      SlotElement(m, s, n);
      SlotElement(m, s', n);
    }
    forall i | 0 <= i < n ensures Touched(m, i) {
      ElementTouched(m, n, i);
    }
  }

  lemma ElementHasCoord(m: ThreadTileMap2D, s: Slot)
    ensures ElementOf(m, s).Some? ==> CoordOf(m, s).Some?
  {
    hide CoordOf, Layout2D.ElementOffset;
  }

  lemma SlotInSpan(m: ThreadTileMap2D, s: Slot, n: nat)
    requires m.CoversTile() && Layout2D.RowMajor(m.tile.rows, m.tile.cols).SpanElements() == Some(n)
    ensures InSpan(m, s, n)
  {
    hide ElementOf, CoordOf, Layout2D.SpanElements;
    if CoordOf(m, s).Some? {
      SlotElement(m, s, n);
    }
  }

  lemma ElementTouched(m: ThreadTileMap2D, n: nat, i: nat)
    requires m.Word() && m.CoversTile() && Layout2D.RowMajor(m.tile.rows, m.tile.cols).SpanElements() == Some(n) && i < n
    ensures Touched(m, i)
  {
    hide ElementOf, CoordOf, Layout2D.SpanElements, HeldOnce, ThreadTileMap2D.CoversTile, SlotOf;
    SpanIsCount(m.tile.rows, m.tile.cols);
    RowBound(i, m.tile.rows, m.tile.cols);
    var row, col := i / m.tile.cols, i % m.tile.cols;
    CoveredOnce(m, row, col);
    var s := HolderOf(m, row, col);
    SlotElement(m, s, n);
  }

  lemma HolderOf(m: ThreadTileMap2D, row: nat, col: nat) returns (s: Slot)
    requires HeldOnce(m, row, col)
    ensures CoordOf(m, s) == Some((row, col))
  {
    s :| CoordOf(m, s) == Some((row, col));
  }

  /** The element of a slot determines its coordinate, and so the slot. */
  lemma SlotElement(m: ThreadTileMap2D, s: Slot, n: nat)
    requires m.CoversTile() && CoordOf(m, s).Some?
    requires Layout2D.RowMajor(m.tile.rows, m.tile.cols).SpanElements() == Some(n)
    ensures var coord := CoordOf(m, s).value;
            && ElementOf(m, s) == Some(coord.0 * m.tile.cols + coord.1) && ElementOf(m, s).value < n
            && m.tile.cols > 0
            && coord.0 == ElementOf(m, s).value / m.tile.cols && coord.1 == ElementOf(m, s).value % m.tile.cols
            && s == SlotOf(m, coord.0, coord.1)
  {
    hide ThreadTileMap2D.LogicalCoord, Layout2D.ElementOffset, Layout2D.SpanElements;
    var coord := CoordOf(m, s).value;
    CoordUnique(m, s, coord.0, coord.1);
    RowMajorOffset(m.tile.rows, m.tile.cols, coord.0, coord.1);
    Decode(coord.0, coord.1, m.tile.cols);
  }

  // ----- neighbours -----

  /** In any layout an offset moves by the column stride to the right and by the row stride down, from zero at the
      origin, wherever it exists. */
  lemma OffsetSteps(l: Layout2D, row: nat, col: nat)
    ensures l.ElementOffset(0, 0) == if l.shape.IsNonzero() then Some(0) else None
    ensures l.ElementOffset(row, col).Some? && l.ElementOffset(row, col + 1).Some? ==>
              l.ElementOffset(row, col + 1).value == l.ElementOffset(row, col).value + l.stride.col
    ensures l.ElementOffset(row, col).Some? && l.ElementOffset(row + 1, col).Some? ==>
              l.ElementOffset(row + 1, col).value == l.ElementOffset(row, col).value + l.stride.row
  {
    assert (col + 1) * l.stride.col == col * l.stride.col + l.stride.col;
    assert (row + 1) * l.stride.row == row * l.stride.row + l.stride.row;
  }

  /** A column-major layout is the row-major layout of the transposed shape. */
  lemma ColumnMajorTransposes(rows: nat, cols: nat, row: nat, col: nat)
    requires rows < USIZE_LIMIT && cols < USIZE_LIMIT
    ensures Layout2D.ColumnMajor(rows, cols).ElementOffset(row, col) == Layout2D.RowMajor(cols, rows).ElementOffset(col, row)
    ensures Layout2D.ColumnMajor(rows, cols).SpanElements() == Layout2D.RowMajor(cols, rows).SpanElements()
  {
  }

  /** The first value of the first thread is the tile's origin; the next value of a thread is the next coordinate, and the
      next thread begins where this one's values end. */
  lemma CoordSteps(m: ThreadTileMap2D, x: nat, y: nat, r: nat, c: nat)
    requires m.Word() && CoordOf(m, Slot(x, y, r, c)).Some?
    ensures CoordOf(m, Slot(0, 0, 0, 0)) == Some((0, 0))
    ensures var (row, col) := CoordOf(m, Slot(x, y, r, c)).value;
            && (r + 1 < m.values.rows && row + 1 < m.tile.rows ==> CoordOf(m, Slot(x, y, r + 1, c)) == Some((row + 1, col)))
            && (c + 1 < m.values.cols && col + 1 < m.tile.cols ==> CoordOf(m, Slot(x, y, r, c + 1)) == Some((row, col + 1)))
            && (y + 1 < m.blockY && row + m.values.rows < m.tile.rows ==>
                  CoordOf(m, Slot(x, y + 1, r, c)) == Some((row + m.values.rows, col)))
            && (x + 1 < m.blockX && col + m.values.cols < m.tile.cols ==>
                  CoordOf(m, Slot(x + 1, y, r, c)) == Some((row, col + m.values.cols)))
  {
    hide ThreadTileMap2D.LogicalCoord;
    CoordParts(m, x, y, r, c);
    var (row, col) := CoordOf(m, Slot(x, y, r, c)).value;
    var h, w := m.values.rows, m.values.cols;
    assert (y + 1) * h + r == row + h && (x + 1) * w + c == col + w;
    SlotCoord(m, 0, 0, 0, 0, 0, 0);
    if r + 1 < h && row + 1 < m.tile.rows {
      SlotCoord(m, row + 1, col, y, r + 1, x, c);
    }
    if c + 1 < w && col + 1 < m.tile.cols {
      SlotCoord(m, row, col + 1, y, r, x, c + 1);
    }
    if y + 1 < m.blockY && row + h < m.tile.rows {
      SlotCoord(m, row + h, col, y + 1, r, x, c);
    }
    if x + 1 < m.blockX && col + w < m.tile.cols {
      SlotCoord(m, row, col + w, y, r, x + 1, c);
    }
  }

  lemma CoordParts(m: ThreadTileMap2D, x: nat, y: nat, r: nat, c: nat)
    requires m.LogicalCoord(x, y, r, c).Some?
    ensures var (row, col) := m.LogicalCoord(x, y, r, c).value;
            && row == y * m.values.rows + r && col == x * m.values.cols + c && row < m.tile.rows && col < m.tile.cols
    ensures x < m.blockX && y < m.blockY && r < m.values.rows && c < m.values.cols
  {
  }
}
