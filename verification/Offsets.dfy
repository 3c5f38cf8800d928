/** Row-major offsets: in range, and decoded by division. */
module Offsets {
  import opened Arithmetic

  lemma InRange(row: nat, rows: nat, col: nat, width: nat)
    requires row < rows && col < width
    ensures row * width + col < row * width + width <= rows * width
  {
    MulLe(row + 1, rows, width);
  }

  lemma Decode(row: nat, col: nat, width: nat)
    requires col < width
    ensures (row * width + col) / width == row && (row * width + col) % width == col
  {
    var i := row * width + col;
    var q := i / width;
    assert i == q * width + i % width;
    if q < row {
      MulLe(q + 1, row, width);
    } else if q > row {
      MulLe(row + 1, q, width);
    }
  }

  lemma RowBound(i: nat, rows: nat, width: nat)
    requires i < rows * width
    ensures width > 0 && i / width < rows && i % width < width && i == (i / width) * width + i % width
  {
    if i / width >= rows {
      MulLe(rows, i / width, width);
    }
  }

  // ----- rows of a flat matrix -----

  function RowOf<T>(s: seq<T>, row: nat, width: nat): (r: seq<T>)
    ensures row * width + width <= |s| ==> |r| == width
  {
    if row * width + width <= |s| then s[row * width..row * width + width] else []
  }

  lemma RowFits(row: nat, rows: nat, width: nat)
    requires row < rows
    ensures row * width + width <= rows * width
    ensures (row + 1) * width == row * width + width
  {
    MulLe(row + 1, rows, width);
  }

  /** Writing row `row` leaves every earlier row as it was. */
  lemma EarlierRow<T>(s: seq<T>, t: seq<T>, earlier: nat, row: nat, width: nat)
    requires earlier < row && |s| == |t| && row * width <= |s| && s[..row * width] == t[..row * width]
    ensures RowOf(s, earlier, width) == RowOf(t, earlier, width)
  {
    RowFits(earlier, row, width);
    var a, b := earlier * width, earlier * width + width;
    assert s[a..b] == s[..row * width][a..b];
    assert t[a..b] == t[..row * width][a..b];
  }
}
