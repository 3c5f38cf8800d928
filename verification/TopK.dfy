/** Row-wise top-k selection (crates/kernels/src/lib.rs): values and indices kept sorted in place. */
module TopK {
  import opened Floats
  import opened Offsets

  const USIZE_MAX: nat := 0xFFFF_FFFF_FFFF_FFFF

  // ----- insertion -----

  /** The first slot whose value is smaller. */
  function FirstSmaller(vals: seq<F32>, v: F32): (p: nat)
    ensures p <= |vals|
    ensures forall i :: 0 <= i < p ==> !Gt(v, vals[i])
    ensures p < |vals| ==> Gt(v, vals[p])
  {
    if vals == [] || Gt(v, vals[0]) then 0 else 1 + FirstSmaller(vals[1..], v)
  }

  /** `x` at slot `p`, the later slots shifted, the last one dropped. */
  function InsertedAt<T>(row: seq<T>, p: nat, x: T): (r: seq<T>)
    requires p <= |row|
    ensures |r| == |row|
  {
    if p == |row| then row else row[..p] + [x] + row[p..|row| - 1]
  }

  /** What an insertion at `slot` of the row at `lo..lo + k` leaves in an array. */
  ghost predicate Shifted<T>(before: seq<T>, after: seq<T>, lo: nat, k: nat, slot: nat, x: T) {
    && lo + k <= |before| && |before| == |after| && slot < k
    && forall i {:trigger after[i]} :: 0 <= i < |after| ==>
         after[i] == if i == lo + slot then x else if lo + slot < i < lo + k then before[i - 1] else before[i]
  }

  lemma ShiftedIsInserted<T>(before: seq<T>, after: seq<T>, lo: nat, k: nat, slot: nat, x: T)
    requires Shifted(before, after, lo, k, slot, x)
    ensures after == before[..lo] + InsertedAt(before[lo..lo + k], slot, x) + before[lo + k..]
  {
    var row := before[lo..lo + k];
    assert InsertedAt(row, slot, x) == row[..slot] + [x] + row[slot..k - 1];
    forall i | 0 <= i < |after|
      ensures after[i] == (before[..lo] + InsertedAt(row, slot, x) + before[lo + k..])[i]
    {
      assert lo + slot < i < lo + k ==> row[slot..k - 1][i - lo - slot - 1] == before[i - 1];
    }
  }

  method ShiftIn(candidate: F32, index: nat, values: array<F32>, indices: array<nat>, lo: nat, k: nat, slot: nat)
    requires lo + k <= values.Length && lo + k <= indices.Length && slot < k
    modifies values, indices
    ensures Shifted(old(values[..]), values[..], lo, k, slot, candidate)
    ensures Shifted(old(indices[..]), indices[..], lo, k, slot, index)
  {
    var shift := k;
    while shift > slot + 1
      invariant slot < shift <= k
      invariant forall i :: 0 <= i < values.Length ==>
                  values[i] == if lo + shift <= i < lo + k then old(values[i - 1]) else old(values[i])
      invariant forall i :: 0 <= i < indices.Length ==>
                  indices[i] == if lo + shift <= i < lo + k then old(indices[i - 1]) else old(indices[i])
    {
      shift := shift - 1;
      values[lo + shift] := values[lo + shift - 1];
      indices[lo + shift] := indices[lo + shift - 1];
    }
    values[lo + slot] := candidate;
    indices[lo + slot] := index;
  }

  method InsertTopk(candidate: F32, index: nat, values: array<F32>, indices: array<nat>, lo: nat, k: nat)
    requires lo + k <= values.Length && lo + k <= indices.Length
    modifies values, indices
    ensures var p := FirstSmaller(old(values[lo..lo + k]), candidate);
            && values[..] == old(values[..lo]) + InsertedAt(old(values[lo..lo + k]), p, candidate) + old(values[lo + k..])
            && indices[..] == old(indices[..lo]) + InsertedAt(old(indices[lo..lo + k]), p, index) + old(indices[lo + k..])
  {
    hide Gt, FirstSmaller, InsertedAt, Shifted;
    ghost var vals, idxs := values[..], indices[..];
    ghost var row := vals[lo..lo + k];
    NoInsertion(vals, lo, k, candidate);
    NoInsertion(idxs, lo, k, index);
    var slot := 0;
    while slot < k
      invariant slot <= k && values[..] == vals && indices[..] == idxs
      invariant forall i :: 0 <= i < slot ==> !Gt(candidate, row[i])
    {
      assert row[slot] == values[lo + slot];
      if Gt(candidate, values[lo + slot]) {
        ShiftIn(candidate, index, values, indices, lo, k, slot);
        ShiftedIsInserted(vals, values[..], lo, k, slot, candidate);
        ShiftedIsInserted(idxs, indices[..], lo, k, slot, index);
        break;
      }
      slot := slot + 1;
    }
    FirstSmallerIs(row, candidate, slot);
  }

  lemma NoInsertion<T>(s: seq<T>, lo: nat, k: nat, x: T)
    requires lo + k <= |s|
    ensures s == s[..lo] + InsertedAt(s[lo..lo + k], k, x) + s[lo + k..]
  {
  }

  lemma FirstSmallerIs(vals: seq<F32>, v: F32, p: nat)
    requires p <= |vals| && (forall i :: 0 <= i < p ==> !Gt(v, vals[i])) && (p < |vals| ==> Gt(v, vals[p]))
    ensures FirstSmaller(vals, v) == p
  {
  }

  // ----- the stable descending order -----

  /** Position `i` ranks before position `j`: a greater value, or an equal one that comes earlier. */
  predicate Before(xs: seq<F32>, i: nat, j: nat)
    requires i < |xs| && j < |xs|
  {
    Gt(xs[i], xs[j]) || (xs[i] == xs[j] && i < j)
  }

  /** A value that can be selected at all. */
  predicate Selectable(v: F32) { Gt(v, NegInf) }

  function ValuesAt(xs: seq<F32>, order: seq<nat>): (vals: seq<F32>)
    requires forall i :: 0 <= i < |order| ==> order[i] < |xs|
    ensures |vals| == |order| && forall i :: 0 <= i < |order| ==> vals[i] == xs[order[i]]
  {
    seq(|order|, i requires 0 <= i < |order| => xs[order[i]])
  }

  /** Sorted in the stable descending order. */
  ghost predicate Sorted(xs: seq<F32>, order: seq<nat>) {
    && (forall i :: 0 <= i < |order| ==> order[i] < |xs|)
    && forall i, j :: 0 <= i < j < |order| ==> Before(xs, order[i], order[j])
  }

  /** Exactly the selectable positions below `n`. */
  ghost predicate Lists(xs: seq<F32>, order: seq<nat>, n: nat)
    requires n <= |xs|
  {
    && (forall i :: 0 <= i < |order| ==> order[i] < n && Selectable(xs[order[i]]))
    && forall c :: 0 <= c < n && Selectable(xs[c]) ==> c in order
  }

  /** The selectable positions below `n`, ranked. */
  function Ranked(xs: seq<F32>, n: nat): (order: seq<nat>)
    requires n <= |xs|
    ensures forall i :: 0 <= i < |order| ==> order[i] < n
  {
    if n == 0 then []
    else
      var before := Ranked(xs, n - 1);
      if !Selectable(xs[n - 1]) then before
      else
        var p := FirstSmaller(ValuesAt(xs, before), xs[n - 1]);
        before[..p] + [n - 1] + before[p..]
  }

  lemma GtTrans(a: F32, b: F32, c: F32)
    requires Gt(a, b) && (Gt(b, c) || b == c)
    ensures Gt(a, c)
  {
  }

  lemma GtTotal(a: F32, b: F32)
    requires Selectable(a) && Selectable(b) && !Gt(b, a)
    ensures Gt(a, b) || a == b
  {
  }

  lemma OlderBefore(xs: seq<F32>, i: nat, c: nat)
    requires i < c < |xs| && Selectable(xs[i]) && Selectable(xs[c]) && !Gt(xs[c], xs[i])
    ensures Before(xs, i, c)
  {
    GtTotal(xs[i], xs[c]);
  }

  lemma NewerBefore(xs: seq<F32>, c: nat, i: nat, j: nat)
    requires c < |xs| && i < |xs| && j < |xs| && Gt(xs[c], xs[i]) && (i == j || Before(xs, i, j))
    ensures Before(xs, c, j)
  {
    GtTrans(xs[c], xs[i], xs[j]);
  }

  /** Inserting keeps the order. */
  lemma InsertSorted(xs: seq<F32>, before: seq<nat>, c: nat)
    requires c < |xs| && Selectable(xs[c]) && Sorted(xs, before) && Lists(xs, before, c)
    ensures var p := FirstSmaller(ValuesAt(xs, before), xs[c]);
            Sorted(xs, before[..p] + [c] + before[p..])
  {
    hide Selectable, Before, Gt, FirstSmaller;
    var p := FirstSmaller(ValuesAt(xs, before), xs[c]);
    var after := before[..p] + [c] + before[p..];
    forall i, j | 0 <= i < j < |after| ensures Before(xs, after[i], after[j]) {
      if j == p {
        OlderBefore(xs, before[i], c);
      } else if i == p {
        NewerBefore(xs, c, before[p], before[j - 1]);
      }
    }
  }

  lemma InsertLists(xs: seq<F32>, before: seq<nat>, c: nat, p: nat)
    requires c < |xs| && Selectable(xs[c]) && Lists(xs, before, c) && p <= |before|
    ensures Lists(xs, before[..p] + [c] + before[p..], c + 1)
  {
    var after := before[..p] + [c] + before[p..];
    assert after[p] == c;
    forall d | 0 <= d < c && Selectable(xs[d]) ensures d in after {
      var i :| 0 <= i < |before| && before[i] == d;
      assert after[if i < p then i else i + 1] == d;
    }
  }

  lemma SkipLists(xs: seq<F32>, order: seq<nat>, c: nat)
    requires c < |xs| && !Selectable(xs[c]) && Lists(xs, order, c)
    ensures Lists(xs, order, c + 1)
  {
    hide Selectable;
  }

  lemma NothingRanked(xs: seq<F32>)
    ensures Sorted(xs, []) && Lists(xs, [], 0)
  {
  }

  /** The ranking is the stable descending sort of the selectable positions. */
  lemma {:induction false} RankedIsSorted(xs: seq<F32>, n: nat)
    requires n <= |xs|
    ensures Sorted(xs, Ranked(xs, n)) && Lists(xs, Ranked(xs, n), n)
  {
    hide Selectable, Sorted, Lists, FirstSmaller;
    if n == 0 {
      NothingRanked(xs);
    } else {
      var before := Ranked(xs, n - 1);
      RankedIsSorted(xs, n - 1);
      if Selectable(xs[n - 1]) {
        InsertSorted(xs, before, n - 1);
        InsertLists(xs, before, n - 1, FirstSmaller(ValuesAt(xs, before), xs[n - 1]));
      } else {
        SkipLists(xs, before, n - 1);
      }
    }
  }

  lemma BeforeAsymmetric(xs: seq<F32>, i: nat, j: nat)
    requires i < |xs| && j < |xs| && Before(xs, i, j)
    ensures !Before(xs, j, i) && i != j
  {
  }

  /** No other listing of the same positions is sorted. */
  lemma {:induction false} SortedUnique(xs: seq<F32>, a: seq<nat>, b: seq<nat>)
    requires Sorted(xs, a) && Sorted(xs, b) && forall c :: c in a <==> c in b
    ensures a == b
  {
    hide Before;
    assert a != [] ==> a[0] in b;
    assert b != [] ==> b[0] in a;
    if a != [] {
      HeadsAgree(xs, a, b);
      forall c ensures c in a[1..] <==> c in b[1..] {
        TailMember(xs, a, c);
        TailMember(xs, b, c);
      }
      SortedUnique(xs, a[1..], b[1..]);
      assert a == [a[0]] + a[1..] && b == [b[0]] + b[1..];
    }
  }

  lemma HeadsAgree(xs: seq<F32>, a: seq<nat>, b: seq<nat>)
    requires Sorted(xs, a) && Sorted(xs, b) && a != [] && b != [] && a[0] in b && b[0] in a
    ensures a[0] == b[0]
  {
    hide Before;
    if a[0] != b[0] {
      var i :| 0 <= i < |b| && b[i] == a[0];
      var j :| 0 <= j < |a| && a[j] == b[0];
      assert Before(xs, b[0], b[i]) && Before(xs, a[0], a[j]);
      BeforeAsymmetric(xs, a[0], b[0]);
      assert false;
    }
  }

  lemma TailMember(xs: seq<F32>, a: seq<nat>, c: nat)
    requires Sorted(xs, a) && a != []
    ensures c in a[1..] <==> c in a && c != a[0]
  {
    if c in a[1..] {
      var i :| 0 <= i < |a[1..]| && a[1..][i] == c;
      assert Before(xs, a[0], a[i + 1]);
    }
  }

  // ----- a selected row -----

  function TopIndices(order: seq<nat>, k: nat): (r: seq<nat>)
    ensures |r| == k && forall i :: 0 <= i < k ==> r[i] == if i < |order| then order[i] else USIZE_MAX
  {
    seq(k, i requires 0 <= i < k => if i < |order| then order[i] else USIZE_MAX)
  }

  function TopValues(xs: seq<F32>, order: seq<nat>, k: nat): (r: seq<F32>)
    requires forall i :: 0 <= i < |order| ==> order[i] < |xs|
    ensures |r| == k && forall i :: 0 <= i < k ==> r[i] == if i < |order| then xs[order[i]] else NegInf
  {
    seq(k, i requires 0 <= i < k => if i < |order| then xs[order[i]] else NegInf)
  }

  lemma RankedNext(xs: seq<F32>, c: nat)
    requires c < |xs|
    ensures var order := Ranked(xs, c);
            var q := FirstSmaller(ValuesAt(xs, order), xs[c]);
            Ranked(xs, c + 1) == if Selectable(xs[c]) then order[..q] + [c] + order[q..] else order
  {
  }

  lemma SlotInRow(xs: seq<F32>, order: seq<nat>, k: nat, c: nat)
    requires c < |xs| && Selectable(xs[c]) && forall i :: 0 <= i < |order| ==> order[i] < |xs|
    ensures var q := FirstSmaller(ValuesAt(xs, order), xs[c]);
            FirstSmaller(TopValues(xs, order, k), xs[c]) == if q < k then q else k
  {
    hide FirstSmaller, Gt;
    var q := FirstSmaller(ValuesAt(xs, order), xs[c]);
    FirstSmallerIs(TopValues(xs, order, k), xs[c], if q < k then q else k);
  }

  /** A sequence cut or padded to `k` elements. */
  function Cut<T>(row: seq<T>, k: nat, pad: T): (r: seq<T>)
    ensures |r| == k && forall i :: 0 <= i < k ==> r[i] == if i < |row| then row[i] else pad
  {
    seq(k, i requires 0 <= i < k => if i < |row| then row[i] else pad)
  }

  lemma CutInsertion<T>(row: seq<T>, q: nat, k: nat, x: T, pad: T)
    requires q <= |row|
    ensures InsertedAt(Cut(row, k, pad), if q < k then q else k, x) == Cut(row[..q] + [x] + row[q..], k, pad)
  {
    var longer := row[..q] + [x] + row[q..];
    var a, b := InsertedAt(Cut(row, k, pad), if q < k then q else k, x), Cut(longer, k, pad);
    forall i | 0 <= i < k ensures a[i] == b[i] {
      assert i < |longer| ==> longer[i] == if i < q then row[i] else if i == q then x else row[i - 1];
    }
  }

  lemma RowsAreCut(xs: seq<F32>, order: seq<nat>, k: nat)
    requires forall i :: 0 <= i < |order| ==> order[i] < |xs|
    ensures TopIndices(order, k) == Cut(order, k, USIZE_MAX)
    ensures TopValues(xs, order, k) == Cut(ValuesAt(xs, order), k, NegInf)
  {
  }

  lemma TruncatedInsertion(xs: seq<F32>, order: seq<nat>, q: nat, k: nat, c: nat)
    requires c < |xs| && q <= |order| && forall i :: 0 <= i < |order| ==> order[i] < |xs|
    ensures var order' := order[..q] + [c] + order[q..];
            var p := if q < k then q else k;
            && InsertedAt(TopIndices(order, k), p, c) == TopIndices(order', k)
            && (forall i :: 0 <= i < |order'| ==> order'[i] < |xs|)
            && InsertedAt(TopValues(xs, order, k), p, xs[c]) == TopValues(xs, order', k)
  {
    hide InsertedAt;
    var order' := order[..q] + [c] + order[q..];
    assert forall i :: 0 <= i < |order'| ==> order'[i] < |xs|;
    RowsAreCut(xs, order, k);
    RowsAreCut(xs, order', k);
    CutInsertion(order, q, k, c, USIZE_MAX);
    var vals := ValuesAt(xs, order);
    CutInsertion(vals, q, k, xs[c], NegInf);
    assert ValuesAt(xs, order') == vals[..q] + [xs[c]] + vals[q..];
  }

  /** Inserting into the truncated row is truncating the insertion into the full ranking. */
  lemma RowStep(xs: seq<F32>, k: nat, c: nat)
    requires c < |xs|
    ensures var row := TopValues(xs, Ranked(xs, c), k);
            var p := FirstSmaller(row, xs[c]);
            && InsertedAt(row, p, xs[c]) == TopValues(xs, Ranked(xs, c + 1), k)
            && InsertedAt(TopIndices(Ranked(xs, c), k), p, c) == TopIndices(Ranked(xs, c + 1), k)
  {
    hide Ranked, FirstSmaller, Gt, Selectable;
    var order := Ranked(xs, c);
    RankedNext(xs, c);
    if !Selectable(xs[c]) {
      NeverGreater(xs[c]);
      FirstSmallerIs(TopValues(xs, order, k), xs[c], k);
    } else {
      SlotInRow(xs, order, k, c);
      TruncatedInsertion(xs, order, FirstSmaller(ValuesAt(xs, order), xs[c]), k, c);
    }
  }

  lemma NeverGreater(v: F32)
    requires !Selectable(v)
    ensures forall w :: !Gt(v, w)
  {
  }

  /** `row_topk_f32`: every row of the outputs is the ranking of its input row, cut or padded to `k`. */
  method RowTopk(input: seq<F32>, values: array<F32>, indices: array<nat>, rows: nat, cols: nat, k: nat)
    requires k <= cols && |input| == rows * cols && values.Length == rows * k && indices.Length == rows * k
    modifies values, indices
    ensures forall r :: 0 <= r < rows ==> Selected(RowOf(input, r, cols), RowOf(values[..], r, k), RowOf(indices[..], r, k), k)
  {
    for row := 0 to rows
      invariant forall r :: 0 <= r < row ==>
                  Selected(RowOf(input, r, cols), RowOf(values[..], r, k), RowOf(indices[..], r, k), k)
    {
      ghost var vs, ns := values[..], indices[..];
      SelectRow(RowAt(input, row, rows, cols), values, indices, row, rows, k);
      forall r | 0 <= r <= row ensures Selected(RowOf(input, r, cols), RowOf(values[..], r, k), RowOf(indices[..], r, k), k) {
        if r < row {
          RowFits(row, rows, k);
          EarlierRow(vs, values[..], r, row, k);
          EarlierRow(ns, indices[..], r, row, k);
        }
      }
    }
  }

  function RowAt(input: seq<F32>, row: nat, rows: nat, cols: nat): (xs: seq<F32>)
    requires row < rows && |input| == rows * cols
    ensures |xs| == cols && xs == RowOf(input, row, cols)
  {
    RowFits(row, rows, cols);
    RowOf(input, row, cols)
  }

  ghost predicate Selected(xs: seq<F32>, vals: seq<F32>, idxs: seq<nat>, k: nat) {
    vals == TopValues(xs, Ranked(xs, |xs|), k) && idxs == TopIndices(Ranked(xs, |xs|), k)
  }

  /** One row: filled with sentinels, then every column offered in order. */
  method OfferColumns(xs: seq<F32>, values: array<F32>, indices: array<nat>, lo: nat, k: nat)
    requires lo + k <= values.Length && lo + k <= indices.Length
    modifies values, indices
    ensures values[..lo] == old(values[..lo]) && indices[..lo] == old(indices[..lo])
    ensures values[lo + k..] == old(values[lo + k..]) && indices[lo + k..] == old(indices[lo + k..])
    ensures Selected(xs, values[lo..lo + k], indices[lo..lo + k], k)
  {
    hide FirstSmaller, InsertedAt, Ranked;
    forall i | lo <= i < lo + k { values[i] := NegInf; }
    forall i | lo <= i < lo + k { indices[i] := USIZE_MAX; }
    assert Ranked(xs, 0) == [] by { RankedNone(xs); }
    for col := 0 to |xs|
      invariant values[..lo] == old(values[..lo]) && indices[..lo] == old(indices[..lo])
      invariant values[lo + k..] == old(values[lo + k..]) && indices[lo + k..] == old(indices[lo + k..])
      invariant values[lo..lo + k] == TopValues(xs, Ranked(xs, col), k)
      invariant indices[lo..lo + k] == TopIndices(Ranked(xs, col), k)
    {
      InsertTopk(xs[col], col, values, indices, lo, k);
      RowStep(xs, k, col);
    }
  }

  lemma RankedNone(xs: seq<F32>)
    ensures Ranked(xs, 0) == []
  {
  }

  method SelectRow(xs: seq<F32>, values: array<F32>, indices: array<nat>, row: nat, rows: nat, k: nat)
    requires row < rows && values.Length == rows * k && indices.Length == rows * k
    modifies values, indices
    ensures row * k + k <= rows * k
    ensures values[..row * k] == old(values[..row * k]) && indices[..row * k] == old(indices[..row * k])
    ensures Selected(xs, RowOf(values[..], row, k), RowOf(indices[..], row, k), k)
  {
    hide Selected;
    RowFits(row, rows, k);
    OfferColumns(xs, values, indices, row * k, k);
  }

  // ----- what a selected row promises -----

  function CountSelectable(xs: seq<F32>, n: nat): nat
    requires n <= |xs|
  {
    if n == 0 then 0 else CountSelectable(xs, n - 1) + if Selectable(xs[n - 1]) then 1 else 0
  }

  lemma {:induction false} RankedLength(xs: seq<F32>, n: nat)
    requires n <= |xs|
    ensures |Ranked(xs, n)| == CountSelectable(xs, n)
  {
    if n > 0 {
      RankedLength(xs, n - 1);
    }
  }

  lemma InPrefix(order: seq<nat>, m: nat, j: nat)
    requires m <= |order| && j < |order|
    ensures j < m ==> order[j] in order[..m]
  {
    assert j < m ==> order[..m][j] == order[j];
  }

  /** Taking the first `m` of a ranking. */
  lemma HeadOfRanking(xs: seq<F32>, order: seq<nat>, m: nat, i: nat, c: nat)
    requires Sorted(xs, order) && Lists(xs, order, |xs|) && i < m <= |order|
    requires c < |xs| && Selectable(xs[c]) && c !in order[..m]
    ensures Before(xs, order[i], c)
  {
    hide Before, Selectable;
    var j :| 0 <= j < |order| && order[j] == c;
    InPrefix(order, m, j);
  }

  /** The selected row is the first `k` of the stable descending sort: indices in range and distinct, each
      value the input at its index, ranked, and ahead of every position left out. */
  lemma SelectedIsTop(xs: seq<F32>, vals: seq<F32>, idxs: seq<nat>, k: nat)
    requires Selected(xs, vals, idxs, k)
    ensures var m := if CountSelectable(xs, |xs|) < k then CountSelectable(xs, |xs|) else k;
            && |vals| == k && |idxs| == k
            && (forall i :: 0 <= i < m ==> idxs[i] < |xs| && vals[i] == xs[idxs[i]] && Selectable(vals[i]))
            && (forall i, j :: 0 <= i < j < m ==> idxs[i] != idxs[j] && Before(xs, idxs[i], idxs[j]))
            && (forall i, c :: 0 <= i < m && 0 <= c < |xs| && Selectable(xs[c]) && c !in idxs[..m] ==> Before(xs, idxs[i], c))
            && (forall i :: m <= i < k ==> idxs[i] == USIZE_MAX && vals[i] == NegInf)
  {
    hide Selectable, Ranked, Before, CountSelectable;
    var order := Ranked(xs, |xs|);
    RankedIsSorted(xs, |xs|);
    RankedLength(xs, |xs|);
    var m := if |order| < k then |order| else k;
    assert idxs[..m] == order[..m];
    forall i, j | 0 <= i < j < m ensures idxs[i] != idxs[j] && Before(xs, idxs[i], idxs[j]) {
      BeforeAsymmetric(xs, order[i], order[j]);
    }
    forall i, c | 0 <= i < m && 0 <= c < |xs| && Selectable(xs[c]) && c !in idxs[..m] ensures Before(xs, idxs[i], c) {
      HeadOfRanking(xs, order, m, i, c);
    }
  }

  /** No sentinel is left exactly when at least `k` inputs are greater than negative infinity; every index
      can then be used to slice. */
  lemma NoSentinelLeft(xs: seq<F32>, vals: seq<F32>, idxs: seq<nat>, k: nat)
    requires Selected(xs, vals, idxs, k) && |xs| <= USIZE_MAX
    ensures (forall i :: 0 <= i < k ==> idxs[i] < |xs|) <==> CountSelectable(xs, |xs|) >= k
    ensures USIZE_MAX !in idxs <==> CountSelectable(xs, |xs|) >= k
  {
    hide Selectable, Ranked;
    SelectedIsTop(xs, vals, idxs, k);
    var m := CountSelectable(xs, |xs|);
    assert m < k ==> idxs[m] == USIZE_MAX;
  }

  /** The best of a single NaN: nothing is selected and the sentinel stays. */
  lemma NaNLeavesSentinel()
    ensures CountSelectable([NaN], 1) == 0
    ensures Selected([NaN], [NegInf], [USIZE_MAX], 1)
  {
    assert CountSelectable([NaN], 0) == 0;
    assert Ranked([NaN], 0) == [];
  }

  /** Inputs above negative infinity are all counted, NaNs are not. */
  lemma {:induction false} AllSelectable(xs: seq<F32>, n: nat)
    requires n <= |xs| && forall i :: 0 <= i < n ==> xs[i] != NaN && xs[i] != NegInf
    ensures CountSelectable(xs, n) == n
  {
    if n > 0 {
      AllSelectable(xs, n - 1);
    }
  }
}
