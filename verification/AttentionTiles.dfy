/** Which query rows a grid reaches. The kernel takes the distance between workgroups from its argument
    struct, in 32-bit arithmetic that wraps, while the grid is sized for the compiled distance of four rows. */
module AttentionTiles {
  import opened Arithmetic
  import opened DeviceIr
  import opened AttentionThread
  import P = AttentionPlan
  import R = AttentionReference

  /** Some thread row of some workgroup computes this query row. */
  predicate RowHit(gridX: nat, tile: nat, query: nat) {
    exists bx: nat, ty: nat :: bx < gridX && ty < 4 && RowOf(tile, bx, ty) == query
  }

  predicate RowsHit(gridX: nat, tile: nat, sequence: nat) {
    forall query: nat :: query < sequence ==> RowHit(gridX, tile, query)
  }

  /** The workgroups touch or overlap, and the last of them reaches the last row. */
  predicate TileReaches(gridX: nat, tile: nat, sequence: nat)
    requires gridX > 0
  {
    sequence <= 4 || (tile <= 4 && sequence <= (gridX - 1) * tile + 4)
  }

  // ----- enough for every tile -----

  lemma Unwrapped(tile: nat, bx: nat, ty: nat)
    requires bx * tile + ty < U32_LIMIT
    ensures RowOf(tile, bx, ty) == bx * tile + ty
  {
  }

  lemma HitRow(gridX: nat, tile: nat, sequence: nat, query: nat)
    requires gridX > 0 && tile > 0 && query < sequence <= U32_LIMIT && TileReaches(gridX, tile, sequence)
    ensures RowHit(gridX, tile, query)
  {
    var bx := if sequence <= 4 then 0 else if query / tile < gridX then query / tile else gridX - 1;
    if bx == gridX - 1 && sequence > 4 {
      MulLe(gridX - 1, query / tile, tile);
    }
    Unwrapped(tile, bx, query - bx * tile);
  }

  lemma ReachingHits(gridX: nat, tile: nat, sequence: nat)
    requires gridX > 0 && tile > 0 && sequence <= U32_LIMIT && TileReaches(gridX, tile, sequence)
    ensures RowsHit(gridX, tile, sequence)
  {
    hide TileReaches, RowHit;
    forall query: nat | query < sequence ensures RowHit(gridX, tile, query) {
      HitRow(gridX, tile, sequence, query);
    }
  }

  // ----- necessary where nothing wraps -----

  lemma HitsReach(gridX: nat, tile: nat, sequence: nat)
    requires gridX > 0 && tile > 0 && (gridX - 1) * tile + 3 < U32_LIMIT && RowsHit(gridX, tile, sequence)
    ensures TileReaches(gridX, tile, sequence)
  {
    if sequence > 4 {
      assert RowHit(gridX, tile, sequence - 1) && RowHit(gridX, tile, 4);
      var bx: nat, ty: nat :| bx < gridX && ty < 4 && RowOf(tile, bx, ty) == sequence - 1;
      MulLe(bx, gridX - 1, tile);
      Unwrapped(tile, bx, ty);
      var cx: nat, cy: nat :| cx < gridX && cy < 4 && RowOf(tile, cx, cy) == 4;
      MulLe(cx, gridX - 1, tile);
      Unwrapped(tile, cx, cy);
      MulLe(1, cx, tile);
    }
  }

  // ----- necessary where the grid has no workgroup to spare -----

  /** One of the four rows from a workgroup's first row on, wrapping, is this one. */
  predicate HitBy(tile: nat, bx: nat, query: nat) {
    var d := query - RowOf(tile, bx, 0);
    0 <= d < 4 || 0 <= d + U32_LIMIT < 4
  }

  lemma WrapStep(n: nat, k: nat)
    requires k < 4
    ensures var r := n % U32_LIMIT; (n + k) % U32_LIMIT == if r + k < U32_LIMIT then r + k else r + k - U32_LIMIT
  {
  }

  lemma HitterOf(gridX: nat, tile: nat, query: nat) returns (bx: nat)
    requires RowHit(gridX, tile, query)
    ensures bx < gridX && HitBy(tile, bx, query)
  {
    var ty: nat;
    bx, ty :| bx < gridX && ty < 4 && RowOf(tile, bx, ty) == query;
    WrapStep(bx * tile, ty);
  }

  function Members(xs: seq<nat>): set<nat> { set x | x in xs }

  lemma {:induction false} DistinctCount(xs: seq<nat>)
    requires Distinct(xs)
    ensures |Members(xs)| == |xs|
  {
    if xs == [] {
      assert Members(xs) == {};
    } else {
      var n := |xs| - 1;
      DistinctCount(xs[..n]);
      assert xs[n] !in Members(xs[..n]);
      assert Members(xs) == Members(xs[..n]) + {xs[n]};
    }
  }

  lemma {:induction false} BelowCount(s: set<nat>, n: nat)
    requires forall x :: x in s ==> x < n
    ensures |s| <= n
  {
    if n > 0 {
      BelowCount(s - {n - 1}, n - 1);
    } else {
      assert s == {};
    }
  }

  /** `n` distinct numbers below `n` are all of them. */
  lemma Pigeonhole(xs: seq<nat>, v: nat) returns (i: nat)
    requires Distinct(xs) && v < |xs| && forall k :: 0 <= k < |xs| ==> xs[k] < |xs|
    ensures i < |xs| && xs[i] == v
  {
    if v !in xs {
      var s := Members(xs);
      DistinctCount(xs);
      var t := (s - {|xs| - 1}) + if |xs| - 1 in s then {v} else {};
      assert |t| == |s|;
      BelowCount(t, |xs| - 1);
      assert false;
    }
    i :| 0 <= i < |xs| && xs[i] == v;
  }

  /** For each row 4 * i, the workgroup that computes it: none computes two of them. */
  lemma {:induction false} Hitters(gridX: nat, tile: nat, sequence: nat, n: nat) returns (hits: seq<nat>)
    requires RowsHit(gridX, tile, sequence) && 4 * n < sequence + 4 && sequence < P.I32_LIMIT
    ensures |hits| == n && Distinct(hits)
    ensures forall i :: 0 <= i < n ==> hits[i] < gridX && HitBy(tile, hits[i], 4 * i)
  {
    hide RowOf, RowHit;
    hits := [];
    if n > 0 {
      var before := Hitters(gridX, tile, sequence, n - 1);
      var bx := HitterOf(gridX, tile, 4 * (n - 1));
      hits := before + [bx];
    }
  }

  /** With no workgroup to spare, every workgroup but the first computes one of the rows 4, 8, 12, ... */
  lemma EveryWorkgroupHits(gridX: nat, tile: nat, sequence: nat, bx: nat) returns (i: nat)
    requires gridX == DivCeil(sequence, 4) && RowsHit(gridX, tile, sequence) && sequence < P.I32_LIMIT && 0 < bx < gridX
    ensures 0 < i < gridX && HitBy(tile, bx, 4 * i)
  {
    hide RowsHit;
    var hits := Hitters(gridX, tile, sequence, gridX);
    var first := Pigeonhole(hits, 0);
    assert HitBy(tile, 0, 4 * first);
    i := Pigeonhole(hits, bx);
  }

  /** So none of them wraps. */
  lemma {:induction false} NoWorkgroupWraps(gridX: nat, tile: nat, sequence: nat, bx: nat)
    requires gridX == DivCeil(sequence, 4) && RowsHit(gridX, tile, sequence) && sequence < P.I32_LIMIT
    requires 0 < bx < gridX && 0 < tile < U32_LIMIT
    ensures bx * tile <= 4 * (gridX - 1)
  {
    hide RowsHit;
    var i := EveryWorkgroupHits(gridX, tile, sequence, bx);
    if bx > 1 {
      NoWorkgroupWraps(gridX, tile, sequence, bx - 1);
      NoWorkgroupWraps(gridX, tile, sequence, 1);
      assert bx * tile == (bx - 1) * tile + tile;
    }
    Unwrapped(tile, bx, 0);
  }

  lemma FullGridReaches(gridX: nat, tile: nat, sequence: nat)
    requires gridX == DivCeil(sequence, 4) && RowsHit(gridX, tile, sequence) && sequence < P.I32_LIMIT
    requires gridX > 0 && 0 < tile < U32_LIMIT
    ensures TileReaches(gridX, tile, sequence)
  {
    hide RowsHit, RowHit, TileReaches;
    if gridX > 1 {
      NoWorkgroupWraps(gridX, tile, sequence, gridX - 1);
    }
    HitsReach(gridX, tile, sequence);
  }

  // ----- the exact condition -----

  /** A grid sized for this many rows, or arithmetic that does not wrap. */
  predicate PlainGrid(gridX: nat, tile: nat, sequence: nat)
    requires gridX > 0
  {
    gridX == DivCeil(sequence, 4) || (gridX - 1) * tile + 3 < U32_LIMIT
  }

  /** Exactly which tile arguments reach every query row. */
  lemma RowsHitIff(gridX: nat, tile: nat, sequence: nat)
    requires gridX > 0 && 0 < tile < U32_LIMIT && sequence < P.I32_LIMIT && PlainGrid(gridX, tile, sequence)
    ensures RowsHit(gridX, tile, sequence) <==> TileReaches(gridX, tile, sequence)
  {
    hide RowsHit, TileReaches, DivCeil;
    if RowsHit(gridX, tile, sequence) {
      if gridX == DivCeil(sequence, 4) {
        FullGridReaches(gridX, tile, sequence);
      } else {
        HitsReach(gridX, tile, sequence);
      }
    }
    if TileReaches(gridX, tile, sequence) {
      ReachingHits(gridX, tile, sequence);
    }
  }

  /** On a larger grid the wrapped products can fill the gaps: three times this tile is 2^33 + 4. */
  lemma WrappingCanReach()
    ensures RowsHit(4, 0xAAAA_AAAC, 8) && !TileReaches(4, 0xAAAA_AAAC, 8)
  {
    forall query: nat | query < 8 ensures RowHit(4, 0xAAAA_AAAC, query) {
      assert RowOf(0xAAAA_AAAC, if query < 4 then 0 else 3, query % 4) == query;
    }
  }
}
