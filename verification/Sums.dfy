/** Finite sums of natural numbers. */
module Sums {

  /** f(from) + ... + f(from + n - 1) */
  function SumRange(f: nat -> nat, from: nat, n: nat): nat {
    if n == 0 then 0 else SumRange(f, from, n - 1) + f(from + n - 1)
  }

  lemma {:induction false} SumAppend(f: nat -> nat, from: nat, m: nat, n: nat)
    ensures SumRange(f, from, m + n) == SumRange(f, from, m) + SumRange(f, from + m, n)
  {
    if n > 0 {
      SumAppend(f, from, m, n - 1);
    }
  }

  /** A sum over `a` groups of `b`, given the sum of each group. */
  lemma {:induction false} SumGroups(f: nat -> nat, g: nat -> nat, a: nat, b: nat)
    requires forall i: nat :: i < a ==> g(i) == SumRange(f, i * b, b)
    ensures SumRange(f, 0, a * b) == SumRange(g, 0, a)
  {
    if a > 0 {
      SumGroups(f, g, a - 1, b);
      SumAppend(f, 0, (a - 1) * b, b);
      assert a * b == (a - 1) * b + b;
    }
  }

  lemma {:induction false} SumScaled(f: nat -> nat, g: nat -> nat, c: nat, from: nat, n: nat)
    requires forall i: nat :: i < n ==> g(from + i) == f(i) * c
    ensures SumRange(g, from, n) == SumRange(f, 0, n) * c
  {
    if n > 0 {
      SumScaled(f, g, c, from, n - 1);
      Distribute(SumRange(f, 0, n - 1), f(n - 1), c);
    }
  }

  lemma Distribute(a: nat, b: nat, c: nat)
    ensures (a + b) * c == a * c + b * c
  {
  }

  /** How many of the elements of tile `i`, of width `w`, lie below `n`. */
  function InTile(i: nat, w: nat, n: nat): nat {
    if i * w >= n then 0 else if n - i * w < w then n - i * w else w
  }

  /** Tiles that reach the end hold every element once. */
  lemma {:induction false} TilesCover(f: nat -> nat, w: nat, n: nat, tiles: nat)
    requires forall i: nat :: i < tiles ==> f(i) == InTile(i, w, n)
    ensures SumRange(f, 0, tiles) == if tiles * w < n then tiles * w else n
  {
    if tiles > 0 {
      TilesCover(f, w, n, tiles - 1);
      assert tiles * w == (tiles - 1) * w + w;
    }
  }

  lemma Sixteen(g: nat -> nat, n: nat)
    ensures SumRange(g, n, 16)
            == (g(n) + g(n + 1) + g(n + 2) + g(n + 3)) + (g(n + 4) + g(n + 5) + g(n + 6) + g(n + 7))
               + (g(n + 8) + g(n + 9) + g(n + 10) + g(n + 11)) + (g(n + 12) + g(n + 13) + g(n + 14) + g(n + 15))
  {
    Four(g, n, 0);
    Four(g, n, 4);
    Four(g, n, 8);
    Four(g, n, 12);
  }

  lemma Four(g: nat -> nat, n: nat, m: nat)
    ensures SumRange(g, n, m + 4) == SumRange(g, n, m) + (g(n + m) + g(n + m + 1) + g(n + m + 2) + g(n + m + 3))
  {
    assert SumRange(g, n, m + 1) == SumRange(g, n, m) + g(n + m);
    assert SumRange(g, n, m + 2) == SumRange(g, n, m + 1) + g(n + m + 1);
    assert SumRange(g, n, m + 3) == SumRange(g, n, m + 2) + g(n + m + 2);
  }
}
