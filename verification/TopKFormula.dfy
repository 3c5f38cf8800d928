/** Top-k selection over real numbers, in plain comparisons. */
module TopKFormula {
  import opened Floats
  import opened ExactArithmetic
  import opened TopK

  /** A greater number leads; of equal ones the smaller index. */
  predicate Leads(xs: seq<F32>, i: nat, j: nat) {
    RealAt(xs, i) > RealAt(xs, j) || (RealAt(xs, i) == RealAt(xs, j) && i < j)
  }

  lemma BeforeLeads(xs: seq<F32>, i: nat, j: nat)
    requires AllFinite(xs) && i < |xs| && j < |xs|
    ensures Before(xs, i, j) <==> Leads(xs, i, j)
  {
  }

  lemma FiniteSelectable(xs: seq<F32>)
    requires AllFinite(xs)
    ensures CountSelectable(xs, |xs|) == |xs|
  {
    AllSelectable(xs, |xs|);
  }

  /** On finite inputs a selected row lists `k` different positions with their own values, each leading the next
      ones and every position left out. */
  lemma TopOverReals(xs: seq<F32>, vals: seq<F32>, idxs: seq<nat>, k: nat)
    requires Selected(xs, vals, idxs, k) && AllFinite(xs) && k <= |xs|
    ensures |vals| == k && |idxs| == k
    ensures forall i :: 0 <= i < k ==> idxs[i] < |xs| && vals[i] == xs[idxs[i]]
    ensures forall i, j :: 0 <= i < j < k ==> idxs[i] != idxs[j] && Leads(xs, idxs[i], idxs[j])
    ensures forall i, c :: 0 <= i < k && 0 <= c < |xs| && c !in idxs ==> Leads(xs, idxs[i], c)
  {
    hide Selectable, Ranked, Before, CountSelectable, Selected, Leads, AllFinite;
    SelectedIsTop(xs, vals, idxs, k);
    FiniteSelectable(xs);
    assert idxs[..k] == idxs;
    forall i, j | 0 <= i < j < k ensures Leads(xs, idxs[i], idxs[j]) {
      BeforeLeads(xs, idxs[i], idxs[j]);
    }
    forall i, c | 0 <= i < k && 0 <= c < |xs| && c !in idxs ensures Leads(xs, idxs[i], c) {
      FiniteAt(xs, c);
      BeforeLeads(xs, idxs[i], c);
    }
  }

  lemma FiniteAt(xs: seq<F32>, c: nat)
    requires AllFinite(xs) && c < |xs|
    ensures Selectable(xs[c])
  {
  }
}
