/** The weighted draw at the end of the thrasher's `choose_action`, in exact reals. */
module WeightedChoice {
  import opened Options

  /** Sum of the first `k` weights. */
  function Prefix<A>(actions: seq<(A, real)>, k: nat): real
    requires k <= |actions|
  {
    if k == 0 then 0.0 else Prefix(actions, k - 1) + actions[k - 1].1
  }

  predicate NonNegative<A>(actions: seq<(A, real)>) {
    forall i :: 0 <= i < |actions| ==> actions[i].1 >= 0.0
  }

  /** The draw falls into the interval of entry `k`, whose length is the weight of `k`. */
  predicate Owns<A>(actions: seq<(A, real)>, k: nat, draw: real) {
    k < |actions| && Prefix(actions, k) <= draw < Prefix(actions, k + 1)
  }

  lemma {:induction false} PrefixMonotone<A>(actions: seq<(A, real)>, i: nat, j: nat)
    requires NonNegative(actions) && i <= j <= |actions|
    ensures Prefix(actions, i) <= Prefix(actions, j)
  {
    if i < j {
      PrefixMonotone(actions, i, j - 1);
    }
  }

  /** No two entries own the same draw, and an entry that owns one has positive weight. */
  lemma OwnerUnique<A>(actions: seq<(A, real)>, i: nat, j: nat, draw: real)
    requires NonNegative(actions) && Owns(actions, i, draw) && Owns(actions, j, draw)
    ensures i == j && actions[i].1 > 0.0
  {
    if i < j {
      PrefixMonotone(actions, i + 1, j);
    } else if j < i {
      PrefixMonotone(actions, j + 1, i);
    }
  }

  /** The loop takes the entry that owns the draw; it ends without one exactly when the draw is
      not below the total. */
  method Choose<A>(actions: seq<(A, real)>, draw: real) returns (chosen: Option<A>, k: nat)
    requires NonNegative(actions) && 0.0 <= draw
    ensures chosen.None? <==> Prefix(actions, |actions|) <= draw
    ensures chosen.Some? ==> Owns(actions, k, draw) && chosen.value == actions[k].0 && actions[k].1 > 0.0
  {
    var val := draw;
    k := 0;
    while k < |actions|
      invariant 0 <= k <= |actions|
      invariant val == draw - Prefix(actions, k) && val >= 0.0
    {
      if val < actions[k].1 {
        PrefixMonotone(actions, k + 1, |actions|);
        return Some(actions[k].0), k;
      }
      val := val - actions[k].1;
      k := k + 1;
    }
    return None, k;
  }
}
