/** Ranks, versions and proposal numbers of the monitors' Paxos. */
module MonNumbers {
  type Rank = nat
  type Pn = nat
  type Version = nat
  type Value = string

  /** A value stored under the next version, with its `pending_pn`. */
  datatype Accepted = Accepted(pn: Pn, value: Value)

  /** `uncommitted_v`, `uncommitted_pn` and `uncommitted_value`. */
  datatype Uncommitted = Uncommitted(v: Version, pn: Pn, value: Value)

  /** `get_new_proposal_number`. */
  function NewPn(lastPn: Pn, gt: Pn, rank: Rank): Pn {
    ((if lastPn < gt then gt else lastPn) / 100 + 1) * 100 + rank
  }

  /** A new number is above both bounds and carries the rank, up to a hundred: it is the rank above the
      next multiple of a hundred. */
  lemma NewPnIsNew(lastPn: Pn, gt: Pn, rank: Rank)
    ensures NewPn(lastPn, gt, rank) > lastPn && NewPn(lastPn, gt, rank) > gt
    ensures NewPn(lastPn, gt, rank) % 100 == rank % 100 && (NewPn(lastPn, gt, rank) - rank) % 100 == 0
    ensures NewPn(lastPn, gt, rank) - rank > lastPn && NewPn(lastPn, gt, rank) - rank > gt
    ensures NewPn(lastPn, gt, rank) - rank - 100 <= lastPn || NewPn(lastPn, gt, rank) - rank - 100 <= gt
  {
  }

  ghost predicate Draws(rank: Rank, pn: Pn) {
    exists lastPn: Pn, gt: Pn :: NewPn(lastPn, gt, rank) == pn
  }

  /** Numbers are unique among monitors exactly as long as ranks differ modulo a hundred. */
  lemma SameNumberIff(a: Rank, b: Rank)
    ensures (exists pn: Pn :: Draws(a, pn) && Draws(b, pn)) <==> a % 100 == b % 100
  {
    if a % 100 == b % 100 {
      var pn := NewPn(b / 100 * 100, 0, a);
      assert pn == NewPn(a / 100 * 100, 0, b);
      assert Draws(a, pn) && Draws(b, pn);
    }
    if pn: Pn :| Draws(a, pn) && Draws(b, pn) {
      var lastA: Pn, gtA: Pn :| NewPn(lastA, gtA, a) == pn;
      var lastB: Pn, gtB: Pn :| NewPn(lastB, gtB, b) == pn;
      NewPnIsNew(lastA, gtA, a);
      NewPnIsNew(lastB, gtB, b);
    }
  }

  /** No two of the monitors share their numbers. */
  ghost predicate Distinct(ranks: set<Rank>) {
    forall a, b :: a in ranks && b in ranks && a % 100 == b % 100 ==> a == b
  }
}
