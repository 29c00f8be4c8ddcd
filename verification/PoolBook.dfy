/** The pool bookkeeping between the thrasher and the cluster manager: the manager's table of
    placement-group numbers, the placement numbers the cluster has taken over, and the thrasher's
    set of pools whose placement number is still to be raised. */
module PoolBook {

  type Name = string

  /** `pgNum` is the manager's `pools`, `pgpNum` what the cluster has, `toFix` the thrasher's
      `pools_to_fix_pgp_num`. */
  datatype Book = Book(pgNum: map<Name, nat>, pgpNum: map<Name, nat>, toFix: set<Name>)

  /** Steps of the thrasher and of other tasks.  `busy` says that placement groups are still being
      created, `full` that the size limit stands in the way, `accepted` that the cluster obeys the
      set command, whose result nobody looks at. */
  datatype Op =
    | CreatePool(name: Name, size: nat)
    | RemovePool(name: Name)
    | GrowPool(name: Name, amount: nat, busy: bool, full: bool)
    | FixPgpNum(name: Name, busy: bool, accepted: bool)

  /** The assertions at the start of the manager's operations. */
  predicate Possible(b: Book, op: Op) {
    if op.CreatePool? then op.name !in b.pgNum else op.name in b.pgNum
  }

  function Apply(b: Book, op: Op): Book
    requires Possible(b, op)
  {
    match op
    case CreatePool(n, size) => Book(b.pgNum[n := size], b.pgpNum[n := size], b.toFix)
    case RemovePool(n) => Book(b.pgNum - {n}, b.pgpNum - {n}, b.toFix)
    case GrowPool(n, amount, busy, full) =>
      if busy || full then b
      else Book(b.pgNum[n := b.pgNum[n] + amount], b.pgpNum, b.toFix + {n})
    case FixPgpNum(n, busy, accepted) =>
      if busy then b else Fixed(b, n, accepted)
  }

  function Fixed(b: Book, n: Name, accepted: bool): Book
    requires n in b.pgNum
  {
    Book(b.pgNum, if accepted then b.pgpNum[n := b.pgNum[n]] else b.pgpNum, b.toFix - {n})
  }

  /** All other pools have the numbers they had. */
  ghost predicate OthersStay(b: Book, b': Book, n: Name) {
    forall m :: m != n ==>
      && (m in b'.pgNum <==> m in b.pgNum) && (m in b.pgNum ==> b'.pgNum[m] == b.pgNum[m])
      && (m in b'.pgpNum <==> m in b.pgpNum) && (m in b.pgpNum ==> b'.pgpNum[m] == b.pgpNum[m])
      && (m in b'.toFix <==> m in b.toFix)
  }

  /** What each step does to the numbers of its own pool, and that it touches no other. */
  lemma ApplyMeans(b: Book, op: Op)
    requires Possible(b, op) && b.pgNum.Keys == b.pgpNum.Keys
    ensures OthersStay(b, Apply(b, op), op.name)
    ensures var (n, b') := (op.name, Apply(b, op));
            match op
            case CreatePool(_, size) => n in b'.pgNum && n in b'.pgpNum && b'.pgNum[n] == size && b'.pgpNum[n] == size
            case RemovePool(_) => n !in b'.pgNum && n !in b'.pgpNum
            case GrowPool(_, amount, busy, full) =>
              && n in b'.pgNum && n in b'.pgpNum && b'.pgpNum[n] == b.pgpNum[n]
              && b'.pgNum[n] - b.pgNum[n] == (if busy || full then 0 else amount)
              && (n in b'.toFix <==> n in b.toFix || !(busy || full))
            case FixPgpNum(_, busy, accepted) =>
              && n in b'.pgNum && n in b'.pgpNum && b'.pgNum[n] == b.pgNum[n]
              && b'.pgpNum[n] == (if busy || !accepted then b.pgpNum[n] else b.pgNum[n])
              && (n in b'.toFix <==> n in b.toFix && busy)
  {
  }

  predicate Behind(b: Book, n: Name) {
    n in b.pgNum && n in b.pgpNum && b.pgpNum[n] < b.pgNum[n]
  }

  /** Every pool that is behind is on the list. */
  ghost predicate Tracked(b: Book) {
    b.pgNum.Keys == b.pgpNum.Keys && forall n :: Behind(b, n) ==> n in b.toFix
  }

  /** A step loses track of a pool if and only if it is a fix of a pool that is behind, and the
      cluster refuses it. */
  lemma TrackedIff(b: Book, op: Op)
    requires Tracked(b) && Possible(b, op)
    ensures Tracked(Apply(b, op)) <==>
            !(op.FixPgpNum? && !op.busy && !op.accepted && Behind(b, op.name))
  {
    if op.FixPgpNum? {
      assert Apply(b, op).pgNum == b.pgNum;
      assert !op.busy && !op.accepted && Behind(b, op.name) ==> Behind(Apply(b, op), op.name);
    }
  }

  /** A pool created, grown, and fixed by a command that the cluster refuses is behind and off the
      list for good. */
  lemma RefusedFixIsLost()
    ensures var (p, empty) := ("p", Book(map[], map[], {}));
            var grown := Apply(Apply(empty, CreatePool(p, 8)), GrowPool(p, 8, false, false));
            var lost := Apply(grown, FixPgpNum(p, false, false));
            Tracked(empty) && Behind(grown, p) && p in grown.toFix && Behind(lost, p) && p !in lost.toFix
  {
  }

  ghost predicate IsRun(b: Book, ops: seq<Op>)
    decreases |ops|
  {
    ops == [] ||
    (Possible(b, ops[0]) && (ops[0].FixPgpNum? ==> ops[0].accepted) && IsRun(Apply(b, ops[0]), ops[1..]))
  }

  function Run(b: Book, ops: seq<Op>): Book
    requires IsRun(b, ops)
    decreases |ops|
  {
    if ops == [] then b else Run(Apply(b, ops[0]), ops[1..])
  }

  /** Over any interleaving of accepted steps every pool that is behind stays on the list. */
  lemma {:induction false} RunTracked(b: Book, ops: seq<Op>)
    requires Tracked(b) && IsRun(b, ops)
    ensures Tracked(Run(b, ops))
    decreases |ops|
  {
    if ops != [] {
      TrackedIff(b, ops[0]);
      RunTracked(Apply(b, ops[0]), ops[1..]);
    }
  }

  class Pools {
    var pgNum: map<Name, nat>
    var pgpNum: map<Name, nat>
    var toFix: set<Name>

    constructor (sizes: map<Name, nat>)
      ensures Tracked(View()) && View() == Book(sizes, sizes, {})
    {
      pgNum, pgpNum, toFix := sizes, sizes, {};
    }

    ghost function View(): Book
      reads this
    {
      Book(pgNum, pgpNum, toFix)
    }

    method CreatePool(name: Name, size: nat)
      requires name !in pgNum
      modifies this
      ensures View() == Apply(old(View()), Op.CreatePool(name, size))
      ensures name in pgNum && name in pgpNum && pgNum[name] == size && pgpNum[name] == size
      ensures OthersStay(old(View()), View(), name) && toFix == old(toFix)
      ensures !Behind(View(), name) && (Tracked(old(View())) ==> Tracked(View()))
    {
      pgpNum := pgpNum[name := size];
      pgNum := pgNum[name := size];
    }

    method RemovePool(name: Name)
      requires name in pgNum
      modifies this
      ensures View() == Apply(old(View()), Op.RemovePool(name))
      ensures name !in pgNum && name !in pgpNum && OthersStay(old(View()), View(), name) && toFix == old(toFix)
      ensures !Behind(View(), name) && (Tracked(old(View())) ==> Tracked(View()))
    {
      pgNum := pgNum - {name};
      pgpNum := pgpNum - {name};
    }

    method ExpandPool(name: Name, amount: nat, busy: bool, full: bool) returns (grown: bool)
      requires name in pgNum
      modifies `pgNum
      ensures grown == (!busy && !full)
      ensures pgNum == if grown then old(pgNum)[name := old(pgNum)[name] + amount] else old(pgNum)
    {
      if busy || full {
        return false;
      }
      pgNum := pgNum[name := pgNum[name] + amount];
      return true;
    }

    method GrowPool(name: Name, amount: nat, busy: bool, full: bool)
      requires name in pgNum
      modifies this
      ensures View() == Apply(old(View()), Op.GrowPool(name, amount, busy, full))
      ensures name in pgNum && pgNum[name] == old(pgNum)[name] + (if busy || full then 0 else amount)
      ensures OthersStay(old(View()), View(), name) && pgpNum == old(pgpNum)
      ensures name in toFix <==> name in old(toFix) || !(busy || full)
      ensures Tracked(old(View())) ==> Tracked(View()) && (Behind(View(), name) ==> name in toFix)
    {
      var grown := ExpandPool(name, amount, busy, full);
      if grown {
        toFix := toFix + {name};
      }
    }

    method FixPgpNum(name: Name, force: bool, busy: bool, accepted: bool)
      requires name in pgNum
      modifies this
      ensures View() == Apply(old(View()), Op.FixPgpNum(name, !force && busy, accepted))
      ensures (force || !busy) && accepted ==> name in pgpNum && pgpNum[name] == pgNum[name]
      ensures OthersStay(old(View()), View(), name) && pgNum == old(pgNum)
      ensures name in toFix <==> name in old(toFix) && !force && busy
      ensures Tracked(old(View())) ==>
                (Tracked(View()) <==> !((force || !busy) && !accepted && Behind(old(View()), name)))
    {
      if Tracked(View()) {
        TrackedIff(View(), Op.FixPgpNum(name, !force && busy, accepted));
      }
      if force || !busy {
        if accepted {
          pgpNum := pgpNum[name := pgNum[name]];
        }
        toFix := toFix - {name};
      }
    }

    /** The closing loop of the thrasher.  Afterwards a surviving pool is behind exactly when it
        was behind before and the cluster refused its fix. */
    method FixAll(accept: Name -> bool)
      requires Tracked(View())
      modifies this
      ensures pgNum == old(pgNum) && toFix == {}
      ensures forall n :: Behind(View(), n) <==> Behind(old(View()), n) && !accept(n)
      ensures pgpNum.Keys == old(pgpNum).Keys
      ensures forall n :: n in pgpNum ==> pgpNum[n] == old(pgpNum)[n] || pgpNum[n] == pgNum[n]
    {
      var todo := toFix;
      while todo != {}
        invariant pgNum == old(pgNum) && pgpNum.Keys == pgNum.Keys && todo <= old(toFix)
        invariant forall n :: n in pgNum ==>
                    pgpNum[n] == if n in old(toFix) && n !in todo && accept(n) && pgNum[n] > 0 then pgNum[n]
                                 else old(pgpNum)[n]
        decreases |todo|
      {
        var n :| n in todo;
        if n in pgNum && pgNum[n] > 0 {
          FixPgpNum(n, true, false, accept(n));
        }
        todo := todo - {n};
      }
      toFix := {};
    }
  }
}
