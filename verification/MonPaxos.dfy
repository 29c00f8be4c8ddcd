/** The protocol behind the monitors' Paxos: collect and last, begin and accept, commit, over a log of
    versions.  Here a leader keeps sets of the monitors that have replied or accepted and takes
    accepts of its present version only, so messages may be delayed, reordered, repeated and lost,
    and any monitor may call itself leader of any majority at any time.  The monitors as coded are
    in `MonCluster`; `MonAgreement` says when they refine this.  `votes` and `proposals` are history:
    no handler reads them. */
module MonPaxos {
  import opened MonNumbers
  import opened Options

  datatype Role =
    | Peon
    | Recovering(quorum: set<Rank>, lasts: set<Rank>, uncommitted: Option<Uncommitted>)
    | Active(quorum: set<Rank>)
    | Updating(quorum: set<Rank>, accepted: set<Rank>, value: Value)

  /** Version `v` of the log is `log[v - 1]`, so `last_committed` is its length; `pending` is the
      value stored under the next version, with its `pending_pn`. */
  datatype Mon = Mon(log: seq<Value>, pending: Option<Accepted>, acceptedPn: Pn, lastPn: Pn, role: Role) {
    function Lc(): nat { |log| }
  }

  datatype Msg =
    | Collect(from: Rank, to: Rank, pn: Pn, lc: Version)
    | Last(from: Rank, to: Rank, pn: Pn, log: seq<Value>, uncommitted: Option<Accepted>)
    | Begin(from: Rank, to: Rank, pn: Pn, lc: Version, value: Value)
    | Accept(from: Rank, to: Rank, pn: Pn, lc: Version)
    | Commit(from: Rank, to: Rank, log: seq<Value>)

  datatype Vote = Vote(rank: Rank, pn: Pn, v: Version, value: Value)

  datatype World = World(mons: map<Rank, Mon>, net: set<Msg>, votes: set<Vote>, proposals: map<(Pn, Version), Value>)

  predicate Majority(w: World, q: set<Rank>) {
    q <= w.mons.Keys && 2 * |q| > |w.mons|
  }

  // ---------------------------------------------------------------- the handlers of one monitor

  /** `collect`: note our own uncommitted value and pick a new proposal number. */
  function Collecting(m: Mon, r: Rank, quorum: set<Rank>, oldPn: Pn): (m': Mon)
    ensures m'.role.Recovering?
  {
    var pn := NewPn(m.lastPn, if oldPn > m.acceptedPn then oldPn else m.acceptedPn, r);
    var mine := if m.pending.Some?
                then Some(Uncommitted(m.Lc() + 1, m.pending.value.pn, m.pending.value.value)) else None;
    m.(acceptedPn := pn, lastPn := pn, role := Recovering(quorum, {r}, mine))
  }

  /** `store_state`: take over committed values beyond our own, and forget an uncommitted value they
      make obsolete. */
  function StoreState(m: Mon, log: seq<Value>): Mon {
    if |log| <= m.Lc() then m
    else
      var role := if m.role.Recovering? && m.role.uncommitted.Some? && m.role.uncommitted.value.v <= |log|
                  then m.role.(uncommitted := None) else m.role;
      m.(log := m.log + log[m.Lc()..], pending := None, role := role)
  }

  /** The uncommitted value a leader keeps after hearing `last`. */
  function Learn(m: Mon, last: Msg): Option<Uncommitted>
    requires m.role.Recovering? && last.Last?
  {
    var unc := m.role.uncommitted;
    if last.uncommitted.Some? &&
       (unc.None? || (last.uncommitted.value.pn >= unc.value.pn && |last.log| + 1 >= unc.value.v)) &&
       |last.log| >= m.Lc()
    then Some(Uncommitted(|last.log| + 1, last.uncommitted.value.pn, last.uncommitted.value.value))
    else unc
  }

  // ---------------------------------------------------------------- steps

  datatype Event =
    | LeaderInit(r: Rank, quorum: set<Rank>)
    | PeonInit(r: Rank)
    | Propose(r: Rank, value: Value)
    | Deliver(msg: Msg)

  ghost predicate Enabled(w: World, e: Event) {
    match e
    case LeaderInit(r, quorum) => r in quorum && Majority(w, quorum)
    case PeonInit(r) => r in w.mons
    case Propose(r, value) => r in w.mons && w.mons[r].role.Active?
    case Deliver(msg) =>
      && msg in w.net && msg.to in w.mons
      && var m := w.mons[msg.to];
         match msg
         case Collect(_, _, _, _) => m.role.Peon?
         case Last(from, _, _, _, _) => m.role.Recovering? && from in m.role.quorum
         case Begin(_, _, pn, lc, _) => m.role.Peon? && pn == m.acceptedPn && lc == m.Lc()
         case Accept(from, _, pn, lc) => m.role.Updating? && pn == m.acceptedPn && lc == m.Lc() && from in m.role.quorum
         case Commit(_, _, _) => m.role.Peon?
  }

  function Collects(r: Rank, m: Mon): set<Msg>
    requires m.role.Recovering?
  {
    set q | q in m.role.quorum && q != r :: Collect(r, q, m.acceptedPn, m.Lc())
  }

  function WithCollect(w: World, r: Rank, m: Mon): World
    requires m.role.Recovering?
  {
    w.(mons := w.mons[r := m], net := w.net + Collects(r, m))
  }

  /** `begin`: vote for the value ourselves, store it, and ask the rest of the quorum. */
  function Begun(w: World, r: Rank, m: Mon, quorum: set<Rank>, value: Value): World {
    w.(mons := w.mons[r := m.(pending := Some(Accepted(m.acceptedPn, value)), role := Updating(quorum, {r}, value))],
       net := w.net + (set q | q in quorum && q != r :: Begin(r, q, m.acceptedPn, m.Lc(), value)),
       votes := w.votes + {Vote(r, m.acceptedPn, m.Lc() + 1, value)},
       proposals := w.proposals[(m.acceptedPn, m.Lc() + 1) := value])
  }

  function OnCollect(w: World, q: Rank, msg: Msg): World
    requires msg.Collect? && q in w.mons
  {
    var m := w.mons[q];
    var pn := if msg.pn > m.acceptedPn then msg.pn else m.acceptedPn;
    var unc := if msg.lc <= m.Lc() then m.pending else None;
    w.(mons := w.mons[q := m.(acceptedPn := pn)], net := w.net + {Last(q, msg.from, pn, m.log, unc)})
  }

  /** Tell others what is committed. */
  function Told(w: World, r: Rank): World
    requires r in w.mons
  {
    w.(net := w.net + Commits(r, w.mons.Keys, w.mons[r].log))
  }

  function Stored(w: World, r: Rank, log: seq<Value>): World
    requires r in w.mons
  {
    w.(mons := w.mons[r := StoreState(w.mons[r], log)])
  }

  /** Take over committed values, tell others of them, and then weigh the reply. */
  function OnLast(w: World, r: Rank, msg: Msg): World
    requires msg.Last? && r in w.mons && w.mons[r].role.Recovering?
  {
    OnReply(Told(Stored(w, r, msg.log), r), r, msg)
  }

  function OnReply(w: World, r: Rank, msg: Msg): World
    requires msg.Last? && r in w.mons && w.mons[r].role.Recovering?
  {
    var m := w.mons[r];
    var quorum, lasts := m.role.quorum, m.role.lasts + {msg.from};
    if msg.pn > m.acceptedPn then WithCollect(w, r, Collecting(m, r, quorum, msg.pn))
    else if msg.pn < m.acceptedPn then w
    else
      var unc := Learn(m, msg);
      if lasts != quorum then w.(mons := w.mons[r := m.(role := Recovering(quorum, lasts, unc))])
      else if unc.Some? && unc.value.v == m.Lc() + 1 then Begun(w, r, m, quorum, unc.value.value)
      else w.(mons := w.mons[r := m.(role := Active(quorum))])
  }

  function Commits(r: Rank, quorum: set<Rank>, log: seq<Value>): set<Msg> {
    set q | q in quorum && q != r :: Commit(r, q, log)
  }

  function OnBegin(w: World, q: Rank, msg: Msg): World
    requires msg.Begin? && q in w.mons
  {
    var m := w.mons[q];
    w.(mons := w.mons[q := m.(pending := Some(Accepted(msg.pn, msg.value)))],
       net := w.net + {Accept(q, msg.from, msg.pn, m.Lc())},
       votes := w.votes + {Vote(q, msg.pn, m.Lc() + 1, msg.value)})
  }

  /** Commit once the whole quorum has accepted, and tell everyone. */
  function OnAccept(w: World, r: Rank, msg: Msg): World
    requires msg.Accept? && r in w.mons && w.mons[r].role.Updating?
  {
    var m := w.mons[r];
    var accepted := m.role.accepted + {msg.from};
    var m' := if accepted == m.role.quorum
              then m.(log := m.log + [m.role.value], pending := None, role := Active(m.role.quorum))
              else m.(role := m.role.(accepted := accepted));
    w.(mons := w.mons[r := m'],
       net := if m'.role.Active? then w.net + Commits(r, m'.role.quorum, m'.log) else w.net)
  }

  ghost function Step(w: World, e: Event): World
    requires Enabled(w, e)
  {
    match e
    case LeaderInit(r, quorum) => WithCollect(w, r, Collecting(w.mons[r], r, quorum, 0))
    case PeonInit(r) => w.(mons := w.mons[r := w.mons[r].(role := Peon)])
    case Propose(r, value) => Begun(w, r, w.mons[r], w.mons[r].role.quorum, value)
    case Deliver(msg) =>
      match msg
      case Collect(_, q, _, _) => OnCollect(w, q, msg)
      case Last(_, r, _, _, _) => OnLast(w, r, msg)
      case Begin(_, q, _, _, _) => OnBegin(w, q, msg)
      case Accept(_, r, _, _) => OnAccept(w, r, msg)
      case Commit(_, q, log) => Stored(w, q, log)
  }

  // ---------------------------------------------------------------- the invariant

  /** A whole majority voted for the value under one proposal number. */
  ghost predicate ChosenBy(w: World, pn: Pn, q: set<Rank>, v: Version, x: Value) {
    Majority(w, q) && forall r :: r in q ==> Vote(r, pn, v, x) in w.votes
  }

  ghost predicate Chosen(w: World, v: Version, x: Value) {
    exists pn: Pn, q: set<Rank> :: ChosenBy(w, pn, q, v, x)
  }

  ghost predicate AllChosen(w: World, log: seq<Value>) {
    forall i :: 0 <= i < |log| ==> Chosen(w, i + 1, log[i])
  }

  /** Some member has not voted for the value under this number, and never will. */
  ghost predicate Blocked(w: World, b: Pn, v: Version, y: Value, q: set<Rank>) {
    exists r :: r in q && r in w.mons && Vote(r, b, v, y) !in w.votes && w.mons[r].acceptedPn > b
  }

  /** No other value can be chosen for `v` under a lower number, now or later. */
  ghost predicate Safe(w: World, pn: Pn, v: Version, x: Value) {
    forall b: Pn, y: Value, q: set<Rank> :: b < pn && y != x && Majority(w, q) ==> Blocked(w, b, v, y, q)
  }

  ghost predicate ProposalsOk(w: World) {
    forall k :: k in w.proposals ==>
      && Safe(w, k.0, k.1, w.proposals[k])
      && forall r :: r in w.mons && r % 100 == k.0 % 100 ==> k.0 <= w.mons[r].lastPn
  }

  /** What a vote says about the monitor that cast it. */
  ghost predicate VoteOk(m: Mon, t: Vote) {
    t.pn <= m.acceptedPn && t.v <= m.Lc() + 1 && (t.v == m.Lc() + 1 ==> m.pending.Some? && t.pn <= m.pending.value.pn)
  }

  ghost predicate VotesOk(w: World) {
    forall t :: t in w.votes ==> Proposed(w, t.pn, t.v, t.value) && t.rank in w.mons && VoteOk(w.mons[t.rank], t)
  }

  /** `r` has promised `pn` and has no older vote above version `v`. */
  ghost predicate Clear(w: World, r: Rank, pn: Pn, v: Version) {
    r in w.mons && w.mons[r].acceptedPn >= pn && forall t :: t in w.votes && t.rank == r && t.pn < pn ==> t.v <= v
  }

  /** Older votes of `r` for the version after `lc` are under numbers up to that of `unc`. */
  ghost predicate Covered(w: World, r: Rank, pn: Pn, lc: Version, unc: Option<Uncommitted>) {
    forall t :: t in w.votes && t.rank == r && t.pn < pn && t.v == lc + 1 ==> unc.Some? && t.pn <= unc.value.pn
  }

  ghost predicate Proposed(w: World, pn: Pn, v: Version, x: Value) {
    (pn, v) in w.proposals && w.proposals[(pn, v)] == x
  }

  ghost predicate NoneAbove(w: World, pn: Pn, v: Version) {
    forall k :: k in w.proposals && k.0 == pn ==> k.1 <= v
  }

  ghost predicate RoleOk(w: World, r: Rank, m: Mon) {
    match m.role
    case Peon => true
    case Recovering(quorum, lasts, unc) =>
      && lasts <= quorum && NoneAbove(w, m.acceptedPn, 0)
      && (unc.Some? ==> unc.value.v == m.Lc() + 1 && unc.value.pn < m.acceptedPn &&
                        Proposed(w, unc.value.pn, unc.value.v, unc.value.value))
      && (forall q :: q in lasts ==> Clear(w, q, m.acceptedPn, m.Lc() + 1) && Covered(w, q, m.acceptedPn, m.Lc(), unc))
    case Active(quorum) =>
      NoneAbove(w, m.acceptedPn, m.Lc()) && forall q :: q in quorum ==> Clear(w, q, m.acceptedPn, m.Lc())
    case Updating(quorum, accepted, value) =>
      && NoneAbove(w, m.acceptedPn, m.Lc() + 1) && Proposed(w, m.acceptedPn, m.Lc() + 1, value)
      && (forall q :: q in quorum ==> Clear(w, q, m.acceptedPn, m.Lc() + 1))
      && accepted <= quorum && forall q :: q in accepted ==> Vote(q, m.acceptedPn, m.Lc() + 1, value) in w.votes
  }

  ghost predicate LeaderOk(w: World, r: Rank, m: Mon) {
    !m.role.Peon? ==>
      && r in m.role.quorum && Majority(w, m.role.quorum)
      && m.acceptedPn % 100 == r % 100 && m.acceptedPn <= m.lastPn
  }

  ghost predicate MonOk(w: World, r: Rank, m: Mon) {
    && AllChosen(w, m.log) && LeaderOk(w, r, m) && RoleOk(w, r, m)
    && (m.pending.Some? ==> Proposed(w, m.pending.value.pn, m.Lc() + 1, m.pending.value.value) &&
                            m.pending.value.pn <= m.acceptedPn)
  }

  ghost predicate MsgOk(w: World, msg: Msg) {
    && msg.from in w.mons
    && match msg
       case Collect(from, _, _, lc) => lc <= w.mons[from].Lc()
       case Last(from, to, pn, log, unc) =>
         && to in w.mons && AllChosen(w, log) && Clear(w, from, pn, |log| + 1)
         && (unc.Some? ==> Proposed(w, unc.value.pn, |log| + 1, unc.value.value) && unc.value.pn <= pn)
         && (|log| < w.mons[to].Lc() ||
             forall t :: t in w.votes && t.rank == from && t.pn < pn && t.v == |log| + 1 ==>
               unc.Some? && t.pn <= unc.value.pn)
       case Begin(_, _, pn, lc, value) => Proposed(w, pn, lc + 1, value)
       case Accept(from, _, pn, lc) =>
         (pn, lc + 1) in w.proposals && Vote(from, pn, lc + 1, w.proposals[(pn, lc + 1)]) in w.votes
       case Commit(_, _, log) => AllChosen(w, log)
  }

  ghost predicate Inv(w: World) {
    && Distinct(w.mons.Keys) && ProposalsOk(w) && VotesOk(w)
    && (forall r :: r in w.mons ==> MonOk(w, r, w.mons[r]))
    && (forall msg :: msg in w.net ==> MsgOk(w, msg))
  }

  // ---------------------------------------------------------------- what every step keeps

  /** Nothing is forgotten, and a vote is cast only under the number last promised. */
  ghost predicate Grows(w: World, w': World) {
    && w.mons.Keys == w'.mons.Keys
    && (forall r :: r in w.mons ==>
          && w.mons[r].acceptedPn <= w'.mons[r].acceptedPn && w.mons[r].lastPn <= w'.mons[r].lastPn
          && w.mons[r].Lc() <= w'.mons[r].Lc())
    && w.votes <= w'.votes
    && (forall t :: t in w'.votes && t !in w.votes ==> t.rank in w.mons && t.pn >= w.mons[t.rank].acceptedPn)
    && (forall k :: k in w.proposals ==> k in w'.proposals && w'.proposals[k] == w.proposals[k])
  }

  lemma MajorityStable(w: World, w': World, q: set<Rank>)
    requires Grows(w, w')
    ensures Majority(w', q) <==> Majority(w, q)
  {
    assert |w.mons| == |w.mons.Keys| == |w'.mons.Keys| == |w'.mons|;
  }

  lemma SafeStable(w: World, w': World, pn: Pn, v: Version, x: Value)
    requires Grows(w, w') && Safe(w, pn, v, x)
    ensures Safe(w', pn, v, x)
  {
    forall b: Pn, y: Value, q: set<Rank> | b < pn && y != x && Majority(w', q) ensures Blocked(w', b, v, y, q) {
      MajorityStable(w, w', q);
      assert Blocked(w, b, v, y, q);
      var r :| r in q && r in w.mons && Vote(r, b, v, y) !in w.votes && w.mons[r].acceptedPn > b;
      assert Vote(r, b, v, y) !in w'.votes;
    }
  }

  lemma AllChosenStable(w: World, w': World, log: seq<Value>)
    requires Grows(w, w') && AllChosen(w, log)
    ensures AllChosen(w', log)
  {
    forall i | 0 <= i < |log| ensures Chosen(w', i + 1, log[i]) {
      var pn: Pn, q: set<Rank> :| ChosenBy(w, pn, q, i + 1, log[i]);
      MajorityStable(w, w', q);
      assert ChosenBy(w', pn, q, i + 1, log[i]);
    }
  }

  lemma ClearStable(w: World, w': World, r: Rank, pn: Pn, v: Version)
    requires Grows(w, w') && Clear(w, r, pn, v)
    ensures Clear(w', r, pn, v)
  {
  }

  lemma MsgStable(w: World, w': World, msg: Msg)
    requires Grows(w, w') && MsgOk(w, msg)
    ensures MsgOk(w', msg)
  {
    match msg
    case Collect(_, _, _, _) =>
    case Last(from, to, pn, log, _) =>
      AllChosenStable(w, w', log);
      ClearStable(w, w', from, pn, |log| + 1);
    case Begin(_, _, _, _, _) =>
    case Accept(_, _, _, _) =>
    case Commit(_, _, log) =>
      AllChosenStable(w, w', log);
  }

  lemma RoleStable(w: World, w': World, r: Rank, m: Mon)
    requires Grows(w, w') && RoleOk(w, r, m) && LeaderOk(w, r, m)
    requires forall k :: k in w'.proposals && k !in w.proposals ==> k.0 % 100 != r % 100
    ensures RoleOk(w', r, m)
  {
    match m.role
    case Peon =>
    case Recovering(_, lasts, _) =>
      forall q | q in lasts ensures Clear(w', q, m.acceptedPn, m.Lc() + 1) {
        ClearStable(w, w', q, m.acceptedPn, m.Lc() + 1);
      }
    case Active(quorum) =>
      forall q | q in quorum ensures Clear(w', q, m.acceptedPn, m.Lc()) {
        ClearStable(w, w', q, m.acceptedPn, m.Lc());
      }
    case Updating(quorum, _, _) =>
      forall q | q in quorum ensures Clear(w', q, m.acceptedPn, m.Lc() + 1) {
        ClearStable(w, w', q, m.acceptedPn, m.Lc() + 1);
      }
  }

  lemma MonStable(w: World, w': World, r: Rank, m: Mon)
    requires Grows(w, w') && MonOk(w, r, m)
    requires forall k :: k in w'.proposals && k !in w.proposals ==> k.0 % 100 != r % 100
    ensures MonOk(w', r, m)
  {
    RoleStable(w, w', r, m);
    AllChosenStable(w, w', m.log);
    if !m.role.Peon? {
      MajorityStable(w, w', m.role.quorum);
    }
  }

  /** Only monitor `r` changes, votes or proposes, and its votes and proposals are in order. */
  ghost predicate Local(w: World, w': World, r: Rank) {
    && r in w.mons && r in w'.mons
    && (forall q :: q in w.mons && q in w'.mons && q != r ==> w'.mons[q] == w.mons[q])
    && (forall k :: k in w'.proposals && k !in w.proposals ==>
          k.0 % 100 == r % 100 && k.0 <= w'.mons[r].lastPn && Safe(w', k.0, k.1, w'.proposals[k]))
    && (forall t :: t in w'.votes && t !in w.votes ==> t.rank == r && Proposed(w', t.pn, t.v, t.value))
    && (forall t :: t in w'.votes && t.rank == r ==> VoteOk(w'.mons[r], t))
  }

  ghost predicate NewMsgsOk(w: World, w': World) {
    forall msg :: msg in w'.net && msg !in w.net ==> MsgOk(w', msg)
  }

  /** A step that changes one monitor keeps the invariant if the changed monitor and the new
      messages are in order. */
  lemma Frame(w: World, w': World, r: Rank)
    requires Inv(w) && Grows(w, w') && Local(w, w', r) && MonOk(w', r, w'.mons[r]) && NewMsgsOk(w, w')
    ensures Inv(w')
  {
    hide Safe;
    forall q | q in w'.mons ensures MonOk(w', q, w'.mons[q]) {
      if q != r {
        MonStable(w, w', q, w.mons[q]);
      }
    }
    forall msg | msg in w'.net ensures MsgOk(w', msg) {
      if msg in w.net {
        MsgStable(w, w', msg);
      }
    }
    forall k | k in w'.proposals ensures Safe(w', k.0, k.1, w'.proposals[k]) {
      if k in w.proposals {
        SafeStable(w, w', k.0, k.1, w.proposals[k]);
      }
    }
  }

  // ---------------------------------------------------------------- why a proposal is safe

  lemma MajoritiesMeet(w: World, a: set<Rank>, b: set<Rank>) returns (r: Rank)
    requires Majority(w, a) && Majority(w, b)
    ensures r in a && r in b
  {
    if a * b == {} {
      assert |a + b| == |a| + |b|;
      Within(a + b, w.mons.Keys);
      assert false;
    }
    r :| r in a * b;
  }

  lemma Within(a: set<Rank>, b: set<Rank>)
    requires a <= b
    ensures |a| <= |b|
  {
    assert b == a + (b - a);
  }

  /** Nobody in the quorum has an older vote for the version: any value may be proposed. */
  lemma SafeIfClear(w: World, quorum: set<Rank>, pn: Pn, lc: Version, x: Value)
    requires Majority(w, quorum) && forall q :: q in quorum ==> Clear(w, q, pn, lc)
    ensures Safe(w, pn, lc + 1, x)
  {
    var v := lc + 1;
    forall b: Pn, y: Value, q: set<Rank> | b < pn && y != x && Majority(w, q) ensures Blocked(w, b, v, y, q) {
      var r := MajoritiesMeet(w, quorum, q);
      assert Clear(w, r, pn, lc);
      assert Vote(r, b, lc + 1, y) !in w.votes;
    }
  }

  /** The learned value has the highest number among the older votes of the quorum for the version:
      it is the one value that may be proposed. */
  lemma SafeIfLearned(w: World, quorum: set<Rank>, pn: Pn, lc: Version, unc: Uncommitted)
    requires ProposalsOk(w) && VotesOk(w) && Majority(w, quorum)
    requires forall q :: q in quorum ==> Clear(w, q, pn, lc + 1) && Covered(w, q, pn, lc, Some(unc))
    requires Proposed(w, unc.pn, lc + 1, unc.value)
    ensures Safe(w, pn, lc + 1, unc.value)
  {
    var v := lc + 1;
    forall b: Pn, y: Value, q: set<Rank> | b < pn && y != unc.value && Majority(w, q) ensures Blocked(w, b, v, y, q) {
      var r := MajoritiesMeet(w, quorum, q);
      assert Clear(w, r, pn, lc + 1) && Covered(w, r, pn, lc, Some(unc));
      var t := Vote(r, b, lc + 1, y);
      if t in w.votes {
        assert t.pn <= unc.pn;
        assert (t.pn, t.v) in w.proposals && w.proposals[(t.pn, t.v)] == y;
        assert Safe(w, unc.pn, lc + 1, unc.value);
        assert b < unc.pn;
      }
    }
  }

  // ---------------------------------------------------------------- one lemma per step

  lemma CollectingOk(w: World, r: Rank, quorum: set<Rank>, oldPn: Pn)
    requires Inv(w) && r in quorum && Majority(w, quorum)
    ensures var m' := Collecting(w.mons[r], r, quorum, oldPn);
            && w.mons[r].acceptedPn < m'.acceptedPn && w.mons[r].lastPn < m'.lastPn
            && LeaderOk(w, r, m') && NoneAbove(w, m'.acceptedPn, 0)
            && (forall t :: t in w.votes && t.rank == r ==> VoteOk(m', t))
            && (m'.role.uncommitted.Some? ==>
                  var unc := m'.role.uncommitted.value; unc.pn < m'.acceptedPn && Proposed(w, unc.pn, unc.v, unc.value))
  {
    hide Safe;
    var m := w.mons[r];
    assert MonOk(w, r, m);
    NewPnIsNew(m.lastPn, if oldPn > m.acceptedPn then oldPn else m.acceptedPn, r);
  }

  lemma MonOf(w: World, r: Rank)
    requires Inv(w) && r in w.mons
    ensures MonOk(w, r, w.mons[r]) && forall t :: t in w.votes && t.rank == r ==> VoteOk(w.mons[r], t)
  {
    hide MonOk, MsgOk, ProposalsOk;
  }

  lemma MsgOf(w: World, msg: Msg)
    requires Inv(w) && msg in w.net
    ensures MsgOk(w, msg)
  {
    hide MonOk, MsgOk, ProposalsOk, VotesOk;
  }

  lemma CollectMon(w: World, w': World, r: Rank, quorum: set<Rank>, oldPn: Pn)
    requires Inv(w) && r in quorum && Majority(w, quorum) && Grows(w, w')
    requires w'.votes == w.votes && w'.proposals == w.proposals
    requires r in w'.mons && w'.mons[r] == Collecting(w.mons[r], r, quorum, oldPn)
    ensures MonOk(w', r, w'.mons[r])
  {
    hide Inv, NewPn, Safe, AllChosen;
    CollectingOk(w, r, quorum, oldPn);
    MonOf(w, r);
    AllChosenStable(w, w', w.mons[r].log);
    MajorityStable(w, w', quorum);
  }

  lemma CollectGrows(w: World, w': World, r: Rank, quorum: set<Rank>, oldPn: Pn)
    requires Inv(w) && r in quorum && Majority(w, quorum)
    requires w' == WithCollect(w, r, Collecting(w.mons[r], r, quorum, oldPn))
    ensures Grows(w, w')
  {
    CollectingOk(w, r, quorum, oldPn);
    hide Inv, NewPn, LeaderOk, NoneAbove, Proposed, VoteOk;
  }

  lemma CollectLocal(w: World, w': World, r: Rank, quorum: set<Rank>, oldPn: Pn)
    requires Inv(w) && r in quorum && Majority(w, quorum)
    requires w' == WithCollect(w, r, Collecting(w.mons[r], r, quorum, oldPn))
    ensures Local(w, w', r) && NewMsgsOk(w, w')
  {
    CollectingOk(w, r, quorum, oldPn);
    hide Inv, NewPn, LeaderOk, NoneAbove, Proposed, VoteOk, Majority;
  }

  lemma CollectOk(w: World, r: Rank, quorum: set<Rank>, oldPn: Pn)
    requires Inv(w) && r in quorum && Majority(w, quorum)
    ensures var w' := WithCollect(w, r, Collecting(w.mons[r], r, quorum, oldPn)); Inv(w') && Grows(w, w')
  {
    assert r in w.mons;
    hide Inv, MonOk, Grows, Local, NewMsgsOk, Collecting;
    var w' := WithCollect(w, r, Collecting(w.mons[r], r, quorum, oldPn));
    CollectGrows(w, w', r, quorum, oldPn);
    CollectLocal(w, w', r, quorum, oldPn);
    CollectMon(w, w', r, quorum, oldPn);
    Frame(w, w', r);
  }

  lemma OnCollectLocal(w: World, w': World, q: Rank, msg: Msg)
    requires Inv(w) && msg in w.net && msg.Collect? && q in w.mons && w.mons[q].role.Peon?
    requires w' == OnCollect(w, q, msg)
    ensures Grows(w, w') && Local(w, w', q)
  {
    hide Inv, MonOk;
    MonOf(w, q);
  }

  lemma OnCollectMsgs(w: World, w': World, q: Rank, msg: Msg)
    requires Inv(w) && msg in w.net && msg.Collect? && q in w.mons && w.mons[q].role.Peon?
    requires w' == OnCollect(w, q, msg) && Grows(w, w')
    ensures NewMsgsOk(w, w') && MonOk(w', q, w'.mons[q])
  {
    hide Inv, AllChosen;
    MsgOf(w, msg);
    MonOf(w, q);
    AllChosenStable(w, w', w.mons[q].log);
  }

  lemma OnCollectOk(w: World, q: Rank, msg: Msg)
    requires Inv(w) && msg in w.net && msg.Collect? && q in w.mons && w.mons[q].role.Peon?
    ensures var w' := OnCollect(w, q, msg); Inv(w') && Grows(w, w')
  {
    hide Inv, Grows, Local, NewMsgsOk, MonOk;
    var w' := OnCollect(w, q, msg);
    OnCollectLocal(w, w', q, msg);
    OnCollectMsgs(w, w', q, msg);
    Frame(w, w', q);
  }

  lemma StoreStateRole(w: World, w': World, r: Rank, log: seq<Value>)
    requires r in w.mons && RoleOk(w, r, w.mons[r]) && (w.mons[r].role.Peon? || w.mons[r].role.Recovering?)
    requires w' == Stored(w, r, log) && Grows(w, w')
    ensures RoleOk(w', r, w'.mons[r])
  {
    var m, m' := w.mons[r], w'.mons[r];
    if m.role.Recovering? {
      forall q | q in m.role.lasts
        ensures Clear(w', q, m.acceptedPn, m'.Lc() + 1) && Covered(w', q, m.acceptedPn, m'.Lc(), m'.role.uncommitted)
      {
        assert Clear(w, q, m.acceptedPn, m.Lc() + 1) && Covered(w, q, m.acceptedPn, m.Lc(), m.role.uncommitted);
      }
    }
  }

  lemma StoreStateLog(w: World, w': World, m: Mon, log: seq<Value>)
    requires Grows(w, w') && AllChosen(w, m.log) && AllChosen(w, log)
    ensures AllChosen(w', StoreState(m, log).log)
  {
    AllChosenStable(w, w', m.log);
    AllChosenStable(w, w', log);
    hide Grows, Chosen;
  }

  lemma StoreStateMon(w: World, w': World, r: Rank, log: seq<Value>)
    requires Inv(w) && r in w.mons && AllChosen(w, log) && (w.mons[r].role.Peon? || w.mons[r].role.Recovering?)
    requires w' == Stored(w, r, log) && Grows(w, w')
    ensures MonOk(w', r, w'.mons[r])
  {
    hide Inv, AllChosen, Majority, Grows, RoleOk;
    MonOf(w, r);
    var m := w.mons[r];
    StoreStateLog(w, w', m, log);
    StoreStateRole(w, w', r, log);
    if m.role.Recovering? {
      MajorityStable(w, w', m.role.quorum);
    }
  }

  lemma StoreStateLocal(w: World, w': World, r: Rank, log: seq<Value>)
    requires Inv(w) && r in w.mons && w' == Stored(w, r, log)
    ensures Grows(w, w') && Local(w, w', r) && NewMsgsOk(w, w')
  {
    hide Inv, MonOk;
    MonOf(w, r);
  }

  lemma StoreStateOk(w: World, r: Rank, log: seq<Value>)
    requires Inv(w) && r in w.mons && AllChosen(w, log) && (w.mons[r].role.Peon? || w.mons[r].role.Recovering?)
    ensures Inv(Stored(w, r, log)) && Grows(w, Stored(w, r, log))
  {
    var w' := Stored(w, r, log);
    hide Inv, MonOk, AllChosen, Grows, Local, NewMsgsOk;
    StoreStateLocal(w, w', r, log);
    StoreStateMon(w, w', r, log);
    Frame(w, w', r);
  }

  /** What must hold for `r` to begin on a value. */
  ghost predicate MayBegin(w: World, r: Rank, quorum: set<Rank>, value: Value) {
    && r in w.mons && r in quorum && Majority(w, quorum)
    && var m := w.mons[r];
       && m.acceptedPn % 100 == r % 100 && m.acceptedPn <= m.lastPn && NoneAbove(w, m.acceptedPn, m.Lc())
       && Safe(w, m.acceptedPn, m.Lc() + 1, value)
       && forall q :: q in quorum ==> Clear(w, q, m.acceptedPn, m.Lc() + 1)
  }

  lemma BegunGrows(w: World, w': World, r: Rank, quorum: set<Rank>, value: Value)
    requires Inv(w) && MayBegin(w, r, quorum, value) && w' == Begun(w, r, w.mons[r], quorum, value)
    ensures Grows(w, w')
  {
    hide Inv, Safe, Majority, Clear;
  }

  lemma BegunLocal(w: World, w': World, r: Rank, quorum: set<Rank>, value: Value)
    requires Inv(w) && MayBegin(w, r, quorum, value) && w' == Begun(w, r, w.mons[r], quorum, value) && Grows(w, w')
    ensures Local(w, w', r)
  {
    hide Inv, MonOk, Safe, Majority, Clear, NoneAbove, Grows;
    var m := w.mons[r];
    MonOf(w, r);
    SafeStable(w, w', m.acceptedPn, m.Lc() + 1, value);
  }

  lemma BegunMon(w: World, w': World, r: Rank, quorum: set<Rank>, value: Value)
    requires Inv(w) && MayBegin(w, r, quorum, value) && w' == Begun(w, r, w.mons[r], quorum, value) && Grows(w, w')
    ensures MonOk(w', r, w'.mons[r]) && NewMsgsOk(w, w')
  {
    hide Inv, Safe, AllChosen, Clear, Majority, Grows;
    var m := w.mons[r];
    MonOf(w, r);
    AllChosenStable(w, w', m.log);
    MajorityStable(w, w', quorum);
    forall q | q in quorum ensures Clear(w', q, m.acceptedPn, m.Lc() + 1) {
      ClearStable(w, w', q, m.acceptedPn, m.Lc() + 1);
    }
  }

  lemma BegunOk(w: World, r: Rank, quorum: set<Rank>, value: Value)
    requires Inv(w) && MayBegin(w, r, quorum, value)
    ensures var w' := Begun(w, r, w.mons[r], quorum, value); Inv(w') && Grows(w, w')
  {
    var w' := Begun(w, r, w.mons[r], quorum, value);
    hide Inv, Grows, Local, NewMsgsOk, MonOk;
    BegunGrows(w, w', r, quorum, value);
    BegunLocal(w, w', r, quorum, value);
    BegunMon(w, w', r, quorum, value);
    Frame(w, w', r);
  }

  ghost predicate BeginArrives(w: World, msg: Msg) {
    msg.Begin? && Enabled(w, Deliver(msg))
  }

  ghost predicate AcceptArrives(w: World, msg: Msg) {
    msg.Accept? && Enabled(w, Deliver(msg))
  }

  lemma OnBeginLocal(w: World, w': World, msg: Msg)
    requires Inv(w) && BeginArrives(w, msg)
    requires w' == OnBegin(w, msg.to, msg)
    ensures Grows(w, w') && Local(w, w', msg.to)
  {
    hide Inv, MonOk;
    MsgOf(w, msg);
    MonOf(w, msg.to);
  }

  lemma OnBeginMon(w: World, w': World, msg: Msg)
    requires Inv(w) && BeginArrives(w, msg)
    requires w' == OnBegin(w, msg.to, msg) && Grows(w, w')
    ensures MonOk(w', msg.to, w'.mons[msg.to]) && NewMsgsOk(w, w')
  {
    hide Inv, AllChosen, Grows;
    MsgOf(w, msg);
    MonOf(w, msg.to);
    AllChosenStable(w, w', w.mons[msg.to].log);
  }

  lemma OnBeginOk(w: World, msg: Msg)
    requires Inv(w) && BeginArrives(w, msg)
    ensures var w' := OnBegin(w, msg.to, msg); Inv(w') && Grows(w, w')
  {
    var w' := OnBegin(w, msg.to, msg);
    hide Inv, Grows, Local, NewMsgsOk, MonOk;
    OnBeginLocal(w, w', msg);
    OnBeginMon(w, w', msg);
    Frame(w, w', msg.to);
  }

  /** The last accept makes the value chosen. */
  lemma CommitChosen(w: World, w': World, m: Mon)
    requires Grows(w, w') && AllChosen(w, m.log) && m.role.Updating? && Majority(w, m.role.quorum)
    requires forall q :: q in m.role.quorum ==> Vote(q, m.acceptedPn, m.Lc() + 1, m.role.value) in w.votes
    ensures AllChosen(w', m.log + [m.role.value])
  {
    AllChosenStable(w, w', m.log);
    MajorityStable(w, w', m.role.quorum);
    assert ChosenBy(w', m.acceptedPn, m.role.quorum, m.Lc() + 1, m.role.value);
    hide Grows, ChosenBy;
  }

  lemma OnAcceptRole(w: World, w': World, r: Rank, msg: Msg)
    requires r in w.mons && RoleOk(w, r, w.mons[r]) && w.mons[r].role.Updating? && MsgOk(w, msg) && msg.Accept?
    requires msg.pn == w.mons[r].acceptedPn && msg.lc == w.mons[r].Lc() && msg.from in w.mons[r].role.quorum
    requires w' == OnAccept(w, r, msg) && Grows(w, w')
    ensures RoleOk(w', r, w'.mons[r])
    ensures Vote(msg.from, msg.pn, msg.lc + 1, w.mons[r].role.value) in w.votes
  {
    var m := w.mons[r];
    forall q | q in m.role.quorum ensures Clear(w', q, m.acceptedPn, m.Lc() + 1) {
      ClearStable(w, w', q, m.acceptedPn, m.Lc() + 1);
    }
    hide Clear, Grows;
  }

  lemma OnAcceptMon(w: World, w': World, msg: Msg)
    requires Inv(w) && AcceptArrives(w, msg)
    requires w' == OnAccept(w, msg.to, msg) && Grows(w, w')
    ensures MonOk(w', msg.to, w'.mons[msg.to])
  {
    hide Inv, AllChosen, Majority, Grows, MsgOk;
    var r := msg.to;
    var m := w.mons[r];
    MsgOf(w, msg);
    MonOf(w, r);
    OnAcceptRole(w, w', r, msg);
    AllChosenStable(w, w', m.log);
    MajorityStable(w, w', m.role.quorum);
    if m.role.accepted + {msg.from} == m.role.quorum {
      CommitChosen(w, w', m);
    }
  }

  lemma OnAcceptLocal(w: World, w': World, msg: Msg)
    requires Inv(w) && AcceptArrives(w, msg)
    requires w' == OnAccept(w, msg.to, msg)
    ensures Grows(w, w') && Local(w, w', msg.to)
  {
    hide Inv, MonOk;
    MonOf(w, msg.to);
  }

  lemma OnAcceptMsgs(w: World, w': World, msg: Msg)
    requires AcceptArrives(w, msg) && w' == OnAccept(w, msg.to, msg) && MonOk(w', msg.to, w'.mons[msg.to])
    ensures NewMsgsOk(w, w')
  {
    hide RoleOk, LeaderOk, AllChosen;
  }

  lemma OnAcceptOk(w: World, msg: Msg)
    requires Inv(w) && AcceptArrives(w, msg)
    ensures var w' := OnAccept(w, msg.to, msg); Inv(w') && Grows(w, w')
  {
    var w' := OnAccept(w, msg.to, msg);
    hide Inv, Grows, Local, NewMsgsOk, MonOk;
    OnAcceptLocal(w, w', msg);
    OnAcceptMon(w, w', msg);
    OnAcceptMsgs(w, w', msg);
    Frame(w, w', msg.to);
  }

  lemma GrowsReflexive(w: World)
    ensures Grows(w, w)
  {
  }

  lemma GrowsTransitive(w: World, w': World, w'': World)
    requires Grows(w, w') && Grows(w', w'')
    ensures Grows(w, w'')
  {
  }

  /** Changing only the role of a monitor. */
  lemma RoleChangeOk(w: World, r: Rank, role: Role)
    requires Inv(w) && r in w.mons
    requires var m := w.mons[r].(role := role); RoleOk(w, r, m) && LeaderOk(w, r, m)
    ensures var w' := w.(mons := w.mons[r := w.mons[r].(role := role)]); Inv(w') && Grows(w, w')
  {
    hide Inv, RoleOk, AllChosen, Majority, MsgOk, Safe;
    var m := w.mons[r].(role := role);
    var w' := w.(mons := w.mons[r := m]);
    MonOf(w, r);
    RoleStable(w, w', r, m);
    AllChosenStable(w, w', m.log);
    if !role.Peon? {
      MajorityStable(w, w', role.quorum);
    }
    Frame(w, w', r);
  }

  /** After hearing `msg`, what the leader knows covers the sender too. */
  lemma Hears(w: World, r: Rank, msg: Msg)
    requires r in w.mons && w.mons[r].role.Recovering? && RoleOk(w, r, w.mons[r])
    requires msg.Last? && MsgOk(w, msg) && msg.to == r && msg.pn == w.mons[r].acceptedPn && |msg.log| <= w.mons[r].Lc()
    requires msg.from in w.mons[r].role.quorum
    ensures var m := w.mons[r];
            RoleOk(w, r, m.(role := Recovering(m.role.quorum, m.role.lasts + {msg.from}, Learn(m, msg))))
  {
    hide AllChosen;
    var m := w.mons[r];
    var unc := Learn(m, msg);
    forall q | q in m.role.lasts + {msg.from}
      ensures Clear(w, q, m.acceptedPn, m.Lc() + 1) && Covered(w, q, m.acceptedPn, m.Lc(), unc)
    {
      if q in m.role.lasts {
        assert Clear(w, q, m.acceptedPn, m.Lc() + 1) && Covered(w, q, m.acceptedPn, m.Lc(), m.role.uncommitted);
      }
    }
  }

  /** Once everyone has been heard, the learned value may be begun, or the leader is active. */
  lemma RecoveryEnds(w: World, r: Rank, m: Mon)
    requires Inv(w) && r in w.mons && m.role.Recovering? && m.role.lasts == m.role.quorum
    requires w.mons[r].acceptedPn == m.acceptedPn && w.mons[r].log == m.log && w.mons[r].lastPn == m.lastPn
    requires RoleOk(w, r, m) && LeaderOk(w, r, m)
    ensures m.role.uncommitted.Some? ==> MayBegin(w, r, m.role.quorum, m.role.uncommitted.value.value)
    ensures m.role.uncommitted.None? ==> RoleOk(w, r, m.(role := Active(m.role.quorum)))
  {
    hide MonOk, MsgOk, Safe, Majority;
    if m.role.uncommitted.Some? {
      SafeIfLearned(w, m.role.quorum, m.acceptedPn, m.Lc(), m.role.uncommitted.value);
    } else {
      forall q | q in m.role.quorum ensures Clear(w, q, m.acceptedPn, m.Lc()) {
        assert Clear(w, q, m.acceptedPn, m.Lc() + 1) && Covered(w, q, m.acceptedPn, m.Lc(), None);
      }
    }
  }

  lemma OnLastAccepted(w: World, r: Rank, msg: Msg)
    requires Inv(w) && msg in w.net && msg.Last? && msg.to == r && r in w.mons && w.mons[r].role.Recovering?
    requires msg.from in w.mons[r].role.quorum && msg.pn == w.mons[r].acceptedPn && |msg.log| <= w.mons[r].Lc()
    ensures var w' := OnReply(w, r, msg); Inv(w') && Grows(w, w')
  {
    hide Inv, Grows, MayBegin, MsgOk, RoleOk, LeaderOk, AllChosen, Begun;
    var m := w.mons[r];
    MonOf(w, r);
    MsgOf(w, msg);
    Hears(w, r, msg);
    var quorum, lasts, unc := m.role.quorum, m.role.lasts + {msg.from}, Learn(m, msg);
    var heard := m.(role := Recovering(quorum, lasts, unc));
    LeaderKeeps(w, r, m, heard.role);
    LeaderKeeps(w, r, m, Active(quorum));
    if lasts != quorum {
      RoleChangeOk(w, r, heard.role);
    } else {
      RecoveryEnds(w, r, heard);
      if unc.Some? {
        LearnedVersion(w, r, heard);
        BegunOk(w, r, quorum, unc.value.value);
      } else {
        RoleChangeOk(w, r, Active(quorum));
      }
    }
  }

  lemma LeaderKeeps(w: World, r: Rank, m: Mon, role: Role)
    requires LeaderOk(w, r, m) && !m.role.Peon? && !role.Peon? && role.quorum == m.role.quorum
    ensures LeaderOk(w, r, m.(role := role))
  {
  }

  lemma LearnedVersion(w: World, r: Rank, m: Mon)
    requires RoleOk(w, r, m) && m.role.Recovering? && m.role.uncommitted.Some?
    ensures m.role.uncommitted.value.v == m.Lc() + 1
  {
  }

  lemma OnReplyOk(w: World, msg: Msg)
    requires Inv(w) && msg in w.net && msg.Last? && msg.to in w.mons && w.mons[msg.to].role.Recovering?
    requires msg.from in w.mons[msg.to].role.quorum && |msg.log| <= w.mons[msg.to].Lc()
    ensures var w' := OnReply(w, msg.to, msg); Inv(w') && Grows(w, w')
  {
    hide Inv, Grows, LeaderOk, RoleOk, AllChosen, Collecting, Begun, Learn;
    var r, m := msg.to, w.mons[msg.to];
    MonOf(w, r);
    LeaderOf(w, r, m);
    if msg.pn > m.acceptedPn {
      CollectOk(w, r, m.role.quorum, msg.pn);
    } else if msg.pn < m.acceptedPn {
      GrowsReflexive(w);
    } else {
      OnLastAccepted(w, r, msg);
    }
  }

  lemma OnLastOk(w: World, msg: Msg)
    requires Inv(w) && msg in w.net && msg.Last? && msg.to in w.mons && w.mons[msg.to].role.Recovering?
    requires msg.from in w.mons[msg.to].role.quorum
    ensures var w' := OnLast(w, msg.to, msg); Inv(w') && Grows(w, w')
  {
    hide Inv, Grows, AllChosen, OnReply;
    var r := msg.to;
    MsgOf(w, msg);
    StoreStateOk(w, r, msg.log);
    var w1 := Stored(w, r, msg.log);
    ToldOk(w1, r);
    OnReplyOk(Told(w1, r), msg);
    GrowsTransitive(w, w1, Told(w1, r));
    GrowsTransitive(w, Told(w1, r), OnLast(w, r, msg));
  }

  lemma LeaderOf(w: World, r: Rank, m: Mon)
    requires LeaderOk(w, r, m) && !m.role.Peon?
    ensures r in m.role.quorum && Majority(w, m.role.quorum)
  {
  }

  lemma ProposeOk(w: World, r: Rank, value: Value)
    requires Inv(w) && r in w.mons && w.mons[r].role.Active?
    ensures var w' := Begun(w, r, w.mons[r], w.mons[r].role.quorum, value); Inv(w') && Grows(w, w')
  {
    hide Inv, Safe, Majority, AllChosen, Grows, Begun;
    var m := w.mons[r];
    MonOf(w, r);
    SafeIfClear(w, m.role.quorum, m.acceptedPn, m.Lc(), value);
    forall q | q in m.role.quorum ensures Clear(w, q, m.acceptedPn, m.Lc() + 1) {
      assert Clear(w, q, m.acceptedPn, m.Lc());
    }
    BegunOk(w, r, m.role.quorum, value);
  }

  lemma ToldOk(w: World, r: Rank)
    requires Inv(w) && r in w.mons
    ensures Inv(Told(w, r)) && Grows(w, Told(w, r))
  {
    hide Inv, RoleOk, LeaderOk, AllChosen, Majority;
    var w' := Told(w, r);
    MonOf(w, r);
    AllChosenStable(w, w', w.mons[r].log);
    MonStable(w, w', r, w.mons[r]);
    Frame(w, w', r);
  }

  /** Every step keeps the invariant and forgets nothing. */
  lemma StepOk(w: World, e: Event)
    requires Inv(w) && Enabled(w, e)
    ensures Inv(Step(w, e)) && Grows(w, Step(w, e))
  {
    hide Inv, Grows, Collecting, WithCollect, Begun, OnCollect, OnLast, OnBegin, OnAccept, StoreState;
    hide RoleOk, LeaderOk, AllChosen;
    match e
    case LeaderInit(r, quorum) => CollectOk(w, r, quorum, 0);
    case PeonInit(r) => PeonInitOk(w, r);
    case Propose(r, value) => ProposeOk(w, r, value);
    case Deliver(msg) =>
      match msg
      case Collect(_, q, _, _) => OnCollectOk(w, q, msg);
      case Last(_, _, _, _, _) => OnLastOk(w, msg);
      case Begin(_, _, _, _, _) => OnBeginOk(w, msg);
      case Accept(_, _, _, _) => OnAcceptOk(w, msg);
      case Commit(_, q, log) =>
        MsgOf(w, msg);
        StoreStateOk(w, q, log);
  }

  lemma PeonInitOk(w: World, r: Rank)
    requires Inv(w) && r in w.mons
    ensures var w' := w.(mons := w.mons[r := w.mons[r].(role := Peon)]); Inv(w') && Grows(w, w')
  {
    hide Inv, Grows;
    RoleChangeOk(w, r, Peon);
  }

  // ---------------------------------------------------------------- agreement

  /** A value chosen under one number is the only value proposed under any higher number. */
  lemma ChosenIsProposedAfter(w: World, b: Pn, q: set<Rank>, c: Pn, v: Version, x: Value, y: Value)
    requires ProposalsOk(w) && ChosenBy(w, b, q, v, x) && b < c && Proposed(w, c, v, y)
    ensures x == y
  {
    assert !Blocked(w, b, v, x, q);
    assert Safe(w, c, v, w.proposals[(c, v)]);
  }

  /** At most one value is ever chosen for a version. */
  lemma ChosenUnique(w: World, v: Version, x: Value, y: Value)
    requires ProposalsOk(w) && VotesOk(w) && Chosen(w, v, x) && Chosen(w, v, y)
    ensures x == y
  {
    var b: Pn, q: set<Rank> :| ChosenBy(w, b, q, v, x);
    var c: Pn, q': set<Rank> :| ChosenBy(w, c, q', v, y);
    var r := MajoritiesMeet(w, q, q');
    assert Vote(r, b, v, x) in w.votes && Vote(r, c, v, y) in w.votes;
    if b < c {
      ChosenIsProposedAfter(w, b, q, c, v, x, y);
    } else if c < b {
      ChosenIsProposedAfter(w, c, q', b, v, y, x);
    }
  }

  /** All monitors start empty and idle. */
  ghost function Start(ranks: set<Rank>): World {
    World(map r | r in ranks :: Mon([], None, 0, 0, Peon), {}, {}, map[])
  }

  /** The world after any sequence of events; an event that is not possible changes nothing. */
  ghost function After(ranks: set<Rank>, run: seq<Event>): World {
    if run == [] then Start(ranks)
    else
      var w, e := After(ranks, run[..|run| - 1]), run[|run| - 1];
      if Enabled(w, e) then Step(w, e) else w
  }

  lemma {:induction false} RunOk(ranks: set<Rank>, run: seq<Event>, k: nat)
    requires k <= |run| && Distinct(ranks)
    ensures Inv(After(ranks, run)) && After(ranks, run).mons.Keys == ranks
    ensures Grows(After(ranks, run[..k]), After(ranks, run))
    decreases |run|
  {
    assert run[..|run|] == run;
    GrowsReflexive(After(ranks, run));
    if run != [] {
      hide Grows, Inv, Step, Enabled;
      var front, e := run[..|run| - 1], run[|run| - 1];
      var w := After(ranks, front);
      RunOk(ranks, front, if k == |run| then 0 else k);
      if Enabled(w, e) {
        StepOk(w, e);
        SameMonitors(w, Step(w, e));
      }
      if k < |run| {
        assert front[..k] == run[..k];
        if Enabled(w, e) {
          GrowsTransitive(After(ranks, run[..k]), w, After(ranks, run));
        }
      }
    }
  }

  lemma SameMonitors(w: World, w': World)
    requires Grows(w, w')
    ensures w.mons.Keys == w'.mons.Keys
  {
  }

  /** Logs of an earlier and of a later world agree wherever both reach. */
  lemma LogsAgree(early: World, late: World, a: Rank, b: Rank, i: nat)
    requires Inv(early) && Inv(late) && Grows(early, late) && a in early.mons && b in late.mons
    requires i < early.mons[a].Lc() && i < late.mons[b].Lc()
    ensures early.mons[a].log[i] == late.mons[b].log[i]
  {
    hide RoleOk, LeaderOk, MsgOk, Grows, Chosen, ProposalsOk, VotesOk;
    MonOf(early, a);
    MonOf(late, b);
    AllChosenStable(early, late, early.mons[a].log);
    ChosenUnique(late, i + 1, early.mons[a].log[i], late.mons[b].log[i]);
  }

  predicate Consistent(x: seq<Value>, y: seq<Value>) {
    forall i :: 0 <= i < |x| && i < |y| ==> x[i] == y[i]
  }

  /** In every run, what one monitor has committed at some time and what another has committed at
      some later time agree, version by version. */
  lemma {:induction false} Agreement(ranks: set<Rank>, run: seq<Event>, k: nat, a: Rank, b: Rank)
    requires k <= |run| && a in ranks && b in ranks && Distinct(ranks)
    ensures a in After(ranks, run[..k]).mons && b in After(ranks, run).mons
    ensures Consistent(After(ranks, run[..k]).mons[a].log, After(ranks, run).mons[b].log)
  {
    hide Inv, Grows, After;
    RunOk(ranks, run, k);
    RunOk(ranks, run[..k], 0);
    var early, late := After(ranks, run[..k]), After(ranks, run);
    forall i | 0 <= i < early.mons[a].Lc() && i < late.mons[b].Lc()
      ensures early.mons[a].log[i] == late.mons[b].log[i]
    {
      LogsAgree(early, late, a, b, i);
    }
  }
}
