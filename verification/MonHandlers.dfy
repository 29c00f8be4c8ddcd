/** What each event achieves, in terms of the cluster before and after it. */
module MonHandlers {
  import opened MonCluster
  import opened MonNumbers
  import opened Options

  /** Only monitor `r` changes, and only queues from it get longer. */
  ghost predicate OnlyBy(c: World, c': World, r: Rank) {
    && c'.mons.Keys == c.mons.Keys && c'.net.Keys == c.net.Keys
    && (forall q :: q in c.mons && q != r ==> c'.mons[q] == c.mons[q])
  }

  /** Message `x` is the only one added to the queue from `r` to `q`. */
  ghost predicate Adds(c: World, c': World, r: Rank, q: Rank, x: Msg)
    requires Link(r, q) in c.net && Link(r, q) in c'.net
  {
    c'.net[Link(r, q)] == c.net[Link(r, q)] + [x]
  }

  ghost predicate AddsNothing(c: World, c': World, r: Rank)
    requires c'.net.Keys == c.net.Keys
  {
    forall q :: Link(r, q) in c.net ==> c'.net[Link(r, q)] == c.net[Link(r, q)]
  }

  /** Every other member of the quorum is sent `x`, nobody else anything. */
  ghost predicate AsksAll(c: World, c': World, r: Rank, quorum: set<Rank>, x: Msg)
    requires c'.net.Keys == c.net.Keys
  {
    forall q :: Link(r, q) in c.net && q != r ==>
      c'.net[Link(r, q)] == if q in quorum then c.net[Link(r, q)] + [x] else c.net[Link(r, q)]
  }

  ghost predicate PostsNothing(out: Post) {
    forall q :: For(out, q) == []
  }

  ghost predicate PostsAll(out: Post, r: Rank, quorum: set<Rank>, x: Msg) {
    forall q :: For(out, q) == if q in quorum && q != r then [x] else []
  }

  /** A message is delivered from its queue to a monitor of the same epoch that listens to its sender. */
  ghost predicate Gets(c: World, l: Link, i: nat, keep: bool) {
    && Enabled(c, Deliver(l, i, keep)) && l.from != l.to && l.from in c.mons && Link(l.to, l.from) in c.net
    && c.net[l][i].epoch == c.mons[l.to].epoch
    && (c.mons[l.to].standing.Leader? || c.mons[l.to].standing == Peon(l.from))
  }

  /** A stretch of a queue that is lost leaves it, and nothing else changes. */
  lemma DropMeans(c: World, l: Link, lo: nat, hi: nat)
    requires Enabled(c, Drop(l, lo, hi))
    ensures var c' := Step(c, Drop(l, lo, hi));
            && c'.mons == c.mons && c'.net.Keys == c.net.Keys && |c'.net[l]| == |c.net[l]| - (hi - lo)
            && (forall k :: k in c.net && k != l ==> c'.net[k] == c.net[k])
            && (forall k :: 0 <= k < lo ==> c'.net[l][k] == c.net[l][k])
            && (forall k :: lo <= k < |c'.net[l]| ==> c'.net[l][k] == c.net[l][k + hi - lo])
  {
  }

  /** A message that is delivered leaves its queue, unless it is repeated; no other monitor changes,
      and of the other queues only those from its receiver. */
  lemma DeliverMeans(c: World, l: Link, i: nat, keep: bool)
    requires Enabled(c, Deliver(l, i, keep)) && l.from != l.to
    ensures var c' := Step(c, Deliver(l, i, keep));
            && OnlyBy(c, c', l.to)
            && c'.net[l] == (if keep then c.net[l] else c.net[l][..i] + c.net[l][i + 1..])
            && (forall k :: k in c.net && k != l && k.from != l.to ==> c'.net[k] == c.net[k])
  {
    hide Dispatch, For, Queued;
  }

  /** The filter in front of the handlers: who is out or has crashed stays so; an older epoch means
      nothing; a newer one makes its receiver leave; a peon does not survive a message from anyone
      but its leader. */
  lemma FilterMeans(c: World, l: Link, i: nat, keep: bool)
    requires Enabled(c, Deliver(l, i, keep)) && l.from != l.to
    ensures var (m, msg, c') := (c.mons[l.to], c.net[l][i], Step(c, Deliver(l, i, keep)));
            var m' := c'.mons[l.to];
            && (m.standing.Crashed? || msg.epoch < m.epoch || (msg.epoch == m.epoch && m.standing.Out?) ==>
                  m' == m && AddsNothing(c, c', l.to))
            && (!m.standing.Crashed? && msg.epoch > m.epoch ==> m'.standing.Out? && AddsNothing(c, c', l.to))
            && (m.standing.Peon? && msg.epoch == m.epoch && m.standing.leader != l.from ==>
                  m'.standing.Crashed? && AddsNothing(c, c', l.to))
            && m'.epoch == m.epoch
  {
    hide HandleCollect, HandleLast, HandleBegin, HandleAccept, HandleCommit;
    EpochKept(l.to, c.mons[l.to], l.from, c.net[l][i]);
  }

  lemma EpochKept(r: Rank, m: Mon, from: Rank, msg: Msg)
    ensures Dispatch(r, m, from, msg).mon.epoch == m.epoch
  {
    hide NewPn, Learn;
  }

  /** A peon answers a collect with the higher of its promise and the number asked for, which it then
      has promised, on disk if it is new; it reports what it has committed beyond what the leader has
      and, if it is not behind, what it has accepted. */
  lemma CollectMeans(c: World, l: Link, i: nat, keep: bool)
    requires Gets(c, l, i, keep) && c.net[l][i].Collect? && c.mons[l.to].standing.Peon?
    ensures var (m, msg, c') := (c.mons[l.to], c.net[l][i], Step(c, Deliver(l, i, keep)));
            var m' := c'.mons[l.to];
            && m'.acceptedPn >= m.acceptedPn && m'.acceptedPn >= msg.pn && m'.acceptedPn in {m.acceptedPn, msg.pn}
            && (m'.acceptedPn != m.acceptedPn ==> Restarted(m').acceptedPn == m'.acceptedPn)
            && m'.log == m.log && m'.pending == m.pending && m'.standing == m.standing && m'.lastPn == m.lastPn
            && exists x :: Adds(c, c', l.to, l.from, x) && Reports(m, m'.acceptedPn, msg.lc, x)
  {
    var (m, msg, c') := (c.mons[l.to], c.net[l][i], Step(c, Deliver(l, i, keep)));
    var x := HandleCollect(m, l.from, msg).out.msg;
    assert Adds(c, c', l.to, l.from, x) && Reports(m, c'.mons[l.to].acceptedPn, msg.lc, x);
  }

  /** A reply that promises `pn` and lets a leader with a log of length `lc` catch up with `m`. */
  predicate Reports(m: Mon, pn: Pn, lc: Version, x: Msg) {
    && x.Last? && x.epoch == m.epoch && x.pn == pn && x.log == m.log && x.base <= lc
    && (if lc <= m.Lc() then x.uncommitted == m.pending else x.uncommitted.None?)
  }

  /** A peon votes for what it is asked under the number it has promised and for its next version, on
      disk, and says so; a lower number it ignores; anything else it does not survive. */
  lemma BeginMeans(c: World, l: Link, i: nat, keep: bool)
    requires Gets(c, l, i, keep) && c.net[l][i].Begin? && c.mons[l.to].standing.Peon?
    ensures var (m, msg, c') := (c.mons[l.to], c.net[l][i], Step(c, Deliver(l, i, keep)));
            var m' := c'.mons[l.to];
            && m'.log == m.log && m'.acceptedPn == m.acceptedPn && m'.diskPn == m.diskPn
            && (msg.pn < m.acceptedPn ==> m' == m && AddsNothing(c, c', l.to))
            && (msg.pn == m.acceptedPn && msg.lc == |m.log| ==>
                  && m'.standing == m.standing && Restarted(m').pending == Some(Accepted(msg.pn, msg.value))
                  && Adds(c, c', l.to, l.from, Accept(m.epoch, msg.pn, msg.lc)))
            && (msg.pn > m.acceptedPn || (msg.pn == m.acceptedPn && msg.lc != |m.log|) ==>
                  m'.standing.Crashed? && AddsNothing(c, c', l.to))
  {
  }

  /** A leader that is updating counts an accept of its number from a member that has not accepted yet,
      if it names the leader's version or the one before.  With the last one the value is in its log,
      nothing is pending, it is active, and every other member is told. */
  lemma AcceptMeans(c: World, l: Link, i: nat, keep: bool)
    requires Gets(c, l, i, keep) && c.net[l][i].Accept? && c.mons[l.to].standing.Leader?
    requires var (m, msg) := (c.mons[l.to], c.net[l][i]);
             && m.state.Updating? && m.newValue.Some? && msg.pn == m.acceptedPn && l.from !in m.accepted
             && msg.lc <= |m.log| <= msg.lc + 1
    ensures var (m, c') := (c.mons[l.to], Step(c, Deliver(l, i, keep)));
            var m' := c'.mons[l.to];
            && m'.standing.Leader? && m'.quorum == m.quorum && m'.acceptedPn == m.acceptedPn
            && m'.accepted == m.accepted + {l.from}
            && if m'.accepted == m.quorum then
                 && m'.log == m.log + [m.newValue.value] && m'.pending.None? && m'.state.Active? && m'.newValue.None?
                 && AsksAll(c, c', l.to, m.quorum, Commit(m.epoch, |m.log|, m.log + [m.newValue.value]))
               else m'.log == m.log && m'.state.Updating? && m'.newValue == m.newValue && AddsNothing(c, c', l.to)
  {
  }

  /** Does a message other than a reply break an assertion?  A collect or a commit to a leader does, a
      begin that is not of the promised number and the next version, unless its number is lower, and an
      accept under the leader's number that is of a later version, twice from the same member, or comes
      while nothing is being accepted. */
  predicate Breaks(m: Mon, from: Rank, msg: Msg) {
    match msg
    case Collect(_, _, _) => m.standing.Leader?
    case Commit(_, _, _) => m.standing.Leader?
    case Begin(_, pn, lc, _) => pn > m.acceptedPn || (pn == m.acceptedPn && lc != |m.log|)
    case Accept(_, pn, lc) =>
      && pn == m.acceptedPn && |m.log| <= lc + 1
      && (lc > |m.log| || !m.state.Updating? || from in m.accepted || m.newValue.None?)
    case Last(_, _, _, _, _) => false
  }

  /** A monitor does not survive a message exactly when it breaks an assertion, and then sends nothing.
      A peon ignores a reply. */
  lemma StrayMeans(c: World, l: Link, i: nat, keep: bool)
    requires Gets(c, l, i, keep)
    ensures var (m, msg, c') := (c.mons[l.to], c.net[l][i], Step(c, Deliver(l, i, keep)));
            var m' := c'.mons[l.to];
            && (!msg.Last? ==> (m'.standing.Crashed? <==> Breaks(m, l.from, msg)))
            && (Breaks(m, l.from, msg) ==> AddsNothing(c, c', l.to))
            && (m.standing.Peon? && msg.Last? ==> m' == m && AddsNothing(c, c', l.to))
  {
  }

  /** An accept under another number, or of an older round, means nothing. */
  lemma OldAcceptMeans(c: World, l: Link, i: nat, keep: bool)
    requires Gets(c, l, i, keep) && c.net[l][i].Accept?
    requires var (m, msg) := (c.mons[l.to], c.net[l][i]); msg.pn != m.acceptedPn || msg.lc + 1 < |m.log|
    ensures var c' := Step(c, Deliver(l, i, keep)); c'.mons == c.mons && AddsNothing(c, c', l.to)
  {
    assert c.mons[l.to := c.mons[l.to]] == c.mons;
  }

  /** What a leader remembers of the uncommitted values it hears of: the one with the highest number,
      the later one of equals, unless it is of a version the leader has. */
  lemma LearnMeans(m: Mon, msg: Msg)
    requires msg.Last?
    ensures var (unc, got) := (Learn(m, msg), msg.uncommitted);
            && (got.None? || |msg.log| < m.Lc() ==> unc == m.uncommitted)
            && (got.Some? && |msg.log| >= m.Lc() && m.uncommitted.None? ==>
                  unc == Some(Uncommitted(|msg.log| + 1, got.value.pn, got.value.value)))
            && (got.Some? && |msg.log| >= m.Lc() && m.uncommitted.Some? && m.uncommitted.value.v == |msg.log| + 1 ==>
                  && unc.Some? && unc.value.v == |msg.log| + 1
                  && unc.value.pn ==
                     (if got.value.pn >= m.uncommitted.value.pn then got.value.pn else m.uncommitted.value.pn)
                  && unc.value.value ==
                     (if got.value.pn >= m.uncommitted.value.pn then got.value.value else m.uncommitted.value.value))
  {
  }

  /** A leader whose number is refused asks its whole quorum again, under a number that is above the
      one it was told, and has heard nobody but itself. */
  lemma RefusalMeans(r: Rank, m: Mon, from: Rank, msg: Msg)
    requires msg.Last? && msg.pn > m.acceptedPn
    ensures var effect := Weigh(r, m, from, msg);
            var m' := effect.mon;
            && m'.acceptedPn > msg.pn && m'.acceptedPn % 100 == r % 100 && m'.state.Recovering?
            && m'.heard == {r} && m'.numLast == 1 && m'.log == m.log && m'.pending == m.pending
            && PostsAll(effect.out, r, m.quorum, Collect(m.epoch, m'.acceptedPn, |m.log|))
  {
    NewPnIsNew(m.lastPn, if msg.pn > m.acceptedPn then msg.pn else m.acceptedPn, r);
    hide NewPn;
  }

  /** A promise is counted once more.  As long as some are missing nothing is sent; with the last one
      the leader begins on the uncommitted value it has learned for its next version, which it votes
      for itself, or is active. */
  lemma PromiseMeans(r: Rank, m: Mon, from: Rank, msg: Msg)
    requires msg.Last? && msg.pn == m.acceptedPn && m.newValue.None?
    ensures var (effect, unc) := (Weigh(r, m, from, msg), Learn(m, msg));
            var m' := effect.mon;
            && m'.numLast == m.numLast + 1 && from in m'.heard && m.heard <= m'.heard && m'.log == m.log
            && (m.numLast + 1 != |m.quorum| ==>
                  m'.state == m.state && m'.uncommitted == unc && PostsNothing(effect.out))
            && (m.numLast + 1 == |m.quorum| && (unc.None? || unc.value.v != |m.log| + 1) ==>
                  m'.state.Active? && PostsNothing(effect.out))
            && (m.numLast + 1 == |m.quorum| && unc.Some? && unc.value.v == |m.log| + 1 ==>
                  && Begins(r, m, m', unc.value.value)
                  && PostsAll(effect.out, r, m.quorum, Begin(m.epoch, m.acceptedPn, |m.log|, unc.value.value)))
  {
    hide Learn;
  }

  /** A leader that has begun on a value has voted for it, on disk, and waits for the others. */
  predicate Begins(r: Rank, m: Mon, m': Mon, value: Value) {
    && m'.state.Updating? && m'.accepted == {r} && m'.newValue == Some(value)
    && Restarted(m').pending == Some(Accepted(m.acceptedPn, value)) && m'.acceptedPn == m.acceptedPn
    && m'.log == m.log && m'.quorum == m.quorum && m'.epoch == m.epoch && m'.standing == m.standing
  }

  /** An active leader that proposes a value begins on it and asks its quorum. */
  lemma ProposeMeans(c: World, r: Rank, value: Value)
    requires Enabled(c, Propose(r, value)) && c.mons[r].newValue.None?
    ensures var (m, c') := (c.mons[r], Step(c, Propose(r, value)));
            && OnlyBy(c, c', r) && Begins(r, m, c'.mons[r], value)
            && AsksAll(c, c', r, m.quorum, Begin(m.epoch, m.acceptedPn, |m.log|, value))
  {
  }

  /** Who wins an election leads its quorum in the new epoch, recovers under a number above all it has
      drawn or promised, and asks its quorum. */
  lemma WinMeans(c: World, r: Rank, epoch: nat, quorum: set<Rank>)
    requires Enabled(c, WinElection(r, epoch, quorum))
    ensures var (m, c') := (c.mons[r], Step(c, WinElection(r, epoch, quorum)));
            var m' := c'.mons[r];
            && OnlyBy(c, c', r)
            && m'.standing.Leader? && m'.state.Recovering? && m'.epoch == epoch && m'.quorum == quorum
            && m'.acceptedPn > m.acceptedPn && m'.acceptedPn > m.lastPn && m'.acceptedPn % 100 == r % 100
            && Restarted(m').lastPn == m'.acceptedPn && m'.heard == {r} && m'.numLast == 1
            && m'.log == m.log && m'.pending == m.pending && m'.diskPn == m.diskPn
            && m'.uncommitted.Some? == m.pending.Some?
            && (m.pending.Some? ==>
                  m'.uncommitted == Some(Uncommitted(|m.log| + 1, m.pending.value.pn, m.pending.value.value)))
            && AsksAll(c, c', r, quorum, Collect(epoch, m'.acceptedPn, |m.log|))
  {
    NewPnIsNew(c.mons[r].lastPn, c.mons[r].acceptedPn, r);
    hide NewPn;
  }

  /** Who loses one follows the winner. */
  lemma LoseMeans(c: World, r: Rank, epoch: nat, leader: Rank, quorum: set<Rank>)
    requires Enabled(c, LoseElection(r, epoch, leader, quorum))
    ensures var (m, c') := (c.mons[r], Step(c, LoseElection(r, epoch, leader, quorum)));
            && OnlyBy(c, c', r) && AddsNothing(c, c', r) && SameDisk(m, c'.mons[r])
            && c'.mons[r].standing == Peon(leader) && c'.mons[r].epoch == epoch && c'.mons[r].acceptedPn == m.acceptedPn
  {
  }

  /** Who leaves the quorum is out, and keeps its promise. */
  lemma BootstrapMeans(c: World, r: Rank)
    requires Enabled(c, Bootstrap(r))
    ensures var (m, c') := (c.mons[r], Step(c, Bootstrap(r)));
            && OnlyBy(c, c', r) && AddsNothing(c, c', r) && SameDisk(m, c'.mons[r])
            && c'.mons[r].standing.Out? && c'.mons[r].epoch == m.epoch && c'.mons[r].acceptedPn == m.acceptedPn
  {
  }

  /** Who restarts is out, keeps what is on disk, and has promised what the disk says. */
  lemma RestartMeans(c: World, r: Rank)
    requires Enabled(c, Restart(r))
    ensures var (m, c') := (c.mons[r], Step(c, Restart(r)));
            && OnlyBy(c, c', r) && AddsNothing(c, c', r) && SameDisk(m, c'.mons[r])
            && c'.mons[r].standing.Out? && c'.mons[r].epoch == m.epoch && c'.mons[r].acceptedPn == m.diskPn
  {
  }

  predicate SameDisk(m: Mon, m': Mon) {
    m'.log == m.log && m'.pending == m.pending && m'.diskPn == m.diskPn && m'.lastPn == m.lastPn
  }
}
