/** What queues that neither repeat nor reorder guarantee: a leader gets at most one reply to its
    latest collect and one accept of its latest begin from each member of its quorum, so its counter
    of replies is a set of senders, and none of its tolerances is ever used. */
module MonDelivery {
  import opened MonCluster
  import opened MonNumbers
  import opened Options

  // ---------------------------------------------------------------- one leader and one peer

  predicate IsAsk(x: Msg) {
    x.Collect? || x.Begin? || x.Commit?
  }

  predicate IsCollect(e: nat, x: Msg) {
    x.Collect? && x.epoch == e
  }

  predicate IsLast(e: nat, x: Msg) {
    x.Last? && x.epoch == e
  }

  predicate IsBegin(pn: Pn, x: Msg) {
    x.Begin? && x.pn == pn
  }

  predicate IsAccept(pn: Pn, x: Msg) {
    x.Accept? && x.pn == pn
  }

  /** Asks carry an epoch their sender has reached, not as a peon, and a number it has drawn. */
  predicate AskOk(r: Rank, m: Mon, x: Msg) {
    IsAsk(x) ==>
      && x.epoch <= m.epoch && (x.epoch == m.epoch ==> !m.standing.Peon?)
      && (!x.Commit? ==> x.pn % 100 == r % 100 && x.pn <= m.lastPn)
  }

  /** So do the replies; a refused collect is answered with the number of another monitor. */
  predicate ReplyOk(r: Rank, m: Mon, x: Msg) {
    !IsAsk(x) ==>
      && x.epoch <= m.epoch && (x.epoch == m.epoch ==> !m.standing.Peon?)
      && (x.pn % 100 == r % 100 ==> x.pn <= m.lastPn) && (x.Accept? ==> x.pn % 100 == r % 100)
  }

  ghost predicate AsksOk(r: Rank, m: Mon, s: seq<Msg>) {
    forall x :: x in s ==> AskOk(r, m, x)
  }

  ghost predicate RepliesOk(r: Rank, m: Mon, s: seq<Msg>) {
    forall x :: x in s ==> ReplyOk(r, m, x)
  }

  /** Collects are queued in the order of their numbers. */
  ghost predicate Rising(s: seq<Msg>) {
    forall i, j :: 0 <= i < j < |s| && s[i].Collect? && s[j].Collect? ==> s[i].pn < s[j].pn
  }

  /** A peer that has promised `pn` to `r` has yet to see only higher numbers of it. */
  ghost predicate Beyond(r: Rank, pn: Pn, s: seq<Msg>) {
    pn % 100 == r % 100 ==> forall x :: x in s && x.Collect? ==> x.pn > pn
  }

  ghost predicate NoCollect(e: nat, s: seq<Msg>) {
    forall x :: x in s ==> !IsCollect(e, x)
  }

  ghost predicate NoLast(e: nat, s: seq<Msg>) {
    forall x :: x in s ==> !IsLast(e, x)
  }

  ghost predicate NoBegin(pn: Pn, s: seq<Msg>) {
    forall x :: x in s ==> !IsBegin(pn, x)
  }

  ghost predicate NoAccept(pn: Pn, s: seq<Msg>) {
    forall x :: x in s ==> !IsAccept(pn, x)
  }

  /** Is a reply of `q` to a collect still to come? */
  predicate Awaits(m: Mon, q: Rank) {
    m.state.Recovering? && q in m.quorum && q !in m.heard
  }

  /** Nothing of this epoch's recovery is under way behind a promise of the latest number. */
  ghost predicate LastIsFinal(m: Mon, outq: seq<Msg>, inq: seq<Msg>) {
    && (forall x :: x in inq && IsLast(m.epoch, x) && x.pn == m.acceptedPn ==> NoCollect(m.epoch, outq))
    && (forall i, j :: 0 <= i < j < |inq| && IsLast(m.epoch, inq[i]) && inq[i].pn == m.acceptedPn ==>
          !IsLast(m.epoch, inq[j]))
  }

  ghost predicate Recovery(m: Mon, q: Rank, outq: seq<Msg>, inq: seq<Msg>) {
    if Awaits(m, q) then LastIsFinal(m, outq, inq) else NoCollect(m.epoch, outq) && NoLast(m.epoch, inq)
  }

  /** Is an accept of `q` still to come? */
  predicate AwaitsVote(m: Mon, q: Rank) {
    m.state.Updating? && q in m.quorum && q !in m.accepted
  }

  /** At most one begin or accept of the round is under way, and it is of the present version. */
  ghost predicate OneVote(m: Mon, outq: seq<Msg>, inq: seq<Msg>) {
    && (forall x :: x in outq && IsBegin(m.acceptedPn, x) ==> x.lc == m.Lc() && NoAccept(m.acceptedPn, inq))
    && (forall x :: x in inq && IsAccept(m.acceptedPn, x) ==> x.lc == m.Lc())
    && (forall i, j :: 0 <= i < j < |outq| && IsBegin(m.acceptedPn, outq[i]) ==> !IsBegin(m.acceptedPn, outq[j]))
    && (forall i, j :: 0 <= i < j < |inq| && IsAccept(m.acceptedPn, inq[i]) ==> !IsAccept(m.acceptedPn, inq[j]))
  }

  ghost predicate Voting(m: Mon, q: Rank, outq: seq<Msg>, inq: seq<Msg>) {
    if AwaitsVote(m, q) then OneVote(m, outq, inq) else NoBegin(m.acceptedPn, outq) && NoAccept(m.acceptedPn, inq)
  }

  /** Monitor `r` and its peer `q`, which has promised `pn`, with the queues from and to `r`. */
  ghost predicate PairOk(r: Rank, m: Mon, q: Rank, pn: Pn, outq: seq<Msg>, inq: seq<Msg>) {
    && (pn % 100 == r % 100 ==> pn <= m.lastPn)
    && AsksOk(r, m, outq) && RepliesOk(r, m, inq) && Rising(outq) && Beyond(r, pn, outq)
    && (m.standing.Leader? ==> Recovery(m, q, outq, inq) && Voting(m, q, outq, inq))
  }

  /** A monitor by itself: a recovering leader has counted exactly those it has heard. */
  predicate SoloOk(r: Rank, m: Mon) {
    && (m.acceptedPn % 100 == r % 100 ==> m.acceptedPn <= m.lastPn)
    && (m.standing.Leader? ==>
          && r in m.quorum && m.acceptedPn % 100 == r % 100 && m.acceptedPn == m.lastPn
          && (m.state.Updating? <==> m.newValue.Some?)
          && (m.state.Recovering? ==> r in m.heard && m.heard <= m.quorum && m.numLast == |m.heard|)
          && (m.state.Updating? ==> r in m.accepted))
  }

  // ---------------------------------------------------------------- losing and sending

  function Cut(s: seq<Msg>, lo: nat, hi: nat): seq<Msg>
    requires lo <= hi <= |s|
  {
    s[..lo] + s[hi..]
  }

  function Put(s: seq<Msg>, out: Post, q: Rank): seq<Msg> {
    Queued(s, For(out, q))
  }

  lemma CutIsPart(s: seq<Msg>, lo: nat, hi: nat)
    requires lo <= hi <= |s|
    ensures forall x :: x in Cut(s, lo, hi) ==> x in s
    ensures Rising(s) ==> Rising(Cut(s, lo, hi))
  {
  }

  lemma RecoveryCut(m: Mon, q: Rank, outq: seq<Msg>, inq: seq<Msg>, lo: nat, hi: nat, lo': nat, hi': nat)
    requires Recovery(m, q, outq, inq) && lo <= hi <= |outq| && lo' <= hi' <= |inq|
    ensures Recovery(m, q, Cut(outq, lo, hi), Cut(inq, lo', hi'))
  {
    CutIsPart(outq, lo, hi);
    CutIsPart(inq, lo', hi');
    hide Rising;
  }

  lemma VotingCut(m: Mon, q: Rank, outq: seq<Msg>, inq: seq<Msg>, lo: nat, hi: nat, lo': nat, hi': nat)
    requires Voting(m, q, outq, inq) && lo <= hi <= |outq| && lo' <= hi' <= |inq|
    ensures Voting(m, q, Cut(outq, lo, hi), Cut(inq, lo', hi'))
  {
    CutIsPart(outq, lo, hi);
    CutIsPart(inq, lo', hi');
    hide Rising;
  }

  /** Losing messages never hurts. */
  lemma PairCut(r: Rank, m: Mon, q: Rank, pn: Pn, outq: seq<Msg>, inq: seq<Msg>, lo: nat, hi: nat, lo': nat, hi': nat)
    requires PairOk(r, m, q, pn, outq, inq) && lo <= hi <= |outq| && lo' <= hi' <= |inq|
    ensures PairOk(r, m, q, pn, Cut(outq, lo, hi), Cut(inq, lo', hi'))
  {
    hide Cut, Rising, Recovery, Voting;
    CutIsPart(outq, lo, hi);
    CutIsPart(inq, lo', hi');
    if m.standing.Leader? {
      RecoveryCut(m, q, outq, inq, lo, hi, lo', hi');
      VotingCut(m, q, outq, inq, lo, hi, lo', hi');
    }
  }

  /** A monitor that does not lead, in its old epoch or a new one, may send replies. */
  lemma {:induction false} PairAside(r: Rank, m: Mon, m': Mon, q: Rank, pn: Pn, outq: seq<Msg>, inq: seq<Msg>,
    out: Post)
    requires PairOk(r, m, q, pn, outq, inq) && !m'.standing.Leader? && m'.lastPn == m.lastPn
    requires m'.epoch > m.epoch || (m'.epoch == m.epoch && (m'.standing.Peon? ==> m.standing.Peon?))
    requires For(out, q) != [] ==> |For(out, q)| == 1 && !IsAsk(For(out, q)[0])
    ensures PairOk(r, m', q, pn, Put(outq, out, q), inq)
  {
  }

  lemma PeerAsks(r: Rank, m: Mon, q: Rank, pn: Pn, outq: seq<Msg>, inq: seq<Msg>, x: Msg)
    requires PairOk(r, m, q, pn, outq, inq) && IsAsk(x)
    ensures PairOk(r, m, q, pn, outq, inq + [x])
  {
  }

  /** From the other side: a peer that sends no reply, and promises nothing new to `r`. */
  lemma {:induction false} PeerAside(r: Rank, m: Mon, q: Rank, pn: Pn, pn': Pn, outq: seq<Msg>, inq: seq<Msg>,
    out: Post)
    requires PairOk(r, m, q, pn, outq, inq) && (pn' == pn || pn' % 100 != r % 100)
    requires For(out, r) != [] ==> |For(out, r)| == 1 && IsAsk(For(out, r)[0])
    ensures PairOk(r, m, q, pn', outq, Put(inq, out, r))
  {
    assert PairOk(r, m, q, pn', outq, inq);
    hide PairOk;
    if For(out, r) != [] {
      assert For(out, r) == [For(out, r)[0]];
      PeerAsks(r, m, q, pn', outq, inq, For(out, r)[0]);
    }
  }

  /** Once the latest number is promised, no collect is left in the queue. */
  lemma LatestIsLast(r: Rank, m: Mon, pn: Pn, msg: Msg, outq: seq<Msg>)
    requires AsksOk(r, m, [msg] + outq) && Rising([msg] + outq) && Beyond(r, pn, [msg] + outq) && msg.Collect?
    requires m.lastPn % 100 == r % 100 && m.lastPn == if msg.pn > pn then msg.pn else pn
    ensures forall x :: x in outq ==> !x.Collect?
  {
    var all := [msg] + outq;
    assert all[0] == msg && msg in all;
    forall i | 0 <= i < |outq| ensures !outq[i].Collect? {
      assert all[i + 1] == outq[i] && AskOk(r, m, all[i + 1]);
    }
  }

  lemma RecoveryPromised(r: Rank, m: Mon, q: Rank, pn: Pn, msg: Msg, outq: seq<Msg>, inq: seq<Msg>, reply: Msg)
    requires PairOk(r, m, q, pn, [msg] + outq, inq) && msg.Collect? && reply.Last? && reply.epoch == msg.epoch
    requires reply.pn == if msg.pn > pn then msg.pn else pn
    requires m.standing.Leader? && m.acceptedPn == m.lastPn && m.acceptedPn % 100 == r % 100
    ensures Recovery(m, q, outq, inq + [reply])
  {
    hide Voting, RepliesOk, AsksOk, Rising, Beyond;
    var all := [msg] + outq;
    assert all[0] == msg && forall x :: x in outq ==> x in all;
    if msg.epoch == m.epoch {
      assert msg in all && IsCollect(m.epoch, msg) && Awaits(m, q);
      assert forall x :: x in inq && IsLast(m.epoch, x) ==> x.pn != m.acceptedPn;
      if reply.pn == m.acceptedPn {
        LatestIsLast(r, m, pn, msg, outq);
      }
    }
  }

  /** What an ask at the head of a queue leaves behind it. */
  lemma RestOk(r: Rank, m: Mon, msg: Msg, outq: seq<Msg>)
    requires AsksOk(r, m, [msg] + outq) && Rising([msg] + outq)
    ensures AskOk(r, m, msg) && AsksOk(r, m, outq) && Rising(outq)
    ensures msg.Collect? ==> forall x :: x in outq && x.Collect? ==> x.pn > msg.pn
  {
    hide AskOk;
    var all := [msg] + outq;
    assert all[0] == msg && msg in all && forall x :: x in outq ==> x in all;
    assert forall i :: 0 <= i < |outq| ==> outq[i] == all[i + 1];
  }

  lemma VotingPromised(m: Mon, q: Rank, msg: Msg, outq: seq<Msg>, inq: seq<Msg>, reply: Msg)
    requires Voting(m, q, [msg] + outq, inq) && msg.Collect? && reply.Last?
    ensures Voting(m, q, outq, inq + [reply])
  {
    var all := [msg] + outq;
    assert forall x :: x in outq ==> x in all;
    assert forall i :: 0 <= i < |outq| ==> outq[i] == all[i + 1];
  }

  /** A peer answers the collect at the head of the queue. */
  lemma PeerPromises(r: Rank, m: Mon, q: Rank, pn: Pn, msg: Msg, outq: seq<Msg>, inq: seq<Msg>, reply: Msg)
    requires PairOk(r, m, q, pn, [msg] + outq, inq) && msg.Collect? && reply.Last? && reply.epoch == msg.epoch
    requires reply.pn == if msg.pn > pn then msg.pn else pn
    requires m.standing.Leader? ==> m.acceptedPn == m.lastPn && m.acceptedPn % 100 == r % 100
    ensures PairOk(r, m, q, reply.pn, outq, inq + [reply])
  {
    hide Recovery, Voting, Rising;
    RestOk(r, m, msg, outq);
    assert forall x :: x in outq ==> x in [msg] + outq;
    if m.standing.Leader? {
      RecoveryPromised(r, m, q, pn, msg, outq, inq, reply);
      VotingPromised(m, q, msg, outq, inq, reply);
    }
  }

  lemma VotingVoted(m: Mon, q: Rank, msg: Msg, outq: seq<Msg>, inq: seq<Msg>, reply: Msg)
    requires Voting(m, q, [msg] + outq, inq) && msg.Begin? && reply == Accept(msg.epoch, msg.pn, msg.lc)
    ensures Voting(m, q, outq, inq + [reply])
  {
    var all := [msg] + outq;
    assert all[0] == msg && msg in all && forall x :: x in outq ==> x in all;
    assert forall i :: 0 <= i < |outq| ==> outq[i] == all[i + 1];
    if IsBegin(m.acceptedPn, msg) {
      assert NoAccept(m.acceptedPn, inq);
      assert NoBegin(m.acceptedPn, outq);
    }
  }

  lemma RecoveryVoted(m: Mon, q: Rank, msg: Msg, outq: seq<Msg>, inq: seq<Msg>, reply: Msg)
    requires Recovery(m, q, [msg] + outq, inq) && msg.Begin? && reply.Accept?
    ensures Recovery(m, q, outq, inq + [reply])
  {
    assert forall x :: x in outq ==> x in [msg] + outq;
  }

  /** A peer votes for what the begin at the head of the queue asks for. */
  lemma PeerVotes(r: Rank, m: Mon, q: Rank, pn: Pn, msg: Msg, outq: seq<Msg>, inq: seq<Msg>, reply: Msg)
    requires PairOk(r, m, q, pn, [msg] + outq, inq) && msg.Begin? && reply == Accept(msg.epoch, msg.pn, msg.lc)
    ensures PairOk(r, m, q, pn, outq, inq + [reply])
  {
    hide Recovery, Voting;
    var all := [msg] + outq;
    assert all[0] == msg && msg in all && forall x :: x in outq ==> x in all;
    assert forall i :: 0 <= i < |outq| ==> outq[i] == all[i + 1];
    assert AskOk(r, m, msg);
    if m.standing.Leader? {
      RecoveryVoted(m, q, msg, outq, inq, reply);
      VotingVoted(m, q, msg, outq, inq, reply);
    }
  }

  // ---------------------------------------------------------------- what a leader does

  /** A leader collects, in a new epoch or again. */
  lemma LeadCollects(r: Rank, m: Mon, m': Mon, q: Rank, pn: Pn, outq: seq<Msg>, inq: seq<Msg>, out: Post)
    requires PairOk(r, m, q, pn, outq, inq) && q != r
    requires m'.standing.Leader? && m'.state.Recovering? && m'.heard == {r}
    requires m'.acceptedPn == m'.lastPn > m.lastPn && m'.lastPn % 100 == r % 100
    requires m'.epoch > m.epoch || (m'.epoch == m.epoch && m'.quorum == m.quorum && m.standing.Leader?)
    requires out == Ask(r, m'.quorum, Collect(m'.epoch, m'.acceptedPn, m'.Lc()))
    ensures PairOk(r, m', q, pn, Put(outq, out, q), inq)
  {
    forall x | x in inq
      ensures ReplyOk(r, m', x) && (IsLast(m'.epoch, x) ==> x.pn != m'.acceptedPn) && !IsAccept(m'.acceptedPn, x)
    {
      assert ReplyOk(r, m, x);
    }
    forall x | x in outq
      ensures AskOk(r, m', x) && !IsBegin(m'.acceptedPn, x) && (x.Collect? ==> x.pn < m'.acceptedPn)
    {
      assert AskOk(r, m, x);
    }
  }

  /** A leader goes on, with the same number and quorum, waiting for no more replies or votes. */
  lemma LeadGoesOn(r: Rank, m: Mon, m': Mon, q: Rank, pn: Pn, outq: seq<Msg>, inq: seq<Msg>)
    requires PairOk(r, m, q, pn, outq, inq) && m.standing.Leader? && m'.standing.Leader?
    requires m'.epoch == m.epoch && m'.lastPn == m.lastPn && m'.acceptedPn == m.acceptedPn
    requires Awaits(m', q) <==> Awaits(m, q)
    requires if AwaitsVote(m, q) then AwaitsVote(m', q) && m'.Lc() == m.Lc() else !AwaitsVote(m', q)
    ensures PairOk(r, m', q, pn, outq, inq)
  {
  }

  /** A reply of this epoch was awaited. */
  lemma LastWasAwaited(r: Rank, m: Mon, q: Rank, pn: Pn, msg: Msg, outq: seq<Msg>, inq: seq<Msg>)
    requires PairOk(r, m, q, pn, outq, [msg] + inq) && m.standing.Leader? && IsLast(m.epoch, msg)
    ensures Awaits(m, q)
  {
    assert ([msg] + inq)[0] == msg;
  }

  /** A leader counts the reply at the head of the queue. */
  lemma LeadHears(r: Rank, m: Mon, m': Mon, q: Rank, pn: Pn, msg: Msg, outq: seq<Msg>, inq: seq<Msg>)
    requires PairOk(r, m, q, pn, outq, [msg] + inq) && m.standing.Leader?
    requires IsLast(m.epoch, msg) && msg.pn == m.acceptedPn
    requires m'.standing.Leader? && m'.state == m.state && m'.heard == m.heard + {q} && m'.quorum == m.quorum
    requires m'.epoch == m.epoch && m'.lastPn == m.lastPn && m'.acceptedPn == m.acceptedPn
    ensures PairOk(r, m', q, pn, outq, inq)
  {
    LastWasAwaited(r, m, q, pn, msg, outq, inq);
    var all := [msg] + inq;
    assert all[0] == msg && msg in all && forall x :: x in inq ==> x in all;
    assert forall i :: 0 <= i < |inq| ==> inq[i] == all[i + 1];
  }

  /** A leader begins. */
  lemma LeadBegins(r: Rank, m: Mon, m': Mon, q: Rank, pn: Pn, outq: seq<Msg>, inq: seq<Msg>, out: Post,
                   v: Value)
    requires PairOk(r, m, q, pn, outq, inq) && m.standing.Leader? && !Awaits(m, q) && !AwaitsVote(m, q) && q != r
    requires m.acceptedPn == m.lastPn && m.acceptedPn % 100 == r % 100
    requires m'.standing.Leader? && m'.state.Updating? && m'.accepted == {r} && m'.quorum == m.quorum
    requires m'.epoch == m.epoch && m'.lastPn == m.lastPn && m'.acceptedPn == m.acceptedPn
    requires out == Ask(r, m.quorum, Begin(m.epoch, m.acceptedPn, m'.Lc(), v))
    ensures PairOk(r, m', q, pn, Put(outq, out, q), inq)
  {
  }

  /** An accept of this number was awaited, and is of the present version. */
  lemma AcceptWasAwaited(r: Rank, m: Mon, q: Rank, pn: Pn, msg: Msg, outq: seq<Msg>, inq: seq<Msg>)
    requires PairOk(r, m, q, pn, outq, [msg] + inq) && m.standing.Leader? && IsAccept(m.acceptedPn, msg)
    ensures AwaitsVote(m, q) && msg.lc == m.Lc()
  {
    assert ([msg] + inq)[0] == msg;
  }

  /** A leader takes the accept at the head of the queue. */
  lemma LeadCountsVote(r: Rank, m: Mon, m': Mon, q: Rank, pn: Pn, msg: Msg, outq: seq<Msg>, inq: seq<Msg>)
    requires PairOk(r, m, q, pn, outq, [msg] + inq) && m.standing.Leader? && IsAccept(m.acceptedPn, msg)
    requires m'.standing.Leader? && !m'.state.Recovering? && !AwaitsVote(m', q)
    requires m'.epoch == m.epoch && m'.lastPn == m.lastPn && m'.acceptedPn == m.acceptedPn
    ensures PairOk(r, m', q, pn, outq, inq)
  {
    AcceptWasAwaited(r, m, q, pn, msg, outq, inq);
    var all := [msg] + inq;
    assert all[0] == msg && msg in all && forall x :: x in inq ==> x in all;
    assert forall i :: 0 <= i < |inq| ==> inq[i] == all[i + 1];
  }

  lemma LeadTells(r: Rank, m: Mon, q: Rank, pn: Pn, outq: seq<Msg>, inq: seq<Msg>, x: Msg)
    requires PairOk(r, m, q, pn, outq, inq) && m.standing.Leader? && x.Commit? && x.epoch == m.epoch
    ensures PairOk(r, m, q, pn, outq + [x], inq)
  {
  }

  /** A leader tells what is committed. */
  lemma {:induction false} LeadShares(r: Rank, m: Mon, q: Rank, pn: Pn, outq: seq<Msg>, inq: seq<Msg>, out: Post)
    requires PairOk(r, m, q, pn, outq, inq) && m.standing.Leader?
    requires For(out, q) != [] ==> |For(out, q)| == 1 && For(out, q)[0].Commit? && For(out, q)[0].epoch == m.epoch
    ensures PairOk(r, m, q, pn, Put(outq, out, q), inq)
  {
    hide PairOk;
    if For(out, q) != [] {
      assert For(out, q) == [For(out, q)[0]];
      LeadTells(r, m, q, pn, outq, inq, For(out, q)[0]);
    }
  }

  // ---------------------------------------------------------------- the whole cluster

  ghost predicate Wired(c: World) {
    forall l :: l in c.net <==> l.from in c.mons && l.to in c.mons && l.from != l.to
  }

  ghost predicate PairIn(c: World, r: Rank, q: Rank)
    requires Wired(c) && r in c.mons && q in c.mons && r != q
  {
    PairOk(r, c.mons[r], q, c.mons[q].acceptedPn, c.net[Link(r, q)], c.net[Link(q, r)])
  }

  ghost predicate Orderly(c: World) {
    && Distinct(c.mons.Keys) && Wired(c)
    && (forall r :: r in c.mons ==> SoloOk(r, c.mons[r]))
    && (forall r, q :: r in c.mons && q in c.mons && r != q ==> PairIn(c, r, q))
  }

  lemma DropOrderly(c: World, l: Link, lo: nat, hi: nat)
    requires Orderly(c) && l in c.net && lo <= hi <= |c.net[l]|
    ensures Orderly(Dropped(c, l, lo, hi))
  {
    hide PairOk, SoloOk;
    var c' := Dropped(c, l, lo, hi);
    forall r, q | r in c.mons && q in c.mons && r != q ensures PairIn(c', r, q) {
      assert PairIn(c, r, q);
      var outq, inq := c.net[Link(r, q)], c.net[Link(q, r)];
      assert Cut(outq, 0, 0) == outq && Cut(inq, 0, 0) == inq;
      if l == Link(r, q) {
        PairCut(r, c.mons[r], q, c.mons[q].acceptedPn, outq, inq, lo, hi, 0, 0);
      } else if l == Link(q, r) {
        PairCut(r, c.mons[r], q, c.mons[q].acceptedPn, outq, inq, 0, 0, lo, hi);
      }
    }
  }

  /** The two pairs that `r` and `q` make are in order after `r` has acted. */
  ghost predicate SidesOk(c: World, r: Rank, effect: Effect, q: Rank)
    requires Wired(c) && r in c.mons && q in c.mons && r != q
  {
    var (m, sent, got) := (effect.mon, Put(c.net[Link(r, q)], effect.out, q), c.net[Link(q, r)]);
    && PairOk(r, m, q, c.mons[q].acceptedPn, sent, got)
    && PairOk(q, c.mons[q], r, m.acceptedPn, got, sent)
  }

  lemma DoneWired(c: World, r: Rank, effect: Effect)
    requires Wired(c) && r in c.mons
    ensures var c' := Done(c, r, effect); c'.mons.Keys == c.mons.Keys && Wired(c')
  {
  }

  lemma DonePair(c: World, r: Rank, effect: Effect, a: Rank, b: Rank)
    requires Orderly(c) && r in c.mons && a in c.mons && b in c.mons && a != b && Wired(Done(c, r, effect))
    requires a == r ==> SidesOk(c, r, effect, b)
    requires b == r ==> SidesOk(c, r, effect, a)
    ensures PairIn(Done(c, r, effect), a, b)
  {
    hide PairOk, SoloOk, Distinct;
    assert PairIn(c, a, b);
  }

  lemma DoneOrderly(c: World, r: Rank, effect: Effect)
    requires Orderly(c) && r in c.mons && SoloOk(r, effect.mon)
    requires forall q :: q in c.mons && q != r ==> SidesOk(c, r, effect, q)
    ensures Orderly(Done(c, r, effect))
  {
    var c' := Done(c, r, effect);
    DoneWired(c, r, effect);
    hide PairIn, SoloOk, SidesOk, Wired, Sent;
    forall a, b | a in c'.mons && b in c'.mons && a != b ensures PairIn(c', a, b) {
      DonePair(c, r, effect, a, b);
    }
  }

  // ---------------------------------------------------------------- one lemma per step

  /** A monitor steps aside, or changes while it does not lead. */
  lemma AsideOrderly(c: World, r: Rank, m': Mon)
    requires Orderly(c) && r in c.mons && !m'.standing.Leader?
    requires var m := c.mons[r];
             && m'.lastPn == m.lastPn && m'.acceptedPn == m.acceptedPn
             && (m'.epoch > m.epoch || (m'.epoch == m.epoch && (m'.standing.Peon? ==> m.standing.Peon?)))
    ensures Orderly(Done(c, r, Effect(m', Silence)))
  {
    hide PairOk;
    var effect := Effect(m', Silence);
    forall q | q in c.mons && q != r ensures SidesOk(c, r, effect, q) {
      assert PairIn(c, r, q) && PairIn(c, q, r);
      var sent, got := c.net[Link(r, q)], c.net[Link(q, r)];
      PairAside(r, c.mons[r], m', q, c.mons[q].acceptedPn, sent, got, Silence);
      PeerAside(q, c.mons[q], r, m'.acceptedPn, m'.acceptedPn, got, sent, Silence);
    }
    DoneOrderly(c, r, effect);
  }

  lemma HeadOk(c: World, l: Link)
    requires Orderly(c) && l in c.net && c.net[l] != []
    ensures PairIn(c, l.from, l.to) && PairIn(c, l.to, l.from)
    ensures AskOk(l.from, c.mons[l.from], c.net[l][0]) && ReplyOk(l.to, c.mons[l.to], c.net[l][0])
  {
    hide Recovery, Voting, Rising, Beyond, SoloOk, Distinct, AskOk, ReplyOk;
    assert PairIn(c, l.from, l.to) && PairIn(c, l.to, l.from);
    assert c.net[l][0] in c.net[l];
  }

  /** The message at the head of a queue, and what is left behind it. */
  lemma Taken(c: World, l: Link)
    requires Orderly(c) && l in c.net && c.net[l] != []
    ensures var c1 := Dropped(c, l, 0, 1);
            Orderly(c1) && c.net[l] == [c.net[l][0]] + c1.net[l] && c1.mons == c.mons && c1.net.Keys == c.net.Keys
    ensures PairIn(c, l.from, l.to) && PairIn(c, l.to, l.from)
    ensures AskOk(l.from, c.mons[l.from], c.net[l][0]) && ReplyOk(l.to, c.mons[l.to], c.net[l][0])
  {
    HeadOk(c, l);
    hide Orderly, PairIn, AskOk, ReplyOk;
    DropOrderly(c, l, 0, 1);
  }

  lemma CollectSides(c: World, l: Link, q: Rank)
    requires Orderly(c) && l in c.net && c.net[l] != [] && q in c.mons && q != l.to
    requires var (m, msg) := (c.mons[l.to], c.net[l][0]); m.standing.Peon? && IsCollect(m.epoch, msg)
    ensures SidesOk(Dropped(c, l, 0, 1), l.to, HandleCollect(c.mons[l.to], l.from, c.net[l][0]), q)
  {
    Taken(c, l);
    hide PairOk;
    var r, c1, m, msg := l.to, Dropped(c, l, 0, 1), c.mons[l.to], c.net[l][0];
    var effect := HandleCollect(m, l.from, msg);
    var sent, got := c1.net[Link(r, q)], c1.net[Link(q, r)];
    assert PairIn(c1, r, q) && PairIn(c1, q, r);
    PairAside(r, m, effect.mon, q, c.mons[q].acceptedPn, sent, got, effect.out);
    if q == l.from {
      assert SoloOk(q, c.mons[q]);
      PeerPromises(q, c.mons[q], r, m.acceptedPn, msg, got, sent, For(effect.out, q)[0]);
    } else {
      assert q % 100 != l.from % 100;
      PeerAside(q, c.mons[q], r, m.acceptedPn, effect.mon.acceptedPn, got, sent, effect.out);
    }
  }

  lemma CollectOrderly(c: World, l: Link)
    requires Orderly(c) && l in c.net && c.net[l] != []
    requires var (m, msg) := (c.mons[l.to], c.net[l][0]); m.standing.Peon? && IsCollect(m.epoch, msg)
    ensures Orderly(Done(Dropped(c, l, 0, 1), l.to, HandleCollect(c.mons[l.to], l.from, c.net[l][0])))
  {
    Taken(c, l);
    var effect := HandleCollect(c.mons[l.to], l.from, c.net[l][0]);
    assert SoloOk(l.to, c.mons[l.to]) && l.from % 100 != l.to % 100;
    assert SoloOk(l.to, effect.mon);
    hide SidesOk, PairIn, SoloOk, HandleCollect;
    forall q | q in c.mons && q != l.to ensures SidesOk(Dropped(c, l, 0, 1), l.to, effect, q) {
      CollectSides(c, l, q);
    }
    DoneOrderly(Dropped(c, l, 0, 1), l.to, effect);
  }

  ghost predicate BeginAtHead(c: World, l: Link) {
    && l in c.net && c.net[l] != [] && l.to in c.mons
    && var (m, msg) := (c.mons[l.to], c.net[l][0]);
       m.standing.Peon? && msg.Begin? && msg.epoch == m.epoch && msg.pn == m.acceptedPn && msg.lc == m.Lc()
  }

  lemma BeginSides(c: World, l: Link, q: Rank)
    requires Orderly(c) && BeginAtHead(c, l) && q in c.mons && q != l.to
    ensures SidesOk(Dropped(c, l, 0, 1), l.to, HandleBegin(c.mons[l.to], l.from, c.net[l][0]), q)
  {
    Taken(c, l);
    hide PairOk;
    var r, c1, m, msg := l.to, Dropped(c, l, 0, 1), c.mons[l.to], c.net[l][0];
    var effect := HandleBegin(m, l.from, msg);
    var sent, got := c1.net[Link(r, q)], c1.net[Link(q, r)];
    assert PairIn(c1, r, q) && PairIn(c1, q, r);
    PairAside(r, m, effect.mon, q, c.mons[q].acceptedPn, sent, got, effect.out);
    if q == l.from {
      PeerVotes(q, c.mons[q], r, m.acceptedPn, msg, got, sent, For(effect.out, q)[0]);
    } else {
      PeerAside(q, c.mons[q], r, m.acceptedPn, m.acceptedPn, got, sent, effect.out);
    }
  }

  lemma BeginOrderly(c: World, l: Link)
    requires Orderly(c) && BeginAtHead(c, l)
    ensures Orderly(Done(Dropped(c, l, 0, 1), l.to, HandleBegin(c.mons[l.to], l.from, c.net[l][0])))
  {
    Taken(c, l);
    var effect := HandleBegin(c.mons[l.to], l.from, c.net[l][0]);
    assert SoloOk(l.to, c.mons[l.to]);
    assert SoloOk(l.to, effect.mon);
    hide SidesOk, PairIn, SoloOk, HandleBegin;
    forall q | q in c.mons && q != l.to ensures SidesOk(Dropped(c, l, 0, 1), l.to, effect, q) {
      BeginSides(c, l, q);
    }
    DoneOrderly(Dropped(c, l, 0, 1), l.to, effect);
  }

  /** A leader's number is no other monitor's, and it sends only asks. */
  lemma {:induction false} PeerOfLeader(c: World, r: Rank, effect: Effect, q: Rank)
    requires Orderly(c) && r in c.mons && q in c.mons && q != r
    requires effect.mon.acceptedPn % 100 == r % 100
    requires For(effect.out, q) != [] ==> |For(effect.out, q)| == 1 && IsAsk(For(effect.out, q)[0])
    ensures PairOk(q, c.mons[q], r, effect.mon.acceptedPn, c.net[Link(q, r)], Put(c.net[Link(r, q)], effect.out, q))
  {
    hide PairOk;
    assert PairIn(c, q, r);
    PeerAside(q, c.mons[q], r, c.mons[r].acceptedPn, effect.mon.acceptedPn,
              c.net[Link(q, r)], c.net[Link(r, q)], effect.out);
  }

  /** A monitor collects: elected in a new epoch, or once more. */
  lemma CollectingOrderly(c: World, r: Rank, m: Mon, oldPn: Pn)
    requires Orderly(c) && r in c.mons && m.standing.Leader? && r in m.quorum && m.newValue.None?
    requires m.lastPn == c.mons[r].lastPn
    requires m.epoch > c.mons[r].epoch ||
             (m.epoch == c.mons[r].epoch && c.mons[r].standing.Leader? && m.quorum == c.mons[r].quorum)
    ensures Orderly(Done(c, r, Collecting(r, m, oldPn)))
  {
    var effect := Collecting(r, m, oldPn);
    NewPnIsNew(m.lastPn, if oldPn > m.acceptedPn then oldPn else m.acceptedPn, r);
    hide PairOk, NewPn;
    forall q | q in c.mons && q != r ensures SidesOk(c, r, effect, q) {
      assert PairIn(c, r, q);
      LeadCollects(r, c.mons[r], effect.mon, q, c.mons[q].acceptedPn, c.net[Link(r, q)], c.net[Link(q, r)], effect.out);
      PeerOfLeader(c, r, effect, q);
    }
    DoneOrderly(c, r, effect);
  }

  /** A leader that waits for nothing begins. */
  lemma BeginningOrderly(c: World, r: Rank, m: Mon, value: Value)
    requires Orderly(c) && r in c.mons && c.mons[r].standing.Leader? && c.mons[r].newValue.None?
    requires forall q :: q in c.mons && q != r ==> !Awaits(c.mons[r], q)
    requires m.standing.Leader? && m.quorum == c.mons[r].quorum && m.newValue.None? && m.epoch == c.mons[r].epoch
    requires m.acceptedPn == c.mons[r].acceptedPn && m.lastPn == c.mons[r].lastPn
    ensures Orderly(Done(c, r, Beginning(r, m, value)))
  {
    hide PairOk;
    var effect := Beginning(r, m, value);
    assert SoloOk(r, c.mons[r]);
    forall q | q in c.mons && q != r ensures SidesOk(c, r, effect, q) {
      assert PairIn(c, r, q);
      LeadBegins(r, c.mons[r], effect.mon, q, c.mons[q].acceptedPn,
                 c.net[Link(r, q)], c.net[Link(q, r)], effect.out, value);
      PeerOfLeader(c, r, effect, q);
    }
    DoneOrderly(c, r, effect);
  }

  /** A leader that goes on waiting for the same monitors. */
  lemma GoesOnOrderly(c: World, r: Rank, m': Mon)
    requires Orderly(c) && r in c.mons && c.mons[r].standing.Leader? && m'.standing.Leader? && SoloOk(r, m')
    requires var m := c.mons[r]; m'.epoch == m.epoch && m'.lastPn == m.lastPn && m'.acceptedPn == m.acceptedPn
    requires forall q :: q in c.mons && q != r ==> (Awaits(m', q) <==> Awaits(c.mons[r], q))
    requires !c.mons[r].state.Updating? && !m'.state.Updating?
    ensures Orderly(Done(c, r, Effect(m', Silence)))
  {
    hide PairOk, Awaits;
    var effect := Effect(m', Silence);
    forall q | q in c.mons && q != r ensures SidesOk(c, r, effect, q) {
      assert PairIn(c, r, q);
      LeadGoesOn(r, c.mons[r], m', q, c.mons[q].acceptedPn, c.net[Link(r, q)], c.net[Link(q, r)]);
      PeerOfLeader(c, r, effect, q);
    }
    DoneOrderly(c, r, effect);
  }

  lemma DoneTwice(c: World, r: Rank, m: Mon, effect: Effect)
    ensures Done(Done(c, r, Effect(m, Silence)), r, effect) == Done(c, r, effect)
  {
    assert Sent(c.net, r, Silence) == c.net;
  }

  lemma NothingDone(c: World, r: Rank)
    requires r in c.mons
    ensures Done(c, r, Effect(c.mons[r], Silence)) == c
  {
    assert Sent(c.net, r, Silence) == c.net;
  }

  lemma SameSize(a: set<Rank>, b: set<Rank>)
    requires a <= b && |a| == |b|
    ensures a == b
  {
    assert b == a + (b - a);
  }

  /** A reply of this epoch waits at the head of the queue to a leader. */
  ghost predicate ReplyAtHead(c: World, l: Link) {
    && Orderly(c) && l in c.net && c.net[l] != [] && c.mons[l.to].standing.Leader?
    && IsLast(c.mons[l.to].epoch, c.net[l][0])
  }

  /** A reply at the head of the queue finds its receiver recovering and its sender not yet heard. */
  lemma ReplyIsNew(c: World, l: Link)
    requires ReplyAtHead(c, l)
    ensures Awaits(c.mons[l.to], l.from) && c.mons[l.to].newValue.None?
  {
    Taken(c, l);
    hide Recovery, Voting, Rising, Beyond, AsksOk, RepliesOk;
    var r, m := l.to, c.mons[l.to];
    assert SoloOk(r, m);
    LastWasAwaited(r, m, l.from, c.mons[l.from].acceptedPn,
                   c.net[l][0], c.net[Link(r, l.from)], Dropped(c, l, 0, 1).net[l]);
  }

  /** A leader that recovers notes how far a sender is, stores what it has committed, and tells others. */
  lemma TellOrderly(c: World, l: Link)
    requires ReplyAtHead(c, l)
    ensures var m := Informed(c.mons[l.to], l.from, c.net[l][0]);
            Orderly(Done(c, l.to, Effect(m, Telling(m))))
  {
    ReplyIsNew(c, l);
    hide PairOk;
    var r, m := l.to, Informed(c.mons[l.to], l.from, c.net[l][0]);
    var effect := Effect(m, Telling(m));
    assert SoloOk(r, c.mons[r]);
    forall q | q in c.mons && q != r ensures SidesOk(c, r, effect, q) {
      assert PairIn(c, r, q);
      LeadGoesOn(r, c.mons[r], m, q, c.mons[q].acceptedPn, c.net[Link(r, q)], c.net[Link(q, r)]);
      LeadShares(r, m, q, c.mons[q].acceptedPn, c.net[Link(r, q)], c.net[Link(q, r)], effect.out);
      PeerOfLeader(c, r, effect, q);
    }
    DoneOrderly(c, r, effect);
  }

  lemma CountSides(c: World, l: Link, m': Mon, q: Rank)
    requires ReplyAtHead(c, l) && c.net[l][0].pn == c.mons[l.to].acceptedPn && q in c.mons && q != l.to
    requires m' == Count(c.mons[l.to], l.from, c.net[l][0])
    ensures SidesOk(Dropped(c, l, 0, 1), l.to, Effect(m', Silence), q)
  {
    Taken(c, l);
    ReplyIsNew(c, l);
    hide PairOk;
    var r, c1, m, msg := l.to, Dropped(c, l, 0, 1), c.mons[l.to], c.net[l][0];
    var sent, got := c1.net[Link(r, q)], c1.net[Link(q, r)];
    assert SoloOk(r, m) && PairIn(c1, r, q);
    if q == l.from {
      LeadHears(r, m, m', q, c.mons[q].acceptedPn, msg, sent, got);
    } else {
      LeadGoesOn(r, m, m', q, c.mons[q].acceptedPn, sent, got);
    }
    PeerOfLeader(c1, r, Effect(m', Silence), q);
  }

  /** A counted reply is a new sender. */
  lemma CountOrderly(c: World, l: Link, m': Mon)
    requires ReplyAtHead(c, l) && c.net[l][0].pn == c.mons[l.to].acceptedPn
    requires m' == Count(c.mons[l.to], l.from, c.net[l][0])
    ensures Orderly(Done(Dropped(c, l, 0, 1), l.to, Effect(m', Silence))) && SoloOk(l.to, m')
  {
    Taken(c, l);
    ReplyIsNew(c, l);
    assert SoloOk(l.to, c.mons[l.to]);
    assert SoloOk(l.to, m');
    hide SidesOk, PairIn, SoloOk, Count;
    forall q | q in c.mons && q != l.to ensures SidesOk(Dropped(c, l, 0, 1), l.to, Effect(m', Silence), q) {
      CountSides(c, l, m', q);
    }
    DoneOrderly(Dropped(c, l, 0, 1), l.to, Effect(m', Silence));
  }

  /** The counter reaches the size of the quorum exactly when everyone has been heard. */
  lemma CountIsSenders(r: Rank, m: Mon)
    requires SoloOk(r, m) && m.standing.Leader? && m.state.Recovering?
    ensures m.numLast == |m.heard| && m.heard <= m.quorum
    ensures m.numLast == |m.quorum| <==> m.heard == m.quorum
  {
    if m.numLast == |m.quorum| {
      SameSize(m.heard, m.quorum);
    }
  }

  lemma DoneMon(c: World, r: Rank, effect: Effect)
    requires r in c.mons
    ensures var c' := Done(c, r, effect); c'.mons.Keys == c.mons.Keys && c'.mons[r] == effect.mon
  {
  }

  /** After a counted reply the leader goes on recovering, begins, or is active. */
  lemma CountedOrderly(c: World, l: Link)
    requires ReplyAtHead(c, l) && c.net[l][0].pn == c.mons[l.to].acceptedPn
    ensures Orderly(Done(Dropped(c, l, 0, 1), l.to, Weigh(l.to, c.mons[l.to], l.from, c.net[l][0])))
  {
    hide PairIn, Distinct, Sent, Learn, Done;
    ReplyIsNew(c, l);
    var r, c1, m, msg := l.to, Dropped(c, l, 0, 1), c.mons[l.to], c.net[l][0];
    var m2 := Count(m, l.from, msg);
    CountOrderly(c, l, m2);
    CountIsSenders(r, m2);
    DoneMon(c1, r, Effect(m2, Silence));
    if m2.numLast == |m2.quorum| {
      var c2, m3 := Done(c1, r, Effect(m2, Silence)), m2.(peerLc := map[]);
      DoneTwice(c1, r, m2, Settled(r, m3));
      if m3.uncommitted.Some? && m3.uncommitted.value.v == m3.Lc() + 1 {
        BeginningOrderly(c2, r, m3, m3.uncommitted.value.value);
      } else {
        GoesOnOrderly(c2, r, m3.(state := Active));
      }
    }
  }

  lemma WeighOrderly(c: World, l: Link)
    requires ReplyAtHead(c, l)
    ensures Orderly(Done(Dropped(c, l, 0, 1), l.to, Weigh(l.to, c.mons[l.to], l.from, c.net[l][0])))
  {
    Taken(c, l);
    ReplyIsNew(c, l);
    var r, c1, m, msg := l.to, Dropped(c, l, 0, 1), c.mons[l.to], c.net[l][0];
    assert SoloOk(r, m);
    hide PairIn, Collecting, Settled, Wired, Distinct, Learn;
    if msg.pn > m.acceptedPn {
      CollectingOrderly(c1, r, m, msg.pn);
    } else if msg.pn < m.acceptedPn {
      NothingDone(c1, r);
    } else {
      CountedOrderly(c, l);
    }
  }

  lemma QueuedTwice(s: seq<Msg>, x: seq<Msg>, y: seq<Msg>)
    ensures Queued(Queued(s, x), y) == Queued(s, x + y)
  {
    assert x + [] == x && [] + y == y && (s + x) + y == s + (x + y);
  }

  lemma SentTwiceOn(net: map<Link, seq<Msg>>, r: Rank, first: Post, effect: Effect, k: Link)
    requires k in net
    ensures Sent(Sent(net, r, first), r, effect.out)[k] == Sent(net, r, Ahead(first, effect).out)[k]
  {
    QueuedTwice(net[k], For(first, k.to), For(effect.out, k.to));
    hide Queued;
  }

  lemma SentTwice(net: map<Link, seq<Msg>>, r: Rank, first: Post, effect: Effect)
    ensures Sent(Sent(net, r, first), r, effect.out) == Sent(net, r, Ahead(first, effect).out)
  {
    var x, y := Sent(Sent(net, r, first), r, effect.out), Sent(net, r, Ahead(first, effect).out);
    assert x.Keys == y.Keys;
    hide Sent, Ahead;
    forall k | k in net ensures x[k] == y[k] {
      SentTwiceOn(net, r, first, effect, k);
    }
  }

  lemma SentAside(net: map<Link, seq<Msg>>, l: Link, s: seq<Msg>, out: Post)
    requires l in net && l.from != l.to
    ensures l in Sent(net, l.to, out) && Sent(net, l.to, out)[l] == net[l]
    ensures Sent(net, l.to, out)[l := s] == Sent(net[l := s], l.to, out)
  {
  }

  lemma AheadMon(first: Post, effect: Effect)
    ensures Ahead(first, effect).mon == effect.mon
  {
  }

  /** What goes out ahead may as well have gone out before the message was taken. */
  lemma AheadFirst(c: World, l: Link, m: Mon, first: Post, effect: Effect)
    requires l in c.net && c.net[l] != [] && l.from != l.to
    ensures var c0 := Done(c, l.to, Effect(m, first));
            && l in c0.net && c0.net[l] == c.net[l]
            && Done(Dropped(c0, l, 0, 1), l.to, effect) == Done(Dropped(c, l, 0, 1), l.to, Ahead(first, effect))
  {
    hide Sent, Ahead;
    var rest := c.net[l][..0] + c.net[l][1..];
    SentAside(c.net, l, rest, first);
    SentTwice(c.net[l := rest], l.to, first, effect);
    assert Ahead(first, effect).mon == effect.mon by { AheadMon(first, effect); }
    assert c.mons[l.to := m][l.to := effect.mon] == c.mons[l.to := effect.mon];
  }

  lemma LastOrderly(c: World, l: Link)
    requires ReplyAtHead(c, l)
    ensures Orderly(Done(Dropped(c, l, 0, 1), l.to, HandleLast(l.to, c.mons[l.to], l.from, c.net[l][0])))
  {
    var r, m := l.to, Informed(c.mons[l.to], l.from, c.net[l][0]);
    assert l.from != r;
    TellOrderly(c, l);
    AheadFirst(c, l, m, Telling(m), Weigh(r, m, l.from, c.net[l][0]));
    var c0 := Done(c, r, Effect(m, Telling(m)));
    hide Orderly, Weigh, Telling, Ahead, Sent;
    WeighOrderly(c0, l);
  }

  /** An accept of this number and epoch waits at the head of the queue to a leader. */
  ghost predicate VoteAtHead(c: World, l: Link) {
    && Orderly(c) && l in c.net && c.net[l] != [] && c.mons[l.to].standing.Leader?
    && IsAccept(c.mons[l.to].acceptedPn, c.net[l][0])
  }

  /** None of the assertions on an accept fails, and it is never of the version before. */
  lemma VoteIsNew(c: World, l: Link)
    requires VoteAtHead(c, l)
    ensures AwaitsVote(c.mons[l.to], l.from) && c.net[l][0].lc == c.mons[l.to].Lc() && c.mons[l.to].newValue.Some?
  {
    Taken(c, l);
    hide Recovery, Voting, Rising, Beyond, AsksOk, RepliesOk;
    var r, m := l.to, c.mons[l.to];
    assert SoloOk(r, m);
    AcceptWasAwaited(r, m, l.from, c.mons[l.from].acceptedPn,
                     c.net[l][0], c.net[Link(r, l.from)], Dropped(c, l, 0, 1).net[l]);
  }

  lemma AcceptSides(c: World, l: Link, q: Rank)
    requires VoteAtHead(c, l) && q in c.mons && q != l.to
    ensures SidesOk(Dropped(c, l, 0, 1), l.to, HandleAccept(l.to, c.mons[l.to], l.from, c.net[l][0]), q)
  {
    Taken(c, l);
    VoteIsNew(c, l);
    hide PairOk;
    var r, c1, m, msg := l.to, Dropped(c, l, 0, 1), c.mons[l.to], c.net[l][0];
    var effect := HandleAccept(r, m, l.from, msg);
    var sent, got := c1.net[Link(r, q)], c1.net[Link(q, r)];
    assert SoloOk(r, m) && PairIn(c1, r, q);
    if q == l.from {
      LeadCountsVote(r, m, effect.mon, q, c.mons[q].acceptedPn, msg, sent, got);
    } else {
      LeadGoesOn(r, m, effect.mon, q, c.mons[q].acceptedPn, sent, got);
    }
    LeadShares(r, effect.mon, q, c.mons[q].acceptedPn, sent, got, effect.out);
    PeerOfLeader(c1, r, effect, q);
  }

  lemma AcceptOrderly(c: World, l: Link)
    requires VoteAtHead(c, l)
    ensures Orderly(Done(Dropped(c, l, 0, 1), l.to, HandleAccept(l.to, c.mons[l.to], l.from, c.net[l][0])))
  {
    Taken(c, l);
    VoteIsNew(c, l);
    var effect := HandleAccept(l.to, c.mons[l.to], l.from, c.net[l][0]);
    assert SoloOk(l.to, c.mons[l.to]);
    assert SoloOk(l.to, effect.mon);
    hide SidesOk, PairIn, SoloOk, HandleAccept;
    forall q | q in c.mons && q != l.to ensures SidesOk(Dropped(c, l, 0, 1), l.to, effect, q) {
      AcceptSides(c, l, q);
    }
    DoneOrderly(Dropped(c, l, 0, 1), l.to, effect);
  }

  /** What a message does: nothing, or the receiver leaves the quorum, or it was awaited. */
  datatype Outcome = Ignored | Leaves | Promises | Votes | Stores | Hears | Counts

  ghost predicate ComesTo(c: World, l: Link, o: Outcome)
    requires l in c.net && c.net[l] != [] && l.to in c.mons
  {
    var (m, msg) := (c.mons[l.to], c.net[l][0]);
    var effect := Dispatch(l.to, m, l.from, msg);
    match o
    case Ignored => effect == Effect(m, Silence)
    case Leaves => effect == Effect(Outside(m, Out), Silence) || effect == Effect(Outside(m, Crashed), Silence)
    case Promises => m.standing.Peon? && IsCollect(m.epoch, msg) && effect == HandleCollect(m, l.from, msg)
    case Votes => BeginAtHead(c, l) && effect == HandleBegin(m, l.from, msg)
    case Stores => m.standing.Peon? && msg.Commit? && effect == Effect(StoreState(m, msg.base, msg.log), Silence)
    case Hears => ReplyAtHead(c, l) && effect == HandleLast(l.to, m, l.from, msg)
    case Counts => VoteAtHead(c, l) && effect == HandleAccept(l.to, m, l.from, msg)
  }

  /** A message that reaches its handler. */
  ghost predicate Handled(c: World, l: Link)
    requires l in c.net && c.net[l] != [] && l.to in c.mons
  {
    var (m, msg) := (c.mons[l.to], c.net[l][0]);
    msg.epoch == m.epoch && (m.standing.Leader? || m.standing == Peon(l.from))
  }

  /** A leader is never asked under its own number. */
  lemma BeginIsForeign(c: World, l: Link)
    requires Orderly(c) && l in c.net && c.net[l] != [] && c.net[l][0].Begin?
    ensures l.to in c.mons && (c.mons[l.to].standing.Leader? ==> c.net[l][0].pn != c.mons[l.to].acceptedPn)
  {
    HeadOk(c, l);
    assert SoloOk(l.to, c.mons[l.to]) && l.to % 100 != l.from % 100;
  }

  lemma BeginComesTo(c: World, l: Link) returns (o: Outcome)
    requires Orderly(c) && l in c.net && c.net[l] != [] && l.to in c.mons && Handled(c, l) && c.net[l][0].Begin?
    ensures ComesTo(c, l, o)
  {
    hide Orderly;
    BeginIsForeign(c, l);
    var m, msg := c.mons[l.to], c.net[l][0];
    o := if msg.pn < m.acceptedPn then Ignored
         else if msg.pn > m.acceptedPn || msg.lc != m.Lc() then Leaves
         else Votes;
  }

  lemma AcceptComesTo(c: World, l: Link) returns (o: Outcome)
    requires Orderly(c) && l in c.net && c.net[l] != [] && l.to in c.mons && Handled(c, l) && c.net[l][0].Accept?
    ensures ComesTo(c, l, o)
  {
    HeadOk(c, l);
    var m, msg := c.mons[l.to], c.net[l][0];
    hide Orderly, PairIn;
    o := if msg.pn != m.acceptedPn then Ignored else Counts;
  }

  lemma DispatchComesTo(c: World, l: Link) returns (o: Outcome)
    requires Orderly(c) && l in c.net && c.net[l] != []
    ensures l.to in c.mons && ComesTo(c, l, o)
  {
    assert l.to in c.mons;
    hide Orderly, HandleLast, HandleAccept, HandleBegin;
    var m, msg := c.mons[l.to], c.net[l][0];
    if !Handled(c, l) {
      o := if Dispatch(l.to, m, l.from, msg) == Effect(m, Silence) then Ignored else Leaves;
    } else {
      match msg
      case Collect(_, _, _) => o := if m.standing.Peon? then Promises else Leaves;
      case Last(_, _, _, _, _) => o := LastComesTo(c, l);
      case Begin(_, _, _, _) => o := BeginComesTo(c, l);
      case Accept(_, _, _) => o := AcceptComesTo(c, l);
      case Commit(_, _, _) => o := if m.standing.Peon? then Stores else Leaves;
    }
  }

  lemma LastComesTo(c: World, l: Link) returns (o: Outcome)
    requires Orderly(c) && l in c.net && c.net[l] != [] && l.to in c.mons && Handled(c, l) && c.net[l][0].Last?
    ensures ComesTo(c, l, o)
  {
    hide Orderly, Collecting, Beginning, Learn;
    o := if c.mons[l.to].standing.Leader? then Hears else Ignored;
  }

  /** The message at the head of a queue is dispatched. */
  lemma DispatchOrderly(c: World, l: Link)
    requires Orderly(c) && l in c.net && c.net[l] != []
    ensures Orderly(Done(Dropped(c, l, 0, 1), l.to, Dispatch(l.to, c.mons[l.to], l.from, c.net[l][0])))
  {
    hide Orderly, Dispatch, HandleCollect, HandleLast, HandleBegin, HandleAccept, Sent, Done;
    Taken(c, l);
    var o := DispatchComesTo(c, l);
    var r, c1, m, msg := l.to, Dropped(c, l, 0, 1), c.mons[l.to], c.net[l][0];
    match o
    case Ignored => NothingDone(c1, r);
    case Leaves => AsideOrderly(c1, r, Dispatch(r, m, l.from, msg).mon);
    case Promises => CollectOrderly(c, l);
    case Votes => BeginOrderly(c, l);
    case Stores => AsideOrderly(c1, r, StoreState(m, msg.base, msg.log));
    case Hears => LastOrderly(c, l);
    case Counts => AcceptOrderly(c, l);
  }

  lemma ProposeOrderly(c: World, r: Rank, value: Value)
    requires Orderly(c) && Enabled(c, Propose(r, value))
    ensures Orderly(Done(c, r, Beginning(r, c.mons[r], value)))
  {
    hide PairIn, Wired;
    assert SoloOk(r, c.mons[r]);
    BeginningOrderly(c, r, c.mons[r], value);
  }

  const ORDERED := Conduct(false, false, false)

  /** Every step of an orderly cluster whose queues are queues, and whose restarts forget nothing,
      leaves it orderly. */
  lemma StepOrderly(c: World, e: Event)
    requires Orderly(c) && Enabled(c, e) && Permits(ORDERED, c, e)
    ensures Orderly(Step(c, e))
  {
    hide Orderly, Done, Dropped, Dispatch, Collecting, Beginning;
    match e
    case WinElection(r, epoch, quorum) =>
      CollectingOrderly(c, r, Outside(c.mons[r], Leader).(epoch := epoch, quorum := quorum), 0);
    case LoseElection(r, epoch, leader, quorum) =>
      AsideOrderly(c, r, Outside(c.mons[r], Peon(leader)).(epoch := epoch, quorum := quorum));
    case Bootstrap(r) => AsideOrderly(c, r, Outside(c.mons[r], Out));
    case Restart(r) => AsideOrderly(c, r, Restarted(c.mons[r]));
    case Propose(r, value) => ProposeOrderly(c, r, value);
    case Deliver(l, _, _) => DispatchOrderly(c, l);
    case Drop(l, lo, hi) => DropOrderly(c, l, lo, hi);
  }
}
