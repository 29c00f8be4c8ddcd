/** Three runs of five monitors that commit different values for one version: an accept delivered
    twice, a collect delivered ahead of an older one, and a leader restarted without its promise.
    Together with `Agreement` they say exactly what the monitors need of their surroundings. */
module MonFailures {
  import opened MonAgreement
  import opened MonCluster
  import opened MonDelivery
  import opened MonNumbers
  import opened Options

  const FIVE: set<Rank> := {0, 1, 2, 3, 4}

  ghost predicate Reaches(d: Conduct, c: World) {
    exists run :: Legal(d, FIVE, run) && After(FIVE, run) == c
  }

  lemma Next(d: Conduct, c: World, e: Event)
    requires Reaches(d, c) && Enabled(c, e) && Permits(d, c, e)
    ensures Reaches(d, Step(c, e))
  {
    var run :| Legal(d, FIVE, run) && After(FIVE, run) == c;
    assert (run + [e])[..|run|] == run;
    assert Legal(d, FIVE, run + [e]);
  }

  // ---------------------------------------------------------------- single steps

  lemma SentOne(net: map<Link, seq<Msg>>, r: Rank, q: Rank, x: Msg)
    requires Link(r, q) in net
    ensures Sent(net, r, Reply(q, x)) == net[Link(r, q) := net[Link(r, q)] + [x]]
  {
  }

  lemma SentNone(net: map<Link, seq<Msg>>, r: Rank)
    ensures Sent(net, r, Silence) == net
  {
  }

  lemma SentTwo(net: map<Link, seq<Msg>>, r: Rank, a: Rank, b: Rank, x: Msg)
    requires Link(r, a) in net && Link(r, b) in net && r != a && r != b && a != b
    ensures Sent(net, r, Ask(r, {r, a, b}, x)) ==
            net[Link(r, a) := net[Link(r, a)] + [x]][Link(r, b) := net[Link(r, b)] + [x]]
  {
  }

  /** The head of a queue is delivered. */
  lemma Arrives(d: Conduct, c: World, l: Link) returns (c': World)
    requires Reaches(d, c) && l in c.net && c.net[l] != [] && l.to in c.mons
    ensures var effect := Dispatch(l.to, c.mons[l.to], l.from, c.net[l][0]);
            && c'.mons == c.mons[l.to := effect.mon]
            && c'.net == Sent(c.net[l := c.net[l][1..]], l.to, effect.out)
    ensures Reaches(d, c')
  {
    hide Reaches, Dispatch, Sent;
    var e := Deliver(l, 0, false);
    Next(d, c, e);
    c' := Step(c, e);
    assert c.net[l][..0] + c.net[l][1..] == c.net[l][1..];
  }

  /** A queue is lost. */
  lemma Emptied(d: Conduct, c: World, l: Link) returns (c': World)
    requires Reaches(d, c) && l in c.net
    ensures Reaches(d, c') && c' == c.(net := c.net[l := []])
  {
    hide Reaches;
    var e := Drop(l, 0, |c.net[l]|);
    Next(d, c, e);
    c' := Step(c, e);
    assert c.net[l][..0] + c.net[l][|c.net[l]|..] == [];
  }

  // ---------------------------------------------------------------- an election

  /** Three monitors of the five, linked to each other. */
  predicate Trio(c: World, r: Rank, a: Rank, b: Rank) {
    && r != a && r != b && a != b && c.mons.Keys == FIVE && r in FIVE && a in FIVE && b in FIVE
    && Link(r, a) in c.net && Link(r, b) in c.net && Link(a, r) in c.net && Link(b, r) in c.net
  }

  /** The queues between a leader and the other two. */
  function Queues(c: World, r: Rank, a: Rank, b: Rank, ra: seq<Msg>, rb: seq<Msg>, ar: seq<Msg>, br: seq<Msg>):
    map<Link, seq<Msg>>
  {
    c.net[Link(r, a) := ra][Link(r, b) := rb][Link(a, r) := ar][Link(b, r) := br]
  }

  lemma Emptied4(d: Conduct, c: World, r: Rank, a: Rank, b: Rank) returns (c': World)
    requires Reaches(d, c) && Trio(c, r, a, b)
    ensures Reaches(d, c') && c'.mons == c.mons && c'.net == Queues(c, r, a, b, [], [], [], [])
  {
    hide Reaches;
    c' := Emptied(d, c, Link(r, a));
    c' := Emptied(d, c', Link(r, b));
    c' := Emptied(d, c', Link(a, r));
    c' := Emptied(d, c', Link(b, r));
  }

  /** A peon of `r` in epoch `e` that has promised `pn`. */
  function Follower(m: Mon, r: Rank, e: nat, quorum: set<Rank>): Mon {
    Outside(m, Peon(r)).(epoch := e, quorum := quorum)
  }

  function Promised(m: Mon, r: Rank, e: nat, quorum: set<Rank>, pn: Pn): Mon {
    Follower(m, r, e, quorum).(acceptedPn := pn, diskPn := pn)
  }

  function Candidate(m: Mon, r: Rank, e: nat, quorum: set<Rank>): Effect {
    Collecting(r, Outside(m, Leader).(epoch := e, quorum := quorum), 0)
  }

  lemma Majority(c: World, r: Rank, a: Rank, b: Rank)
    requires Trio(c, r, a, b)
    ensures {r, a, b} <= c.mons.Keys && 2 * |{r, a, b}| > |c.mons| && |{r, a, b}| == 3
  {
    assert |c.mons| == |c.mons.Keys| == |FIVE|;
    assert {r, a, b} == {r} + {a} + {b};
  }

  lemma Wins(d: Conduct, c: World, r: Rank, e: nat, quorum: set<Rank>) returns (c': World)
    requires Reaches(d, c) && r in c.mons && MayJoin(c.mons[r], e)
    requires r in quorum && quorum <= c.mons.Keys && 2 * |quorum| > |c.mons|
    ensures Reaches(d, c') && c' == Done(c, r, Candidate(c.mons[r], r, e, quorum))
  {
    hide Reaches, Collecting;
    Next(d, c, WinElection(r, e, quorum));
    c' := Step(c, WinElection(r, e, quorum));
  }

  lemma Joins(d: Conduct, c: World, q: Rank, r: Rank, e: nat, quorum: set<Rank>) returns (c': World)
    requires Reaches(d, c) && q in c.mons && MayJoin(c.mons[q], e) && q != r
    ensures Reaches(d, c') && c' == c.(mons := c.mons[q := Follower(c.mons[q], r, e, quorum)])
  {
    hide Reaches;
    Next(d, c, LoseElection(q, e, r, quorum));
    c' := Step(c, LoseElection(q, e, r, quorum));
    SentNone(c.net, q);
  }

  /** `r` wins in epoch `e` and asks the other two, who know of it. */
  lemma Elected(d: Conduct, c: World, r: Rank, a: Rank, b: Rank, e: nat) returns (c': World)
    requires Reaches(d, c) && Trio(c, r, a, b) && forall q :: q in {r, a, b} ==> MayJoin(c.mons[q], e)
    ensures Reaches(d, c')
    ensures var L := Candidate(c.mons[r], r, e, {r, a, b});
            var ask := [Collect(e, L.mon.acceptedPn, L.mon.Lc())];
            && c'.mons == c.mons[r := L.mon][a := Follower(c.mons[a], r, e, {r, a, b})]
                                [b := Follower(c.mons[b], r, e, {r, a, b})]
            && c'.net == Queues(c, r, a, b, ask, ask, [], [])
  {
    hide Reaches, NewPn, Sent;
    var quorum := {r, a, b};
    Majority(c, r, a, b);
    c' := Emptied4(d, c, r, a, b);
    var L := Candidate(c.mons[r], r, e, quorum);
    var ask := Collect(e, L.mon.acceptedPn, L.mon.Lc());
    SentTwo(c'.net, r, a, b, ask);
    c' := Wins(d, c', r, e, quorum);
    assert [] + [ask] == [ask];
    assert c'.net == Queues(c, r, a, b, [ask], [ask], [], []);
    c' := Joins(d, c', a, r, e, quorum);
    c' := Joins(d, c', b, r, e, quorum);
  }

  predicate MayJoin(m: Mon, e: nat) {
    !m.standing.Crashed? && e > m.epoch
  }

  /** A follower gets the only message in its queue, a collect above its promise. */
  lemma Answers(d: Conduct, c: World, r: Rank, q: Rank, pn: Pn, lc: Version) returns (c': World)
    requires Reaches(d, c) && q in c.mons && r != q && Link(r, q) in c.net && Link(q, r) in c.net
    requires var m := c.mons[q];
             && m.standing == Peon(r) && m.acceptedPn < pn && m.state.Recovering? && lc == m.Lc()
             && c.net[Link(r, q)] == [Collect(m.epoch, pn, lc)] && c.net[Link(q, r)] == []
    ensures Reaches(d, c')
    ensures c'.mons == c.mons[q := c.mons[q].(acceptedPn := pn, diskPn := pn)]
    ensures c'.net == c.net[Link(r, q) := []][Link(q, r) := [LastOf(c.mons[q].epoch, pn, c.mons[q])]]
  {
    hide Reaches, Sent;
    assert c.net[Link(r, q)][1..] == [];
    c' := Arrives(d, c, Link(r, q));
    var reply := LastOf(c.mons[q].epoch, pn, c.mons[q]);
    SentOne(c.net[Link(r, q) := []], q, r, reply);
    assert [] + [reply] == [reply];
  }

  function LastOf(e: nat, pn: Pn, m: Mon): Msg {
    Last(e, pn, m.Lc(), m.log, m.pending)
  }

  /** A leader has noted that a peer is as far as itself, and so has nothing to tell. */
  function Noted(m: Mon, q: Rank): Mon {
    m.(peerLc := m.peerLc[q := m.Lc()])
  }

  predicate NobodyLags(m: Mon) {
    forall q :: q in m.peerLc ==> m.peerLc[q] == m.Lc()
  }

  /** A reply from a peer that is as far as the leader is only weighed. */
  lemma OnlyWeighed(net: map<Link, seq<Msg>>, r: Rank, m: Mon, q: Rank, msg: Msg)
    requires msg.Last? && |msg.log| == m.Lc() && m.standing.Leader? && NobodyLags(m)
    ensures var (effect, only) := (HandleLast(r, m, q, msg), Weigh(r, Noted(m, q), q, msg));
            effect.mon == only.mon && Sent(net, r, effect.out) == Sent(net, r, only.out) && NobodyLags(Noted(m, q))
  {
    var effect, only := HandleLast(r, m, q, msg), Weigh(r, Noted(m, q), q, msg);
    forall x ensures For(effect.out, x) == For(only.out, x) {
      assert For(Telling(Noted(m, q)), x) == [] && [] + For(only.out, x) == For(only.out, x);
    }
  }

  /** A leader gets the only message in a queue, a reply to its latest collect. */
  lemma Counted(d: Conduct, c: World, r: Rank, q: Rank, msg: Msg, rest: seq<Msg>) returns (c': World)
    requires Reaches(d, c) && r in c.mons && Link(q, r) in c.net && c.net[Link(q, r)] == [msg] + rest && msg.Last?
    requires var m := c.mons[r];
             && m.standing.Leader? && msg.epoch == m.epoch && msg.pn == m.acceptedPn && |msg.log| == m.Lc()
             && NobodyLags(m) && m.numLast + 1 != |m.quorum|
    ensures Reaches(d, c') && c'.net == c.net[Link(q, r) := rest]
    ensures c'.mons == c.mons[r := Count(Noted(c.mons[r], q), q, msg)]
  {
    hide Reaches, Sent;
    assert c.net[Link(q, r)][1..] == rest;
    OnlyWeighed(c.net[Link(q, r) := rest], r, c.mons[r], q, msg);
    c' := Arrives(d, c, Link(q, r));
    SentNone(c.net[Link(q, r) := rest], r);
  }

  lemma Settles(d: Conduct, c: World, r: Rank, q: Rank, msg: Msg, rest: seq<Msg>) returns (c': World)
    requires Reaches(d, c) && r in c.mons && Link(q, r) in c.net && c.net[Link(q, r)] == [msg] + rest && msg.Last?
    requires var m := c.mons[r];
             && m.standing.Leader? && msg.epoch == m.epoch && msg.pn == m.acceptedPn && |msg.log| == m.Lc()
             && NobodyLags(m) && m.numLast + 1 == |m.quorum|
    ensures Reaches(d, c')
    ensures var m := Count(Noted(c.mons[r], q), q, msg).(peerLc := map[]);
            c' == Done(c.(net := c.net[Link(q, r) := rest]), r, Settled(r, m))
  {
    hide Reaches, Sent, Settled;
    assert c.net[Link(q, r)][1..] == rest;
    OnlyWeighed(c.net[Link(q, r) := rest], r, c.mons[r], q, msg);
    c' := Arrives(d, c, Link(q, r));
  }

  /** A leader elected by three that has heard the other two. */
  function Heard(r: Rank, a: Rank, b: Rank, e: nat, m: Mon, ma: Mon, mb: Mon): Mon {
    var m0 := Candidate(m, r, e, {r, a, b}).mon;
    HeardLast(HeardFirst(m0, a, LastOf(e, m0.acceptedPn, ma)), b, LastOf(e, m0.acceptedPn, mb))
  }

  function HeardFirst(m: Mon, q: Rank, last: Msg): Mon
    requires last.Last?
  {
    Count(Noted(m, q), q, last)
  }

  function HeardLast(m: Mon, q: Rank, last: Msg): Mon
    requires last.Last?
  {
    Count(Noted(m, q), q, last).(peerLc := map[])
  }

  /** `r` may win with three logs of one length and promises below its next number. */
  predicate MayRecover(c: World, r: Rank, a: Rank, b: Rank, e: nat) {
    && Trio(c, r, a, b) && MayJoin(c.mons[r], e) && MayJoin(c.mons[a], e) && MayJoin(c.mons[b], e)
    && c.mons[a].Lc() == c.mons[r].Lc() && c.mons[b].Lc() == c.mons[r].Lc()
    && var pn := NewPn(c.mons[r].lastPn, c.mons[r].acceptedPn, r);
       c.mons[a].acceptedPn < pn && c.mons[b].acceptedPn < pn
  }

  /** Two followers answer the collect that waits for each. */
  lemma BothAnswer(d: Conduct, c: World, r: Rank, a: Rank, b: Rank, pn: Pn) returns (c': World)
    requires Reaches(d, c) && Trio(c, r, a, b)
    requires var (m, ma, mb) := (c.mons[r], c.mons[a], c.mons[b]);
             && ma.standing == Peon(r) && ma.epoch == m.epoch && ma.acceptedPn < pn && ma.state.Recovering?
             && mb.standing == Peon(r) && mb.epoch == m.epoch && mb.acceptedPn < pn && mb.state.Recovering?
             && ma.Lc() == m.Lc() && mb.Lc() == m.Lc()
             && c.net[Link(r, a)] == [Collect(m.epoch, pn, m.Lc())] && c.net[Link(a, r)] == []
             && c.net[Link(r, b)] == [Collect(m.epoch, pn, m.Lc())] && c.net[Link(b, r)] == []
    ensures Reaches(d, c')
    ensures c'.mons == c.mons[a := c.mons[a].(acceptedPn := pn, diskPn := pn)]
                             [b := c.mons[b].(acceptedPn := pn, diskPn := pn)]
    ensures var (lastA, lastB) := (LastOf(c.mons[r].epoch, pn, c.mons[a]), LastOf(c.mons[r].epoch, pn, c.mons[b]));
            c'.net == Queues(c, r, a, b, [], [], [lastA], [lastB])
  {
    hide Reaches;
    c' := Answers(d, c, r, a, pn, c.mons[r].Lc());
    c' := Answers(d, c', r, b, pn, c.mons[r].Lc());
  }

  lemma Answered(d: Conduct, c: World, r: Rank, a: Rank, b: Rank, e: nat) returns (c': World)
    requires Reaches(d, c) && MayRecover(c, r, a, b, e)
    ensures Reaches(d, c')
    ensures var m := Candidate(c.mons[r], r, e, {r, a, b}).mon;
            var (lastA, lastB) := (LastOf(e, m.acceptedPn, c.mons[a]), LastOf(e, m.acceptedPn, c.mons[b]));
            && c'.mons == c.mons[r := m][a := Promised(c.mons[a], r, e, {r, a, b}, m.acceptedPn)]
                                [b := Promised(c.mons[b], r, e, {r, a, b}, m.acceptedPn)]
            && c'.net == Queues(c, r, a, b, [], [], [lastA], [lastB])
  {
    hide Reaches, NewPn;
    var c1 := Elected(d, c, r, a, b, e);
    var m := c1.mons[r];
    assert m == Candidate(c.mons[r], r, e, {r, a, b}).mon;
    var ma, mb := c1.mons[a], c1.mons[b];
    MonsTwice(c.mons[r := m], a, b, ma, mb, ma.(acceptedPn := m.acceptedPn, diskPn := m.acceptedPn),
              mb.(acceptedPn := m.acceptedPn, diskPn := m.acceptedPn));
    var ask := [Collect(e, m.acceptedPn, m.Lc())];
    QueuesTwice(c, c1, r, a, b, ask, ask, [LastOf(e, m.acceptedPn, ma)], [LastOf(e, m.acceptedPn, mb)]);
    hide Queues, Candidate;
    c' := BothAnswer(d, c1, r, a, b, m.acceptedPn);
  }

  lemma MonsTwice(mons: map<Rank, Mon>, a: Rank, b: Rank, x: Mon, y: Mon, x': Mon, y': Mon)
    requires a != b
    ensures mons[a := x][b := y][a := x'][b := y'] == mons[a := x'][b := y']
  {
  }

  lemma QueuesTwice(c: World, c1: World, r: Rank, a: Rank, b: Rank,
                    ra: seq<Msg>, rb: seq<Msg>, ar: seq<Msg>, br: seq<Msg>)
    requires Trio(c, r, a, b) && c1.net == Queues(c, r, a, b, ra, rb, [], [])
    ensures Queues(c1, r, a, b, [], [], ar, br) == Queues(c, r, a, b, [], [], ar, br)
    ensures c1.net[Link(r, a)] == ra && c1.net[Link(r, b)] == rb && c1.net[Link(a, r)] == [] && c1.net[Link(b, r)] == []
    ensures Link(r, a) in c1.net && Link(r, b) in c1.net && Link(a, r) in c1.net && Link(b, r) in c1.net
  {
  }

  lemma HeardBoth(d: Conduct, c: World, r: Rank, a: Rank, b: Rank, lastA: Msg, lastB: Msg) returns (c': World)
    requires Reaches(d, c) && r in c.mons && a != b && Link(a, r) in c.net && Link(b, r) in c.net
    requires c.net[Link(a, r)] == [lastA] && c.net[Link(b, r)] == [lastB] && lastA.Last? && lastB.Last?
    requires var m := c.mons[r];
             && m.standing.Leader? && m.numLast == 1 && |m.quorum| == 3 && m.peerLc == map[]
             && lastA.epoch == m.epoch && lastA.pn == m.acceptedPn && |lastA.log| == m.Lc()
             && lastB.epoch == m.epoch && lastB.pn == m.acceptedPn && |lastB.log| == m.Lc()
    ensures Reaches(d, c')
    ensures var effect := Settled(r, HeardLast(HeardFirst(c.mons[r], a, lastA), b, lastB));
            && c'.mons == c.mons[r := effect.mon]
            && c'.net == Sent(c.net[Link(a, r) := []][Link(b, r) := []], r, effect.out)
  {
    hide Reaches, Sent, Learn, Settled;
    assert [lastA] + [] == [lastA] && [lastB] + [] == [lastB];
    c' := Counted(d, c, r, a, lastA, []);
    c' := Settles(d, c', r, b, lastB, []);
  }

  /** Three monitors with logs of one length hold an election and recover. */
  lemma Recovered(d: Conduct, c: World, r: Rank, a: Rank, b: Rank, e: nat) returns (c': World)
    requires Reaches(d, c) && MayRecover(c, r, a, b, e)
    ensures Reaches(d, c')
    ensures var m := Heard(r, a, b, e, c.mons[r], c.mons[a], c.mons[b]);
            && c'.mons == c.mons[a := Promised(c.mons[a], r, e, {r, a, b}, m.acceptedPn)]
                                [b := Promised(c.mons[b], r, e, {r, a, b}, m.acceptedPn)]
                                [r := Settled(r, m).mon]
            && c'.net == Queues(c, r, a, b, For(Settled(r, m).out, a), For(Settled(r, m).out, b), [], [])
  {
    hide Reaches, NewPn, Sent, Learn, Settled, MayJoin;
    Majority(c, r, a, b);
    var m0 := Candidate(c.mons[r], r, e, {r, a, b}).mon;
    var lastA, lastB := LastOf(e, m0.acceptedPn, c.mons[a]), LastOf(e, m0.acceptedPn, c.mons[b]);
    c' := Answered(d, c, r, a, b, e);
    assert c'.net[Link(a, r) := []][Link(b, r) := []] == Queues(c, r, a, b, [], [], [], []);
    c' := HeardBoth(d, c', r, a, b, lastA, lastB);
    SettledSends(c, r, a, b, Heard(r, a, b, e, c.mons[r], c.mons[a], c.mons[b]));
  }

  lemma {:induction false} SettledSends(c: World, r: Rank, a: Rank, b: Rank, m: Mon)
    requires Trio(c, r, a, b) && m.quorum == {r, a, b}
    ensures var (effect, empty) := (Settled(r, m), Queues(c, r, a, b, [], [], [], []));
            Sent(empty, r, effect.out) == Queues(c, r, a, b, For(effect.out, a), For(effect.out, b), [], [])
  {
    hide Sent;
    var effect, empty := Settled(r, m), Queues(c, r, a, b, [], [], [], []);
    if effect.out == Silence {
      SentNone(empty, r);
    } else {
      var ask := Begin(m.epoch, m.acceptedPn, m.Lc(), m.uncommitted.value.value);
      SentTwo(empty, r, a, b, ask);
      assert [] + [ask] == [ask];
    }
  }

  // ---------------------------------------------------------------- a vote

  /** A follower gets the only message in its queue, a begin. */
  lemma Votes(d: Conduct, c: World, r: Rank, q: Rank, v: Value) returns (c': World)
    requires Reaches(d, c) && q in c.mons && r != q && Link(r, q) in c.net && Link(q, r) in c.net
    requires var m := c.mons[q];
             && m.standing == Peon(r) && c.net[Link(r, q)] == [Begin(m.epoch, m.acceptedPn, m.Lc(), v)]
             && c.net[Link(q, r)] == []
    ensures Reaches(d, c')
    ensures c'.mons == c.mons[q := Voted(c.mons[q], v)]
    ensures c'.net == c.net[Link(r, q) := []][Link(q, r) := [AcceptOf(c.mons[q])]]
  {
    hide Reaches, Sent;
    assert c.net[Link(r, q)][1..] == [];
    c' := Arrives(d, c, Link(r, q));
    SentOne(c.net[Link(r, q) := []], q, r, AcceptOf(c.mons[q]));
    assert [] + [AcceptOf(c.mons[q])] == [AcceptOf(c.mons[q])];
  }

  function Voted(m: Mon, v: Value): Mon {
    m.(state := Updating, pending := Some(Accepted(m.acceptedPn, v)))
  }

  function AcceptOf(m: Mon): Msg {
    Accept(m.epoch, m.acceptedPn, m.Lc())
  }

  /** A leader gets an accept it counts, and others are missing. */
  lemma CountsVote(d: Conduct, c: World, r: Rank, q: Rank) returns (c': World)
    requires Reaches(d, c) && r in c.mons && Link(q, r) in c.net && Proposing(c.mons[r])
    requires var m := c.mons[r]; c.net[Link(q, r)] == [AcceptOf(m)] && q !in m.accepted && m.accepted + {q} != m.quorum
    ensures Reaches(d, c')
    ensures c'.mons == c.mons[r := c.mons[r].(accepted := c.mons[r].accepted + {q})]
    ensures c'.net == c.net[Link(q, r) := []]
  {
    hide Reaches, Sent;
    assert c.net[Link(q, r)][1..] == [];
    c' := Arrives(d, c, Link(q, r));
    SentNone(c.net[Link(q, r) := []], r);
  }

  predicate Proposing(m: Mon) {
    m.standing.Leader? && m.state.Updating? && m.newValue.Some?
  }

  function Committed(m: Mon): Mon
    requires m.newValue.Some?
  {
    m.(accepted := m.quorum, log := m.log + [m.newValue.value], pending := None, state := Active, newValue := None)
  }

  /** A leader gets the last accept. */
  lemma Commits(d: Conduct, c: World, r: Rank, q: Rank) returns (c': World)
    requires Reaches(d, c) && r in c.mons && Link(q, r) in c.net && Proposing(c.mons[r])
    requires var m := c.mons[r]; c.net[Link(q, r)] == [AcceptOf(m)] && q !in m.accepted && m.accepted + {q} == m.quorum
    ensures Reaches(d, c') && c'.mons == c.mons[r := Committed(c.mons[r])]
    ensures var told := Commit(c.mons[r].epoch, c.mons[r].Lc(), Committed(c.mons[r]).log);
            c'.net == Sent(c.net[Link(q, r) := []], r, Ask(r, c.mons[r].quorum, told))
  {
    hide Reaches, Sent;
    assert c.net[Link(q, r)][1..] == [];
    c' := Arrives(d, c, Link(q, r));
  }

  /** The leader of three has begun on `v`, and nobody has seen it yet. */
  predicate Begun(c: World, r: Rank, a: Rank, b: Rank, v: Value) {
    && Trio(c, r, a, b)
    && var (m, ma, mb) := (c.mons[r], c.mons[a], c.mons[b]);
       && m.standing.Leader? && m.state.Updating? && m.newValue == Some(v) && m.accepted == {r} && m.quorum == {r, a, b}
       && ma.standing == Peon(r) && ma.epoch == m.epoch && ma.acceptedPn == m.acceptedPn && ma.Lc() == m.Lc()
       && mb.standing == Peon(r) && mb.epoch == m.epoch && mb.acceptedPn == m.acceptedPn && mb.Lc() == m.Lc()
       && var ask := [Begin(m.epoch, m.acceptedPn, m.Lc(), v)];
          c.net[Link(r, a)] == ask && c.net[Link(r, b)] == ask && c.net[Link(a, r)] == [] && c.net[Link(b, r)] == []
  }

  lemma VotedBoth(d: Conduct, c: World, r: Rank, a: Rank, b: Rank, v: Value) returns (c': World)
    requires Reaches(d, c) && Begun(c, r, a, b, v)
    ensures Reaches(d, c')
    ensures c'.mons == c.mons[a := Voted(c.mons[a], v)][b := Voted(c.mons[b], v)]
    ensures c'.net == Queues(c, r, a, b, [], [], [AcceptOf(c.mons[r])], [AcceptOf(c.mons[r])])
  {
    hide Reaches;
    c' := Votes(d, c, r, a, v);
    c' := Votes(d, c', r, b, v);
  }

  /** All three vote and the leader commits. */
  lemma Carried(d: Conduct, c: World, r: Rank, a: Rank, b: Rank, v: Value) returns (c': World)
    requires Reaches(d, c) && Begun(c, r, a, b, v)
    ensures Reaches(d, c')
    ensures c'.mons == c.mons[a := Voted(c.mons[a], v)][b := Voted(c.mons[b], v)][r := Committed(c.mons[r])]
    ensures var told := [Commit(c.mons[r].epoch, c.mons[r].Lc(), c.mons[r].log + [v])];
            c'.net == Queues(c, r, a, b, told, told, [], [])
  {
    hide Reaches, Sent;
    var told := Commit(c.mons[r].epoch, c.mons[r].Lc(), c.mons[r].log + [v]);
    c' := VotedBoth(d, c, r, a, b, v);
    c' := CountsVote(d, c', r, a);
    assert c'.net[Link(b, r) := []] == Queues(c, r, a, b, [], [], [], []);
    c' := Commits(d, c', r, b);
    SentTwo(Queues(c, r, a, b, [], [], [], []), r, a, b, told);
    assert [] + [told] == [told];
  }

  /** An active leader with empty queues begins. */
  lemma Proposes(d: Conduct, c: World, r: Rank, a: Rank, b: Rank, v: Value) returns (c': World)
    requires Reaches(d, c) && Trio(c, r, a, b) && c.mons[r].standing.Leader? && c.mons[r].state.Active?
    requires c.mons[r].newValue.None? && c.mons[r].quorum == {r, a, b}
    ensures Reaches(d, c')
    ensures c'.mons == c.mons[r := Beginning(r, c.mons[r], v).mon]
    ensures var ask := Begin(c.mons[r].epoch, c.mons[r].acceptedPn, c.mons[r].Lc(), v);
            c'.net == c.net[Link(r, a) := c.net[Link(r, a)] + [ask]][Link(r, b) := c.net[Link(r, b)] + [ask]]
  {
    hide Reaches, Sent;
    Next(d, c, Propose(r, v));
    c' := Step(c, Propose(r, v));
    SentTwo(c.net, r, a, b, Begin(c.mons[r].epoch, c.mons[r].acceptedPn, c.mons[r].Lc(), v));
  }

  // ---------------------------------------------------------------- whole rounds

  predicate Full(c: World) {
    c.mons.Keys == FIVE && forall x, y :: x in FIVE && y in FIVE && x != y ==> Link(x, y) in c.net
  }

  /** The best of three uncommitted values, in the order in which the leader learns them. */
  function Best(own: Option<Accepted>, first: Option<Accepted>, second: Option<Accepted>): Option<Accepted> {
    Better(Better(own, first), second)
  }

  function Better(x: Option<Accepted>, y: Option<Accepted>): Option<Accepted> {
    if y.Some? && (x.None? || y.value.pn >= x.value.pn) then y else x
  }

  /** From `c` to `c'`, `r` has won epoch `e` with `a` and `b`, recovered, and begun on `v`. */
  ghost predicate Round(c: World, c': World, r: Rank, a: Rank, b: Rank, e: nat, v: Value)
    requires r in c.mons && a in c.mons && b in c.mons
  {
    var pn := NewPn(c.mons[r].lastPn, c.mons[r].acceptedPn, r);
    && Full(c') && Begun(c', r, a, b, v)
    && c'.mons[a] == Promised(c.mons[a], r, e, {r, a, b}, pn) && c'.mons[b] == Promised(c.mons[b], r, e, {r, a, b}, pn)
    && (forall q :: q in c.mons && q !in {r, a, b} ==> q in c'.mons && c'.mons[q] == c.mons[q])
    && var (m, m') := (c.mons[r], c'.mons[r]);
       && m'.log == m.log && m'.pending == Some(Accepted(pn, v)) && m'.diskPn == m.diskPn
       && m'.lastPn == pn && m'.acceptedPn == pn && m'.epoch == e && m'.standing.Leader?
  }

  lemma HeardBest(r: Rank, a: Rank, b: Rank, e: nat, m: Mon, ma: Mon, mb: Mon)
    requires ma.Lc() == m.Lc() && mb.Lc() == m.Lc() && r != a && r != b && a != b
    ensures var (h, best) := (Heard(r, a, b, e, m, ma, mb), Best(m.pending, ma.pending, mb.pending));
            && h.uncommitted == (if best.None? then None
                                 else Some(Uncommitted(m.Lc() + 1, best.value.pn, best.value.value)))
            && h.acceptedPn == NewPn(m.lastPn, m.acceptedPn, r) && h.lastPn == h.acceptedPn
            && h.log == m.log && h.epoch == e
            && h.standing.Leader? && h.newValue.None? && h.quorum == {r, a, b} && h.diskPn == m.diskPn
            && h.pending == m.pending
  {
    hide NewPn;
  }

  lemma StaysFull(c: World, c': World)
    requires Full(c) && c'.mons.Keys == c.mons.Keys && c'.net.Keys == c.net.Keys
    ensures Full(c')
  {
  }

  lemma QueuesKeys(c: World, r: Rank, a: Rank, b: Rank, ra: seq<Msg>, rb: seq<Msg>, ar: seq<Msg>, br: seq<Msg>)
    requires Trio(c, r, a, b)
    ensures Queues(c, r, a, b, ra, rb, ar, br).Keys == c.net.Keys
  {
  }

  lemma BegunMade(c: World, c': World, r: Rank, a: Rank, b: Rank, e: nat, v: Value, m: Mon)
    requires Full(c) && Trio(c, r, a, b) && c.mons[a].Lc() == c.mons[r].Lc() && c.mons[b].Lc() == c.mons[r].Lc()
    requires var pn := NewPn(c.mons[r].lastPn, c.mons[r].acceptedPn, r);
             && m.acceptedPn == pn && m.lastPn == pn && m.diskPn == c.mons[r].diskPn
             && m.log == c.mons[r].log && m.epoch == e
             && m.standing.Leader? && m.newValue.None? && m.quorum == {r, a, b}
             && c'.mons == c.mons[a := Promised(c.mons[a], r, e, {r, a, b}, pn)]
                                 [b := Promised(c.mons[b], r, e, {r, a, b}, pn)]
                                 [r := Beginning(r, m, v).mon]
             && var ask := [Begin(e, pn, m.Lc(), v)]; c'.net == Queues(c, r, a, b, ask, ask, [], [])
    ensures Begun(c', r, a, b, v)
  {
    hide NewPn, Full;
    assert c'.mons.Keys == c.mons.Keys;
  }

  lemma RoundMade(c: World, c': World, r: Rank, a: Rank, b: Rank, e: nat, v: Value, m: Mon)
    requires Full(c) && Trio(c, r, a, b) && c.mons[a].Lc() == c.mons[r].Lc() && c.mons[b].Lc() == c.mons[r].Lc()
    requires var pn := NewPn(c.mons[r].lastPn, c.mons[r].acceptedPn, r);
             && m.acceptedPn == pn && m.lastPn == pn && m.diskPn == c.mons[r].diskPn
             && m.log == c.mons[r].log && m.epoch == e
             && m.standing.Leader? && m.newValue.None? && m.quorum == {r, a, b}
             && c'.mons == c.mons[a := Promised(c.mons[a], r, e, {r, a, b}, pn)]
                                 [b := Promised(c.mons[b], r, e, {r, a, b}, pn)]
                                 [r := Beginning(r, m, v).mon]
             && var ask := [Begin(e, pn, m.Lc(), v)]; c'.net == Queues(c, r, a, b, ask, ask, [], [])
    ensures Round(c, c', r, a, b, e, v)
  {
    BegunMade(c, c', r, a, b, e, v, m);
    hide NewPn, Full, Begun;
    var ask := [Begin(e, m.acceptedPn, m.Lc(), v)];
    QueuesKeys(c, r, a, b, ask, ask, [], []);
    assert c'.mons.Keys == c.mons.Keys;
    StaysFull(c, c');
  }

  /** The leader of three recovers a value that was accepted before. */
  lemma Relearned(d: Conduct, c: World, r: Rank, a: Rank, b: Rank, e: nat, v: Value) returns (c': World)
    requires Reaches(d, c) && Full(c) && MayRecover(c, r, a, b, e)
    requires var best := Best(c.mons[r].pending, c.mons[a].pending, c.mons[b].pending);
             best.Some? && best.value.value == v
    ensures Reaches(d, c') && Round(c, c', r, a, b, e, v)
  {
    hide Reaches, NewPn, Best, Heard, Round, Queues, MayJoin, Promised, Full;
    HeardBest(r, a, b, e, c.mons[r], c.mons[a], c.mons[b]);
    c' := Recovered(d, c, r, a, b, e);
    RoundMade(c, c', r, a, b, e, v, Heard(r, a, b, e, c.mons[r], c.mons[a], c.mons[b]));
  }

  /** The leader of three finds nothing to recover and is active. */
  lemma Idle(d: Conduct, c: World, r: Rank, a: Rank, b: Rank, e: nat) returns (c': World)
    requires Reaches(d, c) && Full(c) && MayRecover(c, r, a, b, e)
    requires c.mons[r].pending.None? && c.mons[a].pending.None? && c.mons[b].pending.None?
    ensures Reaches(d, c')
    ensures var m := Heard(r, a, b, e, c.mons[r], c.mons[a], c.mons[b]);
            && c'.mons == c.mons[a := Promised(c.mons[a], r, e, {r, a, b}, m.acceptedPn)]
                                [b := Promised(c.mons[b], r, e, {r, a, b}, m.acceptedPn)]
                                [r := m.(state := Active)]
            && c'.net == Queues(c, r, a, b, [], [], [], [])
  {
    hide Reaches, NewPn, Heard, MayJoin, Promised, Full;
    HeardBest(r, a, b, e, c.mons[r], c.mons[a], c.mons[b]);
    c' := Recovered(d, c, r, a, b, e);
  }

  /** It proposes a value of its own. */
  lemma Proposed(d: Conduct, c: World, r: Rank, a: Rank, b: Rank, e: nat, v: Value) returns (c': World)
    requires Reaches(d, c) && Full(c) && MayRecover(c, r, a, b, e)
    requires c.mons[r].pending.None? && c.mons[a].pending.None? && c.mons[b].pending.None?
    ensures Reaches(d, c') && Round(c, c', r, a, b, e, v)
  {
    hide Reaches, NewPn, Heard, Round, MayJoin, Promised, Full;
    HeardBest(r, a, b, e, c.mons[r], c.mons[a], c.mons[b]);
    c' := Idle(d, c, r, a, b, e);
    var m := Heard(r, a, b, e, c.mons[r], c.mons[a], c.mons[b]).(state := Active);
    var ask := Begin(e, m.acceptedPn, m.Lc(), v);
    assert [] + [ask] == [ask];
    c' := Proposes(d, c', r, a, b, v);
    RoundMade(c, c', r, a, b, e, v, m);
  }

  lemma CarriedFull(d: Conduct, c: World, r: Rank, a: Rank, b: Rank, v: Value) returns (c': World)
    requires Reaches(d, c) && Full(c) && Begun(c, r, a, b, v)
    ensures Reaches(d, c') && Full(c')
    ensures c.mons[r].newValue == Some(v)
    ensures c'.mons == c.mons[a := Voted(c.mons[a], v)][b := Voted(c.mons[b], v)][r := Committed(c.mons[r])]
  {
    hide Reaches, Full;
    c' := Carried(d, c, r, a, b, v);
    var told := [Commit(c.mons[r].epoch, c.mons[r].Lc(), c.mons[r].log + [v])];
    QueuesKeys(c, r, a, b, told, told, [], []);
    assert c'.mons.Keys == c.mons.Keys;
    StaysFull(c, c');
  }

  lemma VotedFull(d: Conduct, c: World, r: Rank, a: Rank, b: Rank, v: Value) returns (c': World)
    requires Reaches(d, c) && Full(c) && Begun(c, r, a, b, v)
    ensures Reaches(d, c') && Full(c')
    ensures c'.mons == c.mons[a := Voted(c.mons[a], v)][b := Voted(c.mons[b], v)]
  {
    hide Reaches, Full;
    c' := VotedBoth(d, c, r, a, b, v);
    QueuesKeys(c, r, a, b, [], [], [AcceptOf(c.mons[r])], [AcceptOf(c.mons[r])]);
    assert c'.mons.Keys == c.mons.Keys;
    StaysFull(c, c');
  }

  // ---------------------------------------------------------------- a promise forgotten

  lemma Started(d: Conduct) returns (c: World)
    ensures c == Start(FIVE) && Reaches(d, c) && Full(c)
  {
    c := Start(FIVE);
    assert Legal(d, FIVE, []) && After(FIVE, []) == c;
  }

  lemma Restarts(d: Conduct, c: World, r: Rank) returns (c': World)
    requires Reaches(d, c) && r in c.mons && d.forgets
    ensures Reaches(d, c') && c' == c.(mons := c.mons[r := Restarted(c.mons[r])])
  {
    hide Reaches;
    Next(d, c, Restart(r));
    c' := Step(c, Restart(r));
    SentNone(c.net, r);
  }

  const FORGETFUL := Conduct(false, false, true)

  /** What matters of a monitor that is up and has committed nothing. */
  predicate Holds(c: World, q: Rank, pending: Option<Accepted>, pn: Pn, diskPn: Pn, lastPn: Pn, e: nat) {
    && q in c.mons
    && var m := c.mons[q];
       && m.log == [] && m.pending == pending && m.acceptedPn == pn && m.diskPn == diskPn && m.lastPn == lastPn
       && m.epoch == e && !m.standing.Crashed?
  }

  /** Monitor 1 proposes x with 3 and 4, votes for it alone, and is restarted. */
  lemma Forget1() returns (c: World)
    ensures Reaches(FORGETFUL, c) && Full(c)
    ensures Holds(c, 0, None, 0, 0, 0, 0) && Holds(c, 1, Some(Accepted(101, "x")), 0, 0, 101, 2)
    ensures Holds(c, 2, None, 0, 0, 0, 0) && Holds(c, 3, None, 101, 101, 0, 2) && Holds(c, 4, None, 101, 101, 0, 2)
  {
    hide Reaches, Begun;
    var c0 := Started(FORGETFUL);
    var c1 := Proposed(FORGETFUL, c0, 1, 3, 4, 2, "x");
    c := Restarts(FORGETFUL, c1, 1);
    hide Round;
    StaysFull(c1, c);
  }

  /** Monitor 2 wins with 3 and 4, but nobody hears of it. */
  lemma Forget2() returns (c: World)
    ensures Reaches(FORGETFUL, c) && Full(c)
    ensures Holds(c, 0, None, 0, 0, 0, 0) && Holds(c, 1, Some(Accepted(101, "x")), 0, 0, 101, 2)
    ensures Holds(c, 2, None, 102, 0, 102, 4) && Holds(c, 3, None, 101, 101, 0, 2) && Holds(c, 4, None, 101, 101, 0, 2)
  {
    hide Reaches;
    var c0 := Forget1();
    Majority(c0, 2, 3, 4);
    c := Wins(FORGETFUL, c0, 2, 4, {2, 3, 4});
    StaysFull(c0, c);
  }

  /** It wins again, 3 and 4 tell it nothing, it proposes y, and all three vote for it. */
  lemma Forget3() returns (c: World)
    ensures Reaches(FORGETFUL, c) && Full(c)
    ensures Holds(c, 0, None, 0, 0, 0, 0) && Holds(c, 1, Some(Accepted(101, "x")), 0, 0, 101, 2)
    ensures Holds(c, 2, Some(Accepted(202, "y")), 202, 0, 202, 6)
    ensures Holds(c, 3, Some(Accepted(202, "y")), 202, 202, 0, 6)
    ensures Holds(c, 4, Some(Accepted(202, "y")), 202, 202, 0, 6)
  {
    hide Reaches, Begun;
    var c0 := Forget2();
    var c1 := Proposed(FORGETFUL, c0, 2, 3, 4, 6, "y");
    c := VotedFull(FORGETFUL, c1, 2, 3, 4, "y");
  }

  /** It is restarted.  Monitor 0 wins with 1 and 2, who have both forgotten their promises, learns y
      from 2 and begins on it under a lower number, and 2 votes for it. */
  lemma Forget4() returns (c: World)
    ensures Reaches(FORGETFUL, c) && Full(c)
    ensures Holds(c, 0, Some(Accepted(100, "y")), 100, 0, 100, 8)
    ensures Holds(c, 1, Some(Accepted(101, "x")), 100, 100, 101, 8)
    ensures Holds(c, 2, Some(Accepted(100, "y")), 100, 100, 202, 8)
    ensures Holds(c, 3, Some(Accepted(202, "y")), 202, 202, 0, 6)
    ensures Holds(c, 4, Some(Accepted(202, "y")), 202, 202, 0, 6)
  {
    hide Reaches;
    var c0 := Forget3();
    var c1 := Restarts(FORGETFUL, c0, 2);
    StaysFull(c0, c1);
    var c2 := Relearned(FORGETFUL, c1, 0, 1, 2, 8, "y");
    c := Votes(FORGETFUL, c2, 0, 2, "y");
    StaysFull(c2, c);
  }

  /** Monitor 0 wins again with 1 and 2.  The number of x is now the highest it hears of, and x is
      committed. */
  lemma Forget5() returns (c: World)
    ensures Reaches(FORGETFUL, c) && Full(c)
    ensures c.mons[0].log == ["x"] && Holds(c, 1, Some(Accepted(200, "x")), 200, 200, 101, 10)
    ensures Holds(c, 3, Some(Accepted(202, "y")), 202, 202, 0, 6)
    ensures Holds(c, 4, Some(Accepted(202, "y")), 202, 202, 0, 6)
  {
    hide Reaches, Begun;
    var c0 := Forget4();
    var c1 := Relearned(FORGETFUL, c0, 0, 1, 2, 10, "x");
    var m := c1.mons[0];
    c := CarriedFull(FORGETFUL, c1, 0, 1, 2, "x");
  }

  /** Monitor 1 wins with 3 and 4.  The number of y is the highest it hears of, and y is committed
      for the version for which monitor 0 has committed x. */
  lemma ForgottenPromise() returns (c: World)
    ensures Reaches(FORGETFUL, c) && 0 in c.mons && 1 in c.mons && c.mons[0].log == ["x"] && c.mons[1].log == ["y"]
  {
    hide Reaches, Begun;
    var c0 := Forget5();
    var c1 := Relearned(FORGETFUL, c0, 1, 3, 4, 12, "y");
    c := CarriedFull(FORGETFUL, c1, 1, 3, 4, "y");
  }

  // ---------------------------------------------------------------- a collect overtaken

  const OVERTAKING := Conduct(false, true, false)

  /** Monitor 2 commits a with 3 and 4, who have not heard of the commit. */
  lemma Reorder1() returns (c: World)
    ensures Reaches(OVERTAKING, c) && Full(c) && c.mons[2].log == ["a"]
    ensures Holds(c, 0, None, 0, 0, 0, 0) && Holds(c, 1, None, 0, 0, 0, 0)
    ensures Holds(c, 3, Some(Accepted(102, "a")), 102, 102, 0, 2)
  {
    hide Reaches, Begun;
    var c0 := Started(OVERTAKING);
    var c1 := Proposed(OVERTAKING, c0, 2, 3, 4, 2, "a");
    c := CarriedFull(OVERTAKING, c1, 2, 3, 4, "a");
  }

  /** A follower refuses the collect at the head of its queue. */
  lemma Refuses(d: Conduct, c: World, r: Rank, q: Rank, pn: Pn, rest: seq<Msg>) returns (c': World)
    requires Reaches(d, c) && q in c.mons && r != q && Link(r, q) in c.net && Link(q, r) in c.net
    requires var m := c.mons[q];
             && m.standing == Peon(r) && m.acceptedPn >= pn && m.state.Recovering? && m.log == []
             && c.net[Link(r, q)] == [Collect(m.epoch, pn, 0)] + rest
    ensures Reaches(d, c') && c'.mons == c.mons
    ensures var last := LastOf(c.mons[q].epoch, c.mons[q].acceptedPn, c.mons[q]);
            c'.net == c.net[Link(r, q) := rest][Link(q, r) := c.net[Link(q, r)] + [last]]
  {
    hide Reaches, Sent;
    assert c.net[Link(r, q)][1..] == rest;
    c' := Arrives(d, c, Link(r, q));
    SentOne(c.net[Link(r, q) := rest], q, r, LastOf(c.mons[q].epoch, c.mons[q].acceptedPn, c.mons[q]));
  }

  /** A leader gets the only message in a queue, a refusal, and collects again. */
  lemma Retries(d: Conduct, c: World, r: Rank, a: Rank, b: Rank, msg: Msg) returns (c': World)
    requires Reaches(d, c) && Trio(c, r, a, b) && c.net[Link(b, r)] == [msg] && msg.Last?
    requires var m := c.mons[r];
             && m.standing.Leader? && msg.epoch == m.epoch && msg.pn > m.acceptedPn && |msg.log| == m.Lc()
             && m.quorum == {r, a, b} && NobodyLags(m)
    ensures Reaches(d, c')
    ensures var m := Collecting(r, c.mons[r], msg.pn).mon;
            var ask := Collect(m.epoch, m.acceptedPn, m.Lc());
            && c'.mons == c.mons[r := m]
            && c'.net == c.net[Link(b, r) := []][Link(r, a) := c.net[Link(r, a)] + [ask]]
                              [Link(r, b) := c.net[Link(r, b)] + [ask]]
  {
    hide Reaches, Sent, NewPn;
    assert c.net[Link(b, r)][1..] == [];
    OnlyWeighed(c.net[Link(b, r) := []], r, c.mons[r], b, msg);
    c' := Arrives(d, c, Link(b, r));
    var m := Collecting(r, c.mons[r], msg.pn).mon;
    SentTwo(c.net[Link(b, r) := []], r, a, b, Collect(m.epoch, m.acceptedPn, m.Lc()));
  }

  /** A leader with quorum 0, 1, 3 that collects under number `pn` and has counted `n` replies. */
  predicate Leading(m: Mon, pn: Pn, n: nat) {
    && m.log == [] && m.pending.None? && m.uncommitted.None? && m.newValue.None? && m.standing.Leader?
    && m.peerLc == map[] && m.state.Recovering? && m.epoch == 4 && m.acceptedPn == pn && m.lastPn == pn
    && m.quorum == {0, 1, 3} && m.numLast == n
  }

  /** A follower of monitor 0 in epoch 4. */
  predicate Following(m: Mon, pending: Option<Accepted>, pn: Pn) {
    && m.log == [] && m.pending == pending && m.acceptedPn == pn && m.standing == Peon(0) && m.epoch == 4
    && m.state.Recovering?
  }

  const OLD := Some(Accepted(102, "a"))

  /** Monitor 0 wins with 1 and 3, and 3 refuses, because it has promised more. */
  lemma Reorder2() returns (c: World)
    ensures Reaches(OVERTAKING, c) && Full(c) && c.mons[2].log == ["a"]
    ensures Leading(c.mons[0], 100, 1) && Following(c.mons[1], None, 0) && Following(c.mons[3], OLD, 102)
    ensures c.net[Link(0, 1)] == [Collect(4, 100, 0)] && c.net[Link(0, 3)] == []
    ensures c.net[Link(1, 0)] == [] && c.net[Link(3, 0)] == [Last(4, 102, 0, [], OLD)]
  {
    hide Reaches, Full;
    var c0 := Reorder1();
    Linked(c0, 0, 1, 3);
    var c1 := Elected(OVERTAKING, c0, 0, 1, 3, 4);
    var ask := [Collect(4, 100, 0)];
    QueuesKeys(c0, 0, 1, 3, ask, ask, [], []);
    c := Refuses(OVERTAKING, c1, 0, 3, 100, []);
    assert c.mons.Keys == c0.mons.Keys && c.net.Keys == c0.net.Keys;
    StaysFull(c0, c);
  }

  lemma Linked(c: World, r: Rank, a: Rank, b: Rank)
    requires Full(c) && r in FIVE && a in FIVE && b in FIVE && r != a && r != b && a != b
    ensures Trio(c, r, a, b)
  {
  }

  /** So 0 collects again. */
  lemma Reorder3() returns (c: World)
    ensures Reaches(OVERTAKING, c) && Full(c) && c.mons[2].log == ["a"]
    ensures Leading(c.mons[0], 200, 1) && Following(c.mons[1], None, 0) && Following(c.mons[3], OLD, 102)
    ensures c.net[Link(0, 1)] == [Collect(4, 100, 0), Collect(4, 200, 0)] && c.net[Link(0, 3)] == [Collect(4, 200, 0)]
    ensures c.net[Link(1, 0)] == [] && c.net[Link(3, 0)] == []
  {
    hide Reaches, Full;
    var c0 := Reorder2();
    Linked(c0, 0, 1, 3);
    c := Retries(OVERTAKING, c0, 0, 1, 3, Last(4, 102, 0, [], OLD));
    assert c.mons.Keys == c0.mons.Keys && c.net.Keys == c0.net.Keys;
    StaysFull(c0, c);
  }

  /** The second collect overtakes the first on its way to 1. */
  lemma Overtakes(c: World) returns (c': World)
    requires Reaches(OVERTAKING, c) && Full(c) && Following(c.mons[1], None, 0)
    requires c.net[Link(0, 1)] == [Collect(4, 100, 0), Collect(4, 200, 0)] && c.net[Link(1, 0)] == []
    ensures Reaches(OVERTAKING, c') && Full(c')
    ensures c'.mons == c.mons[1 := c.mons[1].(acceptedPn := 200, diskPn := 200)]
    ensures c'.net == c.net[Link(0, 1) := [Collect(4, 100, 0)]][Link(1, 0) := [Last(4, 200, 0, [], None)]]
  {
    hide Reaches, Sent;
    var l := Link(0, 1);
    var e := Deliver(l, 1, false);
    Next(OVERTAKING, c, e);
    c' := Step(c, e);
    assert c.net[l][..1] + c.net[l][2..] == [Collect(4, 100, 0)];
    SentOne(c.net[l := [Collect(4, 100, 0)]], 1, 0, Last(4, 200, 0, [], None));
    assert [] + [Last(4, 200, 0, [], None)] == [Last(4, 200, 0, [], None)];
    StaysFull(c, c');
  }

  /** Monitor 1 answers both with its promise of 200. */
  lemma Reorder4() returns (c: World)
    ensures Reaches(OVERTAKING, c) && Full(c) && c.mons[2].log == ["a"]
    ensures Leading(c.mons[0], 200, 1) && Following(c.mons[1], None, 200) && Following(c.mons[3], OLD, 102)
    ensures c.net[Link(0, 1)] == [] && c.net[Link(0, 3)] == [Collect(4, 200, 0)]
    ensures c.net[Link(1, 0)] == [Last(4, 200, 0, [], None), Last(4, 200, 0, [], None)] && c.net[Link(3, 0)] == []
  {
    hide Reaches, Full;
    var c0 := Reorder3();
    Linked(c0, 0, 1, 3);
    var c1 := Overtakes(c0);
    c := Refuses(OVERTAKING, c1, 0, 1, 100, []);
    StaysFull(c1, c);
  }

  /** Monitor 0 counts two replies of 1, does not hear 3, and is active. */
  lemma Reorder5() returns (c: World)
    ensures Reaches(OVERTAKING, c) && Full(c) && c.mons[2].log == ["a"] && Ready(c.mons[0])
    ensures Following(c.mons[1], None, 200) && Following(c.mons[3], OLD, 102)
    ensures c.net[Link(0, 1)] == [] && c.net[Link(0, 3)] == [Collect(4, 200, 0)]
    ensures c.net[Link(1, 0)] == [] && c.net[Link(3, 0)] == []
  {
    hide Reaches, Full;
    var c0 := Reorder4();
    Linked(c0, 0, 1, 3);
    assert |{0, 1, 3}| == 3;
    var last := Last(4, 200, 0, [], None);
    assert [last, last] == [last] + [last] && [last] + [] == [last];
    var c1 := Counted(OVERTAKING, c0, 0, 1, last, [last]);
    c := Settles(OVERTAKING, c1, 0, 1, last, []);
    SentNone(c1.net[Link(1, 0) := []], 0);
    assert c.mons.Keys == c0.mons.Keys && c.net.Keys == c0.net.Keys;
    StaysFull(c0, c);
  }

  /** An active leader with quorum 0, 1, 3. */
  predicate Ready(m: Mon) {
    && m.log == [] && m.newValue.None? && m.standing.Leader? && m.state.Active?
    && m.epoch == 4 && m.acceptedPn == 200 && m.quorum == {0, 1, 3}
  }

  /** Monitor 3 promises 200; its reply, with the value a, is lost. */
  lemma Reorder6() returns (c: World)
    ensures Reaches(OVERTAKING, c) && Full(c) && c.mons[2].log == ["a"] && Ready(c.mons[0])
    ensures Following(c.mons[1], None, 200) && Following(c.mons[3], OLD, 200)
    ensures c.net[Link(0, 1)] == [] && c.net[Link(0, 3)] == [] && c.net[Link(1, 0)] == [] && c.net[Link(3, 0)] == []
  {
    hide Reaches, Full;
    var c0 := Reorder5();
    Linked(c0, 0, 1, 3);
    var c1 := Answers(OVERTAKING, c0, 0, 3, 200, 0);
    c := Emptied(OVERTAKING, c1, Link(3, 0));
    assert c.mons.Keys == c0.mons.Keys && c.net.Keys == c0.net.Keys;
    StaysFull(c0, c);
  }

  /** Monitor 0 commits b for the version for which 2 has committed a. */
  lemma OvertakenCollect() returns (c: World)
    ensures Reaches(OVERTAKING, c) && 0 in c.mons && 2 in c.mons && c.mons[0].log == ["b"] && c.mons[2].log == ["a"]
  {
    hide Reaches, Full;
    var c0 := Reorder6();
    Linked(c0, 0, 1, 3);
    var c1 := Proposes(OVERTAKING, c0, 0, 1, 3, "b");
    assert [] + [Begin(4, 200, 0, "b")] == [Begin(4, 200, 0, "b")];
    c := Carried(OVERTAKING, c1, 0, 1, 3, "b");
  }

  // ---------------------------------------------------------------- an accept repeated

  const REPEATING := Conduct(true, false, false)

  /** The head of a queue is delivered and stays there. */
  lemma ArrivesOnce(d: Conduct, c: World, l: Link) returns (c': World)
    requires Reaches(d, c) && d.repeats && l in c.net && c.net[l] != [] && l.to in c.mons
    ensures var effect := Dispatch(l.to, c.mons[l.to], l.from, c.net[l][0]);
            c'.mons == c.mons[l.to := effect.mon] && c'.net == Sent(c.net, l.to, effect.out)
    ensures Reaches(d, c')
  {
    hide Reaches, Dispatch, Sent;
    var e := Deliver(l, 0, true);
    Next(d, c, e);
    c' := Step(c, e);
  }

  const VOTE := Accept(2, 100, 0)

  /** Leader 0 of 0, 1, 2 in epoch 2, with both accepts of the first version in the queues. */
  predicate Presiding(c: World, log: seq<Value>, accepted: set<Rank>, newValue: Option<Value>) {
    && Trio(c, 0, 1, 2) && c.net[Link(1, 0)] == [VOTE] && c.net[Link(2, 0)] == [VOTE]
    && var m := c.mons[0];
       && m.log == log && m.standing.Leader? && m.epoch == 2 && m.acceptedPn == 100 && m.quorum == {0, 1, 2}
       && m.accepted == accepted && m.newValue == newValue && m.state == (if newValue.Some? then Updating else Active)
  }

  /** Monitor 1 has voted for a, and monitors 3 and 4 have taken no part. */
  predicate Bystanders(c: World) {
    && Full(c) && Holds(c, 1, Some(Accepted(100, "a")), 100, 100, 0, 2)
    && Holds(c, 3, None, 0, 0, 0, 0) && Holds(c, 4, None, 0, 0, 0, 0)
  }

  lemma Repeat1() returns (c: World)
    ensures Reaches(REPEATING, c) && Presiding(c, [], {0}, Some("a")) && Bystanders(c)
  {
    hide Reaches;
    var c0 := Started(REPEATING);
    var c1 := Proposed(REPEATING, c0, 0, 1, 2, 2, "a");
    c := VotedBoth(REPEATING, c1, 0, 1, 2, "a");
    QueuesKeys(c1, 0, 1, 2, [], [], [VOTE], [VOTE]);
    StaysFull(c1, c);
  }

  /** The leader takes an accept, whether it is new or not, and leaves it in the queue. */
  lemma TakesVote(c: World, q: Rank, log: seq<Value>, v: Value) returns (c': World)
    requires Reaches(REPEATING, c) && Full(c) && Presiding(c, log, {0}, Some(v)) && |log| <= 1 && q == 1
    ensures Reaches(REPEATING, c') && Full(c') && Presiding(c', log, {0, 1}, Some(v))
    ensures forall x :: x in FIVE && x != 0 ==> c'.mons[x] == c.mons[x]
  {
    hide Reaches, Sent;
    c' := ArrivesOnce(REPEATING, c, Link(q, 0));
    SentNone(c.net, 0);
    assert {0} + {1} != {0, 1, 2} by { assert 2 !in {0} + {1}; }
    StaysFull(c, c');
  }

  /** With the second one it commits. */
  lemma TakesLastVote(c: World, log: seq<Value>, v: Value) returns (c': World)
    requires Reaches(REPEATING, c) && Full(c) && Presiding(c, log, {0, 1}, Some(v)) && |log| <= 1
    ensures Reaches(REPEATING, c') && Full(c') && Presiding(c', log + [v], {0, 1, 2}, None)
    ensures forall x :: x in FIVE && x != 0 ==> c'.mons[x] == c.mons[x]
  {
    hide Reaches, Sent;
    c' := ArrivesOnce(REPEATING, c, Link(2, 0));
    assert {0, 1} + {2} == {0, 1, 2};
    SentTwo(c.net, 0, 1, 2, Commit(2, |log|, log + [v]));
    StaysFull(c, c');
  }

  lemma ProposesMore(c: World, log: seq<Value>, v: Value) returns (c': World)
    requires Reaches(REPEATING, c) && Full(c) && Presiding(c, log, {0, 1, 2}, None)
    ensures Reaches(REPEATING, c') && Full(c') && Presiding(c', log, {0}, Some(v))
    ensures forall x :: x in FIVE && x != 0 ==> c'.mons[x] == c.mons[x]
  {
    hide Reaches, Full;
    c' := Proposes(REPEATING, c, 0, 1, 2, v);
    assert c'.mons.Keys == c.mons.Keys && c'.net.Keys == c.net.Keys;
    StaysFull(c, c');
  }

  /** The accepts of a commit a; delivered again, they commit b, which nobody has voted for. */
  lemma Repeat2() returns (c: World)
    ensures Reaches(REPEATING, c) && Bystanders(c) && c.mons[0].log == ["a", "b"]
  {
    hide Reaches, Full;
    c := Repeat1();
    c := TakesVote(c, 1, [], "a");
    c := TakesLastVote(c, [], "a");
    assert [] + ["a"] == ["a"];
    c := ProposesMore(c, ["a"], "b");
    c := TakesVote(c, 1, ["a"], "b");
    c := TakesLastVote(c, ["a"], "b");
  }

  /** A follower gets the only message in its queue, a commit of one version more. */
  lemma Told(d: Conduct, c: World, r: Rank, q: Rank, log: seq<Value>) returns (c': World)
    requires Reaches(d, c) && q in c.mons && Link(r, q) in c.net
    requires var m := c.mons[q];
             m.standing == Peon(r) && m.log == [] && |log| == 1 && c.net[Link(r, q)] == [Commit(m.epoch, 0, log)]
    ensures Reaches(d, c') && c'.mons == c.mons[q := StoreState(c.mons[q], 0, log)] && c'.net == c.net[Link(r, q) := []]
    ensures StoreState(c.mons[q], 0, log).log == log
  {
    hide Reaches, Sent;
    assert c.net[Link(r, q)][1..] == [];
    c' := Arrives(d, c, Link(r, q));
    SentNone(c.net[Link(r, q) := []], q);
  }

  /** Monitor 1 wins with 3 and 4 and commits a with them. */
  lemma Repeat3() returns (c: World)
    ensures Reaches(REPEATING, c) && Trio(c, 1, 3, 4) && c.mons[0].log == ["a", "b"] && InOffice(c, ["a"], [])
    ensures var told := [Commit(4, 0, ["a"])];
            c.net[Link(1, 3)] == told && c.net[Link(1, 4)] == told && c.net[Link(3, 1)] == [] && c.net[Link(4, 1)] == []
  {
    hide Reaches;
    var c0 := Repeat2();
    var c1 := Relearned(REPEATING, c0, 1, 3, 4, 4, "a");
    c := Carried(REPEATING, c1, 1, 3, 4, "a");
  }

  /** Monitor 1 is an active leader of 1, 3, 4 in epoch 4. */
  predicate InOffice(c: World, log: seq<Value>, behind: seq<Value>) {
    && Trio(c, 1, 3, 4)
    && var (m, ma, mb) := (c.mons[1], c.mons[3], c.mons[4]);
       && m.standing.Leader? && m.state.Active? && m.newValue.None? && m.quorum == {1, 3, 4} && m.log == log
       && m.epoch == 4 && m.acceptedPn == 201
       && ma.standing == Peon(1) && ma.epoch == 4 && ma.acceptedPn == 201 && ma.log == behind
       && mb.standing == Peon(1) && mb.epoch == 4 && mb.acceptedPn == 201 && mb.log == behind
  }

  /** It commits c for the version for which monitor 0 has committed b. */
  lemma RepeatedAccept() returns (c: World)
    ensures Reaches(REPEATING, c) && 0 in c.mons && 1 in c.mons
    ensures c.mons[0].log == ["a", "b"] && c.mons[1].log == ["a", "c"]
  {
    hide Reaches;
    c := Repeat3();
    c := Told(REPEATING, c, 1, 3, ["a"]);
    c := Told(REPEATING, c, 1, 4, ["a"]);
    c := Proposes(REPEATING, c, 1, 3, 4, "c");
    assert [] + [Begin(4, 201, 1, "c")] == [Begin(4, 201, 1, "c")];
    c := Carried(REPEATING, c, 1, 3, 4, "c");
  }

  // ---------------------------------------------------------------- exactly when the monitors agree

  lemma {:induction false} MoreIsLegal(d: Conduct, d': Conduct, ranks: set<Rank>, run: seq<Event>)
    requires Legal(d, ranks, run)
    requires (d.repeats ==> d'.repeats) && (d.reorders ==> d'.reorders) && (d.forgets ==> d'.forgets)
    ensures Legal(d', ranks, run)
    decreases |run|
  {
    if run != [] {
      MoreIsLegal(d, d', ranks, run[..|run| - 1]);
    }
  }

  lemma Disagrees(d: Conduct, d': Conduct, c: World, a: Rank, b: Rank, i: nat) returns (run: seq<Event>)
    requires Reaches(d, c) && a in c.mons && b in c.mons && i < c.mons[a].Lc() && i < c.mons[b].Lc()
    requires c.mons[a].log[i] != c.mons[b].log[i]
    requires (d.repeats ==> d'.repeats) && (d.reorders ==> d'.reorders) && (d.forgets ==> d'.forgets)
    ensures Legal(d', FIVE, run) && !RunAgrees(FIVE, run)
  {
    run :| Legal(d, FIVE, run) && After(FIVE, run) == c;
    MoreIsLegal(d, d', FIVE, run);
    assert run[..|run|] == run;
    assert !Agree(c, c);
  }

  /** All that is ever committed agrees, in every cluster and every run, if and only if messages are
      neither repeated nor reordered on their link and no monitor is restarted behind its promise. */
  lemma {:induction false} AgreementIff(d: Conduct)
    ensures (forall ranks, run :: Distinct(ranks) && Legal(d, ranks, run) ==> RunAgrees(ranks, run)) <==>
            !d.repeats && !d.reorders && !d.forgets
  {
    hide Legal, RunAgrees, Reaches;
    assert Distinct(FIVE);
    if !d.repeats && !d.reorders && !d.forgets {
      forall ranks, run | Distinct(ranks) && Legal(d, ranks, run) ensures RunAgrees(ranks, run) {
        Agreement(ranks, run);
      }
    } else if d.repeats {
      var c := RepeatedAccept();
      var run := Disagrees(REPEATING, d, c, 0, 1, 1);
    } else if d.reorders {
      var c := OvertakenCollect();
      var run := Disagrees(OVERTAKING, d, c, 0, 2, 0);
    } else {
      var c := ForgottenPromise();
      var run := Disagrees(FORGETFUL, d, c, 0, 1, 0);
    }
  }
}
