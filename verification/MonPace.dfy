/** How far monitors are, as far as messages under way tell: with ordered queues the values in a commit
    never start beyond what its receiver has, so none is ever ignored. */
module MonPace {
  import opened MonCluster
  import opened MonDelivery
  import opened MonNumbers
  import opened Options

  /** What leader `m` has noted of its peer `q`, whose log has length `lc`, is not too much. */
  predicate NotedOk(m: Mon, q: Rank, lc: nat) {
    && (q in m.peerLc ==> m.peerLc[q] <= lc)
    && (m.state.Updating? && q in m.accepted ==> m.Lc() <= lc)
  }

  /** A message from a monitor with a log of length `from` to one with a log of length `to`. */
  predicate InPace(x: Msg, from: nat, to: nat) {
    match x
    case Collect(_, _, lc) => lc <= from
    case Last(_, _, base, log, _) => base <= to && |log| <= from
    case Begin(_, _, _, _) => true
    case Accept(_, _, lc) => lc <= from
    case Commit(_, base, _) => base <= to
  }

  ghost predicate AllInPace(s: seq<Msg>, from: nat, to: nat) {
    forall x :: x in s ==> InPace(x, from, to)
  }

  ghost predicate PaceIn(c: World, r: Rank, q: Rank)
    requires Wired(c) && r in c.mons && q in c.mons && r != q
  {
    && AllInPace(c.net[Link(r, q)], c.mons[r].Lc(), c.mons[q].Lc())
    && (c.mons[r].standing.Leader? ==> NotedOk(c.mons[r], q, c.mons[q].Lc()))
  }

  ghost predicate Paced(c: World) {
    Wired(c) && forall r, q :: r in c.mons && q in c.mons && r != q ==> PaceIn(c, r, q)
  }

  lemma DropPaced(c: World, l: Link, lo: nat, hi: nat)
    requires Paced(c) && l in c.net && lo <= hi <= |c.net[l]|
    ensures Paced(Dropped(c, l, lo, hi))
  {
    hide NotedOk, InPace, Rising;
    var c' := Dropped(c, l, lo, hi);
    CutIsPart(c.net[l], lo, hi);
    forall r, q | r in c'.mons && q in c'.mons && r != q ensures PaceIn(c', r, q) {
      assert PaceIn(c, r, q);
    }
  }

  /** What `r` leaves behind is in pace with `q`. */
  ghost predicate EffectPaced(c: World, r: Rank, effect: Effect, q: Rank)
    requires q in c.mons
  {
    && AllInPace(For(effect.out, q), effect.mon.Lc(), c.mons[q].Lc())
    && (effect.mon.standing.Leader? ==> NotedOk(effect.mon, q, c.mons[q].Lc()))
  }

  lemma LaterInPace(s: seq<Msg>, from: nat, to: nat, from': nat, to': nat)
    requires AllInPace(s, from, to) && from <= from' && to <= to'
    ensures AllInPace(s, from', to')
  {
  }

  lemma DonePacedAt(c: World, r: Rank, effect: Effect, a: Rank, b: Rank)
    requires Paced(c) && r in c.mons && effect.mon.Lc() >= c.mons[r].Lc() && Wired(Done(c, r, effect))
    requires a in c.mons && b in c.mons && a != b && (a == r ==> EffectPaced(c, r, effect, b))
    ensures PaceIn(Done(c, r, effect), a, b)
  {
    var c', l := Done(c, r, effect), Link(a, b);
    assert PaceIn(c, a, b);
    hide InPace;
    LaterInPace(c.net[l], c.mons[a].Lc(), c.mons[b].Lc(), c'.mons[a].Lc(), c'.mons[b].Lc());
    if a == r && For(effect.out, b) != [] {
      assert c'.net[l] == c.net[l] + For(effect.out, b);
    }
  }

  lemma DonePaced(c: World, r: Rank, effect: Effect)
    requires Paced(c) && r in c.mons && effect.mon.Lc() >= c.mons[r].Lc()
    requires forall q :: q in c.mons && q != r ==> EffectPaced(c, r, effect, q)
    ensures Paced(Done(c, r, effect))
  {
    DoneWired(c, r, effect);
    hide PaceIn, EffectPaced, Wired, Sent;
    var c' := Done(c, r, effect);
    forall a, b | a in c'.mons && b in c'.mons && a != b ensures PaceIn(c', a, b) {
      DonePacedAt(c, r, effect, a, b);
    }
  }

  // ---------------------------------------------------------------- one lemma per step

  lemma AsidePaced(c: World, r: Rank, m: Mon)
    requires Paced(c) && r in c.mons && !m.standing.Leader? && m.Lc() >= c.mons[r].Lc()
    ensures Paced(Done(c, r, Effect(m, Silence)))
  {
    DonePaced(c, r, Effect(m, Silence));
  }

  lemma CollectingPaced(c: World, r: Rank, m: Mon, oldPn: Pn)
    requires Paced(c) && r in c.mons && m.log == c.mons[r].log
    ensures Paced(Done(c, r, Collecting(r, m, oldPn)))
  {
    hide NewPn, PaceIn;
    DonePaced(c, r, Collecting(r, m, oldPn));
  }

  /** What a leader had noted of its peers still stands if it notes nothing new. */
  lemma BeginningPaced(c: World, r: Rank, m: Mon, value: Value)
    requires Paced(c) && r in c.mons && m.log == c.mons[r].log
    requires m.peerLc == map[] || (c.mons[r].standing.Leader? && m.peerLc == c.mons[r].peerLc)
    ensures Paced(Done(c, r, Beginning(r, m, value)))
  {
    var effect := Beginning(r, m, value);
    forall q | q in c.mons && q != r ensures EffectPaced(c, r, effect, q) {
      assert PaceIn(c, r, q);
    }
    DonePaced(c, r, effect);
  }

  lemma QuietPaced(c: World, r: Rank, m: Mon)
    requires Paced(c) && r in c.mons && c.mons[r].standing.Leader? && m.log == c.mons[r].log && !m.state.Updating?
    requires m.peerLc == map[] || m.peerLc == c.mons[r].peerLc
    ensures Paced(Done(c, r, Effect(m, Silence)))
  {
    forall q | q in c.mons && q != r ensures EffectPaced(c, r, Effect(m, Silence), q) {
      assert PaceIn(c, r, q);
    }
    DonePaced(c, r, Effect(m, Silence));
  }

  lemma HeadInPace(c: World, l: Link)
    requires Paced(c) && l in c.net && c.net[l] != []
    ensures InPace(c.net[l][0], c.mons[l.from].Lc(), c.mons[l.to].Lc()) && Paced(Dropped(c, l, 0, 1))
  {
    hide InPace, NotedOk;
    assert PaceIn(c, l.from, l.to) && c.net[l][0] in c.net[l];
    DropPaced(c, l, 0, 1);
  }

  lemma RepliesPaced(c: World, l: Link, effect: Effect)
    requires Paced(c) && l in c.net && c.net[l] != [] && c.mons[l.to].standing.Peon? && effect.mon.standing.Peon?
    requires var (m, msg) := (c.mons[l.to], c.net[l][0]);
             || (msg.Collect? && effect == HandleCollect(m, l.from, msg))
             || (msg.Begin? && msg.lc == m.Lc() && effect == HandleBegin(m, l.from, msg))
    ensures Paced(Done(Dropped(c, l, 0, 1), l.to, effect))
  {
    HeadInPace(c, l);
    hide PaceIn;
    DonePaced(Dropped(c, l, 0, 1), l.to, effect);
  }

  lemma TellPaced(c: World, l: Link)
    requires ReplyAtHead(c, l) && Paced(c)
    ensures var m := Informed(c.mons[l.to], l.from, c.net[l][0]); Paced(Done(c, l.to, Effect(m, Telling(m))))
  {
    ReplyIsNew(c, l);
    HeadInPace(c, l);
    hide Orderly;
    var r, m := l.to, Informed(c.mons[l.to], l.from, c.net[l][0]);
    forall q | q in c.mons && q != r ensures EffectPaced(c, r, Effect(m, Telling(m)), q) {
      assert PaceIn(c, r, q);
    }
    DonePaced(c, r, Effect(m, Telling(m)));
  }

  /** A reply is weighed in one of three ways. */
  lemma WeighIs(r: Rank, m: Mon, from: Rank, msg: Msg)
    requires msg.Last? && !m.state.Updating?
    ensures var effect := Weigh(r, m, from, msg);
            || effect == Collecting(r, m, msg.pn)
            || (&& effect.mon.newValue.Some?
                && effect == Beginning(r, Count(m, from, msg).(peerLc := map[]), effect.mon.newValue.value))
            || (&& effect.out.Silence? && effect.mon.log == m.log && !effect.mon.state.Updating?
                && (effect.mon.peerLc == map[] || effect.mon.peerLc == m.peerLc))
  {
    hide Collecting, Learn;
  }

  lemma WeighPaced(c: World, l: Link)
    requires ReplyAtHead(c, l) && Paced(c)
    ensures Paced(Done(Dropped(c, l, 0, 1), l.to, Weigh(l.to, c.mons[l.to], l.from, c.net[l][0])))
  {
    ReplyIsNew(c, l);
    HeadInPace(c, l);
    hide Orderly, Paced, Done, Weigh, Collecting, Beginning, Learn;
    var r, c1, m, msg := l.to, Dropped(c, l, 0, 1), c.mons[l.to], c.net[l][0];
    var effect := Weigh(r, m, l.from, msg);
    WeighIs(r, m, l.from, msg);
    if effect == Collecting(r, m, msg.pn) {
      CollectingPaced(c1, r, m, msg.pn);
    } else if effect.out.Silence? && !effect.mon.state.Updating? {
      QuietPaced(c1, r, effect.mon);
    } else {
      BeginningPaced(c1, r, Count(m, l.from, msg).(peerLc := map[]), effect.mon.newValue.value);
    }
  }

  lemma LastPaced(c: World, l: Link)
    requires ReplyAtHead(c, l) && Paced(c)
    ensures Paced(Done(Dropped(c, l, 0, 1), l.to, HandleLast(l.to, c.mons[l.to], l.from, c.net[l][0])))
  {
    var r, m := l.to, Informed(c.mons[l.to], l.from, c.net[l][0]);
    assert l.from != r;
    TellOrderly(c, l);
    TellPaced(c, l);
    AheadFirst(c, l, m, Telling(m), Weigh(r, m, l.from, c.net[l][0]));
    var c0 := Done(c, r, Effect(m, Telling(m)));
    hide Orderly, Paced, Weigh, Telling, Ahead, Sent;
    WeighPaced(c0, l);
  }

  lemma AcceptPaced(c: World, l: Link)
    requires VoteAtHead(c, l) && Paced(c)
    ensures Paced(Done(Dropped(c, l, 0, 1), l.to, HandleAccept(l.to, c.mons[l.to], l.from, c.net[l][0])))
  {
    VoteIsNew(c, l);
    HeadInPace(c, l);
    hide Orderly;
    var r, c1 := l.to, Dropped(c, l, 0, 1);
    var effect := HandleAccept(r, c.mons[r], l.from, c.net[l][0]);
    forall q | q in c1.mons && q != r ensures EffectPaced(c1, r, effect, q) {
      assert PaceIn(c1, r, q);
    }
    DonePaced(c1, r, effect);
  }

  lemma DispatchPaced(c: World, l: Link)
    requires Orderly(c) && Paced(c) && l in c.net && c.net[l] != []
    ensures Paced(Done(Dropped(c, l, 0, 1), l.to, Dispatch(l.to, c.mons[l.to], l.from, c.net[l][0])))
  {
    hide Orderly, Paced, Dispatch, HandleLast, HandleAccept, Sent, Done;
    Taken(c, l);
    HeadInPace(c, l);
    var o := DispatchComesTo(c, l);
    var r, c1, m, msg := l.to, Dropped(c, l, 0, 1), c.mons[l.to], c.net[l][0];
    match o
    case Ignored => NothingDone(c1, r);
    case Leaves => AsidePaced(c1, r, Dispatch(r, m, l.from, msg).mon);
    case Promises => RepliesPaced(c, l, HandleCollect(m, l.from, msg));
    case Votes => RepliesPaced(c, l, HandleBegin(m, l.from, msg));
    case Stores => AsidePaced(c1, r, StoreState(m, msg.base, msg.log));
    case Hears => LastPaced(c, l);
    case Counts => AcceptPaced(c, l);
  }

  /** Every ordered step keeps the pace. */
  lemma StepPaced(c: World, e: Event)
    requires Orderly(c) && Paced(c) && Enabled(c, e) && Permits(ORDERED, c, e)
    ensures Paced(Step(c, e))
  {
    hide Orderly, Paced, Done, Dropped, Dispatch, Collecting, Beginning;
    match e
    case WinElection(r, epoch, quorum) =>
      CollectingPaced(c, r, Outside(c.mons[r], Leader).(epoch := epoch, quorum := quorum), 0);
    case LoseElection(r, epoch, leader, quorum) =>
      AsidePaced(c, r, Outside(c.mons[r], Peon(leader)).(epoch := epoch, quorum := quorum));
    case Bootstrap(r) => AsidePaced(c, r, Outside(c.mons[r], Out));
    case Restart(r) => AsidePaced(c, r, Restarted(c.mons[r]));
    case Propose(r, value) => BeginningPaced(c, r, c.mons[r], value);
    case Deliver(l, _, _) => DispatchPaced(c, l);
    case Drop(l, lo, hi) => DropPaced(c, l, lo, hi);
  }
}
