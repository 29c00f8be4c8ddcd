/** The coded monitors refine the protocol of `MonPaxos` as long as queues neither repeat nor reorder
    and restarts forget nothing, and so they agree. */
module MonAgreement {
  import opened MonCluster
  import opened MonDelivery
  import opened MonNumbers
  import opened MonPace
  import opened Options
  import P = MonPaxos

  function Role(m: Mon): P.Role {
    if !m.standing.Leader? then P.Peon
    else
      match m.state
      case Recovering => P.Recovering(m.quorum, m.heard, m.uncommitted)
      case Active => P.Active(m.quorum)
      case Updating => P.Updating(m.quorum, m.accepted, if m.newValue.Some? then m.newValue.value else "")
  }

  function Abs(m: Mon): P.Mon {
    P.Mon(m.log, m.pending, m.acceptedPn, m.lastPn, Role(m))
  }

  function AbsMsg(l: Link, x: Msg): P.Msg {
    match x
    case Collect(_, pn, lc) => P.Collect(l.from, l.to, pn, lc)
    case Last(_, pn, _, log, unc) => P.Last(l.from, l.to, pn, log, unc)
    case Begin(_, pn, lc, value) => P.Begin(l.from, l.to, pn, lc, value)
    case Accept(_, pn, lc) => P.Accept(l.from, l.to, pn, lc)
    case Commit(_, _, log) => P.Commit(l.from, l.to, log)
  }

  ghost predicate SameMons(c: World, w: P.World) {
    c.mons.Keys == w.mons.Keys && forall r :: r in c.mons ==> w.mons[r] == Abs(c.mons[r])
  }

  /** The protocol has sent all that is under way, and perhaps more. */
  ghost predicate HasSent(c: World, w: P.World) {
    forall l, x :: l in c.net && x in c.net[l] ==> AbsMsg(l, x) in w.net
  }

  ghost predicate Refines(c: World, w: P.World) {
    SameMons(c, w) && HasSent(c, w)
  }

  /** The step of the protocol that an event amounts to, if any. */
  function Shadow(c: World, e: Event): seq<P.Event>
    requires Enabled(c, e)
  {
    match e
    case WinElection(r, _, quorum) => [P.LeaderInit(r, quorum)]
    case LoseElection(r, _, _, _) => [P.PeonInit(r)]
    case Bootstrap(r) => [P.PeonInit(r)]
    case Restart(r) => [P.PeonInit(r)]
    case Propose(r, value) => [P.Propose(r, value)]
    case Drop(_, _, _) => []
    case Deliver(l, i, _) =>
      var effect := EffectOf(c, e);
      if effect == Effect(c.mons[l.to], Silence) then []
      else if effect.mon.standing.Out? || effect.mon.standing.Crashed? then [P.PeonInit(l.to)]
      else [P.Deliver(AbsMsg(l, c.net[l][i]))]
  }

  lemma DropRefines(c: World, w: P.World, l: Link, lo: nat, hi: nat)
    requires Refines(c, w) && l in c.net && lo <= hi <= |c.net[l]|
    ensures Refines(Dropped(c, l, lo, hi), w)
  {
    CutIsPart(c.net[l], lo, hi);
    hide Rising;
  }

  /** Monitor `r` has acted and the protocol has followed. */
  lemma DoneRefines(c: World, w: P.World, r: Rank, effect: Effect, w': P.World)
    requires Refines(c, w) && r in c.mons && w'.mons == w.mons[r := Abs(effect.mon)] && w.net <= w'.net
    requires forall q, x :: Link(r, q) in c.net && x in For(effect.out, q) ==> AbsMsg(Link(r, q), x) in w'.net
    ensures Refines(Done(c, r, effect), w')
  {
    hide AbsMsg, Abs;
    var c' := Done(c, r, effect);
    forall l, x | l in c'.net && x in c'.net[l] ensures AbsMsg(l, x) in w'.net {
      if x !in c.net[l] {
        assert l == Link(r, l.to) && x in For(effect.out, l.to);
      }
    }
  }

  lemma SameSizes(c: World, w: P.World)
    requires c.mons.Keys == w.mons.Keys
    ensures |c.mons| == |w.mons|
  {
    assert |c.mons| == |c.mons.Keys| && |w.mons| == |w.mons.Keys|;
  }

  // ---------------------------------------------------------------- one lemma per step

  lemma CollectingRefines(c: World, w: P.World, r: Rank, m: Mon, oldPn: Pn)
    requires Refines(c, w) && r in c.mons && m.standing.Leader?
    requires Abs(m.(standing := Out)) == Abs(c.mons[r].(standing := Out))
    ensures Refines(Done(c, r, Collecting(r, m, oldPn)),
                    P.WithCollect(w, r, P.Collecting(w.mons[r], r, m.quorum, oldPn)))
  {
    hide NewPn;
    DoneRefines(c, w, r, Collecting(r, m, oldPn), P.WithCollect(w, r, P.Collecting(w.mons[r], r, m.quorum, oldPn)));
  }

  lemma AsideRefines(c: World, w: P.World, r: Rank, m: Mon)
    requires Refines(c, w) && r in c.mons && !m.standing.Leader?
    requires Abs(m) == Abs(c.mons[r].(standing := Out))
    ensures P.Enabled(w, P.PeonInit(r)) && Refines(Done(c, r, Effect(m, Silence)), P.Step(w, P.PeonInit(r)))
  {
    DoneRefines(c, w, r, Effect(m, Silence), P.Step(w, P.PeonInit(r)));
  }

  lemma BeginningRefines(c: World, w: P.World, r: Rank, m: Mon, value: Value)
    requires Refines(c, w) && r in c.mons && m.standing.Leader? && m.newValue.None?
    ensures Refines(Done(c, r, Beginning(r, m, value)), P.Begun(w, r, Abs(m), m.quorum, value))
  {
    DoneRefines(c, w, r, Beginning(r, m, value), P.Begun(w, r, Abs(m), m.quorum, value));
  }

  lemma StoreStateRefines(m: Mon, base: Version, log: seq<Value>)
    requires base <= m.Lc()
    ensures Abs(StoreState(m, base, log)) == P.StoreState(Abs(m), log)
  {
  }

  lemma LearnRefines(m: Mon, l: Link, msg: Msg)
    requires msg.Last? && m.standing.Leader? && m.state.Recovering?
    ensures Learn(m, msg) == P.Learn(Abs(m), AbsMsg(l, msg))
  {
  }

  /** The protocol follows the delivery of a message. */
  ghost predicate Delivers(c: World, w: P.World, l: Link, msg: Msg, effect: Effect) {
    var e := P.Deliver(AbsMsg(l, msg));
    P.Enabled(w, e) && Refines(Done(c, l.to, effect), P.Step(w, e))
  }

  lemma HandleCollectRefines(c: World, w: P.World, l: Link, msg: Msg)
    requires Refines(c, w) && l.to in c.mons && AbsMsg(l, msg) in w.net && c.mons[l.to].standing.Peon? && msg.Collect?
    ensures Delivers(c, w, l, msg, HandleCollect(c.mons[l.to], l.from, msg))
  {
    DoneRefines(c, w, l.to, HandleCollect(c.mons[l.to], l.from, msg), P.OnCollect(w, l.to, AbsMsg(l, msg)));
  }

  lemma HandleBeginRefines(c: World, w: P.World, l: Link, msg: Msg)
    requires Refines(c, w) && l.to in c.mons && AbsMsg(l, msg) in w.net && msg.Begin?
    requires var m := c.mons[l.to]; m.standing.Peon? && msg.pn == m.acceptedPn && msg.lc == m.Lc()
    ensures Delivers(c, w, l, msg, HandleBegin(c.mons[l.to], l.from, msg))
  {
    DoneRefines(c, w, l.to, HandleBegin(c.mons[l.to], l.from, msg), P.OnBegin(w, l.to, AbsMsg(l, msg)));
  }

  lemma HandleAcceptRefines(c: World, w: P.World, l: Link, msg: Msg)
    requires Refines(c, w) && l.to in c.mons && AbsMsg(l, msg) in w.net && msg.Accept?
    requires var m := c.mons[l.to];
             && m.standing.Leader? && AwaitsVote(m, l.from) && m.newValue.Some?
             && msg.pn == m.acceptedPn && msg.lc == m.Lc()
    ensures Delivers(c, w, l, msg, HandleAccept(l.to, c.mons[l.to], l.from, msg))
  {
    DoneRefines(c, w, l.to, HandleAccept(l.to, c.mons[l.to], l.from, msg), P.OnAccept(w, l.to, AbsMsg(l, msg)));
  }

  /** The protocol world `w'` is what monitor `r` has made of `w`. */
  ghost predicate Matches(w: P.World, r: Rank, effect: Effect, w': P.World) {
    && w'.mons == w.mons[r := Abs(effect.mon)] && w.net <= w'.net
    && forall q, x :: q != r && x in For(effect.out, q) ==> AbsMsg(Link(r, q), x) in w'.net
  }

  lemma LastRetries(w: P.World, r: Rank, m: Mon, l: Link, msg: Msg)
    requires r in w.mons && w.mons[r] == Abs(m) && m.standing.Leader? && m.state.Recovering?
    requires msg.Last? && msg.pn > m.acceptedPn
    ensures Matches(w, r, Weigh(r, m, l.from, msg), P.OnReply(w, r, AbsMsg(l, msg)))
  {
    hide NewPn;
  }

  lemma LastIsOld(w: P.World, r: Rank, m: Mon, l: Link, msg: Msg)
    requires r in w.mons && w.mons[r] == Abs(m) && m.standing.Leader? && m.state.Recovering?
    requires msg.Last? && msg.pn < m.acceptedPn
    ensures Matches(w, r, Weigh(r, m, l.from, msg), P.OnReply(w, r, AbsMsg(l, msg)))
  {
  }

  /** The counter decides as the set of senders would. */
  lemma LastCounts(w: P.World, r: Rank, m: Mon, l: Link, msg: Msg)
    requires r in w.mons && w.mons[r] == Abs(m) && m.standing.Leader? && m.state.Recovering?
    requires msg.Last? && msg.pn == m.acceptedPn && SoloOk(r, m) && Awaits(m, l.from) && m.newValue.None?
    ensures Matches(w, r, Weigh(r, m, l.from, msg), P.OnReply(w, r, AbsMsg(l, msg)))
  {
    LearnRefines(m, l, msg);
    assert SoloOk(r, Count(m, l.from, msg));
    CountIsSenders(r, Count(m, l.from, msg));
    hide P.Learn, Learn;
  }

  lemma WeighRefines(c: World, w: P.World, l: Link, msg: Msg)
    requires Refines(c, w) && l.to in c.mons && msg.Last?
    requires var m := c.mons[l.to];
             m.standing.Leader? && SoloOk(l.to, m) && Awaits(m, l.from) && m.newValue.None?
    requires forall k :: k in c.net ==> k.from != k.to
    ensures l.to in w.mons && w.mons[l.to].role.Recovering?
    ensures Refines(Done(c, l.to, Weigh(l.to, c.mons[l.to], l.from, msg)), P.OnReply(w, l.to, AbsMsg(l, msg)))
  {
    var r, m := l.to, c.mons[l.to];
    assert r in w.mons && w.mons[r] == Abs(m);
    hide HasSent, SameMons, Weigh, P.OnReply;
    if msg.pn > m.acceptedPn {
      LastRetries(w, r, m, l, msg);
    } else if msg.pn < m.acceptedPn {
      LastIsOld(w, r, m, l, msg);
    } else {
      LastCounts(w, r, m, l, msg);
    }
    DoneRefines(c, w, r, Weigh(r, m, l.from, msg), P.OnReply(w, r, AbsMsg(l, msg)));
  }

  lemma TellRefines(c: World, w: P.World, l: Link, msg: Msg)
    requires Refines(c, w) && l.to in c.mons && msg.Last? && c.mons[l.to].standing.Leader?
    requires msg.base <= c.mons[l.to].Lc()
    requires forall k :: k in c.net ==> k.from != k.to && k.to in c.mons
    ensures l.to in w.mons
    ensures var m := Informed(c.mons[l.to], l.from, msg);
            Refines(Done(c, l.to, Effect(m, Telling(m))), P.Told(P.Stored(w, l.to, msg.log), l.to))
  {
    var r, m := l.to, Informed(c.mons[l.to], l.from, msg);
    StoreStateRefines(c.mons[r].(peerLc := c.mons[r].peerLc[l.from := |msg.log|]), msg.base, msg.log);
    hide StoreState, P.StoreState;
    DoneRefines(c, w, r, Effect(m, Telling(m)), P.Told(P.Stored(w, r, msg.log), r));
  }

  lemma InformedOk(c: World, l: Link)
    requires ReplyAtHead(c, l) && Paced(c)
    ensures l.to in c.mons && l.from != l.to && c.net[l][0].base <= c.mons[l.to].Lc()
    ensures forall k :: k in c.net ==> k.from != k.to && k.to in c.mons
    ensures var m := Informed(c.mons[l.to], l.from, c.net[l][0]);
            m.standing.Leader? && SoloOk(l.to, m) && Awaits(m, l.from) && m.newValue.None?
    ensures c.mons[l.to].state.Recovering? && l.from in c.mons[l.to].quorum
  {
    HeadInPace(c, l);
    ReplyIsNew(c, l);
    SoloOf(c, l.to);
    hide Paced, PairIn;
  }

  /** The reply is weighed after others have been told, and before the message is gone. */
  lemma TellThenWeigh(c: World, w: P.World, l: Link)
    requires ReplyAtHead(c, l) && Paced(c) && Refines(c, w)
    ensures l.to in c.mons && l.to in w.mons
    ensures P.Told(P.Stored(w, l.to, c.net[l][0].log), l.to).mons[l.to].role.Recovering?
    ensures var m := Informed(c.mons[l.to], l.from, c.net[l][0]);
            var w0 := P.Told(P.Stored(w, l.to, c.net[l][0].log), l.to);
            var c0 := Done(c, l.to, Effect(m, Telling(m)));
            && l in c0.net && c0.net[l] == c.net[l]
            && Refines(Done(Dropped(c0, l, 0, 1), l.to, Weigh(l.to, m, l.from, c.net[l][0])),
                       P.OnReply(w0, l.to, AbsMsg(l, c.net[l][0])))
  {
    InformedOk(c, l);
    var r, msg := l.to, c.net[l][0];
    var m := Informed(c.mons[r], l.from, msg);
    hide Orderly, Paced, Refines, Informed, Telling, Weigh, P.OnReply, P.Told, P.Stored, SoloOk, Awaits;
    TellRefines(c, w, l, msg);
    AheadFirst(c, l, m, Telling(m), Weigh(r, m, l.from, msg));
    var c0, w0 := Done(c, r, Effect(m, Telling(m))), P.Told(P.Stored(w, r, msg.log), r);
    DropRefines(c0, w0, l, 0, 1);
    WeighRefines(Dropped(c0, l, 0, 1), w0, l, msg);
  }

  /** A reply at the head of the queue to a leader, in all its branches. */
  lemma HandleLastRefines(c: World, w: P.World, l: Link)
    requires ReplyAtHead(c, l) && Paced(c) && Refines(c, w)
    ensures Delivers(Dropped(c, l, 0, 1), w, l, c.net[l][0], HandleLast(l.to, c.mons[l.to], l.from, c.net[l][0]))
  {
    var r, msg := l.to, c.net[l][0];
    var m := Informed(c.mons[r], l.from, msg);
    InformedOk(c, l);
    HeadIsSent(c, w, l);
    hide Orderly, Paced, Refines, Informed, Telling, Weigh, P.OnReply, P.Told, P.Stored, SoloOk, Sent, Ahead;
    TellThenWeigh(c, w, l);
    AheadFirst(c, l, m, Telling(m), Weigh(r, m, l.from, msg));
  }

  /** A message at the head of a queue has been sent in the protocol too. */
  lemma HeadIsSent(c: World, w: P.World, l: Link)
    requires Refines(c, w) && l in c.net && c.net[l] != [] && l.to in c.mons
    ensures AbsMsg(l, c.net[l][0]) in w.net && l.to in w.mons && w.mons[l.to] == Abs(c.mons[l.to])
  {
    assert c.net[l][0] in c.net[l];
  }

  lemma HandleCommitRefines(c: World, w: P.World, l: Link, msg: Msg)
    requires Refines(c, w) && l.to in c.mons && AbsMsg(l, msg) in w.net && c.mons[l.to].standing.Peon? && msg.Commit?
    requires msg.base <= c.mons[l.to].Lc()
    ensures Delivers(c, w, l, msg, HandleCommit(c.mons[l.to], msg))
  {
    StoreStateRefines(c.mons[l.to], msg.base, msg.log);
    hide P.StoreState, StoreState;
    DoneRefines(c, w, l.to, HandleCommit(c.mons[l.to], msg), P.Step(w, P.Deliver(AbsMsg(l, msg))));
  }

  /** The protocol makes the given step, if any. */
  ghost predicate Follows(w: P.World, es: seq<P.Event>, c': World) {
    if es == [] then Refines(c', w) else |es| == 1 && P.Enabled(w, es[0]) && Refines(c', P.Step(w, es[0]))
  }

  /** What is delivered from the head of a queue is a step of the protocol, or nothing. */
  lemma DispatchRefines(c: World, w: P.World, l: Link)
    requires Orderly(c) && Paced(c) && Refines(c, w) && Enabled(c, Deliver(l, 0, false))
    ensures Follows(w, Shadow(c, Deliver(l, 0, false)), Step(c, Deliver(l, 0, false)))
  {
    hide Orderly, Paced, Refines, Done, P.Enabled, P.Step, Dispatch;
    Taken(c, l);
    var r, c1, m, msg := l.to, Dropped(c, l, 0, 1), c.mons[l.to], c.net[l][0];
    DropRefines(c, w, l, 0, 1);
    var o := DispatchComesTo(c, l);
    if o.Ignored? || Dispatch(r, m, l.from, msg) == Effect(m, Silence) {
      NothingDone(c1, r);
    } else if o.Leaves? {
      AsideRefines(c1, w, r, Dispatch(r, m, l.from, msg).mon);
    } else {
      HandlersRefine(c, c1, w, l, o, Dispatch(r, m, l.from, msg));
    }
  }

  lemma HandlersRefine(c: World, c1: World, w: P.World, l: Link, o: Outcome, effect: Effect)
    requires Orderly(c) && Paced(c) && Refines(c, w) && l in c.net && c.net[l] != [] && l.to in c.mons
    requires effect == Dispatch(l.to, c.mons[l.to], l.from, c.net[l][0]) && effect != Effect(c.mons[l.to], Silence)
    requires ComesTo(c, l, o) && !o.Ignored? && !o.Leaves?
    requires c1 == Dropped(c, l, 0, 1) && Refines(c1, w)
    ensures Delivers(c1, w, l, c.net[l][0], effect) && !effect.mon.standing.Out? && !effect.mon.standing.Crashed?
  {
    hide Orderly, Paced, Refines, Delivers, PairIn, AbsMsg, Dispatch, Learn, NewPn;
    HeadIsSent(c, w, l);
    HeadInPace(c, l);
    var msg := c.net[l][0];
    match o
    case Promises => HandleCollectRefines(c1, w, l, msg);
    case Votes => HandleBeginRefines(c1, w, l, msg);
    case Stores => HandleCommitRefines(c1, w, l, msg);
    case Hears =>
      ReplyIsNew(c, l);
      HandleLastRefines(c, w, l);
    case Counts =>
      VoteIsNew(c, l);
      HandleAcceptRefines(c1, w, l, msg);
  }

  lemma WinRefines(c: World, w: P.World, e: Event)
    requires Refines(c, w) && e.WinElection? && Enabled(c, e)
    ensures Follows(w, Shadow(c, e), Step(c, e))
  {
    SameSizes(c, w);
    hide Refines, Collecting, P.Collecting, P.WithCollect;
    CollectingRefines(c, w, e.r, Outside(c.mons[e.r], Leader).(epoch := e.epoch, quorum := e.quorum), 0);
  }

  lemma ProposeRefines(c: World, w: P.World, e: Event)
    requires Orderly(c) && Refines(c, w) && e.Propose? && Enabled(c, e)
    ensures Follows(w, Shadow(c, e), Step(c, e))
  {
    SoloOf(c, e.r);
    assert w.mons[e.r] == Abs(c.mons[e.r]);
    hide Refines, Beginning, P.Begun, Orderly;
    BeginningRefines(c, w, e.r, c.mons[e.r], e.value);
  }

  /** Every orderly step is a step of the protocol, or nothing. */
  lemma StepRefines(c: World, w: P.World, e: Event)
    requires Orderly(c) && Paced(c) && Refines(c, w) && Enabled(c, e) && Permits(ORDERED, c, e)
    ensures Follows(w, Shadow(c, e), Step(c, e))
  {
    hide Orderly, Paced, Refines, Done, Dropped, Dispatch, Collecting, Beginning, P.Enabled, P.Step;
    match e
    case WinElection(_, _, _) => WinRefines(c, w, e);
    case LoseElection(r, epoch, leader, quorum) =>
      AsideRefines(c, w, r, Outside(c.mons[r], Peon(leader)).(epoch := epoch, quorum := quorum));
    case Bootstrap(r) => AsideRefines(c, w, r, Outside(c.mons[r], Out));
    case Restart(r) => AsideRefines(c, w, r, Restarted(c.mons[r]));
    case Propose(_, _) => ProposeRefines(c, w, e);
    case Deliver(l, _, _) => DispatchRefines(c, w, l);
    case Drop(l, lo, hi) => DropRefines(c, w, l, lo, hi);
  }

  lemma SoloOf(c: World, r: Rank)
    requires Orderly(c) && r in c.mons
    ensures SoloOk(r, c.mons[r])
  {
  }

  // ---------------------------------------------------------------- runs

  lemma StartOrderly(ranks: set<Rank>)
    requires Distinct(ranks)
    ensures Orderly(Start(ranks)) && Paced(Start(ranks)) && Refines(Start(ranks), P.Start(ranks))
  {
  }

  /** The run of the protocol that a run of the monitors amounts to. */
  ghost function Shade(ranks: set<Rank>, run: seq<Event>): seq<P.Event> {
    if run == [] then []
    else
      var c, e := After(ranks, run[..|run| - 1]), run[|run| - 1];
      Shade(ranks, run[..|run| - 1]) + if Enabled(c, e) then Shadow(c, e) else []
  }

  lemma {:induction false} RunRefines(ranks: set<Rank>, run: seq<Event>)
    requires Distinct(ranks) && Legal(ORDERED, ranks, run)
    ensures Orderly(After(ranks, run)) && Paced(After(ranks, run))
    ensures Refines(After(ranks, run), P.After(ranks, Shade(ranks, run)))
    decreases |run|
  {
    hide Orderly, Paced, Refines, Step, Enabled, Shadow, Distinct, P.Enabled, P.Step;
    if run == [] {
      StartOrderly(ranks);
    } else {
      var front, e := run[..|run| - 1], run[|run| - 1];
      RunRefines(ranks, front);
      var c, shade := After(ranks, front), Shade(ranks, front);
      StepOrderly(c, e);
      StepPaced(c, e);
      StepRefines(c, P.After(ranks, shade), e);
      ShadowIsShort(c, e);
      assert (shade + Shadow(c, e))[..|shade|] == shade;
      assert Shadow(c, e) == [] ==> shade + Shadow(c, e) == shade;
    }
  }

  lemma ShadowIsShort(c: World, e: Event)
    requires Enabled(c, e)
    ensures |Shadow(c, e)| <= 1
  {
  }

  /** In every such run a recovering leader's counter is the number of monitors it has heard, and it
      is complete exactly when it has heard its whole quorum. */
  lemma {:induction false} CountsAreSenders(ranks: set<Rank>, run: seq<Event>, r: Rank)
    requires Distinct(ranks) && Legal(ORDERED, ranks, run) && r in After(ranks, run).mons
    requires var m := After(ranks, run).mons[r]; m.standing.Leader? && m.state.Recovering?
    ensures var m := After(ranks, run).mons[r];
            && m.numLast == |m.heard| && m.heard <= m.quorum
            && (m.numLast == |m.quorum| <==> m.heard == m.quorum)
  {
    hide Orderly, Refines, After, Legal;
    RunRefines(ranks, run);
    SoloOf(After(ranks, run), r);
    CountIsSenders(r, After(ranks, run).mons[r]);
  }

  /** In every such run an accept of the leader's number finds the leader updating, comes from a
      member it still waits for, and names the present version: no assertion fails. */
  lemma {:induction false} AcceptsAreNew(ranks: set<Rank>, run: seq<Event>, l: Link)
    requires Distinct(ranks) && Legal(ORDERED, ranks, run)
    requires var c := After(ranks, run);
             && l in c.net && c.net[l] != [] && l.to in c.mons && c.mons[l.to].standing.Leader?
             && IsAccept(c.mons[l.to].acceptedPn, c.net[l][0])
    ensures var (m, msg) := (After(ranks, run).mons[l.to], After(ranks, run).net[l][0]);
            m.state.Updating? && l.from in m.quorum - m.accepted && msg.lc == m.Lc()
  {
    hide Orderly, Refines, After, Legal;
    RunRefines(ranks, run);
    VoteIsNew(After(ranks, run), l);
  }

  /** What the protocol has sent and what it holds do not contradict each other. */
  lemma ChosenLogsAgree(w: P.World, x: seq<Value>, y: seq<Value>)
    requires P.Inv(w) && P.AllChosen(w, x) && P.AllChosen(w, y)
    ensures P.Consistent(x, y)
  {
    forall i | 0 <= i < |x| && i < |y| ensures x[i] == y[i] {
      P.ChosenUnique(w, i + 1, x[i], y[i]);
    }
  }

  /** A log after taking over another that agrees with it holds both. */
  lemma StoredHolds(m: Mon, base: Version, log: seq<Value>)
    requires base <= m.Lc() && P.Consistent(m.log, log)
    ensures var stored := StoreState(m, base, log).log;
            m.log <= stored && log <= stored && (stored == m.log || stored == log)
  {
  }

  lemma SentLogsAgree(w: P.World, msg: P.Msg, r: Rank)
    requires P.Inv(w) && msg in w.net && (msg.Last? || msg.Commit?) && r in w.mons
    ensures P.Consistent(w.mons[r].log, msg.log)
  {
    hide P.Inv, P.RoleOk, P.LeaderOk, P.AllChosen, P.Clear, P.Consistent;
    P.MsgOf(w, msg);
    P.MonOf(w, r);
    ChosenLogsAgree(w, w.mons[r].log, msg.log);
  }

  /** The log in a message at the head of a queue agrees with that of its receiver and starts within it. */
  lemma {:induction false} HeadAgrees(ranks: set<Rank>, run: seq<Event>, l: Link)
    requires Distinct(ranks) && Legal(ORDERED, ranks, run)
    requires var c := After(ranks, run); l in c.net && c.net[l] != [] && (c.net[l][0].Last? || c.net[l][0].Commit?)
    ensures var c := After(ranks, run);
            && l.to in c.mons && l.from != l.to
            && P.Consistent(c.mons[l.to].log, c.net[l][0].log) && c.net[l][0].base <= c.mons[l.to].Lc()
  {
    hide Refines, After, P.After, Legal, P.Inv, P.Grows, Shade, PairIn, PaceIn, Distinct;
    RunRefines(ranks, run);
    var c, w := After(ranks, run), P.After(ranks, Shade(ranks, run));
    P.RunOk(ranks, Shade(ranks, run), 0);
    HeadInPace(c, l);
    HeadIsSent(c, w, l);
    SentLogsAgree(w, AbsMsg(l, c.net[l][0]), l.to);
  }

  /** In every such run a commit that a peon gets from its leader in its own epoch is taken over: its
      log is then the longer of its own and the leader's, and neither contradicts the other. */
  lemma {:induction false} CommitIsTaken(ranks: set<Rank>, run: seq<Event>, l: Link)
    requires Distinct(ranks) && Legal(ORDERED, ranks, run) && Enabled(After(ranks, run), Deliver(l, 0, false))
    requires var c := After(ranks, run);
             c.net[l][0].Commit? && c.net[l][0].epoch == c.mons[l.to].epoch && c.mons[l.to].standing == Peon(l.from)
    ensures var (c, c') := (After(ranks, run), Step(After(ranks, run), Deliver(l, 0, false)));
            var (before, got, log) := (c.mons[l.to].log, c.net[l][0].log, c'.mons[l.to].log);
            before <= log && got <= log && |log| == if |before| < |got| then |got| else |before|
  {
    HeadAgrees(ranks, run, l);
    var c := After(ranks, run);
    StoredHolds(c.mons[l.to], c.net[l][0].base, c.net[l][0].log);
    hide After, Legal, StoreState, P.Consistent;
  }

  /** How far a leader knows a peer to be once it has a reply from `from` with a log of length `lc`. */
  function KnownLc(m: Mon, from: Rank, lc: Version, q: Rank): Option<Version> {
    if q == from then Some(lc) else if q in m.peerLc then Some(m.peerLc[q]) else None
  }

  lemma ReplyTells(c: World, l: Link, q: Rank)
    requires Enabled(c, Deliver(l, 0, false)) && l.from != l.to && Link(l.to, q) in c.net
    requires c.net[l][0].Last? && c.net[l][0].epoch == c.mons[l.to].epoch && c.mons[l.to].standing.Leader?
    ensures var (m, msg, c') := (c.mons[l.to], c.net[l][0], Step(c, Deliver(l, 0, false)));
            var lc := KnownLc(m, l.from, |msg.log|, q);
            && c'.mons[l.to].log == StoreState(m, msg.base, msg.log).log
            && (lc.Some? && lc.value < c'.mons[l.to].Lc() ==>
                  c.net[Link(l.to, q)] + [Commit(m.epoch, lc.value, c'.mons[l.to].log)] <= c'.net[Link(l.to, q)])
  {
    var m, k := Informed(c.mons[l.to], l.from, c.net[l][0]), Link(l.to, q);
    WeighKeepsLog(l.to, m, l.from, c.net[l][0]);
    hide Weigh, NewPn, Learn;
    var more := For(Weigh(l.to, m, l.from, c.net[l][0]).out, q);
    var c', lc := Step(c, Deliver(l, 0, false)), KnownLc(c.mons[l.to], l.from, |c.net[l][0].log|, q);
    if lc.Some? && lc.value < m.Lc() {
      var x := Commit(m.epoch, lc.value, m.log);
      assert For(HandleLast(l.to, c.mons[l.to], l.from, c.net[l][0]).out, q) == [x] + more;
      assert c'.net[k] == c.net[k] + ([x] + more) == c.net[k] + [x] + more;
    }
  }

  /** So is what a reply to its leader has committed, and whoever is known to be behind is told: the
      values it lacks go out ahead of anything else. */
  lemma {:induction false} ReplyIsTaken(ranks: set<Rank>, run: seq<Event>, l: Link, q: Rank)
    requires Distinct(ranks) && Legal(ORDERED, ranks, run) && Enabled(After(ranks, run), Deliver(l, 0, false))
    requires var c := After(ranks, run);
             c.net[l][0].Last? && c.net[l][0].epoch == c.mons[l.to].epoch && c.mons[l.to].standing.Leader?
    requires Link(l.to, q) in After(ranks, run).net
    ensures var (c, c') := (After(ranks, run), Step(After(ranks, run), Deliver(l, 0, false)));
            var (m, got, log) := (c.mons[l.to], c.net[l][0].log, c'.mons[l.to].log);
            var lc := KnownLc(m, l.from, |got|, q);
            && m.log <= log && got <= log && |log| == (if m.Lc() < |got| then |got| else m.Lc())
            && (lc.Some? && lc.value < |log| ==>
                  c.net[Link(l.to, q)] + [Commit(m.epoch, lc.value, log)] <= c'.net[Link(l.to, q)])
  {
    HeadAgrees(ranks, run, l);
    var c := After(ranks, run);
    hide After, Legal, P.Consistent, Step, StoreState, KnownLc;
    StoredHolds(c.mons[l.to], c.net[l][0].base, c.net[l][0].log);
    ReplyTells(c, l, q);
  }

  lemma WeighKeepsLog(r: Rank, m: Mon, from: Rank, msg: Msg)
    requires msg.Last?
    ensures Weigh(r, m, from, msg).mon.log == m.log
  {
    hide NewPn, Learn;
  }

  lemma {:induction false} ShadeOfPrefix(ranks: set<Rank>, run: seq<Event>, k: nat)
    requires k <= |run|
    ensures var (part, all) := (Shade(ranks, run[..k]), Shade(ranks, run)); |part| <= |all| && all[..|part|] == part
    decreases |run|
  {
    if k == |run| {
      assert run[..k] == run;
    } else {
      ShadeOfPrefix(ranks, run[..|run| - 1], k);
      assert run[..|run| - 1][..k] == run[..k];
    }
  }

  lemma {:induction false} LegalPrefix(d: Conduct, ranks: set<Rank>, run: seq<Event>, k: nat)
    requires Legal(d, ranks, run) && k <= |run|
    ensures Legal(d, ranks, run[..k])
    decreases |run|
  {
    if k == |run| {
      assert run[..k] == run;
    } else {
      LegalPrefix(d, ranks, run[..|run| - 1], k);
      assert run[..|run| - 1][..k] == run[..k];
    }
  }

  /** In every run with ordered queues, whatever is lost, whoever is elected, stops or comes back
      with its promises, all that is ever committed by anyone agrees. */
  lemma {:induction false} Agreement(ranks: set<Rank>, run: seq<Event>)
    requires Distinct(ranks) && Legal(ORDERED, ranks, run)
    ensures RunAgrees(ranks, run)
  {
    RunRefines(ranks, run);
    forall k | 0 <= k <= |run| ensures Agree(After(ranks, run[..k]), After(ranks, run)) {
      LegalPrefix(ORDERED, ranks, run, k);
      RunRefines(ranks, run[..k]);
      ShadeOfPrefix(ranks, run, k);
      AgreeAt(ranks, run, k);
    }
  }

  lemma {:induction false} AgreeAt(ranks: set<Rank>, run: seq<Event>, k: nat)
    requires Distinct(ranks) && k <= |run|
    requires Refines(After(ranks, run), P.After(ranks, Shade(ranks, run)))
    requires Refines(After(ranks, run[..k]), P.After(ranks, Shade(ranks, run[..k])))
    requires var (part, all) := (Shade(ranks, run[..k]), Shade(ranks, run)); |part| <= |all| && all[..|part|] == part
    ensures Agree(After(ranks, run[..k]), After(ranks, run))
  {
    hide After, Shade, P.After, Distinct, Agree, HasSent, SameMons, P.Inv, P.Grows;
    var part, all := Shade(ranks, run[..k]), Shade(ranks, run);
    LogsAgreeAt(ranks, all, |part|);
    AgreeVia(ranks, After(ranks, run[..k]), After(ranks, run), P.After(ranks, part), P.After(ranks, all));
  }

  lemma {:induction false} LogsAgreeAt(ranks: set<Rank>, run: seq<P.Event>, k: nat)
    requires Distinct(ranks) && k <= |run|
    ensures var (w, w') := (P.After(ranks, run[..k]), P.After(ranks, run));
            && w.mons.Keys == ranks && w'.mons.Keys == ranks
            && forall a, b :: a in ranks && b in ranks ==> P.Consistent(w.mons[a].log, w'.mons[b].log)
  {
    hide P.After, Distinct, P.Inv, P.Grows;
    var w, w' := P.After(ranks, run[..k]), P.After(ranks, run);
    P.RunOk(ranks, run, 0);
    P.RunOk(ranks, run[..k], 0);
    forall a, b | a in ranks && b in ranks ensures P.Consistent(w.mons[a].log, w'.mons[b].log) {
      P.Agreement(ranks, run, k, a, b);
    }
  }

  lemma AgreeVia(ranks: set<Rank>, early: World, late: World, w: P.World, w': P.World)
    requires SameMons(early, w) && SameMons(late, w') && w.mons.Keys == ranks && w'.mons.Keys == ranks
    requires forall a, b :: a in ranks && b in ranks ==> P.Consistent(w.mons[a].log, w'.mons[b].log)
    ensures Agree(early, late)
  {
    forall a, b | a in early.mons && b in late.mons ensures P.Consistent(early.mons[a].log, late.mons[b].log) {
      assert w.mons[a] == Abs(early.mons[a]) && w'.mons[b] == Abs(late.mons[b]);
      assert P.Consistent(w.mons[a].log, w'.mons[b].log);
    }
    hide SameMons;
  }
}
