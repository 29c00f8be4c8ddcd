/** The monitors as they are coded: the handlers of `Paxos` with their counters, tolerances and
    assertions, the election-epoch filter in front of them, what is on disk and what is not, and one
    queue of messages per link.  `heard` is history: no handler reads it. */
module MonCluster {
  import opened MonNumbers
  import opened Options

  /** `Out` is outside the quorum: probing or electing.  `Crashed` has failed an assertion. */
  datatype Standing = Out | Crashed | Peon(leader: Rank) | Leader

  datatype State = Recovering | Active | Updating

  /** The first five fields are on disk.  Version `v` of the log is `log[v - 1]`, so `last_committed`
      is its length; `diskPn` is the `accepted_pn` that a restart would load. */
  datatype Mon = Mon(
    log: seq<Value>, pending: Option<Accepted>, diskPn: Pn, lastPn: Pn, epoch: nat,
    acceptedPn: Pn, standing: Standing, state: State, quorum: set<Rank>,
    numLast: nat, peerLc: map<Rank, Version>, uncommitted: Option<Uncommitted>,
    accepted: set<Rank>, newValue: Option<Value>,
    heard: set<Rank>)
  {
    function Lc(): nat { |log| }
  }

  /** `Last` and `Commit` carry the values of the versions above `base`, which are `log[base..]`, and
      the length of the log; what is below `base` is history: no handler reads it. */
  datatype Msg =
    | Collect(epoch: nat, pn: Pn, lc: Version)
    | Last(epoch: nat, pn: Pn, base: Version, log: seq<Value>, uncommitted: Option<Accepted>)
    | Begin(epoch: nat, pn: Pn, lc: Version, value: Value)
    | Accept(epoch: nat, pn: Pn, lc: Version)
    | Commit(epoch: nat, base: Version, log: seq<Value>)

  /** Messages to peers: none, one, one to all of a quorum but the sender, what each peer that is
      behind lacks, or some messages and then others. */
  datatype Post =
    | Silence
    | Reply(to: Rank, msg: Msg)
    | Ask(r: Rank, quorum: set<Rank>, msg: Msg)
    | Tell(epoch: nat, peerLc: map<Rank, Version>, log: seq<Value>)
    | Both(first: Post, second: Post)

  /** What peer `q` is sent, in order. */
  function For(out: Post, q: Rank): seq<Msg> {
    match out
    case Silence => []
    case Reply(to, msg) => if q == to then [msg] else []
    case Ask(r, quorum, msg) => if q in quorum && q != r then [msg] else []
    case Tell(epoch, peerLc, log) =>
      if q in peerLc && peerLc[q] < |log| then [Commit(epoch, peerLc[q], log)] else []
    case Both(first, second) => For(first, q) + For(second, q)
  }

  /** What a handler leaves behind: the monitor, and messages to its peers. */
  datatype Effect = Effect(mon: Mon, out: Post)

  datatype Link = Link(from: Rank, to: Rank)

  datatype World = World(mons: map<Rank, Mon>, net: map<Link, seq<Msg>>)

  // ---------------------------------------------------------------- the handlers of one monitor

  /** Some messages go out ahead of what an effect sends. */
  function Ahead(first: Post, effect: Effect): Effect {
    Effect(effect.mon, Both(first, effect.out))
  }

  /** A failed assertion ends the process. */
  function Crash(m: Mon): Effect {
    Effect(Outside(m, Crashed), Silence)
  }

  /** `restart`: outside a quorum nothing is in progress. */
  function Outside(m: Mon, standing: Standing): Mon {
    m.(standing := standing, state := Recovering, newValue := None)
  }

  /** `collect`. */
  function Collecting(r: Rank, m: Mon, oldPn: Pn): Effect {
    var pn := NewPn(m.lastPn, if oldPn > m.acceptedPn then oldPn else m.acceptedPn, r);
    var mine := if m.pending.Some?
                then Some(Uncommitted(m.Lc() + 1, m.pending.value.pn, m.pending.value.value)) else None;
    Effect(m.(state := Recovering, uncommitted := mine, acceptedPn := pn, lastPn := pn,
               numLast := 1, peerLc := map[], heard := {r}),
           Ask(r, m.quorum, Collect(m.epoch, pn, m.Lc())))
  }

  /** `begin`; it asserts that no value is being proposed already. */
  function Beginning(r: Rank, m: Mon, value: Value): Effect {
    if m.newValue.Some? then Crash(m)
    else
      Effect(m.(state := Updating, accepted := {r}, newValue := Some(value),
                pending := Some(Accepted(m.acceptedPn, value))),
             Ask(r, m.quorum, Begin(m.epoch, m.acceptedPn, m.Lc(), value)))
  }

  /** `store_state`; values that start too far ahead are ignored. */
  function StoreState(m: Mon, base: Version, log: seq<Value>): Mon {
    if |log| <= m.Lc() || base > m.Lc() then m
    else
      var unc := if m.uncommitted.Some? && m.uncommitted.value.v <= |log| then None else m.uncommitted;
      m.(log := m.log + log[m.Lc()..], pending := None, uncommitted := unc)
  }

  /** The uncommitted value a leader keeps after an accepted reply. */
  function Learn(m: Mon, last: Msg): Option<Uncommitted>
    requires last.Last?
  {
    var unc := m.uncommitted;
    if last.uncommitted.Some? &&
       (unc.None? || (last.uncommitted.value.pn >= unc.value.pn && |last.log| + 1 >= unc.value.v)) &&
       |last.log| >= m.Lc()
    then Some(Uncommitted(|last.log| + 1, last.uncommitted.value.pn, last.uncommitted.value.value))
    else unc
  }

  function HandleCollect(m: Mon, from: Rank, msg: Msg): Effect
    requires msg.Collect?
  {
    if !m.standing.Peon? then Crash(m)
    else
      var ok := msg.pn > m.acceptedPn;
      var m' := m.(state := Recovering, acceptedPn := if ok then msg.pn else m.acceptedPn,
                   diskPn := if ok then msg.pn else m.diskPn);
      var base := if msg.lc < m.Lc() then msg.lc else m.Lc();
      Effect(m', Reply(from, Last(m.epoch, m'.acceptedPn, base, m.log, if msg.lc <= m.Lc() then m.pending else None)))
  }

  /** Replies are counted, whoever sent them. */
  function Count(m: Mon, from: Rank, msg: Msg): Mon
    requires msg.Last?
  {
    m.(numLast := m.numLast + 1, heard := m.heard + {from}, uncommitted := Learn(m, msg))
  }

  /** Peers that are behind are sent what they lack. */
  function Telling(m: Mon): Post {
    Tell(m.epoch, m.peerLc, m.log)
  }

  /** Note how far the sender is, and take over what it has committed. */
  function Informed(m: Mon, from: Rank, msg: Msg): Mon
    requires msg.Last?
  {
    StoreState(m.(peerLc := m.peerLc[from := |msg.log|]), msg.base, msg.log)
  }

  function HandleLast(r: Rank, m: Mon, from: Rank, msg: Msg): Effect
    requires msg.Last?
  {
    if !m.standing.Leader? then Effect(m, Silence)
    else
      var m1 := Informed(m, from, msg);
      Ahead(Telling(m1), Weigh(r, m1, from, msg))
  }

  /** Does the sender accept our number, and is that everyone? */
  function Weigh(r: Rank, m: Mon, from: Rank, msg: Msg): Effect
    requires msg.Last?
  {
    if msg.pn > m.acceptedPn then Collecting(r, m, msg.pn)
    else if msg.pn < m.acceptedPn then Effect(m, Silence)
    else
      var counted := Count(m, from, msg);
      if counted.numLast != |counted.quorum| then Effect(counted, Silence)
      else Settled(r, counted.(peerLc := map[]))
  }

  /** That's everyone: begin on the value learned, or be active. */
  function Settled(r: Rank, m: Mon): Effect {
    if m.uncommitted.Some? && m.uncommitted.value.v == m.Lc() + 1 then Beginning(r, m, m.uncommitted.value.value)
    else Effect(m.(state := Active), Silence)
  }

  function HandleBegin(m: Mon, from: Rank, msg: Msg): Effect
    requires msg.Begin?
  {
    if msg.pn < m.acceptedPn then Effect(m, Silence)
    else if msg.pn > m.acceptedPn || msg.lc != m.Lc() then Crash(m)
    else
      Effect(m.(state := Updating, pending := Some(Accepted(msg.pn, msg.value))),
             Reply(from, Accept(m.epoch, msg.pn, m.Lc())))
  }

  /** An accept may name the present version or the one before. */
  function HandleAccept(r: Rank, m: Mon, from: Rank, msg: Msg): Effect
    requires msg.Accept?
  {
    if msg.pn != m.acceptedPn || msg.lc + 1 < m.Lc() then Effect(m, Silence)
    else if msg.lc > m.Lc() || !m.state.Updating? || from in m.accepted || m.newValue.None? then Crash(m)
    else if m.accepted + {from} != m.quorum then Effect(m.(accepted := m.accepted + {from}), Silence)
    else
      var log := m.log + [m.newValue.value];
      Effect(m.(accepted := m.quorum, log := log, pending := None, state := Active, newValue := None),
             Ask(r, m.quorum, Commit(m.epoch, m.Lc(), log)))
  }

  function HandleCommit(m: Mon, msg: Msg): Effect
    requires msg.Commit?
  {
    if !m.standing.Peon? then Crash(m) else Effect(StoreState(m, msg.base, msg.log), Silence)
  }

  /** Messages of another epoch never reach the handlers, and a peon listens to its leader only. */
  function Dispatch(r: Rank, m: Mon, from: Rank, msg: Msg): Effect {
    if m.standing.Crashed? then Effect(m, Silence)
    else if msg.epoch > m.epoch then Effect(Outside(m, Out), Silence)
    else if msg.epoch < m.epoch || m.standing.Out? then Effect(m, Silence)
    else if m.standing.Peon? && m.standing.leader != from then Crash(m)
    else
      match msg
      case Collect(_, _, _) => HandleCollect(m, from, msg)
      case Last(_, _, _, _, _) => HandleLast(r, m, from, msg)
      case Begin(_, _, _, _) => HandleBegin(m, from, msg)
      case Accept(_, _, _) => HandleAccept(r, m, from, msg)
      case Commit(_, _, _) => HandleCommit(m, msg)
  }

  // ---------------------------------------------------------------- steps

  /** Elections are won and lost in any order, by anyone with a majority, in ever higher epochs.
      A message may be delivered from any place in its queue, and stay there; any stretch of a queue
      may be lost. */
  datatype Event =
    | WinElection(r: Rank, epoch: nat, quorum: set<Rank>)
    | LoseElection(r: Rank, epoch: nat, leader: Rank, quorum: set<Rank>)
    | Bootstrap(r: Rank)
    | Restart(r: Rank)
    | Propose(r: Rank, value: Value)
    | Deliver(link: Link, i: nat, keep: bool)
    | Drop(link: Link, lo: nat, hi: nat)

  predicate Enabled(c: World, e: Event) {
    match e
    case WinElection(r, epoch, quorum) =>
      && r in c.mons && !c.mons[r].standing.Crashed? && epoch > c.mons[r].epoch
      && r in quorum && quorum <= c.mons.Keys && 2 * |quorum| > |c.mons|
    case LoseElection(r, epoch, leader, _) =>
      r in c.mons && !c.mons[r].standing.Crashed? && epoch > c.mons[r].epoch && leader != r
    case Bootstrap(r) => r in c.mons && !c.mons[r].standing.Crashed?
    case Restart(r) => r in c.mons
    case Propose(r, _) => r in c.mons && c.mons[r].standing.Leader? && c.mons[r].state.Active?
    case Deliver(l, i, _) => l in c.net && i < |c.net[l]| && l.to in c.mons
    case Drop(l, lo, hi) => l in c.net && lo <= hi <= |c.net[l]|
  }

  function Queued(s: seq<Msg>, more: seq<Msg>): seq<Msg> {
    if more == [] then s else s + more
  }

  function Sent(net: map<Link, seq<Msg>>, r: Rank, out: Post): map<Link, seq<Msg>> {
    map l | l in net :: if l.from == r then Queued(net[l], For(out, l.to)) else net[l]
  }

  function Done(c: World, r: Rank, effect: Effect): World {
    World(c.mons[r := effect.mon], Sent(c.net, r, effect.out))
  }

  function Dropped(c: World, l: Link, lo: nat, hi: nat): World
    requires l in c.net && lo <= hi <= |c.net[l]|
  {
    c.(net := c.net[l := c.net[l][..lo] + c.net[l][hi..]])
  }

  /** A restarted process knows what is on disk. */
  function Restarted(m: Mon): Mon {
    Outside(m, Out).(acceptedPn := m.diskPn, uncommitted := None, numLast := 0,
                           peerLc := map[], accepted := {}, heard := {})
  }

  /** What an event other than a loss does to its monitor. */
  function EffectOf(c: World, e: Event): Effect
    requires Enabled(c, e) && !e.Drop?
  {
    match e
    case WinElection(r, epoch, quorum) =>
      Collecting(r, Outside(c.mons[r], Leader).(epoch := epoch, quorum := quorum), 0)
    case LoseElection(r, epoch, leader, quorum) =>
      Effect(Outside(c.mons[r], Peon(leader)).(epoch := epoch, quorum := quorum), Silence)
    case Bootstrap(r) => Effect(Outside(c.mons[r], Out), Silence)
    case Restart(r) => Effect(Restarted(c.mons[r]), Silence)
    case Propose(r, value) => Beginning(r, c.mons[r], value)
    case Deliver(l, i, _) => Dispatch(l.to, c.mons[l.to], l.from, c.net[l][i])
  }

  function Actor(e: Event): Rank
    requires !e.Drop?
  {
    if e.Deliver? then e.link.to else e.r
  }

  function Step(c: World, e: Event): World
    requires Enabled(c, e)
  {
    match e
    case Drop(l, lo, hi) => Dropped(c, l, lo, hi)
    case Deliver(l, i, keep) => Done(if keep then c else Dropped(c, l, i, i + 1), l.to, EffectOf(c, e))
    case _ => Done(c, Actor(e), EffectOf(c, e))
  }

  // ---------------------------------------------------------------- runs

  /** What the surroundings may do: deliver a message twice, deliver it ahead of an older one on its
      link, restart a monitor whose disk has not kept its last promise. */
  datatype Conduct = Conduct(repeats: bool, reorders: bool, forgets: bool)

  predicate Permits(d: Conduct, c: World, e: Event)
    requires Enabled(c, e)
  {
    match e
    case Deliver(_, i, keep) => (keep ==> d.repeats) && (i > 0 ==> d.reorders)
    case Restart(r) => c.mons[r].diskPn != c.mons[r].acceptedPn ==> d.forgets
    case _ => true
  }

  /** All monitors start empty and outside any quorum. */
  ghost function Start(ranks: set<Rank>): World {
    World(map r | r in ranks :: Mon([], None, 0, 0, 0, 0, Out, Recovering, {}, 0, map[], None, {}, None, {}),
          map a, b | a in ranks && b in ranks && a != b :: Link(a, b) := [])
  }

  /** The world after a sequence of events; an event that is not possible changes nothing. */
  ghost function After(ranks: set<Rank>, run: seq<Event>): World {
    if run == [] then Start(ranks)
    else
      var c, e := After(ranks, run[..|run| - 1]), run[|run| - 1];
      if Enabled(c, e) then Step(c, e) else c
  }

  ghost predicate Legal(d: Conduct, ranks: set<Rank>, run: seq<Event>) {
    run == [] ||
    (var c, e := After(ranks, run[..|run| - 1]), run[|run| - 1];
     Legal(d, ranks, run[..|run| - 1]) && Enabled(c, e) && Permits(d, c, e))
  }

  /** What `a` has committed by the time `k` and what `b` has committed in the end agree. */
  ghost predicate Agree(early: World, late: World) {
    forall a, b, i :: a in early.mons && b in late.mons && 0 <= i < early.mons[a].Lc() && i < late.mons[b].Lc() ==>
      early.mons[a].log[i] == late.mons[b].log[i]
  }

  /** All that was ever committed in the run agrees. */
  ghost predicate RunAgrees(ranks: set<Rank>, run: seq<Event>) {
    forall k :: 0 <= k <= |run| ==> Agree(After(ranks, run[..k]), After(ranks, run))
  }
}
