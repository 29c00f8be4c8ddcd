/** The OSD thrasher: four lists of OSD numbers, a weighted choice among guarded actions, and the
    main loop.  Random choices from a list are any choice; coin flips and draws are inputs. */
module Thrasher {
  import opened Options
  import W = WeightedChoice

  type Osd = nat

  /** `list.remove(x)`. */
  function Without(s: seq<Osd>, x: Osd): seq<Osd>
    requires x in s
  {
    if s[0] == x then s[1..] else [s[0]] + Without(s[1..], x)
  }

  lemma {:induction false} WithoutOne(s: seq<Osd>, x: Osd)
    requires x in s
    ensures multiset(Without(s, x)) == multiset(s) - multiset{x}
    ensures |Without(s, x)| == |s| - 1
  {
    assert s == [s[0]] + s[1..];
    if s[0] != x {
      WithoutOne(s[1..], x);
    }
  }

  /** It is the first one that goes, and the others keep their order. */
  lemma {:induction false} WithoutFirst(s: seq<Osd>, x: Osd, i: nat)
    requires i < |s| && s[i] == x && x !in s[..i]
    ensures Without(s, x) == s[..i] + s[i + 1..]
  {
    if i > 0 {
      assert s[0] == s[..i][0] && s[1..][..i - 1] == s[..i][1..];
      WithoutFirst(s[1..], x, i - 1);
      assert s[..i] == [s[0]] + s[1..][..i - 1] && s[1..][i..] == s[i + 1..];
    }
  }

  /** `random.choice(s)`: any element, and an error on the empty list. */
  method Pick(s: seq<Osd>) returns (x: Osd)
    requires s != []
    ensures x in s
  {
    var i :| 0 <= i < |s|;
    x := s[i];
  }

  /** The two lists together hold every element of `all` exactly once. */
  ghost predicate Splits(s: seq<Osd>, t: seq<Osd>, all: set<Osd>) {
    multiset(s) + multiset(t) == multiset(all)
  }

  /** A split in plain terms: no list repeats an element, the two are disjoint, together they are
      all of `all`. */
  lemma SplitMeans(s: seq<Osd>, t: seq<Osd>, all: set<Osd>)
    requires Splits(s, t, all)
    ensures forall i, j :: 0 <= i < j < |s| ==> s[i] != s[j]
    ensures forall i, j :: 0 <= i < j < |t| ==> t[i] != t[j]
    ensures forall x :: x in all <==> x in s || x in t
    ensures forall x :: !(x in s && x in t)
    ensures |s| + |t| == |all|
  {
    forall x ensures x in all <==> x in s || x in t ensures !(x in s && x in t) {
      assert (multiset(s) + multiset(t))[x] == multiset(all)[x];
      assert x in s <==> x in multiset(s);
      assert x in t <==> x in multiset(t);
    }
    assert |multiset(s) + multiset(t)| == |multiset(all)|;
    NoRepeat(s, multiset(t), all);
    NoRepeat(t, multiset(s), all);
  }

  lemma NoRepeat(s: seq<Osd>, rest: multiset<Osd>, all: set<Osd>)
    requires multiset(s) + rest == multiset(all)
    ensures forall i, j :: 0 <= i < j < |s| ==> s[i] != s[j]
  {
    forall i, j | 0 <= i < j < |s| ensures s[i] != s[j] {
      assert s == s[..i] + [s[i]] + s[i + 1..j] + [s[j]] + s[j + 1..];
      assert (multiset(s) + rest)[s[i]] == multiset(all)[s[i]] <= 1;
    }
  }

  // ---------------------------------------------------------------- choosing an action

  datatype Action =
    | OutOsd | KillOsd | RmPastIntervals | InOsd | ReviveOsd | PrimaryAffinity | Reweight
    | GrowPool | FixPgpNum | TestPoolMinSize | TestBackfillFull
    | ThrashClusterFull | ThrashPgUpmap | ThrashPgUpmapItems | InjectPause(long: bool)

  datatype Chance = Percent(p: nat) | Fraction(f: real) {
    function Value(): real {
      match this case Percent(p) => p as real / 100.0 case Fraction(f) => f
    }
  }

  lemma ChanceIs(p: nat, f: real)
    ensures Percent(p).Value() * 100.0 == p as real && Fraction(f).Value() == f
  {
  }

  datatype Config = Config(
    minIn: nat, minOut: nat, minLive: nat, minDead: nat, maxDead: nat,
    chanceDown: Chance, thrashPrimaryAffinity: bool, reweightOsd: real,
    chancePgnumGrow: real, chancePgpnumFix: real, chanceTestMinSize: real, chanceTestBackfillFull: real,
    chanceThrashClusterFull: real, chanceThrashPgUpmap: real, chanceThrashPgUpmapItems: real,
    chanceInjectPauseShort: real, chanceInjectPauseLong: real)
  {
    predicate NonNegative() {
      && chanceDown.Value() >= 0.0 && reweightOsd >= 0.0 && chancePgnumGrow >= 0.0 && chancePgpnumFix >= 0.0
      && chanceTestMinSize >= 0.0 && chanceTestBackfillFull >= 0.0 && chanceThrashClusterFull >= 0.0
      && chanceThrashPgUpmap >= 0.0 && chanceThrashPgUpmapItems >= 0.0
      && chanceInjectPauseShort >= 0.0 && chanceInjectPauseLong >= 0.0
    }
  }

  datatype Entry = Entry(guard: bool, action: Action, weight: real)

  /** Every action `choose_action` knows, in order, with the guard under which it is appended. */
  function Table(c: Config, ins: nat, outs: nat, live: nat, dead: nat): seq<Entry> {
    [ Entry(ins > c.minIn, OutOsd, 1.0),
      Entry(live > c.minLive && c.chanceDown.Value() > 0.0, KillOsd, c.chanceDown.Value()),
      Entry(dead > 1, RmPastIntervals, 1.0),
      Entry(outs > c.minOut, InOsd, 1.7),
      Entry(dead > c.minDead, ReviveOsd, 1.0),
      Entry(c.thrashPrimaryAffinity, PrimaryAffinity, 1.0),
      Entry(true, Reweight, c.reweightOsd),
      Entry(true, GrowPool, c.chancePgnumGrow),
      Entry(true, FixPgpNum, c.chancePgpnumFix),
      Entry(true, TestPoolMinSize, c.chanceTestMinSize),
      Entry(true, TestBackfillFull, c.chanceTestBackfillFull),
      Entry(c.chanceThrashClusterFull > 0.0, ThrashClusterFull, c.chanceThrashClusterFull),
      Entry(c.chanceThrashPgUpmap > 0.0, ThrashPgUpmap, c.chanceThrashPgUpmap),
      Entry(c.chanceThrashPgUpmapItems > 0.0, ThrashPgUpmapItems, c.chanceThrashPgUpmapItems),
      Entry(true, InjectPause(false), c.chanceInjectPauseShort),
      Entry(true, InjectPause(true), c.chanceInjectPauseLong),
      Entry(true, InjectPause(false), c.chanceInjectPauseShort),
      Entry(true, InjectPause(true), c.chanceInjectPauseLong) ]
  }

  function Kept(t: seq<Entry>): seq<(Action, real)> {
    if t == [] then []
    else
      var last := t[|t| - 1];
      Kept(t[..|t| - 1]) + if last.guard then [(last.action, last.weight)] else []
  }

  /** The guarded action list of `choose_action`, for lists of the given lengths. */
  function Actions(c: Config, ins: nat, outs: nat, live: nat, dead: nat): seq<(Action, real)> {
    Kept(Table(c, ins, outs, live, dead))
  }

  /** How many of the first `j` rows are open. */
  function Open(t: seq<Entry>, j: nat): nat
    requires j <= |t|
  {
    if j == 0 then 0 else Open(t, j - 1) + if t[j - 1].guard then 1 else 0
  }

  /** The total weight of the open ones among the first `j` rows. */
  function Span(t: seq<Entry>, j: nat): real
    requires j <= |t|
  {
    if j == 0 then 0.0 else Span(t, j - 1) + if t[j - 1].guard then t[j - 1].weight else 0.0
  }

  lemma {:induction false} SpanOfPrefix(t: seq<Entry>, n: nat, j: nat)
    requires j <= n <= |t|
    ensures Open(t[..n], j) == Open(t, j) && Span(t[..n], j) == Span(t, j)
  {
    if j > 0 {
      SpanOfPrefix(t, n, j - 1);
    }
  }

  lemma {:induction false} PrefixOfFront(s: seq<(Action, real)>, more: seq<(Action, real)>, k: nat)
    requires k <= |s|
    ensures W.Prefix(s + more, k) == W.Prefix(s, k)
  {
    if k > 0 {
      PrefixOfFront(s, more, k - 1);
    }
  }

  /** Every open row is listed with its action and weight, in the order of the table, and starts where
      the open rows before it end; nothing else is listed. */
  lemma {:induction false} KeptIsOpen(t: seq<Entry>, j: nat)
    requires j <= |t|
    ensures |Kept(t)| == Open(t, |t|) && Open(t, j) <= |Kept(t)|
    ensures W.Prefix(Kept(t), Open(t, j)) == Span(t, j)
    ensures j < |t| && t[j].guard ==> Open(t, j) < |Kept(t)| && Kept(t)[Open(t, j)] == (t[j].action, t[j].weight)
    decreases |t|, j
  {
    if t != [] {
      var front := t[..|t| - 1];
      var more := if t[|t| - 1].guard then [(t[|t| - 1].action, t[|t| - 1].weight)] else [];
      SpanOfPrefix(t, |t| - 1, if j == |t| then |t| - 1 else j);
      SpanOfPrefix(t, |t| - 1, |t| - 1);
      KeptIsOpen(front, if j == |t| then |t| - 1 else j);
      PrefixOfFront(Kept(front), more, Open(t, if j == |t| then |t| - 1 else j));
    }
  }

  /** Every entry of the list is an open row. */
  lemma {:induction false} ListedIsOpen(t: seq<Entry>, n: nat, k: nat) returns (j: nat)
    requires n <= |t| && k < Open(t, n)
    ensures j < n && t[j].guard && Open(t, j) == k
  {
    if k == Open(t, n - 1) {
      j := n - 1;
    } else {
      j := ListedIsOpen(t, n - 1, k);
    }
  }

  /** What the lists must look like for an action to be taken. */
  predicate Guard(c: Config, a: Action, ins: nat, outs: nat, live: nat, dead: nat) {
    match a
    case OutOsd => ins > c.minIn
    case KillOsd => live > c.minLive
    case RmPastIntervals => dead > 1
    case InOsd => outs > c.minOut
    case ReviveOsd => dead > c.minDead
    case TestPoolMinSize => c.chanceTestMinSize > 0.0
    case _ => true
  }

  lemma ListedIsGuarded(c: Config, ins: nat, outs: nat, live: nat, dead: nat, k: nat)
    requires c.NonNegative() && k < |Actions(c, ins, outs, live, dead)|
    ensures var (a, w) := Actions(c, ins, outs, live, dead)[k];
            w >= 0.0 && (w > 0.0 ==> Guard(c, a, ins, outs, live, dead))
  {
    var t := Table(c, ins, outs, live, dead);
    KeptIsOpen(t, |t|);
    var j := ListedIsOpen(t, |t|, k);
    KeptIsOpen(t, j);
    hide Kept, Open, Span;
  }

  /** The draw falls into the interval of an open row, which is as long as its weight and starts where
      the open rows before it end. */
  predicate Owned(t: seq<Entry>, j: nat, draw: real) {
    j < |t| && t[j].guard && Span(t, j) <= draw < Span(t, j) + t[j].weight
  }

  /** The draw falls into the interval of a row with this action. */
  ghost predicate Drawn(c: Config, a: Action, ins: nat, outs: nat, live: nat, dead: nat, draw: real) {
    var t := Table(c, ins, outs, live, dead);
    exists j: nat :: Owned(t, j, draw) && t[j].action == a
  }

  function If(guard: bool, weight: real): real {
    if guard then weight else 0.0
  }

  /** Where the intervals of the actions that change the lists are, and that of `rm_past_intervals`
      between them. */
  lemma MoversDrawn(c: Config, ins: nat, outs: nat, live: nat, dead: nat, draw: real)
    requires c.NonNegative() && 0.0 <= draw
    ensures var down := c.chanceDown.Value();
            var kill := If(ins > c.minIn, 1.0);
            var rm := kill + If(live > c.minLive && down > 0.0, down);
            var come := rm + If(dead > 1, 1.0);
            var revive := come + If(outs > c.minOut, 1.7);
            && (Drawn(c, OutOsd, ins, outs, live, dead, draw) <==> ins > c.minIn && draw < 1.0)
            && (Drawn(c, KillOsd, ins, outs, live, dead, draw) <==>
                  live > c.minLive && down > 0.0 && kill <= draw < kill + down)
            && (Drawn(c, RmPastIntervals, ins, outs, live, dead, draw) <==> dead > 1 && rm <= draw < rm + 1.0)
            && (Drawn(c, InOsd, ins, outs, live, dead, draw) <==> outs > c.minOut && come <= draw < come + 1.7)
            && (Drawn(c, ReviveOsd, ins, outs, live, dead, draw) <==> dead > c.minDead && revive <= draw < revive + 1.0)
  {
    hide Table, Span, Drawn;
    var t := Table(c, ins, outs, live, dead);
    FirstRows(c, ins, outs, live, dead);
    FirstSpans(t);
    RowDrawn(c, ins, outs, live, dead, 0, draw);
    RowDrawn(c, ins, outs, live, dead, 1, draw);
    RowDrawn(c, ins, outs, live, dead, 2, draw);
    RowDrawn(c, ins, outs, live, dead, 3, draw);
    RowDrawn(c, ins, outs, live, dead, 4, draw);
  }

  lemma FirstRows(c: Config, ins: nat, outs: nat, live: nat, dead: nat)
    ensures var (t, down) := (Table(c, ins, outs, live, dead), c.chanceDown.Value());
            && |t| == 18 && t[0] == Entry(ins > c.minIn, OutOsd, 1.0)
            && t[1] == Entry(live > c.minLive && down > 0.0, KillOsd, down)
            && t[2] == Entry(dead > 1, RmPastIntervals, 1.0) && t[3] == Entry(outs > c.minOut, InOsd, 1.7)
            && t[4] == Entry(dead > c.minDead, ReviveOsd, 1.0)
  {
  }

  lemma RowDrawn(c: Config, ins: nat, outs: nat, live: nat, dead: nat, j: nat, draw: real)
    requires j < 5
    ensures var t := Table(c, ins, outs, live, dead);
            |t| == 18 && (Drawn(c, t[j].action, ins, outs, live, dead, draw) <==> Owned(t, j, draw))
  {
    OnlyRow(c, ins, outs, live, dead, j);
    hide Table, Span;
  }

  lemma {:induction false} FirstSpans(t: seq<Entry>)
    requires |t| >= 4
    ensures Span(t, 0) == 0.0 && Span(t, 1) == If(t[0].guard, t[0].weight)
    ensures Span(t, 2) == Span(t, 1) + If(t[1].guard, t[1].weight)
    ensures Span(t, 3) == Span(t, 2) + If(t[2].guard, t[2].weight)
    ensures Span(t, 4) == Span(t, 3) + If(t[3].guard, t[3].weight)
  {
  }

  /** The first five rows are the only ones with their actions. */
  lemma OnlyRow(c: Config, ins: nat, outs: nat, live: nat, dead: nat, j: nat)
    requires j < 5
    ensures var t := Table(c, ins, outs, live, dead);
            |t| == 18 && forall i :: 0 <= i < |t| && t[i].action == t[j].action ==> i == j
  {
  }

  /** The total, in the order of the source. */
  lemma TotalIs(c: Config, ins: nat, outs: nat, live: nat, dead: nat)
    ensures var (t, down) := (Table(c, ins, outs, live, dead), c.chanceDown.Value());
            Span(t, |t|) ==
              If(ins > c.minIn, 1.0) + If(live > c.minLive && down > 0.0, down) + If(dead > 1, 1.0)
              + If(outs > c.minOut, 1.7) + If(dead > c.minDead, 1.0) + If(c.thrashPrimaryAffinity, 1.0)
              + c.reweightOsd + c.chancePgnumGrow + c.chancePgpnumFix + c.chanceTestMinSize + c.chanceTestBackfillFull
              + If(c.chanceThrashClusterFull > 0.0, c.chanceThrashClusterFull)
              + If(c.chanceThrashPgUpmap > 0.0, c.chanceThrashPgUpmap)
              + If(c.chanceThrashPgUpmapItems > 0.0, c.chanceThrashPgUpmapItems)
              + 2.0 * (c.chanceInjectPauseShort + c.chanceInjectPauseLong)
  {
    var t := Table(c, ins, outs, live, dead);
    FirstSpans(t);
    hide Drawn;
    assert Span(t, 5) == Span(t, 4) + If(dead > c.minDead, 1.0);
    assert Span(t, 6) == Span(t, 5) + If(c.thrashPrimaryAffinity, 1.0);
    assert Span(t, 7) == Span(t, 6) + c.reweightOsd;
    assert Span(t, 8) == Span(t, 7) + c.chancePgnumGrow;
    assert Span(t, 9) == Span(t, 8) + c.chancePgpnumFix;
    assert Span(t, 10) == Span(t, 9) + c.chanceTestMinSize;
    assert Span(t, 11) == Span(t, 10) + c.chanceTestBackfillFull;
    assert Span(t, 12) == Span(t, 11) + If(c.chanceThrashClusterFull > 0.0, c.chanceThrashClusterFull);
    assert Span(t, 13) == Span(t, 12) + If(c.chanceThrashPgUpmap > 0.0, c.chanceThrashPgUpmap);
    assert Span(t, 14) == Span(t, 13) + If(c.chanceThrashPgUpmapItems > 0.0, c.chanceThrashPgUpmapItems);
    assert Span(t, 15) == Span(t, 14) + c.chanceInjectPauseShort;
    assert Span(t, 16) == Span(t, 15) + c.chanceInjectPauseLong;
    assert Span(t, 17) == Span(t, 16) + c.chanceInjectPauseShort;
    assert Span(t, 18) == Span(t, 17) + c.chanceInjectPauseLong;
  }

  /** A draw below the total falls to one row only. */
  lemma RowUnique(t: seq<Entry>, i: nat, j: nat, draw: real)
    requires forall k :: 0 <= k < |t| ==> t[k].weight >= 0.0
    requires Owned(t, i, draw) && Owned(t, j, draw)
    ensures i == j
  {
    if i < j {
      SpanGrows(t, i + 1, j);
    } else if j < i {
      SpanGrows(t, j + 1, i);
    }
  }

  lemma {:induction false} SpanGrows(t: seq<Entry>, i: nat, j: nat)
    requires (forall k :: 0 <= k < |t| ==> t[k].weight >= 0.0) && i <= j <= |t|
    ensures Span(t, i) <= Span(t, j)
  {
    if i < j {
      SpanGrows(t, i, j - 1);
    }
  }

  /** Whatever the draw, the action taken is the one whose row it falls to, and satisfies its guard; an
      action of weight zero, such as `test_pool_min_size` by default, is never taken. */
  method ChooseAction(c: Config, ins: nat, outs: nat, live: nat, dead: nat, draw: real) returns (a: Option<Action>)
    requires c.NonNegative() && 0.0 <= draw
    ensures a.Some? ==> Guard(c, a.value, ins, outs, live, dead) && Drawn(c, a.value, ins, outs, live, dead, draw)
    ensures var t := Table(c, ins, outs, live, dead); a.None? <==> Span(t, |t|) <= draw
  {
    ghost var t := Table(c, ins, outs, live, dead);
    var actions := Actions(c, ins, outs, live, dead);
    KeptIsOpen(t, |t|);
    forall k | 0 <= k < |actions| ensures actions[k].1 >= 0.0 {
      ListedIsGuarded(c, ins, outs, live, dead, k);
    }
    hide Kept, Open, Span, Table;
    var chosen, k := W.Choose(actions, draw);
    if chosen.Some? {
      ListedIsGuarded(c, ins, outs, live, dead, k);
      ghost var j := ListedIsOpen(t, |t|, k);
      KeptIsOpen(t, j);
      assert W.Prefix(actions, k + 1) == W.Prefix(actions, k) + actions[k].1;
      assert Owned(t, j, draw);
    }
    a := chosen;
  }

  // ---------------------------------------------------------------- the lists

  datatype Osds = Osds(ins: seq<Osd>, outs: seq<Osd>, live: seq<Osd>, dead: seq<Osd>)

  function Outed(s: Osds, osd: Osd): Osds
    requires osd in s.ins
  {
    s.(ins := Without(s.ins, osd), outs := s.outs + [osd])
  }

  function Killed(s: Osds, osd: Osd, markOut: bool): Osds
    requires osd in s.live
  {
    var k := s.(live := Without(s.live, osd), dead := s.dead + [osd]);
    if markOut && osd in k.ins then Outed(k, osd) else k
  }

  function Revived(s: Osds, osd: Osd): Osds
    requires osd in s.dead
  {
    s.(dead := Without(s.dead, osd), live := s.live + [osd])
  }

  function Inned(s: Osds, osd: Osd): Osds
    requires osd in s.outs
  {
    if osd in s.dead then Revived(s, osd)
    else s.(outs := Without(s.outs, osd), ins := s.ins + [osd])
  }

  /** `t` comes from `s` by marking OSDs in, one after the other. */
  ghost predicate InnedTo(s: Osds, osds: seq<Osd>, t: Osds)
    decreases |osds|
  {
    if osds == [] then s == t
    else exists m :: InnedTo(s, osds[..|osds| - 1], m) && osds[|osds| - 1] in m.outs && t == Inned(m, osds[|osds| - 1])
  }

  /** `t` comes from `s` by reviving dead OSDs until no more than `limit` are left. */
  ghost predicate RevivedTo(s: Osds, limit: nat, t: Osds) {
    && t.ins == s.ins && t.outs == s.outs && s.live <= t.live
    && |t.dead| == (if |s.dead| > limit then limit else |s.dead|)
    && multiset(t.live) + multiset(t.dead) == multiset(s.live) + multiset(s.dead)
  }

  /** What `test_map_discontinuity` does: refill past the minimum, kill one OSD and mark it out,
      revive one that is dead. */
  ghost predicate Discontinued(c: Config, s: Osds, t: Osds) {
    exists osds, full, victim, revived :: DiscontinuedVia(c, s, osds, full, victim, revived, t)
  }

  ghost predicate DiscontinuedVia(c: Config, s: Osds, osds: seq<Osd>, full: Osds, victim: Osd, revived: Osd, t: Osds) {
    && InnedTo(s, osds, full) && |full.ins| == (if |s.ins| > c.minIn then |s.ins| else c.minIn + 1)
    && victim in full.live && revived in Killed(full, victim, true).dead
    && t == Revived(Killed(full, victim, true), revived)
  }

  /** What an action does to the lists: one OSD moves, or nothing changes. */
  ghost predicate Performed(a: Action, s: Osds, t: Osds) {
    match a
    case OutOsd => exists osd :: osd in s.ins && t == Outed(s, osd)
    case KillOsd => exists osd :: osd in s.live && t == Killed(s, osd, false)
    case InOsd => exists osd :: osd in s.outs && t == Inned(s, osd)
    case ReviveOsd => exists osd :: osd in s.dead && t == Revived(s, osd)
    case _ => t == s
  }

  ghost predicate Partitioned(s: Osds, all: set<Osd>) {
    Splits(s.ins, s.outs, all) && Splits(s.live, s.dead, all)
  }

  /** Exactly `osd` goes from one list to the other. */
  ghost predicate Moves(osd: Osd, from: seq<Osd>, to: seq<Osd>, from': seq<Osd>, to': seq<Osd>) {
    && osd in from && osd !in from' && osd in to'
    && forall x :: x != osd ==> (x in from' <==> x in from) && (x in to' <==> x in to)
  }

  lemma {:induction false} WithoutMoves(s: seq<Osd>, t: seq<Osd>, all: set<Osd>, osd: Osd)
    requires Splits(s, t, all) && osd in s
    ensures Moves(osd, s, t, Without(s, osd), t + [osd])
  {
    WithoutOne(s, osd);
    forall x ensures x in Without(s, osd) <==> x in s && x != osd {
      assert multiset(Without(s, osd))[x] == (multiset(s) - multiset{osd})[x];
      assert (multiset(s) + multiset(t))[x] == multiset(all)[x] <= 1;
      assert x in s <==> x in multiset(s);
      assert x in Without(s, osd) <==> x in multiset(Without(s, osd));
    }
  }

  /** Marking out moves the OSD from in to out; killing it from live to dead and, if asked and in, out;
      reviving it from dead to live; marking it in from out to in, unless it is dead, which revives it
      and leaves it out.  The other lists stay. */
  lemma MovesOne(s: Osds, all: set<Osd>, osd: Osd)
    requires Partitioned(s, all)
    ensures osd in s.ins ==>
              var t := Outed(s, osd); Moves(osd, s.ins, s.outs, t.ins, t.outs) && t.live == s.live && t.dead == s.dead
    ensures osd in s.live ==>
              var (t, u) := (Killed(s, osd, false), Killed(s, osd, true));
              && Moves(osd, s.live, s.dead, t.live, t.dead) && t.ins == s.ins && t.outs == s.outs
              && Moves(osd, s.live, s.dead, u.live, u.dead)
              && (if osd in s.ins then Moves(osd, s.ins, s.outs, u.ins, u.outs) else u.ins == s.ins && u.outs == s.outs)
    ensures osd in s.dead ==>
              var t := Revived(s, osd); Moves(osd, s.dead, s.live, t.dead, t.live) && t.ins == s.ins && t.outs == s.outs
    ensures osd in s.outs ==>
              var t := Inned(s, osd);
              if osd in s.dead then Moves(osd, s.dead, s.live, t.dead, t.live) && t.ins == s.ins && t.outs == s.outs
              else Moves(osd, s.outs, s.ins, t.outs, t.ins) && t.live == s.live && t.dead == s.dead
  {
    assert Splits(s.outs, s.ins, all) && Splits(s.dead, s.live, all);
    hide Splits, Moves, Without;
    if osd in s.ins { WithoutMoves(s.ins, s.outs, all, osd); }
    if osd in s.outs { WithoutMoves(s.outs, s.ins, all, osd); }
    if osd in s.live { WithoutMoves(s.live, s.dead, all, osd); }
    if osd in s.dead { WithoutMoves(s.dead, s.live, all, osd); }
  }

  /** What must hold whenever the main loop is about to start another round. */
  ghost predicate Steady(c: Config, s: Osds, all: set<Osd>) {
    Partitioned(s, all) && |s.ins| >= c.minIn && |s.live| >= c.minLive
  }

  /** The choices of one round: whether to let the cluster recover first, whether to test a map
      discontinuity then, and the draw of the action. */
  datatype Round = Round(recover: bool, discontinuity: bool, draw: real)

  /** One round of the main loop, from one loop boundary to the next. */
  ghost predicate RoundDone(c: Config, s: Osds, r: Round, t: Osds) {
    exists u, a :: Recovered(c, s, r, u) && Acted(c, u, r, a, t)
  }

  ghost predicate Recovered(c: Config, s: Osds, r: Round, u: Osds) {
    if !r.recover then u == s
    else if !r.discontinuity then RevivedTo(s, c.maxDead, u)
    else exists v :: RevivedTo(s, c.maxDead, v) && Discontinued(c, v, u)
  }

  ghost predicate Acted(c: Config, u: Osds, r: Round, a: Action, t: Osds) {
    Drawn(c, a, |u.ins|, |u.outs|, |u.live|, |u.dead|, r.draw) && Performed(a, u, t)
  }

  /** One OSD moves between the two lists an action is about and the other two stay; the other actions
      move none. */
  ghost predicate ActionMoves(a: Action, s: Osds, t: Osds) {
    match a
    case OutOsd => t.live == s.live && t.dead == s.dead && exists osd :: Moves(osd, s.ins, s.outs, t.ins, t.outs)
    case KillOsd => t.ins == s.ins && t.outs == s.outs && exists osd :: Moves(osd, s.live, s.dead, t.live, t.dead)
    case InOsd =>
      || (&& t.live == s.live && t.dead == s.dead
          && exists osd :: osd !in s.dead && Moves(osd, s.outs, s.ins, t.outs, t.ins))
      || (&& t.ins == s.ins && t.outs == s.outs
          && exists osd :: osd in s.outs && Moves(osd, s.dead, s.live, t.dead, t.live))
    case ReviveOsd => t.ins == s.ins && t.outs == s.outs && exists osd :: Moves(osd, s.dead, s.live, t.dead, t.live)
    case _ => t == s
  }

  lemma PerformedMoves(a: Action, s: Osds, t: Osds, all: set<Osd>)
    requires Partitioned(s, all) && Performed(a, s, t)
    ensures ActionMoves(a, s, t)
  {
    hide Partitioned, Moves, Outed, Killed, Revived, Inned;
    match a
    case OutOsd =>
      var osd :| osd in s.ins && t == Outed(s, osd);
      MovesOne(s, all, osd);
    case KillOsd =>
      var osd :| osd in s.live && t == Killed(s, osd, false);
      MovesOne(s, all, osd);
    case InOsd =>
      var osd :| osd in s.outs && t == Inned(s, osd);
      MovesOne(s, all, osd);
    case ReviveOsd =>
      var osd :| osd in s.dead && t == Revived(s, osd);
      MovesOne(s, all, osd);
    case _ =>
  }

  /** A round without recovery takes the action its draw falls to, and moves what that action moves. */
  lemma RoundActs(c: Config, s: Osds, r: Round, t: Osds, all: set<Osd>) returns (a: Action)
    requires Partitioned(s, all) && RoundDone(c, s, r, t) && !r.recover
    ensures Drawn(c, a, |s.ins|, |s.outs|, |s.live|, |s.dead|, r.draw) && ActionMoves(a, s, t)
  {
    var u, b :| Recovered(c, s, r, u) && Acted(c, u, r, b, t);
    a := b;
    PerformedMoves(a, s, t, all);
  }

  class Thrasher {
    const config: Config
    ghost const all: set<Osd>
    var inOsds: seq<Osd>
    var outOsds: seq<Osd>
    var liveOsds: seq<Osd>
    var deadOsds: seq<Osd>

    constructor (c: Config, ins: seq<Osd>, outs: seq<Osd>, live: seq<Osd>, dead: seq<Osd>, ghost osds: set<Osd>)
      requires Steady(c, Osds(ins, outs, live, dead), osds)
      ensures config == c && all == osds && Lists() == Osds(ins, outs, live, dead)
    {
      config, all, inOsds, outOsds, liveOsds, deadOsds := c, osds, ins, outs, live, dead;
    }

    ghost function Lists(): Osds
      reads this
    {
      Osds(inOsds, outOsds, liveOsds, deadOsds)
    }

    /** The total weight of the actions open now. */
    ghost function Total(): real
      reads this
    {
      var t := Table(config, |inOsds|, |outOsds|, |liveOsds|, |deadOsds|);
      Span(t, |t|)
    }

    lemma Sizes()
      requires Partitioned(Lists(), all)
      ensures |inOsds| + |outOsds| == |all| == |liveOsds| + |deadOsds|
    {
      SplitMeans(inOsds, outOsds, all);
      SplitMeans(liveOsds, deadOsds, all);
    }

    method OutOsd(osd: Osd)
      requires Partitioned(Lists(), all) && osd in inOsds
      modifies `inOsds, `outOsds
      ensures Partitioned(Lists(), all) && Lists() == Outed(old(Lists()), osd) && |inOsds| == |old(inOsds)| - 1
    {
      WithoutOne(inOsds, osd);
      inOsds := Without(inOsds, osd);
      outOsds := outOsds + [osd];
    }

    method KillOsd(osd: Osd, markOut: bool)
      requires Partitioned(Lists(), all) && osd in liveOsds
      modifies this
      ensures Partitioned(Lists(), all) && Lists() == Killed(old(Lists()), osd, markOut)
      ensures |liveOsds| == |old(liveOsds)| - 1 && |inOsds| >= |old(inOsds)| - if markOut then 1 else 0
      ensures |deadOsds| == |old(deadOsds)| + 1
    {
      WithoutOne(liveOsds, osd);
      liveOsds := Without(liveOsds, osd);
      deadOsds := deadOsds + [osd];
      if markOut && osd in inOsds {
        OutOsd(osd);
      }
    }

    method ReviveOsd(osd: Osd)
      requires Partitioned(Lists(), all) && osd in deadOsds
      modifies `liveOsds, `deadOsds
      ensures Partitioned(Lists(), all) && Lists() == Revived(old(Lists()), osd) && |deadOsds| == |old(deadOsds)| - 1
    {
      WithoutOne(deadOsds, osd);
      deadOsds := Without(deadOsds, osd);
      liveOsds := liveOsds + [osd];
    }

    /** A dead OSD is revived instead of being marked in; either way one list gets shorter. */
    method InOsd(osd: Osd)
      requires Partitioned(Lists(), all) && osd in outOsds
      modifies this
      ensures Partitioned(Lists(), all) && Lists() == Inned(old(Lists()), osd)
      ensures |deadOsds| + |outOsds| == |old(deadOsds)| + |old(outOsds)| - 1 && |inOsds| <= |old(inOsds)| + 1
      ensures |deadOsds| <= |old(deadOsds)|
    {
      if osd in deadOsds {
        ReviveOsd(osd);
      } else {
        WithoutOne(outOsds, osd);
        outOsds := Without(outOsds, osd);
        inOsds := inOsds + [osd];
      }
    }

    /** Revive until at most `limit` OSDs are dead. */
    method ReviveDownTo(limit: nat)
      requires Partitioned(Lists(), all)
      modifies `liveOsds, `deadOsds
      ensures Partitioned(Lists(), all) && RevivedTo(old(Lists()), limit, Lists())
      ensures |deadOsds| == if |old(deadOsds)| > limit then limit else |old(deadOsds)|
    {
      while |deadOsds| > limit
        invariant Partitioned(Lists(), all) && old(liveOsds) <= liveOsds
        invariant |deadOsds| <= |old(deadOsds)| && (|deadOsds| >= limit || |deadOsds| == |old(deadOsds)|)
        decreases |deadOsds|
      {
        var osd := Pick(deadOsds);
        ReviveOsd(osd);
      }
    }

    /** Ends with every OSD up and in. */
    method AllUp()
      requires Partitioned(Lists(), all)
      modifies this
      ensures Partitioned(Lists(), all) && deadOsds == [] && outOsds == []
      ensures multiset(inOsds) == multiset(liveOsds) == multiset(all)
    {
      ReviveDownTo(0);
      while |outOsds| > 0
        invariant Partitioned(Lists(), all) && deadOsds == []
        decreases |deadOsds| + |outOsds|
      {
        var osd := Pick(outOsds);
        InOsd(osd);
      }
      assert multiset(inOsds) == multiset(inOsds) + multiset(outOsds);
      assert multiset(liveOsds) == multiset(liveOsds) + multiset(deadOsds);
    }

    /** Refill until one more than the minimum is in; every pass revives or marks in one OSD. */
    method Refill() returns (ghost osds: seq<Osd>)
      requires Steady(config, Lists(), all) && |all| > config.minIn
      modifies this
      ensures Steady(config, Lists(), all) && InnedTo(old(Lists()), osds, Lists())
      ensures |inOsds| == if |old(inOsds)| > config.minIn then |old(inOsds)| else config.minIn + 1
      ensures |deadOsds| <= |old(deadOsds)|
      ensures |old(inOsds)| > config.minIn ==> osds == []
    {
      osds := [];
      while |inOsds| < config.minIn + 1
        invariant Steady(config, Lists(), all) && InnedTo(old(Lists()), osds, Lists())
        invariant |deadOsds| <= |old(deadOsds)|
        invariant if |old(inOsds)| > config.minIn then osds == [] && inOsds == old(inOsds)
                  else |inOsds| <= config.minIn + 1
        decreases |deadOsds| + |outOsds|
      {
        Sizes();
        var osd := Pick(outOsds);
        ghost var before := Lists();
        InOsd(osd);
        assert (osds + [osd])[..|osds|] == osds;
        osds := osds + [osd];
      }
    }

    /** Refill, kill one OSD and mark it out, revive one: the minimums hold again at the end. */
    method TestMapDiscontinuity() returns (victim: Osd, revived: Osd)
      requires Steady(config, Lists(), all) && |all| > config.minIn && config.minLive >= 1
      modifies this
      ensures Steady(config, Lists(), all) && Discontinued(config, old(Lists()), Lists())
      ensures |deadOsds| <= |old(deadOsds)| && victim in outOsds && revived in liveOsds
      ensures victim in if victim == revived then liveOsds else deadOsds
    {
      ghost var osds := Refill();
      ghost var full := Lists();
      victim := Pick(liveOsds);
      SplitMeans(inOsds, outOsds, all);
      KillOsd(victim, true);
      revived := Pick(deadOsds);
      ghost var killed := Lists();
      SplitMeans(liveOsds, deadOsds, all);
      ReviveOsd(revived);
      MovesOne(full, all, victim);
      MovesOne(killed, all, revived);
      assert DiscontinuedVia(config, old(Lists()), osds, full, victim, revived, Lists());
    }

    /** The effect of an action on the lists.  The others only read them, to pick an OSD. */
    method Perform(a: Action)
      requires Steady(config, Lists(), all) && config.minIn >= 1 && config.minLive >= 1
      requires Guard(config, a, |inOsds|, |outOsds|, |liveOsds|, |deadOsds|) && a != Action.TestPoolMinSize
      modifies this
      ensures Steady(config, Lists(), all) && Performed(a, old(Lists()), Lists())
    {
      match a
      case OutOsd =>
        var osd := Pick(inOsds);
        OutOsd(osd);
      case KillOsd =>
        var osd := Pick(liveOsds);
        KillOsd(osd, false);
      case InOsd =>
        var osd := Pick(outOsds);
        InOsd(osd);
      case ReviveOsd =>
        var osd := Pick(deadOsds);
        ReviveOsd(osd);
      case RmPastIntervals =>
        var osd := Pick(deadOsds);
      case PrimaryAffinity =>
        var osd := Pick(inOsds);
      case Reweight =>
        var osd := Pick(inOsds);
      case InjectPause(_) =>
        var osd := Pick(liveOsds);
      case _ =>
    }

    /** What a round does before it chooses an action. */
    method Recover(r: Round)
      requires Steady(config, Lists(), all) && config.minLive >= 1
      requires r.recover && r.discontinuity ==> |all| > config.minIn
      modifies this
      ensures Steady(config, Lists(), all) && Recovered(config, old(Lists()), r, Lists())
      ensures if r.recover then |deadOsds| <= config.maxDead else Lists() == old(Lists())
    {
      if r.recover {
        ReviveDownTo(config.maxDead);
        ghost var v := Lists();
        if r.discontinuity {
          var victim, revived := TestMapDiscontinuity();
          assert RevivedTo(old(Lists()), config.maxDead, v) && Discontinued(config, v, Lists());
        }
      }
    }

    /** The main loop over any rounds.  At every loop boundary the lists partition the OSDs and keep
        their minimums, and each boundary follows from the one before by one round.  The loop dies,
        on calling `None`, only when a draw reaches the total of the weights; otherwise the closing
        `all_up` leaves every OSD up and in. */
    method DoThrash(rounds: seq<Round>) returns (died: bool, ghost boundaries: seq<Osds>)
      requires Steady(config, Lists(), all) && config.minIn >= 1 && config.minLive >= 1
      requires config.NonNegative() && config.chanceTestMinSize == 0.0
      requires forall r :: r in rounds ==> 0.0 <= r.draw && (r.recover && r.discontinuity ==> |all| > config.minIn)
      modifies this
      ensures boundaries != [] && boundaries[0] == old(Lists())
      ensures forall i :: 0 <= i < |boundaries| ==> Steady(config, boundaries[i], all)
      ensures if died then |boundaries| <= |rounds| else |boundaries| == |rounds| + 1
      ensures forall i :: 0 <= i < |boundaries| - 1 ==> RoundDone(config, boundaries[i], rounds[i], boundaries[i + 1])
      ensures died ==> Total() <= rounds[|boundaries| - 1].draw &&
                       Recovered(config, boundaries[|boundaries| - 1], rounds[|boundaries| - 1], Lists())
      ensures !died ==> deadOsds == [] && outOsds == [] && multiset(inOsds) == multiset(liveOsds) == multiset(all)
    {
      hide Recovered, Drawn, Performed, Actions;
      boundaries := [Lists()];
      died := false;
      var i := 0;
      while i < |rounds|
        invariant 0 <= i <= |rounds| && |boundaries| == i + 1
        invariant Steady(config, Lists(), all) && boundaries[i] == Lists() && boundaries[0] == old(Lists())
        invariant forall j :: 0 <= j <= i ==> Steady(config, boundaries[j], all)
        invariant forall j :: 0 <= j < i ==> RoundDone(config, boundaries[j], rounds[j], boundaries[j + 1])
      {
        var r := rounds[i];
        Recover(r);
        ghost var u := Lists();
        var a := ChooseAction(config, |inOsds|, |outOsds|, |liveOsds|, |deadOsds|, r.draw);
        if a.None? {
          died := true;
          return;
        }
        Perform(a.value);
        assert Recovered(config, boundaries[i], r, u) && Acted(config, u, r, a.value, Lists());
        boundaries := boundaries + [Lists()];
        i := i + 1;
      }
      AllUp();
    }
  }
}
