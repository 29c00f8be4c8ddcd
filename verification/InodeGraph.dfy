/** The links of the inode cache as a value: which name in which directory leads to which
    inode.  Walking names downwards, following first parents upwards, ranks and cycles, and the
    text of a path all live here; the classes and runs of the cache build on it. */
module InodeGraph {
  import opened Options

  type Ino = nat

  /** The inode number of the mount root. */
  const ROOT: Ino := 1

  /** A name in a directory; the key `pair<string,ino_t>` of an inode's `parents`. */
  datatype Slot = Slot(name: string, dir: Ino)

  type Edges = map<Slot, Ino>

  ghost function Parents(e: Edges, c: Ino): set<Slot> {
    set s | s in e && e[s] == c
  }

  // ---------------------------------------------------------------- walking and ranks

  /** Follow `names`, first to last, from inode `from`. */
  function Walk(e: Edges, from: Ino, names: seq<string>): Option<Ino> {
    if names == [] then Some(from)
    else
      match Walk(e, from, names[..|names| - 1])
      case None => None
      case Some(p) =>
        var s := Slot(names[|names| - 1], p);
        if s in e then Some(e[s]) else None
  }

  ghost predicate Reaches(e: Edges, a: Ino, b: Ino) {
    exists names :: Walk(e, a, names) == Some(b)
  }

  ghost predicate IsRank(e: Edges, rank: Ino -> nat) {
    forall s :: s in e ==> rank(s.dir) < rank(e[s])
  }

  /** Some measure strictly grows along every link. */
  ghost predicate Acyclic(e: Edges) {
    exists rank: Ino -> nat :: IsRank(e, rank)
  }

  lemma {:induction false} WalkRaisesRank(e: Edges, rank: Ino -> nat, a: Ino, names: seq<string>)
    requires IsRank(e, rank) && Walk(e, a, names).Some?
    ensures rank(a) + |names| <= rank(Walk(e, a, names).value)
  {
    if names != [] {
      WalkRaisesRank(e, rank, a, names[..|names| - 1]);
    }
  }

  /** A graph with a rank has no closed walk. */
  lemma {:induction false} NoClosedWalk(e: Edges, a: Ino, names: seq<string>)
    requires Acyclic(e) && Walk(e, a, names) == Some(a)
    ensures names == []
  {
    var rank: Ino -> nat :| IsRank(e, rank);
    WalkRaisesRank(e, rank, a, names);
  }

  lemma ReachesStep(e: Edges, a: Ino, s: Slot)
    requires s in e && Reaches(e, a, s.dir)
    ensures Reaches(e, a, e[s])
  {
    var names :| Walk(e, a, names) == Some(s.dir);
    var longer := names + [s.name];
    assert longer[..|longer| - 1] == names;
    assert Walk(e, a, longer) == Some(e[s]);
  }

  lemma FewerLinksAcyclic(e: Edges, f: Edges)
    requires Acyclic(e)
    requires forall s :: s in f ==> s in e && f[s] == e[s]
    ensures Acyclic(f)
  {
    var rank: Ino -> nat :| IsRank(e, rank);
    assert IsRank(f, rank);
  }

  /** A new link closes no cycle when its target does not reach its directory. */
  lemma LinkAcyclic(e: Edges, s: Slot, c: Ino)
    requires Acyclic(e) && !Reaches(e, c, s.dir)
    ensures Acyclic(e[s := c])
  {
    var rank: Ino -> nat :| IsRank(e, rank);
    var lifted: Ino -> nat := x => if Reaches(e, c, x) then rank(x) + rank(s.dir) + 1 else rank(x);
    assert Reaches(e, c, c) by { assert Walk(e, c, []) == Some(c); }
    forall t | t in e[s := c] ensures lifted(t.dir) < lifted(e[s := c][t]) {
      if t != s && Reaches(e, c, t.dir) {
        ReachesStep(e, c, t);
      }
    }
    assert IsRank(e[s := c], lifted);
  }

  /** A walk that ends no higher than `dst.dir` uses neither `dst` nor a link into its own start,
      so it survives a move of the start from `src` to `dst`. */
  lemma {:induction false} WalkSurvivesMove(e: Edges, rank: Ino -> nat, src: Slot, dst: Slot, names: seq<string>)
    requires IsRank(e, rank) && src in e && src != dst
    requires Walk(e, e[src], names).Some? && rank(Walk(e, e[src], names).value) <= rank(dst.dir)
    ensures Walk(e[dst := e[src]] - {src}, e[src], names) == Walk(e, e[src], names)
  {
    if names != [] {
      var front := names[..|names| - 1];
      var p := Walk(e, e[src], front).value;
      WalkRaisesRank(e, rank, e[src], front);
      assert Slot(names[|names| - 1], p) in e;
      WalkSurvivesMove(e, rank, src, dst, front);
    }
  }

  /** Moving an inode from one slot to another keeps the graph acyclic if and only if the
      destination directory was not inside the moved subtree. */
  lemma MoveAcyclicIff(e: Edges, src: Slot, dst: Slot)
    requires Acyclic(e) && src in e && src != dst
    ensures Acyclic(e[dst := e[src]] - {src}) <==> !Reaches(e, e[src], dst.dir)
  {
    var c, moved := e[src], e[dst := e[src]] - {src};
    if !Reaches(e, c, dst.dir) {
      LinkAcyclic(e, dst, c);
      FewerLinksAcyclic(e[dst := c], moved);
    } else {
      var rank: Ino -> nat :| IsRank(e, rank);
      var names :| Walk(e, c, names) == Some(dst.dir);
      WalkSurvivesMove(e, rank, src, dst, names);
      var loop := names + [dst.name];
      assert loop[..|loop| - 1] == names;
      assert Walk(moved, c, loop) == Some(c);
      if Acyclic(moved) {
        NoClosedWalk(moved, c, loop);
      }
    }
  }

  // ---------------------------------------------------------------- first parents

  /** The order of `std::string`. */
  predicate Less(a: string, b: string) {
    b != [] && (a == [] || a[0] < b[0] || (a[0] == b[0] && Less(a[1..], b[1..])))
  }

  /** The order of `std::pair<string,ino_t>`. */
  predicate SlotLess(s: Slot, t: Slot) {
    Less(s.name, t.name) || (s.name == t.name && s.dir < t.dir)
  }

  /** `s` is what `begin()` of a map with these keys points at. */
  predicate IsFirst(s: Slot, keys: set<Slot>) {
    s in keys && forall t :: t in keys ==> t == s || SlotLess(s, t)
  }

  /** Strings differ first at `k`, where `a` ends or has the smaller character. */
  predicate LessAt(a: string, b: string, k: nat) {
    k <= |a| && k < |b| && a[..k] == b[..k] && (k == |a| || a[k] < b[k])
  }

  /** The order is that of the first difference, a prefix being smaller. */
  lemma {:induction false} LessIff(a: string, b: string)
    ensures Less(a, b) <==> exists k: nat :: LessAt(a, b, k)
  {
    if b != [] && (a == [] || a[0] < b[0]) {
      assert LessAt(a, b, 0);
    } else if a != [] && b != [] && a[0] == b[0] {
      LessIff(a[1..], b[1..]);
      if k: nat :| LessAt(a[1..], b[1..], k) {
        assert a[..k + 1] == [a[0]] + a[1..][..k] && b[..k + 1] == [b[0]] + b[1..][..k];
        assert LessAt(a, b, k + 1);
      }
      if k: nat :| LessAt(a, b, k) {
        assert a[1..][..k - 1] == a[..k][1..] && b[1..][..k - 1] == b[..k][1..];
        assert LessAt(a[1..], b[1..], k - 1);
      }
    } else {
      forall k: nat ensures !LessAt(a, b, k) {
        if k > 0 && a != [] && b != [] && k <= |a| && k < |b| {
          assert a[..k][0] != b[..k][0];
        }
      }
    }
  }

  lemma {:induction false} LessTotal(a: string, b: string)
    ensures a == b || Less(a, b) || Less(b, a)
    ensures !(Less(a, b) && Less(b, a))
  {
    if a != [] && b != [] {
      LessTotal(a[1..], b[1..]);
      assert a == [a[0]] + a[1..] && b == [b[0]] + b[1..];
    }
  }

  lemma {:induction false} LessTransitive(a: string, b: string, c: string)
    requires Less(a, b) && Less(b, c)
    ensures Less(a, c)
  {
    if a != [] && a[0] == b[0] == c[0] {
      LessTransitive(a[1..], b[1..], c[1..]);
    }
  }

  lemma SlotLessTransitive(s: Slot, t: Slot, u: Slot)
    requires SlotLess(s, t) && SlotLess(t, u)
    ensures SlotLess(s, u)
  {
    if Less(s.name, t.name) && Less(t.name, u.name) {
      LessTransitive(s.name, t.name, u.name);
    }
  }

  /** A nonempty map has a first key ... */
  lemma {:induction false} FirstExists(keys: set<Slot>) returns (first: Slot)
    requires keys != {}
    ensures IsFirst(first, keys)
    decreases |keys|
  {
    var s :| s in keys;
    first := s;
    if keys != {s} {
      assert keys == keys - {s} + {s};
      var t := FirstExists(keys - {s});
      LessTotal(s.name, t.name);
      if SlotLess(s, t) {
        forall u | u in keys && u != s ensures SlotLess(s, u) {
          if u != t { SlotLessTransitive(s, t, u); }
        }
      } else {
        first := t;
      }
    }
  }

  /** ... and only one. */
  lemma FirstUnique(s: Slot, t: Slot, keys: set<Slot>)
    requires IsFirst(s, keys) && IsFirst(t, keys)
    ensures s == t
  {
    LessTotal(s.name, t.name);
  }

  /** Climbing first parents from `c` passes `names` (last name first) and arrives at `top`. */
  ghost predicate Chain(e: Edges, c: Ino, names: seq<string>, top: Ino)
    decreases |names|
  {
    if names == [] then c == top
    else
      exists s ::
        IsFirst(s, Parents(e, c)) && s.name == names[|names| - 1] && Chain(e, s.dir, names[..|names| - 1], top)
  }

  /** The climb of `make_inode_path` from `c` ends at the root. */
  ghost predicate HasPath(e: Edges, c: Ino) {
    exists names :: Chain(e, c, names, ROOT)
  }

  /** Walking down the names of a climb comes back to where the climb began. */
  lemma {:induction false} ChainWalk(e: Edges, c: Ino, names: seq<string>, top: Ino)
    requires Chain(e, c, names, top)
    ensures Walk(e, top, names) == Some(c)
    decreases |names|
  {
    if names != [] {
      var s :| IsFirst(s, Parents(e, c)) && s.name == names[|names| - 1] && Chain(e, s.dir, names[..|names| - 1], top);
      assert s in Parents(e, c);
      ChainWalk(e, s.dir, names[..|names| - 1], top);
    }
  }

  /** A climb that ends at a parentless inode is determined by where it began. */
  lemma {:induction false} ChainUnique(e: Edges, c: Ino, names: seq<string>, top: Ino, names': seq<string>, top': Ino)
    requires Chain(e, c, names, top) && Parents(e, top) == {}
    requires Chain(e, c, names', top') && Parents(e, top') == {}
    ensures names == names' && top == top'
    decreases |names|
  {
    if names != [] && names' != [] {
      var s :| IsFirst(s, Parents(e, c)) && s.name == names[|names| - 1] && Chain(e, s.dir, names[..|names| - 1], top);
      var t :|
        IsFirst(t, Parents(e, c)) && t.name == names'[|names'| - 1] && Chain(e, t.dir, names'[..|names'| - 1], top');
      FirstUnique(s, t, Parents(e, c));
      ChainUnique(e, s.dir, names[..|names| - 1], top, names'[..|names'| - 1], top');
      assert names == names[..|names| - 1] + [s.name];
      assert names' == names'[..|names'| - 1] + [s.name];
    }
  }

  lemma LastLink(e: Edges, from: Ino, w: seq<string>) returns (s: Slot)
    requires w != [] && Walk(e, from, w).Some?
    ensures s in Parents(e, Walk(e, from, w).value)
    ensures w == w[..|w| - 1] + [s.name] && Walk(e, from, w[..|w| - 1]) == Some(s.dir)
  {
    s := Slot(w[|w| - 1], Walk(e, from, w[..|w| - 1]).value);
  }

  /** Where every directory has at most one parent slot, a directory has at most one path. */
  lemma {:induction false} DirectoryWalkUnique(e: Edges, dirs: set<Ino>, d: Ino, w: seq<string>, w': seq<string>)
    requires d in dirs && Parents(e, ROOT) == {}
    requires forall s :: s in e ==> s.dir in dirs
    requires forall s, t :: s in e && t in e && e[s] == e[t] && e[s] in dirs ==> s == t
    requires Walk(e, ROOT, w) == Some(d) && Walk(e, ROOT, w') == Some(d)
    ensures w == w'
    decreases |w|
  {
    if w != [] {
      var s := LastLink(e, ROOT, w);
      assert w' != [];
      var t := LastLink(e, ROOT, w');
      DirectoryWalkUnique(e, dirs, s.dir, w[..|w| - 1], w'[..|w'| - 1]);
    } else if w' != [] {
      var t := LastLink(e, ROOT, w');
    }
  }

  // ---------------------------------------------------------------- the text of a path

  /** The text `make_inode_path` builds for the given names. */
  function Render(base: string, names: seq<string>): string {
    if names == [] then base + "/"
    else Render(base, names[..|names| - 1]) + "/" + names[|names| - 1]
  }

  function LastSlash(t: string): (i: int)
    ensures -1 <= i < |t|
  {
    if t == [] then -1
    else if t[|t| - 1] == '/' then |t| - 1
    else LastSlash(t[..|t| - 1])
  }

  /** The names in a text of the form /n1/n2/... */
  function SplitNames(t: string): seq<string>
    decreases |t|
  {
    var i := LastSlash(t);
    if i < 0 then [] else SplitNames(t[..i]) + [t[i + 1..]]
  }

  lemma {:induction false} LastSlashAt(head: string, n: string)
    requires '/' !in n
    ensures LastSlash(head + "/" + n) == |head|
  {
    var t := head + "/" + n;
    if n == [] {
      assert t[|t| - 1] == '/';
    } else {
      assert t[|t| - 1] == n[|n| - 1];
      assert t[..|t| - 1] == head + "/" + n[..|n| - 1];
      LastSlashAt(head, n[..|n| - 1]);
    }
  }

  lemma {:induction false} SplitOne(head: string, n: string)
    requires '/' !in n
    ensures SplitNames(head + "/" + n) == SplitNames(head) + [n]
  {
    LastSlashAt(head, n);
    hide LastSlash;
    var t := head + "/" + n;
    assert t[..|head|] == head && t[|head| + 1..] == n;
  }

  /** The part of a rendered path behind the base. */
  function Tail(names: seq<string>): string {
    if names == [] then "" else Tail(names[..|names| - 1]) + "/" + names[|names| - 1]
  }

  lemma {:induction false} SplitTail(names: seq<string>)
    requires forall n :: n in names ==> '/' !in n
    ensures SplitNames(Tail(names)) == names
  {
    if names != [] {
      hide SplitNames;
      var front, n := names[..|names| - 1], names[|names| - 1];
      SplitTail(front);
      SplitOne(Tail(front), n);
      assert names == front + [n];
    }
  }

  lemma {:induction false} RenderTail(base: string, names: seq<string>)
    ensures Render(base, names) == base + "/" + Tail(names)
  {
    if names != [] {
      RenderTail(base, names[..|names| - 1]);
    }
  }

  /** The names of a rendered path can be read back from its text. */
  lemma {:induction false} SplitRender(base: string, names: seq<string>)
    requires forall n :: n in names ==> '/' !in n
    ensures base + "/" <= Render(base, names)
    ensures SplitNames(Render(base, names)[|base| + 1..]) == names
  {
    hide SplitNames, Tail, Render;
    RenderTail(base, names);
    SplitTail(names);
    assert (base + "/" + Tail(names))[|base| + 1..] == Tail(names);
  }
}
