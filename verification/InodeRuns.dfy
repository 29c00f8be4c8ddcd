/** The request handlers of the tracer as steps of a state machine, and what holds after every
    run of them.  An event carries the request of the kernel together with the outcome of the
    system calls the handler makes; `None` or `false` is any failure (permission, `lstat`,
    `rename`, ...).  The cache value forgets object identity, which class `InodeCache` restores. */
module InodeRuns {
  import opened Options
  import opened InodeGraph

  datatype Stat = Stat(ino: Ino, dir: bool)
  datatype Node = Node(dir: bool, ref: int)
  datatype Cache = Cache(nodes: map<Ino, Node>, edges: Edges)

  datatype Event =
    | Lookup(dir: Ino, name: string, found: Option<Stat>)
    | Forget(ino: Ino, count: nat)
    | Create(dir: Ino, name: string, made: Option<Stat>)   // mknod, mkdir, symlink and create
    | Remove(dir: Ino, name: string, done: bool)           // unlink and rmdir
    | Rename(dir: Ino, name: string, newDir: Ino, newName: string, done: bool)
    | Link(ino: Ino, newDir: Ino, newName: string, linked: Option<Stat>)

  // ---------------------------------------------------------------- one step

  /** All links from and to one inode are gone. */
  function Unlinked(e: Edges, i: Ino): Edges {
    map s | s in e && s.dir != i && e[s] != i :: e[s]
  }

  function RefOf(c: Cache, i: Ino): int {
    if i in c.nodes then c.nodes[i].ref else 0
  }

  /** The cache after an event, and the inode number in the entry reply, if there is one. */
  ghost function Step(c: Cache, ev: Event): (Cache, Option<Ino>) {
    match ev
    case Lookup(dir, name, found) =>
      var s := Slot(name, dir);
      if !HasPath(c.edges, dir) || found.None? then (c, None)
      else if s in c.edges then
        (c.(nodes := c.nodes[c.edges[s] := Node(found.value.dir, RefOf(c, c.edges[s]) + 1)]), Some(found.value.ino))
      else
        (Cache(c.nodes[found.value.ino := Node(found.value.dir, 1)], c.edges[s := found.value.ino]),
         Some(found.value.ino))
    case Forget(ino, count) =>
      if ino == ROOT || ino !in c.nodes then (c, None)
      else if c.nodes[ino].ref - count <= 0 then (Cache(c.nodes - {ino}, Unlinked(c.edges, ino)), None)
      else (c.(nodes := c.nodes[ino := c.nodes[ino].(ref := c.nodes[ino].ref - count)]), None)
    case Create(dir, name, made) =>
      if !HasPath(c.edges, dir) || made.None? then (c, None)
      else
        var i := made.value.ino;
        var e := if i in c.nodes then Unlinked(c.edges, i) else c.edges;
        (Cache(c.nodes[i := Node(made.value.dir, RefOf(c, i) + 1)], e[Slot(name, dir) := i]), Some(i))
    case Remove(dir, name, done) =>
      if !HasPath(c.edges, dir) || !done then (c, None)
      else (c.(edges := c.edges - {Slot(name, dir)}), None)
    case Rename(dir, name, newDir, newName, done) =>
      var src, dst := Slot(name, dir), Slot(newName, newDir);
      if !HasPath(c.edges, dir) || !HasPath(c.edges, newDir) || !done || src !in c.edges then (c, None)
      else (c.(edges := c.edges[dst := c.edges[src]] - {src}), None)
    case Link(ino, newDir, newName, linked) =>
      if !HasPath(c.edges, ino) || !HasPath(c.edges, newDir) || linked.None? then (c, None)
      else
        (Cache(c.nodes[ino := Node(linked.value.dir, RefOf(c, ino) + 1)], c.edges[Slot(newName, newDir) := ino]),
         Some(linked.value.ino))
  }

  // ---------------------------------------------------------------- what the kernel and the OS promise

  predicate IsDir(c: Cache, i: Ino) {
    i in c.nodes && c.nodes[i].dir
  }

  predicate IsName(n: string) {
    '/' !in n
  }

  /** The kernel names known directories and single path components; the operating system keeps
      the number and kind of a cached file, gives new objects numbers of their own, never renames a
      directory into itself and never hard-links a directory. */
  ghost predicate Allowed(c: Cache, ev: Event) {
    match ev
    case Lookup(dir, name, found) =>
      AllowedButForNumber(c, ev) &&
      (HasPath(c.edges, dir) && found.Some? && Slot(name, dir) !in c.edges ==> found.value.ino !in c.nodes)
    case Forget(ino, count) => true
    case Create(dir, name, made) =>
      IsDir(c, dir) && IsName(name) &&
      (made.Some? ==> made.value.ino != ROOT && made.value.ino != dir)
    case Remove(dir, name, done) => IsDir(c, dir)
    case Rename(dir, name, newDir, newName, done) =>
      IsDir(c, dir) && IsDir(c, newDir) && IsName(newName) &&
      (done && Slot(name, dir) in c.edges ==> !Reaches(c.edges, c.edges[Slot(name, dir)], newDir))
    case Link(ino, newDir, newName, linked) =>
      ino in c.nodes && IsDir(c, newDir) && IsName(newName) &&
      (linked.Some? ==> linked.value == Stat(ino, false) && !c.nodes[ino].dir)
  }

  /** What is assumed of a lookup, apart from a number that turns up under a second name. */
  ghost predicate AllowedButForNumber(c: Cache, ev: Event)
    requires ev.Lookup?
  {
    IsDir(c, ev.dir) && IsName(ev.name) &&
    (ev.found.Some? && Slot(ev.name, ev.dir) in c.edges ==>
       var i := c.edges[Slot(ev.name, ev.dir)];
       i in c.nodes && ev.found.value == Stat(i, c.nodes[i].dir))
  }

  // ---------------------------------------------------------------- the shape of the cache

  /** Links carry names and join cached inodes, only directories have entries, a directory has one
      parent and the root has none. */
  ghost predicate Shaped(c: Cache) {
    && IsDir(c, ROOT)
    && (forall s :: s in c.edges ==> IsName(s.name) && IsDir(c, s.dir) && c.edges[s] in c.nodes && c.edges[s] != ROOT)
    && (forall s, t :: s in c.edges && t in c.edges && c.edges[s] == c.edges[t] && IsDir(c, c.edges[s]) ==> s == t)
  }

  ghost predicate Sound(c: Cache) {
    Shaped(c) && Acyclic(c.edges)
  }

  lemma LeafReachesNothing(e: Edges, a: Ino, b: Ino)
    requires forall s :: s in e ==> s.dir != a
    ensures Reaches(e, a, b) <==> a == b
  {
    assert Walk(e, a, []) == Some(a);
    forall names | Walk(e, a, names) == Some(b) ensures a == b {
      LeafWalk(e, a, names);
    }
  }

  lemma {:induction false} LeafWalk(e: Edges, a: Ino, names: seq<string>)
    requires forall s :: s in e ==> s.dir != a
    ensures Walk(e, a, names) == if names == [] then Some(a) else None
  {
    if names != [] {
      LeafWalk(e, a, names[..|names| - 1]);
    }
  }

  lemma LookupKeepsShape(c: Cache, ev: Event)
    requires ev.Lookup? && Sound(c) && Allowed(c, ev)
    ensures Shaped(Step(c, ev).0)
  {
    hide HasPath, Acyclic, Reaches;
  }

  lemma CreateKeepsShape(c: Cache, ev: Event)
    requires ev.Create? && Sound(c) && Allowed(c, ev)
    ensures Shaped(Step(c, ev).0)
  {
    hide HasPath, Acyclic, Reaches;
  }

  lemma LinkKeepsShape(c: Cache, ev: Event)
    requires ev.Link? && Sound(c) && Allowed(c, ev)
    ensures Shaped(Step(c, ev).0)
  {
    hide HasPath, Acyclic, Reaches;
  }

  lemma RenameKeepsShape(c: Cache, ev: Event)
    requires ev.Rename? && Sound(c) && Allowed(c, ev)
    ensures Shaped(Step(c, ev).0)
  {
    hide HasPath, Acyclic, Reaches;
  }

  lemma RemovalKeepsShape(c: Cache, ev: Event)
    requires (ev.Remove? || ev.Forget?) && Sound(c) && Allowed(c, ev)
    ensures Shaped(Step(c, ev).0)
  {
    hide HasPath, Acyclic, Reaches;
  }

  /** No handler breaks the shape. */
  lemma StepKeepsShape(c: Cache, ev: Event)
    requires Sound(c) && Allowed(c, ev)
    ensures Shaped(Step(c, ev).0)
  {
    match ev
    case Lookup(_, _, _) => LookupKeepsShape(c, ev);
    case Create(_, _, _) => CreateKeepsShape(c, ev);
    case Link(_, _, _, _) => LinkKeepsShape(c, ev);
    case Rename(_, _, _, _, _) => RenameKeepsShape(c, ev);
    case _ => RemovalKeepsShape(c, ev);
  }

  /** No handler closes a cycle. */
  lemma StepKeepsAcyclic(c: Cache, ev: Event)
    requires Sound(c) && Allowed(c, ev)
    ensures Acyclic(Step(c, ev).0.edges)
  {
    match ev
    case Lookup(dir, name, found) =>
      if HasPath(c.edges, dir) && found.Some? && Slot(name, dir) !in c.edges {
        LeafReachesNothing(c.edges, found.value.ino, dir);
        LinkAcyclic(c.edges, Slot(name, dir), found.value.ino);
      }
    case Forget(ino, count) =>
      FewerLinksAcyclic(c.edges, Unlinked(c.edges, ino));
    case Create(dir, name, made) =>
      if made.Some? {
        var i := made.value.ino;
        var e := if i in c.nodes then Unlinked(c.edges, i) else c.edges;
        FewerLinksAcyclic(c.edges, e);
        LeafReachesNothing(e, i, dir);
        LinkAcyclic(e, Slot(name, dir), i);
      }
    case Remove(dir, name, done) =>
      FewerLinksAcyclic(c.edges, c.edges - {Slot(name, dir)});
    case Rename(dir, name, newDir, newName, done) =>
      var src, dst := Slot(name, dir), Slot(newName, newDir);
      if src in c.edges {
        if src == dst {
          FewerLinksAcyclic(c.edges, c.edges[dst := c.edges[src]] - {src});
        } else {
          MoveAcyclicIff(c.edges, src, dst);
        }
      }
    case Link(ino, newDir, newName, linked) =>
      if linked.Some? {
        LeafReachesNothing(c.edges, ino, newDir);
        LinkAcyclic(c.edges, Slot(newName, newDir), ino);
      }
  }

  /** The slot a request is about, and for a rename the one it leaves. */
  function Touched(ev: Event): set<Slot> {
    match ev
    case Lookup(dir, name, _) => {Slot(name, dir)}
    case Create(dir, name, _) => {Slot(name, dir)}
    case Remove(dir, name, _) => {Slot(name, dir)}
    case Rename(dir, name, newDir, newName, _) => {Slot(name, dir), Slot(newName, newDir)}
    case Link(_, newDir, newName, _) => {Slot(newName, newDir)}
    case Forget(_, _) => {}
  }

  /** The inode all of whose links a handler drops: a reused or a forgotten one. */
  ghost predicate Dropped(c: Cache, ev: Event, i: Ino) {
    && i in c.nodes
    && if ev.Forget? then i == ev.ino && i !in Step(c, ev).0.nodes
       else ev.Create? && ev.made.Some? && i == ev.made.value.ino
  }

  /** An entry reply is true: the slot asked about leads to the inode in the reply.  A removed name
      leads nowhere.  Any other slot keeps what it leads to, unless it starts or ends at an inode the
      handler drops. */
  lemma RepliesAreTrue(c: Cache, ev: Event, s: Slot)
    requires Sound(c) && Allowed(c, ev)
    ensures Step(c, ev).1.Some? && s in Touched(ev) ==>
              s in Step(c, ev).0.edges && Some(Step(c, ev).0.edges[s]) == Step(c, ev).1
    ensures ev.Remove? && ev.done && HasPath(c.edges, ev.dir) && s in Touched(ev) ==> s !in Step(c, ev).0.edges
    ensures s !in Touched(ev) && s in Step(c, ev).0.edges ==> s in c.edges && Step(c, ev).0.edges[s] == c.edges[s]
    ensures s !in Touched(ev) && s in c.edges && s !in Step(c, ev).0.edges ==>
              Dropped(c, ev, s.dir) || Dropped(c, ev, c.edges[s])
  {
    hide HasPath, Acyclic, Reaches;
  }

  /** The system calls of the handler succeed, and it finds the paths it needs. */
  ghost predicate Succeeds(c: Cache, ev: Event) {
    match ev
    case Lookup(dir, _, found) => HasPath(c.edges, dir) && found.Some?
    case Forget(ino, _) => ino != ROOT && ino in c.nodes
    case Create(dir, _, made) => HasPath(c.edges, dir) && made.Some?
    case Remove(dir, name, done) => HasPath(c.edges, dir) && done && Slot(name, dir) in c.edges
    case Rename(dir, name, newDir, _, done) =>
      HasPath(c.edges, dir) && HasPath(c.edges, newDir) && done && Slot(name, dir) in c.edges
    case Link(ino, newDir, _, linked) => HasPath(c.edges, ino) && HasPath(c.edges, newDir) && linked.Some?
  }

  /** A request that fails leaves the cache as it was and hands out nothing. */
  lemma FailureChangesNothing(c: Cache, ev: Event)
    requires !Succeeds(c, ev)
    ensures Step(c, ev).1.None? && Step(c, ev).0.nodes == c.nodes && Step(c, ev).0.edges == c.edges
  {
    hide HasPath;
  }

  /** The object a lookup, a creation or a link is about. */
  predicate IsEntry(ev: Event) {
    (ev.Lookup? && ev.found.Some?) || (ev.Create? && ev.made.Some?) || (ev.Link? && ev.linked.Some?)
  }

  function EntryOf(ev: Event): Stat
    requires IsEntry(ev)
  {
    if ev.Lookup? then ev.found.value else if ev.Create? then ev.made.value else ev.linked.value
  }

  /** A lookup, creation or link that succeeds is answered with the object; the slot asked about leads to
      it, it has the kind the system call told, and one reference more than before. */
  lemma EntryIsCached(c: Cache, ev: Event)
    requires Sound(c) && Allowed(c, ev) && IsEntry(ev) && Succeeds(c, ev)
    ensures var ((c', reply), st) := (Step(c, ev), EntryOf(ev));
            && reply == Some(st.ino)
            && (forall s :: s in Touched(ev) ==> s in c'.edges && c'.edges[s] == st.ino)
            && st.ino in c'.nodes && c'.nodes[st.ino] == Node(st.dir, RefOf(c, st.ino) + 1)
  {
    hide HasPath, Acyclic, Reaches;
  }

  /** A lookup of a cached name changes no link, and a link leaves the other links of the inode alone. */
  lemma LinksStay(c: Cache, ev: Event, s: Slot)
    requires Sound(c) && Allowed(c, ev) && s in c.edges
    requires (ev.Lookup? && Slot(ev.name, ev.dir) in c.edges) || (ev.Link? && s !in Touched(ev))
    ensures s in Step(c, ev).0.edges && Step(c, ev).0.edges[s] == c.edges[s]
  {
    hide HasPath, Acyclic, Reaches;
  }

  /** Nodes a request is not about stay as they are. */
  lemma OtherNodesStay(c: Cache, ev: Event, i: Ino)
    requires Sound(c) && Allowed(c, ev)
    requires (IsEntry(ev) ==> i != EntryOf(ev).ino) && (ev.Forget? ==> i != ev.ino)
    ensures var c' := Step(c, ev).0; (i in c'.nodes <==> i in c.nodes) && (i in c.nodes ==> c'.nodes[i] == c.nodes[i])
  {
    hide HasPath, Acyclic, Reaches;
  }

  /** A forget takes its count off, and the inode goes with its links when nothing is left. */
  lemma ForgetTakesAway(c: Cache, ino: Ino, count: nat)
    requires ino != ROOT && ino in c.nodes
    ensures var (c', reply) := Step(c, Forget(ino, count));
            && reply.None?
            && (c.nodes[ino].ref > count ==>
                  && ino in c'.nodes && c'.nodes[ino] == Node(c.nodes[ino].dir, c.nodes[ino].ref - count)
                  && c'.edges == c.edges)
            && (c.nodes[ino].ref <= count ==>
                  && ino !in c'.nodes
                  && forall s :: s in c'.edges <==> s in c.edges && s.dir != ino && c.edges[s] != ino)
  {
  }

  /** References to `i` given back by an event. */
  function GivenBack(ev: Event, i: Ino): nat {
    if ev.Forget? && ev.ino == i then ev.count else 0
  }

  /** One step changes the count of an inode by what it hands out less what is given back; an
      inode enters the cache only with a reply and leaves it only when the count runs out. */
  lemma StepCounts(c: Cache, ev: Event, i: Ino)
    requires Sound(c) && Allowed(c, ev) && i != ROOT
    requires i in c.nodes <==> RefOf(c, i) > 0
    requires GivenBack(ev, i) <= RefOf(c, i)
    ensures var (c', reply) := Step(c, ev);
            && RefOf(c', i) == RefOf(c, i) + (if reply == Some(i) then 1 else 0) - GivenBack(ev, i)
            && (i in c'.nodes <==> RefOf(c', i) > 0)
  {
  }

  // ---------------------------------------------------------------- runs

  /** At start only the root is cached, with one reference. */
  const INITIAL := Cache(map[ROOT := Node(true, 1)], map[])

  ghost function After(run: seq<Event>): Cache {
    if run == [] then INITIAL else Step(After(run[..|run| - 1]), run[|run| - 1]).0
  }

  lemma {:induction false} AfterOne(run: seq<Event>, ev: Event)
    ensures After(run + [ev]) == Step(After(run), ev).0
  {
    assert (run + [ev])[..|run|] == run;
  }

  /** Number of entry replies that handed inode `i` to the kernel. */
  ghost function Given(run: seq<Event>, i: Ino): nat {
    if run == [] then 0
    else Given(run[..|run| - 1], i) + if Step(After(run[..|run| - 1]), run[|run| - 1]).1 == Some(i) then 1 else 0
  }

  /** Number of references to `i` the kernel has given back. */
  ghost function Taken(run: seq<Event>, i: Ino): nat {
    if run == [] then 0
    else Taken(run[..|run| - 1], i) + GivenBack(run[|run| - 1], i)
  }

  /** Every event is allowed where it happens, and the kernel gives back only what it was given. */
  ghost predicate LegalRun(run: seq<Event>) {
    run != [] ==>
      var front, ev := run[..|run| - 1], run[|run| - 1];
      && LegalRun(front)
      && Allowed(After(front), ev)
      && (ev.Forget? && ev.ino != ROOT ==> 1 <= ev.count <= Given(front, ev.ino) - Taken(front, ev.ino))
  }

  lemma {:induction false} LegalOne(run: seq<Event>, ev: Event)
    requires LegalRun(run + [ev])
    ensures LegalRun(run) && Allowed(After(run), ev)
    ensures ev.Forget? && ev.ino != ROOT ==> 1 <= ev.count <= Given(run, ev.ino) - Taken(run, ev.ino)
  {
    assert (run + [ev])[..|run|] == run;
  }

  lemma {:induction false} LegalMore(run: seq<Event>, ev: Event)
    requires LegalRun(run) && Allowed(After(run), ev) && !ev.Forget?
    ensures LegalRun(run + [ev])
  {
    assert (run + [ev])[..|run|] == run;
  }

  /** The reference count of every inode but the root is what the kernel still holds, and an
      inode is cached exactly while the kernel holds it. */
  ghost predicate Conserved(run: seq<Event>) {
    forall i :: i != ROOT ==>
      && RefOf(After(run), i) == Given(run, i) - Taken(run, i)
      && (i in After(run).nodes <==> RefOf(After(run), i) > 0)
  }

  /** Shape and references after every legal run. */
  lemma {:induction false} RunInvariant(run: seq<Event>)
    requires LegalRun(run)
    ensures Sound(After(run)) && Conserved(run)
  {
    if run == [] {
      var rank: Ino -> nat := x => x;
      assert IsRank(INITIAL.edges, rank);
    } else {
      var front, ev := run[..|run| - 1], run[|run| - 1];
      RunInvariant(front);
      StepKeepsShape(After(front), ev);
      StepKeepsAcyclic(After(front), ev);
      forall i | i != ROOT
        ensures RefOf(After(run), i) == Given(run, i) - Taken(run, i)
        ensures i in After(run).nodes <==> RefOf(After(run), i) > 0
      {
        assert RefOf(After(front), i) == Given(front, i) - Taken(front, i);
        StepCounts(After(front), ev, i);
      }
    }
  }

  /** Neither complaint of the forget handler can be reached in a legal run, and the inode leaves
      the cache exactly when its last reference is given back. */
  lemma {:induction false} ForgetIsExact(run: seq<Event>, ino: Ino, count: nat)
    requires LegalRun(run + [Forget(ino, count)]) && ino != ROOT
    ensures ino in After(run).nodes && count <= After(run).nodes[ino].ref
    ensures ino !in After(run + [Forget(ino, count)]).nodes <==> count == Given(run, ino) - Taken(run, ino)
  {
    var longer := run + [Forget(ino, count)];
    assert longer[..|longer| - 1] == run;
    RunInvariant(run);
    RunInvariant(longer);
    assert RefOf(After(run), ino) == Given(run, ino) - Taken(run, ino);
    assert RefOf(After(longer), ino) == Given(longer, ino) - Taken(longer, ino);
  }

  // ---------------------------------------------------------------- paths in every reachable state

  /** In every reachable state a path text made for an inode leads from the root back to that
      inode, read as names or read as text, and a directory has no second path. */
  lemma {:induction false} PathRoundTrip(run: seq<Event>, base: string, i: Ino, names: seq<string>)
    requires LegalRun(run) && Chain(After(run).edges, i, names, ROOT)
    ensures Walk(After(run).edges, ROOT, names) == Some(i)
    ensures base + "/" <= Render(base, names)
    ensures SplitNames(Render(base, names)[|base| + 1..]) == names
    ensures IsDir(After(run), i) ==>
              forall other :: Walk(After(run).edges, ROOT, other) == Some(i) ==> other == names
  {
    RunInvariant(run);
    var c := After(run);
    ChainWalk(c.edges, i, names, ROOT);
    WalkNames(c, ROOT, names);
    SplitRender(base, names);
    if IsDir(c, i) {
      var dirs := set d | d in c.nodes && c.nodes[d].dir;
      forall other | Walk(c.edges, ROOT, other) == Some(i) ensures other == names {
        DirectoryWalkUnique(c.edges, dirs, i, other, names);
      }
    }
  }

  /** A walk from the root to a directory is the climb from it, backwards. */
  lemma {:induction false} DirectoryChain(c: Cache, d: Ino, names: seq<string>)
    requires Shaped(c) && IsDir(c, d) && Walk(c.edges, ROOT, names) == Some(d)
    ensures Chain(c.edges, d, names, ROOT)
    decreases |names|
  {
    if names != [] {
      var s := LastLink(c.edges, ROOT, names);
      DirectoryChain(c, s.dir, names[..|names| - 1]);
      assert Parents(c.edges, d) == {s};
      assert IsFirst(s, Parents(c.edges, d));
    }
  }

  /** A directory is found exactly when it is reachable from the root, and any other inode exactly when
      the directory of its first name is. */
  lemma HasPathIff(c: Cache, i: Ino)
    requires Sound(c)
    ensures IsDir(c, i) ==> (HasPath(c.edges, i) <==> Reaches(c.edges, ROOT, i))
    ensures !IsDir(c, i) ==>
              (HasPath(c.edges, i) <==>
               exists s :: IsFirst(s, Parents(c.edges, i)) && Reaches(c.edges, ROOT, s.dir))
  {
    forall d: Ino | HasPath(c.edges, d) ensures Reaches(c.edges, ROOT, d) {
      var names :| Chain(c.edges, d, names, ROOT);
      ChainWalk(c.edges, d, names, ROOT);
    }
    forall d: Ino | IsDir(c, d) && Reaches(c.edges, ROOT, d) ensures HasPath(c.edges, d) {
      var names :| Walk(c.edges, ROOT, names) == Some(d);
      DirectoryChain(c, d, names);
    }
    if !IsDir(c, i) {
      FirstHasPath(c.edges, i);
      assert forall s :: s in Parents(c.edges, i) ==> IsDir(c, s.dir);
    }
  }

  lemma FirstHasPath(e: Edges, i: Ino)
    requires i != ROOT
    ensures HasPath(e, i) <==> exists s :: IsFirst(s, Parents(e, i)) && HasPath(e, s.dir)
  {
    if HasPath(e, i) {
      var names :| Chain(e, i, names, ROOT);
      var s :| IsFirst(s, Parents(e, i)) && Chain(e, s.dir, names[..|names| - 1], ROOT);
    }
    if s :| IsFirst(s, Parents(e, i)) && HasPath(e, s.dir) {
      var names :| Chain(e, s.dir, names, ROOT);
      assert (names + [s.name])[..|names|] == names;
      assert Chain(e, i, names + [s.name], ROOT);
    }
  }

  lemma {:induction false} WalkNames(c: Cache, from: Ino, names: seq<string>)
    requires Sound(c) && Walk(c.edges, from, names).Some?
    ensures forall n :: n in names ==> '/' !in n
  {
    if names != [] {
      var front := names[..|names| - 1];
      WalkNames(c, from, front);
      var s := Slot(names[|names| - 1], Walk(c.edges, from, front).value);
      assert s in c.edges;
      assert names == front + [s.name];
    }
  }

  // ---------------------------------------------------------------- where the code falls short

  /** A lookup that misses the name cache conserves references if and only if the number it finds
      is not cached already: otherwise the object under that number is replaced by a new one. */
  lemma {:induction false} LookupConservesIff(run: seq<Event>, dir: Ino, name: string, st: Stat)
    requires LegalRun(run)
    requires AllowedButForNumber(After(run), Lookup(dir, name, Some(st)))
    requires HasPath(After(run).edges, dir) && Slot(name, dir) !in After(run).edges && st.ino != ROOT
    ensures Conserved(run + [Lookup(dir, name, Some(st))]) <==> st.ino !in After(run).nodes
  {
    var longer := run + [Lookup(dir, name, Some(st))];
    assert longer[..|longer| - 1] == run;
    RunInvariant(run);
    assert RefOf(After(longer), st.ino) == 1;
    assert Given(longer, st.ino) - Taken(longer, st.ino) == RefOf(After(run), st.ino) + 1;
    if st.ino !in After(run).nodes {
      assert LegalRun(longer);
      RunInvariant(longer);
    }
  }

  /** A run that may be illegal in one way only: a lookup finds a cached number under a new name. */
  ghost predicate NearlyLegal(run: seq<Event>) {
    run != [] ==>
      var front, ev := run[..|run| - 1], run[|run| - 1];
      && NearlyLegal(front)
      && (if ev.Lookup? then AllowedButForNumber(After(front), ev) else Allowed(After(front), ev))
      && (ev.Forget? && ev.ino != ROOT ==> 1 <= ev.count <= Given(front, ev.ino) - Taken(front, ev.ino))
  }

  ghost predicate AlwaysInOrder(run: seq<Event>) {
    forall k :: 0 <= k <= |run| ==> Sound(After(run[..k])) && Conserved(run[..k])
  }

  /** A lookup that misses and finds a cached number leaves the cache out of order. */
  lemma {:induction false} MissedNumberBreaks(run: seq<Event>, ev: Event)
    requires LegalRun(run) && ev.Lookup? && AllowedButForNumber(After(run), ev) && !Allowed(After(run), ev)
    ensures !(Sound(After(run + [ev])) && Conserved(run + [ev]))
  {
    AfterOne(run, ev);
    if ev.found.value.ino == ROOT {
      assert After(run + [ev]).edges[Slot(ev.name, ev.dir)] == ROOT;
    } else {
      LookupConservesIff(run, ev.dir, ev.name, ev.found.value);
    }
  }

  /** The cache is in order all along if and only if no lookup misses and finds a cached number. */
  lemma {:induction false} InOrderIff(run: seq<Event>)
    requires NearlyLegal(run)
    ensures AlwaysInOrder(run) <==> LegalRun(run)
  {
    hide Sound, Conserved, After, Allowed, AllowedButForNumber;
    assert run[..|run|] == run;
    if run == [] {
      RunInvariant(run);
    } else {
      var front, ev := run[..|run| - 1], run[|run| - 1];
      InOrderIff(front);
      assert forall k :: 0 <= k <= |front| ==> front[..k] == run[..k];
      assert AlwaysInOrder(run) <==> AlwaysInOrder(front) && Sound(After(run)) && Conserved(run);
      assert front + [ev] == run;
      if LegalRun(run) {
        RunInvariant(run);
      } else if LegalRun(front) {
        MissedNumberBreaks(front, ev);
      }
    }
  }

  /** A file with two hard links, looked up under both names: the kernel holds two references and
      the cache counts one, so the first of two single forgets already drops the inode. */
  lemma SecondHardLinkLosesReference()
    ensures var (a, b) := (Lookup(ROOT, "a", Some(Stat(5, false))), Lookup(ROOT, "b", Some(Stat(5, false))));
            && LegalRun([a]) && AllowedButForNumber(After([a]), b)
            && Given([a, b], 5) - Taken([a, b], 5) == 2
            && RefOf(After([a, b]), 5) == 1
            && 5 !in After([a, b] + [Forget(5, 1)]).nodes
  {
    var a, b := Lookup(ROOT, "a", Some(Stat(5, false))), Lookup(ROOT, "b", Some(Stat(5, false)));
    var f := Forget(5, 1);
    assert [a, b][..1] == [a] && ([a, b] + [f])[..2] == [a, b];
    AfterFirst(a);
    RootHasPath(After([a]).edges);
    assert After([a, b]) == Step(After([a]), b).0;
    assert Given([a], 5) == 1 && Taken([a], 5) == 0;
    assert After([a, b] + [f]) == Step(After([a, b]), f).0;
  }

  /** The first lookup in the root. */
  lemma AfterFirst(a: Event)
    requires a.Lookup? && a.dir == ROOT && a.found == Some(Stat(5, false)) && IsName(a.name)
    ensures LegalRun([a]) && After([a]) == Cache(INITIAL.nodes[5 := Node(false, 1)], map[Slot(a.name, ROOT) := 5])
    ensures Step(INITIAL, a).1 == Some(5)
  {
    assert [a][..0] == [];
    RootHasPath(INITIAL.edges);
  }

  /** A file renamed onto its own name, which the system call allows and ignores, has no name in the
      cache any more. */
  lemma OwnSlotRenameLosesName()
    ensures var (a, b) := (Lookup(ROOT, "a", Some(Stat(5, false))), Rename(ROOT, "a", ROOT, "a", true));
            && LegalRun([a, b])
            && Slot("a", ROOT) in After([a]).edges && Slot("a", ROOT) !in After([a, b]).edges
            && 5 in After([a, b]).nodes && Parents(After([a, b]).edges, 5) == {}
  {
    var a, b := Lookup(ROOT, "a", Some(Stat(5, false))), Rename(ROOT, "a", ROOT, "a", true);
    assert [a, b][..1] == [a];
    AfterFirst(a);
    RootHasPath(After([a]).edges);
    LeafReachesNothing(After([a]).edges, 5, ROOT);
  }

  lemma RootHasPath(e: Edges)
    ensures HasPath(e, ROOT)
  {
    assert Chain(e, ROOT, [], ROOT);
  }

  /** A rename moves exactly one link when its two slots differ; with equal slots, where the
      system call does nothing, the handler drops the link. */
  lemma RenameMovesOneLink(c: Cache, ev: Event)
    requires ev.Rename? && ev.done && HasPath(c.edges, ev.dir) && HasPath(c.edges, ev.newDir)
    requires Slot(ev.name, ev.dir) in c.edges
    ensures var src, dst, e := Slot(ev.name, ev.dir), Slot(ev.newName, ev.newDir), Step(c, ev).0.edges;
            var moved := c.edges[src];
            && Step(c, ev).0.nodes == c.nodes && src !in e
            && (dst in e && e[dst] == moved <==> src != dst)
            && (forall s :: s != src && s != dst ==> (s in e <==> s in c.edges) && (s in e ==> e[s] == c.edges[s]))
            && (dst != src ==> Parents(e, moved) == Parents(c.edges, moved) - {src} + {dst})
            && (dst in c.edges && c.edges[dst] != moved ==>
                  Parents(e, c.edges[dst]) == Parents(c.edges, c.edges[dst]) - {dst})
  {
    var src, dst, e := Slot(ev.name, ev.dir), Slot(ev.newName, ev.newDir), Step(c, ev).0.edges;
    var moved := c.edges[src];
    assert e == c.edges[dst := moved] - {src};
  }

  /** Once an inode is unlinked nothing mentions it, and links between others are as before. */
  lemma UnlinkedLeavesNothing(e: Edges, i: Ino, s: Slot)
    ensures s in Unlinked(e, i) ==> s.dir != i && Unlinked(e, i)[s] != i
    ensures s in e && s.dir != i && e[s] != i ==> s in Unlinked(e, i) && Unlinked(e, i)[s] == e[s]
    ensures Parents(Unlinked(e, i), i) == {}
  {
  }
}
