/** The inode cache of the tracer as it lies in memory: structures at addresses that point at each
    other through two maps, changed in place by the handlers.  Memory is explicit, one map per
    field, so that deletion and dangling pointers can be spoken of.  Every handler is proved to do
    to memory what `InodeRuns.Step` does to the value it represents, so the run theorems hold of
    memory too. */
module InodeCache {
  import opened Options
  import opened InodeGraph
  import opened InodeRuns

  datatype Addr = Addr(id: nat)

  type Index = map<Ino, Addr>
  type Numbers = map<Addr, Ino>
  type Attrs = map<Addr, Node>
  type Dentries = map<Addr, map<string, Addr>>
  type BackLinks = map<Addr, map<Slot, Addr>>

  // ---------------------------------------------------------------- agreement of the maps

  /** The allocated structures are exactly those in the index, one per inode number. */
  ghost predicate Indexed(m: Index, num: Numbers) {
    && (forall i :: i in m ==> m[i] in num && num[m[i]] == i)
    && (forall a :: a in num ==> num[a] in m && m[num[a]] == a)
  }

  /** The dentries of all structures are the links `e`, and point at indexed structures. */
  ghost predicate AgreeDown(m: Index, num: Numbers, down: Dentries, e: Edges) {
    && (forall a {:trigger a in down} {:trigger a in num} :: a in down <==> a in num)
    && (forall a, n {:trigger n in down[a]} :: a in down && n in down[a] ==> Slot(n, num[a]) in e)
    && (forall s {:trigger s in e} :: s in e ==>
          s.dir in m && m[s.dir] in down && s.name in down[m[s.dir]] && e[s] in m && down[m[s.dir]][s.name] == m[e[s]])
  }

  /** The parent entries of all structures are the links `e`, and point at indexed structures. */
  ghost predicate AgreeUp(m: Index, num: Numbers, up: BackLinks, e: Edges) {
    && (forall a {:trigger a in up} {:trigger a in num} :: a in up <==> a in num)
    && (forall a, s {:trigger s in up[a]} :: a in up && s in up[a] ==> s in e && e[s] == num[a])
    && (forall s {:trigger s in e} :: s in e ==>
          e[s] in m && m[e[s]] in up && s in up[m[e[s]]] && s.dir in m && up[m[e[s]]][s] == m[s.dir])
  }

  lemma WithoutDown(m: Index, num: Numbers, down: Dentries, e: Edges, s: Slot)
    requires Indexed(m, num) && AgreeDown(m, num, down, e) && s in e
    ensures AgreeDown(m, num, down[m[s.dir] := down[m[s.dir]] - {s.name}], e - {s})
  {
  }

  lemma WithoutUp(m: Index, num: Numbers, up: BackLinks, e: Edges, s: Slot)
    requires Indexed(m, num) && AgreeUp(m, num, up, e) && s in e
    ensures AgreeUp(m, num, up[m[e[s]] := up[m[e[s]]] - {s}], e - {s})
  {
  }

  lemma WithDown(m: Index, num: Numbers, down: Dentries, e: Edges, s: Slot, c: Ino)
    requires Indexed(m, num) && AgreeDown(m, num, down, e) && s.dir in m && c in m
    ensures m[s.dir] in down
    ensures AgreeDown(m, num, down[m[s.dir] := down[m[s.dir]][s.name := m[c]]], e[s := c])
  {
  }

  lemma WithUp(m: Index, num: Numbers, up: BackLinks, e: Edges, s: Slot, c: Ino)
    requires Indexed(m, num) && AgreeUp(m, num, up, e) && s !in e && s.dir in m && c in m
    ensures m[c] in up
    ensures AgreeUp(m, num, up[m[c] := up[m[c]][s := m[s.dir]]], e[s := c])
  {
  }

  /** What the index and the two value fields hold for each inode number. */
  ghost function Nodes(m: Index, attr: Attrs): map<Ino, Node>
    requires forall i :: i in m ==> m[i] in attr
  {
    map i | i in m :: attr[m[i]]
  }

  lemma NodesUpdated(m: Index, num: Numbers, attr: Attrs, i: Ino, x: Node)
    requires Indexed(m, num) && i in m && forall j :: j in m ==> m[j] in attr
    ensures Nodes(m, attr[m[i] := x]) == Nodes(m, attr)[i := x]
  {
  }

  lemma NodesEnlarged(m: Index, num: Numbers, attr: Attrs, i: Ino, a: Addr, x: Node)
    requires Indexed(m, num) && a !in num && forall j :: j in m ==> m[j] in attr
    ensures Nodes(m[i := a], attr[a := x]) == Nodes(m, attr)[i := x]
  {
  }

  lemma NodesReduced(m: Index, num: Numbers, attr: Attrs, i: Ino)
    requires Indexed(m, num) && i in m && forall j :: j in m ==> m[j] in attr
    ensures forall j :: j in m - {i} ==> m[j] in attr - {m[i]}
    ensures Nodes(m - {i}, attr - {m[i]}) == Nodes(m, attr) - {i}
  {
  }

  // A new structure with empty maps joins the index.

  lemma EnlargedDown(m: Index, num: Numbers, down: Dentries, e: Edges, i: Ino, a: Addr)
    requires Indexed(m, num) && AgreeDown(m, num, down, e) && i !in m && a !in num
    ensures AgreeDown(m[i := a], num[a := i], down[a := map[]], e)
  {
  }

  lemma EnlargedUp(m: Index, num: Numbers, up: BackLinks, e: Edges, i: Ino, a: Addr)
    requires Indexed(m, num) && AgreeUp(m, num, up, e) && i !in m && a !in num
    ensures AgreeUp(m[i := a], num[a := i], up[a := map[]], e)
  {
  }

  lemma EnlargedIndex(m: Index, num: Numbers, i: Ino, a: Addr)
    requires Indexed(m, num) && i !in m && a !in num
    ensures Indexed(m[i := a], num[a := i])
  {
  }

  /** A new structure joins the index with one link to it. */
  lemma EnlargedWithLink(m: Index, num: Numbers, down: Dentries, up: BackLinks, e: Edges,
                         s: Slot, i: Ino, a: Addr)
    requires Indexed(m, num) && AgreeDown(m, num, down, e) && AgreeUp(m, num, up, e)
    requires i !in m && a !in num && s !in e && s.dir in m && m[s.dir] in down && m[s.dir] != a
    ensures Indexed(m[i := a], num[a := i])
    ensures var d := down[a := map[]];
            AgreeDown(m[i := a], num[a := i], d[m[s.dir] := d[m[s.dir]][s.name := a]], e[s := i])
    ensures AgreeUp(m[i := a], num[a := i], up[a := map[s := m[s.dir]]], e[s := i])
  {
    hide AgreeDown, AgreeUp;
    EnlargedIndex(m, num, i, a);
    EnlargedDown(m, num, down, e, i, a);
    EnlargedUp(m, num, up, e, i, a);
    assert s.dir != i;
    WithDown(m[i := a], num[a := i], down[a := map[]], e, s, i);
    WithUp(m[i := a], num[a := i], up[a := map[]], e, s, i);
    assert up[a := map[]][a := map[s := m[s.dir]]] == up[a := map[s := m[s.dir]]];
  }

  // A structure without links leaves the index and memory.

  lemma ReducedDown(m: Index, num: Numbers, down: Dentries, e: Edges, i: Ino)
    requires Indexed(m, num) && AgreeDown(m, num, down, e)
    requires i in m && forall s :: s in e ==> s.dir != i && e[s] != i
    ensures AgreeDown(m - {i}, num - {m[i]}, down - {m[i]}, e)
  {
  }

  lemma ReducedUp(m: Index, num: Numbers, up: BackLinks, e: Edges, i: Ino)
    requires Indexed(m, num) && AgreeUp(m, num, up, e)
    requires i in m && forall s :: s in e ==> s.dir != i && e[s] != i
    ensures AgreeUp(m - {i}, num - {m[i]}, up - {m[i]}, e)
  {
  }

  lemma ReducedIndex(m: Index, num: Numbers, i: Ino)
    requires Indexed(m, num) && i in m
    ensures Indexed(m - {i}, num - {m[i]})
  {
  }

  lemma RemoveOne(e: Edges, s: Slot)
    requires s in e
    ensures |e - {s}| < |e|
  {
    assert e.Keys == (e - {s}).Keys + {s};
  }

  /** Every entry is still there, and leads where it led. */
  ghost predicate KeepsEntries(d: Dentries, d': Dentries) {
    forall a, n :: a in d && n in d[a] ==> a in d' && n in d'[a] && d'[a][n] == d[a][n]
  }

  lemma EntriesKept(d: Dentries, at: Addr, p: Addr, n: string)
    requires at !in d && p in d && n !in d[p]
    ensures var d' := d[at := map[]]; KeepsEntries(d, d'[p := d'[p][n := at]])
  {
  }

  lemma NoParentOfRoot(c: Cache)
    requires Sound(c)
    ensures Parents(c.edges, ROOT) == {}
  {
  }

  class Tracer {
    const basedir: string
    const root: Addr
    var inodeMap: Index
    var ino: Numbers
    var attr: Attrs
    var parents: BackLinks
    var dentries: Dentries
    ghost var edges: Edges
    ghost var run: seq<Event>

    ghost predicate Linked()
      reads `inodeMap, `ino, `attr, `parents, `dentries, `edges
    {
      && ROOT in inodeMap && inodeMap[ROOT] == root
      && (forall a :: a in ino ==> a in attr)
      && Indexed(inodeMap, ino)
      && AgreeDown(inodeMap, ino, dentries, edges)
      && AgreeUp(inodeMap, ino, parents, edges)
    }

    ghost function View(): Cache
      requires Linked()
      reads `inodeMap, `ino, `attr, `parents, `dentries, `edges
    {
      Cache(Nodes(inodeMap, attr), edges)
    }

    /** Between two requests: memory stands for the cache the run so far has led to. */
    ghost predicate Valid()
      reads this
    {
      Linked() && LegalRun(run) && View() == After(run)
    }

    constructor (base: string, at: Addr)
      ensures Valid() && run == [] && basedir == base
    {
      basedir, root := base, at;
      inodeMap, ino, attr := map[ROOT := at], map[at := ROOT], map[at := Node(true, 1)];
      parents, dentries := map[at := map[]], map[at := map[]];
      edges, run := map[], [];
    }

    /** Two-way agreement, in the source's terms. */
    lemma TwoWay(p: Addr, n: string, c: Addr)
      requires Linked() && p in ino && c in ino
      ensures p in dentries && c in parents
      ensures (n in dentries[p] && dentries[p][n] == c) <==>
              (Slot(n, ino[p]) in parents[c] && parents[c][Slot(n, ino[p])] == p)
    {
    }

    /** Every pointer in the index, in a dentry or in a parent entry is to an allocated structure. */
    lemma NoDangling()
      requires Linked()
      ensures forall i :: i in inodeMap ==> inodeMap[i] in ino
      ensures forall a, n :: a in dentries && n in dentries[a] ==> dentries[a][n] in ino
      ensures forall a, s :: a in parents && s in parents[a] ==> parents[a][s] in ino
    {
    }

    /** What agreement says about one structure. */
    lemma LinksOf(a: Addr)
      requires Linked() && a in ino
      ensures ino[a] in inodeMap && inodeMap[ino[a]] == a && a in parents && a in dentries
      ensures parents[a].Keys == Parents(edges, ino[a])
      ensures forall n :: n in dentries[a] <==> Slot(n, ino[a]) in edges
      ensures forall n :: n in dentries[a] ==> dentries[a][n] in ino && ino[dentries[a][n]] == edges[Slot(n, ino[a])]
      ensures forall s :: s in parents[a] ==> parents[a][s] in ino && ino[parents[a][s]] == s.dir
    {
    }

    lemma Allocated(a: Addr)
      requires Linked()
      ensures a in ino <==> a in dentries
      ensures a in ino <==> a in parents
    {
    }

    lemma InMemory()
      requires Linked()
      ensures forall i :: i in inodeMap ==>
                inodeMap[i] in ino && ino[inodeMap[i]] == i && inodeMap[i] in attr
    {
    }

    lemma ViewNodes()
      requires Linked()
      ensures forall i :: i in inodeMap <==> i in View().nodes
      ensures forall i :: i in inodeMap ==> inodeMap[i] in attr && View().nodes[i] == attr[inodeMap[i]]
    {
    }

    // -------------------------------------------------------------- links

    method RemoveDentry(pin: Addr, dname: string)
      requires Linked() && pin in dentries && dname in dentries[pin]
      modifies `edges, `dentries, `parents
      ensures Linked() && pin in ino && edges == old(edges) - {Slot(dname, ino[pin])}
    {
      hide Indexed, AgreeDown, AgreeUp;
      Allocated(pin);
      ghost var s := Slot(dname, ino[pin]);
      LinksOf(pin);
      var node := dentries[pin][dname];
      LinksOf(node);
      WithoutDown(inodeMap, ino, dentries, edges, s);
      WithoutUp(inodeMap, ino, parents, edges, s);
      dentries := dentries[pin := dentries[pin] - {dname}];
      parents := parents[node := parents[node] - {Slot(dname, ino[pin])}];
      edges := edges - {s};
    }

    method AddDentry(parent: Addr, dname: string, node: Addr)
      requires Linked() && parent in ino && node in ino
      modifies `edges, `dentries, `parents
      ensures Linked() && edges == old(edges)[Slot(dname, ino[parent]) := ino[node]]
    {
      hide Indexed, AgreeDown, AgreeUp;
      ghost var s := Slot(dname, ino[parent]);
      LinksOf(parent);
      LinksOf(node);
      if dname in dentries[parent] {
        RemoveDentry(parent, dname);
      }
      WithDown(inodeMap, ino, dentries, edges, s, ino[node]);
      WithUp(inodeMap, ino, parents, edges, s, ino[node]);
      dentries := dentries[parent := dentries[parent][dname := node]];
      parents := parents[node := parents[node][Slot(dname, ino[parent]) := parent]];
      edges := edges[s := ino[node]];
    }

    method DropParents(node: Addr)
      requires Linked() && node in ino
      modifies `edges, `dentries, `parents
      ensures Linked() && edges == map s | s in old(edges) && old(edges)[s] != ino[node] :: old(edges)[s]
    {
      hide Indexed, AgreeDown, AgreeUp;
      ghost var i := ino[node];
      LinksOf(node);
      while parents[node] != map[]
        invariant Linked() && node in parents && parents[node].Keys == Parents(edges, i)
        invariant edges.Keys <= old(edges).Keys
        invariant forall s :: s in edges ==> edges[s] == old(edges)[s]
        invariant forall s :: s in old(edges) && old(edges)[s] != i ==> s in edges
        decreases |edges|
      {
        var s :| s in parents[node];
        LinksOf(node);
        LinksOf(parents[node][s]);
        RemoveOne(edges, s);
        RemoveDentry(parents[node][s], s.name);
        LinksOf(node);
      }
      forall s | s in edges ensures edges[s] != i { assert s !in Parents(edges, i); }
    }

    method DropChildren(node: Addr)
      requires Linked() && node in ino
      modifies `edges, `dentries, `parents
      ensures Linked() && edges == map s | s in old(edges) && s.dir != ino[node] :: old(edges)[s]
    {
      hide Indexed, AgreeDown, AgreeUp;
      ghost var i := ino[node];
      LinksOf(node);
      while dentries[node] != map[]
        invariant Linked() && node in dentries
        invariant edges.Keys <= old(edges).Keys
        invariant forall s :: s in edges ==> edges[s] == old(edges)[s]
        invariant forall s :: s in old(edges) && s.dir != i ==> s in edges
        decreases |edges|
      {
        var n :| n in dentries[node];
        LinksOf(node);
        RemoveOne(edges, Slot(n, i));
        RemoveDentry(node, n);
        LinksOf(node);
      }
      LinksOf(node);
    }

    /** Drain both maps of an inode; each pass removes one link, so both loops end. */
    method UnlinkInode(node: Addr)
      requires Linked() && node in ino
      modifies `edges, `dentries, `parents
      ensures Linked() && edges == Unlinked(old(edges), ino[node])
    {
      hide Indexed, AgreeDown, AgreeUp;
      DropParents(node);
      DropChildren(node);
    }

    /** `delete in`, after it has left the index. */
    method Delete(node: Addr)
      requires Linked() && node in ino && ino[node] != ROOT
      requires forall s :: s in edges ==> s.dir != ino[node] && edges[s] != ino[node]
      modifies `dentries, `parents, `inodeMap, `ino, `attr
      ensures Linked() && ino == old(ino) - {node}
      ensures View() == old(View()).(nodes := old(View()).nodes - {old(ino[node])})
    {
      hide Indexed, AgreeDown, AgreeUp, Nodes;
      ghost var i := ino[node];
      LinksOf(node);
      InMemory();
      NodesReduced(inodeMap, ino, attr, i);
      ReducedIndex(inodeMap, ino, i);
      ReducedDown(inodeMap, ino, dentries, edges, i);
      ReducedUp(inodeMap, ino, parents, edges, i);
      inodeMap := inodeMap - {ino[node]};
      ino := ino - {node};
      attr := attr - {node};
      dentries, parents := dentries - {node}, parents - {node};
    }

    /** The structure leaves memory and the index, and links between others stay.  With
        `NoDangling` nothing points at it any more. */
    method RemoveInode(node: Addr)
      requires Linked() && node in ino && ino[node] != ROOT
      modifies `edges, `dentries, `parents, `inodeMap, `ino, `attr
      ensures Linked() && ino == old(ino) - {node}
      ensures View() == Cache(old(View()).nodes - {old(ino[node])}, Unlinked(old(edges), old(ino[node])))
    {
      hide Indexed, AgreeDown, AgreeUp, Nodes;
      UnlinkInode(node);
      Delete(node);
    }

    /** `new Inode`, filled and indexed under its number. */
    method NewInode(at: Addr, st: Stat)
      requires Linked() && at !in ino && st.ino !in inodeMap
      modifies `dentries, `parents, `inodeMap, `ino, `attr
      ensures Linked() && inodeMap == old(inodeMap)[st.ino := at] && ino == old(ino)[at := st.ino]
      ensures View() == old(View()).(nodes := old(View()).nodes[st.ino := Node(st.dir, 0)])
    {
      hide Indexed, AgreeDown, AgreeUp, Nodes;
      InMemory();
      NodesEnlarged(inodeMap, ino, attr, st.ino, at, Node(st.dir, 0));
      EnlargedIndex(inodeMap, ino, st.ino, at);
      EnlargedDown(inodeMap, ino, dentries, edges, st.ino, at);
      EnlargedUp(inodeMap, ino, parents, edges, st.ino, at);
      inodeMap := inodeMap[st.ino := at];
      ino := ino[at := st.ino];
      attr := attr[at := Node(st.dir, 0)];
      dentries, parents := dentries[at := map[]], parents[at := map[]];
    }

    /** Fill the status of a cached inode and set its count. */
    method Fill(i: Ino, x: Node)
      requires Linked() && i in inodeMap
      modifies `attr
      ensures Linked() && View() == old(View()).(nodes := old(View()).nodes[i := x])
    {
      hide Indexed, AgreeDown, AgreeUp, Nodes;
      InMemory();
      NodesUpdated(inodeMap, ino, attr, i, x);
      attr := attr[inodeMap[i] := x];
    }

    /** Cache a created object under a name, reusing the structure its number already has. */
    method AddInode(parent: Addr, name: string, st: Stat, at: Addr)
      requires Linked() && parent in ino && at !in ino
      modifies `edges, `dentries, `parents, `inodeMap, `ino, `attr
      ensures Linked()
      ensures View() == Cache(old(View()).nodes[st.ino := Node(st.dir, RefOf(old(View()), st.ino))],
                              (if st.ino in old(View()).nodes then Unlinked(old(edges), st.ino) else old(edges))
                                [Slot(name, old(ino[parent])) := st.ino])
    {
      hide Indexed, AgreeDown, AgreeUp, Nodes;
      InMemory();
      ViewNodes();
      if st.ino in inodeMap {
        UnlinkInode(inodeMap[st.ino]);
        Fill(st.ino, Node(st.dir, attr[inodeMap[st.ino]].ref));
      } else {
        NewInode(at, st);
      }
      InMemory();
      AddDentry(parent, name, inodeMap[st.ino]);
    }

    // -------------------------------------------------------------- paths

    /** Climb first parents.  The climb ends at a parentless inode; the call succeeds exactly when
        that is the root, and then the text spells the names passed on the way. */
    method MakeInodePath(buf: string, node: Addr, ghost rank: Ino -> nat)
      returns (ok: bool, path: string, ghost names: seq<string>, ghost top: Ino)
      requires Linked() && node in ino && IsRank(edges, rank) && Parents(edges, ROOT) == {}
      ensures Chain(edges, ino[node], names, top) && Parents(edges, top) == {}
      ensures ok <==> top == ROOT
      ensures path == if ok then Render(basedir, names) else buf
      decreases rank(ino[node])
    {
      hide AgreeDown, AgreeUp;
      LinksOf(node);
      if parents[node] != map[] {
        ghost var first := FirstExists(parents[node].Keys);
        var s :| s in parents[node] && IsFirst(s, parents[node].Keys);
        assert s in Parents(edges, ino[node]);
        ok, path, names, top := MakeInodePath(buf, parents[node][s], rank);
        if ok {
          path := path + "/";
          path := path + s.name;
        }
        ghost var longer := names + [s.name];
        assert longer[..|longer| - 1] == names;
        names := longer;
      } else {
        names, top := [], ino[node];
        assert parents[node].Keys == {};
        ok, path := node == root, buf;
        if ok {
          path := basedir + "/";
        }
      }
    }

    /** The path text of a cached inode: if the handlers find one, reading it as names leads from the
        root to the inode. */
    method InodePath(buf: string, i: Ino) returns (ok: bool, path: string)
      requires Valid() && i in inodeMap
      ensures ok <==> HasPath(edges, i)
      ensures if ok then basedir + "/" <= path && Walk(edges, ROOT, SplitNames(path[|basedir| + 1..])) == Some(i)
              else path == buf
    {
      hide LegalRun, After, Shaped;
      RunInvariant(run);
      NoParentOfRoot(After(run));
      ghost var rank: Ino -> nat :| IsRank(edges, rank);
      ghost var names, top;
      LinksOf(inodeMap[i]);
      ok, path, names, top := MakeInodePath(buf, inodeMap[i], rank);
      if ok {
        PathRoundTrip(run, basedir, i, names);
      }
      if HasPath(edges, i) {
        ghost var down :| Chain(edges, i, down, ROOT);
        ChainUnique(edges, i, names, top, down, ROOT);
      }
    }

    /** Whether the handlers find a path for a cached inode. */
    method HasPathTo(i: Ino) returns (ok: bool)
      requires Valid() && i in inodeMap
      ensures ok <==> HasPath(edges, i)
    {
      var path;
      ok, path := InodePath("", i);
    }

    // -------------------------------------------------------------- handlers

    /** The entry of a name in a directory, in memory and as a link. */
    lemma EntryOf(p: Ino, n: string)
      requires Linked() && p in inodeMap
      ensures inodeMap[p] in ino && ino[inodeMap[p]] == p && inodeMap[p] in dentries
      ensures n in dentries[inodeMap[p]] <==> Slot(n, p) in edges
      ensures Slot(n, p) in edges ==>
                var a := dentries[inodeMap[p]][n];
                a in ino && ino[a] == edges[Slot(n, p)] && ino[a] in inodeMap && inodeMap[ino[a]] == a
    {
    }

    /** The structure at `a` is allocated under number `i`, and the index has another one there. */
    ghost predicate Orphan(a: Addr, i: Ino)
      reads `inodeMap, `ino
    {
      a in ino && ino[a] == i && i in inodeMap && inodeMap[i] != a
    }

    lemma OrphanIsUnlinked(a: Addr, i: Ino)
      requires Orphan(a, i)
      ensures !Linked()
    {
    }

    /** What a lookup does that misses the name cache: a new structure is indexed under the number
        found, whatever is there already, and entered under the name.  The maps still agree if and
        only if nothing was there; what was there is left behind, with all pointers to it. */
    method AddFound(parent: Addr, name: string, st: Stat, at: Addr)
      requires Linked() && parent in ino && parent in dentries && name !in dentries[parent] && at !in ino
      modifies `edges, `dentries, `parents, `inodeMap, `ino, `attr
      ensures inodeMap == old(inodeMap)[st.ino := at] && ino == old(ino)[at := st.ino]
      ensures attr == old(attr)[at := Node(st.dir, 0)]
      ensures Linked() <==> st.ino !in old(inodeMap)
      ensures Linked() ==> View() == Cache(old(View()).nodes[st.ino := Node(st.dir, 0)],
                                           old(edges)[Slot(name, old(ino[parent])) := st.ino])
      ensures !Linked() ==> Orphan(old(inodeMap)[st.ino], st.ino)
      ensures KeepsEntries(old(dentries), dentries)
    {
      hide Indexed, AgreeDown, AgreeUp, Nodes, KeepsEntries;
      ghost var s := Slot(name, ino[parent]);
      InMemory();
      Allocated(at);
      LinksOf(parent);
      EntriesKept(dentries, at, parent, name);
      if st.ino !in inodeMap {
        NodesEnlarged(inodeMap, ino, attr, st.ino, at, Node(st.dir, 0));
        EnlargedWithLink(inodeMap, ino, dentries, parents, edges, s, st.ino, at);
      }
      inodeMap := inodeMap[st.ino := at];
      ino := ino[at := st.ino];
      attr := attr[at := Node(st.dir, 0)];
      dentries := dentries[at := map[]];
      dentries := dentries[parent := dentries[parent][name := at]];
      parents := parents[at := map[Slot(name, ino[parent]) := parent]];
      edges := edges[s := st.ino];
      if st.ino in old(inodeMap) {
        OrphanIsUnlinked(old(inodeMap)[st.ino], st.ino);
      }
    }

    /** Fill the status of a structure and set its count. */
    method FillAt(node: Addr, x: Node)
      requires node in attr
      modifies `attr
      ensures attr == old(attr)[node := x] && (Linked() <==> old(Linked()))
      ensures Linked() && node in ino ==> View() == old(View()).(nodes := old(View()).nodes[ino[node] := x])
    {
      hide AgreeDown, AgreeUp, Nodes;
      if Linked() && node in ino {
        LinksOf(node);
        InMemory();
        NodesUpdated(inodeMap, ino, attr, ino[node], x);
      }
      attr := attr[node := x];
    }

    /** A lookup does to memory what the step does to the cache, if and only if it does not miss the
        name cache and find a number that is indexed already. */
    method Lookup(pino: Ino, name: string, found: Option<Stat>, at: Addr) returns (reply: Option<Ino>)
      requires Valid() && at !in ino && AllowedButForNumber(After(run), Event.Lookup(pino, name, found))
      modifies this
      ensures run == old(run) + [Event.Lookup(pino, name, found)]
      ensures reply == Step(After(old(run)), Event.Lookup(pino, name, found)).1
      ensures Valid() <==> !(reply.Some? && Slot(name, pino) !in old(edges) && found.value.ino in old(inodeMap))
      ensures !Valid() ==> Orphan(old(inodeMap)[found.value.ino], found.value.ino)
    {
      hide Linked, Nodes, HasPath, LegalRun, After;
      ghost var ev := Event.Lookup(pino, name, found);
      ghost var c := After(run);
      AfterOne(run, ev);
      ViewNodes();
      var ok := HasPathTo(pino);
      assert Allowed(c, ev) <==>
             !(ok && found.Some? && Slot(name, pino) !in edges && found.value.ino in inodeMap);
      hide Allowed;
      reply := None;
      if ok && found.Some? {
        EntryOf(pino, name);
        var parent := inodeMap[pino];
        var node := at;
        if name in dentries[parent] {
          node := dentries[parent][name];
        } else {
          AddFound(parent, name, found.value, at);
        }
        reply := Some(ino[node]);
        FillAt(node, Node(found.value.dir, attr[node].ref + 1));
        if Linked() {
          assert View().nodes == c.nodes[ino[node] := Node(found.value.dir, RefOf(c, ino[node]) + 1)];
        }
      }
      run := run + [ev];
      if Linked() {
        LegalMore(old(run), ev);
      }
    }

    method Forget(i: Ino, nlookup: nat) returns (bad: bool)
      requires Valid() && LegalRun(run + [Event.Forget(i, nlookup)])
      modifies this
      ensures Valid() && run == old(run) + [Event.Forget(i, nlookup)]
      ensures !bad
    {
      hide Linked, Nodes, HasPath, LegalRun, After;
      ghost var ev := Event.Forget(i, nlookup);
      AfterOne(run, ev);
      ViewNodes();
      bad := false;
      if i != ROOT {
        ForgetIsExact(run, i, nlookup);
        if i in inodeMap {
          var x := attr[inodeMap[i]];
          bad := x.ref < nlookup;
          Fill(i, x.(ref := x.ref - nlookup));
          if x.ref - nlookup <= 0 {
            EntryOf(i, "");
            RemoveInode(inodeMap[i]);
            assert View().nodes == After(old(run)).nodes - {i};
          }
        } else {
          bad := true;
        }
      }
      run := run + [ev];
    }

    /** The cache effect shared by mknod, mkdir, symlink and create. */
    method Create(parent: Ino, name: string, made: Option<Stat>, at: Addr) returns (reply: Option<Ino>)
      requires Valid() && at !in ino && LegalRun(run + [Event.Create(parent, name, made)])
      modifies this
      ensures Valid() && run == old(run) + [Event.Create(parent, name, made)]
      ensures reply == Step(After(old(run)), Event.Create(parent, name, made)).1
    {
      hide Linked, Nodes, HasPath, LegalRun, After;
      ghost var ev := Event.Create(parent, name, made);
      ghost var c := After(run);
      LegalOne(run, ev);
      AfterOne(run, ev);
      ViewNodes();
      var ok := HasPathTo(parent);
      reply := None;
      if ok && made.Some? {
        EntryOf(parent, name);
        var i := made.value.ino;
        AddInode(inodeMap[parent], name, made.value, at);
        ViewNodes();
        Fill(i, attr[inodeMap[i]].(ref := attr[inodeMap[i]].ref + 1));
        assert View().nodes == c.nodes[i := Node(made.value.dir, RefOf(c, i) + 1)];
        reply := Some(i);
      }
      run := run + [ev];
    }

    /** The cache effect shared by unlink and rmdir. */
    method Remove(parent: Ino, name: string, done: bool)
      requires Valid() && LegalRun(run + [Event.Remove(parent, name, done)])
      modifies this
      ensures Valid() && run == old(run) + [Event.Remove(parent, name, done)]
    {
      hide Linked, Nodes, HasPath, LegalRun, After;
      ghost var ev := Event.Remove(parent, name, done);
      LegalOne(run, ev);
      AfterOne(run, ev);
      ViewNodes();
      var ok := HasPathTo(parent);
      if ok && done {
        EntryOf(parent, name);
        if name in dentries[inodeMap[parent]] {
          RemoveDentry(inodeMap[parent], name);
        } else {
          assert edges - {Slot(name, parent)} == edges;
        }
      }
      run := run + [ev];
    }

    method Rename(parent: Ino, name: string, newParent: Ino, newName: string, done: bool)
      requires Valid() && LegalRun(run + [Event.Rename(parent, name, newParent, newName, done)])
      modifies this
      ensures Valid() && run == old(run) + [Event.Rename(parent, name, newParent, newName, done)]
    {
      hide Linked, Nodes, HasPath, LegalRun, After;
      ghost var ev := Event.Rename(parent, name, newParent, newName, done);
      LegalOne(run, ev);
      AfterOne(run, ev);
      ViewNodes();
      var ok := HasPathTo(parent);
      var newOk := HasPathTo(newParent);
      if ok && newOk && done {
        EntryOf(parent, name);
        EntryOf(newParent, newName);
        var pin := inodeMap[parent];
        if name in dentries[pin] {
          AddDentry(inodeMap[newParent], newName, dentries[pin][name]);
          EntryOf(parent, name);
          RemoveDentry(pin, name);
        }
      }
      run := run + [ev];
    }

    method Link(i: Ino, newParent: Ino, newName: string, linked: Option<Stat>) returns (reply: Option<Ino>)
      requires Valid() && LegalRun(run + [Event.Link(i, newParent, newName, linked)])
      modifies this
      ensures Valid() && run == old(run) + [Event.Link(i, newParent, newName, linked)]
      ensures reply == Step(After(old(run)), Event.Link(i, newParent, newName, linked)).1
    {
      hide Linked, Nodes, HasPath, LegalRun, After;
      ghost var ev := Event.Link(i, newParent, newName, linked);
      LegalOne(run, ev);
      AfterOne(run, ev);
      ViewNodes();
      var ok := HasPathTo(i);
      var newOk := HasPathTo(newParent);
      reply := None;
      if ok && newOk && linked.Some? {
        EntryOf(i, "");
        EntryOf(newParent, newName);
        AddDentry(inodeMap[newParent], newName, inodeMap[i]);
        Fill(i, Node(linked.value.dir, attr[inodeMap[i]].ref + 1));
        reply := Some(i);
      }
      run := run + [ev];
    }
  }
}
