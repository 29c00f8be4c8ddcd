/** The chunker of the state-diagram script and the stack of contexts it keeps while reading
    chunks.  What a regular expression finds in a chunk is an input: the tags it pushes. */
module StateDiagram {
  import opened CommentStripper

  // ---------------------------------------------------------------- characters and chunks

  function Blank(s: string): string {
    seq(|s|, i requires 0 <= i < |s| => if s[i] == '\n' then ' ' else s[i])
  }

  function Joined(lines: seq<string>): string {
    if lines == [] then "" else Joined(lines[..|lines| - 1]) + lines[|lines| - 1]
  }

  /** A line stands in the joined text behind the lines before it, and the next line behind it. */
  lemma {:induction false} JoinedAt(lines: seq<string>, i: nat)
    requires i < |lines|
    ensures var at := |Joined(lines[..i])|;
            && |Joined(lines[..i + 1])| == at + |lines[i]| <= |Joined(lines)|
            && Joined(lines)[at..at + |lines[i]|] == lines[i]
  {
    assert lines[..i + 1][..i] == lines[..i];
    var front := lines[..|lines| - 1];
    if i < |lines| - 1 {
      JoinedAt(front, i);
      assert front[..i] == lines[..i] && front[..i + 1] == lines[..i + 1];
      assert Joined(front) <= Joined(lines);
    } else {
      assert lines[..i + 1] == lines && front == lines[..i];
    }
  }

  /** All characters of all lines, with line ends turned into blanks. */
  method ToChar(lines: seq<string>) returns (out: string)
    ensures out == Blank(Joined(lines)) && '\n' !in out
    ensures |out| == |Joined(lines)|
    ensures forall k :: 0 <= k < |out| ==>
              if Joined(lines)[k] == '\n' then out[k] == ' ' else out[k] == Joined(lines)[k]
  {
    out := "";
    for i := 0 to |lines|
      invariant out == Blank(Joined(lines[..i]))
    {
      assert lines[..i + 1][..i] == lines[..i];
      ghost var before := out;
      for j := 0 to |lines[i]|
        invariant out == before + Blank(lines[i][..j])
      {
        assert lines[i][..j + 1] == lines[i][..j] + [lines[i][j]];
        out := out + if lines[i][j] != '\n' then [lines[i][j]] else " ";
      }
      assert lines[i][..|lines[i]|] == lines[i];
    }
    assert lines[..|lines|] == lines;
  }

  predicate IsEnd(c: char) {
    c == ';' || c == '{' || c == '}'
  }

  function LStrip(s: string): string {
    if s != [] && s[0] == '\n' then LStrip(s[1..]) else s
  }

  /** `LStrip` takes away line ends in front, and all of them. */
  lemma {:induction false} LStripMeans(s: string)
    ensures |LStrip(s)| <= |s| && s[|s| - |LStrip(s)|..] == LStrip(s)
    ensures forall i :: 0 <= i < |s| - |LStrip(s)| ==> s[i] == '\n'
    ensures LStrip(s) != [] ==> LStrip(s)[0] != '\n'
  {
    if s != [] && s[0] == '\n' {
      var (t, n) := (s[1..], |s| - |LStrip(s)|);
      LStripMeans(t);
      assert s[n..] == t[n - 1..];
      forall i | 0 <= i < n ensures s[i] == '\n' {
        assert i > 0 ==> s[i] == t[i - 1];
      }
    }
  }

  /** A chunk ends in its only `;`, `{` or `}`. */
  predicate IsChunk(c: string) {
    c != [] && IsEnd(c[|c| - 1]) && forall i :: 0 <= i < |c| - 1 ==> !IsEnd(c[i])
  }

  lemma {:induction false} LStripChunk(c: string)
    requires IsChunk(c)
    ensures IsChunk(LStrip(c)) && LStrip(c)[|LStrip(c)| - 1] == c[|c| - 1]
    ensures '\n' !in c ==> LStrip(c) == c
    ensures Depth(LStrip(c)) == Depth(c)
  {
    if c[0] == '\n' {
      LStripChunk(c[1..]);
      DepthConcat([c[0]], c[1..]);
      assert c == [c[0]] + c[1..];
    }
  }

  /** Opening less closing braces. */
  function Depth(s: string): int {
    if s == [] then 0
    else Depth(s[1..]) + (if s[0] == '{' then 1 else if s[0] == '}' then -1 else 0)
  }

  lemma {:induction false} DepthConcat(s: string, t: string)
    ensures Depth(s + t) == Depth(s) + Depth(t)
  {
    if s == [] {
      assert s + t == t;
    } else {
      DepthConcat(s[1..], t);
      assert (s + t)[1..] == s[1..] + t;
    }
  }

  lemma {:induction false} DepthOfChunk(c: string)
    requires IsChunk(c)
    ensures Depth(c) == if c[|c| - 1] == '{' then 1 else if c[|c| - 1] == '}' then -1 else 0
    ensures '{' in c <==> c[|c| - 1] == '{'
    ensures '}' in c <==> c[|c| - 1] == '}'
  {
    if |c| > 1 {
      DepthOfChunk(c[1..]);
      assert c == [c[0]] + c[1..];
    }
  }

  function DepthOf(chunks: seq<string>): int {
    if chunks == [] then 0 else DepthOf(chunks[..|chunks| - 1]) + Depth(chunks[|chunks| - 1])
  }

  lemma AddNothing()
    ensures Joined([]) == "" && DepthOf([]) == 0 == Depth("")
  {
  }

  lemma {:induction false} AddChunk(chunks: seq<string>, raw: seq<string>, c: string)
    requires IsChunk(c) && DepthOf(chunks) == Depth(Joined(raw))
    ensures Joined(raw + [c]) == Joined(raw) + c
    ensures DepthOf(chunks + [LStrip(c)]) == Depth(Joined(raw + [c]))
  {
    LStripChunk(c);
    DepthConcat(Joined(raw), c);
    assert (raw + [c])[..|raw|] == raw && (chunks + [LStrip(c)])[..|chunks|] == chunks;
  }

  /** The chunks are the text cut behind every `;`, `{` and `}` (`raw`), less leading line ends;
      only a rest without any of these characters is lost, so brace depth is preserved. */
  method AccLines(s: string) returns (chunks: seq<string>, ghost raw: seq<string>, ghost rest: string)
    ensures s == Joined(raw) + rest && forall c :: c in rest ==> !IsEnd(c)
    ensures |chunks| == |raw|
    ensures forall i :: 0 <= i < |raw| ==> IsChunk(raw[i]) && IsChunk(chunks[i]) && chunks[i] == LStrip(raw[i])
    ensures '\n' !in s ==> chunks == raw
    ensures DepthOf(chunks) == Depth(s)
  {
    hide LStrip, Depth, DepthOf, Joined;
    chunks, raw := [], [];
    AddNothing();
    var current := "";
    for k := 0 to |s|
      invariant s[..k] == Joined(raw) + current
      invariant forall i :: 0 <= i < |current| ==> !IsEnd(current[i])
      invariant |chunks| == |raw|
      invariant forall i :: 0 <= i < |raw| ==> IsChunk(raw[i]) && IsChunk(chunks[i]) && chunks[i] == LStrip(raw[i])
      invariant '\n' !in s ==> chunks == raw
      invariant DepthOf(chunks) == Depth(Joined(raw))
    {
      assert s[..k + 1] == s[..k] + [s[k]];
      current := current + [s[k]];
      if IsEnd(s[k]) {
        LStripChunk(current);
        AddChunk(chunks, raw, current);
        assert '\n' !in s ==> '\n' !in current by {
          assert forall i :: 0 <= i < |current| ==> current[i] == s[..k + 1][|Joined(raw)| + i];
        }
        chunks := chunks + [LStrip(current)];
        raw := raw + [current];
        current := "";
      }
    }
    assert s[..|s|] == s;
    rest := current;
    DepthConcat(Joined(raw), rest);
    NoBraces(rest);
  }

  lemma {:induction false} NoBraces(s: string)
    requires forall i :: 0 <= i < |s| ==> !IsEnd(s[i])
    ensures Depth(s) == 0
  {
    if s != [] {
      NoBraces(s[1..]);
    }
  }

  lemma {:induction false} StripPart(s: string, c: char)
    requires c in Strip(s)
    ensures c in s
    decreases |s|
  {
    var i := Find(s, '/', '*');
    if i >= 0 && c !in s[..i] {
      StripPart(AfterComment(s[i + 2..]), c);
    }
  }

  /** The filters in a row.  The chunks are the text with line ends turned into blanks and block
      comments cut out, cut behind every `;`, `{` and `}`; what is lost has none of these. */
  method DoFilter(lines: seq<string>) returns (chunks: seq<string>, ghost rest: string)
    ensures Joined(chunks) + rest == Strip(Blank(Joined(lines))) && forall c :: c in rest ==> !IsEnd(c)
    ensures forall i :: 0 <= i < |chunks| ==> IsChunk(chunks[i])
    ensures DepthOf(chunks) == Depth(Strip(Blank(Joined(lines))))
  {
    hide Strip, Pending, Depth, DepthOf, Joined, Blank, IsChunk;
    var text := ToChar(lines);
    var code := RemoveMultilineComments(text);
    ghost var slash := if Pending(text) then "/" else "";
    forall c | c in code ensures c != '\n' {
      assert c in Strip(text);
      StripPart(text, c);
    }
    ghost var raw;
    chunks, raw, rest := AccLines(code);
    DepthConcat(code, slash);
    NoBraces(slash);
    assert Joined(chunks) + (rest + slash) == (Joined(chunks) + rest) + slash;
    rest := rest + slash;
  }

  // ---------------------------------------------------------------- contexts

  type Tag = string

  /** A chunk, and the tags `get_state` and `get_context` push for it, in that order. */
  datatype Line = Line(chunk: string, tags: seq<Tag>)

  type Context = seq<(Tag, int)>

  function Marked(tags: seq<Tag>, depth: int): (c: Context)
    ensures |c| == |tags|
  {
    seq(|tags|, i requires 0 <= i < |tags| => (tags[i], depth))
  }

  /** The stack after dropping all entries of one depth from its top. */
  function Popped(c: Context, depth: int): Context {
    if c != [] && c[|c| - 1].1 == depth then Popped(c[..|c| - 1], depth) else c
  }

  /** What is dropped is of that depth, and nothing of that depth is left on top. */
  lemma {:induction false} PoppedMeans(c: Context, depth: int)
    ensures Popped(c, depth) <= c
    ensures forall i :: |Popped(c, depth)| <= i < |c| ==> c[i].1 == depth
    ensures Popped(c, depth) != [] ==> c[|Popped(c, depth)| - 1].1 != depth
  {
    if c != [] && c[|c| - 1].1 == depth {
      PoppedMeans(c[..|c| - 1], depth);
    }
  }

  datatype State = State(context: Context, depth: int)

  function Step(st: State, line: Line): State {
    var pushed := st.context + Marked(line.tags, st.depth);
    var deeper := st.depth + if '{' in line.chunk then 1 else 0;
    if '}' in line.chunk then State(Popped(pushed, deeper - 1), deeper - 1) else State(pushed, deeper)
  }

  function Read(lines: seq<Line>): State {
    if lines == [] then State([], 0) else Step(Read(lines[..|lines| - 1]), lines[|lines| - 1])
  }

  /** What `get_state` and `get_context` find in each chunk. */
  function Tagged(chunks: seq<string>, tags: string -> seq<Tag>): (lines: seq<Line>)
    ensures |lines| == |chunks| && forall i :: 0 <= i < |chunks| ==> lines[i] == Line(chunks[i], tags(chunks[i]))
  {
    seq(|chunks|, i requires 0 <= i < |chunks| => Line(chunks[i], tags(chunks[i])))
  }

  class Renderer {
    var context: Context
    var depth: int

    constructor ()
      ensures State(context, depth) == Read([])
    {
      context, depth := [], 0;
    }

    method GetContext(line: Line)
      modifies this
      ensures State(context, depth) == Step(old(State(context, depth)), line)
    {
      context := context + Marked(line.tags, depth);
      if '{' in line.chunk {
        depth := depth + 1;
      }
      if '}' in line.chunk {
        depth := depth - 1;
        ghost var pushed, d := context, depth;
        while |context| > 0 && context[|context| - 1].1 == depth
          invariant depth == d && Popped(context, depth) == Popped(pushed, depth)
        {
          context := context[..|context| - 1];
        }
      }
    }

    /** From source text to the stack: the depth is the brace depth of the text without its comments,
        and the stack was right all along if and only if tags were pushed only where blocks open. */
    method ReadSource(lines: seq<string>, tags: string -> seq<Tag>)
      returns (ghost chunks: seq<string>, ghost rest: string)
      requires State(context, depth) == Read([])
      modifies this
      ensures Joined(chunks) + rest == Strip(Blank(Joined(lines))) && forall c :: c in rest ==> !IsEnd(c)
      ensures State(context, depth) == Read(Tagged(chunks, tags))
      ensures depth == Depth(Strip(Blank(Joined(lines))))
      ensures AlwaysAgrees(Tagged(chunks, tags)) <==> Disciplined(Tagged(chunks, tags))
    {
      hide Strip, Depth, DepthOf, Joined, Blank, IsChunk, AlwaysAgrees, Disciplined, Read;
      var found;
      found, rest := DoFilter(lines);
      chunks := found;
      ReadInput(Tagged(found, tags));
      assert Chunks(Tagged(found, tags)) == found;
      ReadDepth(Tagged(found, tags));
      StackIsOpenBlocksIff(Tagged(found, tags));
    }

    method ReadInput(lines: seq<Line>)
      requires State(context, depth) == Read([])
      modifies this
      ensures State(context, depth) == Read(lines)
    {
      for i := 0 to |lines|
        invariant State(context, depth) == Read(lines[..i])
      {
        assert lines[..i + 1][..i] == lines[..i];
        GetContext(lines[i]);
      }
      assert lines[..|lines|] == lines;
    }
  }

  // ---------------------------------------------------------------- the reference: open blocks

  predicate Opens(line: Line) { line.chunk != [] && line.chunk[|line.chunk| - 1] == '{' }
  predicate Closes(line: Line) { line.chunk != [] && line.chunk[|line.chunk| - 1] == '}' }

  /** The blocks open after some lines, outermost first, each with the tags pushed where it opens. */
  function Blocks(lines: seq<Line>): seq<seq<Tag>> {
    if lines == [] then []
    else
      var before, line := Blocks(lines[..|lines| - 1]), lines[|lines| - 1];
      if Opens(line) then before + [line.tags]
      else if Closes(line) && before != [] then before[..|before| - 1]
      else before
  }

  /** The depth at which the outermost block starts: a closing brace when no block is open lowers it. */
  function Base(lines: seq<Line>): int {
    if lines == [] then 0
    else
      var front, line := lines[..|lines| - 1], lines[|lines| - 1];
      Base(front) - if Closes(line) && Blocks(front) == [] then 1 else 0
  }

  /** The stack the open blocks call for, the outermost being at depth `base`. */
  function Flat(blocks: seq<seq<Tag>>, base: int): Context {
    if blocks == [] then []
    else Flat(blocks[..|blocks| - 1], base) + Marked(blocks[|blocks| - 1], base + |blocks| - 1)
  }

  /** Lines as the chunker makes them. */
  predicate Chunked(lines: seq<Line>) {
    forall i :: 0 <= i < |lines| ==> IsChunk(lines[i].chunk)
  }

  /** Tags are pushed only where a block opens. */
  predicate Disciplined(lines: seq<Line>) {
    forall i :: 0 <= i < |lines| && lines[i].tags != [] ==> Opens(lines[i])
  }

  ghost predicate Agrees(lines: seq<Line>) {
    var (blocks, base) := (Blocks(lines), Base(lines));
    Read(lines) == State(Flat(blocks, base), base + |blocks|)
  }

  /** Depths never decrease up the stack, and lie from `base` to below `depth`. */
  predicate Layered(c: Context, base: int, depth: int) {
    && (forall i :: 0 <= i < |c| ==> base <= c[i].1 < depth)
    && (forall i, j :: 0 <= i < j < |c| ==> c[i].1 <= c[j].1)
  }

  lemma {:induction false} FlatBelow(blocks: seq<seq<Tag>>, base: int)
    ensures Layered(Flat(blocks, base), base, base + |blocks|)
  {
    if blocks != [] {
      FlatBelow(blocks[..|blocks| - 1], base);
    }
  }

  lemma {:induction false} PopMarked(c: Context, tags: seq<Tag>, depth: int)
    requires forall i :: 0 <= i < |c| ==> c[i].1 < depth
    ensures Popped(c + Marked(tags, depth), depth) == c
  {
    var all := c + Marked(tags, depth);
    if tags == [] {
      assert all == c;
    } else {
      assert all[..|all| - 1] == c + Marked(tags[..|tags| - 1], depth);
      PopMarked(c, tags[..|tags| - 1], depth);
    }
  }

  lemma {:induction false} CloseClean(blocks: seq<seq<Tag>>, base: int)
    requires blocks != []
    ensures Popped(Flat(blocks, base), base + |blocks| - 1) == Flat(blocks[..|blocks| - 1], base)
  {
    var outer := blocks[..|blocks| - 1];
    FlatBelow(outer, base);
    PopMarked(Flat(outer, base), blocks[|blocks| - 1], base + |outer|);
  }

  /** A chunk that closes a block takes the tags of that block off the stack, unless it pushes. */
  lemma {:induction false} CloseAgrees(blocks: seq<seq<Tag>>, tags: seq<Tag>, base: int)
    requires blocks != []
    ensures var pushed := Flat(blocks, base) + Marked(tags, base + |blocks|);
            Popped(pushed, base + |blocks| - 1) == Flat(blocks[..|blocks| - 1], base) <==> tags == []
  {
    var all, pushed := Flat(blocks, base), Flat(blocks, base) + Marked(tags, base + |blocks|);
    CloseClean(blocks, base);
    assert |Flat(blocks[..|blocks| - 1], base)| <= |all|;
    hide Flat;
    if tags == [] {
      assert pushed == all;
    } else {
      assert pushed[|pushed| - 1].1 == base + |blocks|;
    }
  }

  /** A chunk that closes a block when none is open pops nothing. */
  lemma {:induction false} CloseNothing(tags: seq<Tag>, base: int)
    ensures Popped([] + Marked(tags, base), base - 1) == [] <==> tags == []
  {
    if tags != [] {
      assert ([] + Marked(tags, base))[|tags| - 1].1 == base;
    }
  }

  /** One line keeps the stack right if and only if it pushes only where it opens a block. */
  lemma LineAgrees(lines: seq<Line>)
    requires lines != [] && Chunked(lines) && Agrees(lines[..|lines| - 1])
    ensures Agrees(lines) <==> (lines[|lines| - 1].tags != [] ==> Opens(lines[|lines| - 1]))
  {
    var line := lines[|lines| - 1];
    var blocks, base := Blocks(lines[..|lines| - 1]), Base(lines[..|lines| - 1]);
    DepthOfChunk(line.chunk);
    assert Flat([], base) == [] == Flat([], base - 1);
    hide Flat, Popped;
    if Opens(line) {
      FlatOne(blocks, line.tags, base);
    } else if Closes(line) {
      if blocks == [] {
        CloseNothing(line.tags, base);
      } else {
        CloseAgrees(blocks, line.tags, base);
      }
    } else {
      assert |Flat(blocks, base) + Marked(line.tags, base + |blocks|)| == |Flat(blocks, base)| + |line.tags|;
    }
  }

  lemma {:induction false} FlatOne(blocks: seq<seq<Tag>>, tags: seq<Tag>, base: int)
    ensures Flat(blocks + [tags], base) == Flat(blocks, base) + Marked(tags, base + |blocks|)
  {
    assert (blocks + [tags])[..|blocks|] == blocks;
  }

  ghost predicate AlwaysAgrees(lines: seq<Line>) {
    forall k :: 0 <= k <= |lines| ==> Agrees(lines[..k])
  }

  lemma AlwaysAgreesFront(lines: seq<Line>)
    requires lines != []
    ensures AlwaysAgrees(lines) <==> AlwaysAgrees(lines[..|lines| - 1]) && Agrees(lines)
  {
    var front := lines[..|lines| - 1];
    assert lines[..|lines|] == lines;
    assert forall k :: 0 <= k <= |front| ==> front[..k] == lines[..k];
  }

  /** The stack is what the open blocks call for after every prefix of the input, if and only if
      every tag is pushed by a chunk that opens a block. */
  lemma {:induction false} StackIsOpenBlocksIff(lines: seq<Line>)
    requires Chunked(lines)
    ensures AlwaysAgrees(lines) <==> Disciplined(lines)
  {
    if lines == [] {
      assert Agrees([]);
    } else {
      var front := lines[..|lines| - 1];
      AlwaysAgreesFront(lines);
      StackIsOpenBlocksIff(front);
      hide Agrees, IsChunk;
      if AlwaysAgrees(front) {
        assert front[..|front|] == front;
        LineAgrees(lines);
      }
      assert lines == front + [lines[|lines| - 1]];
    }
  }

  /** While the discipline is kept: depths never decrease up the stack and lie between the depth of
      the outermost block and the current depth, which is the brace depth of the text read; the top
      is the last tag of the innermost open block that has tags, and the stack is empty only if no
      open block has any. */
  lemma {:induction false} TopIsInnermost(lines: seq<Line>)
    requires Chunked(lines) && Disciplined(lines)
    ensures var (st, blocks, base) := (Read(lines), Blocks(lines), Base(lines));
            && st.depth == base + |blocks| == DepthOf(Chunks(lines))
            && Layered(st.context, base, st.depth) && TopFits(st.context, blocks, base)
  {
    hide Flat, Layered, TopFits, Chunked, Disciplined, DepthOf, Blocks, Base, Read;
    StackIsOpenBlocksIff(lines);
    assert lines[..|lines|] == lines;
    assert Agrees(lines);
    FlatBelow(Blocks(lines), Base(lines));
    FlatTop(Blocks(lines), Base(lines));
    ReadDepth(lines);
  }

  /** The top is the last tag of the innermost open block that has tags; an empty stack means that
      none has any. */
  predicate TopFits(c: Context, blocks: seq<seq<Tag>>, base: int) {
    if c == [] then NoTags(blocks) else IsInnermost(blocks, c[|c| - 1].0, c[|c| - 1].1 - base)
  }

  predicate NoTags(blocks: seq<seq<Tag>>) {
    forall b :: 0 <= b < |blocks| ==> blocks[b] == []
  }

  /** The entry is the last tag of the innermost block that has tags. */
  predicate IsInnermost(blocks: seq<seq<Tag>>, tag: Tag, b: int) {
    0 <= b < |blocks| && blocks[b] != [] && tag == blocks[b][|blocks[b]| - 1] && NoTags(blocks[b + 1..])
  }

  lemma {:induction false} FlatTop(blocks: seq<seq<Tag>>, base: int)
    ensures TopFits(Flat(blocks, base), blocks, base)
  {
    if blocks != [] {
      var outer, last := blocks[..|blocks| - 1], blocks[|blocks| - 1];
      FlatTop(outer, base);
      if last == [] {
        assert Flat(blocks, base) == Flat(outer, base);
        if Flat(outer, base) != [] {
          var b := Flat(outer, base)[|Flat(outer, base)| - 1].1 - base;
          assert blocks[b + 1..] == outer[b + 1..] + [last];
        } else {
          assert blocks == outer + [last];
        }
      } else {
        assert Flat(blocks, base)[|Flat(blocks, base)| - 1] == (last[|last| - 1], base + |outer|);
      }
    }
  }

  function Chunks(lines: seq<Line>): (chunks: seq<string>)
    ensures |chunks| == |lines|
  {
    seq(|lines|, i requires 0 <= i < |lines| => lines[i].chunk)
  }

  /** The renderer's depth is the brace depth of what it has read, whatever it pushes. */
  lemma {:induction false} ReadDepth(lines: seq<Line>)
    requires Chunked(lines)
    ensures Read(lines).depth == DepthOf(Chunks(lines))
  {
    if lines != [] {
      ReadDepth(lines[..|lines| - 1]);
      DepthOfChunk(lines[|lines| - 1].chunk);
      assert Chunks(lines)[..|lines| - 1] == Chunks(lines[..|lines| - 1]);
    }
  }

  /** A tag pushed by a chunk that ends in `;`, as a forward declaration would, outlives its block
      and keeps the entries below it from ever being popped. */
  lemma StrayTagStays()
    ensures var lines := [Line("a {", ["A"]), Line("b;", ["B"]), Line("}", [])];
            Read(lines).depth == 0 && Read(lines).context == [("A", 0), ("B", 1)]
  {
    var a, b, c := Line("a {", ["A"]), Line("b;", ["B"]), Line("}", []);
    assert [a, b, c][..2] == [a, b] && [a, b][..1] == [a] && [a][..0] == [];
    assert a.chunk[2] == '{' && c.chunk[0] == '}';
    assert Read([a]) == State([("A", 0)], 1);
    assert Read([a, b]) == State([("A", 0), ("B", 1)], 1);
  }
}
