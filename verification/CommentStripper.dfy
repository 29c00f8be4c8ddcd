/** The streaming filter of the state-diagram script that deletes block comments, against the rule
    it stands for: cut from the first opening mark to the next closing mark, and go on behind it. */
module CommentStripper {

  /** Position of the first `a` directly followed by `b`, or -1. */
  function Find(s: string, a: char, b: char): (i: int)
    ensures -1 <= i && (i >= 0 ==> i <= |s| - 2)
  {
    if |s| < 2 then -1
    else if s[0] == a && s[1] == b then 0
    else
      var i := Find(s[1..], a, b);
      if i < 0 then -1 else i + 1
  }

  /** `Find` gives the first place where the two characters meet, or none if there is none. */
  lemma {:induction false} FindIsFirst(s: string, a: char, b: char, j: nat)
    requires j + 1 < |s|
    ensures var i := Find(s, a, b);
            && (i >= 0 ==> s[i] == a && s[i + 1] == b)
            && (s[j] == a && s[j + 1] == b ==> 0 <= i <= j)
  {
    if !(s[0] == a && s[1] == b) && |s| > 2 {
      FindIsFirst(s[1..], a, b, if j == 0 then 0 else j - 1);
    }
  }

  /** What follows the comment we are in; an unclosed comment runs to the end. */
  function AfterComment(s: string): (r: string)
    ensures |r| <= |s|
  {
    var j := Find(s, '*', '/');
    if j < 0 then [] else s[j + 2..]
  }

  /** The text without its block comments. */
  function Strip(s: string): string
    decreases |s|
  {
    var i := Find(s, '/', '*');
    if i < 0 then s else s[..i] + Strip(AfterComment(s[i + 2..]))
  }

  /** The text ends, outside a comment, in a slash that might have opened one. */
  predicate Pending(s: string)
    decreases |s|
  {
    var i := Find(s, '/', '*');
    if i < 0 then s != [] && s[|s| - 1] == '/' else Pending(AfterComment(s[i + 2..]))
  }

  /** The two characters meet at position `k`. */
  predicate Meet(s: string, a: char, b: char, k: int) {
    0 <= k && k + 1 < |s| && s[k] == a && s[k + 1] == b
  }

  ghost predicate Free(s: string, a: char, b: char) {
    forall j :: !Meet(s, a, b, j)
  }

  lemma {:induction false} FindBehind(head: string, a: char, b: char, rest: string)
    requires a != b && Free(head, a, b)
    ensures Find(head + [a, b] + rest, a, b) == |head|
  {
    FindIsFirst(head + [a, b] + rest, a, b, |head|);
    assert !Meet(head, a, b, Find(head + [a, b] + rest, a, b));
  }

  lemma {:induction false} FindNone(s: string, a: char, b: char)
    requires Free(s, a, b)
    ensures Find(s, a, b) < 0
  {
    if Find(s, a, b) >= 0 {
      FindIsFirst(s, a, b, Find(s, a, b));
      assert Meet(s, a, b, Find(s, a, b));
    }
  }

  /** A text with no opening mark is left alone. */
  lemma {:induction false} StripNone(s: string)
    requires Free(s, '/', '*')
    ensures Strip(s) == s && (Pending(s) <==> s != [] && s[|s| - 1] == '/')
  {
    FindNone(s, '/', '*');
  }

  /** From the first opening mark to the first closing mark behind it, a text is cut. */
  lemma {:induction false} StripCuts(before: string, inside: string, after: string)
    requires Free(before, '/', '*') && Free(inside, '*', '/')
    ensures Strip(before + "/*" + (inside + "*/" + after)) == before + Strip(after)
    ensures Pending(before + "/*" + (inside + "*/" + after)) <==> Pending(after)
  {
    hide Find, Free;
    var t := inside + "*/" + after;
    var s := before + "/*" + t;
    FindBehind(before, '/', '*', t);
    FindBehind(inside, '*', '/', after);
    assert s[|before| + 2..] == t && t[|inside| + 2..] == after && s[..|before|] == before;
  }

  /** A comment that is never closed runs to the end. */
  lemma {:induction false} StripUnclosed(before: string, inside: string)
    requires Free(before, '/', '*') && Free(inside, '*', '/')
    ensures Strip(before + "/*" + inside) == before && !Pending(before + "/*" + inside)
  {
    hide Free;
    FindBehind(before, '/', '*', inside);
    FindNone(inside, '*', '/');
    var s := before + "/*" + inside;
    assert s[|before| + 2..] == inside && s[..|before|] == before;
  }

  lemma {:induction false} FindShifts(t: string)
    requires t != [] && !(|t| > 1 && t[0] == '/' && t[1] == '*')
    ensures var i := Find(t[1..], '/', '*'); Find(t, '/', '*') == if i < 0 then -1 else i + 1
  {
  }

  /** A character of code that opens no comment stays. */
  lemma {:induction false} CodeChar(t: string)
    requires t != [] && !(t[0] == '/' && |t| == 1) && !(|t| > 1 && t[0] == '/' && t[1] == '*')
    ensures Strip(t) == [t[0]] + Strip(t[1..]) && Pending(t) == Pending(t[1..])
  {
    hide Find, AfterComment;
    FindShifts(t);
    var u, i := t[1..], Find(t[1..], '/', '*');
    if i >= 0 {
      var rest := AfterComment(u[i + 2..]);
      assert t[i + 3..] == u[i + 2..] && t[..i + 1] == [t[0]] + u[..i];
      assert Strip(t) == t[..i + 1] + Strip(rest) && Strip(u) == u[..i] + Strip(rest);
    }
  }

  /** The text still to be read, starting with the character held back. */
  function Rest(inComment: bool, t: string): string {
    if inComment then AfterComment(t) else t
  }

  /** What has been given out, and what is still to be given out from `t` on, make up `s`. */
  ghost predicate Accounts(s: string, out: string, inComment: bool, t: string) {
    Strip(s) == out + Strip(Rest(inComment, t)) && Pending(s) == Pending(Rest(inComment, t))
  }

  /** A character of code is given out. */
  lemma GivesOut(s: string, out: string, t: string)
    requires Accounts(s, out, false, t)
    requires t != [] && !(t[0] == '/' && |t| == 1) && !(|t| > 1 && t[0] == '/' && t[1] == '*')
    ensures Accounts(s, out + [t[0]], false, t[1..])
  {
    CodeChar(t);
  }

  lemma Opens(s: string, out: string, t: string)
    requires Accounts(s, out, false, t) && |t| > 1 && t[0] == '/' && t[1] == '*'
    ensures Accounts(s, out, true, t[2..])
  {
    hide Find, AfterComment;
    FindIsFirst(t, '/', '*', 0);
    assert t[..0] == [];
  }

  /** A character inside a comment that does not close it is skipped. */
  lemma Skips(s: string, out: string, t: string)
    requires Accounts(s, out, true, t) && t != [] && !(|t| > 1 && t[0] == '*' && t[1] == '/')
    ensures Accounts(s, out, true, t[1..])
  {
    hide Strip, Pending;
  }

  lemma Closes(s: string, out: string, t: string)
    requires Accounts(s, out, true, t) && |t| > 1 && t[0] == '*' && t[1] == '/'
    ensures Accounts(s, out, false, t[2..])
  {
    hide Strip, Pending;
  }

  /** What is decided when the stream ends with `t` held back. */
  lemma {:induction false} AtEnd(s: string, out: string, inComment: bool, t: string)
    requires Accounts(s, out, inComment, t) && (t == "" || t == if inComment then "*" else "/")
    ensures Strip(s) == out + if Pending(s) then "/" else ""
  {
  }

  lemma AtStart(s: string)
    ensures Accounts(s, "", false, s)
  {
  }

  /** A stream that ends in a slash: the rule keeps it and the filter, which gives out `out`, does not. */
  lemma SlashAtEndIsLost(out: string)
    requires Strip("a/") == out + if Pending("a/") then "/" else ""
    ensures Strip("a/") == "a/" && out == "a"
  {
    assert "a/"[1..] == "/";
    assert Find("a/", '/', '*') == -1;
  }

  /** The filter equals the rule on every stream, save that a slash still held back at the end of
      the stream is never given out. */
  method RemoveMultilineComments(s: string) returns (out: string)
    ensures Strip(s) == out + if Pending(s) then "/" else ""
    ensures out == Strip(s) <==> !Pending(s)
  {
    hide Accounts, Strip, Pending;
    out := "";
    var saw := "";
    var inComment := false;
    AtStart(s);
    for k := 0 to |s|
      invariant saw == "" || (k > 0 && saw == [s[k - 1]] && saw == if inComment then "*" else "/")
      invariant Accounts(s, out, inComment, s[k - |saw|..])
    {
      var c := s[k];
      ghost var t := s[k - |saw|..];
      assert saw != "" ==> t[1..] == s[k..] && t[2..] == s[k + 1..];
      assert s[k..][1..] == s[k + 1..];
      if inComment {
        if saw == "*" {
          if c == '/' {
            Closes(s, out, t);
            inComment := false;
          } else {
            Skips(s, out, t);
          }
          saw := "";
        }
        if c == '*' {
          saw := "*";
        } else if inComment {
          Skips(s, out, s[k..]);
        }
        continue;
      }
      if saw == "/" {
        if c == '*' {
          Opens(s, out, t);
          inComment := true;
          saw := "";
          continue;
        } else {
          GivesOut(s, out, t);
          out := out + saw;
          saw := "";
        }
      }
      if c == '/' {
        saw := "/";
        continue;
      }
      GivesOut(s, out, s[k..]);
      out := out + [c];
    }
    assert s[|s| - |saw|..] == saw;
    AtEnd(s, out, inComment, saw);
  }
}
