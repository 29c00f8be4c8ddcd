/** Packing of a CRUSH location, a list of type and name strings, into a caller's buffer as
    NUL-terminated strings, with a size query for length 0. */
module CrushLocation {

  type Location = seq<(string, string)>

  const NUL: char := '\0'
  const EINVAL := 22
  const ERANGE := 34
  const ENOTCONN := 107

  function Size(loc: Location): nat {
    if loc == [] then 0
    else Size(loc[..|loc| - 1]) + |loc[|loc| - 1].0| + |loc[|loc| - 1].1| + 2
  }

  function EncodePair(kind: string, name: string): string {
    kind + [NUL] + name + [NUL]
  }

  function Encode(loc: Location): string {
    if loc == [] then ""
    else Encode(loc[..|loc| - 1]) + EncodePair(loc[|loc| - 1].0, loc[|loc| - 1].1)
  }

  predicate NulFree(loc: Location) {
    forall i :: 0 <= i < |loc| ==> NUL !in loc[i].0 && NUL !in loc[i].1
  }

  // ---------------------------------------------------------------- reading a buffer back

  /** What a C program sees as the string at the start of `b`. */
  function CString(b: string): (s: string)
    ensures |s| <= |b| && NUL !in s
  {
    if b == [] || b[0] == NUL then "" else [b[0]] + CString(b[1..])
  }

  /** The pairs in a packed buffer; incomplete ones are not there. */
  function Decode(b: string): (loc: Location)
    ensures NulFree(loc)
    decreases |b|
  {
    var kind := CString(b);
    if |b| < |kind| + 1 then []
    else
      var rest := b[|kind| + 1..];
      var name := CString(rest);
      if |rest| < |name| + 1 then [] else [(kind, name)] + Decode(rest[|name| + 1..])
  }

  lemma {:induction false} CStringStops(s: string, rest: string)
    requires NUL !in s
    ensures CString(s + [NUL] + rest) == s
  {
    if s != [] {
      assert (s + [NUL] + rest)[1..] == s[1..] + [NUL] + rest;
      CStringStops(s[1..], rest);
    }
  }

  lemma {:induction false} EncodeFront(loc: Location)
    requires loc != []
    ensures Encode(loc) == EncodePair(loc[0].0, loc[0].1) + Encode(loc[1..])
  {
    hide EncodePair;
    var front, last := loc[..|loc| - 1], loc[|loc| - 1];
    if front == [] {
      assert Encode(front) == "" == Encode(loc[1..]);
    } else {
      EncodeFront(front);
      assert loc[1..][..|loc| - 2] == front[1..];
      assert Encode(loc[1..]) == Encode(front[1..]) + EncodePair(last.0, last.1);
    }
  }

  /** Reading one pair off the front of a buffer. */
  lemma {:induction false} DecodePair(kind: string, name: string, rest: string)
    requires NUL !in kind && NUL !in name
    ensures Decode(EncodePair(kind, name) + rest) == [(kind, name)] + Decode(rest)
  {
    hide CString;
    var b := EncodePair(kind, name) + rest;
    var tail := name + [NUL] + rest;
    assert b == kind + [NUL] + tail;
    CStringStops(kind, tail);
    assert b[|kind| + 1..] == tail;
    CStringStops(name, rest);
    assert tail[|name| + 1..] == rest;
  }

  /** Where an entry lies in the packed text: its type, a NUL, its name, a NUL, behind all entries
      before it. */
  lemma {:induction false} EncodedAt(loc: Location, i: nat)
    requires i < |loc|
    ensures var (at, kind, name) := (Size(loc[..i]), loc[i].0, loc[i].1);
            && at + |kind| + |name| + 2 <= |Encode(loc)|
            && Encode(loc)[at..at + |kind| + |name| + 2] == kind + [NUL] + name + [NUL]
  {
    var front := loc[..|loc| - 1];
    EncodeSize(front);
    if i < |loc| - 1 {
      EncodedAt(front, i);
      assert front[..i] == loc[..i];
      assert Encode(front) <= Encode(loc);
    }
  }

  /** A packed location is read back exactly, provided its strings have no NUL. */
  lemma {:induction false} DecodeEncode(loc: Location)
    requires NulFree(loc)
    ensures Decode(Encode(loc)) == loc
    decreases |loc|
  {
    if loc != [] {
      hide Encode, EncodePair, Decode;
      EncodeFront(loc);
      DecodePair(loc[0].0, loc[0].1, Encode(loc[1..]));
      DecodeEncode(loc[1..]);
    }
  }

  lemma {:induction false} EncodeSize(loc: Location)
    ensures |Encode(loc)| == Size(loc)
  {
    if loc != [] {
      EncodeSize(loc[..|loc| - 1]);
    }
  }

  /** The longest run of leading entries that fits. */
  function Fitting(loc: Location, len: nat): (f: Location)
    ensures Size(f) <= len
  {
    if Size(loc) <= len then loc else Fitting(loc[..|loc| - 1], len)
  }

  /** `Fitting` is a run of leading entries, and no longer one fits. */
  lemma {:induction false} FittingIsLongest(loc: Location, len: nat, k: nat)
    requires k <= |loc|
    ensures Fitting(loc, len) <= loc
    ensures Size(loc[..k]) <= len <==> k <= |Fitting(loc, len)|
  {
    SizeGrows(loc, k);
    if k == |loc| {
      assert loc[..k] == loc;
    }
    if Size(loc) > len {
      if k < |loc| {
        FittingIsLongest(loc[..|loc| - 1], len, k);
        assert loc[..|loc| - 1][..k] == loc[..k];
      } else {
        FittingIsLongest(loc[..|loc| - 1], len, k - 1);
      }
    }
  }

  lemma {:induction false} SizeGrows(loc: Location, k: nat)
    requires k <= |loc|
    ensures Size(loc[..k]) <= Size(loc)
  {
    if k == |loc| {
      assert loc[..k] == loc;
    } else {
      SizeGrows(loc[..|loc| - 1], k);
      assert loc[..|loc| - 1][..k] == loc[..k];
    }
  }

  // ---------------------------------------------------------------- the call

  /** A `size_t` returned as a 32-bit `int`. */
  function AsInt(n: nat): int {
    (n + 0x8000_0000) % 0x1_0000_0000 - 0x8000_0000
  }

  /** The value returned for a location that was found. */
  function Result(loc: Location, len: nat): int {
    if len != 0 && Size(loc) > len then -ERANGE else AsInt(Size(loc))
  }

  /** The size if the buffer takes it or the length is 0, provided it fits an `int`; -ERANGE otherwise. */
  lemma {:induction false} ResultMeans(loc: Location, len: nat)
    ensures Size(loc) < 0x8000_0000 ==> Result(loc, len) == if 0 < len < Size(loc) then -ERANGE else Size(loc)
    ensures 0 < len < Size(loc) ==> Result(loc, len) == -ERANGE
    ensures len == 0 || Size(loc) <= len ==> (Result(loc, len) == Size(loc) <==> Size(loc) < 0x8000_0000)
  {
    assert Size(loc) < 0x8000_0000 ==> AsInt(Size(loc)) == Size(loc);
  }

  /** Asked with length 0, the call returns the least length with which the real call succeeds, if
      and only if that length fits an `int`. */
  lemma {:induction false} QueryIff(loc: Location)
    requires loc != []
    ensures (&& Result(loc, 0) == Size(loc)
             && forall len :: len > 0 ==> (Result(loc, len) >= 0 <==> len >= Result(loc, 0)))
            <==> Size(loc) < 0x8000_0000
  {
    assert Size(loc) > 0;
    if Size(loc) < 0x8000_0000 {
      assert AsInt(Size(loc)) == Size(loc);
    } else {
      assert AsInt(Size(loc)) < 0x8000_0000;
    }
  }

  /** A location of two to the power of 31 bytes: asked for its size, the call returns the smallest
      `int`. */
  lemma HugeLocationFailsQuery(kind: string)
    requires |kind| == 0x7FFF_FFFE
    ensures Size([(kind, "")]) == 0x8000_0000 && Result([(kind, "")], 0) == -0x8000_0000
  {
    assert [(kind, "")][..0] == [];
  }

  lemma {:induction false} CStringOf(s: string)
    ensures CString(s) <= s && (|CString(s)| == |s| || s[|CString(s)|] == NUL)
    ensures NUL !in s ==> CString(s) == s
  {
    if s != [] && s[0] != NUL {
      CStringOf(s[1..]);
    }
  }

  /** `strcpy`: the string up to its first NUL, one NUL, and nothing else. */
  method StrCpy(path: array<char>, at: nat, s: string)
    requires at + |s| + 1 <= path.Length
    modifies path
    ensures forall j :: 0 <= j < path.Length && !(at <= j <= at + |CString(s)|) ==> path[j] == old(path[j])
    ensures path[at..at + |CString(s)|] == CString(s) && path[at + |CString(s)|] == NUL
    ensures NUL !in s ==> path[..at + |s| + 1] == old(path[..at]) + s + [NUL]
  {
    CStringOf(s);
    var i := 0;
    while i < |s| && s[i] != NUL
      invariant 0 <= i <= |CString(s)|
      invariant forall j :: 0 <= j < path.Length && !(at <= j < at + i) ==> path[j] == old(path[j])
      invariant forall j :: 0 <= j < i ==> path[at + j] == s[j]
    {
      path[at + i] := s[i];
      i := i + 1;
    }
    path[at + i] := NUL;
  }

  method PackPair(path: array<char>, at: nat, kind: string, name: string)
    requires at + |kind| + |name| + 2 <= path.Length
    modifies path
    ensures path[..at] == old(path[..at])
    ensures forall j :: at + |kind| + |name| + 2 <= j < path.Length ==> path[j] == old(path[j])
    ensures NUL !in kind && NUL !in name ==>
              path[..at + |kind| + |name| + 2] == old(path[..at]) + EncodePair(kind, name)
  {
    hide CString;
    CStringOf(kind);
    CStringOf(name);
    StrCpy(path, at, kind);
    StrCpy(path, at + |kind| + 1, name);
    assert NUL !in kind && NUL !in name ==>
             path[..at + |kind| + |name| + 2] == old(path[..at]) + kind + [NUL] + name + [NUL];
  }

  /** Pack a location.  Nothing at or behind `len` is written, whatever happens; on success the
      buffer holds the encoding, and on -ERANGE that of the entries that still fit. */
  method GetOsdCrushLocation(mounted: bool, found: int, loc: Location, path: array?<char>, len: nat) returns (ret: int)
    requires path != null ==> len <= path.Length
    modifies if path == null then {} else {path}
    ensures path != null ==> path[len..] == old(path[len..])
    ensures ret == if !mounted then -ENOTCONN
                   else if path == null && len != 0 then -EINVAL
                   else if found != 0 then found
                   else Result(loc, len)
    ensures mounted && found == 0 && (path != null || len == 0) && Size(loc) < 0x8000_0000 ==>
              ret == if 0 < len < Size(loc) then -ERANGE else Size(loc)
    ensures mounted && found == 0 && path != null ==>
              var packed := Fitting(loc, len);
              (forall j :: Size(packed) <= j < path.Length ==> path[j] == old(path[j])) &&
              (NulFree(loc) ==> path[..Size(packed)] == Encode(packed))
    ensures mounted && found == 0 && path != null && Size(loc) <= len ==>
              (Decode(path[..Size(loc)]) == loc <==> NulFree(loc))
  {
    if !mounted {
      return -ENOTCONN;
    }
    if path == null && len != 0 {
      return -EINVAL;
    }
    if found != 0 {
      return found;
    }
    var needed, cur := 0, 0;
    for i := 0 to |loc|
      invariant needed == Size(loc[..i]) && cur == Size(Fitting(loc[..i], len))
      invariant path != null ==> forall j :: cur <= j < path.Length ==> path[j] == old(path[j])
      invariant path != null && NulFree(loc) ==> path[..cur] == Encode(Fitting(loc[..i], len))
    {
      var (kind, name) := loc[i];
      assert loc[..i + 1][..i] == loc[..i];
      needed := needed + |kind| + |name| + 2;
      if needed <= len {
        if path != null {
          PackPair(path, cur, kind, name);
        }
        cur := cur + |kind| + 1 + |name| + 1;
      }
    }
    assert loc[..|loc|] == loc;
    if NulFree(loc) {
      DecodeEncode(loc);
    }
    ResultMeans(loc, len);
    ret := if len != 0 && needed > len then -ERANGE else AsInt(needed);
  }
}
