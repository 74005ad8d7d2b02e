/**
 The functions of Go's `strings` package that the filter assembly calls, on sequences of characters.
 A ConfigMap's `data` is valid UTF-8, so characters stand for Go's bytes: every separator, cutset and
 pattern used here is ASCII, and an ASCII byte never occurs inside a longer UTF-8 sequence.
 */
module GoStrings {

  /** `sub` occurs in `s` at index `i`. */
  predicate At(s: string, sub: string, i: nat) {
    i + |sub| <= |s| && s[i..i + |sub|] == sub
  }

  /** The first index from `i` on where `sub` occurs, or -1. */
  function IndexFrom(s: string, sub: string, i: nat): (r: int)
    requires i <= |s|
    ensures r == -1 ==> forall j: nat :: i <= j ==> !At(s, sub, j)
    ensures r != -1 ==> i <= r <= |s| && At(s, sub, r) && forall j: nat :: i <= j < r ==> !At(s, sub, j)
    decreases |s| - i
  {
    if At(s, sub, i) then i
    else if i == |s| then -1
    else IndexFrom(s, sub, i + 1)
  }

  /** `strings.Index` */
  function Index(s: string, sub: string): (r: int)
    ensures r == -1 <==> forall j: nat :: !At(s, sub, j)
    ensures r != -1 ==> 0 <= r <= |s| && At(s, sub, r) && forall j: nat :: j < r ==> !At(s, sub, j)
  {
    IndexFrom(s, sub, 0)
  }

  /** `strings.Contains` */
  predicate Contains(s: string, sub: string) {
    Index(s, sub) != -1
  }

  /** `strings.Split` for a non-empty separator. */
  function Split(s: string, sep: string): (pieces: seq<string>)
    requires sep != ""
    ensures pieces != []
    decreases |s|
  {
    var k := Index(s, sep);
    if k == -1 then [s] else [s[..k]] + Split(s[k + |sep|..], sep)
  }

  /** `strings.Replace` with a limit of one replacement. */
  function ReplaceFirst(s: string, old_: string, new_: string): string {
    var k := Index(s, old_);
    if k == -1 then s else s[..k] + new_ + s[k + |old_|..]
  }

  /** `strings.TrimRight` */
  function TrimRight(s: string, cutset: string): (r: string)
    ensures r <= s
    ensures forall i :: |r| <= i < |s| ==> s[i] in cutset
    ensures r != "" ==> r[|r| - 1] !in cutset
  {
    if s != "" && s[|s| - 1] in cutset then TrimRight(s[..|s| - 1], cutset) else s
  }

  /** `unicode.IsSpace` */
  predicate IsSpace(c: char) {
    || '\t' <= c <= '\r'
    || c == ' '
    || c == '\U{85}'
    || c == '\U{A0}'
    || c == '\U{1680}'
    || '\U{2000}' <= c <= '\U{200A}'
    || c == '\U{2028}'
    || c == '\U{2029}'
    || c == '\U{202F}'
    || c == '\U{205F}'
    || c == '\U{3000}'
  }

  function TrimSpaceRight(s: string): string {
    if s != "" && IsSpace(s[|s| - 1]) then TrimSpaceRight(s[..|s| - 1]) else s
  }

  /** `strings.TrimSpace` */
  function TrimSpace(s: string): string {
    if s != "" && IsSpace(s[0]) then TrimSpace(s[1..]) else TrimSpaceRight(s)
  }

  /** Every character is white space: what `TrimSpace` reduces to the empty string. */
  predicate Blank(s: string) {
    forall i :: 0 <= i < |s| ==> IsSpace(s[i])
  }

  lemma {:induction false} TrimSpaceRightBlank(s: string)
    ensures TrimSpaceRight(s) == "" <==> Blank(s)
  {
    if s != "" && IsSpace(s[|s| - 1]) {
      TrimSpaceRightBlank(s[..|s| - 1]);
    }
  }

  lemma {:induction false} TrimSpaceBlank(s: string)
    ensures TrimSpace(s) == "" <==> Blank(s)
  {
    if s != "" && IsSpace(s[0]) {
      TrimSpaceBlank(s[1..]);
      assert s == [s[0]] + s[1..];
    } else {
      TrimSpaceRightBlank(s);
    }
  }

  /** Joins pieces with a separator between any two. */
  function Join(pieces: seq<string>, sep: string): string
    requires pieces != []
  {
    if |pieces| == 1 then pieces[0] else pieces[0] + sep + Join(pieces[1..], sep)
  }

  /** What a builder holds after `f` of each element was written to it. */
  function ConcatMap<T>(f: T -> string, xs: seq<T>): string {
    if xs == [] then "" else f(xs[0]) + ConcatMap(f, xs[1..])
  }

  lemma Associative(a: string, b: string, c: string)
    ensures a + b + c == a + (b + c)
  {
  }

  lemma {:induction false} ConcatMapAppend<T>(f: T -> string, a: seq<T>, b: seq<T>)
    ensures ConcatMap(f, a + b) == ConcatMap(f, a) + ConcatMap(f, b)
  {
    if a == [] {
      assert a + b == b;
    } else {
      ConcatMapAppend(f, a[1..], b);
      assert (a + b)[0] == a[0] && (a + b)[1..] == a[1..] + b;
      Associative(f(a[0]), ConcatMap(f, a[1..]), ConcatMap(f, b));
    }
  }

  lemma ConcatMapSnoc<T>(f: T -> string, xs: seq<T>, x: T)
    ensures ConcatMap(f, xs + [x]) == ConcatMap(f, xs) + f(x)
  {
    ConcatMapAppend(f, xs, [x]);
    assert ConcatMap(f, [x]) == f(x) + ConcatMap(f, [x][1..]);
  }

  /** A non-empty string whose first character occurs nowhere else in it, so two occurrences never overlap. */
  predicate Unbordered(sep: string) {
    sep != "" && forall i :: 0 < i < |sep| ==> sep[i] != sep[0]
  }

  lemma AtCharacters(s: string, sub: string, i: nat)
    requires At(s, sub, i)
    ensures forall k :: 0 <= k < |sub| ==> s[i + k] == sub[k]
  {
    forall k | 0 <= k < |sub| ensures s[i + k] == sub[k] {
      assert s[i..i + |sub|][k] == s[i + k];
    }
  }

  /** A non-empty string that occurs in `a + b` occurs in one of the two or covers the boundary. */
  lemma AtAppend(a: string, b: string, sub: string, i: nat)
    requires sub != ""
    ensures i + |sub| <= |a| ==> (At(a + b, sub, i) <==> At(a, sub, i))
    ensures |a| <= i ==> (At(a + b, sub, i) <==> At(b, sub, i - |a|))
    ensures i < |a| < i + |sub| && At(a + b, sub, i) ==> a[|a| - 1] in sub && b != "" && b[0] in sub
  {
    if i + |sub| <= |a| {
      assert (a + b)[i..i + |sub|] == a[i..i + |sub|];
    } else if |a| <= i {
      if i + |sub| <= |a + b| {
        assert (a + b)[i..i + |sub|] == b[i - |a|..i - |a| + |sub|];
      }
    } else if At(a + b, sub, i) {
      AtCharacters(a + b, sub, i);
      assert (a + b)[i + (|a| - 1 - i)] == sub[|a| - 1 - i];
      assert (a + b)[i + (|a| - i)] == sub[|a| - i];
    }
  }

  lemma ContainsAt(s: string, sub: string, i: nat)
    requires At(s, sub, i)
    ensures Contains(s, sub)
  {
  }

  lemma ContainsLeft(a: string, b: string, sub: string)
    requires Contains(a, sub)
    ensures Contains(a + b, sub)
  {
    var i := Index(a, sub);
    assert (a + b)[i..i + |sub|] == a[i..i + |sub|];
    ContainsAt(a + b, sub, i);
  }

  lemma ContainsRight(a: string, b: string, sub: string)
    requires Contains(b, sub)
    ensures Contains(a + b, sub)
  {
    var i := Index(b, sub);
    assert (a + b)[|a| + i..|a| + i + |sub|] == b[i..i + |sub|];
    ContainsAt(a + b, sub, |a| + i);
  }

  lemma ContainsEither(a: string, b: string, sub: string)
    requires sub != "" && Contains(a + b, sub)
    requires a == "" || b == "" || a[|a| - 1] !in sub || b[0] !in sub
    ensures Contains(a, sub) || Contains(b, sub)
  {
    var i := Index(a + b, sub);
    AtAppend(a, b, sub, i);
    if i + |sub| <= |a| {
      ContainsAt(a, sub, i);
    } else if |a| <= i {
      ContainsAt(b, sub, i - |a|);
    }
  }

  /** When no occurrence can cover the boundary, `a + b` contains just what `a` or `b` contains. */
  lemma ContainsAppend(a: string, b: string, sub: string)
    requires sub != ""
    requires a == "" || b == "" || a[|a| - 1] !in sub || b[0] !in sub
    ensures Contains(a + b, sub) <==> Contains(a, sub) || Contains(b, sub)
  {
    hide Contains;
    if Contains(a + b, sub) {
      ContainsEither(a, b, sub);
    }
    if Contains(a, sub) {
      ContainsLeft(a, b, sub);
    }
    if Contains(b, sub) {
      ContainsRight(a, b, sub);
    }
  }

  lemma ContainsSlice(s: string, lo: nat, hi: nat, sub: string)
    requires lo <= hi <= |s|
    requires Contains(s[lo..hi], sub)
    ensures Contains(s, sub)
  {
    var i := Index(s[lo..hi], sub);
    assert s[lo + i..lo + i + |sub|] == s[lo..hi][i..i + |sub|];
    ContainsAt(s, sub, lo + i);
  }

  lemma LacksCharacter(s: string, sub: string, k: nat)
    requires k < |sub| && sub[k] !in s
    ensures !Contains(s, sub)
  {
    if Contains(s, sub) {
      AtCharacters(s, sub, Index(s, sub));
    }
  }

  lemma JoinCons(first: string, pieces: seq<string>, sep: string)
    requires pieces != []
    ensures Join([first] + pieces, sep) == first + sep + Join(pieces, sep)
  {
    assert ([first] + pieces)[1..] == pieces;
  }

  lemma CutAt(s: string, sub: string, k: nat)
    requires At(s, sub, k)
    ensures s == s[..k] + sub + s[k + |sub|..]
  {
    assert s == s[..k] + s[k..k + |sub|] + s[k + |sub|..];
  }

  /** Joining the pieces of a split with the same separator gives the text back. */
  lemma {:induction false} JoinSplit(s: string, sep: string)
    requires sep != ""
    ensures Join(Split(s, sep), sep) == s
    decreases |s|
  {
    var k := Index(s, sep);
    assert k != -1 ==> k + |sep| <= |s|;
    hide Index, At, Join;
    if k == -1 {
      JoinOne(s, sep);
    } else {
      var rest := s[k + |sep|..];
      JoinSplit(rest, sep);
      JoinCons(s[..k], Split(rest, sep), sep);
      CutAt(s, sep, k);
    }
  }

  lemma JoinOne(piece: string, sep: string)
    ensures Join([piece], sep) == piece
  {
  }

  lemma PrefixIsFree(s: string, sep: string, k: nat)
    requires sep != "" && Index(s, sep) == k
    ensures !Contains(s[..k], sep)
  {
    forall i: nat ensures !At(s[..k], sep, i) {
      if i + |sep| <= k {
        assert s[..k][i..i + |sep|] == s[i..i + |sep|];
        assert !At(s, sep, i);
      }
    }
  }

  /** No piece of a split contains the separator. */
  lemma {:induction false} SplitPieces(s: string, sep: string)
    requires sep != ""
    ensures forall p :: p in Split(s, sep) ==> !Contains(p, sep)
    decreases |s|
  {
    var k := Index(s, sep);
    if k != -1 {
      SplitPieces(s[k + |sep|..], sep);
      PrefixIsFree(s, sep, k);
      assert forall p :: p in Split(s, sep) <==> p == s[..k] || p in Split(s[k + |sep|..], sep);
    }
  }

  /** In `p + sep + rest`, with `p` free of an unbordered separator, the first separator is the one after `p`. */
  lemma FirstSeparator(p: string, rest: string, sep: string)
    requires Unbordered(sep) && !Contains(p, sep)
    ensures Index(p + sep + rest, sep) == |p|
  {
    var s := p + sep + rest;
    assert s[|p|..|p| + |sep|] == sep;
    assert At(s, sep, |p|);
    forall i: nat | i < |p| ensures !At(s, sep, i) {
      if i + |sep| <= |p| {
        assert s[i..i + |sep|] == p[i..i + |sep|];
        assert At(s, sep, i) <==> At(p, sep, i);
      } else if i + |sep| <= |s| {
        assert s[i..i + |sep|][|p| - i] == s[|p|] == sep[0] != sep[|p| - i];
      }
    }
  }

  lemma SplitFirst(p: string, rest: string, sep: string)
    requires Unbordered(sep) && !Contains(p, sep)
    ensures Split(p + sep + rest, sep) == [p] + Split(rest, sep)
  {
    FirstSeparator(p, rest, sep);
    var s := p + sep + rest;
    assert s[..|p|] == p;
    assert s[|p| + |sep|..] == rest;
  }

  /** Splitting a join recovers the pieces, for an unbordered separator that occurs in none of them. */
  lemma {:induction false} SplitJoin(pieces: seq<string>, sep: string)
    requires pieces != [] && Unbordered(sep)
    requires forall p :: p in pieces ==> !Contains(p, sep)
    ensures Split(Join(pieces, sep), sep) == pieces
  {
    if |pieces| == 1 {
      assert pieces[0] in pieces;
    } else {
      var rest := Join(pieces[1..], sep);
      SplitJoin(pieces[1..], sep);
      assert pieces[0] in pieces;
      SplitFirst(pieces[0], rest, sep);
    }
  }

  /** A string without the separator, in front of a join, only lengthens the first piece. */
  lemma JoinPrepend(t: string, pieces: seq<string>, sep: string)
    requires pieces != []
    ensures t + Join(pieces, sep) == Join([t + pieces[0]] + pieces[1..], sep)
  {
    var longer := [t + pieces[0]] + pieces[1..];
    if |pieces| > 1 {
      assert longer[1..] == pieces[1..];
      assert t + (pieces[0] + sep + Join(pieces[1..], sep)) == (t + pieces[0]) + sep + Join(pieces[1..], sep);
    }
  }

  lemma TrimRightStep(s: string, c: char, cutset: string)
    ensures TrimRight(s + [c], cutset) == if c in cutset then TrimRight(s, cutset) else s + [c]
  {
    assert (s + [c])[..|s|] == s;
  }

  lemma {:induction false} TrimRightAppend(a: string, b: string, cutset: string)
    requires TrimRight(b, cutset) != ""
    ensures TrimRight(a + b, cutset) == a + TrimRight(b, cutset)
    decreases |b|
  {
    assert b != "";
    var c, rest := b[|b| - 1], b[..|b| - 1];
    assert b == rest + [c] && a + b == a + rest + [c];
    hide TrimRight;
    TrimRightStep(rest, c, cutset);
    TrimRightStep(a + rest, c, cutset);
    if c in cutset {
      TrimRightAppend(a, rest, cutset);
    }
  }
}
