/**
 Leftmost-first matching, as Go's `regexp` promises it, for patterns that are a sequence of literals and
 one-or-more repetitions of a character class, each repetition greedy (`x+`) or lazy (`x+?`).
 A match is the vector of lengths its items take; `Prefers` is the order in which a backtracking search
 would try two such vectors.
 */
module Regexp {
  import opened GoStrings
  import opened Wrappers

  datatype Class =
    | Space       // \s
    | AnyButNewline // .

  predicate InClass(c: char, cls: Class) {
    match cls
    case Space => c == '\t' || c == '\n' || c == '\U{0C}' || c == '\r' || c == ' '
    case AnyButNewline => c != '\n'
  }

  datatype Item =
    | Lit(text: string)
    | Repeat(cls: Class, greedy: bool)

  type Pattern = seq<Item>

  predicate AllIn(s: string, lo: nat, hi: nat, cls: Class) {
    lo <= hi <= |s| && forall k :: lo <= k < hi ==> InClass(s[k], cls)
  }

  /** The item can take exactly the `n` characters of `s` from `i` on. */
  predicate Takes(item: Item, s: string, i: nat, n: nat) {
    match item
    case Lit(text) => n == |text| && At(s, text, i)
    case Repeat(cls, _) => n >= 1 && AllIn(s, i, i + n, cls)
  }

  /** `lens` is a way to match the whole pattern at index `i`. */
  predicate Parses(p: Pattern, s: string, i: nat, lens: seq<nat>)
    decreases p
  {
    if p == [] then lens == []
    else lens != [] && Takes(p[0], s, i, lens[0]) && Parses(p[1..], s, i + lens[0], lens[1..])
  }

  /** The search tries `a` no later than `b`: at the first item they differ in, greedy wants more, lazy less. */
  predicate Prefers(p: Pattern, a: seq<nat>, b: seq<nat>)
    requires |a| == |b| == |p|
    decreases p
  {
    || p == []
    || (if a[0] == b[0] then Prefers(p[1..], a[1..], b[1..])
        else p[0].Repeat? && (if p[0].greedy then a[0] > b[0] else a[0] < b[0]))
  }

  /** The number of characters of the class that follow each other from `i` on. */
  function Run(s: string, i: nat, cls: Class): (n: nat)
    requires i <= |s|
    ensures AllIn(s, i, i + n, cls)
    ensures i + n < |s| ==> !InClass(s[i + n], cls)
    decreases |s| - i
  {
    if i < |s| && InClass(s[i], cls) then 1 + Run(s, i + 1, cls) else 0
  }

  /** The backtracking matcher. */
  function MatchHere(p: Pattern, s: string, i: nat): (m: Option<seq<nat>>)
    requires i <= |s|
    ensures m.Some? ==> Parses(p, s, i, m.value)
    decreases |p|, 0
  {
    if p == [] then Some([])
    else
      match p[0]
      case Lit(text) => if At(s, text, i) then Continue(p, s, i, |text|) else None
      case Repeat(cls, greedy) =>
        var n := Run(s, i, cls);
        if greedy then Down(p, s, i, n) else Up(p, s, i, 1, n)
  }

  /** The first item takes `n` characters; the rest must match after them. */
  function Continue(p: Pattern, s: string, i: nat, n: nat): (m: Option<seq<nat>>)
    requires p != [] && i + n <= |s| && Takes(p[0], s, i, n)
    ensures m.Some? ==> Parses(p, s, i, m.value) && m.value[0] == n
    decreases |p| - 1, |s| + 1
  {
    match MatchHere(p[1..], s, i + n)
    case None => None
    case Some(lens) => assert ([n] + lens)[1..] == lens; Some([n] + lens)
  }

  /** Greedy: try `n` characters, then fewer. */
  function Down(p: Pattern, s: string, i: nat, n: nat): (m: Option<seq<nat>>)
    requires p != [] && p[0].Repeat? && AllIn(s, i, i + n, p[0].cls)
    ensures m.Some? ==> Parses(p, s, i, m.value)
    decreases |p| - 1, |s| + 2, n
  {
    if n == 0 then None
    else
      match Continue(p, s, i, n)
      case Some(lens) => Some(lens)
      case None => Down(p, s, i, n - 1)
  }

  /** Lazy: try `n` characters, then more, up to `max`. */
  function Up(p: Pattern, s: string, i: nat, n: nat, max: nat): (m: Option<seq<nat>>)
    requires p != [] && p[0].Repeat? && n >= 1 && AllIn(s, i, i + max, p[0].cls)
    ensures m.Some? ==> Parses(p, s, i, m.value)
    decreases |p| - 1, |s| + 2, max + 1 - n
  {
    if n > max then None
    else
      match Continue(p, s, i, n)
      case Some(lens) => Some(lens)
      case None => Up(p, s, i, n + 1, max)
  }

  lemma {:induction false} ParsesLength(p: Pattern, s: string, i: nat, lens: seq<nat>)
    requires Parses(p, s, i, lens)
    ensures |lens| == |p|
    decreases p
  {
    if p != [] {
      ParsesLength(p[1..], s, i + lens[0], lens[1..]);
    }
  }

  /** `m` is the search's answer among the matches whose first item takes between `lo` and `hi` characters. */
  ghost predicate Best(p: Pattern, s: string, i: nat, m: Option<seq<nat>>, lo: nat, hi: nat) {
    forall lens :: Parses(p, s, i, lens) && (p != [] ==> lo <= lens[0] <= hi) ==>
      m.Some? && |m.value| == |lens| == |p| && Prefers(p, m.value, lens)
  }

  lemma {:induction false} ContinueIsBest(p: Pattern, s: string, i: nat, n: nat)
    requires p != [] && i + n <= |s| && Takes(p[0], s, i, n)
    ensures Best(p, s, i, Continue(p, s, i, n), n, n)
    decreases |p| - 1, |s| + 1
  {
    MatchHereIsBest(p[1..], s, i + n);
    var m := Continue(p, s, i, n);
    forall lens | Parses(p, s, i, lens) && lens[0] == n
      ensures m.Some? && |m.value| == |lens| == |p| && Prefers(p, m.value, lens)
    {
      ParsesLength(p, s, i, lens);
      RunBounds(p[1..], s, i + n, lens[1..]);
      assert Parses(p[1..], s, i + n, lens[1..]);
      assert m.value[1..] == MatchHere(p[1..], s, i + n).value;
    }
  }

  lemma {:induction false} DownIsBest(p: Pattern, s: string, i: nat, n: nat)
    requires p != [] && p[0].Repeat? && p[0].greedy && AllIn(s, i, i + n, p[0].cls)
    ensures Best(p, s, i, Down(p, s, i, n), 1, n)
    decreases |p| - 1, |s| + 2, n
  {
    if n > 0 {
      ContinueIsBest(p, s, i, n);
      DownIsBest(p, s, i, n - 1);
      forall lens | Parses(p, s, i, lens) ensures |lens| == |p| { ParsesLength(p, s, i, lens); }
    }
  }

  lemma {:induction false} UpIsBest(p: Pattern, s: string, i: nat, n: nat, max: nat)
    requires p != [] && p[0].Repeat? && !p[0].greedy && n >= 1 && AllIn(s, i, i + max, p[0].cls)
    ensures Best(p, s, i, Up(p, s, i, n, max), n, max)
    ensures Up(p, s, i, n, max).Some? ==> Up(p, s, i, n, max).value[0] >= n
    decreases |p| - 1, |s| + 2, max + 1 - n
  {
    if n <= max {
      ContinueIsBest(p, s, i, n);
      UpIsBest(p, s, i, n + 1, max);
      forall lens | Parses(p, s, i, lens) ensures |lens| == |p| { ParsesLength(p, s, i, lens); }
    }
  }

  /** No match takes more of a class than there is, and none reaches beyond the text. */
  lemma RunBounds(p: Pattern, s: string, i: nat, lens: seq<nat>)
    requires i <= |s| && Parses(p, s, i, lens)
    ensures p != [] ==> i + lens[0] <= |s| && (p[0].Repeat? ==> 1 <= lens[0] <= Run(s, i, p[0].cls))
  {
  }

  /**
   The matcher finds a match at `i` exactly when there is one, and the one it finds comes before every
   other in the order of the search.
   */
  lemma {:induction false} MatchHereIsBest(p: Pattern, s: string, i: nat)
    requires i <= |s|
    ensures forall lens :: Parses(p, s, i, lens) ==>
      var m := MatchHere(p, s, i);
      m.Some? && |m.value| == |lens| == |p| && Prefers(p, m.value, lens)
    decreases |p|, 0
  {
    var m := MatchHere(p, s, i);
    if p != [] {
      match p[0] {
        case Lit(text) =>
          if At(s, text, i) { ContinueIsBest(p, s, i, |text|); }
        case Repeat(cls, greedy) =>
          var n := Run(s, i, cls);
          if greedy { DownIsBest(p, s, i, n); } else { UpIsBest(p, s, i, 1, n); }
      }
    }
    forall lens | Parses(p, s, i, lens)
      ensures m.Some? && |m.value| == |lens| == |p| && Prefers(p, m.value, lens)
    {
      RunBounds(p, s, i, lens);
    }
  }

  datatype Match = Match(start: nat, lens: seq<nat>)

  /** The leftmost match that starts at `i` or later: `FindAllStringSubmatch` with a limit of one. */
  function FindFrom(p: Pattern, s: string, i: nat): (m: Option<Match>)
    requires i <= |s|
    decreases |s| - i
  {
    match MatchHere(p, s, i)
    case Some(lens) => Some(Match(i, lens))
    case None => if i == |s| then None else FindFrom(p, s, i + 1)
  }

  /** Leftmost first, then the order of the search. */
  predicate FirstChoice(p: Pattern, m: Match, start: nat, lens: seq<nat>) {
    m.start < start || (m.start == start && |m.lens| == |lens| == |p| && Prefers(p, m.lens, lens))
  }

  /** Soundness, completeness and priority of the search over all start indices. */
  lemma {:induction false} FindFromIsFirstChoice(p: Pattern, s: string, i: nat)
    requires i <= |s|
    ensures var m := FindFrom(p, s, i);
      && (m.Some? ==> i <= m.value.start <= |s| && Parses(p, s, m.value.start, m.value.lens))
      && forall start: nat, lens :: i <= start <= |s| && Parses(p, s, start, lens) ==>
           m.Some? && FirstChoice(p, m.value, start, lens)
    decreases |s| - i
  {
    MatchHereIsBest(p, s, i);
    if MatchHere(p, s, i).None? && i < |s| {
      FindFromIsFirstChoice(p, s, i + 1);
    }
  }
}
