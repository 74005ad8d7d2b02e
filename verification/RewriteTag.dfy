/**
 The seed actuator's regular expression `\$tag\s+(.+?)\s+user-exposed\.\$TAG\s+true`: what its submatch is,
 stated on the text without the regular expression.
 */
module RewriteTag {
  import opened GoStrings
  import opened Regexp
  import opened Wrappers

  const TAG := "$tag"
  const EXPOSED := "user-exposed.$TAG"
  const TRUE := "true"

  const REWRITE_TAG_REGEX: Pattern :=
    [Lit(TAG)] + ([Repeat(Space, true)] + ([Repeat(AnyButNewline, false)] + ([Repeat(Space, true)] +
    ([Lit(EXPOSED)] + ([Repeat(Space, true)] + ([Lit(TRUE)] + []))))))

  /** Where the parts of a match lie: `$tag`, the captured name, `user-exposed.$TAG` and `true`. */
  datatype Layout = Layout(tag: nat, nameLo: nat, nameHi: nat, exposed: nat, yes: nat)

  predicate IsLayout(s: string, l: Layout) {
    && At(s, TAG, l.tag)
    && l.tag + |TAG| < l.nameLo && AllIn(s, l.tag + |TAG|, l.nameLo, Space)
    && l.nameLo < l.nameHi && AllIn(s, l.nameLo, l.nameHi, AnyButNewline)
    && l.nameHi < l.exposed && AllIn(s, l.nameHi, l.exposed, Space)
    && At(s, EXPOSED, l.exposed)
    && l.exposed + |EXPOSED| < l.yes && AllIn(s, l.exposed + |EXPOSED|, l.yes, Space)
    && At(s, TRUE, l.yes)
  }

  /** Least `$tag`, then most white space after it, then shortest name. */
  predicate NoLater(l: Layout, q: Layout) {
    || l.tag < q.tag
    || (l.tag == q.tag && (l.nameLo > q.nameLo || (l.nameLo == q.nameLo && l.nameHi <= q.nameHi)))
  }

  ghost predicate IsFirstLayout(s: string, l: Layout) {
    IsLayout(s, l) && forall q :: IsLayout(s, q) ==> NoLater(l, q)
  }

  function Name(s: string, l: Layout): string
    requires l.nameLo <= l.nameHi <= |s|
  {
    s[l.nameLo..l.nameHi]
  }

  function LayoutOf(start: nat, lens: seq<nat>): Layout
    requires |lens| == 7
  {
    var nameLo := start + lens[0] + lens[1];
    Layout(start, nameLo, nameLo + lens[2], nameLo + lens[2] + lens[3], nameLo + lens[2] + lens[3] + lens[4] + lens[5])
  }

  function LensOf(l: Layout): seq<nat>
    requires l.tag + |TAG| < l.nameLo < l.nameHi < l.exposed && l.exposed + |EXPOSED| < l.yes
  {
    [|TAG|] + ([l.nameLo - l.tag - |TAG|] + ([l.nameHi - l.nameLo] + ([l.exposed - l.nameHi] +
    ([|EXPOSED|] + ([l.yes - l.exposed - |EXPOSED|] + ([|TRUE|] + []))))))
  }

  lemma ParsesCons(item: Item, rest: Pattern, s: string, i: nat, n: nat, lens: seq<nat>)
    ensures Parses([item] + rest, s, i, [n] + lens) <==> Takes(item, s, i, n) && Parses(rest, s, i + n, lens)
  {
    assert ([item] + rest)[1..] == rest && ([n] + lens)[1..] == lens;
  }

  lemma PrefersCons(item: Item, rest: Pattern, m: nat, a: seq<nat>, n: nat, b: seq<nat>)
    requires |a| == |b| == |rest|
    ensures Prefers([item] + rest, [m] + a, [n] + b) <==>
      if m == n then Prefers(rest, a, b) else item.Repeat? && (if item.greedy then m > n else m < n)
  {
    assert ([item] + rest)[1..] == rest && ([m] + a)[1..] == a && ([n] + b)[1..] == b;
  }

  lemma SevenItems(lens: seq<nat>)
    requires |lens| == 7
    ensures lens == [lens[0]] + ([lens[1]] + ([lens[2]] + ([lens[3]] + ([lens[4]] + ([lens[5]] + ([lens[6]] + []))))))
  {
  }

  const TAIL: Pattern := [Lit(EXPOSED)] + ([Repeat(Space, true)] + ([Lit(TRUE)] + []))

  lemma TailParses(s: string, i: nat, a: nat, b: nat, c: nat)
    ensures Parses(TAIL, s, i, [a] + ([b] + ([c] + []))) <==>
      Takes(Lit(EXPOSED), s, i, a) && Takes(Repeat(Space, true), s, i + a, b) && Takes(Lit(TRUE), s, i + a + b, c)
  {
    ParsesCons(Lit(EXPOSED), [Repeat(Space, true)] + ([Lit(TRUE)] + []), s, i, a, [b] + ([c] + []));
    ParsesCons(Repeat(Space, true), [Lit(TRUE)] + [], s, i + a, b, [c] + []);
    ParsesCons(Lit(TRUE), [], s, i + a + b, c, []);
  }

  lemma PatternParses(s: string, i: nat, a: nat, b: nat, c: nat, d: nat, rest: seq<nat>)
    ensures Parses(REWRITE_TAG_REGEX, s, i, [a] + ([b] + ([c] + ([d] + rest)))) <==>
      && Takes(Lit(TAG), s, i, a) && Takes(Repeat(Space, true), s, i + a, b)
      && Takes(Repeat(AnyButNewline, false), s, i + a + b, c) && Takes(Repeat(Space, true), s, i + a + b + c, d)
      && Parses(TAIL, s, i + a + b + c + d, rest)
  {
    var p3 := [Repeat(Space, true)] + TAIL;
    var p2 := [Repeat(AnyButNewline, false)] + p3;
    var p1 := [Repeat(Space, true)] + p2;
    ParsesCons(Lit(TAG), p1, s, i, a, [b] + ([c] + ([d] + rest)));
    ParsesCons(Repeat(Space, true), p2, s, i + a, b, [c] + ([d] + rest));
    ParsesCons(Repeat(AnyButNewline, false), p3, s, i + a + b, c, [d] + rest);
    ParsesCons(Repeat(Space, true), TAIL, s, i + a + b + c, d, rest);
  }

  /** A parse of the pattern is a layout. */
  lemma ParsesIsLayout(s: string, i: nat, lens: seq<nat>)
    requires |lens| == 7
    ensures Parses(REWRITE_TAG_REGEX, s, i, lens) <==>
      IsLayout(s, LayoutOf(i, lens)) && lens[0] == |TAG| && lens[4] == |EXPOSED| && lens[6] == |TRUE|
  {
    SevenItems(lens);
    PatternParses(s, i, lens[0], lens[1], lens[2], lens[3], [lens[4]] + ([lens[5]] + ([lens[6]] + [])));
    TailParses(s, i + lens[0] + lens[1] + lens[2] + lens[3], lens[4], lens[5], lens[6]);
  }

  /** Between two matches with the same start, the search's order is the order on layouts. */
  lemma PrefersIsNoLater(i: nat, a: seq<nat>, b: seq<nat>)
    requires |a| == |b| == 7 && a[0] == b[0]
    requires Prefers(REWRITE_TAG_REGEX, a, b)
    ensures NoLater(LayoutOf(i, a), LayoutOf(i, b))
  {
    SevenItems(a);
    SevenItems(b);
    var (a3, b3) := ([a[3]] + ([a[4]] + ([a[5]] + ([a[6]] + []))), [b[3]] + ([b[4]] + ([b[5]] + ([b[6]] + []))));
    var p3 := [Repeat(Space, true)] + ([Lit(EXPOSED)] + ([Repeat(Space, true)] + ([Lit(TRUE)] + [])));
    PrefersCons(Repeat(AnyButNewline, false), p3, a[2], a3, b[2], b3);
    PrefersCons(Repeat(Space, true), [Repeat(AnyButNewline, false)] + p3, a[1], [a[2]] + a3, b[1], [b[2]] + b3);
    PrefersCons(Lit(TAG), [Repeat(Space, true)] + ([Repeat(AnyButNewline, false)] + p3),
                a[0], [a[1]] + ([a[2]] + a3), b[0], [b[1]] + ([b[2]] + b3));
  }

  /** The submatch of the first match: `FindAllStringSubmatch(token, 1)[0][1]`, when there is a match. */
  function Capture(s: string): Option<string> {
    match FindFrom(REWRITE_TAG_REGEX, s, 0)
    case None => None
    case Some(m) =>
      FindFromIsFirstChoice(REWRITE_TAG_REGEX, s, 0);
      ParsesLength(REWRITE_TAG_REGEX, s, m.start, m.lens);
      ParsesIsLayout(s, m.start, m.lens);
      Some(Name(s, LayoutOf(m.start, m.lens)))
  }

  /** The layout behind a capture. */
  lemma CaptureLayout(s: string) returns (l: Layout)
    requires Capture(s).Some?
    ensures IsFirstLayout(s, l) && Capture(s) == Some(Name(s, l))
  {
    var m := FindFrom(REWRITE_TAG_REGEX, s, 0).value;
    FindFromIsFirstChoice(REWRITE_TAG_REGEX, s, 0);
    ParsesLength(REWRITE_TAG_REGEX, s, m.start, m.lens);
    ParsesIsLayout(s, m.start, m.lens);
    l := LayoutOf(m.start, m.lens);
    forall q | IsLayout(s, q) ensures NoLater(l, q) {
      LayoutParses(s, q);
      var lens := LensOf(q);
      assert FirstChoice(REWRITE_TAG_REGEX, m, q.tag, lens);
      if m.start == q.tag {
        PrefersIsNoLater(q.tag, m.lens, lens);
      }
    }
  }

  lemma LayoutParses(s: string, l: Layout)
    requires IsLayout(s, l)
    ensures |LensOf(l)| == 7 && LayoutOf(l.tag, LensOf(l)) == l
    ensures Parses(REWRITE_TAG_REGEX, s, l.tag, LensOf(l))
  {
    ParsesIsLayout(s, l.tag, LensOf(l));
  }

  /**
   The regular expression, characterised: it captures exactly when a layout exists, and what it captures is
   the name of the layout with the least `$tag`, then the most white space after it, then the shortest name.
   */
  lemma CaptureIsFirstLayout(s: string)
    ensures Capture(s).Some? <==> exists l :: IsLayout(s, l)
    ensures Capture(s).Some? ==> exists l :: IsFirstLayout(s, l) && Capture(s) == Some(Name(s, l))
    ensures forall l :: IsFirstLayout(s, l) ==> Capture(s) == Some(Name(s, l))
  {
    if Capture(s).Some? {
      var l := CaptureLayout(s);
    }
    forall l | IsLayout(s, l) ensures Capture(s).Some? {
      LayoutParses(s, l);
      FindFromIsFirstChoice(REWRITE_TAG_REGEX, s, 0);
    }
    forall l | IsFirstLayout(s, l) ensures Capture(s) == Some(Name(s, l)) {
      var k := CaptureLayout(s);
      assert NoLater(k, l) && NoLater(l, k);
    }
  }

  /** `\s` does not start or end the string. */
  predicate Trimmed(g: string) {
    g != "" && !InClass(g[0], Space) && !InClass(g[|g| - 1], Space)
  }

  /**
   A captured name needs no trimming, except when nothing but white space lies between `$tag` and
   `user-exposed.$TAG`: then, and only then, it is one white space character.
   */
  lemma CaptureIsTrimmed(s: string, l: Layout)
    requires IsFirstLayout(s, l)
    ensures Trimmed(Name(s, l)) <==> !AllIn(s, l.tag + |TAG|, l.exposed, Space)
    ensures !Trimmed(Name(s, l)) ==> |Name(s, l)| == 1 && InClass(Name(s, l)[0], Space)
  {
    var name := Name(s, l);
    assert name[0] == s[l.nameLo] && name[|name| - 1] == s[l.nameHi - 1];
    if l.nameHi - l.nameLo > 1 {
      LongNameIsTrimmed(s, l);
      assert Trimmed(name) && l.tag + |TAG| <= l.nameLo < l.exposed;
    } else {
      SpacesAround(s, l);
    }
  }

  /** A longer name could start later or end earlier if it did so with white space. */
  lemma LongNameIsTrimmed(s: string, l: Layout)
    requires IsFirstLayout(s, l) && l.nameHi - l.nameLo > 1
    ensures !InClass(s[l.nameLo], Space) && !InClass(s[l.nameHi - 1], Space)
  {
    var later, shorter := l.(nameLo := l.nameLo + 1), l.(nameHi := l.nameHi - 1);
    assert !NoLater(l, later) && !NoLater(l, shorter);
    LaterAndShorter(s, l, later, shorter);
    hide IsLayout, NoLater;
  }

  lemma LaterAndShorter(s: string, l: Layout, later: Layout, shorter: Layout)
    requires IsLayout(s, l) && l.nameHi - l.nameLo > 1
    requires later == l.(nameLo := l.nameLo + 1) && shorter == l.(nameHi := l.nameHi - 1)
    ensures InClass(s[l.nameLo], Space) ==> IsLayout(s, later)
    ensures InClass(s[l.nameHi - 1], Space) ==> IsLayout(s, shorter)
  {
    hide At;
  }

  lemma SpacesAround(s: string, l: Layout)
    requires IsLayout(s, l) && l.nameHi == l.nameLo + 1
    ensures AllIn(s, l.tag + |TAG|, l.exposed, Space) <==> InClass(s[l.nameLo], Space)
  {
  }

  /** The shortest name holds no `user-exposed.$TAG` that could itself complete the match. */
  lemma NameIsShortest(s: string, l: Layout, hi: nat, exposed: nat, yes: nat)
    requires IsLayout(s, l)
    requires l.nameLo < hi < exposed && AllIn(s, hi, exposed, Space)
    requires At(s, EXPOSED, exposed) && exposed + |EXPOSED| < yes && AllIn(s, exposed + |EXPOSED|, yes, Space)
    requires At(s, TRUE, yes) && yes + |TRUE| <= l.nameHi
    ensures !IsFirstLayout(s, l)
  {
    var q := l.(nameHi := hi, exposed := exposed, yes := yes);
    assert IsLayout(s, q) && !NoLater(l, q);
  }
}
