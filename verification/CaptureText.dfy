/**
 The capture stated on the text alone: which strings a section is made of when the regular expression matches, with
 the characters of `\s` and `.` spelled out, and which of the possible readings is the one that counts.
 */
module CaptureText {
  import opened GoStrings
  import opened Regexp
  import opened Wrappers
  import opened RewriteTag

  /** A non-empty run of tabs, line feeds, form feeds, carriage returns and spaces. */
  predicate White(w: string) {
    w != "" && forall i :: 0 <= i < |w| ==> w[i] in ['\t', '\n', '\U{000C}', '\r', ' ']
  }

  /** One line's worth of characters, at least one. */
  predicate OneLine(g: string) {
    g != "" && '\n' !in g
  }

  /** A way to read a text: what stands before `$tag`, the white space, the name and what stands after `true`. */
  datatype Reading = Reading(pre: string, w1: string, name: string, w2: string, w3: string, post: string)

  // The text of a reading, from each of its parts on

  function FromTrue(r: Reading): string { "true" + r.post }
  function FromW3(r: Reading): string { r.w3 + FromTrue(r) }
  function FromExposed(r: Reading): string { "user-exposed.$TAG" + FromW3(r) }
  function FromW2(r: Reading): string { r.w2 + FromExposed(r) }
  function FromName(r: Reading): string { r.name + FromW2(r) }
  function FromW1(r: Reading): string { r.w1 + FromName(r) }
  function FromTag(r: Reading): string { "$tag" + FromW1(r) }
  function Text(r: Reading): string { r.pre + FromTag(r) }

  predicate Reads(s: string, r: Reading) {
    s == Text(r) && White(r.w1) && OneLine(r.name) && White(r.w2) && White(r.w3)
  }

  /** Less text before `$tag`, then more white space after it, then a shorter name. */
  predicate Before(a: Reading, b: Reading) {
    || |a.pre| < |b.pre|
    || (|a.pre| == |b.pre| && (|a.w1| > |b.w1| || (|a.w1| == |b.w1| && |a.name| <= |b.name|)))
  }

  ghost predicate ReadsFirst(s: string, r: Reading) {
    Reads(s, r) && forall other :: Reads(s, other) ==> Before(r, other)
  }

  // Readings and layouts

  lemma Peel(s: string, i: nat, a: string, b: string)
    requires i <= |s| && s[i..] == a + b
    ensures i + |a| <= |s| && At(s, a, i) && s[i..i + |a|] == a && s[i + |a|..] == b
  {
    assert |s| - i == |a| + |b|;
    assert s[i..i + |a|] == s[i..][..|a|];
    assert s[i + |a|..] == s[i..][|a|..];
  }

  lemma PeelSpace(s: string, i: nat, w: string, b: string)
    requires i <= |s| && s[i..] == w + b && White(w)
    ensures i + |w| <= |s| && AllIn(s, i, i + |w|, Space) && s[i + |w|..] == b
  {
    Peel(s, i, w, b);
    forall k | i <= k < i + |w| ensures InClass(s[k], Space) {
      assert s[k] == s[i..i + |w|][k - i] == w[k - i];
    }
  }

  lemma PeelName(s: string, i: nat, g: string, b: string)
    requires i <= |s| && s[i..] == g + b && OneLine(g)
    ensures i + |g| <= |s| && AllIn(s, i, i + |g|, AnyButNewline) && s[i + |g|..] == b && s[i..i + |g|] == g
  {
    Peel(s, i, g, b);
    forall k | i <= k < i + |g| ensures InClass(s[k], AnyButNewline) {
      assert s[k] == s[i..i + |g|][k - i] == g[k - i];
    }
  }

  function Positions(r: Reading): Layout {
    var nameLo := |r.pre| + |TAG| + |r.w1|;
    var exposed := nameLo + |r.name| + |r.w2|;
    Layout(|r.pre|, nameLo, nameLo + |r.name|, exposed, exposed + |EXPOSED| + |r.w3|)
  }

  /** A reading is a layout. */
  lemma ReadingIsLayout(s: string, r: Reading)
    requires Reads(s, r)
    ensures IsLayout(s, Positions(r)) && Name(s, Positions(r)) == r.name
  {
    ReadingParses(s, r);
    hide At, AllIn, Text;
  }

  lemma ReadingParses(s: string, r: Reading)
    requires Reads(s, r)
    ensures
      var l := Positions(r);
      && At(s, TAG, l.tag) && AllIn(s, l.tag + |TAG|, l.nameLo, Space)
      && AllIn(s, l.nameLo, l.nameHi, AnyButNewline) && s[l.nameLo..l.nameHi] == r.name
      && AllIn(s, l.nameHi, l.exposed, Space) && At(s, EXPOSED, l.exposed)
      && AllIn(s, l.exposed + |EXPOSED|, l.yes, Space) && At(s, TRUE, l.yes)
  {
    FrontParses(s, r);
    BackParses(s, r);
    hide At, AllIn, Reads, Text, FromExposed;
  }

  lemma FrontParses(s: string, r: Reading)
    requires Reads(s, r)
    ensures
      var l := Positions(r);
      && At(s, TAG, l.tag) && AllIn(s, l.tag + |TAG|, l.nameLo, Space)
      && AllIn(s, l.nameLo, l.nameHi, AnyButNewline) && s[l.nameLo..l.nameHi] == r.name
      && AllIn(s, l.nameHi, l.exposed, Space) && l.exposed <= |s| && s[l.exposed..] == FromExposed(r)
  {
    var l := Positions(r);
    hide At, AllIn, White, OneLine, FromExposed;
    assert s[0..] == s;
    Peel(s, 0, r.pre, FromTag(r));
    Peel(s, l.tag, "$tag", FromW1(r));
    PeelSpace(s, l.tag + |TAG|, r.w1, FromName(r));
    PeelName(s, l.nameLo, r.name, FromW2(r));
    PeelSpace(s, l.nameHi, r.w2, FromExposed(r));
  }

  lemma BackParses(s: string, r: Reading)
    requires White(r.w3) && Positions(r).exposed <= |s| && s[Positions(r).exposed..] == FromExposed(r)
    ensures
      var l := Positions(r);
      At(s, EXPOSED, l.exposed) && AllIn(s, l.exposed + |EXPOSED|, l.yes, Space) && At(s, TRUE, l.yes)
  {
    var l := Positions(r);
    hide At, AllIn, White;
    Peel(s, l.exposed, "user-exposed.$TAG", FromW3(r));
    PeelSpace(s, l.exposed + |EXPOSED|, r.w3, FromTrue(r));
    Peel(s, l.yes, "true", r.post);
  }

  lemma CutOff(s: string, i: nat, j: nat)
    requires i <= j <= |s|
    ensures s[i..] == s[i..j] + s[j..]
  {
  }

  lemma SpaceIsWhite(s: string, i: nat, j: nat)
    requires i < j && AllIn(s, i, j, Space)
    ensures White(s[i..j])
  {
  }

  lemma NameIsOneLine(s: string, i: nat, j: nat)
    requires i < j && AllIn(s, i, j, AnyButNewline)
    ensures OneLine(s[i..j])
  {
  }

  function ReadingAt(s: string, l: Layout): Reading
    requires IsLayout(s, l)
  {
    Reading(s[..l.tag], s[l.tag + |TAG|..l.nameLo], s[l.nameLo..l.nameHi], s[l.nameHi..l.exposed],
            s[l.exposed + |EXPOSED|..l.yes], s[l.yes + |TRUE|..])
  }

  lemma LayoutSlices(s: string, l: Layout)
    requires IsLayout(s, l)
    ensures l.tag + |TAG| <= l.nameLo <= l.nameHi <= l.exposed
    ensures l.exposed + |EXPOSED| <= l.yes && l.yes + |TRUE| <= |s|
    ensures s[l.tag..l.tag + |TAG|] == TAG && s[l.yes..l.yes + |TRUE|] == TRUE
    ensures s[l.exposed..l.exposed + |EXPOSED|] == EXPOSED
  {
    hide AllIn;
  }

  lemma EndText(s: string, l: Layout)
    requires IsLayout(s, l)
    ensures s[l.exposed + |EXPOSED|..] == FromW3(ReadingAt(s, l))
  {
    LayoutSlices(s, l);
    hide At, AllIn, IsLayout;
    CutOff(s, l.exposed + |EXPOSED|, l.yes);
    CutOff(s, l.yes, l.yes + |TRUE|);
  }

  lemma BackText(s: string, l: Layout)
    requires IsLayout(s, l)
    ensures s[l.exposed..] == FromExposed(ReadingAt(s, l))
  {
    LayoutSlices(s, l);
    EndText(s, l);
    hide At, AllIn, IsLayout, FromW3;
    CutOff(s, l.exposed, l.exposed + |EXPOSED|);
  }

  lemma FrontText(s: string, l: Layout)
    requires IsLayout(s, l)
    ensures s[l.tag..] == FromTag(ReadingAt(s, l))
  {
    LayoutSlices(s, l);
    BackText(s, l);
    hide At, AllIn, IsLayout, FromExposed;
    CutOff(s, l.tag, l.tag + |TAG|);
    CutOff(s, l.tag + |TAG|, l.nameLo);
    CutOff(s, l.nameLo, l.nameHi);
    CutOff(s, l.nameHi, l.exposed);
  }

  lemma ReadingText(s: string, l: Layout)
    requires IsLayout(s, l)
    ensures s == Text(ReadingAt(s, l))
  {
    FrontText(s, l);
    hide AllIn, FromTag;
    assert s == s[..l.tag] + s[l.tag..];
  }

  lemma ReadingParts(s: string, l: Layout)
    requires IsLayout(s, l)
    ensures var r := ReadingAt(s, l); White(r.w1) && OneLine(r.name) && White(r.w2) && White(r.w3)
  {
    SpaceIsWhite(s, l.tag + |TAG|, l.nameLo);
    NameIsOneLine(s, l.nameLo, l.nameHi);
    SpaceIsWhite(s, l.nameHi, l.exposed);
    SpaceIsWhite(s, l.exposed + |EXPOSED|, l.yes);
    hide White, OneLine, AllIn, At;
  }

  /** A layout is a reading. */
  lemma LayoutIsReading(s: string, l: Layout)
    requires IsLayout(s, l)
    ensures Reads(s, ReadingAt(s, l)) && Positions(ReadingAt(s, l)) == l && ReadingAt(s, l).name == Name(s, l)
  {
    ReadingText(s, l);
    ReadingParts(s, l);
    hide White, OneLine, AllIn, At, Text;
  }

  lemma BeforeIsNoLater(a: Reading, b: Reading)
    ensures Before(a, b) <==> NoLater(Positions(a), Positions(b))
  {
  }

  lemma FirstReadingIsFirstLayout(s: string, r: Reading)
    requires ReadsFirst(s, r)
    ensures IsFirstLayout(s, Positions(r)) && Name(s, Positions(r)) == r.name
  {
    ReadingIsLayout(s, r);
    forall q | IsLayout(s, q) ensures NoLater(Positions(r), q) {
      LayoutIsReading(s, q);
      BeforeIsNoLater(r, ReadingAt(s, q));
    }
  }

  lemma FirstLayoutIsFirstReading(s: string, l: Layout)
    requires IsFirstLayout(s, l)
    ensures ReadsFirst(s, ReadingAt(s, l)) && ReadingAt(s, l).name == Name(s, l)
  {
    LayoutIsReading(s, l);
    var r := ReadingAt(s, l);
    forall other | Reads(s, other) ensures Before(r, other) {
      ReadingIsLayout(s, other);
      BeforeIsNoLater(r, other);
    }
  }

  /**
   A section is matched exactly when it can be read as text, `$tag`, white space, a name on one line, white space,
   `user-exposed.$TAG`, white space, `true`, text; and what is captured is the name of the first such reading.
   */
  lemma CaptureIsFirstReading(s: string)
    ensures Capture(s).Some? <==> exists r :: Reads(s, r)
    ensures forall name :: Capture(s) == Some(name) <==> exists r :: ReadsFirst(s, r) && r.name == name
    ensures Capture(s).Some? ==> Capture(s).value != "" && '\n' !in Capture(s).value
  {
    CaptureIsFirstLayout(s);
    if Capture(s).Some? {
      var l := CaptureLayout(s);
      FirstLayoutIsFirstReading(s, l);
    }
    forall r | Reads(s, r) ensures Capture(s).Some? {
      ReadingIsLayout(s, r);
    }
    forall r | ReadsFirst(s, r) ensures Capture(s) == Some(r.name) {
      FirstReadingIsFirstLayout(s, r);
    }
  }
}
