/** When rewriting a text again changes it, which texts it leaves alone, and what a ConfigMap's block is. */
module FilterIdempotence {
  import opened GoStrings
  import opened Regexp
  import opened Wrappers
  import opened RewriteTag
  import opened FilterRewriter
  import opened FilterProperties

  // A name that was captured once is never captured again

  /** `t` holds a copy of `s[lo..hi]`, `d` characters further on. */
  ghost predicate Copied(s: string, lo: nat, hi: nat, t: string, d: int) {
    lo <= hi <= |s| && 0 <= lo + d && hi + d <= |t| && forall k :: lo <= k < hi ==> s[k] == t[k + d]
  }

  lemma AllInCopied(s: string, lo: nat, hi: nat, t: string, d: int, a: nat, b: nat, cls: Class)
    requires Copied(s, lo, hi, t, d) && lo <= a <= b <= hi && AllIn(s, a, b, cls)
    ensures AllIn(t, a + d, b + d, cls)
  {
    forall k | a + d <= k < b + d ensures InClass(t[k], cls) {
      assert s[k - d] == t[k - d + d];
    }
  }

  lemma AtCopied(s: string, lo: nat, hi: nat, t: string, d: int, sub: string, i: nat)
    requires Copied(s, lo, hi, t, d) && lo <= i && i + |sub| <= hi && At(s, sub, i)
    ensures At(t, sub, i + d)
  {
    AtCharacters(s, sub, i);
    forall k | 0 <= k < |sub| ensures t[i + d..i + d + |sub|][k] == sub[k] {
      assert s[i + k] == t[i + k + d];
    }
  }

  /** The last part of a layout of `before + name + after`, when it starts in the name, ends in the name. */
  lemma TrueInName(s: string, lo: nat, hi: nat, q: Layout)
    requires IsLayout(s, q) && lo <= q.exposed && q.exposed + |EXPOSED| <= hi && hi + 5 < |s|
    requires (forall i :: hi <= i < hi + 5 ==> InClass(s[i], Space)) && s[hi + 5] == 'A'
    ensures q.yes + |TRUE| <= hi
  {
    AtCharacters(s, TRUE, q.yes);
    assert s[q.yes + 0] == 't' && s[q.yes + 1] == 'r' && s[q.yes + 2] == 'u' && s[q.yes + 3] == 'e';
    assert !InClass(s[hi + 5], Space);
    assert q.yes <= hi + 5;
    assert !(hi <= q.yes <= hi + 5);
    assert InClass(s[hi], Space);
  }

  lemma ExposedCharacters()
    ensures EXPOSED[13] == '$' && TAG[0] == '$' && |EXPOSED| == 17
    ensures forall k :: 0 <= k < |EXPOSED| ==> !InClass(EXPOSED[k], Space)
  {
  }

  lemma AtHasNoSpace(s: string, sub: string, i: nat)
    requires At(s, sub, i) && forall k :: 0 <= k < |sub| ==> !InClass(sub[k], Space)
    ensures forall p :: i <= p < i + |sub| ==> !InClass(s[p], Space)
  {
    forall p | i <= p < i + |sub| ensures !InClass(s[p], Space) {
      assert s[p] == s[i..i + |sub|][p - i];
    }
  }

  /** A layout of `s` lies in `s[lo..hi]` from `$tag` to `user-exposed.$TAG`, when all dollar signs do. */
  lemma LayoutInName(s: string, lo: nat, hi: nat, q: Layout)
    requires IsLayout(s, q) && 0 < lo <= hi < |s|
    requires InClass(s[lo - 1], Space) && InClass(s[hi], Space)
    requires forall i :: 0 <= i < |s| && s[i] == '$' ==> lo <= i < hi
    ensures lo <= q.tag && lo <= q.exposed && q.exposed + |EXPOSED| <= hi
  {
    ExposedCharacters();
    AtCharacters(s, TAG, q.tag);
    AtCharacters(s, EXPOSED, q.exposed);
    assert s[q.tag + 0] == '$' && s[q.exposed + 13] == '$';
    AtHasNoSpace(s, EXPOSED, q.exposed);
  }

  /** A layout of `s` inside a copy of the name contradicts the name being the shortest. */
  lemma NoLayoutInName(token: string, l: Layout, s: string, lo: nat, hi: nat, q: Layout)
    requires IsLayout(token, l) && IsLayout(s, q)
    requires lo <= hi && hi - lo == l.nameHi - l.nameLo && Copied(s, lo, hi, token, l.nameLo - lo)
    requires lo <= q.tag && q.yes + |TRUE| <= hi
    ensures !IsFirstLayout(token, l)
  {
    var d := l.nameLo - lo;
    AllInCopied(s, lo, hi, token, d, q.nameHi, q.exposed, Space);
    AtCopied(s, lo, hi, token, d, EXPOSED, q.exposed);
    AllInCopied(s, lo, hi, token, d, q.exposed + |EXPOSED|, q.yes, Space);
    AtCopied(s, lo, hi, token, d, TRUE, q.yes);
    NameIsShortest(token, l, q.nameHi + d, q.exposed + d, q.yes + d);
  }

  /** The four parts of a `modify` filter with white space after it: all dollar signs are in the name. */
  lemma DollarsInName(before: string, name: string, after: string, blank: string)
    requires '$' !in before && '$' !in after && Blank(blank)
    ensures var s := before + name + after + blank;
      forall i :: 0 <= i < |s| && s[i] == '$' ==> |before| <= i < |before| + |name|
  {
    assert '$' !in blank;
    var s, hi := before + name + after + blank, |before| + |name|;
    forall i | 0 <= i < |s| && !(|before| <= i < hi) ensures s[i] != '$' {
      var c := if i < |before| then before[i] else if i < hi + |after| then after[i - hi] else blank[i - hi - |after|];
      assert s[i] == c && (c in before || c in after || c in blank);
    }
  }

  lemma NoLayoutAround(token: string, l: Layout, before: string, after: string, blank: string, q: Layout)
    requires IsFirstLayout(token, l)
    requires before != "" && before[|before| - 1] == ' '
    requires |after| > 5 && after[5] == 'A' && forall i :: 0 <= i < 5 ==> InClass(after[i], Space)
    requires '$' !in before && '$' !in after && Blank(blank)
    ensures !IsLayout(before + Name(token, l) + after + blank, q)
  {
    var name := Name(token, l);
    var s, lo, hi := before + name + after + blank, |before|, |before| + |name|;
    DollarsInName(before, name, after, blank);
    assert forall i :: 0 <= i < |after| ==> s[hi + i] == after[i];
    assert s[lo - 1] == ' ' && s[hi + 0] == after[0] && s[hi + 5] == after[5];
    assert forall i :: hi <= i < hi + 5 ==> s[i] == after[i - hi];
    assert forall k :: lo <= k < hi ==> s[k] == name[k - lo] == token[k + (l.nameLo - lo)];
    if IsLayout(s, q) {
      LayoutInName(s, lo, hi, q);
      TrueInName(s, lo, hi, q);
      NoLayoutInName(token, l, s, lo, hi, q);
    }
  }

  /** The regular expression never matches a `modify` filter with a captured name, nor with white space after it. */
  lemma NoSecondCapture(token: string, blank: string)
    requires Capture(token).Some? && Blank(blank)
    ensures Capture(Modify(Capture(token).value) + blank) == None
  {
    var l := CaptureLayout(token);
    var before, after := ModifyParts(Name(token, l));
    var s := before + Name(token, l) + after + blank;
    CaptureIsFirstLayout(s);
    forall q ensures !IsLayout(s, q) {
      NoLayoutAround(token, l, before, after, blank, q);
    }
  }

  // A second pass over a text that was rewritten

  /** The regular expression captures a name that itself mentions `rewrite_tag`. */
  predicate TaintedToken(token: string) {
    Capture(token).Some? && Contains(Capture(token).value, REWRITE)
  }

  predicate Tainted(text: string) {
    exists token :: token in Split(text, FILTER) && TaintedToken(token)
  }

  /** A section that mentions `rewrite_tag` and that no second pass can match. */
  ghost predicate Settled(section: string) {
    Contains(section, REWRITE) ==> forall blank :: Blank(blank) ==> Capture(section + blank) == None
  }

  lemma KeptSettled(tokens: seq<string>)
    ensures forall section :: section in Kept(tokens) ==> Settled(section)
    ensures !FreeOf(Kept(tokens), REWRITE) <==> exists token :: token in tokens && TaintedToken(token)
  {
    forall section | section in Kept(tokens)
      ensures Settled(section)
      ensures Contains(section, REWRITE) ==> exists token :: token in tokens && TaintedToken(token)
    {
      var token := KeptFrom(tokens, section);
      SectionSettled(token);
    }
    forall token | token in tokens && TaintedToken(token) ensures !FreeOf(Kept(tokens), REWRITE) {
      CapturePart(token, REWRITE);
      KeptAll(tokens, token);
      SectionSettled(token);
      assert Rewritten(token).value in Kept(tokens);
    }
  }

  lemma SectionSettled(token: string)
    requires Rewritten(token).Some?
    ensures Settled(Rewritten(token).value)
    ensures Contains(Rewritten(token).value, REWRITE) <==> TaintedToken(token)
  {
    if Contains(token, REWRITE) {
      var name := Capture(token).value;
      ModifyContains(name, REWRITE);
      forall blank | Blank(blank) ensures Capture(Modify(name) + blank) == None {
        NoSecondCapture(token, blank);
      }
    } else if TaintedToken(token) {
      CapturePart(token, REWRITE);
    }
  }

  /** A piece that is not blank is a section with white space after it. */
  lemma {:induction false} PieceFrom(sections: seq<string>, p: string) returns (section: string, blank: string)
    requires FreeOf(sections, FILTER)
    requires p in Pieces(sections) && !Blank(p)
    ensures section in sections && Blank(blank) && p == section + blank
  {
    var rest := Pieces(sections[1..]);
    PiecesProper(sections[1..]);
    if p == sections[0] + rest[0] {
      section, blank := sections[0], rest[0];
    } else {
      assert p in rest[1..];
      section, blank := PieceFrom(sections[1..], p);
    }
  }

  lemma {:induction false} SectionInPiece(sections: seq<string>, section: string) returns (p: string, blank: string)
    requires FreeOf(sections, FILTER)
    requires section in sections && !Blank(section)
    ensures p in Pieces(sections) && Blank(blank) && p == section + blank
  {
    var rest := Pieces(sections[1..]);
    PiecesProper(sections[1..]);
    if section == sections[0] {
      p, blank := section + rest[0], rest[0];
    } else {
      p, blank := SectionInPiece(sections[1..], section);
      if p == rest[0] {
        assert Blank(section) by { assert forall i :: 0 <= i < |section| ==> p[i] == section[i]; }
      }
      assert p in rest[1..];
    }
    assert p in Pieces(sections);
  }

  lemma PiecesSettled(sections: seq<string>)
    requires FreeOf(sections, FILTER)
    requires forall section :: section in sections ==> Settled(section)
    ensures forall p :: p in Pieces(sections) && Contains(p, REWRITE) ==> Capture(p) == None
    ensures FreeOf(Pieces(sections), REWRITE) <==> FreeOf(sections, REWRITE)
  {
    PatternCharacters();
    forall p | p in Pieces(sections) && Contains(p, REWRITE)
      ensures Capture(p) == None && !FreeOf(sections, REWRITE)
    {
      MentionIsNotBlank(p);
      var section, blank := PieceFrom(sections, p);
      BlankTail(section, blank, REWRITE);
    }
    forall section | section in sections && Contains(section, REWRITE) ensures !FreeOf(Pieces(sections), REWRITE) {
      MentionIsNotBlank(section);
      var p, blank := SectionInPiece(sections, section);
      BlankTail(section, blank, REWRITE);
    }
  }

  lemma MentionIsNotBlank(s: string)
    ensures Contains(s, REWRITE) ==> !Blank(s)
  {
    PatternCharacters();
    if Blank(s) {
      BlankLacks(s, REWRITE, 0);
    }
  }

  /** The pieces that do not mention `rewrite_tag`. */
  function Untouched(pieces: seq<string>): seq<string> {
    if pieces == [] then []
    else (if Contains(pieces[0], REWRITE) then [] else [pieces[0]]) + Untouched(pieces[1..])
  }

  /** Where nothing matches, a pass only drops the sections that mention `rewrite_tag`. */
  lemma {:induction false} KeptUntouched(pieces: seq<string>)
    requires forall p :: p in pieces && Contains(p, REWRITE) ==> Capture(p) == None
    ensures Kept(pieces) == Untouched(pieces)
  {
    if pieces != [] {
      assert pieces[0] in pieces;
      KeptUntouched(pieces[1..]);
    }
  }

  lemma {:induction false} EmitUntouched(pieces: seq<string>)
    ensures |Emit(Untouched(pieces))| <= |Emit(pieces)|
    ensures |Emit(Untouched(pieces))| == |Emit(pieces)| <==> FreeOf(pieces, REWRITE)
  {
    if pieces != [] {
      EmitUntouched(pieces[1..]);
      ConcatMapAppend(Marked, if Contains(pieces[0], REWRITE) then [] else [pieces[0]], Untouched(pieces[1..]));
      assert Emit([pieces[0]]) == Marked(pieces[0]) + Emit([pieces[0]][1..]);
      assert Contains(pieces[0], REWRITE) ==> pieces[0] != "";
      assert forall p :: p in pieces <==> p == pieces[0] || p in pieces[1..];
    }
  }

  lemma {:induction false} EmitNonBlank(pieces: seq<string>)
    requires pieces != [] && forall p :: p in pieces ==> !Blank(p)
    ensures Emit(pieces) == FILTER + Join(pieces, FILTER)
  {
    TrimSpaceBlank(pieces[0]);
    assert pieces[0] in pieces;
    if |pieces| == 1 {
      assert Emit(pieces) == Marked(pieces[0]) + Emit(pieces[1..]);
      assert Emit(pieces[1..]) == "";
    } else {
      EmitNonBlank(pieces[1..]);
      var rest := Join(pieces[1..], FILTER);
      assert FILTER + pieces[0] + (FILTER + rest) == FILTER + (pieces[0] + FILTER + rest);
    }
  }

  /** A proper list of pieces is emitted with a marker between any two. */
  lemma EmitProper(pieces: seq<string>)
    requires Proper(pieces)
    ensures Emit(pieces) == Join(pieces, FILTER)
  {
    TrimSpaceBlank(pieces[0]);
    assert Emit(pieces) == pieces[0] + Emit(pieces[1..]);
    if |pieces| > 1 {
      EmitNonBlank(pieces[1..]);
      assert pieces[0] + (FILTER + Join(pieces[1..], FILTER)) == pieces[0] + FILTER + Join(pieces[1..], FILTER);
    }
  }

  /** A second pass drops exactly the sections of the first output that mention `rewrite_tag`. */
  lemma SecondPass(text: string)
    ensures Rewrite(Rewrite(text)) == Emit(Untouched(Split(Rewrite(text), FILTER)))
    ensures Rewrite(text) == Emit(Split(Rewrite(text), FILTER))
    ensures FreeOf(Split(Rewrite(text), FILTER), REWRITE) <==> !Tainted(text)
  {
    var tokens := Split(text, FILTER);
    SplitPieces(text, FILTER);
    KeptIsFreeOfMarkers(tokens);
    KeptSettled(tokens);
    PiecesSettled(KeptOf(text));
    Resplit(text);
    KeptUntouched(Pieces(KeptOf(text)));
    EmitProper(Pieces(KeptOf(text)));
    EmitIsJoin(KeptOf(text));
  }

  /** The output mentions `rewrite_tag`, anywhere and across joins, exactly when a captured name does. */
  lemma OutputMentionsRewriteTag(text: string)
    ensures Contains(Rewrite(text), REWRITE) <==> Tainted(text)
  {
    SecondPass(text);
    JoinSplit(Rewrite(text), FILTER);
    JoinContains(Split(Rewrite(text), FILTER));
  }

  /** Rewriting is idempotent on a text exactly when no captured name mentions `rewrite_tag`. */
  lemma Idempotent(text: string)
    ensures Rewrite(Rewrite(text)) == Rewrite(text) <==> !Tainted(text)
  {
    SecondPass(text);
    var pieces := Split(Rewrite(text), FILTER);
    EmitUntouched(pieces);
    if !Tainted(text) {
      AllUntouched(pieces);
    }
  }

  lemma {:induction false} AllUntouched(pieces: seq<string>)
    requires FreeOf(pieces, REWRITE)
    ensures Untouched(pieces) == pieces
  {
    if pieces != [] {
      assert pieces[0] in pieces;
      AllUntouched(pieces[1..]);
    }
  }

  /** One output's sections never match again, so two passes settle every text. */
  lemma TwoPassesSettle(text: string)
    ensures Rewrite(Rewrite(Rewrite(text))) == Rewrite(Rewrite(text))
    ensures !Contains(Rewrite(Rewrite(text)), REWRITE)
  {
    var first := Rewrite(text);
    KeptSettled(Split(text, FILTER));
    SplitPieces(text, FILTER);
    KeptIsFreeOfMarkers(Split(text, FILTER));
    PiecesSettled(KeptOf(text));
    Resplit(text);
    forall token | token in Split(first, FILTER) ensures !TaintedToken(token) {
      if TaintedToken(token) {
        CapturePart(token, REWRITE);
        assert false;
      }
    }
    Idempotent(first);
    OutputMentionsRewriteTag(first);
  }

  /**
   The texts that rewriting leaves alone: nothing but white space before the first marker, no blank section
   after it, and no `rewrite_tag`.
   */
  lemma FixedPoint(text: string)
    ensures Rewrite(text) == text <==> Proper(Split(text, FILTER)) && !Contains(text, REWRITE)
  {
    var tokens := Split(text, FILTER);
    JoinSplit(text, FILTER);
    JoinContains(tokens);
    if Proper(tokens) && !Contains(text, REWRITE) {
      KeptVerbatim(tokens);
      EmitProper(tokens);
    }
    if Rewrite(text) == text {
      Resplit(text);
      Idempotent(text);
      OutputMentionsRewriteTag(text);
    }
  }

  /** A ConfigMap's block for such a text is the text without trailing spaces and one newline. */
  lemma FixedPointBlock(text: string)
    requires Proper(Split(text, FILTER)) && !Contains(text, REWRITE)
    ensures FilterBlock(text) == TrimRight(text, " ") + "\n"
  {
    FixedPoint(text);
  }

  lemma {:induction false} JoinLast(pieces: seq<string>, last: string, sep: string)
    ensures Join(pieces + [last], sep) == Join(pieces + [""], sep) + last
  {
    if pieces != [] {
      JoinLast(pieces[1..], last, sep);
      assert (pieces + [last])[1..] == pieces[1..] + [last];
      assert (pieces + [""])[1..] == pieces[1..] + [""];
      Associative(pieces[0] + sep, Join(pieces[1..] + [""], sep), last);
    }
  }

  lemma ProperLast(pieces: seq<string>, last: string, other: string)
    requires Proper(pieces + [last]) && (Blank(other) <==> Blank(last))
    ensures Proper(pieces + [other])
    ensures pieces != [] ==> !Blank(last)
  {
    if pieces != [] {
      assert (pieces + [last])[1..] == pieces[1..] + [last] && (pieces + [other])[1..] == pieces[1..] + [other];
      assert last in (pieces + [last])[1..];
      assert forall p :: p in pieces[1..] ==> p in (pieces + [last])[1..];
    }
  }

  lemma ReplaceLast(pieces: seq<string>, last: string)
    requires Proper(pieces + [last]) && FreeOf(pieces + [last], FILTER)
    ensures
      var trimmed := TrimRight(last, " ") + "\n";
      && TrimRight(Join(pieces + [last], FILTER), " ") + "\n" == Join(pieces + [trimmed], FILTER)
      && Proper(pieces + [trimmed]) && FreeOf(pieces + [trimmed], FILTER)
  {
    PatternCharacters();
    var trimmed := TrimRight(last, " ") + "\n";
    hide Proper, Blank, Contains, TrimRight;
    JoinLast(pieces, last, FILTER);
    JoinLast(pieces, trimmed, FILTER);
    TrimmedBlank(last);
    TrimmedContains(last, FILTER);
    ProperLast(pieces, last, trimmed);
    FreeOfAppend(pieces, last, FILTER);
    FreeOfAppend(pieces, trimmed, FILTER);
    if pieces == [] {
      assert Join([""], FILTER) + last == last;
    } else {
      var front := Join(pieces + [""], FILTER);
      TrimRightAppend(front, last, " ");
      Associative(front, TrimRight(last, " "), "\n");
    }
  }

  /** The block's pieces are the output's, with the trailing spaces of the last one replaced by a newline. */
  lemma BlockPieces(text: string) returns (pieces: seq<string>, last: string)
    ensures Split(Rewrite(text), FILTER) == pieces + [last]
    ensures Split(FilterBlock(text), FILTER) == pieces + [TrimRight(last, " ") + "\n"]
    ensures Proper(pieces + [TrimRight(last, " ") + "\n"])
  {
    var all := Split(Rewrite(text), FILTER);
    pieces, last := all[..|all| - 1], all[|all| - 1];
    assert all == pieces + [last];
    Resplit(text);
    SplitPieces(Rewrite(text), FILTER);
    JoinSplit(Rewrite(text), FILTER);
    ReplaceLast(pieces, last);
    PatternCharacters();
    SplitJoin(pieces + [TrimRight(last, " ") + "\n"], FILTER);
  }

  lemma TrimmedBlank(s: string)
    ensures Blank(TrimRight(s, " ") + "\n") <==> Blank(s)
    ensures !Blank(s) ==> TrimRight(s, " ") != ""
  {
    var r := TrimRight(s, " ");
    assert forall i :: 0 <= i < |r| ==> (r + "\n")[i] == s[i];
    assert forall i :: |r| <= i < |s| ==> s[i] == ' ';
    if Blank(r + "\n") {
      forall i | 0 <= i < |s| ensures IsSpace(s[i]) {
        if i < |r| { assert IsSpace((r + "\n")[i]); }
      }
    }
  }

  lemma TrimmedContains(s: string, sub: string)
    requires sub != "" && forall k :: 0 <= k < |sub| ==> !IsSpace(sub[k])
    ensures Contains(TrimRight(s, " ") + "\n", sub) <==> Contains(s, sub)
  {
    var r := TrimRight(s, " ");
    var tail := s[|r|..];
    assert s == r + tail && Blank(tail);
    BlankTail(r, tail, sub);
    BlankTail(r, "\n", sub);
  }

  lemma FreeOfAppend(pieces: seq<string>, last: string, sub: string)
    ensures FreeOf(pieces + [last], sub) <==> FreeOf(pieces, sub) && !Contains(last, sub)
  {
    assert forall p :: p in pieces + [last] <==> p in pieces || p == last;
  }

  /** A block mentions `rewrite_tag` exactly when a captured name does. */
  lemma BlockMentionsRewriteTag(text: string)
    ensures Contains(FilterBlock(text), REWRITE) <==> Tainted(text)
  {
    var pieces, last := BlockPieces(text);
    var trimmed := TrimRight(last, " ") + "\n";
    PatternCharacters();
    SecondPass(text);
    TrimmedContains(last, REWRITE);
    FreeOfAppend(pieces, last, REWRITE);
    FreeOfAppend(pieces, trimmed, REWRITE);
    JoinSplit(FilterBlock(text), FILTER);
    JoinContains(pieces + [trimmed]);
  }

  /**
   A block is a fixed point of the rewriting exactly when no captured name mentioned `rewrite_tag`; using it as
   a ConfigMap's text again then only adds the newline of the new block.
   */
  lemma BlockAgain(text: string)
    ensures Rewrite(FilterBlock(text)) == FilterBlock(text) <==> !Tainted(text)
    ensures !Tainted(text) ==> FilterBlock(FilterBlock(text)) == FilterBlock(text) + "\n"
  {
    var pieces, last := BlockPieces(text);
    BlockMentionsRewriteTag(text);
    FixedPoint(FilterBlock(text));
  }

  const EXAMPLE := TAG + " " + REWRITE + " " + EXPOSED + " " + TRUE

  lemma ExampleCharacters()
    ensures |EXAMPLE| == 39 && '[' !in EXAMPLE
    ensures EXAMPLE[0..4] == TAG && EXAMPLE[5..16] == REWRITE && EXAMPLE[17..34] == EXPOSED && EXAMPLE[35..39] == TRUE
    ensures EXAMPLE[4] == ' ' && EXAMPLE[16] == ' ' && EXAMPLE[34] == ' '
  {
    var front := TAG + " " + REWRITE + " " + EXPOSED;
    assert |TAG| == 4 && |REWRITE| == 11 && |EXPOSED| == 17 && |TRUE| == 4;
    assert EXAMPLE == front + " " + TRUE && |front| == 34;
    assert EXAMPLE[..34] == front && EXAMPLE[35..39] == TRUE;
    assert front[0..4] == TAG && front[5..16] == REWRITE && front[17..34] == EXPOSED;
    assert front[4] == ' ' && front[16] == ' ';
    assert forall i, j :: 0 <= i <= j <= 34 ==> EXAMPLE[i..j] == front[i..j];
    assert '[' !in TAG && '[' !in REWRITE && '[' !in EXPOSED && '[' !in TRUE && '[' !in " ";
  }

  lemma CaptureOfExample(s: string)
    requires |s| == 39 && s[0..4] == TAG && s[5..16] == REWRITE && s[17..34] == EXPOSED && s[35..39] == TRUE
    requires s[4] == ' ' && s[16] == ' ' && s[34] == ' '
    ensures Capture(s) == Some(REWRITE)
  {
    var l := Layout(0, 5, 16, 17, 35);
    assert forall k :: 0 <= k < |REWRITE| ==> REWRITE[k] != '\n' && !InClass(REWRITE[k], Space);
    assert forall k :: 5 <= k < 16 ==> s[k] == s[5..16][k - 5];
    assert IsLayout(s, l);
    CaptureIsFirstLayout(s);
    var first := CaptureLayout(s);
    assert NoLater(first, l) && first.tag == 0;
    assert s[5] == REWRITE[0] && !InClass(s[5], Space);
    assert first.nameLo == 5;
    assert InClass(s[first.nameHi], Space);
  }

  /** Idempotence does fail: here the tag's own name is `rewrite_tag`, and the second pass drops the section. */
  lemma NotIdempotent()
    ensures Capture(EXAMPLE) == Some(REWRITE)
    ensures Rewrite(Rewrite(EXAMPLE)) != Rewrite(EXAMPLE)
  {
    ExampleCharacters();
    CaptureOfExample(EXAMPLE);
    TaintedAlone(EXAMPLE);
    Idempotent(EXAMPLE);
  }

  lemma TaintedAlone(s: string)
    requires '[' !in s && Capture(s) == Some(REWRITE)
    ensures Tainted(s)
  {
    LacksCharacter(s, FILTER, 0);
    assert Split(s, FILTER) == [s];
    assert At(REWRITE, REWRITE, 0);
    assert TaintedToken(s) && s in Split(s, FILTER);
  }
}
