/** What the rewriting of a fluent-bit filter text keeps, changes and converges to. */
module FilterProperties {
  import opened GoStrings
  import opened Regexp
  import opened Wrappers
  import opened RewriteTag
  import opened FilterRewriter

  // Characters and joins

  lemma BlankLacks(s: string, sub: string, k: nat)
    requires Blank(s) && k < |sub| && !IsSpace(sub[k])
    ensures !Contains(s, sub)
  {
    LacksCharacter(s, sub, k);
  }

  /** A blank tail adds no occurrence of a pattern that holds no white space. */
  lemma BlankTail(a: string, blank: string, sub: string)
    requires Blank(blank) && sub != ""
    requires forall k :: 0 <= k < |sub| ==> !IsSpace(sub[k])
    ensures Contains(a + blank, sub) <==> Contains(a, sub)
  {
    BlankLacks(blank, sub, 0);
    ContainsAppend(a, blank, sub);
  }

  lemma PatternCharacters()
    ensures forall k :: 0 <= k < |FILTER| ==> !IsSpace(FILTER[k])
    ensures forall k :: 0 <= k < |REWRITE| ==> !IsSpace(REWRITE[k])
    ensures Unbordered(FILTER) && '[' !in REWRITE && ']' !in REWRITE
  {
  }

  /** `[FILTER]` and `rewrite_tag` occur in the `modify` filter only where the name brings them. */
  lemma ModifyContains(name: string, sub: string)
    requires sub == FILTER || sub == REWRITE
    ensures Contains(Modify(name), sub) <==> Contains(name, sub)
  {
    var before, after := ModifyParts(name);
    hide Contains, Modify;
    var (c, k) := if sub == FILTER then ('[', 0) else ('w', 2);
    LacksCharacter(before, sub, k);
    LacksCharacter(after, sub, k);
    assert ' ' !in sub && !InClass(sub[0], Space) && after[0] !in sub;
    ContainsAppend(name, after, sub);
    ContainsAppend(before, name + after, sub);
    assert before + name + after == before + (name + after);
  }

  lemma {:induction false} JoinContains(pieces: seq<string>)
    requires pieces != []
    ensures Contains(Join(pieces, FILTER), REWRITE) <==> exists p :: p in pieces && Contains(p, REWRITE)
  {
    PatternCharacters();
    if |pieces| == 1 {
      assert pieces[0] in pieces;
    } else {
      var rest := Join(pieces[1..], FILTER);
      JoinContains(pieces[1..]);
      LacksCharacter(FILTER, REWRITE, 0);
      ContainsAppend(FILTER, rest, REWRITE);
      ContainsAppend(pieces[0], FILTER + rest, REWRITE);
      assert pieces[0] + FILTER + rest == pieces[0] + (FILTER + rest);
      assert forall p :: p in pieces <==> p == pieces[0] || p in pieces[1..];
    }
  }

  // Structure of the output

  ghost predicate FreeOf(pieces: seq<string>, sub: string) {
    forall p :: p in pieces ==> !Contains(p, sub)
  }

  lemma {:induction false} KeptAppend(a: seq<string>, b: seq<string>)
    ensures Kept(a + b) == Kept(a) + Kept(b)
  {
    if a == [] {
      assert a + b == b;
    } else {
      KeptAppend(a[1..], b);
      assert (a + b)[1..] == a[1..] + b;
    }
  }

  /** Sections without `rewrite_tag` survive as they are. */
  lemma {:induction false} KeptVerbatim(tokens: seq<string>)
    requires FreeOf(tokens, REWRITE)
    ensures Kept(tokens) == tokens
  {
    if tokens != [] {
      assert tokens[0] in tokens;
      KeptVerbatim(tokens[1..]);
    }
  }

  function Shifted(at: seq<nat>): (r: seq<nat>)
    ensures |r| == |at| && forall i :: 0 <= i < |at| ==> r[i] == at[i] + 1
  {
    if at == [] then [] else [at[0] + 1] + Shifted(at[1..])
  }

  ghost predicate Increasing(at: seq<nat>) {
    forall i, j :: 0 <= i < j < |at| ==> at[i] < at[j]
  }

  /** The sections at positions `at` become `kept` under `f`. */
  ghost predicate Picks(f: string -> Option<string>, tokens: seq<string>, at: seq<nat>, kept: seq<string>) {
    |at| == |kept| && forall i :: 0 <= i < |at| ==> at[i] < |tokens| && f(tokens[at[i]]) == Some(kept[i])
  }

  /** No section at another position survives. */
  ghost predicate DropsOthers(f: string -> Option<string>, tokens: seq<string>, at: seq<nat>) {
    forall k :: 0 <= k < |tokens| && f(tokens[k]).Some? ==> exists i :: 0 <= i < |at| && at[i] == k
  }

  ghost predicate Selects(f: string -> Option<string>, tokens: seq<string>, at: seq<nat>, kept: seq<string>) {
    Picks(f, tokens, at, kept) && Increasing(at) && DropsOthers(f, tokens, at)
  }

  lemma DropsCons(f: string -> Option<string>, token: string, tokens: seq<string>, at: seq<nat>)
    requires DropsOthers(f, tokens, at)
    ensures f(token) == None ==> DropsOthers(f, [token] + tokens, Shifted(at))
    ensures DropsOthers(f, [token] + tokens, [0] + Shifted(at))
  {
    var later, all := Shifted(at), [token] + tokens;
    forall k | 0 <= k < |all| && f(all[k]).Some?
      ensures k > 0 ==> exists i :: 0 <= i < |later| && later[i] == k
      ensures exists i :: 0 <= i < |[0] + later| && ([0] + later)[i] == k
    {
      if k == 0 {
        assert ([0] + later)[0] == k;
      } else {
        assert all[k] == tokens[k - 1];
        var i :| 0 <= i < |at| && at[i] == k - 1;
        assert later[i] == k && ([0] + later)[i + 1] == k;
      }
    }
  }

  lemma PicksCons(f: string -> Option<string>, token: string, tokens: seq<string>, at: seq<nat>, kept: seq<string>)
    requires Picks(f, tokens, at, kept)
    ensures Picks(f, [token] + tokens, Shifted(at), kept)
    ensures f(token).Some? ==> Picks(f, [token] + tokens, [0] + Shifted(at), [f(token).value] + kept)
  {
    var later, all := Shifted(at), [token] + tokens;
    assert forall i :: 0 <= i < |at| ==> all[later[i]] == tokens[at[i]];
  }

  lemma IncreasingCons(at: seq<nat>)
    requires Increasing(at)
    ensures Increasing(Shifted(at)) && Increasing([0] + Shifted(at))
  {
    var all := [0] + Shifted(at);
    assert forall i :: 1 <= i < |all| ==> all[i] == at[i - 1] + 1;
  }

  lemma SelectsCons(f: string -> Option<string>, token: string, tokens: seq<string>, at: seq<nat>, kept: seq<string>)
    requires Selects(f, tokens, at, kept)
    ensures f(token) == None ==> Selects(f, [token] + tokens, Shifted(at), kept)
    ensures f(token).Some? ==> Selects(f, [token] + tokens, [0] + Shifted(at), [f(token).value] + kept)
  {
    DropsCons(f, token, tokens, at);
    PicksCons(f, token, tokens, at, kept);
    IncreasingCons(at);
  }

  /** What survives is selected from the input in its order: nothing is moved, repeated or made up. */
  lemma {:induction false} SelectiveRewriting(tokens: seq<string>) returns (at: seq<nat>)
    ensures Selects(Rewritten, tokens, at, Kept(tokens))
  {
    if tokens == [] {
      at := [];
    } else {
      var rest := SelectiveRewriting(tokens[1..]);
      SelectsCons(Rewritten, tokens[0], tokens[1..], rest, Kept(tokens[1..]));
      assert tokens == [tokens[0]] + tokens[1..];
      at := if Rewritten(tokens[0]).Some? then [0] + Shifted(rest) else Shifted(rest);
    }
  }

  /** Every surviving section comes from a section of the input. */
  lemma {:induction false} KeptFrom(tokens: seq<string>, section: string) returns (token: string)
    requires section in Kept(tokens)
    ensures token in tokens && Rewritten(token) == Some(section)
  {
    if Rewritten(tokens[0]) == Some(section) {
      token := tokens[0];
    } else {
      token := KeptFrom(tokens[1..], section);
    }
  }

  lemma {:induction false} KeptAll(tokens: seq<string>, token: string)
    requires token in tokens && Rewritten(token).Some?
    ensures Rewritten(token).value in Kept(tokens)
  {
    if token != tokens[0] {
      KeptAll(tokens[1..], token);
    }
  }

  /** No section that survives holds a marker. */
  lemma KeptIsFreeOfMarkers(tokens: seq<string>)
    requires FreeOf(tokens, FILTER)
    ensures FreeOf(Kept(tokens), FILTER)
  {
    forall section | section in Kept(tokens) ensures !Contains(section, FILTER) {
      var token := KeptFrom(tokens, section);
      if Contains(token, REWRITE) {
        var name := Capture(token).value;
        ModifyContains(name, FILTER);
        if Contains(name, FILTER) {
          CapturePart(token, FILTER);
        }
      }
    }
  }

  lemma CapturePart(token: string, sub: string)
    requires Capture(token).Some? && Contains(Capture(token).value, sub)
    ensures Contains(token, sub)
  {
    var l := CaptureLayout(token);
    ContainsSlice(token, l.nameLo, l.nameHi, sub);
  }

  /**
   The pieces of the output: a blank lead, then each surviving section that is not blank, every one followed
   by the white space of the blank sections after it.
   */
  function Pieces(sections: seq<string>): (pieces: seq<string>)
    ensures pieces != []
  {
    if sections == [] then [""]
    else
      var rest := Pieces(sections[1..]);
      var first := [sections[0] + rest[0]] + rest[1..];
      if TrimSpace(sections[0]) == "" then first else [""] + first
  }

  function NonBlankCount(sections: seq<string>): nat {
    if sections == [] then 0
    else (if TrimSpace(sections[0]) == "" then 0 else 1) + NonBlankCount(sections[1..])
  }

  /** A blank first piece, and no blank piece after it. */
  ghost predicate Proper(pieces: seq<string>) {
    pieces != [] && Blank(pieces[0]) && forall p :: p in pieces[1..] ==> !Blank(p)
  }

  lemma {:induction false} PiecesProper(sections: seq<string>)
    requires FreeOf(sections, FILTER)
    ensures Proper(Pieces(sections)) && FreeOf(Pieces(sections), FILTER)
    ensures |Pieces(sections)| == 1 + NonBlankCount(sections)
  {
    PatternCharacters();
    if sections == [] {
      BlankLacks("", FILTER, 0);
    } else {
      var section, rest := sections[0], Pieces(sections[1..]);
      assert section in sections && rest[0] in rest;
      PiecesProper(sections[1..]);
      TrimSpaceBlank(section);
      BlankTail(section, rest[0], FILTER);
      BlankLacks("", FILTER, 0);
      assert Blank(section) <==> Blank(section + rest[0]) by {
        assert forall i :: 0 <= i < |section| ==> (section + rest[0])[i] == section[i];
      }
      var first := [section + rest[0]] + rest[1..];
      assert first[1..] == rest[1..];
      assert ([""] + first)[1..] == first;
      assert forall p :: p in rest[1..] ==> p in rest;
    }
  }

  /** The builder holds the pieces joined by markers. */
  lemma {:induction false} EmitIsJoin(sections: seq<string>)
    ensures Emit(sections) == Join(Pieces(sections), FILTER)
  {
    if sections != [] {
      EmitIsJoin(sections[1..]);
      var rest := Pieces(sections[1..]);
      var first := [sections[0] + rest[0]] + rest[1..];
      JoinPrepend(sections[0], rest, FILTER);
      if TrimSpace(sections[0]) != "" {
        assert ([""] + first)[1..] == first;
        assert "" + FILTER + Join(first, FILTER) == FILTER + Join(first, FILTER);
        assert FILTER + (sections[0] + Emit(sections[1..])) == FILTER + sections[0] + Emit(sections[1..]);
      }
    }
  }

  function KeptOf(text: string): seq<string> {
    Kept(Split(text, FILTER))
  }

  /**
   Splitting the output again recovers the surviving sections: no marker arises inside a section, inside a
   `modify` filter or where two of them meet, and there are as many markers as non-blank survivors.
   */
  lemma Resplit(text: string)
    ensures Split(Rewrite(text), FILTER) == Pieces(KeptOf(text))
    ensures |Split(Rewrite(text), FILTER)| == 1 + NonBlankCount(KeptOf(text))
    ensures Proper(Split(Rewrite(text), FILTER))
  {
    PatternCharacters();
    SplitPieces(text, FILTER);
    KeptIsFreeOfMarkers(Split(text, FILTER));
    PiecesProper(KeptOf(text));
    EmitIsJoin(KeptOf(text));
    SplitJoin(Pieces(KeptOf(text)), FILTER);
  }

  /** Rewriting distributes over the markers of the input. */
  lemma RewriteDistributes(a: string, b: string)
    ensures Rewrite(a + FILTER + b) == Rewrite(a) + Rewrite(b)
  {
    PatternCharacters();
    var (pa, pb) := (Split(a, FILTER), Split(b, FILTER));
    JoinSplit(a, FILTER);
    JoinSplit(b, FILTER);
    SplitPieces(a, FILTER);
    SplitPieces(b, FILTER);
    JoinAppend(pa, pb, FILTER);
    SplitJoin(pa + pb, FILTER);
    KeptAppend(pa, pb);
    ConcatMapAppend(Marked, Kept(pa), Kept(pb));
  }

  lemma {:induction false} JoinAppend(a: seq<string>, b: seq<string>, sep: string)
    requires a != [] && b != []
    ensures Join(a + b, sep) == Join(a, sep) + sep + Join(b, sep)
  {
    if |a| == 1 {
      assert (a + b)[1..] == b;
    } else {
      JoinAppend(a[1..], b, sep);
      assert (a + b)[1..] == a[1..] + b;
      var (rest, last) := (Join(a[1..], sep), Join(b, sep));
      assert a[0] + sep + (rest + sep + last) == a[0] + sep + rest + sep + last;
    }
  }
}
