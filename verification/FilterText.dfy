/**
 The rewriting stated on the text alone, by two equations that determine it: what becomes of a text without a marker,
 and that markers take texts apart.
 */
module FilterText {
  import opened GoStrings
  import opened Wrappers
  import opened RewriteTag
  import opened CaptureText
  import opened FilterRewriter
  import FilterProperties

  ghost predicate Mentions(s: string, sub: string) {
    exists pre, post :: s == pre + sub + post
  }

  lemma ContainsIsMentions(s: string, sub: string)
    ensures Contains(s, sub) <==> Mentions(s, sub)
  {
    if Contains(s, sub) {
      var i := Index(s, sub);
      CutAt(s, sub, i);
    }
    if Mentions(s, sub) {
      var pre, post :| s == pre + sub + post;
      assert s[|pre|..|pre| + |sub|] == sub;
      ContainsAt(s, sub, |pre|);
    }
  }

  /** The characters with Unicode's White_Space property. */
  const WHITE_SPACE :=
    ['\t', '\n', '\U{000B}', '\U{000C}', '\r', ' ', '\U{0085}', '\U{00A0}', '\U{1680}', '\U{2000}', '\U{2001}',
     '\U{2002}', '\U{2003}', '\U{2004}', '\U{2005}', '\U{2006}', '\U{2007}', '\U{2008}', '\U{2009}', '\U{200A}',
     '\U{2028}', '\U{2029}', '\U{202F}', '\U{205F}', '\U{3000}']

  lemma SpaceIsListed(c: char)
    ensures IsSpace(c) <==> c in WHITE_SPACE
  {
    if IsSpace(c) {
      var n := c as int;
      assert 9 <= n <= 13 || 0x2000 <= n <= 0x200A ||
        n in [32, 0x85, 0xA0, 0x1680, 0x2028, 0x2029, 0x202F, 0x205F, 0x3000];
    }
  }

  predicate AllWhite(s: string) {
    forall i :: 0 <= i < |s| ==> s[i] in WHITE_SPACE
  }

  lemma BlankIsAllWhite(s: string)
    ensures TrimSpace(s) == "" <==> AllWhite(s)
  {
    TrimSpaceBlank(s);
    forall i | 0 <= i < |s| ensures IsSpace(s[i]) <==> s[i] in WHITE_SPACE {
      SpaceIsListed(s[i]);
    }
  }

  /** The filter for a name, as it stands in the configuration. */
  function ModifyText(name: string): string {
    ("\n    Name          modify" + ("\n    Match         " + "kubernetes.*")) +
    ("\n    Condition     Key" + ("_value" + "_matches tag ")) + name +
    ("\n    Add           " + ("__gardener_multitenant_id__" + " operator;user\n"))
  }

  lemma ModifyIsText(name: string)
    ensures Modify(name) == ModifyText(name)
  {
  }

  lemma ModifyIsNotBlank(name: string)
    ensures TrimSpace(Modify(name)) != ""
  {
    TrimSpaceBlank(Modify(name));
    var before, after := ModifyParts(name);
    assert Modify(name)[|before| + |name| + 5] == 'A';
  }

  lemma RewriteOne(token: string)
    requires !Contains(token, FILTER)
    ensures Rewrite(token) == match Rewritten(token) case None => "" case Some(section) => Marked(section)
  {
    var tokens := Split(token, FILTER);
    assert tokens == [token] && tokens[1..] == [];
    assert Kept(tokens[1..]) == [];
    match Rewritten(token) {
      case None =>
      case Some(section) =>
        assert [section] + Kept(tokens[1..]) == [section] && [section][1..] == [];
        assert Emit([section]) == Marked(section) + Emit([]);
    }
  }

  /**
   A text without a marker that does not mention `rewrite_tag` is kept as it is, with a marker in front unless it is
   blank. One that does becomes a marker and the `modify` filter for the name of its first reading, or nothing if it
   has none.
   */
  lemma RewriteOfSection(token: string)
    requires !Mentions(token, "[FILTER]")
    ensures !Mentions(token, "rewrite_tag") ==> Rewrite(token) == (if AllWhite(token) then "" else "[FILTER]") + token
    ensures Mentions(token, "rewrite_tag") && (forall r :: !Reads(token, r)) ==> Rewrite(token) == ""
    ensures forall r :: Mentions(token, "rewrite_tag") && ReadsFirst(token, r) ==>
      Rewrite(token) == "[FILTER]" + ModifyText(r.name)
  {
    ContainsIsMentions(token, "[FILTER]");
    ContainsIsMentions(token, "rewrite_tag");
    RewriteOne(token);
    CaptureIsFirstReading(token);
    BlankIsAllWhite(token);
    forall r | Mentions(token, "rewrite_tag") && ReadsFirst(token, r)
      ensures Rewrite(token) == "[FILTER]" + ModifyText(r.name)
    {
      assert Capture(token) == Some(r.name);
      ModifyIsText(r.name);
      ModifyIsNotBlank(r.name);
    }
  }

  /** Every text is texts without a marker, with markers between them; rewriting takes it apart there. */
  lemma RewriteOfMarked(a: string, b: string)
    ensures Rewrite(a + "[FILTER]" + b) == Rewrite(a) + Rewrite(b)
  {
    FilterProperties.RewriteDistributes(a, b);
  }
}
