/**
 The rewriting of one fluent-bit filter text, as a function: split at `[FILTER]`, replace the sections that
 mention `rewrite_tag` by a `modify` filter or drop them, and put a marker back before every section that is
 not blank. `SeedActuator` holds the loops that compute it.
 */
module FilterRewriter {
  import opened GoStrings
  import opened Regexp
  import opened Wrappers
  import opened RewriteTag

  const FILTER := "[FILTER]"
  const REWRITE := "rewrite_tag"
  const PLACE_HOLDER := "__PLACE_HOLDER__"

  const HEAD := "\n    Name          modify" + ("\n    Match         " + "kubernetes.*")
  const CONDITION := "\n    Condition     Key" + ("_value" + "_matches tag ")
  const BEFORE := HEAD + CONDITION
  const AFTER := "\n    Add           " + ("__gardener_multitenant_id__" + " operator;user\n")
  const MODIFY_FILTER := BEFORE + PLACE_HOLDER + AFTER

  /** The `modify` filter that stands in for a `rewrite_tag` filter: the template around the name. */
  function Modify(name: string): string {
    BEFORE + name + AFTER
  }

  /** What becomes of one section: itself, the `modify` filter, or nothing. */
  function Rewritten(token: string): Option<string> {
    if !Contains(token, REWRITE) then Some(token)
    else
      match Capture(token)
      case None => None
      case Some(name) => Some(Modify(name))
  }

  /** The sections that survive, in order. */
  function Kept(tokens: seq<string>): seq<string> {
    if tokens == [] then []
    else
      match Rewritten(tokens[0])
      case None => Kept(tokens[1..])
      case Some(section) => [section] + Kept(tokens[1..])
  }

  function Marked(section: string): string {
    (if TrimSpace(section) != "" then FILTER else "") + section
  }

  function Emit(sections: seq<string>): string {
    ConcatMap(Marked, sections)
  }

  /** What the string builder holds after the loop over the sections of one text. */
  function Rewrite(text: string): string {
    Emit(Kept(Split(text, FILTER)))
  }

  /** What one ConfigMap adds to the assembled filters. */
  function FilterBlock(text: string): string {
    TrimRight(Rewrite(text), " ") + "\n"
  }

  // The `modify` template

  /** `c` is never doubled. */
  ghost predicate Single(s: string, c: char) {
    forall j :: 0 <= j < |s| - 1 ==> s[j] != c || s[j + 1] != c
  }

  lemma SingleAppend(a: string, b: string, c: char)
    requires c !in a && Single(b, c)
    ensures Single(a + b, c)
  {
  }

  lemma BeforeIsSingle()
    ensures Single(BEFORE, '_')
    ensures BEFORE[|BEFORE| - 1] == ' '
  {
    var tail := "_value" + "_matches tag ";
    assert Single(tail, '_');
    SingleAppend("\n    Condition     Key", tail, '_');
    assert '_' !in "\n    Name          modify" && '_' !in "\n    Match         " && '_' !in "kubernetes.*";
    SingleAppend(HEAD, CONDITION, '_');
  }

  lemma BeforeLacks(c: char)
    requires c == '[' || c == 'w' || c == '$'
    ensures c !in BEFORE
  {
    HeadLacks(c);
    ConditionLacks(c);
  }

  lemma HeadLacks(c: char)
    requires c == '[' || c == 'w' || c == '$'
    ensures c !in HEAD
  {
    assert c !in "\n    Name          modify";
    assert c !in "\n    Match         ";
    assert c !in "kubernetes.*";
  }

  lemma ConditionLacks(c: char)
    requires c == '[' || c == 'w' || c == '$'
    ensures c !in CONDITION
  {
    assert c !in "\n    Condition     Key";
    assert c !in "_value";
    assert c !in "_matches tag ";
  }

  lemma AfterLacks(c: char)
    requires c == '[' || c == 'w' || c == '$'
    ensures c !in AFTER
  {
    assert c !in "\n    Add           ";
    assert c !in "__gardener_multitenant_id__";
    assert c !in " operator;user\n";
  }

  lemma AfterStart()
    ensures |AFTER| > 5 && AFTER[5] == 'A'
    ensures forall i :: 0 <= i < 5 ==> InClass(AFTER[i], Space)
  {
    var first := "\n    Add           ";
    assert forall i :: 0 <= i < |first| ==> AFTER[i] == first[i];
    assert AFTER[0] == first[0] && AFTER[1] == first[1] && AFTER[2] == first[2];
    assert AFTER[3] == first[3] && AFTER[4] == first[4];
  }

  /** The placeholder occurs first where the template has it, so that is where replacing puts the name. */
  lemma ReplacePlaceHolder(name: string)
    ensures ReplaceFirst(MODIFY_FILTER, PLACE_HOLDER, name) == Modify(name)
  {
    BeforeIsSingle();
    var k := |BEFORE|;
    var rest := PLACE_HOLDER + AFTER;
    assert MODIFY_FILTER == BEFORE + rest;
    assert MODIFY_FILTER[k..k + |PLACE_HOLDER|] == PLACE_HOLDER;
    assert At(MODIFY_FILTER, PLACE_HOLDER, k);
    assert PLACE_HOLDER[0] == '_' && PLACE_HOLDER[1] == '_';
    forall i: nat | i < k ensures !At(MODIFY_FILTER, PLACE_HOLDER, i) {
      assert MODIFY_FILTER[i] != '_' || MODIFY_FILTER[i + 1] != '_';
      if At(MODIFY_FILTER, PLACE_HOLDER, i) {
        AtCharacters(MODIFY_FILTER, PLACE_HOLDER, i);
        assert false;
      }
    }
  }

  /** The two halves of the template, by what the proofs need of them. */
  lemma ModifyParts(name: string) returns (before: string, after: string)
    ensures Modify(name) == before + name + after
    ensures before != "" && before[|before| - 1] == ' '
    ensures |after| > 5 && after[5] == 'A' && forall i :: 0 <= i < 5 ==> InClass(after[i], Space)
    ensures forall c :: c == '[' || c == 'w' || c == '$' ==> c !in before && c !in after
  {
    before, after := BEFORE, AFTER;
    BeforeIsSingle();
    AfterStart();
    forall c | c == '[' || c == 'w' || c == '$' ensures c !in before && c !in after {
      BeforeLacks(c);
      AfterLacks(c);
    }
  }
}
