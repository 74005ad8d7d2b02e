/**
 The assembly of the fluent-bit configuration in the seed actuator's `Reconcile`: the loops over the ConfigMaps
 and over the sections of each filter text.
 */
module SeedActuator {
  import opened GoStrings
  import opened Wrappers
  import opened RewriteTag
  import opened FilterRewriter
  import opened NameOrder
  import FilterIdempotence

  const FILTER_KEY := "filter-kubernetes.conf"
  const PARSER_KEY := "parsers.conf"

  /** Indexing a Go map: the empty string for a missing key. */
  function Data(cm: ConfigMap, key: string): string {
    if key in cm.data then cm.data[key] else ""
  }

  function FilterBlockOf(cm: ConfigMap): string {
    FilterBlock(Data(cm, FILTER_KEY))
  }

  function ParserBlockOf(cm: ConfigMap): string {
    Data(cm, PARSER_KEY) + "\n"
  }

  /** What one section writes to the builder. */
  function Written(token: string): string {
    match Rewritten(token)
    case None => ""
    case Some(section) => Marked(section)
  }

  lemma {:induction false} WrittenIsEmitted(tokens: seq<string>)
    ensures ConcatMap(Written, tokens) == Emit(Kept(tokens))
  {
    if tokens != [] {
      WrittenIsEmitted(tokens[1..]);
    }
  }

  method ModifyFilter(name: string) returns (token: string)
    ensures token == Modify(name)
  {
    ReplacePlaceHolder(name);
    token := ReplaceFirst(MODIFY_FILTER, PLACE_HOLDER, name);
  }

  lemma WrittenMore(tokens: seq<string>, i: nat)
    requires i < |tokens|
    ensures ConcatMap(Written, tokens[..i + 1]) == ConcatMap(Written, tokens[..i]) + Written(tokens[i])
  {
    assert tokens[..i + 1] == tokens[..i] + [tokens[i]];
    ConcatMapSnoc(Written, tokens[..i], tokens[i]);
  }

  lemma WrittenAll(tokens: seq<string>)
    ensures ConcatMap(Written, tokens[..0]) == ""
    ensures ConcatMap(Written, tokens[..|tokens|]) == Emit(Kept(tokens))
  {
    assert tokens[..|tokens|] == tokens;
    WrittenIsEmitted(tokens);
  }

  lemma WrittenCases(token: string)
    ensures !Contains(token, REWRITE) ==> Written(token) == Marked(token)
    ensures Contains(token, REWRITE) ==>
      Written(token) == if Capture(token).None? then "" else Marked(Modify(Capture(token).value))
  {
  }

  /** The marker, unless the section is blank, and the section. */
  method Write(builder: string, token: string) returns (sb: string)
    ensures sb == builder + Marked(token)
  {
    sb := builder;
    if TrimSpace(token) != "" {
      sb := sb + FILTER;
    }
    sb := sb + token;
  }

  /** The loop over the sections of one ConfigMap's filters. */
  method RewriteFilters(flbFilters: string) returns (sb: string)
    ensures sb == Rewrite(flbFilters)
  {
    var tokens := Split(flbFilters, FILTER);
    WrittenAll(tokens);
    hide Split, Contains, Capture, Written, Marked, Modify, ConcatMap, Kept, Emit;
    sb := "";
    var i := 0;
    while i < |tokens|
      invariant 0 <= i <= |tokens|
      invariant sb == ConcatMap(Written, tokens[..i])
    {
      var token := tokens[i];
      WrittenMore(tokens, i);
      WrittenCases(token);
      i := i + 1;
      if Contains(token, REWRITE) {
        var result := Capture(token);
        if result.None? {
          assert sb + "" == sb;
          continue;
        }
        token := ModifyFilter(result.value);
      }
      sb := Write(sb, token);
    }
  }

  lemma RewriteOfNothing()
    ensures Rewrite("") == ""
  {
    LacksCharacter("", FILTER, 0);
    LacksCharacter("", REWRITE, 0);
    assert Split("", FILTER) == [""] && Kept([""][1..]) == [];
    assert Kept([""]) == [""] && Emit([""]) == Marked("") + Emit([""][1..]);
  }

  /** What one ConfigMap writes to the two outputs. */
  method Collect(cm: ConfigMap) returns (filters: string, parsers: string)
    ensures filters == FilterBlockOf(cm) && parsers == ParserBlockOf(cm)
    ensures "filter-kubernetes.conf" in cm.data ==>
      filters == TrimRight(Rewrite(cm.data["filter-kubernetes.conf"]), " ") + "\n"
    ensures "filter-kubernetes.conf" !in cm.data ==> filters == "\n"
    ensures "parsers.conf" in cm.data ==> parsers == cm.data["parsers.conf"] + "\n"
    ensures "parsers.conf" !in cm.data ==> parsers == "\n"
  {
    var sb := RewriteFilters(Data(cm, FILTER_KEY));
    filters := TrimRight(sb, " ") + "\n";
    RewriteOfNothing();
    parsers := Data(cm, PARSER_KEY) + "\n";
  }

  /**
   The assembly: the given ConfigMaps are sorted in place, and their filters and parsers follow whatever the
   event logger put first.
   */
  method Assemble(eventLoggerFilter: string, items: array<ConfigMap>)
    returns (additionalFilters: string, additionalParsers: string)
    modifies items
    ensures SortedByName(items[..]) && Permutation(items[..], old(items[..]))
    ensures additionalFilters == eventLoggerFilter + ConcatMap(FilterBlockOf, items[..])
    ensures additionalParsers == ConcatMap(ParserBlockOf, items[..])
  {
    hide FilterBlockOf, ParserBlockOf;
    additionalFilters, additionalParsers := eventLoggerFilter, "";
    SortByName(items);
    ghost var sorted := items[..];
    var i := 0;
    while i < items.Length
      invariant 0 <= i <= items.Length && items[..] == sorted
      invariant additionalFilters == eventLoggerFilter + ConcatMap(FilterBlockOf, items[..i])
      invariant additionalParsers == ConcatMap(ParserBlockOf, items[..i])
    {
      var cm := items[i];
      assert items[..i + 1] == items[..i] + [cm];
      ConcatMapSnoc(FilterBlockOf, items[..i], cm);
      ConcatMapSnoc(ParserBlockOf, items[..i], cm);
      var filters, parsers := Collect(cm);
      Associative(eventLoggerFilter, ConcatMap(FilterBlockOf, items[..i]), filters);
      additionalFilters := additionalFilters + filters;
      additionalParsers := additionalParsers + parsers;
      i := i + 1;
    }
    assert items[..i] == items[..];
  }

  // What the outputs depend on

  lemma DistinctCount(items: seq<ConfigMap>, k: nat)
    requires DistinctNames(items) && k < |items|
    ensures multiset(items)[items[k]] == 1
  {
    assert items == items[..k] + [items[k]] + items[k + 1..];
    assert items[k] !in items[..k] && items[k] !in items[k + 1..];
  }

  lemma SingleOccurrence(items: seq<ConfigMap>, k: nat)
    requires k < |items| && multiset(items)[items[k]] == 1
    ensures forall j :: 0 <= j < |items| && j != k ==> items[j] != items[k]
  {
    assert items == items[..k] + [items[k]] + items[k + 1..];
    assert items[k] !in multiset(items[..k]) && items[k] !in multiset(items[k + 1..]);
    assert forall j :: 0 <= j < k ==> items[j] in multiset(items[..k]);
    assert forall j :: k < j < |items| ==> items[j] == items[k + 1..][j - k - 1];
  }

  lemma DistinctPermutation(a: seq<ConfigMap>, b: seq<ConfigMap>)
    requires DistinctNames(a) && Permutation(a, b)
    ensures DistinctNames(b)
  {
    forall i, j | 0 <= i < j < |b| ensures b[i].name != b[j].name {
      MemberOf(a, b, b[i]);
      MemberOf(a, b, b[j]);
      var k :| 0 <= k < |a| && a[k] == b[i];
      var m :| 0 <= m < |a| && a[m] == b[j];
      DistinctCount(a, k);
      SingleOccurrence(b, i);
    }
  }

  /** Whatever order the ConfigMaps are listed in, sorting them by distinct names gives one output. */
  lemma StableOutput(listed: seq<ConfigMap>, relisted: seq<ConfigMap>, a: seq<ConfigMap>, b: seq<ConfigMap>)
    requires DistinctNames(listed) && Permutation(listed, relisted)
    requires SortedByName(a) && Permutation(a, listed)
    requires SortedByName(b) && Permutation(b, relisted)
    ensures ConcatMap(FilterBlockOf, a) == ConcatMap(FilterBlockOf, b)
    ensures ConcatMap(ParserBlockOf, a) == ConcatMap(ParserBlockOf, b)
  {
    DistinctPermutation(listed, a);
    SortedUnique(a, b);
  }

  lemma BlockInserted(block: ConfigMap -> string, a: seq<ConfigMap>, cm: ConfigMap, b: seq<ConfigMap>)
    ensures ConcatMap(block, a + [cm] + b) == ConcatMap(block, a) + block(cm) + ConcatMap(block, b)
    ensures ConcatMap(block, a + b) == ConcatMap(block, a) + ConcatMap(block, b)
  {
    ConcatMapAppend(block, a, b);
    ConcatMapAppend(block, a + [cm], b);
    ConcatMapSnoc(block, a, cm);
  }

  /** `with` is `without` and one block more, at the same place for every kind of block. */
  ghost predicate BlockAdded(block: ConfigMap -> string, before: seq<ConfigMap>, k: nat, cm: ConfigMap,
                             without: string, with_: string)
  {
    && k <= |before|
    && without == ConcatMap(block, before[..k]) + ConcatMap(block, before[k..])
    && with_ == ConcatMap(block, before[..k]) + block(cm) + ConcatMap(block, before[k..])
  }

  /** One more ConfigMap inserts one contiguous block in each output and changes no other byte. */
  lemma OneMoreConfigMap(before: seq<ConfigMap>, cm: ConfigMap, after: seq<ConfigMap>) returns (k: nat)
    requires SortedByName(before) && SortedByName(after)
    requires Permutation(after, before + [cm]) && DistinctNames(after)
    ensures BlockAdded(FilterBlockOf, before, k, cm, ConcatMap(FilterBlockOf, before), ConcatMap(FilterBlockOf, after))
    ensures BlockAdded(ParserBlockOf, before, k, cm, ConcatMap(ParserBlockOf, before), ConcatMap(ParserBlockOf, after))
  {
    assert cm == (before + [cm])[|before|];
    MemberOf(after, before + [cm], cm);
    k :| 0 <= k < |after| && after[k] == cm;
    var rest := after[..k] + after[k + 1..];
    RemoveOne(after, k, before);
    SortedUnique(rest, before);
    assert before[..k] == after[..k] && before[k..] == after[k + 1..];
    assert after == before[..k] + [cm] + before[k..] && before == before[..k] + before[k..];
    BlockInserted(FilterBlockOf, before[..k], cm, before[k..]);
    BlockInserted(ParserBlockOf, before[..k], cm, before[k..]);
  }

  /**
   What the extensions add mentions `rewrite_tag`, anywhere and across ConfigMaps, exactly when a name captured in one
   of them does.
   */
  lemma {:induction false} AssemblyMentionsRewriteTag(items: seq<ConfigMap>)
    ensures Contains(ConcatMap(FilterBlockOf, items), REWRITE) <==>
      exists cm :: cm in items && FilterIdempotence.Tainted(Data(cm, FILTER_KEY))
  {
    hide FilterIdempotence.Tainted, Rewrite;
    if items == [] {
      LacksCharacter("", REWRITE, 0);
    } else {
      AssemblyMentionsRewriteTag(items[1..]);
      FilterIdempotence.BlockMentionsRewriteTag(Data(items[0], FILTER_KEY));
      ContainsAppend(FilterBlockOf(items[0]), ConcatMap(FilterBlockOf, items[1..]), REWRITE);
      assert forall cm :: cm in items <==> cm == items[0] || cm in items[1..];
    }
  }

  lemma RemoveOne(after: seq<ConfigMap>, k: nat, before: seq<ConfigMap>)
    requires k < |after| && Permutation(after, before + [after[k]])
    requires SortedByName(after) && DistinctNames(after)
    ensures
      var rest := after[..k] + after[k + 1..];
      SortedByName(rest) && DistinctNames(rest) && Permutation(rest, before)
  {
    assert after == after[..k] + [after[k]] + after[k + 1..];
    RemovedPermutes(after[..k], after[k], after[k + 1..], before);
    RemovedOrder(after, k);
  }

  lemma RemovedOrder(after: seq<ConfigMap>, k: nat)
    requires k < |after| && SortedByName(after) && DistinctNames(after)
    ensures SortedByName(after[..k] + after[k + 1..]) && DistinctNames(after[..k] + after[k + 1..])
  {
    var rest := after[..k] + after[k + 1..];
    forall i, j | 0 <= i < j < |rest| ensures !Less(rest[j].name, rest[i].name) && rest[i].name != rest[j].name {
      var (p, q) := (if i < k then i else i + 1, if j < k then j else j + 1);
      assert rest[i] == after[p] && rest[j] == after[q];
    }
  }

  lemma RemovedPermutes(a: seq<ConfigMap>, x: ConfigMap, b: seq<ConfigMap>, before: seq<ConfigMap>)
    requires Permutation(a + [x] + b, before + [x])
    ensures Permutation(a + b, before)
  {
    assert multiset(a + [x] + b) == multiset(a + b) + multiset{x};
    assert multiset(before + [x]) == multiset(before) + multiset{x};
    assert multiset(a + b) == multiset(a + [x] + b) - multiset{x};
    assert multiset(before) == multiset(before + [x]) - multiset{x};
  }
}
