/** The order of object names, and sorting a list of named objects by it. */
module NameOrder {

  /** Go's `<` on strings. */
  predicate Less(a: string, b: string) {
    b != "" && (a == "" || a[0] < b[0] || (a[0] == b[0] && Less(a[1..], b[1..])))
  }

  /** The strings agree before index `k`, where `a` has the smaller character. */
  ghost predicate SmallerAt(a: string, b: string, k: int) {
    0 <= k < |a| && k < |b| && a[..k] == b[..k] && a[k] < b[k]
  }

  /** The order is the lexicographic one on characters: a proper prefix, or smaller where the names first differ. */
  lemma {:induction false} LessIsLexicographic(a: string, b: string)
    ensures Less(a, b) <==> (a != b && a <= b) || exists k :: SmallerAt(a, b, k)
    decreases |a|
  {
    if a != "" && b != "" {
      if a[0] == b[0] {
        LessIsLexicographic(a[1..], b[1..]);
        FirstEqual(a, b);
      } else {
        FirstDiffers(a, b);
      }
    }
  }

  lemma FirstDiffers(a: string, b: string)
    requires a != "" && b != "" && a[0] != b[0]
    ensures (exists k :: SmallerAt(a, b, k)) <==> a[0] < b[0]
    ensures !(a <= b)
  {
    if a[0] < b[0] {
      assert SmallerAt(a, b, 0);
    }
    forall k | k > 0 ensures !SmallerAt(a, b, k) {
      if k < |a| && k < |b| {
        assert a[..k][0] == a[0] && b[..k][0] == b[0];
      }
    }
  }

  lemma FirstEqual(a: string, b: string)
    requires a != "" && b != "" && a[0] == b[0]
    ensures (exists k :: SmallerAt(a, b, k)) <==> exists k :: SmallerAt(a[1..], b[1..], k)
    ensures (a != b && a <= b) <==> (a[1..] != b[1..] && a[1..] <= b[1..])
  {
    assert a == [a[0]] + a[1..] && b == [b[0]] + b[1..];
    forall k | SmallerAt(a, b, k) ensures SmallerAt(a[1..], b[1..], k - 1) {
      assert a[1..][..k - 1] == a[..k][1..] && b[1..][..k - 1] == b[..k][1..];
    }
    forall k | SmallerAt(a[1..], b[1..], k) ensures SmallerAt(a, b, k + 1) {
      assert a[..k + 1] == [a[0]] + a[1..][..k] && b[..k + 1] == [b[0]] + b[1..][..k];
    }
  }

  lemma {:induction false} LessTotal(a: string, b: string)
    ensures Less(a, b) || Less(b, a) || a == b
    ensures !(Less(a, b) && Less(b, a)) && (a == b ==> !Less(a, b))
    decreases |a|
  {
    if a != "" && b != "" && a[0] == b[0] {
      LessTotal(a[1..], b[1..]);
      assert a == [a[0]] + a[1..] && b == [b[0]] + b[1..];
    }
  }

  lemma {:induction false} LessTransitive(a: string, b: string, c: string)
    requires Less(a, b) && Less(b, c)
    ensures Less(a, c)
    decreases |a|
  {
    if a != "" && a[0] == b[0] && b[0] == c[0] {
      LessTransitive(a[1..], b[1..], c[1..]);
    }
  }

  lemma LessNotLess(a: string, b: string, c: string)
    requires !Less(b, a) && !Less(c, b)
    ensures !Less(c, a)
  {
    LessTotal(a, b);
    LessTotal(b, c);
    if Less(a, b) && Less(b, c) {
      LessTransitive(a, b, c);
    }
    LessTotal(a, c);
  }

  datatype ConfigMap = ConfigMap(name: string, data: map<string, string>)

  ghost predicate SortedByName(items: seq<ConfigMap>) {
    forall i, j :: 0 <= i < j < |items| ==> !Less(items[j].name, items[i].name)
  }

  ghost predicate DistinctNames(items: seq<ConfigMap>) {
    forall i, j :: 0 <= i < j < |items| ==> items[i].name != items[j].name
  }

  ghost predicate Permutation(a: seq<ConfigMap>, b: seq<ConfigMap>) {
    multiset(a) == multiset(b)
  }

  /** The list with items `j - 1` and `j` exchanged. */
  function Swapped(a: seq<ConfigMap>, j: nat): seq<ConfigMap>
    requires 0 < j < |a|
  {
    a[j := a[j - 1]][j - 1 := a[j]]
  }

  lemma SwapPermutes(a: seq<ConfigMap>, j: nat)
    requires 0 < j < |a|
    ensures Permutation(a, Swapped(a, j))
  {
    assert a == a[..j - 1] + [a[j - 1], a[j]] + a[j + 1..];
    assert Swapped(a, j) == a[..j - 1] + [a[j], a[j - 1]] + a[j + 1..];
  }

  /** Items `0..i` are in order but for item `j`, which still has to be compared with those before it. */
  ghost predicate Sinking(a: seq<ConfigMap>, i: nat, j: nat) {
    j <= i < |a| && forall k, m :: 0 <= k < m <= i && m != j ==> !Less(a[m].name, a[k].name)
  }

  lemma SinkStep(a: seq<ConfigMap>, i: nat, j: nat)
    requires Sinking(a, i, j) && 0 < j && Less(a[j].name, a[j - 1].name)
    ensures Sinking(Swapped(a, j), i, j - 1)
  {
    LessTotal(a[j].name, a[j - 1].name);
  }

  lemma SinkDone(a: seq<ConfigMap>, i: nat, j: nat)
    requires Sinking(a, i, j) && (j == 0 || !Less(a[j].name, a[j - 1].name))
    ensures SortedByName(a[..i + 1])
  {
    forall k | 0 <= k < j - 1 ensures !Less(a[j].name, a[k].name) {
      LessNotLess(a[k].name, a[j - 1].name, a[j].name);
    }
  }

  /** `ByName().Sort`: insertion sort by swaps of neighbours, in place. */
  method SortByName(items: array<ConfigMap>)
    modifies items
    ensures SortedByName(items[..]) && Permutation(items[..], old(items[..]))
  {
    var i := 1;
    while i < items.Length
      invariant 1 <= i && (i <= items.Length || items.Length == 0)
      invariant i <= items.Length ==> SortedByName(items[..i])
      invariant Permutation(items[..], old(items[..]))
    {
      var j := i;
      assert Sinking(items[..], i, j);
      while j > 0 && Less(items[j].name, items[j - 1].name)
        invariant 0 <= j <= i
        invariant Sinking(items[..], i, j)
        invariant Permutation(items[..], old(items[..]))
      {
        ghost var was := items[..];
        SinkStep(was, i, j);
        SwapPermutes(was, j);
        items[j], items[j - 1] := items[j - 1], items[j];
        assert items[..] == Swapped(was, j);
        j := j - 1;
      }
      SinkDone(items[..], i, j);
      assert items[..][..i + 1] == items[..i + 1];
      i := i + 1;
    }
    assert i >= items.Length ==> items[..] == items[..items.Length];
  }

  // Uniqueness

  lemma MemberOf(a: seq<ConfigMap>, b: seq<ConfigMap>, x: ConfigMap)
    requires Permutation(a, b)
    ensures x in a <==> x in b
  {
    assert x in multiset(a) <==> x in multiset(b);
  }

  lemma PermutationCons(a: seq<ConfigMap>, b: seq<ConfigMap>)
    requires a != [] && b != [] && a[0] == b[0] && Permutation(a, b)
    ensures Permutation(a[1..], b[1..])
  {
    assert a == [a[0]] + a[1..] && b == [b[0]] + b[1..];
    assert multiset(a[1..]) == multiset(a) - multiset{a[0]};
    assert multiset(b[1..]) == multiset(b) - multiset{b[0]};
  }

  /** Items with distinct names have only one order. */
  lemma {:induction false} SortedUnique(a: seq<ConfigMap>, b: seq<ConfigMap>)
    requires Permutation(a, b) && SortedByName(a) && SortedByName(b) && DistinctNames(a)
    ensures a == b
  {
    assert |a| == |multiset(a)| == |multiset(b)| == |b|;
    if a != [] {
      MemberOf(a, b, a[0]);
      MemberOf(a, b, b[0]);
      LessTotal(a[0].name, b[0].name);
      assert a[0] == b[0];
      PermutationCons(a, b);
      SortedUnique(a[1..], b[1..]);
      assert a == [a[0]] + a[1..] && b == [b[0]] + b[1..];
    }
  }
}
