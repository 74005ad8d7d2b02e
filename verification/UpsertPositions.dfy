/** The two halves of the upsert's result, and what looking up and counting mean, stated on positions in the lists. */
module UpsertPositions {
  import opened Upsert

  ghost predicate Increasing(at: seq<nat>) {
    forall i, j :: 0 <= i < j < |at| ==> at[i] < at[j]
  }

  ghost predicate StandsAt<T>(items: seq<T>, at: seq<nat>, result: seq<T>) {
    |at| == |result| && forall i :: 0 <= i < |at| ==> at[i] < |items| && result[i] == items[at[i]]
  }

  ghost predicate AreKept(size: nat, keep: nat -> bool, at: seq<nat>) {
    forall k: nat :: k < size ==> (k in at <==> keep(k))
  }

  /** `result` is what stands at the positions `at`, which increase and are exactly those that are kept. */
  ghost predicate Chosen<T>(items: seq<T>, keep: nat -> bool, at: seq<nat>, result: seq<T>) {
    Increasing(at) && StandsAt(items, at, result) && AreKept(|items|, keep, at)
  }

  function Later(at: seq<nat>): (r: seq<nat>)
    ensures |r| == |at| && forall i :: 0 <= i < |at| ==> r[i] == at[i] + 1
  {
    if at == [] then [] else [at[0] + 1] + Later(at[1..])
  }

  lemma LaterHas(at: seq<nat>, k: nat)
    ensures k + 1 in Later(at) <==> k in at
    ensures 0 !in Later(at)
  {
    if i :| 0 <= i < |at| && at[i] == k {
      assert Later(at)[i] == k + 1;
    }
  }

  lemma IncreasingCons(at: seq<nat>)
    requires Increasing(at)
    ensures Increasing(Later(at)) && Increasing([0] + Later(at))
  {
    var all := [0] + Later(at);
    assert forall i :: 1 <= i < |all| ==> all[i] == at[i - 1] + 1;
  }

  lemma StandsAtCons<T>(items: seq<T>, at: seq<nat>, result: seq<T>)
    requires items != [] && StandsAt(items[1..], at, result)
    ensures StandsAt(items, Later(at), result) && StandsAt(items, [0] + Later(at), [items[0]] + result)
  {
    assert forall i :: 0 <= i < |at| ==> items[1..][at[i]] == items[at[i] + 1];
  }

  lemma AreKeptCons(size: nat, keep: nat -> bool, rest: nat -> bool, at: seq<nat>)
    requires AreKept(size, rest, at)
    requires forall k: nat :: k < size ==> (rest(k) <==> keep(k + 1))
    ensures AreKept(size + 1, keep, if keep(0) then [0] + Later(at) else Later(at))
  {
    var all := if keep(0) then [0] + Later(at) else Later(at);
    forall k: nat | k < size + 1 ensures k in all <==> keep(k) {
      LaterHas(at, if k == 0 then 0 else k - 1);
      if k > 0 {
        assert rest(k - 1) <==> keep(k - 1 + 1);
      }
    }
  }

  lemma ChosenCons<T>(items: seq<T>, keep: nat -> bool, rest: nat -> bool, at: seq<nat>, result: seq<T>)
    returns (all: seq<nat>)
    requires items != [] && Chosen(items[1..], rest, at, result)
    requires forall k: nat :: k < |items| - 1 ==> (rest(k) <==> keep(k + 1))
    ensures Chosen(items, keep, all, (if keep(0) then [items[0]] else []) + result)
  {
    all := if keep(0) then [0] + Later(at) else Later(at);
    IncreasingCons(at);
    StandsAtCons(items, at, result);
    AreKeptCons(|items| - 1, keep, rest, at);
    assert [] + result == result;
    hide Increasing, StandsAt, AreKept, Later;
  }

  /** No addition has the key of the item at the position. */
  ghost predicate NotAdded<T>(items: seq<T>, key: T -> string, additions: seq<T>, k: nat) {
    k < |items| && forall j :: 0 <= j < |additions| ==> key(additions[j]) != key(items[k])
  }

  /** The old items that stay are those whose key no addition has, in their order. */
  lemma {:induction false} UntouchedPositions<T>(items: seq<T>, key: T -> string, additions: seq<T>)
    returns (at: seq<nat>)
    ensures Chosen(items, (k: nat) => NotAdded(items, key, additions, k), at, Untouched(items, key, additions))
  {
    if items == [] {
      at := [];
    } else {
      var rest := UntouchedPositions(items[1..], key, additions);
      at := ChosenCons(items, (k: nat) => NotAdded(items, key, additions, k),
                       (k: nat) => NotAdded(items[1..], key, additions, k),
                       rest, Untouched(items[1..], key, additions));
      assert NotAdded(items, key, additions, 0) <==> !HasKey(additions, key, key(items[0]));
    }
  }

  /** No later addition has the key of the one at the position. */
  ghost predicate NotOverridden<T>(additions: seq<T>, key: T -> string, k: nat) {
    k < |additions| && forall j :: k < j < |additions| ==> key(additions[j]) != key(additions[k])
  }

  /** The additions that count are those without a later one of the same key, in their order. */
  lemma {:induction false} LastOnesPositions<T>(key: T -> string, additions: seq<T>) returns (at: seq<nat>)
    ensures Chosen(additions, (k: nat) => NotOverridden(additions, key, k), at, LastOnes(key, additions))
  {
    if additions == [] {
      at := [];
    } else {
      var tail := additions[1..];
      var rest := LastOnesPositions(key, tail);
      forall k: nat | k < |tail| ensures NotOverridden(tail, key, k) <==> NotOverridden(additions, key, k + 1) {
        assert forall j :: k < j < |tail| ==> tail[j] == additions[j + 1];
        assert forall j :: k + 1 < j < |additions| ==> additions[j] == tail[j - 1];
      }
      FirstNotOverridden(key, additions);
      at := ChosenCons(additions, (k: nat) => NotOverridden(additions, key, k),
                       (k: nat) => NotOverridden(tail, key, k), rest, LastOnes(key, tail));
    }
  }

  lemma FirstNotOverridden<T>(key: T -> string, additions: seq<T>)
    requires additions != []
    ensures NotOverridden(additions, key, 0) <==> !HasKey(additions[1..], key, key(additions[0]))
  {
    var tail := additions[1..];
    assert forall j :: 0 <= j < |tail| ==> tail[j] == additions[j + 1];
    assert forall j :: 0 < j < |additions| ==> additions[j] == tail[j - 1];
  }

  /** Looking up a key finds the last item that has it. */
  lemma {:induction false} LookupFindsLast<T>(items: seq<T>, key: T -> string, k: nat)
    requires NotOverridden(items, key, k)
    ensures Lookup(items, key, key(items[k])) == [items[k]]
  {
    var rest := items[1..];
    if k == 0 {
      FirstNotOverridden(key, items);
    } else {
      assert forall j :: k - 1 < j < |rest| ==> rest[j] == items[j + 1];
      LookupFindsLast(rest, key, k - 1);
    }
  }

  /** The count of a key is positive when an item has it, and at most one when no two have. */
  lemma {:induction false} CountMeans<T>(items: seq<T>, key: T -> string, k: string)
    ensures Count(items, key, k) > 0 <==> HasKey(items, key, k)
    ensures Count(items, key, k) <= 1 <==>
      forall i, j :: 0 <= i < j < |items| ==> key(items[i]) != k || key(items[j]) != k
  {
    if items != [] {
      var rest := items[1..];
      CountMeans(rest, key, k);
      HasKeyCons(items, key, k);
      assert forall j :: 0 <= j < |rest| ==> rest[j] == items[j + 1];
      if key(items[0]) == k && HasKey(rest, key, k) {
        var j :| 0 <= j < |rest| && key(rest[j]) == k;
        assert key(items[j + 1]) == k;
      }
      forall i, j | 0 <= i < j < |items| ensures key(items[i]) != k || key(items[j]) != k || Count(items, key, k) > 1 {
        assert items[j] == rest[j - 1] && (i > 0 ==> items[i] == rest[i - 1]);
        assert key(items[j]) == k ==> HasKey(rest, key, k);
      }
      if Count(rest, key, k) > 1 {
        var i, j :| 0 <= i < j < |rest| && key(rest[i]) == k && key(rest[j]) == k;
        assert key(items[i + 1]) == k && key(items[j + 1]) == k;
      }
    }
  }
}
