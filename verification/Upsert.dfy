/** Replacing or appending keyed items in a list, as the webhook does for units and files. */
module Upsert {

  /** The items with another key: those that keep their place. */
  function Without<T>(items: seq<T>, key: T -> string, k: string): seq<T> {
    if items == [] then []
    else (if key(items[0]) != k then [items[0]] else []) + Without(items[1..], key, k)
  }

  function Put<T>(items: seq<T>, key: T -> string, x: T): seq<T> {
    Without(items, key, key(x)) + [x]
  }

  /** One `Put` for each addition, in order. */
  function PutAll<T>(items: seq<T>, key: T -> string, additions: seq<T>): seq<T>
    decreases |additions|
  {
    if additions == [] then items
    else PutAll(Put(items, key, additions[0]), key, additions[1..])
  }

  predicate HasKey<T>(items: seq<T>, key: T -> string, k: string) {
    exists i :: 0 <= i < |items| && key(items[i]) == k
  }

  /** The items whose key no addition has. */
  function Untouched<T>(items: seq<T>, key: T -> string, additions: seq<T>): seq<T> {
    if items == [] then []
    else (if HasKey(additions, key, key(items[0])) then [] else [items[0]]) + Untouched(items[1..], key, additions)
  }

  /** The additions without a later addition of the same key. */
  function LastOnes<T>(key: T -> string, additions: seq<T>): seq<T> {
    if additions == [] then []
    else (if HasKey(additions[1..], key, key(additions[0])) then [] else [additions[0]]) + LastOnes(key, additions[1..])
  }

  lemma HasKeyAppend<T>(a: seq<T>, b: seq<T>, key: T -> string, k: string)
    ensures HasKey(a + b, key, k) <==> HasKey(a, key, k) || HasKey(b, key, k)
  {
    if i :| 0 <= i < |a| && key(a[i]) == k {
      assert (a + b)[i] == a[i];
    }
    if i :| 0 <= i < |b| && key(b[i]) == k {
      assert (a + b)[|a| + i] == b[i];
    }
  }

  lemma HasKeyCons<T>(items: seq<T>, key: T -> string, k: string)
    requires items != []
    ensures HasKey(items, key, k) <==> key(items[0]) == k || HasKey(items[1..], key, k)
  {
    assert items == [items[0]] + items[1..];
    HasKeyAppend([items[0]], items[1..], key, k);
    assert [items[0]][0] == items[0];
  }

  lemma UntouchedCons<T>(x: T, rest: seq<T>, key: T -> string, additions: seq<T>)
    ensures Untouched([x] + rest, key, additions) ==
      (if HasKey(additions, key, key(x)) then [] else [x]) + Untouched(rest, key, additions)
  {
    assert ([x] + rest)[1..] == rest;
  }

  lemma Associative<T>(a: seq<T>, b: seq<T>, c: seq<T>)
    ensures a + b + c == a + (b + c)
  {
  }

  lemma {:induction false} UntouchedAppend<T>(a: seq<T>, b: seq<T>, key: T -> string, additions: seq<T>)
    ensures Untouched(a + b, key, additions) == Untouched(a, key, additions) + Untouched(b, key, additions)
  {
    if a == [] {
      assert a + b == b;
    } else {
      UntouchedAppend(a[1..], b, key, additions);
      assert a + b == [a[0]] + (a[1..] + b);
      UntouchedCons(a[0], a[1..] + b, key, additions);
      Associative(if HasKey(additions, key, key(a[0])) then [] else [a[0]],
                  Untouched(a[1..], key, additions), Untouched(b, key, additions));
    }
  }

  /** Removing one key and then the others is removing them all. */
  lemma {:induction false} UntouchedWithout<T>(items: seq<T>, key: T -> string, additions: seq<T>)
    requires additions != []
    ensures Untouched(Without(items, key, key(additions[0])), key, additions[1..]) == Untouched(items, key, additions)
  {
    if items != [] {
      var k, rest := key(additions[0]), additions[1..];
      UntouchedWithout(items[1..], key, additions);
      HasKeyCons(additions, key, key(items[0]));
      if key(items[0]) != k {
        UntouchedAppend([items[0]], Without(items[1..], key, k), key, rest);
      } else {
        assert [] + Without(items[1..], key, k) == Without(items[1..], key, k);
      }
    }
  }

  lemma PutUntouched<T>(items: seq<T>, key: T -> string, x: T, rest: seq<T>)
    ensures Untouched(Put(items, key, x), key, rest) ==
      Untouched(items, key, [x] + rest) + if HasKey(rest, key, key(x)) then [] else [x]
  {
    var all := [x] + rest;
    assert all[0] == x && all[1..] == rest;
    UntouchedAppend(Without(items, key, key(x)), [x], key, rest);
    UntouchedWithout(items, key, all);
  }

  /**
   The closed form of the loop: the old items whose key is not among the additions, in order, then the additions
   that no later addition overrides, in order.
   */
  lemma {:induction false} ClosedForm<T>(items: seq<T>, key: T -> string, additions: seq<T>)
    ensures PutAll(items, key, additions) == Untouched(items, key, additions) + LastOnes(key, additions)
    decreases |additions|
  {
    if additions == [] {
      UntouchedIdle(items, key);
    } else {
      var x, rest := additions[0], additions[1..];
      ClosedForm(Put(items, key, x), key, rest);
      PutUntouched(items, key, x, rest);
      assert additions == [x] + rest;
      assert Untouched(items, key, additions) + [] == Untouched(items, key, additions);
    }
  }

  lemma {:induction false} UntouchedIdle<T>(items: seq<T>, key: T -> string)
    ensures Untouched(items, key, []) == items
  {
    if items != [] {
      UntouchedIdle(items[1..], key);
    }
  }

  // Lookup

  /** The last item with the key: what a map built from the list in order would hold. */
  function Lookup<T>(items: seq<T>, key: T -> string, k: string): (r: seq<T>)
    ensures r != [] <==> HasKey(items, key, k)
    ensures |r| <= 1 && (r != [] ==> key(r[0]) == k)
  {
    if items == [] then []
    else
      var rest := Lookup(items[1..], key, k);
      HasKeyCons(items, key, k);
      if rest != [] then rest else if key(items[0]) == k then [items[0]] else []
  }

  function Count<T>(items: seq<T>, key: T -> string, k: string): nat {
    if items == [] then 0 else (if key(items[0]) == k then 1 else 0) + Count(items[1..], key, k)
  }

  lemma {:induction false} AppendLookup<T>(a: seq<T>, b: seq<T>, key: T -> string, k: string)
    ensures Count(a + b, key, k) == Count(a, key, k) + Count(b, key, k)
    ensures Lookup(a + b, key, k) == if HasKey(b, key, k) then Lookup(b, key, k) else Lookup(a, key, k)
  {
    if a == [] {
      assert a + b == b;
    } else {
      AppendLookup(a[1..], b, key, k);
      assert (a + b)[1..] == a[1..] + b;
    }
  }

  lemma {:induction false} WithoutLookup<T>(items: seq<T>, key: T -> string, k: string, j: string)
    ensures Count(Without(items, key, k), key, j) == if j == k then 0 else Count(items, key, j)
    ensures Lookup(Without(items, key, k), key, j) == if j == k then [] else Lookup(items, key, j)
  {
    if items != [] {
      WithoutLookup(items[1..], key, k, j);
      if key(items[0]) != k {
        AppendLookup([items[0]], Without(items[1..], key, k), key, j);
      } else {
        assert [] + Without(items[1..], key, k) == Without(items[1..], key, k);
      }
    }
  }

  lemma PutLookup<T>(items: seq<T>, key: T -> string, x: T, k: string)
    ensures Lookup(Put(items, key, x), key, k) == if key(x) == k then [x] else Lookup(items, key, k)
    ensures Count(Put(items, key, x), key, k) == if key(x) == k then 1 else Count(items, key, k)
  {
    AppendLookup(Without(items, key, key(x)), [x], key, k);
    WithoutLookup(items, key, key(x), k);
    assert [x][0] == x;
  }

  /**
   The result refines a map override: a key looks up the last addition with that key, or else what the old list
   held; and a key that was added occurs exactly once, any other as often as before.
   */
  lemma {:induction false} PutAllOverrides<T>(items: seq<T>, key: T -> string, additions: seq<T>, k: string)
    ensures Lookup(PutAll(items, key, additions), key, k) ==
      if HasKey(additions, key, k) then Lookup(additions, key, k) else Lookup(items, key, k)
    ensures Count(PutAll(items, key, additions), key, k) ==
      if HasKey(additions, key, k) then 1 else Count(items, key, k)
    decreases |additions|
  {
    if additions != [] {
      var x, rest := additions[0], additions[1..];
      PutAllOverrides(Put(items, key, x), key, rest, k);
      PutLookup(items, key, x, k);
      HasKeyCons(additions, key, k);
    }
  }

  /** No key occurs twice. */
  ghost predicate DistinctKeys<T>(items: seq<T>, key: T -> string) {
    forall k :: Count(items, key, k) <= 1
  }

  lemma PutAllKeepsDistinct<T>(items: seq<T>, key: T -> string, additions: seq<T>)
    requires DistinctKeys(items, key)
    ensures DistinctKeys(PutAll(items, key, additions), key)
  {
    forall k ensures Count(PutAll(items, key, additions), key, k) <= 1 {
      PutAllOverrides(items, key, additions, k);
    }
  }

  // Repeating and switching

  /** Every key of `a` is a key of `b`. */
  ghost predicate Covers<T>(b: seq<T>, key: T -> string, a: seq<T>) {
    forall i :: 0 <= i < |a| ==> HasKey(b, key, key(a[i]))
  }

  lemma {:induction false} UntouchedTwice<T>(items: seq<T>, key: T -> string, a: seq<T>, b: seq<T>)
    requires Covers(b, key, a)
    ensures Untouched(Untouched(items, key, a), key, b) == Untouched(items, key, b)
  {
    if items != [] {
      UntouchedTwice(items[1..], key, a, b);
      UntouchedAppend(if HasKey(a, key, key(items[0])) then [] else [items[0]], Untouched(items[1..], key, a), key, b);
    }
  }

  lemma {:induction false} LastOnesGone<T>(key: T -> string, a: seq<T>, b: seq<T>)
    requires Covers(b, key, a)
    ensures Untouched(LastOnes(key, a), key, b) == []
  {
    if a != [] {
      assert HasKey(b, key, key(a[0]));
      assert forall i :: 0 <= i < |a[1..]| ==> a[1..][i] == a[i + 1];
      LastOnesGone(key, a[1..], b);
      UntouchedAppend(if HasKey(a[1..], key, key(a[0])) then [] else [a[0]], LastOnes(key, a[1..]), key, b);
    }
  }

  /** Additions `a` followed by additions `b` leave no trace of `a` when `b` has all its keys. */
  lemma NoResidue<T>(items: seq<T>, key: T -> string, a: seq<T>, b: seq<T>)
    requires Covers(b, key, a)
    ensures PutAll(PutAll(items, key, a), key, b) == PutAll(items, key, b)
  {
    hide Untouched, LastOnes, PutAll, Covers;
    ClosedForm(items, key, a);
    ClosedForm(PutAll(items, key, a), key, b);
    ClosedForm(items, key, b);
    UntouchedAppend(Untouched(items, key, a), LastOnes(key, a), key, b);
    UntouchedTwice(items, key, a, b);
    LastOnesGone(key, a, b);
  }

  /** Only then: starting from nothing, a key that `b` lacks stays behind. */
  lemma Residue<T>(key: T -> string, a: seq<T>, b: seq<T>)
    requires !Covers(b, key, a)
    ensures PutAll(PutAll([], key, a), key, b) != PutAll([], key, b)
  {
    var i :| 0 <= i < |a| && !HasKey(b, key, key(a[i]));
    var k := key(a[i]);
    PutAllOverrides(PutAll([], key, a), key, b, k);
    PutAllOverrides([], key, a, k);
    PutAllOverrides([], key, b, k);
  }

  /** Switching from `a` to `b` gives what `b` alone gives, whatever was there before, exactly when `b` covers `a`. */
  lemma SwitchIsClean<T>(key: T -> string, a: seq<T>, b: seq<T>)
    ensures Covers(b, key, a) <==> forall items :: PutAll(PutAll(items, key, a), key, b) == PutAll(items, key, b)
  {
    if Covers(b, key, a) {
      forall items ensures PutAll(PutAll(items, key, a), key, b) == PutAll(items, key, b) {
        NoResidue(items, key, a, b);
      }
    } else {
      Residue(key, a, b);
      var none: seq<T> := [];
      assert PutAll(PutAll(none, key, a), key, b) != PutAll(none, key, b);
    }
  }

  /** A second run with the same additions changes nothing. */
  lemma PutAllTwice<T>(items: seq<T>, key: T -> string, additions: seq<T>)
    ensures PutAll(PutAll(items, key, additions), key, additions) == PutAll(items, key, additions)
  {
    NoResidue(items, key, additions, additions);
  }
}
