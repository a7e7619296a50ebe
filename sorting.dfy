/**
 * A stable sort by a string key, standing for both JavaScript sorts of the
 * modelled code: the default `sort()` of an array of strings and the
 * `sort((a, b) => a.name.localeCompare(b.name))` of stage objects.
 * The comparison is the fixed lexicographic order `Text.LexLe`.
 */
module Sorting {
  import opened Text

  ghost predicate SortedBy<T>(s: seq<T>, key: T -> string) {
    forall i, j :: 0 <= i < j < |s| ==> LexLe(key(s[i]), key(s[j]))
  }

  /** Elements of `m` that share a key are equal (distinct names, say). */
  ghost predicate KeyInjectiveOn<T>(m: multiset<T>, key: T -> string) {
    forall x, y :: x in m && y in m && key(x) == key(y) ==> x == y
  }

  /** Inserts `x` after every element whose key is not greater: keeps equal keys in arrival order. */
  function InsertBy<T>(x: T, s: seq<T>, key: T -> string): (r: seq<T>)
    ensures |r| == |s| + 1
  {
    if s == [] || !LexLe(key(s[0]), key(x)) then [x] + s
    else [s[0]] + InsertBy(x, s[1..], key)
  }

  lemma SortedCons<T>(h: T, rest: seq<T>, key: T -> string)
    requires SortedBy(rest, key)
    requires forall j :: 0 <= j < |rest| ==> LexLe(key(h), key(rest[j]))
    ensures SortedBy([h] + rest, key)
  {
    var r := [h] + rest;
    forall i, j | 0 <= i < j < |r| ensures LexLe(key(r[i]), key(r[j])) {
      assert r[j] == rest[j - 1];
      if i > 0 { assert r[i] == rest[i - 1]; }
    }
  }

  /** An element whose key precedes the head's precedes every element of a sorted sequence. */
  lemma BelowHead<T>(x: T, s: seq<T>, key: T -> string)
    requires SortedBy(s, key) && s != [] && !LexLe(key(s[0]), key(x))
    ensures forall j :: 0 <= j < |s| ==> LexLe(key(x), key(s[j]))
  {
    LexLeTotal(key(s[0]), key(x));
    forall j | 0 <= j < |s| ensures LexLe(key(x), key(s[j])) {
      if j > 0 {
        SortedHeadLeast(s, key, j);
        LexLeTransitive(key(x), key(s[0]), key(s[j]));
      }
    }
  }

  /** The head of a sorted sequence precedes `x` and the rest, so it precedes all of them once `x` is inserted. */
  lemma HeadBelowInserted<T>(x: T, s: seq<T>, rest: seq<T>, key: T -> string)
    requires SortedBy(s, key) && s != [] && LexLe(key(s[0]), key(x))
    requires multiset(rest) == multiset(s[1..]) + multiset{x}
    ensures forall j :: 0 <= j < |rest| ==> LexLe(key(s[0]), key(rest[j]))
  {
    forall j | 0 <= j < |rest| ensures LexLe(key(s[0]), key(rest[j])) {
      assert rest[j] in multiset(rest);
      if rest[j] != x {
        assert rest[j] in multiset(s[1..]);
        var k :| 0 <= k < |s[1..]| && s[1..][k] == rest[j];
        SortedHeadLeast(s, key, k + 1);
      }
    }
  }

  /** Inserting into a sorted sequence adds exactly `x` and keeps it sorted. */
  lemma {:induction false} InsertByCorrect<T>(x: T, s: seq<T>, key: T -> string)
    requires SortedBy(s, key)
    ensures multiset(InsertBy(x, s, key)) == multiset(s) + multiset{x}
    ensures SortedBy(InsertBy(x, s, key), key)
    decreases |s|
  {
    if s == [] {
    } else if !LexLe(key(s[0]), key(x)) {
      BelowHead(x, s, key);
      SortedCons(x, s, key);
    } else {
      SortedTail(s, key);
      InsertByCorrect(x, s[1..], key);
      InsertAfterHead(x, s, key);
    }
  }

  /** The step of the induction above: the head stays in front of the rest with `x` inserted. */
  lemma InsertAfterHead<T>(x: T, s: seq<T>, key: T -> string)
    requires SortedBy(s, key) && s != [] && LexLe(key(s[0]), key(x))
    requires multiset(InsertBy(x, s[1..], key)) == multiset(s[1..]) + multiset{x}
    requires SortedBy(InsertBy(x, s[1..], key), key)
    ensures multiset(InsertBy(x, s, key)) == multiset(s) + multiset{x}
    ensures SortedBy(InsertBy(x, s, key), key)
  {
    var rest := InsertBy(x, s[1..], key);
    assert s == [s[0]] + s[1..];
    HeadBelowInserted(x, s, rest, key);
    SortedCons(s[0], rest, key);
    assert InsertBy(x, s, key) == [s[0]] + rest;
    assert multiset([s[0]] + rest) == multiset{s[0]} + multiset(rest);
    assert multiset(s) == multiset{s[0]} + multiset(s[1..]);
  }

  /** Insertion sort from the front of the input, which makes it stable. */
  function SortBy<T>(s: seq<T>, key: T -> string): (r: seq<T>)
    ensures |r| == |s|
  {
    if s == [] then [] else InsertBy(s[|s| - 1], SortBy(s[..|s| - 1], key), key)
  }

  /** The sort permutes its input into key order. */
  lemma {:induction false} SortByCorrect<T>(s: seq<T>, key: T -> string)
    ensures multiset(SortBy(s, key)) == multiset(s)
    ensures SortedBy(SortBy(s, key), key)
    decreases |s|
  {
    if s != [] {
      SortByCorrect(s[..|s| - 1], key);
      InsertByCorrect(s[|s| - 1], SortBy(s[..|s| - 1], key), key);
      assert s == s[..|s| - 1] + [s[|s| - 1]];
    }
  }

  function Identity(s: string): string {
    s
  }

  /** `[...s].sort()` on an array of strings. */
  function SortStrings(s: seq<string>): (r: seq<string>)
    ensures |r| == |s|
  {
    SortBy(s, Identity)
  }

  lemma SortStringsCorrect(s: seq<string>)
    ensures multiset(SortStrings(s)) == multiset(s)
    ensures SortedBy(SortStrings(s), Identity)
  {
    SortByCorrect(s, Identity);
  }

  lemma SortedHeadLeast<T>(s: seq<T>, key: T -> string, i: int)
    requires SortedBy(s, key) && 0 <= i < |s|
    ensures LexLe(key(s[0]), key(s[i]))
  {
    if i == 0 { LexLeTotal(key(s[0]), key(s[0])); }
  }

  lemma SortedTail<T>(s: seq<T>, key: T -> string)
    requires SortedBy(s, key) && s != []
    ensures SortedBy(s[1..], key)
  {
    forall i, j | 0 <= i < j < |s[1..]| ensures LexLe(key(s[1..][i]), key(s[1..][j])) {
      assert s[1..][i] == s[i + 1] && s[1..][j] == s[j + 1];
    }
  }

  /** Two sorted arrangements of the same elements have the same head when equal keys mean equal elements. */
  lemma SortedSameHead<T>(a: seq<T>, b: seq<T>, key: T -> string)
    requires SortedBy(a, key) && SortedBy(b, key)
    requires multiset(a) == multiset(b) && a != []
    requires KeyInjectiveOn(multiset(a), key)
    ensures b != [] && a[0] == b[0]
  {
    assert a[0] in multiset(a);
    assert |b| == |multiset(b)| == |a|;
    assert b[0] in multiset(b);
    var i :| 0 <= i < |a| && a[i] == b[0];
    var j :| 0 <= j < |b| && b[j] == a[0];
    SortedHeadLeast(a, key, i);
    SortedHeadLeast(b, key, j);
    LexLeAntisymmetric(key(a[0]), key(b[0]));
  }

  /** Two sorted arrangements of the same elements are the same when equal keys mean equal elements. */
  lemma {:induction false} SortedUnique<T>(a: seq<T>, b: seq<T>, key: T -> string)
    requires SortedBy(a, key) && SortedBy(b, key)
    requires multiset(a) == multiset(b)
    requires KeyInjectiveOn(multiset(a), key)
    ensures a == b
    decreases |a|
  {
    if a == [] {
      assert |b| == |multiset(b)| == 0;
    } else {
      SortedSameHead(a, b, key);
      SameTails(a, b);
      KeyInjectiveOnTail(a, key);
      SortedTail(a, key);
      SortedTail(b, key);
      SortedUnique(a[1..], b[1..], key);
    }
  }

  /** Equal heads leave equal multisets of the tails. */
  lemma SameTails<T>(a: seq<T>, b: seq<T>)
    requires a != [] && b != [] && a[0] == b[0] && multiset(a) == multiset(b)
    ensures multiset(a[1..]) == multiset(b[1..])
  {
    assert a == [a[0]] + a[1..] && b == [b[0]] + b[1..];
    assert multiset(a) == multiset{a[0]} + multiset(a[1..]);
    assert multiset(b) == multiset{b[0]} + multiset(b[1..]);
    assert multiset(a[1..]) == multiset(a) - multiset{a[0]};
    assert multiset(b[1..]) == multiset(b) - multiset{b[0]};
  }

  lemma KeyInjectiveOnTail<T>(a: seq<T>, key: T -> string)
    requires a != [] && KeyInjectiveOn(multiset(a), key)
    ensures KeyInjectiveOn(multiset(a[1..]), key)
  {
    assert a == [a[0]] + a[1..];
    assert multiset(a[1..]) <= multiset(a);
  }

  /** Sorting is blind to the order of its input when equal keys mean equal elements. */
  lemma SortByPermutation<T>(a: seq<T>, b: seq<T>, key: T -> string)
    requires multiset(a) == multiset(b)
    requires KeyInjectiveOn(multiset(a), key)
    ensures SortBy(a, key) == SortBy(b, key)
  {
    SortByCorrect(a, key);
    SortByCorrect(b, key);
    SortedUnique(SortBy(a, key), SortBy(b, key), key);
  }

  lemma SortStringsPermutation(a: seq<string>, b: seq<string>)
    requires multiset(a) == multiset(b)
    ensures SortStrings(a) == SortStrings(b)
  {
    SortByPermutation(a, b, Identity);
  }

  /** An input that is already sorted comes back unchanged. */
  lemma SortStringsOfSorted(s: seq<string>)
    requires SortedBy(s, Identity)
    ensures SortStrings(s) == s
  {
    SortByCorrect(s, Identity);
    SortedUnique(SortStrings(s), s, Identity);
  }

  /** The elements of `s` whose key is `k`, in their order in `s`. */
  function WithKey<T>(s: seq<T>, key: T -> string, k: string): (r: seq<T>)
    ensures |r| <= |s|
  {
    if s == [] then [] else (if key(s[0]) == k then [s[0]] else []) + WithKey(s[1..], key, k)
  }

  lemma {:induction false} WithKeyAppend<T>(a: seq<T>, b: seq<T>, key: T -> string, k: string)
    ensures WithKey(a + b, key, k) == WithKey(a, key, k) + WithKey(b, key, k)
    decreases |a|
  {
    if a == [] {
      assert a + b == b;
    } else {
      var head := if key(a[0]) == k then [a[0]] else [];
      assert (a + b)[0] == a[0] && (a + b)[1..] == a[1..] + b;
      assert WithKey(a + b, key, k) == head + WithKey(a[1..] + b, key, k);
      WithKeyAppend(a[1..], b, key, k);
      assert WithKey(a, key, k) == head + WithKey(a[1..], key, k);
    }
  }

  lemma {:induction false} WithKeyNone<T>(s: seq<T>, key: T -> string, k: string)
    requires forall j :: 0 <= j < |s| ==> key(s[j]) != k
    ensures WithKey(s, key, k) == []
    decreases |s|
  {
    if s != [] {
      assert forall j :: 0 <= j < |s[1..]| ==> s[1..][j] == s[j + 1];
      WithKeyNone(s[1..], key, k);
    }
  }

  /** Inserting an element with another key leaves the elements with key `k` as they were. */
  lemma {:induction false} InsertByOtherKey<T>(x: T, s: seq<T>, key: T -> string, k: string)
    requires key(x) != k
    ensures WithKey(InsertBy(x, s, key), key, k) == WithKey(s, key, k)
    decreases |s|
  {
    if s == [] || !LexLe(key(s[0]), key(x)) {
      assert ([x] + s)[1..] == s;
    } else {
      InsertByOtherKey(x, s[1..], key, k);
      assert ([s[0]] + InsertBy(x, s[1..], key))[1..] == InsertBy(x, s[1..], key);
    }
  }

  /** Inserting into a sorted sequence puts `x` after every element with its key. */
  lemma {:induction false} InsertBySameKey<T>(x: T, s: seq<T>, key: T -> string)
    requires SortedBy(s, key)
    ensures WithKey(InsertBy(x, s, key), key, key(x)) == WithKey(s, key, key(x)) + [x]
    decreases |s|
  {
    var k := key(x);
    if s == [] {
      assert WithKey([x], key, k) == [x] + WithKey([x][1..], key, k);
    } else if !LexLe(key(s[0]), k) {
      forall j | 0 <= j < |s| ensures key(s[j]) != k {
        SortedHeadLeast(s, key, j);
      }
      WithKeyNone(s, key, k);
      assert ([x] + s)[1..] == s;
    } else {
      SortedTail(s, key);
      InsertBySameKey(x, s[1..], key);
      assert ([s[0]] + InsertBy(x, s[1..], key))[1..] == InsertBy(x, s[1..], key);
    }
  }

  /** Stability: for every key, the elements with that key keep their input order. */
  lemma {:induction false} SortByStable<T>(s: seq<T>, key: T -> string, k: string)
    ensures WithKey(SortBy(s, key), key, k) == WithKey(s, key, k)
    decreases |s|
  {
    if s != [] {
      var init, last := s[..|s| - 1], s[|s| - 1];
      SortByStable(init, key, k);
      SortByCorrect(init, key);
      if key(last) == k {
        InsertBySameKey(last, SortBy(init, key), key);
      } else {
        InsertByOtherKey(last, SortBy(init, key), key, k);
      }
      assert s == init + [last];
      WithKeyAppend(init, [last], key, k);
      assert WithKey([last], key, k) == (if key(last) == k then [last] else []) + WithKey([last][1..], key, k);
    }
  }

  /** Stability in the smallest case: two elements with the same key keep their input order. */
  lemma SortByStableOnTies<T>(x: T, y: T, key: T -> string)
    requires key(x) == key(y)
    ensures SortBy([x, y], key) == [x, y]
  {
    assert [x, y][..1] == [x];
    assert [x][..0] == [];
    assert SortBy([x], key) == InsertBy(x, [], key) == [x];
    LexLeTotal(key(x), key(y));
    assert SortBy([x, y], key) == InsertBy(y, [x], key) == [x] + InsertBy(y, [], key);
  }
}
