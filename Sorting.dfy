/** A stable insertion sort by a lexicographic key, standing for the database's
    `orderBy` and for Laravel's `Collection::sortBy`, with the facts the ledger and
    the reports rely on: the result is ordered, is a permutation of the input,
    keeps equal-key elements in input order, and keeps every sum. */
module Sorting {

  /** A sort key compared lexicographically: `major` first, then `minor`. */
  datatype Key = Key(major: int, minor: int)

  predicate KeyLe(a: Key, b: Key) {
    a.major < b.major || (a.major == b.major && a.minor <= b.minor)
  }

  predicate SortedBy<T>(s: seq<T>, key: T -> Key) {
    forall i, j :: 0 <= i < j < |s| ==> KeyLe(key(s[i]), key(s[j]))
  }

  /** Puts `x` in front of the first element whose key is not below its own. */
  function Insert<T>(x: T, s: seq<T>, key: T -> Key): (r: seq<T>)
    ensures |r| == |s| + 1
    ensures multiset(r) == multiset(s) + multiset{x}
  {
    if s == [] || KeyLe(key(x), key(s[0])) then [x] + s
    else
      assert s == [s[0]] + s[1..];
      [s[0]] + Insert(x, s[1..], key)
  }

  function SortBy<T>(s: seq<T>, key: T -> Key): (r: seq<T>)
    ensures |r| == |s|
    ensures multiset(r) == multiset(s)
  {
    if s == [] then []
    else
      assert s == [s[0]] + s[1..];
      Insert(s[0], SortBy(s[1..], key), key)
  }

  lemma {:induction false} InsertSorted<T>(x: T, s: seq<T>, key: T -> Key)
    requires SortedBy(s, key)
    ensures SortedBy(Insert(x, s, key), key)
  {
    if s == [] || KeyLe(key(x), key(s[0])) {
    } else {
      var t := Insert(x, s[1..], key);
      InsertSorted(x, s[1..], key);
      forall j | 0 <= j < |t| ensures KeyLe(key(s[0]), key(t[j])) {
        assert t[j] in multiset(t);
        if t[j] != x {
          assert t[j] in multiset(s[1..]);
          var i :| 0 <= i < |s[1..]| && s[1..][i] == t[j];
          assert s[i + 1] == t[j];
        }
      }
    }
  }

  /** The sort yields its input in ascending key order. */
  lemma {:induction false} SortBySorted<T>(s: seq<T>, key: T -> Key)
    ensures SortedBy(SortBy(s, key), key)
  {
    if s != [] {
      SortBySorted(s[1..], key);
      InsertSorted(s[0], SortBy(s[1..], key), key);
    }
  }

  /** Sorting keeps exactly the elements it was given. */
  lemma SortByElems<T>(s: seq<T>, key: T -> Key)
    ensures forall x :: x in SortBy(s, key) <==> x in s
  {
    var r := SortBy(s, key);
    forall x ensures x in r <==> x in s {
      assert x in r <==> x in multiset(r);
      assert x in s <==> x in multiset(s);
    }
  }

  /** The elements of `s` whose key is `k`, in their order in `s`. */
  function SameKey<T>(s: seq<T>, key: T -> Key, k: Key): seq<T> {
    if s == [] then [] else (if key(s[0]) == k then [s[0]] else []) + SameKey(s[1..], key, k)
  }

  lemma {:induction false} InsertSameKey<T>(x: T, s: seq<T>, key: T -> Key, k: Key)
    ensures SameKey(Insert(x, s, key), key, k) == (if key(x) == k then [x] else []) + SameKey(s, key, k)
  {
    if s == [] || KeyLe(key(x), key(s[0])) {
      assert Insert(x, s, key)[1..] == s;
    } else {
      InsertSameKey(x, s[1..], key, k);
      assert Insert(x, s, key)[1..] == Insert(x, s[1..], key);
    }
  }

  /** Stability: elements with equal keys leave the sort in the order they entered it. */
  lemma {:induction false} SortByStable<T>(s: seq<T>, key: T -> Key, k: Key)
    ensures SameKey(SortBy(s, key), key, k) == SameKey(s, key, k)
  {
    if s != [] {
      SortByStable(s[1..], key, k);
      InsertSameKey(s[0], SortBy(s[1..], key), key, k);
    }
  }

  /** Picking one key's elements out of a concatenation picks them out of each part. */
  lemma {:induction false} SameKeyConcat<T>(a: seq<T>, b: seq<T>, key: T -> Key, k: Key)
    ensures SameKey(a + b, key, k) == SameKey(a, key, k) + SameKey(b, key, k)
  {
    if a == [] {
      assert a + b == b;
    } else {
      assert (a + b)[1..] == a[1..] + b;
      SameKeyConcat(a[1..], b, key, k);
    }
  }

  /** The sum of `f` over a sequence. */
  function SumOf<T>(s: seq<T>, f: T -> int): int {
    if s == [] then 0 else f(s[0]) + SumOf(s[1..], f)
  }

  lemma {:induction false} SumOfConcat<T>(a: seq<T>, b: seq<T>, f: T -> int)
    ensures SumOf(a + b, f) == SumOf(a, f) + SumOf(b, f)
  {
    if a == [] {
      assert a + b == b;
    } else {
      assert (a + b)[1..] == a[1..] + b;
      SumOfConcat(a[1..], b, f);
    }
  }

  lemma {:induction false} SumOfInsert<T>(x: T, s: seq<T>, key: T -> Key, f: T -> int)
    ensures SumOf(Insert(x, s, key), f) == f(x) + SumOf(s, f)
  {
    if s == [] || KeyLe(key(x), key(s[0])) {
      assert Insert(x, s, key)[1..] == s;
    } else {
      SumOfInsert(x, s[1..], key, f);
      assert Insert(x, s, key)[1..] == Insert(x, s[1..], key);
    }
  }

  /** Sorting does not change a sum. */
  lemma {:induction false} SortBySum<T>(s: seq<T>, key: T -> Key, f: T -> int)
    ensures SumOf(SortBy(s, key), f) == SumOf(s, f)
  {
    if s != [] {
      SortBySum(s[1..], key, f);
      SumOfInsert(s[0], SortBy(s[1..], key), key, f);
    }
  }

  /** Strictly ascending row positions. */
  predicate Ascending(s: seq<nat>) {
    forall i, j :: 0 <= i < j < |s| ==> s[i] < s[j]
  }

  /** Ordered by key, and by row position among equal keys: a strict total order on positions. */
  predicate RankedBy(s: seq<nat>, key: nat -> Key) {
    forall i, j :: 0 <= i < j < |s| ==>
      KeyLe(key(s[i]), key(s[j])) && (key(s[i]) == key(s[j]) ==> s[i] < s[j])
  }

  /** No position occurs twice. */
  predicate Distinct(s: seq<nat>) {
    forall i, j :: 0 <= i < j < |s| ==> s[i] != s[j]
  }

  lemma RankedDistinct(s: seq<nat>, key: nat -> Key)
    requires RankedBy(s, key)
    ensures Distinct(s)
  {
  }

  lemma {:induction false} InsertRanked(x: nat, s: seq<nat>, key: nat -> Key)
    requires RankedBy(s, key)
    requires forall j :: 0 <= j < |s| ==> x < s[j]
    ensures RankedBy(Insert(x, s, key), key)
  {
    if s == [] || KeyLe(key(x), key(s[0])) {
    } else {
      var t := Insert(x, s[1..], key);
      InsertRanked(x, s[1..], key);
      forall j | 0 <= j < |t|
        ensures KeyLe(key(s[0]), key(t[j])) && (key(s[0]) == key(t[j]) ==> s[0] < t[j])
      {
        assert t[j] in multiset(t);
        if t[j] != x {
          assert t[j] in multiset(s[1..]);
          var i :| 0 <= i < |s[1..]| && s[1..][i] == t[j];
          assert s[i + 1] == t[j];
        }
      }
    }
  }

  /** Sorting positions that start out ascending orders them by key, then by position. */
  lemma {:induction false} SortByRanked(s: seq<nat>, key: nat -> Key)
    requires Ascending(s)
    ensures RankedBy(SortBy(s, key), key)
  {
    if s != [] {
      var t := SortBy(s[1..], key);
      SortByRanked(s[1..], key);
      forall j | 0 <= j < |t| ensures s[0] < t[j] {
        assert t[j] in multiset(s[1..]);
        var i :| 0 <= i < |s[1..]| && s[1..][i] == t[j];
        assert s[i + 1] == t[j];
      }
      InsertRanked(s[0], t, key);
    }
  }
}
