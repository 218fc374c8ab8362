/** The list operations the app applies to arrays of records:
    `Array.prototype.filter`, a stable `sort` by a numeric key (JavaScript's
    `sort` and Python's `list.sort` are both stable), `reverse`, `map` and
    slicing a prefix. */
module Sequences {

  /** `r` is `s` with some elements dropped and the rest kept in order:
      `idx` lists, increasing, the positions of `s` that were kept. */
  ghost predicate SubsequenceAt<T>(r: seq<T>, s: seq<T>, idx: seq<int>) {
    |idx| == |r| &&
    (forall k :: 0 <= k < |idx| ==> 0 <= idx[k] < |s| && r[k] == s[idx[k]]) &&
    (forall k, l :: 0 <= k < l < |idx| ==> idx[k] < idx[l])
  }

  ghost predicate IsSubsequence<T>(r: seq<T>, s: seq<T>) {
    exists idx :: SubsequenceAt(r, s, idx)
  }

  /** `s.filter(p)`. */
  function Filter<T(!new)>(s: seq<T>, p: T -> bool): (r: seq<T>)
    ensures |r| <= |s|
    ensures forall x :: x in r <==> x in s && p(x)
    ensures forall x :: multiset(r)[x] == if p(x) then multiset(s)[x] else 0
    decreases |s|
  {
    if s == [] then []
    else
      assert s == [s[0]] + s[1..];
      (if p(s[0]) then [s[0]] else []) + Filter(s[1..], p)
  }

  /** What `filter` keeps stays in its original order. */
  lemma {:induction false} FilterIsSubsequence<T(!new)>(s: seq<T>, p: T -> bool)
    ensures IsSubsequence(Filter(s, p), s)
    decreases |s|
  {
    if s == [] {
      assert SubsequenceAt<T>([], s, []);
    } else {
      FilterIsSubsequence(s[1..], p);
      var tail := Filter(s[1..], p);
      var idx :| SubsequenceAt(tail, s[1..], idx);
      var shifted := seq(|idx|, k requires 0 <= k < |idx| => idx[k] + 1);
      ShiftedIsSubsequence(tail, s, idx, shifted);
      if p(s[0]) {
        assert Filter(s, p) == [s[0]] + tail;
        PrependedIsSubsequence(s[0], tail, s, shifted);
        assert SubsequenceAt(Filter(s, p), s, [0] + shifted);
      } else {
        assert Filter(s, p) == tail;
        assert SubsequenceAt(Filter(s, p), s, shifted);
      }
    }
  }

  /** Filtering twice is filtering once by both tests. */
  lemma {:induction false} FilterTwice<T(!new)>(s: seq<T>, p: T -> bool, q: T -> bool, pq: T -> bool)
    requires forall x :: pq(x) == (p(x) && q(x))
    ensures Filter(Filter(s, p), q) == Filter(s, pq)
    decreases |s|
  {
    if s != [] {
      FilterTwice(s[1..], p, q, pq);
      if p(s[0]) {
        assert Filter(s, p) == [s[0]] + Filter(s[1..], p);
        assert Filter(s, p)[1..] == Filter(s[1..], p);
      } else {
        assert Filter(s, p) == Filter(s[1..], p);
      }
    }
  }

  /** A test every element passes filters nothing out. */
  lemma {:induction false} FilterKeepsAll<T(!new)>(s: seq<T>, p: T -> bool)
    requires forall x :: x in s ==> p(x)
    ensures Filter(s, p) == s
    decreases |s|
  {
    if s != [] {
      assert forall x :: x in s[1..] ==> x in s;
      FilterKeepsAll(s[1..], p);
      assert s == [s[0]] + s[1..];
    }
  }

  lemma ShiftedIsSubsequence<T>(r: seq<T>, s: seq<T>, idx: seq<int>, shifted: seq<int>)
    requires s != [] && SubsequenceAt(r, s[1..], idx)
    requires |shifted| == |idx| && forall k :: 0 <= k < |idx| ==> shifted[k] == idx[k] + 1
    ensures SubsequenceAt(r, s, shifted)
  {
  }

  lemma PrependedIsSubsequence<T>(x: T, r: seq<T>, s: seq<T>, shifted: seq<int>)
    requires s != [] && s[0] == x && SubsequenceAt(r, s, shifted)
    requires forall k :: 0 <= k < |shifted| ==> shifted[k] >= 1
    ensures SubsequenceAt([x] + r, s, [0] + shifted)
  {
  }

  /** Elements of `s`, in order, whose key is non-decreasing. */
  predicate SortedBy<T>(s: seq<T>, key: T -> real) {
    forall i, j :: 0 <= i < j < |s| ==> key(s[i]) <= key(s[j])
  }

  /** `x` placed into the sorted `s` before the first element whose key is not
      smaller than its own (so `x` stays ahead of its equals). */
  function Insert<T>(x: T, s: seq<T>, key: T -> real): (r: seq<T>)
    requires SortedBy(s, key)
    ensures multiset(r) == multiset(s) + multiset{x}
    ensures SortedBy(r, key)
    ensures |r| == |s| + 1
    decreases |s|
  {
    if s == [] || key(x) <= key(s[0]) then [x] + s
    else
      assert s == [s[0]] + s[1..];
      var t := Insert(x, s[1..], key);
      ConsSorted(s[0], x, s[1..], t, key);
      [s[0]] + t
  }

  /** Placing the head of a sorted sequence in front of an insertion into its
      tail keeps the order, when the inserted element is not smaller. */
  lemma ConsSorted<T>(h: T, x: T, tail: seq<T>, t: seq<T>, key: T -> real)
    requires SortedBy([h] + tail, key) && key(h) <= key(x)
    requires SortedBy(t, key) && multiset(t) == multiset(tail) + multiset{x}
    ensures SortedBy([h] + t, key)
  {
    forall j | 0 <= j < |t| ensures key(h) <= key(t[j]) {
      assert t[j] in multiset(t);
      if t[j] != x {
        assert t[j] in multiset(tail);
        var k :| 0 <= k < |tail| && tail[k] == t[j];
        assert ([h] + tail)[0] == h && ([h] + tail)[k + 1] == t[j];
      }
    }
    var r := [h] + t;
    forall i, j | 0 <= i < j < |r| ensures key(r[i]) <= key(r[j]) {
      if i > 0 {
        assert r[i] == t[i - 1] && r[j] == t[j - 1];
      }
    }
  }

  /** A stable sort of `s` by ascending `key` (insertion sort). */
  function SortBy<T>(s: seq<T>, key: T -> real): (r: seq<T>)
    ensures multiset(r) == multiset(s)
    ensures SortedBy(r, key)
    ensures |r| == |s|
    decreases |s|
  {
    if s == [] then []
    else
      assert s == [s[0]] + s[1..];
      Insert(s[0], SortBy(s[1..], key), key)
  }

  /** The sort is stable: the elements sharing any one key come out in the
      order they went in. */
  lemma {:induction false} SortStable<T(!new)>(s: seq<T>, key: T -> real, k: real, sameKey: T -> bool)
    requires forall e :: sameKey(e) == (key(e) == k)
    ensures Filter(SortBy(s, key), sameKey) == Filter(s, sameKey)
    decreases |s|
  {
    if s != [] {
      var rest := SortBy(s[1..], key);
      var fs := Filter(s[1..], sameKey);
      assert SortBy(s, key) == Insert(s[0], rest, key);
      SortStable(s[1..], key, k, sameKey);
      InsertKeepsTies(s[0], rest, key, k, sameKey);
      if sameKey(s[0]) {
        assert Filter(s, sameKey) == [s[0]] + fs;
      } else {
        assert Filter(s, sameKey) == [] + fs == fs;
      }
    }
  }

  /** Inserting `x` puts it in front of the elements that share its key and
      leaves their order, and everyone else's, alone. */
  lemma {:induction false} InsertKeepsTies<T(!new)>(x: T, s: seq<T>, key: T -> real, k: real, sameKey: T -> bool)
    requires SortedBy(s, key)
    requires forall e :: sameKey(e) == (key(e) == k)
    ensures sameKey(x) ==> Filter(Insert(x, s, key), sameKey) == [x] + Filter(s, sameKey)
    ensures !sameKey(x) ==> Filter(Insert(x, s, key), sameKey) == Filter(s, sameKey)
    decreases |s|
  {
    var r := Insert(x, s, key);
    if s == [] || key(x) <= key(s[0]) {
      assert r == [x] + s && r[0] == x && r[1..] == s;
      assert Filter(r, sameKey) == (if sameKey(x) then [x] else []) + Filter(s, sameKey);
      assert [] + Filter(s, sameKey) == Filter(s, sameKey);
    } else {
      var t := Insert(x, s[1..], key);
      assert r == [s[0]] + t && r[0] == s[0] && r[1..] == t;
      var fs := Filter(s[1..], sameKey);
      var head := if sameKey(s[0]) then [s[0]] else [];
      assert Filter(s, sameKey) == head + fs;
      assert Filter(r, sameKey) == head + Filter(t, sameKey);
      InsertKeepsTies(x, s[1..], key, k, sameKey);
      if sameKey(x) {
        assert Filter(t, sameKey) == [x] + fs;
        assert head == [] && [] + fs == fs;
        assert Filter(r, sameKey) == [x] + fs;
      } else {
        assert Filter(t, sameKey) == fs;
        assert Filter(r, sameKey) == head + fs;
      }
    }
  }

  /** The first element of the sorted sequence has the smallest key. */
  lemma SortedHeadIsMinimal<T>(s: seq<T>, key: T -> real, x: T)
    requires x in s
    ensures SortBy(s, key) != [] && key(SortBy(s, key)[0]) <= key(x)
  {
    var sorted := SortBy(s, key);
    assert x in multiset(sorted);
    var a :| 0 <= a < |sorted| && sorted[a] == x;
    assert a == 0 || key(sorted[0]) <= key(sorted[a]);
  }

  /** `s.reverse()`. */
  function Reverse<T>(s: seq<T>): (r: seq<T>)
    ensures |r| == |s|
    ensures forall i :: 0 <= i < |s| ==> r[i] == s[|s| - 1 - i]
    decreases |s|
  {
    if s == [] then [] else Reverse(s[1..]) + [s[0]]
  }

  /** `s.slice(0, n)` / `s[:n]`. */
  function Take<T>(s: seq<T>, n: nat): (r: seq<T>)
    ensures |r| == if |s| < n then |s| else n
    ensures r <= s
  {
    if |s| < n then s else s[..n]
  }

  /** A prefix of a sorted sequence is sorted. */
  lemma TakeKeepsSorted<T>(s: seq<T>, n: nat, key: T -> real)
    requires SortedBy(s, key)
    ensures SortedBy(Take(s, n), key)
  {
    var t := Take(s, n);
    assert forall a :: 0 <= a < |t| ==> t[a] == s[a];
  }

  /** Every element of a sorted sequence that did not make it into its first
      `n` has a key no smaller than every element that did. */
  lemma TakeSortedIsSmallest<T>(s: seq<T>, n: nat, key: T -> real, x: T)
    requires SortedBy(s, key)
    requires x in s && x !in Take(s, n)
    ensures |Take(s, n)| == n
    ensures forall y :: y in Take(s, n) ==> key(y) <= key(x)
  {
    var i :| 0 <= i < |s| && s[i] == x;
    assert i >= n;
  }
}
