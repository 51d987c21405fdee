/**
 * Ordering of query results. MongoDB's `.sort(...)` returns the matching
 * documents as a permutation ordered by the sort key; the order among equal
 * keys is not specified, and the insertion sort below is one admissible
 * choice.
 */
module Sorting {
  import opened Common

  /** `le` relates every pair one way or the other. */
  ghost predicate Total<T(!new)>(le: (T, T) -> bool) {
    forall a, b :: le(a, b) || le(b, a)
  }

  /** Each element is `le` its successor. */
  predicate Ordered<T>(s: seq<T>, le: (T, T) -> bool) {
    forall i :: 0 <= i < |s| - 1 ==> le(s[i], s[i + 1])
  }

  /** Places `x` before the first element it is `le` to. */
  function Insert<T(!new)>(x: T, s: seq<T>, le: (T, T) -> bool): (r: seq<T>)
    requires Total(le)
    requires Ordered(s, le)
    ensures multiset(r) == multiset(s) + multiset{x}
    ensures |r| == |s| + 1
    ensures Ordered(r, le)
    ensures r[0] == x || (s != [] && r[0] == s[0])
  {
    if s == [] then [x]
    else if le(x, s[0]) then [x] + s
    else
      var rest := Insert(x, s[1..], le);
      assert s == [s[0]] + s[1..];
      assert le(s[0], x);
      [s[0]] + rest
  }

  /** Insertion sort: a permutation of `s` in `le` order. */
  function SortBy<T(!new)>(s: seq<T>, le: (T, T) -> bool): (r: seq<T>)
    requires Total(le)
    ensures multiset(r) == multiset(s)
    ensures |r| == |s|
    ensures Ordered(r, le)
  {
    if s == [] then []
    else
      assert s == [s[0]] + s[1..];
      Insert(s[0], SortBy(s[1..], le), le)
  }

  ghost predicate Transitive<T(!new)>(le: (T, T) -> bool) {
    forall a, b, c :: le(a, b) && le(b, c) ==> le(a, c)
  }

  /** For a transitive `le`, successor order gives the order of every pair. */
  lemma {:induction false} OrderedIsSorted<T(!new)>(s: seq<T>, le: (T, T) -> bool)
    requires Transitive(le)
    requires Ordered(s, le)
    ensures forall i, j :: 0 <= i < j < |s| ==> le(s[i], s[j])
  {
    if |s| > 1 {
      var tail := s[1..];
      assert Ordered(tail, le) by {
        forall i | 0 <= i < |tail| - 1 ensures le(tail[i], tail[i + 1]) {
          assert tail[i] == s[i + 1] && tail[i + 1] == s[i + 2];
        }
      }
      OrderedIsSorted(tail, le);
      forall i, j | 0 <= i < j < |s| ensures le(s[i], s[j]) {
        if i > 0 {
          assert s[i] == tail[i - 1] && s[j] == tail[j - 1];
        } else {
          assert le(s[0], s[1]);
          if j > 1 { assert s[1] == tail[0] && s[j] == tail[j - 1]; }
        }
      }
    }
  }

  /** Sorting ascending by an integer key. */
  function SortByKey<T(!new)>(s: seq<T>, key: T -> int): (r: seq<T>)
    ensures multiset(r) == multiset(s)
    ensures |r| == |s|
    ensures forall i, j :: 0 <= i < j < |r| ==> key(r[i]) <= key(r[j])
  {
    var le := (a: T, b: T) => key(a) <= key(b);
    var r := SortBy(s, le);
    OrderedIsSorted(r, le);
    r
  }

  /** The order MongoDB gives strings: code point by code point, a proper prefix first. */
  predicate LexLe(a: string, b: string) {
    if a == [] then true
    else if b == [] then false
    else if a[0] != b[0] then a[0] < b[0]
    else LexLe(a[1..], b[1..])
  }

  lemma {:induction false} LexLeTotal(a: string, b: string)
    ensures LexLe(a, b) || LexLe(b, a)
  {
    if a != [] && b != [] && a[0] == b[0] {
      LexLeTotal(a[1..], b[1..]);
    }
  }

  lemma {:induction false} LexLeTransitive(a: string, b: string, c: string)
    requires LexLe(a, b) && LexLe(b, c)
    ensures LexLe(a, c)
  {
    if a != [] && b != [] && c != [] && a[0] == b[0] && b[0] == c[0] {
      LexLeTransitive(a[1..], b[1..], c[1..]);
    }
  }

  /** Sorting ascending by a string key. */
  function SortByString<T(!new)>(s: seq<T>, key: T -> string): (r: seq<T>)
    ensures multiset(r) == multiset(s)
    ensures |r| == |s|
    ensures forall i, j :: 0 <= i < j < |r| ==> LexLe(key(r[i]), key(r[j]))
  {
    var le := (a: T, b: T) => LexLe(key(a), key(b));
    assert Total(le) by {
      forall a: T, b: T ensures le(a, b) || le(b, a) { LexLeTotal(key(a), key(b)); }
    }
    assert Transitive(le) by {
      forall a: T, b: T, c: T | le(a, b) && le(b, c) ensures le(a, c) {
        LexLeTransitive(key(a), key(b), key(c));
      }
    }
    var r := SortBy(s, le);
    OrderedIsSorted(r, le);
    r
  }

  /** Keeping some elements keeps any order that held between every pair. */
  lemma {:induction false} FilterKeepsOrder<T>(s: seq<T>, p: T -> bool, le: (T, T) -> bool)
    requires forall i, j :: 0 <= i < j < |s| ==> le(s[i], s[j])
    ensures forall i, j :: 0 <= i < j < |Filter(s, p)| ==> le(Filter(s, p)[i], Filter(s, p)[j])
  {
    if s != [] {
      var init := s[..|s| - 1];
      var last := s[|s| - 1];
      assert forall i, j :: 0 <= i < j < |init| ==> le(init[i], init[j]) by {
        forall i, j | 0 <= i < j < |init| ensures le(init[i], init[j]) {
          assert init[i] == s[i] && init[j] == s[j];
        }
      }
      FilterKeepsOrder(init, p, le);
      var f := Filter(init, p);
      assert forall i, j :: 0 <= i < j < |f| ==> le(f[i], f[j]);
      assert Filter(s, p) == f + (if p(last) then [last] else []);
      forall k | 0 <= k < |f| ensures le(f[k], last) {
        var m :| 0 <= m < |init| && init[m] == f[k];
        assert s[m] == f[k];
      }
      if p(last) {
        var r := f + [last];
        assert Filter(s, p) == r;
        forall i, j | 0 <= i < j < |r| ensures le(r[i], r[j]) {
          if j < |f| {
            assert r[i] == f[i] && r[j] == f[j];
            assert le(f[i], f[j]);
          } else {
            assert r[i] == f[i] && r[j] == last;
            assert le(f[i], last);
          }
        }
      } else {
        assert Filter(s, p) == f;
      }
    }
  }
}
