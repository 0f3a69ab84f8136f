/** A stable descending sort by a numeric key: JavaScript's `arr.sort((a, b) => key(b) - key(a))`
    (stable since ES2019) and SQL's `ORDER BY key DESC`. */
module Sorting {

  ghost predicate SortedDesc<T>(s: seq<T>, key: T -> real) {
    forall i, j :: 0 <= i < j < |s| ==> key(s[i]) >= key(s[j])
  }

  ghost predicate AllAtMost<T>(s: seq<T>, b: real, key: T -> real) {
    forall i :: 0 <= i < |s| ==> key(s[i]) <= b
  }

  /** The elements of `s` whose key is `v`, in their order. */
  ghost function WithKey<T>(s: seq<T>, key: T -> real, v: real): seq<T> {
    if s == [] then [] else (if key(s[0]) == v then [s[0]] else []) + WithKey(s[1..], key, v)
  }

  /** Insert `x` in front of the first element whose key is not larger than its own. */
  function InsertDesc<T>(x: T, s: seq<T>, key: T -> real): seq<T> {
    if s == [] || key(s[0]) <= key(x) then [x] + s
    else [s[0]] + InsertDesc(x, s[1..], key)
  }

  lemma {:induction false} InsertDescBound<T>(x: T, s: seq<T>, key: T -> real, b: real)
    requires AllAtMost(s, b, key) && key(x) <= b
    ensures AllAtMost(InsertDesc(x, s, key), b, key)
  {
    if s != [] && key(s[0]) > key(x) {
      InsertDescBound(x, s[1..], key, b);
    }
  }

  /** A head no smaller than every element of a sorted tail gives a sorted list. */
  lemma SortedCons<T>(h: T, r: seq<T>, key: T -> real)
    requires SortedDesc(r, key) && AllAtMost(r, key(h), key)
    ensures SortedDesc([h] + r, key)
  {
    var l := [h] + r;
    forall i, j | 0 <= i < j < |l| ensures key(l[i]) >= key(l[j]) {
      if i == 0 {
        assert l[j] == r[j - 1];
      } else {
        assert l[i] == r[i - 1] && l[j] == r[j - 1];
      }
    }
  }

  lemma {:induction false} InsertDescSorted<T>(x: T, s: seq<T>, key: T -> real)
    requires SortedDesc(s, key)
    ensures SortedDesc(InsertDesc(x, s, key), key)
    ensures multiset(InsertDesc(x, s, key)) == multiset(s) + multiset{x}
    ensures |InsertDesc(x, s, key)| == |s| + 1
  {
    if s != [] && key(s[0]) > key(x) {
      var t := s[1..];
      assert s == [s[0]] + t;
      assert SortedDesc(t, key);
      assert AllAtMost(t, key(s[0]), key);
      InsertDescSorted(x, t, key);
      InsertDescBound(x, t, key, key(s[0]));
      SortedCons(s[0], InsertDesc(x, t, key), key);
    } else {
      assert AllAtMost(s, key(x), key) by {
        if s != [] {
          assert forall j :: 0 < j < |s| ==> key(s[j]) <= key(s[0]);
        }
      }
      SortedCons(x, s, key);
    }
  }

  /** The sorted permutation of `s`, largest key first. */
  function SortDesc<T>(s: seq<T>, key: T -> real): (r: seq<T>)
    ensures SortedDesc(r, key)
    ensures multiset(r) == multiset(s)
    ensures |r| == |s|
  {
    if s == [] then [] else
      assert s == [s[0]] + s[1..];
      var t := SortDesc(s[1..], key);
      InsertDescSorted(s[0], t, key);
      InsertDesc(s[0], t, key)
  }

  /** Inserting `x` places it before every element of equal key. */
  lemma {:induction false} InsertDescWithKey<T>(x: T, s: seq<T>, key: T -> real, v: real)
    ensures WithKey(InsertDesc(x, s, key), key, v) == (if key(x) == v then [x] else []) + WithKey(s, key, v)
  {
    if s != [] && key(s[0]) > key(x) {
      var l := InsertDesc(x, s, key);
      assert l[0] == s[0] && l[1..] == InsertDesc(x, s[1..], key);
      InsertDescWithKey(x, s[1..], key, v);
    } else {
      var l := [x] + s;
      assert l[1..] == s;
    }
  }

  /** The sort is stable: the elements of any one key keep their relative order. */
  lemma {:induction false} SortDescStable<T>(s: seq<T>, key: T -> real, v: real)
    ensures WithKey(SortDesc(s, key), key, v) == WithKey(s, key, v)
  {
    if s != [] {
      SortDescStable(s[1..], key, v);
      InsertDescWithKey(s[0], SortDesc(s[1..], key), key, v);
    }
  }
}
