/** String helpers with the semantics of the JavaScript, SQL and Python operations they stand for. */
module Text {

  /** `s.startsWith(p)` in JavaScript, `s LIKE 'p%'` in SQL (for a pattern without wildcards). */
  predicate StartsWith(s: string, p: string) {
    p <= s
  }

  /** Python's `sub in s`: `sub` occurs as a contiguous block inside `s`. */
  function Contains(s: string, sub: string): (b: bool)
    decreases |s|
  {
    if sub <= s then true
    else if |s| == 0 then false
    else Contains(s[1..], sub)
  }

  /** JavaScript's `s.replace(pat, rep)` with a string pattern: the first occurrence of `pat`
      is replaced, and a text without one is returned as it is. */
  function ReplaceFirst(s: string, pat: string, rep: string): (r: string)
    ensures StartsWith(s, pat) ==> r == rep + s[|pat|..]
    ensures !Contains(s, pat) ==> r == s
    decreases |s|
  {
    if pat <= s then rep + s[|pat|..]
    else if s == [] then s
    else [s[0]] + ReplaceFirst(s[1..], pat, rep)
  }

  /** `sub` occurs in `s` starting at index `i`. */
  predicate OccursAt(s: string, sub: string, i: int) {
    0 <= i && i + |sub| <= |s| && s[i..i + |sub|] == sub
  }

  lemma OccursAtStart(s: string, sub: string)
    ensures OccursAt(s, sub, 0) <==> sub <= s
  {
  }

  lemma OccursShift(s: string, sub: string, i: int)
    requires 0 < i && s != []
    ensures OccursAt(s, sub, i) <==> OccursAt(s[1..], sub, i - 1)
  {
    if i + |sub| <= |s| {
      assert s[i..i + |sub|] == s[1..][i - 1..i - 1 + |sub|];
    }
  }

  /** `Contains` agrees with the declarative definition of a substring occurrence. */
  lemma {:induction false} ContainsAt(s: string, sub: string)
    ensures Contains(s, sub) <==> exists i :: OccursAt(s, sub, i)
    decreases |s|
  {
    OccursAtStart(s, sub);
    if sub <= s {
      assert OccursAt(s, sub, 0);
    } else if |s| == 0 {
      assert forall i :: !OccursAt(s, sub, i);
    } else {
      ContainsAt(s[1..], sub);
      forall i | 0 < i ensures OccursAt(s, sub, i) <==> OccursAt(s[1..], sub, i - 1) {
        OccursShift(s, sub, i);
      }
      if Contains(s, sub) {
        var i :| OccursAt(s[1..], sub, i);
        assert OccursAt(s, sub, i + 1);
      }
    }
  }

  /** The characters for which Python's `str.isspace()` holds. */
  const PySpaces: set<char> := {
    ' ', '\t', '\n', '\U{b}', '\U{c}', '\r', '\U{1c}', '\U{1d}', '\U{1e}', '\U{1f}', '\U{85}', '\U{a0}',
    '\U{1680}', '\U{2000}', '\U{2001}', '\U{2002}', '\U{2003}', '\U{2004}', '\U{2005}', '\U{2006}',
    '\U{2007}', '\U{2008}', '\U{2009}', '\U{200a}', '\U{2028}', '\U{2029}', '\U{202f}', '\U{205f}', '\U{3000}'
  }

  predicate IsPySpace(c: char) {
    c in PySpaces
  }

  /** Python's `str.lstrip()` with no argument. */
  function StripLeft(s: string): string {
    if s != [] && IsPySpace(s[0]) then StripLeft(s[1..]) else s
  }

  /** Python's `str.rstrip()` with no argument. */
  function StripRight(s: string): string {
    if s != [] && IsPySpace(s[|s| - 1]) then StripRight(s[..|s| - 1]) else s
  }

  /** `StripLeft` cuts a whitespace prefix off `s`, and what it leaves does not start with whitespace. */
  lemma {:induction false} StripLeftSpec(s: string)
    ensures var r := StripLeft(s);
      && |r| <= |s| && r == s[|s| - |r|..]
      && (r == [] || !IsPySpace(r[0]))
      && (forall i :: 0 <= i < |s| - |r| ==> IsPySpace(s[i]))
  {
    if s != [] && IsPySpace(s[0]) {
      var t := s[1..];
      StripLeftSpec(t);
      var r := StripLeft(t);
      assert StripLeft(s) == r;
      assert t[|t| - |r|..] == s[|s| - |r|..];
      forall i | 0 < i < |s| - |r| ensures IsPySpace(s[i]) {
        assert s[i] == t[i - 1];
      }
    }
  }

  /** `StripRight` cuts a whitespace suffix off `s`, and what it leaves does not end with whitespace. */
  lemma {:induction false} StripRightSpec(s: string)
    ensures var r := StripRight(s);
      && |r| <= |s| && r == s[..|r|]
      && (r == [] || !IsPySpace(r[|r| - 1]))
      && (forall i :: |r| <= i < |s| ==> IsPySpace(s[i]))
  {
    if s != [] && IsPySpace(s[|s| - 1]) {
      var t := s[..|s| - 1];
      StripRightSpec(t);
      var r := StripRight(t);
      assert StripRight(s) == r;
      assert t[..|r|] == s[..|r|];
      forall i | |r| <= i < |s| - 1 ensures IsPySpace(s[i]) {
        assert s[i] == t[i];
      }
    }
  }

  /** Python's `str.strip()` with no argument. */
  function Strip(s: string): string {
    StripRight(StripLeft(s))
  }

  /** `r` is the block of `s` at offset `k`, and everything outside it is whitespace. */
  predicate Trims(s: string, k: int, r: string) {
    && 0 <= k && k + |r| <= |s| && s[k..k + |r|] == r
    && (forall i :: 0 <= i < k ==> IsPySpace(s[i]))
    && (forall i :: k + |r| <= i < |s| ==> IsPySpace(s[i]))
  }

  /** What `Strip` leaves neither starts nor ends with whitespace. */
  lemma StripEnds(s: string)
    ensures var r := Strip(s);
      r == [] || (!IsPySpace(r[0]) && !IsPySpace(r[|r| - 1]))
  {
    var l := StripLeft(s);
    var r := StripRight(l);
    StripLeftSpec(s);
    StripRightSpec(l);
    if r != [] {
      assert r[0] == l[0];
    }
  }

  /** Cutting whitespace off the front of `s`, leaving `l`, and then off the back of `l`,
      leaving `r`, trims `s` to `r`. */
  lemma TrimsOf(s: string, l: string, r: string)
    requires |l| <= |s| && l == s[|s| - |l|..]
    requires forall i :: 0 <= i < |s| - |l| ==> IsPySpace(s[i])
    requires |r| <= |l| && r == l[..|r|]
    requires forall i :: |r| <= i < |l| ==> IsPySpace(l[i])
    ensures Trims(s, |s| - |l|, r)
  {
    var k := |s| - |l|;
    assert s[k..k + |r|] == s[k..][..|r|];
    forall i | k + |r| <= i < |s| ensures IsPySpace(s[i]) {
      assert s[i] == l[i - k];
    }
  }

  /** `Strip` removes exactly the surrounding whitespace: what is left is the block of `s`
      after its leading whitespace, and everything cut off on either side is whitespace. */
  lemma StripSpec(s: string)
    ensures Trims(s, |s| - |StripLeft(s)|, Strip(s))
  {
    StripLeftSpec(s);
    StripRightSpec(StripLeft(s));
    TrimsOf(s, StripLeft(s), StripRight(StripLeft(s)));
  }

  /** A string that does not start or end with whitespace is left unchanged by `Strip`. */
  lemma StripTrimmed(s: string)
    requires s == [] || (!IsPySpace(s[0]) && !IsPySpace(s[|s| - 1]))
    ensures Strip(s) == s
  {
  }

  /** Python's `s.replace(c, "")` for a one-character pattern. */
  function RemoveAll(s: string, c: char): (r: string)
    ensures c !in r
    ensures |r| <= |s|
  {
    if s == [] then [] else (if s[0] == c then [] else [s[0]]) + RemoveAll(s[1..], c)
  }

  /** Number of occurrences of `c` in `s`. */
  function Count(s: string, c: char): nat {
    if s == [] then 0 else (if s[0] == c then 1 else 0) + Count(s[1..], c)
  }

  /** Index of the first occurrence of `c`, or `|s|` when there is none. */
  function IndexOf(s: string, c: char): (i: nat)
    ensures i <= |s|
    ensures i < |s| ==> s[i] == c
    ensures c !in s[..i]
  {
    if s == [] then 0 else if s[0] == c then 0 else 1 + IndexOf(s[1..], c)
  }

  /** Python's `a < b` on strings: code point by code point, a proper prefix first. */
  predicate StrLess(a: string, b: string) {
    if a == [] then b != []
    else if b == [] then false
    else if a[0] != b[0] then a[0] < b[0]
    else StrLess(a[1..], b[1..])
  }

  lemma StrLessIrreflexive(a: string)
    ensures !StrLess(a, a)
  {
  }

  lemma StrLessTotal(a: string, b: string)
    requires a != b
    ensures StrLess(a, b) || StrLess(b, a)
  {
    if a != [] && b != [] && a[0] == b[0] {
      assert a == [a[0]] + a[1..] && b == [b[0]] + b[1..];
      StrLessTotal(a[1..], b[1..]);
    }
  }

  lemma StrLessTrans(a: string, b: string, c: string)
    requires StrLess(a, b) && StrLess(b, c)
    ensures StrLess(a, c)
  {
    if a != [] && b != [] && c != [] && a[0] == b[0] == c[0] {
      StrLessTrans(a[1..], b[1..], c[1..]);
    }
  }

  /** Strictly increasing; in particular without duplicates. */
  predicate StrictlySorted(r: seq<string>) {
    forall i, j :: 0 <= i < j < |r| ==> StrLess(r[i], r[j])
  }

  /** Every finite non-empty set of strings has a least element. */
  lemma {:induction false} LeastExists(s: set<string>)
    requires s != {}
    ensures exists m :: m in s && forall x :: x in s && x != m ==> StrLess(m, x)
  {
    var x :| x in s;
    if s != {x} {
      LeastExists(s - {x});
      var m :| m in s - {x} && forall y :: y in s - {x} && y != m ==> StrLess(m, y);
      if StrLess(x, m) {
        forall y | y in s && y != x ensures StrLess(x, y) {
          if y != m {
            StrLessTrans(x, m, y);
          }
        }
        assert x in s && forall y :: y in s && y != x ==> StrLess(x, y);
      } else {
        StrLessTotal(x, m);
        assert m in s && forall y :: y in s && y != m ==> StrLess(m, y);
      }
    }
  }

  /** `sorted(list(s))`: the elements of the set in increasing order. */
  method SortedList(s: set<string>) returns (r: seq<string>)
    ensures forall x :: x in r <==> x in s
    ensures StrictlySorted(r)
  {
    r := [];
    var remaining := s;
    while remaining != {}
      invariant remaining <= s
      invariant forall x :: x in r <==> x in s && x !in remaining
      invariant StrictlySorted(r)
      invariant forall i, y :: 0 <= i < |r| && y in remaining ==> StrLess(r[i], y)
      decreases |remaining|
    {
      LeastExists(remaining);
      var m :| m in remaining && forall x :: x in remaining && x != m ==> StrLess(m, x);
      forall i, y | 0 <= i < |r| && y in remaining - {m} ensures StrLess(r[i], y) {
        StrLessTrans(r[i], m, y);
      }
      r := r + [m];
      remaining := remaining - {m};
    }
  }

  /** A strictly increasing list is determined by its elements. */
  lemma {:induction false} StrictlySortedUnique(a: seq<string>, b: seq<string>)
    requires StrictlySorted(a) && StrictlySorted(b)
    requires forall x :: x in a <==> x in b
    ensures a == b
    decreases |a|
  {
    assert a != [] ==> a[0] in b;
    assert b != [] ==> b[0] in a;
    if a != [] && b != [] {
      if a[0] != b[0] {
        assert b[0] in a && a[0] in b;
        var i :| 0 <= i < |a| && a[i] == b[0];
        var j :| 0 <= j < |b| && b[j] == a[0];
        assert i > 0 && j > 0;
        StrLessTrans(a[0], b[0], a[0]);
        StrLessIrreflexive(a[0]);
      }
      forall x ensures x in a[1..] <==> x in b[1..] {
        if x in a[1..] {
          var i :| 0 <= i < |a| - 1 && a[1..][i] == x;
          assert a[i + 1] == x;
          StrLessIrreflexive(x);
          assert StrLess(a[0], x);
          assert x in a && x in b;
          var j :| 0 <= j < |b| && b[j] == x;
          assert j != 0;
          assert b[1..][j - 1] == x;
        }
        if x in b[1..] {
          var j :| 0 <= j < |b| - 1 && b[1..][j] == x;
          assert b[j + 1] == x;
          StrLessIrreflexive(x);
          assert StrLess(b[0], x);
          assert x in b && x in a;
          var i :| 0 <= i < |a| && a[i] == x;
          assert i != 0;
          assert a[1..][i - 1] == x;
        }
      }
      StrictlySortedUnique(a[1..], b[1..]);
      assert a == [a[0]] + a[1..] && b == [b[0]] + b[1..];
    }
  }

  /** Python's `s.split(c)` for a one-character separator. */
  function Split(s: string, c: char): (parts: seq<string>)
    ensures |parts| >= 1
    decreases |s|
  {
    var i := IndexOf(s, c);
    if i == |s| then [s] else [s[..i]] + Split(s[i + 1..], c)
  }

  /** Splitting `a + [c] + b` where only `b` may hold `c` gives `a` and the parts of `b`. */
  lemma SplitAt(a: string, c: char, b: string)
    requires c !in a
    ensures Split(a + [c] + b, c) == [a] + Split(b, c)
  {
    var s := a + [c] + b;
    assert s[..|a|] == a && s[|a|] == c;
    IndexOfFirst(s, c, |a|);
    assert s[|a| + 1..] == b;
  }

  /** A string without the separator is one part. */
  lemma SplitNone(s: string, c: char)
    requires c !in s
    ensures Split(s, c) == [s]
  {
    IndexOfAbsent(s, c);
  }

  lemma {:induction false} IndexOfFirst(s: string, c: char, k: nat)
    requires k < |s| && s[k] == c && c !in s[..k]
    ensures IndexOf(s, c) == k
  {
    if k > 0 {
      assert s[0] == s[..k][0];
      assert s[1..][..k - 1] == s[..k][1..];
      IndexOfFirst(s[1..], c, k - 1);
    }
  }

  lemma {:induction false} IndexOfAbsent(s: string, c: char)
    requires c !in s
    ensures IndexOf(s, c) == |s|
  {
    if s != [] {
      assert c !in s[1..];
      IndexOfAbsent(s[1..], c);
    }
  }
}
