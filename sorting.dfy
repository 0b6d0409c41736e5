/**
 * The two orderings the app and the backend sort by: a stable sort of records
 * by a numeric key (Kotlin `sortedBy`, SQL `ORDER BY`), and Python's
 * `sorted(set(...))` of strings, i.e. the distinct strings in code-point order.
 */
module Sorting {
  import opened Common

  predicate SortedBy<T>(s: seq<T>, key: T -> real) {
    forall i, j :: 0 <= i < j < |s| ==> key(s[i]) <= key(s[j])
  }

  /** Inserts `x` after every element whose key is not larger, which keeps the sort stable. */
  function InsertBy<T>(x: T, s: seq<T>, key: T -> real): (r: seq<T>)
    requires SortedBy(s, key)
    ensures |r| == |s| + 1
    ensures SortedBy(r, key)
    ensures multiset(r) == multiset(s) + multiset{x}
  {
    if s == [] || key(x) < key(s[0]) then [x] + s
    else
      var t := InsertBy(x, s[1..], key);
      assert s == [s[0]] + s[1..];
      LowerBoundKept(s[0], t, s[1..], x, key);
      ConsSorted(s[0], t, key);
      [s[0]] + t
  }

  /** A lower bound of `rest` and of `x` bounds any arrangement of `rest` with `x` added. */
  lemma LowerBoundKept<T>(a: T, t: seq<T>, rest: seq<T>, x: T, key: T -> real)
    requires multiset(t) == multiset(rest) + multiset{x}
    requires forall j :: 0 <= j < |rest| ==> key(a) <= key(rest[j])
    requires key(a) <= key(x)
    ensures forall j :: 0 <= j < |t| ==> key(a) <= key(t[j])
  {
    forall j | 0 <= j < |t| ensures key(a) <= key(t[j]) {
      assert t[j] in multiset(t);
      if t[j] != x {
        assert t[j] in multiset(rest);
        assert t[j] in rest;
      }
    }
  }

  /** A sorted sequence stays sorted with a lower bound in front. */
  lemma ConsSorted<T>(a: T, t: seq<T>, key: T -> real)
    requires SortedBy(t, key)
    requires forall j :: 0 <= j < |t| ==> key(a) <= key(t[j])
    ensures SortedBy([a] + t, key)
  {
    var r := [a] + t;
    forall i, j | 0 <= i < j < |r| ensures key(r[i]) <= key(r[j]) {
      if i > 0 {
        assert r[i] == t[i - 1] && r[j] == t[j - 1];
      }
    }
  }

  /** Stable insertion sort by `key`: Kotlin `sortedBy { key }`. */
  function SortBy<T>(s: seq<T>, key: T -> real): (r: seq<T>)
    ensures |r| == |s|
    ensures SortedBy(r, key)
    ensures multiset(r) == multiset(s)
  {
    if s == [] then []
    else
      var init := s[..|s| - 1];
      assert s == init + [s[|s| - 1]];
      InsertBy(s[|s| - 1], SortBy(init, key), key)
  }

  /** Sorting keeps exactly the elements it was given. */
  lemma SortByMembers<T>(s: seq<T>, key: T -> real, x: T)
    ensures x in SortBy(s, key) <==> x in s
  {
    assert x in SortBy(s, key) <==> x in multiset(SortBy(s, key));
    assert x in s <==> x in multiset(s);
  }

  lemma {:induction false} InsertByAtEnd<T>(x: T, s: seq<T>, key: T -> real)
    requires SortedBy(s, key)
    requires forall i :: 0 <= i < |s| ==> key(s[i]) <= key(x)
    ensures InsertBy(x, s, key) == s + [x]
  {
    if s != [] {
      InsertByAtEnd(x, s[1..], key);
    }
  }

  /** A sequence that is already in key order is left exactly as it is. */
  lemma {:induction false} SortBySorted<T>(s: seq<T>, key: T -> real)
    requires SortedBy(s, key)
    ensures SortBy(s, key) == s
  {
    if s != [] {
      var init := s[..|s| - 1];
      SortBySorted(init, key);
      InsertByAtEnd(s[|s| - 1], init, key);
      assert init + [s[|s| - 1]] == s;
    }
  }

  /** Code-point lexicographic order on strings: Python's `<=` on `str`. */
  predicate LexLe(a: string, b: string)
    decreases |a|
  {
    |a| == 0 || (|b| > 0 && (a[0] < b[0] || (a[0] == b[0] && LexLe(a[1..], b[1..]))))
  }

  predicate LexLt(a: string, b: string) {
    LexLe(a, b) && a != b
  }

  lemma {:induction false} LexLeTotal(a: string, b: string)
    ensures LexLe(a, b) || LexLe(b, a)
    decreases |a|
  {
    if |a| > 0 && |b| > 0 && a[0] == b[0] {
      LexLeTotal(a[1..], b[1..]);
    }
  }

  lemma {:induction false} LexLeAntisymmetric(a: string, b: string)
    requires LexLe(a, b) && LexLe(b, a)
    ensures a == b
    decreases |a|
  {
    if |a| > 0 && |b| > 0 {
      LexLeAntisymmetric(a[1..], b[1..]);
      assert a == [a[0]] + a[1..] && b == [b[0]] + b[1..];
    }
  }

  lemma {:induction false} LexLeTransitive(a: string, b: string, c: string)
    requires LexLe(a, b) && LexLe(b, c)
    ensures LexLe(a, c)
    decreases |a|
  {
    if |a| > 0 && a[0] == b[0] && b[0] == c[0] {
      LexLeTransitive(a[1..], b[1..], c[1..]);
    }
  }

  lemma LexLtTransitive(a: string, b: string, c: string)
    requires LexLt(a, b) && LexLt(b, c)
    ensures LexLt(a, c)
  {
    LexLeTransitive(a, b, c);
    if a == c {
      LexLeAntisymmetric(a, b);
    }
  }

  predicate StrictlySorted(s: seq<string>) {
    forall i, j :: 0 <= i < j < |s| ==> LexLt(s[i], s[j])
  }

  /** Adds `x` to a strictly sorted list of distinct strings, unless it is already there. */
  function InsertDistinct(x: string, s: seq<string>): (r: seq<string>)
  {
    if s == [] then [x]
    else if x == s[0] then s
    else if LexLe(x, s[0]) then [x] + s
    else [s[0]] + InsertDistinct(x, s[1..])
  }

  lemma {:induction false} InsertDistinctSpec(x: string, s: seq<string>)
    requires StrictlySorted(s)
    ensures StrictlySorted(InsertDistinct(x, s))
    ensures forall y :: y in InsertDistinct(x, s) <==> y == x || y in s
  {
    if s == [] {
    } else if x == s[0] {
    } else if LexLe(x, s[0]) {
      forall j | 0 < j < |s| ensures LexLt(x, s[j]) {
        LexLtTransitive(x, s[0], s[j]);
      }
    } else {
      LexLeTotal(x, s[0]);
      var t := InsertDistinct(x, s[1..]);
      InsertDistinctSpec(x, s[1..]);
      forall j | 0 <= j < |t| ensures LexLt(s[0], t[j]) {
        assert t[j] in t;
        if t[j] != x {
          assert t[j] in s[1..];
          var k :| 0 <= k < |s[1..]| && s[1..][k] == t[j];
          assert s[k + 1] == t[j];
        }
      }
    }
  }

  /** `sorted(set(xs))`: the distinct strings of `xs` in increasing order. */
  function SortedDistinct(xs: seq<string>): (r: seq<string>)
  {
    if xs == [] then [] else InsertDistinct(xs[|xs| - 1], SortedDistinct(xs[..|xs| - 1]))
  }

  lemma {:induction false} SortedDistinctSpec(xs: seq<string>)
    ensures StrictlySorted(SortedDistinct(xs))
    ensures forall y :: y in SortedDistinct(xs) <==> y in xs
  {
    if xs != [] {
      var init := xs[..|xs| - 1];
      SortedDistinctSpec(init);
      InsertDistinctSpec(xs[|xs| - 1], SortedDistinct(init));
      assert xs == init + [xs[|xs| - 1]];
    }
  }

  /** Strictly sorted strings are pairwise different. */
  lemma StrictlySortedDistinct(s: seq<string>, i: int, j: int)
    requires StrictlySorted(s) && 0 <= i < |s| && 0 <= j < |s| && i != j
    ensures s[i] != s[j]
  {
    if j < i {
      assert LexLt(s[j], s[i]);
    }
  }

  /** A page (SQL `OFFSET`/`LIMIT`) of a sorted sequence is sorted. */
  lemma PageSorted<T>(s: seq<T>, key: T -> real, offset: nat, limit: nat)
    requires SortedBy(s, key)
    ensures SortedBy(Page(s, offset, limit), key)
  {
    var r := Page(s, offset, limit);
    forall i, j | 0 <= i < j < |r| ensures key(r[i]) <= key(r[j]) {
      assert r[i] == s[offset + i] && r[j] == s[offset + j];
    }
  }
}
