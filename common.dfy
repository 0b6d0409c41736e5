/**
 * Shared vocabulary of the model: optional values, time units, sequence
 * helpers (filter, count, page, first index, projection) and the handful of
 * string operations (strip, substring search, prefix test, join, decimal
 * rendering) that the app and its backend services use.
 */
module Common {

  datatype Option<T> = None | Some(value: T)

  /** The value held, or `default` when there is none (`x if x is not None else default`). */
  function Or<T>(o: Option<T>, default: T): T {
    if o.Some? then o.value else default
  }

  /** `timedelta(hours=h)` and `timedelta(days=d)` in microseconds, the unit of every time in the model. */
  function Hours(h: int): int {
    h * 3_600_000_000
  }

  function Days(d: int): int {
    d * 86_400_000_000
  }

  /** The number of the day a datetime falls on. */
  function DayOf(t: int): int {
    t / 86_400_000_000
  }

  /** Python truthiness of an optional string: present and non-empty. */
  predicate Truthy(s: Option<string>) {
    s.Some? && s.value != ""
  }

  /** The two languages whose trimming rules the model needs. */
  datatype Language = Kotlin | Python

  /**
   * The characters trimming removes. Kotlin's `trim()` removes `Char.isWhitespace`
   * characters: the controls tab to carriage return and U+001C to U+001F, and
   * every Unicode space, line or paragraph separator (no-break spaces
   * included). Python's `str.strip()` removes `str.isspace` characters: the
   * same set plus NEXT LINE, U+0085.
   */
  predicate IsSpace(lang: Language, c: char) {
    ('\t' <= c <= '\r') || ('\U{1C}' <= c <= ' ') ||
    c == '\U{A0}' || c == '\U{1680}' || ('\U{2000}' <= c <= '\U{200A}') ||
    c == '\U{2028}' || c == '\U{2029}' || c == '\U{202F}' || c == '\U{205F}' || c == '\U{3000}' ||
    (lang == Python && c == '\U{85}')
  }

  predicate IsBlank(lang: Language, s: string) {
    forall i :: 0 <= i < |s| ==> IsSpace(lang, s[i])
  }

  function TrimStart(lang: Language, s: string): (r: string)
    ensures |r| <= |s| && r == s[|s| - |r|..]
    ensures r == [] || !IsSpace(lang, r[0])
    ensures forall i :: 0 <= i < |s| - |r| ==> IsSpace(lang, s[i])
  {
    if |s| > 0 && IsSpace(lang, s[0]) then TrimStart(lang, s[1..]) else s
  }

  function TrimEnd(lang: Language, s: string): (r: string)
    ensures |r| <= |s| && r == s[..|r|]
    ensures r == [] || !IsSpace(lang, r[|r| - 1])
    ensures forall i :: |r| <= i < |s| ==> IsSpace(lang, s[i])
  {
    if |s| > 0 && IsSpace(lang, s[|s| - 1]) then TrimEnd(lang, s[..|s| - 1]) else s
  }

  /** `String.trim()` for Kotlin, `str.strip()` for Python: `s` without white space at either end. */
  function Strip(lang: Language, s: string): (r: string)
    ensures |r| <= |s|
    ensures r == [] || (!IsSpace(lang, r[0]) && !IsSpace(lang, r[|r| - 1]))
  {
    TrimEnd(lang, TrimStart(lang, s))
  }

  /** A string strips to nothing exactly when all its characters are white space. */
  lemma StripEmptyIffBlank(lang: Language, s: string)
    ensures Strip(lang, s) == [] <==> IsBlank(lang, s)
  {
    var t := TrimStart(lang, s);
    if t != [] {
      var d := |s| - |t|;
      assert s[d] == t[0] && !IsSpace(lang, s[d]);
      assert TrimEnd(lang, t) != [];
    }
  }

  /**
   * The two rules differ only on NEXT LINE: both remove a no-break space, and
   * only Python removes U+0085.
   */
  lemma TrimRulesDiffer()
    ensures Strip(Kotlin, "\U{A0}") == "" && Strip(Python, "\U{A0}") == ""
    ensures Strip(Python, "\U{85}") == "" && Strip(Kotlin, "\U{85}") == "\U{85}"
    ensures forall c :: IsSpace(Kotlin, c) ==> IsSpace(Python, c)
  {
    StripEmptyIffBlank(Kotlin, "\U{A0}");
    StripEmptyIffBlank(Python, "\U{A0}");
    StripEmptyIffBlank(Python, "\U{85}");
  }

  /** `p` is a prefix of `s` (`startsWith`). */
  predicate StartsWith(s: string, p: string) {
    |p| <= |s| && s[..|p|] == p
  }

  /** `sub in s` in Python, `s.contains(sub)` in Kotlin. */
  predicate Contains(s: string, sub: string)
    decreases |s|
  {
    StartsWith(s, sub) || (|s| > 0 && Contains(s[1..], sub))
  }

  /** `sub` occurs in `s` starting at position `i`. */
  predicate OccursAt(s: string, sub: string, i: int) {
    0 <= i && i + |sub| <= |s| && s[i..i + |sub|] == sub
  }

  /** Substring containment, stated with an explicit position. */
  lemma {:induction false} ContainsIffOccurs(s: string, sub: string)
    ensures Contains(s, sub) <==> exists i :: OccursAt(s, sub, i)
    decreases |s|
  {
    if StartsWith(s, sub) {
      assert OccursAt(s, sub, 0);
    } else if |s| > 0 {
      ContainsIffOccurs(s[1..], sub);
      if Contains(s[1..], sub) {
        var i :| OccursAt(s[1..], sub, i);
        assert s[i + 1..i + 1 + |sub|] == s[1..][i..i + |sub|];
        assert OccursAt(s, sub, i + 1);
      }
      if exists i :: OccursAt(s, sub, i) {
        var i :| OccursAt(s, sub, i);
        assert i > 0;
        assert s[1..][i - 1..i - 1 + |sub|] == s[i..i + |sub|];
        assert OccursAt(s[1..], sub, i - 1);
      }
    }
  }

  /** An occurrence at a known position proves containment. */
  lemma ContainsAt(s: string, sub: string, i: int)
    requires OccursAt(s, sub, i)
    ensures Contains(s, sub)
  {
    ContainsIffOccurs(s, sub);
  }

  /** Containment is transitive: a string containing `t` contains everything `t` contains. */
  lemma ContainsTransitive(s: string, t: string, u: string)
    requires Contains(s, t) && Contains(t, u)
    ensures Contains(s, u)
  {
    ContainsIffOccurs(s, t);
    ContainsIffOccurs(t, u);
    var i :| OccursAt(s, t, i);
    var j :| OccursAt(t, u, j);
    assert t == s[i..i + |t|];
    assert u == t[j..j + |u|];
    assert forall k :: 0 <= k < |u| ==> u[k] == t[j + k] == s[i + j + k];
    assert u == s[i + j..i + j + |u|];
    ContainsAt(s, u, i + j);
  }

  /** Any string contains itself, and therefore contains the empty string. */
  lemma ContainsSelf(s: string)
    ensures Contains(s, s) && Contains(s, "")
  {
    assert s[..|s|] == s;
    assert s[..0] == "";
  }

  /** `sep.join(parts)`. */
  function Join(parts: seq<string>, sep: string): (r: string)
    ensures |parts| == 1 ==> r == parts[0]
  {
    if |parts| == 0 then ""
    else if |parts| == 1 then parts[0]
    else parts[0] + sep + Join(parts[1..], sep)
  }

  function DigitChar(d: nat): (c: char)
    requires d < 10
  {
    ['0', '1', '2', '3', '4', '5', '6', '7', '8', '9'][d]
  }

  /** Decimal rendering of a natural number (Kotlin string templates, Python f-strings). */
  function NatToString(n: nat): (r: string)
    ensures |r| >= 1
    ensures n >= 10 ==> |r| >= 2
    ensures r[|r| - 1] == DigitChar(n % 10)
  {
    if n < 10 then [DigitChar(n)] else NatToString(n / 10) + [DigitChar(n % 10)]
  }

  lemma DigitCharInjective(a: nat, b: nat)
    requires a < 10 && b < 10 && DigitChar(a) == DigitChar(b)
    ensures a == b
  {
  }

  /** Different numbers render differently. */
  lemma {:induction false} NatToStringInjective(a: nat, b: nat)
    requires NatToString(a) == NatToString(b)
    ensures a == b
  {
    var sa, sb := NatToString(a), NatToString(b);
    DigitCharInjective(a % 10, b % 10);
    if a >= 10 && b >= 10 {
      assert NatToString(a / 10) == sa[..|sa| - 1] == sb[..|sb| - 1] == NatToString(b / 10);
      NatToStringInjective(a / 10, b / 10);
    }
  }

  /** ASCII upper-case letters mapped to lower case; every other character unchanged. */
  function LowerAscii(s: string): (r: string)
    ensures |r| == |s|
    ensures forall i :: 0 <= i < |s| ==> (r[i] == if 'A' <= s[i] <= 'Z' then s[i] - 'A' + 'a' else s[i])
  {
    if s == [] then []
    else [if 'A' <= s[0] <= 'Z' then s[0] - 'A' + 'a' else s[0]] + LowerAscii(s[1..])
  }

  /** `Math.round` / `roundToInt`: the nearest integer, halves rounded up (`floor(x + 0.5)`). */
  function RoundHalfUp(x: real): (r: int)
    ensures x - 0.5 < r as real <= x + 0.5
  {
    (x + 0.5).Floor
  }

  /** Rounding preserves order. */
  lemma RoundHalfUpMonotone(x: real, y: real)
    requires x <= y
    ensures RoundHalfUp(x) <= RoundHalfUp(y)
  {
  }

  /** The elements of `s` that satisfy `p`, in their original order (a list comprehension with a guard). */
  function Filter<T>(s: seq<T>, p: T -> bool): (r: seq<T>)
    ensures |r| <= |s|
    ensures forall i :: 0 <= i < |r| ==> r[i] in s && p(r[i])
    ensures forall i :: 0 <= i < |s| && p(s[i]) ==> s[i] in r
  {
    if s == [] then []
    else (if p(s[0]) then [s[0]] else []) + Filter(s[1..], p)
  }

  /** The first position of an element of `s` that satisfies `p`, or -1 when none does. */
  function IndexWhere<T>(s: seq<T>, p: T -> bool): (i: int)
    ensures -1 <= i < |s|
    ensures i >= 0 ==> p(s[i]) && forall k :: 0 <= k < i ==> !p(s[k])
    ensures i == -1 <==> forall k :: 0 <= k < |s| ==> !p(s[k])
  {
    if s == [] then -1
    else if p(s[0]) then 0
    else var j := IndexWhere(s[1..], p); if j == -1 then -1 else j + 1
  }

  /** `f` applied to every element of `s`, in order (`[f(x) for x in s]`). */
  function Project<T, U>(s: seq<T>, f: T -> U): (r: seq<U>)
    ensures |r| == |s| && forall k :: 0 <= k < |s| ==> r[k] == f(s[k])
  {
    if s == [] then [] else [f(s[0])] + Project(s[1..], f)
  }

  /** How many elements of `s` satisfy `p` (`len([x for x in s if p(x)])`). */
  function Count<T>(s: seq<T>, p: T -> bool): (n: nat)
    ensures n <= |s|
    ensures n == 0 <==> forall i :: 0 <= i < |s| ==> !p(s[i])
  {
    if s == [] then 0
    else (if p(s[0]) then 1 else 0) + Count(s[1..], p)
  }

  lemma {:induction false} FilterLength<T>(s: seq<T>, p: T -> bool)
    ensures |Filter(s, p)| == Count(s, p)
  {
    if s != [] {
      FilterLength(s[1..], p);
    }
  }

  lemma {:induction false} FilterAppend<T>(a: seq<T>, b: seq<T>, p: T -> bool)
    ensures Filter(a + b, p) == Filter(a, p) + Filter(b, p)
  {
    if a != [] {
      assert (a + b)[1..] == a[1..] + b;
      FilterAppend(a[1..], b, p);
    } else {
      assert a + b == b;
    }
  }

  lemma {:induction false} CountAppend<T>(a: seq<T>, b: seq<T>, p: T -> bool)
    ensures Count(a + b, p) == Count(a, p) + Count(b, p)
  {
    if a != [] {
      assert (a + b)[1..] == a[1..] + b;
      CountAppend(a[1..], b, p);
    } else {
      assert a + b == b;
    }
  }

  /** Every element satisfies exactly one of `p` and its negation `q`. */
  lemma {:induction false} CountComplement<T>(s: seq<T>, p: T -> bool, q: T -> bool)
    requires forall x :: q(x) == !p(x)
    ensures Count(s, p) + Count(s, q) == |s|
  {
    if s != [] {
      CountComplement(s[1..], p, q);
    }
  }

  /** The page `s[offset : offset + limit]` that SQL `OFFSET`/`LIMIT` selects. */
  function Page<T>(s: seq<T>, offset: nat, limit: nat): (r: seq<T>)
    ensures |r| <= limit
    ensures offset >= |s| ==> r == []
    ensures offset + limit <= |s| ==> |r| == limit
    ensures forall i :: 0 <= i < |r| ==> offset + i < |s| && r[i] == s[offset + i]
  {
    var lo := if offset <= |s| then offset else |s|;
    var hi := if offset + limit <= |s| then offset + limit else |s|;
    s[lo..hi]
  }
}
