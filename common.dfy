/** Small value-level building blocks shared by the frontend and both backends:
    an Option type, order-preserving filtering and counting over sequences, the
    LIMIT/OFFSET window a SQL query returns, string prefix/suffix/substring tests,
    decimal rendering of small numbers and integer ceiling division. */
module Common {

  datatype Option<+T> = None | Some(value: T)

  // ---------------------------------------------------------------------------
  // Sequences
  // ---------------------------------------------------------------------------

  /** `r` is `s` with some elements left out, the rest in their order. */
  ghost predicate IsSubsequence<T>(r: seq<T>, s: seq<T>)
    decreases |s|
  {
    if r == [] then true
    else if s == [] then false
    else if r[0] == s[0] then IsSubsequence(r[1..], s[1..])
    else IsSubsequence(r, s[1..])
  }

  /** No element occurs twice. */
  ghost predicate Distinct<T>(s: seq<T>)
  {
    forall i, j | 0 <= i < j < |s| :: s[i] != s[j]
  }

  /** The elements of `s` that satisfy `p`, in their original order
      (JavaScript `Array.prototype.filter`, a SQL WHERE over an unordered scan). */
  function Filter<T>(s: seq<T>, p: T -> bool): (r: seq<T>)
    ensures |r| <= |s|
    ensures forall i :: 0 <= i < |r| ==> r[i] in s && p(r[i])
    ensures forall i :: 0 <= i < |s| && p(s[i]) ==> s[i] in r
    ensures IsSubsequence(r, s)
    ensures Distinct(s) ==> Distinct(r)
  {
    if s == [] then []
    else if p(s[0]) then
      var rest := Filter(s[1..], p);
      assert ([s[0]] + rest)[1..] == rest;
      assert Distinct(s) ==> s[0] !in s[1..];
      [s[0]] + rest
    else Filter(s[1..], p)
  }

  /** Number of elements of `s` that satisfy `p` (SQL `COUNT(*)` over a WHERE). */
  function Count<T>(s: seq<T>, p: T -> bool): nat
  {
    if s == [] then 0
    else (if p(s[0]) then 1 else 0) + Count(s[1..], p)
  }

  /** Filtering keeps exactly as many elements as the counting definition says. */
  lemma {:induction false} FilterLength<T>(s: seq<T>, p: T -> bool)
    ensures |Filter(s, p)| == Count(s, p)
  {
    if s != [] {
      FilterLength(s[1..], p);
    }
  }

  /** Filtering distributes over concatenation: relative order is kept. */
  lemma {:induction false} FilterAppend<T>(a: seq<T>, b: seq<T>, p: T -> bool)
    ensures Filter(a + b, p) == Filter(a, p) + Filter(b, p)
  {
    if a == [] {
      assert a + b == b;
    } else {
      assert (a + b)[0] == a[0];
      assert (a + b)[1..] == a[1..] + b;
      FilterAppend(a[1..], b, p);
    }
  }

  /** A sequence whose every element passes is left as it is. */
  lemma {:induction false} FilterKeepsAllPassing<T>(s: seq<T>, p: T -> bool)
    requires forall i :: 0 <= i < |s| ==> p(s[i])
    ensures Filter(s, p) == s
  {
    if s != [] {
      FilterKeepsAllPassing(s[1..], p);
    }
  }

  /** Filtering twice with the same predicate is filtering once. */
  lemma FilterIdempotent<T>(s: seq<T>, p: T -> bool)
    ensures Filter(Filter(s, p), p) == Filter(s, p)
  {
    FilterKeepsAllPassing(Filter(s, p), p);
  }

  /** Two predicates that agree on every element select the same subsequence. */
  lemma {:induction false} FilterCongruent<T>(s: seq<T>, p: T -> bool, q: T -> bool)
    requires forall i :: 0 <= i < |s| ==> p(s[i]) == q(s[i])
    ensures Filter(s, p) == Filter(s, q)
  {
    if s != [] {
      FilterCongruent(s[1..], p, q);
    }
  }

  /** The first position a LIMIT/OFFSET query returns: SQLite treats a negative
      OFFSET as zero. */
  function StartOf(offset: int): nat
  {
    if offset < 0 then 0 else offset
  }

  /** The rows `LIMIT limit OFFSET offset` returns from `s`, for a positive limit. */
  function Window<T>(s: seq<T>, offset: int, limit: int): (r: seq<T>)
    requires limit > 0
    ensures StartOf(offset) >= |s| ==> r == []
    ensures StartOf(offset) < |s| ==>
      |r| == (if |s| - StartOf(offset) < limit then |s| - StartOf(offset) else limit)
    ensures forall i :: 0 <= i < |r| ==> StartOf(offset) + i < |s| && r[i] == s[StartOf(offset) + i]
  {
    var start := StartOf(offset);
    if start >= |s| then []
    else if start + limit <= |s| then s[start..start + limit]
    else s[start..]
  }

  // ---------------------------------------------------------------------------
  // Strings
  // ---------------------------------------------------------------------------

  /** `s.startswith(p)` in Python, `s.startsWith(p)` in JavaScript. */
  predicate IsPrefix(p: string, s: string)
  {
    |p| <= |s| && s[..|p|] == p
  }

  /** `s.endswith(p)` in Python. */
  predicate IsSuffix(p: string, s: string)
  {
    |p| <= |s| && s[|s| - |p|..] == p
  }

  /** `t` occurs in `s` starting at position `i`. */
  predicate OccursAt(s: string, t: string, i: int)
  {
    0 <= i && i + |t| <= |s| && s[i..i + |t|] == t
  }

  /** `t` is a substring of `s`: the model of SQL `s LIKE '%t%'`. */
  predicate Contains(s: string, t: string)
  {
    exists i | 0 <= i <= |s| :: OccursAt(s, t, i)
  }

  predicate IsAsciiDigit(c: char)
  {
    '0' <= c <= '9'
  }

  function DigitChar(n: nat): (c: char)
    requires n < 10
    ensures IsAsciiDigit(c)
  {
    ('0' as int + n) as char
  }

  function DigitValue(c: char): (n: nat)
    requires IsAsciiDigit(c)
    ensures n < 10 && DigitChar(n) == c
  {
    (c as int - '0' as int) as nat
  }

  /** The decimal rendering of `n` without leading zeros, as Python's `str(int)`
      and an f-string placeholder produce it. */
  function DecimalString(n: nat): (r: string)
    ensures |r| >= 1
    ensures forall i :: 0 <= i < |r| ==> IsAsciiDigit(r[i])
    ensures r[0] == '0' <==> n == 0
  {
    if n < 10 then [DigitChar(n)] else DecimalString(n / 10) + [DigitChar(n % 10)]
  }

  /** The number a string of decimal digits denotes. */
  function DecimalValue(s: string): nat
    requires forall i :: 0 <= i < |s| ==> IsAsciiDigit(s[i])
  {
    if s == [] then 0 else 10 * DecimalValue(s[..|s| - 1]) + DigitValue(s[|s| - 1])
  }

  /** Reading the rendering of `n` back gives `n`. */
  lemma {:induction false} DecimalRoundTrip(n: nat)
    ensures DecimalValue(DecimalString(n)) == n
  {
    var r := DecimalString(n);
    if n >= 10 {
      DecimalRoundTrip(n / 10);
      assert r[..|r| - 1] == DecimalString(n / 10);
    }
  }

  // ---------------------------------------------------------------------------
  // Integer ceiling division
  // ---------------------------------------------------------------------------

  /** `q` is the ceiling of `n / d`: the number of pages of size `d` that `n`
      rows fill. */
  predicate IsCeilingQuotient(q: int, n: int, d: int)
  {
    q * d >= n && (q - 1) * d < n
  }

  /** A product of two non-negative numbers is non-negative. */
  lemma {:induction false} ProductNonNegative(a: nat, b: nat)
    ensures a * b >= 0
  {
    if a > 0 {
      ProductNonNegative(a - 1, b);
      assert a * b == (a - 1) * b + b;
    }
  }

  /** With a positive factor `d`, `k * d` is positive only for positive `k`. */
  lemma PositiveFactor(k: int, d: int)
    requires d > 0
    ensures k * d > 0 ==> k > 0
  {
    if k <= 0 {
      ProductNonNegative(-k, d);
      assert k * d == -((-k) * d);
    }
  }

  /** A row count that fits in `q1` pages cannot need more than `q1` pages. */
  lemma CeilingQuotientBelow(q1: int, q2: int, n: int, d: int)
    requires d > 0 && q1 * d >= n && (q2 - 1) * d < n
    ensures q2 <= q1
  {
    var k := q1 - (q2 - 1);
    assert k * d == q1 * d - (q2 - 1) * d;
    PositiveFactor(k, d);
  }

  /** For a positive page size there is only one such page count. */
  lemma CeilingQuotientUnique(q1: int, q2: int, n: int, d: int)
    requires d > 0
    requires IsCeilingQuotient(q1, n, d) && IsCeilingQuotient(q2, n, d)
    ensures q1 == q2
  {
    CeilingQuotientBelow(q1, q2, n, d);
    CeilingQuotientBelow(q2, q1, n, d);
  }

  /** The ceiling of `n / d` is zero exactly when there are no rows. */
  lemma CeilingQuotientZero(q: int, n: nat, d: int)
    requires d > 0 && IsCeilingQuotient(q, n, d)
    ensures q == 0 <==> n == 0
    ensures q >= 0
  {
    assert (q - 1) * d == q * d - d;
  }
}
