/**
 * String operations of Python's `str` that the scripts and the client rely on:
 * substring search (`in`), ASCII case mapping, `str(n)`, `split`/`join`,
 * `splitlines` restricted to '\n', slicing and `sorted` on strings.
 */
module Text {

  // ---------------------------------------------------------------- search

  /** `sub` occurs in `s` at index `i`. */
  predicate OccursAt(s: string, sub: string, i: nat)
  {
    i + |sub| <= |s| && s[i..i + |sub|] == sub
  }

  /** Python's `sub in s`. */
  function Contains(s: string, sub: string): (b: bool)
    ensures b <==> exists i: nat :: OccursAt(s, sub, i)
    decreases |s|
  {
    if sub <= s then
      assert OccursAt(s, sub, 0);
      true
    else if s == [] then
      false
    else
      var b := Contains(s[1..], sub);
      if b then
        var i: nat :| OccursAt(s[1..], sub, i);
        assert OccursAt(s, sub, i + 1) by { assert s[i + 1..i + 1 + |sub|] == s[1..][i..i + |sub|]; }
        true
      else
        assert forall i: nat :: OccursAt(s, sub, i) ==> i > 0 && OccursAt(s[1..], sub, i - 1) by {
          forall i: nat | OccursAt(s, sub, i)
            ensures i > 0 && OccursAt(s[1..], sub, i - 1)
          {
            assert s[1..][i - 1..i - 1 + |sub|] == s[i..i + |sub|];
          }
        }
        false
  }

  /** A string put between two others is found in the result. */
  lemma ContainsInfix(a: string, m: string, b: string)
    ensures Contains(a + m + b, m)
  {
    assert OccursAt(a + m + b, m, |a|) by { assert (a + m + b)[|a|..|a| + |m|] == m; }
  }

  /** Whatever occurs in `x` occurs in any string that has `x` inside it. */
  lemma ContainsWithin(a: string, x: string, b: string, m: string)
    requires Contains(x, m)
    ensures Contains(a + x + b, m)
  {
    var i: nat :| OccursAt(x, m, i);
    assert OccursAt(a + x + b, m, |a| + i) by {
      assert (a + x + b)[|a| + i..|a| + i + |m|] == x[i..i + |m|];
    }
  }

  /** A string that lacks one of the characters of `m` cannot contain `m`. */
  lemma MissingCharNotContains(s: string, m: string, c: char)
    requires c in m && c !in s
    ensures !Contains(s, m)
  {
  }

  /**
   * A character that `m` does not have acts as a wall: an occurrence of `m`
   * in `x + [c] + y` lies wholly in `x` or wholly in `y`.
   */
  lemma ContainsAcrossSeparator(x: string, c: char, y: string, m: string)
    requires c !in m
    requires Contains(x + [c] + y, m)
    ensures Contains(x, m) || Contains(y, m)
  {
    var s := x + [c] + y;
    var i: nat :| OccursAt(s, m, i);
    if i <= |x| < i + |m| {
      OccursAtChar(s, m, i, |x| - i);
    }
    if i + |m| <= |x| {
      assert OccursAt(x, m, i) by { assert x[i..i + |m|] == s[i..i + |m|]; }
    } else {
      assert OccursAt(y, m, i - |x| - 1) by { assert y[i - |x| - 1..i - |x| - 1 + |m|] == s[i..i + |m|]; }
    }
  }

  /** The `len` characters of `s` from `i` on include `c`. */
  predicate Walled(s: string, i: nat, len: nat, c: char)
  {
    i + len <= |s| && c in s[i..i + len]
  }

  /**
   * A string in which every stretch of `|m|` characters holds a character
   * that `m` lacks cannot contain `m`.
   */
  lemma WalledNotContains(s: string, m: string, c: char)
    requires c !in m
    requires forall i: nat :: i + |m| <= |s| ==> Walled(s, i, |m|, c)
    ensures !Contains(s, m)
  {
    forall i: nat ensures !OccursAt(s, m, i) {
      if i + |m| <= |s| {
        assert Walled(s, i, |m|, c);
      }
    }
  }

  lemma OccursAtChar(s: string, m: string, i: nat, k: nat)
    requires OccursAt(s, m, i) && k < |m|
    ensures s[i + k] == m[k]
  {
    assert s[i..i + |m|][k] == s[i + k];
  }

  // ------------------------------------------------------------ case maps

  function LowerChar(c: char): char
  {
    if 'A' <= c <= 'Z' then (c as int + 32) as char else c
  }

  function UpperChar(c: char): char
  {
    if 'a' <= c <= 'z' then (c as int - 32) as char else c
  }

  /** Python's `s.lower()`, on ASCII letters. */
  function Lower(s: string): (r: string)
    ensures |r| == |s|
    ensures forall i :: 0 <= i < |s| ==> r[i] == LowerChar(s[i])
  {
    seq(|s|, i requires 0 <= i < |s| => LowerChar(s[i]))
  }

  /** Python's `s.upper()`, on ASCII letters. */
  function Upper(s: string): (r: string)
    ensures |r| == |s|
    ensures forall i :: 0 <= i < |s| ==> r[i] == UpperChar(s[i])
  {
    seq(|s|, i requires 0 <= i < |s| => UpperChar(s[i]))
  }

  lemma LowerAppend(a: string, b: string)
    ensures Lower(a + b) == Lower(a) + Lower(b)
  {
  }

  /** A character absent from a lowered string: neither it nor its capital is in the original. */
  lemma LowerLacks(s: string, c: char)
    requires !('A' <= c <= 'Z')
    requires c !in s && UpperChar(c) !in s
    ensures c !in Lower(s)
  {
  }

  // --------------------------------------------------------------- numbers

  predicate IsDigit(c: char)
  {
    '0' <= c <= '9'
  }

  function DigitChar(d: nat): (c: char)
    requires d < 10
    ensures IsDigit(c)
  {
    ('0' as int + d) as char
  }

  /** Python's `str(n)` for a non-negative integer. */
  function NatToString(n: nat): (s: string)
    ensures 1 <= |s|
    ensures forall i :: 0 <= i < |s| ==> IsDigit(s[i])
    ensures n < 10 <==> |s| == 1
  {
    if n < 10 then [DigitChar(n)] else NatToString(n / 10) + [DigitChar(n % 10)]
  }

  /** Python's `str(i)`. */
  function IntToString(i: int): (s: string)
    ensures 1 <= |s|
  {
    if i < 0 then "-" + NatToString(-i) else NatToString(i)
  }

  /** A smaller number never has more decimal digits. */
  lemma {:induction false} NatToStringMonotone(m: nat, n: nat)
    requires m <= n
    ensures |NatToString(m)| <= |NatToString(n)|
  {
    if m >= 10 {
      NatToStringMonotone(m / 10, n / 10);
    }
  }

  /** Decimal rendering is injective: `str(a) == str(b)` only when `a == b`. */
  lemma {:induction false} NatToStringInjective(a: nat, b: nat)
    requires NatToString(a) == NatToString(b)
    ensures a == b
  {
    if a >= 10 && b >= 10 {
      var sa, sb := NatToString(a), NatToString(b);
      assert sa[..|sa| - 1] == NatToString(a / 10);
      assert sb[..|sb| - 1] == NatToString(b / 10);
      NatToStringInjective(a / 10, b / 10);
      assert DigitChar(a % 10) == sa[|sa| - 1] == sb[|sb| - 1] == DigitChar(b % 10);
    }
  }

  /**
   * Two digit strings each followed by a text starting with a non-digit:
   * equal concatenations split at the same place.
   */
  lemma DigitsThenNonDigit(a: string, s: string, b: string, t: string)
    requires forall i :: 0 <= i < |a| ==> IsDigit(a[i])
    requires forall i :: 0 <= i < |b| ==> IsDigit(b[i])
    requires |s| > 0 && !IsDigit(s[0]) && |t| > 0 && !IsDigit(t[0])
    requires a + s == b + t
    ensures a == b && s == t
  {
    assert a == (a + s)[..|a|] == (b + t)[..|b|] == b;
    assert s == (a + s)[|a|..] == (b + t)[|b|..] == t;
  }

  // -------------------------------------------------------- slicing, padding

  /** Python's `s[:n]`. */
  function Take(s: string, n: nat): (r: string)
    ensures |r| == if |s| < n then |s| else n
    ensures r <= s
  {
    if |s| <= n then s else s[..n]
  }

  function Spaces(n: nat): (r: string)
    ensures |r| == n && forall i :: 0 <= i < n ==> r[i] == ' '
  {
    seq(n, _ => ' ')
  }

  /** Python's `s.rjust(w)`. */
  function RJust(s: string, w: nat): (r: string)
    ensures |s| <= w ==> |r| == w && r[w - |s|..] == s && r[..w - |s|] == Spaces(w - |s|)
    ensures |s| > w ==> r == s
  {
    if |s| < w then Spaces(w - |s|) + s else s
  }

  // ---------------------------------------------------------- split, join

  function IndexOf<T(==)>(s: seq<T>, x: T): (i: nat)
    requires x in s
    ensures i < |s| && s[i] == x && x !in s[..i]
  {
    if s[0] == x then 0 else 1 + IndexOf(s[1..], x)
  }

  /** Python's `sep.join(parts)`. */
  function Join(sep: string, parts: seq<string>): string
  {
    if parts == [] then ""
    else if |parts| == 1 then parts[0]
    else parts[0] + sep + Join(sep, parts[1..])
  }

  /** Python's `s.split(c)` for a one-character separator. */
  function Split(s: string, c: char): (parts: seq<string>)
    ensures |parts| >= 1
    ensures forall i :: 0 <= i < |parts| ==> c !in parts[i]
    decreases |s|
  {
    if c !in s then [s]
    else
      var i := IndexOf(s, c);
      [s[..i]] + Split(s[i + 1..], c)
  }

  /** Splitting undoes joining on a separator that no part contains. */
  lemma {:induction false} SplitJoin(parts: seq<string>, c: char)
    requires |parts| >= 1
    requires forall i :: 0 <= i < |parts| ==> c !in parts[i]
    ensures Split(Join([c], parts), c) == parts
  {
    if |parts| > 1 {
      var s := Join([c], parts);
      assert s == parts[0] + [c] + Join([c], parts[1..]);
      assert c in s by { assert s[|parts[0]|] == c; }
      assert IndexOf(s, c) == |parts[0]| by {
        var k := IndexOf(s, c);
      }
      assert s[..|parts[0]|] == parts[0];
      assert s[|parts[0]| + 1..] == Join([c], parts[1..]);
      SplitJoin(parts[1..], c);
    } else {
      assert Join([c], parts) == parts[0];
    }
  }

  /** Joining undoes splitting. */
  lemma {:induction false} JoinSplit(s: string, c: char)
    ensures Join([c], Split(s, c)) == s
    decreases |s|
  {
    if c in s {
      var i := IndexOf(s, c);
      var rest := Split(s[i + 1..], c);
      JoinSplit(s[i + 1..], c);
      JoinCons(s[..i], rest, c);
      assert Split(s, c) == [s[..i]] + rest;
      assert s == s[..i] + [c] + s[i + 1..];
    }
  }

  lemma JoinCons(a: string, rest: seq<string>, c: char)
    requires rest != []
    ensures Join([c], [a] + rest) == a + [c] + Join([c], rest)
  {
    assert ([a] + rest)[1..] == rest;
  }

  lemma TakeSnoc<T>(s: seq<T>, i: nat)
    requires i < |s|
    ensures s[..i + 1] == s[..i] + [s[i]]
  {
  }

  lemma ConcatTakeSnoc<T>(a: seq<T>, b: seq<T>, j: nat)
    requires j < |b|
    ensures a + b[..j + 1] == (a + b[..j]) + [b[j]]
  {
  }

  /** The last `n` elements of `s`, or all of them when there are fewer (`s[-n:]`). */
  function Last<T>(s: seq<T>, n: nat): (r: seq<T>)
    ensures |r| == if |s| < n then |s| else n
    ensures s == s[..|s| - |r|] + r
  {
    if |s| < n then s else s[|s| - n..]
  }

  /** Python's `s.splitlines()` when '\n' is the only line break. */
  function SplitLines(s: string): (lines: seq<string>)
    ensures forall i :: 0 <= i < |lines| ==> '\n' !in lines[i]
  {
    if s == [] then []
    else
      var parts := Split(s, '\n');
      if s[|s| - 1] == '\n' then parts[..|parts| - 1] else parts
  }

  // ------------------------------------------------------------- ordering

  /** Python's `a < b` on strings: lexicographic by code point. */
  predicate LexLess(a: string, b: string)
    decreases |a|
  {
    if a == [] then b != []
    else if b == [] then false
    else if a[0] != b[0] then a[0] < b[0]
    else LexLess(a[1..], b[1..])
  }

  predicate LexLeq(a: string, b: string)
  {
    a == b || LexLess(a, b)
  }

  lemma {:induction false} LexLessIrreflexive(a: string)
    ensures !LexLess(a, a)
    decreases |a|
  {
    if a != [] { LexLessIrreflexive(a[1..]); }
  }

  lemma {:induction false} LexLessTotal(a: string, b: string)
    ensures a == b || LexLess(a, b) || LexLess(b, a)
    decreases |a|
  {
    if a != [] && b != [] && a[0] == b[0] {
      LexLessTotal(a[1..], b[1..]);
      if a[1..] == b[1..] { assert a == [a[0]] + a[1..]; assert b == [b[0]] + b[1..]; }
    }
  }

  lemma {:induction false} LexLessTransitive(a: string, b: string, c: string)
    requires LexLess(a, b) && LexLess(b, c)
    ensures LexLess(a, c)
    decreases |a|
  {
    if a != [] && a[0] == b[0] && b[0] == c[0] {
      LexLessTransitive(a[1..], b[1..], c[1..]);
    }
  }

  lemma {:induction false} LexLessAsymmetric(a: string, b: string)
    requires LexLess(a, b)
    ensures !LexLess(b, a)
    decreases |a|
  {
    if a != [] && b != [] && a[0] == b[0] {
      LexLessAsymmetric(a[1..], b[1..]);
    }
  }

  ghost predicate Sorted(s: seq<string>)
  {
    forall i, j :: 0 <= i < j < |s| ==> LexLeq(s[i], s[j])
  }

  /** Inserts `x` before the first element greater than it. */
  function Insert(x: string, s: seq<string>): (r: seq<string>)
    ensures multiset(r) == multiset(s) + multiset{x}
    ensures |r| == |s| + 1
  {
    if s == [] || LexLeq(x, s[0]) then [x] + s
    else
      assert s == [s[0]] + s[1..];
      [s[0]] + Insert(x, s[1..])
  }

  /** Python's `sorted(names)`. */
  function Sort(s: seq<string>): (r: seq<string>)
    ensures multiset(r) == multiset(s)
    ensures |r| == |s|
  {
    if s == [] then []
    else
      assert s == [s[0]] + s[1..];
      Insert(s[0], Sort(s[1..]))
  }

  lemma {:induction false} InsertSorted(x: string, s: seq<string>)
    requires Sorted(s)
    ensures Sorted(Insert(x, s))
  {
    if s == [] || LexLeq(x, s[0]) {
      var r := [x] + s;
      forall i, j | 0 <= i < j < |r| ensures LexLeq(r[i], r[j]) {
        if i == 0 && j > 1 && x != s[0] && s[0] != s[j - 1] {
          LexLessTransitive(x, s[0], s[j - 1]);
        }
      }
    } else {
      LexLessTotal(x, s[0]);
      InsertSorted(x, s[1..]);
      var t := Insert(x, s[1..]);
      var r := [s[0]] + t;
      forall i, j | 0 <= i < j < |r| ensures LexLeq(r[i], r[j]) {
        if i == 0 {
          assert r[j] in multiset(t);
          assert r[j] == x || r[j] in s[1..];
          if r[j] != x {
            var k :| 0 <= k < |s[1..]| && s[1..][k] == r[j];
            assert s[k + 1] == r[j];
          }
        }
      }
    }
  }

  /** What `sorted` returns is in non-decreasing order. */
  lemma {:induction false} SortSorted(s: seq<string>)
    ensures Sorted(Sort(s))
  {
    if s != [] {
      SortSorted(s[1..]);
      InsertSorted(s[0], Sort(s[1..]));
    }
  }

  /** In a sorted sequence, everything before a cut sorts at or before everything after it. */
  lemma SortedCut(s: seq<string>, n: nat)
    requires Sorted(s) && n <= |s|
    ensures forall d, k :: d in s[..n] && k in s[n..] ==> LexLeq(d, k)
  {
    forall d, k | d in s[..n] && k in s[n..] ensures LexLeq(d, k) {
      var i :| 0 <= i < n && s[..n][i] == d;
      var j :| 0 <= j < |s| - n && s[n..][j] == k;
      assert s[i] == d && s[n + j] == k;
    }
  }

  /** In a sorted sequence, an element greater than every other element sits at the end. */
  lemma SortedGreatestLast(s: seq<string>, x: string)
    requires Sorted(s) && x in s
    requires forall y :: y in s && y != x ==> LexLess(y, x)
    ensures s[|s| - 1] == x
  {
    var i :| 0 <= i < |s| && s[i] == x;
    var last := s[|s| - 1];
    if last != x {
      assert last in s;
      assert LexLess(last, x);
      assert i < |s| - 1;
      assert LexLeq(s[i], last);
      LexLessAsymmetric(last, x);
    }
  }

  // ------------------------------------------------------------- repeats

  ghost predicate NoDuplicates(s: seq<string>)
  {
    forall i, j :: 0 <= i < j < |s| ==> s[i] != s[j]
  }

  /** A sequence without repeats has as many distinct elements as entries. */
  lemma {:induction false} DistinctCount(s: seq<string>)
    requires NoDuplicates(s)
    ensures |set f | f in s| == |s|
    decreases |s|
  {
    if s != [] {
      var init, last := s[..|s| - 1], s[|s| - 1];
      assert NoDuplicates(init);
      DistinctCount(init);
      assert last !in init;
      assert (set f | f in s) == (set f | f in init) + {last} by {
        assert s == init + [last];
      }
    }
  }

  /** A sequence without repeats holds each value at most once. */
  lemma {:induction false} NoDuplicatesCount(s: seq<string>, x: string)
    requires NoDuplicates(s)
    ensures multiset(s)[x] <= 1
    decreases |s|
  {
    if s != [] {
      var init, last := s[..|s| - 1], s[|s| - 1];
      assert s == init + [last];
      assert NoDuplicates(init);
      NoDuplicatesCount(init, x);
      assert last !in init;
    }
  }

  /** A permutation of a sequence without repeats has none either. */
  lemma NoDuplicatesPermutation(a: seq<string>, b: seq<string>)
    requires NoDuplicates(a) && multiset(a) == multiset(b)
    ensures NoDuplicates(b)
  {
    forall i, j | 0 <= i < j < |b| ensures b[i] != b[j] {
      NoDuplicatesCount(a, b[i]);
      assert b == b[..i] + [b[i]] + b[i + 1..j] + [b[j]] + b[j + 1..];
    }
  }

  /** The elements of `s` that sort after `x`. */
  function Greater(s: seq<string>, x: string): (r: set<string>)
    ensures forall g :: g in r <==> g in s && LexLess(x, g)
  {
    set g | g in s && LexLess(x, g)
  }

  /**
   * In a sorted sequence without repeats, the elements greater than the
   * `i`-th are exactly those after it, so there are `|s| - i - 1` of them.
   */
  lemma GreaterAreAfter(s: seq<string>, i: nat)
    requires Sorted(s) && NoDuplicates(s) && i < |s|
    ensures |Greater(s, s[i])| == |s| - i - 1
  {
    var after := s[i + 1..];
    forall g | g in after ensures g in s && LexLess(s[i], g) {
      var m :| 0 <= m < |after| && after[m] == g;
      assert s[i + 1 + m] == g;
    }
    forall g | g in s && LexLess(s[i], g) ensures g in after {
      var m :| 0 <= m < |s| && s[m] == g;
      if m == i {
        LexLessIrreflexive(g);
      } else if m < i {
        assert LexLeq(s[m], s[i]);
        LexLessAsymmetric(s[i], g);
      } else {
        assert after[m - i - 1] == g;
      }
    }
    assert Greater(s, s[i]) == set g | g in after;
    assert NoDuplicates(after);
    DistinctCount(after);
  }

  /**
   * In a sorted sequence without repeats, the last `n` elements are those
   * with fewer than `n` elements greater than them.
   */
  lemma LastAreGreatest(s: seq<string>, n: nat, x: string)
    requires Sorted(s) && NoDuplicates(s)
    ensures x in Last(s, n) <==> x in s && |Greater(s, x)| < n
  {
    var k := |s| - |Last(s, n)|;
    assert Last(s, n) == s[k..];
    if x in s {
      var i :| 0 <= i < |s| && s[i] == x;
      GreaterAreAfter(s, i);
      InSuffix(s, k, i);
    }
  }

  /** Without repeats, the `i`-th element is in the suffix from `k` exactly when `k <= i`. */
  lemma InSuffix(s: seq<string>, k: nat, i: nat)
    requires NoDuplicates(s) && k <= |s| && i < |s|
    ensures s[i] in s[k..] <==> k <= i
  {
    if s[i] in s[k..] {
      var m :| 0 <= m < |s| - k && s[k..][m] == s[i];
      assert s[k + m] == s[i];
    }
  }
}
