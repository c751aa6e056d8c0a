/**
 * String primitives the catalog relies on: JavaScript's default string order
 * (used by `Array.prototype.sort`), sorting a set of strings, ASCII lower-casing,
 * substring search and the base-36 rendering of `Number.prototype.toString(36)`.
 */
module Text {

  /** `a < b` on strings: lexicographic by character code, a proper prefix first. */
  predicate Less(a: string, b: string) {
    if |a| == 0 then |b| > 0
    else if |b| == 0 then false
    else if a[0] != b[0] then a[0] < b[0]
    else Less(a[1..], b[1..])
  }

  lemma {:induction false} LessIrreflexive(a: string)
    ensures !Less(a, a)
  {
    if |a| > 0 {
      LessIrreflexive(a[1..]);
    }
  }

  lemma {:induction false} LessTransitive(a: string, b: string, c: string)
    requires Less(a, b) && Less(b, c)
    ensures Less(a, c)
  {
    if |a| > 0 && a[0] == b[0] && b[0] == c[0] {
      LessTransitive(a[1..], b[1..], c[1..]);
    }
  }

  /** Any two distinct strings are ordered one way or the other. */
  lemma {:induction false} LessTotal(a: string, b: string)
    requires a != b
    ensures Less(a, b) || Less(b, a)
  {
    if |a| > 0 && |b| > 0 && a[0] == b[0] {
      assert a == [a[0]] + a[1..] && b == [b[0]] + b[1..];
      LessTotal(a[1..], b[1..]);
    }
  }

  lemma {:induction false} LessAsymmetric(a: string, b: string)
    requires Less(a, b)
    ensures !Less(b, a)
  {
    if Less(b, a) {
      LessTransitive(a, b, a);
      LessIrreflexive(a);
    }
  }

  /** Strictly ascending: sorted and free of duplicates. */
  predicate StrictlySorted(s: seq<string>) {
    forall i, j :: 0 <= i < j < |s| ==> Less(s[i], s[j])
  }

  /** `x` added to the strictly ascending `s`, at its place, unless already there. */
  function Insert(x: string, s: seq<string>): (r: seq<string>)
    requires StrictlySorted(s)
    ensures StrictlySorted(r)
    ensures forall y :: y in r <==> y == x || y in s
  {
    if s == [] then [x]
    else if x == s[0] then s
    else if Less(x, s[0]) then
      forall j | 0 < j < |s| ensures Less(x, s[j]) {
        LessTransitive(x, s[0], s[j]);
      }
      [x] + s
    else
      LessTotal(x, s[0]);
      var t := Insert(x, s[1..]);
      assert forall y :: y in t ==> Less(s[0], y) by {
        forall y | y in t ensures Less(s[0], y) {
          if y != x {
            var j :| 0 <= j < |s[1..]| && s[1..][j] == y;
            assert s[j + 1] == y;
          }
        }
      }
      assert forall y :: y in s <==> y == s[0] || y in s[1..] by {
        assert s == [s[0]] + s[1..];
      }
      [s[0]] + t
  }

  /** `Array.from(new Set(s)).sort()`: the distinct elements of `s` in ascending order. */
  function SortDistinct(s: seq<string>): (r: seq<string>)
    ensures StrictlySorted(r)
    ensures forall y :: y in r <==> y in s
  {
    if s == [] then []
    else
      assert forall y :: y in s <==> y == s[0] || y in s[1..] by {
        assert s == [s[0]] + s[1..];
      }
      Insert(s[0], SortDistinct(s[1..]))
  }

  /** A strictly ascending sequence is determined by its elements. */
  lemma {:induction false} SortedUnique(a: seq<string>, b: seq<string>)
    requires StrictlySorted(a) && StrictlySorted(b)
    requires forall y :: y in a <==> y in b
    ensures a == b
  {
    if a != [] && b != [] {
      assert a == [a[0]] + a[1..] && b == [b[0]] + b[1..];
      assert a[0] in b && b[0] in a;
      if a[0] != b[0] {
        var i :| 0 <= i < |b| && b[i] == a[0];
        var j :| 0 <= j < |a| && a[j] == b[0];
        LessAsymmetric(a[0], a[j]);
      }
      forall y ensures y in a[1..] <==> y in b[1..] {
        if y in a[1..] {
          var k :| 0 <= k < |a[1..]| && a[1..][k] == y;
          assert Less(a[0], a[k + 1]);
          LessIrreflexive(y);
          assert y in b && y != b[0];
          var m :| 0 <= m < |b| && b[m] == y;
          assert b[1..][m - 1] == y;
        }
        if y in b[1..] {
          var k :| 0 <= k < |b[1..]| && b[1..][k] == y;
          assert Less(b[0], b[k + 1]);
          LessIrreflexive(y);
          assert y in a && y != a[0];
          var m :| 0 <= m < |a| && a[m] == y;
          assert a[1..][m - 1] == y;
        }
      }
      SortedUnique(a[1..], b[1..]);
    } else if a != [] || b != [] {
      HeadIsElement(a);
      HeadIsElement(b);
      assert false;
    }
  }

  lemma HeadIsElement(s: seq<string>)
    ensures s != [] ==> s[0] in s
  {
  }

  /** ASCII lower-casing of one character. */
  function LowerChar(c: char): char {
    if 'A' <= c <= 'Z' then (c as int + 32) as char else c
  }

  /** `s.toLowerCase()`, restricted to ASCII case folding. */
  function Lower(s: string): (r: string)
    ensures |r| == |s|
    ensures forall i :: 0 <= i < |s| ==> r[i] == LowerChar(s[i])
  {
    seq(|s|, i requires 0 <= i < |s| => LowerChar(s[i]))
  }

  /** Lower-casing a lower-cased string changes nothing, so a term is folded once whatever its case. */
  lemma LowerIdempotent(s: string)
    ensures Lower(Lower(s)) == Lower(s)
  {
    var once := Lower(s);
    forall i | 0 <= i < |s| ensures LowerChar(once[i]) == once[i] {
    }
  }

  /** `n` occurs in `h` starting at index `i`. */
  predicate OccursAt(h: string, n: string, i: nat) {
    i + |n| <= |h| && h[i..i + |n|] == n
  }

  /** `h.includes(n)`. */
  function Contains(h: string, n: string): (r: bool)
    ensures r <==> exists i: nat :: OccursAt(h, n, i)
  {
    if |n| > |h| then false
    else if h[..|n|] == n then
      assert OccursAt(h, n, 0);
      true
    else
      var r := Contains(h[1..], n);
      assert r ==> exists i: nat :: OccursAt(h, n, i) by {
        if r {
          var i: nat :| OccursAt(h[1..], n, i);
          assert h[i + 1..i + 1 + |n|] == h[1..][i..i + |n|];
          assert OccursAt(h, n, i + 1);
        }
      }
      assert (exists i: nat :: OccursAt(h, n, i)) ==> r by {
        if exists i: nat :: OccursAt(h, n, i) {
          var i: nat :| OccursAt(h, n, i);
          assert i != 0;
          assert h[1..][i - 1..i - 1 + |n|] == h[i..i + |n|];
          assert OccursAt(h[1..], n, i - 1);
        }
      }
      r
  }

  /** The base-36 digit for `d`: `0`-`9`, then `a`-`z`. */
  function Digit(d: nat): (c: char)
    requires d < 36
    ensures '0' <= c <= '9' || 'a' <= c <= 'z'
  {
    if d < 10 then ('0' as int + d) as char else ('a' as int + d - 10) as char
  }

  predicate IsDigit36(c: char) {
    '0' <= c <= '9' || 'a' <= c <= 'z'
  }

  function DigitValue(c: char): (d: nat)
    requires IsDigit36(c)
    ensures d < 36 && Digit(d) == c
  {
    if c <= '9' then c as int - '0' as int else c as int - 'a' as int + 10
  }

  /** `n.toString(36)` for a non-negative integer. */
  function Base36(n: nat): (r: string)
    ensures |r| > 0
    ensures forall i :: 0 <= i < |r| ==> IsDigit36(r[i])
  {
    if n < 36 then [Digit(n)] else Base36(n / 36) + [Digit(n % 36)]
  }

  /** `parseInt(s, 36)` for a string of base-36 digits. */
  function ParseBase36(s: string): nat
    requires forall i :: 0 <= i < |s| ==> IsDigit36(s[i])
  {
    if s == [] then 0 else ParseBase36(s[..|s| - 1]) * 36 + DigitValue(s[|s| - 1])
  }

  /** Rendering a number in base 36 loses nothing. */
  lemma {:induction false} Base36RoundTrip(n: nat)
    ensures ParseBase36(Base36(n)) == n
  {
    if n >= 36 {
      Base36RoundTrip(n / 36);
      var s := Base36(n);
      assert s[..|s| - 1] == Base36(n / 36);
      assert DigitValue(s[|s| - 1]) == n % 36 by {
        assert s[|s| - 1] == Digit(n % 36);
        DigitDecodes(n % 36);
      }
    } else {
      DigitDecodes(n);
    }
  }

  lemma DigitDecodes(d: nat)
    requires d < 36
    ensures IsDigit36(Digit(d)) && DigitValue(Digit(d)) == d
  {
  }
}
