/**
 * The pieces of JavaScript's string and array behaviour that the proxy server relies on:
 * `toUpperCase` (on ASCII letters), `parseInt` with no radix, the decimal spelling of an
 * integer inside a template literal, the default `Array.prototype.sort` on strings and
 * `Array.prototype.slice(start)`.
 */
module JsText {
  import opened Wrappers

  // ---------------------------------------------------------------------------
  // toUpperCase
  // ---------------------------------------------------------------------------

  /** Upper-cases `a`..`z`; every other character is left alone. */
  function UpperChar(c: char): char
  {
    if 'a' <= c <= 'z' then (c as int - 32) as char else c
  }

  /** `s.toUpperCase()`, character by character. */
  function Upper(s: string): (u: string)
    ensures |u| == |s|
  {
    seq(|s|, i requires 0 <= i < |s| => UpperChar(s[i]))
  }

  /** Upper-casing twice is upper-casing once. */
  lemma UpperIdempotent(s: string)
    ensures Upper(Upper(s)) == Upper(s)
  {
  }

  /** No lower-case ASCII letter survives, and nothing but a lower-case letter changes. */
  lemma UpperChanges(s: string)
    ensures forall i :: 0 <= i < |s| ==> !('a' <= Upper(s)[i] <= 'z')
    ensures forall i :: 0 <= i < |s| ==> (Upper(s)[i] != s[i] <==> 'a' <= s[i] <= 'z')
  {
  }

  /** Upper-casing distributes over concatenation. */
  lemma UpperAppend(a: string, b: string)
    ensures Upper(a + b) == Upper(a) + Upper(b)
  {
  }

  // ---------------------------------------------------------------------------
  // The decimal spelling of an integer (`${n}` for a safe integer)
  // ---------------------------------------------------------------------------

  function DigitChar(d: nat): (c: char)
    requires d < 10
    ensures '0' <= c <= '9'
  {
    ('0' as int + d) as char
  }

  /** The decimal digits of `n`, most significant first, without leading zeros. */
  function NatToString(n: nat): (s: string)
    ensures |s| >= 1
    ensures forall i :: 0 <= i < |s| ==> '0' <= s[i] <= '9'
    ensures s[0] == '0' ==> n == 0 && |s| == 1
    decreases n
  {
    if n < 10 then [DigitChar(n)] else NatToString(n / 10) + [DigitChar(n % 10)]
  }

  /** `String(n)`: a minus sign in front of a negative number. */
  function IntToString(n: int): (s: string)
    ensures |s| >= 1 && '0' <= s[|s| - 1] <= '9'
    ensures forall i :: 0 <= i < |s| ==> s[i] != '_'
  {
    if n < 0 then "-" + NatToString(-n) else NatToString(n)
  }

  // ---------------------------------------------------------------------------
  // parseInt(string) with no radix argument
  // ---------------------------------------------------------------------------

  /** The characters `parseInt` trims: WhiteSpace and LineTerminator of ECMAScript. */
  predicate IsStrWhiteSpace(c: char)
  {
    c == '\t' || c == '\n' || c == '\U{000B}' || c == '\U{000C}' || c == '\r' || c == ' ' ||
    c == '\U{00A0}' || c == '\U{1680}' || ('\U{2000}' <= c <= '\U{200A}') ||
    c == '\U{2028}' || c == '\U{2029}' || c == '\U{202F}' || c == '\U{205F}' ||
    c == '\U{3000}' || c == '\U{FEFF}'
  }

  /** Drops leading white space. */
  function TrimStart(s: string): (t: string)
    ensures |t| <= |s| && t == s[|s| - |t|..]
    ensures |t| == 0 || !IsStrWhiteSpace(t[0])
    ensures forall i :: 0 <= i < |s| - |t| ==> IsStrWhiteSpace(s[i])
  {
    if |s| > 0 && IsStrWhiteSpace(s[0]) then TrimStart(s[1..]) else s
  }

  /** The value of a digit in bases up to 36; 36 for a character that is no digit at all. */
  function DigitValue(c: char): (v: nat)
    ensures v <= 36
  {
    if '0' <= c <= '9' then c as int - '0' as int
    else if 'a' <= c <= 'z' then c as int - 'a' as int + 10
    else if 'A' <= c <= 'Z' then c as int - 'A' as int + 10
    else 36
  }

  predicate AllDigits(s: string, radix: nat)
  {
    forall i :: 0 <= i < |s| ==> DigitValue(s[i]) < radix
  }

  /** The length of the longest prefix of `s` made of digits of `radix`. */
  function DigitPrefix(s: string, radix: nat): (n: nat)
    ensures n <= |s| && AllDigits(s[..n], radix)
    ensures n < |s| ==> DigitValue(s[n]) >= radix
  {
    if |s| > 0 && DigitValue(s[0]) < radix then
      var n := 1 + DigitPrefix(s[1..], radix);
      assert s[..n] == [s[0]] + s[1..][..n - 1];
      n
    else 0
  }

  /** The number the digits spell in base 10 or 16, most significant first. */
  function DigitsValue(s: string, radix: nat): nat
    requires radix == 10 || radix == 16
    requires AllDigits(s, radix)
  {
    if |s| == 0 then 0
    else
      var high := DigitsValue(s[..|s| - 1], radix);
      (if radix == 16 then high * 16 else high * 10) + DigitValue(s[|s| - 1])
  }

  /**
   * `parseInt(s)`: leading white space is trimmed, one sign is taken, and the rest is read
   * by `ParseUnsigned`; no digit at all gives `NaN`, here `None`.
   */
  function ParseInt(s: string): Option<int>
  {
    var t := TrimStart(s);
    var negative := |t| > 0 && t[0] == '-';
    var u := if |t| > 0 && (t[0] == '-' || t[0] == '+') then t[1..] else t;
    Signed(negative, ParseUnsigned(u))
  }

  /** Applies the sign to what was read; `NaN` stays `NaN`. */
  function Signed(negative: bool, p: Option<nat>): Option<int>
  {
    if p.None? then None else if negative then Some(-(p.value as int)) else Some(p.value as int)
  }

  /** A `0x`/`0X` prefix switches to base 16; the longest run of digits that follows is read. */
  function ParseUnsigned(u: string): Option<nat>
  {
    var hex := |u| >= 2 && u[0] == '0' && (u[1] == 'x' || u[1] == 'X');
    var radix := if hex then 16 else 10;
    var v := if hex then u[2..] else u;
    var n := DigitPrefix(v, radix);
    if n == 0 then None else Some(DigitsValue(v[..n], radix))
  }

  /** The decimal spelling of `n` reads back as `n`. */
  lemma {:induction false} DigitsOfNat(n: nat)
    ensures AllDigits(NatToString(n), 10)
    ensures DigitsValue(NatToString(n), 10) == n
    decreases n
  {
    var s := NatToString(n);
    if n >= 10 {
      DigitsOfNat(n / 10);
      assert s[..|s| - 1] == NatToString(n / 10);
    }
  }

  /** All digits, then a character that ends the run: the run is exactly the digits. */
  lemma {:induction false} DigitPrefixOfDigits(s: string, rest: string, radix: nat)
    requires AllDigits(s, radix)
    requires |rest| == 0 || DigitValue(rest[0]) >= radix
    ensures DigitPrefix(s + rest, radix) == |s|
    ensures (s + rest)[..|s|] == s
    decreases |s|
  {
    if |s| > 0 {
      assert (s + rest)[0] == s[0];
      assert (s + rest)[1..] == s[1..] + rest;
      DigitPrefixOfDigits(s[1..], rest, radix);
    } else {
      assert s + rest == rest;
    }
  }

  /** The decimal spelling of a natural number, then text that cannot continue it, reads back. */
  lemma ParseUnsignedPrefix(m: nat, rest: string)
    requires |rest| == 0 || DigitValue(rest[0]) >= 10
    requires m == 0 ==> |rest| == 0 || (rest[0] != 'x' && rest[0] != 'X')
    ensures ParseUnsigned(NatToString(m) + rest) == Some(m)
  {
    var d := NatToString(m);
    DigitsOfNat(m);
    DigitPrefixOfDigits(d, rest, 10);
    var u := d + rest;
    assert !(|u| >= 2 && u[0] == '0' && (u[1] == 'x' || u[1] == 'X')) by {
      if |u| >= 2 && u[0] == '0' {
        assert u[1] == rest[0];
      }
    }
  }

  /**
   * `parseInt` reads back the spelling of any integer, also when other text follows that
   * cannot continue the number (so `"12abc"` reads as 12, while `"0x1"` is hexadecimal).
   */
  lemma ParseIntPrefix(n: int, rest: string)
    requires |rest| == 0 || DigitValue(rest[0]) >= 10
    requires n == 0 ==> |rest| == 0 || (rest[0] != 'x' && rest[0] != 'X')
    ensures ParseInt(IntToString(n) + rest) == Some(n)
  {
    if n < 0 {
      ParseNegativePrefix(-n, rest);
    } else {
      ParseNonNegativePrefix(n, rest);
    }
  }

  lemma ParseNegativePrefix(m: nat, rest: string)
    requires m > 0 && (|rest| == 0 || DigitValue(rest[0]) >= 10)
    ensures ParseInt(IntToString(-(m as int)) + rest) == Some(-(m as int))
  {
    var u := NatToString(m) + rest;
    NegativeSpelling(m, rest);
    ParseUnsignedPrefix(m, rest);
    ReadNegative(u);
  }

  lemma ParseNonNegativePrefix(m: nat, rest: string)
    requires |rest| == 0 || DigitValue(rest[0]) >= 10
    requires m == 0 ==> |rest| == 0 || (rest[0] != 'x' && rest[0] != 'X')
    ensures ParseInt(IntToString(m) + rest) == Some(m)
  {
    var u := NatToString(m) + rest;
    ParseUnsignedPrefix(m, rest);
    ReadUnsigned(u);
  }

  lemma NegativeSpelling(m: nat, rest: string)
    requires m > 0
    ensures IntToString(-(m as int)) + rest == "-" + (NatToString(m) + rest)
  {
  }

  /** Text that starts with a digit is read unsigned. */
  lemma ReadUnsigned(u: string)
    requires |u| > 0 && '0' <= u[0] <= '9'
    ensures ParseInt(u) == Signed(false, ParseUnsigned(u))
  {
    NothingToTrim(u);
    assert u[0] != '-' && u[0] != '+';
  }

  lemma NothingToTrim(u: string)
    requires |u| > 0 && !IsStrWhiteSpace(u[0])
    ensures TrimStart(u) == u
  {
  }

  /** A minus sign followed by text that starts with a digit reads as the negated number. */
  lemma ReadNegative(u: string)
    requires |u| > 0 && '0' <= u[0] <= '9'
    ensures ParseInt("-" + u) == Signed(true, ParseUnsigned(u))
  {
    var s := "-" + u;
    assert TrimStart(s) == s;
    assert s[1..] == u;
  }

  /** The round trip: `parseInt(String(n)) === n`. */
  lemma ParseIntRoundTrip(n: int)
    ensures ParseInt(IntToString(n)) == Some(n)
  {
    ParseIntPrefix(n, []);
    assert IntToString(n) + [] == IntToString(n);
  }

  /** Leading white space does not change what `parseInt` reads. */
  lemma ParseIntSkipsWhiteSpace(c: char, s: string)
    requires IsStrWhiteSpace(c)
    ensures ParseInt([c] + s) == ParseInt(s)
  {
    assert ([c] + s)[1..] == s;
  }

  /** Distinct integers are spelled differently. */
  lemma IntToStringInjective(a: int, b: int)
    requires IntToString(a) == IntToString(b)
    ensures a == b
  {
    ParseIntRoundTrip(a);
    ParseIntRoundTrip(b);
  }

  // ---------------------------------------------------------------------------
  // The default sort order of strings
  // ---------------------------------------------------------------------------

  /** Lexicographic order on characters, a prefix first: how `sort()` compares strings. */
  predicate StrLe(a: string, b: string)
  {
    |a| == 0 || (|b| > 0 && (a[0] < b[0] || (a[0] == b[0] && StrLe(a[1..], b[1..]))))
  }

  lemma StrLeReflexive(a: string)
    ensures StrLe(a, a)
  {
  }

  lemma {:induction false} StrLeTotal(a: string, b: string)
    ensures StrLe(a, b) || StrLe(b, a)
  {
    if |a| > 0 && |b| > 0 && a[0] == b[0] {
      StrLeTotal(a[1..], b[1..]);
    }
  }

  lemma {:induction false} StrLeAntisymmetric(a: string, b: string)
    requires StrLe(a, b) && StrLe(b, a)
    ensures a == b
  {
    if |a| > 0 && |b| > 0 {
      StrLeAntisymmetric(a[1..], b[1..]);
      assert a == [a[0]] + a[1..] && b == [b[0]] + b[1..];
    }
  }

  lemma {:induction false} StrLeTransitive(a: string, b: string, c: string)
    requires StrLe(a, b) && StrLe(b, c)
    ensures StrLe(a, c)
  {
    if |a| > 0 && |b| > 0 && |c| > 0 && a[0] == b[0] == c[0] {
      StrLeTransitive(a[1..], b[1..], c[1..]);
    }
  }

  predicate Ascending(xs: seq<string>)
  {
    forall i, j :: 0 <= i < j < |xs| ==> StrLe(xs[i], xs[j])
  }

  predicate Distinct<T(==)>(xs: seq<T>)
  {
    forall i, j :: 0 <= i < j < |xs| ==> xs[i] != xs[j]
  }

  /** Puts `x` in front of the first entry it does not exceed. */
  function Insert(x: string, xs: seq<string>): (r: seq<string>)
    ensures |r| == |xs| + 1
    ensures multiset(r) == multiset(xs) + multiset{x}
  {
    if |xs| == 0 then [x]
    else if StrLe(x, xs[0]) then [x] + xs
    else
      assert xs == [xs[0]] + xs[1..];
      [xs[0]] + Insert(x, xs[1..])
  }

  /** `strings.sort()` with no comparator, written as an insertion sort. */
  function SortStrings(xs: seq<string>): (r: seq<string>)
    ensures |r| == |xs|
    ensures multiset(r) == multiset(xs)
  {
    if |xs| == 0 then []
    else
      assert xs == [xs[0]] + xs[1..];
      Insert(xs[0], SortStrings(xs[1..]))
  }

  lemma {:induction false} InsertAscending(x: string, xs: seq<string>)
    requires Ascending(xs)
    ensures Ascending(Insert(x, xs))
  {
    if |xs| > 0 {
      if StrLe(x, xs[0]) {
        var r := [x] + xs;
        forall i, j | 0 <= i < j < |r|
          ensures StrLe(r[i], r[j])
        {
          if i == 0 && j > 1 {
            StrLeTransitive(x, xs[0], xs[j - 1]);
          }
        }
      } else {
        StrLeTotal(x, xs[0]);
        InsertAscending(x, xs[1..]);
        var t := Insert(x, xs[1..]);
        var r := [xs[0]] + t;
        forall k | 0 <= k < |t|
          ensures StrLe(xs[0], t[k])
        {
          assert t[k] in multiset(t);
          assert t[k] in multiset(xs[1..]) + multiset{x};
          if t[k] != x {
            var m :| 0 <= m < |xs[1..]| && xs[1..][m] == t[k];
            assert xs[m + 1] == t[k];
          }
        }
        forall i, j | 0 <= i < j < |r|
          ensures StrLe(r[i], r[j])
        {
          if i > 0 {
            assert r[i] == t[i - 1] && r[j] == t[j - 1];
          }
        }
      }
    }
  }

  /** The sort yields ascending order. */
  lemma {:induction false} SortAscending(xs: seq<string>)
    ensures Ascending(SortStrings(xs))
  {
    if |xs| > 0 {
      SortAscending(xs[1..]);
      InsertAscending(xs[0], SortStrings(xs[1..]));
    }
  }

  /** Distinct keys, sorted: every one strictly before the next. */
  lemma SortedDistinctStrict(xs: seq<string>)
    requires Distinct(xs)
    ensures Distinct(SortStrings(xs))
    ensures forall i, j :: 0 <= i < j < |SortStrings(xs)| ==>
      StrLe(SortStrings(xs)[i], SortStrings(xs)[j]) && SortStrings(xs)[i] != SortStrings(xs)[j]
  {
    var r := SortStrings(xs);
    SortAscending(xs);
    DistinctMultiset(xs, r);
  }

  /** Two sequences with the same multiset: one without repeats makes the other one so. */
  lemma DistinctMultiset(xs: seq<string>, r: seq<string>)
    requires Distinct(xs) && multiset(r) == multiset(xs)
    ensures Distinct(r)
  {
    forall i, j | 0 <= i < j < |r|
      ensures r[i] != r[j]
    {
      if r[i] == r[j] {
        var v := r[i];
        assert multiset(r)[v] >= 2 by {
          assert r == r[..j] + [r[j]] + r[j + 1..];
          assert r[i] in multiset(r[..j]);
        }
        CountAtMostOne(xs, v);
      }
    }
  }

  /** A sequence without repeats holds each value at most once. */
  lemma {:induction false} CountAtMostOne(xs: seq<string>, v: string)
    requires Distinct(xs)
    ensures multiset(xs)[v] <= 1
  {
    if |xs| > 0 {
      assert xs == [xs[0]] + xs[1..];
      CountAtMostOne(xs[1..], v);
      if xs[0] == v {
        assert v !in multiset(xs[1..]);
      }
    }
  }

  // ---------------------------------------------------------------------------
  // slice(start)
  // ---------------------------------------------------------------------------

  /** `xs.slice(start)`: a negative start counts from the end, and both are clamped to the length. */
  function SliceFrom<T>(xs: seq<T>, start: int): (r: seq<T>)
  {
    var from := if start < 0 then (if |xs| + start < 0 then 0 else |xs| + start)
                else (if start > |xs| then |xs| else start);
    xs[from..]
  }

  /** `xs.slice(-k)` for `k > 0` keeps the last `min(k, |xs|)` entries. */
  lemma SliceLast<T>(xs: seq<T>, k: nat)
    requires k > 0
    ensures |SliceFrom(xs, -(k as int))| == if k < |xs| then k else |xs|
    ensures SliceFrom(xs, -(k as int)) == xs[|xs| - |SliceFrom(xs, -(k as int))|..]
  {
  }

  /** `xs.slice(k)` for `k >= 0` drops the first `min(k, |xs|)` entries. */
  lemma SliceDrop<T>(xs: seq<T>, k: nat)
    ensures SliceFrom(xs, k) == xs[if k < |xs| then k else |xs|..]
  {
  }
}
