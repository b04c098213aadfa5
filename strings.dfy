/** String helpers with the semantics of the JavaScript operations the source uses. */
module Strings {
  import opened Wrappers

  predicate IsDigit(c: char) {
    '0' <= c <= '9'
  }

  predicate AllDigits(s: string) {
    forall i :: 0 <= i < |s| ==> IsDigit(s[i])
  }

  function DigitChar(d: nat): (c: char)
    requires d < 10
    ensures IsDigit(c)
  {
    ('0' as int + d) as char
  }

  function DigitValue(c: char): (d: nat)
    requires IsDigit(c)
    ensures d < 10
  {
    c as int - '0' as int
  }

  /** Decimal rendering of a natural number, as JavaScript's template literals print it. */
  function NatToString(n: nat): (s: string)
    ensures |s| >= 1 && AllDigits(s)
    ensures n < 10 <==> |s| == 1
  {
    if n < 10 then [DigitChar(n)] else NatToString(n / 10) + [DigitChar(n % 10)]
  }

  /** The value of a string of decimal digits (the empty string reads as 0). */
  function ParseNat(s: string): nat
    requires AllDigits(s)
  {
    if s == [] then 0 else ParseNat(s[..|s| - 1]) * 10 + DigitValue(s[|s| - 1])
  }

  /** Reading back a printed number gives the number. */
  lemma {:induction false} ParseNatToString(n: nat)
    ensures ParseNat(NatToString(n)) == n
  {
    var s := NatToString(n);
    if n >= 10 {
      ParseNatToString(n / 10);
      assert s[..|s| - 1] == NatToString(n / 10);
    }
  }

  /** Distinct numbers print differently. */
  lemma NatToStringInjective(a: nat, b: nat)
    requires NatToString(a) == NatToString(b)
    ensures a == b
  {
    ParseNatToString(a);
    ParseNatToString(b);
  }

  /** `s.startsWith(p)` */
  predicate IsPrefix(p: string, s: string) {
    |p| <= |s| && s[..|p|] == p
  }

  /** `s.includes(k)`: some window of `s` equals `k` (the empty string is in every string). */
  predicate Contains(s: string, k: string)
    decreases |s|
  {
    IsPrefix(k, s) || (|s| > 0 && Contains(s[1..], k))
  }

  /** `k` occurs in `s` at index `i`. */
  ghost predicate OccursAt(s: string, k: string, i: int) {
    0 <= i && i + |k| <= |s| && s[i..i + |k|] == k
  }

  /** The scanning definition of `Contains` agrees with the textbook one: some index holds `k`. */
  lemma {:induction false} ContainsIff(s: string, k: string)
    ensures Contains(s, k) <==> exists i :: OccursAt(s, k, i)
    decreases |s|
  {
    if IsPrefix(k, s) {
      assert OccursAt(s, k, 0);
    } else if |s| == 0 {
      assert forall i :: !OccursAt(s, k, i);
    } else {
      ContainsIff(s[1..], k);
      if exists i :: OccursAt(s[1..], k, i) {
        var i :| OccursAt(s[1..], k, i);
        assert s[i + 1..i + 1 + |k|] == s[1..][i..i + |k|];
        assert OccursAt(s, k, i + 1);
      }
      if exists i :: OccursAt(s, k, i) {
        var i :| OccursAt(s, k, i);
        assert i != 0;
        assert s[1..][i - 1..i - 1 + |k|] == s[i..i + |k|];
        assert OccursAt(s[1..], k, i - 1);
      }
    }
  }

  /** JavaScript's `toLowerCase` restricted to ASCII letters (the only letters with case
      among the keywords; the Hangul keywords have no case). */
  function LowerChar(c: char): (r: char)
    ensures 'A' <= c <= 'Z' ==> r as int == c as int + 32
    ensures !('A' <= c <= 'Z') ==> r == c
  {
    if 'A' <= c <= 'Z' then (c as int + 32) as char else c
  }

  function ToLower(s: string): (r: string)
    ensures |r| == |s|
    ensures forall i :: 0 <= i < |s| ==> r[i] == LowerChar(s[i])
  {
    if s == [] then [] else [LowerChar(s[0])] + ToLower(s[1..])
  }

  /** The characters `String.prototype.trim` removes: ECMAScript WhiteSpace and LineTerminator. */
  predicate IsWhitespace(c: char) {
    c == '\t' || c == '\n' || c == '\U{000B}' || c == '\U{000C}' || c == '\r' || c == ' '
    || c == '\U{00A0}' || c == '\U{1680}' || ('\U{2000}' <= c <= '\U{200A}')
    || c == '\U{2028}' || c == '\U{2029}' || c == '\U{202F}' || c == '\U{205F}'
    || c == '\U{3000}' || c == '\U{FEFF}'
  }

  predicate AllWhitespace(s: string) {
    forall i :: 0 <= i < |s| ==> IsWhitespace(s[i])
  }

  predicate NoWhitespace(s: string) {
    forall i :: 0 <= i < |s| ==> !IsWhitespace(s[i])
  }

  /** Number of leading whitespace characters. */
  function LeadingWhitespace(s: string): (n: nat)
    ensures n <= |s| && AllWhitespace(s[..n])
    ensures n < |s| ==> !IsWhitespace(s[n])
  {
    if s != [] && IsWhitespace(s[0]) then
      var n := 1 + LeadingWhitespace(s[1..]);
      assert s[..n] == [s[0]] + s[1..][..n - 1];
      n
    else 0
  }

  /** Number of trailing whitespace characters. */
  function TrailingWhitespace(s: string): (n: nat)
    ensures n <= |s| && AllWhitespace(s[|s| - n..])
    ensures n < |s| ==> !IsWhitespace(s[|s| - n - 1])
  {
    if s != [] && IsWhitespace(s[|s| - 1]) then
      var init := s[..|s| - 1];
      var m := TrailingWhitespace(init);
      assert s[|s| - (m + 1)..] == init[|init| - m..] + [s[|s| - 1]];
      AllWhitespaceSnoc(init[|init| - m..], s[|s| - 1]);
      assert m + 1 < |s| ==> s[|s| - (m + 1) - 1] == init[|init| - m - 1];
      m + 1
    else 0
  }

  lemma AllWhitespaceSnoc(w: string, c: char)
    requires AllWhitespace(w) && IsWhitespace(c)
    ensures AllWhitespace(w + [c])
  {
    forall i | 0 <= i < |w + [c]| ensures IsWhitespace((w + [c])[i]) {
      if i < |w| {
        assert (w + [c])[i] == w[i];
      }
    }
  }

  /** Where `s.trim()` starts in `s`. */
  function TrimFrom(s: string): (a: nat)
    ensures a <= |s| && AllWhitespace(s[..a])
    ensures a < |s| ==> !IsWhitespace(s[a])
  {
    LeadingWhitespace(s)
  }

  /** Where `s.trim()` ends in `s`. */
  function TrimTo(s: string): (b: nat)
    ensures TrimFrom(s) <= b <= |s| && AllWhitespace(s[b..])
    ensures TrimFrom(s) < b ==> !IsWhitespace(s[b - 1])
  {
    var a := TrimFrom(s);
    var t := s[a..];
    var n := TrailingWhitespace(t);
    assert t[|t| - n..] == s[|s| - n..];
    |s| - n
  }

  /** `s.trim()`: `s` without its leading and trailing whitespace. */
  function Trim(s: string): (r: string)
    ensures r == s[TrimFrom(s)..TrimTo(s)]
    ensures AllWhitespace(s[..TrimFrom(s)]) && AllWhitespace(s[TrimTo(s)..])
    ensures r != [] ==> !IsWhitespace(r[0]) && !IsWhitespace(r[|r| - 1])
  {
    s[TrimFrom(s)..TrimTo(s)]
  }

  /** A character that is not whitespace lies inside the trimmed part. */
  lemma NonWhitespaceInsideTrim(s: string, i: int)
    requires 0 <= i < |s| && !IsWhitespace(s[i])
    ensures TrimFrom(s) <= i < TrimTo(s)
  {
    var a, b := TrimFrom(s), TrimTo(s);
    forall j | 0 <= j < a ensures IsWhitespace(s[j]) {
      assert s[..a][j] == s[j];
    }
    forall j | b <= j < |s| ensures IsWhitespace(s[j]) {
      assert s[b..][j - b] == s[j];
    }
  }

  /** An occurrence of a keyword without whitespace lies inside the trimmed part. */
  lemma OccurrenceInsideTrim(s: string, k: string, i: int)
    requires k != [] && NoWhitespace(k) && OccursAt(s, k, i)
    ensures TrimFrom(s) <= i && i + |k| <= TrimTo(s)
    ensures OccursAt(Trim(s), k, i - TrimFrom(s))
  {
    assert s[i..i + |k|][0] == s[i] && !IsWhitespace(k[0]);
    assert s[i..i + |k|][|k| - 1] == s[i + |k| - 1] && !IsWhitespace(k[|k| - 1]);
    NonWhitespaceInsideTrim(s, i);
    NonWhitespaceInsideTrim(s, i + |k| - 1);
    var a := TrimFrom(s);
    SliceOfSlice(s, a, TrimTo(s), i - a, i - a + |k|);
  }

  /** An occurrence in the trimmed text is an occurrence in the text. */
  lemma OccurrenceFromTrim(s: string, k: string, i: int)
    requires OccursAt(Trim(s), k, i)
    ensures OccursAt(s, k, i + TrimFrom(s))
  {
    OccursInSlice(s, TrimFrom(s), TrimTo(s), k, i);
  }

  /** An occurrence in a slice is an occurrence in the whole, shifted by the slice's start. */
  lemma OccursInSlice(s: string, a: nat, b: nat, k: string, i: int)
    requires a <= b <= |s| && OccursAt(s[a..b], k, i)
    ensures OccursAt(s, k, a + i)
  {
    SliceOfSlice(s, a, b, i, i + |k|);
  }

  /** A slice of a slice is a slice of the original. */
  lemma SliceOfSlice(s: string, a: nat, b: nat, i: nat, j: nat)
    requires a <= b <= |s| && i <= j <= b - a
    ensures s[a..b][i..j] == s[a + i..a + j]
  {
    var t := s[a..b];
    assert |t[i..j]| == |s[a + i..a + j]|;
    forall m | 0 <= m < j - i ensures t[i..j][m] == s[a + i..a + j][m] {
      assert t[i..j][m] == t[i + m] == s[a + i + m];
    }
  }

  /** Trimming never changes whether a keyword without whitespace occurs in a text, so the
      keyword tests behave the same on trimmed and untrimmed input. */
  lemma ContainsTrim(s: string, k: string)
    requires k != [] && NoWhitespace(k)
    ensures Contains(Trim(s), k) <==> Contains(s, k)
  {
    ContainsIff(s, k);
    ContainsIff(Trim(s), k);
    if i :| OccursAt(s, k, i) {
      OccurrenceInsideTrim(s, k, i);
    }
    if i :| OccursAt(Trim(s), k, i) {
      OccurrenceFromTrim(s, k, i);
    }
  }

  /** JavaScript's `a || b` where `a` is an optional string: an absent or empty `a` is falsy. */
  function OrElse(a: Option<string>, b: string): string {
    if a.Some? && a.value != "" then a.value else b
  }

  /** The three parts of a concatenation read back by slicing. */
  lemma ConcatSlices(p: string, l: string, r: string)
    ensures var t := p + (l + r);
      && |t| == |p| + |l| + |r|
      && t[..|p|] == p && t[|p|..|p| + |l|] == l && t[|p| + |l|..] == r
  {
    var t := p + (l + r);
    assert t[|p|..] == l + r;
    assert (l + r)[..|l|] == l;
    assert t[|p|..][..|l|] == t[|p|..|p| + |l|];
  }

  /** Concatenation is associative; stated once so that proofs about text built piece by piece
      need not rediscover it character by character. */
  lemma ConcatAssociative(a: string, b: string, c: string)
    ensures (a + b) + c == a + (b + c)
  {
  }
}
