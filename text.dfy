/**
 * Character classes and string operations of the Kotlin/JVM runtime that the
 * validators and the view models rely on. Each `char` stands for one UTF-16
 * code unit of a Kotlin `String`.
 */
module Text {

  /** Kotlin/JVM `Char.isWhitespace()`, which is
      `Character.isWhitespace(c) || Character.isSpaceChar(c)`: the ASCII
      controls TAB, LF, VT, FF, CR and U+001C..U+001F, plus every character of
      the Unicode categories Zs, Zl and Zp. */
  predicate IsKotlinWhitespace(c: char) {
    || c == '\t' || c == '\n' || c == '\U{000B}' || c == '\U{000C}' || c == '\r'
    || ('\U{001C}' <= c <= '\U{001F}')
    || c == ' ' || c == '\U{00A0}' || c == '\U{1680}'
    || ('\U{2000}' <= c <= '\U{200A}')
    || c == '\U{2028}' || c == '\U{2029}' || c == '\U{202F}' || c == '\U{205F}' || c == '\U{3000}'
  }

  /** `\s` of java.util.regex without UNICODE_CHARACTER_CLASS: `[ \t\n\x0B\f\r]`. */
  predicate IsRegexSpace(c: char) {
    c == ' ' || c == '\t' || c == '\n' || c == '\U{000B}' || c == '\U{000C}' || c == '\r'
  }

  /** `\d` of java.util.regex, and the range `0-9`. */
  predicate IsAsciiDigit(c: char) {
    '0' <= c <= '9'
  }

  predicate IsAsciiUpper(c: char) {
    'A' <= c <= 'Z'
  }

  predicate IsAsciiLower(c: char) {
    'a' <= c <= 'z'
  }

  /** `\w` of java.util.regex: `[a-zA-Z_0-9]`. */
  predicate IsWordChar(c: char) {
    IsAsciiLower(c) || IsAsciiUpper(c) || c == '_' || IsAsciiDigit(c)
  }

  /** The characters that the regex `.` does not match (no DOTALL, no UNIX_LINES). */
  predicate IsLineTerminator(c: char) {
    c == '\n' || c == '\r' || c == '\U{0085}' || c == '\U{2028}' || c == '\U{2029}'
  }

  predicate NoLineTerminator(s: string) {
    forall i | 0 <= i < |s| :: !IsLineTerminator(s[i])
  }

  /** Kotlin `CharSequence.isBlank()`: empty, or whitespace only. */
  predicate IsBlank(s: string) {
    forall i | 0 <= i < |s| :: IsKotlinWhitespace(s[i])
  }

  /** Drops the leading whitespace: the result is the longest suffix that
      does not start with whitespace. */
  function TrimStart(s: string): (r: string)
    ensures |r| <= |s| && r == s[|s| - |r|..]
    ensures forall k | 0 <= k < |s| - |r| :: IsKotlinWhitespace(s[k])
    ensures |r| > 0 ==> !IsKotlinWhitespace(r[0])
  {
    if |s| > 0 && IsKotlinWhitespace(s[0]) then TrimStart(s[1..]) else s
  }

  /** Drops the trailing whitespace: the result is the longest prefix that
      does not end with whitespace. */
  function TrimEnd(s: string): (r: string)
    ensures |r| <= |s| && r == s[..|r|]
    ensures forall k | |r| <= k < |s| :: IsKotlinWhitespace(s[k])
    ensures |r| > 0 ==> !IsKotlinWhitespace(r[|r| - 1])
  {
    if |s| > 0 && IsKotlinWhitespace(s[|s| - 1]) then TrimEnd(s[..|s| - 1]) else s
  }

  /** `r` is the slice `s[a..a + |r|]` and everything around it is whitespace. */
  ghost predicate SliceBetweenWhitespace(s: string, a: int, r: string) {
    && 0 <= a && a + |r| <= |s|
    && r == s[a..a + |r|]
    && (forall k | 0 <= k < a :: IsKotlinWhitespace(s[k]))
    && (forall k | a + |r| <= k < |s| :: IsKotlinWhitespace(s[k]))
  }

  /** Kotlin `String.trim()`: the slice left after removing whitespace at both ends. */
  function Trim(s: string): (r: string)
    ensures exists a :: SliceBetweenWhitespace(s, a, r)
    ensures |r| > 0 ==> !IsKotlinWhitespace(r[0]) && !IsKotlinWhitespace(r[|r| - 1])
    ensures r == [] <==> IsBlank(s)
  {
    var t := TrimStart(s);
    var r := TrimEnd(t);
    assert SliceBetweenWhitespace(s, |s| - |t|, r) by {
      assert r == t[..|r|];
      assert forall k | |s| - |t| + |r| <= k < |s| :: s[k] == t[k - (|s| - |t|)];
    }
    assert r == [] ==> IsBlank(s) by {
      if r == [] {
        assert t == [];
      }
    }
    assert r != [] ==> !IsBlank(s) by {
      if r != [] { assert s[|s| - |t|] == r[0]; }
    }
    r
  }

  /** Trimming twice is trimming once. */
  lemma {:induction false} TrimIdempotent(s: string)
    ensures Trim(Trim(s)) == Trim(s)
  {
    var r := Trim(s);
    var a :| SliceBetweenWhitespace(s, a, r);
    var rr := Trim(r);
    var b :| SliceBetweenWhitespace(r, b, rr);
    if r != [] {
      assert !IsKotlinWhitespace(r[0]) && !IsKotlinWhitespace(r[|r| - 1]);
      assert b == 0 && |rr| == |r|;
      assert rr == r[0..|r|];
    }
  }

  /** Text that neither starts nor ends with whitespace is left as it is. */
  lemma TrimKeepsUntrimmed(s: string)
    requires s != [] ==> !IsKotlinWhitespace(s[0]) && !IsKotlinWhitespace(s[|s| - 1])
    ensures Trim(s) == s
  {
    var r := Trim(s);
    var a :| SliceBetweenWhitespace(s, a, r);
    if s != [] {
      assert a == 0;
      assert r != [];
      assert a + |r| == |s|;
      assert r == s[0..|s|];
    }
  }

  /** Whitespace around a word is what trimming removes, and only that. */
  lemma TrimDropsPadding(pre: string, w: string, post: string)
    requires forall k | 0 <= k < |pre| :: IsKotlinWhitespace(pre[k])
    requires forall k | 0 <= k < |post| :: IsKotlinWhitespace(post[k])
    requires w != [] && !IsKotlinWhitespace(w[0]) && !IsKotlinWhitespace(w[|w| - 1])
    ensures Trim(pre + w + post) == w
  {
    var s := pre + w + post;
    var r := Trim(s);
    var a :| SliceBetweenWhitespace(s, a, r);
    var first, last := |pre|, |pre| + |w| - 1;
    assert s[first] == w[0] && s[last] == w[|w| - 1];
    assert a <= first && last < a + |r|;
    assert r != [] && s[a] == r[0] && s[a + |r| - 1] == r[|r| - 1];
    assert a == first && a + |r| == last + 1;
    assert r == s[first..last + 1];
  }

  /** The decimal digit `d` as a character. */
  function DigitChar(d: nat): (c: char)
    requires d < 10
    ensures IsAsciiDigit(c) && DigitValue(c) == d
  {
    (('0' as int) + d) as char
  }

  /** The value of one decimal digit character. */
  function DigitValue(c: char): (d: nat)
    requires IsAsciiDigit(c)
    ensures d < 10
  {
    (c as int) - ('0' as int)
  }

  /** The number a string of decimal digits denotes. */
  function DecimalValue(s: string): nat
    requires forall i | 0 <= i < |s| :: IsAsciiDigit(s[i])
  {
    if s == [] then 0 else DecimalValue(s[..|s| - 1]) * 10 + DigitValue(s[|s| - 1])
  }

  /** Kotlin `Long.toString()` of a non-negative value: decimal digits, no
      leading zero, and parsing them back gives the number. */
  function DecimalString(n: nat): (r: string)
    ensures |r| > 0 && forall i | 0 <= i < |r| :: IsAsciiDigit(r[i])
    ensures |r| > 1 ==> r[0] != '0'
    ensures DecimalValue(r) == n
  {
    if n < 10 then [DigitChar(n)]
    else
      var prefix := DecimalString(n / 10);
      var r := prefix + [DigitChar(n % 10)];
      assert r[..|r| - 1] == prefix;
      r
  }
}
