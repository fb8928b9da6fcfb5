/**
 * String helpers with the meaning of the Python operations the source uses:
 * `p in s`, `s.endswith(x)`, and the character classes `\d`, `\w` and `\s` of
 * its regular expressions. The character classes are the ASCII ones.
 */
module Text {

  /** `p` occurs in `s` starting at index `i`. */
  predicate OccursAt(s: string, p: string, i: nat) {
    i + |p| <= |s| && s[i..i + |p|] == p
  }

  /** Python's `p in s`: `p` is a substring of `s`. */
  function Contains(s: string, p: string): (b: bool)
    ensures b <==> exists i: nat :: OccursAt(s, p, i)
    decreases |s|
  {
    if |p| > |s| then false
    else if s[..|p|] == p then assert OccursAt(s, p, 0); true
    else ShiftOccurrence(s, p); Contains(s[1..], p)
  }

  /** When `p` is not a prefix of `s`, its occurrences in `s` are those in `s[1..]`, shifted by one. */
  lemma ShiftOccurrence(s: string, p: string)
    requires |p| <= |s| && s[..|p|] != p
    ensures (exists i: nat :: OccursAt(s, p, i)) <==> (exists i: nat :: OccursAt(s[1..], p, i))
  {
    if i: nat :| OccursAt(s, p, i) {
      assert i != 0;
      assert s[1..][i - 1..i - 1 + |p|] == s[i..i + |p|];
      assert OccursAt(s[1..], p, i - 1);
    }
    if i: nat :| OccursAt(s[1..], p, i) {
      assert s[1..][i..i + |p|] == s[i + 1..i + 1 + |p|];
      assert OccursAt(s, p, i + 1);
    }
  }

  /** The middle part of a concatenation occurs in it, right after the first part. */
  lemma OccursInside(a: string, b: string, c: string)
    ensures OccursAt(a + b + c, b, |a|) && Contains(a + b + c, b)
  {
    var s := a + b + c;
    assert s[|a|..|a| + |b|] == b;
    assert OccursAt(s, b, |a|);
  }

  /** Python's `s.endswith(suffix)`. */
  predicate EndsWith(s: string, suffix: string) {
    |suffix| <= |s| && s[|s| - |suffix|..] == suffix
  }

  /** `\d`, restricted to ASCII. */
  predicate IsDigit(c: char) {
    '0' <= c <= '9'
  }

  /** `\w`, restricted to ASCII. */
  predicate IsWordChar(c: char) {
    IsDigit(c) || 'a' <= c <= 'z' || 'A' <= c <= 'Z' || c == '_'
  }

  /**
   * The ASCII characters that Python's `str` patterns match with `\s` and that
   * `str.split` splits on: space, tab, newline, vertical tab, form feed,
   * carriage return, and the separators U+001C to U+001F.
   */
  predicate IsSpace(c: char) {
    c == ' ' || '\t' <= c <= '\r' || '\U{001C}' <= c <= '\U{001F}'
  }

  /** Every character of `s[p..p + n]` satisfies `member`. */
  predicate AllIn(s: string, p: nat, n: nat, member: char -> bool) {
    p + n <= |s| && forall k :: p <= k < p + n ==> member(s[k])
  }

  /**
   * The length of the longest run of `member` characters starting at `p` (a
   * greedy `X*`); zero past the end of `s`.
   */
  function Span(s: string, p: nat, member: char -> bool): (n: nat)
    ensures p <= |s| ==> AllIn(s, p, n, member)
    ensures p <= |s| ==> p + n == |s| || !member(s[p + n])
    decreases |s| - p
  {
    if p < |s| && member(s[p]) then 1 + Span(s, p + 1, member) else 0
  }

  /** A run of `member` characters that is followed by a non-member, or by the end, is the longest one. */
  lemma {:induction false} SpanUnique(s: string, p: nat, n: nat, member: char -> bool)
    requires AllIn(s, p, n, member)
    requires p + n == |s| || !member(s[p + n])
    ensures Span(s, p, member) == n
    decreases n
  {
    if n > 0 {
      SpanUnique(s, p + 1, n - 1, member);
    }
  }

  predicate NotSpace(c: char) {
    !IsSpace(c)
  }

  /**
   * `s.split()[0]` for a string that does not start with whitespace: the text
   * before the first whitespace character.
   */
  function FirstWord(s: string): (w: string)
    ensures w <= s
    ensures forall k :: 0 <= k < |w| ==> !IsSpace(w[k])
    ensures |w| == |s| || IsSpace(s[|w|])
  {
    s[..Span(s, 0, NotSpace)]
  }

  /** Any whitespace-free prefix that ends at whitespace, or at the end, is the first word. */
  lemma FirstWordIs(s: string, w: string)
    requires w <= s
    requires forall k :: 0 <= k < |w| ==> !IsSpace(w[k])
    requires |w| == |s| || IsSpace(s[|w|])
    ensures FirstWord(s) == w
  {
    assert forall k :: 0 <= k < |w| ==> s[k] == w[k];
    SpanUnique(s, 0, |w|, NotSpace);
  }

  /** The decimal digit for `d`. */
  function DigitChar(d: nat): (c: char)
    requires d < 10
    ensures IsDigit(c)
  {
    ('0' as int + d) as char
  }

  /** `str(n)` for a non-negative `n`: its decimal digits, most significant first, no leading zero. */
  function Decimal(n: nat): (s: string)
    ensures s != [] && forall k :: 0 <= k < |s| ==> IsDigit(s[k])
    ensures |s| > 1 ==> s[0] != '0'
    decreases n
  {
    if n < 10 then [DigitChar(n)] else Decimal(n / 10) + [DigitChar(n % 10)]
  }

  /** The number a string of decimal digits denotes. */
  function DigitsValue(s: string): nat
    requires forall k :: 0 <= k < |s| ==> IsDigit(s[k])
    decreases |s|
  {
    if s == [] then 0
    else
      assert IsDigit(s[|s| - 1]);
      DigitsValue(s[..|s| - 1]) * 10 + (s[|s| - 1] as int - '0' as int)
  }

  /** Reading back the digits `Decimal` writes gives the number. */
  lemma {:induction false} DecimalRoundTrip(n: nat)
    ensures DigitsValue(Decimal(n)) == n
    decreases n
  {
    if n >= 10 {
      DecimalRoundTrip(n / 10);
      var s := Decimal(n);
      assert s[..|s| - 1] == Decimal(n / 10);
    }
  }

  /** `str(n)` for any integer. */
  function IntString(n: int): (s: string)
    ensures s != []
    ensures n < 0 <==> s[0] == '-'
  {
    if n < 0 then "-" + Decimal(-n) else Decimal(n)
  }
}
