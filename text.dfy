/** The few pieces of Python's string library the plugin relies on:
    `str.strip()` with no argument, and the decimal text of an integer
    produced by `str(n)`, `'%d' % n` and `'{}'.format(n)`. */
module Text {

  /** Python's `str.isspace()` for one character: the ASCII separators
      U+0009..U+000D and U+001C..U+0020, and the Unicode white-space
      characters U+0085, U+00A0, U+1680, U+2000..U+200A, U+2028, U+2029,
      U+202F, U+205F and U+3000. */
  const SpaceChars: set<char> := {
    '\t', '\n', '\U{B}', '\U{C}', '\r', '\U{1C}', '\U{1D}', '\U{1E}', '\U{1F}', ' ',
    '\U{85}', '\U{A0}', '\U{1680}',
    '\U{2000}', '\U{2001}', '\U{2002}', '\U{2003}', '\U{2004}', '\U{2005}',
    '\U{2006}', '\U{2007}', '\U{2008}', '\U{2009}', '\U{200A}',
    '\U{2028}', '\U{2029}', '\U{202F}', '\U{205F}', '\U{3000}'}

  predicate IsSpace(c: char) { c in SpaceChars }

  predicate AllSpace(s: string) {
    forall k :: 0 <= k < |s| ==> IsSpace(s[k])
  }

  /** The end of the run of white space that starts at index `i`. */
  function SpaceRunEnd(s: string, i: nat): (j: nat)
    requires i <= |s|
    ensures i <= j <= |s|
    decreases |s| - i
  {
    if i < |s| && IsSpace(s[i]) then SpaceRunEnd(s, i + 1) else i
  }

  /** The start of the run of white space that ends at index `j`, not
      going below `lo`. */
  function SpaceRunStart(s: string, lo: nat, j: nat): (i: nat)
    requires lo <= j <= |s|
    ensures lo <= i <= j
    decreases j
  {
    if lo < j && IsSpace(s[j - 1]) then SpaceRunStart(s, lo, j - 1) else j
  }

  /** Python's `s.strip()` with no argument: `s` without the white space
      at its start and at its end (StripSlice and StripPadded). */
  function Strip(s: string): string
  {
    var lo := SpaceRunEnd(s, 0);
    s[lo..SpaceRunStart(s, lo, |s|)]
  }

  lemma {:induction false} SpaceRunEndIsSpace(s: string, i: nat)
    requires i <= |s|
    ensures AllSpace(s[i..SpaceRunEnd(s, i)])
    ensures SpaceRunEnd(s, i) == |s| || !IsSpace(s[SpaceRunEnd(s, i)])
    decreases |s| - i
  {
    if i < |s| && IsSpace(s[i]) {
      SpaceRunEndIsSpace(s, i + 1);
      assert s[i..SpaceRunEnd(s, i)] == [s[i]] + s[i + 1..SpaceRunEnd(s, i + 1)];
    }
  }

  lemma {:induction false} SpaceRunStartIsSpace(s: string, lo: nat, j: nat)
    requires lo <= j <= |s|
    ensures AllSpace(s[SpaceRunStart(s, lo, j)..j])
    ensures SpaceRunStart(s, lo, j) == lo || !IsSpace(s[SpaceRunStart(s, lo, j) - 1])
    decreases j
  {
    if lo < j && IsSpace(s[j - 1]) {
      SpaceRunStartIsSpace(s, lo, j - 1);
      assert s[SpaceRunStart(s, lo, j)..j] == s[SpaceRunStart(s, lo, j - 1)..j - 1] + [s[j - 1]];
    }
  }

  /** What Strip drops is white space and what it keeps neither starts
      nor ends with white space: the result is the slice of `s` starting
      at `i`, and everything before and after that slice is white space. */
  lemma StripSlice(s: string) returns (i: nat)
    ensures i + |Strip(s)| <= |s| && Strip(s) == s[i..i + |Strip(s)|]
    ensures AllSpace(s[..i]) && AllSpace(s[i + |Strip(s)|..])
    ensures Strip(s) == [] || (!IsSpace(Strip(s)[0]) && !IsSpace(Strip(s)[|Strip(s)| - 1]))
  {
    i := SpaceRunEnd(s, 0);
    var j := SpaceRunStart(s, i, |s|);
    SpaceRunEndIsSpace(s, 0);
    SpaceRunStartIsSpace(s, i, |s|);
    assert Strip(s) == s[i..j];
    assert s[..i] == s[0..i];
    assert i + |Strip(s)| == j;
    assert s[i + |Strip(s)|..] == s[j..|s|];
    if i < j {
      assert Strip(s)[0] == s[i] && Strip(s)[|Strip(s)| - 1] == s[j - 1];
    }
  }

  lemma {:induction false} SpaceRunEndAt(s: string, i: nat, j: nat)
    requires i <= j <= |s|
    requires AllSpace(s[i..j])
    requires j == |s| || !IsSpace(s[j])
    ensures SpaceRunEnd(s, i) == j
    decreases j - i
  {
    if i < j {
      assert s[i + 1..j] == s[i..j][1..];
      assert IsSpace(s[i..j][0]);
      SpaceRunEndAt(s, i + 1, j);
    }
  }

  lemma {:induction false} SpaceRunStartAt(s: string, lo: nat, i: nat, j: nat)
    requires lo <= i <= j <= |s|
    requires AllSpace(s[i..j])
    requires i == lo || !IsSpace(s[i - 1])
    ensures SpaceRunStart(s, lo, j) == i
    decreases j - i
  {
    if i < j {
      assert s[i..j - 1] == s[i..j][..j - 1 - i];
      assert IsSpace(s[i..j][j - 1 - i]);
      SpaceRunStartAt(s, lo, i, j - 1);
    }
  }

  /** Stripping removes exactly the white space around a text whose ends
      are not white space, and nothing else. */
  lemma StripPadded(a: string, t: string, b: string)
    requires AllSpace(a) && AllSpace(b)
    requires t == [] || (!IsSpace(t[0]) && !IsSpace(t[|t| - 1]))
    ensures Strip(a + t + b) == t
  {
    var s := a + t + b;
    var hi := |a| + |t|;
    if t == [] {
      assert s[0..|s|] == a + b;
      SpaceRunEndAt(s, 0, |s|);
      SpaceRunStartAt(s, |s|, |s|, |s|);
    } else {
      assert s[0..|a|] == a;
      assert s[|a|] == t[0];
      SpaceRunEndAt(s, 0, |a|);
      assert s[hi..|s|] == b;
      assert s[hi - 1] == t[|t| - 1];
      SpaceRunStartAt(s, |a|, hi, |s|);
      assert s[|a|..hi] == t;
    }
  }

  predicate IsDigit(c: char) {
    '0' <= c <= '9'
  }

  predicate AllDigits(s: string) {
    forall k :: 0 <= k < |s| ==> IsDigit(s[k])
  }

  function DigitChar(d: nat): (c: char)
    requires d < 10
    ensures IsDigit(c) && c as int - '0' as int == d
  {
    ('0' as int + d) as char
  }

  /** `str(n)` for a natural number: decimal digits, most significant
      first, with a leading zero only for zero itself. */
  function NatToString(n: nat): (r: string)
    ensures r != [] && AllDigits(r)
    ensures r[0] == '0' <==> n == 0
    decreases n
  {
    if n < 10 then [DigitChar(n)] else NatToString(n / 10) + [DigitChar(n % 10)]
  }

  /** The value of a string of decimal digits (the inverse of NatToString). */
  function ParseNat(s: string): nat
    requires AllDigits(s)
  {
    if s == [] then 0 else 10 * ParseNat(s[..|s| - 1]) + (s[|s| - 1] as int - '0' as int)
  }

  lemma {:induction false} ParseNatToString(n: nat)
    ensures ParseNat(NatToString(n)) == n
    decreases n
  {
    if n >= 10 {
      var r := NatToString(n);
      assert r[..|r| - 1] == NatToString(n / 10);
      ParseNatToString(n / 10);
    }
  }

  /** Distinct numbers have distinct decimal texts. */
  lemma NatToStringInjective(m: nat, n: nat)
    requires NatToString(m) == NatToString(n)
    ensures m == n
  {
    ParseNatToString(m);
    ParseNatToString(n);
  }

  predicate IsIntString(s: string) {
    if s != [] && s[0] == '-' then s[1..] != [] && AllDigits(s[1..]) else s != [] && AllDigits(s)
  }

  /** `str(x)` for an integer: a minus sign before the digits of a
      negative number. */
  function IntToString(x: int): (r: string)
    ensures IsIntString(r)
    ensures r[0] == '-' <==> x < 0
  {
    if x < 0 then "-" + NatToString(-x) else NatToString(x)
  }

  function ParseInt(s: string): int
    requires IsIntString(s)
  {
    if s[0] == '-' then -(ParseNat(s[1..]) as int) else ParseNat(s)
  }

  /** The text of an integer gives the integer back. */
  lemma IntToStringRoundTrip(x: int)
    ensures ParseInt(IntToString(x)) == x
  {
    if x < 0 {
      assert IntToString(x)[1..] == NatToString(-x);
      ParseNatToString(-x);
    } else {
      ParseNatToString(x);
    }
  }
  // Sequence facts used when taking texts apart.

  lemma ConcatPrefixCancel(a: string, x: string, y: string)
    requires a + x == a + y
    ensures x == y
  {
    assert x == (a + x)[|a|..];
    assert y == (a + y)[|a|..];
  }

  lemma ConcatSuffixCancel(x: string, y: string, b: string)
    requires x + b == y + b
    ensures x == y
  {
    assert x == (x + b)[..|x|];
    assert y == (y + b)[..|y|];
  }

  /** The end of the run of digits that starts at index `i`. */
  function DigitRunEnd(s: string, i: nat): (j: nat)
    requires i <= |s|
    ensures i <= j <= |s|
    decreases |s| - i
  {
    if i < |s| && IsDigit(s[i]) then DigitRunEnd(s, i + 1) else i
  }

  lemma {:induction false} DigitRunEndAt(s: string, i: nat, j: nat)
    requires i <= j <= |s|
    requires AllDigits(s[i..j])
    requires j == |s| || !IsDigit(s[j])
    ensures DigitRunEnd(s, i) == j
    decreases j - i
  {
    if i < j {
      assert s[i + 1..j] == s[i..j][1..];
      assert IsDigit(s[i..j][0]);
      DigitRunEndAt(s, i + 1, j);
    }
  }

  /** A run of digits ends where a text starting with a non-digit begins,
      so the digits can be read off the front of the whole. */
  lemma DigitsBeforeNonDigit(d1: string, t1: string, d2: string, t2: string)
    requires AllDigits(d1) && AllDigits(d2)
    requires t1 != [] && !IsDigit(t1[0]) && t2 != [] && !IsDigit(t2[0])
    requires d1 + t1 == d2 + t2
    ensures d1 == d2 && t1 == t2
  {
    var s := d1 + t1;
    assert s[0..|d1|] == d1 && s[|d1|] == t1[0];
    DigitRunEndAt(s, 0, |d1|);
    assert s[0..|d2|] == d2 && s[|d2|] == t2[0];
    DigitRunEndAt(s, 0, |d2|);
    assert d1 == s[..|d1|];
    assert d2 == s[..|d2|];
  }
}
