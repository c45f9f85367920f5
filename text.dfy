/** The Python string and integer builtins the core relies on: `str.strip`,
    `str.lower`, `str.isdigit`, `int(s)` and `str(n)`. Digits and letter
    case are the ASCII ones; whitespace is Python's `str.isspace` set. */
module Text {
  import opened Py

  predicate IsDigit(c: char) {
    '0' <= c <= '9'
  }

  function DigitValue(c: char): (d: nat)
    requires IsDigit(c)
    ensures d < 10
  {
    (c as int) - ('0' as int)
  }

  function DigitChar(d: nat): (c: char)
    requires d < 10
    ensures IsDigit(c) && DigitValue(c) == d
  {
    (('0' as int) + d) as char
  }

  predicate AllDigits(s: string) {
    forall i :: 0 <= i < |s| ==> IsDigit(s[i])
  }

  /** `s.isdigit()`: non-empty and made of digits only. */
  predicate IsDigitString(s: string) {
    |s| > 0 && AllDigits(s)
  }

  /** The number a digit string denotes, most significant digit first. */
  function DigitsValue(s: string): nat
    requires AllDigits(s)
  {
    if |s| == 0 then 0 else DigitsValue(s[..|s| - 1]) * 10 + DigitValue(s[|s| - 1])
  }

  /** The decimal spelling `str(n)` produces: digits, no leading zero except in "0". */
  predicate IsCanonicalDecimal(s: string) {
    IsDigitString(s) && (s[0] == '0' ==> |s| == 1)
  }

  /** `str(n)` for a natural number: the canonical decimal that denotes `n`. */
  function NatToDecimal(n: nat): (r: string)
    ensures IsCanonicalDecimal(r)
    ensures DigitsValue(r) == n
    decreases n
  {
    if n < 10 then [DigitChar(n)]
    else
      var high := NatToDecimal(n / 10);
      var r := high + [DigitChar(n % 10)];
      assert r[..|r| - 1] == high;
      r
  }

  /** A digit string with a non-zero leading digit denotes a positive number. */
  lemma {:induction false} LeadingDigitPositive(s: string)
    requires IsDigitString(s) && s[0] != '0'
    ensures DigitsValue(s) > 0
  {
    if |s| > 1 {
      LeadingDigitPositive(s[..|s| - 1]);
    }
  }

  /** Reading a canonical decimal and printing it again gives it back. */
  lemma {:induction false} CanonicalDecimalRoundTrip(s: string)
    requires IsCanonicalDecimal(s)
    ensures NatToDecimal(DigitsValue(s)) == s
  {
    var n := DigitsValue(s);
    var last := s[|s| - 1];
    if |s| == 1 {
      assert DigitsValue(s[..0]) == 0;
      assert n == DigitValue(last);
      assert DigitChar(DigitValue(last)) == last;
      assert NatToDecimal(n) == [last];
    } else {
      var high := s[..|s| - 1];
      assert high[0] == s[0];
      LeadingDigitPositive(high);
      CanonicalDecimalRoundTrip(high);
      assert n / 10 == DigitsValue(high) && n % 10 == DigitValue(last);
      assert DigitChar(DigitValue(last)) == last;
      assert NatToDecimal(n) == high + [last];
      assert high + [last] == s;
    }
  }

  /** Leading zeros do not change the number a digit string denotes. */
  lemma {:induction false} LeadingZeroIgnored(s: string)
    requires AllDigits(s)
    ensures AllDigits("0" + s) && DigitsValue("0" + s) == DigitsValue(s)
  {
    if |s| > 0 {
      var high := s[..|s| - 1];
      LeadingZeroIgnored(high);
      assert ("0" + s)[..|s|] == "0" + high;
    }
  }

  /** `str(i)` for any integer. */
  function IntToDecimal(i: int): string {
    if i < 0 then "-" + NatToDecimal(-i) else NatToDecimal(i)
  }

  /** `int(s)` on an optional sign followed by decimal digits; `None` stands
      for the `ValueError` Python raises on anything else. */
  function ParseInt(s: string): Option<int> {
    if |s| > 0 && (s[0] == '+' || s[0] == '-') then
      if IsDigitString(s[1..]) then
        var magnitude: int := DigitsValue(s[1..]);
        Some(if s[0] == '-' then -magnitude else magnitude)
      else None
    else if IsDigitString(s) then Some(DigitsValue(s))
    else None
  }

  /** `int(str(i)) == i`. */
  lemma ParseIntOfDecimal(i: int)
    ensures ParseInt(IntToDecimal(i)) == Some(i)
  {
    if i < 0 {
      var digits := NatToDecimal(-i);
      assert IntToDecimal(i)[1..] == digits;
    }
  }

  /** An integer literal parses exactly when it has at least one digit and
      nothing but an optional leading sign besides digits. */
  lemma ParseIntAccepts(s: string)
    ensures ParseInt(s).Some? <==>
      (IsDigitString(s) || (|s| > 1 && (s[0] == '+' || s[0] == '-') && IsDigitString(s[1..])))
  {
  }

  /** ASCII lower-casing of one character. */
  function LowerChar(c: char): char {
    if 'A' <= c <= 'Z' then ((c as int) + 32) as char else c
  }

  /** `s.lower()` on the ASCII letters, every other character unchanged. */
  function AsciiLower(s: string): (r: string)
    ensures |r| == |s|
    ensures forall i :: 0 <= i < |s| ==> r[i] == LowerChar(s[i])
  {
    if |s| == 0 then "" else [LowerChar(s[0])] + AsciiLower(s[1..])
  }

  /** The characters Python's `str.isspace` accepts. */
  const Whitespace: set<char> := {
    ' ', '\t', '\n', '\U{0B}', '\U{0C}', '\r', '\U{1C}', '\U{1D}',
    '\U{1E}', '\U{1F}', '\U{85}', '\U{A0}', '\U{1680}', '\U{2000}', '\U{2001}', '\U{2002}',
    '\U{2003}', '\U{2004}', '\U{2005}', '\U{2006}', '\U{2007}', '\U{2008}', '\U{2009}', '\U{200A}',
    '\U{2028}', '\U{2029}', '\U{202F}', '\U{205F}', '\U{3000}'
  }

  /** `c.isspace()`. */
  predicate IsSpace(c: char) {
    c in Whitespace
  }

  /** `s.lstrip(chars)`: the suffix left after removing the leading
      characters that belong to `chars`. */
  function TrimStart(s: string, chars: set<char>): (r: string)
    ensures |r| <= |s| && r == s[|s| - |r|..]
    ensures forall k :: 0 <= k < |s| - |r| ==> s[k] in chars
    ensures r == [] || r[0] !in chars
  {
    if |s| > 0 && s[0] in chars then TrimStart(s[1..], chars) else s
  }

  /** `s.rstrip(chars)`: the prefix left after removing the trailing
      characters that belong to `chars`. */
  function TrimEnd(s: string, chars: set<char>): (r: string)
    ensures r <= s
    ensures forall k :: |r| <= k < |s| ==> s[k] in chars
    ensures r == [] || r[|r| - 1] !in chars
  {
    if |s| > 0 && s[|s| - 1] in chars then TrimEnd(s[..|s| - 1], chars) else s
  }

  /** How many characters `s.strip(chars)` removes at the front. */
  function LeadingCount(s: string, chars: set<char>): (n: nat)
    ensures n <= |s|
  {
    |s| - |TrimStart(s, chars)|
  }

  /** `s.strip(chars)`: removes the leading and the trailing run of `chars`. */
  function StripChars(s: string, chars: set<char>): (r: string)
    ensures r == [] || (r[0] !in chars && r[|r| - 1] !in chars)
  {
    TrimEnd(TrimStart(s, chars), chars)
  }

  /** What `s.strip(chars)` keeps is the slice of `s` after its leading run of
      `chars` and before its trailing run; everything cut off is in `chars`. */
  lemma StripCharsSlice(s: string, chars: set<char>)
    ensures var r, i := StripChars(s, chars), LeadingCount(s, chars);
      && i + |r| <= |s|
      && r == s[i..i + |r|]
      && (forall k :: 0 <= k < i ==> s[k] in chars)
      && (forall k :: i + |r| <= k < |s| ==> s[k] in chars)
  {
    var t := TrimStart(s, chars);
    var r := TrimEnd(t, chars);
    var i := |s| - |t|;
    assert t == s[i..];
    assert r == t[..|r|];
    forall k | i + |r| <= k < |s|
      ensures s[k] in chars
    {
      assert s[k] == t[k - i];
    }
  }

  /** `s.strip()`: removes leading and trailing whitespace. */
  function Strip(s: string): string {
    StripChars(s, Whitespace)
  }
}
