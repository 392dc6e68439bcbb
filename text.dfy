/** The few pieces of .NET string handling the folder editor relies on:
    string.IsNullOrWhiteSpace, string.Equals with StringComparison.OrdinalIgnoreCase,
    and the decimal rendering of the ordinals it prints before each root folder. */
module Text {

  /** Char.IsWhiteSpace: the space, line and paragraph separators of Unicode,
      the control characters U+0009 to U+000D, and U+0085. */
  predicate IsWhiteSpace(c: char)
  {
    ('\U{9}' <= c <= '\U{D}') || c == ' ' || c == '\U{85}' || c == '\U{A0}' || c == '\U{1680}'
    || ('\U{2000}' <= c <= '\U{200A}') || c == '\U{2028}' || c == '\U{2029}'
    || c == '\U{202F}' || c == '\U{205F}' || c == '\U{3000}'
  }

  /** string.IsNullOrWhiteSpace for a string that is present: it is empty or
      holds nothing but white space. */
  predicate IsNullOrWhiteSpace(s: string)
  {
    forall i :: 0 <= i < |s| ==> IsWhiteSpace(s[i])
  }

  /** The simple upper-case mapping used to compare characters ignoring case:
      ASCII, Latin-1 and Latin Extended-A (which holds the Czech letters). */
  function UpperInvariant(c: char): char
  {
    if 'a' <= c <= 'z' then (c as int - 32) as char
    else if '\U{E0}' <= c <= '\U{FE}' && c != '\U{F7}' then (c as int - 32) as char
    else if c == '\U{FF}' then '\U{178}'
    else if (('\U{100}' <= c <= '\U{12F}') || ('\U{132}' <= c <= '\U{137}') || ('\U{14A}' <= c <= '\U{177}'))
            && c as int % 2 == 1 then (c as int - 1) as char
    else if (('\U{139}' <= c <= '\U{148}') || ('\U{179}' <= c <= '\U{17E}'))
            && c as int % 2 == 0 then (c as int - 1) as char
    else c
  }

  /** a.Equals(b, StringComparison.OrdinalIgnoreCase): same length, and the
      characters at each position agree after upper-casing. */
  predicate EqualsIgnoreCase(a: string, b: string)
  {
    |a| == |b| && forall i :: 0 <= i < |a| ==> UpperInvariant(a[i]) == UpperInvariant(b[i])
  }

  /** The string a character-by-character upper-casing gives. */
  function ToUpperInvariant(s: string): (r: string)
    ensures |r| == |s|
  {
    seq(|s|, i requires 0 <= i < |s| => UpperInvariant(s[i]))
  }

  /** Ignoring case is the same as comparing the upper-cased strings, so it is
      an equivalence: two names clash exactly when they upper-case alike. */
  lemma EqualsIgnoreCaseIffSameUpper(a: string, b: string)
    ensures EqualsIgnoreCase(a, b) <==> ToUpperInvariant(a) == ToUpperInvariant(b)
  {
    if ToUpperInvariant(a) == ToUpperInvariant(b) {
      forall i | 0 <= i < |a|
        ensures UpperInvariant(a[i]) == UpperInvariant(b[i])
      {
        assert ToUpperInvariant(a)[i] == ToUpperInvariant(b)[i];
      }
    }
  }

  /** Two strings that differ at most in the case of ASCII letters are equal
      ignoring case. */
  lemma AsciiCaseVariants(a: string, b: string)
    requires |a| == |b|
    requires forall i :: 0 <= i < |a| ==>
               a[i] == b[i] || ('a' <= a[i] <= 'z' && b[i] as int == a[i] as int - 32)
               || ('a' <= b[i] <= 'z' && a[i] as int == b[i] as int - 32)
    ensures EqualsIgnoreCase(a, b)
  {
  }

  function Digit(d: nat): (c: char)
    requires d < 10
    ensures '0' <= c <= '9'
  {
    "0123456789"[d]
  }

  predicate AllDigits(s: string)
  {
    forall i :: 0 <= i < |s| ==> '0' <= s[i] <= '9'
  }

  /** The text `n.ToString()` gives for a non-negative number. */
  function Decimal(n: nat): (s: string)
    ensures |s| >= 1 && AllDigits(s)
    ensures |s| > 1 ==> s[0] != '0'
  {
    if n < 10 then [Digit(n)] else Decimal(n / 10) + [Digit(n % 10)]
  }

  /** The number a string of decimal digits denotes. */
  function DigitsValue(s: string): nat
    requires AllDigits(s)
  {
    if s == [] then 0 else DigitsValue(s[..|s| - 1]) * 10 + (s[|s| - 1] as int - '0' as int)
  }

  /** The ordinal printed before a root reads back as the same number, so the
      number a user copies from the listing selects that root. */
  lemma {:induction false} DecimalRoundTrip(n: nat)
    ensures DigitsValue(Decimal(n)) == n
  {
    if n >= 10 {
      DecimalRoundTrip(n / 10);
      var s := Decimal(n);
      assert s[..|s| - 1] == Decimal(n / 10);
    }
  }
}
