/**
  The few Python string built-ins the validators lean on, stated over `seq<char>`:
  `str.isspace` / `str.strip`, `str.index`, `str(int)` and the decimal-digit
  reading of a numeral.
 */
module PyText {

  /** The ASCII characters Python counts as whitespace: blank, `\t \n \v \f \r`, and the four separators 0x1c-0x1f. */
  const AsciiWhitespace: string := " \t\n\U{0b}\U{0c}\r\U{1c}\U{1d}\U{1e}\U{1f}"

  /**
    The characters beyond ASCII that Python counts as whitespace: next line,
    no-break space, ogham space mark, the eleven spaces U+2000-U+200A, the
    line and paragraph separators, narrow no-break, medium mathematical and
    ideographic space.
   */
  const NonAsciiWhitespace: string :=
    "\U{85}\U{a0}\U{1680}\U{2000}\U{2001}\U{2002}\U{2003}\U{2004}\U{2005}\U{2006}\U{2007}\U{2008}\U{2009}\U{200a}\U{2028}\U{2029}\U{202f}\U{205f}\U{3000}"

  /**
    Python's `str.isspace` on one character: exactly the characters
    `str.strip()` removes. On ASCII it is the listed set; beyond ASCII the
    Unicode space separators and the three line and paragraph separators.
   */
  predicate IsSpace(c: char) {
    || c == ' '
    || ('\t' <= c <= '\r')
    || ('\U{1c}' <= c <= '\U{1f}')
    || c == '\U{85}'
    || c == '\U{a0}'
    || c == '\U{1680}'
    || ('\U{2000}' <= c <= '\U{200a}')
    || c == '\U{2028}'
    || c == '\U{2029}'
    || c == '\U{202f}'
    || c == '\U{205f}'
    || c == '\U{3000}'
  }

  /**
    The whitespace set checked against independent lists: on ASCII it is
    exactly `AsciiWhitespace`, beyond it exactly `NonAsciiWhitespace`; NUL
    and everything above U+3000 are not in it.
   */
  lemma SpaceCharacters(c: char)
    ensures c < '\U{80}' ==> (IsSpace(c) <==> c in AsciiWhitespace)
    ensures '\U{80}' <= c ==> (IsSpace(c) <==> c in NonAsciiWhitespace)
    ensures IsSpace(c) ==> c != '\U{0}' && c <= '\U{3000}'
  {
  }

  /** Every character of `s` is whitespace (vacuously true of the empty string). */
  predicate AllSpace(s: string) {
    forall i :: 0 <= i < |s| ==> IsSpace(s[i])
  }

  /** Joining two runs of whitespace gives a run of whitespace. */
  lemma AllSpaceConcat(a: string, b: string)
    requires AllSpace(a) && AllSpace(b)
    ensures AllSpace(a + b)
  {
    forall i | 0 <= i < |a + b|
      ensures IsSpace((a + b)[i])
    {
      if i < |a| {
        assert (a + b)[i] == a[i];
      } else {
        assert (a + b)[i] == b[i - |a|];
      }
    }
  }

  /** `s.lstrip()`: the longest suffix of `s` not starting with whitespace. */
  function LStrip(s: string): (r: string)
    ensures |r| <= |s| && r == s[|s| - |r|..]
    ensures AllSpace(s[..|s| - |r|])
    ensures r != [] ==> !IsSpace(r[0])
  {
    if s != [] && IsSpace(s[0]) then
      var t := s[1..];
      var r := LStrip(t);
      assert r == s[|s| - |r|..] by {
        assert r == t[|t| - |r|..];
      }
      assert AllSpace(s[..|s| - |r|]) by {
        assert AllSpace([s[0]]);
        AllSpaceConcat([s[0]], t[..|t| - |r|]);
        assert s[..|s| - |r|] == [s[0]] + t[..|t| - |r|];
      }
      r
    else
      assert s[..0] == [];
      s
  }

  /** `s.rstrip()`: the longest prefix of `s` not ending in whitespace. */
  function RStrip(s: string): (r: string)
    ensures |r| <= |s| && r == s[..|r|]
    ensures AllSpace(s[|r|..])
    ensures r != [] ==> !IsSpace(r[|r| - 1])
  {
    if s != [] && IsSpace(s[|s| - 1]) then
      var t := s[..|s| - 1];
      var r := RStrip(t);
      assert r == s[..|r|] by {
        assert r == t[..|r|];
      }
      assert AllSpace(s[|r|..]) by {
        assert AllSpace([s[|s| - 1]]);
        AllSpaceConcat(t[|r|..], [s[|s| - 1]]);
        assert s[|r|..] == t[|r|..] + [s[|s| - 1]];
      }
      r
    else
      s
  }

  /**
    `s.strip()`: `s` with its leading and trailing whitespace removed. What is
    kept neither starts nor ends with whitespace, and nothing is left exactly
    when `s` is all whitespace.
   */
  function Strip(s: string): (r: string)
    ensures |r| <= |s|
    ensures r != [] ==> !IsSpace(r[0]) && !IsSpace(r[|r| - 1])
    ensures r == [] <==> AllSpace(s)
  {
    var t := LStrip(s);
    assert s == s[..|s| - |t|] + t;
    RStrip(t)
  }

  /** `r` is the piece `s[lo..lo + |r|]`, with only whitespace before and after it. */
  predicate InfixBetweenSpaces(s: string, lo: nat, r: string) {
    && lo + |r| <= |s|
    && r == s[lo..lo + |r|]
    && AllSpace(s[..lo])
    && AllSpace(s[lo + |r|..])
  }

  /** What `Strip` keeps is one contiguous piece of `s`, and everything around it is whitespace. */
  lemma StripKeepsInfix(s: string)
    ensures InfixBetweenSpaces(s, |s| - |LStrip(s)|, Strip(s))
  {
    var t := LStrip(s);
    PrefixOfSuffix(s, t, RStrip(t));
  }

  /** A prefix `r` of a suffix `t` of `s`, with whitespace before `t` and after `r`, sits in `s` between whitespace. */
  lemma PrefixOfSuffix(s: string, t: string, r: string)
    requires |t| <= |s| && t == s[|s| - |t|..] && AllSpace(s[..|s| - |t|])
    requires |r| <= |t| && r == t[..|r|] && AllSpace(t[|r|..])
    ensures InfixBetweenSpaces(s, |s| - |t|, r)
  {
    assert s[|s| - |t| + |r|..] == t[|r|..];
  }

  /** The position of the first occurrence of `c` in `s`; like Python's `s.index(c)`, it needs `c in s`. */
  function IndexOf(s: string, c: char): (i: nat)
    requires c in s
    ensures i < |s| && s[i] == c
    ensures c !in s[..i]
  {
    if s[0] == c then 0
    else
      var i := 1 + IndexOf(s[1..], c);
      assert s[..i] == [s[0]] + s[1..][..i - 1];
      i
  }

  /** An ASCII decimal digit. */
  predicate IsDigit(c: char) {
    '0' <= c <= '9'
  }

  predicate AllDigits(s: string) {
    forall i :: 0 <= i < |s| ==> IsDigit(s[i])
  }

  function DigitChar(d: nat): (c: char)
    requires d < 10
    ensures IsDigit(c)
  {
    ('0' as int + d) as char
  }

  function DigitValue(c: char): (d: nat)
    requires IsDigit(c)
    ensures d < 10 && DigitChar(d) == c
  {
    c as int - '0' as int
  }

  /** The number a string of decimal digits denotes (leading zeros allowed, as in an exponent "05"). */
  function ParseNat(s: string): nat
    requires AllDigits(s)
  {
    if s == [] then 0 else ParseNat(s[..|s| - 1]) * 10 + DigitValue(s[|s| - 1])
  }

  /** Python's `str(n)` for a natural number: its shortest decimal numeral. */
  function NatToStr(n: nat): (s: string)
    ensures |s| >= 1 && AllDigits(s)
    ensures s[0] == '0' ==> n == 0
  {
    if n < 10 then [DigitChar(n)] else NatToStr(n / 10) + [DigitChar(n % 10)]
  }

  /** Reading back the numeral Python prints for `n` gives `n`. */
  lemma {:induction false} ParseNatToStr(n: nat)
    ensures ParseNat(NatToStr(n)) == n
  {
    if n >= 10 {
      var s := NatToStr(n);
      assert s[..|s| - 1] == NatToStr(n / 10);
      ParseNatToStr(n / 10);
    }
  }

  /** Python's `str(i)` for any integer: a minus sign for negatives, then the digits. */
  function IntToStr(i: int): (s: string)
    ensures '.' !in s && 'e' !in s && 'E' !in s
  {
    if i < 0 then "-" + NatToStr(-i) else NatToStr(i)
  }

  /** The integer an optionally signed numeral denotes: the inverse partner of `IntToStr`. */
  function ParseInt(s: string): int
    requires (|s| > 0 && s[0] == '-' && AllDigits(s[1..])) || AllDigits(s)
  {
    if |s| > 0 && s[0] == '-' then 0 - ParseNat(s[1..]) else ParseNat(s)
  }

  /** `int(str(i)) == i`: printing an integer loses nothing. */
  lemma IntToStrRoundTrip(i: int)
    ensures var s := IntToStr(i);
            ((|s| > 0 && s[0] == '-' && AllDigits(s[1..])) || AllDigits(s)) && ParseInt(s) == i
  {
    if i < 0 {
      assert IntToStr(i)[1..] == NatToStr(-i);
      ParseNatToStr(-i);
    } else {
      ParseNatToStr(i);
    }
  }

  /** The exponent marker of a Python float (`e`) or Decimal (`E`) numeral. */
  predicate IsExponentMarker(c: char) {
    c == 'e' || c == 'E'
  }

  predicate HasExponent(s: string) {
    exists i :: 0 <= i < |s| && IsExponentMarker(s[i])
  }

  /** Where the first exponent marker of `s` sits. */
  function ExponentIndex(s: string): (i: nat)
    requires HasExponent(s)
    ensures i < |s| && IsExponentMarker(s[i])
    ensures !HasExponent(s[..i])
  {
    if IsExponentMarker(s[0]) then 0
    else
      assert HasExponent(s[1..]) by {
        var j :| 0 <= j < |s| && IsExponentMarker(s[j]);
        assert s[1..][j - 1] == s[j];
      }
      var i := 1 + ExponentIndex(s[1..]);
      assert s[..i] == [s[0]] + s[1..][..i - 1];
      i
  }

  /** The part of a numeral before its exponent: the whole numeral when it has none. */
  function Mantissa(s: string): (m: string)
    ensures !HasExponent(m)
    ensures |m| <= |s| && m == s[..|m|]
    ensures !HasExponent(s) ==> m == s
  {
    if HasExponent(s) then s[..ExponentIndex(s)] else s
  }

  /** The first exponent marker of `m + [e] + t`, when `m` has none, is the one after `m`. */
  lemma ExponentIndexAfter(m: string, e: char, t: string)
    requires !HasExponent(m) && IsExponentMarker(e)
    ensures HasExponent(m + [e] + t)
    ensures ExponentIndex(m + [e] + t) == |m|
  {
    var s := m + [e] + t;
    assert s[|m|] == e;
  }
}
