/**
 * The few JavaScript string operations the front ends rely on: `includes`,
 * `toLowerCase` on addresses, `replace(/[^0-9]/g, '')`, `parseInt` and the
 * decimal rendering of a number inside a template literal.
 */
module JsText {
  import opened Wrappers

  predicate IsDigit(c: char) { '0' <= c <= '9' }

  predicate AllDigits(s: string) { forall i :: 0 <= i < |s| ==> IsDigit(s[i]) }

  function DigitValue(c: char): nat requires IsDigit(c) { (c as int) - ('0' as int) }

  function DigitChar(d: nat): (c: char)
    requires d < 10
    ensures IsDigit(c) && DigitValue(c) == d
  {
    (('0' as int) + d) as char
  }

  // ---------------------------------------------------------------------------
  // String.prototype.includes

  /** `s.includes(needle)`: scans the start positions of `s` from left to right. */
  function Contains(s: string, needle: string): bool
    decreases |s|
  {
    if |needle| <= |s| && s[..|needle|] == needle then true
    else if |s| == 0 then false
    else Contains(s[1..], needle)
  }

  ghost predicate OccursAt(s: string, needle: string, i: int)
  {
    0 <= i && i + |needle| <= |s| && s[i..i + |needle|] == needle
  }

  /** The scan finds the needle exactly when it occurs at some position. */
  lemma {:induction false} ContainsMeansOccurs(s: string, needle: string)
    ensures Contains(s, needle) <==> exists i :: OccursAt(s, needle, i)
    decreases |s|
  {
    if |needle| <= |s| && s[..|needle|] == needle {
      assert OccursAt(s, needle, 0);
    } else if |s| == 0 {
    } else {
      ContainsMeansOccurs(s[1..], needle);
      if Contains(s[1..], needle) {
        var i :| OccursAt(s[1..], needle, i);
        OccursInTail(s, needle, i);
      } else {
        forall i ensures !OccursAt(s, needle, i) {
          if 0 < i {
            OccursInTail(s, needle, i - 1);
          }
        }
      }
    }
  }

  /** An occurrence in `s[1..]` is one position further on in `s`. */
  lemma OccursInTail(s: string, needle: string, i: int)
    requires |s| > 0 && 0 <= i
    ensures OccursAt(s[1..], needle, i) <==> OccursAt(s, needle, i + 1)
  {
    if i + 1 + |needle| <= |s| {
      assert s[1..][i..i + |needle|] == s[i + 1..i + 1 + |needle|];
    }
  }

  /** A string that starts with the needle contains it, whatever follows. */
  lemma ContainsWhenPrefix(needle: string, rest: string)
    ensures Contains(needle + rest, needle)
  {
    assert (needle + rest)[..|needle|] == needle;
  }

  // ---------------------------------------------------------------------------
  // String.prototype.toLowerCase on the ASCII letters an address is written in

  function LowerChar(c: char): char
  {
    if 'A' <= c <= 'Z' then ((c as int) + 32) as char else c
  }

  function Lower(s: string): string
  {
    seq(|s|, i requires 0 <= i < |s| => LowerChar(s[i]))
  }

  /** Lowering twice is lowering once. */
  lemma LowerIdempotent(s: string)
    ensures Lower(Lower(s)) == Lower(s)
  {
  }

  // ---------------------------------------------------------------------------
  // value.replace(/[^0-9]/g, '')

  /** Deletes every character that is not a decimal digit. */
  function StripNonDigits(s: string): (r: string)
    ensures AllDigits(r) && |r| <= |s|
  {
    if |s| == 0 then ""
    else (if IsDigit(s[0]) then [s[0]] else "") + StripNonDigits(s[1..])
  }

  /** Stripping works piecewise, so the digits survive in their original order. */
  lemma {:induction false} StripNonDigitsAppend(a: string, b: string)
    ensures StripNonDigits(a + b) == StripNonDigits(a) + StripNonDigits(b)
    decreases |a|
  {
    if |a| == 0 {
      assert a + b == b;
    } else {
      assert (a + b)[1..] == a[1..] + b;
      StripNonDigitsAppend(a[1..], b);
    }
  }

  /** A string of digits is left as it is; so stripping is idempotent. */
  lemma {:induction false} StripNonDigitsKeepsDigits(s: string)
    requires AllDigits(s)
    ensures StripNonDigits(s) == s
    decreases |s|
  {
    if |s| > 0 {
      StripNonDigitsKeepsDigits(s[1..]);
    }
  }

  // ---------------------------------------------------------------------------
  // Decimal numerals

  /** The number a string of decimal digits denotes (leading zeros allowed). */
  function DigitsValue(s: string): nat
    requires AllDigits(s)
  {
    if |s| == 0 then 0
    else 10 * DigitsValue(s[..|s| - 1]) + DigitValue(s[|s| - 1])
  }

  /** `${n}` for a non-negative integer: its shortest decimal numeral. */
  function NatToString(n: nat): (r: string)
    ensures |r| >= 1 && AllDigits(r)
  {
    if n < 10 then [DigitChar(n)] else NatToString(n / 10) + [DigitChar(n % 10)]
  }

  /** Rendering a number and reading it back gives the number. */
  lemma {:induction false} NatToStringRoundTrip(n: nat)
    ensures DigitsValue(NatToString(n)) == n
  {
    if n >= 10 {
      var t := NatToString(n / 10);
      NatToStringRoundTrip(n / 10);
      assert (t + [DigitChar(n % 10)])[..|t|] == t;
    }
  }

  /** The rendering never starts with a redundant zero. */
  lemma {:induction false} NatToStringNoLeadingZero(n: nat)
    ensures NatToString(n)[0] == '0' <==> n == 0
  {
    if n >= 10 {
      NatToStringNoLeadingZero(n / 10);
    }
  }

  // ---------------------------------------------------------------------------
  // parseInt(s) with no radix argument

  /**
   * The characters `parseInt` skips at the front: the ECMAScript WhiteSpace
   * code points (tab, vertical tab, form feed, no-break space, the byte order
   * mark and the Unicode space separators) and the LineTerminator ones.
   */
  predicate IsJsSpace(c: char)
  {
    c == '\t' || c == '\U{000B}' || c == '\U{000C}' || c == '\U{FEFF}'
      || c == '\n' || c == '\r' || c == '\U{2028}' || c == '\U{2029}'
      || c == ' ' || c == '\U{00A0}' || c == '\U{1680}' || ('\U{2000}' <= c <= '\U{200A}')
      || c == '\U{202F}' || c == '\U{205F}' || c == '\U{3000}'
  }

  function TrimStart(s: string): (r: string)
    ensures |r| <= |s| && r == s[|s| - |r|..]
    ensures |r| > 0 ==> !IsJsSpace(r[0])
    ensures forall i :: 0 <= i < |s| - |r| ==> IsJsSpace(s[i])
  {
    if |s| > 0 && IsJsSpace(s[0]) then TrimStart(s[1..]) else s
  }

  /** The longest prefix of decimal digits. */
  function LeadingDigits(s: string): (r: string)
    ensures AllDigits(r) && |r| <= |s| && r == s[..|r|]
    ensures |r| < |s| ==> !IsDigit(s[|r|])
  {
    if |s| > 0 && IsDigit(s[0]) then [s[0]] + LeadingDigits(s[1..]) else ""
  }

  predicate IsHexDigit(c: char) { IsDigit(c) || 'a' <= c <= 'f' || 'A' <= c <= 'F' }

  predicate AllHexDigits(s: string) { forall i :: 0 <= i < |s| ==> IsHexDigit(s[i]) }

  function HexDigitValue(c: char): (v: nat)
    requires IsHexDigit(c)
    ensures v < 16
  {
    if IsDigit(c) then DigitValue(c)
    else if 'a' <= c <= 'f' then (c as int) - ('a' as int) + 10
    else (c as int) - ('A' as int) + 10
  }

  /** The number a string of hexadecimal digits denotes. */
  function HexValue(s: string): nat
    requires AllHexDigits(s)
  {
    if |s| == 0 then 0
    else 16 * HexValue(s[..|s| - 1]) + HexDigitValue(s[|s| - 1])
  }

  /** The longest prefix of hexadecimal digits. */
  function LeadingHexDigits(s: string): (r: string)
    ensures AllHexDigits(r) && |r| <= |s| && r == s[..|r|]
    ensures |r| < |s| ==> !IsHexDigit(s[|r|])
  {
    if |s| > 0 && IsHexDigit(s[0]) then [s[0]] + LeadingHexDigits(s[1..]) else ""
  }

  /** After the sign, `0x` or `0X` switches parseInt to base 16. */
  predicate HasHexPrefix(s: string)
  {
    |s| >= 2 && s[0] == '0' && (s[1] == 'x' || s[1] == 'X')
  }

  /**
   * `parseInt(s)` without a radix: skips leading white space, reads an
   * optional sign, then the digits `ParseMagnitude` reads.  `None` is NaN
   * (no digit at all).  The sign of a zero is not kept: `-0` and `0` are
   * both falsy, which is all the call sites look at.
   */
  function ParseInt(s: string): Option<int>
  {
    var t := TrimStart(s);
    var negative := |t| > 0 && t[0] == '-';
    var body := if |t| > 0 && (t[0] == '-' || t[0] == '+') then t[1..] else t;
    match ParseMagnitude(body)
    case None => None
    case Some(magnitude) => if negative then Some(-(magnitude as int)) else Some(magnitude)
  }

  /**
   * What follows the sign: a `0x`/`0X` prefix selects hexadecimal and
   * anything else decimal, and as many digits of that base as there are are
   * read; `None` when there is not one.
   */
  function ParseMagnitude(body: string): Option<nat>
  {
    if HasHexPrefix(body) then
      var digits := LeadingHexDigits(body[2..]);
      if digits == "" then None else Some(HexValue(digits))
    else
      var digits := LeadingDigits(body);
      if digits == "" then None else Some(DigitsValue(digits))
  }

  /** On a non-empty string of digits parseInt reads the whole numeral. */
  lemma ParseIntOfDigits(s: string)
    requires |s| > 0 && AllDigits(s)
    ensures ParseInt(s) == Some(DigitsValue(s))
  {
    assert IsDigit(s[0]);
    assert !IsJsSpace(s[0]);
    assert TrimStart(s) == s;
    assert s[0] != '-' && s[0] != '+';
    MagnitudeOfDigits(s);
  }

  /** A numeral has no `0x` prefix, so all of it is read in base 10. */
  lemma MagnitudeOfDigits(s: string)
    requires |s| > 0 && AllDigits(s)
    ensures ParseMagnitude(s) == Some(DigitsValue(s))
  {
    assert !HasHexPrefix(s) by {
      if |s| >= 2 {
        assert IsDigit(s[1]);
      }
    }
    LeadingDigitsOfDigits(s);
  }

  lemma {:induction false} LeadingDigitsOfDigits(s: string)
    requires AllDigits(s)
    ensures LeadingDigits(s) == s
    decreases |s|
  {
    if |s| > 0 {
      LeadingDigitsOfDigits(s[1..]);
    }
  }

  /** parseInt reads back what a template literal writes, for either sign. */
  lemma ParseIntRoundTrip(n: nat)
    ensures ParseInt(NatToString(n)) == Some(n)
    ensures ParseInt("-" + NatToString(n)) == Some(-(n as int))
  {
    var d := NatToString(n);
    NatToStringRoundTrip(n);
    ParseIntOfDigits(d);
    var m := "-" + d;
    assert m[0] == '-' && m[1..] == d;
    ParseIntOfNegative(m);
  }

  /** A minus sign in front of a numeral negates what parseInt reads. */
  lemma ParseIntOfNegative(m: string)
    requires |m| > 1 && m[0] == '-' && AllDigits(m[1..])
    ensures ParseInt(m) == Some(-(DigitsValue(m[1..]) as int))
  {
    assert TrimStart(m) == m;
    MagnitudeOfDigits(m[1..]);
  }

  /** A `0x` prefix followed by hexadecimal digits is read in base 16. */
  lemma ParseIntOfHex(h: string)
    requires |h| > 0 && AllHexDigits(h)
    ensures ParseInt("0x" + h) == Some(HexValue(h))
  {
    var m := "0x" + h;
    assert m[0] == '0';
    assert TrimStart(m) == m;
    MagnitudeOfHex(m);
  }

  lemma MagnitudeOfHex(m: string)
    requires HasHexPrefix(m) && |m| > 2 && AllHexDigits(m[2..])
    ensures ParseMagnitude(m) == Some(HexValue(m[2..]))
  {
    LeadingHexDigitsOfHex(m[2..]);
  }

  lemma {:induction false} LeadingHexDigitsOfHex(s: string)
    requires AllHexDigits(s)
    ensures LeadingHexDigits(s) == s
    decreases |s|
  {
    if |s| > 0 {
      LeadingHexDigitsOfHex(s[1..]);
    }
  }
}
