/** Decimal digit strings, the two integer parsers the code relies on
    (JavaScript `parseInt` and Java `Integer.parseInt`), and ASCII case folding. */
module Digits {
  import opened Wrappers

  predicate IsDigit(c: char) { '0' <= c <= '9' }

  predicate AllDigits(s: string) { forall i :: 0 <= i < |s| ==> IsDigit(s[i]) }

  predicate NoDigits(s: string) { forall i :: 0 <= i < |s| ==> !IsDigit(s[i]) }

  function DigitValue(c: char): (d: nat)
    requires IsDigit(c)
    ensures d < 10
  {
    c as int - '0' as int
  }

  function DigitChar(d: nat): (c: char)
    requires d < 10
    ensures IsDigit(c) && DigitValue(c) == d
  {
    ('0' as int + d) as char
  }

  function Pow10(k: nat): (p: nat)
    ensures p >= 1
  {
    if k == 0 then 1 else 10 * Pow10(k - 1)
  }

  /** The value of a digit string read in base 10, most significant digit first
      (`parseInt(d, 10)` on a string of digits, with exact arithmetic). */
  function DigitsValue(s: string): nat
    requires AllDigits(s)
  {
    if s == [] then 0 else DigitsValue(s[..|s| - 1]) * 10 + DigitValue(s[|s| - 1])
  }

  /** A string of `k` digits is worth less than `10^k`. */
  lemma {:induction false} DigitsValueBound(s: string)
    requires AllDigits(s)
    ensures DigitsValue(s) < Pow10(|s|)
  {
    if s != [] {
      DigitsValueBound(s[..|s| - 1]);
    }
  }

  /** `Number.prototype.toString()` of a non-negative integer: its shortest decimal
      spelling. `NatToDecimalReadsBack` gives its value. */
  function NatToDecimal(n: nat): (s: string)
    ensures |s| >= 1 && AllDigits(s)
  {
    if n < 10 then [DigitChar(n)] else NatToDecimal(n / 10) + [DigitChar(n % 10)]
  }

  /** The spelling reads back as the number and has no leading zero. */
  lemma {:induction false} NatToDecimalReadsBack(n: nat)
    ensures DigitsValue(NatToDecimal(n)) == n
    ensures |NatToDecimal(n)| == 1 || NatToDecimal(n)[0] != '0'
  {
    if n >= 10 {
      var high := NatToDecimal(n / 10);
      var s := NatToDecimal(n);
      NatToDecimalReadsBack(n / 10);
      assert s[..|s| - 1] == high;
      assert s[0] == high[0];
    }
  }

  /** The decimal spelling of `n` fits in `width` characters exactly when `n < 10^width`. */
  lemma {:induction false} DecimalWidth(n: nat, width: nat)
    requires width >= 1
    ensures |NatToDecimal(n)| <= width <==> n < Pow10(width)
  {
    if n >= 10 {
      if width == 1 {
        assert Pow10(1) == 10;
      } else {
        DecimalWidth(n / 10, width - 1);
        assert n / 10 < Pow10(width - 1) <==> n < 10 * Pow10(width - 1);
      }
    } else {
      PowAtLeastTen(width);
    }
  }

  lemma {:induction false} PowAtLeastTen(k: nat)
    requires k >= 1
    ensures Pow10(k) >= 10
  {
    if k > 1 { PowAtLeastTen(k - 1); }
  }

  function Repeat(c: char, count: nat): (s: string)
    ensures |s| == count
  {
    if count == 0 then [] else Repeat(c, count - 1) + [c]
  }

  lemma {:induction false} RepeatIsUniform(c: char, count: nat)
    ensures forall i :: 0 <= i < count ==> Repeat(c, count)[i] == c
  {
    if count > 0 {
      RepeatIsUniform(c, count - 1);
    }
  }

  /** `s.padStart(width, fill)`: `s` preceded by enough copies of `fill` to reach `width`. */
  function PadStart(s: string, width: nat, fill: char): (r: string)
    ensures |r| == if |s| >= width then |s| else width
  {
    if |s| >= width then s else Repeat(fill, width - |s|) + s
  }

  /** The padded string ends with `s` and is filled with `fill` before it. */
  lemma PadStartShape(s: string, width: nat, fill: char)
    ensures var r := PadStart(s, width, fill);
            && r[|r| - |s|..] == s
            && forall i :: 0 <= i < |r| - |s| ==> r[i] == fill
  {
    if |s| < width {
      RepeatIsUniform(fill, width - |s|);
    }
  }

  /** Leading zeros do not change the value of a digit string. */
  lemma {:induction false} LeadingZeros(zeros: string, s: string)
    requires forall i :: 0 <= i < |zeros| ==> zeros[i] == '0'
    requires AllDigits(s)
    ensures AllDigits(zeros + s) && DigitsValue(zeros + s) == DigitsValue(s)
  {
    if s == [] {
      assert zeros + s == zeros;
      AllZerosValue(zeros);
    } else {
      var init := s[..|s| - 1];
      assert (zeros + s)[..|zeros + s| - 1] == zeros + init;
      LeadingZeros(zeros, init);
    }
  }

  lemma {:induction false} AllZerosValue(zeros: string)
    requires forall i :: 0 <= i < |zeros| ==> zeros[i] == '0'
    ensures AllDigits(zeros) && DigitsValue(zeros) == 0
  {
    if zeros != [] {
      AllZerosValue(zeros[..|zeros| - 1]);
    }
  }

  /** The optional sign in front of a number's digits. */
  datatype Sign = NoSign | Plus | Minus

  function SignText(sign: Sign): (t: string)
    ensures |t| <= 1
  {
    match sign
    case NoSign => ""
    case Plus => "+"
    case Minus => "-"
  }

  /** The value a sign gives a digit run's value. */
  function Signed(sign: Sign, v: nat): int
  {
    if sign.Minus? then -(v as int) else v
  }

  /** The longest prefix of `s` made of digits. */
  function LeadingDigits(s: string): (d: string)
    ensures |d| <= |s| && d == s[..|d|] && AllDigits(d)
    ensures |d| == |s| || !IsDigit(s[|d|])
  {
    if s == [] || !IsDigit(s[0]) then [] else [s[0]] + LeadingDigits(s[1..])
  }

  /** JavaScript `parseInt(s)`: an optional sign, then the longest run of digits
      that follows; no digits at all gives `NaN`, here `None`. */
  function JsParseInt(s: string): (r: Option<int>)
    ensures r.Some? <==> |LeadingDigits(UnsignedPart(s))| > 0
  {
    var body := UnsignedPart(s);
    var digits := LeadingDigits(body);
    if digits == [] then None
    else if |s| > 0 && s[0] == '-' then Some(-(DigitsValue(digits) as int))
    else Some(DigitsValue(digits))
  }

  /** A run of digits followed by text that does not start with a digit: the run is
      the leading digits. */
  lemma {:induction false} LeadingDigitsOfRun(d: string, rest: string)
    requires AllDigits(d)
    requires rest == [] || !IsDigit(rest[0])
    ensures LeadingDigits(d + rest) == d
  {
    if d != [] {
      assert (d + rest)[1..] == d[1..] + rest;
      LeadingDigitsOfRun(d[1..], rest);
    }
  }

  /** `parseInt` reads an optional sign, then the digit run that follows, and
      ignores whatever comes after the run. */
  lemma JsParseIntReadsSignedDigits(sign: Sign, d: string, rest: string)
    requires |d| > 0 && AllDigits(d)
    requires rest == [] || !IsDigit(rest[0])
    ensures JsParseInt(SignText(sign) + (d + rest)) == Some(Signed(sign, DigitsValue(d)))
  {
    LeadingDigitsOfRun(d, rest);
    match sign {
      case NoSign =>
        assert SignText(sign) + (d + rest) == d + rest;
        JsParseIntOfUnsignedRun(d + rest, d);
      case Plus =>
        JsParseIntOfSignedRun('+', d + rest, d);
      case Minus =>
        JsParseIntOfSignedRun('-', d + rest, d);
    }
  }

  /** `parseInt` of text that starts with the digit run `d`. */
  lemma JsParseIntOfUnsignedRun(u: string, d: string)
    requires |d| > 0 && LeadingDigits(u) == d
    ensures JsParseInt(u) == Some(DigitsValue(d))
  {
    assert u[0] == d[0];
  }

  /** `parseInt` of a sign followed by text that starts with the digit run `d`. */
  lemma JsParseIntOfSignedRun(c: char, u: string, d: string)
    requires c == '+' || c == '-'
    requires |d| > 0 && LeadingDigits(u) == d
    ensures JsParseInt([c] + u) == Some(if c == '-' then -(DigitsValue(d) as int) else DigitsValue(d))
  {
    assert ([c] + u)[1..] == u;
  }

  /** The decimal text of an integer, as `String(id)` writes it into an option value,
      reads back as that integer. */
  lemma JsParseIntOfDecimal(n: nat)
    ensures JsParseInt(NatToDecimal(n)) == Some(n)
    ensures JsParseInt("-" + NatToDecimal(n)) == Some(-(n as int))
  {
    NatToDecimalReadsBack(n);
    var s := NatToDecimal(n);
    assert s + "" == s && "" + s == s;
    JsParseIntReadsSignedDigits(NoSign, s, "");
    JsParseIntReadsSignedDigits(Minus, s, "");
  }

  /** JavaScript truthiness of a parsed identifier: absent (`NaN`, `null`) and 0 are
      both false. */
  predicate Truthy(id: Option<int>) { id.Some? && id.value != 0 }

  /** `s` without a leading `+` or `-`. */
  function UnsignedPart(s: string): (body: string)
    ensures |s| > 0 && (s[0] == '-' || s[0] == '+') ==> body == s[1..]
    ensures !(|s| > 0 && (s[0] == '-' || s[0] == '+')) ==> body == s
  {
    if |s| > 0 && (s[0] == '-' || s[0] == '+') then s[1..] else s
  }

  const IntMin: int := -0x8000_0000
  const IntMax: int := 0x7FFF_FFFF

  /** Java `Integer.parseInt(s)`: an optional sign followed by at least one digit and
      nothing else, whose value lies in the 32-bit range; anything else is a
      `NumberFormatException`, here `None`. */
  function JavaParseInt(s: string): (r: Option<int>)
    ensures r.Some? ==> IntMin <= r.value <= IntMax
    ensures r.Some? ==> |UnsignedPart(s)| > 0 && AllDigits(UnsignedPart(s))
  {
    var body := UnsignedPart(s);
    if body == [] || !AllDigits(body) then None
    else InIntRange(Signed(SignOf(s), DigitsValue(body)))
  }

  /** The sign `s` starts with, if any. */
  function SignOf(s: string): (sign: Sign)
    ensures sign != NoSign <==> |s| > 0 && (s[0] == '-' || s[0] == '+')
    ensures sign == Minus <==> |s| > 0 && s[0] == '-'
  {
    if |s| > 0 && s[0] == '-' then Minus else if |s| > 0 && s[0] == '+' then Plus else NoSign
  }

  /** A value that fits a 32-bit `int`; anything outside is a `NumberFormatException`. */
  function InIntRange(v: int): (r: Option<int>)
    ensures r.Some? <==> IntMin <= v <= IntMax
    ensures r.Some? ==> r.value == v
  {
    if IntMin <= v <= IntMax then Some(v) else None
  }

  /** The shortest decimal spelling of every non-negative `int` parses back to itself. */
  lemma JavaParseIntOfDecimal(n: nat)
    requires n <= IntMax
    ensures JavaParseInt(NatToDecimal(n)) == Some(n)
  {
    var s := NatToDecimal(n);
    NatToDecimalReadsBack(n);
    assert IsDigit(s[0]);
    assert UnsignedPart(s) == s;
  }

  /** Conversely, every optional sign followed by digits whose value fits the 32-bit
      range is accepted with that value, leading zeros and a `+` included. */
  lemma JavaParseIntAcceptsSignedDigits(sign: Sign, digits: string)
    requires |digits| > 0 && AllDigits(digits)
    requires IntMin <= Signed(sign, DigitsValue(digits)) <= IntMax
    ensures JavaParseInt(SignText(sign) + digits) == Some(Signed(sign, DigitsValue(digits)))
  {
    SplitsAtSign(sign, digits);
  }

  /** A sign written in front of a run of digits is read back as that sign and
      that run. */
  lemma SplitsAtSign(sign: Sign, digits: string)
    requires |digits| > 0 && IsDigit(digits[0])
    ensures SignOf(SignText(sign) + digits) == sign
    ensures UnsignedPart(SignText(sign) + digits) == digits
  {
    var s := SignText(sign) + digits;
    if sign == NoSign {
      assert s == digits;
    } else {
      assert s[0] == SignText(sign)[0] && s[1..] == digits;
    }
  }

  /** A string holding a character that is neither a digit nor a leading sign is
      not a Java integer. */
  lemma JavaParseIntRejectsNonDigit(s: string, i: nat)
    requires i < |s| && !IsDigit(s[i])
    requires i > 0 || (s[0] != '-' && s[0] != '+')
    ensures JavaParseInt(s) == None
  {
    var body := UnsignedPart(s);
    if |s| > 0 && (s[0] == '-' || s[0] == '+') {
      assert body[i - 1] == s[i];
    } else {
      assert body[i] == s[i];
    }
  }

  function ToUpper(c: char): (u: char)
    ensures 'a' <= c <= 'z' ==> 'A' <= u <= 'Z' && u as int == c as int - 32
    ensures !('a' <= c <= 'z') ==> u == c
  {
    if 'a' <= c <= 'z' then (c as int - 32) as char else c
  }

  /** `String.toUpperCase()`, restricted to ASCII letters. */
  function UpperString(s: string): (u: string)
    ensures |u| == |s| && forall i :: 0 <= i < |s| ==> u[i] == ToUpper(s[i])
  {
    if s == [] then [] else [ToUpper(s[0])] + UpperString(s[1..])
  }

  /** Java `String.equalsIgnoreCase`, restricted to ASCII letters. */
  predicate EqualsIgnoreCase(a: string, b: string) {
    UpperString(a) == UpperString(b)
  }

  /** `needle` occurs in `hay` as a contiguous piece. */
  predicate Contains(hay: string, needle: string) {
    exists i :: 0 <= i <= |hay| - |needle| && OccursAt(hay, needle, i)
  }

  predicate OccursAt(hay: string, needle: string, i: int) {
    0 <= i <= |hay| - |needle| && hay[i..i + |needle|] == needle
  }
}
