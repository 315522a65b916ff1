/**
 * The part of ECMAScript's number handling that the member editor relies on: the global
 * `parseInt(string)` with no radix argument (section 19.2.5 of ECMA-262, 2022 edition), applied
 * to the ratio field, and the decimal text `Number::toString` gives an integer, which `parseInt`
 * reads when the ratio is still a number rather than typed text.
 *
 * JavaScript numbers are modelled by unbounded integers: rounding to a double is not modelled.
 */
module Numbers {

  /** The result of `parseInt`: `NaN` or an integer (`-0` is identified with `0`). */
  datatype ParsedInt = NaN | Int(value: int)

  /** WhiteSpace and LineTerminator code points, which `parseInt` skips at the start (TrimString). */
  predicate IsWhiteSpace(c: char)
  {
    || c == '\t' || c == '\n' || c == '\U{000B}' || c == '\U{000C}' || c == '\r'
    || c == ' ' || c == '\U{00A0}' || c == '\U{1680}'
    || ('\U{2000}' <= c <= '\U{200A}')
    || c == '\U{2028}' || c == '\U{2029}' || c == '\U{202F}' || c == '\U{205F}'
    || c == '\U{3000}' || c == '\U{FEFF}'
  }

  predicate AllWhiteSpace(s: string)
  {
    s == [] || (IsWhiteSpace(s[0]) && AllWhiteSpace(s[1..]))
  }

  /** The value of a digit 0-9, a-z or A-Z; 36 for every other character. */
  function DigitValue(c: char): (d: nat)
    ensures d <= 36
  {
    if '0' <= c <= '9' then c as int - '0' as int
    else if 'a' <= c <= 'z' then c as int - 'a' as int + 10
    else if 'A' <= c <= 'Z' then c as int - 'A' as int + 10
    else 36
  }

  /** A radix-`radix` digit, for a radix between 2 and 36. */
  predicate IsDigit(c: char, radix: nat)
  {
    DigitValue(c) < radix
  }

  predicate AllDigits(z: string, radix: nat)
  {
    z == [] || (IsDigit(z[0], radix) && AllDigits(z[1..], radix))
  }

  /** The leading white space removed. */
  function TrimStart(s: string): (r: string)
    ensures |r| <= |s|
  {
    if s != [] && IsWhiteSpace(s[0]) then TrimStart(s[1..]) else s
  }

  /** `TrimStart` removes exactly the leading white space: a suffix that starts with something else. */
  lemma {:induction false} TrimStartDropsWhiteSpace(s: string)
    ensures var r := TrimStart(s);
            r == s[|s| - |r|..] && AllWhiteSpace(s[..|s| - |r|]) && (r == [] || !IsWhiteSpace(r[0]))
  {
    if s != [] && IsWhiteSpace(s[0]) {
      TrimStartDropsWhiteSpace(s[1..]);
      var r := TrimStart(s);
      assert s[..|s| - |r|][1..] == s[1..][..|s| - 1 - |r|];
    }
  }

  /** The length of the longest prefix of `s` made of radix-`radix` digits. */
  function DigitRunLength(s: string, radix: nat): (n: nat)
    ensures n <= |s|
  {
    if s != [] && IsDigit(s[0], radix) then 1 + DigitRunLength(s[1..], radix) else 0
  }

  /** The digit run is made of digits and is followed by a non-digit or the end. */
  lemma {:induction false} DigitRunIsLongest(s: string, radix: nat)
    ensures var n := DigitRunLength(s, radix);
            AllDigits(s[..n], radix) && (n < |s| ==> !IsDigit(s[n], radix))
  {
    if s != [] && IsDigit(s[0], radix) {
      DigitRunIsLongest(s[1..], radix);
      var n := DigitRunLength(s, radix);
      assert s[..n][1..] == s[1..][..n - 1];
    }
  }

  /** The value of a string of digits, most significant first. */
  function DigitsValue(z: string, radix: nat): nat
    decreases |z|
  {
    if z == [] then 0 else DigitsValue(z[..|z| - 1], radix) * radix + DigitValue(z[|z| - 1])
  }

  /** The text after an optional leading `+` or `-`. */
  function StripSign(t: string): (u: string)
    ensures |u| <= |t|
  {
    if t != [] && (t[0] == '+' || t[0] == '-') then t[1..] else t
  }

  /** Whether a sign-stripped text starts with the `0x` / `0X` prefix that selects radix 16. */
  predicate HasHexPrefix(u: string)
  {
    |u| >= 2 && u[0] == '0' && (u[1] == 'x' || u[1] == 'X')
  }

  function Radix(u: string): nat
  {
    if HasHexPrefix(u) then 16 else 10
  }

  /** The text where the digits start: after the `0x` prefix, if any. */
  function Digits(u: string): (v: string)
    ensures |v| <= |u|
  {
    if HasHexPrefix(u) then u[2..] else u
  }

  /** The longest prefix of `v` that is made of radix-`radix` digits. */
  function LeadingDigits(v: string, radix: nat): (z: string)
    ensures |z| <= |v|
  {
    v[..DigitRunLength(v, radix)]
  }

  /**
   * `parseInt(s)` with the radix argument absent: skip leading white space, take an optional
   * sign, let a `0x` prefix select radix 16 (radix 10 otherwise), and read the longest run of
   * digits; no digits at all is NaN.
   */
  function ParseInt(s: string): (r: ParsedInt)
    ensures r.Int? ==> StartsNumber(TrimStart(s))
  {
    ParseTrimmed(TrimStart(s))
  }

  /** Where `parseInt` can find a number: a decimal digit, possibly after one sign. */
  predicate StartsNumber(t: string)
  {
    || (t != [] && IsDigit(t[0], 10))
    || (|t| >= 2 && (t[0] == '+' || t[0] == '-') && IsDigit(t[1], 10))
  }

  /** `parseInt` once the leading white space is gone: the sign, then the number. */
  function ParseTrimmed(t: string): (r: ParsedInt)
    ensures r.Int? ==> StartsNumber(t)
  {
    ParseUnsigned(StripSign(t), t != [] && t[0] == '-')
  }

  /** `parseInt` once the sign is gone: a number needs a leading digit (`0` for `0x`). */
  function ParseUnsigned(u: string, negative: bool): (r: ParsedInt)
    ensures r.Int? ==> u != [] && IsDigit(u[0], 10)
  {
    var z := LeadingDigits(Digits(u), Radix(u));
    if z == [] then NaN
    else if negative then Int(-(DigitsValue(z, Radix(u)) as int))
    else Int(DigitsValue(z, Radix(u)))
  }

  /** An optional sign: empty, `+` or `-`. */
  predicate IsSign(sign: string)
  {
    |sign| <= 1 && (sign != [] ==> sign[0] == '+' || sign[0] == '-')
  }

  function DigitChar(d: nat): (c: char)
    requires d < 10
    ensures IsDigit(c, 10) && DigitValue(c) == d
  {
    ('0' as int + d) as char
  }

  lemma {:induction false} AllDigitsConcat(a: string, b: string, radix: nat)
    ensures AllDigits(a + b, radix) <==> AllDigits(a, radix) && AllDigits(b, radix)
  {
    if a != [] {
      assert (a + b)[1..] == a[1..] + b;
      AllDigitsConcat(a[1..], b, radix);
    } else {
      assert a + b == b;
    }
  }

  /** The decimal digits of a natural number, without leading zeros. */
  function DecimalDigits(n: nat): (s: string)
    ensures s != [] && AllDigits(s, 10)
    ensures s[0] == '0' ==> n == 0
  {
    if n < 10 then [DigitChar(n)]
    else
      var s := DecimalDigits(n / 10) + [DigitChar(n % 10)];
      AllDigitsConcat(DecimalDigits(n / 10), [DigitChar(n % 10)], 10);
      s
  }

  /** `Number::toString` of an integer-valued number written without exponent. */
  function NumberToString(n: int): (s: string)
    ensures s != [] && (s[0] == '-' <==> n < 0)
    ensures var d := if n < 0 then s[1..] else s;
            d != [] && AllDigits(d, 10) && (d[0] == '0' ==> n == 0)
  {
    if n < 0 then "-" + DecimalDigits(-n) else DecimalDigits(n)
  }

  /** Reading back the decimal digits of `n` gives `n`. */
  lemma {:induction false} DecimalDigitsValue(n: nat)
    ensures DigitsValue(DecimalDigits(n), 10) == n
  {
    if n >= 10 {
      DecimalDigitsValue(n / 10);
      var s := DecimalDigits(n);
      assert s[..|s| - 1] == DecimalDigits(n / 10);
    }
  }

  /** White space followed by a non-space text trims to that text. */
  lemma {:induction false} TrimStartSkips(ws: string, t: string)
    requires AllWhiteSpace(ws)
    requires t == [] || !IsWhiteSpace(t[0])
    ensures TrimStart(ws + t) == t
  {
    if ws != [] {
      assert (ws + t)[1..] == ws[1..] + t;
      TrimStartSkips(ws[1..], t);
    }
  }

  /** The digit run of `digits + rest` is `digits` when `rest` does not start with a digit. */
  lemma {:induction false} DigitRunStopsAtRest(digits: string, rest: string, radix: nat)
    requires AllDigits(digits, radix)
    requires rest == [] || !IsDigit(rest[0], radix)
    ensures LeadingDigits(digits + rest, radix) == digits
  {
    if digits != [] {
      assert (digits + rest)[1..] == digits[1..] + rest;
      DigitRunStopsAtRest(digits[1..], rest, radix);
    }
  }

  lemma ParseAfterWhiteSpace(ws: string, t: string)
    requires AllWhiteSpace(ws)
    requires t == [] || !IsWhiteSpace(t[0])
    ensures ParseInt(ws + t) == ParseTrimmed(t)
  {
    TrimStartSkips(ws, t);
  }

  lemma ParseAfterSign(sign: string, u: string)
    requires IsSign(sign)
    requires sign == [] && u != [] ==> u[0] != '+' && u[0] != '-'
    ensures ParseTrimmed(sign + u) == ParseUnsigned(u, sign == "-")
  {
    if sign != [] {
      assert (sign + u)[1..] == u;
    } else {
      assert sign + u == u;
    }
  }

  lemma ParseDecimalDigits(digits: string, rest: string, negative: bool)
    requires digits != [] && AllDigits(digits, 10)
    requires rest == [] || !IsDigit(rest[0], 10)
    requires !(digits == "0" && rest != [] && (rest[0] == 'x' || rest[0] == 'X'))
    ensures ParseUnsigned(digits + rest, negative)
         == Int(if negative then -(DigitsValue(digits, 10) as int) else DigitsValue(digits, 10))
  {
    var u := digits + rest;
    assert !HasHexPrefix(u) by {
      if |digits| >= 2 {
        assert u[1] == digits[1] && IsDigit(digits[1], 10) by {
          assert digits[1..][0] == digits[1];
        }
      } else if |u| >= 2 {
        assert digits == [u[0]] && u[1] == rest[0];
      }
    }
    DigitRunStopsAtRest(digits, rest, 10);
  }

  /**
   * A decimal number after optional white space and an optional sign is read up to the first
   * character that is not a digit, unless the text is `0x...`, which selects radix 16.
   */
  lemma ParseIntReadsLeadingDigits(ws: string, sign: string, digits: string, rest: string)
    requires AllWhiteSpace(ws) && IsSign(sign)
    requires digits != [] && AllDigits(digits, 10)
    requires rest == [] || !IsDigit(rest[0], 10)
    requires !(digits == "0" && rest != [] && (rest[0] == 'x' || rest[0] == 'X'))
    ensures ParseInt(ws + sign + digits + rest)
         == Int(if sign == "-" then -(DigitsValue(digits, 10) as int) else DigitsValue(digits, 10))
  {
    Regroup(ws, sign, digits, rest);
    SignedDigitsValue(sign, digits, rest);
    ParseAfterWhiteSpace(ws, sign + (digits + rest));
  }

  lemma Regroup(a: string, b: string, c: string, d: string)
    ensures a + b + c + d == a + (b + (c + d))
  {
  }

  /** The sign-and-digits part of `ParseIntReadsLeadingDigits`, once white space is gone. */
  lemma SignedDigitsValue(sign: string, digits: string, rest: string)
    requires IsSign(sign)
    requires digits != [] && AllDigits(digits, 10)
    requires rest == [] || !IsDigit(rest[0], 10)
    requires !(digits == "0" && rest != [] && (rest[0] == 'x' || rest[0] == 'X'))
    ensures var t := sign + (digits + rest);
            t != [] && !IsWhiteSpace(t[0])
            && ParseTrimmed(t) == Int(if sign == "-" then -(DigitsValue(digits, 10) as int) else DigitsValue(digits, 10))
  {
    var u := digits + rest;
    assert u[0] == digits[0];
    assert (sign + u)[0] == if sign == [] then digits[0] else sign[0];
    ParseAfterSign(sign, u);
    ParseDecimalDigits(digits, rest, sign == "-");
  }

  /**
   * A text with no digit where the number must start is NaN: after white space and an optional
   * sign comes either nothing or a character that is not a decimal digit (`"-"`, `"+x"`,
   * `"- 1"`, `"--1"`). Without a sign, `rest` must not itself start with white space or a sign.
   */
  lemma ParseIntWithoutDigitsIsNaN(ws: string, sign: string, rest: string)
    requires AllWhiteSpace(ws) && IsSign(sign)
    requires rest == [] || !IsDigit(rest[0], 10)
    requires sign == [] && rest != [] ==> !IsWhiteSpace(rest[0]) && rest[0] != '+' && rest[0] != '-'
    ensures ParseInt(ws + sign + rest) == NaN
  {
    assert ws + sign + rest == ws + (sign + rest);
    assert sign != [] ==> (sign + rest)[0] == sign[0];
    ParseAfterWhiteSpace(ws, sign + rest);
    ParseAfterSign(sign, rest);
    ParseWithoutDigits(rest, sign == "-");
  }

  lemma ParseWithoutDigits(rest: string, negative: bool)
    requires rest == [] || !IsDigit(rest[0], 10)
    ensures ParseUnsigned(rest, negative) == NaN
  {
    assert !HasHexPrefix(rest);
    assert DigitRunLength(rest, 10) == 0;
  }

  /** A `0x` or `0X` prefix makes `parseInt` read the digits after it in radix 16. */
  lemma ParseIntReadsHexDigits(x: char, digits: string, rest: string)
    requires x == 'x' || x == 'X'
    requires digits != [] && AllDigits(digits, 16)
    requires rest == [] || !IsDigit(rest[0], 16)
    ensures ParseInt(['0', x] + digits + rest) == Int(DigitsValue(digits, 16))
  {
    var u := ['0', x] + (digits + rest);
    assert ['0', x] + digits + rest == u;
    assert TrimStart(u) == u && StripSign(u) == u;
    HexDigitsValue(x, digits, rest);
  }

  lemma HexDigitsValue(x: char, digits: string, rest: string)
    requires x == 'x' || x == 'X'
    requires digits != [] && AllDigits(digits, 16)
    requires rest == [] || !IsDigit(rest[0], 16)
    ensures ParseUnsigned(['0', x] + (digits + rest), false) == Int(DigitsValue(digits, 16))
  {
    var u := ['0', x] + (digits + rest);
    assert HasHexPrefix(u) && Digits(u) == digits + rest;
    DigitRunStopsAtRest(digits, rest, 16);
  }

  /** `parseInt` reads back what `Number::toString` writes, for every integer. */
  lemma ParseIntOfNumberToString(n: int)
    ensures ParseInt(NumberToString(n)) == Int(n)
  {
    if n < 0 {
      ParseSignedDecimal("-", -n);
    } else {
      ParseSignedDecimal("", n);
      assert "" + DecimalDigits(n) == DecimalDigits(n);
    }
  }

  lemma ParseSignedDecimal(sign: string, m: nat)
    requires sign == "" || sign == "-"
    ensures ParseInt(sign + DecimalDigits(m)) == Int(if sign == "-" then -(m as int) else m)
  {
    var digits := DecimalDigits(m);
    DecimalDigitsValue(m);
    assert [] + sign + digits + [] == sign + digits;
    ParseIntReadsLeadingDigits([], sign, digits, []);
  }
}
