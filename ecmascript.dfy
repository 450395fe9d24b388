/**
 * The ECMAScript built-ins the editor's handlers rely on, on Dafny strings.
 * A Dafny `char` is a Unicode scalar value where JavaScript counts UTF-16
 * code units, so lengths differ only for characters outside the Basic
 * Multilingual Plane; `PadStart` is only ever applied to digit strings here.
 * The built-ins:
 *   - `s.replace(/,/g, "")`                      StripCommas
 *   - `parseInt(s, radix)` (section 19.2.5 of ECMA-262)  ParseInt
 *   - `String(n)` / `n.toString()` on integers   IntToString
 *   - `s.padStart(n, c)` with a one-character filler   PadStart
 *   - `s.startsWith(p)`                          StartsWith
 *   - `Math.round(x)`                            MathRound
 * Numbers are mathematical integers and reals: NaN is kept only where
 * `parseInt` produces it, and IEEE-754 rounding is not modelled.
 */
module EcmaScript {

  /** What `parseInt` returns: `NaN`, or an integral number. */
  datatype ParsedInt = NaN | Int(value: int)

  // ---------------------------------------------------------------------
  // s.replace(/,/g, "")
  // ---------------------------------------------------------------------

  /** `s` with every comma removed. */
  function StripCommas(s: string): (r: string)
    ensures ',' !in r
    ensures |r| <= |s|
    ensures forall c :: c != ',' ==> multiset(r)[c] == multiset(s)[c]
    ensures ',' !in s ==> r == s
  {
    if s == [] then []
    else
      assert s == [s[0]] + s[1..];
      if s[0] == ',' then StripCommas(s[1..]) else [s[0]] + StripCommas(s[1..])
  }

  /** Removing commas works piecewise, so the other characters keep their order. */
  lemma {:induction false} StripCommasAppend(a: string, b: string)
    ensures StripCommas(a + b) == StripCommas(a) + StripCommas(b)
  {
    if a == [] {
      assert a + b == b;
    } else {
      assert (a + b)[0] == a[0] && (a + b)[1..] == a[1..] + b;
      StripCommasAppend(a[1..], b);
    }
  }

  /** Removing one comma first does not change the result. */
  lemma StripCommasAroundComma(a: string, b: string)
    ensures StripCommas(a + "," + b) == StripCommas(a + b)
  {
    StripCommasAppend(a + ",", b);
    StripCommasAppend(a, ",");
    StripCommasAppend(a, b);
    assert StripCommas(",") == [];
    assert StripCommas(a + ",") == StripCommas(a);
  }

  /** A string without commas is left as it is; in particular the function is idempotent. */
  lemma {:induction false} StripCommasNoComma(s: string)
    requires ',' !in s
    ensures StripCommas(s) == s
  {
    if s != [] {
      StripCommasNoComma(s[1..]);
    }
  }

  // ---------------------------------------------------------------------
  // parseInt(string, radix)
  // ---------------------------------------------------------------------

  /** WhiteSpace and LineTerminator code points (sections 12.2 and 12.3 of ECMA-262). */
  predicate IsWhiteSpace(c: char)
  {
    || c == '\t' || c == '\U{B}' || c == '\U{C}' || c == ' ' || c == '\U{A0}' || c == '\U{FEFF}'
    || c == '\n' || c == '\r' || c == '\U{2028}' || c == '\U{2029}'
    || c == '\U{1680}' || ('\U{2000}' <= c <= '\U{200A}') || c == '\U{202F}' || c == '\U{205F}'
    || c == '\U{3000}'
  }

  /** The string with its leading white space removed. */
  function TrimStart(s: string): (r: string)
    ensures |r| <= |s| && r == s[|s| - |r|..]
    ensures forall i :: 0 <= i < |s| - |r| ==> IsWhiteSpace(s[i])
    ensures r == [] || !IsWhiteSpace(r[0])
  {
    if s != [] && IsWhiteSpace(s[0]) then TrimStart(s[1..]) else s
  }

  /** The value of a digit in radix 36, or 36 for a character that is no digit at all. */
  function DigitValue(c: char): (d: nat)
    ensures d <= 36
  {
    if '0' <= c <= '9' then c as int - '0' as int
    else if 'a' <= c <= 'z' then c as int - 'a' as int + 10
    else if 'A' <= c <= 'Z' then c as int - 'A' as int + 10
    else 36
  }

  predicate IsDigit(c: char, radix: int)
  {
    DigitValue(c) < radix
  }

  predicate AllDigits(s: string, radix: int)
  {
    forall i :: 0 <= i < |s| ==> IsDigit(s[i], radix)
  }

  /** Digits are not commas, so digits followed by comma-free text contain no comma. */
  lemma DigitsHaveNoComma(d: string, rest: string)
    requires AllDigits(d, 10)
    requires ',' !in rest
    ensures ',' !in d + rest
  {
    forall i | 0 <= i < |d|
      ensures d[i] != ','
    {
      assert IsDigit(d[i], 10);
    }
  }

  /** The longest prefix of `s` made of radix-`radix` digits. */
  function DigitPrefix(s: string, radix: int): (z: string)
    ensures z <= s
    ensures AllDigits(z, radix)
    ensures |z| == |s| || !IsDigit(s[|z|], radix)
  {
    if s != [] && IsDigit(s[0], radix) then [s[0]] + DigitPrefix(s[1..], radix) else []
  }

  /** The number the digits `z` denote in radix `radix`, most significant digit first. */
  function Value(z: string, radix: int): int
  {
    if z == [] then 0 else Value(z[..|z| - 1], radix) * radix + DigitValue(z[|z| - 1])
  }

  /**
   * `parseInt(input, radix)`; `radix == 0` stands for an absent radix
   * (ToInt32(undefined) is 0). Leading white space is skipped and one sign is
   * read before the digits; a radix outside 2..36 gives NaN.
   */
  function ParseInt(input: string, radix: int): (r: ParsedInt)
    ensures radix != 0 && (radix < 2 || radix > 36) ==> r == NaN
    ensures TrimStart(input) == [] ==> r == NaN
  {
    var s := TrimStart(input);
    if radix != 0 && (radix < 2 || radix > 36) then NaN
    else if s != [] && s[0] == '-' then Negate(ParseUnsigned(s[1..], radix))
    else if s != [] && s[0] == '+' then ParseUnsigned(s[1..], radix)
    else ParseUnsigned(s, radix)
  }

  function Negate(n: ParsedInt): ParsedInt
  {
    if n.NaN? then NaN else Int(-n.value)
  }

  /**
   * The unsigned part of `parseInt`: an absent radix or radix 16 strips a
   * "0x"/"0X" prefix (an absent radix then becomes 16, otherwise it is 10),
   * and the longest run of digits that follows is read; no digit at all
   * gives NaN.
   */
  function ParseUnsigned(s: string, radix: int): (n: ParsedInt)
    ensures n.Int? ==> n.value >= 0
    ensures s == [] ==> n == NaN
    ensures radix != 16 && s != [] && !IsDigit(s[0], if radix == 0 then 10 else radix) ==> n == NaN
    ensures (radix == 0 || radix == 16) && (s == "0x" || s == "0X") ==> n == NaN
  {
    var stripPrefix := radix == 0 || radix == 16;
    var hex := stripPrefix && |s| >= 2 && s[0] == '0' && (s[1] == 'x' || s[1] == 'X');
    var r := if hex then 16 else if radix == 0 then 10 else radix;
    var z := DigitPrefix(if hex then s[2..] else s, r);
    ValueNonNegative(z, r);
    if z == [] then NaN else Int(Value(z, r))
  }

  /** Digits denote a number that is never negative. */
  lemma {:induction false} ValueNonNegative(z: string, radix: int)
    requires AllDigits(z, radix)
    ensures Value(z, radix) >= 0
  {
    if z != [] {
      var init := z[..|z| - 1];
      assert AllDigits(init, radix) by {
        forall i | 0 <= i < |init| ensures IsDigit(init[i], radix) {
          assert init[i] == z[i];
        }
      }
      ValueNonNegative(init, radix);
      assert radix > 0 by { assert IsDigit(z[|z| - 1], radix); }
      var v := Value(init, radix);
      assert v * radix >= 0;
    }
  }

  lemma {:induction false} DigitPrefixOfDigits(d: string, rest: string, radix: int)
    requires AllDigits(d, radix)
    requires rest == [] || !IsDigit(rest[0], radix)
    ensures DigitPrefix(d + rest, radix) == d
  {
    if d != [] {
      assert (d + rest)[1..] == d[1..] + rest;
      DigitPrefixOfDigits(d[1..], rest, radix);
    }
  }

  /**
   * `parseInt` reads the leading decimal number and ignores what follows it
   * ("12px" gives 12), with or without an explicit radix 10. The only
   * exception, for an absent radix, is a lone "0" followed by "x" or "X".
   */
  lemma ParseIntLeadingDigits(d: string, rest: string, radix: int)
    requires d != [] && AllDigits(d, 10)
    requires rest == [] || !IsDigit(rest[0], 10)
    requires radix == 10 || (radix == 0 && !(d == "0" && rest != [] && (rest[0] == 'x' || rest[0] == 'X')))
    ensures ParseInt(d + rest, radix) == Int(Value(d, 10))
  {
    ParseUnsignedDigits(d, rest, radix);
    ParseIntUnsigned(d + rest, radix);
  }

  /** Without a sign, the text is read as an unsigned number. */
  lemma ParseIntUnsigned(u: string, radix: int)
    requires radix == 0 || 2 <= radix <= 36
    requires u != [] && IsDigit(u[0], 10)
    ensures ParseInt(u, radix) == ParseUnsigned(u, radix)
  {
    assert u[0] != '-' && u[0] != '+' && !IsWhiteSpace(u[0]);
    assert TrimStart(u) == u;
  }

  /** Text that does not start with a sign, a blank or a decimal digit is not a number. */
  lemma ParseIntNoDigits(s: string, radix: int)
    requires radix == 0 || radix == 10
    requires s == [] || (!IsDigit(s[0], 10) && !IsWhiteSpace(s[0]) && s[0] != '-' && s[0] != '+')
    ensures ParseInt(s, radix) == NaN
  {
    assert TrimStart(s) == s;
    assert DigitPrefix(s, 10) == [];
  }

  /** A leading plus sign is skipped. */
  lemma ParseIntPlus(u: string, radix: int)
    requires radix == 0 || 2 <= radix <= 36
    ensures ParseInt("+" + u, radix) == ParseUnsigned(u, radix)
  {
    var s := "+" + u;
    assert s[0] == '+' && !IsWhiteSpace(s[0]);
    assert TrimStart(s) == s;
    assert s[1..] == u;
  }

  lemma ParseUnsignedDigits(d: string, rest: string, radix: int)
    requires d != [] && AllDigits(d, 10)
    requires rest == [] || !IsDigit(rest[0], 10)
    requires radix == 10 || (radix == 0 && !(d == "0" && rest != [] && (rest[0] == 'x' || rest[0] == 'X')))
    ensures ParseUnsigned(d + rest, radix) == Int(Value(d, 10))
  {
    var u := d + rest;
    assert !(radix == 0 && |u| >= 2 && u[0] == '0' && (u[1] == 'x' || u[1] == 'X')) by {
      if radix == 0 && |u| >= 2 && u[0] == '0' {
        if |d| >= 2 {
          assert u[1] == d[1] && IsDigit(d[1], 10);
        } else {
          assert d == "0";
          assert u[1] == rest[0];
        }
      }
    }
    DigitPrefixOfDigits(d, rest, 10);
    assert DigitPrefix(u, 10) == d;
  }

  // ---------------------------------------------------------------------
  // Number.prototype.toString on integers
  // ---------------------------------------------------------------------

  function DigitChar(d: nat): (c: char)
    requires d < 10
    ensures IsDigit(c, 10) && DigitValue(c) == d
  {
    ('0' as int + d) as char
  }

  /** The decimal digits of `n`, without leading zeros. */
  function NatToString(n: nat): (s: string)
    ensures s != [] && AllDigits(s, 10)
    ensures |s| == 1 <==> n < 10
    ensures n < 100 ==> |s| <= 2
  {
    if n < 10 then [DigitChar(n)] else NatToString(n / 10) + [DigitChar(n % 10)]
  }

  /** `String(n)` for an integer `n`. */
  function IntToString(n: int): (s: string)
    ensures s != []
    ensures s[0] == '-' <==> n < 0
    ensures AllDigits(if n < 0 then s[1..] else s, 10)
  {
    if n < 0 then "-" + NatToString(-n) else NatToString(n)
  }

  /** Reading back the decimal digits of `n` gives `n`. */
  lemma {:induction false} NatToStringValue(n: nat)
    ensures Value(NatToString(n), 10) == n
  {
    if n >= 10 {
      var s := NatToString(n);
      assert s[..|s| - 1] == NatToString(n / 10);
      NatToStringValue(n / 10);
    }
  }

  /** `parseInt(String(n))` is `n`, with radix 10 or without a radix. */
  lemma ParseIntRoundTrip(n: int, radix: int)
    requires radix == 0 || radix == 10
    ensures ParseInt(IntToString(n), radix) == Int(n)
  {
    if n < 0 {
      ParseIntRoundTripNegative(-n, radix);
    } else {
      ParseIntRoundTripNatural(n, radix);
    }
  }

  lemma ParseIntRoundTripNatural(n: nat, radix: int)
    requires radix == 0 || radix == 10
    ensures ParseInt(NatToString(n), radix) == Int(n)
  {
    NatToStringValue(n);
    ParseUnsignedAllDigits(NatToString(n), radix);
    ParseIntUnsigned(NatToString(n), radix);
  }

  lemma ParseIntRoundTripNegative(m: nat, radix: int)
    requires radix == 0 || radix == 10
    ensures ParseInt("-" + NatToString(m), radix) == Int(-(m as int))
  {
    NatToStringValue(m);
    ParseUnsignedAllDigits(NatToString(m), radix);
    ParseIntMinus(NatToString(m), radix);
  }

  lemma ParseUnsignedAllDigits(d: string, radix: int)
    requires d != [] && AllDigits(d, 10)
    requires radix == 0 || radix == 10
    ensures ParseUnsigned(d, radix) == Int(Value(d, 10))
  {
    ParseUnsignedDigits(d, [], radix);
    assert d + [] == d;
  }

  /** A leading minus sign negates what follows it. */
  lemma ParseIntMinus(u: string, radix: int)
    requires radix == 0 || 2 <= radix <= 36
    ensures ParseInt("-" + u, radix) == Negate(ParseUnsigned(u, radix))
  {
    var s := "-" + u;
    assert s[0] == '-' && !IsWhiteSpace(s[0]);
    assert TrimStart(s) == s;
    assert s[1..] == u;
  }

  /** The decimal text of an integer holds no comma. */
  lemma IntToStringHasNoComma(n: int)
    ensures ',' !in IntToString(n)
  {
    var d := NatToString(if n < 0 then -n else n);
    DigitsHaveNoComma(d, []);
    assert d + [] == d;
  }

  /** Distinct integers print differently. */
  lemma IntToStringInjective(a: int, b: int)
    ensures IntToString(a) == IntToString(b) ==> a == b
  {
    ParseIntRoundTrip(a, 10);
    ParseIntRoundTrip(b, 10);
  }

  // ---------------------------------------------------------------------
  // padStart, startsWith, Math.round
  // ---------------------------------------------------------------------

  function Repeat(c: char, k: nat): (r: string)
    ensures |r| == k && forall i :: 0 <= i < k ==> r[i] == c
  {
    if k == 0 then [] else [c] + Repeat(c, k - 1)
  }

  /** `s.padStart(targetLength, filler)`: never shortens `s`, only prepends fillers. */
  function PadStart(s: string, targetLength: nat, filler: char): (r: string)
    ensures |r| == if |s| >= targetLength then |s| else targetLength
    ensures r == Repeat(filler, |r| - |s|) + s
  {
    if |s| >= targetLength then s else Repeat(filler, targetLength - |s|) + s
  }

  /** Leading zeros do not change the value of a decimal numeral. */
  lemma {:induction false} ValueLeadingZeros(k: nat, d: string)
    ensures Value(Repeat('0', k) + d, 10) == Value(d, 10)
  {
    if d == [] {
      assert Repeat('0', k) + d == Repeat('0', k);
      if k > 0 {
        assert Repeat('0', k)[..k - 1] == Repeat('0', k - 1);
        ValueLeadingZeros(k - 1, []);
        assert Repeat('0', k - 1) + [] == Repeat('0', k - 1);
      }
    } else {
      var s := Repeat('0', k) + d;
      assert s[..|s| - 1] == Repeat('0', k) + d[..|d| - 1];
      ValueLeadingZeros(k, d[..|d| - 1]);
    }
  }

  /** Digits followed by digits are digits. */
  lemma AllDigitsAppend(a: string, b: string, radix: int)
    requires AllDigits(a, radix) && AllDigits(b, radix)
    ensures AllDigits(a + b, radix)
  {
    forall i | 0 <= i < |a + b| ensures IsDigit((a + b)[i], radix) {
      if i < |a| {
        assert (a + b)[i] == a[i];
      } else {
        assert (a + b)[i] == b[i - |a|];
      }
    }
  }

  /** Padding decimal digits with zeros keeps them digits and keeps their value. */
  lemma PadStartDigits(d: string, targetLength: nat)
    requires AllDigits(d, 10)
    ensures AllDigits(PadStart(d, targetLength, '0'), 10)
    ensures Value(PadStart(d, targetLength, '0'), 10) == Value(d, 10)
  {
    var k := |PadStart(d, targetLength, '0')| - |d|;
    var zeros := Repeat('0', k);
    assert PadStart(d, targetLength, '0') == zeros + d;
    assert AllDigits(zeros, 10) by {
      forall i | 0 <= i < |zeros| ensures IsDigit(zeros[i], 10) {
        assert zeros[i] == '0';
      }
    }
    AllDigitsAppend(zeros, d, 10);
    ValueLeadingZeros(k, d);
  }


  predicate StartsWith(s: string, prefix: string)
    ensures StartsWith(s, prefix) <==> |prefix| <= |s| && s[..|prefix|] == prefix
  {
    prefix <= s
  }

  /** `Math.round(x)`: the nearest integer, halves rounded up. */
  function MathRound(x: real): (r: int)
    ensures r as real - 0.5 <= x < r as real + 0.5
  {
    (x + 0.5).Floor
  }
}
