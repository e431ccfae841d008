/**
 * The character-level behaviour of the JavaScript built-ins the forms and the
 * estimator rely on: white space (as `String.prototype.trim` and the regular
 * expression class `\s` see it), the email test `/\S+@\S+\.\S+/.test(...)`,
 * `split('-')[0]`, `parseInt` without a radix, and the decimal rendering of a
 * whole number.
 */
module JsText {
  import opened Wrappers

  /** WhiteSpace and LineTerminator characters of ECMAScript: exactly what `trim` strips and `\s` matches. */
  predicate IsSpace(c: char)
  {
    || c == '\t' || c == '\n' || c == '\U{000B}' || c == '\U{000C}' || c == '\r' || c == ' '
    || c == '\U{00A0}' || c == '\U{1680}' || ('\U{2000}' <= c <= '\U{200A}')
    || c == '\U{2028}' || c == '\U{2029}' || c == '\U{202F}' || c == '\U{205F}'
    || c == '\U{3000}' || c == '\U{FEFF}'
  }

  /** Every character is white space (the empty string included). */
  predicate IsBlank(s: string)
  {
    forall i :: 0 <= i < |s| ==> IsSpace(s[i])
  }

  /** No character is white space: the shape `\S*`. */
  predicate NoSpace(s: string)
  {
    forall i :: 0 <= i < |s| ==> !IsSpace(s[i])
  }

  /** The number of white-space characters `s` starts with. */
  function LeadingSpaces(s: string): (k: nat)
    ensures k <= |s|
    ensures IsBlank(s[..k])
    ensures k < |s| ==> !IsSpace(s[k])
  {
    if s != [] && IsSpace(s[0]) then
      var k := 1 + LeadingSpaces(s[1..]);
      assert IsBlank(s[..k]) by {
        forall i | 0 < i < k
          ensures IsSpace(s[..k][i])
        {
          assert s[..k][i] == s[1..][..k - 1][i - 1];
        }
      }
      assert k < |s| ==> s[k] == s[1..][k - 1];
      k
    else 0
  }

  /** Drops leading white space: the result is the suffix of `s` after a blank prefix. */
  function TrimStart(s: string): (r: string)
    ensures |r| <= |s| && r == s[|s| - |r|..]
    ensures IsBlank(s[..|s| - |r|])
    ensures r == [] || !IsSpace(r[0])
  {
    s[LeadingSpaces(s)..]
  }

  /** Drops trailing white space: the result is the prefix of `s` before a blank suffix. */
  function TrimEnd(s: string): (r: string)
    ensures |r| <= |s| && r == s[..|r|]
    ensures IsBlank(s[|r|..])
    ensures r == [] || !IsSpace(r[|r| - 1])
  {
    if s != [] && IsSpace(s[|s| - 1]) then
      var r := TrimEnd(s[..|s| - 1]);
      assert s[..|s| - 1][..|r|] == s[..|r|];
      assert IsBlank(s[|r|..]) by {
        forall i | |r| <= i < |s|
          ensures IsSpace(s[i])
        {
          if i < |s| - 1 {
            assert s[i] == s[..|s| - 1][|r|..][i - |r|];
          }
        }
      }
      r
    else s
  }

  /**
   * `String.prototype.trim`: leading white space is dropped one character at a time, then the
   * trailing white space of what remains. A trimmed string is empty exactly when the input is blank.
   */
  function Trim(s: string): (r: string)
    ensures r == [] <==> IsBlank(s)
  {
    if s != [] && IsSpace(s[0]) then
      var r := Trim(s[1..]);
      assert IsBlank(s) <==> IsBlank(s[1..]) by {
        if IsBlank(s[1..]) {
          forall i | 0 < i < |s|
            ensures IsSpace(s[i])
          {
            assert s[i] == s[1..][i - 1];
          }
        }
      }
      r
    else
      var r := TrimEnd(s);
      assert r == [] ==> s[|r|..] == s;
      r
  }

  // ---------------------------------------------------------------------------
  // The email pattern /\S+@\S+\.\S+/ (no anchors, so `test` looks for it anywhere)

  /** `w` splits as \S+ '@' \S+ '.' \S+ with the '@' at `at` and the '.' at `dot`. */
  ghost predicate SplitsAsEmail(w: string, at: int, dot: int)
  {
    && 0 < at && at + 1 < dot && dot + 1 < |w|
    && w[at] == '@' && w[dot] == '.'
    && NoSpace(w[..at]) && NoSpace(w[at + 1..dot]) && NoSpace(w[dot + 1..])
  }

  /** The words the regular expression `\S+@\S+\.\S+` matches in full. */
  ghost predicate InEmailPattern(w: string)
  {
    exists at, dot :: SplitsAsEmail(w, at, dot)
  }

  /** `RegExp.prototype.test` of the unanchored pattern: some substring of `s` matches. */
  ghost predicate EmailPatternOccurs(s: string)
  {
    exists i, j :: 0 <= i <= j <= |s| && InEmailPattern(s[i..j])
  }

  /**
   * The positions the decision procedure looks for: an '@' at `at` with a non-space before
   * it, a '.' at `dot` with a non-space after it, and only non-spaces (at least one) between.
   */
  predicate EmailAnchorsAt(s: string, at: int, dot: int)
  {
    && 1 <= at && at + 2 <= dot && dot + 2 <= |s|
    && !IsSpace(s[at - 1]) && s[at] == '@' && s[dot] == '.' && !IsSpace(s[dot + 1])
    && NoSpace(s[at + 1..dot])
  }

  /** The decision procedure for the email test. */
  predicate EmailPatternTest(s: string)
  {
    exists at, dot | 0 <= at < |s| && 0 <= dot < |s| :: EmailAnchorsAt(s, at, dot)
  }

  /** The decision procedure agrees with the regular expression on every string. */
  lemma EmailPatternTestIsRegexTest(s: string)
    ensures EmailPatternTest(s) <==> EmailPatternOccurs(s)
  {
    if EmailPatternTest(s) {
      var at, dot :| 0 <= at < |s| && 0 <= dot < |s| && EmailAnchorsAt(s, at, dot);
      MatchAround(s, at, dot);
    }
    if EmailPatternOccurs(s) {
      var i, j :| 0 <= i <= j <= |s| && InEmailPattern(s[i..j]);
      MatchInside(s, i, j);
    }
  }

  /** The window from the character before '@' to the character after '.' matches in full. */
  lemma MatchAround(s: string, at: int, dot: int)
    requires EmailAnchorsAt(s, at, dot)
    ensures EmailPatternOccurs(s)
  {
    var w := s[at - 1..dot + 2];
    var a, d := 1, dot - at + 1;
    assert w[a] == '@' && w[d] == '.';
    assert NoSpace(w[..a]) by { assert w[..a] == [s[at - 1]]; }
    assert NoSpace(w[a + 1..d]) by {
      forall k | a + 1 <= k < d
        ensures !IsSpace(w[k])
      {
        assert w[k] == s[at - 1 + k] == s[at + 1..dot][k - 2];
      }
    }
    assert NoSpace(w[d + 1..]) by { assert w[d + 1..] == [s[dot + 1]]; }
    assert SplitsAsEmail(w, a, d);
    assert InEmailPattern(w);
  }

  /** A full match of a substring yields the positions the decision procedure looks for. */
  lemma MatchInside(s: string, i: int, j: int)
    requires 0 <= i <= j <= |s| && InEmailPattern(s[i..j])
    ensures EmailPatternTest(s)
  {
    var w := s[i..j];
    var a, d :| SplitsAsEmail(w, a, d);
    var at, dot := i + a, i + d;
    assert !IsSpace(s[at - 1]) by { assert w[..a][a - 1] == s[at - 1]; }
    assert !IsSpace(s[dot + 1]) by { assert w[d + 1..][0] == s[dot + 1]; }
    assert NoSpace(s[at + 1..dot]) by { assert w[a + 1..d] == s[at + 1..dot]; }
    assert s[at] == '@' && s[dot] == '.';
    assert EmailAnchorsAt(s, at, dot);
  }

  /** `s.split(sep)[0]`: the text before the first `sep`, or all of `s`. */
  function BeforeFirst(s: string, sep: char): (r: string)
    ensures |r| <= |s| && r == s[..|r|] && sep !in r
    ensures |r| < |s| ==> s[|r|] == sep
  {
    if s == [] || s[0] == sep then [] else [s[0]] + BeforeFirst(s[1..], sep)
  }

  // ---------------------------------------------------------------------------
  // Numerals

  predicate IsDigit(c: char)
  {
    '0' <= c <= '9'
  }

  /** The value of `c` as a digit of radix up to 36 (0-9, then a/A = 10 ...); 36 when it is none. */
  function DigitValue(c: char): nat
  {
    if '0' <= c <= '9' then (c as int) - ('0' as int)
    else if 'a' <= c <= 'z' then (c as int) - ('a' as int) + 10
    else if 'A' <= c <= 'Z' then (c as int) - ('A' as int) + 10
    else 36
  }

  predicate IsRadixDigit(c: char, radix: nat)
  {
    DigitValue(c) < radix
  }

  /** The longest prefix of `s` made of digits of `radix`. */
  function LeadingDigits(s: string, radix: nat): (r: string)
    ensures |r| <= |s| && r == s[..|r|]
    ensures forall i :: 0 <= i < |r| ==> IsRadixDigit(r[i], radix)
    ensures |r| < |s| ==> !IsRadixDigit(s[|r|], radix)
  {
    if s != [] && IsRadixDigit(s[0], radix) then [s[0]] + LeadingDigits(s[1..], radix) else []
  }

  /** The number a string of digits denotes in `radix`, most significant digit first. */
  function DigitsValue(ds: string, radix: nat): nat
  {
    if ds == [] then 0
    else DigitsValue(ds[..|ds| - 1], radix) * radix + DigitValue(ds[|ds| - 1])
  }

  /** The unsigned part of `parseInt`: a "0x"/"0X" prefix selects radix 16, otherwise radix 10; no digit at all is NaN. */
  function ParseUnsigned(s: string): Option<nat>
  {
    var hex := |s| >= 2 && s[0] == '0' && (s[1] == 'x' || s[1] == 'X');
    var radix := if hex then 16 else 10;
    var digits := LeadingDigits(if hex then s[2..] else s, radix);
    if digits == [] then None else Some(DigitsValue(digits, radix))
  }

  /** `parseInt(s)` with no radix: leading white space, an optional sign, then the digits; None is NaN. */
  function ParseInt(s: string): Option<int>
  {
    var t := TrimStart(s);
    if t != [] && t[0] == '-' then
      match ParseUnsigned(t[1..])
      case Some(n) => Some(0 - n as int)
      case None => None
    else if t != [] && t[0] == '+' then ParseUnsigned(t[1..])
    else ParseUnsigned(t)
  }

  /** Text without a '-' never parses to a negative number. */
  lemma ParseIntWithoutMinus(s: string)
    requires '-' !in s
    ensures ParseInt(s).Some? ==> ParseInt(s).value >= 0
  {
    var t := TrimStart(s);
    if t != [] {
      assert t[0] == s[|s| - |t|];
    }
  }

  function DigitChar(d: nat): (c: char)
    requires d < 10
    ensures IsDigit(c) && DigitValue(c) == d
  {
    ('0' as int + d) as char
  }

  /** `String(n)` for a whole number n >= 0: its decimal digits with no leading zero. */
  function NatToString(n: nat): (r: string)
    ensures |r| > 0
    ensures forall i :: 0 <= i < |r| ==> IsDigit(r[i])
    ensures r[0] == '0' ==> n == 0
  {
    if n < 10 then [DigitChar(n)] else NatToString(n / 10) + [DigitChar(n % 10)]
  }

  /** Reading back the digits `NatToString` writes gives the number. */
  lemma {:induction false} NatToStringValue(n: nat)
    ensures DigitsValue(NatToString(n), 10) == n
  {
    var r := NatToString(n);
    if n >= 10 {
      var front := NatToString(n / 10);
      assert r[..|r| - 1] == front;
      NatToStringValue(n / 10);
    }
  }

  /** A numeral followed by text that cannot continue it is read back by `parseInt` as the number. */
  lemma ParseIntOfNumeral(n: nat, rest: string)
    requires rest == [] || (!IsDigit(rest[0]) && rest[0] != 'x' && rest[0] != 'X')
    ensures ParseInt(NatToString(n) + rest) == Some(n)
  {
    var s := NatToString(n) + rest;
    assert IsDigit(s[0]) by { assert s[0] == NatToString(n)[0]; }
    TrimStartKeeps(s);
    assert s[0] != '-' && s[0] != '+';
    ParseUnsignedOfNumeral(n, rest);
  }

  /** The unsigned reading of a numeral followed by text that cannot continue it. */
  lemma ParseUnsignedOfNumeral(n: nat, rest: string)
    requires rest == [] || (!IsDigit(rest[0]) && rest[0] != 'x' && rest[0] != 'X')
    ensures ParseUnsigned(NatToString(n) + rest) == Some(n)
  {
    var num := NatToString(n);
    var s := num + rest;
    assert !(|s| >= 2 && s[0] == '0' && (s[1] == 'x' || s[1] == 'X')) by {
      if |s| >= 2 && s[0] == '0' {
        assert n == 0 && |num| == 1;
        assert s[1] == rest[0];
      }
    }
    LeadingDigitsOfNumeral(num, rest);
    NatToStringValue(n);
  }

  /** `parseInt` of a sign, a numeral and text that cannot continue it. */
  lemma SignedNumeralParse(sign: char, n: nat, rest: string)
    requires sign == '+' || sign == '-'
    requires rest == [] || (!IsDigit(rest[0]) && rest[0] != 'x' && rest[0] != 'X')
    ensures ParseInt([sign] + NatToString(n) + rest) == Some(if sign == '+' then n as int else 0 - n)
  {
    var u := NatToString(n) + rest;
    var s := [sign] + u;
    assert [sign] + NatToString(n) + rest == s;
    assert s[0] == sign && s[1..] == u;
    ParseUnsignedOfNumeral(n, rest);
    SignedParse(s);
  }

  /** `parseInt` of text starting with a sign: the sign applies to the unsigned reading of the rest. */
  lemma SignedParse(s: string)
    requires s != [] && (s[0] == '+' || s[0] == '-')
    ensures ParseInt(s) == match ParseUnsigned(s[1..])
      case Some(n) => Some(if s[0] == '+' then n as int else 0 - n)
      case None => None
  {
    TrimStartKeeps(s);
  }

  /** Text that does not start with white space is left alone by `TrimStart`. */
  lemma TrimStartKeeps(s: string)
    requires s == [] || !IsSpace(s[0])
    ensures TrimStart(s) == s
  {
  }

  lemma {:induction false} LeadingDigitsOfNumeral(num: string, rest: string)
    requires forall i :: 0 <= i < |num| ==> IsDigit(num[i])
    requires rest == [] || !IsDigit(rest[0])
    ensures LeadingDigits(num + rest, 10) == num
  {
    if num != [] {
      assert (num + rest)[1..] == num[1..] + rest;
      LeadingDigitsOfNumeral(num[1..], rest);
    } else {
      assert num + rest == rest;
    }
  }
}
