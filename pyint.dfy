/**
 * Python's `int(s, base)` on strings, for the two bases the Cello code
 * uses (10 and 16): surrounding whitespace is stripped, an optional sign
 * follows, base 16 accepts a `0x`/`0X` prefix (with one underscore after
 * it), and single underscores may separate digits.  Anything else is a
 * ValueError, here `None`.
 */
module PyInt {
  import opened Wrappers
  import opened PyStr

  /** `s.lstrip()`: leading whitespace removed. */
  function LStrip(s: string): (r: string)
    ensures |r| <= |s| && r == s[|s| - |r|..]
  {
    if |s| > 0 && IsSpace(s[0]) then LStrip(s[1..]) else s
  }

  /** `s.rstrip()`: trailing whitespace removed. */
  function RStrip(s: string): (r: string)
    ensures |r| <= |s| && r == s[..|r|]
  {
    if |s| > 0 && IsSpace(s[|s| - 1]) then RStrip(s[..|s| - 1]) else s
  }

  function Strip(s: string): string
  {
    RStrip(LStrip(s))
  }

  /** `lstrip` removes only whitespace, and all of the leading whitespace. */
  lemma {:induction false} LStripSpaces(s: string)
    ensures forall i :: 0 <= i < |s| - |LStrip(s)| ==> IsSpace(s[i])
    ensures |LStrip(s)| > 0 ==> !IsSpace(LStrip(s)[0])
  {
    if |s| > 0 && IsSpace(s[0]) {
      LStripSpaces(s[1..]);
      forall i | 1 <= i < |s| - |LStrip(s)|
        ensures IsSpace(s[i])
      {
        assert s[i] == s[1..][i - 1];
      }
    }
  }

  /** `rstrip` removes only whitespace, and all of the trailing whitespace. */
  lemma {:induction false} RStripSpaces(s: string)
    ensures forall i :: |RStrip(s)| <= i < |s| ==> IsSpace(s[i])
    ensures |RStrip(s)| > 0 ==> !IsSpace(RStrip(s)[|RStrip(s)| - 1])
  {
    if |s| > 0 && IsSpace(s[|s| - 1]) {
      RStripSpaces(s[..|s| - 1]);
    }
  }

  /** A string without whitespace is its own strip. */
  lemma StripNoSpace(s: string)
    requires forall i :: 0 <= i < |s| ==> !IsSpace(s[i])
    ensures Strip(s) == s
  {
  }

  predicate IsDigit(ch: char, base: nat)
  {
    ('0' <= ch <= '9') ||
    (base == 16 && (('a' <= ch <= 'f') || ('A' <= ch <= 'F')))
  }

  function HexValue(ch: char): nat
  {
    if '0' <= ch <= '9' then (ch as int) - ('0' as int)
    else if 'a' <= ch <= 'f' then (ch as int) - ('a' as int) + 10
    else if 'A' <= ch <= 'F' then (ch as int) - ('A' as int) + 10
    else 0
  }

  /**
   * The digit part Python accepts: digits, single underscores between
   * digits, at least one digit, no leading or trailing underscore.
   */
  predicate ValidDigits(d: string, base: nat)
  {
    && |d| > 0
    && IsDigit(d[0], base)
    && IsDigit(d[|d| - 1], base)
    && (forall i :: 0 <= i < |d| ==> IsDigit(d[i], base) || d[i] == '_')
    && (forall i :: 0 <= i < |d| - 1 ==> d[i] == '_' ==> d[i + 1] != '_')
  }

  /** The value of a digit string, underscores skipped. */
  function DigitsValue(d: string, base: nat): nat
  {
    if |d| == 0 then 0
    else if d[|d| - 1] == '_' then DigitsValue(d[..|d| - 1], base)
    else DigitsValue(d[..|d| - 1], base) * base + HexValue(d[|d| - 1])
  }

  /** The digits left after the sign and, in base 16, an optional `0x` prefix. */
  function Body(u: string, base: nat): string
  {
    if base == 16 && |u| >= 2 && u[0] == '0' && (u[1] == 'x' || u[1] == 'X') then
      if |u| > 2 && u[2] == '_' then u[3..] else u[2..]
    else u
  }

  predicate HasSign(t: string)
  {
    |t| > 0 && (t[0] == '-' || t[0] == '+')
  }

  /** `int(t, base)` once surrounding whitespace is gone. */
  function ParseSigned(t: string, base: nat): (r: Option<int>)
    requires base == 10 || base == 16
  {
    var u := if HasSign(t) then t[1..] else t;
    var body := Body(u, base);
    var v: int := DigitsValue(body, base);
    if !ValidDigits(body, base) then None
    else if HasSign(t) && t[0] == '-' then Some(-v)
    else Some(v)
  }

  /** `int(s, base)`; `None` stands for the ValueError Python raises. */
  function ParseInt(s: string, base: nat): (r: Option<int>)
    requires base == 10 || base == 16
  {
    ParseSigned(Strip(s), base)
  }

  // ---------------------------------------------------------------------
  // Properties
  // ---------------------------------------------------------------------

  /** Every character `int` accepts is whitespace, a sign, a digit, `_` or the `x` of a prefix. */
  predicate IntChar(ch: char, base: nat)
  {
    IsSpace(ch) || ch == '-' || ch == '+' || ch == '_' || IsDigit(ch, base) ||
    (base == 16 && (ch == 'x' || ch == 'X'))
  }

  predicate AllIntChars(s: string, base: nat)
  {
    forall i :: 0 <= i < |s| ==> IntChar(s[i], base)
  }

  lemma BodyChars(u: string, base: nat)
    requires base == 10 || base == 16
    requires ValidDigits(Body(u, base), base)
    ensures AllIntChars(u, base)
  {
    var body := Body(u, base);
    assert AllIntChars(body, base);
    if body != u {
      forall i | 0 <= i < |u|
        ensures IntChar(u[i], base)
      {
        if i >= |u| - |body| {
          assert u[i] == body[i - (|u| - |body|)];
        }
      }
    }
  }

  lemma SignChars(t: string, base: nat)
    requires AllIntChars(if HasSign(t) then t[1..] else t, base)
    ensures AllIntChars(t, base)
  {
    if HasSign(t) {
      forall i | 0 <= i < |t|
        ensures IntChar(t[i], base)
      {
        if i > 0 {
          assert t[i] == t[1..][i - 1];
        }
      }
    }
  }

  lemma StripChars(s: string, base: nat)
    requires AllIntChars(Strip(s), base)
    ensures AllIntChars(s, base)
  {
    var l := LStrip(s);
    var t := RStrip(l);
    LStripSpaces(s);
    RStripSpaces(l);
    assert AllIntChars(l, base) by {
      forall i | 0 <= i < |l|
        ensures IntChar(l[i], base)
      {
        if i >= |t| {
          assert IsSpace(l[i]);
        } else {
          assert l[i] == t[i];
        }
      }
    }
    forall i | 0 <= i < |s|
      ensures IntChar(s[i], base)
    {
      if i >= |s| - |l| {
        assert s[i] == l[i - (|s| - |l|)];
      } else {
        assert IsSpace(s[i]);
      }
    }
  }

  /** Every character of an accepted string is one `int` allows. */
  lemma ParseIntChars(s: string, base: nat)
    requires base == 10 || base == 16
    requires ParseInt(s, base).Some?
    ensures AllIntChars(s, base)
  {
    var t := Strip(s);
    var u := if HasSign(t) then t[1..] else t;
    assert ParseSigned(t, base).Some?;
    BodyChars(u, base);
    SignChars(t, base);
    StripChars(s, base);
  }

  /** The empty string and anything holding `#` are rejected. */
  lemma ParseIntRejectsHash(s: string, base: nat)
    requires base == 10 || base == 16
    requires |s| == 0 || '#' in s
    ensures ParseInt(s, base).None?
  {
    if |s| == 0 {
      ParseIntEmpty(base);
    } else if ParseInt(s, base).Some? {
      ParseIntChars(s, base);
      HashNotIntChar(s, base);
      assert false;
    }
  }

  lemma ParseIntEmpty(base: nat)
    requires base == 10 || base == 16
    ensures ParseInt("", base).None?
  {
    var e: string := [];
    assert LStrip(e) == e;
    assert RStrip(e) == e;
    assert !ValidDigits(Body(e, base), base);
  }

  lemma HashNotIntChar(s: string, base: nat)
    requires AllIntChars(s, base)
    ensures '#' !in s
  {
  }

  /** On plain decimal digits, the base-10 value agrees with `ParseDigits`. */
  lemma {:induction false} DigitsValueDecimal(d: string)
    requires forall i :: 0 <= i < |d| ==> '0' <= d[i] <= '9'
    ensures DigitsValue(d, 10) == ParseDigits(d)
  {
    if |d| > 0 {
      DigitsValueDecimal(d[..|d| - 1]);
    }
  }

  /** A digit string without sign parses to its `ParseDigits` value. */
  lemma ParseSignedDigits(digits: string)
    requires |digits| > 0
    requires forall k :: 0 <= k < |digits| ==> '0' <= digits[k] <= '9'
    ensures ParseSigned(digits, 10) == Some(ParseDigits(digits) as int)
    ensures ParseSigned("-" + digits, 10) == Some(-(ParseDigits(digits) as int))
  {
    DigitsValueDecimal(digits);
    DecimalValid(digits);
    var t := "-" + digits;
    assert t[0] == '-' && t[1..] == digits;
  }

  lemma DecimalValid(digits: string)
    requires |digits| > 0
    requires forall k :: 0 <= k < |digits| ==> '0' <= digits[k] <= '9'
    ensures ValidDigits(digits, 10) && !HasSign(digits) && Body(digits, 10) == digits
  {
    assert forall k :: 0 <= k < |digits| ==> IsDigit(digits[k], 10);
  }

  /** Without surrounding whitespace, `int` reads the sign and digits directly. */
  lemma ParseIntNoSpace(s: string, base: nat)
    requires base == 10 || base == 16
    requires forall k :: 0 <= k < |s| ==> !IsSpace(s[k])
    ensures ParseInt(s, base) == ParseSigned(s, base)
  {
    StripNoSpace(s);
  }

  /** A decimal rendering has no whitespace in it. */
  lemma IntToStringNoSpace(i: int)
    ensures forall k :: 0 <= k < |IntToString(i)| ==> !IsSpace(IntToString(i)[k])
  {
    var s := IntToString(i);
    assert forall k :: 0 <= k < |s| ==> s[k] == '-' || '0' <= s[k] <= '9';
  }

  /** `int(str(i)) == i`: the decimal rendering parses back to the same integer. */
  lemma ParseIntToString(i: int)
    ensures ParseInt(IntToString(i), 10) == Some(i)
  {
    var n: nat := if i < 0 then -i else i;
    ParseNatToString(n);
    ParseSignedDigits(NatToString(n));
    IntToStringNoSpace(i);
    ParseIntNoSpace(IntToString(i), 10);
  }

  /** Plain hexadecimal digits (no whitespace, sign, prefix or underscore) parse to their value. */
  lemma PlainHex(d: string)
    requires |d| > 0
    requires forall i :: 0 <= i < |d| ==> IsDigit(d[i], 16)
    requires !(|d| >= 2 && d[0] == '0' && (d[1] == 'x' || d[1] == 'X'))
    ensures ParseInt(d, 16) == Some(DigitsValue(d, 16))
  {
    HexDigitsNoSpace(d);
    ParseIntNoSpace(d, 16);
    PlainHexSigned(d);
  }

  lemma PlainHexSigned(d: string)
    requires |d| > 0
    requires forall i :: 0 <= i < |d| ==> IsDigit(d[i], 16)
    requires !(|d| >= 2 && d[0] == '0' && (d[1] == 'x' || d[1] == 'X'))
    ensures ParseSigned(d, 16) == Some(DigitsValue(d, 16))
  {
    assert IsDigit(d[0], 16);
    assert !HasSign(d);
    assert Body(d, 16) == d;
    assert ValidDigits(d, 16);
  }

  lemma HexDigitsNoSpace(d: string)
    requires forall i :: 0 <= i < |d| ==> IsDigit(d[i], 16)
    ensures forall k :: 0 <= k < |d| ==> !IsSpace(d[k])
  {
    forall k | 0 <= k < |d|
      ensures !IsSpace(d[k])
    {
      assert IsDigit(d[k], 16);
    }
  }
}
