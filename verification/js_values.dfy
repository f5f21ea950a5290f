/** The JavaScript value conversions the application relies on: `parseInt`
    without a radix, `Number` applied to a string, `String` applied to an
    integer, and the `parseInt(x) || 0` idiom. `None` stands for `NaN`. */
module JsValues {
  import opened Wrappers

  /** The code units `parseInt` and `Number` skip: the WhiteSpace and
      LineTerminator characters of the ECMAScript grammar. */
  predicate IsWhiteSpace(c: char) {
    c == ' ' || c == '\t' || c == '\n' || c == '\r' || c == '\U{B}' || c == '\U{C}'
    || c == '\U{A0}' || c == '\U{1680}' || ('\U{2000}' <= c <= '\U{200A}')
    || c == '\U{2028}' || c == '\U{2029}' || c == '\U{202F}' || c == '\U{205F}'
    || c == '\U{3000}' || c == '\U{FEFF}'
  }

  predicate IsDecimalDigit(c: char) {
    '0' <= c <= '9'
  }

  /** The value of `c` as a digit of radix 16 or less, or -1. */
  function DigitValue(c: char): (d: int)
    ensures -1 <= d < 16
    ensures IsDecimalDigit(c) <==> 0 <= d < 10
  {
    if '0' <= c <= '9' then c as int - '0' as int
    else if 'a' <= c <= 'f' then c as int - 'a' as int + 10
    else if 'A' <= c <= 'F' then c as int - 'A' as int + 10
    else -1
  }

  predicate IsDigitIn(c: char, radix: int) {
    0 <= DigitValue(c) < radix
  }

  /** Drops the leading white space. */
  function TrimStart(s: string): (r: string)
    ensures |r| <= |s| && r == s[|s| - |r|..]
    ensures r == [] || !IsWhiteSpace(r[0])
    ensures forall i :: 0 <= i < |s| - |r| ==> IsWhiteSpace(s[i])
  {
    if s != [] && IsWhiteSpace(s[0]) then TrimStart(s[1..]) else s
  }

  /** Drops the trailing white space. */
  function TrimEnd(s: string): (r: string)
    ensures |r| <= |s| && r == s[..|r|]
    ensures r == [] || !IsWhiteSpace(r[|r| - 1])
    ensures forall i :: |r| <= i < |s| ==> IsWhiteSpace(s[i])
  {
    if s != [] && IsWhiteSpace(s[|s| - 1]) then TrimEnd(s[..|s| - 1]) else s
  }

  /** The length of the longest prefix of `s` made of digits of `radix`. */
  function DigitRunLength(s: string, radix: int): (n: nat)
    ensures n <= |s|
    ensures forall i :: 0 <= i < n ==> IsDigitIn(s[i], radix)
    ensures n < |s| ==> !IsDigitIn(s[n], radix)
  {
    if s != [] && IsDigitIn(s[0], radix) then 1 + DigitRunLength(s[1..], radix) else 0
  }

  /** The number that the digit string `ds` denotes in base `radix`. */
  function DigitsValue(ds: string, radix: nat): nat {
    if ds == [] then 0
    else
      var d := DigitValue(ds[|ds| - 1]);
      DigitsValue(ds[..|ds| - 1], radix) * radix + (if d < 0 then 0 else d)
  }

  /** The unsigned part of `parseInt`: base 16 after a `0x` or `0X` prefix,
      base 10 otherwise, then the longest run of digits; no digit gives `NaN`. */
  function ParseMagnitude(u: string): Option<nat> {
    var hex := |u| >= 2 && u[0] == '0' && (u[1] == 'x' || u[1] == 'X');
    var radix := if hex then 16 else 10;
    var digits := if hex then u[2..] else u;
    var n := DigitRunLength(digits, radix);
    if n == 0 then None else Some(DigitsValue(digits[..n], radix))
  }

  /** `parseInt(s)` with no radix: skip leading white space, read an optional
      sign, then the magnitude. */
  function ParseInt(s: string): (r: Option<int>)
    ensures r.Some? ==> var t := TrimStart(s);
                        t != [] && (IsDecimalDigit(t[0]) || t[0] == '-' || t[0] == '+')
    ensures r.Some? && r.value < 0 ==> TrimStart(s)[0] == '-'
  {
    var t := TrimStart(s);
    var u := if t != [] && (t[0] == '-' || t[0] == '+') then t[1..] else t;
    match ParseMagnitude(u)
    case None => None
    case Some(m) =>
      var v: int := m;
      Some(if t != [] && t[0] == '-' then -v else v)
  }

  /** `parseInt(s) || 0`: `NaN` (and zero) become 0. */
  function ParseIntOrZero(s: string): int {
    match ParseInt(s)
    case None => 0
    case Some(v) => v
  }

  /** Text that starts with a letter other than white space or a digit, such
      as `"undefined"` or `"true"`, parses as `NaN`. */
  lemma ParseIntOfWord(s: string)
    requires s != [] && 'a' <= s[0] <= 'z'
    ensures ParseInt(s) == None
  {
    assert !IsWhiteSpace(s[0]) && !IsDigitIn(s[0], 10);
    assert TrimStart(s) == s;
    assert DigitRunLength(s, 10) == 0;
  }

  /** `Number(s)` for a string: white space around the text is ignored, the
      empty text is 0, and otherwise the text must be an unsigned `0x`
      hexadecimal integer or a signed decimal one; anything else is `NaN`. */
  function StringToNumber(s: string): Option<int> {
    TrimmedToNumber(TrimEnd(TrimStart(s)))
  }

  /** `Number` of a text without surrounding white space. */
  function TrimmedToNumber(t: string): Option<int> {
    if t == [] then Some(0)
    else if |t| > 2 && t[0] == '0' && (t[1] == 'x' || t[1] == 'X')
    then
      var h := t[2..];
      if DigitRunLength(h, 16) == |h| then Some(DigitsValue(h, 16)) else None
    else SignedDecimal(t)
  }

  /** Blank text, the empty text included, is 0. */
  lemma StringToNumberOfBlank(s: string)
    requires forall i :: 0 <= i < |s| ==> IsWhiteSpace(s[i])
    ensures StringToNumber(s) == Some(0)
  {
    assert TrimStart(s) == [];
  }

  /** A negative number needs a minus sign after the leading white space. */
  lemma StringToNumberSign(s: string)
    ensures var r := StringToNumber(s); r.Some? && r.value < 0 ==> TrimStart(s)[0] == '-'
  {
    var t := TrimEnd(TrimStart(s));
    if t != [] {
      assert t[0] == TrimStart(s)[0];
      TrimmedSign(t);
    }
  }

  lemma TrimmedSign(t: string)
    ensures var r := TrimmedToNumber(t); r.Some? && r.value < 0 ==> t[0] == '-'
  {
    SignedDecimalSign(t);
  }

  /** A whole text that is an optionally signed run of decimal digits. */
  function SignedDecimal(t: string): Option<int> {
    var u := if t != [] && (t[0] == '-' || t[0] == '+') then t[1..] else t;
    if u != [] && DigitRunLength(u, 10) == |u|
    then
      var m: int := DigitsValue(u, 10);
      Some(if t[0] == '-' then -m else m)
    else None
  }

  /** Only a leading minus sign makes the signed decimal negative. */
  lemma SignedDecimalSign(t: string)
    ensures SignedDecimal(t).Some? && SignedDecimal(t).value < 0 ==> t[0] == '-'
  {
  }

  function DecimalDigit(d: nat): (c: char)
    requires d < 10
    ensures IsDecimalDigit(c) && DigitValue(c) == d
  {
    ('0' as int + d) as char
  }

  /** The decimal text of a natural number, without leading zeros. */
  function NatToString(n: nat): (s: string)
    ensures |s| >= 1
    ensures forall i :: 0 <= i < |s| ==> IsDecimalDigit(s[i])
  {
    if n < 10 then [DecimalDigit(n)] else NatToString(n / 10) + [DecimalDigit(n % 10)]
  }

  /** `String(n)` for an integer `n`. */
  function IntToString(n: int): (s: string)
    ensures |s| >= 1
    ensures s[0] == '-' <==> n < 0
    ensures forall i :: (if n < 0 then 1 else 0) <= i < |s| ==> IsDecimalDigit(s[i])
  {
    if n < 0 then "-" + NatToString(-n) else NatToString(n)
  }

  /** Reading back the decimal text of `n` gives `n`. */
  lemma {:induction false} NatToStringValue(n: nat)
    ensures DigitsValue(NatToString(n), 10) == n
  {
    if n >= 10 {
      var s := NatToString(n);
      assert s[..|s| - 1] == NatToString(n / 10);
      NatToStringValue(n / 10);
    }
  }

  /** A run of digits followed by a non-digit (or by nothing) is read whole. */
  lemma {:induction false} DigitRunOfDigits(ds: string, rest: string, radix: int)
    requires forall i :: 0 <= i < |ds| ==> IsDigitIn(ds[i], radix)
    requires rest == [] || !IsDigitIn(rest[0], radix)
    ensures DigitRunLength(ds + rest, radix) == |ds|
  {
    if ds != [] {
      assert (ds + rest)[1..] == ds[1..] + rest;
      DigitRunOfDigits(ds[1..], rest, radix);
    } else {
      assert ds + rest == rest;
    }
  }

  /** A decimal digit string followed by something that does not continue it
      has, as magnitude, the value of the digits. */
  lemma ParseMagnitudeOfDecimal(ds: string, rest: string)
    requires ds != [] && forall i :: 0 <= i < |ds| ==> IsDecimalDigit(ds[i])
    requires rest == [] || (!IsDecimalDigit(rest[0]) && rest[0] != 'x' && rest[0] != 'X')
    ensures ParseMagnitude(ds + rest) == Some(DigitsValue(ds, 10))
  {
    var u := ds + rest;
    assert !(|u| >= 2 && u[0] == '0' && (u[1] == 'x' || u[1] == 'X')) by {
      if |ds| >= 2 { assert u[1] == ds[1]; }
    }
    forall i | 0 <= i < |ds| ensures IsDigitIn(ds[i], 10) { }
    DigitRunOfDigits(ds, rest, 10);
    assert u[..|ds|] == ds;
  }

  /** `parseInt(String(n) + rest) == n` whenever `rest` does not continue the
      number: it does not start with a digit, nor with the `x` that would turn
      a leading `0` into a hexadecimal prefix. */
  lemma ParseIntOfDecimal(n: int, rest: string)
    requires rest == [] || (!IsDecimalDigit(rest[0]) && rest[0] != 'x' && rest[0] != 'X')
    ensures ParseInt(IntToString(n) + rest) == Some(n)
  {
    var m: nat := if n < 0 then -n else n;
    var ds := NatToString(m);
    var u := ds + rest;
    var s := IntToString(n) + rest;
    if n < 0 {
      assert s == ['-'] + u;
      assert s[0] == '-' && s[1..] == u;
    } else {
      assert s == u;
      assert IsDecimalDigit(s[0]) && s[0] != '+';
    }
    ParseMagnitudeOfDecimal(ds, rest);
    NatToStringValue(m);
    ParseIntOfMagnitude(s, u, m, n < 0);
  }

  /** Text that starts with its sign or its first digit parses as that sign
      applied to the magnitude of what follows the sign. */
  lemma ParseIntOfMagnitude(s: string, u: string, m: nat, negative: bool)
    requires s != [] && (s[0] == '-' || IsDecimalDigit(s[0]))
    requires negative ==> s[0] == '-' && s[1..] == u
    requires !negative ==> s == u && IsDecimalDigit(s[0])
    requires ParseMagnitude(u) == Some(m)
    ensures ParseInt(s) == Some(if negative then -(m as int) else m)
  {
    TrimStartUnchanged(s);
  }

  lemma TrimStartUnchanged(s: string)
    requires s != [] && (s[0] == '-' || IsDecimalDigit(s[0]))
    ensures TrimStart(s) == s
  {
    assert !IsWhiteSpace(s[0]);
  }

  /** `Number(String(n)) == n`. */
  lemma StringToNumberOfDecimal(n: int)
    ensures StringToNumber(IntToString(n)) == Some(n)
  {
    var m: nat := if n < 0 then -n else n;
    var ds := NatToString(m);
    var s := IntToString(n);
    TrimStartUnchanged(s);
    assert s[|s| - 1] == ds[|ds| - 1];
    TrimEndUnchanged(s);
    assert !(|s| > 2 && s[0] == '0') by {
      if |s| > 2 && s[0] == '0' {
        assert n >= 10;
        NatToStringLeadingDigit(m);
      }
    }
    SignedDecimalOfDecimal(n);
  }

  lemma SignedDecimalOfDecimal(n: int)
    ensures SignedDecimal(IntToString(n)) == Some(n)
  {
    var m: nat := if n < 0 then -n else n;
    var ds := NatToString(m);
    var s := IntToString(n);
    forall i | 0 <= i < |ds| ensures IsDigitIn(ds[i], 10) { }
    DigitRunOfDigits(ds, [], 10);
    assert ds + [] == ds;
    if n < 0 {
      assert s[1..] == ds;
    }
    NatToStringValue(m);
  }

  lemma TrimEndUnchanged(s: string)
    requires s != [] && IsDecimalDigit(s[|s| - 1])
    ensures TrimEnd(s) == s
  {
  }

  /** The decimal text of a number of two or more digits starts with a non-zero digit. */
  lemma {:induction false} NatToStringLeadingDigit(n: nat)
    requires n >= 10
    ensures NatToString(n)[0] != '0'
  {
    if n / 10 >= 10 {
      NatToStringLeadingDigit(n / 10);
    }
  }
}
