/** Values as extension storage hands them to the scripts, and the few
    JavaScript built-ins the dock relies on: truthiness, `a || b`,
    `String.prototype.trim`, number-to-string conversion and `parseInt`. */
module Js {

  datatype Option<T> = None | Some(value: T)

  /** A value read from storage or a message. Numbers are modelled as integers. */
  datatype Value = Undefined | Null | Bool(b: bool) | Num(n: int) | Str(s: string)

  /** ToBoolean: `false`, `0`, `""`, `null` and `undefined` are falsy. */
  predicate Truthy(v: Value) {
    match v
    case Undefined => false
    case Null => false
    case Bool(b) => b
    case Num(n) => n != 0
    case Str(s) => s != ""
  }

  /** `a || b` */
  function Or(a: Value, b: Value): Value {
    if Truthy(a) then a else b
  }

  /** Truthiness of a string property that may be absent. */
  predicate Present(s: Option<string>) {
    s.Some? && s.value != ""
  }

  // ---------------------------------------------------------------------------
  // Whitespace and trim

  /** The WhiteSpace and LineTerminator code points that `trim` and `parseInt` skip. */
  predicate IsSpace(c: char) {
    c == '\t' || c == '\n' || c == '\U{000B}' || c == '\U{000C}' || c == '\r' || c == ' '
    || c == '\U{00A0}' || c == '\U{1680}' || ('\U{2000}' <= c <= '\U{200A}')
    || c == '\U{2028}' || c == '\U{2029}' || c == '\U{202F}' || c == '\U{205F}'
    || c == '\U{3000}' || c == '\U{FEFF}'
  }

  /** Drops the leading whitespace: what remains is a suffix of `s` that does
      not start with whitespace, and everything dropped was whitespace. */
  function TrimStart(s: string): (r: string)
    ensures |r| <= |s| && r == s[|s| - |r|..]
    ensures forall i :: 0 <= i < |s| - |r| ==> IsSpace(s[i])
    ensures r == [] || !IsSpace(r[0])
  {
    if |s| > 0 && IsSpace(s[0]) then TrimStart(s[1..]) else s
  }

  /** Drops the trailing whitespace: what remains is a prefix of `s` that does
      not end with whitespace, and everything dropped was whitespace. */
  function TrimEnd(s: string): (r: string)
    ensures |r| <= |s| && r == s[..|r|]
    ensures forall i :: |r| <= i < |s| ==> IsSpace(s[i])
    ensures r == [] || !IsSpace(r[|r| - 1])
  {
    if |s| > 0 && IsSpace(s[|s| - 1]) then TrimEnd(s[..|s| - 1]) else s
  }

  /** `s.trim()` */
  function Trim(s: string): (r: string)
    ensures |r| <= |s|
    ensures r == [] || (!IsSpace(r[0]) && !IsSpace(r[|r| - 1]))
  {
    TrimEnd(TrimStart(s))
  }

  /** A string with no whitespace at either end is its own trim. */
  lemma TrimOfTrimmed(s: string)
    requires s == [] || (!IsSpace(s[0]) && !IsSpace(s[|s| - 1]))
    ensures Trim(s) == s
  {
  }

  // ---------------------------------------------------------------------------
  // Digits

  predicate IsDecimalDigit(c: char) {
    '0' <= c <= '9'
  }

  predicate IsRadixDigit(c: char, hex: bool) {
    IsDecimalDigit(c) || (hex && ('a' <= c <= 'f' || 'A' <= c <= 'F'))
  }

  function DigitValue(c: char): (d: nat)
    requires IsRadixDigit(c, true)
    ensures d < 16
    ensures IsDecimalDigit(c) ==> d < 10
  {
    if IsDecimalDigit(c) then (c - '0') as nat
    else if 'a' <= c <= 'f' then (c - 'a') as nat + 10
    else (c - 'A') as nat + 10
  }

  function DigitChar(d: nat): (c: char)
    requires d < 10
    ensures IsDecimalDigit(c) && DigitValue(c) == d
  {
    "0123456789"[d]
  }

  /** Decimal notation of a natural number, without leading zeros. */
  function NatToString(n: nat): (s: string)
    ensures |s| > 0 && forall i :: 0 <= i < |s| ==> IsDecimalDigit(s[i])
    ensures s[0] == '0' ==> n == 0
    decreases n
  {
    if n < 10 then [DigitChar(n)] else NatToString(n / 10) + [DigitChar(n % 10)]
  }

  /** `String(n)` for an integer. */
  function IntToString(n: int): string {
    if n < 0 then "-" + NatToString(-n) else NatToString(n)
  }

  /** `String(v)` */
  function ToStr(v: Value): string {
    match v
    case Undefined => "undefined"
    case Null => "null"
    case Bool(b) => if b then "true" else "false"
    case Num(n) => IntToString(n)
    case Str(s) => s
  }

  // ---------------------------------------------------------------------------
  // parseInt

  /** The longest prefix of `s` made of digits of the radix. */
  function LeadingDigits(s: string, hex: bool): (r: string)
    ensures |r| <= |s| && r == s[..|r|]
    ensures forall i :: 0 <= i < |r| ==> IsRadixDigit(r[i], hex)
    ensures |r| == |s| || !IsRadixDigit(s[|r|], hex)
  {
    if |s| > 0 && IsRadixDigit(s[0], hex) then [s[0]] + LeadingDigits(s[1..], hex) else []
  }

  /** Positional value of a digit string, most significant digit first. */
  function DigitsValue(ds: string, hex: bool): nat
    requires forall i :: 0 <= i < |ds| ==> IsRadixDigit(ds[i], hex)
  {
    if |ds| == 0 then 0
    else
      var last := ds[|ds| - 1];
      assert IsRadixDigit(last, hex);
      DigitsValue(ds[..|ds| - 1], hex) * (if hex then 16 else 10) + DigitValue(last)
  }

  /** `parseInt(s)` with no radix: skip leading whitespace, read one optional
      sign, read hexadecimal after a `0x`/`0X` prefix and decimal otherwise, and
      stop at the first character that is not a digit. `None` stands for NaN. */
  function ParseInt(s: string): Option<int> {
    ParseSigned(TrimStart(s))
  }

  /** The sign step of `parseInt`, on the string after leading whitespace. */
  function ParseSigned(t: string): Option<int> {
    if |t| > 0 && t[0] == '-' then
      match ParseMagnitude(t[1..])
      case None => None
      case Some(m) => Some(-m)
    else if |t| > 0 && t[0] == '+' then ParseMagnitude(t[1..])
    else ParseMagnitude(t)
  }

  /** The digits step of `parseInt`, on the string after the sign. */
  function ParseMagnitude(u: string): Option<int> {
    var hex := |u| >= 2 && u[0] == '0' && (u[1] == 'x' || u[1] == 'X');
    var ds := LeadingDigits(if hex then u[2..] else u, hex);
    if ds == [] then None else Some(DigitsValue(ds, hex))
  }

  /** `parseInt(v)`: the value is converted to a string first. */
  function ParseIntValue(v: Value): Option<int> {
    ParseInt(ToStr(v))
  }

  lemma {:induction false} DigitsValueOfNat(n: nat)
    ensures DigitsValue(NatToString(n), false) == n
    decreases n
  {
    var s := NatToString(n);
    if n >= 10 {
      DigitsValueOfNat(n / 10);
      assert s[..|s| - 1] == NatToString(n / 10);
    }
  }

  lemma {:induction false} LeadingDigitsOfDigits(ds: string, rest: string)
    requires forall i :: 0 <= i < |ds| ==> IsDecimalDigit(ds[i])
    requires rest == [] || !IsDecimalDigit(rest[0])
    ensures LeadingDigits(ds + rest, false) == ds
  {
    if |ds| > 0 {
      assert (ds + rest)[1..] == ds[1..] + rest;
      LeadingDigitsOfDigits(ds[1..], rest);
    } else {
      assert ds + rest == rest;
    }
  }

  /** The decimal notation of an integer, followed by anything that does not
      continue the number (a unit such as "px", or nothing), parses back to
      that integer. */
  lemma ParseIntOfIntToString(n: int, unit: string)
    requires unit == [] || (!IsDecimalDigit(unit[0]) && unit[0] != 'x' && unit[0] != 'X')
    ensures ParseInt(IntToString(n) + unit) == Some(n)
  {
    if n < 0 {
      ParseNegative(n, unit);
    } else {
      ParseNonNegative(n, unit);
    }
  }

  /** A minus sign before the digits of a positive number negates it. */
  lemma ParseNegative(n: int, unit: string)
    requires n < 0
    requires unit == [] || (!IsDecimalDigit(unit[0]) && unit[0] != 'x' && unit[0] != 'X')
    ensures ParseInt(IntToString(n) + unit) == Some(n)
  {
    var m: nat := -n;
    assert IntToString(n) + unit == "-" + (NatToString(m) + unit);
    MinusDigits(m, unit);
  }

  lemma MinusDigits(m: nat, unit: string)
    requires unit == [] || (!IsDecimalDigit(unit[0]) && unit[0] != 'x' && unit[0] != 'X')
    ensures ParseInt("-" + (NatToString(m) + unit)) == Some(-(m as int))
  {
    ParseUnsigned(m, unit);
    MinusSign(NatToString(m) + unit, m);
  }

  /** `parseInt` of a minus sign followed by a magnitude negates the magnitude. */
  lemma MinusSign(u: string, m: int)
    requires ParseMagnitude(u) == Some(m)
    ensures ParseInt("-" + u) == Some(-m)
  {
    var s := "-" + u;
    assert s[0] == '-' && s[1..] == u;
    assert ParseSigned(s) == Some(-m);
    NoLeadingSpace(s);
  }

  /** The digits of a natural number, without a sign, read back as it. */
  lemma ParseNonNegative(n: int, unit: string)
    requires n >= 0
    requires unit == [] || (!IsDecimalDigit(unit[0]) && unit[0] != 'x' && unit[0] != 'X')
    ensures ParseInt(IntToString(n) + unit) == Some(n)
  {
    var u := NatToString(n) + unit;
    assert IntToString(n) + unit == u;
    ParseUnsigned(n, unit);
    assert u[0] == NatToString(n)[0];
    NoLeadingSpace(u);
    UnsignedHasNoSign(u);
  }

  lemma NoLeadingSpace(s: string)
    requires |s| > 0 && (s[0] == '-' || IsDecimalDigit(s[0]))
    ensures TrimStart(s) == s
  {
    assert !IsSpace(s[0]);
  }

  lemma UnsignedHasNoSign(t: string)
    requires |t| > 0 && IsDecimalDigit(t[0])
    ensures ParseSigned(t) == ParseMagnitude(t)
  {
    assert t[0] != '-' && t[0] != '+';
  }

  /** After the sign, the digits of a natural number read back as that number. */
  lemma ParseUnsigned(m: nat, unit: string)
    requires unit == [] || (!IsDecimalDigit(unit[0]) && unit[0] != 'x' && unit[0] != 'X')
    ensures ParseMagnitude(NatToString(m) + unit) == Some(m)
  {
    var digits := NatToString(m);
    var u := digits + unit;
    if |u| >= 2 && u[0] == '0' {
      assert u[0] == digits[0];
      assert m == 0 && |digits| == 1;
      assert u[1] == unit[0];
    }
    LeadingDigitsOfDigits(digits, unit);
    DigitsValueOfNat(m);
  }

  /** `parseInt(String(n)) == n` for every integer. */
  lemma ParseIntValueOfNum(n: int)
    ensures ParseIntValue(Num(n)) == Some(n)
  {
    ParseIntOfIntToString(n, "");
    assert IntToString(n) + "" == IntToString(n);
  }

  /** Different naturals have different decimal notations. */
  lemma NatToStringInjective(m: nat, n: nat)
    requires NatToString(m) == NatToString(n)
    ensures m == n
  {
    DigitsValueOfNat(m);
    DigitsValueOfNat(n);
  }

  /** A string that starts with anything but whitespace, a sign or a digit
      is NaN to `parseInt`. */
  lemma ParseIntNotANumber(s: string)
    requires |s| > 0 && !IsSpace(s[0]) && !IsDecimalDigit(s[0]) && s[0] != '-' && s[0] != '+'
    ensures ParseInt(s) == None
  {
    assert TrimStart(s) == s;
    assert ParseSigned(s) == ParseMagnitude(s);
    assert LeadingDigits(s, false) == [];
  }
}
