/** The JavaScript built-ins the handlers rely on for text: `parseInt` with
    no radix (section 19.2.5 of ECMA-262) and `String.prototype.trim`, both
    over the ECMA-262 white space and line terminator characters. */
module Js {
  import opened Common

  /** A StrWhiteSpaceChar of ECMA-262: TAB, VT, FF, ZWNBSP, the space
      separators of Unicode category Zs, and the four line terminators. */
  predicate IsStrWhiteSpace(c: char) {
    c == '\t' || c == '\U{000B}' || c == '\U{000C}' || c == '\U{FEFF}' ||
    c == ' ' || c == '\U{00A0}' || c == '\U{1680}' || ('\U{2000}' <= c <= '\U{200A}') ||
    c == '\U{202F}' || c == '\U{205F}' || c == '\U{3000}' ||
    c == '\n' || c == '\r' || c == '\U{2028}' || c == '\U{2029}'
  }

  /** Number of leading white space characters. */
  function LeadingSpace(s: string): (k: nat)
    ensures k <= |s|
    ensures forall j :: 0 <= j < k ==> IsStrWhiteSpace(s[j])
    ensures k < |s| ==> !IsStrWhiteSpace(s[k])
  {
    if s == [] || !IsStrWhiteSpace(s[0]) then 0 else 1 + LeadingSpace(s[1..])
  }

  /** Number of trailing white space characters. */
  function TrailingSpace(s: string): (k: nat)
    ensures k <= |s|
    ensures forall j :: |s| - k <= j < |s| ==> IsStrWhiteSpace(s[j])
    ensures k < |s| ==> !IsStrWhiteSpace(s[|s| - 1 - k])
  {
    if s == [] || !IsStrWhiteSpace(s[|s| - 1]) then 0 else 1 + TrailingSpace(s[..|s| - 1])
  }

  function TrimStart(s: string): string {
    s[LeadingSpace(s)..]
  }

  /** `String.prototype.trim`. */
  function Trim(s: string): (r: string)
    ensures r == [] || (!IsStrWhiteSpace(r[0]) && !IsStrWhiteSpace(r[|r| - 1]))
  {
    var t := TrimStart(s);
    t[..|t| - TrailingSpace(t)]
  }

  lemma {:induction false} LeadingSpaceOf(ws: string, rest: string)
    requires forall j :: 0 <= j < |ws| ==> IsStrWhiteSpace(ws[j])
    requires rest == [] || !IsStrWhiteSpace(rest[0])
    ensures LeadingSpace(ws + rest) == |ws|
  {
    var s := ws + rest;
    assert forall j :: 0 <= j < |ws| ==> s[j] == ws[j];
    assert |rest| > 0 ==> s[|ws|] == rest[0];
  }

  lemma {:induction false} TrailingSpaceOf(core: string, ws: string)
    requires forall j :: 0 <= j < |ws| ==> IsStrWhiteSpace(ws[j])
    requires core == [] || !IsStrWhiteSpace(core[|core| - 1])
    ensures TrailingSpace(core + ws) == |ws|
  {
    var s := core + ws;
    assert forall j :: 0 <= j < |ws| ==> s[|core| + j] == ws[j];
    assert |core| > 0 ==> s[|core| - 1] == core[|core| - 1];
  }

  /** `trim` removes exactly the surrounding white space: text that does not
      start or end with white space comes back from any padding unchanged. */
  lemma {:induction false} TrimPadding(lead: string, core: string, trail: string)
    requires forall j :: 0 <= j < |lead| ==> IsStrWhiteSpace(lead[j])
    requires forall j :: 0 <= j < |trail| ==> IsStrWhiteSpace(trail[j])
    requires core == [] || (!IsStrWhiteSpace(core[0]) && !IsStrWhiteSpace(core[|core| - 1]))
    ensures Trim(lead + core + trail) == core
  {
    var s := lead + core + trail;
    if core == [] {
      assert s == lead + trail;
      LeadingSpaceOf(lead + trail, []);
      assert lead + trail + [] == s;
      assert TrimStart(s) == [];
    } else {
      assert s == lead + (core + trail);
      LeadingSpaceOf(lead, core + trail);
      assert TrimStart(s) == core + trail;
      TrailingSpaceOf(core, trail);
      assert (core + trail)[..|core|] == core;
    }
  }

  /** Trimming twice is trimming once. */
  lemma {:induction false} TrimIdempotent(s: string)
    ensures Trim(Trim(s)) == Trim(s)
  {
    TrimPadding([], Trim(s), []);
    assert [] + Trim(s) + [] == Trim(s);
  }

  predicate IsDecimalDigit(c: char) {
    '0' <= c <= '9'
  }

  /** The value of a digit or letter in radix notation: `0`-`9`, then `a`-`z`
      and `A`-`Z` from 10 up; 36 for any other character. */
  function DigitValue(c: char): nat {
    if '0' <= c <= '9' then c as nat - '0' as nat
    else if 'a' <= c <= 'z' then c as nat - 'a' as nat + 10
    else if 'A' <= c <= 'Z' then c as nat - 'A' as nat + 10
    else 36
  }

  predicate IsRadixDigit(c: char, radix: nat) {
    DigitValue(c) < radix
  }

  /** Length of the longest prefix of radix-`radix` digits. */
  function DigitRun(s: string, radix: nat): (k: nat)
    ensures k <= |s|
    ensures forall j :: 0 <= j < k ==> IsRadixDigit(s[j], radix)
    ensures k < |s| ==> !IsRadixDigit(s[k], radix)
  {
    if s == [] || !IsRadixDigit(s[0], radix) then 0 else 1 + DigitRun(s[1..], radix)
  }

  /** The number a string of digits denotes in the radix, most significant first. */
  function DigitsValue(z: string, radix: nat): nat {
    if z == [] then 0 else DigitsValue(z[..|z| - 1], radix) * radix + DigitValue(z[|z| - 1])
  }

  /** The text starts with a minus sign. */
  predicate Negative(t: string) {
    |t| > 0 && t[0] == '-'
  }

  /** The text after one leading sign, if there is one. */
  function StripSign(t: string): string {
    if |t| > 0 && (t[0] == '-' || t[0] == '+') then t[1..] else t
  }

  predicate HasHexPrefix(u: string) {
    |u| >= 2 && u[0] == '0' && (u[1] == 'x' || u[1] == 'X')
  }

  /** The value of the leading radix digits, `None` when there are none. */
  function ReadDigits(body: string, radix: nat): Option<nat> {
    var z := body[..DigitRun(body, radix)];
    if z == [] then None else Some(DigitsValue(z, radix))
  }

  /** An unsigned numeral: hexadecimal after `0x` or `0X`, decimal otherwise. */
  function ReadUnsigned(u: string): Option<nat> {
    if HasHexPrefix(u) then ReadDigits(u[2..], 16) else ReadDigits(u, 10)
  }

  /** `parseInt(s)`: skip leading white space, read one optional sign, switch
      to radix 16 after `0x` or `0X`, then read digits up to the first
      character that is not one; no digit at all is `NaN` (here `None`).
      A negative zero is returned as 0. */
  function ParseInt(s: string): Option<int> {
    var t := TrimStart(s);
    var r := ReadUnsigned(StripSign(t));
    if r.None? then None
    else if Negative(t) then Some(-(r.value as int))
    else Some(r.value as int)
  }

  function DecimalChar(d: nat): char
    requires d < 10
  {
    ('0' as nat + d) as char
  }

  /** The decimal numeral of `n`, without leading zeros. */
  function DecimalString(n: nat): string {
    if n < 10 then [DecimalChar(n)] else DecimalString(n / 10) + [DecimalChar(n % 10)]
  }

  predicate AllDecimal(z: string) {
    forall j :: 0 <= j < |z| ==> IsDecimalDigit(z[j])
  }

  /** Reading back the numeral of `n` gives `n`; it is made of digits and only
      "0" itself starts with 0. */
  lemma {:induction false} DecimalStringValue(n: nat)
    ensures DigitsValue(DecimalString(n), 10) == n
    ensures AllDecimal(DecimalString(n)) && |DecimalString(n)| > 0
    ensures DecimalString(n)[0] == '0' ==> n == 0
  {
    if n >= 10 {
      DecimalStringValue(n / 10);
      var s := DecimalString(n);
      assert s[..|s| - 1] == DecimalString(n / 10);
      assert s[0] == DecimalString(n / 10)[0];
    }
  }

  lemma {:induction false} DigitRunOf(digits: string, rest: string, radix: nat)
    requires forall j :: 0 <= j < |digits| ==> IsRadixDigit(digits[j], radix)
    requires rest == [] || !IsRadixDigit(rest[0], radix)
    ensures DigitRun(digits + rest, radix) == |digits|
  {
    var s := digits + rest;
    assert forall j :: 0 <= j < |digits| ==> s[j] == digits[j];
    assert |rest| > 0 ==> s[|digits|] == rest[0];
  }

  lemma {:induction false} ReadDigitsOf(digits: string, rest: string, radix: nat)
    requires |digits| > 0 && forall j :: 0 <= j < |digits| ==> IsRadixDigit(digits[j], radix)
    requires rest == [] || !IsRadixDigit(rest[0], radix)
    ensures ReadDigits(digits + rest, radix) == Some(DigitsValue(digits, radix))
  {
    DigitRunOf(digits, rest, radix);
    assert (digits + rest)[..|digits|] == digits;
  }

  /** Leading white space is skipped before the sign. */
  lemma {:induction false} TrimStartOf(ws: string, t: string)
    requires forall j :: 0 <= j < |ws| ==> IsStrWhiteSpace(ws[j])
    requires t == [] || !IsStrWhiteSpace(t[0])
    ensures TrimStart(ws + t) == t
  {
    LeadingSpaceOf(ws, t);
    assert (ws + t)[|ws|..] == t;
  }

  /** Decimal digits not read as a hexadecimal prefix. */
  lemma {:induction false} ReadUnsignedDecimal(digits: string, rest: string)
    requires |digits| > 0 && AllDecimal(digits)
    requires rest == [] || !IsDecimalDigit(rest[0])
    requires !(digits == "0" && |rest| > 0 && (rest[0] == 'x' || rest[0] == 'X'))
    ensures ReadUnsigned(digits + rest) == Some(DigitsValue(digits, 10))
  {
    var u := digits + rest;
    assert u[0] == digits[0];
    if |digits| >= 2 {
      assert u[1] == digits[1];
    } else if |rest| > 0 {
      assert u[1] == rest[0];
    }
    assert !HasHexPrefix(u);
    ReadDigitsOf(digits, rest, 10);
  }

  /** Trimming drops exactly the white space in front of the first other character. */
  lemma {:induction false} TrimStartSkipsSpace(ws: string, t: string)
    requires forall j :: 0 <= j < |ws| ==> IsStrWhiteSpace(ws[j])
    requires t == [] || !IsStrWhiteSpace(t[0])
    ensures TrimStart(ws + t) == TrimStart(t) == t
  {
    TrimStartOf(ws, t);
    TrimStartOf([], t);
    assert [] + t == t;
  }

  /** `parseInt` depends on its argument only through the trimmed text. */
  lemma {:induction false} ParseIntByTrim(a: string, b: string)
    requires TrimStart(a) == TrimStart(b)
    ensures ParseInt(a) == ParseInt(b)
  {
  }

  /** Leading white space does not change what `parseInt` reads. */
  lemma {:induction false} ParseIntSkipsSpace(ws: string, t: string)
    requires forall j :: 0 <= j < |ws| ==> IsStrWhiteSpace(ws[j])
    requires t == [] || !IsStrWhiteSpace(t[0])
    ensures ParseInt(ws + t) == ParseInt(t)
  {
    TrimStartSkipsSpace(ws, t);
    ParseIntByTrim(ws + t, t);
  }

  /** Without white space or sign in front, `parseInt` reads an unsigned numeral. */
  lemma {:induction false} ParseIntUnsigned(t: string)
    requires |t| > 0 && !IsStrWhiteSpace(t[0]) && t[0] != '-' && t[0] != '+'
    ensures ParseInt(t) == if ReadUnsigned(t).None? then None else Some(ReadUnsigned(t).value as int)
  {
    TrimStartOf([], t);
    assert [] + t == t;
  }

  /** `parseInt` reads the leading decimal digits after white space, and
      ignores whatever follows them. */
  lemma {:induction false} ParseIntLeadingDigits(ws: string, digits: string, rest: string)
    requires forall j :: 0 <= j < |ws| ==> IsStrWhiteSpace(ws[j])
    requires |digits| > 0 && AllDecimal(digits)
    requires rest == [] || !IsDecimalDigit(rest[0])
    requires !(digits == "0" && |rest| > 0 && (rest[0] == 'x' || rest[0] == 'X'))
    ensures ParseInt(ws + digits + rest) == Some(DigitsValue(digits, 10))
  {
    var t := digits + rest;
    assert t[0] == digits[0];
    assert ws + digits + rest == ws + t;
    ParseIntSkipsSpace(ws, t);
    ParseIntUnsigned(t);
    ReadUnsignedDecimal(digits, rest);
  }

  /** A leading minus sign negates what follows it. */
  lemma {:induction false} ParseIntMinus(ws: string, t: string)
    requires forall j :: 0 <= j < |ws| ==> IsStrWhiteSpace(ws[j])
    requires |t| > 0 && t[0] == '-'
    ensures ParseInt(ws + t) == if ReadUnsigned(t[1..]).None? then None else Some(-(ReadUnsigned(t[1..]).value as int))
  {
    TrimStartOf(ws, t);
  }

  /** The numeral of a natural number parses back to it, also after white space. */
  lemma {:induction false} ParseIntDecimal(ws: string, n: nat)
    requires forall j :: 0 <= j < |ws| ==> IsStrWhiteSpace(ws[j])
    ensures ParseInt(ws + DecimalString(n)) == Some(n)
  {
    DecimalStringValue(n);
    ParseIntLeadingDigits(ws, DecimalString(n), "");
    assert ws + DecimalString(n) + "" == ws + DecimalString(n);
  }

  /** Text whose first character after white space is neither a sign nor a
      digit is `NaN`. */
  lemma {:induction false} ParseIntNoNumber(ws: string, rest: string)
    requires forall j :: 0 <= j < |ws| ==> IsStrWhiteSpace(ws[j])
    requires rest == [] || (!IsStrWhiteSpace(rest[0]) && !IsDecimalDigit(rest[0]) && rest[0] != '-' && rest[0] != '+')
    ensures ParseInt(ws + rest) == None
  {
    LeadingSpaceOf(ws, rest);
    assert TrimStart(ws + rest) == rest;
  }

  /** With a `0x` prefix the digits are read in radix 16. */
  lemma {:induction false} ParseIntHex(digits: string)
    requires |digits| > 0 && forall j :: 0 <= j < |digits| ==> IsRadixDigit(digits[j], 16)
    ensures ParseInt("0x" + digits) == Some(DigitsValue(digits, 16))
  {
    var s := "0x" + digits;
    assert s[0] == '0';
    LeadingSpaceOf([], s);
    assert [] + s == s;
    assert TrimStart(s) == s;
    assert StripSign(s) == s;
    assert HasHexPrefix(s);
    assert s[2..] == digits;
    ReadDigitsOf(digits, [], 16);
    assert digits + [] == digits;
  }
}
