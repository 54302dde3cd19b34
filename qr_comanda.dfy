/** Reading a table ("comanda") number from scanned text, as the counter
    screen does (`src/components/admin/AdminPDV.tsx`, `handleQRScanSuccess`):
    first `parseInt` of the whole text, and when that is `NaN`, the first match
    of the case-insensitive pattern `comanda[=/:]?(\d+)` and `parseInt` of its
    captured digits. */
module ComandaQr {
  import opened Common
  import opened Js

  /** Case folding of the non-Unicode `i` flag restricted to what the pattern
      can meet: only ASCII letters fold onto the ASCII letters of "comanda". */
  function AsciiLower(c: char): char {
    if 'A' <= c <= 'Z' then (c as int + 32) as char else c
  }

  function Lowered(t: string): (r: string)
    ensures |r| == |t|
    ensures forall j :: 0 <= j < |t| ==> r[j] == AsciiLower(t[j])
  {
    if t == [] then [] else [AsciiLower(t[0])] + Lowered(t[1..])
  }

  const Keyword: string := "comanda"

  predicate IsSeparator(c: char) {
    c == '=' || c == '/' || c == ':'
  }

  /** The seven characters at `i` spell "comanda" in any letter case. */
  predicate KeywordAt(s: string, i: nat) {
    i + 7 <= |s| && Lowered(s[i..i + 7]) == Keyword
  }

  /** Where the captured digits of a match at `i` start, if the pattern
      matches at `i`: the optional separator is taken when a digit follows it;
      otherwise a digit must follow the keyword directly. */
  function CaptureStart(s: string, i: nat): (r: Option<nat>)
    ensures r.Some? ==> KeywordAt(s, i) && (r.value == i + 7 || r.value == i + 8)
    ensures r.Some? ==> r.value < |s| && IsDecimalDigit(s[r.value])
  {
    if !KeywordAt(s, i) then None
    else if i + 8 < |s| && IsSeparator(s[i + 7]) && IsDecimalDigit(s[i + 8]) then Some(i + 8)
    else if i + 7 < |s| && IsDecimalDigit(s[i + 7]) then Some(i + 7)
    else None
  }

  /** The greedy `\d+` run starting at `d`. */
  function DigitsFrom(s: string, d: nat): string
    requires d <= |s|
  {
    s[d..d + DigitRun(s[d..], 10)]
  }

  /** The capture of the leftmost match at or after position `i`. */
  function MatchFrom(s: string, i: nat): Option<string>
    decreases |s| - i
  {
    if i >= |s| then None
    else match CaptureStart(s, i)
      case Some(d) => Some(DigitsFrom(s, d))
      case None => MatchFrom(s, i + 1)
  }

  predicate MatchesAt(s: string, i: nat) {
    CaptureStart(s, i).Some?
  }

  /** `text.match(/comanda[=\/:]?(\d+)/i)?.[1]`. */
  function CapturedDigits(s: string): Option<string> {
    MatchFrom(s, 0)
  }

  /** The search finds a match exactly when some position matches, and it
      returns the capture at the leftmost one. */
  lemma {:induction false} MatchFromSpec(s: string, i: nat)
    ensures MatchFrom(s, i).None? <==> forall k :: i <= k < |s| ==> !MatchesAt(s, k)
    ensures MatchFrom(s, i).Some? ==>
              exists k :: i <= k < |s| && MatchesAt(s, k) && (forall j :: i <= j < k ==> !MatchesAt(s, j)) &&
                          MatchFrom(s, i).value == DigitsFrom(s, CaptureStart(s, k).value)
    decreases |s| - i
  {
    if i < |s| && !MatchesAt(s, i) {
      MatchFromSpec(s, i + 1);
      if MatchFrom(s, i).Some? {
        var k :| i + 1 <= k < |s| && MatchesAt(s, k) && (forall j :: i + 1 <= j < k ==> !MatchesAt(s, j)) &&
                 MatchFrom(s, i + 1).value == DigitsFrom(s, CaptureStart(s, k).value);
        assert forall j :: i <= j < k ==> !MatchesAt(s, j);
      }
    }
  }

  /** Every capture is a non-empty run of decimal digits. */
  lemma {:induction false} CaptureIsDigits(s: string, d: nat)
    requires d < |s| && IsDecimalDigit(s[d])
    ensures |DigitsFrom(s, d)| > 0 && AllDecimal(DigitsFrom(s, d))
  {
    var t := s[d..];
    assert t[0] == s[d];
    var z := DigitsFrom(s, d);
    forall j | 0 <= j < |z| ensures IsDecimalDigit(z[j]) {
      assert z[j] == t[j];
    }
  }

  /** The number on a QR code: `parseInt` of the whole text, falling back to
      `parseInt` of the pattern's capture. `None` stands for `NaN`. */
  function QrComandaNumber(text: string): Option<int> {
    var direct := ParseInt(text);
    if direct.Some? then direct
    else match CapturedDigits(text)
      case None => None
      case Some(digits) => ParseInt(digits)
  }

  /** The capture of a match always parses, to its decimal value. */
  lemma {:induction false} CaptureParses(s: string, k: nat)
    requires k < |s| && MatchesAt(s, k)
    ensures ParseInt(DigitsFrom(s, CaptureStart(s, k).value)) ==
            Some(DigitsValue(DigitsFrom(s, CaptureStart(s, k).value), 10) as int)
  {
    var digits := DigitsFrom(s, CaptureStart(s, k).value);
    CaptureIsDigits(s, CaptureStart(s, k).value);
    ParseIntLeadingDigits([], digits, []);
    assert [] + digits + [] == digits;
  }

  /** When the text does not start with a number, the result is the decimal
      value of the digits after the leftmost "comanda", or NaN without one. */
  lemma {:induction false} QrFallback(text: string)
    requires ParseInt(text).None?
    ensures QrComandaNumber(text).None? <==> forall k :: 0 <= k < |text| ==> !MatchesAt(text, k)
    ensures QrComandaNumber(text).Some? ==>
              exists k :: 0 <= k < |text| && MatchesAt(text, k) && (forall j :: 0 <= j < k ==> !MatchesAt(text, j)) &&
                          QrComandaNumber(text) == Some(DigitsValue(DigitsFrom(text, CaptureStart(text, k).value), 10) as int)
  {
    MatchFromSpec(text, 0);
    if MatchFrom(text, 0).Some? {
      var k :| 0 <= k < |text| && MatchesAt(text, k) && (forall j :: 0 <= j < k ==> !MatchesAt(text, j)) &&
               MatchFrom(text, 0).value == DigitsFrom(text, CaptureStart(text, k).value);
      CaptureParses(text, k);
      assert QrComandaNumber(text) == ParseInt(MatchFrom(text, 0).value);
    }
  }

  /** Text that starts with a number is read as that number, whatever follows. */
  lemma {:induction false} QrLeadingNumber(ws: string, n: nat, rest: string)
    requires forall j :: 0 <= j < |ws| ==> IsStrWhiteSpace(ws[j])
    requires rest == [] || !IsDecimalDigit(rest[0])
    requires !(n == 0 && |rest| > 0 && (rest[0] == 'x' || rest[0] == 'X'))
    ensures QrComandaNumber(ws + DecimalString(n) + rest) == Some(n)
  {
    DecimalStringValue(n);
    ParseIntLeadingDigits(ws, DecimalString(n), rest);
  }
}
