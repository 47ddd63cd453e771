/** The JavaScript value semantics the data-shaping rules depend on.

    A JSON field that may be missing is an `Option`; `None` stands for both
    `null` and `undefined`. JavaScript's `||` treats `""`, `0`, `false`,
    `null` and `undefined` as missing, so each field kind gets a `Truthy`
    predicate and `||` is written against it. */
module Js {
  import opened Wrappers
  import opened Seqs

  predicate TruthyString(o: Option<string>) {
    o.Some? && o.value != ""
  }

  predicate TruthyNumber(o: Option<int>) {
    o.Some? && o.value != 0
  }

  predicate TruthyReal(o: Option<real>) {
    o.Some? && o.value != 0.0
  }

  predicate TruthyBool(o: Option<bool>) {
    o == Some(true)
  }

  /** `a || b` for a string field with a string fallback. */
  function OrString(a: Option<string>, b: string): (r: string)
    ensures TruthyString(a) ==> r == a.value
    ensures !TruthyString(a) ==> r == b
  {
    if TruthyString(a) then a.value else b
  }

  /** `a || b` where the fallback may itself be missing. */
  function OrOption(a: Option<string>, b: Option<string>): Option<string> {
    if TruthyString(a) then a else b
  }

  /** `s?.slice(0, n)`: undefined when the string is missing. */
  function SliceOption(o: Option<string>, n: nat): Option<string> {
    match o
    case None => None
    case Some(s) => Some(Take(s, n))
  }

  /** `s?.slice(0, 4) || ""`, the year shown for a date string `YYYY-MM-DD`. */
  function YearOf(date: Option<string>): (r: string)
    ensures |r| <= 4
    ensures date.Some? ==> |r| == Min(4, |date.value|) && r <= date.value
    ensures r == "" <==> !TruthyString(date)
  {
    OrString(SliceOption(date, 4), "")
  }

  // ---------------------------------------------------------------------
  // Decimal text of integers: the `${n}` in a template literal.

  function DigitChar(d: nat): (c: char)
    requires d < 10
  {
    "0123456789"[d]
  }

  predicate IsDigit(c: char) {
    '0' <= c <= '9'
  }

  function DigitValue(c: char): nat
    requires IsDigit(c)
  {
    (c as int - '0' as int) as nat
  }

  predicate AllDigits(s: string) {
    forall i :: 0 <= i < |s| ==> IsDigit(s[i])
  }

  /** Reads a string of decimal digits; the reference meaning of a numeral. */
  function DigitsValue(s: string): nat
    requires AllDigits(s)
  {
    if s == [] then 0 else DigitsValue(s[..|s| - 1]) * 10 + DigitValue(s[|s| - 1])
  }

  /** `${n}` for a non-negative integer: its decimal digits, most significant first. */
  function NatToString(n: nat): (r: string)
    ensures r != []
    ensures AllDigits(r)
    ensures |r| > 1 ==> r[0] != '0'
  {
    if n < 10 then [DigitChar(n)] else NatToString(n / 10) + [DigitChar(n % 10)]
  }

  /** `${n}` for any integer (integers below 10^21 print without an exponent). */
  function IntToString(n: int): string {
    if n < 0 then "-" + NatToString(-n) else NatToString(n)
  }

  /** Reads back what `IntToString` writes: an optional minus sign and digits. */
  function ParseInt(s: string): Option<int> {
    if |s| > 1 && s[0] == '-' && AllDigits(s[1..]) then
      var v: int := DigitsValue(s[1..]);
      Some(-v)
    else if |s| > 0 && AllDigits(s) then
      Some(DigitsValue(s))
    else None
  }

  lemma {:induction false} NatToStringValue(n: nat)
    ensures DigitsValue(NatToString(n)) == n
  {
    if n >= 10 {
      var s := NatToString(n / 10);
      var r := s + [DigitChar(n % 10)];
      assert r[..|r| - 1] == s;
      NatToStringValue(n / 10);
    }
  }

  /** Printing an integer and reading it back gives the integer. */
  lemma IntToStringRoundTrip(n: int)
    ensures ParseInt(IntToString(n)) == Some(n)
  {
    if n < 0 {
      var d := NatToString(-n);
      assert ("-" + d)[1..] == d;
      NatToStringValue(-n);
    } else {
      var d := NatToString(n);
      assert IsDigit(d[0]);
      NatToStringValue(n);
    }
  }

  /** The text of `${n}분`, a duration in minutes. */
  function Minutes(n: int): string {
    IntToString(n) + "분"
  }

  /** The minute count can be read back from the label. */
  lemma MinutesRoundTrip(n: int)
    ensures |Minutes(n)| > 1 && Minutes(n)[|Minutes(n)| - 1] == '분'
    ensures ParseInt(Minutes(n)[..|Minutes(n)| - 1]) == Some(n)
  {
    assert Minutes(n)[..|Minutes(n)| - 1] == IntToString(n);
    IntToStringRoundTrip(n);
  }

  // ---------------------------------------------------------------------
  // `String.prototype.trim` and blank strings.

  /** ECMAScript WhiteSpace and LineTerminator code points. */
  predicate IsWhitespace(c: char) {
    || c == '\t' || c == '\n' || c == '\U{000B}' || c == '\U{000C}' || c == '\r'
    || c == ' ' || c == '\U{00A0}' || c == '\U{1680}'
    || ('\U{2000}' <= c <= '\U{200A}')
    || c == '\U{2028}' || c == '\U{2029}' || c == '\U{202F}' || c == '\U{205F}'
    || c == '\U{3000}' || c == '\U{FEFF}'
  }

  function TrimStart(s: string): (r: string)
    ensures |r| <= |s| && r == s[|s| - |r|..]
    ensures r != [] ==> !IsWhitespace(r[0])
    ensures forall i :: 0 <= i < |s| - |r| ==> IsWhitespace(s[i])
  {
    if s != [] && IsWhitespace(s[0]) then TrimStart(s[1..]) else s
  }

  function TrimEnd(s: string): (r: string)
    ensures |r| <= |s| && r == s[..|r|]
    ensures r != [] ==> !IsWhitespace(r[|r| - 1])
    ensures forall i :: |r| <= i < |s| ==> IsWhitespace(s[i])
  {
    if s != [] && IsWhitespace(s[|s| - 1]) then TrimEnd(s[..|s| - 1]) else s
  }

  /** `s.trim()`. */
  function Trim(s: string): string {
    TrimEnd(TrimStart(s))
  }

  /** `!s.trim()`: the string is empty once trimmed. */
  predicate IsBlank(s: string) {
    Trim(s) == ""
  }

  lemma {:induction false} TrimStartOfWhitespace(s: string)
    requires forall i :: 0 <= i < |s| ==> IsWhitespace(s[i])
    ensures TrimStart(s) == []
    decreases |s|
  {
    if s != [] {
      TrimStartOfWhitespace(s[1..]);
    }
  }

  /** A string is blank exactly when every character is whitespace. */
  lemma BlankIffAllWhitespace(s: string)
    ensures IsBlank(s) <==> forall i :: 0 <= i < |s| ==> IsWhitespace(s[i])
  {
    if forall i :: 0 <= i < |s| ==> IsWhitespace(s[i]) {
      TrimStartOfWhitespace(s);
    }
  }

  // ---------------------------------------------------------------------
  // JSX `{cond && <element/>}` for a numeric `cond`.

  /** What a JSX child expression renders: nothing, bare text, or an element. */
  datatype Rendered<+E> = Nothing | Text(text: string) | Element(element: E)

  /** `{n && <e/>}` as React evaluates it: `null`/`undefined` render nothing,
      a truthy number renders the element, and the number `0` is itself the
      value of the expression and is rendered as the text "0". */
  function RenderIfNumber<E>(n: Option<int>, e: E): (r: Rendered<E>)
    ensures n == Some(0) ==> r == Text("0")
    ensures TruthyNumber(n) ==> r == Element(e)
    ensures n.None? ==> r.Nothing?
  {
    match n
    case None => Nothing
    case Some(v) => if v == 0 then Text(IntToString(0)) else Element(e)
  }

  /** The same guard written so that a zero count renders nothing. */
  function ShowIfTruthy<E>(n: Option<int>, e: E): (r: Rendered<E>)
    ensures !r.Text?
    ensures r.Element? <==> TruthyNumber(n)
  {
    if TruthyNumber(n) then Element(e) else Nothing
  }
}
