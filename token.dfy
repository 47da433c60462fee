/** The token record shared by the scanner and the literal folder, and the two
    one-line renderings of a token (the plain one and the one with the span). */
module Tokens {

  datatype Option<T> = None | Some(value: T)

  /** One scanned token. `Token(...)` itself plays the part of `Token::new`:
      it stores its seven arguments unchanged. */
  datatype Token = Token(
    name: string,          // the kind, e.g. "LEFT_PAREN", "NUMBER", "ERROR"
    symbol: string,        // the text matched (for ERROR: a sub-kind or the bad character)
    content: string,       // the printable value ("" for punctuation and keywords)
    line: nat,
    startChar: nat,        // the turns of the scanning loop before this token's turn
    endChar: nat,          // the start plus the characters the token covers (EOF: 0-0)
    error: Option<string>  // the diagnostic, present only on ERROR tokens
  )

  predicate IsDigit(c: char) {
    '0' <= c <= '9'
  }

  predicate AllDigits(s: string) {
    forall k :: 0 <= k < |s| ==> IsDigit(s[k])
  }

  function DigitChar(d: nat): (c: char)
    requires d < 10
    ensures IsDigit(c) && c as int - '0' as int == d
  {
    ('0' as int + d) as char
  }

  function DigitValue(c: char): nat
    requires IsDigit(c)
  {
    c as int - '0' as int
  }

  /** Decimal rendering of a counter, as Rust's `{}` formats an unsigned integer. */
  function NatToString(n: nat): (s: string)
    ensures |s| >= 1 && AllDigits(s)
    ensures s[0] == '0' ==> n == 0
    decreases n
  {
    if n < 10 then [DigitChar(n)] else NatToString(n / 10) + [DigitChar(n % 10)]
  }

  /** The number a string of decimal digits denotes. */
  function DigitsValue(s: string): nat
    requires AllDigits(s)
  {
    if s == [] then 0 else DigitsValue(s[..|s| - 1]) * 10 + DigitValue(s[|s| - 1])
  }

  /** Reading the rendered digits back gives the counter: the rendering loses nothing. */
  lemma {:induction false} NatToStringRoundTrip(n: nat)
    ensures DigitsValue(NatToString(n)) == n
    decreases n
  {
    var s := NatToString(n);
    if n >= 10 {
      NatToStringRoundTrip(n / 10);
      assert s[..|s| - 1] == NatToString(n / 10);
    }
  }

  /** The two renderings are told apart by the prefix "[line <n>" followed by ']' or ':'. */
  function ErrorPrefix(line: nat): string {
    "[line " + NatToString(line)
  }

  /** `name symbol content`: the line both renderings write for a token without a
      diagnostic. Each field can be read back at its place between single spaces. */
  function PlainLine(t: Token): (r: string)
    ensures |r| == |t.name| + |t.symbol| + |t.content| + 2
    ensures r[..|t.name|] == t.name && r[|t.name|] == ' '
    ensures r[|t.name| + 1..|t.name| + 1 + |t.symbol|] == t.symbol && r[|t.name| + 1 + |t.symbol|] == ' '
    ensures r[|t.name| + |t.symbol| + 2..] == t.content
  {
    t.name + " " + t.symbol + " " + t.content
  }

  /** The text `print` writes for a token (stderr for an error, stdout otherwise): an error
      line is `[line n` and `]`, ending with the diagnostic. */
  function Print(t: Token): (r: string)
    ensures t.error.None? ==> r == PlainLine(t)
    ensures t.error.Some? ==> var p := ErrorPrefix(t.line);
      |r| > |p| && r[..|p|] == p && r[|p|] == ']'
      && |r| >= |t.error.value| && r[|r| - |t.error.value|..] == t.error.value
  {
    match t.error
    case Some(err) => ErrorPrefix(t.line) + "] Error: " + err
    case None => PlainLine(t)
  }

  /** The span `start-end` that `print_advanced_error` writes into an error line. */
  function SpanText(start: nat, end: nat): string {
    NatToString(start) + "-" + NatToString(end)
  }

  /** The span text splits at its one dash into two digit strings that read back as the
      start and the end. */
  lemma SpanTextReadsBack(start: nat, end: nat)
    ensures var x, a := SpanText(start, end), |NatToString(start)|;
      a < |x| && x[a] == '-' && '-' !in x[..a] && '-' !in x[a + 1..]
      && AllDigits(x[..a]) && DigitsValue(x[..a]) == start
      && AllDigits(x[a + 1..]) && DigitsValue(x[a + 1..]) == end
  {
    var x, a := SpanText(start, end), |NatToString(start)|;
    assert x[..a] == NatToString(start);
    assert x[a + 1..] == NatToString(end);
    NatToStringRoundTrip(start);
    NatToStringRoundTrip(end);
  }

  /** The text `print_advanced_error` writes: the error line also carries the span, as
      `[line n:start-end`, and ends with the diagnostic. */
  function PrintAdvancedError(t: Token): (r: string)
    ensures t.error.None? ==> r == PlainLine(t)
    ensures t.error.Some? ==>
      var p, span := ErrorPrefix(t.line), SpanText(t.startChar, t.endChar);
      |r| > |p| + 1 + |span| && r[..|p|] == p && r[|p|] == ':'
      && r[|p| + 1..|p| + 1 + |span|] == span && r[|p| + 1 + |span|] == ']'
      && |r| >= |t.error.value| && r[|r| - |t.error.value|..] == t.error.value
  {
    match t.error
    case Some(err) => ErrorPrefix(t.line) + ":" + SpanText(t.startChar, t.endChar) + "] Error: " + err
    case None => PlainLine(t)
  }

  /** The two renderings coincide exactly on tokens without an error. */
  lemma PrintAgreesIffNoError(t: Token)
    ensures Print(t) == PrintAdvancedError(t) <==> t.error.None?
    ensures t.error.Some? ==> var p := ErrorPrefix(t.line);
      Print(t)[|p|] == ']' && PrintAdvancedError(t)[|p|] == ':'
  {
  }
}
