/** What the line scanner computes, as pure functions. `StepAt` says what one turn of the
    scanning loop emits and where it leaves the cursor, `ScanFrom`/`Scan` what a whole
    `tokenize` call appends. The number canonicalisation and its properties live here too. */
module LexerSpec {
  import opened Tokens

  /** The reserved words, matched with exact case. */
  const Keywords: set<string> :=
    {"and", "class", "else", "false", "for", "fun", "if", "nil", "or", "print",
     "return", "super", "this", "true", "var", "while"}

  /** The kind of a character that is a token on its own. */
  function PunctuationKind(c: char): Option<string> {
    match c
    case '(' => Some("LEFT_PAREN")
    case ')' => Some("RIGHT_PAREN")
    case '{' => Some("LEFT_BRACE")
    case '}' => Some("RIGHT_BRACE")
    case '*' => Some("STAR")
    case ',' => Some("COMMA")
    case '.' => Some("DOT")
    case '+' => Some("PLUS")
    case '-' => Some("MINUS")
    case ';' => Some("SEMICOLON")
    case _ => None
  }

  /** The kinds of `= ! < >` alone and followed by `=`. */
  datatype OperatorKinds = OperatorKinds(single: string, withEqual: string)

  function OperatorKindsOf(c: char): Option<OperatorKinds> {
    match c
    case '=' => Some(OperatorKinds("EQUAL", "EQUAL_EQUAL"))
    case '!' => Some(OperatorKinds("BANG", "BANG_EQUAL"))
    case '<' => Some(OperatorKinds("LESS", "LESS_EQUAL"))
    case '>' => Some(OperatorKinds("GREATER", "GREATER_EQUAL"))
    case _ => None
  }

  predicate IsAsciiLetter(c: char) {
    'a' <= c <= 'z' || 'A' <= c <= 'Z'
  }

  predicate IsIdentifierStart(c: char) {
    IsAsciiLetter(c) || c == '_'
  }

  /** Continuation of an identifier: alphanumeric or `_` (alphanumeric restricted to ASCII). */
  predicate IsIdentifierChar(c: char) {
    IsAsciiLetter(c) || IsDigit(c) || c == '_'
  }

  /** Every character the scanning loop dispatches on; anything else is unexpected. */
  predicate IsHandled(c: char) {
    PunctuationKind(c).Some? || OperatorKindsOf(c).Some? || c == '/' || c == '\t' || c == ' ' || c == '"'
    || IsDigit(c) || IsIdentifierStart(c)
  }

  function UpperChar(c: char): char {
    if 'a' <= c <= 'z' then (c as int - 32) as char else c
  }

  /** Upper-casing, as applied to the (ASCII) keywords. */
  function Upper(s: string): string {
    seq(|s|, k requires 0 <= k < |s| => UpperChar(s[k]))
  }

  /** The kind of an identifier-shaped word. */
  function WordKind(word: string): string {
    if word in Keywords then Upper(word) else "IDENTIFIER"
  }

  /** A keyword's kind is never one of the kinds the scanner or the folder treats specially. */
  lemma KeywordKindsAreReserved(word: string)
    requires word in Keywords
    ensures WordKind(word) !in {"EOF", "ERROR", "IDENTIFIER", "NUMBER", "STRING", "PLUS"}
    ensures word == "true" ==> WordKind(word) == "TRUE"
    ensures word == "false" ==> WordKind(word) == "FALSE"
    ensures word == "nil" ==> WordKind(word) == "NIL"
  {
    var u := Upper(word);
    assert |u| == |word| && u[0] == UpperChar(word[0]);
    if |word| == 3 {
      assert u[1] == UpperChar(word[1]) && u[2] == UpperChar(word[2]);
    }
    if word == "true" {
      assert u == "TRUE";
    } else if word == "false" {
      assert u == "FALSE";
    } else if word == "nil" {
      assert u == "NIL";
    }
  }

  /** No word is scanned as an ERROR token. */
  lemma WordKindNotError(word: string)
    ensures WordKind(word) != "ERROR"
  {
    if word in Keywords {
      KeywordKindsAreReserved(word);
    }
  }

  // ---------------------------------------------------------------------------
  // Number canonicalisation

  /** `trim_end_matches('0')`. */
  function TrimTrailingZeros(s: string): (r: string)
    ensures r <= s
    ensures r == [] || r[|r| - 1] != '0'
    ensures forall k :: |r| <= k < |s| ==> s[k] == '0'
  {
    if |s| > 0 && s[|s| - 1] == '0' then TrimTrailingZeros(s[..|s| - 1]) else s
  }

  /** The printable value of a number run: `.0` appended to an integer; a decimal loses
      its trailing zeros, and gets one `0` back if it then ends in `.`. */
  function FormatNumber(numberStr: string, decimalFound: bool): string {
    if decimalFound then
      var trimmed := TrimTrailingZeros(numberStr);
      if |trimmed| > 0 && trimmed[|trimmed| - 1] == '.' then trimmed + "0" else trimmed
    else
      numberStr + ".0"
  }

  function Zeros(n: nat): string {
    seq(n, _ => '0')
  }

  /** A run of digits and dots with at most one dot, starting with a digit. */
  predicate IsNumberRun(s: string) {
    |s| >= 1 && IsDigit(s[0])
    && (forall k :: 0 <= k < |s| ==> IsDigit(s[k]) || s[k] == '.')
    && multiset(s)['.'] <= 1
  }

  lemma {:induction false} TrimAfterNonZero(a: string, b: string)
    requires |a| > 0 && a[|a| - 1] != '0'
    ensures TrimTrailingZeros(a + b) == a + TrimTrailingZeros(b)
    decreases |b|
  {
    if |b| > 0 && b[|b| - 1] == '0' {
      assert (a + b)[..|a + b| - 1] == a + b[..|b| - 1];
      TrimAfterNonZero(a, b[..|b| - 1]);
    } else {
      assert b == [] ==> a + b == a;
    }
  }

  /** A decimal keeps its integer part and the dot; its fraction keeps every digit except
      trailing zeros, and never drops below one digit. */
  lemma NumberFormatWithDot(intPart: string, frac: string)
    requires |intPart| >= 1 && AllDigits(intPart) && AllDigits(frac)
    ensures var r := FormatNumber(intPart + "." + frac, true);
      |r| > |intPart| + 1 && r[..|intPart| + 1] == intPart + "."
      && var f := r[|intPart| + 1..];
      AllDigits(f) && (f == "0" || f[|f| - 1] != '0')
      && ((frac == "" && f == "0") || (|f| <= |frac| && frac == f + Zeros(|frac| - |f|)))
  {
    var a := intPart + ".";
    TrimAfterNonZero(a, frac);
    var t := TrimTrailingZeros(frac);
    assert t == frac[..|t|];
    assert frac == t + Zeros(|frac| - |t|);
    var r := FormatNumber(a + frac, true);
    assert intPart + "." + frac == a + frac;
    if t == [] {
      assert r == a + "0";
      assert r[|intPart| + 1..] == "0";
      if frac != [] {
        assert frac == Zeros(|frac|);
        assert frac == "0" + Zeros(|frac| - 1);
      }
    } else {
      assert r == a + t;
      assert r[|intPart| + 1..] == t;
    }
  }

  /** A no-dot run formats as the run with a `.0` fraction. */
  lemma NumberFormatWithoutDot(run: string)
    ensures FormatNumber(run, false) == FormatNumber(run + ".", true) == run + ".0"
  {
    var a := run + ".";
    assert TrimTrailingZeros(a) == a;
  }

  lemma NumberRunSplit(run: string) returns (intPart: string, frac: string)
    requires IsNumberRun(run) && '.' in run
    ensures run == intPart + "." + frac
    ensures |intPart| >= 1 && AllDigits(intPart) && AllDigits(frac)
  {
    var k :| 0 <= k < |run| && run[k] == '.';
    intPart, frac := run[..k], run[k + 1..];
    assert run == intPart + "." + frac;
    assert multiset(run) == multiset(intPart) + multiset{'.'} + multiset(frac);
    assert multiset(intPart)['.'] == 0 && multiset(frac)['.'] == 0;
    forall m | 0 <= m < |intPart| ensures IsDigit(intPart[m]) {
      assert intPart[m] == run[m] && intPart[m] in multiset(intPart);
    }
    forall m | 0 <= m < |frac| ensures IsDigit(frac[m]) {
      assert frac[m] == run[k + 1 + m] && frac[m] in multiset(frac);
    }
  }

  /** Digits only: no dot is counted. */
  lemma NoDotInDigits(s: string)
    requires AllDigits(s)
    ensures multiset(s)['.'] == 0
  {
    assert '.' !in s by {
      forall m | 0 <= m < |s| ensures s[m] != '.' {
        assert IsDigit(s[m]);
      }
    }
  }

  /** Digits, one dot, digits: exactly one dot. */
  lemma OneDot(intPart: string, f: string)
    requires AllDigits(intPart) && AllDigits(f)
    ensures multiset(intPart + "." + f)['.'] == 1
  {
    assert multiset(intPart + "." + f) == multiset(intPart) + multiset{'.'} + multiset(f);
    NoDotInDigits(intPart);
    NoDotInDigits(f);
  }

  /** A decimal whose fraction is `0` or ends in a non-zero digit formats as itself. */
  lemma FormatFixesCanonical(a: string, f: string)
    requires |a| > 0 && a[|a| - 1] == '.' && f != [] && AllDigits(f) && (f == "0" || f[|f| - 1] != '0')
    ensures FormatNumber(a + f, true) == a + f
  {
    TrimAfterNonZero(a, f);
    if f == "0" {
      assert TrimTrailingZeros("0") == [];
      assert a + [] == a;
    } else {
      assert TrimTrailingZeros(f) == f;
    }
  }

  /** The canonical form of a run written as `intPart.frac` is canonical again. */
  lemma CanonicalFormIsStable(intPart: string, frac: string)
    requires |intPart| >= 1 && AllDigits(intPart) && AllDigits(frac)
    ensures var r := FormatNumber(intPart + "." + frac, true);
      multiset(r)['.'] == 1 && r[|r| - 1] != '.' && FormatNumber(r, true) == r
  {
    NumberFormatWithDot(intPart, frac);
    var r := FormatNumber(intPart + "." + frac, true);
    var f := r[|intPart| + 1..];
    var a := intPart + ".";
    assert r == a + f;
    assert r[|r| - 1] == f[|f| - 1] && IsDigit(f[|f| - 1]);
    OneDot(intPart, f);
    FormatFixesCanonical(a, f);
  }

  /** The content of every well-formed number has exactly one dot, does not end in a dot,
      and is already canonical (formatting it again changes nothing). */
  lemma NumberContentCanonical(run: string)
    requires IsNumberRun(run)
    ensures var r := FormatNumber(run, '.' in run);
      multiset(r)['.'] == 1 && r[|r| - 1] != '.'
      && ('.' !in run ==> r == run + ".0")
      && FormatNumber(r, true) == r
  {
    if '.' in run {
      var intPart, frac := NumberRunSplit(run);
      CanonicalFormIsStable(intPart, frac);
    } else {
      NumberFormatWithoutDot(run);
      forall m | 0 <= m < |run| ensures IsDigit(run[m]) {
        assert run[m] in run;
      }
      CanonicalFormIsStable(run, "");
      assert run + "." + "" == run + ".";
    }
  }

  // ---------------------------------------------------------------------------
  // One turn of the scanning loop

  /** What one turn emits (zero or one token), the index the cursor is left on (the loop
      then moves one past it), and whether the rest of the line is a comment. */
  datatype Step = Step(emitted: seq<Token>, cursor: nat, stop: bool)

  /** The diagnostic text the scanner stores in an ERROR token. */
  function ErrorMessage(ln: nat, msg: string): string {
    ErrorPrefix(ln) + "] Error: " + msg
  }

  /** The invariant every token a `tokenize` call appends before EOF satisfies. */
  predicate ScannedToken(t: Token, ln: nat) {
    t.line == ln && t.name != "EOF"
    && (t.name == "ERROR" <==> t.error.Some?)
    && (t.name == "NUMBER" ==> IsNumberRun(t.symbol) && t.content == FormatNumber(t.symbol, '.' in t.symbol))
  }

  /** Whether some token of `ts` is an ERROR token (`HasErrorTokenMeans`). */
  predicate HasErrorToken(ts: seq<Token>) {
    ts != [] && (ts[0].name == "ERROR" || HasErrorToken(ts[1..]))
  }

  lemma {:induction false} HasErrorTokenMeans(ts: seq<Token>)
    ensures HasErrorToken(ts) <==> exists t :: t in ts && t.name == "ERROR"
    decreases |ts|
  {
    if ts != [] {
      HasErrorTokenMeans(ts[1..]);
      assert ts == [ts[0]] + ts[1..];
      assert forall t :: t in ts <==> t == ts[0] || t in ts[1..];
    }
  }

  function OperatorStep(line: string, i: nat, ln: nat, cn: nat): Step
    requires i < |line| && OperatorKindsOf(line[i]).Some?
  {
    var kinds := OperatorKindsOf(line[i]).value;
    if i + 1 < |line| && line[i + 1] == '=' then
      Step([Token(kinds.withEqual, line[i..i + 2], "", ln, cn, cn + 2, None)], i + 1, false)
    else
      Step([Token(kinds.single, [line[i]], "", ln, cn, cn + 1, None)], i, false)
  }

  function SlashStep(line: string, i: nat, ln: nat, cn: nat): Step
    requires i < |line|
  {
    if i + 1 < |line| && line[i + 1] == '/' then Step([], i, true)
    else Step([Token("SLASH", "/", "", ln, cn, cn + 1, None)], i, false)
  }

  /** The first index at or after `j` that holds a `"`, or the end of the line. */
  function QuoteEnd(line: string, j: nat): (k: nat)
    requires j <= |line|
    ensures j <= k <= |line|
    decreases |line| - j
  {
    if j == |line| || line[j] == '"' then j else QuoteEnd(line, j + 1)
  }

  /** `QuoteEnd` finds the first quote: `k` is it when no quote lies in `line[j..k]` and a
      quote (or the end of the line) is at `k`. */
  lemma {:induction false} QuoteEndAt(line: string, j: nat, k: nat)
    requires j <= k <= |line| && (k < |line| ==> line[k] == '"')
    requires forall m :: j <= m < k ==> line[m] != '"'
    ensures QuoteEnd(line, j) == k
    decreases k - j
  {
    if j < k {
      QuoteEndAt(line, j + 1, k);
    }
  }

  function StringStep(line: string, i: nat, ln: nat, cn: nat): Step
    requires i < |line|
  {
    var k := QuoteEnd(line, i + 1);
    var body := line[i + 1..k];
    if k == |line| then
      Step([Token("ERROR", "STRING", body, ln, cn, cn + 1 + |body|,
                  Some(ErrorMessage(ln, "Unterminated string.")))], |line|, false)
    else
      Step([Token("STRING", body, body, ln, cn, cn + 2 + |body|, None)], k, false)
  }

  /** Where a number run starting at `j` stops: at the first character that is neither a
      digit nor a dot, or at a dot when one has already been seen. */
  function NumberStop(line: string, j: nat, seen: bool): (k: nat)
    requires j <= |line|
    ensures j <= k <= |line|
    decreases |line| - j
  {
    if j == |line| || !(IsDigit(line[j]) || line[j] == '.') then j
    else if line[j] == '.' && seen then j
    else NumberStop(line, j + 1, seen || line[j] == '.')
  }

  /** The run `NumberStop` delimits is maximal and has at most one dot (counting one already
      seen before `j`). */
  lemma {:induction false} NumberStopShape(line: string, j: nat, seen: bool)
    requires j <= |line|
    ensures var k := NumberStop(line, j, seen);
      (forall m :: j <= m < k ==> IsDigit(line[m]) || line[m] == '.')
      && multiset(line[j..k])['.'] + (if seen then 1 else 0) <= 1
      && (k < |line| ==> !IsDigit(line[k]) && (line[k] == '.' ==> seen || '.' in line[j..k]))
    decreases |line| - j
  {
    var k := NumberStop(line, j, seen);
    if j < |line| && (IsDigit(line[j]) || line[j] == '.') && !(line[j] == '.' && seen) {
      NumberStopShape(line, j + 1, seen || line[j] == '.');
      assert line[j..k] == [line[j]] + line[j + 1..k];
    }
  }

  function NumberStep(line: string, i: nat, ln: nat, cn: nat): Step
    requires i < |line| && IsDigit(line[i])
  {
    var k := NumberStop(line, i, false);
    var run := line[i..k];
    if k < |line| && line[k] == '.' then
      Step([Token("ERROR", "NUMBER", run, ln, cn, cn + |run| + 1,
                  Some(ErrorMessage(ln, "Multiple decimal points in number.")))], k, false)
    else
      Step([Token("NUMBER", run, FormatNumber(run, '.' in run), ln, cn, cn + |run|, None)], k - 1, false)
  }

  /** The end of the maximal identifier run starting at `j`. */
  function IdentifierEnd(line: string, j: nat): (k: nat)
    requires j <= |line|
    ensures j <= k <= |line|
    decreases |line| - j
  {
    if j == |line| || !IsIdentifierChar(line[j]) then j else IdentifierEnd(line, j + 1)
  }

  /** `IdentifierEnd` finds the end of the maximal run of identifier characters. */
  lemma {:induction false} IdentifierEndAt(line: string, j: nat, k: nat)
    requires j <= k <= |line| && (k < |line| ==> !IsIdentifierChar(line[k]))
    requires forall m :: j <= m < k ==> IsIdentifierChar(line[m])
    ensures IdentifierEnd(line, j) == k
    decreases k - j
  {
    if j < k {
      IdentifierEndAt(line, j + 1, k);
    }
  }

  function IdentifierStep(line: string, i: nat, ln: nat, cn: nat): Step
    requires i < |line| && IsIdentifierStart(line[i])
  {
    var k := IdentifierEnd(line, i);
    var word := line[i..k];
    Step([Token(WordKind(word), word, "", ln, cn, cn + |word|, None)], k - 1, false)
  }

  /** The identifier rule for the maximal run `line[i..k]`. */
  lemma IdentifierStepIs(line: string, i: nat, k: nat, ln: nat, cn: nat)
    requires i < |line| && IsIdentifierStart(line[i]) && k == IdentifierEnd(line, i)
    ensures k > i
    ensures IdentifierStep(line, i, ln, cn)
         == Step([Token(WordKind(line[i..k]), line[i..k], "", ln, cn, cn + (k - i), None)], k - 1, false)
  {
    var s := IdentifierStep(line, i, ln, cn);
    var t := Token(WordKind(line[i..k]), line[i..k], "", ln, cn, cn + (k - i), None);
    assert s.cursor == k - 1 && !s.stop;
    assert |s.emitted| == 1 && s.emitted[0] == t;
    assert s.emitted == [t];
  }

  function UnexpectedStep(c: char, i: nat, ln: nat, cn: nat): Step {
    Step([Token("ERROR", [c], "", ln, cn, cn + 1, Some(ErrorMessage(ln, "Unexpected character: " + [c])))],
         i, false)
  }

  /** One turn of the scanning loop at index `i`, dispatching on `line[i]`. */
  function StepAt(line: string, i: nat, ln: nat, cn: nat): (s: Step)
    requires i < |line|
    ensures i <= s.cursor <= |line|
    ensures |s.emitted| <= 1 && (s.stop ==> s.emitted == [])
  {
    var c := line[i];
    if PunctuationKind(c).Some? then
      Step([Token(PunctuationKind(c).value, [c], "", ln, cn, cn + 1, None)], i, false)
    else if OperatorKindsOf(c).Some? then
      OperatorStep(line, i, ln, cn)
    else if c == '/' then
      SlashStep(line, i, ln, cn)
    else if c == '\t' || c == ' ' then
      Step([], i, false)
    else if c == '"' then
      StringStep(line, i, ln, cn)
    else if IsDigit(c) then
      NumberStep(line, i, ln, cn)
    else if IsIdentifierStart(c) then
      IdentifierStep(line, i, ln, cn)
    else
      UnexpectedStep(c, i, ln, cn)
  }

  /** Every token one loop turn emits satisfies the scanned-token invariant. */
  lemma StepAtScanned(line: string, i: nat, ln: nat, cn: nat)
    requires i < |line|
    ensures forall t :: t in StepAt(line, i, ln, cn).emitted ==> ScannedToken(t, ln)
  {
    var c := line[i];
    if PunctuationKind(c).None? && OperatorKindsOf(c).None? && c != '/' && c != '\t' && c != ' ' && c != '"' {
      if IsDigit(c) {
        NumberStopShape(line, i, false);
        assert IsNumberRun(line[i..NumberStop(line, i, false)]);
      } else if IsIdentifierStart(c) {
        var word := line[i..IdentifierEnd(line, i)];
        if word in Keywords {
          KeywordKindsAreReserved(word);
        }
      }
    }
  }

  /** The tokens the scanning loop emits from index `i` on (`cn` counts loop turns). */
  function ScanFrom(line: string, i: nat, ln: nat, cn: nat): seq<Token>
    decreases |line| + 1 - i, 1
  {
    if i >= |line| then [] else ScanTurn(line, i, ln, cn)
  }

  /** One turn at `i < |line|` and, unless it stopped the loop, the turns after it. */
  function ScanTurn(line: string, i: nat, ln: nat, cn: nat): seq<Token>
    requires i < |line|
    decreases |line| + 1 - i, 0
  {
    var s := StepAt(line, i, ln, cn);
    if s.stop then s.emitted else s.emitted + ScanFrom(line, s.cursor + 1, ln, cn + 1)
  }

  /** One turn of the loop, as a statement about `ScanFrom`. */
  lemma ScanFromUnfold(line: string, i: nat, ln: nat, cn: nat)
    requires i < |line|
    ensures var s := StepAt(line, i, ln, cn);
      ScanFrom(line, i, ln, cn)
      == if s.stop then s.emitted else s.emitted + ScanFrom(line, s.cursor + 1, ln, cn + 1)
  {
  }

  /** The step at `i`, restated as what remains of the scan after it. */
  lemma StepScanFrom(line: string, i: nat, ln: nat, cn: nat, added: seq<Token>, last: nat, comment: bool)
    requires i < |line|
    requires added == StepAt(line, i, ln, cn).emitted
    requires last == StepAt(line, i, ln, cn).cursor && comment == StepAt(line, i, ln, cn).stop
    ensures comment ==> ScanFrom(line, i, ln, cn) == added == []
    ensures !comment ==> i <= last <= |line|
    ensures !comment ==> ScanFrom(line, i, ln, cn) == added + ScanFrom(line, last + 1, ln, cn + 1)
  {
    var s := StepAt(line, i, ln, cn);
    ScanFromUnfold(line, i, ln, cn);
    assert ScanFrom(line, i, ln, cn) == if s.stop then s.emitted else s.emitted + ScanFrom(line, s.cursor + 1, ln, cn + 1);
  }

  /** A turn known to emit `[t]` and leave the cursor at `last`: the scan resumes at `next`. */
  lemma ScanFromOneToken(line: string, i: nat, ln: nat, cn: nat, t: Token, last: nat, next: nat)
    requires i < |line| && StepAt(line, i, ln, cn) == Step([t], last, false) && next == last + 1
    ensures ScanFrom(line, i, ln, cn) == [t] + ScanFrom(line, next, ln, cn + 1)
  {
    var s := StepAt(line, i, ln, cn);
    assert s.emitted == [t] && s.cursor == last && !s.stop;
    ScanFromUnfold(line, i, ln, cn);
  }

  /** A turn known to emit nothing and leave the cursor at `last`: the scan resumes at `next`. */
  lemma ScanFromNoToken(line: string, i: nat, ln: nat, cn: nat, last: nat, next: nat)
    requires i < |line| && StepAt(line, i, ln, cn) == Step([], last, false) && next == last + 1
    ensures ScanFrom(line, i, ln, cn) == ScanFrom(line, next, ln, cn + 1)
  {
    var s := StepAt(line, i, ln, cn);
    assert s.emitted == [] && s.cursor == last && !s.stop;
    ScanFromUnfold(line, i, ln, cn);
    var rest := ScanFrom(line, next, ln, cn + 1);
    assert [] + rest == rest;
  }

  lemma ConcatAssoc<T>(a: seq<T>, b: seq<T>, c: seq<T>)
    ensures (a + b) + c == a + (b + c)
  {
  }

  function EofToken(ln: nat): Token {
    Token("EOF", "", "null", ln, 0, 0, None)
  }

  /** Everything one `tokenize` call appends for `line` while the line counter is `ln`:
      the line's tokens, then its EOF token. */
  function Scan(line: string, ln: nat): (r: seq<Token>)
    ensures |r| >= 1 && r[|r| - 1] == EofToken(ln)
  {
    ScanFrom(line, 0, ln, 0) + [EofToken(ln)]
  }

  // ---------------------------------------------------------------------------
  // What a `tokenize` call appends

  lemma {:induction false} HasErrorTokenConcat(a: seq<Token>, b: seq<Token>)
    ensures HasErrorToken(a + b) == (HasErrorToken(a) || HasErrorToken(b))
    decreases |a|
  {
    if a == [] {
      assert a + b == b;
    } else {
      HasErrorTokenConcat(a[1..], b);
      assert (a + b)[1..] == a[1..] + b;
    }
  }

  /** A whole line's tokens, then EOF; EOF is never an ERROR. */
  lemma ScanEndsWithEof(line: string, ln: nat, emitted: seq<Token>)
    requires emitted == ScanFrom(line, 0, ln, 0)
    ensures Scan(line, ln) == emitted + [EofToken(ln)]
    ensures HasErrorToken(Scan(line, ln)) <==> HasErrorToken(emitted)
  {
    HasErrorTokenConcat(emitted, [EofToken(ln)]);
    HasErrorTokenSingle(EofToken(ln));
  }

  /** The three lexical errors: an unterminated string, a second dot in a number, and a
      character no rule handles. */
  predicate StepFails(line: string, i: nat)
    requires i < |line|
  {
    var c := line[i];
    (c == '"' && QuoteEnd(line, i + 1) == |line|)
    || (IsDigit(c) && var k := NumberStop(line, i, false); k < |line| && line[k] == '.')
    || !IsHandled(c)
  }

  lemma HasErrorTokenSingle(t: Token)
    ensures HasErrorToken([t]) <==> t.name == "ERROR"
  {
    assert [t][1..] == [];
  }

  /** A loop turn emits an ERROR token exactly when it meets one of the three lexical errors. */
  lemma StepAtError(line: string, i: nat, ln: nat, cn: nat)
    requires i < |line|
    ensures HasErrorToken(StepAt(line, i, ln, cn).emitted) <==> StepFails(line, i)
  {
    var c := line[i];
    var s := StepAt(line, i, ln, cn);
    if PunctuationKind(c).Some? || OperatorKindsOf(c).Some? || c == '/' || c == '\t' || c == ' ' {
      assert IsHandled(c) && !IsDigit(c) && c != '"';
      if |s.emitted| == 1 {
        HasErrorTokenSingle(s.emitted[0]);
        assert s.emitted == [s.emitted[0]];
      }
    } else if c == '"' {
      var st := StringStep(line, i, ln, cn);
      assert s == st;
      HasErrorTokenSingle(st.emitted[0]);
    } else if IsDigit(c) {
      var st := NumberStep(line, i, ln, cn);
      assert s == st;
      HasErrorTokenSingle(st.emitted[0]);
    } else if IsIdentifierStart(c) {
      var st := IdentifierStep(line, i, ln, cn);
      assert s == st;
      var word := line[i..IdentifierEnd(line, i)];
      if word in Keywords {
        KeywordKindsAreReserved(word);
      }
      HasErrorTokenSingle(st.emitted[0]);
    } else {
      HasErrorTokenSingle(s.emitted[0]);
    }
  }

  /** One more character of a number run. */
  lemma NumberStopNext(line: string, j: nat, seen: bool)
    requires j < |line| && (IsDigit(line[j]) || line[j] == '.') && !(line[j] == '.' && seen)
    ensures NumberStop(line, j, seen) == NumberStop(line, j + 1, seen || line[j] == '.')
  {
  }

  /** The number rule when the run `line[i..k]` ends without a second dot. */
  lemma NumberStepOk(line: string, i: nat, k: nat, ln: nat, cn: nat)
    requires i < k <= |line| && IsDigit(line[i]) && NumberStop(line, i, false) == k
    requires k == |line| || line[k] != '.'
    ensures NumberStep(line, i, ln, cn)
         == Step([Token("NUMBER", line[i..k], FormatNumber(line[i..k], '.' in line[i..k]), ln, cn, cn + (k - i), None)],
                 k - 1, false)
  {
    var s := NumberStep(line, i, ln, cn);
    var t := Token("NUMBER", line[i..k], FormatNumber(line[i..k], '.' in line[i..k]), ln, cn, cn + (k - i), None);
    assert s.cursor == k - 1 && !s.stop;
    assert |s.emitted| == 1 && s.emitted[0] == t;
    assert s.emitted == [t];
  }

  /** The number rule when the run `line[i..k]` is followed by a second dot. */
  lemma NumberStepSecondDot(line: string, i: nat, k: nat, ln: nat, cn: nat)
    requires i < k < |line| && IsDigit(line[i]) && NumberStop(line, i, false) == k && line[k] == '.'
    ensures NumberStep(line, i, ln, cn)
         == Step([Token("ERROR", "NUMBER", line[i..k], ln, cn, cn + (k - i) + 1,
                        Some(ErrorMessage(ln, "Multiple decimal points in number.")))], k, false)
  {
    var s := NumberStep(line, i, ln, cn);
    var t := Token("ERROR", "NUMBER", line[i..k], ln, cn, cn + (k - i) + 1,
                   Some(ErrorMessage(ln, "Multiple decimal points in number.")));
    assert |s.emitted| == 1 && s.emitted[0] == t;
    assert s.emitted == [t];
  }
}
