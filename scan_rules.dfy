/** The scanning rules, stated as facts about what `Scan`/`ScanFrom` emit. */
module ScanRules {
  import opened Tokens
  import opened LexerSpec

  lemma {:induction false} ScanFromTokensScanned(line: string, i: nat, ln: nat, cn: nat)
    ensures forall t :: t in ScanFrom(line, i, ln, cn) ==> ScannedToken(t, ln)
    decreases |line| + 1 - i
  {
    if i < |line| {
      var s := StepAt(line, i, ln, cn);
      StepAtScanned(line, i, ln, cn);
      if !s.stop {
        ScanFromTokensScanned(line, s.cursor + 1, ln, cn + 1);
      }
    }
  }

  /** A line never yields more tokens (before EOF) than it has characters. */
  lemma {:induction false} ScanFromLength(line: string, i: nat, ln: nat, cn: nat)
    requires i <= |line|
    ensures |ScanFrom(line, i, ln, cn)| <= |line| - i
    decreases |line| - i
  {
    if i < |line| {
      var s := StepAt(line, i, ln, cn);
      if !s.stop && s.cursor + 1 <= |line| {
        ScanFromLength(line, s.cursor + 1, ln, cn + 1);
      }
    }
  }

  /** Every call appends exactly one EOF, as its last token, even after a comment or an
      unterminated string; every appended token carries the current line number; and a
      token is an ERROR exactly when it carries a diagnostic. */
  lemma ScanShape(line: string, ln: nat)
    ensures var ts := Scan(line, ln);
      1 <= |ts| <= |line| + 1
      && ts[|ts| - 1] == Token("EOF", "", "null", ln, 0, 0, None)
      && (forall k :: 0 <= k < |ts| - 1 ==> ts[k].name != "EOF")
      && (forall t :: t in ts ==> t.line == ln && (t.name == "ERROR" <==> t.error.Some?))
  {
    ScanFromTokensScanned(line, 0, ln, 0);
    ScanFromLength(line, 0, ln, 0);
    var ts := Scan(line, ln);
    forall k | 0 <= k < |ts| - 1 ensures ts[k].name != "EOF" {
      assert ts[k] in ScanFrom(line, 0, ln, 0);
    }
  }

  /** Every NUMBER token the scanner appends spells a digit run with at most one dot, and its
      content has exactly one dot, does not end in a dot, and is the run canonicalised. */
  lemma ScannedNumbersCanonical(line: string, ln: nat, t: Token)
    requires t in Scan(line, ln) && t.name == "NUMBER"
    ensures IsNumberRun(t.symbol) && t.content == FormatNumber(t.symbol, '.' in t.symbol)
    ensures multiset(t.content)['.'] == 1 && t.content[|t.content| - 1] != '.'
  {
    ScanFromTokensScanned(line, 0, ln, 0);
    NumberContentCanonical(t.symbol);
  }

  // What one turn of the loop does at `i`, rule by rule, as the value of `StepAt`.

  lemma PunctuationStepAt(line: string, i: nat, ln: nat, cn: nat)
    requires i < |line| && PunctuationKind(line[i]).Some?
    ensures StepAt(line, i, ln, cn) == Step([Token(PunctuationKind(line[i]).value, [line[i]], "", ln, cn, cn + 1, None)], i, false)
  {
  }

  lemma OperatorWithEqualStepAt(line: string, i: nat, ln: nat, cn: nat)
    requires i + 1 < |line| && OperatorKindsOf(line[i]).Some? && line[i + 1] == '='
    ensures StepAt(line, i, ln, cn)
         == Step([Token(OperatorKindsOf(line[i]).value.withEqual, [line[i], '='], "", ln, cn, cn + 2, None)], i + 1, false)
  {
    var s := StepAt(line, i, ln, cn);
    var t := Token(OperatorKindsOf(line[i]).value.withEqual, [line[i], '='], "", ln, cn, cn + 2, None);
    assert line[i..i + 2] == [line[i], '='];
    assert s == OperatorStep(line, i, ln, cn);
    assert s.cursor == i + 1 && !s.stop;
    assert |s.emitted| == 1 && s.emitted[0] == t;
    assert s.emitted == [t];
  }

  lemma OperatorAloneStepAt(line: string, i: nat, ln: nat, cn: nat)
    requires i < |line| && OperatorKindsOf(line[i]).Some? && (i + 1 == |line| || line[i + 1] != '=')
    ensures StepAt(line, i, ln, cn)
         == Step([Token(OperatorKindsOf(line[i]).value.single, [line[i]], "", ln, cn, cn + 1, None)], i, false)
  {
    assert StepAt(line, i, ln, cn) == OperatorStep(line, i, ln, cn);
  }

  lemma SlashStepAt(line: string, i: nat, ln: nat, cn: nat)
    requires i < |line| && line[i] == '/'
    ensures i + 1 < |line| && line[i + 1] == '/' ==> StepAt(line, i, ln, cn) == Step([], i, true)
    ensures !(i + 1 < |line| && line[i + 1] == '/')
        ==> StepAt(line, i, ln, cn) == Step([Token("SLASH", "/", "", ln, cn, cn + 1, None)], i, false)
  {
    assert StepAt(line, i, ln, cn) == SlashStep(line, i, ln, cn);
  }

  lemma WhitespaceStepAt(line: string, i: nat, ln: nat, cn: nat)
    requires i < |line| && (line[i] == ' ' || line[i] == '\t')
    ensures StepAt(line, i, ln, cn) == Step([], i, false)
  {
  }

  lemma ClosedStringStepAt(line: string, i: nat, j: nat, ln: nat, cn: nat)
    requires i < j < |line| && line[i] == '"' && line[j] == '"'
    requires forall m :: i < m < j ==> line[m] != '"'
    ensures StepAt(line, i, ln, cn)
         == Step([Token("STRING", line[i + 1..j], line[i + 1..j], ln, cn, cn + 1 + (j - i), None)], j, false)
  {
    QuoteEndAt(line, i + 1, j);
    var s := StepAt(line, i, ln, cn);
    var t := Token("STRING", line[i + 1..j], line[i + 1..j], ln, cn, cn + 1 + (j - i), None);
    assert s == StringStep(line, i, ln, cn);
    assert s.cursor == j && !s.stop;
    assert |s.emitted| == 1 && s.emitted[0] == t;
    assert s.emitted == [t];
  }

  lemma UnterminatedStringStepAt(line: string, i: nat, ln: nat, cn: nat)
    requires i < |line| && line[i] == '"'
    requires forall m :: i < m < |line| ==> line[m] != '"'
    ensures StepAt(line, i, ln, cn)
         == Step([Token("ERROR", "STRING", line[i + 1..], ln, cn, cn + |line| - i,
                        Some(ErrorMessage(ln, "Unterminated string.")))], |line|, false)
  {
    QuoteEndAt(line, i + 1, |line|);
    var s := StepAt(line, i, ln, cn);
    var t := Token("ERROR", "STRING", line[i + 1..], ln, cn, cn + |line| - i,
                   Some(ErrorMessage(ln, "Unterminated string.")));
    assert s == StringStep(line, i, ln, cn);
    assert s.cursor == |line| && !s.stop;
    assert |s.emitted| == 1 && s.emitted[0] == t;
    assert s.emitted == [t];
  }

  lemma UnexpectedStepAt(line: string, i: nat, ln: nat, cn: nat)
    requires i < |line| && !IsHandled(line[i])
    ensures StepAt(line, i, ln, cn)
         == Step([Token("ERROR", [line[i]], "", ln, cn, cn + 1,
                        Some(ErrorMessage(ln, "Unexpected character: " + [line[i]])))], i, false)
  {
    assert StepAt(line, i, ln, cn) == UnexpectedStep(line[i], i, ln, cn);
  }

  // One lemma per scanning rule: what the loop emits at index `i` and where it resumes.

  lemma ScanPunctuation(line: string, i: nat, ln: nat, cn: nat)
    requires i < |line| && PunctuationKind(line[i]).Some?
    ensures ScanFrom(line, i, ln, cn)
         == [Token(PunctuationKind(line[i]).value, [line[i]], "", ln, cn, cn + 1, None)] + ScanFrom(line, i + 1, ln, cn + 1)
  {
    PunctuationStepAt(line, i, ln, cn);
    ScanFromOneToken(line, i, ln, cn, Token(PunctuationKind(line[i]).value, [line[i]], "", ln, cn, cn + 1, None), i, i + 1);
  }

  /** `= ! < >` followed by `=`: one two-character token, both characters consumed. */
  lemma ScanOperatorWithEqual(line: string, i: nat, ln: nat, cn: nat)
    requires i + 1 < |line| && OperatorKindsOf(line[i]).Some? && line[i + 1] == '='
    ensures ScanFrom(line, i, ln, cn)
         == [Token(OperatorKindsOf(line[i]).value.withEqual, [line[i], '='], "", ln, cn, cn + 2, None)]
            + ScanFrom(line, i + 2, ln, cn + 1)
  {
    OperatorWithEqualStepAt(line, i, ln, cn);
    ScanFromOneToken(line, i, ln, cn,
      Token(OperatorKindsOf(line[i]).value.withEqual, [line[i], '='], "", ln, cn, cn + 2, None), i + 1, i + 2);
  }

  /** `= ! < >` not followed by `=`: the one-character kind. */
  lemma ScanOperatorAlone(line: string, i: nat, ln: nat, cn: nat)
    requires i < |line| && OperatorKindsOf(line[i]).Some? && (i + 1 == |line| || line[i + 1] != '=')
    ensures ScanFrom(line, i, ln, cn)
         == [Token(OperatorKindsOf(line[i]).value.single, [line[i]], "", ln, cn, cn + 1, None)]
            + ScanFrom(line, i + 1, ln, cn + 1)
  {
    OperatorAloneStepAt(line, i, ln, cn);
    ScanFromOneToken(line, i, ln, cn,
      Token(OperatorKindsOf(line[i]).value.single, [line[i]], "", ln, cn, cn + 1, None), i, i + 1);
  }

  /** `//` ends the scan of the line: nothing more is emitted before EOF. */
  lemma ScanComment(line: string, i: nat, ln: nat, cn: nat)
    requires i + 1 < |line| && line[i] == '/' && line[i + 1] == '/'
    ensures ScanFrom(line, i, ln, cn) == []
  {
    SlashStepAt(line, i, ln, cn);
    ScanFromUnfold(line, i, ln, cn);
  }

  lemma ScanSlash(line: string, i: nat, ln: nat, cn: nat)
    requires i < |line| && line[i] == '/' && (i + 1 == |line| || line[i + 1] != '/')
    ensures ScanFrom(line, i, ln, cn)
         == [Token("SLASH", "/", "", ln, cn, cn + 1, None)] + ScanFrom(line, i + 1, ln, cn + 1)
  {
    SlashStepAt(line, i, ln, cn);
    ScanFromOneToken(line, i, ln, cn, Token("SLASH", "/", "", ln, cn, cn + 1, None), i, i + 1);
  }

  lemma ScanWhitespace(line: string, i: nat, ln: nat, cn: nat)
    requires i < |line| && (line[i] == ' ' || line[i] == '\t')
    ensures ScanFrom(line, i, ln, cn) == ScanFrom(line, i + 1, ln, cn + 1)
  {
    WhitespaceStepAt(line, i, ln, cn);
    ScanFromNoToken(line, i, ln, cn, i, i + 1);
  }

  /** A string closed at `j`: STRING with the characters strictly between the quotes as both
      symbol and content; scanning resumes after the closing quote. */
  lemma ScanClosedString(line: string, i: nat, j: nat, ln: nat, cn: nat)
    requires i < j < |line| && line[i] == '"' && line[j] == '"'
    requires forall m :: i < m < j ==> line[m] != '"'
    ensures ScanFrom(line, i, ln, cn)
         == [Token("STRING", line[i + 1..j], line[i + 1..j], ln, cn, cn + 1 + (j - i), None)]
            + ScanFrom(line, j + 1, ln, cn + 1)
  {
    ClosedStringStepAt(line, i, j, ln, cn);
    ScanFromOneToken(line, i, ln, cn,
      Token("STRING", line[i + 1..j], line[i + 1..j], ln, cn, cn + 1 + (j - i), None), j, j + 1);
  }

  /** A string with no closing quote: one ERROR token holding the rest of the line, and
      nothing further is scanned. */
  lemma ScanUnterminatedString(line: string, i: nat, ln: nat, cn: nat)
    requires i < |line| && line[i] == '"'
    requires forall m :: i < m < |line| ==> line[m] != '"'
    ensures ScanFrom(line, i, ln, cn)
         == [Token("ERROR", "STRING", line[i + 1..], ln, cn, cn + |line| - i,
                   Some(ErrorMessage(ln, "Unterminated string.")))]
  {
    UnterminatedStringStepAt(line, i, ln, cn);
    var t := Token("ERROR", "STRING", line[i + 1..], ln, cn, cn + |line| - i,
                   Some(ErrorMessage(ln, "Unterminated string.")));
    ScanFromOneToken(line, i, ln, cn, t, |line|, |line| + 1);
    assert ScanFrom(line, |line| + 1, ln, cn + 1) == [];
    assert [t] + [] == [t];
  }

  /** A maximal number run `line[i..k]` with at most one dot: NUMBER with the run as symbol
      and its canonical form as content; scanning resumes at `k`. */
  lemma ScanNumber(line: string, i: nat, k: nat, ln: nat, cn: nat)
    requires i < k <= |line| && IsNumberRun(line[i..k])
    requires k == |line| || (!IsDigit(line[k]) && line[k] != '.')
    ensures ScanFrom(line, i, ln, cn)
         == [Token("NUMBER", line[i..k], FormatNumber(line[i..k], '.' in line[i..k]), ln, cn, cn + (k - i), None)]
            + ScanFrom(line, k, ln, cn + 1)
  {
    NumberStopAt(line, i, k);
    NumberStepOk(line, i, k, ln, cn);
    assert StepAt(line, i, ln, cn) == NumberStep(line, i, ln, cn);
    ScanFromOneToken(line, i, ln, cn, Token("NUMBER", line[i..k], FormatNumber(line[i..k], '.' in line[i..k]), ln, cn, cn + (k - i), None), k - 1, k);
  }

  /** A second dot at `k` after the run `line[i..k]`: ERROR with the run read so far as
      content; the dot itself is skipped and scanning resumes after it. */
  lemma ScanNumberSecondDot(line: string, i: nat, k: nat, ln: nat, cn: nat)
    requires i < k < |line| && IsNumberRun(line[i..k]) && '.' in line[i..k] && line[k] == '.'
    ensures ScanFrom(line, i, ln, cn)
         == [Token("ERROR", "NUMBER", line[i..k], ln, cn, cn + (k - i) + 1,
                   Some(ErrorMessage(ln, "Multiple decimal points in number.")))]
            + ScanFrom(line, k + 1, ln, cn + 1)
  {
    NumberStopAt(line, i, k);
    NumberStepSecondDot(line, i, k, ln, cn);
    assert StepAt(line, i, ln, cn) == NumberStep(line, i, ln, cn);
    ScanFromOneToken(line, i, ln, cn, Token("ERROR", "NUMBER", line[i..k], ln, cn, cn + (k - i) + 1,
                                            Some(ErrorMessage(ln, "Multiple decimal points in number."))), k, k + 1);
  }

  /** Two dots at different places are counted twice. */
  lemma TwoDots(s: string, a: nat, b: nat)
    requires a < b < |s| && s[a] == '.' && s[b] == '.'
    ensures multiset(s)['.'] >= 2
  {
    assert s == s[..b] + [s[b]] + s[b + 1..];
    assert s[..b][a] == '.';
    assert multiset(s) == multiset(s[..b]) + multiset{'.'} + multiset(s[b + 1..]);
  }

  /** `NumberStop` finds the run described by its shape. */
  lemma NumberStopAt(line: string, i: nat, k: nat)
    requires i < k <= |line| && IsNumberRun(line[i..k])
    requires k == |line| || (!IsDigit(line[k]) && (line[k] == '.' ==> '.' in line[i..k]))
    ensures NumberStop(line, i, false) == k
  {
    var k' := NumberStop(line, i, false);
    NumberStopShape(line, i, false);
    if k' < k {
      assert line[k'] == line[i..k][k' - i];
      var m :| 0 <= m < k' - i && line[i..k'][m] == '.';
      TwoDots(line[i..k], m, k' - i);
    } else if k' > k {
      var m :| 0 <= m < k - i && line[i..k][m] == '.';
      assert line[i..k'][m] == '.' && line[i..k'][k - i] == '.';
      TwoDots(line[i..k'], m, k - i);
    }
  }

  /** A maximal identifier run `line[i..k]`: its keyword kind (the word upper-cased) when it
      is one of the reserved words, IDENTIFIER otherwise; symbol the word, content empty. */
  lemma ScanIdentifier(line: string, i: nat, k: nat, ln: nat, cn: nat)
    requires i < k <= |line| && IsIdentifierStart(line[i])
    requires forall m :: i <= m < k ==> IsIdentifierChar(line[m])
    requires k == |line| || !IsIdentifierChar(line[k])
    ensures ScanFrom(line, i, ln, cn)
         == [Token(if line[i..k] in Keywords then Upper(line[i..k]) else "IDENTIFIER",
                   line[i..k], "", ln, cn, cn + (k - i), None)]
            + ScanFrom(line, k, ln, cn + 1)
  {
    IdentifierEndAt(line, i, k);
    IdentifierStepIs(line, i, k, ln, cn);
    assert StepAt(line, i, ln, cn) == IdentifierStep(line, i, ln, cn);
    ScanFromOneToken(line, i, ln, cn, Token(WordKind(line[i..k]), line[i..k], "", ln, cn, cn + (k - i), None), k - 1, k);
  }

  /** Any other character: ERROR with that character as symbol, and scanning goes on with
      the next character. */
  lemma ScanUnexpected(line: string, i: nat, ln: nat, cn: nat)
    requires i < |line| && !IsHandled(line[i])
    ensures ScanFrom(line, i, ln, cn)
         == [Token("ERROR", [line[i]], "", ln, cn, cn + 1,
                   Some(ErrorMessage(ln, "Unexpected character: " + [line[i]])))]
            + ScanFrom(line, i + 1, ln, cn + 1)
  {
    UnexpectedStepAt(line, i, ln, cn);
    ScanFromOneToken(line, i, ln, cn, Token("ERROR", [line[i]], "", ln, cn, cn + 1,
                                            Some(ErrorMessage(ln, "Unexpected character: " + [line[i]]))), i, i + 1);
  }

  /** The line `"a"x` before EOF: STRING on turn 0, IDENTIFIER `x` on turn 1. */
  lemma ScanSpanTokens()
    ensures ScanFrom("\"a\"x", 0, 1, 0)
         == [Token("STRING", "a", "a", 1, 0, 3, None), Token("IDENTIFIER", "x", "", 1, 1, 2, None)]
  {
    var line := "\"a\"x";
    assert line[1..2] == "a";
    ClosedStringStepAt(line, 0, 2, 1, 0);
    ScanFromOneToken(line, 0, 1, 0, Token("STRING", "a", "a", 1, 0, 3, None), 2, 3);
    ScanSpanTail();
  }

  /** After the string of `"a"x`: IDENTIFIER `x` on turn 1, then the line is done. */
  lemma ScanSpanTail()
    ensures ScanFrom("\"a\"x", 3, 1, 1) == [Token("IDENTIFIER", "x", "", 1, 1, 2, None)]
  {
    var line := "\"a\"x";
    assert line[3..4] == "x" && "x" !in Keywords;
    ScanIdentifier(line, 3, 4, 1, 1);
    assert ScanFrom(line, 4, 1, 2) == [];
  }

  /** A span starts at the number of loop turns before the token and ends after the
      characters it covers: in `"a"x` the string takes turn 0 and gets 0-3, so `x`, at
      index 3 of the line, gets 1-2; EOF gets 0-0. */
  lemma ScanSpanCountsTurns()
    ensures Scan("\"a\"x", 1)
         == [Token("STRING", "a", "a", 1, 0, 3, None), Token("IDENTIFIER", "x", "", 1, 1, 2, None), EofToken(1)]
  {
    ScanSpanTokens();
  }

  /** A dot after a digit run is taken into the run even with no digit after it:
      `200.` is one NUMBER spelled `200.` whose value is `200.0`, then EOF. */
  lemma ScanTrailingDot()
    ensures Scan("200.", 1) == [Token("NUMBER", "200.", "200.0", 1, 0, 4, None), EofToken(1)]
  {
    var line := "200.";
    assert line[0..4] == line;
    assert multiset(line)['.'] == 1;
    assert '.' in line;
    assert TrimTrailingZeros(line) == line;
    assert FormatNumber(line, true) == "200.0";
    ScanNumber(line, 0, 4, 1, 0);
    assert ScanFrom(line, 4, 1, 1) == [];
  }
}
