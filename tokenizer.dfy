/** The scanner object: a growing token list, a sticky error flag and the current line
    number. `Tokenize` walks one line with a cursor and appends what `LexerSpec.Scan`
    says, then EOF; the `Handle…` methods are the per-rule steps of that loop. */
module Lexer {
  import opened Tokens
  import opened LexerSpec

  class Tokenizer {
    var foundError: bool
    var lineNumber: nat
    var tokens: seq<Token>
    /** The reserved words. */
    const identifiers: set<string> := Keywords

    constructor ()
      ensures !foundError && lineNumber == 1 && tokens == []
    {
      foundError := false;
      lineNumber := 1;
      tokens := [];
    }

    /** Scans one line: the tokens already present are kept, exactly `Scan(line, lineNumber)`
        is appended (so EOF last), the line number is untouched, and the flag becomes true
        exactly when it was true or an ERROR token was appended. */
    method Tokenize(line: string)
      modifies this`tokens, this`foundError
      ensures tokens == old(tokens) + Scan(line, lineNumber)
      ensures foundError == (old(foundError) || HasErrorToken(Scan(line, lineNumber)))
    {
      ghost var emitted := ScanLine(line);
      ScanEndsWithEof(line, lineNumber, emitted);
      ConcatAssoc(old(tokens), emitted, [EofToken(lineNumber)]);
      AddToken("EOF", "", "null", 0, 0);
    }

    /** The `while` loop of `tokenize`: appends the line's tokens before EOF, stopping at a
        comment, and raises the flag exactly on an ERROR token. */
    method ScanLine(line: string) returns (ghost emitted: seq<Token>)
      modifies this`tokens, this`foundError
      ensures emitted == ScanFrom(line, 0, lineNumber, 0)
      ensures tokens == old(tokens) + emitted
      ensures foundError == (old(foundError) || HasErrorToken(emitted))
    {
      ghost var ln := lineNumber;
      ghost var tokens0, flag0 := tokens, foundError;
      var i: nat := 0;
      var charNumber: nat := 0;
      emitted := [];
      while i < |line|
        invariant i <= |line| + 1
        invariant tokens == tokens0 + emitted
        invariant emitted + ScanFrom(line, i, ln, charNumber) == ScanFrom(line, 0, ln, 0)
        invariant foundError == (flag0 || HasErrorToken(emitted))
        decreases |line| + 1 - i
      {
        var start := charNumber;
        ghost var tokensBefore, flagBefore := tokens, foundError;
        var last, comment, added := ScanCharacter(line, i, start);
        LoopTurn(tokens0, emitted, added, tokensBefore, tokens, flag0, flagBefore, foundError);
        if comment {
          assert emitted + [] == emitted;
          break;
        }
        ghost var rest := ScanFrom(line, last + 1, ln, start + 1);
        ConcatAssoc(emitted, added, rest);
        emitted := emitted + added;
        i := last + 1;
        charNumber := start + 1;
      }
      assert emitted == ScanFrom(line, 0, ln, 0);
    }

    /** The body of the scanning loop: dispatches on `line[i]` and runs the rule for it.
        Returns the index the rule left the cursor on, and whether a `//` comment begins. */
    method ScanCharacter(line: string, i: nat, start: nat) returns (last: nat, comment: bool, ghost added: seq<Token>)
      requires i < |line|
      modifies this`tokens, this`foundError
      ensures tokens == old(tokens) + added
      ensures foundError == (old(foundError) || HasErrorToken(added))
      ensures comment ==> ScanFrom(line, i, lineNumber, start) == added == []
      ensures !comment ==> i <= last <= |line|
      ensures !comment ==> ScanFrom(line, i, lineNumber, start) == added + ScanFrom(line, last + 1, lineNumber, start + 1)
    {
      ghost var ln := lineNumber;
      ghost var step := StepAt(line, i, ln, start);
      var c := line[i];
      last, comment := i, false;
      if PunctuationKind(c).Some? {
        var token := Token(PunctuationKind(c).value, [c], "", ln, start, start + 1, None);
        assert step.emitted == [token];
        HasErrorTokenSingle(token);
        AddToken(PunctuationKind(c).value, [c], "", start, start + 1);
      } else if OperatorKindsOf(c).Some? {
        assert step == OperatorStep(line, i, ln, start);
        last := HandleOperator(line, i, start);
      } else if c == '/' {
        assert step == SlashStep(line, i, ln, start);
        comment := HandleSlash(line, i, start);
      } else if c == '\t' || c == ' ' {
        // whitespace is skipped
        assert step.emitted == [];
        assert !HasErrorToken([]);
      } else if c == '"' {
        assert step == StringStep(line, i, ln, start);
        last := HandleString(line, i, start);
      } else if IsDigit(c) {
        assert step == NumberStep(line, i, ln, start);
        last := HandleNumber(line, i, start);
      } else if IsIdentifierStart(c) {
        assert step == IdentifierStep(line, i, ln, start);
        last := HandleIdentifier(line, i, start);
      } else {
        assert step == UnexpectedStep(c, i, ln, start);
        HasErrorTokenSingle(step.emitted[0]);
        HandleUnexpected(c, start);
      }
      added := step.emitted;
      StepScanFrom(line, i, ln, start, added, last, comment);
    }

    /** Appends an error-free token on the current line. */
    method AddToken(name: string, symbol: string, content: string, start: nat, end: nat)
      modifies this`tokens
      ensures tokens == old(tokens) + [Token(name, symbol, content, lineNumber, start, end, None)]
    {
      var token := Token(name, symbol, content, lineNumber, start, end, None);
      tokens := tokens + [token];
    }

    /** `= ! < >`, with one character of lookahead for `=`. */
    method HandleOperator(chars: string, i: nat, start: nat) returns (last: nat)
      requires i < |chars| && OperatorKindsOf(chars[i]).Some?
      modifies this`tokens
      ensures var s := OperatorStep(chars, i, lineNumber, start);
        tokens == old(tokens) + s.emitted && last == s.cursor && !HasErrorToken(s.emitted)
    {
      var kinds := OperatorKindsOf(chars[i]).value;
      HasErrorTokenSingle(OperatorStep(chars, i, lineNumber, start).emitted[0]);
      if i + 1 < |chars| && chars[i + 1] == '=' {
        assert chars[i..i + 2] == [chars[i], '='];
        AddToken(kinds.withEqual, [chars[i], '='], "", start, start + 2);
        last := i + 1;
      } else {
        AddToken(kinds.single, [chars[i]], "", start, start + 1);
        last := i;
      }
    }

    /** `/`: reports a `//` comment (emitting nothing), or emits SLASH. */
    method HandleSlash(chars: string, i: nat, start: nat) returns (comment: bool)
      requires i < |chars|
      modifies this`tokens
      ensures var s := SlashStep(chars, i, lineNumber, start);
        tokens == old(tokens) + s.emitted && comment == s.stop && !HasErrorToken(s.emitted)
    {
      assert !HasErrorToken([]);
      HasErrorTokenSingle(Token("SLASH", "/", "", lineNumber, start, start + 1, None));
      if i + 1 < |chars| && chars[i + 1] == '/' {
        return true;
      }
      AddToken("SLASH", "/", "", start, start + 1);
      comment := false;
    }

    /** A string literal opened at `i`: collects characters up to the closing quote. */
    method HandleString(chars: string, i: nat, start: nat) returns (last: nat)
      requires i < |chars|
      modifies this`tokens, this`foundError
      ensures var s := StringStep(chars, i, lineNumber, start);
        tokens == old(tokens) + s.emitted && last == s.cursor
        && foundError == (old(foundError) || HasErrorToken(s.emitted))
    {
      var tmp := "";
      var found := false;
      var j := i + 1;
      var endChar := start + 1;
      while j < |chars|
        invariant i + 1 <= j <= |chars|
        invariant tmp == chars[i + 1..j] && endChar == start + 1 + |tmp|
        invariant QuoteEnd(chars, j) == QuoteEnd(chars, i + 1)
        invariant !found
        decreases |chars| - j
      {
        if chars[j] == '"' {
          found := true;
          endChar := endChar + 1;
          break;
        }
        tmp := tmp + [chars[j]];
        j := j + 1;
        endChar := endChar + 1;
      }
      if !found {
        var token := Token("ERROR", "STRING", tmp, lineNumber, start, endChar,
                           Some(ErrorMessage(lineNumber, "Unterminated string.")));
        HasErrorTokenSingle(token);
        tokens := tokens + [token];
        foundError := true;
      } else {
        HasErrorTokenSingle(Token("STRING", tmp, tmp, lineNumber, start, endChar, None));
        AddToken("STRING", tmp, tmp, start, endChar);
      }
      last := j;
    }

    /** A number run starting at the digit `chars[i]`; a second dot is an error. */
    method HandleNumber(chars: string, i: nat, start: nat) returns (last: nat)
      requires i < |chars| && IsDigit(chars[i])
      modifies this`tokens, this`foundError
      ensures var s := NumberStep(chars, i, lineNumber, start);
        tokens == old(tokens) + s.emitted && last == s.cursor
        && foundError == (old(foundError) || HasErrorToken(s.emitted))
    {
      var numberStr := "";
      var decimalFound := false;
      var endChar := start;
      var j := i;
      while j < |chars| && (IsDigit(chars[j]) || chars[j] == '.')
        invariant i <= j <= |chars|
        invariant numberStr == chars[i..j] && endChar == start + |numberStr|
        invariant decimalFound == ('.' in numberStr)
        invariant NumberStop(chars, j, decimalFound) == NumberStop(chars, i, false)
        invariant tokens == old(tokens) && foundError == old(foundError)
        decreases |chars| - j
      {
        ghost var seen := decimalFound;
        if chars[j] == '.' {
          if decimalFound {
            var token := Token("ERROR", "NUMBER", numberStr, lineNumber, start, endChar + 1,
                               Some(ErrorMessage(lineNumber, "Multiple decimal points in number.")));
            NumberStepSecondDot(chars, i, j, lineNumber, start);
            HasErrorTokenSingle(token);
            tokens := tokens + [token];
            foundError := true;
            return j;
          }
          decimalFound := true;
        }
        NumberStopNext(chars, j, seen);
        assert chars[i..j + 1] == chars[i..j] + [chars[j]];
        numberStr := numberStr + [chars[j]];
        j := j + 1;
        endChar := endChar + 1;
      }
      NumberStepOk(chars, i, j, lineNumber, start);
      last := j - 1;
      var interpretedNumber := FormatNumber(numberStr, decimalFound);
      HasErrorTokenSingle(Token("NUMBER", numberStr, interpretedNumber, lineNumber, start, endChar, None));
      AddToken("NUMBER", numberStr, interpretedNumber, start, endChar);
    }

    /** An identifier or keyword run starting at `chars[i]`. */
    method HandleIdentifier(chars: string, i: nat, start: nat) returns (last: nat)
      requires i < |chars| && IsIdentifierStart(chars[i])
      modifies this`tokens
      ensures var s := IdentifierStep(chars, i, lineNumber, start);
        tokens == old(tokens) + s.emitted && last == s.cursor && !HasErrorToken(s.emitted)
    {
      var identifierStr := "";
      var endChar := start;
      var j := i;
      while j < |chars| && IsIdentifierChar(chars[j])
        invariant i <= j <= |chars|
        invariant identifierStr == chars[i..j] && endChar == start + |identifierStr|
        invariant IdentifierEnd(chars, j) == IdentifierEnd(chars, i)
        decreases |chars| - j
      {
        identifierStr := identifierStr + [chars[j]];
        j := j + 1;
        endChar := endChar + 1;
      }
      IdentifierStepIs(chars, i, j, lineNumber, start);
      last := j - 1;
      WordKindNotError(identifierStr);
      HasErrorTokenSingle(Token(WordKind(identifierStr), identifierStr, "", lineNumber, start, endChar, None));
      if identifierStr in identifiers {
        AddToken(Upper(identifierStr), identifierStr, "", start, endChar);
      } else {
        AddToken("IDENTIFIER", identifierStr, "", start, endChar);
      }
    }

    /** Any character no rule handles: an ERROR token naming it. */
    method HandleUnexpected(c: char, start: nat)
      modifies this`tokens, this`foundError
      ensures tokens == old(tokens) + [Token("ERROR", [c], "", lineNumber, start, start + 1,
                                             Some(ErrorMessage(lineNumber, "Unexpected character: " + [c])))]
      ensures foundError
    {
      var token := Token("ERROR", [c], "", lineNumber, start, start + 1,
                         Some(ErrorMessage(lineNumber, "Unexpected character: " + [c])));
      tokens := tokens + [token];
      foundError := true;
    }
  }

  /** The bookkeeping of one loop turn: tokens and flag after the turn, in terms of
      everything appended since the loop began. */
  lemma LoopTurn(tokens0: seq<Token>, emitted: seq<Token>, added: seq<Token>, before: seq<Token>, after: seq<Token>,
                 flag0: bool, flagBefore: bool, flagAfter: bool)
    requires before == tokens0 + emitted && after == before + added
    requires flagBefore == (flag0 || HasErrorToken(emitted)) && flagAfter == (flagBefore || HasErrorToken(added))
    ensures after == tokens0 + (emitted + added) && flagAfter == (flag0 || HasErrorToken(emitted + added))
  {
    HasErrorTokenConcat(emitted, added);
  }
}
