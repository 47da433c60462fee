# Lox scanner and literal folder, modelled in Dafny

This project models the core of a small interpreter front end for the Lox language.
The core has three parts.

- **The token record** (`src/tokenizer/token.rs`). A token has a kind name, the matched
  text, a printable value, a line, a span and an optional diagnostic. A span's start
  counts the turns of the scanning loop before the token's turn (`char_number`), not a
  character position. Its end is the start plus the number of characters the token
  covers. EOF gets 0-0. A token has two one-line renderings: the plain one, and one that
  adds the span to error lines.
- **The line scanner** (`src/tokenizer/tokenizer.rs`). An object that holds the growing
  token list, a sticky error flag and the current line number. `tokenize` walks one line
  with a cursor and appends one token per lexical rule, then an EOF token. The rules
  cover punctuation, one- and two-character operators, `//` comments, strings, numbers
  with canonicalised values, identifiers and keywords, and three lexical errors:
  unterminated string, a second decimal point, and an unexpected character.
- **The literal folder** (`src/parser/parser.rs`). An object that owns a token list and
  the strings it has produced. One pass keeps the value of every literal and adds a
  bracketed sum `(+  l r)` for every `+` that has a number beside it.

The layout follows the source:

- `token.dfy` (module `Tokens`): the record, decimal rendering of counters, and both
  renderings.
- `lexer_spec.dfy` (module `LexerSpec`): a pure specification of one turn of the
  scanning loop (`StepAt`), of the whole loop (`ScanFrom`) and of one `tokenize` call
  (`Scan`). It also holds the number-canonicalisation lemmas.
- `tokenizer.dfy` (module `Lexer`): class `Tokenizer`. Its fields are updated in place
  and its `while` loops are proved against `Scan`.
- `scan_rules.dfy` (module `ScanRules`): what `Scan` produces, stated rule by rule. It
  also has whole-line facts: EOF comes last, every token carries the line, and number
  values are canonical.
- `parser.dfy` (modules `Folder` and `Parsing`): the pure fold, and class `Parser`. The
  `ParseToken` loop of `Parser` is proved against the fold.
- `fold_rules.dfy` (module `FoldRules`): order, membership and length of the fold's
  output, and agreement with a front-to-back reference when there is no `+`.
- `pipeline.dfy` (module `Pipeline`): scanner output fed to the folder. It gives the
  exact condition under which a scanned line can be folded, and worked lines.

The model follows the code as written, including where it differs from the usual Lox scanner:

- A dot right after a digit run belongs to the run even when no digit follows it.
  `200.` is one NUMBER spelled `200.` whose value is `200.0`; no DOT token follows
  (`ScanRules.ScanTrailingDot`).
- A STRING token's text is the body without the quotes, the same as its value.
- The folder also emits the operands of a folded sum. `2+3` yields `2.0`, `(+  2.0 3.0)`
  and `3.0` (`Pipeline.ParseSumLine`).
- Every `tokenize` call appends its own EOF token, with value `null`.
- `tokenize` never changes the line number.
- A second decimal point ends the number with an ERROR token. The dot itself is skipped,
  and scanning resumes after it.
- A span's start counts the turns of the scanning loop before the token's turn
  (`char_number`), not a character position. Its end is the start plus the number of
  characters the token covers. EOF gets 0-0. A string, a number or an identifier takes
  one turn however long it is. In `"a"x` the string gets 0-3, and the identifier `x`, at
  index 3, gets 1-2 (`ScanRules.ScanSpanCountsTurns`).

## Model

| member | source | states |
|---|---|---|
| `Tokens.NatToString` | src/tokenizer/token.rs:18 | a counter renders as at least one decimal digit, with no leading zero except for 0 itself |
| `Tokens.NatToStringRoundTrip` | src/tokenizer/token.rs:18 | reading the rendered digits back gives the counter, so the rendering loses nothing |
| `Tokens.PlainLine` | src/tokenizer/token.rs:20 | the line written for a token without a diagnostic holds its kind, text and value, each readable back at its place between single spaces |
| `Tokens.Print` | src/tokenizer/token.rs:16-22 | a token without a diagnostic prints as its plain line; an error prints as `[line n` and `]`, and ends with the diagnostic |
| `Tokens.PrintAdvancedError` | src/tokenizer/token.rs:24-30 | a token without a diagnostic prints as its plain line; an error prints as `[line n:`, the span text `start-end` and `]`, and ends with the diagnostic |
| `Tokens.SpanTextReadsBack` | src/tokenizer/token.rs:26 | the span `start-end` of an error line splits at its one dash into two digit strings that read back as the token's start and end |
| `Tokens.PrintAgreesIffNoError` | src/tokenizer/token.rs:16-30 | the plain and span renderings coincide exactly on tokens without a diagnostic; on an error they differ right after `[line n` (`]` against `:`) |
| `LexerSpec.WordKind` | src/tokenizer/tokenizer.rs:218-222 | the kind of a word: its upper-cased form for a keyword, IDENTIFIER otherwise; `LexerSpec.KeywordKindsAreReserved` states its properties |
| `LexerSpec.FormatNumber` | src/tokenizer/tokenizer.rs:193-201 | the canonical value of a number run; `LexerSpec.NumberFormatWithDot`, `LexerSpec.NumberFormatWithoutDot` and `LexerSpec.CanonicalFormIsStable` state its properties |
| `LexerSpec.KeywordKindsAreReserved` | src/tokenizer/tokenizer.rs:218-222 | a keyword's kind is the upper-cased word; it is never EOF, ERROR, IDENTIFIER, NUMBER, STRING or PLUS; `true`/`false`/`nil` give TRUE/FALSE/NIL |
| `LexerSpec.TrimTrailingZeros` | src/tokenizer/tokenizer.rs:195 | the result is a prefix of the input that does not end in `0`, and every dropped character is `0` |
| `LexerSpec.NumberFormatWithDot` | src/tokenizer/tokenizer.rs:193-198 | a decimal keeps its integer part and dot; its fraction is the written one minus trailing zeros, and at least one digit (`0`) |
| `LexerSpec.NumberFormatWithoutDot` | src/tokenizer/tokenizer.rs:199-201 | an integer run gets `.0` appended, the same value as the run followed by a dot |
| `LexerSpec.CanonicalFormIsStable` | src/tokenizer/tokenizer.rs:193-201 | a formatted decimal has exactly one dot, does not end in a dot, and formatting it again changes nothing |
| `LexerSpec.NumberContentCanonical` | src/tokenizer/tokenizer.rs:161-201 | for any digit run with at most one dot, the value has exactly one dot, does not end in a dot, equals `run.0` when the run has no dot, and is a fixed point of formatting |
| `LexerSpec.QuoteEndAt` | src/tokenizer/tokenizer.rs:132-141 | the string loop stops exactly at the first `"` after the opening one, or at the end of the line when there is none |
| `LexerSpec.NumberStopShape` | src/tokenizer/tokenizer.rs:166-188 | the number loop consumes only digits and dots, at most one dot, and stops on a non-digit or on a second dot |
| `LexerSpec.IdentifierEndAt` | src/tokenizer/tokenizer.rs:210-214 | the identifier loop stops exactly at the end of the maximal run of identifier characters |
| `LexerSpec.HasErrorTokenMeans` | src/tokenizer/tokenizer.rs:6 | the error check the flag is kept against holds exactly when some token in the list has kind ERROR |
| `LexerSpec.StepAt` | src/tokenizer/tokenizer.rs:37-62 | one loop turn emits at most one token and leaves the cursor between `i` and the end of the line; a comment emits nothing |
| `LexerSpec.StepAtScanned` | src/tokenizer/tokenizer.rs:37-62 | every token a turn emits carries the current line and is not EOF; it is ERROR exactly when it carries a diagnostic; a NUMBER spells a number run and holds its canonical value |
| `LexerSpec.StepAtError` | src/tokenizer/tokenizer.rs:37-62 | a turn emits an ERROR token exactly on an unterminated string, on a second decimal point, or on a character no rule handles |
| `LexerSpec.ScanFrom` | src/tokenizer/tokenizer.rs:35-65 | the tokens the scanning loop appends from index `i`, turn by turn; the `ScanRules` lemmas state them rule by rule |
| `LexerSpec.Scan` | src/tokenizer/tokenizer.rs:30-67 | one `tokenize` call appends at least one token, and the last is the EOF token on the current line |
| `ScanRules.ScanFromTokensScanned` | src/tokenizer/tokenizer.rs:35-65 | every token the loop appends satisfies the scanned-token invariant |
| `ScanRules.ScanFromLength` | src/tokenizer/tokenizer.rs:35-65 | the loop appends at most one token per remaining character |
| `ScanRules.ScanShape` | src/tokenizer/tokenizer.rs:30-67 | one call appends at least one and at most `|line|+1` tokens; the last is the EOF token and no earlier one is EOF; every token carries the line; ERROR exactly when it carries a diagnostic |
| `ScanRules.ScannedNumbersCanonical` | src/tokenizer/tokenizer.rs:193-203 | every scanned NUMBER spells a number run and its value is canonical: exactly one dot, not at the end |
| `ScanRules.ScanPunctuation` | src/tokenizer/tokenizer.rs:38-47 | each of `(){}*,.+-;` gives its one-character token, and scanning resumes at the next character |
| `ScanRules.ScanOperatorWithEqual` | src/tokenizer/tokenizer.rs:82-116 | `= ! < >` followed by `=` gives the two-character kind, and both characters are consumed |
| `ScanRules.ScanOperatorAlone` | src/tokenizer/tokenizer.rs:86-88 | `= ! < >` not followed by `=` gives the one-character kind |
| `ScanRules.ScanComment` | src/tokenizer/tokenizer.rs:52-56 | `//` ends the scan of the line, with nothing emitted for the comment |
| `ScanRules.ScanSlash` | src/tokenizer/tokenizer.rs:118-124 | a lone `/` gives SLASH |
| `ScanRules.ScanWhitespace` | src/tokenizer/tokenizer.rs:57 | a space or tab emits nothing; only the turn counter behind the spans advances |
| `ScanRules.ScanClosedString` | src/tokenizer/tokenizer.rs:126-159 | a closed string gives STRING with the body as text and value, spanning the body and both quotes, and scanning resumes after the closing quote |
| `ScanRules.ScanUnterminatedString` | src/tokenizer/tokenizer.rs:143-155 | an unclosed string gives ERROR (sub-kind STRING, the body as value, message `Unterminated string.`), and nothing after it on the line is scanned |
| `ScanRules.ScanNumber` | src/tokenizer/tokenizer.rs:161-204 | a maximal number run gives NUMBER with the run as text and its canonical form as value, and scanning resumes right after the run |
| `ScanRules.ScanNumberSecondDot` | src/tokenizer/tokenizer.rs:166-182 | a second dot gives ERROR (sub-kind NUMBER, the run so far as value, message `Multiple decimal points in number.`), and scanning resumes after the dot |
| `ScanRules.ScanIdentifier` | src/tokenizer/tokenizer.rs:206-223 | a maximal identifier run gives its keyword kind or IDENTIFIER, with the word as text |
| `ScanRules.ScanUnexpected` | src/tokenizer/tokenizer.rs:225-238 | any other character gives ERROR naming it, with message `Unexpected character: c` |
| `ScanRules.ScanTrailingDot` | src/tokenizer/tokenizer.rs:166 | the line `200.` scans to NUMBER `200.` with value `200.0`, then EOF |
| `ScanRules.ScanSpanCountsTurns` | src/tokenizer/tokenizer.rs:33-64 | the line `"a"x` scans to STRING with span 0-3, then IDENTIFIER `x` with span 1-2, then EOF with span 0-0: a start counts the loop turns before the token, and an end adds the characters it covers |
| `Lexer.Tokenizer.constructor` | src/tokenizer/tokenizer.rs:13-28 | a new scanner has no tokens, no error and line 1 |
| `Lexer.Tokenizer.Tokenize` | src/tokenizer/tokenizer.rs:30-67 | the tokens already held are kept and exactly `Scan(line, lineNumber)` is appended; the flag becomes true exactly when it was true or an ERROR token was appended |
| `Lexer.Tokenizer.ScanLine` | src/tokenizer/tokenizer.rs:35-65 | the loop appends exactly the line's tokens before EOF (`ScanFrom` from index 0), and the flag becomes true exactly when it was true or one of them is an ERROR |
| `Lexer.Tokenizer.ScanCharacter` | src/tokenizer/tokenizer.rs:36-62 | one turn of the loop appends what the scan says for index `i`, reports a comment, and returns where the cursor was left |
| `Lexer.Tokenizer.AddToken` | src/tokenizer/tokenizer.rs:69-80 | appends one token without a diagnostic, on the current line |
| `Lexer.Tokenizer.HandleOperator` | src/tokenizer/tokenizer.rs:82-116 | appends the operator token the scan specifies and consumes `=` when it follows |
| `Lexer.Tokenizer.HandleSlash` | src/tokenizer/tokenizer.rs:118-124 | reports a comment without emitting, or appends SLASH |
| `Lexer.Tokenizer.HandleString` | src/tokenizer/tokenizer.rs:126-159 | appends the STRING or unterminated-string ERROR token the scan specifies; sets the flag exactly on the error |
| `Lexer.Tokenizer.HandleNumber` | src/tokenizer/tokenizer.rs:161-204 | appends the NUMBER or second-dot ERROR token the scan specifies, with the canonical value; sets the flag exactly on the error |
| `Lexer.Tokenizer.HandleIdentifier` | src/tokenizer/tokenizer.rs:206-223 | appends the keyword or IDENTIFIER token for the maximal run |
| `Lexer.Tokenizer.HandleUnexpected` | src/tokenizer/tokenizer.rs:225-238 | appends the ERROR token naming the character and sets the flag |
| `Folder.LiteralText` | src/parser/parser.rs:22-31 | a token adds a string on its own exactly when it is TRUE, FALSE, NIL, NUMBER or STRING, and then exactly one |
| `Folder.Contribution` | src/parser/parser.rs:17-33 | every token adds at most one string to the output |
| `Folder.FoldUpTo` | src/parser/parser.rs:17-33 | what the pass has produced after its first `n` tokens; `FoldRules` states its properties |
| `Folder.Fold` | src/parser/parser.rs:14-34 | what one whole pass produces; `FoldRules.FoldMembers` and `FoldRules.FoldWithoutPlus` state its properties |
| `Parsing.Parser.constructor` | src/parser/parser.rs:10-12 | a new folder owns the given tokens and has produced nothing |
| `Parsing.Parser.ParseToken` | src/parser/parser.rs:14-34 | one pass appends exactly `Fold(tokens)` to what was produced before |
| `Parsing.Parser.HandlePlus` | src/parser/parser.rs:36-55 | a `+` appends the bracketed sum of its neighbours' values when either neighbour is a number, and nothing otherwise |
| `Parsing.Parser.ProcessPlusWithNumbers` | src/parser/parser.rs:57-59 | appends `(+  l r)` |
| `FoldRules.FoldUpToLength` | src/parser/parser.rs:17-33 | after `n` tokens at most `n` strings have been produced |
| `FoldRules.FoldUpToPrefix` | src/parser/parser.rs:17-33 | output already produced is never rewritten: each stage is a prefix of every later one |
| `FoldRules.FoldOrder` | src/parser/parser.rs:17-33 | what token `j` adds comes right after what the tokens before it added |
| `FoldRules.FoldUpToMembers` | src/parser/parser.rs:17-33 | a string is produced within the first `n` tokens exactly when one of them contributes it |
| `FoldRules.FoldMembers` | src/parser/parser.rs:14-34 | the whole pass produces at most one string per token, and exactly the strings some token contributes |
| `FoldRules.FoldWithoutPlus` | src/parser/parser.rs:22-31 | without `+`, the pass equals the literal values read front to back |
| `FoldRules.FoldAppend` | src/parser/parser.rs:17-33 | appending a token, when the list did not end in `+`, appends exactly that token's contribution |
| `FoldRules.FoldUpToSame` | src/parser/parser.rs:40-50 | the output after `n` tokens depends only on those tokens and, for a `+`, the one after |
| `FoldRules.FoldSumExample` | src/parser/parser.rs:52-54 | `2 + 3` as tokens folds to `2.0`, `(+  2.0 3.0)`, `3.0` |
| `FoldRules.FoldSmallExamples` | src/parser/parser.rs:22-24 | `true` folds to `true`; a `+` without a numeric neighbour folds to nothing |
| `Pipeline.ScanNeighboursInRange` | src/parser/parser.rs:40-53 | a scanned line can be folded exactly when it does not begin with `+` followed by a number |
| `Pipeline.PlusOneOutOfRange` | src/parser/parser.rs:53 | the line `+1` scans to tokens the folder cannot take, since it reads the token before the first one |
| `Pipeline.ScanSumLine` | src/tokenizer/tokenizer.rs:30-67 | the line `2+3` scans to NUMBER, PLUS, NUMBER, EOF with these spans and values |
| `Pipeline.ParseSumLine` | src/parser/parser.rs:14-34 | parsing the line `2+3` yields `2.0`, `(+  2.0 3.0)`, `3.0` |

## Left out

- The command-line driver (`src/main.rs`) is not modelled. This covers argument
  handling, reading the file, splitting it into lines, printing and the exit
  codes. It also calls `tokenize(line_number, line)` and `add_eof()`, which the scanner
  does not define. The model is `Tokenize(line)` on a scanner whose line number stays
  as it is.
- Output streams are not modelled. `print`, `print_advanced_error` and `print_parsed`
  write to stdout or stderr. The model computes the line each one would write
  (`Tokens.Print`, `Tokens.PrintAdvancedError`); which stream it goes to is left out.
- `LexerSpec.IsIdentifierChar`: identifiers continue only over ASCII letters, digits and
  `_`. The source continues over any Unicode alphanumeric character (`is_alphanumeric`),
  and Unicode character classes are not available here. A line where a non-ASCII letter
  follows an identifier therefore scans differently.
- `Parsing.Parser.ParseToken` requires every folded `+` to have both neighbours. The
  source indexes them anyway and panics (an index before 0 or past the end); the panic is
  not modelled. `Pipeline.ScanNeighboursInRange` shows that a scanned line violates this
  exactly when it starts with `+` followed by a number, for example `+1`
  (`Pipeline.PlusOneOutOfRange`).
- `Parsing.Parser.HandlePlus` shares that demand at its own index, for the same reason.
- Counters are unbounded. `u64` line and span counters and `usize` indices are modelled
  as `nat`; overflow cannot occur on any line that fits in memory.
- `handle_equal`, `handle_bang`, `handle_less` and `handle_greater` are one method,
  `Lexer.Tokenizer.HandleOperator`. Their kinds come from `LexerSpec.OperatorKindsOf`.
- The scanning loop of `tokenize`, everything before the EOF token, is the method
  `Lexer.Tokenizer.ScanLine`, which `Lexer.Tokenizer.Tokenize` calls.
- The body of the scanning loop is the method `Lexer.Tokenizer.ScanCharacter`. The
  handlers take the cursor by reference in the source; in the model they return the
  index they leave it on.
- `Token::new` is the datatype constructor `Tokens.Token`.
- The diagnostic text is stored in full (`[line n] Error: …`). `Print` prefixes it again,
  as the source does.
