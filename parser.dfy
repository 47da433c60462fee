/** The literal folder: one pass over a token list that keeps the value of every literal
    token and, for a `+` next to a number, a bracketed sum of its two neighbours.
    `Fold` is what one pass produces; the lemmas say what it keeps and in which order. */
module Folder {
  import opened Tokens

  /** The text a literal token contributes on its own: the keyword's text for `true`,
      `false` and `nil`, the value for numbers and strings, nothing for any other kind. */
  function LiteralText(t: Token): (r: seq<string>)
    ensures |r| <= 1
    ensures r != [] <==> t.name in {"TRUE", "FALSE", "NIL", "NUMBER", "STRING"}
  {
    if t.name == "TRUE" || t.name == "FALSE" || t.name == "NIL" then [t.symbol]
    else if t.name == "NUMBER" || t.name == "STRING" then [t.content]
    else []
  }

  /** A `+` at `i` is folded when the token before it or the token after it is a number. */
  predicate PlusTriggers(ts: seq<Token>, i: nat)
    requires i < |ts|
  {
    (i > 0 && ts[i - 1].name == "NUMBER") || (i + 1 < |ts| && ts[i + 1].name == "NUMBER")
  }

  /** Folding the `+` at `i` reads both neighbours, so both must exist. */
  predicate InRangeAt(ts: seq<Token>, i: nat)
    requires i < |ts|
  {
    ts[i].name == "PLUS" && PlusTriggers(ts, i) ==> 0 < i && i + 1 < |ts|
  }

  /** The folder's demand on its input: every folded `+` has two neighbours. */
  predicate NeighboursInRange(ts: seq<Token>) {
    forall i :: 0 <= i < |ts| ==> InRangeAt(ts, i)
  }

  /** The bracketed sum, with the two spaces after the `+` that the folder writes. */
  function PlusText(left: string, right: string): string {
    "(+  " + left + " " + right + ")"
  }

  /** What the token at `i` adds to the output. */
  function Contribution(ts: seq<Token>, i: nat): (r: seq<string>)
    requires i < |ts| && InRangeAt(ts, i)
    ensures |r| <= 1
  {
    if ts[i].name == "PLUS" then
      if PlusTriggers(ts, i) then [PlusText(ts[i - 1].content, ts[i + 1].content)] else []
    else LiteralText(ts[i])
  }

  /** The output after the first `n` tokens, appended in token order. */
  function FoldUpTo(ts: seq<Token>, n: nat): seq<string>
    requires n <= |ts| && NeighboursInRange(ts)
  {
    if n == 0 then [] else FoldUpTo(ts, n - 1) + Contribution(ts, n - 1)
  }

  /** The output of one pass over the whole list. */
  function Fold(ts: seq<Token>): seq<string>
    requires NeighboursInRange(ts)
  {
    FoldUpTo(ts, |ts|)
  }

  /** A reference for lists without `+`: the literal values, read front to back. */
  function Literals(ts: seq<Token>): seq<string> {
    if ts == [] then [] else LiteralText(ts[0]) + Literals(ts[1..])
  }

  predicate NoPlus(ts: seq<Token>) {
    forall i :: 0 <= i < |ts| ==> ts[i].name != "PLUS"
  }
}

/** The folder as the source has it: an object owning its token list and the strings
    it has produced so far. */
module Parsing {
  import opened Tokens
  import opened Folder

  class Parser {
    var tokens: seq<Token>
    var parsed: seq<string>

    constructor (tokens: seq<Token>)
      ensures this.tokens == tokens && parsed == []
    {
      this.tokens := tokens;
      parsed := [];
    }

    /** One pass over the tokens: appends exactly `Fold(tokens)`, leaving the tokens alone. */
    method ParseToken()
      requires NeighboursInRange(tokens)
      modifies this`parsed
      ensures parsed == old(parsed) + Fold(tokens)
    {
      var len := |tokens|;
      for i := 0 to len
        invariant parsed == old(parsed) + FoldUpTo(tokens, i)
      {
        var name := tokens[i].name;
        if name == "PLUS" {
          HandlePlus(i);
        } else if name == "TRUE" || name == "FALSE" || name == "NIL" {
          parsed := parsed + [tokens[i].symbol];
        } else if name == "NUMBER" {
          parsed := parsed + [tokens[i].content];
        } else if name == "STRING" {
          parsed := parsed + [tokens[i].content];
        }
        // every other kind is skipped
      }
    }

    /** The `+` at `plusIndex`: folded only when a neighbour is a number. */
    method HandlePlus(plusIndex: nat)
      requires plusIndex < |tokens| && tokens[plusIndex].name == "PLUS" && InRangeAt(tokens, plusIndex)
      modifies this`parsed
      ensures parsed == old(parsed) + Contribution(tokens, plusIndex)
    {
      var len := |tokens|;
      var leftIsNumber := if plusIndex > 0 then tokens[plusIndex - 1].name == "NUMBER" else false;
      var rightIsNumber := if plusIndex < len - 1 then tokens[plusIndex + 1].name == "NUMBER" else false;
      if leftIsNumber || rightIsNumber {
        ProcessPlusWithNumbers(tokens[plusIndex - 1].content, tokens[plusIndex + 1].content);
      }
    }

    method ProcessPlusWithNumbers(leftNumber: string, rightNumber: string)
      modifies this`parsed
      ensures parsed == old(parsed) + [PlusText(leftNumber, rightNumber)]
    {
      parsed := parsed + [PlusText(leftNumber, rightNumber)];
    }
  }
}
