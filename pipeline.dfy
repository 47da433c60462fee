/** The scanner's output fed to the folder, as the `parse` command does: when the
    folder's demand on its input holds for a scanned line, and what it yields. */
module Pipeline {
  import opened Tokens
  import opened LexerSpec
  import opened ScanRules
  import opened Folder
  import opened FoldRules

  /** A scanned line meets the folder's demand exactly unless it begins with `+` followed
      by a number: EOF always closes the line, so only the first token can lack a neighbour. */
  lemma ScanNeighboursInRange(line: string, ln: nat)
    ensures var ts := Scan(line, ln);
      NeighboursInRange(ts) <==> !(|ts| >= 2 && ts[0].name == "PLUS" && ts[1].name == "NUMBER")
  {
    var ts := Scan(line, ln);
    ScanShape(line, ln);
    if |ts| >= 2 && ts[0].name == "PLUS" && ts[1].name == "NUMBER" {
      assert !InRangeAt(ts, 0);
    } else {
      forall i | 0 <= i < |ts| ensures InRangeAt(ts, i) {
        if ts[i].name == "PLUS" {
          assert i != |ts| - 1;
        }
      }
    }
  }

  /** The line `+1`: its tokens are PLUS, NUMBER, EOF, which the folder cannot take. */
  lemma PlusOneOutOfRange(ln: nat)
    ensures !NeighboursInRange(Scan("+1", ln))
  {
    var line := "+1";
    ScanPunctuation(line, 0, ln, 0);
    assert line[1..2] == "1";
    assert multiset(line[1..2])['.'] == 0;
    ScanNumber(line, 1, 2, ln, 1);
    var ts := Scan(line, ln);
    assert ts[0].name == "PLUS" && ts[1].name == "NUMBER";
    assert !InRangeAt(ts, 0);
  }

  /** After the `2` of `2+3`: PLUS, then NUMBER `3`, then the end of the line. */
  lemma ScanSumLineTail()
    ensures ScanFrom("2+3", 1, 1, 1)
         == [Token("PLUS", "+", "", 1, 1, 2, None), Token("NUMBER", "3", "3.0", 1, 2, 3, None)]
  {
    var line := "2+3";
    var three := Token("NUMBER", "3", "3.0", 1, 2, 3, None);
    assert ScanFrom(line, 3, 1, 3) == [];
    assert line[2..3] == "3" && multiset(line[2..3])['.'] == 0 && '.' !in line[2..3];
    assert FormatNumber("3", false) == "3.0";
    ScanNumber(line, 2, 3, 1, 2);
    assert ScanFrom(line, 2, 1, 2) == [three];
    ScanPunctuation(line, 1, 1, 1);
  }

  /** The line `2+3` before EOF: NUMBER `2`, PLUS, NUMBER `3`, one per turn. */
  lemma ScanSumLineTokens()
    ensures ScanFrom("2+3", 0, 1, 0)
         == [Token("NUMBER", "2", "2.0", 1, 0, 1, None), Token("PLUS", "+", "", 1, 1, 2, None),
             Token("NUMBER", "3", "3.0", 1, 2, 3, None)]
  {
    var line := "2+3";
    assert line[0..1] == "2" && multiset(line[0..1])['.'] == 0 && '.' !in line[0..1];
    assert FormatNumber("2", false) == "2.0";
    NumberStopAt(line, 0, 1);
    NumberStepOk(line, 0, 1, 1, 0);
    assert StepAt(line, 0, 1, 0) == NumberStep(line, 0, 1, 0);
    ScanFromOneToken(line, 0, 1, 0, Token("NUMBER", "2", "2.0", 1, 0, 1, None), 0, 1);
    ScanSumLineTail();
  }

  /** The line `2+3` scans to NUMBER, PLUS, NUMBER, EOF with these spans. */
  lemma ScanSumLine()
    ensures Scan("2+3", 1)
         == [Token("NUMBER", "2", "2.0", 1, 0, 1, None), Token("PLUS", "+", "", 1, 1, 2, None),
             Token("NUMBER", "3", "3.0", 1, 2, 3, None), Token("EOF", "", "null", 1, 0, 0, None)]
  {
    ScanSumLineTokens();
  }

  /** Parsing the line `2+3` prints both operands and the folded sum, in token order. */
  lemma ParseSumLine()
    ensures NeighboursInRange(Scan("2+3", 1))
    ensures Fold(Scan("2+3", 1)) == ["2.0", "(+  2.0 3.0)", "3.0"]
  {
    ScanSumLine();
    FoldSumExample();
  }
}
