/** What one folding pass keeps, in which order, and how it relates to a plain
    front-to-back reading of the literal values. */
module FoldRules {
  import opened Tokens
  import opened Folder

  /** Every token adds at most one string. */
  lemma {:induction false} FoldUpToLength(ts: seq<Token>, n: nat)
    requires n <= |ts| && NeighboursInRange(ts)
    ensures |FoldUpTo(ts, n)| <= n
    decreases n
  {
    if n > 0 {
      FoldUpToLength(ts, n - 1);
    }
  }

  /** The output only grows as the pass advances: earlier output is never rewritten. */
  lemma {:induction false} FoldUpToPrefix(ts: seq<Token>, m: nat, n: nat)
    requires m <= n <= |ts| && NeighboursInRange(ts)
    ensures FoldUpTo(ts, m) <= FoldUpTo(ts, n)
    decreases n
  {
    if m < n {
      FoldUpToPrefix(ts, m, n - 1);
    }
  }

  /** The output is in token order: what token `j` contributes comes right after what
      the tokens before it contributed. */
  lemma FoldOrder(ts: seq<Token>, j: nat)
    requires j < |ts| && NeighboursInRange(ts)
    ensures FoldUpTo(ts, j) + Contribution(ts, j) <= Fold(ts)
  {
    FoldUpToPrefix(ts, j + 1, |ts|);
  }

  /** A string is in the output after `n` tokens exactly when one of those tokens
      contributed it. */
  lemma {:induction false} FoldUpToMembers(ts: seq<Token>, n: nat, s: string)
    requires n <= |ts| && NeighboursInRange(ts)
    ensures s in FoldUpTo(ts, n) <==> exists i :: 0 <= i < n && s in Contribution(ts, i)
    decreases n
  {
    if n > 0 {
      FoldUpToMembers(ts, n - 1, s);
      var before, last := FoldUpTo(ts, n - 1), Contribution(ts, n - 1);
      assert FoldUpTo(ts, n) == before + last;
      if s in FoldUpTo(ts, n) {
        if s in last {
          assert 0 <= n - 1 < n && s in Contribution(ts, n - 1);
        } else {
          assert s in before;
        }
      }
      if exists i :: 0 <= i < n && s in Contribution(ts, i) {
        var i :| 0 <= i < n && s in Contribution(ts, i);
        if i < n - 1 {
          assert s in before;
        } else {
          assert s in last;
        }
      }
    }
  }

  /** The whole pass: `|Fold(ts)| <= |ts|`, and the output holds exactly the literal
      values and folded sums of the list. */
  lemma FoldMembers(ts: seq<Token>, s: string)
    requires NeighboursInRange(ts)
    ensures |Fold(ts)| <= |ts|
    ensures s in Fold(ts) <==> exists i :: 0 <= i < |ts| && s in Contribution(ts, i)
  {
    FoldUpToLength(ts, |ts|);
    FoldUpToMembers(ts, |ts|, s);
  }

  /** A list without `+` needs no neighbours. */
  lemma NoPlusInRange(ts: seq<Token>)
    requires NoPlus(ts)
    ensures NeighboursInRange(ts)
  {
  }

  lemma {:induction false} LiteralsAppend(ts: seq<Token>, t: Token)
    ensures Literals(ts + [t]) == Literals(ts) + LiteralText(t)
    decreases |ts|
  {
    if ts == [] {
      assert Literals([t]) == LiteralText(t) + Literals([]);
    } else {
      LiteralsAppend(ts[1..], t);
      assert (ts + [t])[1..] == ts[1..] + [t];
    }
  }

  lemma {:induction false} FoldUpToWithoutPlus(ts: seq<Token>, n: nat)
    requires n <= |ts| && NoPlus(ts)
    ensures NeighboursInRange(ts) && FoldUpTo(ts, n) == Literals(ts[..n])
    decreases n
  {
    NoPlusInRange(ts);
    if n > 0 {
      FoldUpToWithoutPlus(ts, n - 1);
      LiteralsAppend(ts[..n - 1], ts[n - 1]);
      assert ts[..n] == ts[..n - 1] + [ts[n - 1]];
    }
  }

  /** Without `+` the pass is just the literal values read front to back. */
  lemma FoldWithoutPlus(ts: seq<Token>)
    requires NoPlus(ts)
    ensures NeighboursInRange(ts) && Fold(ts) == Literals(ts)
  {
    FoldUpToWithoutPlus(ts, |ts|);
    assert ts[..|ts|] == ts;
  }

  /** Appending one token to the list appends its contribution, provided it does not
      give a `+` at the old end a new right neighbour. */
  lemma FoldAppend(ts: seq<Token>, t: Token)
    requires NeighboursInRange(ts + [t]) && NeighboursInRange(ts)
    requires ts != [] ==> ts[|ts| - 1].name != "PLUS"
    ensures Fold(ts + [t]) == Fold(ts) + Contribution(ts + [t], |ts|)
  {
    var us := ts + [t];
    FoldUpToSame(ts, us, |ts|);
  }

  /** The output after `n` tokens depends only on the first `n` tokens and the one after. */
  lemma {:induction false} FoldUpToSame(ts: seq<Token>, us: seq<Token>, n: nat)
    requires n <= |ts| <= |us| && NeighboursInRange(ts) && NeighboursInRange(us)
    requires ts == us[..|ts|]
    requires n == |ts| ==> n == 0 || ts[n - 1].name != "PLUS"
    ensures FoldUpTo(ts, n) == FoldUpTo(us, n)
    decreases n
  {
    if n > 0 {
      FoldUpToSame(ts, us, n - 1);
      assert ts[n - 1] == us[n - 1];
      if n - 1 > 0 {
        assert ts[n - 2] == us[n - 2];
      }
      if n < |ts| {
        assert ts[n] == us[n];
      }
      if ts[n - 1].name == "PLUS" {
        assert PlusTriggers(ts, n - 1) == PlusTriggers(us, n - 1);
      }
      assert Contribution(ts, n - 1) == Contribution(us, n - 1);
    }
  }

  /** `2 + 3` as tokens: both numbers and the folded sum, in token order. */
  lemma FoldSumExample()
    ensures var ts := [Token("NUMBER", "2", "2.0", 1, 0, 1, None), Token("PLUS", "+", "", 1, 1, 2, None),
                       Token("NUMBER", "3", "3.0", 1, 2, 3, None), Token("EOF", "", "null", 1, 0, 0, None)];
      NeighboursInRange(ts) && Fold(ts) == ["2.0", "(+  2.0 3.0)", "3.0"]
  {
    var ts := [Token("NUMBER", "2", "2.0", 1, 0, 1, None), Token("PLUS", "+", "", 1, 1, 2, None),
               Token("NUMBER", "3", "3.0", 1, 2, 3, None), Token("EOF", "", "null", 1, 0, 0, None)];
    assert InRangeAt(ts, 1);
    assert NeighboursInRange(ts);
    assert FoldUpTo(ts, 1) == ["2.0"];
    assert PlusText("2.0", "3.0") == "(+  2.0 3.0)";
    assert Contribution(ts, 1) == ["(+  2.0 3.0)"];
    assert FoldUpTo(ts, 2) == ["2.0", "(+  2.0 3.0)"];
    assert FoldUpTo(ts, 3) == ["2.0", "(+  2.0 3.0)", "3.0"];
  }

  /** A keyword literal keeps its text; a `+` with no number beside it adds nothing. */
  lemma FoldSmallExamples()
    ensures var ts := [Token("TRUE", "true", "", 1, 0, 4, None), Token("EOF", "", "null", 1, 0, 0, None)];
      NeighboursInRange(ts) && Fold(ts) == ["true"]
    ensures var ts := [Token("PLUS", "+", "", 1, 0, 1, None), Token("EOF", "", "null", 1, 0, 0, None)];
      NeighboursInRange(ts) && Fold(ts) == []
  {
    var ts := [Token("TRUE", "true", "", 1, 0, 4, None), Token("EOF", "", "null", 1, 0, 0, None)];
    assert InRangeAt(ts, 0) && InRangeAt(ts, 1);
    assert FoldUpTo(ts, 1) == ["true"];
    var us := [Token("PLUS", "+", "", 1, 0, 1, None), Token("EOF", "", "null", 1, 0, 0, None)];
    assert !PlusTriggers(us, 0);
    assert InRangeAt(us, 0) && InRangeAt(us, 1);
    assert FoldUpTo(us, 1) == [];
  }
}
