// What the literal, identifier and number patterns of the feature extractor can and
// cannot match, and what that means for the identifier and keyword counts of a line.

module PatternProperties {
  import opened Options
  import opened PyText
  import opened PyRegex
  import opened FeatureExtractor

  /** The match `code[sp.start..sp.end]` begins with a letter or `_` at the start of a
      word, is made of identifier characters, and ends in a word character, never in a `.`. */
  predicate IdentifierShaped(code: string, sp: Span)
    requires sp.start <= sp.end <= |code|
  {
    var id := code[sp.start..sp.end];
    |id| > 0 && IsIdentifierStart(id[0]) && IsWord(id[|id| - 1]) && id[|id| - 1] != '.'
    && (sp.start == 0 || !IsWord(code[sp.start - 1]))
    && forall j :: 0 <= j < |id| ==> IsIdentifierPart(id[j])
  }

  lemma IdentifierSpanShaped(code: string, sp: Span)
    requires sp.start < sp.end <= |code| && IdentifierAt(code, sp.start) == Some(sp.end)
    ensures IdentifierShaped(code, sp)
  {
  }

  /** Every identifier match has the shape `IdentifierShaped` describes. */
  lemma IdentifierMatchShape(code: string)
    ensures forall k :: 0 <= k < |FindAll(Identifier, code, 0)| ==>
              IdentifierShaped(code, FindAll(Identifier, code, 0)[k])
  {
    var spans := FindAll(Identifier, code, 0);
    forall k | 0 <= k < |spans|
      ensures IdentifierShaped(code, spans[k])
    {
      IdentifierSpanShaped(code, spans[k]);
    }
  }

  /** A number match starts with a digit at the start of a word, so a digit preceded
      by a word character, as the `1` of `x1`, never starts a number. A digit after a
      `.` can: see `DigitAfterPeriodIsAlsoANumber`. */
  lemma NumberMatchStartsWord(code: string)
    ensures forall k :: 0 <= k < |FindAll(Number, code, 0)| ==>
              var sp := FindAll(Number, code, 0)[k];
              IsDigit(code[sp.start]) && (sp.start == 0 || !IsWord(code[sp.start - 1]))
  {
    var spans := FindAll(Number, code, 0);
    forall k | 0 <= k < |spans|
      ensures IsDigit(code[spans[k].start]) && (spans[k].start == 0 || !IsWord(code[spans[k].start - 1]))
    {
      assert NumberAt(code, spans[k].start) == Some(spans[k].end);
    }
  }

  /** No identifier match is a number, so the `number_pattern.match` filter removes nothing. */
  lemma IdentifierMatchesAreNotNumbers(code: string)
    ensures forall k :: 0 <= k < |IdentifierMatches(code)| ==> !NumberPrefix(IdentifierMatches(code)[k])
  {
    IdentifierMatchShape(code);
    var ids := IdentifierMatches(code);
    forall k | 0 <= k < |ids|
      ensures !NumberPrefix(ids[k])
    {
      var sp := FindAll(Identifier, code, 0)[k];
      assert IdentifierShaped(code, sp);
      assert ids[k] == code[sp.start..sp.end];
      assert IsIdentifierStart(ids[k][0]);
    }
  }

  /** When no element looks like a number, each identifier is either named or a keyword. */
  lemma {:induction false} NamedPlusKeywords(ids: seq<string>)
    requires forall k :: 0 <= k < |ids| ==> !NumberPrefix(ids[k])
    ensures |NamedIdentifiers(ids)| + KeywordCount(ids) == |ids|
  {
    if ids != [] {
      NamedPlusKeywords(ids[1..]);
    }
  }

  /** On an analysed line the named identifiers and the keywords together are all the
      identifier matches of the line with its literals removed. */
  lemma IdentifiersPlusKeywordsAreMatches(line: string)
    ensures Measure(line).identifiers + Measure(line).keywords
            == |IdentifierMatches(StripLiterals(line))|
  {
    var code := StripLiterals(line);
    IdentifierMatchesAreNotNumbers(code);
    NamedPlusKeywords(IdentifierMatches(code));
  }

  /** `x1` is one identifier and no number. */
  lemma DigitsInsideIdentifierAreNotNumbers()
    ensures IdentifierMatches("x1") == ["x1"]
    ensures FindAll(Number, "x1", 0) == []
  {
    var s := "x1";
    assert IdentifierRunEnd(s, 2) == 2;
    assert IdentifierRunEnd(s, 1) == 2;
    assert IdentifierRunEnd(s, 0) == 2;
    assert AtWordBoundary(s, 2);
    assert IdentifierAt(s, 0) == Some(2);
    assert FindAll(Identifier, s, 2) == [];
    assert FindAll(Identifier, s, 0) == [Span(0, 2)];
    assert Texts(s, [Span(0, 2)])[0] == s[0..2];
    assert s[0..2] == s;
    assert !AtWordBoundary(s, 1);
    assert NumberAt(s, 1) == None;
    assert FindAll(Number, s, 2) == [];
    assert FindAll(Number, s, 1) == [];
    assert NumberAt(s, 0) == None;
  }

  /** A trailing `.` is handed back by the backtracking: `a.b.` matches as `a.b`. */
  lemma TrailingPeriodIsNotPartOfIdentifier()
    ensures IdentifierMatches("a.b.") == ["a.b"]
  {
    var s := "a.b.";
    assert IdentifierRunEnd(s, 4) == 4;
    assert IdentifierRunEnd(s, 3) == 4;
    assert IdentifierRunEnd(s, 2) == 4;
    assert IdentifierRunEnd(s, 1) == 4;
    assert IdentifierRunEnd(s, 0) == 4;
    assert !AtWordBoundary(s, 4);
    assert AtWordBoundary(s, 3);
    assert BacktrackToBoundary(s, 0, 4) == 3;
    assert IdentifierAt(s, 0) == Some(3);
    assert MatchAt(Identifier, s, 3) == None;
    assert FindAll(Identifier, s, 4) == [];
    assert FindAll(Identifier, s, 3) == [];
    assert FindAll(Identifier, s, 0) == [Span(0, 3)];
    assert s[0..3] == "a.b";
  }

  /** The `1` of `a.1` starts a word, so it is counted as a number although the
      identifier pattern takes `a.1` whole. */
  lemma DigitAfterPeriodIsAlsoANumber()
    ensures IdentifierMatches("a.1") == ["a.1"]
    ensures FindAll(Number, "a.1", 0) == [Span(2, 3)]
  {
    var s := "a.1";
    assert IdentifierRunEnd(s, 3) == 3;
    assert IdentifierRunEnd(s, 2) == 3;
    assert IdentifierRunEnd(s, 1) == 3;
    assert IdentifierRunEnd(s, 0) == 3;
    assert AtWordBoundary(s, 3);
    assert IdentifierAt(s, 0) == Some(3);
    assert FindAll(Identifier, s, 3) == [];
    assert FindAll(Identifier, s, 0) == [Span(0, 3)];
    assert Texts(s, [Span(0, 3)])[0] == s[0..3];
    assert s[0..3] == s;
    assert DigitRunEnd(s, 3) == 3;
    assert DigitRunEnd(s, 2) == 3;
    assert AtWordBoundary(s, 2);
    assert NumberAt(s, 2) == Some(3);
    assert FindAll(Number, s, 3) == [];
    assert FindAll(Number, s, 2) == [Span(2, 3)];
    assert NumberAt(s, 1) == None;
    assert FindAll(Number, s, 1) == [Span(2, 3)];
    assert NumberAt(s, 0) == None;
  }

  /** A double-quoted literal is removed whole, whatever punctuation it holds. */
  lemma DoubleQuotedLiteralIsRemoved()
    ensures StripLiterals("x := \"a,b.c(d)\"") == "x := "
  {
    AssignedLiteralFirstPass();
    QuoteFreeLineIsCode("x := ");
  }

  lemma AssignedLiteralFirstPass()
    ensures Sub(EscapedLiteral('"'), "x := \"a,b.c(d)\"", 0) == "x := "
  {
    var s := "x := \"a,b.c(d)\"";
    var dq := EscapedLiteral('"');
    ClosingQuoteSkipsPlain(s, 6, 14, '"');
    assert ClosingQuote(s, 14, '"') == Some(14);
    assert MatchAt(dq, s, 5) == Some(15);
    assert Sub(dq, s, 5) == [];
    SubKeepsQuoteFree(s, 0, 5, '"');
    assert s[0..5] == "x := ";
  }

  /** An escaped quote does not close the literal: `p("a\",b")` keeps only `p()`. */
  lemma EscapedQuoteStaysInsideLiteral()
    ensures StripLiterals("p(\"a\\\",b\")") == "p()"
  {
    EscapedQuoteFirstPass();
    QuoteFreeLineIsCode("p()");
  }

  lemma EscapedQuoteFirstPass()
    ensures Sub(EscapedLiteral('"'), "p(\"a\\\",b\")", 0) == "p()"
  {
    var s := "p(\"a\\\",b\")";
    var dq := EscapedLiteral('"');
    ClosingQuoteSkipsPlain(s, 6, 8, '"');
    assert ClosingQuote(s, 8, '"') == Some(8);
    assert ClosingQuote(s, 4, '"') == ClosingQuote(s, 6, '"');
    assert ClosingQuote(s, 3, '"') == Some(8);
    assert MatchAt(dq, s, 2) == Some(9);
    SubKeepsQuoteFree(s, 9, 10, '"');
    assert Sub(dq, s, 2) == ")";
    SubKeepsQuoteFree(s, 0, 2, '"');
    assert s[0..2] + ")" == "p()";
  }
}
