// What the scan of `extract_features` guarantees about its counters and averages:
// how lines of each kind are counted, what a blank or a comment line changes, that
// the comment length is overwritten rather than summed, and the bounds the running
// maxima give.

module ScanProperties {
  import opened Options
  import opened PyText
  import opened FeatureExtractor

  /** `//` first occurs in `line` at index `c`. */
  predicate FirstOccurrence(line: string, c: nat) {
    OccursAt(line, "//", c) && forall j :: 0 <= j < c ==> !OccursAt(line, "//", j)
  }

  /** A line that is not all whitespace and contains `//` somewhere. */
  predicate IsCommentLine(line: string) {
    !AllSpace(line) && exists j :: 0 <= j < |line| && OccursAt(line, "//", j)
  }

  /** A line the loop body analyses: neither blank nor a comment line. */
  predicate IsCodeLine(line: string) {
    !AllSpace(line) && !IsCommentLine(line)
  }

  /** The scan sorts a line by what its text shows: blank when it is all whitespace,
      a comment line when it has a `//`, whose comment is the stripped text after the
      first `//`, and code otherwise, measured by `Measure`. */
  lemma ObserveMatchesText(line: string)
    ensures Observe(line).BlankLine? <==> AllSpace(line)
    ensures Observe(line).CommentLine? <==> IsCommentLine(line)
    ensures Observe(line).CodeLine? <==> IsCodeLine(line)
    ensures Observe(line).CodeLine? ==> Observe(line).stats == Measure(line)
    ensures forall c :: FirstOccurrence(line, c) && !AllSpace(line) ==>
              Observe(line) == CommentLine(|Strip(line[c + 2..])|)
  {
    var f := Find(line, "//");
    if f.Some? {
      assert OccursAt(line, "//", f.value);
      assert forall c: nat :: FirstOccurrence(line, c) ==> c == f.value;
    }
  }

  /** The last step of the scan is the loop body applied to the last line. */
  lemma ScanSnoc(lines: seq<string>)
    requires lines != []
    ensures Scan(lines) == Step(Scan(lines[..|lines| - 1]), Observe(lines[|lines| - 1]))
  {
    var os := Observations(lines);
    assert os[..|os| - 1] == Observations(lines[..|lines| - 1]);
  }

  /** Number of lines made only of whitespace. */
  function BlankLines(lines: seq<string>): nat {
    if lines == [] then 0
    else BlankLines(lines[..|lines| - 1]) + (if AllSpace(lines[|lines| - 1]) then 1 else 0)
  }

  /** Number of comment lines. */
  function CommentLines(lines: seq<string>): nat {
    if lines == [] then 0
    else CommentLines(lines[..|lines| - 1]) + (if IsCommentLine(lines[|lines| - 1]) then 1 else 0)
  }

  /** Every line of the text is counted, blank and comment lines included, and the
      blank and comment counters count exactly the lines of those kinds. */
  lemma {:induction false} Census(lines: seq<string>)
    ensures Scan(lines).totalLines == |lines|
    ensures Scan(lines).totalBlankLines == BlankLines(lines)
    ensures Scan(lines).totalComments == CommentLines(lines)
  {
    if lines != [] {
      Census(lines[..|lines| - 1]);
      ScanSnoc(lines);
      ObserveMatchesText(lines[|lines| - 1]);
    }
  }

  /** The text with no characters at all has no lines, and every feature is zero. */
  lemma EmptyCodeHasZeroFeatures()
    ensures forall k :: 0 <= k < |FeaturesOf("")| ==> FeaturesOf("")[k].1 == 0.0
  {
    assert SplitLines("") == [];
    assert Observations([]) == [];
  }

  /** A text of blank lines only counts its lines as lines and as blank lines and
      nothing else, so every returned average is zero. */
  lemma {:induction false} BlankTextHasZeroFeatures(lines: seq<string>)
    requires forall k :: 0 <= k < |lines| ==> AllSpace(lines[k])
    ensures Scan(lines) == Zero.(totalLines := |lines|, totalBlankLines := |lines|)
    ensures forall k :: 0 <= k < |Features(Scan(lines))| ==> Features(Scan(lines))[k].1 == 0.0
  {
    if lines != [] {
      BlankTextHasZeroFeatures(lines[..|lines| - 1]);
      ScanSnoc(lines);
      ObserveMatchesText(lines[|lines| - 1]);
    }
  }

  /** The totals with one more blank line counted. */
  function WithBlankLine(t: Totals): (u: Totals)
    ensures u.totalLines == t.totalLines + 1 && u.totalBlankLines == t.totalBlankLines + 1
    ensures u.(totalLines := t.totalLines, totalBlankLines := t.totalBlankLines) == t
  {
    t.(totalLines := t.totalLines + 1, totalBlankLines := t.totalBlankLines + 1)
  }

  lemma StepAfterBlank(t: Totals, o: Observation)
    ensures Step(WithBlankLine(t), o) == WithBlankLine(Step(t, o))
  {
  }

  /** The observations of a text are those of its parts, in order. */
  lemma ObservationsAppend(a: seq<string>, b: seq<string>)
    ensures Observations(a + b) == Observations(a) + Observations(b)
  {
    var os, oa, ob := Observations(a + b), Observations(a), Observations(b);
    assert forall k :: 0 <= k < |os| ==> os[k] == (oa + ob)[k] by {
      forall k | 0 <= k < |os|
        ensures os[k] == (oa + ob)[k]
      {
        if k < |a| {
          assert (a + b)[k] == a[k];
        } else {
          assert (a + b)[k] == b[k - |a|];
        }
      }
    }
  }

  /** The observations of `pre + [line] + post` and of `pre + post`. */
  lemma ObservationsAround(pre: seq<string>, line: string, post: seq<string>)
    ensures Observations(pre + [line] + post) == Observations(pre) + [Observe(line)] + Observations(post)
    ensures Observations(pre + post) == Observations(pre) + Observations(post)
  {
    ObservationsAppend(pre + [line], post);
    ObservationsAppend(pre, [line]);
    ObservationsAppend(pre, post);
  }

  lemma {:induction false} FoldAroundBlank(pre: seq<Observation>, post: seq<Observation>)
    ensures Fold(pre + [BlankLine] + post) == WithBlankLine(Fold(pre + post))
    decreases |post|
  {
    if post == [] {
      assert pre + [BlankLine] + post == pre + [BlankLine];
      assert (pre + [BlankLine])[..|pre|] == pre;
      assert pre + post == pre;
    } else {
      var front := post[..|post| - 1];
      FoldAroundBlank(pre, front);
      assert (pre + [BlankLine] + post)[..|pre + [BlankLine] + post| - 1] == pre + [BlankLine] + front;
      assert (pre + post)[..|pre + post| - 1] == pre + front;
      StepAfterBlank(Fold(pre + front), post[|post| - 1]);
    }
  }

  /** A blank line anywhere in the text adds one to the line count and to the blank
      line count and changes no other counter. */
  lemma BlankLineChangesOnlyLineCounts(pre: seq<string>, b: string, post: seq<string>)
    requires AllSpace(b)
    ensures Scan(pre + [b] + post) == WithBlankLine(Scan(pre + post))
  {
    ObserveMatchesText(b);
    ObservationsAround(pre, b, post);
    FoldAroundBlank(Observations(pre), Observations(post));
  }

  /** `t` has counted one more line, and that line a comment, than `u`, and the two
      agree on every counter but the comment length. */
  predicate OneMoreComment(t: Totals, u: Totals) {
    t.(totalLines := 0, totalComments := 0, totalCommentsLen := 0)
      == u.(totalLines := 0, totalComments := 0, totalCommentsLen := 0)
    && t.totalLines == u.totalLines + 1 && t.totalComments == u.totalComments + 1
  }

  lemma StepKeepsOneMoreComment(t: Totals, u: Totals, o: Observation)
    requires OneMoreComment(t, u)
    ensures OneMoreComment(Step(t, o), Step(u, o))
  {
    match o
    case BlankLine =>
    case CommentLine(n) =>
    case CodeLine(m) =>
      assert t.totalLineLength == u.totalLineLength;
  }

  lemma {:induction false} FoldAroundComment(pre: seq<Observation>, n: nat, post: seq<Observation>)
    ensures OneMoreComment(Fold(pre + [CommentLine(n)] + post), Fold(pre + post))
    decreases |post|
  {
    var c := CommentLine(n);
    if post == [] {
      assert pre + [c] + post == pre + [c];
      assert (pre + [c])[..|pre|] == pre;
      assert pre + post == pre;
    } else {
      var front := post[..|post| - 1];
      FoldAroundComment(pre, n, front);
      assert (pre + [c] + post)[..|pre + [c] + post| - 1] == pre + [c] + front;
      assert (pre + post)[..|pre + post| - 1] == pre + front;
      StepKeepsOneMoreComment(Fold(pre + [c] + front), Fold(pre + front), post[|post| - 1]);
    }
  }

  /** A comment line anywhere in the text adds one to the line count and to the comment
      count, may change the comment length, and leaves every other counter as it was. */
  lemma CommentLineChangesOnlyCommentCounts(pre: seq<string>, c: string, post: seq<string>)
    requires IsCommentLine(c)
    ensures OneMoreComment(Scan(pre + [c] + post), Scan(pre + post))
  {
    ObserveMatchesText(c);
    ObservationsAround(pre, c, post);
    FoldAroundComment(Observations(pre), Observe(c).commentLength, Observations(post));
  }

  /** `total_comments_len` is overwritten, not added to: after the scan it holds the
      length of the comment on the last comment line alone, the stripped text after
      that line's first `//`. */
  lemma {:induction false} CommentLengthIsLastComment(lines: seq<string>, k: nat, c: nat)
    requires k < |lines| && IsCommentLine(lines[k]) && FirstOccurrence(lines[k], c)
    requires forall j :: k < j < |lines| ==> !IsCommentLine(lines[j])
    ensures Scan(lines).totalCommentsLen == |Strip(lines[k][c + 2..])|
  {
    var n := |lines| - 1;
    ScanSnoc(lines);
    ObserveMatchesText(lines[n]);
    if k < n {
      assert lines[..n][k] == lines[k];
      CommentLengthIsLastComment(lines[..n], k, c);
    }
  }

  /** Without a comment line `total_comments_len` stays zero. */
  lemma {:induction false} NoCommentLengthWithoutComments(lines: seq<string>)
    requires forall j :: 0 <= j < |lines| ==> !IsCommentLine(lines[j])
    ensures Scan(lines).totalCommentsLen == 0 && Scan(lines).totalComments == 0
  {
    if lines != [] {
      var n := |lines| - 1;
      NoCommentLengthWithoutComments(lines[..n]);
      ScanSnoc(lines);
      ObserveMatchesText(lines[n]);
    }
  }

  lemma {:induction false} CommentLinesPositive(lines: seq<string>, k: nat)
    requires k < |lines| && IsCommentLine(lines[k])
    ensures CommentLines(lines) > 0
  {
    var n := |lines| - 1;
    if k < n {
      assert lines[..n][k] == lines[k];
      CommentLinesPositive(lines[..n], k);
    }
  }

  lemma AverageCommentLengthOf(t: Totals)
    requires t.totalComments > 0
    ensures Features(t)[6].1 == (t.totalCommentsLen as real) / (t.totalComments as real)
  {
  }

  /** So `avg_comment_len` is the last comment's length divided by the number of
      comment lines, not the mean comment length. */
  lemma AverageCommentLength(lines: seq<string>, k: nat, c: nat)
    requires k < |lines| && IsCommentLine(lines[k]) && FirstOccurrence(lines[k], c)
    requires forall j :: k < j < |lines| ==> !IsCommentLine(lines[j])
    ensures CommentLines(lines) > 0
    ensures Features(Scan(lines))[6].1 == (|Strip(lines[k][c + 2..])| as real) / (CommentLines(lines) as real)
  {
    var t := Scan(lines);
    assert t.totalComments == CommentLines(lines) > 0 by {
      Census(lines);
      CommentLinesPositive(lines, k);
    }
    assert t.totalCommentsLen == |Strip(lines[k][c + 2..])| by {
      CommentLengthIsLastComment(lines, k, c);
    }
    AverageCommentLengthOf(t);
  }

  /** `a` is `b` scaled by `n / (n + 1)`. */
  predicate Diluted(a: real, b: real, n: nat) {
    a * ((n + 1) as real) == b * (n as real)
  }

  /** Adding to the denominator of a per-line average scales it by `n / (n + 1)`. */
  lemma RatioDilutes(x: nat, n: nat)
    requires n > 0
    ensures Diluted(Ratio(x, n + 1), Ratio(x, n), n)
  {
  }

  /** A blank line scales the five per-line averages by `n / (n + 1)` and leaves the
      three per-item averages unchanged. */
  lemma BlankLineDilutes(t: Totals)
    requires t.totalLines > 0
    ensures forall k :: 0 <= k < 5 ==> Diluted(Features(WithBlankLine(t))[k].1, Features(t)[k].1, t.totalLines)
    ensures forall k :: 5 <= k < 8 ==> Features(WithBlankLine(t))[k] == Features(t)[k]
  {
    var n := t.totalLines;
    var f, g := Features(WithBlankLine(t)), Features(t);
    forall k | 0 <= k < 5
      ensures Diluted(f[k].1, g[k].1, n)
    {
      if k == 0 {
        RatioDilutes(t.totalStrings, n);
      } else if k == 1 {
        RatioDilutes(t.totalLineLength, n);
      } else if k == 2 {
        RatioDilutes(t.totalPeriods + t.totalCommas, n);
      } else if k == 3 {
        RatioDilutes(t.totalIdentifiers, n);
      } else {
        RatioDilutes(t.totalKeywords, n);
      }
    }
  }

  /** A blank line inserted into a text that has lines lowers each per-line average
      from `x` to `x * n / (n + 1)`, where `n` is the number of lines it had. */
  lemma BlankLineDilutesFeatures(pre: seq<string>, b: string, post: seq<string>)
    requires AllSpace(b) && pre + post != []
    ensures forall k :: 0 <= k < 5 ==>
              Diluted(Features(Scan(pre + [b] + post))[k].1, Features(Scan(pre + post))[k].1, |pre + post|)
  {
    BlankLineChangesOnlyLineCounts(pre, b, post);
    Census(pre + post);
    BlankLineDilutes(Scan(pre + post));
  }

  /** One more comment line scales the five per-line averages as a blank line does:
      none of them reads a comment counter. */
  lemma CommentDilutes(t: Totals, u: Totals)
    requires OneMoreComment(t, u) && u.totalLines > 0
    ensures forall k :: 0 <= k < 5 ==> Diluted(Features(t)[k].1, Features(u)[k].1, u.totalLines)
  {
    var w := WithBlankLine(u);
    BlankLineDilutes(u);
    assert t.(totalLines := 0, totalComments := 0, totalCommentsLen := 0)
        == u.(totalLines := 0, totalComments := 0, totalCommentsLen := 0);
    assert t.totalStrings == w.totalStrings && t.totalLineLength == w.totalLineLength
        && t.totalPeriods == w.totalPeriods && t.totalCommas == w.totalCommas
        && t.totalIdentifiers == w.totalIdentifiers && t.totalKeywords == w.totalKeywords
        && t.totalLines == w.totalLines;
    assert Features(t)[..5] == Features(w)[..5];
  }

  /** A comment line inserted into a text that has lines lowers each per-line average
      from `x` to `x * n / (n + 1)`, exactly as a blank line does. */
  lemma CommentLineDilutesFeatures(pre: seq<string>, c: string, post: seq<string>)
    requires IsCommentLine(c) && pre + post != []
    ensures forall k :: 0 <= k < 5 ==>
              Diluted(Features(Scan(pre + [c] + post))[k].1, Features(Scan(pre + post))[k].1, |pre + post|)
  {
    CommentLineChangesOnlyCommentCounts(pre, c, post);
    Census(pre + post);
    CommentDilutes(Scan(pre + [c] + post), Scan(pre + post));
  }

  // ---------------------------------------------------------------------------
  // Running maxima

  /** The per-line measures of `m` are all within the running maxima of `t`. */
  predicate Dominates(t: Totals, m: LineStats) {
    m.lineLength <= t.maxLineLength && m.indentation <= t.maxIndentation
    && m.identifiers <= t.maxIdentifiers && m.keywords <= t.maxKeywords && m.numbers <= t.maxNumbers
    && (m.identifiers > 0 ==> m.longestIdentifier <= t.maxIdentifierLength)
  }

  /** The maxima never go down. */
  lemma StepKeepsDominance(t: Totals, o: Observation, m: LineStats)
    requires Dominates(t, m)
    ensures Dominates(Step(t, o), m)
  {
  }

  lemma {:induction false} FoldMaximaDominate(os: seq<Observation>, k: nat)
    requires k < |os| && os[k].CodeLine?
    ensures Dominates(Fold(os), os[k].stats)
  {
    var n := |os| - 1;
    if k < n {
      assert os[..n][k] == os[k];
      FoldMaximaDominate(os[..n], k);
      StepKeepsDominance(Fold(os[..n]), os[n], os[k].stats);
    }
  }

  /** Every analysed line is within the running maxima at the end of the scan. */
  lemma MaximaDominate(lines: seq<string>, k: nat)
    requires k < |lines| && IsCodeLine(lines[k])
    ensures Dominates(Scan(lines), Measure(lines[k]))
  {
    ObserveMatchesText(lines[k]);
    FoldMaximaDominate(Observations(lines), k);
  }

  /** `n * x <= n * y` when `x <= y`. */
  lemma {:induction false} MulMono(n: nat, x: nat, y: nat)
    requires x <= y
    ensures n * x <= n * y
  {
    if n > 0 {
      MulMono(n - 1, x, y);
      assert n * x == (n - 1) * x + x;
      assert n * y == (n - 1) * y + y;
    }
  }

  /** A list's total length is at most its size times any bound on its elements. */
  lemma {:induction false} SumAtMostCountTimes(ts: seq<string>, m: nat)
    requires forall k :: 0 <= k < |ts| ==> |ts[k]| <= m
    ensures SumLengths(ts) <= |ts| * m
  {
    if ts != [] {
      assert forall k :: 0 <= k < |ts| - 1 ==> ts[1..][k] == ts[k + 1];
      SumAtMostCountTimes(ts[1..], m);
      assert |ts| * m == (|ts| - 1) * m + m;
    }
  }

  /** Every element's length is part of the total length. */
  lemma {:induction false} EachAtMostSum(ts: seq<string>, k: nat)
    requires k < |ts|
    ensures |ts[k]| <= SumLengths(ts)
  {
    if k > 0 {
      assert ts[1..][k - 1] == ts[k];
      EachAtMostSum(ts[1..], k - 1);
    }
  }

  /** What a line's identifier measures satisfy: their total length is at most their
      number times the longest, and the longest is at most the total. */
  predicate LengthsBounded(m: LineStats) {
    m.identifierLength <= m.identifiers * m.longestIdentifier
    && (m.identifiers > 0 ==> m.longestIdentifier <= m.identifierLength)
  }

  lemma MeasureLengthsBounded(line: string)
    ensures LengthsBounded(Measure(line))
  {
    var named := NamedIdentifiers(IdentifierMatches(StripLiterals(line)));
    SumAtMostCountTimes(named, MaxLength(named));
    if named != [] {
      var k :| 0 <= k < |named| && |named[k]| == MaxLength(named);
      EachAtMostSum(named, k);
    }
  }

  /** Number of analysed (code) lines among those the totals have counted. */
  function Analysed(t: Totals): int {
    t.totalLines - t.totalBlankLines - t.totalComments
  }

  /** Each total is at most the number of lines it was summed over times its maximum,
      and each maximum is at most its total. */
  predicate Bounded(t: Totals) {
    Analysed(t) >= 0
    && t.totalLineLength <= Analysed(t) * t.maxLineLength && t.maxLineLength <= t.totalLineLength
    && t.totalIndentation <= Analysed(t) * t.maxIndentation && t.maxIndentation <= t.totalIndentation
    && t.totalIdentifiers <= Analysed(t) * t.maxIdentifiers && t.maxIdentifiers <= t.totalIdentifiers
    && t.totalKeywords <= Analysed(t) * t.maxKeywords && t.maxKeywords <= t.totalKeywords
    && t.totalNumbers <= Analysed(t) * t.maxNumbers && t.maxNumbers <= t.totalNumbers
    && t.totalIdentifierLength <= t.totalIdentifiers * t.maxIdentifierLength
    && t.maxIdentifierLength <= t.totalIdentifierLength
  }

  /** Adding `x` to a total bounded by `a * mx` keeps it bounded by `(a + 1) * Max(mx, x)`. */
  lemma AddBounded(total: nat, a: nat, mx: nat, x: nat)
    requires total <= a * mx
    ensures total + x <= (a + 1) * Max(mx, x)
  {
    MulMono(a, mx, Max(mx, x));
    assert (a + 1) * Max(mx, x) == a * Max(mx, x) + Max(mx, x);
  }

  lemma Distributes(a: nat, b: nat, c: nat)
    ensures (a + b) * c == a * c + b * c
  {
  }

  /** The identifier-length total stays within the identifier count times the longest
      identifier when a line's identifiers are added. */
  lemma AddIdentifierLengths(total: nat, count: nat, mx: nat, m: LineStats)
    requires total <= count * mx && LengthsBounded(m) && m.identifiers > 0
    ensures total + m.identifierLength <= (count + m.identifiers) * Max(mx, m.longestIdentifier)
  {
    var big := Max(mx, m.longestIdentifier);
    MulMono(count, mx, big);
    MulMono(m.identifiers, m.longestIdentifier, big);
    Distributes(count, m.identifiers, big);
  }

  lemma AccumulateKeepsBounded(t: Totals, m: LineStats)
    requires Bounded(t) && LengthsBounded(m)
    ensures var u := Accumulate(t.(totalLines := t.totalLines + 1), m);
            Bounded(u) && Analysed(u) == Analysed(t) + 1
  {
    var a: nat := Analysed(t);
    AddBounded(t.totalLineLength, a, t.maxLineLength, m.lineLength);
    AddBounded(t.totalIndentation, a, t.maxIndentation, m.indentation);
    AddBounded(t.totalIdentifiers, a, t.maxIdentifiers, m.identifiers);
    AddBounded(t.totalKeywords, a, t.maxKeywords, m.keywords);
    AddBounded(t.totalNumbers, a, t.maxNumbers, m.numbers);
    if m.identifiers > 0 {
      AddIdentifierLengths(t.totalIdentifierLength, t.totalIdentifiers, t.maxIdentifierLength, m);
    }
  }

  lemma StepKeepsBounded(t: Totals, o: Observation)
    requires Bounded(t)
    requires o.CodeLine? ==> LengthsBounded(o.stats)
    ensures Bounded(Step(t, o))
  {
    match o
    case BlankLine =>
    case CommentLine(n) =>
    case CodeLine(m) =>
      AccumulateKeepsBounded(t, m);
  }

  /** After the scan every total is at most (analysed lines) times its maximum, and
      every maximum is at most its total. */
  lemma {:induction false} ScanIsBounded(lines: seq<string>)
    ensures Bounded(Scan(lines))
  {
    if lines != [] {
      var n := |lines| - 1;
      ScanIsBounded(lines[..n]);
      ScanSnoc(lines);
      ObserveMatchesText(lines[n]);
      MeasureLengthsBounded(lines[n]);
      StepKeepsBounded(Scan(lines[..n]), Observe(lines[n]));
    }
  }

  /** An average is at most the maximum when the total is at most count times maximum. */
  lemma RatioAtMost(total: nat, n: nat, mx: nat)
    requires total <= n * mx
    ensures Ratio(total, n) <= mx as real
  {
    if n > 0 {
      assert (total as real) <= (n as real) * (mx as real);
    }
  }

  lemma AveragesAtMostMaximaOf(t: Totals)
    requires Bounded(t)
    ensures Features(t)[1].1 <= t.maxLineLength as real
    ensures Features(t)[7].1 <= t.maxIdentifierLength as real
  {
    var a: nat := Analysed(t);
    MulMono(t.maxLineLength, a, t.totalLines);
    assert t.totalLineLength <= t.totalLines * t.maxLineLength;
    RatioAtMost(t.totalLineLength, t.totalLines, t.maxLineLength);
    RatioAtMost(t.totalIdentifierLength, t.totalIdentifiers, t.maxIdentifierLength);
  }

  /** `avg_line_length` never exceeds `max_line_length`, and `avg_identifier_len` never
      exceeds the longest identifier. */
  lemma AveragesAtMostMaxima(lines: seq<string>)
    ensures Features(Scan(lines))[1].1 <= Scan(lines).maxLineLength as real
    ensures Features(Scan(lines))[7].1 <= Scan(lines).maxIdentifierLength as real
  {
    ScanIsBounded(lines);
    AveragesAtMostMaximaOf(Scan(lines));
  }
}
