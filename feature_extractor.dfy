// The lexical feature extractor `extract_features`: one pass over the lines of a
// Go-like snippet that fills a set of counters, followed by the guarded averages
// that make up the returned dictionary. The same function appears, line for line,
// in src/extract_features.py and in src/rate_snippet.py; this module models both.

module FeatureExtractor {
  import opened Options
  import opened PyText
  import opened PyRegex

  /** Go's reserved words, the fixed keyword list of the extractor. */
  const GoKeywords: seq<string> := [
    "break", "default", "func", "interface", "select", "case", "defer", "go",
    "map", "struct", "chan", "else", "goto", "package", "switch", "const",
    "fallthrough", "if", "range", "type", "continue", "for", "import",
    "return", "var"]

  /** The keys of the returned dictionary, in insertion order. */
  const FeatureNames: seq<string> := [
    "avg_strings", "avg_line_length", "avg_commas_periods", "avg_num_identifiers",
    "avg_keywords", "avg_strings_len", "avg_comment_len", "avg_identifier_len"]

  /** A Python dictionary from names to numbers, as its (key, value) pairs in insertion order. */
  type FeatureDict = seq<(string, real)>

  function Max(a: nat, b: nat): nat { if a < b then b else a }

  /** The two `re.sub` calls: double-quoted literals are removed first, then
      single-quoted ones from what is left. */
  function StripLiterals(line: string): (code: string)
    ensures |code| <= |line|
    ensures '"' !in line && '\'' !in line ==> code == line
  {
    QuoteFreeLineIsCode(line);
    Sub(EscapedLiteral('\''), Sub(EscapedLiteral('"'), line, 0), 0)
  }

  /** A line with neither quote character holds no literal of either kind. */
  lemma QuoteFreeLineIsCode(line: string)
    ensures '"' !in line && '\'' !in line ==>
              Sub(EscapedLiteral('"'), line, 0) == line && Sub(EscapedLiteral('\''), line, 0) == line
  {
    if '"' !in line && '\'' !in line {
      SubKeepsQuoteFree(line, 0, |line|, '"');
      SubKeepsQuoteFree(line, 0, |line|, '\'');
    }
  }

  /** `identifier_pattern.findall(code)` */
  function IdentifierMatches(code: string): seq<string> {
    Texts(code, FindAll(Identifier, code, 0))
  }

  /** `number_pattern.match(t)`: the number pattern matches at the start of `t`. */
  predicate NumberPrefix(t: string) {
    |t| > 0 && NumberAt(t, 0).Some?
  }

  /** `[id for id in ids if id not in go_keywords and not number_pattern.match(id)]` */
  function NamedIdentifiers(ids: seq<string>): (named: seq<string>)
    ensures |named| <= |ids|
    ensures forall k :: 0 <= k < |named| ==> named[k] in ids && named[k] !in GoKeywords
  {
    if ids == [] then []
    else
      (if ids[0] !in GoKeywords && !NumberPrefix(ids[0]) then [ids[0]] else [])
      + NamedIdentifiers(ids[1..])
  }

  /** The filter keeps every occurrence of an identifier that is neither a keyword nor
      number-like, and drops every occurrence of one that is. */
  lemma {:induction false} NamedIdentifiersCounts(ids: seq<string>)
    ensures forall t :: multiset(NamedIdentifiers(ids))[t]
                        == if t in GoKeywords || NumberPrefix(t) then 0 else multiset(ids)[t]
  {
    if ids != [] {
      NamedIdentifiersCounts(ids[1..]);
      assert ids == [ids[0]] + ids[1..];
    }
  }

  /** `len([word for word in ids if word in go_keywords])` */
  function KeywordCount(ids: seq<string>): (n: nat)
    ensures n <= |ids|
    ensures n == 0 <==> forall k :: 0 <= k < |ids| ==> ids[k] !in GoKeywords
    ensures n == |ids| <==> forall k :: 0 <= k < |ids| ==> ids[k] in GoKeywords
  {
    if ids == [] then 0
    else (if ids[0] in GoKeywords then 1 else 0) + KeywordCount(ids[1..])
  }

  /** `sum(len(t) for t in ts)` */
  function SumLengths(ts: seq<string>): (n: nat)
    ensures n == |Concat(ts)|
  {
    if ts == [] then 0 else |ts[0]| + SumLengths(ts[1..])
  }

  /** `max(len(t) for t in ts)`, taken as 0 for an empty list. */
  function MaxLength(ts: seq<string>): (m: nat)
    ensures forall k :: 0 <= k < |ts| ==> |ts[k]| <= m
    ensures ts != [] ==> exists k :: 0 <= k < |ts| && |ts[k]| == m
  {
    if ts == [] then 0
    else
      var rest := MaxLength(ts[1..]);
      assert forall k :: 1 <= k < |ts| ==> ts[k] == ts[1..][k - 1];
      if rest <= |ts[0]| then |ts[0]|
      else
        assert exists k :: 1 <= k < |ts| && |ts[k]| == rest by {
          var k0 :| 0 <= k0 < |ts[1..]| && |ts[1..][k0]| == rest;
          assert ts[k0 + 1] == ts[1..][k0];
        }
        rest
  }

  /** Every span of `"(.*?)"` has room for its two quotes. */
  predicate QuotedSpans(spans: seq<Span>) {
    forall k :: 0 <= k < |spans| ==> spans[k].start + 2 <= spans[k].end
  }

  /** `sum(len(s) for s in strings)`, where each `s` is the group between the quotes. */
  function GroupLengths(spans: seq<Span>): nat
    requires QuotedSpans(spans)
  {
    if spans == [] then 0
    else spans[0].end - spans[0].start - 2 + GroupLengths(spans[1..])
  }

  /** Every span lies inside `line`. */
  predicate SpansIn(line: string, spans: seq<Span>) {
    forall k :: 0 <= k < |spans| ==> spans[k].end <= |line|
  }

  /** What `re.findall(r'"(.*?)"', line)` returns: the group of each match, the text
      between its two quotes. */
  function Groups(line: string, spans: seq<Span>): (gs: seq<string>)
    requires QuotedSpans(spans) && SpansIn(line, spans)
    ensures |gs| == |spans|
    ensures forall k :: 0 <= k < |spans| ==> gs[k] == line[spans[k].start + 1..spans[k].end - 1]
  {
    if spans == [] then []
    else [line[spans[0].start + 1..spans[0].end - 1]] + Groups(line, spans[1..])
  }

  /** The numerator of `avg_strings_len` is the total length of the captured groups. */
  lemma {:induction false} GroupLengthsSumsGroups(line: string, spans: seq<Span>)
    requires QuotedSpans(spans) && SpansIn(line, spans)
    ensures GroupLengths(spans) == SumLengths(Groups(line, spans))
  {
    if spans != [] {
      GroupLengthsSumsGroups(line, spans[1..]);
      assert Groups(line, spans)[1..] == Groups(line, spans[1..]);
    }
  }

  lemma LazyQuotedSpans(line: string)
    ensures QuotedSpans(FindAll(LazyQuoted, line, 0))
  {
    var spans := FindAll(LazyQuoted, line, 0);
    forall k | 0 <= k < |spans|
      ensures spans[k].start + 2 <= spans[k].end
    {
      assert LazyQuotedAt(line, spans[k].start) == Some(spans[k].end);
    }
  }

  lemma LazyQuotedGroupIsQuoteFree(line: string, start: nat, end: nat)
    requires start < |line| && LazyQuotedAt(line, start) == Some(end)
    ensures '"' !in line[start + 1..end - 1]
  {
    var g := line[start + 1..end - 1];
    forall j | 0 <= j < |g|
      ensures g[j] != '"'
    {
      assert g[j] == line[start + 1 + j];
    }
  }

  /** The strings `re.findall(r'"(.*?)"', line)` finds hold no quote. */
  lemma LazyQuotedGroupsAreQuoteFree(line: string)
    ensures QuotedSpans(FindAll(LazyQuoted, line, 0)) && SpansIn(line, FindAll(LazyQuoted, line, 0))
    ensures var gs := Groups(line, FindAll(LazyQuoted, line, 0));
            forall k :: 0 <= k < |gs| ==> '"' !in gs[k]
  {
    var spans := FindAll(LazyQuoted, line, 0);
    LazyQuotedSpans(line);
    var gs := Groups(line, spans);
    forall k | 0 <= k < |gs|
      ensures '"' !in gs[k]
    {
      assert MatchAt(LazyQuoted, line, spans[k].start) == Some(spans[k].end);
      LazyQuotedGroupIsQuoteFree(line, spans[k].start, spans[k].end);
    }
  }

  /** What the loop body measures on a line that is neither blank nor a comment. */
  datatype LineStats = LineStats(
    lineLength: nat, indentation: nat,
    identifiers: nat, identifierLength: nat, longestIdentifier: nat,
    keywords: nat, numbers: nat, strings: nat, stringsLen: nat,
    periods: nat, commas: nat, spaces: nat, parentheses: nat)

  function Measure(line: string): LineStats {
    var code := StripLiterals(line);
    var matches := IdentifierMatches(code);
    var named := NamedIdentifiers(matches);
    var strings := FindAll(LazyQuoted, line, 0);
    LazyQuotedSpans(line);
    LineStats(
      lineLength := |code|,
      indentation := LeadingTabs(line),
      identifiers := |named|,
      identifierLength := SumLengths(named),
      longestIdentifier := MaxLength(named),
      keywords := KeywordCount(matches),
      numbers := |FindAll(Number, code, 0)|,
      strings := |strings|,
      stringsLen := GroupLengths(strings),
      periods := CountChar(code, '.'),
      commas := CountChar(code, ','),
      spaces := CountChar(code, ' '),
      parentheses := CountChar(code, '(') + CountChar(code, ')') + CountChar(code, '{') + CountChar(code, '}'))
  }

  /** A line adds the total length of its strings to `total_strings_len`. */
  lemma MeasuredStringsLen(line: string)
    ensures SpansIn(line, FindAll(LazyQuoted, line, 0))
    ensures Measure(line).stringsLen == SumLengths(Groups(line, FindAll(LazyQuoted, line, 0)))
  {
    LazyQuotedGroupsAreQuoteFree(line);
    GroupLengthsSumsGroups(line, FindAll(LazyQuoted, line, 0));
  }

  /** The accumulators of the scan, in the order the source declares them. */
  datatype Totals = Totals(
    totalLineLength: nat, maxLineLength: nat,
    totalIdentifiers: nat, maxIdentifiers: nat,
    totalIdentifierLength: nat, maxIdentifierLength: nat,
    totalIndentation: nat, maxIndentation: nat,
    totalKeywords: nat, maxKeywords: nat,
    totalNumbers: nat, maxNumbers: nat,
    totalComments: nat, totalCommentsLen: nat,
    totalStrings: nat, totalStringsLen: nat,
    totalPeriods: nat, totalCommas: nat, totalSpaces: nat, totalParentheses: nat,
    totalBlankLines: nat, totalLines: nat)

  const Zero := Totals(0, 0, 0, 0, 0, 0, 0, 0, 0, 0, 0, 0, 0, 0, 0, 0, 0, 0, 0, 0, 0, 0)

  /** Adds the measures of an analysed line to the totals and running maxima. */
  function Accumulate(t: Totals, m: LineStats): Totals {
    t.(totalLineLength := t.totalLineLength + m.lineLength,
       maxLineLength := Max(t.maxLineLength, m.lineLength),
       totalIndentation := t.totalIndentation + m.indentation,
       maxIndentation := Max(t.maxIndentation, m.indentation),
       totalIdentifiers := t.totalIdentifiers + m.identifiers,
       maxIdentifiers := Max(t.maxIdentifiers, m.identifiers),
       maxIdentifierLength :=
         if m.identifiers > 0 then Max(t.maxIdentifierLength, m.longestIdentifier) else t.maxIdentifierLength,
       totalIdentifierLength :=
         if m.identifiers > 0 then t.totalIdentifierLength + m.identifierLength else t.totalIdentifierLength,
       totalKeywords := t.totalKeywords + m.keywords,
       maxKeywords := Max(t.maxKeywords, m.keywords),
       totalNumbers := t.totalNumbers + m.numbers,
       maxNumbers := Max(t.maxNumbers, m.numbers),
       totalStrings := if m.strings > 0 then t.totalStrings + m.strings else t.totalStrings,
       totalStringsLen := if m.strings > 0 then t.totalStringsLen + m.stringsLen else t.totalStringsLen,
       totalPeriods := t.totalPeriods + m.periods,
       totalCommas := t.totalCommas + m.commas,
       totalSpaces := t.totalSpaces + m.spaces,
       totalParentheses := t.totalParentheses + m.parentheses)
  }

  /** What the loop body finds on one line: a blank line (skipped), a comment line
      with the length of its comment text, or a line of code with its measures. */
  datatype Observation = BlankLine | CommentLine(commentLength: nat) | CodeLine(stats: LineStats)

  /** The loop body's tests, in order: `not stripped_line.strip()`, then
      `stripped_line.find('//') != -1`. */
  function Observe(line: string): Observation {
    if Strip(line) == [] then BlankLine
    else
      match Find(line, "//")
      case Some(c) => CommentLine(|Strip(line[c + 2..])|)
      case None => CodeLine(Measure(line))
  }

  /** One iteration of the scan loop: every line counts in `total_lines`; a blank line
      only adds to `total_blank_lines`; a comment line adds to `total_comments` and
      overwrites `total_comments_len`; a line of code goes into the other counters. */
  function Step(t: Totals, o: Observation): Totals {
    var t := t.(totalLines := t.totalLines + 1);
    match o
    case BlankLine => t.(totalBlankLines := t.totalBlankLines + 1)
    case CommentLine(n) => t.(totalComments := t.totalComments + 1, totalCommentsLen := n)
    case CodeLine(m) => Accumulate(t, m)
  }

  /** The totals after the loop has gone through the observations `os`, in order. */
  function Fold(os: seq<Observation>): Totals {
    if os == [] then Zero else Step(Fold(os[..|os| - 1]), os[|os| - 1])
  }

  function Observations(lines: seq<string>): (os: seq<Observation>)
    ensures |os| == |lines|
    ensures forall k :: 0 <= k < |lines| ==> os[k] == Observe(lines[k])
  {
    seq(|lines|, k requires 0 <= k < |lines| => Observe(lines[k]))
  }

  /** The totals after the scan has gone through `lines`, in order. */
  function Scan(lines: seq<string>): Totals {
    Fold(Observations(lines))
  }

  /** `n / d if d else 0`: exact division, zero for a zero denominator. */
  function Ratio(n: nat, d: nat): (r: real)
    ensures r >= 0.0
    ensures d == 0 ==> r == 0.0
    ensures d > 0 ==> r * (d as real) == n as real
  {
    if d == 0 then 0.0 else (n as real) / (d as real)
  }

  /** The returned dictionary: the eight averages the model uses, under their names. */
  function Features(t: Totals): (f: FeatureDict)
    ensures |f| == |FeatureNames|
    ensures forall k :: 0 <= k < |f| ==> f[k].0 == FeatureNames[k] && f[k].1 >= 0.0
  {
    [("avg_strings", Ratio(t.totalStrings, t.totalLines)),
     ("avg_line_length", Ratio(t.totalLineLength, t.totalLines)),
     ("avg_commas_periods", Ratio(t.totalPeriods + t.totalCommas, t.totalLines)),
     ("avg_num_identifiers", Ratio(t.totalIdentifiers, t.totalLines)),
     ("avg_keywords", Ratio(t.totalKeywords, t.totalLines)),
     ("avg_strings_len", Ratio(t.totalStringsLen, t.totalStrings)),
     ("avg_comment_len", Ratio(t.totalCommentsLen, t.totalComments)),
     ("avg_identifier_len", Ratio(t.totalIdentifierLength, t.totalIdentifiers))]
  }

  /** What `extract_features(code)` returns. */
  function FeaturesOf(code: string): FeatureDict {
    Features(Scan(SplitLines(code)))
  }

  /** The measurements the loop body takes of a line that is neither blank nor a
      comment: literals are cut out of the line before anything but the indentation
      and the quoted strings is measured. */
  method MeasureCodeLine(line: string) returns (m: LineStats)
    ensures m == Measure(line)
  {
    var strippedLine := StripLiterals(line);
    var lineLength := |strippedLine|;
    var indentation := LeadingTabs(line);
    var matches := IdentifierMatches(strippedLine);
    var identifiers := NamedIdentifiers(matches);
    var numKeywords := KeywordCount(matches);
    var numNumbers := |FindAll(Number, strippedLine, 0)|;
    var strings := FindAll(LazyQuoted, line, 0);
    LazyQuotedSpans(line);
    m := LineStats(
      lineLength, indentation, |identifiers|, SumLengths(identifiers), MaxLength(identifiers),
      numKeywords, numNumbers, |strings|, GroupLengths(strings),
      CountChar(strippedLine, '.'), CountChar(strippedLine, ','), CountChar(strippedLine, ' '),
      CountChar(strippedLine, '(') + CountChar(strippedLine, ')')
      + CountChar(strippedLine, '{') + CountChar(strippedLine, '}'));
  }

  /** The loop body's updates of the totals and running maxima for an analysed line;
      the length totals move only when the line has identifiers or strings. */
  method AddCodeLine(t0: Totals, m: LineStats) returns (t: Totals)
    ensures t == Accumulate(t0, m)
  {
    t := t0;
    t := t.(totalLineLength := t.totalLineLength + m.lineLength,
            maxLineLength := Max(t.maxLineLength, m.lineLength));
    t := t.(totalIndentation := t.totalIndentation + m.indentation,
            maxIndentation := Max(t.maxIndentation, m.indentation));
    t := t.(totalIdentifiers := t.totalIdentifiers + m.identifiers,
            maxIdentifiers := Max(t.maxIdentifiers, m.identifiers));
    if m.identifiers > 0 {
      t := t.(maxIdentifierLength := Max(t.maxIdentifierLength, m.longestIdentifier),
              totalIdentifierLength := t.totalIdentifierLength + m.identifierLength);
    }
    t := t.(totalKeywords := t.totalKeywords + m.keywords,
            maxKeywords := Max(t.maxKeywords, m.keywords));
    t := t.(totalNumbers := t.totalNumbers + m.numbers,
            maxNumbers := Max(t.maxNumbers, m.numbers));
    if m.strings > 0 {
      t := t.(totalStrings := t.totalStrings + m.strings,
              totalStringsLen := t.totalStringsLen + m.stringsLen);
    }
    t := t.(totalPeriods := t.totalPeriods + m.periods,
            totalCommas := t.totalCommas + m.commas,
            totalSpaces := t.totalSpaces + m.spaces,
            totalParentheses := t.totalParentheses + m.parentheses);
  }

  /** The tests at the top of the loop body: whether the stripped line is empty and,
      if not, the length of the stripped text after a `//` when there is one. */
  method ClassifyLine(line: string) returns (blank: bool, comment: Option<nat>)
    ensures blank <==> Observe(line).BlankLine?
    ensures comment.Some? <==> Observe(line).CommentLine?
    ensures comment.Some? ==> comment.value == Observe(line).commentLength
  {
    ObserveCases(line);
    blank := Strip(line) == [];
    comment := None;
    if !blank {
      var commentStart := Find(line, "//");
      if commentStart.Some? {
        comment := Some(|Strip(line[commentStart.value + 2..])|);
      }
    }
  }

  /** The loop body up to the counters: each line is blank, a comment or a line of
      code, and a line of code is measured. */
  method ObserveLine(line: string) returns (o: Observation)
    ensures o == Observe(line)
  {
    var blank, comment := ClassifyLine(line);
    if blank {
      o := BlankLine;
    } else if comment.Some? {
      o := CommentLine(comment.value);
    } else {
      ObserveCases(line);
      var m := MeasureCodeLine(line);
      o := CodeLine(m);
    }
  }

  /** `Observe` case by case, in the order the loop body tests the line. */
  lemma ObserveCases(line: string)
    ensures Strip(line) == [] ==> Observe(line) == BlankLine
    ensures Strip(line) != [] && Find(line, "//").Some? ==>
              Observe(line) == CommentLine(|Strip(line[Find(line, "//").value + 2..])|)
    ensures Strip(line) != [] && Find(line, "//").None? ==> Observe(line) == CodeLine(Measure(line))
  {
  }

  /** The counter updates of the loop body for a line observed as `o`: `total_lines`
      first, then the counters of its kind. */
  method CountLine(t0: Totals, o: Observation) returns (t: Totals)
    ensures t == Step(t0, o)
  {
    t := t0.(totalLines := t0.totalLines + 1);
    match o
    case BlankLine =>
      t := t.(totalBlankLines := t.totalBlankLines + 1);
    case CommentLine(n) =>
      t := t.(totalComments := t.totalComments + 1, totalCommentsLen := n);
    case CodeLine(m) =>
      t := AddCodeLine(t, m);
  }

  /** The loop `for line in lines`, starting from all counters at zero. The loop body's
      `line.strip('\n')` is left out: a line of `splitlines` has no line break in it. */
  method ScanLines(lines: seq<string>) returns (t: Totals)
    requires forall k :: 0 <= k < |lines| ==> NoLineBoundary(lines[k])
    ensures t == Scan(lines)
  {
    ghost var os := Observations(lines);
    t := Zero;
    for i := 0 to |lines|
      invariant t == Fold(os[..i])
    {
      assert os[..i + 1][..i] == os[..i];
      var o := ObserveLine(lines[i]);
      t := CountLine(t, o);
    }
    assert os[..|lines|] == os;
  }

  /** `extract_features(code)`: the scan loop over `code.splitlines()` with its early
      exits for blank and comment lines, then the guarded averages. The counters the
      source keeps in separate local variables are the fields of `t`. */
  method ExtractFeatures(code: string) returns (features: FeatureDict)
    ensures features == FeaturesOf(code)
    ensures |features| == |FeatureNames|
    ensures forall k :: 0 <= k < |features| ==> features[k].0 == FeatureNames[k]
  {
    var t := ScanLines(SplitLines(code));

    var avgLineLength := Ratio(t.totalLineLength, t.totalLines);
    var avgIdentifiers := Ratio(t.totalIdentifiers, t.totalLines);
    var avgIdentifierLength := Ratio(t.totalIdentifierLength, t.totalIdentifiers);
    var avgKeywords := Ratio(t.totalKeywords, t.totalLines);
    var avgCommentLen := Ratio(t.totalCommentsLen, t.totalComments);
    var avgStrings := Ratio(t.totalStrings, t.totalLines);
    var avgStringsLen := Ratio(t.totalStringsLen, t.totalStrings);
    var avgPeriodsAndCommas := Ratio(t.totalPeriods + t.totalCommas, t.totalLines);
    features := [
      ("avg_strings", avgStrings),
      ("avg_line_length", avgLineLength),
      ("avg_commas_periods", avgPeriodsAndCommas),
      ("avg_num_identifiers", avgIdentifiers),
      ("avg_keywords", avgKeywords),
      ("avg_strings_len", avgStringsLen),
      ("avg_comment_len", avgCommentLen),
      ("avg_identifier_len", avgIdentifierLength)];
  }
}
