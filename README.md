# Snippet readability: lexical features and linear score

This project models the core of a tool that rates how readable a snippet of Go-like
code is. It has two parts.

- `extract_features` scans the snippet line by line. Blank lines and lines with a
  `//` are only counted. On every other line it removes the quoted literals and
  measures what is left: length, tab indentation, identifiers, keywords, numbers,
  quoted strings and punctuation. It returns eight guarded averages as a dictionary.
- `normalize_features` and `calculate_readability_score` standardise those eight
  values with the survey means and standard deviations. The raw score is their dot
  product with the fitted coefficients plus the intercept.

`extract_features` appears twice in the repository, in `src/extract_features.py:6-155`
and in `src/rate_snippet.py:14-163`. The two copies differ only in the indentation of
one comment, so one model serves both. Lines of `src/extract_features.py` cited
below: add 8 to get the line in `src/rate_snippet.py`.

## Files

- `py_text.dfy`: the `str` built-ins the extractor calls: `splitlines`, `strip`,
  `find`, `count` and the leading-tab measure. Also the `Option` type.
- `py_regex.dfy`: the four regular expressions as hand-written matchers, with the
  backtracking Python's `re` performs on them. Also `re.findall` as match spans, and
  `re.sub` with an empty replacement.
- `feature_extractor.dfy`: `extract_features`.
  - It is specified by the functions `Observe` (what the loop body finds on a line),
    `Step` (how the counters change) and `Fold`/`Scan` (the loop).
  - The imperative methods `ExtractFeatures`, `ScanLines`, `ObserveLine`,
    `ClassifyLine`, `CountLine`, `MeasureCodeLine` and `AddCodeLine` are the loop
    and its body,
    each proved equal to the function that specifies it.
  - The 22 counters the source keeps in local variables are the fields of one
    `Totals` record.
  - The branches of `ObserveLine` that do not measure the line stand for the
    `continue` statements of the source.
- `scan_properties.dfy`: what the scan guarantees about its counters and averages.
- `pattern_properties.dfy`: what the literal, identifier and number patterns can match.
- `readability_scorer.dfy`: the model constants, normalisation and score.

## Model

| member | source | states |
|---|---|---|
| FeatureExtractor.ExtractFeatures | src/extract_features.py:6-155 | returns the dictionary of the scan's eight guarded averages, under the eight names in source order; the copy at src/rate_snippet.py:14-163 is the same function |
| FeatureExtractor.ScanLines | src/extract_features.py:57-124 | the loop over the lines, starting from zero counters, ends with the totals of folding `Step` over each line's observation |
| FeatureExtractor.ObserveLine | src/extract_features.py:61-71 | a blank line is skipped, a line with `//` is a comment whose length is the stripped text after the first `//`, and any other line is measured |
| FeatureExtractor.ClassifyLine | src/extract_features.py:62-71 | the line is blank exactly when its stripped text is empty, and otherwise has a comment length exactly when it contains `//`, the length being that of the stripped text after the first `//` |
| FeatureExtractor.CountLine | src/extract_features.py:58-71 | every line adds one to `total_lines`; a blank line adds only to `total_blank_lines`; a comment adds to `total_comments` and overwrites `total_comments_len` |
| FeatureExtractor.MeasureCodeLine | src/extract_features.py:74-124 | the measures of a line of code: literals are removed first, but indentation and quoted strings are measured on the original line |
| FeatureExtractor.AddCodeLine | src/extract_features.py:78-124 | adds a code line's measures to the totals and running maxima; identifier lengths and strings are added only when the line has some |
| FeatureExtractor.StripLiterals | src/extract_features.py:74-76 | removing the literals never lengthens a line, and a line without quotes is left unchanged (`QuoteFreeLineIsCode`) |
| FeatureExtractor.QuoteFreeLineIsCode | src/extract_features.py:75-76 | neither substitution changes a line that holds neither quote character |
| FeatureExtractor.NamedIdentifiers | src/extract_features.py:89-91 | the kept identifiers are among the matches, none is a keyword, and there are no more of them than matches |
| FeatureExtractor.NamedIdentifiersCounts | src/extract_features.py:90 | the filter keeps every occurrence of each identifier that is neither a keyword nor starts with a number, and drops every occurrence of the others |
| FeatureExtractor.KeywordCount | src/extract_features.py:104 | the keyword count is at most the number of matches; it is zero exactly when no match is a keyword and equals the number of matches exactly when every match is one (`NamedPlusKeywords` adds that it is the matches minus the kept identifiers) |
| FeatureExtractor.SumLengths | src/extract_features.py:100 | `sum(identifier_lengths)` is the length of the identifiers written one after another |
| FeatureExtractor.MaxLength | src/extract_features.py:96-99 | the longest identifier is at least as long as every identifier and is one of them |
| FeatureExtractor.Groups | src/extract_features.py:115 | `findall` with one group returns, for each match, the text strictly between its two quotes |
| FeatureExtractor.GroupLengthsSumsGroups | src/extract_features.py:118 | the summed group lengths, taken from the spans, are the total length of the group texts |
| FeatureExtractor.LazyQuotedGroupIsQuoteFree | src/extract_features.py:115 | the group of one match of `"(.*?)"` holds no `"` |
| FeatureExtractor.LazyQuotedGroupsAreQuoteFree | src/extract_features.py:115 | no string `re.findall(r'"(.*?)"', line)` returns holds a `"` |
| FeatureExtractor.MeasuredStringsLen | src/extract_features.py:114-118 | a line adds to `total_strings_len` the total length of the strings `findall` returns |
| FeatureExtractor.Ratio | src/extract_features.py:127-137 | an average is zero when its denominator is zero and otherwise times the denominator gives the total |
| FeatureExtractor.Features | src/extract_features.py:144-153 | the dictionary has exactly the eight names, in order, with non-negative values |
| PyText.SplitLines | src/extract_features.py:57 | no line contains a line boundary, and there are no lines exactly when the text is empty |
| PyText.SplitLinesLosesOnlyBoundaries | src/extract_features.py:57 | joined back together, the lines are the text with only its line-boundary characters removed |
| PyText.SplitLinesCount | src/extract_features.py:57 | `splitlines` gives one line per boundary (`\r\n` counting once), plus one when the text is non-empty and does not end in a boundary |
| PyText.Boundaries | src/extract_features.py:57 | the boundaries read left to right, each a `\r\n` pair or a single line-boundary character |
| PyText.SplitLinesJoin | src/extract_features.py:57 | each line followed by the boundary of the same index gives back the text exactly, and there are as many boundaries as lines or one fewer |
| PyText.Strip | src/extract_features.py:62 | the result is the text without its leading and trailing whitespace; it is empty exactly when the text is all whitespace |
| PyText.Find | src/extract_features.py:67 | the result is the first index where `//` occurs, or none when it does not occur |
| PyText.CountCharIsMultiplicity | src/extract_features.py:121-124 | `count` of a character is the number of its occurrences |
| PyText.LeadingTabs | src/extract_features.py:84 | the indentation is the length of the run of tabs at the start of the line |
| PyRegex.IdentifierAt | src/extract_features.py:17 | the identifier pattern matches exactly where a letter or `_` starts a word; the match ends at a word boundary in a word character, as far along the run as that allows |
| PyRegex.NumberAt | src/extract_features.py:16 | the number pattern matches only at a digit that starts a word; it takes the digit run and its fraction when a `.`, a digit and a word boundary after the fraction's digits follow, and otherwise the bare digit run when a word boundary follows it; a match ends at a word boundary after one of these two |
| PyRegex.EscapedLiteralAt | src/extract_features.py:75-76 | a literal pattern matches at `i` exactly when `i` holds the quote and `ClosingQuote` finds a closing quote after it; the match ends one past the quote `ClosingQuote` finds, which is the first one a run of literal tokens reaches (`ClosingQuoteIsFirstClose`) |
| PyRegex.ClosingQuoteIsFirstClose | src/extract_features.py:75-76 | the closing quote found is the first quote reached by a run of literal tokens (a backslash with any character but a newline, or a character that is neither the quote nor a backslash), and there is none when no such run reaches a quote |
| PyRegex.ClosingQuoteSkipsPlain | src/extract_features.py:75-76 | characters that are neither the quote nor a backslash do not change where the literal closes |
| PyRegex.LazyQuotedAt | src/extract_features.py:115 | the string pattern matches from a `"` to the next `"`, with no `"` in between |
| PyRegex.FindAll | src/extract_features.py:89 | `findall` returns matches in order, without overlap, each a match of the pattern where it starts (`FindAllMissesNothing` adds that no match is skipped) |
| PyRegex.FindAllMissesNothing | src/extract_features.py:89 | no match of the pattern starts at a position outside the spans `findall` reports |
| PyRegex.SubKeepsWhatFindAllSkips | src/extract_features.py:75-76 | `re.sub` with a literal pattern and an empty replacement deletes exactly the matches `findall` reports and keeps the rest in order |
| PyRegex.SubKeepsQuoteFree | src/extract_features.py:75-76 | substitution keeps a stretch without the quote character whole |
| ScanProperties.ObserveMatchesText | src/extract_features.py:61-71 | a line is blank exactly when it is all whitespace, a comment exactly when it is not blank and has a `//`, and code otherwise |
| ScanProperties.Census | src/extract_features.py:57-71 | `total_lines` counts every line, and the blank and comment counters count exactly the blank and comment lines |
| ScanProperties.EmptyCodeHasZeroFeatures | src/extract_features.py:127-155 | the empty text gives all-zero features |
| ScanProperties.BlankTextHasZeroFeatures | src/extract_features.py:61-64 | a text of blank lines only counts lines and blank lines, and all its features are zero |
| ScanProperties.BlankLineChangesOnlyLineCounts | src/extract_features.py:58-64 | a blank line anywhere adds one to the line and blank counts and changes nothing else |
| ScanProperties.CommentLineChangesOnlyCommentCounts | src/extract_features.py:66-71 | a comment line anywhere adds one to the line and comment counts, may change the comment length, and changes nothing else; nothing on it is measured |
| ScanProperties.CommentLengthIsLastComment | src/extract_features.py:70 | `total_comments_len` is the length of the last comment line's comment alone, not a sum |
| ScanProperties.NoCommentLengthWithoutComments | src/extract_features.py:40-41 | without comment lines the comment count and length stay zero |
| ScanProperties.AverageCommentLength | src/extract_features.py:134 | `avg_comment_len` is the last comment's length divided by the number of comment lines |
| ScanProperties.BlankLineDilutes | src/extract_features.py:127-137 | one more counted line scales the five per-line averages by `n / (n + 1)` and leaves the three per-item averages unchanged |
| ScanProperties.BlankLineDilutesFeatures | src/extract_features.py:58-64 | inserting a blank line into a text of `n` lines scales its five per-line features by `n / (n + 1)` |
| ScanProperties.CommentDilutes | src/extract_features.py:127-137 | one more line that is a comment scales the five per-line averages by `n / (n + 1)`, as a blank line does |
| ScanProperties.CommentLineDilutesFeatures | src/extract_features.py:66-71 | inserting a comment line into a text of `n` lines scales its five per-line features by `n / (n + 1)` |
| ScanProperties.MaximaDominate | src/extract_features.py:78-112 | every analysed line's measures are within the final running maxima |
| ScanProperties.MeasureLengthsBounded | src/extract_features.py:95-100 | a line's identifier length total is at most its count times its longest identifier, and the longest is at most the total |
| ScanProperties.ScanIsBounded | src/extract_features.py:78-112 | each total is at most the number of analysed lines times its maximum, and each maximum is at most its total |
| ScanProperties.AveragesAtMostMaxima | src/extract_features.py:127-129 | `avg_line_length` is at most the longest line and `avg_identifier_len` at most the longest identifier |
| PatternProperties.IdentifierMatchShape | src/extract_features.py:17 | an identifier match starts a word with a letter or `_`, holds only identifier characters, and never ends in `.` |
| PatternProperties.NumberMatchStartsWord | src/extract_features.py:16 | a number match starts a word with a digit, so a digit preceded by a word character never starts one |
| PatternProperties.IdentifierMatchesAreNotNumbers | src/extract_features.py:90 | no identifier match starts like a number, so the number filter removes nothing |
| PatternProperties.NamedPlusKeywords | src/extract_features.py:90-104 | without number-like matches, every match is either a kept identifier or a keyword |
| PatternProperties.IdentifiersPlusKeywordsAreMatches | src/extract_features.py:89-104 | on a code line, identifiers plus keywords equal the identifier-pattern matches |
| PatternProperties.DigitsInsideIdentifierAreNotNumbers | src/extract_features.py:16-17 | `x1` is one identifier and contains no number |
| PatternProperties.TrailingPeriodIsNotPartOfIdentifier | src/extract_features.py:17 | in `a.b.` the identifier is `a.b`: the final `.` is given back |
| PatternProperties.DigitAfterPeriodIsAlsoANumber | src/extract_features.py:16-17 | `a.1` is one identifier, and its `1` is also a number |
| PatternProperties.DoubleQuotedLiteralIsRemoved | src/extract_features.py:75-76 | `x := "a,b.c(d)"` becomes `x := `: the literal goes whole, its punctuation with it |
| PatternProperties.EscapedQuoteStaysInsideLiteral | src/extract_features.py:75-76 | `p("a\",b")` becomes `p()`: an escaped quote does not close the literal |
| ReadabilityScorer.ModelShape | src/rate_snippet.py:8-12 | there are eight means, standard deviations and coefficients, one per feature name, and every standard deviation is positive |
| ReadabilityScorer.NormalizeFeatures | src/rate_snippet.py:165-168 | each standardised value times its standard deviation plus its mean is the value at the same position; one value is broadcast, other lengths are rejected |
| ReadabilityScorer.CalculateReadabilityScore | src/rate_snippet.py:170-172 | a score exists exactly for a vector of eight values |
| ReadabilityScorer.RawScore | src/rate_snippet.py:191-194 | the extractor's output always fits the scorer, so every snippet gets a raw score; `AllMeansGiveIntercept` and `FeatureAffine` say what that score is |
| ReadabilityScorer.AtMeanIsZero | src/rate_snippet.py:165-168 | a feature at its mean standardises to zero |
| ReadabilityScorer.AllMeansGiveIntercept | src/rate_snippet.py:165-172 | features all at their means give the intercept as the score |
| ReadabilityScorer.ScoreAffine | src/rate_snippet.py:170-172 | raising one standardised value by `d` raises the score by `d` times its coefficient |
| ReadabilityScorer.NormalizeShift | src/rate_snippet.py:165-168 | raising one raw feature by `d` raises only its standardised value, by `d` over its standard deviation |
| ReadabilityScorer.FeatureAffine | src/rate_snippet.py:165-172 | raising one raw feature by `d` changes the score by `d` times its coefficient over its standard deviation |
| ReadabilityScorer.BindingIsByPosition | src/rate_snippet.py:166-167 | the same entries in another order standardise differently: values are bound to the model by position, not by name |

## Notes on the source

- `number_pattern.match(id)` in the identifier filter tests whether a number starts
  the identifier. No identifier match starts with a digit, so the filter drops
  nothing (`IdentifierMatchesAreNotNumbers`).
- `normalize_features` binds the dictionary's values to the model by position, not
  by name (`BindingIsByPosition`). `extract_features` inserts its keys in the model's
  order, so the positions line up.
- `splitlines` ends a line at `\n`, `\r`, `\r\n`, `\v`, `\f`, `\x1c`-`\x1e`, `\x85`,
  `\u2028` and `\u2029` (`SplitLinesCount`, `SplitLinesJoin`).
- The `\b` anchors of `identifier_pattern` make a trailing `.` be given back
  (`TrailingPeriodIsNotPartOfIdentifier`), and no identifier starts right after a
  word character. A digit right after a `.` does start a number, so `a.1` counts as
  one identifier and one number (`DigitAfterPeriodIsAlsoANumber`).
- The comment is searched for in `line.strip('\n')` and its remainder sliced from
  `line`. A line of `splitlines` holds no `\n`, so both are the same text.
- `total_comments_len` is overwritten, not added to, at each comment line. The model
  keeps this (`CommentLengthIsLastComment`).

## Left out

- `main`, the file reading and printing of both scripts, `load_readability_ratings`
  and `src/train_model.py` are I/O and offline fitting. They are not part of this model.
- `sigmoid` uses floating-point `exp`. It is not modelled, so the final score in (0, 1) is not either.
- Numbers are exact reals and unbounded integers. The source divides in 64-bit
  floating point, so rounding is not modelled.
- `\w`, `\d` and `\b` are taken over ASCII. Python's `str` patterns also accept other Unicode letters and digits.
- The unused patterns `comment_pattern`, `operator_pattern` and `whitespace_pattern`
  are not modelled. Neither are `in_block_comment`, the never-updated counters
  `total_arithmetic_ops`, `total_comparison_ops` and `total_assignments`, and
  `keywords_in_line`. None of them affects the result.
- The averages computed and not returned (`avg_indentation`, `avg_numbers`,
  `avg_comments`, `avg_commas`, `avg_spaces`, `avg_parentheses`, `avg_blank_lines`)
  are not modelled. Their totals are in `Totals`.
- `ScanLines`: the loop body's `line.strip('\n')` is not modelled, because a line of
  `splitlines` has no `\n` to strip. The method requires lines without boundaries.
- `NormalizeFeatures` takes the dictionary as its (key, value) pairs in insertion
  order. Python dictionaries cannot repeat a key; the model does not rule it out.
- `CalculateReadabilityScore` models a vector of another length than eight as no
  score. numpy raises an error there.
- `RawScore` uses `calculate_readability_score`. `main` writes out the same
  expression instead of calling the function.
