// Hand-written matchers for the four regular expressions of the feature extractor,
// with the backtracking Python's `re` engine performs on them, and models of
// `re.findall` and of `re.sub` with an empty replacement over those matchers.
// `\w`, `\d` and `\b` are taken over ASCII.

module PyRegex {
  import opened Options

  predicate IsDigit(c: char) { '0' <= c <= '9' }

  predicate IsAsciiLetter(c: char) { 'a' <= c <= 'z' || 'A' <= c <= 'Z' }

  /** `\w` */
  predicate IsWord(c: char) { IsAsciiLetter(c) || IsDigit(c) || c == '_' }

  /** `[_a-zA-Z]` */
  predicate IsIdentifierStart(c: char) { IsAsciiLetter(c) || c == '_' }

  /** `[_a-zA-Z0-9\.]` */
  predicate IsIdentifierPart(c: char) { IsWord(c) || c == '.' }

  /** `\b` holds at position `i` of `s`, between `s[i - 1]` and `s[i]`. */
  predicate AtWordBoundary(s: string, i: nat)
    requires i <= |s|
  {
    (i > 0 && IsWord(s[i - 1])) != (i < |s| && IsWord(s[i]))
  }

  datatype Pattern =
    | Identifier                   // \b[_a-zA-Z][_a-zA-Z0-9\.]*\b
    | Number                       // \b\d+(\.\d+)?\b
    | EscapedLiteral(quote: char)  // "(\\.|[^"\\])*"  and  '(\\.|[^'\\])*'
    | LazyQuoted                   // "(.*?)"

  /** The match `s[start..end]`. */
  datatype Span = Span(start: nat, end: nat)

  /** End of the longest run of `[_a-zA-Z0-9\.]` starting at `i`. */
  function IdentifierRunEnd(s: string, i: nat): (e: nat)
    requires i <= |s|
    ensures i <= e <= |s|
    ensures forall j :: i <= j < e ==> IsIdentifierPart(s[j])
    ensures e < |s| ==> !IsIdentifierPart(s[e])
    decreases |s| - i
  {
    if i < |s| && IsIdentifierPart(s[i]) then IdentifierRunEnd(s, i + 1) else i
  }

  /** The greedy star hands back characters one at a time until `\b` holds at the end. */
  function BacktrackToBoundary(s: string, i: nat, e: nat): (k: nat)
    requires i < e <= |s| && IsWord(s[i])
    requires e < |s| ==> !IsWord(s[e])
    ensures i < k <= e && AtWordBoundary(s, k) && IsWord(s[k - 1])
    ensures forall m :: k < m <= e ==> !AtWordBoundary(s, m)
    decreases e
  {
    if AtWordBoundary(s, e) then e
    else BacktrackToBoundary(s, i, e - 1)
  }

  /** `\b[_a-zA-Z][_a-zA-Z0-9\.]*\b` tried at `i`: it matches exactly where an identifier
      start begins a word, and the match is the longest prefix of the run of
      identifier characters that ends at a word boundary, so it ends in a word character. */
  function IdentifierAt(s: string, i: nat): (r: Option<nat>)
    requires i < |s|
    ensures r.Some? <==> IsIdentifierStart(s[i]) && AtWordBoundary(s, i)
    ensures r.Some? ==>
              i < r.value <= |s| && AtWordBoundary(s, r.value) && IsWord(s[r.value - 1])
              && (forall j :: i <= j < r.value ==> IsIdentifierPart(s[j]))
              && forall m :: r.value < m <= IdentifierRunEnd(s, i) ==> !AtWordBoundary(s, m)
  {
    if IsIdentifierStart(s[i]) && AtWordBoundary(s, i) then
      Some(BacktrackToBoundary(s, i, IdentifierRunEnd(s, i)))
    else
      None
  }

  /** End of the longest run of digits starting at `i`. */
  function DigitRunEnd(s: string, i: nat): (e: nat)
    requires i <= |s|
    ensures i <= e <= |s|
    ensures forall j :: i <= j < e ==> IsDigit(s[j])
    ensures e < |s| ==> !IsDigit(s[e])
    decreases |s| - i
  {
    if i < |s| && IsDigit(s[i]) then DigitRunEnd(s, i + 1) else i
  }

  /** `\b\d+(\.\d+)?\b` tried at `i`. When the closing `\b` fails after the fraction,
      the engine drops the optional group and succeeds at the `.` after the integer part. */
  function NumberAt(s: string, i: nat): (r: Option<nat>)
    requires i < |s|
    ensures r.Some? ==> IsDigit(s[i]) && AtWordBoundary(s, i)
    ensures r.Some? ==>
              var d := DigitRunEnd(s, i);
              i < r.value <= |s| && AtWordBoundary(s, r.value)
              && (r.value == d || (s[d] == '.' && d + 1 < r.value && r.value == DigitRunEnd(s, d + 1)))
    ensures var d := DigitRunEnd(s, i);
            (IsDigit(s[i]) && AtWordBoundary(s, i) && d + 1 < |s| && s[d] == '.' && IsDigit(s[d + 1])
             && AtWordBoundary(s, DigitRunEnd(s, d + 1))) ==> r == Some(DigitRunEnd(s, d + 1))
    ensures var d := DigitRunEnd(s, i);
            (IsDigit(s[i]) && AtWordBoundary(s, i) && AtWordBoundary(s, d)
             && !(d + 1 < |s| && s[d] == '.' && IsDigit(s[d + 1]) && AtWordBoundary(s, DigitRunEnd(s, d + 1))))
            ==> r == Some(d)
  {
    if !(IsDigit(s[i]) && AtWordBoundary(s, i)) then None
    else
      var d := DigitRunEnd(s, i);
      if d + 1 < |s| && s[d] == '.' && IsDigit(s[d + 1]) && AtWordBoundary(s, DigitRunEnd(s, d + 1)) then
        Some(DigitRunEnd(s, d + 1))
      else if AtWordBoundary(s, d) then Some(d)
      else None
  }

  /** `(\\.|[q^\\])*q` from `j`: the index of the quote that closes the literal, skipping
      escaped characters, or `None` when the text ends (or an escape meets a newline) first. */
  function ClosingQuote(s: string, j: nat, q: char): (r: Option<nat>)
    ensures r.Some? ==> j <= r.value < |s| && s[r.value] == q
    ensures (forall k :: j <= k < |s| ==> s[k] != q) ==> r.None?
    decreases |s| - j
  {
    if j >= |s| then None
    else if s[j] == q then Some(j)
    else if s[j] == '\\' then
      if j + 1 < |s| && s[j + 1] != '\n' then ClosingQuote(s, j + 2, q) else None
    else ClosingQuote(s, j + 1, q)
  }

  /** The escape-aware literal `q(\\.|[^q\\])*q` tried at `i`. */
  function EscapedLiteralAt(s: string, i: nat, q: char): (r: Option<nat>)
    requires i < |s|
    ensures r.Some? <==> s[i] == q && ClosingQuote(s, i + 1, q).Some?
    ensures r.Some? ==> i + 2 <= r.value <= |s| && s[r.value - 1] == q
    ensures r.Some? ==> r.value == ClosingQuote(s, i + 1, q).value + 1
  {
    if s[i] == q then
      match ClosingQuote(s, i + 1, q)
      case Some(c) => Some(c + 1)
      case None => None
    else
      None
  }

  /** `s[j..r]` is a run of `(\\.|[^q\\])`: each token is a backslash with any
      character but a newline after it, or one character that is neither the quote
      `q` nor a backslash. */
  predicate LiteralBody(s: string, j: nat, r: nat, q: char)
    requires j <= r <= |s|
    decreases r - j
  {
    j == r
    || (s[j] == '\\' && j + 2 <= r && s[j + 1] != '\n' && LiteralBody(s, j + 2, r, q))
    || (s[j] != q && s[j] != '\\' && LiteralBody(s, j + 1, r, q))
  }

  /** `ClosingQuote` finds the first `q` that ends a run of literal tokens from `j`,
      which is the only way the regular expression can close a literal: at a backslash
      only the escape alternative applies, and a quote ends the repetition. When the
      run meets the end of the text or a backslash before a newline first, there is
      no closing quote at all. */
  lemma {:induction false} ClosingQuoteIsFirstClose(s: string, j: nat, q: char)
    ensures match ClosingQuote(s, j, q)
            case Some(c) =>
              j <= c < |s| && s[c] == q && LiteralBody(s, j, c, q)
              && forall r :: j <= r < c && LiteralBody(s, j, r, q) ==> s[r] != q
            case None =>
              forall r :: j <= r < |s| && LiteralBody(s, j, r, q) ==> s[r] != q
    decreases |s| - j
  {
    if j < |s| && s[j] != q {
      if s[j] == '\\' {
        if j + 1 < |s| && s[j + 1] != '\n' {
          ClosingQuoteIsFirstClose(s, j + 2, q);
        }
      } else {
        ClosingQuoteIsFirstClose(s, j + 1, q);
      }
    }
  }

  /** The first `"` at or after `j`, provided no newline comes before it (`.` does not
      match a newline). */
  function NextQuote(s: string, j: nat): (r: Option<nat>)
    ensures r.Some? ==> j <= r.value < |s| && s[r.value] == '"'
    ensures r.Some? ==> forall k :: j <= k < r.value ==> s[k] != '"' && s[k] != '\n'
    ensures r.None? && (forall k :: j <= k < |s| ==> s[k] != '\n') ==>
              forall k :: j <= k < |s| ==> s[k] != '"'
    decreases |s| - j
  {
    if j >= |s| || s[j] == '\n' then None
    else if s[j] == '"' then Some(j)
    else NextQuote(s, j + 1)
  }

  /** The lazy `"(.*?)"` tried at `i`: from a `"` to the nearest following `"`. */
  function LazyQuotedAt(s: string, i: nat): (r: Option<nat>)
    requires i < |s|
    ensures r.Some? ==> s[i] == '"' && i + 2 <= r.value <= |s| && s[r.value - 1] == '"'
    ensures r.Some? ==> forall k :: i < k < r.value - 1 ==> s[k] != '"'
    ensures s[i] == '"' && r.None? && (forall k :: i < k < |s| ==> s[k] != '\n') ==>
              forall k :: i < k < |s| ==> s[k] != '"'
  {
    if s[i] == '"' then
      match NextQuote(s, i + 1)
      case Some(c) => Some(c + 1)
      case None => None
    else
      None
  }

  /** Whether, and where, pattern `p` matches when tried at position `i` of `s`. */
  function MatchAt(p: Pattern, s: string, i: nat): (r: Option<nat>)
    requires i < |s|
    ensures r.Some? ==> i < r.value <= |s|
  {
    match p
    case Identifier => IdentifierAt(s, i)
    case Number => NumberAt(s, i)
    case EscapedLiteral(q) => EscapedLiteralAt(s, i, q)
    case LazyQuoted => LazyQuotedAt(s, i)
  }

  /** The spans lie in order, without overlap, between `i` and `n`. */
  predicate Ordered(n: nat, i: nat, spans: seq<Span>)
    decreases |spans|
  {
    spans == [] || (i <= spans[0].start <= spans[0].end <= n && Ordered(n, spans[0].end, spans[1..]))
  }

  /** `re.findall(p, s[i:])` scanning left to right, as the spans of the matches:
      each span is a match of `p` where it starts, and the spans are in order and
      do not overlap. */
  function FindAll(p: Pattern, s: string, i: nat): (spans: seq<Span>)
    requires i <= |s|
    ensures forall k :: 0 <= k < |spans| ==>
              i <= spans[k].start < spans[k].end <= |s| && MatchAt(p, s, spans[k].start) == Some(spans[k].end)
    ensures Ordered(|s|, i, spans)
    decreases |s| - i
  {
    if i == |s| then []
    else
      match MatchAt(p, s, i)
      case Some(e) => [Span(i, e)] + FindAll(p, s, e)
      case None => FindAll(p, s, i + 1)
  }

  /** Position `j` lies inside one of the spans. */
  predicate Covered(spans: seq<Span>, j: nat) {
    exists k :: 0 <= k < |spans| && spans[k].start <= j < spans[k].end
  }

  /** A position outside every span of `[Span(i, e)] + rest` lies outside `[i, e)` and
      outside every span of `rest`. */
  lemma UncoveredTail(spans: seq<Span>, rest: seq<Span>, i: nat, e: nat, j: nat)
    requires spans == [Span(i, e)] + rest && !Covered(spans, j)
    ensures !(i <= j < e) && !Covered(rest, j)
  {
    assert spans[0] == Span(i, e);
    forall k | 0 <= k < |rest|
      ensures !(rest[k].start <= j < rest[k].end)
    {
      assert spans[k + 1] == rest[k];
    }
  }

  /** `findall` misses nothing: no match of `p` starts at a position outside the
      reported spans. With the spans being matches, in order and without overlap,
      this fixes them: each is the leftmost match after the previous one. */
  lemma {:induction false} FindAllMissesNothing(p: Pattern, s: string, i: nat)
    requires i <= |s|
    ensures forall j {:trigger Covered(FindAll(p, s, i), j)} ::
              i <= j < |s| && !Covered(FindAll(p, s, i), j) ==> MatchAt(p, s, j).None?
    decreases |s| - i
  {
    if i < |s| {
      match MatchAt(p, s, i)
      case Some(e) =>
        FindAllMissesNothing(p, s, e);
        var rest := FindAll(p, s, e);
        assert FindAll(p, s, i) == [Span(i, e)] + rest;
        forall j | i <= j < |s| && !Covered(FindAll(p, s, i), j)
          ensures MatchAt(p, s, j).None?
        {
          UncoveredTail(FindAll(p, s, i), rest, i, e, j);
        }
      case None =>
        FindAllMissesNothing(p, s, i + 1);
        var rest := FindAll(p, s, i + 1);
        assert FindAll(p, s, i) == rest;
        forall j | i <= j < |s| && !Covered(FindAll(p, s, i), j)
          ensures MatchAt(p, s, j).None?
        {
          assert j == i || !Covered(rest, j);
        }
    }
  }

  /** The matched texts, as `findall` returns them for a pattern without groups. */
  function Texts(s: string, spans: seq<Span>): (ts: seq<string>)
    requires forall k :: 0 <= k < |spans| ==> spans[k].start <= spans[k].end <= |s|
    ensures |ts| == |spans|
    ensures forall k :: 0 <= k < |spans| ==> ts[k] == s[spans[k].start..spans[k].end]
  {
    seq(|spans|, k requires 0 <= k < |spans| => s[spans[k].start..spans[k].end])
  }

  /** `re.sub(p, '', s[i:])`: the text with every match removed, scanning as `findall` does. */
  function Sub(p: Pattern, s: string, i: nat): (r: string)
    requires i <= |s|
    ensures |r| <= |s| - i
    decreases |s| - i
  {
    if i == |s| then []
    else
      match MatchAt(p, s, i)
      case Some(e) => Sub(p, s, e)
      case None => [s[i]] + Sub(p, s, i + 1)
  }

  /** The text of `s` from `i` on that lies outside the given ordered spans. */
  function Outside(s: string, i: nat, spans: seq<Span>): string
    requires i <= |s| && Ordered(|s|, i, spans)
    decreases |spans|
  {
    if spans == [] then s[i..]
    else s[i..spans[0].start] + Outside(s, spans[0].end, spans[1..])
  }

  lemma OutsideStep(s: string, i: nat, spans: seq<Span>)
    requires i < |s| && Ordered(|s|, i + 1, spans)
    ensures Outside(s, i, spans) == [s[i]] + Outside(s, i + 1, spans)
  {
    if spans == [] {
      assert s[i..] == [s[i]] + s[i + 1..];
    } else {
      var a := spans[0].start;
      var rest := Outside(s, spans[0].end, spans[1..]);
      assert Outside(s, i, spans) == s[i..a] + rest;
      assert Outside(s, i + 1, spans) == s[i + 1..a] + rest;
      assert s[i..a] == [s[i]] + s[i + 1..a];
    }
  }

  lemma OutsideCons(s: string, i: nat, e: nat, rest: seq<Span>)
    requires i <= e <= |s| && Ordered(|s|, e, rest)
    ensures Ordered(|s|, i, [Span(i, e)] + rest)
    ensures Outside(s, i, [Span(i, e)] + rest) == Outside(s, e, rest)
  {
    var all := [Span(i, e)] + rest;
    assert all[0] == Span(i, e) && all[1..] == rest;
    assert s[i..i] == [];
  }

  lemma SubAndFindAllAtMatch(q: char, s: string, i: nat, e: nat)
    requires i < |s| && MatchAt(EscapedLiteral(q), s, i) == Some(e)
    ensures Sub(EscapedLiteral(q), s, i) == Sub(EscapedLiteral(q), s, e)
    ensures FindAll(EscapedLiteral(q), s, i) == [Span(i, e)] + FindAll(EscapedLiteral(q), s, e)
  {
  }

  /** A match at `i` is both deleted by `re.sub` and reported by `re.findall`. */
  lemma SubSkipsMatch(q: char, s: string, i: nat, e: nat)
    requires i < |s| && MatchAt(EscapedLiteral(q), s, i) == Some(e)
    requires Sub(EscapedLiteral(q), s, e) == Outside(s, e, FindAll(EscapedLiteral(q), s, e))
    ensures Sub(EscapedLiteral(q), s, i) == Outside(s, i, FindAll(EscapedLiteral(q), s, i))
  {
    SubAndFindAllAtMatch(q, s, i, e);
    OutsideCons(s, i, e, FindAll(EscapedLiteral(q), s, e));
  }

  /** Without a match at `i`, `re.sub` keeps the character there and `re.findall`
      reports nothing for it. */
  lemma SubKeepsUnmatched(q: char, s: string, i: nat)
    requires i < |s| && MatchAt(EscapedLiteral(q), s, i).None?
    requires Sub(EscapedLiteral(q), s, i + 1) == Outside(s, i + 1, FindAll(EscapedLiteral(q), s, i + 1))
    ensures Sub(EscapedLiteral(q), s, i) == Outside(s, i, FindAll(EscapedLiteral(q), s, i))
  {
    OutsideStep(s, i, FindAll(EscapedLiteral(q), s, i + 1));
  }

  /** `re.sub` with an empty replacement and a literal pattern deletes exactly the
      matches `re.findall` reports and keeps everything between them, in order. */
  lemma {:induction false} SubKeepsWhatFindAllSkips(q: char, s: string, i: nat)
    requires i <= |s|
    ensures Sub(EscapedLiteral(q), s, i) == Outside(s, i, FindAll(EscapedLiteral(q), s, i))
    decreases |s| - i
  {
    if i < |s| {
      var m := MatchAt(EscapedLiteral(q), s, i);
      if m.Some? {
        SubKeepsWhatFindAllSkips(q, s, m.value);
        SubSkipsMatch(q, s, i, m.value);
      } else {
        SubKeepsWhatFindAllSkips(q, s, i + 1);
        SubKeepsUnmatched(q, s, i);
      }
    }
  }

  /** No literal starts at a character other than its quote, so substitution keeps it. */
  lemma SubKeepsPlain(s: string, i: nat, q: char)
    requires i < |s| && s[i] != q
    ensures Sub(EscapedLiteral(q), s, i) == [s[i]] + Sub(EscapedLiteral(q), s, i + 1)
  {
    assert MatchAt(EscapedLiteral(q), s, i) == None;
  }

  /** A stretch without the quote `q` holds no literal: substitution keeps it whole. */
  lemma {:induction false} SubKeepsQuoteFree(s: string, i: nat, k: nat, q: char)
    requires i <= k <= |s|
    requires forall j :: i <= j < k ==> s[j] != q
    ensures Sub(EscapedLiteral(q), s, i) == s[i..k] + Sub(EscapedLiteral(q), s, k)
    decreases k - i
  {
    if i < k {
      SubKeepsQuoteFree(s, i + 1, k, q);
      SubKeepsPlain(s, i, q);
      ConsSlice(s, i, k, Sub(EscapedLiteral(q), s, k));
    }
  }

  lemma ConsSlice(s: string, i: nat, k: nat, rest: string)
    requires i < k <= |s|
    ensures [s[i]] + (s[i + 1..k] + rest) == s[i..k] + rest
  {
    assert s[i..k] == [s[i]] + s[i + 1..k];
  }

  /** Inside a literal, characters that are neither the quote nor a backslash are
      single tokens: the search for the closing quote passes over them. */
  lemma {:induction false} ClosingQuoteSkipsPlain(s: string, j: nat, k: nat, q: char)
    requires j <= k <= |s|
    requires forall m :: j <= m < k ==> s[m] != q && s[m] != '\\'
    ensures ClosingQuote(s, j, q) == ClosingQuote(s, k, q)
    decreases k - j
  {
    if j < k {
      ClosingQuoteSkipsPlain(s, j + 1, k, q);
    }
  }
}
