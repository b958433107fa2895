// Models of the Python `str` built-ins that the feature extractor calls:
// `splitlines`, `strip`, `find`, `count` and the leading-tab measure.
// Characters are Unicode code points, as in a Python `str`.

module Options {
  datatype Option<T> = None | Some(value: T)
}

module PyText {
  import opened Options

  /** `c.isspace()`: the characters that `str.strip()` removes when called without arguments. */
  predicate IsSpace(c: char) {
    var n := c as int;
    (9 <= n <= 13) || (28 <= n <= 32) || n == 0x85 || n == 0xA0 || n == 0x1680
    || (0x2000 <= n <= 0x200A) || n == 0x2028 || n == 0x2029 || n == 0x202F
    || n == 0x205F || n == 0x3000
  }

  /** The characters at which `str.splitlines()` ends a line; `\r\n` is one boundary. */
  predicate IsLineBoundary(c: char) {
    var n := c as int;
    (10 <= n <= 13) || (28 <= n <= 30) || n == 0x85 || n == 0x2028 || n == 0x2029
  }

  predicate NoLineBoundary(s: string) {
    forall j :: 0 <= j < |s| ==> !IsLineBoundary(s[j])
  }

  /** Index of the first line boundary in `s`, or `|s|` when there is none. */
  function FirstBoundary(s: string): (k: nat)
    ensures k <= |s|
    ensures NoLineBoundary(s[..k])
    ensures k < |s| ==> IsLineBoundary(s[k])
  {
    if s == [] then 0
    else if IsLineBoundary(s[0]) then 0
    else 1 + FirstBoundary(s[1..])
  }

  /** Where the next line starts after the boundary at `k`: `\r\n` is one boundary. */
  function AfterBoundary(s: string, k: nat): (next: nat)
    requires k < |s|
    ensures k < next <= |s|
    ensures next == k + 1 || (next == k + 2 && s[k] == '\r' && s[k + 1] == '\n')
  {
    if s[k] == '\r' && k + 1 < |s| && s[k + 1] == '\n' then k + 2 else k + 1
  }

  /** `s.splitlines()`: the lines of `s` without their boundaries; a final boundary
      does not open an empty last line, and the empty text has no lines. */
  function SplitLines(s: string): (lines: seq<string>)
    ensures forall k :: 0 <= k < |lines| ==> NoLineBoundary(lines[k])
    ensures lines == [] <==> s == []
    decreases |s|
  {
    if s == [] then []
    else
      var k := FirstBoundary(s);
      if k == |s| then [s]
      else
        [s[..k]] + SplitLines(s[AfterBoundary(s, k)..])
  }

  /** The text of `s` with every line-boundary character dropped. */
  function WithoutBoundaries(s: string): string {
    if s == [] then []
    else (if IsLineBoundary(s[0]) then [] else [s[0]]) + WithoutBoundaries(s[1..])
  }

  function Concat(lines: seq<string>): string {
    if lines == [] then [] else lines[0] + Concat(lines[1..])
  }

  lemma {:induction false} WithoutBoundariesAppend(a: string, b: string)
    ensures WithoutBoundaries(a + b) == WithoutBoundaries(a) + WithoutBoundaries(b)
  {
    if a == [] {
      assert a + b == b;
    } else {
      assert (a + b)[1..] == a[1..] + b;
      WithoutBoundariesAppend(a[1..], b);
    }
  }

  lemma {:induction false} WithoutBoundariesKeeps(a: string)
    requires NoLineBoundary(a)
    ensures WithoutBoundaries(a) == a
  {
    if a != [] {
      WithoutBoundariesKeeps(a[1..]);
    }
  }

  lemma {:induction false} WithoutBoundariesDrops(a: string)
    requires forall j :: 0 <= j < |a| ==> IsLineBoundary(a[j])
    ensures WithoutBoundaries(a) == []
  {
    if a != [] {
      WithoutBoundariesDrops(a[1..]);
    }
  }

  /** `SplitLines` cuts the first line off at the first boundary, a `\r\n` pair
      counting as one. */
  lemma SplitLinesStep(s: string)
    requires FirstBoundary(s) < |s|
    ensures SplitLines(s) == [s[..FirstBoundary(s)]] + SplitLines(s[AfterBoundary(s, FirstBoundary(s))..])
  {
  }

  lemma WithoutBoundariesSkip(s: string, k: nat)
    requires k < |s| && IsLineBoundary(s[k])
    ensures WithoutBoundaries(s[k..]) == WithoutBoundaries(s[k + 1..])
  {
    assert s[k..][1..] == s[k + 1..];
  }

  /** Dropping the boundaries of a text whose first boundary is at `k` keeps the
      text before `k` and drops the boundary, a `\r\n` pair included. */
  lemma WithoutBoundariesAtBoundary(s: string, k: nat)
    requires k < |s| && NoLineBoundary(s[..k]) && IsLineBoundary(s[k])
    ensures WithoutBoundaries(s) == s[..k] + WithoutBoundaries(s[AfterBoundary(s, k)..])
  {
    assert s[..k] + s[k..] == s;
    WithoutBoundariesAppend(s[..k], s[k..]);
    WithoutBoundariesKeeps(s[..k]);
    WithoutBoundariesSkip(s, k);
    if AfterBoundary(s, k) == k + 2 {
      WithoutBoundariesSkip(s, k + 1);
    }
  }

  lemma ConcatCons(head: string, rest: seq<string>)
    ensures Concat([head] + rest) == head + Concat(rest)
  {
    assert ([head] + rest)[0] == head && ([head] + rest)[1..] == rest;
  }

  /** The step of `SplitLinesLosesOnlyBoundaries` for a text with a line boundary:
      if the rest after the first boundary loses only boundaries, so does the text. */
  lemma SplitLinesLosesOnlyBoundariesStep(s: string)
    requires FirstBoundary(s) < |s|
    requires var next := AfterBoundary(s, FirstBoundary(s));
             Concat(SplitLines(s[next..])) == WithoutBoundaries(s[next..])
    ensures Concat(SplitLines(s)) == WithoutBoundaries(s)
  {
    var k := FirstBoundary(s);
    WithoutBoundariesAtBoundary(s, k);
    SplitLinesStep(s);
    ConcatCons(s[..k], SplitLines(s[AfterBoundary(s, k)..]));
  }

  /** Splitting loses nothing but the boundaries: the lines, put back together,
      are the text with its boundary characters removed. */
  lemma {:induction false} SplitLinesLosesOnlyBoundaries(s: string)
    ensures Concat(SplitLines(s)) == WithoutBoundaries(s)
    decreases |s|
  {
    if s != [] {
      var k := FirstBoundary(s);
      if k == |s| {
        WithoutBoundariesKeeps(s);
        assert s[..k] == s;
        assert Concat([s]) == s + Concat([]);
      } else {
        SplitLinesLosesOnlyBoundaries(s[AfterBoundary(s, k)..]);
        SplitLinesLosesOnlyBoundariesStep(s);
      }
    }
  }

  /** The line boundaries of `s` from left to right, a `\r\n` pair taken as one. */
  function Boundaries(s: string): (bs: seq<string>)
    ensures forall k :: 0 <= k < |bs| ==> bs[k] == "\r\n" || (|bs[k]| == 1 && IsLineBoundary(bs[k][0]))
  {
    if s == [] then []
    else if s[0] == '\r' && |s| > 1 && s[1] == '\n' then ["\r\n"] + Boundaries(s[2..])
    else if IsLineBoundary(s[0]) then [[s[0]]] + Boundaries(s[1..])
    else Boundaries(s[1..])
  }

  /** The lines put back together, each followed by the boundary of the same index. */
  function Join(lines: seq<string>, bs: seq<string>): string {
    if lines == [] then []
    else if bs == [] then lines[0] + Join(lines[1..], [])
    else lines[0] + bs[0] + Join(lines[1..], bs[1..])
  }

  predicate EndsInBoundary(s: string) {
    |s| > 0 && IsLineBoundary(s[|s| - 1])
  }

  lemma {:induction false} BoundariesSkip(s: string, k: nat)
    requires k <= |s| && NoLineBoundary(s[..k])
    ensures Boundaries(s) == Boundaries(s[k..])
  {
    if k > 0 {
      assert !IsLineBoundary(s[..k][0]);
      var t := s[1..];
      assert t[..k - 1] == s[..k][1..] && t[k - 1..] == s[k..];
      BoundariesSkip(t, k - 1);
    }
  }

  /** At a boundary, the first boundary is the text up to where the next line starts. */
  lemma BoundariesAt(s: string, k: nat)
    requires k < |s| && IsLineBoundary(s[k])
    ensures Boundaries(s[k..]) == [s[k..AfterBoundary(s, k)]] + Boundaries(s[AfterBoundary(s, k)..])
  {
    var t, next := s[k..], AfterBoundary(s, k);
    if next == k + 2 {
      assert t[2..] == s[next..] && s[k..next] == "\r\n";
    } else {
      assert t[1..] == s[next..] && s[k..next] == [t[0]];
    }
  }

  /** `splitlines` gives one line per boundary, plus one for a last line that no
      boundary ends. */
  lemma {:induction false} SplitLinesCount(s: string)
    ensures |SplitLines(s)| == |Boundaries(s)| + (if s != [] && !EndsInBoundary(s) then 1 else 0)
    decreases |s|
  {
    if s != [] {
      var k := FirstBoundary(s);
      BoundariesSkip(s, k);
      if k == |s| {
        assert s[..k] == s && s[k..] == [];
      } else {
        var next := AfterBoundary(s, k);
        SplitLinesStep(s);
        SplitLinesCount(s[next..]);
        BoundariesAt(s, k);
        assert s[next..] != [] ==> s[next..][|s[next..]| - 1] == s[|s| - 1];
      }
    }
  }

  lemma JoinCons(line: string, b: string, lines: seq<string>, bs: seq<string>)
    ensures Join([line] + lines, [b] + bs) == line + b + Join(lines, bs)
  {
    assert ([line] + lines)[1..] == lines && ([b] + bs)[1..] == bs;
  }

  lemma ThreeParts(s: string, k: nat, next: nat)
    requires k <= next <= |s|
    ensures s == s[..k] + s[k..next] + s[next..]
  {
  }

  /** `splitlines` cuts the text exactly at its boundaries: line `k` is followed in `s`
      by boundary `k`, and nothing is dropped or reordered. */
  lemma {:induction false} SplitLinesJoin(s: string)
    ensures s == Join(SplitLines(s), Boundaries(s))
    ensures |Boundaries(s)| == |SplitLines(s)| || |Boundaries(s)| + 1 == |SplitLines(s)|
    decreases |s|
  {
    SplitLinesCount(s);
    if s != [] {
      var k := FirstBoundary(s);
      BoundariesSkip(s, k);
      if k == |s| {
        assert SplitLines(s) == [s] && Boundaries(s) == [] by {
          assert s[k..] == [];
        }
        assert Join([s], []) == s + Join([], []);
      } else {
        var next := AfterBoundary(s, k);
        SplitLinesStep(s);
        BoundariesAt(s, k);
        SplitLinesJoin(s[next..]);
        JoinCons(s[..k], s[k..next], SplitLines(s[next..]), Boundaries(s[next..]));
        ThreeParts(s, k, next);
      }
    }
  }

  /** Number of leading whitespace characters of `s`. */
  function LeadingSpaces(s: string): (n: nat)
    ensures n <= |s|
    ensures forall j :: 0 <= j < n ==> IsSpace(s[j])
    ensures n < |s| ==> !IsSpace(s[n])
  {
    if s != [] && IsSpace(s[0]) then 1 + LeadingSpaces(s[1..]) else 0
  }

  /** Number of trailing whitespace characters of `s`. */
  function TrailingSpaces(s: string): (n: nat)
    ensures n <= |s|
    ensures forall j :: |s| - n <= j < |s| ==> IsSpace(s[j])
    ensures n < |s| ==> !IsSpace(s[|s| - 1 - n])
  {
    if s != [] && IsSpace(s[|s| - 1]) then 1 + TrailingSpaces(s[..|s| - 1]) else 0
  }

  predicate AllSpace(s: string) {
    forall j :: 0 <= j < |s| ==> IsSpace(s[j])
  }

  /** Where the text left by `strip` ends: before the trailing whitespace of what
      follows the leading whitespace. */
  function StripEnd(s: string): (e: nat)
    ensures LeadingSpaces(s) <= e <= |s|
  {
    var a := LeadingSpaces(s);
    |s| - TrailingSpaces(s[a..])
  }

  lemma StripEndTrailing(s: string)
    ensures AllSpace(s[StripEnd(s)..])
    ensures LeadingSpaces(s) < StripEnd(s) ==> !IsSpace(s[StripEnd(s) - 1])
  {
    var a, e := LeadingSpaces(s), StripEnd(s);
    var rest := s[a..];
    assert forall j :: e <= j < |s| ==> s[j] == rest[j - a];
    if a < e {
      assert s[e - 1] == rest[|rest| - 1 - TrailingSpaces(rest)];
    }
  }

  lemma StripEndEmpty(s: string)
    ensures LeadingSpaces(s) == StripEnd(s) <==> AllSpace(s)
  {
    var a := LeadingSpaces(s);
    if a < |s| {
      assert s[a..][0] == s[a];
    } else {
      assert s[..a] == s;
    }
  }

  /** `s.strip()`: the slice of `s` left when the whitespace at both ends is cut away;
      it is empty exactly when `s` is all whitespace, and otherwise neither starts
      nor ends with whitespace. */
  function Strip(s: string): (r: string)
    ensures |r| <= |s|
    ensures r == [] <==> AllSpace(s)
    ensures r != [] ==> !IsSpace(r[0]) && !IsSpace(r[|r| - 1])
    ensures var a := LeadingSpaces(s);
            a + |r| <= |s| && r == s[a..a + |r|] && AllSpace(s[..a]) && AllSpace(s[a + |r|..])
  {
    StripEndTrailing(s);
    StripEndEmpty(s);
    s[LeadingSpaces(s)..StripEnd(s)]
  }

  /** `sub` occurs in `s` at index `j`. */
  predicate OccursAt(s: string, sub: string, j: nat) {
    j + |sub| <= |s| && s[j..j + |sub|] == sub
  }

  /** `s.find(sub, i)`: the first index at or after `i` where `sub` occurs
      (`None` stands for Python's `-1`). */
  function Find(s: string, sub: string, i: nat := 0): (r: Option<nat>)
    ensures r.Some? ==> i <= r.value && OccursAt(s, sub, r.value)
    ensures r.Some? ==> forall j :: i <= j < r.value ==> !OccursAt(s, sub, j)
    ensures r.None? ==> forall j :: i <= j ==> !OccursAt(s, sub, j)
    decreases |s| - i
  {
    if i + |sub| > |s| then None
    else if s[i..i + |sub|] == sub then Some(i)
    else Find(s, sub, i + 1)
  }

  /** `s.count(c)` for a one-character argument. */
  function CountChar(s: string, c: char): nat {
    if s == [] then 0
    else (if s[0] == c then 1 else 0) + CountChar(s[1..], c)
  }

  /** `s.count(c)` is the number of occurrences of `c` in `s`. */
  lemma {:induction false} CountCharIsMultiplicity(s: string, c: char)
    ensures CountChar(s, c) == multiset(s)[c]
  {
    if s != [] {
      assert s == [s[0]] + s[1..];
      CountCharIsMultiplicity(s[1..], c);
    }
  }

  /** `len(s) - len(s.lstrip('\t'))`: the number of leading tab characters. */
  function LeadingTabs(s: string): (n: nat)
    ensures n <= |s|
    ensures forall j :: 0 <= j < n ==> s[j] == '\t'
    ensures n < |s| ==> s[n] != '\t'
  {
    if s != [] && s[0] == '\t' then 1 + LeadingTabs(s[1..]) else 0
  }
}
