/** SplitEngine (bridge/textfmt/splitting.py): cutting text to a platform's limit. */
module Splitting {
  import opened Sequences
  import opened Text

  /** Python's `s[:k]`, for any `k`. */
  function PrefixSlice(s: string, k: int): string
  {
    if k < 0 then s[..if |s| + k < 0 then 0 else |s| + k]
    else if k <= |s| then s[..k]
    else s
  }

  const ELLIPSIS := "\U{2026}"

  function Truncate(text: string, limit: int): string
  {
    if |text| <= limit then text else PrefixSlice(text, limit - 1) + ELLIPSIS
  }

  /** The result fits exactly when the text did or there is room for the ellipsis; it then fills the limit. */
  lemma {:induction false} TruncateFits(text: string, limit: int)
    ensures |Truncate(text, limit)| <= limit <==> |text| <= limit || limit >= 1
    ensures |text| > limit >= 1 ==>
              |Truncate(text, limit)| == limit && Truncate(text, limit)[..limit - 1] == text[..limit - 1] &&
              Truncate(text, limit)[limit - 1] == '\U{2026}'
    ensures |text| <= limit ==> Truncate(text, limit) == text
  {
  }

  function JoinHeader(header: string, body: string): string
  {
    if header == "" then body
    else if Strip(body) != "" then header + "\n" + body
    else header
  }

  // ------------------------------------------------ lines

  /** The characters `str.splitlines` breaks at. */
  predicate IsLineBreak(c: char)
  {
    var n := c as int;
    0x0A <= n <= 0x0D || 0x1C <= n <= 0x1E || n == 0x85 || n == 0x2028 || n == 0x2029
  }

  /** The end of the line that `i` is on, break included; `\r\n` is one break. */
  function LineEnd(text: string, i: nat): (end: nat)
    requires i < |text|
    ensures i < end <= |text|
    decreases |text| - i
  {
    if text[i] == '\r' && i + 1 < |text| && text[i + 1] == '\n' then i + 2
    else if IsLineBreak(text[i]) || i + 1 == |text| then i + 1
    else LineEnd(text, i + 1)
  }

  function LinesFrom(text: string, i: nat): seq<string>
    requires i <= |text|
    decreases |text| - i
  {
    if i == |text| then [] else [text[i..LineEnd(text, i)]] + LinesFrom(text, LineEnd(text, i))
  }

  /** `text.splitlines(keepends=True)`. */
  function SplitLines(text: string): seq<string>
  {
    LinesFrom(text, 0)
  }

  predicate NoneEmpty(parts: seq<string>)
  {
    forall i | 0 <= i < |parts| :: parts[i] != ""
  }

  lemma {:induction false} LinesFromJoin(text: string, i: nat)
    requires i <= |text|
    ensures Join(LinesFrom(text, i)) == text[i..]
    ensures NoneEmpty(LinesFrom(text, i))
    decreases |text| - i
  {
    if i < |text| {
      var end := LineEnd(text, i);
      LinesFromJoin(text, end);
      JoinHead(LinesFrom(text, i));
      assert LinesFrom(text, i)[1..] == LinesFrom(text, end);
      assert text[i..] == text[i..end] + text[end..];
    }
  }

  lemma {:induction false} SplitLinesJoin(text: string)
    ensures Join(SplitLines(text)) == text && NoneEmpty(SplitLines(text))
  {
    LinesFromJoin(text, 0);
  }

  // ------------------------------------------------ where parts may be cut

  function Start(parts: seq<string>, i: nat): nat
    requires i <= |parts|
  {
    TotalLength(parts[..i])
  }

  predicate IsMultiple(i: nat, limit: nat)
    requires limit >= 1
  {
    i == 0 || (i >= limit && IsMultiple(i - limit, limit))
  }

  /** A cut at `pos` falls between two lines, or splits an over-long line after a multiple of `limit`. */
  predicate CutAt(lines: seq<string>, limit: nat, pos: nat, j: nat)
    requires j <= |lines| && limit >= 1
  {
    || pos == Start(lines, j)
    || (j < |lines| && |lines[j]| > limit && Start(lines, j) < pos < Start(lines, j) + |lines[j]|
        && IsMultiple(pos - Start(lines, j), limit))
  }

  predicate GoodCut(lines: seq<string>, limit: nat, pos: nat)
    requires limit >= 1
  {
    exists j: nat | j <= |lines| :: CutAt(lines, limit, pos, j)
  }

  ghost predicate GoodCuts(lines: seq<string>, limit: nat, parts: seq<string>)
    requires limit >= 1
  {
    forall i: nat | i <= |parts| :: GoodCut(lines, limit, Start(parts, i))
  }

  predicate Sized(parts: seq<string>, limit: nat)
  {
    forall i | 0 <= i < |parts| :: 1 <= |parts[i]| <= limit
  }

  /** Any three consecutive parts together exceed the limit. */
  predicate Dense(parts: seq<string>, limit: nat)
  {
    forall i | 0 <= i < |parts| - 2 :: |parts[i]| + |parts[i + 1]| + |parts[i + 2]| > limit
  }

  /** The last two parts, or the last part and a pending text of length `pending`, exceed the limit. */
  predicate Tight(parts: seq<string>, limit: nat, pending: nat)
  {
    |parts| >= 2 ==>
      || |parts[|parts| - 2]| + |parts[|parts| - 1]| > limit
      || (pending > 0 && |parts[|parts| - 1]| + pending > limit)
  }

  lemma {:induction false} TightGrows(parts: seq<string>, limit: nat, pending: nat, more: nat)
    requires Tight(parts, limit, pending) || parts == []
    requires pending <= more
    ensures Tight(parts, limit, more)
  {
  }

  lemma {:induction false} TotalAppend(parts: seq<string>, p: string)
    ensures TotalLength(parts + [p]) == TotalLength(parts) + |p|
  {
    assert (parts + [p])[..|parts|] == parts;
  }

  lemma {:induction false} StartAppend(parts: seq<string>, p: string)
    ensures forall i: nat | i <= |parts| :: Start(parts + [p], i) == Start(parts, i)
    ensures Start(parts + [p], |parts| + 1) == TotalLength(parts) + |p|
    ensures TotalLength(parts + [p]) == TotalLength(parts) + |p|
  {
    assert (parts + [p])[..|parts|] == parts;
    assert (parts + [p])[..|parts| + 1] == parts + [p];
    forall i: nat | i <= |parts|
      ensures Start(parts + [p], i) == Start(parts, i)
    {
      assert (parts + [p])[..i] == parts[..i];
    }
  }

  // ------------------------------------------------ cuts, seen in the text

  /** Line feed, the two tabs, carriage return, the separators, next line, and the line and paragraph separators. */
  const LINE_BREAKS := "\n\U{000B}\U{000C}\r\U{001C}\U{001D}\U{001E}\U{0085}\U{2028}\U{2029}"

  /** A line of `text` ends at `pos`, which is not in the middle of `\r\n`. */
  predicate LineEndsAt(text: string, pos: nat)
  {
    || (0 < pos == |text|)
    || (0 < pos < |text| && text[pos - 1] in LINE_BREAKS && !(text[pos - 1] == '\r' && text[pos] == '\n'))
  }

  predicate LineStartsAt(text: string, pos: nat)
  {
    pos == 0 || LineEndsAt(text, pos)
  }

  /** `start` and `end` are the ends of one line. */
  ghost predicate IsLine(text: string, start: nat, end: nat)
  {
    && start < end <= |text| && LineStartsAt(text, start) && LineEndsAt(text, end)
    && forall q | start < q < end :: !LineEndsAt(text, q)
  }

  lemma {:induction false} LineBreaksAre(c: char)
    ensures IsLineBreak(c) <==> c in LINE_BREAKS
  {
    var n := c as int;
    if c in LINE_BREAKS {
      var i :| 0 <= i < |LINE_BREAKS| && LINE_BREAKS[i] == c;
    }
    if IsLineBreak(c) {
      assert LINE_BREAKS[if n <= 0x0D then n - 0x0A else if n <= 0x1E then n - 0x18
                         else if n == 0x85 then 7 else n - 0x2020] == c;
    }
  }

  lemma {:induction false} LineEndExact(text: string, i: nat)
    requires i < |text|
    ensures LineEndsAt(text, LineEnd(text, i)) && forall q | i < q < LineEnd(text, i) :: !LineEndsAt(text, q)
    decreases |text| - i
  {
    LineBreaksAre(text[i]);
    if !IsLineBreak(text[i]) && i + 1 < |text| {
      LineEndExact(text, i + 1);
    } else if i + 1 < |text| {
      LineBreaksAre('\n');
    }
  }

  lemma {:induction false} LinesAreLines(text: string, i: nat, j: nat)
    requires i <= |text| && LineStartsAt(text, i) && j < |LinesFrom(text, i)|
    ensures var lines := LinesFrom(text, i);
            && IsLine(text, i + Start(lines, j), i + Start(lines, j + 1))
            && Start(lines, j + 1) == Start(lines, j) + |lines[j]|
    decreases |text| - i
  {
    hide IsLine;
    hide LineEndsAt;
    hide Start;
    var lines, end := LinesFrom(text, i), LineEnd(text, i);
    LineEndExact(text, i);
    assert lines[0] == text[i..end] && lines[1..] == LinesFrom(text, end);
    hide LinesFrom;
    if j == 0 {
      FirstStart(lines);
      FirstIsLine(text, i);
    } else {
      EndsAreStarts(text, end);
      LinesAreLines(text, end, j - 1);
      StartTail(lines, j);
      StartTail(lines, j + 1);
    }
  }

  lemma {:induction false} FirstStart(lines: seq<string>)
    requires lines != []
    ensures Start(lines, 0) == 0 && Start(lines, 1) == |lines[0]|
  {
    assert lines[..0] == [] && lines[..1] == [] + [lines[0]];
    TotalAppend([], lines[0]);
  }

  lemma {:induction false} FirstIsLine(text: string, i: nat)
    requires i < |text| && LineStartsAt(text, i)
    ensures IsLine(text, i, LineEnd(text, i))
  {
    LineEndExact(text, i);
  }

  lemma {:induction false} EndsAreStarts(text: string, pos: nat)
    requires LineEndsAt(text, pos)
    ensures LineStartsAt(text, pos)
  {
  }

  lemma {:induction false} StartTail(lines: seq<string>, j: nat)
    requires 0 < j <= |lines|
    ensures Start(lines, j) == |lines[0]| + Start(lines[1..], j - 1)
  {
    hide Join;
    assert lines[..j] == [lines[0]] + lines[1..][..j - 1];
    JoinLength(lines[..j]);
    JoinLength(lines[1..][..j - 1]);
    JoinHead(lines[..j]);
    assert lines[..j][1..] == lines[1..][..j - 1];
  }

  /** A cut between two lines, or in a line too long for the limit, a multiple of the limit after its start. */
  ghost predicate CutInText(text: string, limit: nat, pos: nat)
    requires limit >= 1
  {
    || LineStartsAt(text, pos)
    || exists start: nat, end: nat ::
         start < pos < end && IsLine(text, start, end) && end - start > limit && IsMultiple(pos - start, limit)
  }

  lemma {:induction false} LinesStart(text: string, j: nat)
    requires j <= |SplitLines(text)|
    ensures LineStartsAt(text, Start(SplitLines(text), j))
  {
    var lines := SplitLines(text);
    if j > 0 {
      LinesAreLines(text, 0, j - 1);
    } else {
      assert lines[..0] == [];
    }
  }

  /** So the cuts of `split_text` have their places in the text. */
  lemma {:induction false} GoodCutInText(text: string, limit: nat, pos: nat)
    requires limit >= 1 && GoodCut(SplitLines(text), limit, pos)
    ensures CutInText(text, limit, pos)
  {
    hide IsLine;
    hide LineStartsAt;
    hide Start;
    var lines := SplitLines(text);
    var j: nat :| j <= |lines| && CutAt(lines, limit, pos, j);
    if pos == Start(lines, j) {
      LinesStart(text, j);
    } else {
      FirstLineStarts(text);
      LinesAreLines(text, 0, j);
      assert IsLine(text, Start(lines, j), Start(lines, j + 1));
    }
  }

  lemma {:induction false} FirstLineStarts(text: string)
    ensures LineStartsAt(text, 0)
  {
  }

  lemma {:induction false} PartsCutInText(text: string, limit: nat, parts: seq<string>)
    requires limit >= 1 && GoodCuts(SplitLines(text), limit, parts)
    ensures forall i: nat | i <= |parts| :: CutInText(text, limit, Start(parts, i))
  {
    hide GoodCut;
    hide CutInText;
    forall i: nat | i <= |parts|
      ensures CutInText(text, limit, Start(parts, i))
    {
      GoodCutInText(text, limit, Start(parts, i));
    }
  }

  lemma {:induction false} GoodCutsAppend(lines: seq<string>, limit: nat, parts: seq<string>, p: string)
    requires limit >= 1 && GoodCuts(lines, limit, parts) && GoodCut(lines, limit, TotalLength(parts) + |p|)
    ensures GoodCuts(lines, limit, parts + [p])
  {
    hide GoodCut;
    StartAppend(parts, p);
    assert parts[..|parts|] == parts;
    forall i: nat | i <= |parts + [p]|
      ensures GoodCut(lines, limit, Start(parts + [p], i))
    {
      assert i <= |parts| || i == |parts| + 1;
    }
  }

  lemma {:induction false} LineStart(lines: seq<string>, limit: nat, n: nat)
    requires limit >= 1 && n <= |lines|
    ensures GoodCut(lines, limit, Start(lines, n))
    ensures n < |lines| ==> Start(lines, n + 1) == Start(lines, n) + |lines[n]|
  {
    assert CutAt(lines, limit, Start(lines, n), n);
    if n < |lines| {
      assert lines[..n + 1][..n] == lines[..n];
    }
  }

  // ------------------------------------------------ split_text

  /** What `split_text` accumulates: the finished parts, cut well, sized and dense. */
  ghost predicate Packed(lines: seq<string>, limit: nat, parts: seq<string>)
    requires limit >= 1
  {
    GoodCuts(lines, limit, parts) && Sized(parts, limit) && Dense(parts, limit)
  }

  lemma {:induction false} PackOne(lines: seq<string>, limit: nat, parts: seq<string>, p: string)
    requires limit >= 1 && Packed(lines, limit, parts) && 1 <= |p| <= limit
    requires Tight(parts, limit, |p|)
    requires GoodCut(lines, limit, TotalLength(parts) + |p|)
    ensures Packed(lines, limit, parts + [p])
  {
    hide GoodCuts;
    hide GoodCut;
    hide TotalLength;
    GoodCutsAppend(lines, limit, parts, p);
  }

  lemma {:induction false} PackedMeans(lines: seq<string>, limit: nat, parts: seq<string>)
    requires limit >= 1 && Packed(lines, limit, parts)
    ensures GoodCuts(lines, limit, parts) && Dense(parts, limit) && NoneEmpty(parts)
    ensures forall i | 0 <= i < |parts| :: |parts[i]| <= limit
  {
    hide GoodCuts;
  }

  lemma {:induction false} NothingPacked(lines: seq<string>, limit: nat)
    requires limit >= 1
    ensures Packed(lines, limit, []) && TotalLength([]) == Start(lines, 0) == 0
  {
    hide GoodCut;
    LineStart(lines, limit, 0);
    assert lines[..0] == [];
  }

  /** One piece `line[i..end]` of a hard cut goes behind `parts`. */
  lemma {:induction false} CutPiece(lines: seq<string>, limit: nat, parts: seq<string>, n: nat, i: nat, end: nat)
    requires limit >= 1 && n < |lines| && limit < |lines[n]|
    requires i < end <= |lines[n]| && end - i <= limit
    requires end < |lines[n]| ==> IsMultiple(end, limit)
    requires Packed(lines, limit, parts) && TotalLength(parts) == Start(lines, n) + i
    requires Tight(parts, limit, end - i)
    ensures Packed(lines, limit, parts + [lines[n][i..end]])
    ensures TotalLength(parts + [lines[n][i..end]]) == Start(lines, n) + end
    ensures Join(parts + [lines[n][i..end]]) == Join(parts) + lines[n][i..end]
  {
    hide Packed;
    var piece := lines[n][i..end];
    LineStart(lines, limit, n);
    LineStart(lines, limit, n + 1);
    assert GoodCut(lines, limit, Start(lines, n) + end) by {
      if end < |lines[n]| {
        assert CutAt(lines, limit, Start(lines, n) + end, n);
      }
    }
    PackOne(lines, limit, parts, piece);
    StartAppend(parts, piece);
  }

  lemma {:induction false} GrowPrefix(a: string, line: string, i: nat, end: nat)
    requires i <= end <= |line|
    ensures a + line[..i] + line[i..end] == a + line[..end]
    ensures a + line[..0] == a && line[..|line|] == line
  {
  }

  /**
   The hard cut of an over-long line: pieces of exactly `limit` characters, the last one
   possibly shorter. There are at least two.
   */
  method CutLine(lines: seq<string>, limit: nat, before: seq<string>, n: nat) returns (parts: seq<string>)
    requires limit >= 1 && n < |lines| && |lines[n]| > limit
    requires Packed(lines, limit, before) && TotalLength(before) == Start(lines, n)
    requires Tight(before, limit, limit)
    ensures Packed(lines, limit, parts)
    ensures Join(parts) == Join(before) + lines[n] && TotalLength(parts) == Start(lines, n + 1)
    ensures Tight(parts, limit, 0)
  {
    hide Packed;
    hide GoodCut;
    var line := lines[n];
    parts := before;
    var i: nat := 0;
    LineStart(lines, limit, n);
    GrowPrefix(Join(before), line, 0, 0);
    while i < |line|
      invariant i < |line| ==> IsMultiple(i, limit)
      invariant TotalLength(parts) == Start(lines, n) + (if i < |line| then i else |line|)
      invariant Join(parts) == Join(before) + line[..if i < |line| then i else |line|]
      invariant Packed(lines, limit, parts)
      invariant i == 0 ==> Tight(parts, limit, limit)
      invariant 0 < i < |line| ==> parts != [] && |parts[|parts| - 1]| == limit
      invariant i >= |line| ==> Tight(parts, limit, 0)
    {
      var end := if i + limit < |line| then i + limit else |line|;
      assert end < |line| ==> IsMultiple(end, limit);
      CutPiece(lines, limit, parts, n, i, end);
      GrowPrefix(Join(before), line, i, end);
      parts := parts + [line[i..end]];
      i := i + limit;
    }
  }

  /** The state after `n` lines: finished parts and the lines pending for the next one. */
  ghost predicate Packing(lines: seq<string>, limit: nat, n: nat, parts: seq<string>, buf: seq<string>)
    requires limit >= 1
  {
    && n <= |lines|
    && Packed(lines, limit, parts)
    && Join(parts) + Join(buf) == Join(lines[..n])
    && TotalLength(parts) + |Join(buf)| == Start(lines, n)
    && |Join(buf)| <= limit
    && (Join(buf) == "" <==> buf == [])
  }

  lemma {:induction false} PackingStarts(lines: seq<string>, limit: nat)
    requires limit >= 1
    ensures Packing(lines, limit, 0, [], [])
  {
    hide Packed;
    NothingPacked(lines, limit);
    assert lines[..0] == [];
  }

  /** The pending lines become a part, because the next line (or piece) does not fit behind them. */
  lemma {:induction false} FlushStep(
      lines: seq<string>, limit: nat, n: nat, parts: seq<string>, buf: seq<string>, next: nat)
    requires limit >= 1 && Packing(lines, limit, n, parts, buf) && buf != []
    requires Tight(parts, limit, |Join(buf)|)
    ensures Packing(lines, limit, n, parts + [Join(buf)], [])
    ensures |Join(buf)| + next > limit && next > 0 ==> Tight(parts + [Join(buf)], limit, next)
  {
    hide Packed;
    hide GoodCut;
    LineStart(lines, limit, n);
    PackOne(lines, limit, parts, Join(buf));
    TotalAppend(parts, Join(buf));
  }

  lemma {:induction false} AppendStep(lines: seq<string>, limit: nat, n: nat, parts: seq<string>, buf: seq<string>)
    requires limit >= 1 && Packing(lines, limit, n, parts, buf)
    requires n < |lines| && lines[n] != "" && |Join(buf)| + |lines[n]| <= limit
    ensures |Join(buf + [lines[n]])| == |Join(buf)| + |lines[n]|
    ensures Packing(lines, limit, n + 1, parts, buf + [lines[n]])
  {
    hide Packed;
    hide GoodCut;
    LineStart(lines, limit, n);
    assert lines[..n + 1] == lines[..n] + [lines[n]];
    AssociateThree(Join(parts), Join(buf), lines[n]);
  }

  lemma {:induction false} NextLine(lines: seq<string>, n: nat)
    requires n < |lines|
    ensures Join(lines[..n + 1]) == Join(lines[..n]) + lines[n]
  {
    assert lines[..n + 1] == lines[..n] + [lines[n]];
    JoinAppend(lines[..n], lines[n]);
  }

  lemma {:induction false} NothingPending(lines: seq<string>, limit: nat, n: nat, parts: seq<string>)
    requires limit >= 1
    ensures Packing(lines, limit, n, parts, []) <==>
            (n <= |lines| && Packed(lines, limit, parts) && Join(parts) == Join(lines[..n]) &&
             TotalLength(parts) == Start(lines, n))
  {
    hide Packed;
    hide Start;
    hide TotalLength;
    assert Join([]) == "";
    hide Join;
    assert Join(parts) + "" == Join(parts);
  }

  lemma {:induction false} CutStep(lines: seq<string>, limit: nat, n: nat, before: seq<string>, parts: seq<string>)
    requires limit >= 1 && Packing(lines, limit, n, before, []) && n < |lines|
    requires Packed(lines, limit, parts)
    requires Join(parts) == Join(before) + lines[n] && TotalLength(parts) == Start(lines, n + 1)
    ensures Packing(lines, limit, n + 1, parts, [])
  {
    NothingPending(lines, limit, n, before);
    hide *;
    NextLine(lines, n);
    NothingPending(lines, limit, n + 1, parts);
  }

  lemma {:induction false} PackingEnds(lines: seq<string>, limit: nat, parts: seq<string>)
    requires limit >= 1 && Packing(lines, limit, |lines|, parts, [])
    ensures Packed(lines, limit, parts) && Join(parts) == Join(lines)
  {
    hide Packed;
    assert lines[..|lines|] == lines;
  }

  lemma {:induction false} PackingForCut(lines: seq<string>, limit: nat, n: nat, parts: seq<string>)
    requires limit >= 1 && Packing(lines, limit, n, parts, [])
    ensures n <= |lines| && Packed(lines, limit, parts) && TotalLength(parts) == Start(lines, n)
  {
    hide Packed;
  }

  /**
   `split_text`. Nothing is lost or reordered, no part exceeds the limit or is empty (but
   for the empty text), lines that fit are never cut, and the parts are dense.
   */
  method SplitText(text: string, limit: nat) returns (parts: seq<string>)
    requires limit >= 1
    ensures Join(parts) == text
    ensures forall i | 0 <= i < |parts| :: |parts[i]| <= limit
    ensures text == "" ==> parts == [""]
    ensures text != "" ==> NoneEmpty(parts)
    ensures GoodCuts(SplitLines(text), limit, parts)
    ensures forall i: nat | i <= |parts| :: CutInText(text, limit, Start(parts, i))
    ensures Dense(parts, limit)
  {
    hide *;
    JoinNothing();
    var lines := SplitLines(text);
    SplitLinesJoin(text);
    if |text| <= limit {
      SinglePart(lines, limit, text);
      PartsCutInText(text, limit, [text]);
      return [text];
    }
    parts := [];
    var buf: seq<string> := [];
    var size: nat := 0;
    PackingStarts(lines, limit);
    TightGrows([], limit, 0, 0);
    for n := 0 to |lines|
      invariant Packing(lines, limit, n, parts, buf)
      invariant size == |Join(buf)| && (size == 0 <==> buf == [])
      invariant Tight(parts, limit, size)
    {
      var line := lines[n];
      if size + |line| > limit && buf != [] {
        FlushStep(lines, limit, n, parts, buf, if |line| > limit then limit else |line|);
        parts := parts + [Join(buf)];
        buf, size := [], 0;
      } else {
        TightGrows(parts, limit, size, if |line| > limit then limit else size + |line|);
      }
      if |line| > limit {
        PackingForCut(lines, limit, n, parts);
        var cut := CutLine(lines, limit, parts, n);
        CutStep(lines, limit, n, parts, cut);
        parts := cut;
        continue;
      }
      AppendStep(lines, limit, n, parts, buf);
      buf := buf + [line];
      size := size + |line|;
    }
    if buf != [] {
      FlushStep(lines, limit, |lines|, parts, buf, 0);
      parts := parts + [Join(buf)];
    }
    PackingEnds(lines, limit, parts);
    PackedMeans(lines, limit, parts);
    PartsCutInText(text, limit, parts);
    assert parts != [];
  }

  lemma {:induction false} SinglePart(lines: seq<string>, limit: nat, text: string)
    requires limit >= 1 && Join(lines) == text
    ensures GoodCuts(lines, limit, [text]) && Join([text]) == text && Dense([text], limit)
    ensures text != "" ==> NoneEmpty([text])
  {
    hide GoodCut;
    assert lines[..0] == [] && lines[..|lines|] == lines;
    JoinLength(lines);
    LineStart(lines, limit, 0);
    LineStart(lines, limit, |lines|);
    OnePart(text);
    hide Start;
    hide Join;
  }

  lemma {:induction false} OnePart(text: string)
    ensures Start([text], 0) == 0 && Start([text], 1) == |text| && Join([text]) == text
  {
    assert [] + [text] == [text] && [text][..0] == [] && [text][..1] == [text];
    JoinAppend([], text);
    JoinLength([text]);
  }

  lemma {:induction false} DensePrefix(parts: seq<string>, limit: nat)
    requires Dense(parts, limit) && |parts| >= 3
    ensures Dense(parts[..|parts| - 3], limit)
    ensures var n := |parts|; |parts[n - 3]| + |parts[n - 2]| + |parts[n - 1]| > limit
  {
    var n := |parts|;
    assert |parts[n - 3]| + |parts[n - 3 + 1]| + |parts[n - 3 + 2]| > limit;
  }

  lemma {:induction false} LastTriple(parts: seq<string>, limit: nat)
    requires Dense(parts, limit) && |parts| >= 3
    ensures Dense(parts[..|parts| - 3], limit)
    ensures TotalLength(parts) > TotalLength(parts[..|parts| - 3]) + limit
  {
    hide *;
    DensePrefix(parts, limit);
    var n := |parts|;
    var rest := parts[..n - 3];
    assert parts[..n - 2] == rest + [parts[n - 3]] && parts[..n - 1] == parts[..n - 2] + [parts[n - 2]];
    assert parts == parts[..n - 1] + [parts[n - 1]];
    TotalAppend(rest, parts[n - 3]);
    TotalAppend(parts[..n - 2], parts[n - 2]);
    TotalAppend(parts[..n - 1], parts[n - 1]);
  }

  lemma {:induction false} OneMoreTriple(n: nat, limit: nat, length: nat)
    requires (n / 3) * (limit + 1) <= length
    ensures ((n + 3) / 3) * (limit + 1) <= length + limit + 1
  {
    assert (n + 3) / 3 == n / 3 + 1;
    assert (n / 3 + 1) * (limit + 1) == (n / 3) * (limit + 1) + (limit + 1);
  }

  /** Density bounds the number of parts: every three of them carry more than `limit` characters. */
  lemma {:induction false} PartCountBound(parts: seq<string>, limit: nat)
    requires Dense(parts, limit)
    ensures (|parts| / 3) * (limit + 1) <= TotalLength(parts)
  {
    if |parts| >= 3 {
      hide *;
      var rest := parts[..|parts| - 3];
      LastTriple(parts, limit);
      PartCountBound(rest, limit);
      OneMoreTriple(|rest|, limit, TotalLength(rest));
      assert |parts| == |rest| + 3;
    }
  }
}
