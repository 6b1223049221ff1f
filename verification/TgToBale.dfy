/**
 TgToBaleEngine (bridge/textfmt/tg2bale.py): Telegram text and entities, which may be
 unsorted, overlapping or out of range, to Bale Markdown.
 */
module TgToBale {
  import opened Sequences
  import opened Text
  import opened Markdown
  import opened Entities
  import Sorting
  import Utf16

  /** An entity that will be considered for printing, in code points. */
  datatype Span = Span(start: nat, end: nat, kind: EntityKind)

  /** The span of an entity whose two ends fall on code points and whose class is supported. */
  function SpanOf(text: string, e: TgEntity): Option<Span>
  {
    match (Utf16.Index(text, e.offset), Utf16.Index(text, e.offset + e.length))
    case (Some(start), Some(end)) =>
      if end <= start || e.kind.OtherEntity? then None else Some(Span(start, end, e.kind))
    case _ => None
  }

  function Spans(text: string, entities: seq<TgEntity>): seq<Span>
  {
    if entities == [] then []
    else
      var init := Spans(text, entities[..|entities| - 1]);
      match SpanOf(text, entities[|entities| - 1])
      case Some(s) => init + [s]
      case None => init
  }

  /** The sort key `(start, -end)`: earlier first, and at the same start the longer first. */
  predicate Before(a: Span, b: Span)
  {
    a.start < b.start || (a.start == b.start && b.end <= a.end)
  }

  function SortedSpans(text: string, entities: seq<TgEntity>): seq<Span>
  {
    Sorting.StableSort(Before, Spans(text, entities))
  }

  /** The greedy choice: a span is dropped when it starts before the end of the last one kept. */
  function Kept(spans: seq<Span>, cursor: nat): seq<Span>
  {
    if spans == [] then []
    else if spans[0].start < cursor then Kept(spans[1..], cursor)
    else [spans[0]] + Kept(spans[1..], spans[0].end)
  }

  function StartsWithHttp(chunk: string): bool
  {
    "http" <= Strip(chunk)
  }

  /** How a kept chunk is printed. */
  function Decorate(chunk: string, kind: EntityKind): string
  {
    match kind
    case BoldEntity => Markup(Bold, chunk)
    case ItalicEntity => Markup(Italic, chunk)
    case TextUrlEntity(url) =>
      if StartsWithHttp(chunk) || url == "" then chunk else Markup(Link(url), chunk)
    case UrlEntity => chunk
    case OtherEntity => ""
  }

  /** Spans in order, non-empty, disjoint and within `[from, to]`. */
  predicate SpanChain(spans: seq<Span>, from: nat, to: nat)
  {
    if spans == [] then from <= to
    else from <= spans[0].start < spans[0].end && SpanChain(spans[1..], spans[0].end, to)
  }

  lemma {:induction false} SpanChainBounds(spans: seq<Span>, from: nat, to: nat)
    requires SpanChain(spans, from, to)
    ensures from <= to
    ensures forall k | 0 <= k < |spans| :: from <= spans[k].start < spans[k].end <= to
    ensures forall j, k | 0 <= j < k < |spans| :: spans[j].end <= spans[k].start
  {
    if spans != [] {
      SpanChainBounds(spans[1..], spans[0].end, to);
      assert forall k | 1 <= k < |spans| :: spans[k] == spans[1..][k - 1];
    }
  }

  /** The text from `cursor` on, with the given chunks decorated. */
  function Print(text: string, spans: seq<Span>, cursor: nat): string
    requires SpanChain(spans, cursor, |text|)
  {
    SpanChainBounds(spans, cursor, |text|);
    if spans == [] then text[cursor..]
    else
      var s := spans[0];
      text[cursor..s.start] + Decorate(text[s.start..s.end], s.kind) + Print(text, spans[1..], s.end)
  }

  lemma {:induction false} PrintUncons(text: string, spans: seq<Span>, cursor: nat)
    requires SpanChain(spans, cursor, |text|) && spans != []
    ensures var s := spans[0];
            && cursor <= s.start < s.end <= |text| && SpanChain(spans[1..], s.end, |text|)
            && Print(text, spans, cursor) ==
               text[cursor..s.start] + Decorate(text[s.start..s.end], s.kind) + Print(text, spans[1..], s.end)
  {
    hide Decorate;
    SpanChainBounds(spans, cursor, |text|);
  }

  predicate InText(spans: seq<Span>, n: nat)
  {
    forall s | s in spans :: s.start < s.end <= n
  }

  lemma {:induction false} SpansInText(text: string, entities: seq<TgEntity>)
    ensures InText(Spans(text, entities), |text|)
  {
    if entities != [] {
      SpansInText(text, entities[..|entities| - 1]);
      var e := entities[|entities| - 1];
      Utf16.IndexExact(text, e.offset, 0);
      Utf16.IndexExact(text, e.offset + e.length, 0);
    }
  }

  lemma {:induction false} BeforeIsTotalPreorder()
    ensures Sorting.TotalPreorder(Before)
  {
  }

  lemma {:induction false} SortedSpansInText(text: string, entities: seq<TgEntity>)
    ensures InText(SortedSpans(text, entities), |text|)
    ensures Sorting.Sorted(Before, SortedSpans(text, entities))
    ensures multiset(SortedSpans(text, entities)) == multiset(Spans(text, entities))
  {
    SpansInText(text, entities);
    BeforeIsTotalPreorder();
    Sorting.StableSortCorrect(Before, Spans(text, entities));
    forall s | s in SortedSpans(text, entities)
      ensures s in Spans(text, entities)
    {
      assert s in multiset(SortedSpans(text, entities));
    }
  }

  lemma {:induction false} KeptChain(spans: seq<Span>, cursor: nat, n: nat)
    requires InText(spans, n) && cursor <= n
    ensures SpanChain(Kept(spans, cursor), cursor, n)
  {
    if spans != [] {
      if spans[0].start < cursor {
        KeptChain(spans[1..], cursor, n);
      } else {
        assert spans[0] in spans;
        KeptChain(spans[1..], spans[0].end, n);
      }
    }
  }

  /** The spans the printer decorates. */
  function KeptSpans(text: string, entities: seq<TgEntity>): (kept: seq<Span>)
    ensures SpanChain(kept, 0, |text|)
  {
    SortedSpansInText(text, entities);
    KeptChain(SortedSpans(text, entities), 0, |text|);
    Kept(SortedSpans(text, entities), 0)
  }

  function Printed(text: string, entities: seq<TgEntity>): string
  {
    Print(text, KeptSpans(text, entities), 0)
  }

  /** `TgToBaleEngine.convert`. */
  method Convert(text: string, entities: seq<TgEntity>) returns (markdown: string)
    ensures markdown == Printed(text, entities)
  {
    if text == "" {
      SpanChainBounds(KeptSpans(text, entities), 0, 0);
      return "";
    }
    if entities == [] {
      return text;
    }
    var m := Utf16.IndexMap(text);
    var spans: seq<Span> := [];
    for i := 0 to |entities|
      invariant spans == Spans(text, entities[..i])
    {
      var e := entities[i];
      assert entities[..i + 1][..i] == entities[..i];
      LookupIsIndex(text, m, e.offset);
      LookupIsIndex(text, m, e.offset + e.length);
      if e.offset !in m || e.offset + e.length !in m {
        continue;
      }
      var start, end := m[e.offset], m[e.offset + e.length];
      if end <= start || e.kind.OtherEntity? {
        continue;
      }
      spans := spans + [Span(start, end, e.kind)];
    }
    assert entities[..|entities|] == entities;
    if spans == [] {
      return text;
    }
    spans := Sorting.StableSort(Before, spans);
    markdown := PrintSpans(text, entities, spans);
  }

  lemma {:induction false} LookupIsIndex(text: string, m: map<int, nat>, u: int)
    requires forall i: nat | i <= |text| :: Utf16.Offset(text, i) in m && m[Utf16.Offset(text, i)] == i
    requires forall v | v in m :: m[v] <= |text| && Utf16.Offset(text, m[v]) == v
    ensures Utf16.Index(text, u) == if u in m then Some(m[u]) else None
  {
    if u in m {
      Utf16.IndexExact(text, u, m[u]);
    } else {
      Utf16.IndexFromExact(text, u, 0);
    }
  }

  /** The printing loop of `convert`: keeps, decorates and joins in one pass. */
  method PrintSpans(text: string, entities: seq<TgEntity>, spans: seq<Span>) returns (markdown: string)
    requires spans == SortedSpans(text, entities)
    ensures markdown == Printed(text, entities)
  {
    hide *;
    SortedSpansInText(text, entities);
    NothingPrinted(text, entities);
    JoinNothing();
    var out: seq<string> := [];
    var cursor: nat := 0;
    for i := 0 to |spans|
      invariant InText(spans, |text|) && cursor <= |text|
      invariant Join(out) + PrintFrom(text, spans, i, cursor) == Printed(text, entities)
    {
      var s := spans[i];
      if s.start < cursor {
        PassOver(text, spans, i, cursor);
        continue;
      }
      PrintOne(text, spans, i, cursor);
      var gap, chunk := text[cursor..s.start], text[s.start..s.end];
      var decorated := Decorate(chunk, s.kind);
      Associate(Join(out), gap, decorated, PrintFrom(text, spans, i + 1, s.end));
      JoinAppend(out, gap);
      out := out + [gap];
      JoinAppend(out, decorated);
      out := out + [decorated];
      cursor := s.end;
    }
    PrintedAll(text, spans, cursor);
    JoinAppend(out, text[cursor..]);
    out := out + [text[cursor..]];
    markdown := Join(out);
  }

  /** What is still to be printed. */
  function PrintFrom(text: string, spans: seq<Span>, i: nat, cursor: nat): string
    requires InText(spans, |text|) && i <= |spans| && cursor <= |text|
  {
    KeptChain(spans[i..], cursor, |text|);
    Print(text, Kept(spans[i..], cursor), cursor)
  }

  lemma {:induction false} NothingPrinted(text: string, entities: seq<TgEntity>)
    requires InText(SortedSpans(text, entities), |text|)
    ensures Printed(text, entities) == PrintFrom(text, SortedSpans(text, entities), 0, 0)
  {
    var spans := SortedSpans(text, entities);
    assert spans[0..] == spans;
  }

  lemma {:induction false} PassOver(text: string, spans: seq<Span>, i: nat, cursor: nat)
    requires InText(spans, |text|) && i < |spans| && spans[i].start < cursor <= |text|
    ensures PrintFrom(text, spans, i, cursor) == PrintFrom(text, spans, i + 1, cursor)
  {
    hide Print;
    assert spans[i..][0] == spans[i] && spans[i..][1..] == spans[i + 1..];
  }

  lemma {:induction false} PrintOne(text: string, spans: seq<Span>, i: nat, cursor: nat)
    requires InText(spans, |text|) && i < |spans| && cursor <= spans[i].start
    ensures var s := spans[i];
            && s.start < s.end <= |text|
            && PrintFrom(text, spans, i, cursor) ==
               text[cursor..s.start] + Decorate(text[s.start..s.end], s.kind) + PrintFrom(text, spans, i + 1, s.end)
  {
    hide Decorate;
    hide Print;
    var s := spans[i];
    assert spans[i..][0] == s && spans[i..][1..] == spans[i + 1..] && s in spans;
    KeptChain(spans[i..], cursor, |text|);
    KeptChain(spans[i + 1..], s.end, |text|);
    assert Kept(spans[i..], cursor) == [s] + Kept(spans[i + 1..], s.end);
    hide Kept;
    PrintUncons(text, [s] + Kept(spans[i + 1..], s.end), cursor);
    assert ([s] + Kept(spans[i + 1..], s.end))[1..] == Kept(spans[i + 1..], s.end);
  }

  lemma {:induction false} PrintedAll(text: string, spans: seq<Span>, cursor: nat)
    requires InText(spans, |text|) && cursor <= |text|
    ensures PrintFrom(text, spans, |spans|, cursor) == text[cursor..]
  {
    assert spans[|spans|..] == [];
  }

  /** A piece of the output: a plain gap, or a chunk decorated after its kind. */
  datatype Piece = Gap(raw: string) | Chunk(raw: string, kind: EntityKind)
  {
    function Rendered(): string
    {
      if Gap? then raw else Decorate(raw, kind)
    }
  }

  function Pieces(text: string, spans: seq<Span>, cursor: nat): seq<Piece>
    requires SpanChain(spans, cursor, |text|)
  {
    SpanChainBounds(spans, cursor, |text|);
    if spans == [] then [Gap(text[cursor..])]
    else
      var s := spans[0];
      [Gap(text[cursor..s.start])] + ([Chunk(text[s.start..s.end], s.kind)] + Pieces(text, spans[1..], s.end))
  }

  function RawText(pieces: seq<Piece>): string
  {
    if pieces == [] then "" else pieces[0].raw + RawText(pieces[1..])
  }

  function RenderedText(pieces: seq<Piece>): string
  {
    if pieces == [] then "" else pieces[0].Rendered() + RenderedText(pieces[1..])
  }

  lemma {:induction false} ReadFirst(p: Piece, rest: seq<Piece>)
    ensures RawText([p] + rest) == p.raw + RawText(rest)
    ensures RenderedText([p] + rest) == p.Rendered() + RenderedText(rest)
  {
    assert ([p] + rest)[1..] == rest;
  }

  lemma {:induction false} PiecesUncons(text: string, spans: seq<Span>, cursor: nat)
    requires SpanChain(spans, cursor, |text|) && spans != []
    ensures var s := spans[0];
            && cursor <= s.start < s.end <= |text| && SpanChain(spans[1..], s.end, |text|)
            && Pieces(text, spans, cursor) ==
               [Gap(text[cursor..s.start])] + ([Chunk(text[s.start..s.end], s.kind)] + Pieces(text, spans[1..], s.end))
  {
    SpanChainBounds(spans, cursor, |text|);
  }

  lemma {:induction false} PiecesReadBack(text: string, spans: seq<Span>, cursor: nat)
    requires cursor <= |text| && SpanChain(spans, cursor, |text|)
    ensures RenderedText(Pieces(text, spans, cursor)) == Print(text, spans, cursor)
    ensures RawText(Pieces(text, spans, cursor)) == text[cursor..]
  {
    if spans == [] {
      hide Print;
      PrintNothing(text, cursor);
      ReadFirst(Gap(text[cursor..]), []);
      assert [Gap(text[cursor..])] + [] == [Gap(text[cursor..])];
    } else {
      hide *;
      var s := spans[0];
      PiecesUncons(text, spans, cursor);
      PrintUncons(text, spans, cursor);
      PiecesReadBack(text, spans[1..], s.end);
      var tail := Pieces(text, spans[1..], s.end);
      var gap, chunk := Gap(text[cursor..s.start]), Chunk(text[s.start..s.end], s.kind);
      ReadFirst(gap, [chunk] + tail);
      ReadFirst(chunk, tail);
      RenderedParts(gap, chunk);
      JoinThree(text, cursor, s.start, s.end);
      AssociateThree(gap.raw, Decorate(chunk.raw, s.kind), Print(text, spans[1..], s.end));
    }
  }

  lemma {:induction false} RenderedParts(gap: Piece, chunk: Piece)
    requires gap.Gap? && chunk.Chunk?
    ensures gap.Rendered() == gap.raw && chunk.Rendered() == Decorate(chunk.raw, chunk.kind)
  {
  }

  lemma {:induction false} PrintNothing(text: string, cursor: nat)
    requires cursor <= |text|
    ensures Print(text, [], cursor) == text[cursor..]
  {
  }

  lemma {:induction false} JoinThree(t: string, a: nat, b: nat, c: nat)
    requires a <= b <= c <= |t|
    ensures t[a..b] + t[b..c] + t[c..] == t[a..]
    ensures t[a..b] + (t[b..c] + t[c..]) == t[a..]
  {
  }

  /**
   Whatever the entities are, nothing of the text is lost, repeated or moved: the output
   is a list of gaps and decorated chunks that, undecorated, spells the text, and its
   chunks are exactly the kept spans, in order.
   */
  lemma {:induction false} PrintedIsDecoratedText(text: string, entities: seq<TgEntity>)
    ensures var pieces := Pieces(text, KeptSpans(text, entities), 0);
            RenderedText(pieces) == Printed(text, entities) && RawText(pieces) == text
  {
    PiecesReadBack(text, KeptSpans(text, entities), 0);
  }

  // ------------------------------------------------ the text is in the output

  lemma {:induction false} InsideIsSubsequence(before: string, chunk: string, after: string)
    ensures Subsequence(chunk, before + chunk + after)
  {
    hide Subsequence;
    NothingIsSubsequence(before);
    SubsequenceOfItself(chunk);
    NothingIsSubsequence(after);
    SubsequenceConcat([], before, chunk, chunk);
    SubsequenceConcat([] + chunk, before + chunk, [], after);
    assert [] + chunk + [] == chunk;
  }

  lemma {:induction false} DecorateKeeps(chunk: string, kind: EntityKind)
    requires !kind.OtherEntity?
    ensures Subsequence(chunk, Decorate(chunk, kind))
  {
    hide Subsequence;
    hide StartsWithHttp;
    SubsequenceOfItself(chunk);
    match kind
    case BoldEntity => InsideIsSubsequence("*", chunk, "*");
    case ItalicEntity => InsideIsSubsequence("_", chunk, "_");
    case TextUrlEntity(url) =>
      InsideIsSubsequence("[", chunk, "](" + url + ")");
      assert "[" + chunk + "](" + url + ")" == "[" + chunk + ("](" + url + ")");
    case UrlEntity =>
  }

  lemma {:induction false} SpansAreSupported(text: string, entities: seq<TgEntity>)
    ensures forall s | s in Spans(text, entities) :: !s.kind.OtherEntity?
  {
    if entities != [] {
      SpansAreSupported(text, entities[..|entities| - 1]);
    }
  }

  lemma {:induction false} PrintKeeps(text: string, spans: seq<Span>, cursor: nat)
    requires cursor <= |text| && SpanChain(spans, cursor, |text|) && forall s | s in spans :: !s.kind.OtherEntity?
    ensures Subsequence(text[cursor..], Print(text, spans, cursor))
    decreases |spans|
  {
    hide Subsequence;
    hide Print;
    hide Decorate;
    if spans == [] {
      PrintNothing(text, cursor);
      SubsequenceOfItself(text[cursor..]);
    } else {
      var s := spans[0];
      PrintUncons(text, spans, cursor);
      var gap, chunk := text[cursor..s.start], text[s.start..s.end];
      SubsequenceOfItself(gap);
      DecorateKeeps(chunk, s.kind);
      SubsequenceConcat(gap, gap, chunk, Decorate(chunk, s.kind));
      PrintKeeps(text, spans[1..], s.end);
      SubsequenceConcat(gap + chunk, gap + Decorate(chunk, s.kind), text[s.end..], Print(text, spans[1..], s.end));
      JoinThree(text, cursor, s.start, s.end);
    }
  }

  /** Whatever the entities are, every character of the text is printed, in order: only marks are added. */
  lemma {:induction false} TextIsPrinted(text: string, entities: seq<TgEntity>)
    ensures Subsequence(text, Printed(text, entities))
  {
    hide Subsequence;
    SpansAreSupported(text, entities);
    KeptIsMaximalChoice(text, entities);
    PrintKeeps(text, KeptSpans(text, entities), 0);
    assert text[0..] == text;
  }

  /** A span that is printed without marks: a plain URL, or a link that is one or has no target. */
  predicate Bare(text: string, s: Span)
    requires s.start < s.end <= |text|
  {
    match s.kind
    case UrlEntity => true
    case TextUrlEntity(url) => url == "" || StartsWithHttp(text[s.start..s.end])
    case _ => false
  }

  /** The spans that are printed with marks. */
  function Marked(text: string, spans: seq<Span>, cursor: nat): (r: seq<Span>)
    requires SpanChain(spans, cursor, |text|)
    ensures SpanChain(r, cursor, |text|)
    decreases |spans|
  {
    SpanChainBounds(spans, cursor, |text|);
    if spans == [] then []
    else
      var rest := Marked(text, spans[1..], spans[0].end);
      if Bare(text, spans[0]) then ChainEarlier(rest, cursor, spans[0].end, |text|); rest
      else [spans[0]] + rest
  }

  lemma {:induction false} ChainEarlier(spans: seq<Span>, from: nat, later: nat, to: nat)
    requires SpanChain(spans, later, to) && from <= later
    ensures SpanChain(spans, from, to) && later <= to
  {
    SpanChainBounds(spans, later, to);
  }

  lemma {:induction false} PrintEarlier(text: string, spans: seq<Span>, from: nat, later: nat)
    requires SpanChain(spans, later, |text|) && from <= later <= |text|
    ensures SpanChain(spans, from, |text|)
    ensures Print(text, spans, from) == text[from..later] + Print(text, spans, later)
  {
    hide Decorate;
    hide Print;
    ChainEarlier(spans, from, later, |text|);
    if spans == [] {
      PrintNothing(text, from);
      PrintNothing(text, later);
      JoinThree(text, from, later, |text|);
      assert text[later..|text|] == text[later..] && text[|text|..] == "";
    } else {
      var s := spans[0];
      PrintUncons(text, spans, from);
      PrintUncons(text, spans, later);
      assert text[from..s.start] == text[from..later] + text[later..s.start];
    }
  }

  lemma {:induction false} BareIsPlain(text: string, s: Span)
    requires s.start < s.end <= |text| && Bare(text, s)
    ensures Decorate(text[s.start..s.end], s.kind) == text[s.start..s.end]
  {
  }

  /** What is printed without marks might as well not be a span. */
  lemma {:induction false} PrintMarked(text: string, spans: seq<Span>, cursor: nat)
    requires SpanChain(spans, cursor, |text|)
    ensures Print(text, spans, cursor) == Print(text, Marked(text, spans, cursor), cursor)
    decreases |spans|
  {
    hide Decorate;
    hide Print;
    hide Bare;
    if spans != [] {
      var s := spans[0];
      PrintUncons(text, spans, cursor);
      PrintMarked(text, spans[1..], s.end);
      var rest := Marked(text, spans[1..], s.end);
      if Bare(text, s) {
        BareIsPlain(text, s);
        PrintEarlier(text, rest, cursor, s.end);
        assert text[cursor..s.end] == text[cursor..s.start] + text[s.start..s.end];
      } else {
        assert ([s] + rest)[1..] == rest;
        PrintUncons(text, [s] + rest, cursor);
      }
    }
  }

  /**
   Which entities are considered, and where: exactly those of a supported class whose two
   ends are the UTF-16 offsets of code points, in this order.
   */
  lemma {:induction false} SpanOfExactly(text: string, e: TgEntity, start: nat, end: nat)
    requires start <= |text| && end <= |text|
    ensures SpanOf(text, e) == Some(Span(start, end, e.kind)) <==>
            Utf16.Offset(text, start) == e.offset && Utf16.Offset(text, end) == e.offset + e.length &&
            start < end && e.kind != OtherEntity
    ensures SpanOf(text, e).Some? ==>
              SpanOf(text, e).value.kind == e.kind && SpanOf(text, e).value.start < SpanOf(text, e).value.end <= |text|
  {
    Utf16.IndexExact(text, e.offset, start);
    Utf16.IndexExact(text, e.offset + e.length, end);
  }

  /** `k` is the reason `s` is not printed: `s` starts inside `k` and, at the same start, is not longer. */
  predicate Covers(k: Span, s: Span)
  {
    k.start <= s.start < k.end && (k.start == s.start ==> s.end <= k.end)
  }

  /** `s` starts before the cursor because of a span kept earlier. */
  lemma {:induction false} KeptMaximal(spans: seq<Span>, cursor: nat, last: Option<Span>, s: Span)
    requires Sorting.Sorted(Before, spans) && s in spans && forall x | x in spans :: x.start < x.end
    requires last.None? ==> cursor == 0
    requires last.Some? ==> cursor == last.value.end && forall x | x in spans :: Before(last.value, x)
    ensures s in Kept(spans, cursor) || (last.Some? && Covers(last.value, s))
            || exists k :: k in Kept(spans, cursor) && Covers(k, s)
  {
    var head, tail := spans[0], spans[1..];
    assert head in spans;
    assert forall i, j | 0 <= i < j < |tail| :: tail[i] == spans[i + 1] && tail[j] == spans[j + 1];
    assert forall x | x in tail :: Before(head, x) by {
      forall x | x in tail
        ensures Before(head, x)
      {
        var i :| 0 <= i < |tail| && tail[i] == x;
        assert x == spans[i + 1];
      }
    }
    if head.start < cursor {
      if s != head {
        KeptMaximal(tail, cursor, last, s);
      }
    } else {
      assert Kept(spans, cursor)[0] == head;
      assert Kept(spans, cursor)[1..] == Kept(tail, head.end);
      if s != head {
        KeptMaximal(tail, head.end, Some(head), s);
      }
    }
  }

  lemma {:induction false} KeptFromSpans(spans: seq<Span>, cursor: nat)
    ensures forall k | k in Kept(spans, cursor) :: k in spans
  {
    if spans != [] {
      KeptFromSpans(spans[1..], if spans[0].start < cursor then cursor else spans[0].end);
    }
  }

  /**
   The kept spans are valid spans, ordered and disjoint, and no more could be kept: each
   valid span that is not printed starts inside a kept one (at the same start, the longer
   one wins).
   */
  lemma {:induction false} KeptIsMaximalChoice(text: string, entities: seq<TgEntity>)
    ensures forall k | k in KeptSpans(text, entities) :: k in Spans(text, entities)
    ensures forall i, j | 0 <= i < j < |KeptSpans(text, entities)| ::
              KeptSpans(text, entities)[i].end <= KeptSpans(text, entities)[j].start
    ensures forall s | s in Spans(text, entities) ::
              s in KeptSpans(text, entities) || exists k :: k in KeptSpans(text, entities) && Covers(k, s)
  {
    var sorted := SortedSpans(text, entities);
    SortedSpansInText(text, entities);
    KeptFromSpans(sorted, 0);
    SpanChainBounds(KeptSpans(text, entities), 0, |text|);
    forall s
      ensures s in sorted <==> s in Spans(text, entities)
    {
      assert s in multiset(sorted) <==> s in multiset(Spans(text, entities));
    }
    forall s | s in sorted
      ensures s in KeptSpans(text, entities) || exists k :: k in KeptSpans(text, entities) && Covers(k, s)
    {
      KeptMaximal(sorted, 0, None, s);
    }
  }

  /** No two considered spans have the same ends. */
  ghost predicate DistinctRanges(spans: seq<Span>)
  {
    forall i, j | 0 <= i < j < |spans| :: spans[i].start != spans[j].start || spans[i].end != spans[j].end
  }

  lemma {:induction false} RangesDiffer(a: seq<Span>, b: seq<Span>, i: nat, j: nat)
    requires multiset(a) == multiset(b) && DistinctRanges(a)
    requires i < j < |b|
    ensures b[i].start != b[j].start || b[i].end != b[j].end
  {
    if b[i] == b[j] {
      assert b == b[..i] + [b[i]] + b[i + 1..j] + [b[j]] + b[j + 1..];
      TwoPlaces(a, b[i]);
    } else {
      assert b[i] in multiset(b) && b[j] in multiset(b);
      var p :| 0 <= p < |a| && a[p] == b[i];
      var q :| 0 <= q < |a| && a[q] == b[j];
      assert p < q || q < p;
    }
  }

  lemma {:induction false} DistinctAfterSorting(a: seq<Span>, b: seq<Span>)
    requires multiset(a) == multiset(b) && DistinctRanges(a)
    ensures Sorting.Strict(Before, b)
  {
    forall i, j | 0 <= i < j < |b|
      ensures !(Before(b[i], b[j]) && Before(b[j], b[i]))
    {
      RangesDiffer(a, b, i, j);
    }
  }

  lemma {:induction false} TwoPlaces(a: seq<Span>, x: Span)
    requires multiset(a)[x] >= 2
    ensures exists p, q :: 0 <= p < q < |a| && a[p] == x && a[q] == x
  {
    assert x in multiset(a);
    var p :| 0 <= p < |a| && a[p] == x;
    var rest := a[..p] + a[p + 1..];
    assert a == a[..p] + [x] + a[p + 1..];
    assert multiset(rest)[x] >= 1;
    assert x in rest;
    var q :| 0 <= q < |rest| && rest[q] == x;
    var q' := if q < p then q else q + 1;
    assert a[q'] == x;
    if q' < p {
      assert 0 <= q' < p < |a| && a[q'] == x && a[p] == x;
    } else {
      assert 0 <= p < q' < |a| && a[p] == x && a[q'] == x;
    }
  }

  /** The span of one entity, if it is considered. */
  function SpanOne(text: string, e: TgEntity): multiset<Span>
  {
    match SpanOf(text, e)
    case Some(s) => multiset{s}
    case None => multiset{}
  }

  lemma {:induction false} SpansAppend(text: string, entities: seq<TgEntity>, e: TgEntity)
    ensures multiset(Spans(text, entities + [e])) == multiset(Spans(text, entities)) + SpanOne(text, e)
  {
    assert (entities + [e])[..|entities|] == entities;
    hide SpanOf;
  }

  lemma {:induction false} SpansRemove(text: string, entities: seq<TgEntity>, i: nat)
    requires i < |entities|
    ensures multiset(Spans(text, entities)) == multiset(Spans(text, RemoveAt(entities, i))) + SpanOne(text, entities[i])
    decreases |entities|
  {
    hide Spans;
    hide SpanOne;
    var n := |entities| - 1;
    var init, last := entities[..n], entities[n];
    assert entities == init + [last];
    SpansAppend(text, init, last);
    if i == n {
      RemoveLast(entities);
    } else {
      RemoveBeforeLast(entities, i);
      hide RemoveAt;
      SpansRemove(text, init, i);
      SpansAppend(text, RemoveAt(init, i), last);
    }
  }

  /** The same entities in another order have the same spans. */
  lemma {:induction false} SpansOfPermutation(text: string, a: seq<TgEntity>, b: seq<TgEntity>)
    requires multiset(a) == multiset(b)
    ensures multiset(Spans(text, a)) == multiset(Spans(text, b))
    decreases |a|
  {
    hide Spans;
    hide SpanOne;
    if a == [] {
      assert b == [];
    } else {
      hide RemoveAt;
      var n := |a| - 1;
      assert a[n] in multiset(b);
      var i :| 0 <= i < |b| && b[i] == a[n];
      RemoveAtMultiset(a, n);
      RemoveAtMultiset(b, i);
      assert multiset(RemoveAt(a, n)) == multiset(a) - multiset{a[n]};
      assert multiset(RemoveAt(b, i)) == multiset(b) - multiset{a[n]};
      SpansOfPermutation(text, RemoveAt(a, n), RemoveAt(b, i));
      SpansRemove(text, a, n);
      SpansRemove(text, b, i);
    }
  }

  /**
   When no two considered spans have the same ends, the output does not depend on the
   order in which Telegram lists the entities.
   */
  lemma {:induction false} OutputIgnoresEntityOrder(text: string, a: seq<TgEntity>, b: seq<TgEntity>)
    requires multiset(a) == multiset(b)
    requires DistinctRanges(Spans(text, a))
    ensures Printed(text, a) == Printed(text, b)
  {
    SpansOfPermutation(text, a, b);
    SortedSpansInText(text, a);
    DistinctAfterSorting(Spans(text, a), SortedSpans(text, a));
    BeforeIsTotalPreorder();
    Sorting.SortIgnoresInputOrder(Before, Spans(text, a), Spans(text, b));
  }

  /** The condition is needed: with a tie, the entity listed first wins. */
  lemma {:induction false} TiesFollowEntityOrder()
    ensures var bold, italic := TgEntity(BoldEntity, 0, 1), TgEntity(ItalicEntity, 0, 1);
            Printed("x", [bold, italic]) == "*x*" && Printed("x", [italic, bold]) == "_x_"
  {
    TieCase(BoldEntity, ItalicEntity);
    TieCase(ItalicEntity, BoldEntity);
  }

  lemma {:induction false} TieCase(first: EntityKind, second: EntityKind)
    requires !first.OtherEntity? && !second.OtherEntity?
    ensures Printed("x", [TgEntity(first, 0, 1), TgEntity(second, 0, 1)]) == Decorate("x", first)
  {
    var entities := [TgEntity(first, 0, 1), TgEntity(second, 0, 1)];
    TieSpans(first, second);
    var s, t := Span(0, 1, first), Span(0, 1, second);
    TieSorted(s, t);
    TieKept(s, t);
    assert KeptSpans("x", entities) == [s];
    TiePrinted(s);
  }

  lemma {:induction false} TieSpans(first: EntityKind, second: EntityKind)
    requires !first.OtherEntity? && !second.OtherEntity?
    ensures Spans("x", [TgEntity(first, 0, 1), TgEntity(second, 0, 1)]) == [Span(0, 1, first), Span(0, 1, second)]
  {
    var a, b := TgEntity(first, 0, 1), TgEntity(second, 0, 1);
    assert "x"[..0] == "" && "x"[..1] == "x";
    Utf16.OffsetStep("x", 0);
    Utf16.IndexExact("x", 0, 0);
    Utf16.IndexExact("x", 1, 1);
    assert SpanOf("x", a) == Some(Span(0, 1, first)) && SpanOf("x", b) == Some(Span(0, 1, second));
    assert [a][..0] == [] && [a, b][..1] == [a];
    assert Spans("x", [a]) == [Span(0, 1, first)];
  }

  lemma {:induction false} TieSorted(s: Span, t: Span)
    requires Before(s, t)
    ensures Sorting.StableSort(Before, [s, t]) == [s, t]
  {
    Sorting.StableSortOfSorted(Before, [s, t]);
  }

  lemma {:induction false} TieKept(s: Span, t: Span)
    requires t.start < s.end
    ensures Kept([s, t], 0) == [s]
  {
    assert [s, t][1..] == [t] && [t][1..] == [];
    assert Kept([t], s.end) == Kept([], s.end) == [];
  }

  lemma {:induction false} TiePrinted(s: Span)
    requires s.start == 0 && s.end == 1
    ensures Print("x", [s], 0) == Decorate("x", s.kind)
  {
    assert [s][1..] == [];
    assert "x"[0..0] == "" && "x"[0..1] == "x" && "x"[1..] == "";
    assert Print("x", [], 1) == "";
  }
}
