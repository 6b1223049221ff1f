/**
 The printer and the parser are inverse to each other, in both directions, and exactly
 when: Telegram -> Bale -> Telegram and Bale -> Telegram -> Bale.
 */
module RoundTrip {
  import opened Sequences
  import opened Text
  import opened Markdown
  import opened Entities
  import opened TgToBale
  import BaleToTg
  import Sorting
  import Utf16

  // ------------------------------------------------ spans and entities

  /** The entity is the one printed as the span, seen in code points. */
  predicate SameRange(e: PyEntity, s: Span)
  {
    e.off == s.start && e.off + e.len == s.end && KindOf(e.style) == s.kind
  }

  predicate SameRanges(ents: seq<PyEntity>, spans: seq<Span>)
  {
    if ents == [] || spans == [] then ents == [] && spans == []
    else SameRange(ents[0], spans[0]) && SameRanges(ents[1..], spans[1..])
  }

  lemma {:induction false} SameRangesPointwise(ents: seq<PyEntity>, spans: seq<Span>)
    ensures SameRanges(ents, spans) <==>
            |ents| == |spans| && forall k | 0 <= k < |ents| :: SameRange(ents[k], spans[k])
  {
    if ents != [] && spans != [] {
      SameRangesPointwise(ents[1..], spans[1..]);
      if |ents| == |spans| && forall k | 0 <= k < |ents| :: SameRange(ents[k], spans[k]) {
        forall k | 0 <= k < |ents[1..]|
          ensures SameRange(ents[1..][k], spans[1..][k])
        {
          assert SameRange(ents[k + 1], spans[k + 1]);
        }
      }
      if SameRanges(ents, spans) {
        forall k | 0 <= k < |ents|
          ensures SameRange(ents[k], spans[k])
        {
          assert k > 0 ==> SameRange(ents[1..][k - 1], spans[1..][k - 1]);
        }
      }
    }
  }

  /** Sorted, disjoint, non-empty entities of a supported class that begin and end on code points. */
  predicate WellPlaced(text: string, entities: seq<TgEntity>)
  {
    && TgChain(entities, 0, Utf16.Len(text))
    && forall k | 0 <= k < |entities| :: SpanOf(text, entities[k]).Some?
  }

  lemma {:induction false} SpansOfWellPlaced(text: string, entities: seq<TgEntity>)
    requires forall k | 0 <= k < |entities| :: SpanOf(text, entities[k]).Some?
    ensures |Spans(text, entities)| == |entities|
    ensures forall k | 0 <= k < |entities| :: SpanOf(text, entities[k]) == Some(Spans(text, entities)[k])
  {
    if entities != [] {
      SpansOfWellPlaced(text, entities[..|entities| - 1]);
    }
  }

  lemma {:induction false} OffsetReflects(text: string, i: nat, j: nat)
    requires i <= |text| && j <= |text| && Utf16.Offset(text, i) <= Utf16.Offset(text, j)
    ensures i <= j
  {
    if j < i {
      Utf16.OffsetMonotone(text, j, i);
    }
  }

  lemma {:induction false} SpanOfExact(text: string, e: TgEntity, s: Span)
    requires SpanOf(text, e) == Some(s)
    ensures s.start < s.end <= |text| && s.kind == e.kind
    ensures Utf16.Offset(text, s.start) == e.offset && Utf16.Offset(text, s.end) == e.offset + e.length
  {
    Utf16.IndexExact(text, e.offset, 0);
    Utf16.IndexExact(text, e.offset + e.length, 0);
    Utf16.IndexExact(text, e.offset, s.start);
    Utf16.IndexExact(text, e.offset + e.length, s.end);
  }

  lemma {:induction false} WellPlacedChain(text: string, entities: seq<TgEntity>, spans: seq<Span>, from: nat)
    requires from <= |text| && TgChain(entities, Utf16.Offset(text, from), Utf16.Len(text))
    requires |spans| == |entities| && forall k | 0 <= k < |entities| :: SpanOf(text, entities[k]) == Some(spans[k])
    ensures SpanChain(spans, from, |text|)
    decreases |spans|
  {
    if spans != [] {
      SpanOfExact(text, entities[0], spans[0]);
      OffsetReflects(text, from, spans[0].start);
      WellPlacedChain(text, entities[1..], spans[1..], spans[0].end);
    }
  }

  lemma {:induction false} KeptWhole(spans: seq<Span>, from: nat, to: nat)
    requires SpanChain(spans, from, to)
    ensures Kept(spans, from) == spans
  {
    if spans != [] {
      KeptWhole(spans[1..], spans[0].end, to);
    }
  }

  /** Well-placed entities are all printed, each over its own characters. */
  lemma {:induction false} WellPlacedAllKept(text: string, entities: seq<TgEntity>)
    requires WellPlaced(text, entities)
    ensures KeptSpans(text, entities) == Spans(text, entities)
    ensures |Spans(text, entities)| == |entities|
    ensures forall k | 0 <= k < |entities| :: SpanOf(text, entities[k]) == Some(Spans(text, entities)[k])
  {
    var spans := Spans(text, entities);
    SpansOfWellPlaced(text, entities);
    assert Utf16.Offset(text, 0) == 0;
    WellPlacedChain(text, entities, spans, 0);
    SpanChainBounds(spans, 0, |text|);
    assert Sorting.Sorted(Before, spans);
    Sorting.StableSortOfSorted(Before, spans);
    KeptWhole(spans, 0, |text|);
  }

  lemma {:induction false} BuiltSpan(text: string, e: PyEntity, tg: TgEntity)
    requires BuiltEntity(text, e) == Some(tg)
    ensures SpanOf(text, tg) == Some(Span(e.off, e.off + e.len, KindOf(e.style)))
  {
    Utf16.IndexExact(text, tg.offset, e.off);
    Utf16.IndexExact(text, tg.offset + tg.length, e.off + e.len);
  }

  /** What `build_entities` makes of well-placed parser entities is well placed for the printer. */
  lemma {:induction false} BuiltIsWellPlaced(text: string, ents: seq<PyEntity>, entities: seq<TgEntity>)
    requires Correspond(text, ents, entities) && TgChain(entities, 0, Utf16.Len(text))
    ensures WellPlaced(text, entities)
    ensures SameRanges(ents, KeptSpans(text, entities))
  {
    forall k | 0 <= k < |ents|
      ensures SpanOf(text, entities[k]) == Some(Span(ents[k].off, ents[k].off + ents[k].len, KindOf(ents[k].style)))
    {
      BuiltSpan(text, ents[k], entities[k]);
    }
    WellPlacedAllKept(text, entities);
    SameRangesPointwise(ents, KeptSpans(text, entities));
  }

  lemma {:induction false} BuiltFromSpan(text: string, e: PyEntity, tg: TgEntity, s: Span)
    requires SpanOf(text, tg) == Some(s)
    requires SameRange(e, s) && e.style != Link("")
    ensures BuiltEntity(text, e) == Some(tg)
  {
    SpanOfExact(text, tg, s);
  }

  lemma {:induction false} BuiltFromSpans(text: string, ents: seq<PyEntity>, entities: seq<TgEntity>)
    requires WellPlaced(text, entities) && SameRanges(ents, Spans(text, entities))
    requires forall e | e in ents :: e.style != Link("")
    ensures Built(text, ents) == entities
  {
    WellPlacedAllKept(text, entities);
    var spans := Spans(text, entities);
    SameRangesPointwise(ents, spans);
    forall k | 0 <= k < |ents|
      ensures BuiltEntity(text, ents[k]) == Some(entities[k])
    {
      BuiltFromSpan(text, ents[k], entities[k], spans[k]);
    }
    NothingDropped(text, ents);
  }

  // ------------------------------------------------ Telegram -> Bale -> Telegram

  function StyleOf(kind: EntityKind): (style: Style)
    requires !kind.UrlEntity? && !kind.OtherEntity?
  {
    match kind
    case BoldEntity => Bold
    case ItalicEntity => Italic
    case TextUrlEntity(url) => Link(url)
  }

  /** The chunk is printed with marks, and the pattern reads the marks back. */
  predicate Recoverable(text: string, s: Span)
    requires s.start < s.end <= |text|
  {
    && !s.kind.UrlEntity? && !s.kind.OtherEntity?
    && Allowed(StyleOf(s.kind), text[s.start..s.end])
    && (s.kind.TextUrlEntity? ==> !StartsWithHttp(text[s.start..s.end]))
  }

  predicate Readable(text: string, spans: seq<Span>, cursor: nat)
    requires SpanChain(spans, cursor, |text|)
    decreases |spans|
  {
    SpanChainBounds(spans, cursor, |text|);
    spans == [] || (Recoverable(text, spans[0]) && Readable(text, spans[1..], spans[0].end))
  }

  lemma {:induction false} ReadablePointwise(text: string, spans: seq<Span>, cursor: nat)
    requires SpanChain(spans, cursor, |text|)
    requires forall k | 0 <= k < |spans| :: spans[k].start < spans[k].end <= |text| && Recoverable(text, spans[k])
    ensures Readable(text, spans, cursor)
    decreases |spans|
  {
    if spans != [] {
      assert forall k | 0 <= k < |spans[1..]| :: spans[1..][k] == spans[k + 1];
      ReadablePointwise(text, spans[1..], spans[0].end);
    }
  }

  /** Where the rest of the printed text starts after the first chunk. */
  function ChunkEnd(pos: nat, text: string, s: Span, cursor: nat): nat
    requires cursor <= s.start < s.end <= |text|
  {
    pos + (s.start - cursor) + |Decorate(text[s.start..s.end], s.kind)|
  }

  /**
   No occurrence of the pattern starts in a gap of the printed text `p`: the first gap
   begins at `pos`, each chunk follows its gap.
   */
  predicate GapsQuiet(p: string, pos: nat, text: string, spans: seq<Span>, cursor: nat)
    requires SpanChain(spans, cursor, |text|)
    decreases |spans|
  {
    if spans == [] then Quiet(p, pos, |p|)
    else
      var s := spans[0];
      SpanChainBounds(spans, cursor, |text|);
      && Quiet(p, pos, pos + (s.start - cursor))
      && GapsQuiet(p, ChunkEnd(pos, text, s, cursor), text, spans[1..], s.end)
  }

  /** Where the first gap, the first chunk and the rest sit in the printed text. */
  lemma {:induction false} PrintedLayout(p: string, pos: nat, text: string, spans: seq<Span>, cursor: nat)
    requires SpanChain(spans, cursor, |text|) && spans != []
    requires pos <= |p| && p[pos..] == Print(text, spans, cursor)
    ensures var s := spans[0];
            && cursor <= s.start < s.end <= |text| && SpanChain(spans[1..], s.end, |text|)
            && var d := Decorate(text[s.start..s.end], s.kind);
               var q := pos + (s.start - cursor);
               && q + |d| <= |p|
               && p[q..q + |d|] == d
               && p[q + |d|..] == Print(text, spans[1..], s.end)
  {
    hide Print;
    hide Decorate;
    PrintUncons(text, spans, cursor);
    var s := spans[0];
    var gap, d := text[cursor..s.start], Decorate(text[s.start..s.end], s.kind);
    assert p[pos..|p|] == p[pos..];
    SplitSlice(p, pos, |p|, gap + d, Print(text, spans[1..], s.end));
    SplitSlice(p, pos, pos + |gap + d|, gap, d);
  }

  function FirstExpected(text: string, spans: seq<Span>, cursor: nat, pos: nat): (m: Match)
    requires SpanChain(spans, cursor, |text|) && Readable(text, spans, cursor) && spans != []
    ensures m.start == pos + (spans[0].start - cursor) && |m.body| == spans[0].end - spans[0].start
    ensures KindOf(m.style) == spans[0].kind
    ensures cursor <= spans[0].start < spans[0].end <= |text| && m.body == text[spans[0].start..spans[0].end]
    ensures m.end == ChunkEnd(pos, text, spans[0], cursor)
  {
    SpanChainBounds(spans, cursor, |text|);
    var s := spans[0];
    var chunk, q := text[s.start..s.end], pos + (s.start - cursor);
    Match(q, q + |Decorate(chunk, s.kind)|, StyleOf(s.kind), chunk)
  }

  /** The matches the parser is to find in the printed text. */
  function Expected(text: string, spans: seq<Span>, cursor: nat, pos: nat): seq<Match>
    requires SpanChain(spans, cursor, |text|) && Readable(text, spans, cursor)
    decreases |spans|
  {
    if spans == [] then []
    else
      var m := FirstExpected(text, spans, cursor, pos);
      [m] + Expected(text, spans[1..], spans[0].end, m.end)
  }

  lemma {:induction false} FirstExpectedOccurs(p: string, pos: nat, text: string, spans: seq<Span>, cursor: nat)
    requires SpanChain(spans, cursor, |text|) && Readable(text, spans, cursor) && spans != []
    requires pos <= |p| && p[pos..] == Print(text, spans, cursor)
    ensures var m := FirstExpected(text, spans, cursor, pos);
            Occurs(p, m) && p[m.end..] == Print(text, spans[1..], spans[0].end)
  {
    hide Print;
    hide Decorate;
    hide Recoverable;
    hide Markup;
    PrintedLayout(p, pos, text, spans, cursor);
    RecoverableMarkup(text, spans[0]);
  }

  lemma {:induction false} RecoverableMarkup(text: string, s: Span)
    requires s.start < s.end <= |text| && Recoverable(text, s)
    ensures !s.kind.UrlEntity? && !s.kind.OtherEntity?
    ensures var chunk := text[s.start..s.end];
            Decorate(chunk, s.kind) == Markup(StyleOf(s.kind), chunk) && Allowed(StyleOf(s.kind), chunk)
  {
  }

  lemma {:induction false} ExpectedAreTheMatches(p: string, pos: nat, text: string, spans: seq<Span>, cursor: nat)
    requires SpanChain(spans, cursor, |text|) && Readable(text, spans, cursor)
    requires pos <= |p| && p[pos..] == Print(text, spans, cursor)
    requires GapsQuiet(p, pos, text, spans, cursor)
    ensures LeftmostMatches(p, pos, Expected(text, spans, cursor, pos))
    decreases |spans|
  {
    hide Print;
    hide Decorate;
    hide Recoverable;
    hide Occurs;
    hide Quiet;
    if spans != [] {
      FirstExpectedOccurs(p, pos, text, spans, cursor);
      var m := FirstExpected(text, spans, cursor, pos);
      GapsQuietCons(p, pos, text, spans, cursor);
      ExpectedAreTheMatches(p, m.end, text, spans[1..], spans[0].end);
    }
  }

  lemma {:induction false} EntitiesCons(m: Match, rest: seq<Match>, pos: int, out: int)
    ensures var off := out + (m.start - pos);
            BaleToTg.EntitiesFrom([m] + rest, pos, out) ==
            [PyEntity(m.style, off, |m.body|)] + BaleToTg.EntitiesFrom(rest, m.end, off + |m.body|)
  {
    assert ([m] + rest)[1..] == rest;
  }

  lemma {:induction false} SameRangesCons(e: PyEntity, ents: seq<PyEntity>, spans: seq<Span>)
    requires spans != [] && SameRange(e, spans[0]) && SameRanges(ents, spans[1..])
    ensures SameRanges([e] + ents, spans)
  {
    assert ([e] + ents)[1..] == ents;
  }

  lemma {:induction false} ExpectedEntities(text: string, spans: seq<Span>, cursor: nat, pos: nat)
    requires SpanChain(spans, cursor, |text|) && Readable(text, spans, cursor)
    ensures SameRanges(BaleToTg.EntitiesFrom(Expected(text, spans, cursor, pos), pos, cursor), spans)
    decreases |spans|
  {
    if spans != [] {
      hide *;
      var m := FirstExpected(text, spans, cursor, pos);
      var rest := Expected(text, spans[1..], spans[0].end, m.end);
      ExpectedEntities(text, spans[1..], spans[0].end, m.end);
      ExpectedCons(m, rest, pos, cursor, spans);
    }
  }

  lemma {:induction false} ExpectedCons(m: Match, rest: seq<Match>, pos: nat, cursor: nat, spans: seq<Span>)
    requires spans != [] && KindOf(m.style) == spans[0].kind
    requires m.start == pos + (spans[0].start - cursor) && |m.body| == spans[0].end - spans[0].start
    requires SameRanges(BaleToTg.EntitiesFrom(rest, m.end, spans[0].end), spans[1..])
    ensures SameRanges(BaleToTg.EntitiesFrom([m] + rest, pos, cursor), spans)
  {
    hide *;
    EntitiesCons(m, rest, pos, cursor);
    var e := PyEntity(m.style, spans[0].start, |m.body|);
    SameRangesCons(e, BaleToTg.EntitiesFrom(rest, m.end, spans[0].end), spans);
  }

  lemma {:induction false} SameRangesUncons(ents: seq<PyEntity>, spans: seq<Span>)
    requires SameRanges(ents, spans) && spans != []
    ensures ents != [] && SameRange(ents[0], spans[0]) && SameRanges(ents[1..], spans[1..])
  {
  }

  /** The first match lies on the first chunk: then the chunk is recoverable and the match ends with it. */
  lemma {:induction false} FirstChunkRecoverable(p: string, q: nat, text: string, s: Span, m: Match)
    requires s.start < s.end <= |text|
    requires Occurs(p, m) && m.start == q && |m.body| == s.end - s.start && KindOf(m.style) == s.kind
    requires var d := Decorate(text[s.start..s.end], s.kind);
             q + |d| <= |p| && p[q..q + |d|] == d
    ensures Recoverable(text, s)
    ensures m.end == q + |Decorate(text[s.start..s.end], s.kind)| && m.body == text[s.start..s.end]
  {
    var chunk := text[s.start..s.end];
    var d := Decorate(chunk, s.kind);
    assert p[q..m.end] == Markup(m.style, m.body);
    assert |p[q..m.end]| == m.end - q;
    if s.kind.TextUrlEntity? && StartsWithHttp(chunk) {
      assert p[q] == p[q..m.end][0] == '[';
      assert p[q] == p[q..q + |d|][0] == chunk[0];
      assert Strip(chunk)[0] == 'h';
      StripKeepsFirst(chunk);
    } else {
      assert d == Markup(m.style, chunk);
      assert |d| == |Markup(m.style, m.body)|;
      assert d == Markup(m.style, m.body);
      MarkupInjective(m.style, chunk, m.body);
    }
  }

  lemma {:induction false} MarkupInjective(style: Style, a: string, b: string)
    requires |a| == |b| && Markup(style, a) == Markup(style, b)
    ensures a == b
  {
    assert Markup(style, a)[1..1 + |a|] == a;
    assert Markup(style, b)[1..1 + |b|] == b;
  }

  lemma {:induction false} LeftmostUncons(t: string, pos: nat, ms: seq<Match>)
    requires pos <= |t| && LeftmostMatches(t, pos, ms) && ms != []
    ensures Occurs(t, ms[0]) && pos <= ms[0].start && Quiet(t, pos, ms[0].start) &&
            LeftmostMatches(t, ms[0].end, ms[1..])
  {
    hide Occurs;
    hide Quiet;
  }

  lemma {:induction false} GapsQuietCons(p: string, pos: nat, text: string, spans: seq<Span>, cursor: nat)
    requires SpanChain(spans, cursor, |text|) && spans != []
    requires pos <= |p| && p[pos..] == Print(text, spans, cursor)
    ensures var s := spans[0];
            && cursor <= s.start < s.end <= |text| && SpanChain(spans[1..], s.end, |text|)
            && var r := ChunkEnd(pos, text, s, cursor);
               && r <= |p| && p[r..] == Print(text, spans[1..], s.end)
               && (GapsQuiet(p, pos, text, spans, cursor) <==>
                   Quiet(p, pos, pos + (s.start - cursor)) && GapsQuiet(p, r, text, spans[1..], s.end))
  {
    hide Print;
    hide Decorate;
    hide Quiet;
    PrintedLayout(p, pos, text, spans, cursor);
  }

  /** The first match has the first span's range: it is the first chunk, marks and all. */
  lemma {:induction false} FirstMatchIsFirstChunk(
      p: string, pos: nat, text: string, spans: seq<Span>, cursor: nat, ms: seq<Match>)
    requires SpanChain(spans, cursor, |text|) && spans != []
    requires pos <= |p| && p[pos..] == Print(text, spans, cursor)
    requires LeftmostMatches(p, pos, ms)
    requires SameRanges(BaleToTg.EntitiesFrom(ms, pos, cursor), spans)
    ensures ms != [] && cursor <= spans[0].start < spans[0].end <= |text|
    ensures Recoverable(text, spans[0])
    ensures ms[0].start == pos + (spans[0].start - cursor) && ms[0].end == ChunkEnd(pos, text, spans[0], cursor)
    ensures SameRanges(BaleToTg.EntitiesFrom(ms[1..], ms[0].end, spans[0].end), spans[1..])
  {
    hide *;
    FirstRanges(spans, cursor, ms, pos);
    LeftmostUncons(p, pos, ms);
    PrintedLayout(p, pos, text, spans, cursor);
    ChunkEndIs(pos, text, spans[0], cursor);
    FirstChunkRecoverable(p, pos + (spans[0].start - cursor), text, spans[0], ms[0]);
  }

  /** Comparing the first entity with the first span. */
  lemma {:induction false} FirstRanges(spans: seq<Span>, cursor: nat, ms: seq<Match>, pos: nat)
    requires spans != [] && SameRanges(BaleToTg.EntitiesFrom(ms, pos, cursor), spans)
    ensures ms != []
    ensures ms[0].start == pos + (spans[0].start - cursor) && KindOf(ms[0].style) == spans[0].kind
    ensures |ms[0].body| == spans[0].end - spans[0].start
    ensures SameRanges(BaleToTg.EntitiesFrom(ms[1..], ms[0].end, spans[0].end), spans[1..])
  {
    hide *;
    var ents := BaleToTg.EntitiesFrom(ms, pos, cursor);
    SameRangesUncons(ents, spans);
    BaleToTg.EntitiesUncons(ms, pos, cursor);
  }

  lemma {:induction false} ChunkEndIs(pos: nat, text: string, s: Span, cursor: nat)
    requires cursor <= s.start < s.end <= |text|
    ensures ChunkEnd(pos, text, s, cursor) == pos + (s.start - cursor) + |Decorate(text[s.start..s.end], s.kind)|
  {
  }

  lemma {:induction false} MatchesForceTheCondition(
      p: string, pos: nat, text: string, spans: seq<Span>, cursor: nat, ms: seq<Match>)
    requires SpanChain(spans, cursor, |text|)
    requires pos <= |p| && p[pos..] == Print(text, spans, cursor)
    requires LeftmostMatches(p, pos, ms)
    requires SameRanges(BaleToTg.EntitiesFrom(ms, pos, cursor), spans)
    ensures Readable(text, spans, cursor) && GapsQuiet(p, pos, text, spans, cursor)
    decreases |spans|
  {
    hide Print;
    hide Decorate;
    hide Recoverable;
    hide Quiet;
    hide BaleToTg.EntitiesFrom;
    if spans != [] {
      FirstMatchIsFirstChunk(p, pos, text, spans, cursor, ms);
      LeftmostUncons(p, pos, ms);
      GapsQuietCons(p, pos, text, spans, cursor);
      MatchesForceTheCondition(p, ms[0].end, text, spans[1..], spans[0].end, ms[1..]);
    }
  }

  /** Printing `text` with `entities` and reading the result back gives the same text and the same entities. */
  predicate ReturnsIntact(text: string, entities: seq<TgEntity>)
  {
    var p := Printed(text, entities);
    BaleToTg.Plain(p) == text && Built(text, BaleToTg.ParsedEntities(p)) == entities
  }

  /**
   What a caller can check beforehand: the entities are well placed, every decorated chunk
   is one the pattern accepts (and no link is printed bare), and the pattern does not
   match in the gaps.
   */
  predicate Faithful(text: string, entities: seq<TgEntity>)
  {
    && WellPlaced(text, entities)
    && var spans := KeptSpans(text, entities);
       && Readable(text, spans, 0)
       && GapsQuiet(Printed(text, entities), 0, text, spans, 0)
  }

  lemma {:induction false} PlainCons(t: string, pos: nat, m: Match, rest: seq<Match>)
    requires MatchChain([m] + rest, pos, |t|)
    ensures pos <= m.start <= m.end <= |t| && MatchChain(rest, m.end, |t|)
    ensures BaleToTg.PlainFrom(t, pos, [m] + rest) == t[pos..m.start] + m.body + BaleToTg.PlainFrom(t, m.end, rest)
  {
    assert ([m] + rest)[1..] == rest;
    MatchChainBounds([m] + rest, pos, |t|);
  }

  lemma {:induction false} PlainReadsBack(p: string, pos: nat, text: string, spans: seq<Span>, cursor: nat)
    requires cursor <= |text| && SpanChain(spans, cursor, |text|) && Readable(text, spans, cursor)
    requires pos <= |p| && p[pos..] == Print(text, spans, cursor)
    requires MatchChain(Expected(text, spans, cursor, pos), pos, |p|)
    ensures BaleToTg.PlainFrom(p, pos, Expected(text, spans, cursor, pos)) == text[cursor..]
    decreases |spans|
  {
    hide Print;
    hide Decorate;
    hide Recoverable;
    hide BaleToTg.PlainFrom;
    if spans != [] {
      var s, m := spans[0], FirstExpected(text, spans, cursor, pos);
      FirstExpectedOccurs(p, pos, text, spans, cursor);
      SpanChainBounds(spans, cursor, |text|);
      PlainCons(p, pos, m, Expected(text, spans[1..], s.end, m.end));
      PlainReadsBack(p, m.end, text, spans[1..], s.end);
      FirstGap(p, pos, text, spans, cursor);
      JoinThree(text, cursor, s.start, s.end);
    } else {
      PrintNothing(text, cursor);
      PlainOfNothing(p, pos);
    }
  }

  lemma {:induction false} PlainOfNothing(p: string, pos: nat)
    requires pos <= |p|
    ensures BaleToTg.PlainFrom(p, pos, []) == p[pos..]
  {
  }

  lemma {:induction false} FirstGap(p: string, pos: nat, text: string, spans: seq<Span>, cursor: nat)
    requires SpanChain(spans, cursor, |text|) && spans != []
    requires pos <= |p| && p[pos..] == Print(text, spans, cursor)
    ensures cursor <= spans[0].start <= |text| && pos + (spans[0].start - cursor) <= |p|
    ensures p[pos..pos + (spans[0].start - cursor)] == text[cursor..spans[0].start]
  {
    hide Print;
    hide Decorate;
    PrintUncons(text, spans, cursor);
    var s := spans[0];
    var gap, d := text[cursor..s.start], Decorate(text[s.start..s.end], s.kind);
    assert p[pos..|p|] == p[pos..];
    SplitSlice(p, pos, |p|, gap + d, Print(text, spans[1..], s.end));
    SplitSlice(p, pos, pos + |gap + d|, gap, d);
  }

  lemma {:induction false} FaithfulReturns(text: string, entities: seq<TgEntity>)
    requires Faithful(text, entities)
    ensures ReturnsIntact(text, entities)
  {
    hide Print;
    hide Recoverable;
    hide FindAll;
    var p, spans := Printed(text, entities), KeptSpans(text, entities);
    var ms := Expected(text, spans, 0, 0);
    assert p[0..] == p && text[0..] == text;
    ExpectedAreTheMatches(p, 0, text, spans, 0);
    FindAllExact(p, 0, ms);
    FindAllChain(p);
    PlainReadsBack(p, 0, text, spans, 0);
    ExpectedEntities(text, spans, 0, 0);
    BaleToTg.ParsedEntitiesAreWellPlaced(p);
    WellPlacedAllKept(text, entities);
    BuiltFromSpans(text, BaleToTg.ParsedEntities(p), entities);
  }

  lemma {:induction false} ReturningIsFaithful(text: string, entities: seq<TgEntity>)
    requires ReturnsIntact(text, entities)
    ensures Faithful(text, entities)
  {
    hide Print;
    hide Recoverable;
    hide FindAll;
    var p := Printed(text, entities);
    var ents := BaleToTg.ParsedEntities(p);
    BaleToTg.ParsedEntitiesAreWellPlaced(p);
    BuiltIsWellPlaced(text, ents, entities);
    FindAllIsLeftmost(p, 0);
    assert p[0..] == p;
    MatchesForceTheCondition(p, 0, text, KeptSpans(text, entities), 0, FindAll(p, 0));
  }

  /**
   Telegram -> Bale -> Telegram is the identity on exactly the faithful inputs, among all
   texts and all entity lists.
   */
  lemma {:induction false} TelegramRoundTrip(text: string, entities: seq<TgEntity>)
    ensures ReturnsIntact(text, entities) <==> Faithful(text, entities)
  {
    if ReturnsIntact(text, entities) {
      ReturningIsFaithful(text, entities);
    }
    if Faithful(text, entities) {
      FaithfulReturns(text, entities);
    }
  }

  // ------------------------------------------------ the text of any entities

  /** The spans that are printed with marks. */
  function MarkedSpans(text: string, entities: seq<TgEntity>): (spans: seq<Span>)
    ensures SpanChain(spans, 0, |text|)
  {
    Marked(text, KeptSpans(text, entities), 0)
  }

  /** The parser reads the printed text as the same text, with exactly the marked spans as entities. */
  predicate ReadsBack(text: string, entities: seq<TgEntity>)
  {
    var p := Printed(text, entities);
    BaleToTg.Plain(p) == text && SameRanges(BaleToTg.ParsedEntities(p), MarkedSpans(text, entities))
  }

  /**
   Every marked chunk is one the pattern accepts, and no match opens outside the marked
   chunks: neither in a gap nor in a URL or link that is printed bare.
   */
  predicate Legible(text: string, entities: seq<TgEntity>)
  {
    var spans := MarkedSpans(text, entities);
    Readable(text, spans, 0) && GapsQuiet(Printed(text, entities), 0, text, spans, 0)
  }

  lemma {:induction false} LegibleReadsBack(text: string, entities: seq<TgEntity>)
    requires Legible(text, entities)
    ensures ReadsBack(text, entities)
  {
    hide Print;
    hide Recoverable;
    hide FindAll;
    hide Marked;
    var p, spans := Printed(text, entities), MarkedSpans(text, entities);
    var ms := Expected(text, spans, 0, 0);
    assert p[0..] == p && text[0..] == text;
    PrintMarked(text, KeptSpans(text, entities), 0);
    ExpectedAreTheMatches(p, 0, text, spans, 0);
    FindAllExact(p, 0, ms);
    FindAllChain(p);
    PlainReadsBack(p, 0, text, spans, 0);
    ExpectedEntities(text, spans, 0, 0);
  }

  lemma {:induction false} ReadingBackIsLegible(text: string, entities: seq<TgEntity>)
    requires ReadsBack(text, entities)
    ensures Legible(text, entities)
  {
    hide Print;
    hide Recoverable;
    hide FindAll;
    hide Marked;
    var p, spans := Printed(text, entities), MarkedSpans(text, entities);
    PrintMarked(text, KeptSpans(text, entities), 0);
    FindAllIsLeftmost(p, 0);
    assert p[0..] == p;
    MatchesForceTheCondition(p, 0, text, spans, 0, FindAll(p, 0));
  }

  /**
   For every text and every entity list, well placed or not: the Bale side reads the text
   Telegram sent, with the marked spans as its entities, exactly when the output is legible.
   URLs and bare links keep their text even though they lose their entity.
   */
  lemma {:induction false} TextRoundTrip(text: string, entities: seq<TgEntity>)
    ensures ReadsBack(text, entities) <==> Legible(text, entities)
  {
    if ReadsBack(text, entities) {
      ReadingBackIsLegible(text, entities);
    }
    if Legible(text, entities) {
      LegibleReadsBack(text, entities);
    }
  }

  /** In a text without pattern openers it is enough that each kept chunk is bare or one the pattern accepts. */
  lemma {:induction false} CleanTextSurvives(text: string, entities: seq<TgEntity>)
    requires NoMarks(text)
    requires forall s | s in KeptSpans(text, entities) ::
               s.start < s.end <= |text| && (Bare(text, s) || Recoverable(text, s))
    ensures BaleToTg.Plain(Printed(text, entities)) == text
  {
    hide Print;
    hide Recoverable;
    hide Bare;
    var kept, spans := KeptSpans(text, entities), MarkedSpans(text, entities);
    MarkedAreKept(text, kept, 0);
    SpanChainBounds(spans, 0, |text|);
    ReadablePointwise(text, spans, 0);
    PrintMarked(text, kept, 0);
    assert Printed(text, entities)[0..] == Printed(text, entities);
    NoMarksQuiet(Printed(text, entities), 0, text, spans, 0);
    TextRoundTrip(text, entities);
  }

  lemma {:induction false} MarkedAreKept(text: string, spans: seq<Span>, cursor: nat)
    requires SpanChain(spans, cursor, |text|)
    ensures forall s | s in Marked(text, spans, cursor) :: s in spans && s.start < s.end <= |text| && !Bare(text, s)
    decreases |spans|
  {
    hide Bare;
    SpanChainBounds(spans, cursor, |text|);
    if spans != [] {
      MarkedAreKept(text, spans[1..], spans[0].end);
    }
  }

  // ------------------------------------------------ clean text

  /** The characters that open a pattern do not occur in the text. */
  predicate NoMarks(text: string)
  {
    forall c | c in text :: c != '*' && c != '_' && c != '['
  }

  lemma {:induction false} NoMarksSlice(text: string, a: nat, b: nat)
    requires NoMarks(text) && a <= b <= |text|
    ensures NoMarks(text[a..b])
  {
    forall c | c in text[a..b]
      ensures c in text
    {
    }
  }

  lemma {:induction false} NoMarksNoMatch(p: string, a: nat, b: nat)
    requires a <= b <= |p| && NoMarks(p[a..b])
    ensures Quiet(p, a, b)
  {
    forall i | a <= i < b
      ensures MatchAt(p, i).None?
    {
      assert p[i] == p[a..b][i - a];
      assert p[i] in p[a..b];
    }
  }

  lemma {:induction false} NoMarksQuiet(p: string, pos: nat, text: string, spans: seq<Span>, cursor: nat)
    requires cursor <= |text| && SpanChain(spans, cursor, |text|) && NoMarks(text)
    requires pos <= |p| && p[pos..] == Print(text, spans, cursor)
    ensures GapsQuiet(p, pos, text, spans, cursor)
    decreases |spans|
  {
    hide Print;
    hide Decorate;
    hide Quiet;
    if spans == [] {
      PrintNothing(text, cursor);
      NoMarksSlice(text, cursor, |text|);
      assert p[pos..|p|] == p[pos..] && text[cursor..|text|] == text[cursor..];
      NoMarksNoMatch(p, pos, |p|);
    } else {
      GapsQuietCons(p, pos, text, spans, cursor);
      FirstGap(p, pos, text, spans, cursor);
      NoMarksSlice(text, cursor, spans[0].start);
      NoMarksNoMatch(p, pos, pos + (spans[0].start - cursor));
      NoMarksQuiet(p, ChunkEnd(pos, text, spans[0], cursor), text, spans[1..], spans[0].end);
    }
  }

  /**
   In a text without pattern openers every well-placed list of entities whose chunks the
   pattern accepts survives the trip to Bale and back.
   */
  lemma {:induction false} CleanTextRoundTrip(text: string, entities: seq<TgEntity>)
    requires NoMarks(text) && WellPlaced(text, entities)
    requires forall k | 0 <= k < |entities| ::
               var s := SpanOf(text, entities[k]).value;
               s.start < s.end <= |text| && Recoverable(text, s)
    ensures ReturnsIntact(text, entities)
  {
    var spans := KeptSpans(text, entities);
    WellPlacedAllKept(text, entities);
    SpanChainBounds(spans, 0, |text|);
    assert forall k | 0 <= k < |spans| :: SpanOf(text, entities[k]).value == spans[k];
    ReadablePointwise(text, spans, 0);
    assert Printed(text, entities)[0..] == Printed(text, entities);
    NoMarksQuiet(Printed(text, entities), 0, text, spans, 0);
    TelegramRoundTrip(text, entities);
  }

  // ------------------------------------------------ Bale -> Telegram -> Bale

  predicate BareLink(m: Match)
  {
    m.style.Link? && StartsWithHttp(m.body)
  }

  predicate AllOccur(t: string, ms: seq<Match>)
  {
    ms == [] || (Occurs(t, ms[0]) && AllOccur(t, ms[1..]))
  }

  predicate NoBareLinks(ms: seq<Match>)
  {
    ms == [] || (!BareLink(ms[0]) && NoBareLinks(ms[1..]))
  }

  lemma {:induction false} NoBareLinksPointwise(t: string, ms: seq<Match>)
    ensures NoBareLinks(ms) <==> forall m | m in ms :: !BareLink(m)
    ensures (forall m | m in ms :: Occurs(t, m)) ==> AllOccur(t, ms)
  {
    if ms != [] {
      NoBareLinksPointwise(t, ms[1..]);
      assert ms == [ms[0]] + ms[1..];
    }
  }

  lemma {:induction false} ReprintFirst(t: string, m: Match)
    requires Occurs(t, m)
    ensures var d := Decorate(m.body, KindOf(m.style));
            && |d| <= m.end - m.start
            && (|d| == m.end - m.start <==> !BareLink(m))
            && (!BareLink(m) ==> d == t[m.start..m.end])
  {
    assert |t[m.start..m.end]| == m.end - m.start;
  }

  /** The first span of the parsed text covers the first body. */
  lemma {:induction false} ParsedLayout(t: string, pos: nat, ms: seq<Match>, plain: string, spans: seq<Span>, out: nat)
    requires MatchChain(ms, pos, |t|) && ms != [] && pos <= |t|
    requires out <= |plain| && plain[out..] == BaleToTg.PlainFrom(t, pos, ms)
    requires SpanChain(spans, out, |plain|) && SameRanges(BaleToTg.EntitiesFrom(ms, pos, out), spans)
    ensures spans != [] && ms[0].end <= |t| && spans[0].kind == KindOf(ms[0].style)
    ensures out <= spans[0].start < spans[0].end <= |plain|
    ensures plain[out..spans[0].start] == t[pos..ms[0].start]
    ensures plain[spans[0].start..spans[0].end] == ms[0].body
    ensures plain[spans[0].end..] == BaleToTg.PlainFrom(t, ms[0].end, ms[1..])
    ensures SameRanges(BaleToTg.EntitiesFrom(ms[1..], ms[0].end, spans[0].end), spans[1..])
  {
    hide *;
    var ents := BaleToTg.EntitiesFrom(ms, pos, out);
    BaleToTg.PlainUncons(t, pos, ms);
    BaleToTg.EntitiesUncons(ms, pos, out);
    SameRangesNonEmpty(ents, spans);
    SameRangesUncons(ents, spans);
    SpanChainBounds(spans, out, |plain|);
    assert plain[out..|plain|] == plain[out..];
    SplitSlice(plain, out, |plain|, t[pos..ms[0].start] + ms[0].body, BaleToTg.PlainFrom(t, ms[0].end, ms[1..]));
    SplitSlice(plain, out, spans[0].end, t[pos..ms[0].start], ms[0].body);
  }

  lemma {:induction false} SameRangesNonEmpty(ents: seq<PyEntity>, spans: seq<Span>)
    requires SameRanges(ents, spans) && ents != []
    ensures spans != []
  {
  }

  /** Printing the parsed text again: equal to the original, or shorter by the marks of the bare links. */
  lemma {:induction false} Reprint(
      t: string, pos: nat, ms: seq<Match>, plain: string, spans: seq<Span>, out: nat)
    requires pos <= |t| && MatchChain(ms, pos, |t|) && AllOccur(t, ms)
    requires out <= |plain| && plain[out..] == BaleToTg.PlainFrom(t, pos, ms)
    requires SpanChain(spans, out, |plain|) && SameRanges(BaleToTg.EntitiesFrom(ms, pos, out), spans)
    ensures if NoBareLinks(ms) then Print(plain, spans, out) == t[pos..]
            else |Print(plain, spans, out)| < |t| - pos
    decreases |ms|
  {
    hide Print;
    hide Decorate;
    hide Occurs;
    hide BareLink;
    hide BaleToTg.PlainFrom;
    if ms != [] {
      var m, s := ms[0], spans[0];
      ParsedLayout(t, pos, ms, plain, spans, out);
      Reprint(t, m.end, ms[1..], plain, spans[1..], s.end);
      ReprintFirst(t, m);
      JoinThree(t, pos, m.start, m.end);
      PrintUncons(plain, spans, out);
    } else {
      PrintNothing(plain, out);
      PlainOfNothing(t, pos);
    }
  }

  /**
   Bale -> Telegram -> Bale gives back the Markdown source of every string, except exactly
   those with a link whose text itself starts with "http": these the printer leaves bare.
   */
  lemma {:induction false} BaleRoundTrip(t: string)
    ensures Printed(BaleToTg.Plain(t), Built(BaleToTg.Plain(t), BaleToTg.ParsedEntities(t))) == t
            <==> forall m | m in FindAll(t, 0) :: !BareLink(m)
  {
    var plain, ents := BaleToTg.Plain(t), BaleToTg.ParsedEntities(t);
    BaleToTg.ParsedEntitiesAreWellPlaced(t);
    BuiltIsWellPlaced(plain, ents, Built(plain, ents));
    FindAllChain(t);
    var spans := KeptSpans(plain, Built(plain, ents));
    assert plain[0..] == plain && t[0..] == t;
    NoBareLinksPointwise(t, FindAll(t, 0));
    Reprint(t, 0, FindAll(t, 0), plain, spans, 0);
  }
}
