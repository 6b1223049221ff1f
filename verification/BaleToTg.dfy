/**
 BaleToTgEngine (bridge/textfmt/bale2tg.py): Bale Markdown to plain text and entities
 with code-point offsets.
 */
module BaleToTg {
  import opened Sequences
  import opened Markdown
  import opened Entities
  import Utf16

  /** The text from `pos` on with every match replaced by its body. */
  function PlainFrom(t: string, pos: nat, ms: seq<Match>): string
    requires MatchChain(ms, pos, |t|)
    decreases |ms|
  {
    MatchChainBounds(ms, pos, |t|);
    if ms == [] then t[pos..]
    else t[pos..ms[0].start] + ms[0].body + PlainFrom(t, ms[0].end, ms[1..])
  }

  /** The entities from `pos` on when `out` characters have been emitted so far. */
  function EntitiesFrom(ms: seq<Match>, pos: int, out: int): (ents: seq<PyEntity>)
    ensures |ents| == |ms|
  {
    if ms == [] then []
    else
      var off := out + (ms[0].start - pos);
      [PyEntity(ms[0].style, off, |ms[0].body|)] + EntitiesFrom(ms[1..], ms[0].end, off + |ms[0].body|)
  }

  lemma {:induction false} PlainUncons(t: string, pos: nat, ms: seq<Match>)
    requires MatchChain(ms, pos, |t|) && ms != []
    ensures pos <= ms[0].start <= ms[0].end <= |t| && MatchChain(ms[1..], ms[0].end, |t|)
    ensures PlainFrom(t, pos, ms) == t[pos..ms[0].start] + ms[0].body + PlainFrom(t, ms[0].end, ms[1..])
  {
    MatchChainBounds(ms, pos, |t|);
  }

  lemma {:induction false} EntitiesUncons(ms: seq<Match>, pos: int, out: int)
    requires ms != []
    ensures var m, off := ms[0], out + (ms[0].start - pos);
            var ents := EntitiesFrom(ms, pos, out);
            && ents[0] == PyEntity(m.style, off, |m.body|)
            && ents[1..] == EntitiesFrom(ms[1..], m.end, off + |m.body|)
  {
  }

  function Plain(t: string): string
  {
    FindAllChain(t);
    PlainFrom(t, 0, FindAll(t, 0))
  }

  function ParsedEntities(t: string): seq<PyEntity>
  {
    EntitiesFrom(FindAll(t, 0), 0, 0)
  }

  /** `BaleToTgEngine.convert`. */
  method Convert(text: string) returns (plain: string, ents: seq<PyEntity>)
    ensures plain == Plain(text)
    ensures ents == ParsedEntities(text)
  {
    hide *;
    if text == "" {
      NoMatchesInEmpty();
      return "", [];
    }
    var matches := FindAll(text, 0);
    var parts: seq<string> := [];
    ents := [];
    var pos: nat, curLen: nat := 0, 0;
    NothingParsed(text, matches);
    for i := 0 to |matches|
      invariant pos <= |text| && MatchChain(matches[i..], pos, |text|)
      invariant curLen == |Join(parts)|
      invariant Join(parts) + PlainFrom(text, pos, matches[i..]) == Plain(text)
      invariant ents + EntitiesFrom(matches[i..], pos, curLen) == ParsedEntities(text)
    {
      var m := matches[i];
      ParseOne(text, matches, i, pos, curLen);
      JoinTwo(parts, text[pos..m.start], m.body, PlainFrom(text, m.end, matches[i + 1..]));
      AssociateThree(ents, [PyEntity(m.style, curLen + (m.start - pos), |m.body|)],
                     EntitiesFrom(matches[i + 1..], m.end, curLen + (m.start - pos) + |m.body|));
      parts := parts + [text[pos..m.start]];
      curLen := curLen + (m.start - pos);
      parts := parts + [m.body];
      ents := ents + [PyEntity(m.style, curLen, |m.body|)];
      curLen := curLen + |m.body|;
      pos := m.end;
    }
    assert matches[|matches|..] == [];
    NothingLeft(text, pos, curLen);
    JoinAppend(parts, text[pos..]);
    parts := parts + [text[pos..]];
    plain := Join(parts);
  }

  lemma {:induction false} NothingParsed(text: string, matches: seq<Match>)
    requires matches == FindAll(text, 0)
    ensures MatchChain(matches[0..], 0, |text|) && Join([]) == ""
    ensures Plain(text) == PlainFrom(text, 0, matches[0..]) && ParsedEntities(text) == EntitiesFrom(matches[0..], 0, 0)
  {
    FindAllChain(text);
    assert matches[0..] == matches;
  }

  lemma {:induction false} JoinTwo(parts: seq<string>, gap: string, body: string, rest: string)
    ensures Join(parts) + (gap + body + rest) == Join(parts + [gap] + [body]) + rest
    ensures |Join(parts + [gap] + [body])| == |Join(parts)| + |gap| + |body|
  {
    hide Join;
    JoinAppend(parts, gap);
    JoinAppend(parts + [gap], body);
  }

  /** One match further. */
  lemma {:induction false} ParseOne(text: string, matches: seq<Match>, i: nat, pos: nat, curLen: nat)
    requires i < |matches| && MatchChain(matches[i..], pos, |text|)
    ensures var m, rest := matches[i], matches[i + 1..];
            && pos <= m.start <= m.end <= |text| && MatchChain(rest, m.end, |text|)
            && PlainFrom(text, pos, matches[i..]) == text[pos..m.start] + m.body + PlainFrom(text, m.end, rest)
            && EntitiesFrom(matches[i..], pos, curLen) ==
               [PyEntity(m.style, curLen + (m.start - pos), |m.body|)]
               + EntitiesFrom(rest, m.end, curLen + (m.start - pos) + |m.body|)
  {
    hide *;
    assert matches[i..][0] == matches[i] && matches[i..][1..] == matches[i + 1..];
    PlainUncons(text, pos, matches[i..]);
    EntitiesUncons(matches[i..], pos, curLen);
    var coming := EntitiesFrom(matches[i..], pos, curLen);
    assert coming == [coming[0]] + coming[1..];
  }

  lemma {:induction false} NothingLeft(text: string, pos: nat, curLen: nat)
    requires pos <= |text|
    ensures PlainFrom(text, pos, []) == text[pos..] && EntitiesFrom([], pos, curLen) == []
  {
  }

  lemma {:induction false} NoMatchesInEmpty()
    ensures Plain("") == "" && ParsedEntities("") == []
  {
  }

  /** Entity `k` carries the style of match `k` and covers exactly its body. */
  ghost predicate CoverBodies(plain: string, ents: seq<PyEntity>, ms: seq<Match>)
  {
    && |ents| == |ms|
    && forall k | 0 <= k < |ms| ::
         && 0 <= ents[k].off <= ents[k].off + ents[k].len <= |plain|
         && ents[k].style == ms[k].style
         && plain[ents[k].off..ents[k].off + ents[k].len] == ms[k].body
  }

  lemma {:induction false} EntitiesFromChain(t: string, ms: seq<Match>, pos: nat, out: nat)
    requires MatchChain(ms, pos, |t|)
    ensures Chain(EntitiesFrom(ms, pos, out), out, out + |PlainFrom(t, pos, ms)|)
    decreases |ms|
  {
    if ms != [] {
      MatchChainBounds(ms, pos, |t|);
      var off := out + (ms[0].start - pos);
      EntitiesFromChain(t, ms[1..], ms[0].end, off + |ms[0].body|);
      assert EntitiesFrom(ms, pos, out)[1..] == EntitiesFrom(ms[1..], ms[0].end, off + |ms[0].body|);
    }
  }

  /** Entity `k`, counted from the start of the suffix, covers the body of match `k`. */
  lemma {:induction false} EntitiesFromCover(t: string, ms: seq<Match>, pos: nat, out: nat, k: nat)
    requires MatchChain(ms, pos, |t|) && k < |ms|
    ensures var plain, e := PlainFrom(t, pos, ms), EntitiesFrom(ms, pos, out)[k];
            && 0 <= e.off - out <= e.off - out + e.len <= |plain|
            && e.style == ms[k].style && plain[e.off - out..e.off - out + e.len] == ms[k].body
    decreases |ms|
  {
    hide PlainFrom;
    hide EntitiesFrom;
    var m := ms[0];
    PlainUncons(t, pos, ms);
    EntitiesUncons(ms, pos, out);
    var gap := t[pos..m.start];
    var tail := PlainFrom(t, m.end, ms[1..]);
    if k == 0 {
      SliceOfMiddle(gap, m.body, tail);
    } else {
      var out' := out + |gap| + |m.body|;
      EntitiesFromCover(t, ms[1..], m.end, out', k - 1);
      var e := EntitiesFrom(ms[1..], m.end, out')[k - 1];
    }
  }

  lemma {:induction false} ParsedEntitiesChain(t: string)
    ensures Chain(ParsedEntities(t), 0, |Plain(t)|)
  {
    hide FindAll;
    FindAllChain(t);
    EntitiesFromChain(t, FindAll(t, 0), 0, 0);
  }

  lemma {:induction false} ParsedEntitiesCover(t: string)
    ensures CoverBodies(Plain(t), ParsedEntities(t), FindAll(t, 0))
  {
    hide FindAll;
    hide PlainFrom;
    hide EntitiesFrom;
    FindAllChain(t);
    forall k: nat | k < |FindAll(t, 0)|
      ensures var e := ParsedEntities(t)[k];
              && 0 <= e.off <= e.off + e.len <= |Plain(t)|
              && e.style == FindAll(t, 0)[k].style && Plain(t)[e.off..e.off + e.len] == FindAll(t, 0)[k].body
    {
      EntitiesFromCover(t, FindAll(t, 0), 0, 0, k);
    }
  }

  lemma {:induction false} ParsedLinksHaveUrls(t: string)
    ensures forall e | e in ParsedEntities(t) :: e.style != Link("")
  {
    hide FindAll;
    hide EntitiesFrom;
    hide Occurs;
    FindAllChain(t);
    ParsedEntitiesCover(t);
    forall e | e in ParsedEntities(t)
      ensures e.style != Link("")
    {
      var k :| 0 <= k < |ParsedEntities(t)| && ParsedEntities(t)[k] == e;
      OccurringLinkHasUrl(t, FindAll(t, 0)[k]);
    }
  }

  /**
   For every Markdown string: the entities are non-empty, ordered, disjoint and inside the
   plain text, each covers exactly its matched body, `build_entities` keeps all of them,
   and their UTF-16 intervals are ordered, disjoint and within the text's UTF-16 length.
   */
  lemma {:induction false} ParsedEntitiesAreWellPlaced(t: string)
    ensures Chain(ParsedEntities(t), 0, |Plain(t)|)
    ensures CoverBodies(Plain(t), ParsedEntities(t), FindAll(t, 0))
    ensures forall e | e in ParsedEntities(t) :: e.style != Link("")
    ensures Correspond(Plain(t), ParsedEntities(t), Built(Plain(t), ParsedEntities(t)))
    ensures TgChain(Built(Plain(t), ParsedEntities(t)), 0, Utf16.Len(Plain(t)))
  {
    hide Plain;
    hide ParsedEntities;
    hide FindAll;
    ParsedEntitiesChain(t);
    ParsedEntitiesCover(t);
    ParsedLinksHaveUrls(t);
    BuiltKeepsAll(Plain(t), ParsedEntities(t));
  }
}
