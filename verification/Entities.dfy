/**
 Formatting entities on both sides: Telegram's, in UTF-16 units, and the parser's, in
 code points; `BuildEntities` (bridge/transfer/types_map.py) turns the latter into the
 former.
 */
module Entities {
  import opened Sequences
  import opened Markdown
  import Utf16

  /** Telegram's entity classes, as far as the bridge tells them apart. */
  datatype EntityKind = BoldEntity | ItalicEntity | TextUrlEntity(url: string) | UrlEntity | OtherEntity

  datatype TgEntity = TgEntity(kind: EntityKind, offset: int, length: int)

  /** The parser's `(type, offset, length, url)`. */
  datatype PyEntity = PyEntity(style: Style, off: int, len: int)

  function KindOf(style: Style): EntityKind
  {
    match style
    case Bold => BoldEntity
    case Italic => ItalicEntity
    case Link(url) => TextUrlEntity(url)
  }

  /** The Telegram entity for one parser entity; None when `build_entities` drops it. */
  function BuiltEntity(text: string, e: PyEntity): Option<TgEntity>
  {
    if e.off < 0 || e.off + e.len > |text| || e.len <= 0 || e.style == Link("") then None
    else
      var start := Utf16.Offset(text, e.off);
      Some(TgEntity(KindOf(e.style), start, Utf16.Offset(text, e.off + e.len) - start))
  }

  lemma {:induction false} SurvivesExactly(text: string, e: PyEntity)
    ensures BuiltEntity(text, e).Some? <==>
            0 <= e.off && e.off + e.len <= |text| && 0 < e.len && e.style != Link("")
  {
  }

  function Built(text: string, ents: seq<PyEntity>): seq<TgEntity>
  {
    if ents == [] then []
    else
      var init := Built(text, ents[..|ents| - 1]);
      match BuiltEntity(text, ents[|ents| - 1])
      case Some(e) => init + [e]
      case None => init
  }

  /** `build_entities`. */
  method BuildEntities(text: string, ents: seq<PyEntity>) returns (out: seq<TgEntity>)
    ensures out == Built(text, ents)
  {
    if ents == [] {
      return [];
    }
    var p2u: map<int, int> := map[];
    var u: int := 0;
    for i := 0 to |text|
      invariant u == Utf16.Offset(text, i)
      invariant forall k: nat | k < i :: k in p2u && p2u[k] == Utf16.Offset(text, k)
    {
      p2u := p2u[i := u];
      Utf16.OffsetStep(text, i);
      u := u + Utf16.Width(text[i]);
    }
    p2u := p2u[|text| := u];
    out := [];
    for i := 0 to |ents|
      invariant out == Built(text, ents[..i])
    {
      var PyEntity(style, off, len) := ents[i];
      assert ents[..i + 1][..i] == ents[..i];
      if off < 0 || off + len > |text| || len <= 0 {
        continue;
      }
      var offU := p2u[off];
      var lenU := p2u[off + len] - offU;
      match style
      case Bold => out := out + [TgEntity(BoldEntity, offU, lenU)];
      case Italic => out := out + [TgEntity(ItalicEntity, offU, lenU)];
      case Link(url) =>
        if url != "" {
          out := out + [TgEntity(TextUrlEntity(url), offU, lenU)];
        }
    }
    assert ents[..|ents|] == ents;
  }

  /** Parser entities in order, non-empty, disjoint and within `[from, to]`. */
  predicate Chain(ents: seq<PyEntity>, from: int, to: int)
  {
    if ents == [] then from <= to
    else from <= ents[0].off && 0 < ents[0].len && Chain(ents[1..], ents[0].off + ents[0].len, to)
  }

  lemma {:induction false} ChainBounds(ents: seq<PyEntity>, from: int, to: int)
    requires Chain(ents, from, to)
    ensures from <= to
    ensures forall k | 0 <= k < |ents| :: from <= ents[k].off < ents[k].off + ents[k].len <= to
    ensures forall j, k | 0 <= j < k < |ents| :: ents[j].off + ents[j].len <= ents[k].off
  {
    if ents != [] {
      ChainBounds(ents[1..], ents[0].off + ents[0].len, to);
      assert forall k | 1 <= k < |ents| :: ents[k] == ents[1..][k - 1];
    }
  }

  /** Telegram entities in order, non-empty, disjoint and within `[from, to]`. */
  predicate TgChain(ents: seq<TgEntity>, from: int, to: int)
  {
    if ents == [] then from <= to
    else
      from <= ents[0].offset && 0 < ents[0].length && TgChain(ents[1..], ents[0].offset + ents[0].length, to)
  }

  /** Entity `k` of `tg` is what `build_entities` makes of entity `k` of `ents`. */
  ghost predicate Correspond(text: string, ents: seq<PyEntity>, tg: seq<TgEntity>)
  {
    && |tg| == |ents|
    && forall k | 0 <= k < |ents| :: BuiltEntity(text, ents[k]) == Some(tg[k])
  }

  lemma {:induction false} NothingDropped(text: string, ents: seq<PyEntity>)
    requires forall k | 0 <= k < |ents| :: BuiltEntity(text, ents[k]).Some?
    ensures Correspond(text, ents, Built(text, ents))
  {
    hide BuiltEntity;
    if ents != [] {
      NothingDropped(text, ents[..|ents| - 1]);
    }
  }

  lemma {:induction false} CorrespondChain(text: string, ents: seq<PyEntity>, tg: seq<TgEntity>, from: nat)
    requires from <= |text| && Chain(ents, from, |text|) && Correspond(text, ents, tg)
    ensures TgChain(tg, Utf16.Offset(text, from), Utf16.Len(text))
    decreases |ents|
  {
    if ents == [] {
      Utf16.OffsetMonotone(text, from, |text|);
      assert text[..|text|] == text;
    } else {
      ChainBounds(ents, from, |text|);
      var e := ents[0];
      Utf16.OffsetMonotone(text, from, e.off);
      Utf16.OffsetMonotone(text, e.off, e.off + e.len);
      assert BuiltEntity(text, e) == Some(tg[0]);
      CorrespondChain(text, ents[1..], tg[1..], e.off + e.len);
    }
  }

  /**
   Well-placed entities all survive `build_entities`, in order, each over the same
   characters, and their UTF-16 intervals are again ordered, disjoint and in range.
   */
  lemma {:induction false} BuiltKeepsAll(text: string, ents: seq<PyEntity>)
    requires Chain(ents, 0, |text|)
    requires forall e | e in ents :: e.style != Link("")
    ensures Correspond(text, ents, Built(text, ents))
    ensures TgChain(Built(text, ents), 0, Utf16.Len(text))
  {
    ChainBounds(ents, 0, |text|);
    NothingDropped(text, ents);
    CorrespondChain(text, ents, Built(text, ents), 0);
  }
}
