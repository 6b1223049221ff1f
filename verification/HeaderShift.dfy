/**
 The forward header in front of a parsed text (msg_to_tg, bridge/transfer/mirror_b2t.py):
 entity offsets are shifted by the header, then the whole may be truncated.
 */
module HeaderShift {
  import opened Sequences
  import opened Text
  import opened Markdown
  import opened Entities
  import opened Splitting
  import BaleToTg

  function ShiftOf(header: string): nat
  {
    |header| + (if header != "" then 1 else 0)
  }

  function Shifted(e: PyEntity, header: string): PyEntity
  {
    e.(off := e.off + ShiftOf(header))
  }

  /** `e` covers in `sent` the characters it covers in `plain` before the shift. */
  predicate Aligned(plain: string, e: PyEntity, sent: string, shift: nat)
    requires 0 <= e.off <= e.off + e.len <= |plain|
  {
    && e.off + shift + e.len <= |sent|
    && sent[e.off + shift..e.off + shift + e.len] == plain[e.off..e.off + e.len]
  }

  /** The text is sent with its body, or the header stands alone. */
  predicate BodySent(header: string, plain: string)
  {
    header == "" || Strip(plain) != ""
  }

  lemma {:induction false} JoinedLayout(header: string, plain: string)
    requires BodySent(header, plain)
    ensures |JoinHeader(header, plain)| == ShiftOf(header) + |plain|
    ensures JoinHeader(header, plain)[ShiftOf(header)..] == plain
  {
    if header != "" {
      assert header + "\n" + plain == (header + "\n") + plain;
    }
  }

  /** The header is a line of its own in front of the text; without one, or without a text, the other stands alone. */
  lemma {:induction false} HeaderIsOwnLine(header: string, plain: string)
    ensures var full := JoinHeader(header, plain);
            && header <= full && (header == "" ==> full == plain)
            && (header != "" && Strip(plain) == "" ==> full == header)
            && (header != "" && Strip(plain) != "" ==>
                |full| == |header| + 1 + |plain| && full[|header|] == '\n' && full[|header| + 1..] == plain)
  {
    hide Strip;
  }

  lemma {:induction false} ParsedEntityInPlain(t: string, k: nat)
    requires k < |BaleToTg.ParsedEntities(t)|
    ensures var e := BaleToTg.ParsedEntities(t)[k];
            0 <= e.off < e.off + e.len <= |BaleToTg.Plain(t)| && e.style != Link("")
  {
    hide *;
    BaleToTg.ParsedEntitiesAreWellPlaced(t);
    ChainBounds(BaleToTg.ParsedEntities(t), 0, |BaleToTg.Plain(t)|);
    assert BaleToTg.ParsedEntities(t)[k] in BaleToTg.ParsedEntities(t);
  }

  lemma {:induction false} LoneHeader(header: string, plain: string)
    requires !BodySent(header, plain)
    ensures |JoinHeader(header, plain)| < ShiftOf(header)
  {
  }

  lemma {:induction false} JoinedEntity(header: string, plain: string, e: PyEntity)
    requires 0 <= e.off < e.off + e.len <= |plain| && e.style != Link("")
    ensures var full := JoinHeader(header, plain);
            && (BuiltEntity(full, Shifted(e, header)).Some? <==> BodySent(header, plain))
            && (BodySent(header, plain) ==> Aligned(plain, e, full, ShiftOf(header)))
  {
    hide BuiltEntity;
    hide JoinHeader;
    hide BodySent;
    hide ShiftOf;
    SurvivesExactly(JoinHeader(header, plain), Shifted(e, header));
    if BodySent(header, plain) {
      JoinedLayout(header, plain);
      SliceShift(JoinHeader(header, plain), plain, ShiftOf(header), e.off, e.off + e.len);
    } else {
      LoneHeader(header, plain);
    }
  }

  /**
   With the header in front, an entity of the parsed text survives exactly when the body
   is sent, and then it covers the same characters; under a lone header none survives.
   */
  lemma {:induction false} HeaderKeepsEntitiesAligned(header: string, t: string, k: nat)
    requires k < |BaleToTg.ParsedEntities(t)|
    ensures var plain, e := BaleToTg.Plain(t), BaleToTg.ParsedEntities(t)[k];
            var full := JoinHeader(header, plain);
            && 0 <= e.off <= e.off + e.len <= |plain|
            && (BuiltEntity(full, Shifted(e, header)).Some? <==> BodySent(header, plain))
            && (BodySent(header, plain) ==> Aligned(plain, e, full, ShiftOf(header)))
  {
    hide *;
    ParsedEntityInPlain(t, k);
    JoinedEntity(header, BaleToTg.Plain(t), BaleToTg.ParsedEntities(t)[k]);
  }

  lemma {:induction false} SliceShift(full: string, plain: string, shift: nat, i: nat, j: nat)
    requires shift <= |full| && full[shift..] == plain && i <= j <= |plain|
    ensures shift + j <= |full| && full[i + shift..j + shift] == plain[i..j]
  {
    assert full[shift..][i..j] == full[i + shift..j + shift];
  }

  lemma {:induction false} TruncatedEntity(header: string, plain: string, e: PyEntity, limit: nat)
    requires 0 <= e.off < e.off + e.len <= |plain| && e.style != Link("")
    requires BodySent(header, plain) && limit >= 1
    ensures var full := JoinHeader(header, plain);
            var sent, end := Truncate(full, limit), ShiftOf(header) + e.off + e.len;
            && end <= |full|
            && (BuiltEntity(sent, Shifted(e, header)).Some? <==> end <= limit)
            && (end <= limit ==>
                (Aligned(plain, e, sent, ShiftOf(header)) <==>
                 |full| <= limit || end < limit || full[limit - 1] == ELLIPSIS[0]))
  {
    hide BuiltEntity;
    hide JoinHeader;
    hide BodySent;
    hide ShiftOf;
    var full := JoinHeader(header, plain);
    JoinedEntity(header, plain, e);
    JoinedLayout(header, plain);
    TruncateFits(full, limit);
    SurvivesExactly(Truncate(full, limit), Shifted(e, header));
    var a, b := e.off + ShiftOf(header), e.off + ShiftOf(header) + e.len;
    if b <= limit && limit < |full| {
      TruncatedSlice(full, limit, a, b);
    }
  }

  /**
   After truncation a surviving entity covers the same characters exactly when it ends
   before the ellipsis (or the character the ellipsis replaced was one); under a lone
   header none survives, truncated or not.
   */
  lemma {:induction false} TruncationKeepsEntitiesAligned(header: string, t: string, k: nat, limit: nat)
    requires k < |BaleToTg.ParsedEntities(t)| && limit >= 1
    ensures var plain, e := BaleToTg.Plain(t), BaleToTg.ParsedEntities(t)[k];
            var full := JoinHeader(header, plain);
            var sent, end := Truncate(full, limit), ShiftOf(header) + e.off + e.len;
            && 0 <= e.off <= e.off + e.len <= |plain|
            && (BodySent(header, plain) ==>
                && end <= |full|
                && (BuiltEntity(sent, Shifted(e, header)).Some? <==> end <= limit)
                && (end <= limit ==>
                    (Aligned(plain, e, sent, ShiftOf(header)) <==>
                     |full| <= limit || end < limit || full[limit - 1] == ELLIPSIS[0])))
            && (!BodySent(header, plain) ==> BuiltEntity(sent, Shifted(e, header)) == None)
  {
    hide *;
    ParsedEntityInPlain(t, k);
    if BodySent(header, BaleToTg.Plain(t)) {
      TruncatedEntity(header, BaleToTg.Plain(t), BaleToTg.ParsedEntities(t)[k], limit);
    } else {
      TruncatedLoneHeader(header, BaleToTg.Plain(t), BaleToTg.ParsedEntities(t)[k], limit);
    }
  }

  lemma {:induction false} TruncatedLoneHeader(header: string, plain: string, e: PyEntity, limit: nat)
    requires 0 <= e.off < e.off + e.len && !BodySent(header, plain) && limit >= 1
    ensures BuiltEntity(Truncate(JoinHeader(header, plain), limit), Shifted(e, header)) == None
  {
    hide BuiltEntity;
    var full := JoinHeader(header, plain);
    LoneHeader(header, plain);
    TruncateFits(full, limit);
    SurvivesExactly(Truncate(full, limit), Shifted(e, header));
  }

  /** A slice of the truncated text equals the slice of the full text unless the ellipsis changed its last character. */
  lemma {:induction false} TruncatedSlice(full: string, limit: nat, a: nat, b: nat)
    requires 1 <= limit < |full| && a < b <= limit
    ensures |Truncate(full, limit)| == limit
    ensures Truncate(full, limit)[a..b] == full[a..b] <==> b < limit || full[limit - 1] == ELLIPSIS[0]
  {
    var sent := Truncate(full, limit);
    assert forall i | 0 <= i < limit - 1 :: sent[i] == full[i];
    assert sent[limit - 1] == ELLIPSIS[0];
    if b == limit {
      assert sent[a..b][b - 1 - a] == sent[limit - 1] && full[a..b][b - 1 - a] == full[limit - 1];
    }
  }
}
