/**
 UTF-16 lengths and offsets (bridge/textfmt/types_map.py). Telegram counts entity
 offsets in UTF-16 code units, the bridge in code points. The width of a character
 follows section 2.1 of RFC 2781: one unit below U+10000, two from there on.
 */
module Utf16 {
  import opened Sequences

  function Width(c: char): (w: nat)
  {
    if c as int > 0xFFFF then 2 else 1
  }

  /** `utf16_len`: the number of UTF-16 units of `text`. */
  function Len(text: string): nat
  {
    if text == "" then 0 else Len(text[..|text| - 1]) + Width(text[|text| - 1])
  }

  /** The code units of a character: itself, or a surrogate pair. */
  function Units(c: char): (units: seq<int>)
  {
    var n := c as int;
    if n < 0x10000 then [n] else [0xD800 + (n - 0x10000) / 0x400, 0xDC00 + (n - 0x10000) % 0x400]
  }

  /** `text.encode("utf-16")`, section 2.1 of RFC 2781. */
  function Encoded(text: string): seq<int>
  {
    if text == "" then [] else Encoded(text[..|text| - 1]) + Units(text[|text| - 1])
  }

  predicate IsHigh(u: int)
  {
    0xD800 <= u <= 0xDBFF
  }

  predicate IsLow(u: int)
  {
    0xDC00 <= u <= 0xDFFF
  }

  /** Decoding, section 2.2 of RFC 2781: a high and a low surrogate are one character. */
  function Decoded(units: seq<int>): Option<string>
  {
    if units == [] then Some("")
    else
      var n, last := |units| - 1, units[|units| - 1];
      if IsLow(last) then
        if n == 0 || !IsHigh(units[n - 1]) then None
        else
          var c := (units[n - 1] - 0xD800) * 0x400 + (last - 0xDC00) + 0x10000;
          match Decoded(units[..n - 1])
          case Some(init) => Some(init + [c as char])
          case None => None
      else if last < 0 || last > 0xFFFF || IsHigh(last) then None
      else
        match Decoded(units[..n])
        case Some(init) => Some(init + [last as char])
        case None => None
  }

  lemma {:induction false} SplitsBack(n: int)
    requires 0x10000 <= n <= 0x10FFFF
    ensures var h, l := 0xD800 + (n - 0x10000) / 0x400, 0xDC00 + (n - 0x10000) % 0x400;
            IsHigh(h) && IsLow(l) && (h - 0xD800) * 0x400 + (l - 0xDC00) + 0x10000 == n
  {
  }

  /** `Len` counts code units: encoding gives that many, and decoding them gives the text back. */
  lemma {:induction false} LenIsEncodedLength(text: string)
    ensures |Encoded(text)| == Len(text) && Decoded(Encoded(text)) == Some(text)
  {
    hide Units;
    hide Decoded;
    if text == "" {
      NothingEncoded();
    } else {
      var init, c := text[..|text| - 1], text[|text| - 1];
      LenIsEncodedLength(init);
      assert text == init + [c];
      DecodesMore(Encoded(init), init, c);
    }
  }

  lemma {:induction false} NothingEncoded()
    ensures Encoded("") == [] && Decoded([]) == Some("")
  {
  }

  lemma {:induction false} DecodesMore(e: seq<int>, init: string, c: char)
    requires Decoded(e) == Some(init)
    ensures |Units(c)| == Width(c) && Decoded(e + Units(c)) == Some(init + [c])
  {
    if c as int >= 0x10000 {
      hide Decoded;
      SplitsBack(c as int);
      DecodesPair(e, Units(c)[0], Units(c)[1], init);
      assert e + Units(c) == e + [Units(c)[0], Units(c)[1]];
    } else {
      assert (e + Units(c))[..|e|] == e;
    }
  }

  lemma {:induction false} DecodesPair(e: seq<int>, h: int, l: int, init: string)
    requires Decoded(e) == Some(init) && IsHigh(h) && IsLow(l)
    ensures Decoded(e + [h, l]) == Some(init + [((h - 0xD800) * 0x400 + (l - 0xDC00) + 0x10000) as char])
  {
    assert (e + [h, l])[..|e|] == e;
  }

  /** So a character's offset is where its code units begin. */
  lemma {:induction false} OffsetIsUnitPosition(text: string, i: nat)
    requires i < |text|
    ensures Offset(text, i) + |Units(text[i])| <= |Encoded(text)|
    ensures Encoded(text)[Offset(text, i)..Offset(text, i) + |Units(text[i])|] == Units(text[i])
  {
    hide Units;
    hide Encoded;
    EncodedMore(text, i);
    LenIsEncodedLength(text[..i]);
    EncodedPrefix(text, i + 1);
    var e, whole := Encoded(text[..i]), Encoded(text);
    assert whole[..|e| + |Units(text[i])|] == e + Units(text[i]);
    assert whole[|e|..|e| + |Units(text[i])|] == whole[..|e| + |Units(text[i])|][|e|..];
  }

  lemma {:induction false} EncodedMore(text: string, i: nat)
    requires i < |text|
    ensures Encoded(text[..i + 1]) == Encoded(text[..i]) + Units(text[i])
  {
    hide Units;
    assert text[..i + 1][..i] == text[..i];
  }

  lemma {:induction false} EncodedPrefix(text: string, i: nat)
    requires i <= |text|
    ensures Encoded(text[..i]) <= Encoded(text)
    decreases |text| - i
  {
    hide Encoded;
    if i == |text| {
      assert text[..i] == text;
    } else {
      EncodedMore(text, i);
      EncodedPrefix(text, i + 1);
    }
  }

  /** The UTF-16 offset of code point `i`. */
  function Offset(text: string, i: nat): nat
    requires i <= |text|
  {
    Len(text[..i])
  }

  lemma {:induction false} OffsetStep(text: string, i: nat)
    requires i < |text|
    ensures Offset(text, i + 1) == Offset(text, i) + Width(text[i])
  {
    assert text[..i + 1][..i] == text[..i];
  }

  /** Offsets grow by at least one unit per code point, so they never coincide. */
  lemma {:induction false} OffsetMonotone(text: string, i: nat, j: nat)
    requires i <= j <= |text|
    ensures Offset(text, i) + (j - i) <= Offset(text, j)
  {
    if i < j {
      OffsetMonotone(text, i, j - 1);
      OffsetStep(text, j - 1);
    }
  }

  lemma {:induction false} OffsetInjective(text: string, i: nat, j: nat)
    requires i <= |text| && j <= |text| && Offset(text, i) == Offset(text, j)
    ensures i == j
  {
    if i < j {
      OffsetMonotone(text, i, j);
    } else {
      OffsetMonotone(text, j, i);
    }
  }

  /** The map `m` sends the offset of each code point of `text[..n]` to its index, and nothing else. */
  ghost predicate IndexesPrefix(m: map<int, nat>, text: string, n: nat)
    requires n <= |text|
  {
    && (forall i: nat | i < n :: Offset(text, i) in m && m[Offset(text, i)] == i)
    && (forall u | u in m :: m[u] < n && Offset(text, m[u]) == u)
  }

  /** `utf16_index_map`: from UTF-16 offsets to code-point indices. */
  method IndexMap(text: string) returns (mapping: map<int, nat>)
    ensures forall i: nat | i <= |text| :: Offset(text, i) in mapping && mapping[Offset(text, i)] == i
    ensures forall u | u in mapping :: mapping[u] <= |text| && Offset(text, mapping[u]) == u
  {
    mapping := map[];
    var u16 := 0;
    for i := 0 to |text|
      invariant u16 == Offset(text, i)
      invariant IndexesPrefix(mapping, text, i)
    {
      SmallerOffsets(text, i);
      mapping := mapping[u16 := i];
      OffsetStep(text, i);
      u16 := u16 + Width(text[i]);
    }
    SmallerOffsets(text, |text|);
    mapping := mapping[u16 := |text|];
  }

  lemma {:induction false} SmallerOffsets(text: string, n: nat)
    requires n <= |text|
    ensures forall i: nat | i < n :: Offset(text, i) < Offset(text, n)
  {
    forall i: nat | i < n
      ensures Offset(text, i) < Offset(text, n)
    {
      OffsetMonotone(text, i, n);
    }
  }

  /** What looking `u` up in the index map gives: the code point starting at `u`, if one does. */
  function IndexFrom(text: string, u: int, i: nat): Option<nat>
    requires i <= |text|
    decreases |text| - i
  {
    if u == Offset(text, i) then Some(i)
    else if i == |text| then None
    else IndexFrom(text, u, i + 1)
  }

  function Index(text: string, u: int): Option<nat>
  {
    IndexFrom(text, u, 0)
  }

  lemma {:induction false} IndexFromExact(text: string, u: int, i: nat)
    requires i <= |text|
    ensures IndexFrom(text, u, i).Some? ==>
              i <= IndexFrom(text, u, i).value <= |text| && Offset(text, IndexFrom(text, u, i).value) == u
    ensures IndexFrom(text, u, i).None? ==> forall k: nat | i <= k <= |text| :: Offset(text, k) != u
    decreases |text| - i
  {
    if u != Offset(text, i) && i < |text| {
      IndexFromExact(text, u, i + 1);
    }
  }

  /**
   The lookup inverts `Offset`: `u` is found, at `i`, exactly when code point `i` starts at
   unit `u`. Negative offsets, offsets past the end and the middle of a surrogate pair
   are not found.
   */
  lemma {:induction false} IndexExact(text: string, u: int, i: nat)
    requires i <= |text|
    ensures Index(text, u) == Some(i) <==> Offset(text, i) == u
    ensures Index(text, u).Some? ==> Index(text, u).value <= |text|
  {
    IndexFromExact(text, u, 0);
    if Offset(text, i) == u {
      OffsetInjective(text, i, Index(text, u).value);
    }
  }
}
