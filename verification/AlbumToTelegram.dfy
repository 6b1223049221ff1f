/**
 Sending an album from Bale to Telegram (bridge/transfer/mirror_b2t.py), and what
 `pair_send` records of it. Telegram answers the group call with a list; an entry of it
 that is not a message stays in the result, and `pair_send` raises when it gets there.
 */
module AlbumToTelegram {
  import opened Sequences
  import opened Messages
  import opened PairSend
  import opened AlbumSend
  import Pairs
  import Sorting

  /** The group call: a list, each entry the id of a message or no message at all, or an exception. */
  datatype Reply = Sent(ids: seq<Option<nat>>) | Failed

  /** An entry of the result: the source, and the id of its copy if that is a message. */
  datatype Slot = Slot(source: Source, id: Option<nat>)

  datatype Result = Returned(slots: seq<Slot>) | Interrupted

  predicate BySlot(a: Slot, b: Slot)
  {
    a.source.key.id <= b.source.key.id
  }

  function SlotSource(slot: Slot): Source
  {
    slot.source
  }

  /** Bale announces sizes, so what does not fit is sent as an ordinary message. */
  function BaleRoute(item: Item): Route
  {
    if Groupable(item) && (item.download == Fits || item.download == Broken) then Grouped else Direct
  }

  function Slots(copies: seq<Copy>): (slots: seq<Slot>)
    ensures |slots| == |copies|
    ensures forall i | 0 <= i < |slots| :: slots[i] == Slot(copies[i].source, Some(copies[i].id))
  {
    seq(|copies|, i requires 0 <= i < |copies| => Slot(copies[i].source, Some(copies[i].id)))
  }

  /** `zip(owners, sent)` */
  function ZippedSlots(items: seq<Item>, ids: seq<Option<nat>>): (slots: seq<Slot>)
    ensures |slots| == Min(|items|, |ids|)
    ensures forall i | 0 <= i < |slots| :: slots[i] == Slot(items[i].source, ids[i])
  {
    seq(Min(|items|, |ids|), i requires 0 <= i < Min(|items|, |ids|) => Slot(items[i].source, ids[i]))
  }

  predicate FilesOneByOne(files: seq<Item>, reply: Reply)
  {
    |files| < 2 || reply.Failed?
  }

  function FileSlots(files: seq<Item>, reply: Reply): seq<Slot>
    requires FilesOneByOne(files, reply) ==> SinglesWork(files)
  {
    if FilesOneByOne(files, reply) then Slots(Singles(files)) else ZippedSlots(files, reply.ids)
  }

  /** No transfer of a Bale album raises. */
  predicate BaleSendsWork(items: seq<Item>, reply: Reply)
  {
    var files := Routed(items, BaleRoute, Grouped);
    && DownloadsWork(files) && DirectsWork(Routed(items, BaleRoute, Direct))
    && (FilesOneByOne(files, reply) ==> SinglesWork(files))
  }

  function Unsorted(items: seq<Item>, reply: Reply): seq<Slot>
    requires BaleSendsWork(items, reply)
  {
    Slots(Directs(Routed(items, BaleRoute, Direct))) + FileSlots(Routed(items, BaleRoute, Grouped), reply)
  }

  /** `album_to_tg` */
  function AlbumToTg(items: seq<Item>, reply: Reply): Result
  {
    if !BaleSendsWork(items, reply) then Interrupted
    else Returned(Sorting.StableSort(BySlot, Unsorted(items, reply)))
  }

  // ------------------------------------------------ the code

  lemma {:induction false} DownloadsFail(prefix: seq<Item>, items: seq<Item>)
    requires prefix <= items && !DownloadsWork(prefix)
    ensures !DownloadsWork(items)
  {
    var i :| 0 <= i < |prefix| && prefix[i].download == Broken;
    assert items[i] == prefix[i];
  }

  lemma {:induction false} DirectsFail(prefix: seq<Item>, items: seq<Item>)
    requires prefix <= items && !DirectsWork(prefix)
    ensures !DirectsWork(items)
  {
    var i :| 0 <= i < |prefix| && prefix[i].direct == None;
    assert items[i] == prefix[i];
  }

  /** The first loop: files are downloaded for the group, the rest is sent at once. */
  method SplitFiles(items: seq<Item>) returns (files: seq<Item>, results: Option<seq<Copy>>)
    ensures var group, directs := Routed(items, BaleRoute, Grouped), Routed(items, BaleRoute, Direct);
            if DownloadsWork(group) && DirectsWork(directs) then files == group && results == Some(Directs(directs))
            else results == None
  {
    var copies: seq<Copy> := [];
    files := [];
    for i := 0 to |items|
      invariant files == Routed(items[..i], BaleRoute, Grouped) && DownloadsWork(files)
      invariant DirectsWork(Routed(items[..i], BaleRoute, Direct))
      invariant copies == Directs(Routed(items[..i], BaleRoute, Direct))
    {
      hide *;
      RoutedAppend(items, BaleRoute, Grouped, i);
      RoutedAppend(items, BaleRoute, Direct, i);
      if BaleRoute(items[i]) == Grouped {
        DownloadsAppend(files, items[i]);
        if items[i].download == Broken {
          RoutedPrefix(items, BaleRoute, Grouped, i + 1);
          DownloadsFail(files + [items[i]], Routed(items, BaleRoute, Grouped));
          return files, None;
        }
        files := files + [items[i]];
      } else {
        ghost var directs := Routed(items[..i], BaleRoute, Direct);
        DirectsAppend(directs, items[i]);
        if items[i].direct == None {
          RoutedPrefix(items, BaleRoute, Direct, i + 1);
          DirectsFail(directs + [items[i]], Routed(items, BaleRoute, Direct));
          return files, None;
        }
        copies := copies + CopiesOf(items[i]);
      }
    }
    assert items[..|items|] == items;
    return files, Some(copies);
  }

  /** The group call; only when it raises, or there is no group, the files are sent one by one. */
  method SendFiles(files: seq<Item>, reply: Reply) returns (slots: Option<seq<Slot>>)
    ensures if FilesOneByOne(files, reply) ==> SinglesWork(files) then slots == Some(FileSlots(files, reply))
            else slots == None
  {
    if |files| >= 2 && reply.Sent? {
      var zipped: seq<Slot> := [];
      for i := 0 to Min(|files|, |reply.ids|)
        invariant zipped == ZippedSlots(files, reply.ids)[..i]
      {
        zipped := zipped + [Slot(files[i].source, reply.ids[i])];
      }
      assert zipped == ZippedSlots(files, reply.ids);
      return Some(zipped);
    }
    var singles := SendSingles(files);
    if singles == None {
      return None;
    }
    return Some(Slots(singles.value));
  }

  method SendAlbumToTg(items: seq<Item>, reply: Reply) returns (r: Result)
    ensures r == AlbumToTg(items, reply)
  {
    hide Routed;
    hide DownloadsWork;
    hide DirectsWork;
    hide SinglesWork;
    hide Directs;
    hide FileSlots;
    var files, results := SplitFiles(items);
    if results == None {
      return Interrupted;
    }
    var slots := SendFiles(files, reply);
    if slots == None {
      return Interrupted;
    }
    return Returned(Sorting.StableSort(BySlot, Slots(results.value) + slots.value));
  }

  // ------------------------------------------------ accounting

  lemma {:induction false} BySlotIsTotalPreorder()
    ensures Sorting.TotalPreorder(BySlot)
  {
  }

  lemma {:induction false} SlotsSources(copies: seq<Copy>)
    ensures Image(Slots(copies), SlotSource) == SourcesOf(copies)
  {
    assert SameImages(Slots(copies), SlotSource, copies, CopySource);
    SameImagesAgree(Slots(copies), SlotSource, copies, CopySource);
  }

  /** The files have one entry each exactly when Telegram's list is not too short. */
  lemma {:induction false} FilesAccounting(files: seq<Item>, reply: Reply)
    requires FilesOneByOne(files, reply) ==> SinglesWork(files)
    ensures Image(FileSlots(files, reply), SlotSource) == MessagesOf(files)
            <==> FilesOneByOne(files, reply) || |reply.ids| >= |files|
  {
    hide Image;
    if FilesOneByOne(files, reply) {
      SlotsSources(Singles(files));
      SinglesSources(files);
    } else {
      var slots := ZippedSlots(files, reply.ids);
      if |reply.ids| >= |files| {
        assert SameImages(slots, SlotSource, files, ItemSource);
        SameImagesAgree(slots, SlotSource, files, ItemSource);
      } else {
        ImageSize(slots, SlotSource);
        ImageSize(files, ItemSource);
      }
    }
  }

  /**
   `album_to_tg` returns exactly when no transfer raises; the result is then sorted by
   source, each ordinary message counted once for each message it took, and each file once
   exactly when there was no group or Telegram's list was not too short.
   */
  lemma {:induction false} BaleAlbumAccounting(items: seq<Item>, reply: Reply)
    ensures AlbumToTg(items, reply).Returned? <==> BaleSendsWork(items, reply)
    ensures AlbumToTg(items, reply).Returned? ==>
              var slots, files := AlbumToTg(items, reply).slots, Routed(items, BaleRoute, Grouped);
              && Sorting.Sorted(BySlot, slots)
              && (Image(slots, SlotSource) == SourcesOf(Directs(Routed(items, BaleRoute, Direct))) + MessagesOf(files)
                  <==> FilesOneByOne(files, reply) || |reply.ids| >= |files|)
  {
    if AlbumToTg(items, reply).Returned? {
      var files, direct := Routed(items, BaleRoute, Grouped), Routed(items, BaleRoute, Direct);
      var slots := Unsorted(items, reply);
      hide Routed;
      hide Image;
      hide SinglesWork;
      hide DirectsWork;
      hide DownloadsWork;
      hide FileSlots;
      hide FilesOneByOne;
      hide Directs;
      BySlotIsTotalPreorder();
      hide Sorting.TotalPreorder;
      Sorting.StableSortCorrect(BySlot, slots);
      hide Sorting.Sorted;
      Sorting.ImageSorted(BySlot, slots, SlotSource);
      ImageConcat(Slots(Directs(direct)), FileSlots(files, reply), SlotSource);
      SlotsSources(Directs(direct));
      FilesAccounting(files, reply);
      SumsCancel(SourcesOf(Directs(direct)), Image(FileSlots(files, reply), SlotSource), MessagesOf(files));
    }
  }

  /**
   Which items of a Bale album go where, by the names of their kinds: photos, videos,
   documents and audio files of a size that can be downloaded are the files, and keep the
   order of the album; all others are sent as ordinary messages.
   */
  lemma {:induction false} BaleKindsRouted(items: seq<Item>, item: Item)
    ensures item in Routed(items, BaleRoute, Grouped) <==>
            item in items &&
            (item.kind == "photo" || item.kind == "video" || item.kind == "document" || item.kind == "audio") &&
            item.download != TooBig && item.download != Missing
    ensures item in items ==> (item in Routed(items, BaleRoute, Direct) <==> item !in Routed(items, BaleRoute, Grouped))
    ensures Subsequence(Routed(items, BaleRoute, Grouped), items)
  {
    hide Subsequence;
    RoutedExact(items, BaleRoute, Grouped, item);
    RoutedExact(items, BaleRoute, Direct, item);
  }

  /**
   When an album from Bale returns, in words: no download of a file failed, every ordinary
   message was sent, and where the files were sent one by one each send worked.
   */
  lemma {:induction false} BaleReturnsInWords(items: seq<Item>, reply: Reply)
    ensures AlbumToTg(items, reply).Returned? <==>
            && (forall item | item in Routed(items, BaleRoute, Grouped) :: item.download == Fits)
            && (forall item | item in Routed(items, BaleRoute, Direct) :: item.direct.Some?)
            && (|Routed(items, BaleRoute, Grouped)| < 2 || reply == Failed ==>
                forall item | item in Routed(items, BaleRoute, Grouped) :: item.single.Some?)
  {
    var files, direct := Routed(items, BaleRoute, Grouped), Routed(items, BaleRoute, Direct);
    WorkInWords(files);
    WorkInWords(direct);
    forall item | item in files
      ensures item.download != TooBig && item.download != Missing
    {
      BaleKindsRouted(items, item);
    }
    hide Routed;
    hide SinglesWork;
    hide DownloadsWork;
    hide DirectsWork;
  }

  lemma {:induction false} DirectsExact(items: seq<Item>, c: Copy)
    requires DirectsWork(items)
    ensures c in Directs(items) <==>
            exists item :: item in items && item.source == c.source && c.id in item.direct.value
  {
    if items != [] {
      var init, last := items[..|items| - 1], items[|items| - 1];
      assert items == init + [last];
      assert DirectsWork(init) by {
        assert forall i | 0 <= i < |init| :: init[i] == items[i];
      }
      DirectsExact(init, c);
      CopiesOfExact(last, c);
    }
  }

  lemma {:induction false} CopiesOfExact(item: Item, c: Copy)
    requires item.direct.Some?
    ensures c in CopiesOf(item) <==> item.source == c.source && c.id in item.direct.value
  {
    if item.source == c.source && c.id in item.direct.value {
      var i :| 0 <= i < |item.direct.value| && item.direct.value[i] == c.id;
      assert CopiesOf(item)[i] == c;
    }
  }

  /**
   Every entry is tied to the message it was made of: an ordinary message to each id its send
   returned, a file to the id of its own send or to Telegram's answer at its place.
   */
  lemma {:induction false} SlotsAreOwn(items: seq<Item>, reply: Reply, slot: Slot)
    requires AlbumToTg(items, reply).Returned?
    ensures var files := Routed(items, BaleRoute, Grouped);
            slot in AlbumToTg(items, reply).slots <==>
            || (exists item :: item in Routed(items, BaleRoute, Direct) && item.source == slot.source &&
                  slot.id.Some? && slot.id.value in item.direct.value)
            || (exists i :: 0 <= i < |files| && files[i].source == slot.source &&
                  if |files| >= 2 && reply.Sent? then i < |reply.ids| && reply.ids[i] == slot.id
                  else files[i].single == slot.id)
  {
    var files, direct := Routed(items, BaleRoute, Grouped), Routed(items, BaleRoute, Direct);
    var unsorted := Unsorted(items, reply);
    BySlotIsTotalPreorder();
    Sorting.StableSortCorrect(BySlot, unsorted);
    hide Sorting.StableSort;
    hide Sorting.Sorted;
    assert slot in multiset(AlbumToTg(items, reply).slots) <==> slot in multiset(unsorted);
    hide Routed;
    FileSlotsExact(files, reply, slot);
    if slot.id.Some? {
      DirectsExact(direct, Copy(slot.source, slot.id.value));
    }
    SlotsExact(Directs(direct), slot);
    hide Directs;
    hide FileSlots;
  }

  lemma {:induction false} SlotsExact(copies: seq<Copy>, slot: Slot)
    ensures slot in Slots(copies) <==> slot.id.Some? && Copy(slot.source, slot.id.value) in copies
  {
    if slot.id.Some? && Copy(slot.source, slot.id.value) in copies {
      var i :| 0 <= i < |copies| && copies[i] == Copy(slot.source, slot.id.value);
      assert Slots(copies)[i] == slot;
    }
  }

  lemma {:induction false} FileSlotsExact(files: seq<Item>, reply: Reply, slot: Slot)
    requires FilesOneByOne(files, reply) ==> SinglesWork(files)
    ensures slot in FileSlots(files, reply) <==>
            exists i :: 0 <= i < |files| && files[i].source == slot.source &&
              if |files| >= 2 && reply.Sent? then i < |reply.ids| && reply.ids[i] == slot.id
              else files[i].single == slot.id
  {
    var slots := FileSlots(files, reply);
    if i :| 0 <= i < |files| && files[i].source == slot.source &&
            (if |files| >= 2 && reply.Sent? then i < |reply.ids| && reply.ids[i] == slot.id
             else files[i].single == slot.id) {
      assert slots[i] == slot;
    }
    if slot in slots {
      var i :| 0 <= i < |slots| && slots[i] == slot;
      assert files[i].source == slot.source;
    }
  }

  // ------------------------------------------------ what pair_send then records

  /** The entries before the first that is not a message. */
  function Recorded(slots: seq<Slot>): (copies: seq<Copy>)
    ensures |copies| <= |slots|
    ensures forall i | 0 <= i < |copies| :: slots[i] == Slot(copies[i].source, Some(copies[i].id))
    ensures |copies| < |slots| ==> slots[|copies|].id == None
  {
    if slots == [] || slots[0].id == None then []
    else
      assert forall i | 0 < i < |slots| :: slots[i] == slots[1..][i - 1];
      [Copy(slots[0].source, slots[0].id.value)] + Recorded(slots[1..])
  }

  /** Everything is recorded exactly when every entry is a message. */
  lemma {:induction false} RecordsAllMessages(slots: seq<Slot>)
    ensures Slots(Recorded(slots)) == slots <==> forall i | 0 <= i < |slots| :: slots[i].id.Some?
  {
    var copies := Recorded(slots);
    if Slots(copies) == slots {
      forall i | 0 <= i < |slots|
        ensures slots[i].id.Some?
      {
        assert slots[i] == Slot(copies[i].source, Some(copies[i].id));
      }
    }
  }

  /** The recording loop gets as far as the entries are messages. */
  method TakeMessages(slots: seq<Slot>) returns (copies: seq<Copy>)
    ensures copies == Recorded(slots)
  {
    hide Recorded;
    copies := [];
    var i := 0;
    while i < |slots| && slots[i].id.Some?
      invariant i <= |slots| && |copies| == i
      invariant forall j | 0 <= j < i :: slots[j] == Slot(copies[j].source, Some(copies[j].id))
    {
      copies := copies + [Copy(slots[i].source, slots[i].id.value)];
      i := i + 1;
    }
    RecordedUnique(slots, copies);
  }

  lemma {:induction false} RecordedUnique(slots: seq<Slot>, copies: seq<Copy>)
    requires |copies| <= |slots| && (|copies| < |slots| ==> slots[|copies|].id == None)
    requires forall i | 0 <= i < |copies| :: slots[i] == Slot(copies[i].source, Some(copies[i].id))
    ensures copies == Recorded(slots)
  {
    hide Recorded;
    var taken := Recorded(slots);
    assert |taken| == |copies|;
    assert forall i | 0 <= i < |copies| :: slots[i] == Slot(taken[i].source, Some(taken[i].id));
  }

  /**
   Albums in `pair_send`: nothing is recorded when the album raises; otherwise one row, one
   token and one fingerprint for each entry up to the first that is not a message, which
   raises.
   */
  method PairSendAlbum(sender: PairSender, pair: Pairs.Pair, items: seq<Item>, reply: Reply, clock: seq<real>)
    returns (r: Result, raised: bool)
    requires AlbumToTg(items, reply).Returned? ==> |clock| == |Recorded(AlbumToTg(items, reply).slots)|
    modifies sender.links, sender.cache
    ensures r == AlbumToTg(items, reply)
    ensures r == Interrupted ==> raised && unchanged(sender.links) && unchanged(sender.cache)
    ensures r.Returned? ==>
              var copies := Recorded(r.slots);
              && (raised <==> |copies| < |r.slots|)
              && sender.links.rows == old(sender.links.rows) + NewRows(pair, Tg, copies, old(sender.links.nextId))
              && sender.cache.sent == old(sender.cache.sent) + NewTokens(pair, Tg, copies, clock)
              && sender.cache.fps == old(sender.cache.fps) + NewFps(pair, Tg, copies, clock, old(sender.cache.nextFp))
  {
    hide AlbumToTg;
    hide Recorded;
    r := SendAlbumToTg(items, reply);
    if r == Interrupted {
      return r, true;
    }
    var copies := TakeMessages(r.slots);
    sender.Record(pair, Tg, copies, clock);
    raised := |copies| < |r.slots|;
  }

  lemma {:induction false} TwoFiles(a: Item, b: Item)
    requires BaleRoute(a) == Grouped && BaleRoute(b) == Grouped
    ensures Routed([a, b], BaleRoute, Grouped) == [a, b] && Routed([a, b], BaleRoute, Direct) == []
  {
    RoutedAppend([a, b], BaleRoute, Grouped, 0);
    RoutedAppend([a, b], BaleRoute, Grouped, 1);
    RoutedAppend([a, b], BaleRoute, Direct, 0);
    RoutedAppend([a, b], BaleRoute, Direct, 1);
    assert [a, b][..0] == [] && [a, b][..2] == [a, b];
  }

  /** Two photos, and an answer whose second entry is no message: the first is recorded, the second ends `pair_send`. */
  lemma {:induction false} AnswerWithoutMessage(a: Item, b: Item, id: nat)
    requires BaleRoute(a) == Grouped && BaleRoute(b) == Grouped && a.download == Fits && b.download == Fits
    requires a.source.key.id <= b.source.key.id
    ensures var r := AlbumToTg([a, b], Sent([Some(id), None]));
            && r == Returned([Slot(a.source, Some(id)), Slot(b.source, None)])
            && Recorded(r.slots) == [Copy(a.source, id)]
  {
    var reply := Sent([Some(id), None]);
    TwoFiles(a, b);
    var slots := [Slot(a.source, Some(id)), Slot(b.source, None)];
    assert Unsorted([a, b], reply) == slots by {
      hide Routed;
      assert ZippedSlots([a, b], reply.ids) == slots;
    }
    hide *;
    TwoSlots(slots[0], slots[1]);
    SentTogether(a, b, reply);
  }

  lemma {:induction false} SentTogether(a: Item, b: Item, reply: Reply)
    requires Routed([a, b], BaleRoute, Grouped) == [a, b] && Routed([a, b], BaleRoute, Direct) == [] && reply.Sent?
    requires a.download == Fits && b.download == Fits
    ensures BaleSendsWork([a, b], reply)
    ensures AlbumToTg([a, b], reply) == Returned(Sorting.StableSort(BySlot, Unsorted([a, b], reply)))
  {
    hide Routed;
  }

  lemma {:induction false} TwoSlots(a: Slot, b: Slot)
    requires BySlot(a, b) && a.id.Some? && b.id == None
    ensures Sorting.StableSort(BySlot, [a, b]) == [a, b]
    ensures Recorded([a, b]) == [Copy(a.source, a.id.value)]
  {
    Sorting.StableSortOfSorted(BySlot, [a, b]);
    assert [a, b][1..] == [b] && Recorded([b]) == [];
  }
}
