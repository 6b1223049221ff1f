/**
 Sending an album from Telegram to Bale (bridge/transfer/mirror_t2b.py). Each item carries
 the fate of its own transfers; the answer to the group call is a separate input. What the
 platform created is told by ids; an exception ends the whole album.
 */
module AlbumSend {
  import opened Sequences
  import opened Messages
  import opened PairSend
  import Pairs
  import Sorting

  datatype Download = Fits | TooBig | Missing | Broken

  /**
   `single` is the id a send of this item alone gives (its file, or the notice in its
   place), `direct` the ids of sending it as an ordinary message; `None` is an exception.
   */
  datatype Item = Item(source: Source, kind: string, download: Download, single: Option<nat>, direct: Option<seq<nat>>)

  /** The group call: ids, ids followed by something that is not a message, a refusal, or another exception. */
  datatype Answer = Ids(ids: seq<nat>) | Garbled(ids: seq<nat>) | Refused | Crashed
  {
    predicate HasIds()
    {
      Ids? || Garbled?
    }
  }

  datatype Outcome = Done(copies: seq<Copy>) | Raised

  /** A result list's entry: a source with an id, or a bare id. */
  datatype Entry = Pair(copy: Copy) | Bare(id: nat)

  predicate Groupable(item: Item)
  {
    item.kind in ["photo", "video", "document", "audio"]
  }

  predicate BySource(a: Copy, b: Copy)
  {
    a.source.key.id <= b.source.key.id
  }

  /** The three places an item of a Telegram album can go. */
  datatype Route = Grouped | Alone | Direct

  function TgRoute(item: Item): Route
  {
    if !Groupable(item) then Direct else if item.download == Fits then Grouped else Alone
  }

  function Routed(items: seq<Item>, route: Item -> Route, r: Route): seq<Item>
  {
    if items == [] then []
    else
      var init, last := Routed(items[..|items| - 1], route, r), items[|items| - 1];
      if route(last) == r then init + [last] else init
  }

  predicate SinglesWork(items: seq<Item>)
  {
    forall i | 0 <= i < |items| :: items[i].single.Some?
  }

  predicate DirectsWork(items: seq<Item>)
  {
    forall i | 0 <= i < |items| :: items[i].direct.Some?
  }

  predicate DownloadsWork(items: seq<Item>)
  {
    forall i | 0 <= i < |items| :: items[i].download != Broken
  }

  /** One copy for each item, by its own send. */
  function Singles(items: seq<Item>): (copies: seq<Copy>)
    requires SinglesWork(items)
    ensures |copies| == |items|
    ensures forall i | 0 <= i < |items| :: copies[i] == Copy(items[i].source, items[i].single.value)
  {
    seq(|items|, i requires 0 <= i < |items| => Copy(items[i].source, items[i].single.value))
  }

  function Min(a: nat, b: nat): nat
  {
    if a < b then a else b
  }

  /** `zip(group, sent)` */
  function Zipped(items: seq<Item>, ids: seq<nat>): (copies: seq<Copy>)
    ensures |copies| == Min(|items|, |ids|)
    ensures forall i | 0 <= i < |copies| :: copies[i] == Copy(items[i].source, ids[i])
  {
    seq(Min(|items|, |ids|), i requires 0 <= i < Min(|items|, |ids|) => Copy(items[i].source, ids[i]))
  }

  /** Whether the items of the group are sent one by one. */
  predicate OneByOne(group: seq<Item>, answer: Answer)
  {
    |group| < 2 || answer.Refused? || (answer.Garbled? && |answer.ids| < |group|)
  }

  function GroupCopies(group: seq<Item>, answer: Answer): seq<Copy>
    requires OneByOne(group, answer) ==> SinglesWork(group)
  {
    (if |group| >= 2 && (answer.Ids? || answer.Garbled?) then Zipped(group, answer.ids) else [])
    + (if OneByOne(group, answer) then Singles(group) else [])
  }

  function CopiesOf(item: Item): seq<Copy>
    requires item.direct.Some?
  {
    seq(|item.direct.value|, i requires 0 <= i < |item.direct.value| => Copy(item.source, item.direct.value[i]))
  }

  function Directs(items: seq<Item>): seq<Copy>
    requires DirectsWork(items)
  {
    if items == [] then [] else Directs(items[..|items| - 1]) + CopiesOf(items[|items| - 1])
  }

  function DirectIds(items: seq<Item>): seq<nat>
    requires DirectsWork(items)
  {
    if items == [] then [] else DirectIds(items[..|items| - 1]) + items[|items| - 1].direct.value
  }

  /** No transfer of a Telegram album raises. */
  predicate TgSendsWork(items: seq<Item>, answer: Answer)
  {
    var group, alone := Routed(items, TgRoute, Grouped), Routed(items, TgRoute, Alone);
    && DownloadsWork(alone) && SinglesWork(alone) && DirectsWork(Routed(items, TgRoute, Direct))
    && (|group| >= 2 ==> answer != Crashed)
    && (OneByOne(group, answer) ==> SinglesWork(group))
  }

  /**
   `album_to_bale`. The ids of the messages that cannot be grouped are put into the result
   without their source, and sorting the result by source raises on them.
   */
  function AlbumToBale(items: seq<Item>, answer: Answer): Outcome
  {
    if !TgSendsWork(items, answer) || DirectIds(Routed(items, TgRoute, Direct)) != [] then Raised
    else
      var copies := Singles(Routed(items, TgRoute, Alone)) + GroupCopies(Routed(items, TgRoute, Grouped), answer);
      Done(Sorting.StableSort(BySource, copies))
  }

  // ------------------------------------------------ the code

  function Entries(copies: seq<Copy>): (es: seq<Entry>)
    ensures |es| == |copies| && forall i | 0 <= i < |es| :: es[i] == Pair(copies[i])
  {
    seq(|copies|, i requires 0 <= i < |copies| => Pair(copies[i]))
  }

  /** `results.sort(key=lambda t: t[0].id)`: a bare id has no element 0. */
  method SortBySource(results: seq<Entry>) returns (r: Outcome)
    ensures (exists i :: 0 <= i < |results| && results[i].Bare?) ==> r == Raised
    ensures forall copies: seq<Copy> :: results == Entries(copies) ==> r == Done(Sorting.StableSort(BySource, copies))
  {
    var copies: seq<Copy> := [];
    for i := 0 to |results|
      invariant |copies| == i && forall j | 0 <= j < i :: results[j] == Pair(copies[j])
    {
      if results[i].Bare? {
        return Raised;
      }
      copies := copies + [results[i].copy];
    }
    forall cs: seq<Copy> | results == Entries(cs)
      ensures cs == copies
    {
      assert forall j | 0 <= j < |cs| :: results[j] == Pair(cs[j]);
    }
    return Done(Sorting.StableSort(BySource, copies));
  }

  function Prepared(items: seq<Item>): seq<Item>
  {
    if items == [] then []
    else
      var init, last := Prepared(items[..|items| - 1]), items[|items| - 1];
      if Groupable(last) then init + [last] else init
  }

  lemma {:induction false} PreparedRoutes(items: seq<Item>, r: Route)
    requires r != Direct
    ensures Routed(Prepared(items), TgRoute, r) == Routed(items, TgRoute, r)
  {
    if items != [] {
      var init, last := items[..|items| - 1], items[|items| - 1];
      PreparedRoutes(init, r);
      if Groupable(last) {
        assert (Prepared(init) + [last])[..|Prepared(init)|] == Prepared(init);
      }
    }
  }

  lemma {:induction false} RoutedAppend(items: seq<Item>, route: Item -> Route, r: Route, i: nat)
    requires i < |items|
    ensures Routed(items[..i + 1], route, r) ==
            if route(items[i]) == r then Routed(items[..i], route, r) + [items[i]] else Routed(items[..i], route, r)
  {
    assert items[..i + 1][..i] == items[..i];
  }

  lemma {:induction false} RoutedPrefix(items: seq<Item>, route: Item -> Route, r: Route, i: nat)
    requires i <= |items|
    ensures Routed(items[..i], route, r) <= Routed(items, route, r)
    decreases |items| - i
  {
    if i < |items| {
      RoutedAppend(items, route, r, i);
      RoutedPrefix(items, route, r, i + 1);
    } else {
      assert items[..i] == items;
    }
  }

  lemma {:induction false} SinglesAppend(items: seq<Item>, last: Item)
    ensures SinglesWork(items + [last]) <==> SinglesWork(items) && last.single.Some?
    ensures SinglesWork(items + [last]) ==>
            Singles(items + [last]) == Singles(items) + [Copy(last.source, last.single.value)]
  {
    var all := items + [last];
    assert all[|items|] == last;
    if SinglesWork(all) {
      assert forall i | 0 <= i < |items| :: items[i] == all[i];
    }
  }

  lemma {:induction false} SinglesFail(prefix: seq<Item>, items: seq<Item>)
    requires prefix <= items && SinglesWork(items)
    ensures SinglesWork(prefix)
  {
    assert forall i | 0 <= i < |prefix| :: prefix[i] == items[i];
  }

  lemma {:induction false} DirectsAppend(items: seq<Item>, last: Item)
    ensures DirectsWork(items + [last]) <==> DirectsWork(items) && last.direct.Some?
    ensures DirectsWork(items + [last]) ==> Directs(items + [last]) == Directs(items) + CopiesOf(last)
    ensures DirectsWork(items + [last]) ==> DirectIds(items + [last]) == DirectIds(items) + last.direct.value
  {
    var all := items + [last];
    assert all[|items|] == last && all[..|items|] == items;
    if DirectsWork(all) {
      assert forall i | 0 <= i < |items| :: items[i] == all[i];
    }
  }

  /** The loop over the downloaded items: what fits joins the group, the rest is sent at once. */
  method SendAlone(prepared: seq<Item>) returns (group: seq<Item>, results: Option<seq<Copy>>)
    requires Prepared(prepared) == prepared
    ensures var alone := Routed(prepared, TgRoute, Alone);
            if SinglesWork(alone) then results == Some(Singles(alone)) && group == Routed(prepared, TgRoute, Grouped)
            else results == None
  {
    var copies: seq<Copy> := [];
    group := [];
    assert Routed([], TgRoute, Grouped) == Routed([], TgRoute, Alone) == [];
    assert prepared[..0] == [];
    hide Routed;
    for i := 0 to |prepared|
      invariant group == Routed(prepared[..i], TgRoute, Grouped)
      invariant SinglesWork(Routed(prepared[..i], TgRoute, Alone))
      invariant copies == Singles(Routed(prepared[..i], TgRoute, Alone))
    {
      hide SinglesWork;
      RoutedAppend(prepared, TgRoute, Grouped, i);
      RoutedAppend(prepared, TgRoute, Alone, i);
      PreparedAt(prepared, i);
      if prepared[i].download != Fits {
        SinglesAppend(Routed(prepared[..i], TgRoute, Alone), prepared[i]);
        if prepared[i].single == None {
          RoutedPrefix(prepared, TgRoute, Alone, i + 1);
          if SinglesWork(Routed(prepared, TgRoute, Alone)) {
            SinglesFail(Routed(prepared[..i + 1], TgRoute, Alone), Routed(prepared, TgRoute, Alone));
          }
          return group, None;
        }
        copies := copies + [Copy(prepared[i].source, prepared[i].single.value)];
      } else {
        group := group + [prepared[i]];
      }
    }
    assert prepared[..|prepared|] == prepared;
    return group, Some(copies);
  }

  lemma {:induction false} PreparedLength(items: seq<Item>)
    ensures |Prepared(items)| <= |items|
  {
    if items != [] {
      PreparedLength(items[..|items| - 1]);
    }
  }

  lemma {:induction false} PreparedAt(items: seq<Item>, i: nat)
    requires Prepared(items) == items && i < |items|
    ensures Groupable(items[i])
  {
    var init := items[..|items| - 1];
    PreparedLength(init);
    if i < |items| - 1 {
      assert Prepared(init) == init;
      PreparedAt(init, i);
    }
  }

  lemma {:induction false} PreparedTwice(items: seq<Item>)
    ensures Prepared(Prepared(items)) == Prepared(items)
  {
    if items != [] {
      var init, last := Prepared(items[..|items| - 1]), items[|items| - 1];
      PreparedTwice(items[..|items| - 1]);
      assert (init + [last])[..|init|] == init;
    }
  }

  /** The fallback loop: each item of the group by its own send. */
  method SendSingles(group: seq<Item>) returns (results: Option<seq<Copy>>)
    ensures if SinglesWork(group) then results == Some(Singles(group)) else results == None
  {
    var copies: seq<Copy> := [];
    for i := 0 to |group|
      invariant SinglesWork(group[..i]) && copies == Singles(group[..i])
    {
      assert group[..i + 1] == group[..i] + [group[i]];
      SinglesAppend(group[..i], group[i]);
      if group[i].single == None {
        return None;
      }
      copies := copies + [Copy(group[i].source, group[i].single.value)];
    }
    assert group[..|group|] == group;
    assert SinglesWork(group) && copies == Singles(group);
    return Some(copies);
  }

  /** The group call and its fallback. */
  method SendGroup(group: seq<Item>, answer: Answer) returns (results: Option<seq<Copy>>)
    ensures if (|group| >= 2 ==> answer != Crashed) && (OneByOne(group, answer) ==> SinglesWork(group))
            then results == Some(GroupCopies(group, answer)) else results == None
  {
    var copies: seq<Copy> := [];
    var sentOk := false;
    if |group| >= 2 {
      match answer
      case Crashed => return None;
      case Refused =>
      case Ids(ids) =>
        copies := Zip(group, ids);
        sentOk := true;
      case Garbled(ids) =>
        copies := Zip(group, ids);
        sentOk := |ids| >= |group|;
    }
    assert sentOk <==> !OneByOne(group, answer);
    if sentOk {
      assert copies + [] == copies;
      return Some(copies);
    }
    var singles := SendSingles(group);
    if singles == None {
      return None;
    }
    return Some(copies + singles.value);
  }

  method Zip(group: seq<Item>, ids: seq<nat>) returns (copies: seq<Copy>)
    ensures copies == Zipped(group, ids)
  {
    copies := [];
    for i := 0 to Min(|group|, |ids|)
      invariant copies == Zipped(group, ids)[..i]
    {
      copies := copies + [Copy(group[i].source, ids[i])];
    }
  }

  /** `for m in others`: the ids come back without their source. */
  method SendOthers(others: seq<Item>) returns (ids: Option<seq<nat>>)
    ensures if DirectsWork(others) then ids == Some(DirectIds(others)) else ids == None
  {
    var all: seq<nat> := [];
    for i := 0 to |others|
      invariant DirectsWork(others[..i]) && all == DirectIds(others[..i])
    {
      assert others[..i + 1][..i] == others[..i];
      if others[i].direct == None {
        return None;
      }
      all := all + others[i].direct.value;
    }
    assert others[..|others|] == others;
    return Some(all);
  }

  lemma {:induction false} PreparedDownloads(items: seq<Item>)
    ensures DownloadsWork(Prepared(items)) <==> DownloadsWork(Routed(items, TgRoute, Alone))
  {
    if items != [] {
      var init, last := items[..|items| - 1], items[|items| - 1];
      PreparedDownloads(init);
      DownloadsAppend(Prepared(init), last);
      DownloadsAppend(Routed(init, TgRoute, Alone), last);
    }
  }

  lemma {:induction false} DownloadsAppend(items: seq<Item>, last: Item)
    ensures DownloadsWork(items + [last]) <==> DownloadsWork(items) && last.download != Broken
  {
    if DownloadsWork(items + [last]) {
      forall i | 0 <= i < |items|
        ensures items[i].download != Broken
      {
        assert (items + [last])[i] == items[i];
      }
      assert (items + [last])[|items|] == last;
    }
  }

  /** The first loop of `album_to_bale`. */
  method SplitForBale(items: seq<Item>) returns (prepared: seq<Item>, others: seq<Item>)
    ensures prepared == Prepared(items) && others == Routed(items, TgRoute, Direct)
  {
    prepared, others := [], [];
    for i := 0 to |items|
      invariant prepared == Prepared(items[..i]) && others == Routed(items[..i], TgRoute, Direct)
    {
      assert items[..i + 1][..i] == items[..i];
      if Groupable(items[i]) {
        prepared := prepared + [items[i]];
      } else {
        others := others + [items[i]];
      }
    }
    assert items[..|items|] == items;
  }

  method SendAlbumToBale(items: seq<Item>, answer: Answer) returns (r: Outcome)
    ensures r == AlbumToBale(items, answer)
  {
    var prepared, others := SplitForBale(items);
    PreparedDownloads(items);
    PreparedRoutes(items, Grouped);
    PreparedRoutes(items, Alone);
    PreparedTwice(items);
    if exists i :: 0 <= i < |prepared| && prepared[i].download == Broken {
      return Raised;
    }
    hide Routed;
    hide Prepared;
    hide DownloadsWork;
    hide DirectsWork;
    hide SinglesWork;
    hide DirectIds;
    hide GroupCopies;
    var group, alone := SendAlone(prepared);
    if alone == None {
      return Raised;
    }
    var grouped := SendGroup(group, answer);
    if grouped == None {
      return Raised;
    }
    var ids := SendOthers(others);
    if ids == None {
      return Raised;
    }
    var copies := alone.value + grouped.value;
    var results := Entries(copies) + seq(|ids.value|, i requires 0 <= i < |ids.value| => Bare(ids.value[i]));
    if ids.value != [] {
      assert results[|copies|].Bare?;
    } else {
      assert results == Entries(copies);
    }
    r := SortBySource(results);
  }

  // ------------------------------------------------ accounting

  function CopySource(c: Copy): Source
  {
    c.source
  }

  function ItemSource(item: Item): Source
  {
    item.source
  }

  /** The messages the copies were made of, with multiplicity. */
  function SourcesOf(copies: seq<Copy>): multiset<Source>
  {
    Image(copies, CopySource)
  }

  function MessagesOf(items: seq<Item>): multiset<Source>
  {
    Image(items, ItemSource)
  }

  /** The copies are made of the items, one for one. */
  lemma {:induction false} CopiesOfEach(copies: seq<Copy>, items: seq<Item>)
    requires |copies| == |items| && forall i | 0 <= i < |items| :: copies[i].source == items[i].source
    ensures SourcesOf(copies) == MessagesOf(items)
  {
    assert SameImages(copies, CopySource, items, ItemSource);
    SameImagesAgree(copies, CopySource, items, ItemSource);
  }

  lemma {:induction false} SinglesSources(items: seq<Item>)
    requires SinglesWork(items)
    ensures SourcesOf(Singles(items)) == MessagesOf(items)
  {
    CopiesOfEach(Singles(items), items);
  }

  /** The group's own answer accounts for each of its items once. */
  predicate Complete(group: seq<Item>, answer: Answer)
  {
    || |group| < 2 || answer.Refused?
    || ((answer.Ids? || answer.Garbled?) && |answer.ids| >= |group|)
    || (answer.Garbled? && answer.ids == [])
  }

  /** The copies of the group are one for each item exactly when the answer is complete. */
  lemma {:induction false} GroupAccounting(group: seq<Item>, answer: Answer)
    requires OneByOne(group, answer) ==> SinglesWork(group)
    requires |group| >= 2 ==> answer != Crashed
    ensures SourcesOf(GroupCopies(group, answer)) == MessagesOf(group) <==> Complete(group, answer)
  {
    hide Image;
    hide SinglesWork;
    var copies := GroupCopies(group, answer);
    if Complete(group, answer) {
      if OneByOne(group, answer) {
        assert copies == Singles(group);
        SinglesSources(group);
      } else {
        assert copies == Zipped(group, answer.ids);
        CopiesOfEach(copies, group);
      }
    } else {
      assert |copies| != |group|;
      ImageSize(copies, CopySource);
      ImageSize(group, ItemSource);
    }
  }

  lemma {:induction false} RouteStep(init: seq<Item>, last: Item)
    ensures Prepared(init + [last]) == if TgRoute(last) == Direct then Prepared(init) else Prepared(init) + [last]
    ensures forall r :: Routed(init + [last], TgRoute, r) ==
                          if TgRoute(last) == r then Routed(init, TgRoute, r) + [last] else Routed(init, TgRoute, r)
  {
    assert (init + [last])[..|init|] == init;
  }

  /** Every item that can be grouped joins the group or is sent alone. */
  lemma {:induction false} RoutesPartition(items: seq<Item>)
    ensures MessagesOf(Prepared(items)) ==
            MessagesOf(Routed(items, TgRoute, Alone)) + MessagesOf(Routed(items, TgRoute, Grouped))
  {
    if items == [] {
      assert MessagesOf([]) == multiset{};
    } else {
      hide Routed;
      hide Prepared;
      hide Image;
      var init, last := items[..|items| - 1], items[|items| - 1];
      assert items == init + [last];
      RouteStep(init, last);
      RoutesPartition(init);
      var alone, group := Routed(init, TgRoute, Alone), Routed(init, TgRoute, Grouped);
      match TgRoute(last)
      case Direct =>
      case Alone =>
        ImageAppend(Prepared(init), last, ItemSource);
        ImageAppend(alone, last, ItemSource);
        SumsSwap(MessagesOf(alone), MessagesOf(group), multiset{last.source});
      case Grouped =>
        ImageAppend(Prepared(init), last, ItemSource);
        ImageAppend(group, last, ItemSource);
        SumsAssociate(MessagesOf(alone), MessagesOf(group), multiset{last.source});
    }
  }

  /**
   `album_to_bale` returns exactly when every transfer works and no message that cannot be
   grouped was sent; the result is then sorted by source, and holds one copy of every
   message exactly when the group call has answered for every item.
   */
  lemma {:induction false} TelegramAlbumAccounting(items: seq<Item>, answer: Answer)
    ensures AlbumToBale(items, answer).Done? <==>
            TgSendsWork(items, answer) && DirectIds(Routed(items, TgRoute, Direct)) == []
    ensures AlbumToBale(items, answer).Done? ==>
              var copies := AlbumToBale(items, answer).copies;
              && Sorting.Sorted(BySource, copies)
              && (SourcesOf(copies) == MessagesOf(Prepared(items)) <==>
                  Complete(Routed(items, TgRoute, Grouped), answer))
  {
    if AlbumToBale(items, answer).Done? {
      var group, alone := Routed(items, TgRoute, Grouped), Routed(items, TgRoute, Alone);
      var copies := Singles(alone) + GroupCopies(group, answer);
      hide Routed;
      hide Image;
      hide SinglesWork;
      hide DirectsWork;
      hide DownloadsWork;
      hide Complete;
      hide GroupCopies;
      hide OneByOne;
      hide Sorting.TotalPreorder;
      Sorting.StableSortCorrect(BySource, copies);
      hide Sorting.Sorted;
      Sorting.ImageSorted(BySource, copies, CopySource);
      ImageConcat(Singles(alone), GroupCopies(group, answer), CopySource);
      SinglesSources(alone);
      GroupAccounting(group, answer);
      RoutesPartition(items);
      SumsCancel(MessagesOf(alone), SourcesOf(GroupCopies(group, answer)), MessagesOf(group));
    }
  }

  /** Items go one way each, and keep their order. */
  lemma {:induction false} RoutedExact(items: seq<Item>, route: Item -> Route, r: Route, item: Item)
    ensures item in Routed(items, route, r) <==> item in items && route(item) == r
    ensures Subsequence(Routed(items, route, r), items)
  {
    hide Subsequence;
    if items == [] {
      NothingIsSubsequence(items);
    } else {
      var init, last := items[..|items| - 1], items[|items| - 1];
      RoutedExact(init, route, r, item);
      SubsequenceTakes(Routed(init, route, r), init, last);
      assert items == init + [last];
    }
  }

  /**
   Which items of a Telegram album go where, by the names of their kinds: photos, videos,
   documents and audio files join the group if they fit and are sent alone if not, all
   others are sent as ordinary messages; and the group keeps the order of the album.
   */
  lemma {:induction false} TgKindsRouted(items: seq<Item>, item: Item)
    ensures item in Routed(items, TgRoute, Direct) <==>
            item in items &&
            item.kind != "photo" && item.kind != "video" && item.kind != "document" && item.kind != "audio"
    ensures item in items && item !in Routed(items, TgRoute, Direct) ==>
              (item in Routed(items, TgRoute, Grouped) <==> item.download == Fits) &&
              (item in Routed(items, TgRoute, Alone) <==> item.download != Fits)
    ensures Subsequence(Routed(items, TgRoute, Grouped), items)
  {
    hide Subsequence;
    RoutedExact(items, TgRoute, Direct, item);
    RoutedExact(items, TgRoute, Grouped, item);
    RoutedExact(items, TgRoute, Alone, item);
  }

  /** A kind that joins a group. */
  predicate IsMedia(kind: string)
  {
    kind == "photo" || kind == "video" || kind == "document" || kind == "audio"
  }

  /**
   When an album from Telegram returns, in words: every message of another kind was sent as
   nothing at all; every file that does not fit was found and sent alone; the group call, if
   there was one, raised nothing unexpected; and where the group was sent singly, each send worked.
   */
  lemma {:induction false} TgReturnsInWords(items: seq<Item>, answer: Answer)
    ensures AlbumToBale(items, answer).Done? <==>
            && (forall item | item in items && !IsMedia(item.kind) :: item.direct == Some([]))
            && (forall item | item in items && IsMedia(item.kind) && item.download != Fits ::
                  item.download != Broken && item.single.Some?)
            && (|Routed(items, TgRoute, Grouped)| >= 2 ==> answer != Crashed)
            && (SentSingly(Routed(items, TgRoute, Grouped), answer) ==>
                forall item | item in items && IsMedia(item.kind) && item.download == Fits :: item.single.Some?)
  {
    hide *;
    TgReturnsWhen(items, answer);
    var alone, group, direct :=
      Routed(items, TgRoute, Alone), Routed(items, TgRoute, Grouped), Routed(items, TgRoute, Direct);
    OneByOneIsSingly(group, answer);
    WorkInWords(alone);
    WorkInWords(group);
    WorkInWords(direct);
    NoDirectIds(direct);
    forall item
      ensures item in direct <==> item in items && !IsMedia(item.kind)
      ensures item in alone <==> item in items && IsMedia(item.kind) && item.download != Fits
      ensures item in group <==> item in items && IsMedia(item.kind) && item.download == Fits
    {
      TgKindsRouted(items, item);
      TgRoutesInWords(items, item);
    }
  }

  lemma {:induction false} TgReturnsWhen(items: seq<Item>, answer: Answer)
    ensures var alone, group, direct :=
              Routed(items, TgRoute, Alone), Routed(items, TgRoute, Grouped), Routed(items, TgRoute, Direct);
            AlbumToBale(items, answer).Done? <==>
            && DownloadsWork(alone) && SinglesWork(alone) && DirectsWork(direct) && DirectIds(direct) == []
            && (|group| >= 2 ==> answer != Crashed) && (OneByOne(group, answer) ==> SinglesWork(group))
  {
    hide Routed;
    hide SinglesWork;
    hide DownloadsWork;
    hide DirectsWork;
    hide OneByOne;
  }

  lemma {:induction false} TgRoutesInWords(items: seq<Item>, item: Item)
    ensures item in Routed(items, TgRoute, Direct) <==> item in items && !IsMedia(item.kind)
    ensures item in Routed(items, TgRoute, Alone) <==> item in items && IsMedia(item.kind) && item.download != Fits
    ensures item in Routed(items, TgRoute, Grouped) <==> item in items && IsMedia(item.kind) && item.download == Fits
  {
    RoutedExact(items, TgRoute, Direct, item);
    RoutedExact(items, TgRoute, Grouped, item);
    RoutedExact(items, TgRoute, Alone, item);
  }

  lemma {:induction false} OneByOneIsSingly(group: seq<Item>, answer: Answer)
    ensures OneByOne(group, answer) <==> SentSingly(group, answer)
  {
  }

  lemma {:induction false} WorkInWords(items: seq<Item>)
    ensures SinglesWork(items) <==> forall item | item in items :: item.single.Some?
    ensures DownloadsWork(items) <==> forall item | item in items :: item.download != Broken
    ensures DirectsWork(items) <==> forall item | item in items :: item.direct.Some?
  {
  }

  lemma {:induction false} NoDirectIds(items: seq<Item>)
    ensures DirectsWork(items) && DirectIds(items) == [] <==> forall item | item in items :: item.direct == Some([])
  {
    WorkInWords(items);
    if items != [] {
      var init, last := items[..|items| - 1], items[|items| - 1];
      assert items == init + [last];
      WorkInWords(init);
      NoDirectIds(init);
    }
  }

  /** The group was sent one by one: there was none, the call was refused, or its answer breaks off. */
  predicate SentSingly(group: seq<Item>, answer: Answer)
  {
    |group| < 2 || answer == Refused || (answer.Garbled? && |answer.ids| < |group|)
  }

  /**
   Every copy is tied to the message it is a copy of: its id is what the send of that message
   alone returned, or the group's answer at that message's place; and all of these are there.
   */
  lemma {:induction false} CopiesAreOwn(items: seq<Item>, answer: Answer, c: Copy)
    requires AlbumToBale(items, answer).Done?
    ensures var group := Routed(items, TgRoute, Grouped);
            c in AlbumToBale(items, answer).copies <==>
            (|| (exists item :: item in Routed(items, TgRoute, Alone) &&
                                item.source == c.source && item.single == Some(c.id))
             || (exists i :: 0 <= i < |group| && group[i].source == c.source &&
                   ((|group| >= 2 && answer.HasIds() && i < |answer.ids| && answer.ids[i] == c.id)
                    || (SentSingly(group, answer) && group[i].single == Some(c.id)))))
  {
    hide *;
    SortedCopies(items, answer, c);
    SinglesExact(Routed(items, TgRoute, Alone), c);
    GroupCopiesExact(Routed(items, TgRoute, Grouped), answer, c);
  }

  lemma {:induction false} SortedCopies(items: seq<Item>, answer: Answer, c: Copy)
    requires AlbumToBale(items, answer).Done?
    ensures var group, alone := Routed(items, TgRoute, Grouped), Routed(items, TgRoute, Alone);
            && SinglesWork(alone) && (OneByOne(group, answer) ==> SinglesWork(group))
            && (c in AlbumToBale(items, answer).copies <==> c in Singles(alone) || c in GroupCopies(group, answer))
  {
    hide Routed;
    hide SinglesWork;
    hide OneByOne;
    hide GroupCopies;
    var group, alone := Routed(items, TgRoute, Grouped), Routed(items, TgRoute, Alone);
    var unsorted := Singles(alone) + GroupCopies(group, answer);
    ByIdsOfSourcesIsTotalPreorder();
    hide Sorting.TotalPreorder;
    Sorting.StableSortCorrect(BySource, unsorted);
    hide Sorting.StableSort;
    hide Sorting.Sorted;
    assert c in multiset(AlbumToBale(items, answer).copies) <==> c in multiset(unsorted);
  }

  lemma {:induction false} ByIdsOfSourcesIsTotalPreorder()
    ensures Sorting.TotalPreorder(BySource)
  {
  }

  lemma {:induction false} SinglesExact(items: seq<Item>, c: Copy)
    requires SinglesWork(items)
    ensures c in Singles(items) <==>
            exists item :: item in items && item.source == c.source && item.single == Some(c.id)
    ensures c in Singles(items) <==>
            exists i :: 0 <= i < |items| && items[i].source == c.source && items[i].single == Some(c.id)
  {
    if item :| item in items && item.source == c.source && item.single == Some(c.id) {
      var i :| 0 <= i < |items| && items[i] == item;
      assert Singles(items)[i] == c;
    }
    if c in Singles(items) {
      var i :| 0 <= i < |items| && Singles(items)[i] == c;
      assert items[i] in items && items[i].single == Some(c.id);
    }
  }

  lemma {:induction false} ZippedExact(items: seq<Item>, ids: seq<nat>, c: Copy)
    ensures c in Zipped(items, ids) <==>
            exists i :: 0 <= i < |items| && i < |ids| && items[i].source == c.source && ids[i] == c.id
  {
    if i :| 0 <= i < |items| && i < |ids| && items[i].source == c.source && ids[i] == c.id {
      assert Zipped(items, ids)[i] == c;
    }
  }

  lemma {:induction false} GroupCopiesExact(group: seq<Item>, answer: Answer, c: Copy)
    requires OneByOne(group, answer) ==> SinglesWork(group)
    ensures c in GroupCopies(group, answer) <==>
            exists i :: 0 <= i < |group| && group[i].source == c.source &&
              ((|group| >= 2 && answer.HasIds() && i < |answer.ids| && answer.ids[i] == c.id)
               || (SentSingly(group, answer) && group[i].single == Some(c.id)))
  {
    if answer.HasIds() {
      ZippedExact(group, answer.ids, c);
    }
    if OneByOne(group, answer) {
      SinglesExact(group, c);
    }
    hide SinglesWork;
  }

  /** One item of a kind that cannot be grouped is enough: its message is sent, and then the album raises. */
  lemma {:induction false} MixedAlbumRaises(items: seq<Item>, answer: Answer, i: nat)
    requires TgSendsWork(items, answer)
    requires i < |items| && !Groupable(items[i]) && items[i].direct.Some? && items[i].direct.value != []
    ensures AlbumToBale(items, answer) == Raised
  {
    DirectIdsHold(items, i);
  }

  lemma {:induction false} DirectIdsHold(items: seq<Item>, i: nat)
    requires i < |items| && !Groupable(items[i]) && items[i].direct.Some? && items[i].direct.value != []
    requires DirectsWork(Routed(items, TgRoute, Direct))
    ensures DirectIds(Routed(items, TgRoute, Direct)) != []
  {
    var init, last := items[..|items| - 1], items[|items| - 1];
    var before := Routed(init, TgRoute, Direct);
    if TgRoute(last) == Direct {
      DirectsAppend(before, last);
    }
    if i < |items| - 1 {
      assert init[i] == items[i];
      DirectIdsHold(init, i);
    }
  }

  // ------------------------------------------------ what pair_send then records

  /** Albums in `pair_send`: nothing is recorded when the album raises, else one row, token and fingerprint per copy. */
  method PairSendAlbum(sender: PairSender, pair: Pairs.Pair, items: seq<Item>, answer: Answer, clock: seq<real>)
    returns (r: Outcome)
    requires AlbumToBale(items, answer).Done? ==> |clock| == |AlbumToBale(items, answer).copies|
    modifies sender.links, sender.cache
    ensures r == AlbumToBale(items, answer)
    ensures r == Raised ==> unchanged(sender.links) && unchanged(sender.cache)
    ensures r.Done? ==>
              && sender.links.rows == old(sender.links.rows) + NewRows(pair, Bale, r.copies, old(sender.links.nextId))
              && sender.cache.sent == old(sender.cache.sent) + NewTokens(pair, Bale, r.copies, clock)
              && sender.cache.fps ==
                  old(sender.cache.fps) + NewFps(pair, Bale, r.copies, clock, old(sender.cache.nextFp))
  {
    hide AlbumToBale;
    r := SendAlbumToBale(items, answer);
    if r.Done? {
      sender.Record(pair, Bale, r.copies, clock);
    }
  }
}
