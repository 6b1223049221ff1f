/**
 The text path of `msg_to_bale` (bridge/transfer/mirror_t2b.py), which the long texts of
 `msg_to_tg` share (mirror_b2t.py): the header and the text are cut into parts, each part
 is one message, and only the first replies.
 */
module TextSend {
  import opened Sequences
  import opened Splitting

  /** A send call the other platform has accepted. */
  datatype Post = Post(id: nat, text: string, replyTo: Option<nat>)

  function Texts(posts: seq<Post>): (texts: seq<string>)
    ensures |texts| == |posts| && forall i | 0 <= i < |posts| :: texts[i] == posts[i].text
  {
    seq(|posts|, i requires 0 <= i < |posts| => posts[i].text)
  }

  /** The posts are the parts in order; the first one replies, no other does; ids are fresh. */
  predicate Delivers(posts: seq<Post>, parts: seq<string>, replyTo: Option<nat>, first: nat)
  {
    && |posts| <= |parts|
    && forall i | 0 <= i < |posts| :: posts[i] == Post(first + i, parts[i], if i == 0 then replyTo else None)
  }

  class Chat {
    var posts: seq<Post>
    var next: nat

    constructor ()
      ensures posts == [] && next == 0
    {
      posts, next := [], 0;
    }

    method Accept(text: string, replyTo: Option<nat>) returns (id: nat)
      modifies this
      ensures id == old(next) && next == id + 1 && posts == old(posts) + [Post(id, text, replyTo)]
    {
      id := next;
      posts := posts + [Post(id, text, replyTo)];
      next := next + 1;
    }
  }

  /** The loop over the parts; `accepts` says which call works, and the first that does not raises. */
  method SendParts(chat: Chat, parts: seq<string>, replyTo: Option<nat>, accepts: nat -> bool)
    returns (ids: Option<seq<nat>>, ghost sent: seq<Post>)
    modifies chat
    ensures chat.posts == old(chat.posts) + sent && chat.next == old(chat.next) + |sent|
    ensures Delivers(sent, parts, replyTo, old(chat.next))
    ensures forall i | 0 <= i < |sent| :: accepts(i)
    ensures if ids.Some? then |sent| == |parts| && ids.value == Ids(sent) else |sent| < |parts| && !accepts(|sent|)
  {
    var made: seq<nat> := [];
    sent := [];
    for i := 0 to |parts|
      invariant |sent| == i && Delivers(sent, parts, replyTo, old(chat.next))
      invariant chat.posts == old(chat.posts) + sent && chat.next == old(chat.next) + i
      invariant made == Ids(sent)
      invariant forall j | 0 <= j < i :: accepts(j)
    {
      if !accepts(i) {
        return None, sent;
      }
      var reply := if i == 0 then replyTo else None;
      var id := chat.Accept(parts[i], reply);
      sent := sent + [Post(id, parts[i], reply)];
      made := made + [id];
    }
    return Some(made), sent;
  }

  function Ids(posts: seq<Post>): (ids: seq<nat>)
    ensures |ids| == |posts| && forall i | 0 <= i < |posts| :: ids[i] == posts[i].id
  {
    seq(|posts|, i requires 0 <= i < |posts| => posts[i].id)
  }

  /**
   Sends header and text. On success the messages spell the whole text, there are at most
   about three for every `limit` characters, and every created id is returned; on failure
   those sent before stay in the chat and no id is returned.
   */
  method SendText(chat: Chat, header: string, text: string, limit: nat, replyTo: Option<nat>, accepts: nat -> bool)
    returns (ids: Option<seq<nat>>, ghost sent: seq<Post>)
    requires limit >= 1
    modifies chat
    ensures chat.posts == old(chat.posts) + sent && chat.next == old(chat.next) + |sent|
    ensures forall i | 0 <= i < |sent| ::
              && sent[i].id == old(chat.next) + i && |sent[i].text| <= limit
              && sent[i].replyTo == if i == 0 then replyTo else None
    ensures Join(Texts(sent)) <= JoinHeader(header, text)
    ensures ids.Some? ==> sent != [] && ids.value == Ids(sent) && Join(Texts(sent)) == JoinHeader(header, text)
    ensures ids.Some? ==> (|sent| / 3) * (limit + 1) <= |JoinHeader(header, text)|
    ensures ids == None ==> !accepts(|sent|)
  {
    hide *;
    var full := JoinHeader(header, text);
    var parts := SplitText(full, limit);
    SomeParts(parts, full);
    ids, sent := SendParts(chat, parts, replyTo, accepts);
    DeliveredParts(sent, parts, replyTo, old(chat.next));
    if ids.Some? {
      PartCountBound(parts, limit);
      JoinLength(parts);
    }
  }

  lemma {:induction false} SomeParts(parts: seq<string>, full: string)
    requires Join(parts) == full && (full == "" ==> parts == [""])
    ensures parts != []
  {
  }

  /** What was delivered is the beginning of the parts. */
  lemma {:induction false} DeliveredParts(sent: seq<Post>, parts: seq<string>, replyTo: Option<nat>, first: nat)
    requires Delivers(sent, parts, replyTo, first)
    ensures forall i | 0 <= i < |sent| ::
              sent[i].id == first + i && sent[i].text == parts[i] && sent[i].replyTo == if i == 0 then replyTo else None
    ensures Join(Texts(sent)) <= Join(parts)
    ensures |sent| == |parts| ==> Join(Texts(sent)) == Join(parts)
  {
    PrefixJoins(sent, parts);
    if |sent| == |parts| {
      assert Texts(sent) == parts;
    }
  }

  lemma {:induction false} PrefixJoins(sent: seq<Post>, parts: seq<string>)
    requires |sent| <= |parts| && forall i | 0 <= i < |sent| :: sent[i].text == parts[i]
    ensures Join(Texts(sent)) <= Join(parts)
  {
    assert Texts(sent) == parts[..|sent|];
    assert parts == parts[..|sent|] + parts[|sent|..];
    JoinConcat(parts[..|sent|], parts[|sent|..]);
  }
}
