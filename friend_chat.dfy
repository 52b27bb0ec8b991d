/**
 * The one-to-one chat view (`FriendChat`): its message list, the peer's read
 * marker, backward pagination counters and the send guard, driven by the
 * results of the asynchronous steps of the view (resolve, read state, latest
 * page, older pages, live frames, send completion), which arrive as method
 * arguments.
 */
module FriendChat {
  import opened ChatTypes
  import opened MessageMerge
  import opened ChatSocket

  const PAGE_SIZE := 50

  /** Two messages closer than this share one header (five minutes). */
  const DETAIL_GAP_MS := 5 * 60 * 1000

  // ---------------------------------------------------------------------------
  // Live append

  /** The live-frame updater: a message whose id is already listed changes
      nothing; any other goes at the end. */
  function AppendIfNew(prev: seq<Message>, m: Message): (r: seq<Message>)
    ensures |prev| <= |r| && r[..|prev|] == prev
    ensures m.id in Ids(prev) ==> r == prev
    ensures m.id !in Ids(prev) ==> |r| == |prev| + 1 && r[|prev|] == m
  {
    if exists x :: x in prev && x.id == m.id then prev else prev + [m]
  }

  /** Appending keeps the list free of duplicate ids. */
  lemma AppendIfNewKeepsUniqueIds(prev: seq<Message>, m: Message)
    requires UniqueIds(prev)
    ensures UniqueIds(AppendIfNew(prev, m))
    ensures m.id in Ids(AppendIfNew(prev, m))
  {
    var r := AppendIfNew(prev, m);
    if m.id !in Ids(prev) {
      forall i | 0 <= i < |prev| ensures r[i].id != m.id {
        assert r[i] == prev[i];
        assert prev[i] in prev;
      }
      assert r[|prev|] in r;
    } else {
      var x :| x in prev && x.id == m.id;
    }
  }

  /** The same frame delivered twice (for instance over two live
      subscriptions to one conversation) is listed once. */
  lemma AppendIfNewIdempotent(prev: seq<Message>, m: Message)
    ensures AppendIfNew(AppendIfNew(prev, m), m) == AppendIfNew(prev, m)
  {
    var r := AppendIfNew(prev, m);
    if m.id !in Ids(prev) {
      assert r[|prev|] in r;
    } else {
      var x :| x in prev && x.id == m.id;
    }
  }

  // ---------------------------------------------------------------------------
  // "Seen" marker

  /** One of my messages that the peer's read marker covers. */
  predicate SeenCandidate(m: Message, me: int, readAt: int)
  {
    m.senderId == me && m.createdAt <= readAt
  }

  /** `seenMyMessageId`: with a read marker and a (truthy) own user id, the id
      of the LAST of my messages created no later than the marker, if any;
      otherwise none. */
  method SeenMyMessageId(messages: seq<Message>, friendLastReadAt: Option<int>, myUserId: Option<int>)
    returns (seen: Option<int>)
    ensures friendLastReadAt.None? || !IsTruthyId(myUserId) ==> seen.None?
    ensures friendLastReadAt.Some? && IsTruthyId(myUserId) && seen.None? ==>
      forall i :: 0 <= i < |messages| ==> !SeenCandidate(messages[i], myUserId.value, friendLastReadAt.value)
    ensures seen.Some? ==>
      && friendLastReadAt.Some? && IsTruthyId(myUserId)
      && exists i :: 0 <= i < |messages| && messages[i].id == seen.value
           && SeenCandidate(messages[i], myUserId.value, friendLastReadAt.value)
           && forall j :: i < j < |messages| ==> !SeenCandidate(messages[j], myUserId.value, friendLastReadAt.value)
  {
    if friendLastReadAt.None? || !IsTruthyId(myUserId) {
      return None;
    }
    var t := friendLastReadAt.value;
    var me := myUserId.value;
    seen := None;
    var i := |messages|;
    while i > 0
      invariant 0 <= i <= |messages|
      invariant seen == None
      invariant forall j :: i <= j < |messages| ==> !SeenCandidate(messages[j], me, t)
    {
      i := i - 1;
      var m := messages[i];
      if m.senderId == me && m.createdAt <= t {
        seen := Some(m.id);
        return;
      }
    }
  }

  // ---------------------------------------------------------------------------
  // Day separators

  /** An entry of the rendered list: a day separator or a message bubble. The
      separator's label text is not modelled, only the day it stands for. */
  datatype RenderItem = Separator(dayKey: int) | Bubble(msg: Message)

  /** The messages of a rendered list, in order. */
  function MessagesOf(items: seq<RenderItem>): seq<Message>
  {
    if items == [] then []
    else
      var last := items[|items| - 1];
      MessagesOf(items[..|items| - 1]) + (if last.Bubble? then [last.msg] else [])
  }

  /** Every separator is followed by a message of its day. */
  ghost predicate SeparatorsLabelNext(items: seq<RenderItem>, dayOf: int -> int)
  {
    forall k :: 0 <= k < |items| && items[k].Separator? ==>
      k + 1 < |items| && items[k + 1].Bubble? && items[k].dayKey == dayOf(items[k + 1].msg.createdAt)
  }

  /** Two adjacent messages share a day. */
  ghost predicate AdjacentShareDay(items: seq<RenderItem>, dayOf: int -> int)
  {
    forall k :: 0 < k < |items| && items[k].Bubble? && items[k - 1].Bubble? ==>
      dayOf(items[k - 1].msg.createdAt) == dayOf(items[k].msg.createdAt)
  }

  /** A separator between two messages marks a change of day. */
  ghost predicate SeparatorsMarkChange(items: seq<RenderItem>, dayOf: int -> int)
  {
    forall k :: 1 < k < |items| && items[k].Bubble? && items[k - 1].Separator? ==>
      items[k - 2].Bubble? && dayOf(items[k - 2].msg.createdAt) != dayOf(items[k].msg.createdAt)
  }

  /** The rendered list opens with a separator; every separator is followed by
      a message of its day; two adjacent messages share a day; a separator
      between two messages marks a change of day. */
  ghost predicate SeparatedByDay(items: seq<RenderItem>, dayOf: int -> int)
  {
    && (|items| > 0 ==> items[0].Separator?)
    && SeparatorsLabelNext(items, dayOf)
    && AdjacentShareDay(items, dayOf)
    && SeparatorsMarkChange(items, dayOf)
  }

  lemma MessagesOfAppend(items: seq<RenderItem>, x: RenderItem)
    ensures MessagesOf(items + [x]) == MessagesOf(items) + (if x.Bubble? then [x.msg] else [])
  {
    assert (items + [x])[..|items|] == items;
  }

  /** What one step of the rendering loop appends: the message, with a
      separator for its day in front when the day is new. */
  ghost predicate StepChunk(items: seq<RenderItem>, chunk: seq<RenderItem>, m: Message, dayOf: int -> int)
  {
    && (chunk == [Bubble(m)] || chunk == [Separator(dayOf(m.createdAt)), Bubble(m)])
    && (items == [] ==> |chunk| == 2)
    && (items != [] ==>
          && items[|items| - 1].Bubble?
          && (|chunk| == 2 <==> dayOf(items[|items| - 1].msg.createdAt) != dayOf(m.createdAt)))
  }

  /** One step of the rendering loop keeps the separator layout and adds
      exactly its message. */
  lemma ExtendSeparated(items: seq<RenderItem>, chunk: seq<RenderItem>, m: Message, dayOf: int -> int)
    requires SeparatedByDay(items, dayOf) && StepChunk(items, chunk, m, dayOf)
    ensures SeparatedByDay(items + chunk, dayOf)
    ensures MessagesOf(items + chunk) == MessagesOf(items) + [m]
  {
    ExtendMessages(items, chunk, m, dayOf);
    ExtendLabelNext(items, chunk, m, dayOf);
    ExtendAdjacent(items, chunk, m, dayOf);
    ExtendMarkChange(items, chunk, m, dayOf);
  }

  lemma ExtendMessages(items: seq<RenderItem>, chunk: seq<RenderItem>, m: Message, dayOf: int -> int)
    requires chunk == [Bubble(m)] || chunk == [Separator(dayOf(m.createdAt)), Bubble(m)]
    ensures MessagesOf(items + chunk) == MessagesOf(items) + [m]
  {
    if |chunk| == 2 {
      MessagesOfAppend(items, chunk[0]);
      MessagesOfAppend(items + [chunk[0]], Bubble(m));
      assert items + [chunk[0]] + [Bubble(m)] == items + chunk;
    } else {
      MessagesOfAppend(items, Bubble(m));
    }
  }

  lemma ExtendLabelNext(items: seq<RenderItem>, chunk: seq<RenderItem>, m: Message, dayOf: int -> int)
    requires SeparatorsLabelNext(items, dayOf) && StepChunk(items, chunk, m, dayOf)
    ensures SeparatorsLabelNext(items + chunk, dayOf)
  {
    var next := items + chunk;
    forall k | 0 <= k < |next| && next[k].Separator?
      ensures k + 1 < |next| && next[k + 1].Bubble? && next[k].dayKey == dayOf(next[k + 1].msg.createdAt)
    {
      if k < |items| {
        assert next[k] == items[k];
        assert next[k + 1] == items[k + 1];
      }
    }
  }

  lemma ExtendAdjacent(items: seq<RenderItem>, chunk: seq<RenderItem>, m: Message, dayOf: int -> int)
    requires AdjacentShareDay(items, dayOf) && StepChunk(items, chunk, m, dayOf)
    ensures AdjacentShareDay(items + chunk, dayOf)
  {
    var next := items + chunk;
    forall k | 0 < k < |next| && next[k].Bubble? && next[k - 1].Bubble?
      ensures dayOf(next[k - 1].msg.createdAt) == dayOf(next[k].msg.createdAt)
    {
      if k < |items| {
        assert next[k] == items[k] && next[k - 1] == items[k - 1];
      }
    }
  }

  lemma ExtendMarkChange(items: seq<RenderItem>, chunk: seq<RenderItem>, m: Message, dayOf: int -> int)
    requires SeparatorsMarkChange(items, dayOf) && StepChunk(items, chunk, m, dayOf)
    ensures SeparatorsMarkChange(items + chunk, dayOf)
  {
    var next := items + chunk;
    forall k | 1 < k < |next| && next[k].Bubble? && next[k - 1].Separator?
      ensures next[k - 2].Bubble? && dayOf(next[k - 2].msg.createdAt) != dayOf(next[k].msg.createdAt)
    {
      if k < |items| {
        assert next[k] == items[k] && next[k - 1] == items[k - 1] && next[k - 2] == items[k - 2];
      } else {
        assert next[k - 2] == items[|items| - 1];
      }
    }
  }

  /** The rendered list of `msgs`, message by message: each message is
      preceded by a separator for its day when it is the first one or its
      day differs from the previous message's. */
  function RenderOf(msgs: seq<Message>, dayOf: int -> int): seq<RenderItem>
  {
    if msgs == [] then []
    else
      var prefix := msgs[..|msgs| - 1];
      var m := msgs[|msgs| - 1];
      var dayKey := dayOf(m.createdAt);
      RenderOf(prefix, dayOf)
        + (if prefix == [] || dayOf(prefix[|prefix| - 1].createdAt) != dayKey
           then [Separator(dayKey), Bubble(m)] else [Bubble(m)])
  }

  /** The part `RenderOf` adds for the last message. */
  lemma RenderOfUnfold(msgs: seq<Message>, dayOf: int -> int)
    requires msgs != []
    ensures var prefix := msgs[..|msgs| - 1];
            var m := msgs[|msgs| - 1];
            var dayKey := dayOf(m.createdAt);
            RenderOf(msgs, dayOf) == RenderOf(prefix, dayOf)
              + (if prefix == [] || dayOf(prefix[|prefix| - 1].createdAt) != dayKey
                 then [Separator(dayKey), Bubble(m)] else [Bubble(m)])
  {
  }

  /** The rendered list ends with the last message. */
  lemma RenderOfEndsWithLast(msgs: seq<Message>, dayOf: int -> int)
    requires msgs != []
    ensures RenderOf(msgs, dayOf) != []
    ensures RenderOf(msgs, dayOf)[|RenderOf(msgs, dayOf)| - 1] == Bubble(msgs[|msgs| - 1])
  {
    RenderOfUnfold(msgs, dayOf);
  }

  /** The rendered list holds every message once and in order. */
  lemma {:induction false} RenderOfMessages(msgs: seq<Message>, dayOf: int -> int)
    ensures MessagesOf(RenderOf(msgs, dayOf)) == msgs
  {
    if msgs != [] {
      var prefix := msgs[..|msgs| - 1];
      var m := msgs[|msgs| - 1];
      RenderOfMessages(prefix, dayOf);
      RenderOfUnfold(msgs, dayOf);
      var dayKey := dayOf(m.createdAt);
      var chunk := if prefix == [] || dayOf(prefix[|prefix| - 1].createdAt) != dayKey
                   then [Separator(dayKey), Bubble(m)] else [Bubble(m)];
      ExtendMessages(RenderOf(prefix, dayOf), chunk, m, dayOf);
      assert prefix + [m] == msgs;
    }
  }

  /** The rendered list is laid out by day. */
  lemma {:induction false} RenderOfSeparated(msgs: seq<Message>, dayOf: int -> int)
    ensures SeparatedByDay(RenderOf(msgs, dayOf), dayOf)
  {
    if msgs != [] {
      var prefix := msgs[..|msgs| - 1];
      var m := msgs[|msgs| - 1];
      RenderOfSeparated(prefix, dayOf);
      RenderOfUnfold(msgs, dayOf);
      if prefix != [] {
        RenderOfEndsWithLast(prefix, dayOf);
      }
      var dayKey := dayOf(m.createdAt);
      var chunk := if prefix == [] || dayOf(prefix[|prefix| - 1].createdAt) != dayKey
                   then [Separator(dayKey), Bubble(m)] else [Bubble(m)];
      assert StepChunk(RenderOf(prefix, dayOf), chunk, m, dayOf);
      ExtendSeparated(RenderOf(prefix, dayOf), chunk, m, dayOf);
    }
  }

  /** `renderItems`: the rendered list of the messages, computed with the
      source's running `lastDayKey`; by `RenderOfMessages` and
      `RenderOfSeparated` it holds every
      message once and in order, with a separator in front of the first
      message and of every message whose day differs from the previous
      message's. `dayOf` stands for the local calendar day of a timestamp. */
  method RenderItems(messages: seq<Message>, dayOf: int -> int) returns (items: seq<RenderItem>)
    ensures items == RenderOf(messages, dayOf)
    ensures MessagesOf(items) == messages
    ensures SeparatedByDay(items, dayOf)
  {
    items := [];
    if |messages| == 0 {
      return;
    }
    var lastDayKey: Option<int> := None;
    for i := 0 to |messages|
      invariant items == RenderOf(messages[..i], dayOf)
      invariant i == 0 ==> lastDayKey == None
      invariant i > 0 ==> lastDayKey == Some(dayOf(messages[i - 1].createdAt))
    {
      var m := messages[i];
      var dayKey := dayOf(m.createdAt);
      if lastDayKey != Some(dayKey) {
        items := items + [Separator(dayKey)];
        lastDayKey := Some(dayKey);
      }
      items := items + [Bubble(m)];
      assert messages[..i + 1][..i] == messages[..i];
    }
    assert messages[..|messages|] == messages;
    RenderOfMessages(messages, dayOf);
    RenderOfSeparated(messages, dayOf);
  }

  // ---------------------------------------------------------------------------
  // Bubble headers

  /** `messages.findIndex((x) => x.id === id)` */
  function FindIndexById(messages: seq<Message>, id: int): (idx: int)
    ensures -1 <= idx < |messages|
    ensures idx >= 0 ==> messages[idx].id == id && forall j :: 0 <= j < idx ==> messages[j].id != id
    ensures idx == -1 ==> forall j :: 0 <= j < |messages| ==> messages[j].id != id
  {
    if messages == [] then -1
    else if messages[0].id == id then 0
    else
      var r := FindIndexById(messages[1..], id);
      if r == -1 then -1 else r + 1
  }

  /** The sender/corner rule of a bubble: with `k` the first position of the
      message's id, the header is hidden exactly when `k > 0` and the message
      at `k - 1` is from the same sender and less than five minutes older. A
      message whose id is not in the list shows its header. */
  function ShowSenderDetail(messages: seq<Message>, m: Message): (shown: bool)
    ensures forall k :: 0 <= k < |messages| && messages[k].id == m.id
                        && (forall j :: 0 <= j < k ==> messages[j].id != m.id) ==>
              (shown <==> !(k > 0 && messages[k - 1].senderId == m.senderId
                            && m.createdAt - messages[k - 1].createdAt < DETAIL_GAP_MS))
    ensures (forall j :: 0 <= j < |messages| ==> messages[j].id != m.id) ==> shown
  {
    var idx := FindIndexById(messages, m.id);
    !(idx > 0 && messages[idx - 1].senderId == m.senderId
      && m.createdAt - messages[idx - 1].createdAt < DETAIL_GAP_MS)
  }

  /** The time rule of a bubble: with `k` the first position of the message's
      id, the time is hidden exactly when `k > 0` and the message at `k - 1`
      is less than five minutes older, whoever sent it; a message whose id is
      not in the list shows its time. Whenever the header is hidden, so is
      the time. */
  function ShowTime(messages: seq<Message>, m: Message): (shown: bool)
    ensures forall k :: 0 <= k < |messages| && messages[k].id == m.id
                        && (forall j :: 0 <= j < k ==> messages[j].id != m.id) ==>
              (shown <==> !(k > 0 && m.createdAt - messages[k - 1].createdAt < DETAIL_GAP_MS))
    ensures (forall j :: 0 <= j < |messages| ==> messages[j].id != m.id) ==> shown
    ensures !ShowSenderDetail(messages, m) ==> !shown
  {
    var idx := FindIndexById(messages, m.id);
    !(idx > 0 && m.createdAt - messages[idx - 1].createdAt < DETAIL_GAP_MS)
  }

  // ---------------------------------------------------------------------------

  /** `s.includes(sub)`: `sub` occurs in `s` at some position. */
  predicate Contains(s: string, sub: string)
    decreases |s|
  {
    |sub| <= |s| && (s[..|sub|] == sub || (s != [] && Contains(s[1..], sub)))
  }

  /** An occurrence of `sub` at any position `i` makes `includes` true. */
  lemma {:induction false} ContainsAt(s: string, sub: string, i: nat)
    requires i + |sub| <= |s| && s[i..i + |sub|] == sub
    ensures Contains(s, sub)
  {
    if i > 0 {
      assert s[1..][i - 1..i - 1 + |sub|] == s[i..i + |sub|];
      ContainsAt(s[1..], sub, i - 1);
    }
  }

  /** When `includes` is true, `sub` occurs at some position of `s`. */
  lemma {:induction false} ContainsWitness(s: string, sub: string) returns (i: nat)
    requires Contains(s, sub)
    ensures i + |sub| <= |s| && s[i..i + |sub|] == sub
    decreases |s|
  {
    if s[..|sub|] == sub {
      i := 0;
    } else {
      var j := ContainsWitness(s[1..], sub);
      assert s[1..][j..j + |sub|] == s[j + 1..j + 1 + |sub|];
      i := j + 1;
    }
  }

  /** The guard of `handleSend` (lines 290-293) on the view's state: the
      trimmed input when it may go out, nothing otherwise. */
  function SendGate(input: string, removed: bool, sending: bool, sendingRef: bool, lastSent: string): (r: Option<string>)
    ensures r.Some? ==> r.value == Trim(input)
  {
    var t := Trim(input);
    if t == "" || removed || sending || sendingRef || t == lastSent then None else Some(t)
  }

  /** What the guard lets through is never blank, never a repeat of the text
      last sent, never sent to a removed friend nor while a send is in flight;
      and every other input goes out. */
  lemma SendGateAdmits(input: string, removed: bool, sending: bool, sendingRef: bool, lastSent: string)
    ensures SendGate(input, removed, sending, sendingRef, lastSent).Some?
            <==> !AllWhitespace(input) && !removed && !sending && !sendingRef && Trim(input) != lastSent
  {
    TrimEmptyIffBlank(input);
  }

  /** Once a send has begun, the same input is refused until it finishes. */
  lemma SendGateBlocksRepeat(input: string, removed: bool, lastSent: string)
    ensures SendGate(input, removed, true, true, lastSent).None?
    ensures SendGate(input, removed, false, false, Trim(input)).None?
  {
  }

  class FriendChatView {
    const friendEmail: string
    const friendNickname: string
    var mounted: bool
    var loading: bool
    var conversationId: Option<int>
    var myUserId: Option<int>
    var friendUserId: Option<int>
    var messages: seq<Message>
    var friendLastReadAt: Option<int>
    var nextPage: int
    var hasMore: bool
    var loadingOlder: bool
    var isRemoved: bool
    var isSending: bool
    var sendingRef: bool
    var lastSentMessage: string
    var inputValue: string

    /** The initial state of the view's hooks (lines 39-60). */
    constructor (friendEmail: string, friendNickname: string)
      ensures this.friendEmail == friendEmail && this.friendNickname == friendNickname
      ensures mounted && loading && !isRemoved
      ensures conversationId == None && myUserId == None && friendUserId == None
      ensures messages == [] && friendLastReadAt == None
      ensures nextPage == 1 && hasMore && !loadingOlder
      ensures !isSending && !sendingRef && lastSentMessage == "" && inputValue == ""
    {
      this.friendEmail, this.friendNickname := friendEmail, friendNickname;
      mounted, loading := true, true;
      conversationId, myUserId, friendUserId := None, None, None;
      messages, friendLastReadAt := [], None;
      nextPage, hasMore, loadingOlder := 1, true, false;
      isRemoved, isSending, sendingRef := false, false, false;
      lastSentMessage, inputValue := "", "";
    }

    /** The effect's cleanup: later async results are ignored. */
    method Unmount()
      modifies this`mounted
      ensures !mounted
    {
      mounted := false;
    }

    /** The resolve step (lines 152-156), ignored once unmounted. */
    method OnResolved(r: ResolveResp)
      modifies this`conversationId, this`myUserId, this`friendUserId
      ensures mounted ==> conversationId == Some(r.conversationId) && myUserId == Some(r.myUserId)
                          && friendUserId == Some(r.friendUserId)
      ensures !mounted ==> conversationId == old(conversationId) && myUserId == old(myUserId)
                           && friendUserId == old(friendUserId)
    {
      if !mounted {
        return;
      }
      conversationId, myUserId, friendUserId := Some(r.conversationId), Some(r.myUserId), Some(r.friendUserId);
    }

    /** The read-state step (lines 159-166): the peer's marker when it arrives
        while mounted; a failed fetch is only logged. */
    method OnReadState(rs: Result<Option<int>, string>)
      modifies this`friendLastReadAt
      ensures mounted && rs.Ok? ==> friendLastReadAt == rs.value
      ensures !(mounted && rs.Ok?) ==> friendLastReadAt == old(friendLastReadAt)
    {
      if rs.Ok? && mounted {
        friendLastReadAt := rs.value;
      }
    }

    /** The latest page (lines 168-173, then the `finally` at 211): the list
        becomes that page, the next page to fetch is 1, and more pages are
        expected exactly when the page was full. */
    method OnLatestLoaded(latest: seq<Message>)
      modifies this`messages, this`nextPage, this`hasMore, this`loading
      ensures mounted ==> messages == latest && nextPage == 1
                          && hasMore == (|latest| >= PAGE_SIZE) && !loading
      ensures !mounted ==> messages == old(messages) && nextPage == old(nextPage)
                           && hasMore == old(hasMore) && loading == old(loading)
    {
      if !mounted {
        return;
      }
      messages := latest;
      nextPage := 1;
      hasMore := |latest| >= PAGE_SIZE;
      loading := false;
    }

    /** A failed start-up (lines 204-212): an error whose message mentions
        "not found" marks the friendship as removed. */
    method OnInitFailed(errorMessage: string)
      modifies this`isRemoved, this`loading
      ensures isRemoved == (old(isRemoved) || Contains(errorMessage, "not found"))
      ensures loading == (if mounted then false else old(loading))
    {
      if Contains(errorMessage, "not found") {
        isRemoved := true;
      }
      if mounted {
        loading := false;
      }
    }

    /** The live callback (lines 176-188). A read receipt never touches the
        list and moves the peer's marker only when the reader is the peer. Any
        other frame is appended unless its id is already listed. */
    method OnLiveFrame(f: ConvFrame)
      modifies this`messages, this`friendLastReadAt
      ensures f.ReadReceipt? ==> messages == old(messages)
      ensures f.ReadReceipt? && friendUserId == Some(f.readerUserId) ==> friendLastReadAt == f.lastReadAt
      ensures f.ReadReceipt? && friendUserId != Some(f.readerUserId) ==> friendLastReadAt == old(friendLastReadAt)
      ensures f.Chat? ==> messages == AppendIfNew(old(messages), f.msg)
                          && friendLastReadAt == old(friendLastReadAt)
    {
      match f
      case ReadReceipt(reader, lastReadAt) =>
        if friendUserId == Some(reader) {
          friendLastReadAt := lastReadAt;
        }
      case Chat(m) =>
        messages := AppendIfNew(messages, m);
    }

    /** The friend-event callback (lines 192-202): a removal naming this
        friend by e-mail or nickname marks the chat as removed. */
    method OnFriendEvent(ev: FriendEvent)
      modifies this`isRemoved
      ensures isRemoved == (old(isRemoved) ||
        (ev.FriendRemoved? && ev.removedFriend.Some?
         && (ev.removedFriend.value.email == friendEmail || ev.removedFriend.value.nickname == friendNickname)))
    {
      if ev.FriendRemoved? && ev.removedFriend.Some? {
        var f := ev.removedFriend.value;
        if f.email == friendEmail || f.nickname == friendNickname {
          isRemoved := true;
        }
      }
    }

    /** The guard and first step of `loadOlder` (lines 225-226): nothing
        without a conversation, while a load is in flight, or once there is no
        more; otherwise the load starts and asks for page `nextPage`. */
    method LoadOlderBegin() returns (request: Option<int>)
      modifies this`loadingOlder
      ensures !IsTruthyId(conversationId) || old(loadingOlder) || !hasMore ==>
        request.None? && loadingOlder == old(loadingOlder)
      ensures IsTruthyId(conversationId) && !old(loadingOlder) && hasMore ==>
        request == Some(nextPage) && loadingOlder
    {
      if !IsTruthyId(conversationId) || loadingOlder || !hasMore {
        return None;
      }
      loadingOlder := true;
      request := Some(nextPage);
    }

    /** The end of `loadOlder` (lines 232-250): a fetched page is merged in
        front, the page counter moves on by one, and an empty or last page ends
        pagination; a failed fetch changes nothing. Either way the load is over. */
    method LoadOlderFinish(result: Result<MessagePage, string>)
      modifies this`messages, this`nextPage, this`hasMore, this`loadingOlder
      ensures !loadingOlder
      ensures result.Err? ==> messages == old(messages) && nextPage == old(nextPage) && hasMore == old(hasMore)
      ensures result.Ok? ==>
        && messages == PrependOlder(old(messages), result.value.content)
        && nextPage == old(nextPage) + 1
        && hasMore == (old(hasMore) && !result.value.last && |result.value.content| > 0)
    {
      if result.Ok? {
        var page := result.value;
        messages := PrependOlder(messages, page.content);
        nextPage := nextPage + 1;
        if page.last || |page.content| == 0 {
          hasMore := false;
        }
      }
      loadingOlder := false;
    }

    /** `handleInputChange` */
    method SetInput(value: string)
      modifies this`inputValue
      ensures inputValue == value
    {
      inputValue := value;
    }

    /** The guard and first step of `handleSend` (lines 290-300): the text
        `SendGate` lets through goes out and the send is marked in progress
        with that text as the last one sent; a blocked send changes nothing. */
    method BeginSend() returns (text: Option<string>)
      modifies this`isSending, this`sendingRef, this`lastSentMessage
      ensures text == SendGate(old(inputValue), isRemoved, old(isSending), old(sendingRef), old(lastSentMessage))
      ensures text.None? ==>
        && isSending == old(isSending) && sendingRef == old(sendingRef)
        && lastSentMessage == old(lastSentMessage)
      ensures text.Some? ==> isSending && sendingRef && lastSentMessage == text.value
    {
      text := SendGate(inputValue, isRemoved, isSending, sendingRef, lastSentMessage);
      if text.Some? {
        isSending, sendingRef, lastSentMessage := true, true, text.value;
      }
    }

    /** The end of `handleSend` (lines 302-351 without the scrolling): a
        rejected send clears the last-sent text so the user can retry; any
        other outcome clears the input (also when the socket was not connected
        and nothing went out). The send is no longer in progress. */
    method FinishSend(outcome: SendOutcome)
      modifies this`isSending, this`sendingRef, this`lastSentMessage, this`inputValue
      ensures !isSending && !sendingRef
      ensures outcome.ResolveFailed? ==> lastSentMessage == "" && inputValue == old(inputValue)
      ensures !outcome.ResolveFailed? ==> inputValue == "" && lastSentMessage == old(lastSentMessage)
    {
      if outcome.ResolveFailed? {
        lastSentMessage := "";
      } else {
        inputValue := "";
      }
      isSending, sendingRef := false, false;
    }

    /** The one-second timer started by every send (lines 353-355). */
    method ExpireLastSent()
      modifies this`lastSentMessage
      ensures lastSentMessage == ""
    {
      lastSentMessage := "";
    }
  }
}
