/**
 * The paginated message list (`PaginatedMessages`): the latest page on load,
 * older pages counted up to the server's page total, live frames reconciled
 * with optimistic copies by id or by temporary id, a display order by
 * `timestamp || createdAt`, and optimistic sending.
 */
module PaginatedMessages {
  import opened ChatTypes
  import opened MessageMerge
  import opened ChatSocket

  const MESSAGES_PER_PAGE := 50

  // ---------------------------------------------------------------------------
  // Live reconciliation

  /** JavaScript truthiness of an optional string: absent and "" are falsy. */
  predicate IsTruthyText(o: Option<string>)
  {
    o.Some? && o.value != ""
  }

  /** An entry answers to an incoming frame when the ids are equal, or when
      both carry the same non-empty temporary id. */
  predicate Matches(msg: Message, incoming: Message)
  {
    msg.id == incoming.id
    || (IsTruthyText(msg.tempId) && IsTruthyText(incoming.tempId) && msg.tempId == incoming.tempId)
  }

  /** The match test does not depend on which side is the list entry, and
      every message answers to itself. */
  lemma MatchesSymmetric(a: Message, b: Message)
    ensures Matches(a, b) <==> Matches(b, a)
    ensures Matches(a, a)
  {
  }

  function AnyMatch(prev: seq<Message>, incoming: Message): (found: bool)
    ensures found <==> exists i :: 0 <= i < |prev| && Matches(prev[i], incoming)
  {
    if prev == [] then false
    else if Matches(prev[0], incoming) then true
    else
      var found := AnyMatch(prev[1..], incoming);
      assert found ==> exists i :: 0 <= i < |prev| && Matches(prev[i], incoming) by {
        if found {
          var i :| 0 <= i < |prev[1..]| && Matches(prev[1..][i], incoming);
          assert Matches(prev[i + 1], incoming);
        }
      }
      found
  }

  function ReplaceMatches(prev: seq<Message>, incoming: Message): (r: seq<Message>)
    ensures |r| == |prev|
    ensures forall i :: 0 <= i < |prev| ==> r[i] == (if Matches(prev[i], incoming) then incoming else prev[i])
  {
    if prev == [] then []
    else [if Matches(prev[0], incoming) then incoming else prev[0]] + ReplaceMatches(prev[1..], incoming)
  }

  /** The live updater: when some entries answer to the incoming frame, each
      of them is replaced by it in place and nothing is added; otherwise the
      frame is appended. */
  function Reconcile(prev: seq<Message>, incoming: Message): (r: seq<Message>)
    ensures (exists i :: 0 <= i < |prev| && Matches(prev[i], incoming)) ==>
      && |r| == |prev|
      && incoming in r
      && forall i :: 0 <= i < |prev| ==> r[i] == (if Matches(prev[i], incoming) then incoming else prev[i])
    ensures (forall i :: 0 <= i < |prev| ==> !Matches(prev[i], incoming)) ==> r == prev + [incoming]
  {
    if AnyMatch(prev, incoming) then ReplaceMatches(prev, incoming) else prev + [incoming]
  }

  /** Delivering the same frame twice leaves the list as after the first. */
  lemma ReconcileIdempotent(prev: seq<Message>, incoming: Message)
    ensures Reconcile(Reconcile(prev, incoming), incoming) == Reconcile(prev, incoming)
  {
    var once := Reconcile(prev, incoming);
    assert incoming in once;
    var k :| 0 <= k < |once| && once[k] == incoming;
    assert Matches(once[k], incoming);
    forall i | 0 <= i < |once| ensures Matches(once[i], incoming) ==> once[i] == incoming {
      if i < |prev| && !Matches(prev[i], incoming) {
        assert once[i] == prev[i];
      }
    }
  }

  /** A server copy carrying the optimistic copy's temporary id takes its
      place: the list keeps its length and the optimistic copy is gone. */
  lemma EchoWithTempIdReplaces(prev: seq<Message>, optimistic: Message, echo: Message)
    requires optimistic in prev && IsTruthyText(optimistic.tempId) && echo.tempId == optimistic.tempId
    requires echo != optimistic
    ensures |Reconcile(prev, echo)| == |prev|
    ensures echo in Reconcile(prev, echo)
    ensures forall i :: 0 <= i < |prev| && prev[i] == optimistic ==> Reconcile(prev, echo)[i] == echo
  {
    var k :| 0 <= k < |prev| && prev[k] == optimistic;
    assert Matches(prev[k], echo);
  }

  /** A server copy WITHOUT a temporary id and with a new id (what the server
      sends back for a message this view sent optimistically) is appended, and
      the optimistic copy stays beside it. */
  lemma EchoWithoutTempIdDuplicates(prev: seq<Message>, optimistic: Message, echo: Message)
    requires optimistic in prev && echo.tempId.None? && echo.id !in Ids(prev)
    ensures Reconcile(prev, echo) == prev + [echo]
    ensures optimistic in Reconcile(prev, echo)
  {
    forall i | 0 <= i < |prev| ensures !Matches(prev[i], echo) {
      assert prev[i] in prev;
    }
  }

  // ---------------------------------------------------------------------------
  // Display order

  /** `a.timestamp || a.createdAt`: a present timestamp is a non-empty ISO
      string, hence truthy, so it wins over `createdAt`. */
  function SortKey(m: Message): (k: int)
    ensures m.timestamp.None? ==> k == m.createdAt
    ensures m.timestamp.Some? ==> k == m.timestamp.value
  {
    if m.timestamp.Some? then m.timestamp.value else m.createdAt
  }

  predicate SortedByKey(s: seq<Message>)
  {
    forall i, j :: 0 <= i < j < |s| ==> SortKey(s[i]) <= SortKey(s[j])
  }

  /** `m` placed before the first entry whose key is not smaller. */
  function Insert(m: Message, s: seq<Message>): (r: seq<Message>)
    requires SortedByKey(s)
    ensures SortedByKey(r)
    ensures multiset(r) == multiset(s) + multiset{m}
    ensures |r| == |s| + 1 && (r[0] == m || (s != [] && r[0] == s[0]))
  {
    if s == [] || SortKey(m) <= SortKey(s[0]) then [m] + s
    else
      var rest := Insert(m, s[1..]);
      ConsSorted(s[0], rest);
      assert multiset(s) == multiset{s[0]} + multiset(s[1..]) by {
        assert s == [s[0]] + s[1..];
      }
      assert multiset([s[0]] + rest) == multiset{s[0]} + multiset(rest);
      [s[0]] + rest
  }

  /** A key no larger than the head of a sorted list can go in front of it. */
  lemma ConsSorted(x: Message, s: seq<Message>)
    requires SortedByKey(s)
    requires s != [] ==> SortKey(x) <= SortKey(s[0])
    ensures SortedByKey([x] + s)
  {
    var r := [x] + s;
    forall i, j | 0 <= i < j < |r| ensures SortKey(r[i]) <= SortKey(r[j]) {
      if i == 0 && j > 1 {
        assert SortKey(s[0]) <= SortKey(s[j - 1]);
      }
    }
  }

  /** `sortedMessages`: the messages ordered by `SortKey`, nothing lost and
      nothing added. */
  function SortedMessages(s: seq<Message>): (r: seq<Message>)
    ensures SortedByKey(r)
    ensures multiset(r) == multiset(s)
  {
    if s == [] then []
    else
      assert s == [s[0]] + s[1..];
      Insert(s[0], SortedMessages(s[1..]))
  }

  /** A list already in display order is left as it is. */
  lemma {:induction false} SortedIsFixpoint(s: seq<Message>)
    requires SortedByKey(s)
    ensures SortedMessages(s) == s
  {
    if s != [] {
      SortedIsFixpoint(s[1..]);
      assert SortedMessages(s[1..]) == s[1..];
      assert s == [s[0]] + s[1..];
    }
  }

  // ---------------------------------------------------------------------------
  // Optimistic copies

  function DigitChar(d: nat): char
    requires d < 10
  {
    ('0' as int + d) as char
  }

  /** Decimal rendering of a non-negative integer. */
  function DecimalString(n: nat): (r: string)
    ensures |r| >= 1
    ensures forall i :: 0 <= i < |r| ==> '0' <= r[i] <= '9'
    ensures r[|r| - 1] == DigitChar(n % 10)
  {
    (if n < 10 then "" else DecimalString(n / 10)) + [DigitChar(n % 10)]
  }

  /** Different numbers have different decimal renderings. */
  lemma {:induction false} DecimalStringInjective(a: nat, b: nat)
    requires DecimalString(a) == DecimalString(b)
    ensures a == b
  {
    var da, db := DecimalString(a), DecimalString(b);
    assert a % 10 == b % 10 by {
      assert DigitChar(a % 10) == da[|da| - 1] == DigitChar(b % 10);
    }
    if a >= 10 && b >= 10 {
      assert DecimalString(a / 10) == da[..|da| - 1];
      assert DecimalString(b / 10) == db[..|db| - 1];
      DecimalStringInjective(a / 10, b / 10);
      assert a == 10 * (a / 10) + a % 10;
      assert b == 10 * (b / 10) + b % 10;
    }
  }

  /** `temp_${now}` */
  function TempIdAt(now: nat): (t: string)
    ensures t != ""
  {
    "temp_" + DecimalString(now)
  }

  /** Optimistic copies made at different instants carry different temporary
      ids. */
  lemma TempIdsDistinct(now1: nat, now2: nat)
    requires now1 != now2
    ensures TempIdAt(now1) != TempIdAt(now2)
  {
    if TempIdAt(now1) == TempIdAt(now2) {
      assert TempIdAt(now1)[5..] == DecimalString(now1);
      assert TempIdAt(now2)[5..] == DecimalString(now2);
      DecimalStringInjective(now1, now2);
    }
  }

  /** The optimistic copy of a message sent at `now` (milliseconds). */
  function OptimisticCopy(conversationId: int, senderId: int, text: string, now: nat): (r: Message)
    ensures r.id == now && r.tempId == Some(TempIdAt(now)) && IsTruthyText(r.tempId)
    ensures r.conversationId == conversationId && r.senderId == senderId && r.content == text
    ensures SortKey(r) == now && r.createdAt == now
  {
    Message(now, conversationId, senderId, text, now, Some(TempIdAt(now)), Some(now))
  }

  /** Optimistic copies made at different instants never answer to each
      other: they differ both in id and in temporary id. */
  lemma OptimisticCopiesApart(conversationId: int, senderId: int, text1: string, text2: string, now1: nat, now2: nat)
    requires now1 != now2
    ensures !Matches(OptimisticCopy(conversationId, senderId, text1, now1),
                     OptimisticCopy(conversationId, senderId, text2, now2))
  {
    TempIdsDistinct(now1, now2);
  }

  // ---------------------------------------------------------------------------

  class PaginatedView {
    var conversationId: int
    const currentUserId: int
    var messages: seq<Message>
    var currentPage: int
    var totalPages: int
    var loading: bool
    var initialLoad: bool
    var hasMoreMessages: bool
    var loadingRef: bool

    /** The initial state of the view's hooks (lines 25-35). */
    constructor (conversationId: int, currentUserId: int)
      ensures this.conversationId == conversationId && this.currentUserId == currentUserId
      ensures messages == [] && currentPage == 0 && totalPages == 0
      ensures !loading && initialLoad && hasMoreMessages && !loadingRef
    {
      this.conversationId, this.currentUserId := conversationId, currentUserId;
      messages, currentPage, totalPages := [], 0, 0;
      loading, initialLoad, hasMoreMessages, loadingRef := false, true, true, false;
    }

    /** The reset effect: a (truthy) conversation id clears the list and the
        counters; the answer says whether the initial load then starts. */
    method ConversationChanged(newId: int) returns (startLoad: bool)
      modifies this`conversationId, this`messages, this`currentPage, this`totalPages, this`hasMoreMessages
      ensures conversationId == newId && startLoad == (newId != 0)
      ensures newId != 0 ==> messages == [] && currentPage == 0 && totalPages == 0 && hasMoreMessages
      ensures newId == 0 ==> messages == old(messages) && currentPage == old(currentPage)
                             && totalPages == old(totalPages) && hasMoreMessages == old(hasMoreMessages)
    {
      conversationId := newId;
      startLoad := newId != 0;
      if newId != 0 {
        messages, currentPage, totalPages, hasMoreMessages := [], 0, 0, true;
      }
    }

    /** The first step of `loadInitialMessages`: nothing without a
        conversation; otherwise the view shows its loading state. */
    method LoadInitialBegin() returns (started: bool)
      modifies this`loading, this`initialLoad
      ensures started == (conversationId != 0)
      ensures started ==> loading && initialLoad
      ensures !started ==> loading == old(loading) && initialLoad == old(initialLoad)
    {
      if conversationId == 0 {
        return false;
      }
      loading, initialLoad := true, true;
      started := true;
    }

    /** The end of `loadInitialMessages`: the latest page becomes the list;
        the page total comes from page 0, and older pages exist exactly when
        there is more than one page. A failed step keeps what came before it.
        Loading is over either way. */
    method LoadInitialFinish(latest: Result<seq<Message>, string>, pageInfo: Result<MessagePage, string>)
      modifies this`messages, this`currentPage, this`totalPages, this`hasMoreMessages, this`loading, this`initialLoad
      ensures !loading && !initialLoad
      ensures latest.Err? ==> messages == old(messages) && currentPage == old(currentPage)
                              && totalPages == old(totalPages) && hasMoreMessages == old(hasMoreMessages)
      ensures latest.Ok? ==> messages == latest.value && currentPage == 0
      ensures latest.Ok? && pageInfo.Ok? ==> totalPages == pageInfo.value.totalPages
                                             && hasMoreMessages == (pageInfo.value.totalPages > 1)
      ensures latest.Ok? && pageInfo.Err? ==> totalPages == old(totalPages) && hasMoreMessages == old(hasMoreMessages)
    {
      if latest.Ok? {
        messages, currentPage := latest.value, 0;
        if pageInfo.Ok? {
          totalPages := pageInfo.value.totalPages;
          hasMoreMessages := pageInfo.value.totalPages > 1;
        }
      }
      initialLoad, loading := false, false;
    }

    /** The guard and first step of `loadOlderMessages`: nothing without a
        conversation, once there is no more, or while a load runs; when the
        next page would be past the last one, pagination ends; otherwise the
        next page is requested. */
    method LoadOlderBegin() returns (request: Option<int>)
      modifies this`hasMoreMessages, this`loadingRef, this`loading
      ensures conversationId == 0 || !old(hasMoreMessages) || old(loadingRef) ==>
        request.None? && hasMoreMessages == old(hasMoreMessages)
        && loadingRef == old(loadingRef) && loading == old(loading)
      ensures conversationId != 0 && old(hasMoreMessages) && !old(loadingRef) && currentPage + 1 >= totalPages ==>
        request.None? && !hasMoreMessages && loadingRef == old(loadingRef) && loading == old(loading)
      ensures conversationId != 0 && old(hasMoreMessages) && !old(loadingRef) && currentPage + 1 < totalPages ==>
        request == Some(currentPage + 1) && hasMoreMessages && loadingRef && loading
    {
      if conversationId == 0 || !hasMoreMessages || loadingRef {
        return None;
      }
      var nextPage := currentPage + 1;
      if nextPage >= totalPages {
        hasMoreMessages := false;
        return None;
      }
      loadingRef, loading := true, true;
      request := Some(nextPage);
    }

    /** The end of `loadOlderMessages` for page `nextPage`: a non-empty page
        is merged in front and becomes the current page, and more pages are
        expected unless it was the last; an empty page ends pagination; a
        failed fetch changes nothing. Loading is over either way. */
    method LoadOlderFinish(nextPage: int, result: Result<MessagePage, string>)
      modifies this`messages, this`currentPage, this`hasMoreMessages, this`loading, this`loadingRef
      ensures !loading && !loadingRef
      ensures result.Err? ==> messages == old(messages) && currentPage == old(currentPage)
                              && hasMoreMessages == old(hasMoreMessages)
      ensures result.Ok? && |result.value.content| > 0 ==>
        && messages == PrependOlder(old(messages), result.value.content)
        && currentPage == nextPage
        && hasMoreMessages == !result.value.last
      ensures result.Ok? && |result.value.content| == 0 ==>
        messages == old(messages) && currentPage == old(currentPage) && !hasMoreMessages
    {
      if result.Ok? {
        var olderAsc := Reverse(result.value.content);
        if |olderAsc| > 0 {
          messages := PrependOlder(messages, result.value.content);
          currentPage := nextPage;
          hasMoreMessages := !result.value.last;
        } else {
          hasMoreMessages := false;
        }
      }
      loading, loadingRef := false, false;
    }

    /** The live callback: the frame is reconciled into the list. */
    method OnLiveMessage(incoming: Message)
      modifies this`messages
      ensures messages == Reconcile(old(messages), incoming)
      ensures incoming in messages
    {
      messages := Reconcile(messages, incoming);
    }

    /** `sendMessage`: blank text or no conversation does nothing; otherwise an
        optimistic copy of the trimmed text is appended at once and the
        trimmed text is handed to the socket, which publishes it only when
        connected. The optimistic copy stays either way. */
    method SendMessage(content: string, now: nat, socket: ChatSocket)
      modifies this`messages, socket`published
      ensures Trim(content) == "" || conversationId == 0 ==>
        messages == old(messages) && socket.published == old(socket.published)
      ensures Trim(content) != "" && conversationId != 0 ==>
        && messages == old(messages) + [OptimisticCopy(conversationId, currentUserId, Trim(content), now)]
        && socket.published == old(socket.published)
             + (if socket.connected then [ChatSend(conversationId, currentUserId, Trim(content))] else [])
    {
      var text := Trim(content);
      if text == "" || conversationId == 0 {
        return;
      }
      messages := messages + [OptimisticCopy(conversationId, currentUserId, text, now)];
      var _ := socket.SendToConversation(conversationId, currentUserId, text);
    }
  }
}
