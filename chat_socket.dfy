/**
 * The process-wide chat connection state of the `useChatSocket` hook: one
 * shared STOMP client, the table of conversation subscriptions, the observers
 * of friend events and the presence map, all kept at module level and shared
 * by every view that uses the hook.
 *
 * Callbacks and STOMP subscriptions are identities (numbers); the broker's side
 * of the connection is the map `brokerSubs` from each live subscription to the
 * destination and callback its frames go to. The transport is replaced by
 * events the environment calls: `OnConnect`, `OnConnectionLost`, and frames
 * passed to `OnFriendFrame`.
 */
module ChatSocket {
  import opened ChatTypes

  type CallbackId = nat
  type SubId = nat

  /** One entry of `convSubs`: the view's callback and the STOMP subscription
      currently recorded for it, if any. */
  datatype SubRecord = SubRecord(cb: CallbackId, sub: Option<SubId>)

  /** Where the broker delivers the frames of one live subscription. */
  datatype Destination =
    | ConversationQueue(conversationId: int, handler: CallbackId)
    | FriendQueue

  /** A frame the client publishes. */
  datatype Outbound =
    | SnapshotRequest
    | ChatSend(conversationId: int, senderId: int, content: string)

  datatype PresenceEntry = PresenceEntry(userId: int, online: bool)

  datatype Friend = Friend(email: string, nickname: string)

  /** A decoded event on the per-user friends queue. A snapshot whose `users`
      is not an array carries `None`. */
  datatype FriendEvent =
    | PresenceSnapshot(users: Option<seq<PresenceEntry>>)
    | PresenceUpdate(userId: int, online: bool)
    | FriendRemoved(removedFriend: Option<Friend>)
    | OtherFriendEvent(kind: string)

  /** A frame on the friends queue; a body that is not JSON is `Undecodable`. */
  datatype FriendFrame = Decoded(event: FriendEvent) | Undecodable

  /** The unsubscribe function `subscribeToConversation` hands back: the one
      built while disconnected, or the one that captured a live subscription. */
  datatype Unsubscriber =
    | PendingUnsubscriber(conversationId: int)
    | LiveUnsubscriber(conversationId: int, sub: SubId)

  /** The legacy ChatMessage argument of `sendMessage`. */
  datatype ChatMessageReq = ChatMessageReq(from: string, to: string, content: string)

  datatype SendOutcome = NotConnected | Published | ResolveFailed(reason: string)

  // ---------------------------------------------------------------------------
  // Presence

  /** The presence map a snapshot leaves behind: cleared, then every entry set
      in array order. */
  function SnapshotMap(users: seq<PresenceEntry>): (m: map<int, bool>)
    ensures m.Keys == set u | u in users :: u.userId
  {
    if users == [] then map[]
    else
      var prefix := users[..|users| - 1];
      var last := users[|users| - 1];
      assert forall u :: u in users <==> u in prefix || u == last;
      SnapshotMap(prefix)[last.userId := last.online]
  }

  /** After a snapshot each listed user has the status of the LAST entry that
      names them. */
  lemma {:induction false} SnapshotLastWins(users: seq<PresenceEntry>, i: nat)
    requires i < |users|
    requires forall j :: i < j < |users| ==> users[j].userId != users[i].userId
    ensures users[i].userId in SnapshotMap(users)
    ensures SnapshotMap(users)[users[i].userId] == users[i].online
  {
    if i < |users| - 1 {
      SnapshotLastWins(users[..|users| - 1], i);
    }
  }

  /** `presenceState.get(userId) || false` */
  function OnlineStatus(presence: map<int, bool>, userId: int): (online: bool)
    ensures userId !in presence ==> !online
    ensures userId in presence ==> online == presence[userId]
  {
    if userId in presence then presence[userId] else false
  }

  /** Some key of a non-empty key set: the next one a `forEach` visits. */
  method PickKey(keys: set<int>) returns (k: int)
    requires keys != {}
    ensures k in keys
  {
    // a non-empty set has a member
    if forall x :: x !in keys {
      assert false;
    }
    k :| k in keys;
  }

  /** Drops the subscription a record holds, if it holds one and it is live. */
  function Drop(brokerSubs: map<SubId, Destination>, sub: Option<SubId>): (r: map<SubId, Destination>)
    ensures sub.None? ==> r == brokerSubs
    ensures sub.Some? ==> sub.value !in r && r.Keys == brokerSubs.Keys - {sub.value}
    ensures forall s :: s in r ==> r[s] == brokerSubs[s]
  {
    if sub.Some? then brokerSubs - {sub.value} else brokerSubs
  }

  /** Conversation `c` is registered in `conv` and its record holds a
      subscription of `subs` that delivers to the recorded callback. */
  ghost predicate ReplayedIn(conv: map<int, SubRecord>, subs: map<SubId, Destination>, c: int)
  {
    && c in conv && conv[c].sub.Some?
    && conv[c].sub.value in subs
    && subs[conv[c].sub.value] == ConversationQueue(c, conv[c].cb)
  }

  /** What the replay loop keeps: the conversations still to visit are as
      they were and hold no live subscription; the visited ones are replayed;
      the broker holds the original friend subscription plus one fresh
      subscription per visited conversation. */
  ghost predicate ReplayProgress(todo: set<int>, conv: map<int, SubRecord>, subs: map<SubId, Destination>,
                                 next: nat, oldSubs: map<SubId, Destination>,
                                 oldConv: map<int, SubRecord>, oldNext: nat)
  {
    && todo <= conv.Keys && conv.Keys == oldConv.Keys
    && next >= oldNext
    && (forall s :: s in subs ==> s < next)
    && (forall c :: c in conv && conv[c].sub.Some? ==> conv[c].sub.value < next)
    && (forall c :: c in conv ==> conv[c].cb == oldConv[c].cb)
    && (forall c :: c in todo ==> conv[c] == oldConv[c])
    && (forall c :: c in todo && conv[c].sub.Some? ==> conv[c].sub.value !in subs)
    && (forall s :: s in oldSubs ==> s in subs && subs[s] == FriendQueue)
    && (forall s :: s in subs && s !in oldSubs ==>
          && s >= oldNext && subs[s].ConversationQueue?
          && subs[s].conversationId in conv - todo
          && conv[subs[s].conversationId].sub == Some(s))
    && (forall c :: c in conv && c !in todo ==> ReplayedIn(conv, subs, c))
  }

  /** One replay step: conversation `c` gets the fresh subscription `next`. */
  lemma ReplayStep(c: int, todo: set<int>, conv: map<int, SubRecord>, subs: map<SubId, Destination>,
                   next: nat, oldSubs: map<SubId, Destination>,
                   oldConv: map<int, SubRecord>, oldNext: nat)
    requires c in todo && ReplayProgress(todo, conv, subs, next, oldSubs, oldConv, oldNext)
    ensures ReplayProgress(todo - {c}, conv[c := conv[c].(sub := Some(next))],
                           subs[next := ConversationQueue(c, conv[c].cb)], next + 1,
                           oldSubs, oldConv, oldNext)
  {
    var conv', subs' := conv[c := conv[c].(sub := Some(next))], subs[next := ConversationQueue(c, conv[c].cb)];
    assert next !in subs;
    forall s | s in subs' && s !in oldSubs
      ensures && s >= oldNext && subs'[s].ConversationQueue?
              && subs'[s].conversationId in conv' - (todo - {c})
              && conv'[subs'[s].conversationId].sub == Some(s)
    {
      if s != next {
        assert subs'[s] == subs[s];
      }
    }
    forall d | d in conv' && d !in todo - {c} ensures ReplayedIn(conv', subs', d) {
      if d != c {
        assert ReplayedIn(conv, subs, d);
        assert conv[d].sub.value != next;
      }
    }
  }

  // ---------------------------------------------------------------------------
  // The shared state

  class ChatSocket {
    var hasClient: bool       // sharedClient != null
    var active: bool          // sharedClient.active
    var connected: bool       // sharedClient.connected
    var clientsCreated: nat   // how many times a new client has been built
    var convSubs: map<int, SubRecord>
    var friendSub: Option<SubId>
    var friendCallbacks: set<CallbackId>
    var presence: map<int, bool>
    var brokerSubs: map<SubId, Destination>
    var nextSubId: nat
    var published: seq<Outbound>
    var resolveRequests: nat  // calls made to the resolve endpoint

    ghost predicate Valid()
      reads this
    {
      && (connected ==> hasClient && active)
      && (!hasClient ==> !active && !connected)
      && (!connected ==> brokerSubs == map[])
      && (forall s :: s in brokerSubs ==> s < nextSubId)
      && (forall c :: c in convSubs && convSubs[c].sub.Some? ==> convSubs[c].sub.value < nextSubId)
      && (friendSub.Some? ==> friendSub.value < nextSubId)
    }

    /** The live subscriptions whose frames come from conversation `c`'s topic. */
    function DeliveryPaths(c: int): set<SubId>
      reads this
    {
      set s | s in brokerSubs && brokerSubs[s].ConversationQueue? && brokerSubs[s].conversationId == c
    }

    /** The live subscriptions of the per-user friends queue. */
    function FriendPaths(): set<SubId>
      reads this
    {
      set s | s in brokerSubs && brokerSubs[s] == FriendQueue
    }

    /** One live broker subscription per registered conversation: every live
        conversation subscription is the one its record in `convSubs` holds
        (the `convSubs` map, src/hooks/useWebSocket.ts:43). It implies at most one delivery
        path per conversation. */
    ghost predicate OnePathPerConversation()
      reads this
    {
      forall s :: s in brokerSubs && brokerSubs[s].ConversationQueue? ==>
        brokerSubs[s].conversationId in convSubs
        && convSubs[brokerSubs[s].conversationId].sub == Some(s)
    }

    lemma OnePathMeansAtMostOne(c: int)
      requires OnePathPerConversation()
      ensures |DeliveryPaths(c)| <= 1
      ensures c in convSubs && convSubs[c].sub.Some? ==> DeliveryPaths(c) <= {convSubs[c].sub.value}
      ensures c !in convSubs || convSubs[c].sub.None? ==> DeliveryPaths(c) == {}
    {
      if c in convSubs && convSubs[c].sub.Some? {
        var v := convSubs[c].sub.value;
        assert DeliveryPaths(c) <= {v};
        assert DeliveryPaths(c) == {} || DeliveryPaths(c) == {v};
      } else {
        assert DeliveryPaths(c) == {};
      }
    }

    /** Module load: no client, empty tables. */
    constructor ()
      ensures Valid() && OnePathPerConversation()
      ensures !hasClient && !active && !connected && clientsCreated == 0
      ensures convSubs == map[] && friendSub == None && friendCallbacks == {}
      ensures presence == map[] && brokerSubs == map[] && published == []
      ensures resolveRequests == 0
    {
      hasClient, active, connected, clientsCreated := false, false, false, 0;
      convSubs, friendSub, friendCallbacks := map[], None, {};
      presence, brokerSubs, nextSubId := map[], map[], 0;
      published, resolveRequests := [], 0;
    }

    /** The hook's effect for `principalEmail` (lines 62-173): nothing for an
        empty identity; otherwise build and activate a client if there is none,
        or re-activate an inactive, unconnected one. A client is built only when
        none exists. */
    method Activate(principalEmail: string)
      requires Valid()
      modifies this`hasClient, this`active, this`clientsCreated
      ensures Valid()
      ensures principalEmail == "" ==> hasClient == old(hasClient) && active == old(active)
      ensures principalEmail != "" ==> hasClient && active
      ensures clientsCreated == old(clientsCreated) + (if principalEmail != "" && !old(hasClient) then 1 else 0)
    {
      if principalEmail == "" {
        return;
      }
      if !hasClient {
        hasClient, active := true, true;
        clientsCreated := clientsCreated + 1;
      } else if !active && !connected {
        active := true;
      }
    }

    /** The transport reports that the socket closed. The broker's
        subscriptions die with the connection; the records keep their stale
        subscription ids. With a reconnect delay the client stays active. */
    method OnConnectionLost(willReconnect: bool)
      requires Valid() && hasClient
      modifies this`connected, this`brokerSubs, this`active
      ensures Valid() && OnePathPerConversation()
      ensures !connected && brokerSubs == map[] && active == willReconnect
    {
      connected, brokerSubs, active := false, map[], willReconnect;
    }

    /** Conversation `c` is registered and its record holds a live
        subscription that delivers to the recorded callback. */
    ghost predicate Replayed(c: int)
      reads this
    {
      ReplayedIn(convSubs, brokerSubs, c)
    }

    /** `onConnect` (lines 79-146): subscribe the friends queue unless a
        subscription is already recorded (a stale one from a lost connection
        counts), ask for a presence snapshot, then replay every registered
        conversation. */
    method OnConnect()
      requires Valid() && hasClient && active && !connected
      modifies this`connected, this`friendSub, this`brokerSubs, this`nextSubId, this`published, this`convSubs
      ensures Valid() && connected && OnePathPerConversation()
      ensures published == old(published) + [SnapshotRequest]
      ensures old(friendSub).Some? ==> friendSub == old(friendSub) && friendSub.value !in brokerSubs
      ensures old(friendSub).None? ==> friendSub.Some? && friendSub.value in brokerSubs
                                       && brokerSubs[friendSub.value] == FriendQueue
      ensures old(friendSub).Some? ==> FriendPaths() == {}
      ensures old(friendSub).None? ==> FriendPaths() == {friendSub.value}
      ensures forall s :: s in brokerSubs ==> s >= old(nextSubId)
      ensures convSubs.Keys == old(convSubs).Keys
      ensures forall c :: c in convSubs ==> convSubs[c].cb == old(convSubs)[c].cb && Replayed(c)
      ensures forall c :: c in convSubs ==> convSubs[c].sub.Some? && DeliveryPaths(c) == {convSubs[c].sub.value}
    {
      connected := true;
      if friendSub.None? {
        friendSub := Some(nextSubId);
        brokerSubs := brokerSubs[nextSubId := FriendQueue];
        nextSubId := nextSubId + 1;
      }
      published := published + [SnapshotRequest];
      ReplaySubscriptions();
      ReplayedPathsOnly();
    }

    /** `onConnect` as the comment on its line 82 intends: the friends queue is
        subscribed on every connection, so a handle left over from a lost
        connection is replaced rather than trusted. The rest is `OnConnect`. */
    method OnConnectCorrected()
      requires Valid() && hasClient && active && !connected
      modifies this`connected, this`friendSub, this`brokerSubs, this`nextSubId, this`published, this`convSubs
      ensures Valid() && connected && OnePathPerConversation()
      ensures published == old(published) + [SnapshotRequest]
      ensures friendSub.Some? && FriendPaths() == {friendSub.value}
      ensures forall s :: s in brokerSubs ==> s >= old(nextSubId)
      ensures convSubs.Keys == old(convSubs).Keys
      ensures forall c :: c in convSubs ==> convSubs[c].cb == old(convSubs)[c].cb && Replayed(c)
      ensures forall c :: c in convSubs ==> convSubs[c].sub.Some? && DeliveryPaths(c) == {convSubs[c].sub.value}
    {
      connected := true;
      friendSub := Some(nextSubId);
      brokerSubs := brokerSubs[nextSubId := FriendQueue];
      nextSubId := nextSubId + 1;
      published := published + [SnapshotRequest];
      ReplaySubscriptions();
      ReplayedPathsOnly();
    }

    /** After a replay every registered conversation has exactly the one
        delivery path its record holds. */
    lemma ReplayedPathsOnly()
      requires OnePathPerConversation()
      requires forall c :: c in convSubs ==> Replayed(c)
      ensures forall c :: c in convSubs ==> convSubs[c].sub.Some? && DeliveryPaths(c) == {convSubs[c].sub.value}
    {
      forall c | c in convSubs
        ensures DeliveryPaths(c) == {convSubs[c].sub.value}
      {
        OnePathMeansAtMostOne(c);
      }
    }

    /** The `convSubs.forEach` of lines 130-145: for every registered
        conversation, unsubscribe the recorded subscription (on a fresh
        connection it is stale) and record a new one that delivers to the
        record's callback. The key set and the callbacks stay as they were. */
    method ReplaySubscriptions()
      requires Valid() && connected
      requires forall s :: s in brokerSubs ==> brokerSubs[s] == FriendQueue
      requires forall c :: c in convSubs && convSubs[c].sub.Some? ==> convSubs[c].sub.value !in brokerSubs
      modifies this`brokerSubs, this`nextSubId, this`convSubs
      ensures Valid() && OnePathPerConversation()
      ensures convSubs.Keys == old(convSubs).Keys
      ensures forall c :: c in convSubs ==> convSubs[c].cb == old(convSubs)[c].cb && Replayed(c)
      ensures forall s :: s in old(brokerSubs) <==> s in brokerSubs && brokerSubs[s] == FriendQueue
      ensures forall s :: s in brokerSubs && s !in old(brokerSubs) ==> s >= old(nextSubId)
    {
      ghost var oldSubs, oldConv, oldNext := brokerSubs, convSubs, nextSubId;
      var todo := convSubs.Keys;
      while todo != {}
        invariant ReplayInv(todo, oldSubs, oldConv, oldNext)
        decreases todo
      {
        var c := PickKey(todo);
        ReplayOne(c, todo, oldSubs, oldConv, oldNext);
        todo := todo - {c};
      }
    }

    /** What the replay loop keeps, on the current state. */
    ghost predicate ReplayInv(todo: set<int>, oldSubs: map<SubId, Destination>,
                              oldConv: map<int, SubRecord>, oldNext: nat)
      reads this
    {
      && Valid() && connected
      && ReplayProgress(todo, convSubs, brokerSubs, nextSubId, oldSubs, oldConv, oldNext)
    }

    /** One iteration of the replay loop. */
    method ReplayOne(c: int, ghost todo: set<int>, ghost oldSubs: map<SubId, Destination>,
                     ghost oldConv: map<int, SubRecord>, ghost oldNext: nat)
      requires c in todo && ReplayInv(todo, oldSubs, oldConv, oldNext)
      modifies this`brokerSubs, this`nextSubId, this`convSubs
      ensures ReplayInv(todo - {c}, oldSubs, oldConv, oldNext)
    {
      var record := convSubs[c];
      brokerSubs := Drop(brokerSubs, record.sub);
      assert brokerSubs == old(brokerSubs);
      var s := nextSubId;
      ReplayStep(c, todo, convSubs, brokerSubs, s, oldSubs, oldConv, oldNext);
      nextSubId := nextSubId + 1;
      brokerSubs := brokerSubs[s := ConversationQueue(c, record.cb)];
      convSubs := convSubs[c := record.(sub := Some(s))];
    }

    /** `subscribeToConversation` as written (lines 176-221). The record is
        overwritten with `sub: undefined` before line 194 looks the record up to
        unsubscribe the previous subscription, so that lookup finds nothing and
        a previous live subscription for `c` stays on the broker. */
    method SubscribeToConversation(c: int, cb: CallbackId) returns (u: Unsubscriber)
      requires Valid()
      modifies this`convSubs, this`brokerSubs, this`nextSubId
      ensures Valid()
      ensures convSubs.Keys == old(convSubs).Keys + {c}
      ensures forall d :: d in convSubs && d != c ==> convSubs[d] == old(convSubs)[d]
      ensures convSubs[c].cb == cb
      ensures !connected ==> u == PendingUnsubscriber(c) && convSubs[c].sub == None
                             && brokerSubs == old(brokerSubs)
      ensures connected ==>
        && u.LiveUnsubscriber? && u.conversationId == c
        && u.sub !in old(brokerSubs)
        && convSubs[c].sub == Some(u.sub)
        && brokerSubs == old(brokerSubs)[u.sub := ConversationQueue(c, cb)]
        && DeliveryPaths(c) == old(DeliveryPaths(c)) + {u.sub}
    {
      convSubs := convSubs[c := SubRecord(cb, None)];
      if !connected {
        u := PendingUnsubscriber(c);
        return;
      }
      brokerSubs := Drop(brokerSubs, convSubs[c].sub);
      var s := nextSubId;
      nextSubId := nextSubId + 1;
      brokerSubs := brokerSubs[s := ConversationQueue(c, cb)];
      convSubs := convSubs[c := SubRecord(cb, Some(s))];
      u := LiveUnsubscriber(c, s);
    }

    /** `subscribeToConversation` as its line-193 comment intends: the
        previous record's subscription is torn down before the new one is made,
        so each conversation keeps exactly one delivery path. */
    method SubscribeToConversationCorrected(c: int, cb: CallbackId) returns (u: Unsubscriber)
      requires Valid()
      modifies this`convSubs, this`brokerSubs, this`nextSubId
      ensures Valid()
      ensures convSubs.Keys == old(convSubs).Keys + {c}
      ensures forall d :: d in convSubs && d != c ==> convSubs[d] == old(convSubs)[d]
      ensures convSubs[c].cb == cb
      ensures old(OnePathPerConversation()) ==> OnePathPerConversation()
      ensures !connected ==> u == PendingUnsubscriber(c) && convSubs[c].sub == None
                             && brokerSubs == old(brokerSubs)
      ensures connected ==> u.LiveUnsubscriber? && u.conversationId == c && convSubs[c].sub == Some(u.sub)
      ensures connected && old(OnePathPerConversation()) ==> DeliveryPaths(c) == {u.sub}
    {
      var prior := if c in convSubs then convSubs[c].sub else None;
      convSubs := convSubs[c := SubRecord(cb, None)];
      if !connected {
        u := PendingUnsubscriber(c);
        return;
      }
      brokerSubs := Drop(brokerSubs, prior);
      var s := nextSubId;
      nextSubId := nextSubId + 1;
      brokerSubs := brokerSubs[s := ConversationQueue(c, cb)];
      convSubs := convSubs[c := SubRecord(cb, Some(s))];
      u := LiveUnsubscriber(c, s);
      if old(OnePathPerConversation()) {
        OnePathMeansAtMostOne(c);
      }
    }

    /** Calling a returned unsubscribe function. Either form deletes key `c`
        whoever registered it last, and no other key. The pending form
        unsubscribes whatever subscription the current record holds (lines
        186-190); the live form only the subscription it captured (lines
        213-218), so a subscription a reconnect gave the record stays live. */
    method Unsubscribe(u: Unsubscriber)
      requires Valid()
      modifies this`convSubs, this`brokerSubs
      ensures Valid()
      ensures convSubs == old(convSubs) - {u.conversationId}
      ensures u.PendingUnsubscriber? ==>
        brokerSubs == Drop(old(brokerSubs), if u.conversationId in old(convSubs) then old(convSubs)[u.conversationId].sub else None)
      ensures u.LiveUnsubscriber? ==> brokerSubs == old(brokerSubs) - {u.sub}
    {
      match u
      case PendingUnsubscriber(c) =>
        if c in convSubs {
          brokerSubs := Drop(brokerSubs, convSubs[c].sub);
        }
        convSubs := convSubs - {c};
      case LiveUnsubscriber(c, s) =>
        brokerSubs := brokerSubs - {s};
        convSubs := convSubs - {c};
    }

    /** The live unsubscriber as the pending one already behaves (lines
        187-188): besides the captured subscription it drops whatever
        subscription the record holds now, so a conversation that is no longer
        registered keeps no delivery path. */
    method UnsubscribeCorrected(u: Unsubscriber)
      requires Valid()
      modifies this`convSubs, this`brokerSubs
      ensures Valid()
      ensures convSubs == old(convSubs) - {u.conversationId}
      ensures brokerSubs == Drop(if u.LiveUnsubscriber? then old(brokerSubs) - {u.sub} else old(brokerSubs),
                                 if u.conversationId in old(convSubs) then old(convSubs)[u.conversationId].sub else None)
      ensures old(OnePathPerConversation()) ==> OnePathPerConversation() && DeliveryPaths(u.conversationId) == {}
    {
      var c := u.conversationId;
      if u.LiveUnsubscriber? {
        brokerSubs := brokerSubs - {u.sub};
      }
      if c in convSubs {
        brokerSubs := Drop(brokerSubs, convSubs[c].sub);
      }
      convSubs := convSubs - {c};
    }

    /** `emitPresenceSnapshotTo`: one entry per user of the presence map;
        applying the snapshot rebuilds exactly the current map. */
    method EmitPresenceSnapshot() returns (ev: FriendEvent)
      ensures ev.PresenceSnapshot? && ev.users.Some?
      ensures |ev.users.value| == |presence|
      ensures forall e :: e in ev.users.value ==> e.userId in presence && presence[e.userId] == e.online
      ensures SnapshotMap(ev.users.value) == presence
    {
      var users: seq<PresenceEntry> := [];
      var todo := presence.Keys;
      while todo != {}
        invariant todo <= presence.Keys
        invariant |users| + |todo| == |presence.Keys|
        invariant forall e :: e in users ==> e.userId in presence - todo && presence[e.userId] == e.online
        invariant SnapshotMap(users) == map k | k in presence.Keys - todo :: presence[k]
        decreases todo
      {
        var k := PickKey(todo);
        var e := PresenceEntry(k, presence[k]);
        assert (users + [e])[..|users|] == users;
        users := users + [e];
        todo := todo - {k};
      }
      assert presence.Keys - todo == presence.Keys;
      ev := PresenceSnapshot(Some(users));
    }

    /** A frame on the friends queue (lines 84-120), which arrives only while
        a friends-queue subscription is live. A snapshot with a user
        array replaces the presence map; an update sets one entry; anything
        else that decodes leaves presence alone. Every decoded event goes to
        every registered observer; an undecodable body reaches no one. */
    method OnFriendFrame(f: FriendFrame) returns (notified: set<CallbackId>)
      requires FriendPaths() != {}
      modifies this`presence
      ensures f.Undecodable? ==> notified == {} && presence == old(presence)
      ensures f.Decoded? ==> notified == friendCallbacks
      ensures f.Decoded? && f.event.PresenceSnapshot? && f.event.users.Some? ==>
        presence == SnapshotMap(f.event.users.value)
      ensures f.Decoded? && f.event.PresenceUpdate? ==>
        presence == old(presence)[f.event.userId := f.event.online]
      ensures f.Decoded? && !f.event.PresenceUpdate? && !(f.event.PresenceSnapshot? && f.event.users.Some?) ==>
        presence == old(presence)
    {
      if f.Undecodable? {
        return {};
      }
      notified := friendCallbacks;
      match f.event
      case PresenceSnapshot(Some(users)) =>
        presence := map[];
        var i := 0;
        while i < |users|
          invariant 0 <= i <= |users|
          invariant presence == SnapshotMap(users[..i])
        {
          assert users[..i + 1][..i] == users[..i];
          presence := presence[users[i].userId := users[i].online];
          i := i + 1;
        }
        assert users[..i] == users;
      case PresenceUpdate(userId, online) =>
        presence := presence[userId := online];
      case _ =>
    }

    /** `subscribeFriendEvents`: register the observer and hand it a snapshot of
        the current presence at once. */
    method SubscribeFriendEvents(cb: CallbackId) returns (initial: FriendEvent)
      modifies this`friendCallbacks
      ensures friendCallbacks == old(friendCallbacks) + {cb}
      ensures initial.PresenceSnapshot? && initial.users.Some?
      ensures SnapshotMap(initial.users.value) == presence
    {
      friendCallbacks := friendCallbacks + {cb};
      initial := EmitPresenceSnapshot();
    }

    /** The function `subscribeFriendEvents` returns: removes that observer only. */
    method UnsubscribeFriendEvents(cb: CallbackId)
      modifies this`friendCallbacks
      ensures friendCallbacks == old(friendCallbacks) - {cb}
    {
      friendCallbacks := friendCallbacks - {cb};
    }

    /** `getUserOnlineStatus` */
    function GetUserOnlineStatus(userId: int): (online: bool)
      reads this
      ensures userId !in presence ==> !online
      ensures userId in presence ==> online == presence[userId]
    {
      OnlineStatus(presence, userId)
    }

    /** `sendToConversation`: publishes one frame when connected, nothing otherwise. */
    method SendToConversation(c: int, senderId: int, content: string) returns (sent: bool)
      modifies this`published
      ensures sent == connected
      ensures published == old(published) + (if connected then [ChatSend(c, senderId, content)] else [])
    {
      sent := connected;
      if connected {
        published := published + [ChatSend(c, senderId, content)];
      }
    }

    /** `sendMessage`: when connected, asks the resolve endpoint (every call,
        nothing is cached) and publishes one frame whose sender is the resolved
        `myUserId`; a failed resolve rejects and publishes nothing. */
    method SendMessage(msg: ChatMessageReq, resolved: Result<ResolveResp, string>) returns (outcome: SendOutcome)
      modifies this`published, this`resolveRequests
      ensures !connected ==> outcome == NotConnected && published == old(published)
                             && resolveRequests == old(resolveRequests)
      ensures connected ==> resolveRequests == old(resolveRequests) + 1
      ensures connected && resolved.Err? ==> outcome == ResolveFailed(resolved.error) && published == old(published)
      ensures connected && resolved.Ok? ==>
        && outcome == Published
        && published == old(published) + [ChatSend(resolved.value.conversationId, resolved.value.myUserId, msg.content)]
    {
      if !connected {
        return NotConnected;
      }
      resolveRequests := resolveRequests + 1;
      match resolved
      case Err(e) =>
        outcome := ResolveFailed(e);
      case Ok(r) =>
        published := published + [ChatSend(r.conversationId, r.myUserId, msg.content)];
        outcome := Published;
    }

    /** `disconnect`: every table emptied, the client deactivated and dropped,
        so the next activation builds a new client. */
    method Disconnect()
      requires Valid()
      modifies this`convSubs, this`friendSub, this`friendCallbacks, this`presence
      modifies this`hasClient, this`active, this`connected, this`brokerSubs
      ensures Valid() && OnePathPerConversation()
      ensures convSubs == map[] && friendCallbacks == {} && presence == map[]
      ensures friendSub == None && !hasClient && !active && !connected
      ensures brokerSubs == map[]
      ensures published == old(published) && clientsCreated == old(clientsCreated)
      ensures nextSubId == old(nextSubId) && resolveRequests == old(resolveRequests)
    {
      convSubs := map[];
      friendSub := None;
      friendCallbacks := {};
      presence := map[];
      hasClient, active, connected := false, false, false;
      brokerSubs := map[];
    }
  }

  /** From any connected state in which conversation `c` has no delivery
      path, subscribing to it twice as the source does leaves two live
      subscriptions: a frame on `c` reaches both callbacks. */
  method ResubscribeAsWritten(socket: ChatSocket, c: int, cb1: CallbackId, cb2: CallbackId) returns (paths: nat)
    requires socket.Valid() && socket.connected && socket.DeliveryPaths(c) == {}
    modifies socket`convSubs, socket`brokerSubs, socket`nextSubId
    ensures paths == |socket.DeliveryPaths(c)| == 2
  {
    var u1 := socket.SubscribeToConversation(c, cb1);
    var u2 := socket.SubscribeToConversation(c, cb2);
    assert u1.sub != u2.sub;
    paths := |socket.DeliveryPaths(c)|;
  }

  /** The same two subscriptions through the corrected method, from a state
      with one path per conversation, leave exactly one. */
  method ResubscribeCorrected(socket: ChatSocket, c: int, cb1: CallbackId, cb2: CallbackId) returns (paths: nat)
    requires socket.Valid() && socket.connected && socket.OnePathPerConversation()
    modifies socket`convSubs, socket`brokerSubs, socket`nextSubId
    ensures paths == |socket.DeliveryPaths(c)| == 1
  {
    var v1 := socket.SubscribeToConversationCorrected(c, cb1);
    var v2 := socket.SubscribeToConversationCorrected(c, cb2);
    paths := |socket.DeliveryPaths(c)|;
  }

  /** A view subscribes while connected, the connection drops and comes back,
      and the view then calls the unsubscribe function it was handed. As
      written, that function drops the subscription it captured, which died
      with the connection, while the one the reconnect made stays live: frames
      on `c` still reach the callback of a view that has left. */
  method UnsubscribeAfterReconnectAsWritten(socket: ChatSocket, c: int, cb: CallbackId) returns (paths: nat)
    requires socket.Valid() && socket.connected
    modifies socket`convSubs, socket`brokerSubs, socket`nextSubId, socket`connected, socket`active
    modifies socket`friendSub, socket`published
    ensures c !in socket.convSubs
    ensures paths == |socket.DeliveryPaths(c)| == 1
  {
    var u := socket.SubscribeToConversation(c, cb);
    socket.OnConnectionLost(true);
    socket.OnConnect();
    var s := socket.convSubs[c].sub.value;
    socket.Unsubscribe(u);
    assert socket.DeliveryPaths(c) == {s};
    paths := |socket.DeliveryPaths(c)|;
  }

  /** The same sequence with the corrected unsubscriber leaves no path. */
  method UnsubscribeAfterReconnectCorrected(socket: ChatSocket, c: int, cb: CallbackId) returns (paths: nat)
    requires socket.Valid() && socket.connected
    modifies socket`convSubs, socket`brokerSubs, socket`nextSubId, socket`connected, socket`active
    modifies socket`friendSub, socket`published
    ensures c !in socket.convSubs
    ensures paths == |socket.DeliveryPaths(c)| == 0
  {
    var u := socket.SubscribeToConversation(c, cb);
    socket.OnConnectionLost(true);
    socket.OnConnect();
    socket.UnsubscribeCorrected(u);
    paths := |socket.DeliveryPaths(c)|;
  }

  /** A live friends subscription, a lost connection and a reconnect: as
      written the stale handle stops line 83 from subscribing again, so no
      friends-queue subscription is live and no presence change, friend event
      or snapshot reply can arrive any more. */
  method ReconnectFriendsAsWritten(socket: ChatSocket) returns (paths: nat)
    requires socket.Valid() && socket.connected && socket.friendSub.Some?
    modifies socket`convSubs, socket`brokerSubs, socket`nextSubId, socket`connected, socket`active
    modifies socket`friendSub, socket`published
    ensures socket.connected
    ensures paths == |socket.FriendPaths()| == 0
  {
    socket.OnConnectionLost(true);
    socket.OnConnect();
    paths := |socket.FriendPaths()|;
  }

  /** The same reconnect with the corrected `onConnect` leaves exactly one
      live friends-queue subscription. */
  method ReconnectFriendsCorrected(socket: ChatSocket) returns (paths: nat)
    requires socket.Valid() && socket.connected
    modifies socket`convSubs, socket`brokerSubs, socket`nextSubId, socket`connected, socket`active
    modifies socket`friendSub, socket`published
    ensures socket.connected
    ensures paths == |socket.FriendPaths()| == 1
  {
    socket.OnConnectionLost(true);
    socket.OnConnectCorrected();
    paths := |socket.FriendPaths()|;
  }
}
