# Chat client sync core, modelled in Dafny

This project models the client side of the real-time chat of a social web
application:

- The process-wide STOMP connection state of the `useChatSocket` hook
  (`src/hooks/useWebSocket.ts`). It holds one shared client, the table of
  conversation subscriptions (`convSubs`), the friends-queue subscription and
  its observers, and the presence map. The model also covers the operations
  the hook exposes.
- The one-to-one chat view `FriendChat`
  (`src/components/FriendsPanel/FriendChat.tsx`). It covers:
  - the start-up sequence (resolve, read state, latest page) and the
    callbacks the view hands to the socket (live frames, friend events). The
    subscription calls themselves are `ChatSocket`'s operations and are not
    composed with the view;
  - duplicate-free live append;
  - backward pagination;
  - the "seen" marker;
  - day separators and bubble headers;
  - the guarded send.
- The paginated list `PaginatedMessages` (`src/utils/PaginatedMessages.tsx`).
  It covers:
  - the initial load and older pages, counted against the server's page total;
  - live reconciliation by id or temporary id;
  - the display sort;
  - optimistic sending.

Modules:

| file | module | what it holds |
|---|---|---|
| `chat_types.dfy` | `ChatTypes` | messages, conversation frames, pages, JavaScript truthiness, `String.prototype.trim` |
| `message_merge.dfy` | `MessageMerge` | the "older page in front" updater, which both views share |
| `chat_socket.dfy` | `ChatSocket` | class `ChatSocket`: the module-level state of the hook, and the methods that change it |
| `friend_chat.dfy` | `FriendChat` | the view's pure rules, and class `FriendChatView` for its state |
| `paginated_messages.dfy` | `PaginatedMessages` | reconciliation, sort, temporary ids, and class `PaginatedView` |

How the model represents the running system:

- **Transport.** The STOMP transport becomes events the environment calls:
  `OnConnect` and `OnConnectionLost`, plus frames passed to `OnFriendFrame`.
- **Subscriptions.** Callbacks and subscriptions are identities. The
  broker's side of the connection is the map `brokerSubs`. It takes each live
  subscription to where its frames go, so "how many callbacks a frame on
  conversation `c` reaches" is `|DeliveryPaths(c)|`.
- **Async flows.** Each asynchronous flow of the views is split at its
  `await` into a Begin and a Finish method. The awaited result is a parameter
  of the Finish method, as a `Result` when the call can fail.
- **Times.** Times are epoch milliseconds as integers.
- **JavaScript truthiness.** It is kept where the code relies on it: a `0` id
  is falsy, and so is an empty temporary id.
- **The resolver.** The direct-conversation resolver keeps no cache
  (`src/hooks/useWebSocket.ts:224-243`): `SendMessage` counts one resolve
  request per call.
- **Bubble-header gap.** The comment at
  `src/components/FriendsPanel/FriendChat.tsx:412` speaks of one minute, but
  the code uses five minutes. The model uses the code's five minutes
  (`DETAIL_GAP_MS`).

## Model

| member | source | states |
|---|---|---|
| ChatTypes.Trim | src/components/FriendsPanel/FriendChat.tsx:290 | the result is no longer than the input and neither starts nor ends with ECMAScript whitespace |
| ChatTypes.TrimIsFramedSlice | src/components/FriendsPanel/FriendChat.tsx:290 | the input is the trimmed text with a run of whitespace before and after it: only whitespace at the ends is removed |
| ChatTypes.TrimEmptyIffBlank | src/components/FriendsPanel/FriendChat.tsx:290-293 | the trimmed text is empty (the falsy `!text` case) exactly when the input is all whitespace |
| MessageMerge.Reverse | src/components/FriendsPanel/FriendChat.tsx:237 | same length, with position k holding the input's position n-1-k (newest-first page turned oldest-first) |
| MessageMerge.FilterOutIds | src/components/FriendsPanel/FriendChat.tsx:240-241 | keeps exactly the entries whose id is not excluded, and never adds any |
| MessageMerge.FilterOutIdsSingle | src/components/FriendsPanel/FriendChat.tsx:240-241 | a single entry survives exactly when its id is not excluded |
| MessageMerge.FilterOutIdsConcat | src/components/FriendsPanel/FriendChat.tsx:240-241 | filtering distributes over concatenation, so kept entries stay in their order and keep their multiplicity |
| MessageMerge.FilterOutIdsReverse | src/components/FriendsPanel/FriendChat.tsx:237-241 | filtering the reversed page equals reversing the filtered page |
| MessageMerge.PrependOlder | src/components/FriendsPanel/FriendChat.tsx:239-243 | the old list is kept intact as a suffix; the part in front holds exactly the page's messages whose ids are new |
| MessageMerge.PrependOlderFront | src/components/FriendsPanel/FriendChat.tsx:237-243 | the part in front is the page's new-id messages in reverse page order, each as often as the page holds it, followed by the old list |
| MessageMerge.PrependOlderSingle | src/utils/PaginatedMessages.tsx:115-120 | a one-message page is put in front exactly when its id is new, else the list is unchanged |
| MessageMerge.FilterOfExcludedIsEmpty | src/components/FriendsPanel/FriendChat.tsx:241-242 | a page whose every id is already present leaves nothing to prepend |
| MessageMerge.FilterKeepsAscending | src/components/FriendsPanel/FriendChat.tsx:241 | filtering keeps an ascending sequence ascending |
| MessageMerge.FilterKeepsUniqueIds | src/components/FriendsPanel/FriendChat.tsx:240-241 | filtering keeps ids distinct and removes every excluded id |
| MessageMerge.PrependKeepsUniqueIds | src/components/FriendsPanel/FriendChat.tsx:239-243 | the merge never creates a duplicate id when the list and the page have distinct ids |
| MessageMerge.PrependKeepsAscending | src/components/FriendsPanel/FriendChat.tsx:232-243 | a descending page whose new-id messages are all no newer than the list leaves an ascending list ascending after the merge; messages the page shares with the list may be newer, since they are dropped |
| MessageMerge.PrependIdempotent | src/utils/PaginatedMessages.tsx:115-120 | merging the same page twice gives the list merged once (the dedup safety net) |
| ChatSocket.SnapshotMap | src/hooks/useWebSocket.ts:92-98 | the presence map left by a snapshot has exactly the listed users as keys |
| ChatSocket.SnapshotLastWins | src/hooks/useWebSocket.ts:94-97 | after a snapshot, a user has the status of the last entry naming them |
| ChatSocket.OnlineStatus | src/hooks/useWebSocket.ts:370 | unknown users are offline; known users have their recorded status |
| ChatSocket.Drop | src/hooks/useWebSocket.ts:188-194 | `sub?.unsubscribe()`: no subscription leaves the broker map as it is; otherwise exactly that subscription is gone and every other one keeps its destination |
| ChatSocket.ChatSocket.OnePathMeansAtMostOne | src/hooks/useWebSocket.ts:43 | when every live subscription is the one its record holds, a conversation has at most one delivery path, and none without a recorded subscription |
| ChatSocket.ChatSocket.constructor | src/hooks/useWebSocket.ts:42-49 | no client, empty subscription, observer and presence tables |
| ChatSocket.ChatSocket.Activate | src/hooks/useWebSocket.ts:62-173 | an empty identity does nothing; otherwise a client is active afterwards, and a new one is built only when none exists |
| ChatSocket.ChatSocket.OnConnectionLost | src/hooks/useWebSocket.ts:73-78 | every broker subscription dies with the connection; the client stays active when it will reconnect |
| ChatSocket.ChatSocket.OnConnect | src/hooks/useWebSocket.ts:79-146 | requests a presence snapshot; subscribes the friends queue only when no subscription is recorded, so after a lost connection (stale handle) no friends-queue subscription is live; every live subscription is fresh; each registered conversation has exactly one delivery path, to its recorded callback |
| ChatSocket.ChatSocket.OnConnectCorrected | src/hooks/useWebSocket.ts:82-84 | the same connect, with the friends queue subscribed on every connection: exactly one friends-queue subscription is live afterwards |
| ChatSocket.ChatSocket.ReplaySubscriptions | src/hooks/useWebSocket.ts:130-145 | every registered conversation gets a fresh live subscription to its own callback; keys and callbacks unchanged; the friends subscription untouched |
| ChatSocket.ChatSocket.ReplayOne | src/hooks/useWebSocket.ts:131-144 | one replay step keeps the replay invariant with one conversation fewer to visit |
| ChatSocket.ChatSocket.SubscribeToConversation | src/hooks/useWebSocket.ts:176-221 | records the callback; while disconnected it only records it; while connected it adds a fresh subscription and leaves every earlier delivery path of the conversation in place |
| ChatSocket.ChatSocket.SubscribeToConversationCorrected | src/hooks/useWebSocket.ts:193-194 | the same, but the previous subscription is torn down first: one delivery path per conversation is preserved |
| ChatSocket.ChatSocket.Unsubscribe | src/hooks/useWebSocket.ts:186-218 | deletes the conversation's record whoever made it; the pending form drops the record's current subscription, the live form only the one it captured |
| ChatSocket.ChatSocket.UnsubscribeCorrected | src/hooks/useWebSocket.ts:213-218 | the live unsubscriber also drops the subscription the record holds now; with one path per conversation before, none is left for that conversation and the invariant holds |
| ChatSocket.ChatSocket.EmitPresenceSnapshot | src/hooks/useWebSocket.ts:51-57 | one entry per known user with its status; applying the snapshot rebuilds exactly the current presence map |
| ChatSocket.ChatSocket.OnFriendFrame | src/hooks/useWebSocket.ts:84-120 | only while a friends-queue subscription is live: snapshot replaces presence, update sets one user, other events leave it; every decoded event reaches every observer, an undecodable one none |
| ChatSocket.ChatSocket.SubscribeFriendEvents | src/hooks/useWebSocket.ts:352-365 | adds the observer and hands it a snapshot equal to the current presence |
| ChatSocket.ChatSocket.UnsubscribeFriendEvents | src/hooks/useWebSocket.ts:360-362 | removes that observer only |
| ChatSocket.ChatSocket.GetUserOnlineStatus | src/hooks/useWebSocket.ts:368-373 | false for an unknown user, else the recorded status |
| ChatSocket.ChatSocket.SendToConversation | src/hooks/useWebSocket.ts:268-282 | publishes exactly one send frame when connected, nothing otherwise, and reports which |
| ChatSocket.ChatSocket.SendMessage | src/hooks/useWebSocket.ts:246-265 | not connected: nothing resolved or published, normal return; connected: one resolve request, then one frame with the resolved conversation and sender, or a rejection publishing nothing |
| ChatSocket.ChatSocket.Disconnect | src/hooks/useWebSocket.ts:376-398 | every table emptied, every broker subscription gone, client dropped |
| ChatSocket.ResubscribeAsWritten | src/hooks/useWebSocket.ts:181-194 | subscribing twice to a conversation with no delivery path while connected leaves it with two delivery paths |
| ChatSocket.ResubscribeCorrected | src/hooks/useWebSocket.ts:193-194 | with the previous subscription torn down first, two subscriptions in a row leave exactly one delivery path |
| ChatSocket.UnsubscribeAfterReconnectAsWritten | src/hooks/useWebSocket.ts:213-218 | subscribe, lose the connection, reconnect, then call the returned unsubscriber: the conversation is unregistered yet keeps one live delivery path |
| ChatSocket.UnsubscribeAfterReconnectCorrected | src/hooks/useWebSocket.ts:186-190 | the same sequence with the corrected unsubscriber leaves no delivery path |
| ChatSocket.ReconnectFriendsAsWritten | src/hooks/useWebSocket.ts:82-84 | with a friends subscription recorded, a lost connection and a reconnect leave no live friends-queue subscription |
| ChatSocket.ReconnectFriendsCorrected | src/hooks/useWebSocket.ts:82-84 | the same reconnect through the corrected connect leaves exactly one live friends-queue subscription |
| ChatSocket.ReplayStep | src/hooks/useWebSocket.ts:130-145 | giving one more conversation a fresh subscription to its own callback keeps the replay invariant: fresh ids stay unused, replayed entries keep one path each, unvisited ones stay as they were |
| FriendChat.AppendIfNew | src/components/FriendsPanel/FriendChat.tsx:184-187 | the old list is a prefix; a known id changes nothing; a new one is appended as the last entry |
| FriendChat.AppendIfNewKeepsUniqueIds | src/components/FriendsPanel/FriendChat.tsx:185-187 | live append keeps ids distinct and the message's id present |
| FriendChat.AppendIfNewIdempotent | src/components/FriendsPanel/FriendChat.tsx:185-187 | a frame delivered twice is listed once |
| FriendChat.SeenMyMessageId | src/components/FriendsPanel/FriendChat.tsx:373-385 | none without a marker or a truthy own id; otherwise the id of the last own message created no later than the marker, or none when there is no such message |
| FriendChat.ExtendSeparated | src/components/FriendsPanel/FriendChat.tsx:117-125 | appending one message, with a separator exactly when its day differs from the last one, keeps the separator layout |
| FriendChat.RenderOfEndsWithLast | src/components/FriendsPanel/FriendChat.tsx:117-125 | the rendered list of a non-empty message list ends with the bubble of its last message |
| FriendChat.RenderOfMessages | src/components/FriendsPanel/FriendChat.tsx:113-127 | dropping the separators from the rendered list gives back the messages, each once and in order |
| FriendChat.RenderOfSeparated | src/components/FriendsPanel/FriendChat.tsx:113-127 | the rendered list opens with a separator, marks each change of day with one, and every separator is followed by a message of its day |
| FriendChat.RenderItems | src/components/FriendsPanel/FriendChat.tsx:113-127 | the loop builds the rendered list `RenderOf` defines: every message once and in order, a separator opening the list and at each change of day |
| FriendChat.FindIndexById | src/components/FriendsPanel/FriendChat.tsx:406 | the first index holding the id, or -1 when none does |
| FriendChat.ShowSenderDetail | src/components/FriendsPanel/FriendChat.tsx:404-421 | with k the first position of the id, the header is hidden exactly when k > 0 and message k-1 is from the same sender and under five minutes older; an absent id shows it |
| FriendChat.ShowTime | src/components/FriendsPanel/FriendChat.tsx:423-437 | with k the first position of the id, the time is hidden exactly when k > 0 and message k-1 is under five minutes older, whoever sent it; an absent id shows it; a hidden header implies a hidden time |
| FriendChat.FriendChatView.constructor | src/components/FriendsPanel/FriendChat.tsx:39-60 | the view's initial state: loading, page 1 next, more expected, nothing sent |
| FriendChat.FriendChatView.Unmount | src/components/FriendsPanel/FriendChat.tsx:215-216 | later results are ignored |
| FriendChat.FriendChatView.OnResolved | src/components/FriendsPanel/FriendChat.tsx:152-156 | while mounted, records the three resolved ids; otherwise nothing |
| FriendChat.FriendChatView.OnReadState | src/components/FriendsPanel/FriendChat.tsx:159-166 | the peer's read marker while mounted; a failed fetch changes nothing |
| FriendChat.FriendChatView.OnLatestLoaded | src/components/FriendsPanel/FriendChat.tsx:168-173 | while mounted, the list becomes the latest page, page 1 is next, and more are expected exactly when the page was full |
| FriendChat.ContainsAt | src/components/FriendsPanel/FriendChat.tsx:206 | an occurrence of the searched text at any position makes `includes` true |
| FriendChat.ContainsWitness | src/components/FriendsPanel/FriendChat.tsx:206 | when `includes` is true, the searched text occurs at the position returned |
| FriendChat.FriendChatView.OnInitFailed | src/components/FriendsPanel/FriendChat.tsx:204-212 | an error mentioning "not found" marks the friend removed; loading ends if mounted |
| FriendChat.FriendChatView.OnLiveFrame | src/components/FriendsPanel/FriendChat.tsx:176-188 | a read receipt moves the marker only when the reader is the peer and never touches the list; a message is appended unless its id is known |
| FriendChat.FriendChatView.OnFriendEvent | src/components/FriendsPanel/FriendChat.tsx:191-203 | only a removal naming this friend by e-mail or nickname marks it removed |
| FriendChat.FriendChatView.LoadOlderBegin | src/components/FriendsPanel/FriendChat.tsx:225-226 | no request without a conversation, during a load or when no more; otherwise a request for page `nextPage` and the load flag set |
| FriendChat.FriendChatView.LoadOlderFinish | src/components/FriendsPanel/FriendChat.tsx:231-250 | a page is merged in front and the counter moves on; an empty or last page ends pagination; a failure changes nothing; the load flag clears |
| FriendChat.FriendChatView.SetInput | src/components/FriendsPanel/FriendChat.tsx:360-362 | the input holds the typed value |
| FriendChat.SendGate | src/components/FriendsPanel/FriendChat.tsx:290-295 | what the guard lets out is the trimmed input |
| FriendChat.SendGateAdmits | src/components/FriendsPanel/FriendChat.tsx:290-295 | a text goes out exactly when the input is not blank, the friend is not removed, no send is in flight and the trimmed text differs from the last one sent |
| FriendChat.SendGateBlocksRepeat | src/components/FriendsPanel/FriendChat.tsx:293 | the same input is refused while its send is in flight and while it is the last text sent |
| FriendChat.FriendChatView.BeginSend | src/components/FriendsPanel/FriendChat.tsx:290-300 | sends what the guard lets out, marking the send in flight with that text as the last sent; a refused send changes nothing |
| FriendChat.FriendChatView.FinishSend | src/components/FriendsPanel/FriendChat.tsx:302-351 | a rejection clears the last-sent text for a retry and keeps the input; any other outcome clears the input; the in-flight flags clear |
| FriendChat.FriendChatView.ExpireLastSent | src/components/FriendsPanel/FriendChat.tsx:353-355 | the repeat guard is lifted |
| PaginatedMessages.MatchesSymmetric | src/utils/PaginatedMessages.tsx:174-179 | the echo-match test gives the same answer with the two messages swapped, and every message matches itself |
| PaginatedMessages.AnyMatch | src/utils/PaginatedMessages.tsx:174-180 | true exactly when some entry answers to the frame by id or by equal non-empty temporary id |
| PaginatedMessages.ReplaceMatches | src/utils/PaginatedMessages.tsx:184-191 | same length; each answering entry becomes the frame, every other entry stays |
| PaginatedMessages.Reconcile | src/utils/PaginatedMessages.tsx:173-194 | answering entries are replaced in place with the frame and nothing is added; with no answering entry the frame is appended |
| PaginatedMessages.ReconcileIdempotent | src/utils/PaginatedMessages.tsx:173-194 | a frame delivered twice leaves the list as after the first delivery |
| PaginatedMessages.EchoWithTempIdReplaces | src/utils/PaginatedMessages.tsx:176-189 | a server copy carrying the optimistic copy's temporary id takes its place without growing the list |
| PaginatedMessages.EchoWithoutTempIdDuplicates | src/utils/PaginatedMessages.tsx:173-193 | a server copy without a temporary id and with a new id is appended beside the optimistic copy |
| PaginatedMessages.SortKey | src/utils/PaginatedMessages.tsx:224-225 | the optimistic timestamp when the message has one (a present ISO string is truthy), else `createdAt` |
| PaginatedMessages.Insert | src/utils/PaginatedMessages.tsx:223-227 | inserting into a sorted list gives a sorted list with exactly one more occurrence of the message |
| PaginatedMessages.SortedMessages | src/utils/PaginatedMessages.tsx:222-228 | the result is ordered by `timestamp` falling back to `createdAt`, and is a permutation of the input |
| PaginatedMessages.SortedIsFixpoint | src/utils/PaginatedMessages.tsx:222-228 | a list already in that order is returned unchanged |
| PaginatedMessages.DecimalString | src/utils/PaginatedMessages.tsx:239 | a non-empty string of decimal digits ending in the number's last digit |
| PaginatedMessages.DecimalStringInjective | src/utils/PaginatedMessages.tsx:239 | different numbers render differently |
| PaginatedMessages.TempIdAt | src/utils/PaginatedMessages.tsx:239 | the temporary id is never empty (always truthy) |
| PaginatedMessages.TempIdsDistinct | src/utils/PaginatedMessages.tsx:236-239 | optimistic copies made at different instants have different temporary ids |
| PaginatedMessages.OptimisticCopy | src/utils/PaginatedMessages.tsx:237-245 | the copy has id `now`, the truthy temporary id `temp_<now>`, the conversation, the sender and the text, and sorts at `now` |
| PaginatedMessages.OptimisticCopiesApart | src/utils/PaginatedMessages.tsx:174-179 | optimistic copies made at different instants never answer to each other, by id nor by temporary id |
| PaginatedMessages.PaginatedView.constructor | src/utils/PaginatedMessages.tsx:25-35 | the initial state: empty list, page 0 of 0, initial load pending, more expected |
| PaginatedMessages.PaginatedView.ConversationChanged | src/utils/PaginatedMessages.tsx:209-219 | a truthy conversation id resets list and counters and starts the initial load; id 0 changes nothing else |
| PaginatedMessages.PaginatedView.LoadInitialBegin | src/utils/PaginatedMessages.tsx:63-68 | nothing without a conversation; otherwise both loading flags are set |
| PaginatedMessages.PaginatedView.LoadInitialFinish | src/utils/PaginatedMessages.tsx:70-90 | the latest page becomes the list at page 0; the total comes from page 0 and more are expected exactly when there is more than one page; failures keep earlier state; loading ends |
| PaginatedMessages.PaginatedView.LoadOlderBegin | src/utils/PaginatedMessages.tsx:95-105 | no request without a conversation, when no more, or during a load; pagination ends when the next page is past the total; otherwise the next page is requested and the load flags set |
| PaginatedMessages.PaginatedView.LoadOlderFinish | src/utils/PaginatedMessages.tsx:107-141 | a non-empty page is merged in front and becomes current, with more expected unless it was last; an empty page ends pagination; a failure changes nothing; the load flags clear |
| PaginatedMessages.PaginatedView.OnLiveMessage | src/utils/PaginatedMessages.tsx:173-194 | the frame is reconciled into the list and is present afterwards |
| PaginatedMessages.PaginatedView.SendMessage | src/utils/PaginatedMessages.tsx:231-256 | blank text or no conversation does nothing; otherwise one optimistic copy of the trimmed text is appended and the socket publishes the trimmed text only when connected |

## Left out

- The STOMP/SockJS transport is left out: connection set-up, heartbeats, the
  reconnect delay and broker errors. The model takes connection changes as the
  events `OnConnect` and `OnConnectionLost`.
- Conversation frames are not dispatched to callbacks, and their JSON parsing
  and parse failures are left out. Delivery is represented by the broker map
  (`DeliveryPaths`).
- The HTTP endpoints are left out: resolve, latest page, paged history, read
  state and mark-read. Their results or failures are parameters of the Finish
  methods. The mark-read call on window focus is not modelled.
- The JWT cookie written by the hook's effect is left out (browser storage).
- The DOM is left out: scrolling, `requestAnimationFrame`,
  `MutationObserver`, the scroll handlers that trigger page loads, and the
  at-bottom flag.
- Date handling is left out: parsing of ISO timestamps, invalid dates, locale
  labels and time formatting. Local calendar days are a parameter `dayOf` of
  `RenderItems`.
- Interleaving of the asynchronous steps and React's stale closures are left
  out. Each Begin/Finish pair is modelled as if the state between them were
  current.
- The `onRemoved` and `onClose` callbacks of `FriendChat` are left out.
- `connectedOnceRef` is left out: it is written and never read.
- `FriendFrame` logging of friend-request events is left out. Those events are
  `OtherFriendEvent`, which only reaches the observers.
- Errors thrown by unsubscribing on a closed connection are not modelled.
  Neither are the `try`/`catch` blocks around such calls.
- `Number(...)` and `!!` coercions of decoded fields are not modelled. Frames
  arrive already typed.
- `PaginatedMessages.PaginatedView.OnLiveMessage`: the view appends any parsed
  frame, read receipts included. The model takes chat messages only, so the
  junk entries a read receipt would add are not represented.
- `PaginatedMessages.OptimisticCopy`: the copy's `timestamp` and `createdAt`
  come from `new Date()`, read apart from the `Date.now()` that gives its id;
  the model takes one instant `now` for all three.
- `PaginatedMessages.SortedMessages`: the stability of `Array.prototype.sort`
  (equal keys keep their order) is not stated. Only sortedness and permutation
  are.
- `FriendChat.FriendChatView.OnLiveFrame`: the reader is compared with the
  view's recorded `friendUserId`, where the source uses the resolve result the
  callback captured. The two are equal whenever the subscription exists,
  because both are set only while mounted.
- `FriendChat.FriendChatView.OnInitFailed`: only `Error` objects are
  modelled. A thrown non-`Error` would not mark the friend removed, and the
  model has no such input.
- The older socket hook `src/hooks/useChatSocket.ts` (used by
  `src/utils/GlobalSocket.tsx`) and the other screens of the application are
  not part of this model.

## Findings

| source | as written | input that shows it | evidently intended | confidence | as-written member | corrected member |
|---|---|---|---|---|---|---|
| src/hooks/useWebSocket.ts:181-194 | the record for the conversation is replaced with `sub: undefined` (lines 181-182) before line 194 looks the record up to unsubscribe the previous subscription, so that lookup always finds nothing | connected client; `subscribeToConversation(7, cb1)` then `subscribeToConversation(7, cb2)`: two live subscriptions for conversation 7, so every frame reaches both callbacks | unsubscribe the previously recorded subscription before replacing the record, keeping one live subscription per conversation | not executed | ChatSocket.ChatSocket.SubscribeToConversation, ChatSocket.ResubscribeAsWritten | ChatSocket.ChatSocket.SubscribeToConversationCorrected, ChatSocket.ResubscribeCorrected |
| src/hooks/useWebSocket.ts:82-84 | `friendSub` is cleared only by `disconnect` (line 384); after a lost connection the dead handle is still set, so line 83 skips subscribing the friends queue on reconnect | connected client with the friends queue subscribed; the connection drops and the client reconnects: no friends-queue subscription is live, so presence updates, friend events and the reply to the snapshot request of line 124 never arrive | subscribe the friends queue on every connection (or clear `friendSub` when the connection is lost) | not executed | ChatSocket.ChatSocket.OnConnect, ChatSocket.ReconnectFriendsAsWritten | ChatSocket.ChatSocket.OnConnectCorrected, ChatSocket.ReconnectFriendsCorrected |
| src/hooks/useWebSocket.ts:213-218 | the unsubscribe function returned while connected drops only the subscription it captured; a reconnect replays the record with a new subscription (lines 130-145), which that function never reaches | connected; `u = subscribeToConversation(7, cb)`; the connection drops and comes back; `u()`: conversation 7 is deleted from the table but its new subscription stays live, so frames still reach `cb` of a view that has left | drop the subscription the record holds when called, as the function built while disconnected does (lines 187-188) | not executed | ChatSocket.ChatSocket.Unsubscribe, ChatSocket.UnsubscribeAfterReconnectAsWritten | ChatSocket.ChatSocket.UnsubscribeCorrected, ChatSocket.UnsubscribeAfterReconnectCorrected |
