# django-messanger chat core in Dafny

This project models the server side of a small Django chat application:

- `models.dfy` holds the rooms, the messages with their reader sets, and the database table that holds them.
- `history.dfy` holds the history paginator a websocket connection uses. It covers the first batch of at most 20 messages, favouring the viewer's unread backlog, and the "older" and "newer" pages computed from two id cursors.
- `channels.dfy` holds the channel layer and the Redis online sets the connection talks to.
- `consumers.dfy` holds the connection itself (`ChatConsumer`), with its connect, disconnect and receive handlers.
- `views.dfy` holds the room views: two-party ("direct") rooms named after both usernames, the unread counters of the room and user lists, and the access checks for viewing and updating a room.
- `text.dfy` holds the two Python string operations the views use, `in` and `replace(pattern, '')`.
- `wrappers.dfy` holds `Option` and `Result`.

How the model represents the system:

- **Database.** It is a class whose methods change the room map and the message sequence in place.
- **Consumer.** It is a class with the fields the Python consumer assigns: room, user, unread count, first batch and the two cursors.
- **Channel layer.** Sending is synchronous. A send appends the event to the outbox of every target channel (`Deliver`). That outbox stands for the per-event handlers that forward events to the socket.
- **Paginator.** It is specified by pure functions on the message sequence. The consumer's methods are proved equal to those functions, and lemmas state what the functions promise:
  - which messages the first batch holds
  - the read flags
  - that page windows tile the id line
  - that each message below the first batch's lowest id, or above its highest id, turns up on exactly one page
  - that a message between those two ids that the first batch leaves out is never shown (see "## Findings")
- **Users and time.** Users are identified by username, which Django keeps unique. Message timestamps are taken to grow with the id, so the default ordering `-timestamp` is "highest id first".

Two facts about the code that the model keeps:

- **Page order.** The newer page comes oldest first, because `get_paginate_down` reverses the query result with `[::-1]` (chat/consumers.py:90). The older page comes newest first, because `get_paginate_up` keeps the default ordering (chat/consumers.py:108).
- **Text check.** `chat_message` stores the text without checking that it is non-empty (chat/consumers.py:189).

## Model

| member | source | states |
|---|---|---|
| Models.ValidateRoomName | messenger/chat/models.py:28-42 | fails, with ValueError, exactly for `direct` and `create`; every other name comes back unchanged |
| Models.Database.CreateRoom | messenger/chat/models.py:52-57 | a name already taken is an IntegrityError; a name over 128 characters is a DataError; otherwise the room is added with no participants and nothing else changes |
| Models.Database.AddParticipants | chat/views.py:203 | the room's participants grow by exactly the given users; the table invariant is kept |
| Models.Database.CreateMessage | messenger/chat/models.py:14-25 | a text over 1024 characters is refused; otherwise exactly one message is appended, with the next key and the author as its only reader; older messages are untouched |
| Models.IndexOfId | chat/consumers.py:270 | finds the position of the message with the given key, or reports that no message has it |
| Models.Database.AddReader | chat/consumers.py:270-272 | an unknown key is DoesNotExist and changes nothing; otherwise the user joins that message's readers and the new reader count is returned |
| Models.MembersCountAfterAdd | messenger/chat/models.py:59-66 | `members_count` after adding users grows by exactly the number of them that were not participants yet |
| Models.MarkReadIdempotent | chat/consumers.py:271 | adding a reader twice is the same as adding once; readers only grow |
| History.NewestFirstDecreasing | messenger/chat/models.py:91-94 | the default ordering lists messages with strictly decreasing ids |
| History.SortById | chat/consumers.py:53-56 | `sorted(..., key=id)` returns a permutation of its input, of the same length |
| History.SortByIdSorted | chat/consumers.py:53-56 | that permutation is in ascending id order |
| History.StartBatch | chat/consumers.py:40-66 | whenever there is a first batch, it holds between 1 and 20 messages |
| History.TopUpBatch | chat/consumers.py:48-56 | the topped-up batch never holds more than a page |
| History.LatestBatch | chat/consumers.py:57-66 | the newest-page batch has between 1 and 20 messages, or there is none; nothing is left to paginate |
| History.UnreadReadPartition | chat/consumers.py:41-50 | in a room, the viewer's unread count plus the count of messages they have read is the room's size |
| History.StartBatchBacklog | chat/consumers.py:41-47 | with at least 20 unread: the batch is the 20 lowest-id unread messages, ascending, all flagged unread; every unread message left out has a higher id; the count returned is unread minus 20 |
| History.TopUpBatchContents | chat/consumers.py:48-56 | the merged batch holds exactly the unread messages, flagged unread, and the newest `min(20-u, r)` read ones, flagged `reader count != 1`; it is id-sorted |
| History.StartBatchTopUp | chat/consumers.py:48-56 | with 1 to 19 unread: the batch is all unread plus the newest read messages up to a page, id-sorted, with those flags; the count returned is 0 |
| History.LatestBatchContents | chat/consumers.py:57-66 | no batch exactly for an empty room; otherwise the last `min(20, n)` messages, oldest first, flagged `reader count != 1` |
| History.StartBatchCaughtUp | chat/consumers.py:57-66 | with nothing unread: no batch exactly when the room is empty; otherwise the room's newest messages up to a page, oldest first; the count returned is 0 |
| History.StartBatchShape | chat/consumers.py:31-72 | in every case the batch is a non-empty, id-sorted sequence of at most a page of the room's own messages lying between the two cursors; with no batch both cursors are 0 |
| History.DownWindowsTile | chat/consumers.py:88-89 | for `DownWindow`, the `id__gte`/`id__lte` bounds of lines 88-89: page 1 starts just after the down cursor; each page spans 20 ids; the next page starts right after this one |
| History.DownWindowExactlyOnce | chat/consumers.py:88-89 | every id above the down cursor lies in exactly one page-down window |
| History.UpWindowsTile | chat/consumers.py:104-107 | for `UpWindow`, the bounds of lines 104-107: page-up windows stay below the up cursor and never go below id 1 (the lower end is clamped); page p+1 ends just below where page p's unclamped lower end would be |
| History.UpWindowExactlyOnce | chat/consumers.py:104-107 | every id from 1 to just below the up cursor lies in exactly one page-up window |
| History.PageDownShape | chat/consumers.py:88-92 | `PageDown`, a newer page, is exactly the room's messages in its window, oldest first, each flagged by whether the viewer is a reader |
| History.PageUpShape | chat/consumers.py:104-110 | `PageUp`, an older page, is the room's messages in its window, newest first, all with ids in [1, up), each flagged by whether the viewer is a reader |
| History.PageDownCoversOnce | chat/consumers.py:88-92 | paging down shows each room message whose id is above the down cursor on exactly one page |
| History.PageUpCoversOnce | chat/consumers.py:104-110 | paging up shows each room message whose id is in [1, up cursor) on exactly one page |
| History.PageDownCountMatchesStart | chat/consumers.py:83-87 | `RemainingUnread`, the count sent with a newer page (the unread total less 20, floored at 0), equals the count `get_start_messages` returns (lines 42-47) for the same messages and viewer |
| History.BetweenCursorsNotPaged | chat/consumers.py:88-108 | no older page and no newer page ever holds a message whose id lies between the up cursor and the down cursor |
| History.BacklogHidesReadBetween | chat/consumers.py:45-47 | with at least 20 unread, a message the viewer has read whose id lies between the 1st and the 20th unread one is in neither the batch nor any page |
| History.TopUpHidesOlderRead | chat/consumers.py:48-56 | with 1 to 19 unread, a read message older than the newest `k` read ones but newer than the oldest unread one is in neither the batch nor any page |
| History.FirstUnreadIsOldestUnread | chat/consumers.py:41 | the room has an unread message exactly when `FirstUnreadIndex` is inside the room's list, and the message there is the oldest unread one |
| History.ContiguousStartShape | chat/consumers.py:40-72 | the corrected batch `ContiguousStart` holds `min(20, n)` of the room's own messages, is empty only for an empty room, and holds the oldest unread message |
| History.StartRunNoGap | chat/consumers.py:40-72 | the corrected batch (`ContiguousStart`, that is `StartRun` of the room's messages) holds every room message whose id lies between its first and its last |
| History.ContiguousStartShowsEveryMessage | chat/consumers.py:40-110 | with the corrected batch, every room message is in the batch, on an older page, or on a newer page |
| History.ContiguousStartAgreesWhenCaughtUp | chat/consumers.py:57-62 | with nothing unread, the corrected batch is the same run of messages as the code's batch |
| Channels.Deliver | chat/consumers.py:145-157 | delivery appends one event to each target channel's inbox and to no other |
| Channels.ChannelLayer.GroupAdd | chat/consumers.py:154 | the channel joins the group; nothing is delivered |
| Channels.ChannelLayer.GroupDiscard | chat/consumers.py:167 | the channel leaves the group; nothing is delivered |
| Channels.ChannelLayer.Send | chat/consumers.py:145-152 | one event is delivered to one channel; groups are unchanged |
| Channels.ChannelLayer.GroupSend | chat/consumers.py:155-157 | one event is delivered to every current member of the group |
| Channels.Presence.SAdd | chat/consumers.py:158 | the user is added to the room's online set |
| Channels.Presence.SRem | chat/consumers.py:172 | the user is removed from the room's online set |
| Channels.PresenceIsLastUpdate | chat/consumers.py:154-173 | after any run of joins and leaves, a user is listed online exactly when the last update about them was a join |
| Channels.OneLeaveHidesOpenSession | chat/consumers.py:172 | two sessions of a user join and one leaves: the user is no longer listed although a session is still open |
| Consumers.MarkEach | chat/consumers.py:43-44 | the flag loops give each message, in order, the flag its rule prescribes |
| Consumers.ChatConsumer.constructor | chat/consumers.py:19-29 | a new connection is unbound, with no batch, a zero unread count and both cursors 0 |
| Consumers.ChatConsumer.GetStartMessages | chat/consumers.py:31-72 | the batch and count equal `StartBatch` for the current table; the cursors become the batch's first and last ids, or 0 and 0; other fields are unchanged |
| Consumers.ChatConsumer.GetPaginateDown | chat/consumers.py:74-93 | the page equals `PageDown` from the down cursor; the count is the room's unread total minus 20, floored at 0 |
| Consumers.ChatConsumer.GetPaginateUp | chat/consumers.py:95-111 | the page equals `PageUp` from the up cursor |
| Consumers.ChatConsumer.SendOnlineUserList | chat/consumers.py:113-121 | every member of the room's group gets the current online set; groups are unchanged |
| Consumers.ChatConsumer.SendStartMessages | chat/consumers.py:131-152 | the wire form of `StartBatch`, with its unread count, is kept and sent to this channel alone, before any group join |
| Consumers.ChatConsumer.JoinGroup | chat/consumers.py:154-159 | the channel joins the group before `user_join` goes out, so the joiner hears it too; the user is added to the online set before the online list is sent |
| Consumers.ChatConsumer.Accept | chat/consumers.py:129-159 | the start batch goes to this channel, then the join and the online list go to the group including this channel, with the resulting group and online sets |
| Consumers.ChatConsumer.BindRoom | chat/consumers.py:125-128 | room and group name always set; success exactly when the room exists, then room and user are bound |
| Consumers.ChatConsumer.Connect | chat/consumers.py:123-159 | succeeds exactly when the room exists; on failure nothing but the names changes; on success the connection is bound, its batch recorded as `StartBatch`, and the layer and online sets are as `Accept` leaves them |
| Consumers.ChatConsumer.Disconnect | chat/consumers.py:161-173 | the channel always leaves the group first; with a bound user, the remaining members get `user_leave` and then the online set, from which the user has been removed |
| Consumers.ChatConsumer.ReceiveChatMessage | chat/consumers.py:187-203 | one message is stored, with the author as only reader, and one event goes to the group whose single item is flagged unread; a too-long text changes and sends nothing |
| Consumers.ChatConsumer.ReceiveTyping | chat/consumers.py:205-222 | the group gets `user_typing`, with the user's name and the notice, or `user_stop_typing` |
| Consumers.ChatConsumer.ReceivePaginateUp | chat/consumers.py:224-244 | this channel alone gets the `PageUp` page |
| Consumers.ChatConsumer.ReceivePaginateDown | chat/consumers.py:246-267 | this channel alone gets the `PageDown` page and the floored unread count |
| Consumers.ChatConsumer.ReceiveReadMessage | chat/consumers.py:269-279 | the user joins the message's readers; the group is told exactly when the message has two readers after the add (a repeat read by one of two readers is broadcast again); an unknown id changes and sends nothing |
| Consumers.ChatConsumer.Receive | chat/consumers.py:175-279 | an unauthenticated sender changes and sends nothing; otherwise each frame type has the effect of its handler; users, rooms and groups never change and readers only grow |
| Text.RemoveCharLeavesNone | chat/views.py:90 | after `replace('_', '')` no `_` is left |
| Text.SuffixContained | chat/views.py:133 | a name ending in a pattern contains it |
| Views.DirectName | chat/views.py:194 | a direct name starts with `__`, then the first name, then `_`, then the second name, and ends with `_direct__`; its length is the names' lengths plus 12 |
| Views.FindDirect | chat/views.py:193-198 | a room is found exactly when either order of names exists; the requester-first name wins when both do |
| Views.FindDirectSymmetric | chat/views.py:193-198 | either user's lookup finds a room exactly when the other's does; the same room when only one name exists |
| Views.DirectDetailGet | chat/views.py:177-204 | the cases are: unknown user, 404; oneself, PermissionDenied; existing room in either order, redirect with nothing written; otherwise `__me_other_direct__` is created with participants exactly {me, other} and the user is redirected (DataError if the name exceeds 128); afterwards both users' lookups and the delete view find the room |
| Views.CreatedDirectRoomHasTwoMembers | chat/views.py:199-203 | a created direct room's `members_count` is 2 |
| Views.DirectDeleteGet | chat/views.py:210-233 | same refusals as the detail view; redirect to delete when either name exists, otherwise to the room list; never creates anything |
| Views.DirectDetailIdempotent | chat/views.py:193-203 | once a direct room exists, the other user's request finds it too, and its name holds both usernames |
| Views.DirectNameCollision | chat/views.py:194 | different user pairs can produce the same direct name (`a_b` with `c`, `a` with `b_c`) |
| Views.CommonChannels | chat/views.py:68 | exactly the rooms of type common channel |
| Views.RoomListContext | chat/views.py:58-71 | every common channel, and no other room, gets the count of its messages the viewer has not read |
| Views.DirectListContext | chat/views.py:150-171 | the channel list; every user gets `DirectUnread` (lines 161-170): the unread count of the direct room with them in either order, or 0 when none exists |
| Views.PostingCountsForOthers | chat/views.py:70 | a posted message never counts as unread for its author and adds one to everyone else's count in that room |
| Views.MarkReadCountsDown | chat/views.py:70 | marking a message read lowers the reader's count for its room by one if it was unread, and leaves the count unchanged otherwise |
| Views.GetQueryset | chat/views.py:26-34 | a superuser gets every room; anyone else exactly the rooms they take part in |
| Views.GetObject | chat/views.py:36-50 | no name gives no object; an unknown room is a 404; a non-participant is refused, even a superuser |
| Views.GetObjectWithinQueryset | chat/views.py:26-50 | every room handed out is in the user's queryset; a superuser is listed every room but refused those they are not in |
| Views.UpdateGetObjectAsWritten | chat/views.py:120-135 | any name containing `direct__` is refused; otherwise the room is fetched by name, with no participant check, and an unknown name is DoesNotExist |
| Views.NonParticipantMayUpdate | chat/views.py:120-135 | a user refused by the base view's check still gets the update form of a channel |
| Views.UpdateGetObject | chat/views.py:120-135 | direct rooms are refused; other rooms are returned only to their participants, exactly as the base `get_object` would |
| Views.DirectRoomsNotUpdatable | chat/views.py:133-134 | no direct room name, in either order, can be edited |
| Views.DirectUserAsWritten | chat/views.py:88-90 | the derived partner name has no `_` and is no longer than the room name |
| Views.DirectUserRecoversPlainPartner | chat/views.py:89-90 | for plain usernames (no `_`, no `d`, the viewer's first letter absent from the partner's name), the derivation gives the partner, whoever created the room |
| Views.DirectUserAliceBob | chat/views.py:89-90 | `__alice_bob_direct__` shows `bob` to alice and `alice` to bob |
| Views.DirectUserCutsPartnerName | chat/views.py:89-90 | for plain names (neither name holds `_` or `d`, and the viewer's first letter is absent from the rest of the partner's name), a partner whose name starts with the viewer's is shown without that prefix, while the participants give the full name |
| Views.DirectUserCutsAb | chat/views.py:89-90 | `a` talking to `ab` is shown `b` |
| Views.DirectPartners | chat/views.py:88-90 | corrected partner (not what lines 89-90 compute): a participant viewer plus the partners make up the participants, so there are `members_count - 1` of them; a non-participant viewer gets them all |
| Views.DirectPartnerIsOther | chat/views.py:88-90 | with the corrected partner, in a room the detail view created, each user sees exactly the other, whatever their names |
| Views.RoomDetailContextAsWritten | chat/views.py:79-93 | a named direct room gets the name left by the `replace` chain (no `_`, no longer than the room name) and no participant list; a named channel gets its participants and no partner |
| Views.RoomDetailContext | chat/views.py:79-93 | corrected context (not what lines 89-90 compute): the same shape, with the partner taken from the participants |
| Views.RoomDetailContextShowsPartner | chat/views.py:79-93 | in the corrected context, each user of a room the detail view created is shown exactly the other |
| Views.DetailContextsDisagree | chat/views.py:89-90 | viewer `a` in `__a_ab_direct__`: the context as written names `b`, the corrected one names `ab` |

## Left out

- JSON decoding and encoding of frames, and the formatted `time` and `date` fields (`strftime`), are not modelled. These are presentation, and their format depends on the locale.
- The channel layer and Redis are synchronous and in-memory. Concurrency between connections, and the asynchronous delivery of `group_send`, are not modelled. Usernames are stored as strings, not as UTF-8 bytes.
- The per-event forwarding handlers (`chat_message`, `user_join` and the others, chat/consumers.py:281 onwards) are not modelled separately. Each one stands as an entry in the channel's `Deliver` outbox.
- The message timestamp is dropped. The ordering `-timestamp` is taken to be descending id.
- Consumers.ChatConsumer.Receive: requires a successful `connect`. When `connect` fails the socket is closed and `receive` is never called.
- Consumers.ChatConsumer.Receive: the `DataError` of `Message.objects.create` (chat/consumers.py:189) and the `DoesNotExist` of `Message.objects.get` (chat/consumers.py:270) are returned as `err`, with nothing stored or sent. In the source they are uncaught exceptions that end the consumer and close the socket. The model does not close the session: it stays connected and goes on receiving frames. The same holds for Consumers.ChatConsumer.ReceiveChatMessage and Consumers.ChatConsumer.ReceiveReadMessage.
- Consumers.ChatConsumer.Disconnect: returns `false` where the source raises an AttributeError. This happens when the room was never found so no user is bound. The group discard before it still happens.
- Consumers.ChatConsumer.ReceiveReadMessage: the message is looked up by id alone, as in the source. Marking a message of another room is allowed and reported to this room's group.
- Models.Database.CreateRoom and Models.Database.CreateMessage: the 128- and 1024-character bounds are modelled as the database refusing the row (DataError). A backend that does not enforce `varchar` lengths, such as SQLite, would store the value. `objects.create` runs no validators, so neither `validate_room_name` nor `blank=False` is applied on these paths. An empty text is stored.
- The login redirect of `LoginRequiredMixin` is not modelled. The view functions take the request user as given. DirectDetailView (chat/views.py:174) and DirectDeleteView (chat/views.py:207) list `View` before the mixin, so no login check runs for them. DirectListView (chat/views.py:144) lists the mixin first and does run it. The model treats the requester as a username and does not model Django's handling of an anonymous user's missing id.
- RoomCreateView, RoomDeleteView, the form handling of RoomUpdateView, template rendering and URL routing are not modelled: they are framework plumbing. The views' redirects and exceptions are modelled as a `Response` value.
- `Room.__str__` is presentation only and is not modelled.
- The user list and room list are sets, so the model has no order for them. The unread counters are a map from user or room name to count; they are not attributes set on each object.

## Findings

| source | as written | input that shows it | evidently intended | confidence | as-written member | corrected member |
|---|---|---|---|---|---|---|
| chat/views.py:89-90 | the partner's name is the room name with every `direct`, every occurrence of the viewer's username and every `_` deleted | viewer `a`, partner `ab`, room `__a_ab_direct__`: shown `b` | the other participant's username, `ab` | high (not executed) | Views.DetailContextsDisagree | Views.RoomDetailContextShowsPartner |
| chat/views.py:120-135 | `RoomUpdateView.get_object` replaces the base `get_object` and checks only for `direct__`, so the participant check is lost | user `mallory`, not a participant of channel `news`: the base check refuses, the update view returns the room | only participants may edit a channel, as the base view's check says | medium (not executed) | Views.NonParticipantMayUpdate | Views.UpdateGetObject |
| chat/consumers.py:45-56 | the first batch is the 20 oldest unread messages, or the unread ones plus the newest read ones; the cursors are its lowest and highest id, and the pages reach only ids outside them | unread ids 1-5 and read ids 6-100 in one room: the batch is 1-5 and 86-100, the cursors are 1 and 100, and 6-85 are never shown | every room message is shown, in the batch or on a page | medium (not executed) | History.TopUpHidesOlderRead | History.ContiguousStartShowsEveryMessage |

The consumer (`Consumers.ChatConsumer.GetStartMessages`) keeps the first batch as written, since it models the code. `History.BacklogHidesReadBetween` shows the same gap in the backlog branch: unread ids 1-10 and 12-22 with id 11 read give cursors 1 and 21, and message 11 is never shown. The corrected definitions are `Views.RoomDetailContext` (built on `Views.DirectPartners`) for the first row, `Views.UpdateGetObject` for the second and `History.ContiguousStart` for the third. `Views.RoomDetailContextAsWritten` keeps the code's partner name; `Views.DirectUserCutsPartnerName` shows the same cut for plain names (neither name holds `_` or `d`, and the viewer's first letter is absent from the rest of the partner's name) when the viewer's name starts the partner's.
