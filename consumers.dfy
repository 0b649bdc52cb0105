/** The websocket consumer of a chat room (`chat/consumers.py`): one object
    per open connection, holding the room it is bound to, the two pagination
    cursors and the first batch it sent. Its methods read and change the
    database, the channel layer and the presence sets. */
module Consumers {
  import opened Wrappers
  import opened Models
  import opened History
  import opened Channels

  /** A frame from the browser, by its `type`; any other type is ignored. */
  datatype Inbound =
    | SendChat(message: string)
    | Typing
    | StopTyping
    | PageUpRequest(page: int)
    | PageDownRequest(page: int)
    | MarkRead(id: int)
    | Other(kind: string)

  /** The channel-layer group of a room. */
  function GroupName(roomName: string): string
  {
    "chat_" + roomName
  }

  /** The Redis key of a room's online set. */
  function PresenceKey(roomName: string): string
  {
    roomName + "_onlines"
  }

  const TYPING_SUFFIX: string := " печатает..."

  /** The wire form of one annotated message. */
  function ToItem(a: Annotated): Item
  {
    Item(a.msg.id, a.msg.text, a.msg.author, a.read)
  }

  function ToItems(batch: seq<Annotated>): seq<Item>
  {
    seq(|batch|, i requires 0 <= i < |batch| => ToItem(batch[i]))
  }

  /** The `for msg in ...: msg.read = ...` loops: every message gets its
      read flag by the given rule, in order. */
  method MarkEach(ms: seq<Message>, rule: ReadRule) returns (out: seq<Annotated>)
    ensures out == Annotate(ms, rule)
  {
    out := [];
    for i := 0 to |ms|
      invariant |out| == i
      invariant forall k :: 0 <= k < i ==> out[k] == Annotated(ms[k], ReadFlag(rule, ms[k]))
    {
      out := out + [Annotated(ms[i], ReadFlag(rule, ms[i]))];
    }
  }

  class ChatConsumer {
    const db: Database
    const layer: ChannelLayer
    const presence: Presence
    /** This connection's own channel. */
    const channelName: ChannelName
    /** `scope['user']` and `scope['url_route']['kwargs']['room_name']`. */
    const scopeUser: User
    const scopeRoomName: string

    var roomName: Option<string>
    var roomGroupName: Option<string>
    var room: Option<Room>
    var user: Option<User>
    var unreadCount: int
    var startMsgs: Option<seq<Item>>
    var downZeroMsgId: int
    var upZeroMsgId: int

    /** `__init__`: nothing is bound yet and both cursors are zero. */
    constructor (db: Database, layer: ChannelLayer, presence: Presence,
                 channelName: ChannelName, scopeUser: User, scopeRoomName: string)
      ensures this.db == db && this.layer == layer && this.presence == presence
      ensures this.channelName == channelName && this.scopeUser == scopeUser && this.scopeRoomName == scopeRoomName
      ensures roomName == None && roomGroupName == None && room == None && user == None
      ensures unreadCount == 0 && startMsgs == None && downZeroMsgId == 0 && upZeroMsgId == 0
    {
      this.db := db;
      this.layer := layer;
      this.presence := presence;
      this.channelName := channelName;
      this.scopeUser := scopeUser;
      this.scopeRoomName := scopeRoomName;
      roomName := None;
      roomGroupName := None;
      room := None;
      user := None;
      unreadCount := 0;
      startMsgs := None;
      downZeroMsgId := 0;
      upZeroMsgId := 0;
    }

    /** The state after a `connect` that found its room. */
    ghost predicate Connected()
      reads this
    {
      && roomName == Some(scopeRoomName)
      && roomGroupName == Some(GroupName(scopeRoomName))
      && room.Some? && room.value.name == scopeRoomName
      && user == Some(scopeUser)
    }

    /** `get_start_messages`: the first batch and the unread count behind it
        are those of `StartBatch`, and the cursors are set to the batch's
        first and last ids (both zero when the room is empty). */
    method GetStartMessages(name: string) returns (messages: Option<seq<Annotated>>, unreadToPaginate: nat)
      modifies this
      ensures roomName == old(roomName) && roomGroupName == old(roomGroupName) && room == old(room) && user == old(user)
      ensures unreadCount == old(unreadCount) && startMsgs == old(startMsgs)
      ensures Start(messages, unreadToPaginate) == StartBatch(db.messages, name, scopeUser.username)
      ensures upZeroMsgId == UpCursor(Start(messages, unreadToPaginate))
      ensures downZeroMsgId == DownCursor(Start(messages, unreadToPaginate))
    {
      var viewer := scopeUser.username;
      var allUnread := MarkEach(UnreadBy(db.messages, name, viewer), MarkedUnread);
      unreadToPaginate := 0;
      var start: seq<Annotated>;
      if |allUnread| >= MESSAGES_PAGINATE {
        start := allUnread[..MESSAGES_PAGINATE];
        unreadToPaginate := |allUnread| - MESSAGES_PAGINATE;
      } else if |allUnread| > 0 {
        var need := MESSAGES_PAGINATE - |allUnread|;
        var oldMsgs := MarkEach(Take(NewestFirst(ReadBy(db.messages, name, viewer)), need), ReaderCountNotOne);
        start := SortById(oldMsgs + allUnread);
        assert start == TopUpBatch(allUnread, ReadBy(db.messages, name, viewer));
      } else {
        var oldMsgs := Reverse(Take(NewestFirst(InRoom(db.messages, name)), MESSAGES_PAGINATE));
        assert StartBatch(db.messages, name, viewer) == LatestBatch(InRoom(db.messages, name));
        if |oldMsgs| > 0 {
          start := MarkEach(oldMsgs, ReaderCountNotOne);
        } else {
          upZeroMsgId := 0;
          downZeroMsgId := 0;
          return None, unreadToPaginate;
        }
      }
      upZeroMsgId := start[0].msg.id;
      downZeroMsgId := start[|start| - 1].msg.id;
      messages := Some(start);
    }

    /** `get_paginate_down`: the page above the down cursor, and the unread
        count less one page (floored at zero). */
    method GetPaginateDown(page: int) returns (messages: seq<Annotated>, count: int)
      requires room.Some?
      ensures messages == PageDown(db.messages, room.value.name, scopeUser.username, downZeroMsgId, page)
      ensures count == RemainingUnread(UnreadCount(db.messages, room.value.name, scopeUser.username))
    {
      var viewer := scopeUser.username;
      count := UnreadCount(db.messages, room.value.name, viewer);
      if count - MESSAGES_PAGINATE < 0 {
        count := 0;
      } else {
        count := count - MESSAGES_PAGINATE;
      }
      var startPaginate := downZeroMsgId + 1 + MESSAGES_PAGINATE * (page - 1);
      var endPaginate := downZeroMsgId + MESSAGES_PAGINATE * page;
      var found := Reverse(NewestFirst(InWindow(db.messages, room.value.name, Window(startPaginate, endPaginate))));
      messages := MarkEach(found, ViewerIsReader(viewer));
    }

    /** `get_paginate_up`: the page below the up cursor. */
    method GetPaginateUp(page: int) returns (messages: seq<Annotated>)
      requires room.Some?
      ensures messages == PageUp(db.messages, room.value.name, scopeUser.username, upZeroMsgId, page)
    {
      var startPaginate := upZeroMsgId - 1 - MESSAGES_PAGINATE * (page - 1);
      var endPaginate := upZeroMsgId - MESSAGES_PAGINATE * page;
      if endPaginate <= 0 {
        endPaginate := 1;
      }
      var found := NewestFirst(InWindow(db.messages, room.value.name, Window(endPaginate, startPaginate)));
      messages := MarkEach(found, ViewerIsReader(scopeUser.username));
    }

    /** `send_online_user_list`: every member of the room's group gets the
        room's current online set. */
    method SendOnlineUserList()
      requires roomName.Some? && roomGroupName.Some?
      modifies layer
      ensures layer.groups == old(layer.groups)
      ensures layer.outbox ==
        Deliver(old(layer.outbox), layer.Members(roomGroupName.value), OnlineUsers(presence.SMembers(PresenceKey(roomName.value))))
    {
      var online := presence.SMembers(PresenceKey(roomName.value));
      layer.GroupSend(roomGroupName.value, OnlineUsers(online));
    }

    /** What a successful `connect` keeps of the first batch for the table
        `ms`: the batch in wire form (`None` when the room is empty), the
        unread count behind it, and the cursors at its first and last ids. */
    ghost predicate StartSent(ms: seq<Message>)
      reads this
      requires roomName.Some?
    {
      var st := StartBatch(ms, roomName.value, scopeUser.username);
      && startMsgs == (if st.batch.Some? then Some(ToItems(st.batch.value)) else None)
      && unreadCount == st.unread
      && upZeroMsgId == UpCursor(st) && downZeroMsgId == DownCursor(st)
    }

    /** The first half of a successful `connect`: the first batch is worked
        out, kept in its wire form together with the unread count, and sent
        to this channel alone (the room's group is not joined yet). */
    method SendStartMessages()
      requires roomName.Some?
      modifies this, layer
      ensures roomName == old(roomName) && roomGroupName == old(roomGroupName) && room == old(room) && user == old(user)
      ensures StartSent(db.messages)
      ensures layer.groups == old(layer.groups)
      ensures layer.outbox == Deliver(old(layer.outbox), {channelName}, ChatMessage(startMsgs, Some(unreadCount)))
    {
      var messages, count := GetStartMessages(roomName.value);
      startMsgs := if messages.Some? && |messages.value| > 0 then Some(ToItems(messages.value)) else None;
      unreadCount := count;
      layer.Send(channelName, ChatMessage(startMsgs, Some(unreadCount)));
    }

    /** The second half of a successful `connect`: this channel joins the
        room's group, the group (this channel included) hears that the user
        joined, the user is marked online and the group is sent the online
        set. */
    method JoinGroup()
      requires roomName.Some? && roomGroupName.Some? && user.Some?
      modifies layer, presence
      ensures
        var g := roomGroupName.value;
        var key := PresenceKey(roomName.value);
        var members := old(layer.Members(g)) + {channelName};
        var online := old(presence.SMembers(key)) + {user.value.username};
        && layer.groups == old(layer.groups)[g := members]
        && presence.sets == old(presence.sets)[key := online]
        && layer.outbox == Deliver(Deliver(old(layer.outbox), members, UserJoin(user.value.username)), members, OnlineUsers(online))
    {
      layer.GroupAdd(roomGroupName.value, channelName);
      layer.GroupSend(roomGroupName.value, UserJoin(user.value.username));
      presence.SAdd(PresenceKey(roomName.value), user.value.username);
      SendOnlineUserList();
    }

    /** What a successful `connect` does once its room is bound: the
        connection is accepted, sent its first batch, and joined to the
        room's group. */
    method Accept()
      requires roomName.Some? && roomGroupName.Some? && user.Some?
      modifies this, layer, presence
      ensures roomName == old(roomName) && roomGroupName == old(roomGroupName) && room == old(room) && user == old(user)
      ensures StartSent(db.messages)
      ensures
        var g := roomGroupName.value;
        var key := PresenceKey(roomName.value);
        var members := old(layer.Members(g)) + {channelName};
        var online := old(presence.SMembers(key)) + {user.value.username};
        && layer.groups == old(layer.groups)[g := members]
        && presence.sets == old(presence.sets)[key := online]
        && layer.outbox ==
             Deliver(Deliver(Deliver(old(layer.outbox), {channelName}, ChatMessage(startMsgs, Some(unreadCount))),
                             members, UserJoin(user.value.username)),
                     members, OnlineUsers(online))
    {
      SendStartMessages();
      JoinGroup();
    }

    /** The first half of `connect`: the room name and group name from the
        URL, then `Room.objects.get(name=...)`; only a room that exists binds
        the room and the scope user to the connection. */
    method BindRoom() returns (ok: bool)
      requires db.Valid()
      modifies this
      ensures roomName == Some(scopeRoomName) && roomGroupName == Some(GroupName(scopeRoomName))
      ensures ok <==> scopeRoomName in db.rooms
      ensures unreadCount == old(unreadCount) && startMsgs == old(startMsgs)
      ensures upZeroMsgId == old(upZeroMsgId) && downZeroMsgId == old(downZeroMsgId)
      ensures !ok ==> room == old(room) && user == old(user)
      ensures ok ==> room == Some(db.rooms[scopeRoomName]) && room.value.name == scopeRoomName && user == Some(scopeUser)
    {
      roomName := Some(scopeRoomName);
      roomGroupName := Some(GroupName(scopeRoomName));
      var found := db.GetRoom(scopeRoomName);
      if found.None? {
        return false;
      }
      room := found;
      user := Some(scopeUser);
      ok := true;
    }

    /** `connect`. When the room does not exist, `Room.objects.get` raises
        after the room name and group are set and nothing else happens.
        Otherwise the connection is accepted, sent its first batch with the
        unread count, joined to the group, announced to the group (itself
        included), marked online, and the group is sent the online set. */
    method Connect() returns (ok: bool)
      requires db.Valid()
      modifies this, layer, presence
      ensures roomName == Some(scopeRoomName) && roomGroupName == Some(GroupName(scopeRoomName))
      ensures ok <==> scopeRoomName in db.rooms
      ensures !ok ==>
        && room == old(room) && user == old(user) && unreadCount == old(unreadCount) && startMsgs == old(startMsgs)
        && upZeroMsgId == old(upZeroMsgId) && downZeroMsgId == old(downZeroMsgId)
        && layer.groups == old(layer.groups) && layer.outbox == old(layer.outbox) && presence.sets == old(presence.sets)
      ensures ok ==> Connected() && room == Some(db.rooms[scopeRoomName])
      ensures ok ==> StartSent(db.messages)
      ensures ok ==>
        var g := GroupName(scopeRoomName);
        var key := PresenceKey(scopeRoomName);
        var members := old(layer.Members(g)) + {channelName};
        var online := old(presence.SMembers(key)) + {scopeUser.username};
        && layer.groups == old(layer.groups)[g := members]
        && presence.sets == old(presence.sets)[key := online]
        && layer.outbox ==
             Deliver(Deliver(Deliver(old(layer.outbox), {channelName}, ChatMessage(startMsgs, Some(unreadCount))),
                             members, UserJoin(scopeUser.username)),
                     members, OnlineUsers(online))
    {
      ok := BindRoom();
      if ok {
        Accept();
      }
    }

    /** `disconnect`. The channel always leaves the group first. When the
        connection never found its room, `self.user` is unset and the
        handler fails there; otherwise the remaining members hear that the
        user left, the user is removed from the online set (whatever other
        sessions they still have open) and the group gets the new set. */
    method Disconnect() returns (ok: bool)
      requires roomName.Some? && roomGroupName.Some?
      modifies layer, presence
      ensures layer.groups == old(layer.groups)[roomGroupName.value := old(layer.Members(roomGroupName.value)) - {channelName}]
      ensures ok <==> user.Some?
      ensures !ok ==> layer.outbox == old(layer.outbox) && presence.sets == old(presence.sets)
      ensures ok ==>
        var key := PresenceKey(roomName.value);
        && presence.sets == old(presence.sets)[key := old(presence.SMembers(key)) - {user.value.username}]
        && user.value.username !in presence.SMembers(key)
        && layer.outbox ==
             Deliver(Deliver(old(layer.outbox), layer.Members(roomGroupName.value), UserLeave(user.value.username)),
                     layer.Members(roomGroupName.value), OnlineUsers(presence.SMembers(key)))
    {
      layer.GroupDiscard(roomGroupName.value, channelName);
      if user.None? {
        return false;
      }
      layer.GroupSend(roomGroupName.value, UserLeave(user.value.username));
      presence.SRem(PresenceKey(roomName.value), user.value.username);
      SendOnlineUserList();
      ok := true;
    }

    /** The `chat_message` branch of `receive`: the message is stored with
        its author as only reader and broadcast, unread, to the group. */
    method ReceiveChatMessage(text: string) returns (err: Option<DbError>)
      requires Connected() && db.Valid()
      modifies db, layer
      ensures db.Valid() && db.users == old(db.users) && db.rooms == old(db.rooms)
      ensures ReadersGrow(old(db.messages), db.messages)
      ensures layer.groups == old(layer.groups)
      ensures |text| > MESSAGE_TEXT_MAX_LENGTH ==>
        && err == Some(DataError)
        && db.messages == old(db.messages) && db.nextId == old(db.nextId) && layer.outbox == old(layer.outbox)
      ensures |text| <= MESSAGE_TEXT_MAX_LENGTH ==>
        var me := scopeUser.username;
        && err.None?
        && db.messages == old(db.messages) + [Message(old(db.nextId), scopeRoomName, me, text, {me})]
        && db.nextId == old(db.nextId) + 1
        && layer.outbox == Deliver(old(layer.outbox), layer.Members(GroupName(scopeRoomName)),
                                   ChatMessage(Some([Item(old(db.nextId), text, me, false)]), None))
    {
      var created := db.CreateMessage(user.value.username, room.value.name, text);
      if created.Failure? {
        return Some(created.error);
      }
      layer.GroupSend(roomGroupName.value, ChatMessage(Some([Item(created.value.id, text, user.value.username, false)]), None));
      err := None;
    }

    /** The `user_typing` and `user_stop_typing` branches: a notice to the
        whole group. */
    method ReceiveTyping(typing: bool)
      requires Connected()
      modifies layer
      ensures layer.groups == old(layer.groups)
      ensures var me := scopeUser.username;
        layer.outbox == Deliver(old(layer.outbox), layer.Members(GroupName(scopeRoomName)),
                                if typing then UserTyping(me, me + TYPING_SUFFIX) else UserStopTyping)
    {
      var me := user.value.username;
      if typing {
        layer.GroupSend(roomGroupName.value, UserTyping(me, me + TYPING_SUFFIX));
      } else {
        layer.GroupSend(roomGroupName.value, UserStopTyping);
      }
    }

    /** The `paginate_up` branch: the older page goes to this channel only. */
    method ReceivePaginateUp(page: int)
      requires Connected()
      modifies layer
      ensures layer.groups == old(layer.groups)
      ensures layer.outbox == Deliver(old(layer.outbox), {channelName},
                                      PaginateUp(ToItems(PageUp(db.messages, scopeRoomName, scopeUser.username, upZeroMsgId, page))))
    {
      var messages := GetPaginateUp(page);
      layer.Send(channelName, PaginateUp(ToItems(messages)));
    }

    /** The `paginate_down` branch: the newer page and the unread count go to
        this channel only. */
    method ReceivePaginateDown(page: int)
      requires Connected()
      modifies layer
      ensures layer.groups == old(layer.groups)
      ensures var me := scopeUser.username;
        layer.outbox == Deliver(old(layer.outbox), {channelName},
                                PaginateDown(ToItems(PageDown(db.messages, scopeRoomName, me, downZeroMsgId, page)),
                                             RemainingUnread(UnreadCount(db.messages, scopeRoomName, me))))
    {
      var messages, count := GetPaginateDown(page);
      layer.Send(channelName, PaginateDown(ToItems(messages), count));
    }

    /** The `read_message` branch: the user joins the message's readers (the
        message is looked up by id alone, in whatever room it is), and the
        group is told when the message now has exactly two readers. */
    method ReceiveReadMessage(id: int) returns (err: Option<DbError>)
      requires Connected() && db.Valid()
      modifies db, layer
      ensures db.Valid() && db.users == old(db.users) && db.rooms == old(db.rooms) && db.nextId == old(db.nextId)
      ensures ReadersGrow(old(db.messages), db.messages)
      ensures layer.groups == old(layer.groups)
      ensures IndexOfId(old(db.messages), id).None? ==>
        err == Some(DoesNotExist) && db.messages == old(db.messages) && layer.outbox == old(layer.outbox)
      ensures IndexOfId(old(db.messages), id).Some? ==>
        var i := IndexOfId(old(db.messages), id).value;
        && err.None?
        && db.messages == WithReader(old(db.messages), i, scopeUser.username)
        && layer.outbox ==
             (if |db.messages[i].readers| == 2 then Deliver(old(layer.outbox), layer.Members(GroupName(scopeRoomName)), ReadMessage(id))
              else old(layer.outbox))
    {
      var added := db.AddReader(id, scopeUser.username);
      if added.Failure? {
        return Some(added.error);
      }
      if added.value == 2 {
        layer.GroupSend(roomGroupName.value, ReadMessage(id));
      }
      err := None;
    }

    /** `receive`, after a successful `connect`. An unauthenticated user is
        ignored. A chat message is stored with its author as only reader and
        broadcast to the group; typing notices are broadcast; pages go back
        to this channel only; marking a message read adds the user to its
        readers and, when that makes two readers, tells the group. A text
        too long for its column and an unknown message id are the database
        errors `get`/`create` raise, and nothing is sent. */
    method Receive(ev: Inbound) returns (err: Option<DbError>)
      requires Connected() && db.Valid()
      modifies db, layer
      ensures db.Valid()
      ensures db.users == old(db.users) && db.rooms == old(db.rooms)
      ensures ReadersGrow(old(db.messages), db.messages)
      ensures layer.groups == old(layer.groups)
      ensures !scopeUser.isAuthenticated ==>
        err.None? && db.messages == old(db.messages) && db.nextId == old(db.nextId) && layer.outbox == old(layer.outbox)
      ensures scopeUser.isAuthenticated ==>
        var me := scopeUser.username;
        var g := GroupName(scopeRoomName);
        match ev
        case SendChat(text) =>
          if |text| > MESSAGE_TEXT_MAX_LENGTH then
            && err == Some(DataError)
            && db.messages == old(db.messages) && db.nextId == old(db.nextId) && layer.outbox == old(layer.outbox)
          else
            && err.None?
            && db.messages == old(db.messages) + [Message(old(db.nextId), scopeRoomName, me, text, {me})]
            && db.nextId == old(db.nextId) + 1
            && layer.outbox == Deliver(old(layer.outbox), layer.Members(g), ChatMessage(Some([Item(old(db.nextId), text, me, false)]), None))
        case Typing =>
          && err.None? && db.messages == old(db.messages) && db.nextId == old(db.nextId)
          && layer.outbox == Deliver(old(layer.outbox), layer.Members(g), UserTyping(me, me + TYPING_SUFFIX))
        case StopTyping =>
          && err.None? && db.messages == old(db.messages) && db.nextId == old(db.nextId)
          && layer.outbox == Deliver(old(layer.outbox), layer.Members(g), UserStopTyping)
        case PageUpRequest(page) =>
          && err.None? && db.messages == old(db.messages) && db.nextId == old(db.nextId)
          && layer.outbox == Deliver(old(layer.outbox), {channelName}, PaginateUp(ToItems(PageUp(db.messages, scopeRoomName, me, upZeroMsgId, page))))
        case PageDownRequest(page) =>
          && err.None? && db.messages == old(db.messages) && db.nextId == old(db.nextId)
          && layer.outbox == Deliver(old(layer.outbox), {channelName},
               PaginateDown(ToItems(PageDown(db.messages, scopeRoomName, me, downZeroMsgId, page)),
                            RemainingUnread(UnreadCount(db.messages, scopeRoomName, me))))
        case MarkRead(id) =>
          && db.nextId == old(db.nextId)
          && (IndexOfId(old(db.messages), id).None? ==>
                err == Some(DoesNotExist) && db.messages == old(db.messages) && layer.outbox == old(layer.outbox))
          && (IndexOfId(old(db.messages), id).Some? ==>
                var i := IndexOfId(old(db.messages), id).value;
                && err.None?
                && db.messages == WithReader(old(db.messages), i, me)
                && layer.outbox ==
                     (if |db.messages[i].readers| == 2 then Deliver(old(layer.outbox), layer.Members(g), ReadMessage(id))
                      else old(layer.outbox)))
        case Other(_) =>
          err.None? && db.messages == old(db.messages) && db.nextId == old(db.nextId) && layer.outbox == old(layer.outbox)
    {
      if !user.value.isAuthenticated {
        return None;
      }
      err := None;
      match ev {
        case SendChat(text) =>
          err := ReceiveChatMessage(text);
        case Typing =>
          ReceiveTyping(true);
        case StopTyping =>
          ReceiveTyping(false);
        case PageUpRequest(page) =>
          ReceivePaginateUp(page);
        case PageDownRequest(page) =>
          ReceivePaginateDown(page);
        case MarkRead(id) =>
          err := ReceiveReadMessage(id);
        case Other(_) =>
      }
    }
  }
}
