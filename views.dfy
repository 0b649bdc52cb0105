/** The room views of `chat/views.py`: the two-party ("direct") rooms named
    after both usernames, the unread counters shown in the room and user
    lists, and the access rules for viewing and updating a room. A view's
    rendered page or redirect is modelled by the decision it makes, a
    `Response`. */
module Views {
  import opened Wrappers
  import opened Text
  import opened Models
  import opened History

  /** What a view answers: a redirect to a named URL (with its `room_name`
      argument where it has one) or the exception it raises. */
  datatype Response =
    | RedirectChatbox(roomName: string)
    | RedirectDelete(roomName: string)
    | RedirectRoomList
    | PermissionDenied
    | NotFound
    | ServerError(error: DbError)

  const DIRECT_SUFFIX: string := "_direct__"

  /** The name of the direct room that `first` opened with `second`. */
  function DirectName(first: UserName, second: UserName): (n: string)
    ensures |n| == |first| + |second| + 12
    ensures n[..2] == "__" && n[|n| - |DIRECT_SUFFIX|..] == DIRECT_SUFFIX
    ensures n[2..2 + |first|] == first && n[2 + |first|] == '_'
    ensures n[3 + |first|..|n| - |DIRECT_SUFFIX|] == second
  {
    "__" + first + "_" + second + DIRECT_SUFFIX
  }

  /** The two-order lookup shared by the direct views: the name with the
      viewer first, else the name with the other user first. */
  function FindDirect(rooms: map<string, Room>, me: UserName, other: UserName): (r: Option<string>)
    ensures r.Some? <==> DirectName(me, other) in rooms || DirectName(other, me) in rooms
    ensures r.Some? ==> r.value in rooms && (r.value == DirectName(me, other) || r.value == DirectName(other, me))
    ensures DirectName(me, other) in rooms ==> r == Some(DirectName(me, other))
  {
    if DirectName(me, other) in rooms then Some(DirectName(me, other))
    else if DirectName(other, me) in rooms then Some(DirectName(other, me))
    else None
  }

  /** Whichever of the two users asks, the lookup finds a room exactly when
      the other one's would, and when only one of the two names is taken
      both find that same room. */
  lemma FindDirectSymmetric(rooms: map<string, Room>, a: UserName, b: UserName)
    ensures FindDirect(rooms, a, b).Some? <==> FindDirect(rooms, b, a).Some?
    ensures !(DirectName(a, b) in rooms && DirectName(b, a) in rooms) ==> FindDirect(rooms, a, b) == FindDirect(rooms, b, a)
  {
  }

  // ---------------------------------------------------------------------
  // DirectDetailView and DirectDeleteView.

  /** `DirectDetailView.get`: an unknown username is a 404 and asking for a
      room with oneself is refused; an existing room in either order is
      reused; otherwise the direct room is created under the name with the
      requester first, with exactly the two users as participants. A name
      longer than its column is refused by the database. In every case but
      the last nothing is written. */
  method DirectDetailGet(db: Database, me: UserName, username: UserName) returns (resp: Response)
    requires db.Valid()
    modifies db
    ensures db.Valid()
    ensures db.users == old(db.users) && db.messages == old(db.messages) && db.nextId == old(db.nextId)
    ensures username !in db.users ==> resp == NotFound && db.rooms == old(db.rooms)
    ensures username in db.users && username == me ==> resp == PermissionDenied && db.rooms == old(db.rooms)
    ensures username in db.users && username != me && FindDirect(old(db.rooms), me, username).Some? ==>
      resp == RedirectChatbox(FindDirect(old(db.rooms), me, username).value) && db.rooms == old(db.rooms)
    ensures username in db.users && username != me && FindDirect(old(db.rooms), me, username).None? ==>
      var n := DirectName(me, username);
      if |n| > ROOM_NAME_MAX_LENGTH then
        resp == ServerError(DataError) && db.rooms == old(db.rooms)
      else
        resp == RedirectChatbox(n) && db.rooms == old(db.rooms)[n := Room(n, {me, username}, DirectMessages)]
    ensures resp.RedirectChatbox? ==>
      && FindDirect(db.rooms, me, username) == Some(resp.roomName)
      && FindDirect(db.rooms, username, me).Some?
      && DirectDeleteGet(db.users, db.rooms, me, username) == RedirectDelete(resp.roomName)
  {
    if username !in db.users {
      return NotFound;
    }
    if me == username {
      return PermissionDenied;
    }
    var found := FindDirect(db.rooms, me, username);
    if found.Some? {
      FindDirectSymmetric(db.rooms, me, username);
      return RedirectChatbox(found.value);
    }
    var n := DirectName(me, username);
    var created := db.CreateRoom(n, DirectMessages);
    if created.Failure? {
      return ServerError(created.error);
    }
    db.AddParticipants(n, {me, username});
    assert db.rooms[n] == Room(n, {me, username}, DirectMessages);
    resp := RedirectChatbox(n);
  }

  /** A direct room the detail view creates has both users as members and
      no one else; the count is two because the view refuses a room with
      oneself. */
  lemma CreatedDirectRoomHasTwoMembers(me: UserName, other: UserName)
    requires me != other
    ensures Room(DirectName(me, other), {me, other}, DirectMessages).MembersCount() == 2
  {
    assert {me, other} == {me} + {other};
  }

  /** `DirectDeleteView.get`: the same checks and lookup as the detail view,
      never creating anything; without a room in either order it sends the
      user back to the room list. */
  function DirectDeleteGet(users: set<UserName>, rooms: map<string, Room>, me: UserName, username: UserName): (resp: Response)
    ensures resp == NotFound <==> username !in users
    ensures resp == PermissionDenied <==> username in users && username == me
    ensures resp == RedirectRoomList <==> username in users && username != me && FindDirect(rooms, me, username).None?
    ensures resp.RedirectDelete? <==> username in users && username != me && FindDirect(rooms, me, username).Some?
    ensures resp.RedirectDelete? ==> resp.roomName in rooms
    ensures !resp.RedirectDelete? ==> resp == NotFound || resp == PermissionDenied || resp == RedirectRoomList
  {
    if username !in users then NotFound
    else if username == me then PermissionDenied
    else
      match FindDirect(rooms, me, username)
      case None => RedirectRoomList
      case Some(n) => RedirectDelete(n)
  }

  /** Opening the same direct conversation again, from either side, reuses
      the room: the second request writes nothing and lands in a room with
      the first user's name in it. */
  lemma DirectDetailIdempotent(rooms: map<string, Room>, me: UserName, other: UserName)
    requires FindDirect(rooms, me, other).Some?
    ensures FindDirect(rooms, other, me).Some?
    ensures Contains(FindDirect(rooms, other, me).value, me) && Contains(FindDirect(rooms, other, me).value, other)
  {
    FindDirectSymmetric(rooms, me, other);
    var n := FindDirect(rooms, other, me).value;
    if n == DirectName(other, me) {
      assert n[2..2 + |other|] == other;
      assert n[3 + |other|..3 + |other| + |me|] == me;
      ContainsSlice(n, 2, other);
      ContainsSlice(n, 3 + |other|, me);
    } else {
      assert n[2..2 + |me|] == me;
      assert n[3 + |me|..3 + |me| + |other|] == other;
      ContainsSlice(n, 2, me);
      ContainsSlice(n, 3 + |me|, other);
    }
  }

  /** A string contains each of its slices. */
  lemma {:induction false} ContainsSlice(s: string, i: nat, sub: string)
    requires i + |sub| <= |s| && s[i..i + |sub|] == sub
    ensures Contains(s, sub)
    decreases i
  {
    if i == 0 {
      assert sub <= s;
    } else {
      assert s[1..][i - 1..i - 1 + |sub|] == sub;
      ContainsSlice(s[1..], i - 1, sub);
    }
  }

  /** Usernames may contain `_`, so two different pairs of users can map to
      one direct-room name. */
  lemma DirectNameCollision()
    ensures DirectName("a_b", "c") == DirectName("a", "b_c")
  {
  }

  // ---------------------------------------------------------------------
  // Unread counters in the room list and the direct list.

  /** The names of the common channels (`Room.objects.filter(type=common_channel)`). */
  function CommonChannels(rooms: map<string, Room>): (r: set<string>)
    ensures forall n :: n in r <==> n in rooms && rooms[n].kind == CommonChannel
  {
    set n | n in rooms && rooms[n].kind == CommonChannel
  }

  /** The unread counter shown next to `other` in the direct list. */
  function DirectUnread(ms: seq<Message>, rooms: map<string, Room>, me: UserName, other: UserName): nat
  {
    match FindDirect(rooms, me, other)
    case None => 0
    case Some(n) => UnreadCount(ms, n, me)
  }

  /** `RoomListView.get_context_data`: every common channel gets the number
      of its messages the viewer has not read. */
  method RoomListContext(db: Database, me: UserName) returns (unread: map<string, nat>)
    ensures unread.Keys == CommonChannels(db.rooms)
    ensures forall n :: n in unread ==> unread[n] == UnreadCount(db.messages, n, me)
  {
    unread := map[];
    var todo := CommonChannels(db.rooms);
    while todo != {}
      invariant todo <= CommonChannels(db.rooms)
      invariant unread.Keys == CommonChannels(db.rooms) - todo
      invariant forall n :: n in unread ==> unread[n] == UnreadCount(db.messages, n, me)
      decreases |todo|
    {
      var n :| n in todo;
      unread := unread[n := UnreadCount(db.messages, n, me)];
      todo := todo - {n};
    }
  }

  /** `DirectListView.get_context_data`: the channel list, and for every
      user (the viewer included) the unread count of the direct room with
      them, 0 when there is none in either order. */
  method DirectListContext(db: Database, me: UserName) returns (roomList: set<string>, unread: map<UserName, nat>)
    ensures roomList == CommonChannels(db.rooms)
    ensures unread.Keys == db.users
    ensures forall u :: u in unread ==> unread[u] == DirectUnread(db.messages, db.rooms, me, u)
  {
    roomList := CommonChannels(db.rooms);
    unread := map[];
    var todo := db.users;
    while todo != {}
      invariant todo <= db.users
      invariant unread.Keys == db.users - todo
      invariant forall u :: u in unread ==> unread[u] == DirectUnread(db.messages, db.rooms, me, u)
      decreases |todo|
    {
      var u :| u in todo;
      var found := FindDirect(db.rooms, me, u);
      if found.None? {
        unread := unread[u := 0];
      } else {
        unread := unread[u := UnreadCount(db.messages, found.value, me)];
      }
      todo := todo - {u};
    }
  }

  /** A message its author posts never counts as unread for the author, and
      adds one to the counter of every other user in that room. */
  lemma {:induction false} PostingCountsForOthers(ms: seq<Message>, m: Message, room: string, viewer: UserName)
    requires m.readers == {m.author}
    ensures UnreadCount(ms + [m], room, viewer) ==
      UnreadCount(ms, room, viewer) + (if m.room == room && viewer != m.author then 1 else 0)
  {
    FilterAppend(ms, m, (x: Message) => x.room == room && viewer !in x.readers);
  }

  lemma {:induction false} FilterAppend(s: seq<Message>, x: Message, p: Message -> bool)
    ensures Filter(s + [x], p) == Filter(s, p) + (if p(x) then [x] else [])
    decreases |s|
  {
    if s != [] {
      assert (s + [x])[1..] == s[1..] + [x];
      FilterAppend(s[1..], x, p);
    }
  }

  /** Marking a message read takes it off the reader's counter for its
      room if it was on it, and leaves the counter otherwise. */
  lemma {:induction false} MarkReadCountsDown(ms: seq<Message>, i: nat, u: UserName, room: string)
    requires i < |ms|
    ensures UnreadCount(WithReader(ms, i, u), room, u) ==
      UnreadCount(ms, room, u) - (if ms[i].room == room && u !in ms[i].readers then 1 else 0)
    decreases |ms|
  {
    if i == 0 {
      assert WithReader(ms, 0, u)[1..] == ms[1..];
    } else {
      assert WithReader(ms, i, u)[1..] == WithReader(ms[1..], i - 1, u);
      MarkReadCountsDown(ms[1..], i - 1, u, room);
    }
  }

  // ---------------------------------------------------------------------
  // Access rules of the room views.

  /** `RoomBaseView.get_queryset`: a superuser sees every room, anyone else
      the rooms they take part in. */
  function GetQueryset(rooms: map<string, Room>, user: User): (r: set<string>)
    ensures r <= rooms.Keys
    ensures user.isSuperuser ==> r == rooms.Keys
    ensures !user.isSuperuser ==> forall n :: n in r <==> n in rooms && user.username in rooms[n].participants
  {
    if user.isSuperuser then rooms.Keys
    else set n | n in rooms && user.username in rooms[n].participants
  }

  /** `RoomBaseView.get_object`: without a room name there is no object;
      an unknown room is a 404; a room the user does not take part in is
      refused, superuser or not. */
  function GetObject(rooms: map<string, Room>, user: User, roomName: string): (r: Result<Option<Room>, Response>)
    ensures roomName == "" <==> r == Success(None)
    ensures r == Failure(NotFound) <==> roomName != "" && roomName !in rooms
    ensures r == Failure(PermissionDenied) <==> roomName in rooms && roomName != "" && user.username !in rooms[roomName].participants
    ensures r.Success? && r.value.Some? ==> roomName in rooms && r.value.value == rooms[roomName]
    ensures r.Success? || r == Failure(NotFound) || r == Failure(PermissionDenied)
  {
    if roomName == "" then Success(None)
    else if roomName !in rooms then Failure(NotFound)
    else if user.username in rooms[roomName].participants then Success(Some(rooms[roomName]))
    else Failure(PermissionDenied)
  }

  /** Every room `get_object` hands out is in the user's queryset; the
      converse fails for a superuser, who lists every room but is refused
      each one they do not take part in. */
  lemma GetObjectWithinQueryset(rooms: map<string, Room>, user: User, roomName: string)
    ensures GetObject(rooms, user, roomName).Success? && GetObject(rooms, user, roomName).value.Some? ==>
      roomName in GetQueryset(rooms, user)
    ensures user.isSuperuser && roomName != "" && roomName in rooms && user.username !in rooms[roomName].participants ==>
      roomName in GetQueryset(rooms, user) && GetObject(rooms, user, roomName) == Failure(PermissionDenied)
  {
  }

  /** `RoomUpdateView.get_object` as written: refuses any name containing
      `direct__` and otherwise fetches the room by name, an unknown name
      raising `DoesNotExist` (a server error, not a 404). It overrides the
      base view's method and so skips the participant check. */
  function UpdateGetObjectAsWritten(rooms: map<string, Room>, roomName: string): (r: Result<Room, Response>)
    ensures r == Failure(PermissionDenied) <==> Contains(roomName, "direct__")
    ensures r == Failure(ServerError(DoesNotExist)) <==> !Contains(roomName, "direct__") && roomName !in rooms
    ensures r.Success? <==> !Contains(roomName, "direct__") && roomName in rooms
    ensures r.Success? ==> r.value == rooms[roomName]
  {
    if roomName != "" && Contains(roomName, "direct__") then Failure(PermissionDenied)
    else if roomName in rooms then Success(rooms[roomName])
    else Failure(ServerError(DoesNotExist))
  }

  /** A user who takes part in no room can open the update form of any
      channel. */
  lemma NonParticipantMayUpdate()
    ensures
      var rooms := map["news" := Room("news", {"alice"}, CommonChannel)];
      GetObject(rooms, User("mallory", true, false), "news") == Failure(PermissionDenied) &&
      UpdateGetObjectAsWritten(rooms, "news") == Success(rooms["news"])
  {
    assert !Contains("news", "direct__");
  }

  /** `RoomUpdateView.get_object` with the base view's participant check
      kept: direct rooms are never editable, and other rooms only by their
      participants. */
  function UpdateGetObject(rooms: map<string, Room>, user: User, roomName: string): (r: Result<Room, Response>)
    ensures r.Success? <==> roomName != "" && !Contains(roomName, "direct__") && roomName in rooms && user.username in rooms[roomName].participants
    ensures r.Success? ==> r.value == rooms[roomName] && GetObject(rooms, user, roomName) == Success(Some(r.value))
    ensures Contains(roomName, "direct__") ==> r == Failure(PermissionDenied)
  {
    if roomName != "" && Contains(roomName, "direct__") then Failure(PermissionDenied)
    else
      match GetObject(rooms, user, roomName)
      case Success(found) => if found.Some? then Success(found.value) else Failure(ServerError(DoesNotExist))
      case Failure(e) => Failure(e)
  }

  /** No direct room, under either order of names, can be edited. */
  lemma DirectRoomsNotUpdatable(rooms: map<string, Room>, user: User, a: UserName, b: UserName)
    ensures UpdateGetObject(rooms, user, DirectName(a, b)) == Failure(PermissionDenied)
    ensures UpdateGetObjectAsWritten(rooms, DirectName(a, b)) == Failure(PermissionDenied)
  {
    var n := DirectName(a, b);
    assert n[|n| - |"direct__"|..] == "direct__";
    SuffixContained(n, "direct__");
  }

  // ---------------------------------------------------------------------
  // RoomDetailView: the conversation partner of a direct room.

  /** The partner name as the detail view derives it: the room name with
      every `direct`, then every occurrence of the viewer's username, then
      every `_` removed. */
  function DirectUserAsWritten(roomName: string, viewer: UserName): (r: string)
    ensures '_' !in r && |r| <= |roomName|
  {
    var s := RemoveAll(RemoveAll(roomName, "direct"), viewer);
    RemoveAllShortens(roomName, "direct");
    RemoveAllShortens(RemoveAll(roomName, "direct"), viewer);
    RemoveCharLeavesNone(s, '_');
    RemoveAll(s, "_")
  }

  /** For usernames without `_` or `d`, where the viewer's first letter
      does not occur in the partner's name, the derivation gives the
      partner, whichever of the two opened the room. */
  lemma DirectUserRecoversPlainPartner(me: UserName, other: UserName)
    requires me != [] && '_' !in me && '_' !in other && 'd' !in me && 'd' !in other && me[0] !in other
    ensures DirectUserAsWritten(DirectName(me, other), me) == other
    ensures DirectUserAsWritten(DirectName(other, me), me) == other
  {
    ViewerFirst(me, other);
    PartnerFirst(me, other);
  }

  /** The first replacement, for users without `d` in their names: only
      the `direct` of the suffix goes. */
  lemma DirectNameWithoutDirect(first: UserName, second: UserName)
    requires 'd' !in first && 'd' !in second
    ensures RemoveAll(DirectName(first, second), "direct") == "__" + (first + ("_" + (second + "___")))
  {
    var x := "__" + (first + ("_" + (second + "_")));
    assert DirectName(first, second) == x + "direct__";
    DropDirect(x);
    assert x + "__" == "__" + (first + ("_" + (second + "___")));
  }

  lemma ViewerFirst(me: UserName, other: UserName)
    requires me != [] && '_' !in me && '_' !in other && 'd' !in me && 'd' !in other && me[0] !in other
    ensures DirectUserAsWritten(DirectName(me, other), me) == other
  {
    DirectNameWithoutDirect(me, other);
    DropViewer("__", me, "_" + (other + "___"));
    assert "__" + ("_" + (other + "___")) == "___" + (other + "___");
    StripUnderscores("___", other, "___");
  }

  lemma PartnerFirst(me: UserName, other: UserName)
    requires me != [] && '_' !in me && '_' !in other && 'd' !in me && 'd' !in other && me[0] !in other
    ensures DirectUserAsWritten(DirectName(other, me), me) == other
  {
    DirectNameWithoutDirect(other, me);
    var before := "__" + (other + "_");
    assert "__" + (other + ("_" + (me + "___"))) == before + (me + "___");
    DropViewer(before, me, "___");
    assert before + "___" == "__" + (other + "____");
    StripUnderscores("__", other, "____");
  }

  /** A partner whose name starts with the viewer's is shown without that
      part: for plain names, the viewer `me` talking to `me + rest` is shown
      `rest`, while the room's participants name `me + rest`. */
  lemma DirectUserCutsPartnerName(me: UserName, rest: string)
    requires me != [] && rest != [] && '_' !in me && '_' !in rest && 'd' !in me && 'd' !in rest && me[0] !in rest
    ensures DirectUserAsWritten(DirectName(me, me + rest), me) == rest
    ensures DirectPartners(Room(DirectName(me, me + rest), {me, me + rest}, DirectMessages), me) == {me + rest}
    ensures rest != me + rest
  {
    assert 'd' !in me + rest;
    DirectNameWithoutDirect(me, me + rest);
    assert me + ("_" + ((me + rest) + "___")) == me + ("_" + (me + (rest + "___")));
    DropViewerBesideLongerName(me, rest);
    assert "__" + ("_" + (rest + "___")) == "___" + (rest + "___");
    StripUnderscores("___", rest, "___");
    assert |rest| < |me + rest|;
  }

  /** `__alice_bob_direct__` shows `bob` to alice and `alice` to bob. */
  lemma DirectUserAliceBob()
    ensures DirectUserAsWritten(DirectName("alice", "bob"), "alice") == "bob"
    ensures DirectUserAsWritten(DirectName("alice", "bob"), "bob") == "alice"
  {
    DirectUserRecoversPlainPartner("alice", "bob");
    DirectUserRecoversPlainPartner("bob", "alice");
  }

  /** The smallest instance: `a` talking to `ab` is shown `b`. */
  lemma DirectUserCutsAb()
    ensures DirectUserAsWritten(DirectName("a", "ab"), "a") == "b"
  {
    assert "ab" == "a" + "b";
    DirectUserCutsPartnerName("a", "b");
  }

  /** The partner of a direct room taken from its participants: everyone
      but the viewer. */
  function DirectPartners(room: Room, viewer: UserName): (r: set<UserName>)
    ensures viewer !in r && r <= room.participants
    ensures viewer in room.participants ==> r + {viewer} == room.participants && |r| == room.MembersCount() - 1
    ensures viewer !in room.participants ==> r == room.participants
  {
    room.participants - {viewer}
  }

  /** In a room the detail view created, each of the two users sees exactly
      the other as partner, whatever their names. */
  lemma DirectPartnerIsOther(me: UserName, other: UserName)
    requires me != other
    ensures DirectPartners(Room(DirectName(me, other), {me, other}, DirectMessages), me) == {other}
    ensures DirectPartners(Room(DirectName(me, other), {me, other}, DirectMessages), other) == {me}
  {
  }

  /** What `RoomDetailView.get_context_data` adds on top of the room: the
      partner for a direct room, the participant list for a channel. */
  datatype DetailContext<P> = DetailContext(directUser: Option<P>, participants: Option<set<UserName>>)

  /** The detail view's context as written: a direct room's partner is the
      name left over by the `replace` chain. */
  function RoomDetailContextAsWritten(room: Room, viewer: UserName): (c: DetailContext<string>)
    ensures c.directUser.Some? <==> room.name != "" && room.kind == DirectMessages
    ensures c.directUser.Some? ==> '_' !in c.directUser.value && |c.directUser.value| <= |room.name|
    ensures c.participants.Some? <==> room.name != "" && room.kind == CommonChannel
    ensures c.participants.Some? ==> c.participants.value == room.participants
  {
    if room.name != "" && room.kind == DirectMessages then
      DetailContext(Some(DirectUserAsWritten(room.name, viewer)), None)
    else if room.name != "" && room.kind == CommonChannel then
      DetailContext(None, Some(room.participants))
    else
      DetailContext(None, None)
  }

  /** The corrected context: a direct room's partner is taken from its
      participants. */
  function RoomDetailContext(room: Room, viewer: UserName): (c: DetailContext<set<UserName>>)
    ensures c.directUser.Some? <==> room.name != "" && room.kind == DirectMessages
    ensures c.participants.Some? <==> room.name != "" && room.kind == CommonChannel
    ensures c.participants.Some? ==> c.participants.value == room.participants
  {
    if room.name != "" && room.kind == DirectMessages then
      DetailContext(Some(DirectPartners(room, viewer)), None)
    else if room.name != "" && room.kind == CommonChannel then
      DetailContext(None, Some(room.participants))
    else
      DetailContext(None, None)
  }

  /** For a room the detail view created, the corrected context names exactly
      the other user, and agrees with the context as written for plain
      usernames. */
  lemma RoomDetailContextShowsPartner(me: UserName, other: UserName)
    requires me != other
    ensures var room := Room(DirectName(me, other), {me, other}, DirectMessages);
      && RoomDetailContext(room, me).directUser == Some({other})
      && RoomDetailContext(room, other).directUser == Some({me})
  {
    DirectPartnerIsOther(me, other);
  }

  /** Viewer `a` in the room with `ab`: the context as written names `b`,
      the corrected one names `ab`. */
  lemma DetailContextsDisagree()
    ensures var room := Room(DirectName("a", "ab"), {"a", "ab"}, DirectMessages);
      && RoomDetailContextAsWritten(room, "a").directUser == Some("b")
      && RoomDetailContext(room, "a").directUser == Some({"ab"})
  {
    DirectUserCutsAb();
    DirectPartnerIsOther("a", "ab");
  }
}
