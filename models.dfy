/** The records of the chat application (`messenger/chat/models.py`): rooms,
    messages and their readers, together with the database table that holds
    them. The database is a class because the application changes its rows in
    place; everything the rest of the model asks of a row is a function. */
module Models {
  import opened Wrappers

  /** Users are identified by their username, which Django keeps unique. */
  type UserName = string

  const ROOM_NAME_MAX_LENGTH: nat := 128
  const MESSAGE_TEXT_MAX_LENGTH: nat := 1024

  /** The request or connection user. The anonymous user has the empty
      username and is not authenticated. */
  datatype User = User(username: UserName, isAuthenticated: bool, isSuperuser: bool)

  datatype RoomType = DirectMessages | CommonChannel

  datatype Room = Room(name: string, participants: set<UserName>, kind: RoomType)
  {
    /** `Room.members_count`: the number of participants. */
    function MembersCount(): nat
    {
      |participants|
    }
  }

  /** A stored message. `id` is the auto-increment primary key; the creation
      timestamp is taken to grow with the id, so "newest first" (the default
      ordering `-timestamp`) is "highest id first". */
  datatype Message = Message(id: nat, room: string, author: UserName, text: string, readers: set<UserName>)

  /** The exceptions the storage layer raises: `ValueError` from the room-name
      validator, `DoesNotExist` from a failed `get`, `IntegrityError` for a
      duplicate unique key, `DataError` for a value longer than its column. */
  datatype DbError = ValueError | DoesNotExist | IntegrityError | DataError

  /** `validate_room_name`: refuses the two names that clash with the URL
      patterns and hands every other name back unchanged. */
  function ValidateRoomName(value: string): (r: Result<string, DbError>)
    ensures r.Failure? <==> value == "direct" || value == "create"
    ensures r.Failure? ==> r.error == ValueError
    ensures r.Success? ==> r.value == value
  {
    if value in {"direct", "create"} then Failure(ValueError) else Success(value)
  }

  /** Adding users to a room raises `members_count` by the number of them
      that were not participants yet. */
  lemma MembersCountAfterAdd(r: Room, us: set<UserName>)
    ensures r.(participants := r.participants + us).MembersCount() == r.MembersCount() + |us - r.participants|
  {
    var p := r.participants;
    assert p + us == p + (us - p);
    assert p * (us - p) == {};
  }

  /** Primary keys grow along the table. */
  predicate IdsIncreasing(ms: seq<Message>)
  {
    forall i, j :: 0 <= i < j < |ms| ==> ms[i].id < ms[j].id
  }

  /** What every stored message satisfies: a positive key, text within its
      column, and its author among its readers. */
  predicate WellFormed(m: Message)
  {
    m.id >= 1 && |m.text| <= MESSAGE_TEXT_MAX_LENGTH && m.author in m.readers
  }

  /** Between two states of the table no message is lost, moved or edited
      except that readers are added to it. */
  ghost predicate ReadersGrow(before: seq<Message>, after: seq<Message>)
  {
    |before| <= |after| &&
    forall i :: 0 <= i < |before| ==>
      after[i] == before[i].(readers := after[i].readers) && before[i].readers <= after[i].readers
  }

  /** `ms` with `u` added to the readers of the message at position `i`. */
  function WithReader(ms: seq<Message>, i: nat, u: UserName): seq<Message>
    requires i < |ms|
  {
    ms[i := ms[i].(readers := ms[i].readers + {u})]
  }

  /** Marking a message read twice leaves the same readers as marking it
      once, and marking never takes a reader away. */
  lemma MarkReadIdempotent(ms: seq<Message>, i: nat, u: UserName)
    requires i < |ms|
    ensures WithReader(WithReader(ms, i, u), i, u) == WithReader(ms, i, u)
    ensures ReadersGrow(ms, WithReader(ms, i, u))
    ensures u in WithReader(ms, i, u)[i].readers
  {
  }

  /** `Message.objects.get(pk=id)` as a position in the table. */
  function IndexOfId(ms: seq<Message>, id: int): (r: Option<nat>)
    ensures r.Some? ==> r.value < |ms| && ms[r.value].id == id
    ensures r.None? <==> forall i :: 0 <= i < |ms| ==> ms[i].id != id
  {
    if ms == [] then None
    else if ms[0].id == id then Some(0)
    else
      match IndexOfId(ms[1..], id)
      case None => None
      case Some(k) => Some(k + 1)
  }

  /** The database: the user table (by username), the room table keyed by
      its unique name, and the message table in primary-key order. */
  class Database {
    var users: set<UserName>
    var rooms: map<string, Room>
    var messages: seq<Message>
    var nextId: nat

    ghost predicate Valid()
      reads this
    {
      && nextId >= 1
      && IdsIncreasing(messages)
      && (forall i :: 0 <= i < |messages| ==> messages[i].id < nextId && WellFormed(messages[i]))
      && (forall n :: n in rooms ==> rooms[n].name == n && |n| <= ROOM_NAME_MAX_LENGTH)
    }

    constructor (users: set<UserName>)
      ensures Valid()
      ensures this.users == users && rooms == map[] && messages == [] && nextId == 1
    {
      this.users := users;
      rooms := map[];
      messages := [];
      nextId := 1;
    }

    /** `Room.objects.get(name=...)`, with `None` for `DoesNotExist`. */
    function GetRoom(name: string): Option<Room>
      reads this
    {
      if name in rooms then Some(rooms[name]) else None
    }

    /** `Room.objects.create(type=..., name=...)`: a new room without
        participants. The name is unique and at most 128 characters long;
        the validator is not run on this path. */
    method CreateRoom(name: string, kind: RoomType) returns (r: Result<Room, DbError>)
      requires Valid()
      modifies this
      ensures Valid()
      ensures users == old(users) && messages == old(messages) && nextId == old(nextId)
      ensures name in old(rooms) ==> r == Failure(IntegrityError) && rooms == old(rooms)
      ensures name !in old(rooms) && |name| > ROOM_NAME_MAX_LENGTH ==> r == Failure(DataError) && rooms == old(rooms)
      ensures name !in old(rooms) && |name| <= ROOM_NAME_MAX_LENGTH ==>
        r == Success(Room(name, {}, kind)) && rooms == old(rooms)[name := Room(name, {}, kind)]
    {
      if name in rooms {
        return Failure(IntegrityError);
      }
      if |name| > ROOM_NAME_MAX_LENGTH {
        return Failure(DataError);
      }
      var room := Room(name, {}, kind);
      rooms := rooms[name := room];
      r := Success(room);
    }

    /** `room.participant.add(...)`. */
    method AddParticipants(name: string, us: set<UserName>)
      requires Valid() && name in rooms
      modifies this
      ensures Valid()
      ensures users == old(users) && messages == old(messages) && nextId == old(nextId)
      ensures rooms == old(rooms)[name := old(rooms)[name].(participants := old(rooms)[name].participants + us)]
    {
      rooms := rooms[name := rooms[name].(participants := rooms[name].participants + us)];
    }

    /** `MessageManager.create`: the row is inserted (with no readers), then
        its reader set is overwritten with exactly its author. A text longer
        than its column is refused by the database. */
    method CreateMessage(author: UserName, room: string, text: string) returns (r: Result<Message, DbError>)
      requires Valid()
      modifies this
      ensures Valid()
      ensures users == old(users) && rooms == old(rooms)
      ensures |text| > MESSAGE_TEXT_MAX_LENGTH ==>
        r == Failure(DataError) && messages == old(messages) && nextId == old(nextId)
      ensures |text| <= MESSAGE_TEXT_MAX_LENGTH ==>
        && r == Success(Message(old(nextId), room, author, text, {author}))
        && messages == old(messages) + [r.value]
        && nextId == old(nextId) + 1
      ensures ReadersGrow(old(messages), messages)
    {
      if |text| > MESSAGE_TEXT_MAX_LENGTH {
        return Failure(DataError);
      }
      var inserted := Message(nextId, room, author, text, {});
      messages := messages + [inserted];
      nextId := nextId + 1;
      var last := |messages| - 1;
      messages := messages[last := messages[last].(readers := {author})];
      r := Success(messages[last]);
    }

    /** `Message.objects.get(pk=id).read_users.add(u)`, answering the number
        of readers afterwards. */
    method AddReader(id: int, u: UserName) returns (r: Result<nat, DbError>)
      requires Valid()
      modifies this
      ensures Valid()
      ensures users == old(users) && rooms == old(rooms) && nextId == old(nextId)
      ensures IndexOfId(old(messages), id).None? ==> r == Failure(DoesNotExist) && messages == old(messages)
      ensures IndexOfId(old(messages), id).Some? ==>
        var i := IndexOfId(old(messages), id).value;
        messages == WithReader(old(messages), i, u) && r == Success(|messages[i].readers|)
      ensures ReadersGrow(old(messages), messages)
    {
      var found := IndexOfId(messages, id);
      if found.None? {
        return Failure(DoesNotExist);
      }
      var i := found.value;
      messages := WithReader(messages, i, u);
      r := Success(|messages[i].readers|);
    }
  }
}
