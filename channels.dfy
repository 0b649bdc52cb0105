/** The two pieces of shared infrastructure the consumer talks to: the
    channel layer (groups of channels and the events delivered to each
    channel) and the Redis sets that record who is online in a room. Both
    are modelled as synchronous in-memory state; delivering an event to a
    channel is appending it to that channel's outbox, which stands for the
    consumer handler that forwards it to its socket. */
module Channels {
  import opened Wrappers
  import opened Models

  type ChannelName = string

  /** One message as it is sent to the browser (`message_id`, `message`,
      `user`, `read_message`); the formatted time and date are left out. */
  datatype Item = Item(messageId: int, message: string, user: UserName, readMessage: bool)

  /** The events a consumer sends, by their `type`. */
  datatype Event =
    | ChatMessage(messages: Option<seq<Item>>, count: Option<int>)
    | UserJoin(user: UserName)
    | UserLeave(user: UserName)
    | OnlineUsers(users: set<UserName>)
    | UserTyping(user: UserName, message: string)
    | UserStopTyping
    | PaginateUp(items: seq<Item>)
    | PaginateDown(items: seq<Item>, unread: int)
    | ReadMessage(messageId: int)

  type Outbox = map<ChannelName, seq<Event>>

  /** Everything delivered to a channel so far, oldest first. */
  function InboxOf(outbox: Outbox, channel: ChannelName): seq<Event>
  {
    if channel in outbox then outbox[channel] else []
  }

  /** One event appended to the inbox of each target channel, and no other
      inbox touched. */
  function Deliver(outbox: Outbox, targets: set<ChannelName>, ev: Event): (r: Outbox)
    ensures forall c :: InboxOf(r, c) == InboxOf(outbox, c) + (if c in targets then [ev] else [])
  {
    map c | c in outbox.Keys + targets :: InboxOf(outbox, c) + (if c in targets then [ev] else [])
  }

  /** The channel layer: `group_add`, `group_discard`, `send` and
      `group_send`. Delivery to one channel keeps publication order. */
  class ChannelLayer {
    var groups: map<string, set<ChannelName>>
    var outbox: Outbox

    constructor ()
      ensures groups == map[] && outbox == map[]
    {
      groups := map[];
      outbox := map[];
    }

    function Members(group: string): set<ChannelName>
      reads this`groups
    {
      if group in groups then groups[group] else {}
    }

    function Inbox(channel: ChannelName): seq<Event>
      reads this`outbox
    {
      InboxOf(outbox, channel)
    }

    method GroupAdd(group: string, channel: ChannelName)
      modifies this
      ensures outbox == old(outbox)
      ensures groups == old(groups)[group := old(Members(group)) + {channel}]
    {
      groups := groups[group := Members(group) + {channel}];
    }

    method GroupDiscard(group: string, channel: ChannelName)
      modifies this
      ensures outbox == old(outbox)
      ensures groups == old(groups)[group := old(Members(group)) - {channel}]
    {
      groups := groups[group := Members(group) - {channel}];
    }

    /** `send`: deliver to one channel, whether or not it is in a group. */
    method Send(channel: ChannelName, ev: Event)
      modifies this
      ensures groups == old(groups)
      ensures outbox == Deliver(old(outbox), {channel}, ev)
    {
      outbox := Deliver(outbox, {channel}, ev);
    }

    /** `group_send`: deliver to every current member of the group, the
        sender included when it is a member; a group without members makes
        this a no-op. */
    method GroupSend(group: string, ev: Event)
      modifies this
      ensures groups == old(groups)
      ensures outbox == Deliver(old(outbox), old(Members(group)), ev)
    {
      outbox := Deliver(outbox, Members(group), ev);
    }
  }

  /** The Redis sets (`sadd`, `srem`, `smembers`) holding, per room, the
      usernames shown as online. */
  class Presence {
    var sets: map<string, set<UserName>>

    constructor ()
      ensures sets == map[]
    {
      sets := map[];
    }

    function SMembers(key: string): set<UserName>
      reads this`sets
    {
      if key in sets then sets[key] else {}
    }

    method SAdd(key: string, user: UserName)
      modifies this
      ensures sets == old(sets)[key := old(SMembers(key)) + {user}]
    {
      sets := sets[key := SMembers(key) + {user}];
    }

    method SRem(key: string, user: UserName)
      modifies this
      ensures sets == old(sets)[key := old(SMembers(key)) - {user}]
    {
      sets := sets[key := SMembers(key) - {user}];
    }
  }

  /** A run of presence updates for one key, as connects and disconnects
      issue them. */
  datatype PresenceOp = Add(user: UserName) | Remove(user: UserName)

  function Replay(online: set<UserName>, ops: seq<PresenceOp>): set<UserName>
  {
    if ops == [] then online
    else
      var last := ops[|ops| - 1];
      var before := Replay(online, ops[..|ops| - 1]);
      match last
      case Add(u) => before + {u}
      case Remove(u) => before - {u}
  }

  /** Whether the last update about `user` added it; `None` if there is none. */
  function LastAbout(ops: seq<PresenceOp>, user: UserName): Option<bool>
  {
    if ops == [] then None
    else if ops[|ops| - 1].user == user then Some(ops[|ops| - 1].Add?)
    else LastAbout(ops[..|ops| - 1], user)
  }

  /** Presence is a plain set, not a count of open sessions: a user is
      shown online exactly when the latest update about them was an add,
      however many adds came before a remove. */
  lemma {:induction false} PresenceIsLastUpdate(online: set<UserName>, ops: seq<PresenceOp>, user: UserName)
    ensures user in Replay(online, ops) <==>
      (if LastAbout(ops, user).Some? then LastAbout(ops, user).value else user in online)
  {
    if ops != [] {
      PresenceIsLastUpdate(online, ops[..|ops| - 1], user);
    }
  }

  /** Two sessions of one user join; one of them leaves; the user is no
      longer listed although a session is still open. */
  lemma OneLeaveHidesOpenSession(user: UserName)
    ensures user !in Replay({}, [Add(user), Add(user), Remove(user)])
  {
    PresenceIsLastUpdate({}, [Add(user), Add(user), Remove(user)], user);
  }
}
