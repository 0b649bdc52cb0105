/** The history paginator of `ChatConsumer` (`chat/consumers.py`): which
    messages a connection is shown first, and which id windows the "older"
    and "newer" pages cover. These functions are the specification that the
    consumer's methods are proved against; the lemmas below state what the
    paginator promises about them. */
module History {
  import opened Wrappers
  import opened Models

  /** `MESSAGES_PAGINATE`: the page size. */
  const MESSAGES_PAGINATE: nat := 20

  /** A message together with the `read` flag the consumer sets on it. */
  datatype Annotated = Annotated(msg: Message, read: bool)

  /** The three ways the consumer computes that flag: `False` for the unread
      backlog, `read_users.count() != 1` for messages the viewer has already
      read, and "the viewer is among the readers" for paginated pages. */
  datatype ReadRule = MarkedUnread | ReaderCountNotOne | ViewerIsReader(viewer: UserName)

  function ReadFlag(rule: ReadRule, m: Message): bool
  {
    match rule
    case MarkedUnread => false
    case ReaderCountNotOne => |m.readers| != 1
    case ViewerIsReader(v) => v in m.readers
  }

  function Annotate(ms: seq<Message>, rule: ReadRule): seq<Annotated>
  {
    seq(|ms|, i requires 0 <= i < |ms| => Annotated(ms[i], ReadFlag(rule, ms[i])))
  }

  function Msgs(items: seq<Annotated>): seq<Message>
  {
    seq(|items|, i requires 0 <= i < |items| => items[i].msg)
  }

  // ---------------------------------------------------------------------
  // Sequence helpers standing in for query-set operations.

  function Filter(s: seq<Message>, p: Message -> bool): (r: seq<Message>)
    ensures |r| <= |s|
    ensures forall x :: x in r <==> x in s && p(x)
  {
    if s == [] then []
    else if p(s[0]) then [s[0]] + Filter(s[1..], p)
    else Filter(s[1..], p)
  }

  function Reverse<T>(s: seq<T>): (r: seq<T>)
    ensures |r| == |s|
    ensures forall i :: 0 <= i < |s| ==> r[i] == s[|s| - 1 - i]
  {
    if s == [] then [] else Reverse(s[1..]) + [s[0]]
  }

  /** Query-set slicing `qs[:k]`. */
  function Take<T>(s: seq<T>, k: nat): seq<T>
  {
    if k < |s| then s[..k] else s
  }

  /** The default message ordering, `-timestamp`: newest first. */
  function NewestFirst(ms: seq<Message>): seq<Message>
  {
    Reverse(ms)
  }

  /** Python's `sorted(..., key=lambda m: m.id)`, as an insertion sort. */
  predicate SortedById(s: seq<Annotated>)
  {
    forall i, j :: 0 <= i < j < |s| ==> s[i].msg.id <= s[j].msg.id
  }

  function InsertById(a: Annotated, s: seq<Annotated>): (r: seq<Annotated>)
    ensures |r| == |s| + 1
    ensures multiset(r) == multiset(s) + multiset{a}
  {
    if s == [] then [a]
    else if a.msg.id <= s[0].msg.id then [a] + s
    else
      assert s == [s[0]] + s[1..];
      [s[0]] + InsertById(a, s[1..])
  }

  function SortById(s: seq<Annotated>): (r: seq<Annotated>)
    ensures multiset(r) == multiset(s) && |r| == |s|
  {
    if s == [] then []
    else
      assert s == [s[0]] + s[1..];
      InsertById(s[0], SortById(s[1..]))
  }

  lemma {:induction false} InsertByIdLowerBound(a: Annotated, s: seq<Annotated>, b: int)
    requires b <= a.msg.id && forall i :: 0 <= i < |s| ==> b <= s[i].msg.id
    ensures forall i :: 0 <= i < |InsertById(a, s)| ==> b <= InsertById(a, s)[i].msg.id
  {
    if s != [] && a.msg.id > s[0].msg.id {
      InsertByIdLowerBound(a, s[1..], b);
    }
  }

  lemma {:induction false} InsertByIdSorted(a: Annotated, s: seq<Annotated>)
    requires SortedById(s)
    ensures SortedById(InsertById(a, s))
  {
    if s != [] && a.msg.id > s[0].msg.id {
      var t := InsertById(a, s[1..]);
      InsertByIdSorted(a, s[1..]);
      InsertByIdLowerBound(a, s[1..], s[0].msg.id);
      assert InsertById(a, s) == [s[0]] + t;
    }
  }

  /** The sort puts the batch in ascending id order. */
  lemma {:induction false} SortByIdSorted(s: seq<Annotated>)
    ensures SortedById(SortById(s))
  {
    if s != [] {
      SortByIdSorted(s[1..]);
      InsertByIdSorted(s[0], SortById(s[1..]));
    }
  }

  // ---------------------------------------------------------------------
  // The queries.

  /** `Message.objects.filter(room=room)`, in id order. */
  function InRoom(ms: seq<Message>, room: string): seq<Message>
  {
    Filter(ms, (m: Message) => m.room == room)
  }

  /** The room's messages the viewer has not read (`~Q(read_users__id=...)`). */
  function UnreadBy(ms: seq<Message>, room: string, viewer: UserName): seq<Message>
  {
    Filter(ms, (m: Message) => m.room == room && viewer !in m.readers)
  }

  /** The room's messages the viewer has read (`Q(read_users__id=...)`). */
  function ReadBy(ms: seq<Message>, room: string, viewer: UserName): seq<Message>
  {
    Filter(ms, (m: Message) => m.room == room && viewer in m.readers)
  }

  function UnreadCount(ms: seq<Message>, room: string, viewer: UserName): nat
  {
    |UnreadBy(ms, room, viewer)|
  }

  /** An inclusive window of message ids (`id__gte=lo, id__lte=hi`). */
  datatype Window = Window(lo: int, hi: int)
  {
    predicate Holds(id: int) { lo <= id <= hi }
  }

  function InWindow(ms: seq<Message>, room: string, w: Window): seq<Message>
  {
    Filter(ms, (m: Message) => m.room == room && w.Holds(m.id))
  }

  // ---------------------------------------------------------------------
  // get_start_messages

  /** The first batch and the number of unread messages left behind it;
      `None` when the room has nothing to show. */
  datatype Start = Start(batch: Option<seq<Annotated>>, unread: nat)

  function StartBatch(ms: seq<Message>, room: string, viewer: UserName): (st: Start)
    ensures st.batch.Some? ==> 0 < |st.batch.value| <= MESSAGES_PAGINATE
  {
    var unread := Annotate(UnreadBy(ms, room, viewer), MarkedUnread);
    if |unread| >= MESSAGES_PAGINATE then
      Start(Some(unread[..MESSAGES_PAGINATE]), |unread| - MESSAGES_PAGINATE)
    else if |unread| > 0 then
      Start(Some(TopUpBatch(unread, ReadBy(ms, room, viewer))), 0)
    else
      LatestBatch(InRoom(ms, room))
  }

  /** Fewer than a page unread: the newest read messages fill the page
      (`order_by('-id')[:need]`), and `sorted(chain(...), key=id)` merges
      them with the unread ones. */
  function TopUpBatch(unread: seq<Annotated>, read: seq<Message>): (b: seq<Annotated>)
    requires |unread| <= MESSAGES_PAGINATE
    ensures |b| <= MESSAGES_PAGINATE
  {
    var older := Annotate(Take(NewestFirst(read), MESSAGES_PAGINATE - |unread|), ReaderCountNotOne);
    SortById(older + unread)
  }

  /** Nothing unread: the newest page of the room (`[:20:-1]`, which Django
      evaluates as "first 20 in the default order, then reversed"). */
  function LatestBatch(all: seq<Message>): (st: Start)
    ensures st.batch.Some? ==> 0 < |st.batch.value| <= MESSAGES_PAGINATE
    ensures st.unread == 0
  {
    var newest := Reverse(Take(NewestFirst(all), MESSAGES_PAGINATE));
    if newest == [] then Start(None, 0) else Start(Some(Annotate(newest, ReaderCountNotOne)), 0)
  }

  /** `up_zero_msg_id` after `get_start_messages`: the first id of the batch. */
  function UpCursor(st: Start): int
  {
    if st.batch.Some? && |st.batch.value| > 0 then st.batch.value[0].msg.id else 0
  }

  /** `down_zero_msg_id` after `get_start_messages`: the last id of the batch. */
  function DownCursor(st: Start): int
  {
    if st.batch.Some? && |st.batch.value| > 0 then st.batch.value[|st.batch.value| - 1].msg.id else 0
  }

  // ---------------------------------------------------------------------
  // get_paginate_down / get_paginate_up

  function DownWindow(down: int, page: int): Window
  {
    Window(down + 1 + MESSAGES_PAGINATE * (page - 1), down + MESSAGES_PAGINATE * page)
  }

  function UpWindow(up: int, page: int): Window
  {
    var lower := up - MESSAGES_PAGINATE * page;
    Window(if lower <= 0 then 1 else lower, up - 1 - MESSAGES_PAGINATE * (page - 1))
  }

  /** The unread count sent with a page-down: all unread minus one page,
      floored at zero. */
  function RemainingUnread(total: int): int
  {
    if total - MESSAGES_PAGINATE < 0 then 0 else total - MESSAGES_PAGINATE
  }

  /** The newer page: the window's messages in the default (newest-first)
      order, then reversed. */
  function PageDown(ms: seq<Message>, room: string, viewer: UserName, down: int, page: int): seq<Annotated>
  {
    Annotate(Reverse(NewestFirst(InWindow(ms, room, DownWindow(down, page)))), ViewerIsReader(viewer))
  }

  /** The older page: the window's messages in the default order. */
  function PageUp(ms: seq<Message>, room: string, viewer: UserName, up: int, page: int): seq<Annotated>
  {
    Annotate(NewestFirst(InWindow(ms, room, UpWindow(up, page))), ViewerIsReader(viewer))
  }

  // ---------------------------------------------------------------------
  // Facts about the helpers.

  lemma {:induction false} FilterLowerBound(s: seq<Message>, p: Message -> bool, b: int)
    requires forall i :: 0 <= i < |s| ==> b < s[i].id
    ensures forall i :: 0 <= i < |Filter(s, p)| ==> b < Filter(s, p)[i].id
  {
    if s != [] {
      FilterLowerBound(s[1..], p, b);
    }
  }

  /** A query keeps the table's id order. */
  lemma {:induction false} FilterIncreasing(s: seq<Message>, p: Message -> bool)
    requires IdsIncreasing(s)
    ensures IdsIncreasing(Filter(s, p))
  {
    if s != [] {
      FilterIncreasing(s[1..], p);
      if p(s[0]) {
        FilterLowerBound(s[1..], p, s[0].id);
        assert Filter(s, p) == [s[0]] + Filter(s[1..], p);
      }
    }
  }

  lemma AnnotateMsgs(ms: seq<Message>, rule: ReadRule)
    ensures Msgs(Annotate(ms, rule)) == ms
  {
  }

  lemma AnnotateMember(ms: seq<Message>, rule: ReadRule, x: Annotated)
    ensures x in Annotate(ms, rule) <==> x.msg in ms && x.read == ReadFlag(rule, x.msg)
  {
    var a := Annotate(ms, rule);
    if x.msg in ms && x.read == ReadFlag(rule, x.msg) {
      var i :| 0 <= i < |ms| && ms[i] == x.msg;
      assert a[i] == x;
    }
  }

  lemma ReverseMember<T>(s: seq<T>, x: T)
    ensures x in Reverse(s) <==> x in s
  {
    if x in s {
      var i :| 0 <= i < |s| && s[i] == x;
      assert Reverse(s)[|s| - 1 - i] == x;
    }
  }

  lemma ReverseReverse<T>(s: seq<T>)
    ensures Reverse(Reverse(s)) == s
  {
  }

  /** The first `k` of the newest-first order are the last `k` messages,
      reversed. */
  lemma TakeNewest(s: seq<Message>, k: nat)
    ensures var n := if k < |s| then k else |s|;
      Take(NewestFirst(s), k) == Reverse(s[|s| - n..])
  {
  }

  /** The default ordering lists messages with strictly decreasing ids. */
  lemma NewestFirstDecreasing(ms: seq<Message>)
    requires IdsIncreasing(ms)
    ensures forall i, j :: 0 <= i < j < |ms| ==> NewestFirst(ms)[i].id > NewestFirst(ms)[j].id
  {
  }

  lemma InRoomEmpty(ms: seq<Message>, room: string, viewer: UserName)
    ensures InRoom(ms, room) == [] ==> UnreadBy(ms, room, viewer) == []
  {
    if UnreadBy(ms, room, viewer) != [] {
      assert UnreadBy(ms, room, viewer)[0] in InRoom(ms, room);
    }
  }

  /** Every message of a room is either unread or read by the viewer: the
      two counts add up to the room's size. */
  lemma {:induction false} UnreadReadPartition(ms: seq<Message>, room: string, viewer: UserName)
    ensures UnreadCount(ms, room, viewer) + |ReadBy(ms, room, viewer)| == |InRoom(ms, room)|
  {
    if ms != [] {
      UnreadReadPartition(ms[1..], room, viewer);
    }
  }

  // ---------------------------------------------------------------------
  // What get_start_messages promises.

  /** At least a page of unread messages: the batch is the oldest 20 of
      them, in ascending id order, all flagged unread, and the rest are
      counted as still to paginate. */
  lemma StartBatchBacklog(ms: seq<Message>, room: string, viewer: UserName)
    requires IdsIncreasing(ms)
    requires |UnreadBy(ms, room, viewer)| >= MESSAGES_PAGINATE
    ensures var u := UnreadBy(ms, room, viewer);
      var st := StartBatch(ms, room, viewer);
      && st.unread == |u| - MESSAGES_PAGINATE
      && st.batch.Some?
      && Msgs(st.batch.value) == u[..MESSAGES_PAGINATE]
      && (forall x :: x in st.batch.value ==> !x.read)
      && IdsIncreasing(Msgs(st.batch.value))
      && (forall i, j :: 0 <= i < MESSAGES_PAGINATE <= j < |u| ==> u[i].id < u[j].id)
  {
    var u := UnreadBy(ms, room, viewer);
    FilterIncreasing(ms, (m: Message) => m.room == room && viewer !in m.readers);
    var a := Annotate(u, MarkedUnread);
    assert StartBatch(ms, room, viewer).batch == Some(a[..MESSAGES_PAGINATE]);
    assert Msgs(a[..MESSAGES_PAGINATE]) == u[..MESSAGES_PAGINATE];
  }

  /** What `TopUpBatch` holds: the unread messages (flagged unread) and the
      last `k` read ones (flagged by `read_users.count() != 1`), `k` being as
      many as fit in a page, sorted by id. */
  lemma TopUpBatchContents(u: seq<Message>, r: seq<Message>)
    requires 0 < |u| < MESSAGES_PAGINATE
    ensures var k := if MESSAGES_PAGINATE - |u| < |r| then MESSAGES_PAGINATE - |u| else |r|;
      var b := TopUpBatch(Annotate(u, MarkedUnread), r);
      && |b| == |u| + k
      && SortedById(b)
      && (forall x :: x in b <==>
            (x.msg in u && !x.read) ||
            (x.msg in r[|r| - k..] && x.read == (|x.msg.readers| != 1)))
  {
    var k := if MESSAGES_PAGINATE - |u| < |r| then MESSAGES_PAGINATE - |u| else |r|;
    var unread := Annotate(u, MarkedUnread);
    var picked := Take(NewestFirst(r), MESSAGES_PAGINATE - |u|);
    TakeNewest(r, MESSAGES_PAGINATE - |u|);
    assert picked == Reverse(r[|r| - k..]);
    var older := Annotate(picked, ReaderCountNotOne);
    var b := SortById(older + unread);
    assert TopUpBatch(unread, r) == b;
    SortByIdSorted(older + unread);
    forall x
      ensures x in b <==>
        (x.msg in u && !x.read) || (x.msg in r[|r| - k..] && x.read == (|x.msg.readers| != 1))
    {
      calc {
        x in b;
        x in multiset(b);
        x in multiset(older) + multiset(unread);
        x in older || x in unread;
      }
      AnnotateMember(picked, ReaderCountNotOne, x);
      AnnotateMember(u, MarkedUnread, x);
      ReverseMember(r[|r| - k..], x.msg);
    }
  }

  /** Fewer than a page of unread messages but some: the batch holds all of
      them (flagged unread) and the highest-id messages the viewer has read,
      as many as fit in a page (flagged by `read_users.count() != 1`), in
      ascending id order, and nothing is left to paginate. */
  lemma StartBatchTopUp(ms: seq<Message>, room: string, viewer: UserName)
    requires IdsIncreasing(ms)
    requires 0 < |UnreadBy(ms, room, viewer)| < MESSAGES_PAGINATE
    ensures var u := UnreadBy(ms, room, viewer);
      var r := ReadBy(ms, room, viewer);
      var k := if MESSAGES_PAGINATE - |u| < |r| then MESSAGES_PAGINATE - |u| else |r|;
      var st := StartBatch(ms, room, viewer);
      && st.unread == 0
      && st.batch.Some?
      && |st.batch.value| == |u| + k <= MESSAGES_PAGINATE
      && SortedById(st.batch.value)
      && (forall x :: x in st.batch.value <==>
            (x.msg in u && !x.read) ||
            (x.msg in r[|r| - k..] && x.read == (|x.msg.readers| != 1)))
      && (forall i, j :: 0 <= i < |r| - k <= j < |r| ==> r[i].id < r[j].id)
  {
    var u := UnreadBy(ms, room, viewer);
    var r := ReadBy(ms, room, viewer);
    FilterIncreasing(ms, (m: Message) => m.room == room && viewer in m.readers);
    assert StartBatch(ms, room, viewer) == Start(Some(TopUpBatch(Annotate(u, MarkedUnread), r)), 0);
    TopUpBatchContents(u, r);
  }

  /** What `LatestBatch` holds: the last `k` messages of the room (at most a
      page), oldest first, flagged by `read_users.count() != 1`; nothing for
      an empty room. */
  lemma LatestBatchContents(all: seq<Message>)
    ensures var k := if MESSAGES_PAGINATE < |all| then MESSAGES_PAGINATE else |all|;
      var st := LatestBatch(all);
      && (st.batch.None? <==> all == [])
      && (st.batch.Some? ==>
            && Msgs(st.batch.value) == all[|all| - k..]
            && forall x :: x in st.batch.value ==> x.read == (|x.msg.readers| != 1))
  {
    var k := if MESSAGES_PAGINATE < |all| then MESSAGES_PAGINATE else |all|;
    TakeNewest(all, MESSAGES_PAGINATE);
    var newest := all[|all| - k..];
    ReverseReverse(newest);
    assert Reverse(Take(NewestFirst(all), MESSAGES_PAGINATE)) == newest;
    if all != [] {
      var items := Annotate(newest, ReaderCountNotOne);
      assert LatestBatch(all) == Start(Some(items), 0);
      AnnotateMsgs(newest, ReaderCountNotOne);
      forall x | x in items ensures x.read == (|x.msg.readers| != 1) {
        AnnotateMember(newest, ReaderCountNotOne, x);
      }
    }
  }

  /** Nothing unread: the batch is the room's newest messages (at most a
      page), oldest first, flagged by `read_users.count() != 1`; a room with
      no messages gives no batch. */
  lemma StartBatchCaughtUp(ms: seq<Message>, room: string, viewer: UserName)
    requires UnreadBy(ms, room, viewer) == []
    ensures var all := InRoom(ms, room);
      var k := if MESSAGES_PAGINATE < |all| then MESSAGES_PAGINATE else |all|;
      var st := StartBatch(ms, room, viewer);
      && st.unread == 0
      && (st.batch.None? <==> all == [])
      && (st.batch.Some? ==>
            && Msgs(st.batch.value) == all[|all| - k..]
            && forall x :: x in st.batch.value ==> x.read == (|x.msg.readers| != 1))
  {
    assert Annotate(UnreadBy(ms, room, viewer), MarkedUnread) == [];
    assert StartBatch(ms, room, viewer) == LatestBatch(InRoom(ms, room));
    LatestBatchContents(InRoom(ms, room));
  }

  lemma IncreasingIsSorted(b: seq<Annotated>)
    requires IdsIncreasing(Msgs(b))
    ensures SortedById(b)
  {
    forall i, j | 0 <= i < j < |b| ensures b[i].msg.id <= b[j].msg.id {
      assert Msgs(b)[i] == b[i].msg && Msgs(b)[j] == b[j].msg;
    }
  }

  lemma SortedBetweenEnds(b: seq<Annotated>)
    requires SortedById(b) && |b| > 0
    ensures forall x :: x in b ==> b[0].msg.id <= x.msg.id <= b[|b| - 1].msg.id
  {
    forall x | x in b ensures b[0].msg.id <= x.msg.id <= b[|b| - 1].msg.id {
      var i :| 0 <= i < |b| && b[i] == x;
    }
  }

  /** Every message of a sub-run of a query result is a room message. */
  lemma SliceOfRoom(ms: seq<Message>, room: string, part: seq<Message>, b: seq<Annotated>)
    requires Msgs(b) == part
    requires forall m :: m in part ==> m in ms && m.room == room
    ensures forall x :: x in b ==> x.msg in ms && x.msg.room == room
  {
    forall x | x in b ensures x.msg in ms && x.msg.room == room {
      var i :| 0 <= i < |b| && b[i] == x;
      assert Msgs(b)[i] == x.msg;
    }
  }

  lemma ShapeBacklog(ms: seq<Message>, room: string, viewer: UserName)
    requires IdsIncreasing(ms)
    requires |UnreadBy(ms, room, viewer)| >= MESSAGES_PAGINATE
    ensures var st := StartBatch(ms, room, viewer);
      st.batch.Some? && SortedById(st.batch.value) &&
      forall x :: x in st.batch.value ==> x.msg in ms && x.msg.room == room
  {
    StartBatchBacklog(ms, room, viewer);
    var u := UnreadBy(ms, room, viewer);
    var b := StartBatch(ms, room, viewer).batch.value;
    IncreasingIsSorted(b);
    forall m | m in u[..MESSAGES_PAGINATE] ensures m in ms && m.room == room {
      assert m in u;
    }
    SliceOfRoom(ms, room, u[..MESSAGES_PAGINATE], b);
  }

  lemma ShapeTopUp(ms: seq<Message>, room: string, viewer: UserName)
    requires IdsIncreasing(ms)
    requires 0 < |UnreadBy(ms, room, viewer)| < MESSAGES_PAGINATE
    ensures var st := StartBatch(ms, room, viewer);
      st.batch.Some? && SortedById(st.batch.value) &&
      forall x :: x in st.batch.value ==> x.msg in ms && x.msg.room == room
  {
    StartBatchTopUp(ms, room, viewer);
    var u := UnreadBy(ms, room, viewer);
    var r := ReadBy(ms, room, viewer);
    var k := if MESSAGES_PAGINATE - |u| < |r| then MESSAGES_PAGINATE - |u| else |r|;
    var b := StartBatch(ms, room, viewer).batch.value;
    forall x | x in b ensures x.msg in ms && x.msg.room == room {
      if x.msg !in u {
        assert x.msg in r[|r| - k..];
        assert x.msg in r;
      }
    }
  }

  lemma ShapeCaughtUp(ms: seq<Message>, room: string, viewer: UserName)
    requires IdsIncreasing(ms)
    requires UnreadBy(ms, room, viewer) == []
    ensures var st := StartBatch(ms, room, viewer);
      st.batch.Some? ==>
        SortedById(st.batch.value) &&
        forall x :: x in st.batch.value ==> x.msg in ms && x.msg.room == room
  {
    StartBatchCaughtUp(ms, room, viewer);
    var st := StartBatch(ms, room, viewer);
    if st.batch.Some? {
      var all := InRoom(ms, room);
      var k := if MESSAGES_PAGINATE < |all| then MESSAGES_PAGINATE else |all|;
      var b := st.batch.value;
      FilterIncreasing(ms, (m: Message) => m.room == room);
      assert IdsIncreasing(all[|all| - k..]);
      IncreasingIsSorted(b);
      forall m | m in all[|all| - k..] ensures m in ms && m.room == room {
        assert m in all;
      }
      SliceOfRoom(ms, room, all[|all| - k..], b);
    }
  }

  /** In every case the batch is a non-empty run of at most a page of the
      room's own messages in ascending id order, so the two cursors are its
      smallest and its largest id; there is no batch exactly when the room
      has no messages, and then both cursors are 0. */
  lemma StartBatchShape(ms: seq<Message>, room: string, viewer: UserName)
    requires IdsIncreasing(ms)
    ensures var st := StartBatch(ms, room, viewer);
      && (st.batch.None? <==> InRoom(ms, room) == [])
      && (st.batch.None? ==> UpCursor(st) == 0 && DownCursor(st) == 0)
      && (st.batch.Some? ==>
            && 0 < |st.batch.value| <= MESSAGES_PAGINATE
            && SortedById(st.batch.value)
            && (forall x :: x in st.batch.value ==>
                  && x.msg in ms && x.msg.room == room
                  && UpCursor(st) <= x.msg.id <= DownCursor(st)))
  {
    var st := StartBatch(ms, room, viewer);
    var u := UnreadBy(ms, room, viewer);
    InRoomEmpty(ms, room, viewer);
    if |u| >= MESSAGES_PAGINATE {
      ShapeBacklog(ms, room, viewer);
    } else if |u| > 0 {
      ShapeTopUp(ms, room, viewer);
    } else {
      StartBatchCaughtUp(ms, room, viewer);
      ShapeCaughtUp(ms, room, viewer);
    }
    if st.batch.Some? {
      SortedBetweenEnds(st.batch.value);
    }
  }

  // ---------------------------------------------------------------------
  // The id windows of the two paginations.

  /** Page-down windows: page `p` starts right after the initial batch's
      last id plus `p - 1` pages, spans exactly a page of ids, and the next
      page starts where it ends. */
  lemma DownWindowsTile(down: int, page: int)
    requires page >= 1
    ensures DownWindow(down, 1).lo == down + 1
    ensures DownWindow(down, page).hi - DownWindow(down, page).lo + 1 == MESSAGES_PAGINATE
    ensures DownWindow(down, page + 1).lo == DownWindow(down, page).hi + 1
  {
  }

  /** The page-down page that holds a given newer id. */
  function DownPageOf(down: int, id: int): int
  {
    (id - down - 1) / MESSAGES_PAGINATE + 1
  }

  /** Every id after the initial batch lies in exactly one page-down window. */
  lemma DownWindowExactlyOnce(down: int, id: int, page: int)
    requires id > down && page >= 1
    ensures DownPageOf(down, id) >= 1 && DownWindow(down, DownPageOf(down, id)).Holds(id)
    ensures DownWindow(down, page).Holds(id) ==> page == DownPageOf(down, id)
  {
  }

  /** Page-up windows: below the initial batch's first id, never below id 1,
      page `p` reaches down to `up - 20p` (clamped to 1) and page `p + 1`
      ends just below that bound. */
  lemma UpWindowsTile(up: int, page: int)
    requires page >= 1
    ensures UpWindow(up, page).hi <= up - 1
    ensures UpWindow(up, page).lo >= 1
    ensures UpWindow(up, page).lo == (if up - MESSAGES_PAGINATE * page <= 0 then 1 else up - MESSAGES_PAGINATE * page)
    ensures UpWindow(up, page + 1).hi == up - MESSAGES_PAGINATE * page - 1
  {
  }

  /** The page-up page that holds a given older id. */
  function UpPageOf(up: int, id: int): int
  {
    (up - 1 - id) / MESSAGES_PAGINATE + 1
  }

  /** Every id from 1 up to just below the initial batch lies in exactly one
      page-up window. */
  lemma UpWindowExactlyOnce(up: int, id: int, page: int)
    requires 1 <= id < up && page >= 1
    ensures UpPageOf(up, id) >= 1 && UpWindow(up, UpPageOf(up, id)).Holds(id)
    ensures UpWindow(up, page).Holds(id) ==> page == UpPageOf(up, id)
  {
  }

  // ---------------------------------------------------------------------
  // What the two paginations return.

  /** A newer page lists the room's messages in its window oldest first,
      each flagged by whether the viewer has read it. */
  lemma PageDownShape(ms: seq<Message>, room: string, viewer: UserName, down: int, page: int)
    requires IdsIncreasing(ms)
    ensures var items := PageDown(ms, room, viewer, down, page);
      var w := DownWindow(down, page);
      && Msgs(items) == InWindow(ms, room, w)
      && IdsIncreasing(Msgs(items))
      && (forall x :: x in items ==>
            && x.msg in ms && x.msg.room == room && w.Holds(x.msg.id)
            && x.read == (viewer in x.msg.readers))
  {
    var w := DownWindow(down, page);
    var found := InWindow(ms, room, w);
    ReverseReverse(found);
    var items := Annotate(found, ViewerIsReader(viewer));
    assert PageDown(ms, room, viewer, down, page) == items;
    FilterIncreasing(ms, (m: Message) => m.room == room && w.Holds(m.id));
    AnnotateMsgs(found, ViewerIsReader(viewer));
    forall x | x in items
      ensures x.msg in ms && x.msg.room == room && w.Holds(x.msg.id) && x.read == (viewer in x.msg.readers)
    {
      AnnotateMember(found, ViewerIsReader(viewer), x);
    }
  }

  /** An older page lists the room's messages in its window newest first,
      all below the initial batch and at or above id 1, each flagged by
      whether the viewer has read it. */
  lemma PageUpShape(ms: seq<Message>, room: string, viewer: UserName, up: int, page: int)
    requires IdsIncreasing(ms) && page >= 1
    ensures var items := PageUp(ms, room, viewer, up, page);
      && Msgs(items) == Reverse(InWindow(ms, room, UpWindow(up, page)))
      && (forall i, j :: 0 <= i < j < |items| ==> items[i].msg.id > items[j].msg.id)
      && (forall x :: x in items ==>
            && x.msg in ms && x.msg.room == room
            && 1 <= x.msg.id < up
            && x.read == (viewer in x.msg.readers))
  {
    var w := UpWindow(up, page);
    var found := InWindow(ms, room, w);
    FilterIncreasing(ms, (m: Message) => m.room == room && w.Holds(m.id));
    NewestFirstDecreasing(found);
    AnnotateMsgs(NewestFirst(found), ViewerIsReader(viewer));
    forall x | x in PageUp(ms, room, viewer, up, page)
      ensures x.msg in ms && x.msg.room == room && 1 <= x.msg.id < up && x.read == (viewer in x.msg.readers)
    {
      AnnotateMember(NewestFirst(found), ViewerIsReader(viewer), x);
      ReverseMember(found, x.msg);
    }
  }

  /** Paging up from the initial batch shows each older message of the room
      exactly once: on page `UpPageOf(up, id)` and on no other page. */
  lemma PageUpCoversOnce(ms: seq<Message>, room: string, viewer: UserName, up: int, m: Message, page: int)
    requires m in ms && m.room == room && 1 <= m.id < up && page >= 1
    ensures m in Msgs(PageUp(ms, room, viewer, up, UpPageOf(up, m.id)))
    ensures m in Msgs(PageUp(ms, room, viewer, up, page)) ==> page == UpPageOf(up, m.id)
  {
    UpWindowExactlyOnce(up, m.id, page);
    var home := InWindow(ms, room, UpWindow(up, UpPageOf(up, m.id)));
    AnnotateMsgs(NewestFirst(home), ViewerIsReader(viewer));
    ReverseMember(home, m);
    var here := InWindow(ms, room, UpWindow(up, page));
    AnnotateMsgs(NewestFirst(here), ViewerIsReader(viewer));
    ReverseMember(here, m);
  }

  /** Paging down from the initial batch shows each newer message of the
      room exactly once. */
  lemma PageDownCoversOnce(ms: seq<Message>, room: string, viewer: UserName, down: int, m: Message, page: int)
    requires m in ms && m.room == room && m.id > down && page >= 1
    ensures m in Msgs(PageDown(ms, room, viewer, down, DownPageOf(down, m.id)))
    ensures m in Msgs(PageDown(ms, room, viewer, down, page)) ==> page == DownPageOf(down, m.id)
  {
    DownWindowExactlyOnce(down, m.id, page);
    var home := InWindow(ms, room, DownWindow(down, DownPageOf(down, m.id)));
    ReverseReverse(home);
    AnnotateMsgs(home, ViewerIsReader(viewer));
    var here := InWindow(ms, room, DownWindow(down, page));
    ReverseReverse(here);
    AnnotateMsgs(here, ViewerIsReader(viewer));
  }

  /** The count sent with a newer page, computed afresh from the room,
      equals the count sent with the first batch as long as the viewer has
      read nothing in between: both are the unread total less one page,
      never negative. */
  lemma PageDownCountMatchesStart(ms: seq<Message>, room: string, viewer: UserName)
    ensures RemainingUnread(UnreadCount(ms, room, viewer)) == StartBatch(ms, room, viewer).unread
  {
    var u := UnreadBy(ms, room, viewer);
    if |u| >= MESSAGES_PAGINATE {
      assert StartBatch(ms, room, viewer).unread == |u| - MESSAGES_PAGINATE;
    } else if |u| > 0 {
      assert StartBatch(ms, room, viewer).unread == 0;
    } else {
      assert StartBatch(ms, room, viewer) == LatestBatch(InRoom(ms, room));
    }
  }

  // ---------------------------------------------------------------------
  // Messages between the two cursors.

  lemma MsgsMember(items: seq<Annotated>, m: Message)
    ensures m in Msgs(items) <==> exists x :: x in items && x.msg == m
  {
    if m in Msgs(items) {
      var j :| 0 <= j < |items| && Msgs(items)[j] == m;
      assert items[j] in items && items[j].msg == m;
    }
    if exists x :: x in items && x.msg == m {
      var x :| x in items && x.msg == m;
      var j :| 0 <= j < |items| && items[j] == x;
      assert Msgs(items)[j] == m;
    }
  }

  /** The paginations never reach an id between the cursors: newer pages
      start above `down` and older pages end below `up`. */
  lemma BetweenCursorsNotPaged(ms: seq<Message>, room: string, viewer: UserName, up: int, down: int, m: Message)
    requires IdsIncreasing(ms) && up <= m.id <= down
    ensures forall page :: page >= 1 ==> m !in Msgs(PageUp(ms, room, viewer, up, page))
    ensures forall page :: page >= 1 ==> m !in Msgs(PageDown(ms, room, viewer, down, page))
  {
    forall page | page >= 1
      ensures m !in Msgs(PageUp(ms, room, viewer, up, page))
      ensures m !in Msgs(PageDown(ms, room, viewer, down, page))
    {
      PageUpShape(ms, room, viewer, up, page);
      PageDownShape(ms, room, viewer, down, page);
      assert DownWindow(down, page).lo > down;
      MsgsMember(PageUp(ms, room, viewer, up, page), m);
      MsgsMember(PageDown(ms, room, viewer, down, page), m);
    }
  }

  /** As written, a backlog batch leaves out every message the viewer has
      read whose id lies between the first and the twentieth unread one; its
      id is strictly between the cursors, so no page shows it either. */
  lemma BacklogHidesReadBetween(ms: seq<Message>, room: string, viewer: UserName, m: Message)
    requires IdsIncreasing(ms)
    requires |UnreadBy(ms, room, viewer)| >= MESSAGES_PAGINATE
    requires m in ReadBy(ms, room, viewer)
    requires UnreadBy(ms, room, viewer)[0].id < m.id < UnreadBy(ms, room, viewer)[MESSAGES_PAGINATE - 1].id
    ensures var st := StartBatch(ms, room, viewer);
      && st.batch.Some?
      && m !in Msgs(st.batch.value)
      && UpCursor(st) < m.id < DownCursor(st)
      && (forall page :: page >= 1 ==> m !in Msgs(PageUp(ms, room, viewer, UpCursor(st), page)))
      && (forall page :: page >= 1 ==> m !in Msgs(PageDown(ms, room, viewer, DownCursor(st), page)))
  {
    var u := UnreadBy(ms, room, viewer);
    var st := StartBatch(ms, room, viewer);
    StartBatchBacklog(ms, room, viewer);
    var b := st.batch.value;
    assert Msgs(b) == u[..MESSAGES_PAGINATE];
    assert forall x :: x in u[..MESSAGES_PAGINATE] ==> x in u;
    assert b[0].msg == Msgs(b)[0] == u[0];
    assert b[|b| - 1].msg == Msgs(b)[MESSAGES_PAGINATE - 1] == u[MESSAGES_PAGINATE - 1];
    BetweenCursorsNotPaged(ms, room, viewer, UpCursor(st), DownCursor(st), m);
  }

  /** Every message of a suffix of an id-increasing run has a higher id than
      each message before the suffix. */
  lemma SuffixAbove(r: seq<Message>, i: nat, k: nat)
    requires k <= |r| && i < |r| - k
    requires forall a, b :: 0 <= a < |r| - k <= b < |r| ==> r[a].id < r[b].id
    ensures forall x :: x in r[|r| - k..] ==> r[i].id < x.id
  {
    forall x | x in r[|r| - k..] ensures r[i].id < x.id {
      var l :| 0 <= l < k && r[|r| - k..][l] == x;
      assert r[|r| - k + l] == x;
    }
  }

  /** As written, a topped-up batch leaves out every read message below the
      newest `k` read ones whose id is above the oldest unread message; its id
      is strictly between the cursors, so no page shows it either. */
  lemma TopUpHidesOlderRead(ms: seq<Message>, room: string, viewer: UserName, i: nat)
    requires IdsIncreasing(ms)
    requires 0 < |UnreadBy(ms, room, viewer)| < MESSAGES_PAGINATE
    requires var u := UnreadBy(ms, room, viewer);
      var r := ReadBy(ms, room, viewer);
      var k := if MESSAGES_PAGINATE - |u| < |r| then MESSAGES_PAGINATE - |u| else |r|;
      i < |r| - k && u[0].id < r[i].id
    ensures var m := ReadBy(ms, room, viewer)[i];
      var st := StartBatch(ms, room, viewer);
      && st.batch.Some?
      && m !in Msgs(st.batch.value)
      && UpCursor(st) < m.id < DownCursor(st)
      && (forall page :: page >= 1 ==> m !in Msgs(PageUp(ms, room, viewer, UpCursor(st), page)))
      && (forall page :: page >= 1 ==> m !in Msgs(PageDown(ms, room, viewer, DownCursor(st), page)))
  {
    var u := UnreadBy(ms, room, viewer);
    var r := ReadBy(ms, room, viewer);
    var k := if MESSAGES_PAGINATE - |u| < |r| then MESSAGES_PAGINATE - |u| else |r|;
    var m := r[i];
    var st := StartBatch(ms, room, viewer);
    StartBatchTopUp(ms, room, viewer);
    var b := st.batch.value;
    assert m in r;
    SuffixAbove(r, i, k);
    MsgsMember(b, m);
    SortedBetweenEnds(b);
    assert Annotated(u[0], false) in b;
    var last := r[|r| - 1];
    assert last in r[|r| - k..];
    assert Annotated(last, |last.readers| != 1) in b;
    BetweenCursorsNotPaged(ms, room, viewer, UpCursor(st), DownCursor(st), m);
  }

  /** Position of the viewer's oldest unread message in `all`; `|all|` when
      every message has been read. */
  function FirstUnreadIndex(all: seq<Message>, viewer: UserName): (i: nat)
    ensures i <= |all|
    ensures forall j :: 0 <= j < i ==> viewer in all[j].readers
    ensures i < |all| ==> viewer !in all[i].readers
  {
    if all == [] then 0
    else if viewer !in all[0].readers then 0
    else 1 + FirstUnreadIndex(all[1..], viewer)
  }

  /** The size of the corrected first batch: a page, or the whole room. */
  function StartLength(all: seq<Message>): nat
  {
    if MESSAGES_PAGINATE < |all| then MESSAGES_PAGINATE else |all|
  }

  /** Where the corrected first batch starts: at the oldest unread message,
      or early enough that a full page still fits before the room's end. */
  function StartIndex(all: seq<Message>, viewer: UserName): (s: nat)
    ensures s + StartLength(all) <= |all|
  {
    var i := FirstUnreadIndex(all, viewer);
    if i < |all| - StartLength(all) then i else |all| - StartLength(all)
  }

  /** The corrected first batch: a run of consecutive room messages, at most
      a page, that starts at the viewer's oldest unread message, or ends at
      the room's newest message when fewer than a page follow it. */
  function ContiguousStart(ms: seq<Message>, room: string, viewer: UserName): seq<Message>
  {
    StartRun(InRoom(ms, room), viewer)
  }

  function StartRun(all: seq<Message>, viewer: UserName): seq<Message>
  {
    all[StartIndex(all, viewer)..StartIndex(all, viewer) + StartLength(all)]
  }

  function FirstId(w: seq<Message>): int { if w == [] then 0 else w[0].id }

  function LastId(w: seq<Message>): int { if w == [] then 0 else w[|w| - 1].id }

  /** The oldest unread message of the room sits at `FirstUnreadIndex`. */
  lemma {:induction false} FirstUnreadIsOldestUnread(ms: seq<Message>, room: string, viewer: UserName)
    ensures UnreadBy(ms, room, viewer) != [] <==> FirstUnreadIndex(InRoom(ms, room), viewer) < |InRoom(ms, room)|
    ensures UnreadBy(ms, room, viewer) != [] ==>
      InRoom(ms, room)[FirstUnreadIndex(InRoom(ms, room), viewer)] == UnreadBy(ms, room, viewer)[0]
  {
    if ms != [] {
      FirstUnreadIsOldestUnread(ms[1..], room, viewer);
      if ms[0].room == room {
        assert InRoom(ms, room) == [ms[0]] + InRoom(ms[1..], room);
        assert InRoom(ms, room)[1..] == InRoom(ms[1..], room);
      } else {
        assert InRoom(ms, room) == InRoom(ms[1..], room);
        assert UnreadBy(ms, room, viewer) == UnreadBy(ms[1..], room, viewer);
      }
    }
  }

  /** The corrected batch holds at most a page of the room's own messages,
      is empty only for an empty room, and holds the viewer's oldest unread
      message. */
  lemma ContiguousStartShape(ms: seq<Message>, room: string, viewer: UserName)
    ensures var all := InRoom(ms, room);
      var w := ContiguousStart(ms, room, viewer);
      && |w| == (if MESSAGES_PAGINATE < |all| then MESSAGES_PAGINATE else |all|)
      && (w == [] <==> all == [])
      && (forall m :: m in w ==> m in ms && m.room == room)
      && (UnreadBy(ms, room, viewer) != [] ==> UnreadBy(ms, room, viewer)[0] in w)
  {
    var all := InRoom(ms, room);
    var s := StartIndex(all, viewer);
    var w := ContiguousStart(ms, room, viewer);
    forall m | m in w ensures m in ms && m.room == room {
      assert m in all;
    }
    FirstUnreadIsOldestUnread(ms, room, viewer);
    if UnreadBy(ms, room, viewer) != [] {
      var i := FirstUnreadIndex(all, viewer);
      assert w[i - s] == all[i];
    }
  }

  /** A slice of an id-increasing run holds every message of the run whose
      id lies between the slice's first and last. */
  lemma SliceNoGap(all: seq<Message>, lo: nat, hi: nat)
    requires IdsIncreasing(all) && lo < hi <= |all|
    ensures forall m :: m in all && all[lo].id <= m.id <= all[hi - 1].id ==> m in all[lo..hi]
  {
    forall m | m in all && all[lo].id <= m.id <= all[hi - 1].id ensures m in all[lo..hi] {
      var j :| 0 <= j < |all| && all[j] == m;
      assert lo <= j < hi;
      assert all[lo..hi][j - lo] == m;
    }
  }

  /** The corrected batch leaves out no message of the room whose id lies
      between its first and its last. */
  lemma StartRunNoGap(all: seq<Message>, viewer: UserName)
    requires IdsIncreasing(all)
    ensures var w := StartRun(all, viewer);
      forall m :: m in all && FirstId(w) <= m.id <= LastId(w) ==> m in w
  {
    var s := StartIndex(all, viewer);
    var n := StartLength(all);
    if n > 0 {
      SliceNoGap(all, s, s + n);
    }
  }

  /** With the corrected batch every message of the room is shown: in the
      batch, on an older page or on a newer page. */
  lemma ContiguousStartShowsEveryMessage(ms: seq<Message>, room: string, viewer: UserName, m: Message)
    requires IdsIncreasing(ms)
    requires m in ms && m.room == room && m.id >= 1
    ensures var w := ContiguousStart(ms, room, viewer);
      || m in w
      || m in Msgs(PageUp(ms, room, viewer, FirstId(w), UpPageOf(FirstId(w), m.id)))
      || m in Msgs(PageDown(ms, room, viewer, LastId(w), DownPageOf(LastId(w), m.id)))
  {
    var w := ContiguousStart(ms, room, viewer);
    FilterIncreasing(ms, (m: Message) => m.room == room);
    StartRunNoGap(InRoom(ms, room), viewer);
    assert m in InRoom(ms, room);
    if m.id < FirstId(w) {
      PageUpCoversOnce(ms, room, viewer, FirstId(w), m, 1);
    } else if m.id > LastId(w) {
      PageDownCoversOnce(ms, room, viewer, LastId(w), m, 1);
    }
  }

  /** When the viewer has read everything, the corrected batch is the same
      run of messages the code shows. */
  lemma ContiguousStartAgreesWhenCaughtUp(ms: seq<Message>, room: string, viewer: UserName)
    requires UnreadBy(ms, room, viewer) == [] && InRoom(ms, room) != []
    ensures StartBatch(ms, room, viewer).batch.Some?
    ensures ContiguousStart(ms, room, viewer) == Msgs(StartBatch(ms, room, viewer).batch.value)
  {
    StartBatchCaughtUp(ms, room, viewer);
    FirstUnreadIsOldestUnread(ms, room, viewer);
  }
}
