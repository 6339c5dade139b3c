/** The chat and notification service: per-connection room membership, the
    socket `chat:send` handler, the history window, and the REST `POST /chat`
    and `POST /notify` entry points. Emissions to sockets are recorded in order,
    each with the set of sockets it reaches. */
module ChatService {
  import opened Wrappers
  import opened Json
  import opened Seqs
  import opened Http
  import CV = ChatValidators
  import CM = ChatModel
  import PS = PubSubBridge

  type Socket = nat

  /** The one handler the service registers, on the literal topic `chat:*`; its body is empty. */
  const BridgeHandler: PS.Handler := 0
  const BridgeTopic := "chat:*"

  const DefaultLimit := 30
  const MaxLimit := 100

  datatype Event =
    | Joined(room: string)
    | ChatNew(msg: CM.ChatMessage)
    | NotifyEvent(note: CV.Notify, ts: int)

  datatype Emission = Emission(to: set<Socket>, event: Event)

  datatype SendFailure = Rejected(issues: seq<string>) | Unavailable

  datatype Ack = AckOk(msg: CM.ChatMessage) | AckError(error: SendFailure)

  /** The sockets currently in `room`. */
  function Members(rooms: map<Socket, set<string>>, room: string): (r: set<Socket>)
    ensures forall s :: s in r <==> s in rooms && room in rooms[s]
  {
    set s | s in rooms && room in rooms[s]
  }

  /** The topic a socket-sent message is published on. */
  function ChatTopic(room: string): string {
    "chat:" + room
  }

  /** A chat topic is the bridge's literal topic only for the room named `*`. */
  lemma ChatTopicIsBridge(room: string)
    ensures ChatTopic(room) == BridgeTopic <==> room == "*"
  {
    if ChatTopic(room) == BridgeTopic {
      assert room == ChatTopic(room)[5..];
    }
  }

  /** Since the bridge listens on `chat:*` only, publishing a chat message reaches no
      handler at all, except for the room `*`, where it reaches the (empty) bridge. */
  lemma PublishReachesOnlyBridge(room: string)
    ensures PS.Listeners(map[BridgeTopic := [BridgeHandler]], ChatTopic(room))
            == if room == "*" then [BridgeHandler] else []
  {
    ChatTopicIsBridge(room);
  }

  /** The same in broker mode, for the message as the broker hands it back. */
  lemma BrokerEchoReachesOnlyBridge(prefix: string, room: string)
    ensures PS.Listeners(map[PS.FullName(prefix, BridgeTopic) := [BridgeHandler]], PS.FullName(prefix, ChatTopic(room)))
            == if room == "*" then [BridgeHandler] else []
  {
    ChatTopicIsBridge(room);
    if PS.FullName(prefix, BridgeTopic) == PS.FullName(prefix, ChatTopic(room)) {
      PS.FullNameInjective(prefix, BridgeTopic, ChatTopic(room));
    }
  }

  // ---- History window ----

  predicate CreatedAscending(ms: seq<CM.ChatMessage>) {
    forall i, j :: 0 <= i < j < |ms| ==> ms[i].createdAt <= ms[j].createdAt
  }

  predicate CreatedDescending(ms: seq<CM.ChatMessage>) {
    forall i, j :: 0 <= i < j < |ms| ==> ms[i].createdAt >= ms[j].createdAt
  }

  function InRoom(ms: seq<CM.ChatMessage>, room: string): seq<CM.ChatMessage> {
    Filter(ms, (m: CM.ChatMessage) => m.room == room)
  }

  /** `sort({ createdAt: -1 })` on rows kept in creation order: newest first. */
  function NewestFirst(rows: seq<CM.ChatMessage>): (r: seq<CM.ChatMessage>)
    ensures CreatedAscending(rows) ==> CreatedDescending(r)
    ensures multiset(r) == multiset(rows)
  {
    var r := Reverse(rows);
    assert multiset(r) == multiset(rows) by { ReverseMultiset(rows); }
    r
  }

  /** `Math.min(parseInt(limit || '30'), 100)` for an absent or numeric limit: the
      default 30, a cap at 100, and nothing that keeps a zero from passing through. */
  function LimitAsWritten(limit: Option<nat>): (n: nat)
    ensures n <= MaxLimit
    ensures limit.None? ==> n == DefaultLimit
    ensures limit.Some? && limit.value <= MaxLimit ==> n == limit.value
    ensures limit.Some? && limit.value > MaxLimit ==> n == MaxLimit
  {
    var n := limit.GetOr(DefaultLimit);
    if n < MaxLimit then n else MaxLimit
  }

  /** A database cursor's `limit(n)`: zero means no limit at all, any other `n` keeps
      the first `n` rows. */
  function CursorLimit(rows: seq<CM.ChatMessage>, n: nat): (r: seq<CM.ChatMessage>)
    ensures n == 0 ==> r == rows
    ensures n > 0 ==> |r| == (if |rows| <= n then |rows| else n) && r == rows[..|r|]
  {
    if n == 0 then rows else Take(rows, n)
  }

  /** `GET /chat/:room` as written: filter, newest first, limit, reverse. For every
      limit but zero this is the corrected window `History`; for zero it is the whole
      room, oldest first. */
  function HistoryAsWritten(ms: seq<CM.ChatMessage>, room: string, limit: Option<nat>): (r: seq<CM.ChatMessage>)
    ensures limit != Some(0) ==> r == History(ms, room, limit)
    ensures limit == Some(0) ==> r == InRoom(ms, room)
  {
    var rows := InRoom(ms, room);
    var r := Reverse(CursorLimit(NewestFirst(rows), LimitAsWritten(limit)));
    if limit == Some(0) then
      assert r == rows by {
        assert forall i :: 0 <= i < |r| ==> r[i] == rows[i];
      }
      r
    else
      assert LimitAsWritten(limit) == HistoryLimit(limit);
      ReverseTakeReverse(rows, HistoryLimit(limit));
      r
  }

  /** `?limit=0` passes the cap as a zero limit, which the cursor reads as "no limit":
      a room with 101 messages returns all 101. */
  lemma LimitZeroReturnsWholeRoom(m: CM.ChatMessage)
    ensures var ms := seq(101, i => m);
            |HistoryAsWritten(ms, m.room, Some(0))| == 101 > MaxLimit
  {
    var ms := seq(101, i => m);
    FilterAll(ms, (x: CM.ChatMessage) => x.room == m.room);
  }

  /** The window size: the given or default limit, clamped to 1..100. */
  function HistoryLimit(limit: Option<nat>): (n: nat)
    ensures 1 <= n <= MaxLimit
    ensures limit.None? ==> n == DefaultLimit
    ensures limit.Some? && 1 <= limit.value <= MaxLimit ==> n == limit.value
    ensures limit.Some? && limit.value > MaxLimit ==> n == MaxLimit
    ensures limit == Some(0) ==> n == 1
  {
    var n := limit.GetOr(DefaultLimit);
    if n < 1 then 1 else if n < MaxLimit then n else MaxLimit
  }

  /** The history window: that room's messages only, at most `HistoryLimit(limit)` of
      them, the most recent ones, oldest first. */
  function History(ms: seq<CM.ChatMessage>, room: string, limit: Option<nat>): (r: seq<CM.ChatMessage>)
    ensures |r| <= HistoryLimit(limit) <= MaxLimit
    ensures |r| == if |InRoom(ms, room)| <= HistoryLimit(limit) then |InRoom(ms, room)| else HistoryLimit(limit)
    ensures r == KeepLast(InRoom(ms, room), HistoryLimit(limit))
    ensures forall m :: m in r ==> m in ms && m.room == room
  {
    var rows := InRoom(ms, room);
    var n := HistoryLimit(limit);
    var r := Reverse(Take(NewestFirst(rows), n));
    assert r == KeepLast(rows, n) by {
      ReverseTakeReverse(rows, n);
    }
    assert forall m :: m in r ==> m in rows by {
      assert r == rows[|rows| - |r|..];
    }
    r
  }

  /** In a log kept in creation order the window is in creation order too. */
  lemma HistoryAscending(ms: seq<CM.ChatMessage>, room: string, limit: Option<nat>)
    requires CreatedAscending(ms)
    ensures CreatedAscending(History(ms, room, limit))
  {
    FilterAscending(ms, room);
    var rows := InRoom(ms, room);
    var r := History(ms, room, limit);
    var k := |rows| - |r|;
    assert forall i :: 0 <= i < |r| ==> r[i] == rows[k + i];
  }

  lemma {:induction false} FilterAscending(ms: seq<CM.ChatMessage>, room: string)
    requires CreatedAscending(ms)
    ensures CreatedAscending(InRoom(ms, room))
    ensures forall m :: m in InRoom(ms, room) && ms != [] ==> ms[0].createdAt <= m.createdAt
  {
    if ms != [] {
      FilterAscending(ms[1..], room);
      assert forall m :: m in ms[1..] ==> ms[0].createdAt <= m.createdAt;
    }
  }

  /** Everything in the room that is left out of the window is no newer than what is in it. */
  lemma HistoryIsMostRecent(ms: seq<CM.ChatMessage>, room: string, limit: Option<nat>, i: nat, j: nat)
    requires CreatedAscending(ms)
    requires i < |InRoom(ms, room)| - |History(ms, room, limit)| <= j < |InRoom(ms, room)|
    ensures InRoom(ms, room)[i].createdAt <= InRoom(ms, room)[j].createdAt
  {
    FilterAscending(ms, room);
  }

  class ChatHub {
    /** The ChatMessage collection in creation order. */
    var messages: seq<CM.ChatMessage>
    /** Each connected socket's joined rooms. */
    var rooms: map<Socket, set<string>>
    /** What was emitted to sockets, in order. */
    var emissions: seq<Emission>
    /** The database's current time. */
    var clock: int
    const bus: PS.PubSub<CM.ChatMessage>

    ghost predicate Valid()
      reads this, bus
    {
      && bus.Valid()
      && (forall i :: 0 <= i < |messages| ==>
            messages[i].id == i && CM.Valid(messages[i]) && messages[i].createdAt <= clock)
      && CreatedAscending(messages)
      && bus.table == map[bus.Name(BridgeTopic) := [BridgeHandler]]
    }

    /** Start-up: create the bus from the broker address and register the bridge on `chat:*`. */
    constructor (redisUrl: string, encode: CM.ChatMessage -> string, decode: string -> Option<CM.ChatMessage>, now: int)
      ensures Valid()
      ensures bus.brokerMode <==> redisUrl != ""
      ensures bus.prefix == PS.DefaultPrefix
      ensures messages == [] && rooms == map[] && emissions == [] && clock == now
    {
      messages := [];
      rooms := map[];
      emissions := [];
      clock := now;
      var b := new PS.PubSub(redisUrl, encode, decode);
      ghost var name := b.Name(BridgeTopic);
      assert PS.Listeners(b.table, name) == [];
      var sub := b.Subscribe(BridgeTopic, BridgeHandler);
      assert sub.name == name;
      assert [] + [BridgeHandler] == [BridgeHandler];
      assert b.table == map[][name := [] + [BridgeHandler]];
      assert b.table == map[name := [BridgeHandler]];
      bus := b;
    }

    /** Time passes on the database server. */
    method Tick(dt: nat)
      requires Valid()
      modifies this
      ensures Valid()
      ensures clock == old(clock) + dt
      ensures messages == old(messages) && rooms == old(rooms) && emissions == old(emissions)
    {
      clock := clock + dt;
    }

    /** A socket connects, in no room yet. */
    method Connect(s: Socket)
      requires Valid() && s !in rooms
      modifies this
      ensures Valid()
      ensures rooms == old(rooms)[s := {}]
      ensures messages == old(messages) && emissions == old(emissions) && clock == old(clock)
    {
      rooms := rooms[s := {}];
    }

    /** A socket disconnects and so leaves every room. */
    method Disconnect(s: Socket)
      requires Valid()
      modifies this
      ensures Valid()
      ensures rooms == old(rooms) - {s}
      ensures forall room :: s !in Members(rooms, room)
      ensures messages == old(messages) && emissions == old(emissions) && clock == old(clock)
    {
      rooms := rooms - {s};
    }

    /** `join {room}`: an empty room is ignored; otherwise the socket enters the room
        and is told `joined {room}`, alone. */
    method Join(s: Socket, room: string)
      requires Valid() && s in rooms
      modifies this
      ensures Valid()
      ensures room == "" ==> rooms == old(rooms) && emissions == old(emissions)
      ensures room != "" ==> rooms == old(rooms)[s := old(rooms)[s] + {room}]
                             && emissions == old(emissions) + [Emission({s}, Joined(room))]
      ensures room != "" ==> s in Members(rooms, room)
      ensures messages == old(messages) && clock == old(clock)
    {
      if room == "" {
        return;
      }
      rooms := rooms[s := rooms[s] + {room}];
      emissions := emissions + [Emission({s}, Joined(room))];
    }

    /** `leave {room}`: an empty room is ignored; otherwise just that room goes. */
    method Leave(s: Socket, room: string)
      requires Valid() && s in rooms
      modifies this
      ensures Valid()
      ensures room == "" ==> rooms == old(rooms)
      ensures room != "" ==> rooms == old(rooms)[s := old(rooms)[s] - {room}]
      ensures room != "" ==> s !in Members(rooms, room)
      ensures emissions == old(emissions) && messages == old(messages) && clock == old(clock)
    {
      if room == "" {
        return;
      }
      rooms := rooms[s := rooms[s] - {room}];
    }

    /** Socket `chat:send`: validate, persist, publish on `chat:<room>`, acknowledge.
        A failure stores and publishes nothing. Success emits nothing either: the
        published message reaches no handler but the empty bridge. */
    method ChatSend(payload: Payload, dbUp: bool) returns (ack: Ack, published: PS.Outcome<CM.ChatMessage>)
      requires Valid()
      modifies this, bus
      ensures Valid()
      ensures emissions == old(emissions) && rooms == old(rooms) && clock == old(clock)
      ensures CV.ParseSendMessage(payload).Err? ==>
                ack == AckError(Rejected(CV.ParseSendMessage(payload).error))
      ensures CV.ParseSendMessage(payload).Ok? && !dbUp ==> ack == AckError(Unavailable)
      ensures ack.AckError? ==> messages == old(messages) && bus.outbox == old(bus.outbox) && published == PS.Dropped
      ensures ack.AckOk? <==> CV.ParseSendMessage(payload).Ok? && dbUp
      ensures ack.AckOk? ==>
        var input := CV.ParseSendMessage(payload).value;
        && messages == old(messages) + [ack.msg]
        && ack.msg == CM.ChatMessage(|old(messages)|, input.room, input.user, input.message, clock, clock)
        && (!bus.brokerMode ==> published == PS.Invoked(if input.room == "*" then [BridgeHandler] else [], ack.msg))
        && (bus.brokerMode ==>
              bus.outbox == old(bus.outbox) + [PS.BrokerMessage(PS.FullName(bus.prefix, ChatTopic(input.room)), bus.encode(ack.msg))])
    {
      published := PS.Dropped;
      var parsed := CV.ParseSendMessage(payload);
      if parsed.Err? {
        ack := AckError(Rejected(parsed.error));
        return;
      }
      var input := parsed.value;
      CM.AcceptedIsStorable(payload);
      var created := CM.Create(|messages|, input.room, input.user, input.message, clock);
      if !dbUp {
        ack := AckError(Unavailable);
        return;
      }
      var msg := created.value;
      messages := messages + [msg];
      PublishReachesOnlyBridge(input.room);
      published := bus.Publish(ChatTopic(input.room), msg);
      // The only handler that can run is the bridge, whose body is empty.
      ack := AckOk(msg);
    }

    /** `POST /chat`: validate and persist, then emit `chat:new` to the room's sockets
        and answer 201; any failure answers 400 and emits nothing. */
    method PostChat(payload: Payload, dbUp: bool) returns (reply: Reply<CM.ChatMessage>)
      requires Valid()
      modifies this
      ensures Valid()
      ensures rooms == old(rooms) && clock == old(clock)
      ensures reply.Success? <==> CV.ParseSendMessage(payload).Ok? && dbUp
      ensures reply.Failure? ==> reply.status == BadRequest && reply.message == InvalidDataMessage
                                 && messages == old(messages) && emissions == old(emissions)
      ensures reply.Success? ==>
        var input := CV.ParseSendMessage(payload).value;
        && reply.status == Created
        && reply.value == CM.ChatMessage(|old(messages)|, input.room, input.user, input.message, clock, clock)
        && messages == old(messages) + [reply.value]
        && emissions == old(emissions) + [Emission(Members(rooms, input.room), ChatNew(reply.value))]
    {
      var parsed := CV.ParseSendMessage(payload);
      if parsed.Err? {
        reply := Invalid(parsed.error);
        return;
      }
      var input := parsed.value;
      if !dbUp {
        reply := Invalid([]);
        return;
      }
      var msg := CM.Create(|messages|, input.room, input.user, input.message, clock).value;
      messages := messages + [msg];
      emissions := emissions + [Emission(Members(rooms, input.room), ChatNew(msg))];
      reply := Success(Created, msg);
    }

    /** `POST /notify`: validate, emit `notify` with a timestamp to the room's sockets,
        answer 201; nothing is stored. Invalid bodies answer 400 and emit nothing. */
    method PostNotify(payload: Payload) returns (reply: Reply<bool>)
      requires Valid()
      modifies this
      ensures Valid()
      ensures messages == old(messages) && rooms == old(rooms) && clock == old(clock)
      ensures reply.Success? <==> CV.ParseNotify(payload).Ok?
      ensures reply.Failure? ==> reply.status == BadRequest && emissions == old(emissions)
      ensures reply.Success? ==>
        var note := CV.ParseNotify(payload).value;
        && reply == Success(Created, true)
        && emissions == old(emissions) + [Emission(Members(rooms, note.room), NotifyEvent(note, clock))]
    {
      var parsed := CV.ParseNotify(payload);
      if parsed.Err? {
        reply := Invalid(parsed.error);
        return;
      }
      var note := parsed.value;
      emissions := emissions + [Emission(Members(rooms, note.room), NotifyEvent(note, clock))];
      reply := Success(Created, true);
    }

    /** `GET /chat/:room`: the handler as written. Any limit but zero gives the window
        of at most 100 most recent room messages; `limit=0` gives the whole room. */
    function GetHistory(room: string, limit: Option<nat>): (reply: Reply<seq<CM.ChatMessage>>)
      reads this, bus
      requires Valid()
      ensures reply.Success? && reply.status == OK
      ensures limit != Some(0) ==> |reply.value| <= MaxLimit
      ensures limit != Some(0) ==> reply.value == KeepLast(InRoom(messages, room), HistoryLimit(limit))
      ensures limit == Some(0) ==> reply.value == InRoom(messages, room)
      ensures CreatedAscending(reply.value)
      ensures forall m :: m in reply.value ==> m in messages && m.room == room
    {
      var r := HistoryAsWritten(messages, room, limit);
      if limit == Some(0) then
        FilterAscending(messages, room);
        Success(OK, r)
      else
        HistoryAscending(messages, room, limit);
        Success(OK, r)
    }
  }

  /** `GET /health`. */
  function Health(): (r: HealthReport)
    ensures r.ok && r.service == "notifications"
  {
    HealthReport(true, "notifications")
  }
}
