/** The socket relay of the server: sessions join per-user and per-exchange rooms,
    chat messages sent over the socket are stored and broadcast to the exchange room,
    and status updates are forwarded to the rest of that room. The relay saves into the
    same message table as the message route (Exchanges.WithMessage), so both copies of a
    message share one id counter. The relay state is a value (Hub) with one handler
    function per event; class SocketServer performs the same handlers on its fields and
    on the route handlers' Engine. */
module Relay {
  import opened Shared
  import opened Exchanges

  type SessionId = nat

  /** `user_{userId}` and `exchange_{exchangeId}`. */
  datatype Room = UserRoom(user: UserId) | ExchangeRoom(exchange: ExchangeId)

  /** The `send_message` payload; "" stands for a missing field. */
  datatype Outbound = Outbound(exchangeId: ExchangeId, senderId: UserId, content: string,
                               messageType: string, senderName: string, senderPicture: string)

  /** The saved message with the sender's display fields, as broadcast. */
  datatype Delivered = Delivered(message: Message, senderName: string, senderPicture: Option<string>)

  /** The `status_update` payload, forwarded unchanged. */
  datatype StatusData = StatusData(exchangeId: ExchangeId, status: string)

  datatype Event =
    | ReceiveMessage(delivered: Delivered)
    | MessageError(error: string)
    | StatusChanged(data: StatusData)

  /** One emit: the sessions it reaches and what they receive. */
  datatype Emission = Emission(to: set<SessionId>, event: Event)

  /** What a session sends to the server. `saveOk` says whether the database insert
      of a `send_message` succeeds; `LeaveExchange` has no server handler. */
  datatype SocketEvent =
    | Join(session: SessionId, user: UserId)
    | JoinExchange(session: SessionId, exchange: ExchangeId)
    | LeaveExchange(session: SessionId, exchange: ExchangeId)
    | SendMessage(session: SessionId, data: Outbound, saveOk: bool)
    | StatusUpdate(session: SessionId, update: StatusData)

  /** Room membership, the database the route handlers also use, and the log of emits. */
  datatype Hub = Hub(rooms: map<Room, set<SessionId>>, db: Store, emissions: seq<Emission>)

  const SaveFailed: string := "Failed to send message"

  function Members(rooms: map<Room, set<SessionId>>, room: Room): set<SessionId>
  {
    if room in rooms then rooms[room] else {}
  }

  /** `socket.join(room)`: adds the session and removes no one. */
  function Joined(rooms: map<Room, set<SessionId>>, room: Room, session: SessionId): (r: map<Room, set<SessionId>>)
    ensures Members(r, room) == Members(rooms, room) + {session}
    ensures forall q :: q != room ==> Members(r, q) == Members(rooms, q)
  {
    rooms[room := Members(rooms, room) + {session}]
  }

  /** `{ ...message, senderName: senderName || 'Unknown', senderPicture: senderPicture || null }` */
  function WithSender(m: Message, data: Outbound): Delivered
  {
    Delivered(m, if data.senderName == "" then "Unknown" else data.senderName,
              if data.senderPicture == "" then None else Some(data.senderPicture))
  }

  /** One event handler. */
  function Handle(h: Hub, ev: SocketEvent): (r: Hub)
    ensures r.db != h.db ==> ev.SendMessage? && ev.saveOk
    ensures r.rooms != h.rooms ==> ev.Join? || ev.JoinExchange?
    ensures r.emissions != h.emissions <==> ev.SendMessage? || ev.StatusUpdate?
  {
    match ev
    case Join(s, u) => h.(rooms := Joined(h.rooms, UserRoom(u), s))
    case JoinExchange(s, x) => h.(rooms := Joined(h.rooms, ExchangeRoom(x), s))
    case LeaveExchange(_, _) => h
    case SendMessage(s, data, saveOk) =>
      if saveOk then
        var db := WithMessage(h.db, data.exchangeId, data.senderId, data.content, data.messageType);
        var m := db.messages[|h.db.messages|];
        h.(db := db,
           emissions := h.emissions + [Emission(Members(h.rooms, ExchangeRoom(data.exchangeId)),
                                                ReceiveMessage(WithSender(m, data)))])
      else
        h.(emissions := h.emissions + [Emission({s}, MessageError(SaveFailed))])
    case StatusUpdate(s, data) =>
      h.(emissions := h.emissions + [Emission(Members(h.rooms, ExchangeRoom(data.exchangeId)) - {s},
                                              StatusChanged(data))])
  }

  function Run(h: Hub, evs: seq<SocketEvent>): Hub
    decreases |evs|
  {
    if evs == [] then h else Run(Handle(h, evs[0]), evs[1..])
  }

  /** The database keeps the route handlers' invariant. */
  ghost predicate Valid(h: Hub)
  {
    Consistent(h.db)
  }

  // ---------------------------------------------------------------- what the relay promises

  /** Every handler keeps the database invariant, touches no table but the messages,
      moves no points, only appends messages and emits, and hands each saved message an
      id no stored message carries. */
  lemma HandleKeeps(h: Hub, ev: SocketEvent)
    requires Valid(h)
    ensures var r := Handle(h, ev);
      && Valid(r)
      && Reconciles(h.db, r.db)
      && r.db == h.db.(messages := r.db.messages, nextMessageId := r.db.nextMessageId)
      && |h.db.messages| <= |r.db.messages| && r.db.messages[..|h.db.messages|] == h.db.messages
      && r.emissions[..|h.emissions|] == h.emissions
      && |r.emissions| == |h.emissions| + (if ev.Join? || ev.JoinExchange? || ev.LeaveExchange? then 0 else 1)
      && (forall i :: 0 <= i < |h.db.messages| && |h.db.messages| < |r.db.messages| ==>
            h.db.messages[i].id != r.db.messages[|h.db.messages|].id)
  {
  }

  /** No handler removes a session from a room: membership only grows. */
  lemma {:induction false} MembershipPersists(h: Hub, evs: seq<SocketEvent>, room: Room)
    ensures Members(h.rooms, room) <= Members(Run(h, evs).rooms, room)
    decreases |evs|
  {
    if evs != [] {
      MembershipPersists(Handle(h, evs[0]), evs[1..], room);
    }
  }

  /** `leave_exchange` changes nothing on the server. */
  lemma LeaveIsIgnored(h: Hub, s: SessionId, x: ExchangeId)
    ensures Handle(h, LeaveExchange(s, x)) == h
  {
  }

  /** A saved message is stored first and then broadcast, carrying its new id and the
      payload's fields, to every member of the exchange room, the sender included when
      the sender has joined it; the message type defaults to `text`, the sender's name
      to `Unknown` and the picture to null. */
  lemma SendBroadcastsSaved(h: Hub, s: SessionId, data: Outbound)
    ensures var r := Handle(h, SendMessage(s, data, true));
      var e := r.emissions[|h.emissions|];
      && r.db == WithMessage(h.db, data.exchangeId, data.senderId, data.content, data.messageType)
      && e.event.ReceiveMessage?
      && e.event.delivered.message == r.db.messages[|h.db.messages|]
      && e.event.delivered.message.id == h.db.nextMessageId
      && e.event.delivered.message.exchangeId == data.exchangeId
      && e.event.delivered.message.senderId == data.senderId
      && e.event.delivered.message.content == data.content
      && e.event.delivered.message.messageType == (if data.messageType == "" then "text" else data.messageType)
      && e.event.delivered.senderName == (if data.senderName == "" then "Unknown" else data.senderName)
      && (e.event.delivered.senderPicture.None? <==> data.senderPicture == "")
      && (e.event.delivered.senderPicture.Some? ==> e.event.delivered.senderPicture.value == data.senderPicture)
      && e.to == Members(h.rooms, ExchangeRoom(data.exchangeId))
      && (s in Members(h.rooms, ExchangeRoom(data.exchangeId)) ==> s in e.to)
  {
  }

  /** A failed save stores nothing, broadcasts nothing and tells only the sender. */
  lemma FailedSendTellsOnlySender(h: Hub, s: SessionId, data: Outbound)
    ensures var r := Handle(h, SendMessage(s, data, false));
      && r.db == h.db && r.rooms == h.rooms
      && r.emissions == h.emissions + [Emission({s}, MessageError(SaveFailed))]
  {
  }

  /** A status update reaches every other member of the exchange room, never the sender. */
  lemma StatusSkipsSender(h: Hub, s: SessionId, data: StatusData)
    ensures var e := Handle(h, StatusUpdate(s, data)).emissions[|h.emissions|];
      && s !in e.to
      && forall t :: t in e.to <==> t in Members(h.rooms, ExchangeRoom(data.exchangeId)) && t != s
  {
  }

  /** Once a session has joined an exchange room, every later successful send to that
      exchange is delivered to it, whatever happened in between. */
  lemma {:induction false} JoinedSessionReceives(h: Hub, evs: seq<SocketEvent>, s: SessionId,
                                                  x: ExchangeId, sender: SessionId, data: Outbound)
    requires data.exchangeId == x
    ensures var before := Run(Handle(h, JoinExchange(s, x)), evs);
      s in Handle(before, SendMessage(sender, data, true)).emissions[|before.emissions|].to
  {
    var joined := Handle(h, JoinExchange(s, x));
    MembershipPersists(joined, evs, ExchangeRoom(x));
  }

  // ---------------------------------------------------------------- the server

  /** The socket server. `db` is the same Engine the route handlers run on. */
  class SocketServer {
    var rooms: map<Room, set<SessionId>>
    const db: Engine
    var emissions: seq<Emission>

    function State(): Hub
      reads this, db
    {
      Hub(rooms, db.State(), emissions)
    }

    constructor (db: Engine)
      ensures this.db == db
      ensures State() == Hub(map[], db.State(), [])
    {
      this.db := db;
      rooms, emissions := map[], [];
    }

    /** `socket.on('join', userId)` (backend/server.js:147-150). */
    method OnJoin(s: SessionId, u: UserId)
      modifies this
      ensures State() == Handle(old(State()), Join(s, u))
    {
      rooms := Joined(rooms, UserRoom(u), s);
    }

    /** `socket.on('join_exchange', exchangeId)` (backend/server.js:153-156). */
    method OnJoinExchange(s: SessionId, x: ExchangeId)
      modifies this
      ensures State() == Handle(old(State()), JoinExchange(s, x))
    {
      rooms := Joined(rooms, ExchangeRoom(x), s);
    }

    /** `socket.on('send_message', data)` (backend/server.js:159-187): save, then broadcast. */
    method OnSendMessage(s: SessionId, data: Outbound, saveOk: bool)
      modifies this, db
      ensures State() == Handle(old(State()), SendMessage(s, data, saveOk))
    {
      if !saveOk {
        emissions := emissions + [Emission({s}, MessageError(SaveFailed))];
        return;
      }
      var m := db.AddMessage(data.exchangeId, data.senderId, data.content, data.messageType);
      var withSender := WithSender(m, data);
      emissions := emissions + [Emission(Members(rooms, ExchangeRoom(data.exchangeId)), ReceiveMessage(withSender))];
    }

    /** `socket.on('status_update', data)` (backend/server.js:190-192). */
    method OnStatusUpdate(s: SessionId, data: StatusData)
      modifies this
      ensures State() == Handle(old(State()), StatusUpdate(s, data))
    {
      emissions := emissions + [Emission(Members(rooms, ExchangeRoom(data.exchangeId)) - {s}, StatusChanged(data))];
    }
  }
}
