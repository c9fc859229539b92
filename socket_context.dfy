/** The client's socket provider: whether a socket exists, whether it is connected,
    the list of pushed notifications, and what it emits to the server. The provider's
    state is a value (Client) with one transition per event; class SocketProvider
    holds the same state cells and performs the same transitions. */
module SocketContext {
  import opened Shared
  import opened Relay

  /** A pushed notification as the client holds it; `readAt` is set when marked read. */
  datatype ClientNotification = ClientNotification(id: nat, kind: string, message: string,
                                                   isRead: bool, readAt: Option<string>)

  /** What the client emits to the server. */
  datatype Emit =
    | EmitJoin(user: UserId)
    | EmitJoinExchange(exchange: ExchangeId)
    | EmitLeaveExchange(exchange: ExchangeId)
    | EmitSendMessage(data: Outbound)
    | EmitStatusUpdate(update: StatusData)

  /** The provider's state cells and the log of what it has emitted. */
  datatype Client = Client(user: UserId, hasSocket: bool, connected: bool,
                           notifications: seq<ClientNotification>, emitted: seq<Emit>)

  /** Everything that changes the provider: socket lifecycle, socket events, and calls
      from the pages. `now` is the clock reading `markNotificationAsRead` stamps. */
  datatype ClientEvent =
    | Opened(u: UserId)
    | Closed
    | Connected
    | Disconnected
    | ConnectError
    | Pushed(n: ClientNotification)
    | JoinExchangeCall(x: ExchangeId)
    | LeaveExchangeCall(x: ExchangeId)
    | SendMessageCall(data: Outbound)
    | UpdateStatusCall(x: ExchangeId, status: string)
    | MarkReadCall(id: nat, now: string)
    | ClearCall

  /** `if (socket && connected) socket.emit(...)` */
  function Gated(c: Client, e: Emit): seq<Emit>
  {
    if c.hasSocket && c.connected then c.emitted + [e] else c.emitted
  }

  /** The `markNotificationAsRead` updater. */
  function MarkAsRead(list: seq<ClientNotification>, id: nat, now: string): (r: seq<ClientNotification>)
    ensures |r| == |list|
    ensures forall i :: 0 <= i < |list| && list[i].id == id ==>
              r[i] == list[i].(isRead := true, readAt := Some(now))
    ensures forall i :: 0 <= i < |list| && list[i].id != id ==> r[i] == list[i]
  {
    if list == [] then []
    else [if list[0].id == id then list[0].(isRead := true, readAt := Some(now)) else list[0]]
         + MarkAsRead(list[1..], id, now)
  }

  function UnreadCount(list: seq<ClientNotification>): nat
  {
    if list == [] then 0 else (if list[0].isRead then 0 else 1) + UnreadCount(list[1..])
  }

  function UnreadWithId(list: seq<ClientNotification>, id: nat): nat
  {
    if list == [] then 0
    else (if !list[0].isRead && list[0].id == id then 1 else 0) + UnreadWithId(list[1..], id)
  }

  /** Marking an id read lowers the unread count by exactly the unread entries with that
      id, and marking it again changes no flag. */
  lemma {:induction false} MarkAsReadCount(list: seq<ClientNotification>, id: nat, now: string, later: string)
    ensures UnreadCount(MarkAsRead(list, id, now)) == UnreadCount(list) - UnreadWithId(list, id)
    ensures UnreadWithId(MarkAsRead(list, id, now), id) == 0
    ensures UnreadCount(MarkAsRead(MarkAsRead(list, id, now), id, later)) == UnreadCount(MarkAsRead(list, id, now))
  {
    if list != [] {
      var r := MarkAsRead(list, id, now);
      assert r[1..] == MarkAsRead(list[1..], id, now);
      MarkAsReadCount(list[1..], id, now, later);
      assert MarkAsRead(r, id, later)[1..] == MarkAsRead(r[1..], id, later);
    }
  }

  /** One transition of the provider. A closed socket raises no events, so socket events
      on a client without a socket change nothing. */
  function Step(c: Client, ev: ClientEvent): (r: Client)
    ensures r.user != c.user ==> ev.Opened?
    ensures r.emitted != c.emitted ==> r.hasSocket && r.connected
    ensures r.notifications != c.notifications ==> ev.Pushed? || ev.MarkReadCall? || ev.ClearCall?
    ensures !r.hasSocket ==> !r.connected || !c.hasSocket
  {
    match ev
    case Opened(u) => c.(user := u, hasSocket := true, connected := false)
    case Closed => c.(hasSocket := false, connected := false)
    case Connected =>
      if c.hasSocket then c.(connected := true, emitted := c.emitted + [EmitJoin(c.user)]) else c
    case Disconnected => if c.hasSocket then c.(connected := false) else c
    case ConnectError => if c.hasSocket then c.(connected := false) else c
    case Pushed(n) => if c.hasSocket then c.(notifications := [n] + c.notifications) else c
    case JoinExchangeCall(x) => c.(emitted := Gated(c, EmitJoinExchange(x)))
    case LeaveExchangeCall(x) => c.(emitted := Gated(c, EmitLeaveExchange(x)))
    case SendMessageCall(data) => c.(emitted := Gated(c, EmitSendMessage(data)))
    case UpdateStatusCall(x, status) => c.(emitted := Gated(c, EmitStatusUpdate(StatusData(x, status))))
    case MarkReadCall(id, now) => c.(notifications := MarkAsRead(c.notifications, id, now))
    case ClearCall => c.(notifications := [])
  }

  function Run(c: Client, evs: seq<ClientEvent>): Client
    decreases |evs|
  {
    if evs == [] then c else Run(Step(c, evs[0]), evs[1..])
  }

  /** A connected provider always has a socket. */
  ghost predicate Valid(c: Client)
  {
    c.connected ==> c.hasSocket
  }

  // ---------------------------------------------------------------- what the provider promises

  lemma StepKeepsValid(c: Client, ev: ClientEvent)
    requires Valid(c)
    ensures Valid(Step(c, ev))
    ensures Step(c, ev).emitted[..|c.emitted|] == c.emitted
  {
  }

  /** A pushed notification goes to the front: one more entry, the rest unchanged. */
  lemma PushPrepends(c: Client, n: ClientNotification)
    requires c.hasSocket
    ensures var r := Step(c, Pushed(n)).notifications;
      |r| == |c.notifications| + 1 && r[0] == n && r[1..] == c.notifications
  {
  }

  /** `connect` marks the provider connected and joins the user's room; `disconnect`
      and `connect_error` mark it disconnected. */
  lemma ConnectionFlag(c: Client)
    requires c.hasSocket
    ensures Step(c, Connected).connected && Step(c, Connected).emitted == c.emitted + [EmitJoin(c.user)]
    ensures !Step(c, Disconnected).connected && !Step(c, ConnectError).connected
  {
  }

  /** The four page calls emit nothing unless a socket exists and is connected. */
  lemma CallsNeedConnection(c: Client, ev: ClientEvent)
    requires ev.JoinExchangeCall? || ev.LeaveExchangeCall? || ev.SendMessageCall? || ev.UpdateStatusCall?
    ensures Step(c, ev).emitted == c.emitted <==> !(c.hasSocket && c.connected)
  {
  }

  /** A provider that is not connected emits nothing until a `connect` event arrives. */
  lemma {:induction false} SilentUntilConnected(c: Client, evs: seq<ClientEvent>)
    requires !c.connected
    requires forall i :: 0 <= i < |evs| ==> !evs[i].Connected?
    ensures Run(c, evs).emitted == c.emitted
    decreases |evs|
  {
    if evs != [] {
      assert forall i :: 0 <= i < |evs[1..]| ==> evs[1..][i] == evs[i + 1];
      SilentUntilConnected(Step(c, evs[0]), evs[1..]);
    }
  }

  /** `clearNotifications` empties the list. */
  lemma ClearEmpties(c: Client)
    ensures Step(c, ClearCall).notifications == []
  {
  }

  // ---------------------------------------------------------------- the provider

  class SocketProvider {
    var user: UserId
    var hasSocket: bool
    var connected: bool
    var notifications: seq<ClientNotification>
    var emitted: seq<Emit>

    function State(): Client
      reads this
    {
      Client(user, hasSocket, connected, notifications, emitted)
    }

    constructor ()
      ensures State() == Client("", false, false, [], [])
    {
      user, hasSocket, connected, notifications, emitted := "", false, false, [], [];
    }

    /** The effect for an authenticated user: create the socket (not yet connected). */
    method Open(u: UserId)
      modifies this
      ensures State() == Step(old(State()), Opened(u))
    {
      user, hasSocket, connected := u, true, false;
    }

    /** The effect's cleanup, or logout: close the socket. */
    method Close()
      modifies this
      ensures State() == Step(old(State()), Closed)
    {
      hasSocket, connected := false, false;
    }

    /** `newSocket.on('connect')` (client/src/contexts/SocketContext.js:31-37). */
    method OnConnect()
      modifies this
      ensures State() == Step(old(State()), Connected)
    {
      if hasSocket {
        connected := true;
        emitted := emitted + [EmitJoin(user)];
      }
    }

    /** `disconnect` and `connect_error` (client/src/contexts/SocketContext.js:39-47). */
    method OnDisconnect()
      modifies this
      ensures State() == Step(old(State()), Disconnected)
      ensures State() == Step(old(State()), ConnectError)
    {
      if hasSocket {
        connected := false;
      }
    }

    /** `newSocket.on('notification')` (client/src/contexts/SocketContext.js:50-53). */
    method OnNotification(n: ClientNotification)
      modifies this
      ensures State() == Step(old(State()), Pushed(n))
    {
      if hasSocket {
        notifications := [n] + notifications;
      }
    }

    /** `joinExchange`, `leaveExchange`, `sendMessage`, `updateExchangeStatus`
        (client/src/contexts/SocketContext.js:85-107). */
    method Call(ev: ClientEvent)
      requires ev.JoinExchangeCall? || ev.LeaveExchangeCall? || ev.SendMessageCall? || ev.UpdateStatusCall?
      modifies this
      ensures State() == Step(old(State()), ev)
    {
      if hasSocket && connected {
        var e := match ev
          case JoinExchangeCall(x) => EmitJoinExchange(x)
          case LeaveExchangeCall(x) => EmitLeaveExchange(x)
          case SendMessageCall(data) => EmitSendMessage(data)
          case UpdateStatusCall(x, status) => EmitStatusUpdate(StatusData(x, status));
        emitted := emitted + [e];
      }
    }

    /** `markNotificationAsRead` (client/src/contexts/SocketContext.js:109-117). */
    method MarkNotificationAsRead(id: nat, now: string)
      modifies this
      ensures State() == Step(old(State()), MarkReadCall(id, now))
    {
      notifications := MarkAsRead(notifications, id, now);
    }

    /** `clearNotifications` (client/src/contexts/SocketContext.js:119-121). */
    method ClearNotifications()
      modifies this
      ensures State() == Step(old(State()), ClearCall)
    {
      notifications := [];
    }
  }
}
