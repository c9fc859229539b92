/** The exchange details page: its message list merges real-time messages with
    de-duplication by id, it decides who the other party is and whether the viewer
    may rate, and it offers status buttons that call the status route. The page's
    state cells are the fields of class Page. */
module ExchangeDetails {
  import opened Shared
  import opened Exchanges
  import opened Relay

  // ---------------------------------------------------------------- the message list

  predicate HasId(list: seq<Message>, id: MessageId)
  {
    exists i :: 0 <= i < |list| && list[i].id == id
  }

  /** The `handleNewMessage` updater: a message of another exchange, or one whose id
      is already listed, leaves the list alone; any other is appended at the end. */
  function MergeMessage(list: seq<Message>, pageId: ExchangeId, m: Message): seq<Message>
  {
    if m.exchangeId != pageId || HasId(list, m.id) then list else list + [m]
  }

  ghost predicate UniqueIds(list: seq<Message>)
  {
    forall i, j :: 0 <= i < j < |list| ==> list[i].id != list[j].id
  }

  /** Delivering the same message twice is the same as delivering it once. */
  lemma MergeIdempotent(list: seq<Message>, pageId: ExchangeId, m: Message)
    ensures MergeMessage(MergeMessage(list, pageId, m), pageId, m) == MergeMessage(list, pageId, m)
  {
    var r := MergeMessage(list, pageId, m);
    if m.exchangeId == pageId && !HasId(list, m.id) {
      assert r[|list|].id == m.id;
    }
  }

  /** Merging keeps the listed ids distinct. */
  lemma MergeKeepsUnique(list: seq<Message>, pageId: ExchangeId, m: Message)
    requires UniqueIds(list)
    ensures UniqueIds(MergeMessage(list, pageId, m))
  {
  }

  /** Merging a stream of messages, one `newMessage` event at a time. */
  function MergeAll(list: seq<Message>, pageId: ExchangeId, incoming: seq<Message>): seq<Message>
    decreases |incoming|
  {
    if incoming == [] then list
    else MergeAll(MergeMessage(list, pageId, incoming[0]), pageId, incoming[1..])
  }

  /** Whatever arrives, the list keeps distinct ids, keeps what it had in front, and
      holds only messages of the page's exchange beyond what it started with. */
  lemma {:induction false} MergeAllKeeps(list: seq<Message>, pageId: ExchangeId, incoming: seq<Message>)
    requires UniqueIds(list)
    ensures var r := MergeAll(list, pageId, incoming);
      && UniqueIds(r)
      && |list| <= |r| && r[..|list|] == list
      && forall i :: |list| <= i < |r| ==> r[i].exchangeId == pageId && r[i] in incoming
    decreases |incoming|
  {
    if incoming != [] {
      var next := MergeMessage(list, pageId, incoming[0]);
      MergeKeepsUnique(list, pageId, incoming[0]);
      MergeAllKeeps(next, pageId, incoming[1..]);
      var r := MergeAll(next, pageId, incoming[1..]);
      assert r[..|list|] == r[..|next|][..|list|];
      forall i | |list| <= i < |r|
        ensures r[i].exchangeId == pageId && r[i] in incoming
      {
        if i >= |next| {
          assert r[i] in incoming[1..];
        } else {
          assert r[i] == next[i] == incoming[0];
        }
      }
    }
  }

  /** `handleSendMessage`: the page posts the text to the message route and, once that
      succeeds, sends it over the socket, whose handler saves it again. Both saves go
      to the one message table, so the two rows get different ids; a reload lists both,
      and the broadcast copy is merged as a new message beside the route's copy. */
  lemma SendTwiceStoresBoth(s: Store, rooms: map<Room, set<SessionId>>, emissions: seq<Emission>,
                            actor: UserId, x: ExchangeId, content: string, session: SessionId,
                            name: string, picture: string)
    requires Consistent(s)
    ensures var step := MessageStep(s, actor, x, content, "text");
      step.reply.Ok? ==>
        var routeCopy := step.reply.value;
        var r := Handle(Hub(rooms, step.post, emissions),
                        SendMessage(session, Outbound(x, actor, content, "text", name, picture), true));
        var socketCopy := r.db.messages[|step.post.messages|];
        && socketCopy.content == routeCopy.content && socketCopy.senderId == routeCopy.senderId
        && socketCopy.exchangeId == routeCopy.exchangeId
        && socketCopy.id != routeCopy.id
        && GetDetail(r.db, actor, x).Ok?
        && routeCopy in GetDetail(r.db, actor, x).value.messages
        && socketCopy in GetDetail(r.db, actor, x).value.messages
        && MergeMessage([routeCopy], x, socketCopy) == [routeCopy, socketCopy]
  {
    var step := MessageStep(s, actor, x, content, "text");
    if step.reply.Ok? {
      var routeCopy := step.reply.value;
      var r := Handle(Hub(rooms, step.post, emissions),
                      SendMessage(session, Outbound(x, actor, content, "text", name, picture), true));
      var socketCopy := r.db.messages[|step.post.messages|];
      assert routeCopy == step.post.messages[|s.messages|];
      assert routeCopy in r.db.messages by {
        assert r.db.messages[..|step.post.messages|] == step.post.messages;
        assert r.db.messages[|s.messages|] == routeCopy;
      }
      assert [routeCopy][0].id != socketCopy.id;
      assert !HasId([routeCopy], socketCopy.id);
    }
  }

  // ---------------------------------------------------------------- who is who

  /** `canRate`: the exchange is completed and the viewer is its requester. */
  predicate CanRate(e: Exchange, viewer: UserId): (r: bool)
    ensures r ==> e.HasParty(viewer) && e.Counterpart(viewer) == e.provider
  {
    e.status == Completed && e.requester == viewer
  }

  /** The id the rating is sent for and `otherUser`: the party that is not the viewer
      when the viewer is the requester, else the requester. */
  function OtherUser(e: Exchange, viewer: UserId): (r: UserId)
    ensures viewer == e.requester ==> r == e.provider
    ensures viewer == e.provider && viewer != e.requester ==> r == e.requester
    ensures e.HasParty(r)
  {
    e.Counterpart(viewer)
  }

  /** When the page offers rating, the rating it sends passes every check of the rate
      route for any score from 1 to 5; when it does not, the rate route refuses every
      rating the viewer could send. */
  lemma CanRateMatchesRateRoute(s: Store, viewer: UserId, x: ExchangeId, score: real, text: string)
    requires Consistent(s) && x in s.exchanges
    ensures CanRate(s.exchanges[x], viewer) && 1.0 <= score <= 5.0 ==>
              RateStep(s, viewer, x, OtherUser(s.exchanges[x], viewer), score, text).reply.Ok?
    ensures !CanRate(s.exchanges[x], viewer) ==>
              forall target :: !RateStep(s, viewer, x, target, score, text).reply.Ok?
  {
  }

  // ---------------------------------------------------------------- status buttons

  datatype Button = AcceptButton | DeclineButton | StartButton | CompleteButton | RateButton

  /** The buttons shown in the page header. */
  function Buttons(e: Exchange, viewer: UserId): (r: set<Button>)
    ensures AcceptButton in r <==> e.status == Pending && e.provider == viewer
    ensures DeclineButton in r <==> e.status == Pending && e.provider == viewer
    ensures StartButton in r <==> e.status == Accepted
    ensures CompleteButton in r <==> e.status == InProgress
    ensures RateButton in r <==> CanRate(e, viewer)
  {
    (if e.status == Pending && e.provider == viewer then {AcceptButton, DeclineButton} else {})
    + (if e.status == Accepted then {StartButton} else {})
    + (if e.status == InProgress then {CompleteButton} else {})
    + (if CanRate(e, viewer) then {RateButton} else {})
  }

  /** The status each button sends to the status route; the rate button opens a dialog. */
  function Target(b: Button): (r: Option<Status>)
    ensures r.None? <==> b == RateButton
  {
    match b
    case AcceptButton => Some(Accepted)
    case DeclineButton => Some(Cancelled)
    case StartButton => Some(InProgress)
    case CompleteButton => Some(Completed)
    case RateButton => None
  }

  /** Each status button moves the exchange one step forward along
      Pending, Accepted, In Progress, Completed, or from Pending to Cancelled. */
  lemma ButtonsMoveForward(e: Exchange, viewer: UserId, b: Button)
    requires b in Buttons(e, viewer) && b != RateButton
    ensures var st := Target(b).value;
      || (e.status == Pending && (st == Accepted || st == Cancelled))
      || (e.status == Accepted && st == InProgress)
      || (e.status == InProgress && st == Completed)
  {
  }

  /** A shown status button, pressed by a party, is accepted by the status route and
      sets exactly the status it names. */
  lemma ButtonPressSucceeds(s: Store, viewer: UserId, x: ExchangeId, b: Button)
    requires Consistent(s) && x in s.exchanges && s.exchanges[x].HasParty(viewer)
    requires b in Buttons(s.exchanges[x], viewer) && b != RateButton
    ensures var r := StatusStep(s, viewer, x, StatusName(Target(b).value));
      r.reply.Ok? && r.reply.value == s.exchanges[x].(status := Target(b).value)
  {
    ParseStatusName(Target(b).value);
  }

  /** The page's Decline button goes through the status route, not the decline route,
      yet settles the same way: the requester gets the price back with one Award entry. */
  lemma DeclineButtonSettlesLikeDeclineRoute(s: Store, viewer: UserId, x: ExchangeId)
    requires Consistent(s) && x in s.exchanges
    requires DeclineButton in Buttons(s.exchanges[x], viewer)
    ensures var viaStatus := StatusStep(s, viewer, x, StatusName(Cancelled));
      var viaRoute := DeclineStep(s, viewer, x);
      && viaStatus.reply.Ok? && viaRoute.reply.Ok?
      && viaStatus.reply == viaRoute.reply
      && viaStatus.post.balances == viaRoute.post.balances
      && viaStatus.post.ledger == viaRoute.post.ledger
  {
    ParseStatusName(Cancelled);
  }

  /** `getStatusColor`: one colour per status, "default" for anything else. */
  function StatusColor(text: string): (r: string)
    ensures r == "default" <==> ParseStatus(text).None?
  {
    match ParseStatus(text)
    case Some(Pending) => "warning"
    case Some(Accepted) => "success"
    case Some(InProgress) => "info"
    case Some(Completed) => "primary"
    case Some(Cancelled) => "error"
    case None => "default"
  }

  /** Different statuses get different colours. */
  lemma StatusColorDistinct(a: Status, b: Status)
    requires a != b
    ensures StatusColor(StatusName(a)) != StatusColor(StatusName(b))
  {
    ParseStatusName(a);
    ParseStatusName(b);
  }

  // ---------------------------------------------------------------- the page's state cells

  class Page {
    const pageId: ExchangeId
    var exchange: Option<Exchange>
    var messages: seq<Message>

    constructor (id: ExchangeId)
      ensures pageId == id && exchange == None && messages == []
    {
      pageId, exchange, messages := id, None, [];
    }

    /** `fetchExchangeDetails` on success: `setExchange`, `setMessages(messages || [])`. */
    method OnLoaded(d: Detail)
      modifies this
      ensures exchange == Some(d.exchange) && messages == d.messages
    {
      exchange := Some(d.exchange);
      messages := d.messages;
    }

    /** `handleNewMessage` (client/src/pages/ExchangeDetails.js:64-76). */
    method OnNewMessage(m: Message)
      modifies this
      ensures messages == MergeMessage(old(messages), pageId, m)
      ensures exchange == old(exchange)
    {
      if m.exchangeId == pageId && !HasId(messages, m.id) {
        messages := messages + [m];
      }
    }

    /** `handleStatusChange`: the local copy takes the new status once the route answers. */
    method OnStatusChanged(st: Status, routeOk: bool)
      modifies this
      ensures exchange == if routeOk && old(exchange).Some? then Some(old(exchange).value.(status := st)) else old(exchange)
      ensures messages == old(messages)
    {
      if routeOk && exchange.Some? {
        exchange := Some(exchange.value.(status := st));
      }
    }
  }
}
