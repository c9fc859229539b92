/** The exchange routes: create, my-exchanges, get, accept, decline, message,
    status and rate, over a store holding exchanges, point balances, the
    append-only points ledger, messages, ratings, stored average ratings and the
    notifications the handlers hand to the notification service.

    Each handler is specified twice: a pure step function from the store before
    to the reply and the store after (the functions below), and a method of
    class Engine that performs the handler's writes one after another in the
    route's order and is proved to reach the step function's result. */
module Exchanges {
  import opened Shared

  // ---------------------------------------------------------------- data

  datatype TxKind = Payment | Award

  /** One entry of the ledger: `deductPoints` writes a Payment, `awardPoints` an Award. */
  datatype Transaction = Transaction(user: UserId, kind: TxKind, amount: real, exchange: ExchangeId)

  /** The notification service call a handler makes; payload wording is not modelled. */
  datatype NoticeKind =
    | PointsDeducted | NewExchangeRequest | ExchangeAccepted | ExchangeDeclined
    | PointsAwarded | ExchangeStatusChange | NewRating

  datatype Notice = Notice(user: UserId, kind: NoticeKind, exchange: ExchangeId)

  datatype Exchange = Exchange(
    id: ExchangeId,
    requester: UserId,
    provider: UserId,
    skillId: string,
    skill: string,
    skillLevel: string,
    description: string,
    sessionType: string,
    hourlyRate: real,
    scheduledDate: string,
    durationHours: real,
    isMutualExchange: bool,
    status: Status)
  {
    /** `exchange.hourlyRate * exchange.durationHours`, the amount every refund and payout uses. */
    function TotalCost(): real
    {
      hourlyRate * durationHours
    }

    predicate HasParty(u: UserId)
    {
      u == requester || u == provider
    }

    /** `exchange.requesterID === u ? exchange.providerID : exchange.requesterID` */
    function Counterpart(u: UserId): (r: UserId)
      ensures u == requester ==> r == provider
      ensures u != requester ==> r == requester
      ensures HasParty(u) ==> HasParty(r) && (requester != provider ==> r != u)
    {
      if requester == u then provider else requester
    }
  }

  /** Writing a status keeps the price: the fields it is computed from are untouched.
      Stated once here so that proofs about several steps need not redo the product. */
  lemma StatusKeepsCost(e: Exchange, st: Status)
    ensures e.(status := st).TotalCost() == e.TotalCost()
  {
  }

  datatype Rating = Rating(exchange: ExchangeId, rater: UserId, ratedUser: UserId,
                           score: real, reviewText: string)

  /** The body of POST /create. Missing strings are "", a missing number is 0. */
  datatype CreateRequest = CreateRequest(
    providerId: UserId,
    skillId: string,
    skill: string,
    skillLevel: string,
    description: string,
    sessionType: string,
    hourlyRate: real,
    scheduledDate: string,
    durationHours: real,
    isMutualExchange: bool)

  datatype Error =
    | MissingFields
    | ProviderNotFound
    | SelfExchange
    | InsufficientPoints(needed: real, available: real)
    | ExchangeNotFound
    | Forbidden
    | NotPending
    | InvalidStatus
    | NotCompleted
    | InvalidTarget
    | InvalidScore
    | EmptyContent
    | Internal

  /** The HTTP status each error is sent with. */
  function HttpStatus(e: Error): nat
  {
    match e
    case ProviderNotFound => 404
    case ExchangeNotFound => 404
    case Forbidden => 403
    case Internal => 500
    case _ => 400
  }

  /** Everything the handlers read or write. */
  datatype Store = Store(
    exchanges: map<ExchangeId, Exchange>,
    nextExchangeId: ExchangeId,
    balances: map<UserId, real>,
    ledger: seq<Transaction>,
    messages: seq<Message>,
    nextMessageId: MessageId,
    ratings: seq<Rating>,
    averageRating: map<UserId, real>,
    notices: seq<Notice>)

  datatype Step<T> = Step(reply: Result<T, Error>, post: Store)

  /** What GET /:id returns: the exchange with its messages and ratings. */
  datatype Detail = Detail(exchange: Exchange, messages: seq<Message>, ratings: seq<Rating>)

  ghost predicate WellFormedExchange(s: Store, x: ExchangeId)
    requires x in s.exchanges
  {
    var e := s.exchanges[x];
    && x < s.nextExchangeId
    && e.id == x
    && e.requester in s.balances
    && e.provider in s.balances
    && e.requester != e.provider
  }

  /** Message ids increase along the list and all lie below `bound`. */
  ghost predicate IdsBelow(ms: seq<Message>, bound: MessageId)
  {
    ms == [] || (ms[|ms| - 1].id < bound && IdsBelow(ms[..|ms| - 1], ms[|ms| - 1].id))
  }

  lemma {:induction false} IdsBelowIncreasing(ms: seq<Message>, bound: MessageId)
    requires IdsBelow(ms, bound)
    ensures forall i :: 0 <= i < |ms| ==> ms[i].id < bound
    ensures forall i, j :: 0 <= i < j < |ms| ==> ms[i].id < ms[j].id
  {
    if ms != [] {
      var n := |ms| - 1;
      IdsBelowIncreasing(ms[..n], ms[n].id);
      assert forall i :: 0 <= i < n ==> ms[i] == ms[..n][i];
    }
  }

  /** Every rating's score lies in [1, 5]. */
  ghost predicate ScoresValid(rs: seq<Rating>)
  {
    rs == [] || (1.0 <= rs[|rs| - 1].score <= 5.0 && ScoresValid(rs[..|rs| - 1]))
  }

  /** The store invariant every handler keeps: exchange ids are below the counter and
      both parties are known, distinct users; message ids increase in creation order
      and stay below the counter; every stored score lies in [1, 5]. */
  ghost predicate Consistent(s: Store)
  {
    && (forall x :: x in s.exchanges ==> WellFormedExchange(s, x))
    && IdsBelow(s.messages, s.nextMessageId)
    && ScoresValid(s.ratings)
  }

  // ---------------------------------------------------------------- ledger

  /** How much a ledger entry moves user u's balance. */
  function Delta(t: Transaction, u: UserId): real
  {
    if t.user != u then 0.0 else if t.kind == Payment then -t.amount else t.amount
  }

  /** The net effect of a run of ledger entries on user u. */
  function Net(entries: seq<Transaction>, u: UserId): real
  {
    if entries == [] then 0.0
    else Net(entries[..|entries| - 1], u) + Delta(entries[|entries| - 1], u)
  }

  /** How much a ledger entry moves the sum of all balances. */
  function Signed(t: Transaction): real
  {
    if t.kind == Payment then -t.amount else t.amount
  }

  /** The net effect of a run of ledger entries on all users together. */
  function Flow(entries: seq<Transaction>): real
  {
    if entries == [] then 0.0 else Flow(entries[..|entries| - 1]) + Signed(entries[|entries| - 1])
  }

  /** t extends s's ledger and every balance moved by exactly the entries appended:
      the ledger reconciles with the balances across the step. */
  ghost predicate Reconciles(s: Store, t: Store)
  {
    && s.ledger <= t.ledger
    && s.balances.Keys == t.balances.Keys
    && forall u :: u in s.balances ==>
         u in t.balances && t.balances[u] == s.balances[u] + Net(t.ledger[|s.ledger|..], u)
  }

  lemma NetSingle(t: Transaction, u: UserId)
    ensures Net([t], u) == Delta(t, u)
  {
    assert [t][..0] == [];
  }

  /** Appending one entry and moving its user's balance by that entry reconciles. */
  lemma SingleEntryReconciles(s: Store, r: Store, t: Transaction)
    requires t.user in s.balances
    requires r.ledger == s.ledger + [t]
    requires r.balances == s.balances[t.user := s.balances[t.user] + Delta(t, t.user)]
    ensures Reconciles(s, r)
  {
    assert r.ledger[|s.ledger|..] == [t];
    forall v | v in s.balances
      ensures v in r.balances && r.balances[v] == s.balances[v] + Net(r.ledger[|s.ledger|..], v)
    {
      NetSingle(t, v);
    }
  }

  lemma {:induction false} NetConcat(a: seq<Transaction>, b: seq<Transaction>, u: UserId)
    ensures Net(a + b, u) == Net(a, u) + Net(b, u)
  {
    if b != [] {
      var b' := b[..|b| - 1];
      assert (a + b)[..|a + b| - 1] == a + b';
      NetConcat(a, b', u);
    } else {
      assert a + b == a;
    }
  }

  lemma ReconcilesTransitive(a: Store, b: Store, c: Store)
    requires Reconciles(a, b) && Reconciles(b, c)
    ensures Reconciles(a, c)
  {
    assert c.ledger[|a.ledger|..] == b.ledger[|a.ledger|..] + c.ledger[|b.ledger|..];
    forall u | u in a.balances
      ensures u in c.balances && c.balances[u] == a.balances[u] + Net(c.ledger[|a.ledger|..], u)
    {
      NetConcat(b.ledger[|a.ledger|..], c.ledger[|b.ledger|..], u);
    }
  }

  /** Appending no entry and leaving every balance alone reconciles. */
  lemma NoEntryReconciles(s: Store, r: Store)
    requires r.ledger == s.ledger && r.balances == s.balances
    ensures Reconciles(s, r)
  {
    assert r.ledger[|s.ledger|..] == [];
  }

  /** A change that leaves the exchanges, the set of users, the messages and the ratings
      alone keeps the store invariant. */
  lemma ConsistentFrame(s: Store, r: Store)
    requires Consistent(s)
    requires r.exchanges == s.exchanges && r.nextExchangeId == s.nextExchangeId
    requires r.balances.Keys == s.balances.Keys
    requires r.messages == s.messages && r.nextMessageId == s.nextMessageId && r.ratings == s.ratings
    ensures Consistent(r)
  {
    assert forall x :: x in r.exchanges ==> WellFormedExchange(s, x);
  }

  /** `database.deductPoints(u, amount, 'Payment', reason, x)` */
  function Debit(s: Store, u: UserId, amount: real, x: ExchangeId): Store
    requires u in s.balances
  {
    s.(balances := s.balances[u := s.balances[u] - amount],
       ledger := s.ledger + [Transaction(u, Payment, amount, x)])
  }

  /** `database.awardPoints(u, amount, 'Award', reason, x)` */
  function Credit(s: Store, u: UserId, amount: real, x: ExchangeId): Store
    requires u in s.balances
  {
    s.(balances := s.balances[u := s.balances[u] + amount],
       ledger := s.ledger + [Transaction(u, Award, amount, x)])
  }

  /** A call into the notification service. */
  function Notify(s: Store, u: UserId, kind: NoticeKind, x: ExchangeId): Store
  {
    s.(notices := s.notices + [Notice(u, kind, x)])
  }

  // ---------------------------------------------------------------- create

  predicate HasRequiredFields(req: CreateRequest)
  {
    req.providerId != "" && req.skillId != "" && req.skill != ""
  }

  /** `durationHours || 1.0` */
  function DurationOrDefault(d: real): (r: real)
    ensures r != 0.0
    ensures d != 0.0 ==> r == d
  {
    if d == 0.0 then 1.0 else d
  }

  /** `value || fallback` on a string. */
  function OrDefault(value: string, fallback: string): (r: string)
    ensures value != "" ==> r == value
    ensures value == "" ==> r == fallback
  {
    if value == "" then fallback else value
  }

  /** `(hourlyRate || 0) * (durationHours || 1.0)` */
  function TotalPoints(req: CreateRequest): real
  {
    req.hourlyRate * DurationOrDefault(req.durationHours)
  }

  /** The exchange record `database.createExchange` stores. */
  function NewExchange(id: ExchangeId, actor: UserId, req: CreateRequest): (x: Exchange)
    ensures x.id == id && x.requester == actor && x.provider == req.providerId
    ensures x.status == Pending
    ensures x.TotalCost() == TotalPoints(req)
    ensures x.skillId == req.skillId && x.skill == req.skill && x.description == req.description
    ensures x.skillLevel == OrDefault(req.skillLevel, "Beginner")
    ensures x.sessionType == OrDefault(req.sessionType, "Exchange")
    ensures x.hourlyRate == req.hourlyRate && x.durationHours == DurationOrDefault(req.durationHours)
    ensures x.isMutualExchange == req.isMutualExchange
  {
    Exchange(id, actor, req.providerId, req.skillId, req.skill,
             OrDefault(req.skillLevel, "Beginner"), req.description,
             OrDefault(req.sessionType, "Exchange"), req.hourlyRate, req.scheduledDate,
             DurationOrDefault(req.durationHours), req.isMutualExchange, Pending)
  }

  /** The guards of POST /create that come before the balance check. */
  predicate CreateAdmissible(s: Store, actor: UserId, req: CreateRequest)
  {
    && HasRequiredFields(req)
    && req.providerId in s.balances
    && actor != req.providerId
    && actor in s.balances
  }

  /** POST /create (routes/exchanges.js:32-131). */
  function CreateStep(s: Store, actor: UserId, req: CreateRequest): (r: Step<Exchange>)
    requires Consistent(s)
    ensures Consistent(r.post) && Reconciles(s, r.post)
    ensures r.reply.Err? ==> r.post == s
    ensures !HasRequiredFields(req) ==> r.reply == Err(MissingFields)
    ensures HasRequiredFields(req) && req.providerId !in s.balances ==> r.reply == Err(ProviderNotFound)
    ensures HasRequiredFields(req) && req.providerId in s.balances && actor == req.providerId ==>
              r.reply == Err(SelfExchange)
    ensures CreateAdmissible(s, actor, req) && s.balances[actor] < TotalPoints(req) ==>
              r.reply == Err(InsufficientPoints(TotalPoints(req), s.balances[actor]))
    ensures r.reply.Ok? <==> CreateAdmissible(s, actor, req) && s.balances[actor] >= TotalPoints(req)
    ensures r.reply.Ok? ==>
              var x := r.reply.value;
              && x == NewExchange(s.nextExchangeId, actor, req)
              && x.id !in s.exchanges
              && r.post.exchanges == s.exchanges[x.id := x]
              && r.post.balances == s.balances[actor := s.balances[actor] - TotalPoints(req)]
              && r.post.ledger == s.ledger + [Transaction(actor, Payment, TotalPoints(req), x.id)]
              && r.post.notices == s.notices + [Notice(actor, PointsDeducted, x.id),
                                                Notice(req.providerId, NewExchangeRequest, x.id)]
              && r.post.messages == s.messages && r.post.ratings == s.ratings
              && r.post.averageRating == s.averageRating
  {
    if !HasRequiredFields(req) then Step(Err(MissingFields), s)
    else if req.providerId !in s.balances then Step(Err(ProviderNotFound), s)
    else if actor == req.providerId then Step(Err(SelfExchange), s)
    // the requester's record is read next; a missing one makes the handler throw
    else if actor !in s.balances then Step(Err(Internal), s)
    else if s.balances[actor] < TotalPoints(req) then
      Step(Err(InsufficientPoints(TotalPoints(req), s.balances[actor])), s)
    else
      var x := NewExchange(s.nextExchangeId, actor, req);
      var s1 := s.(exchanges := s.exchanges[x.id := x], nextExchangeId := s.nextExchangeId + 1);
      assert Consistent(s1) by {
        assert forall y :: y in s1.exchanges && y != x.id ==> WellFormedExchange(s, y);
      }
      var s2 := Debit(s1, actor, TotalPoints(req), x.id);
      var s3 := Notify(s2, actor, PointsDeducted, x.id);
      var s4 := Notify(s3, req.providerId, NewExchangeRequest, x.id);
      ConsistentFrame(s1, s4);
      SingleEntryReconciles(s, s4, Transaction(actor, Payment, TotalPoints(req), x.id));
      assert s4.notices == s.notices + [Notice(actor, PointsDeducted, x.id),
                                        Notice(req.providerId, NewExchangeRequest, x.id)];
      Step(Ok(x), s4)
  }

  // ---------------------------------------------------------------- accept / decline

  /** Writing a status over an existing exchange keeps the store invariant and moves no points. */
  lemma StatusWriteKeeps(s: Store, x: ExchangeId, st: Status)
    requires Consistent(s) && x in s.exchanges
    ensures Consistent(s.(exchanges := s.exchanges[x := s.exchanges[x].(status := st)]))
  {
    var r := s.(exchanges := s.exchanges[x := s.exchanges[x].(status := st)]);
    assert forall y :: y in r.exchanges && y != x ==> WellFormedExchange(s, y);
  }

  /** The guards shared by accept and decline: the exchange exists, the actor is its
      provider and it is still pending. */
  predicate ProviderMayRespond(s: Store, actor: UserId, x: ExchangeId)
  {
    x in s.exchanges && s.exchanges[x].provider == actor && s.exchanges[x].status == Pending
  }

  /** PUT /:id/accept (routes/exchanges.js:198-248). */
  function AcceptStep(s: Store, actor: UserId, x: ExchangeId): (r: Step<Exchange>)
    requires Consistent(s)
    ensures Consistent(r.post) && Reconciles(s, r.post)
    ensures r.reply.Err? ==> r.post == s
    ensures x !in s.exchanges ==> r.reply == Err(ExchangeNotFound)
    ensures x in s.exchanges && s.exchanges[x].provider != actor ==> r.reply == Err(Forbidden)
    ensures x in s.exchanges && s.exchanges[x].provider == actor && s.exchanges[x].status != Pending ==>
              r.reply == Err(NotPending)
    ensures r.reply.Ok? <==> ProviderMayRespond(s, actor, x)
    ensures r.reply.Ok? ==>
              && r.reply.value == s.exchanges[x].(status := Accepted)
              && r.post.exchanges == s.exchanges[x := r.reply.value]
              && r.post.balances == s.balances
              && r.post.ledger == s.ledger
              && r.post.notices == s.notices + [Notice(s.exchanges[x].requester, ExchangeAccepted, x)]
  {
    if x !in s.exchanges then Step(Err(ExchangeNotFound), s)
    else
      var e := s.exchanges[x];
      if e.provider != actor then Step(Err(Forbidden), s)
      else if e.status != Pending then Step(Err(NotPending), s)
      else
        var e' := e.(status := Accepted);
        var s1 := s.(exchanges := s.exchanges[x := e']);
        StatusWriteKeeps(s, x, Accepted);
        var t := Notify(s1, e.requester, ExchangeAccepted, x);
        ConsistentFrame(s1, t);
        NoEntryReconciles(s, t);
        Step(Ok(e'), t)
  }

  /** PUT /:id/decline (routes/exchanges.js:251-318). */
  function DeclineStep(s: Store, actor: UserId, x: ExchangeId): (r: Step<Exchange>)
    requires Consistent(s)
    ensures Consistent(r.post) && Reconciles(s, r.post)
    ensures r.reply.Err? ==> r.post == s
    ensures x !in s.exchanges ==> r.reply == Err(ExchangeNotFound)
    ensures x in s.exchanges && s.exchanges[x].provider != actor ==> r.reply == Err(Forbidden)
    ensures x in s.exchanges && s.exchanges[x].provider == actor && s.exchanges[x].status != Pending ==>
              r.reply == Err(NotPending)
    ensures r.reply.Ok? <==> ProviderMayRespond(s, actor, x)
    ensures r.reply.Ok? ==>
              var e := s.exchanges[x];
              && r.reply.value == e.(status := Cancelled)
              && r.post.exchanges == s.exchanges[x := r.reply.value]
              && r.post.balances == s.balances[e.requester := s.balances[e.requester] + e.TotalCost()]
              && r.post.ledger == s.ledger + [Transaction(e.requester, Award, e.TotalCost(), x)]
              && r.post.notices == s.notices + [Notice(e.requester, PointsAwarded, x),
                                                Notice(e.requester, ExchangeDeclined, x)]
  {
    if x !in s.exchanges then Step(Err(ExchangeNotFound), s)
    else
      var e := s.exchanges[x];
      if e.provider != actor then Step(Err(Forbidden), s)
      else if e.status != Pending then Step(Err(NotPending), s)
      else
        var e' := e.(status := Cancelled);
        var s1 := s.(exchanges := s.exchanges[x := e']);
        StatusWriteKeeps(s, x, Cancelled);
        var s2 := Credit(s1, e.requester, e.TotalCost(), x);
        var s3 := Notify(s2, e.requester, PointsAwarded, x);
        var s4 := Notify(s3, e.requester, ExchangeDeclined, x);
        ConsistentFrame(s1, s4);
        SingleEntryReconciles(s, s4, Transaction(e.requester, Award, e.TotalCost(), x));
        assert s4.notices == s.notices + [Notice(e.requester, PointsAwarded, x),
                                          Notice(e.requester, ExchangeDeclined, x)];
        Step(Ok(e'), s4)
  }

  // ---------------------------------------------------------------- get / list

  /** The messages of one exchange, in the order they were stored. */
  function MessagesOf(ms: seq<Message>, x: ExchangeId): (r: seq<Message>)
    ensures |r| <= |ms|
    ensures forall m :: m in r <==> m in ms && m.exchangeId == x
  {
    if ms == [] then []
    else
      var rest := MessagesOf(ms[..|ms| - 1], x);
      var last := ms[|ms| - 1];
      assert ms == ms[..|ms| - 1] + [last];
      if last.exchangeId == x then rest + [last] else rest
  }

  /** The ratings of one exchange, in the order they were stored. */
  function RatingsOf(rs: seq<Rating>, x: ExchangeId): (r: seq<Rating>)
    ensures |r| <= |rs|
    ensures forall g :: g in r <==> g in rs && g.exchange == x
  {
    if rs == [] then []
    else
      var rest := RatingsOf(rs[..|rs| - 1], x);
      var last := rs[|rs| - 1];
      assert rs == rs[..|rs| - 1] + [last];
      if last.exchange == x then rest + [last] else rest
  }

  /** GET /:id (routes/exchanges.js:153-195). */
  function GetDetail(s: Store, actor: UserId, x: ExchangeId): (r: Result<Detail, Error>)
    ensures x !in s.exchanges ==> r == Err(ExchangeNotFound)
    ensures x in s.exchanges && !s.exchanges[x].HasParty(actor) ==> r == Err(Forbidden)
    ensures r.Ok? <==> x in s.exchanges && s.exchanges[x].HasParty(actor)
    ensures r.Ok? ==>
              && r.value.exchange == s.exchanges[x]
              && (forall m :: m in r.value.messages <==> m in s.messages && m.exchangeId == x)
              && (forall g :: g in r.value.ratings <==> g in s.ratings && g.exchange == x)
  {
    if x !in s.exchanges then Err(ExchangeNotFound)
    else if !s.exchanges[x].HasParty(actor) then Err(Forbidden)
    else Ok(Detail(s.exchanges[x], MessagesOf(s.messages, x), RatingsOf(s.ratings, x)))
  }

  /** The exchanges with ids below n in which actor takes part, in id order. */
  function PartyExchanges(exs: map<ExchangeId, Exchange>, actor: UserId, n: nat): (r: seq<Exchange>)
    ensures forall e :: e in r ==> e in exs.Values && e.HasParty(actor)
    ensures forall x :: 0 <= x < n && x in exs && exs[x].HasParty(actor) ==> exs[x] in r
  {
    if n == 0 then []
    else
      var rest := PartyExchanges(exs, actor, n - 1);
      if n - 1 in exs && exs[n - 1].HasParty(actor) then rest + [exs[n - 1]] else rest
  }

  /** GET /my-exchanges (routes/exchanges.js:134-150): every exchange the actor is a party to. */
  function MyExchanges(s: Store, actor: UserId): (r: seq<Exchange>)
    requires Consistent(s)
    ensures forall e :: e in r ==> e in s.exchanges.Values && e.HasParty(actor)
    ensures forall x :: x in s.exchanges && s.exchanges[x].HasParty(actor) ==> s.exchanges[x] in r
  {
    assert forall x :: x in s.exchanges ==> WellFormedExchange(s, x);
    PartyExchanges(s.exchanges, actor, s.nextExchangeId)
  }

  // ---------------------------------------------------------------- message

  /** `database.addMessage`: the row goes to the one message table that the message
      route and the socket relay both write, under the next id, with type `text` when
      none is given. Only the message table changes. */
  function WithMessage(s: Store, x: ExchangeId, sender: UserId, content: string, messageType: string)
    : (r: Store)
    ensures |r.messages| == |s.messages| + 1 && r.messages[..|s.messages|] == s.messages
    ensures r.messages[|s.messages|]
              == Message(s.nextMessageId, x, sender, content, MessageTypeOrDefault(messageType))
    ensures r == s.(messages := r.messages, nextMessageId := s.nextMessageId + 1)
    ensures Reconciles(s, r)
    ensures Consistent(s) ==> Consistent(r)
    ensures Consistent(s) ==> forall i :: 0 <= i < |s.messages| ==> s.messages[i].id < r.messages[|s.messages|].id
  {
    var m := Message(s.nextMessageId, x, sender, content, MessageTypeOrDefault(messageType));
    var t := s.(messages := s.messages + [m], nextMessageId := s.nextMessageId + 1);
    assert t.messages[..|s.messages|] == s.messages;
    NoEntryReconciles(s, t);
    assert Consistent(s) ==> Consistent(t) && forall i :: 0 <= i < |s.messages| ==> s.messages[i].id < m.id by {
      if Consistent(s) {
        IdsBelowIncreasing(s.messages, s.nextMessageId);
        assert forall y :: y in t.exchanges ==> WellFormedExchange(s, y);
      }
    }
    t
  }

  /** POST /:id/message (routes/exchanges.js:321-378). */
  function MessageStep(s: Store, actor: UserId, x: ExchangeId, content: string, messageType: string)
    : (r: Step<Message>)
    requires Consistent(s)
    ensures Consistent(r.post) && Reconciles(s, r.post)
    ensures r.reply.Err? ==> r.post == s
    ensures x !in s.exchanges ==> r.reply == Err(ExchangeNotFound)
    ensures x in s.exchanges && !s.exchanges[x].HasParty(actor) ==> r.reply == Err(Forbidden)
    ensures x in s.exchanges && s.exchanges[x].HasParty(actor) && content == "" ==> r.reply == Err(EmptyContent)
    ensures r.reply.Ok? <==> x in s.exchanges && s.exchanges[x].HasParty(actor) && content != ""
    ensures r.reply.Ok? ==>
              var m := r.reply.value;
              && m == Message(s.nextMessageId, x, actor, content, MessageTypeOrDefault(messageType))
              && (forall i :: 0 <= i < |s.messages| ==> s.messages[i].id < m.id)
              && r.post == s.(messages := s.messages + [m], nextMessageId := s.nextMessageId + 1)
  {
    if x !in s.exchanges then Step(Err(ExchangeNotFound), s)
    else if !s.exchanges[x].HasParty(actor) then Step(Err(Forbidden), s)
    else if content == "" then Step(Err(EmptyContent), s)
    else
      var t := WithMessage(s, x, actor, content, messageType);
      assert t.messages == s.messages + [t.messages[|s.messages|]];
      Step(Ok(t.messages[|s.messages|]), t)
  }

  // ---------------------------------------------------------------- status

  /** One `if (status === ...)` block of the status route: award the price to u and
      tell u about it. */
  function Payout(s: Store, u: UserId, amount: real, x: ExchangeId): (r: Store)
    requires u in s.balances
    ensures r.balances == s.balances[u := s.balances[u] + amount]
    ensures r.ledger == s.ledger + [Transaction(u, Award, amount, x)]
    ensures r.notices == s.notices + [Notice(u, PointsAwarded, x)]
    ensures r == s.(balances := r.balances, ledger := r.ledger, notices := r.notices)
  {
    Notify(Credit(s, u, amount, x), u, PointsAwarded, x)
  }

  /** Whom a status write pays: the provider on Completed, the requester on Cancelled,
      nobody otherwise (the two `if (status === ...)` blocks of the status route). */
  function Payee(e: Exchange, st: Status): (r: Option<UserId>)
    ensures st == Completed ==> r == Some(e.provider)
    ensures st == Cancelled ==> r == Some(e.requester)
    ensures r.Some? <==> st == Completed || st == Cancelled
  {
    if st == Completed then Some(e.provider)
    else if st == Cancelled then Some(e.requester)
    else None
  }

  /** PUT /:id/status (routes/exchanges.js:381-472). The route never looks at the
      current status: any of the five statuses is written over any other, and every
      write of Completed or Cancelled pays out again. */
  function StatusStep(s: Store, actor: UserId, x: ExchangeId, text: string): (r: Step<Exchange>)
    requires Consistent(s)
    ensures Consistent(r.post) && Reconciles(s, r.post)
    ensures r.reply.Err? ==> r.post == s
    ensures x !in s.exchanges ==> r.reply == Err(ExchangeNotFound)
    ensures x in s.exchanges && !s.exchanges[x].HasParty(actor) ==> r.reply == Err(Forbidden)
    ensures x in s.exchanges && s.exchanges[x].HasParty(actor) && ParseStatus(text).None? ==>
              r.reply == Err(InvalidStatus)
    ensures r.reply.Ok? <==> x in s.exchanges && s.exchanges[x].HasParty(actor) && ParseStatus(text).Some?
    ensures r.reply.Ok? ==>
              var e := s.exchanges[x];
              var st := ParseStatus(text).value;
              var change := Notice(e.Counterpart(actor), ExchangeStatusChange, x);
              && r.reply.value == e.(status := st)
              && r.post.exchanges == s.exchanges[x := r.reply.value]
              && r.post.messages == s.messages && r.post.ratings == s.ratings
              && match Payee(e, st)
                 case None =>
                   && r.post.balances == s.balances && r.post.ledger == s.ledger
                   && r.post.notices == s.notices + [change]
                 case Some(u) =>
                   && u in s.balances
                   && r.post.balances == s.balances[u := s.balances[u] + e.TotalCost()]
                   && r.post.ledger == s.ledger + [Transaction(u, Award, e.TotalCost(), x)]
                   && r.post.notices == s.notices + [Notice(u, PointsAwarded, x), change]
  {
    if x !in s.exchanges then Step(Err(ExchangeNotFound), s)
    else
      var e := s.exchanges[x];
      if !e.HasParty(actor) then Step(Err(Forbidden), s)
      else if ParseStatus(text).None? then Step(Err(InvalidStatus), s)
      else
        var st := ParseStatus(text).value;
        var e' := e.(status := st);
        var s1 := s.(exchanges := s.exchanges[x := e']);
        StatusWriteKeeps(s, x, st);
        var s2 := if Payee(e, st).Some? then Payout(s1, Payee(e, st).value, e.TotalCost(), x) else s1;
        var t := Notify(s2, e.Counterpart(actor), ExchangeStatusChange, x);
        ConsistentFrame(s1, t);
        if Payee(e, st).Some? then
          var u := Payee(e, st).value;
          SingleEntryReconciles(s, t, Transaction(u, Award, e.TotalCost(), x));
          assert t.notices == s.notices + [Notice(u, PointsAwarded, x), Notice(e.Counterpart(actor), ExchangeStatusChange, x)];
          Step(Ok(e'), t)
        else
          NoEntryReconciles(s, t);
          Step(Ok(e'), t)
  }

  // ---------------------------------------------------------------- rate

  /** The scores every rating of user u carries, in the order they were stored
      (`database.getUserRatings(u)` mapped to `r.score`). */
  function ScoresOf(rs: seq<Rating>, u: UserId): (r: seq<real>)
    ensures |r| <= |rs|
  {
    if rs == [] then []
    else
      var last := rs[|rs| - 1];
      ScoresOf(rs[..|rs| - 1], u) + (if last.ratedUser == u then [last.score] else [])
  }

  lemma {:induction false} ScoresInRange(rs: seq<Rating>, u: UserId)
    requires ScoresValid(rs)
    ensures forall i :: 0 <= i < |ScoresOf(rs, u)| ==> 1.0 <= ScoresOf(rs, u)[i] <= 5.0
  {
    if rs != [] {
      ScoresInRange(rs[..|rs| - 1], u);
    }
  }

  lemma ScoresOfAppend(rs: seq<Rating>, g: Rating)
    ensures ScoresOf(rs + [g], g.ratedUser) == ScoresOf(rs, g.ratedUser) + [g.score]
  {
    assert (rs + [g])[..|rs|] == rs;
  }

  /** POST /:id/rate (routes/exchanges.js:475-554). The checks run in the order
      requester, completed, target, score; nothing looks for an earlier rating. */
  function RateStep(s: Store, actor: UserId, x: ExchangeId, ratedUser: UserId, score: real, reviewText: string)
    : (r: Step<Rating>)
    requires Consistent(s)
    ensures Consistent(r.post) && Reconciles(s, r.post)
    ensures r.reply.Err? ==> r.post == s
    ensures x !in s.exchanges ==> r.reply == Err(ExchangeNotFound)
    ensures x in s.exchanges && s.exchanges[x].requester != actor ==> r.reply == Err(Forbidden)
    ensures x in s.exchanges && s.exchanges[x].requester == actor && s.exchanges[x].status != Completed ==>
              r.reply == Err(NotCompleted)
    ensures (x in s.exchanges && s.exchanges[x].requester == actor && s.exchanges[x].status == Completed
             && ratedUser != s.exchanges[x].provider) ==> r.reply == Err(InvalidTarget)
    ensures r.reply.Ok? <==>
              && x in s.exchanges && s.exchanges[x].requester == actor
              && s.exchanges[x].status == Completed && ratedUser == s.exchanges[x].provider
              && 1.0 <= score <= 5.0
    ensures r.reply.Ok? ==>
              && r.reply.value == Rating(x, actor, ratedUser, score, reviewText)
              && r.post.ratings == s.ratings + [r.reply.value]
              && |ScoresOf(r.post.ratings, ratedUser)| > 0
              && ratedUser in r.post.averageRating
              && r.post.averageRating == s.averageRating[ratedUser := Mean(ScoresOf(r.post.ratings, ratedUser))]
              && 1.0 <= r.post.averageRating[ratedUser] <= 5.0
              && r.post.balances == s.balances && r.post.exchanges == s.exchanges
              && r.post.notices == s.notices + [Notice(ratedUser, NewRating, x)]
  {
    if x !in s.exchanges then Step(Err(ExchangeNotFound), s)
    else
      var e := s.exchanges[x];
      if e.requester != actor then Step(Err(Forbidden), s)
      else if e.status != Completed then Step(Err(NotCompleted), s)
      else if ratedUser != e.provider then Step(Err(InvalidTarget), s)
      else if !(1.0 <= score <= 5.0) then Step(Err(InvalidScore), s)
      else
        var g := Rating(x, actor, ratedUser, score, reviewText);
        var rs := s.ratings + [g];
        var avg := Mean(ScoresOf(rs, ratedUser));
        var t' := Notify(s.(ratings := rs, averageRating := s.averageRating[ratedUser := avg]),
                         ratedUser, NewRating, x);
        RatingKeeps(s, g, t');
        Step(Ok(g), t')
  }

  /** Storing a rating with a score in [1, 5], the recomputed average and a notice keeps
      the store invariant, moves no points, and gives an average in [1, 5]. */
  lemma RatingKeeps(s: Store, g: Rating, t: Store)
    requires Consistent(s) && 1.0 <= g.score <= 5.0
    requires t == s.(ratings := s.ratings + [g],
                     averageRating := s.averageRating[g.ratedUser := Mean(ScoresOf(s.ratings + [g], g.ratedUser))],
                     notices := s.notices + [Notice(g.ratedUser, NewRating, g.exchange)])
    ensures Consistent(t) && Reconciles(s, t)
    ensures |ScoresOf(t.ratings, g.ratedUser)| > 0
    ensures 1.0 <= t.averageRating[g.ratedUser] <= 5.0
  {
    var rs := s.ratings + [g];
    assert rs[..|s.ratings|] == s.ratings;
    ScoresOfAppend(s.ratings, g);
    ScoresInRange(rs, g.ratedUser);
    MeanBounds(ScoresOf(rs, g.ratedUser), 1.0, 5.0);
    assert forall y :: y in t.exchanges ==> WellFormedExchange(s, y);
    NoEntryReconciles(s, t);
  }

  // ---------------------------------------------------------------- the engine

  /** The route handlers over mutable state. */
  class Engine {
    var exchanges: map<ExchangeId, Exchange>
    var nextExchangeId: ExchangeId
    var balances: map<UserId, real>
    var ledger: seq<Transaction>
    var messages: seq<Message>
    var nextMessageId: MessageId
    var ratings: seq<Rating>
    var averageRating: map<UserId, real>
    var notices: seq<Notice>

    function State(): Store
      reads this
    {
      Store(exchanges, nextExchangeId, balances, ledger, messages, nextMessageId,
            ratings, averageRating, notices)
    }

    ghost predicate Valid()
      reads this
    {
      Consistent(State())
    }

    /** A store with the given registered users and balances and nothing else. */
    constructor (users: map<UserId, real>)
      ensures Valid()
      ensures State() == Store(map[], 0, users, [], [], 0, [], map[], [])
    {
      exchanges, nextExchangeId := map[], 0;
      balances, ledger := users, [];
      messages, nextMessageId := [], 0;
      ratings, averageRating := [], map[];
      notices := [];
    }

    method DeductPoints(u: UserId, amount: real, x: ExchangeId)
      requires u in balances
      modifies this
      ensures State() == Debit(old(State()), u, amount, x)
    {
      balances := balances[u := balances[u] - amount];
      ledger := ledger + [Transaction(u, Payment, amount, x)];
    }

    method AwardPoints(u: UserId, amount: real, x: ExchangeId)
      requires u in balances
      modifies this
      ensures State() == Credit(old(State()), u, amount, x)
    {
      balances := balances[u := balances[u] + amount];
      ledger := ledger + [Transaction(u, Award, amount, x)];
    }

    method SendNotice(u: UserId, kind: NoticeKind, x: ExchangeId)
      modifies this
      ensures State() == Notify(old(State()), u, kind, x)
    {
      notices := notices + [Notice(u, kind, x)];
    }

    method Create(actor: UserId, req: CreateRequest) returns (reply: Result<Exchange, Error>)
      requires Valid()
      modifies this
      ensures Valid()
      ensures Step(reply, State()) == CreateStep(old(State()), actor, req)
    {
      if !HasRequiredFields(req) {
        return Err(MissingFields);
      }
      if req.providerId !in balances {
        return Err(ProviderNotFound);
      }
      if actor == req.providerId {
        return Err(SelfExchange);
      }
      var totalPoints := TotalPoints(req);
      if actor !in balances {
        return Err(Internal);
      }
      if balances[actor] < totalPoints {
        return Err(InsufficientPoints(totalPoints, balances[actor]));
      }
      var exchange := NewExchange(nextExchangeId, actor, req);
      ghost var s1 := State().(exchanges := exchanges[exchange.id := exchange],
                               nextExchangeId := nextExchangeId + 1);
      exchanges := exchanges[exchange.id := exchange];
      nextExchangeId := nextExchangeId + 1;
      assert State() == s1;
      DeductPoints(actor, totalPoints, exchange.id);
      SendNotice(actor, PointsDeducted, exchange.id);
      SendNotice(req.providerId, NewExchangeRequest, exchange.id);
      reply := Ok(exchange);
      assert State() == Notify(Notify(Debit(s1, actor, totalPoints, exchange.id), actor, PointsDeducted, exchange.id),
                               req.providerId, NewExchangeRequest, exchange.id);
    }

    method Accept(actor: UserId, x: ExchangeId) returns (reply: Result<Exchange, Error>)
      requires Valid()
      modifies this
      ensures Valid()
      ensures Step(reply, State()) == AcceptStep(old(State()), actor, x)
    {
      if x !in exchanges {
        return Err(ExchangeNotFound);
      }
      var exchange := exchanges[x];
      if exchange.provider != actor {
        return Err(Forbidden);
      }
      if exchange.status != Pending {
        return Err(NotPending);
      }
      var updated := exchange.(status := Accepted);
      exchanges := exchanges[x := updated];
      SendNotice(exchange.requester, ExchangeAccepted, x);
      reply := Ok(updated);
    }

    method Decline(actor: UserId, x: ExchangeId) returns (reply: Result<Exchange, Error>)
      requires Valid()
      modifies this
      ensures Valid()
      ensures Step(reply, State()) == DeclineStep(old(State()), actor, x)
    {
      if x !in exchanges {
        return Err(ExchangeNotFound);
      }
      var exchange := exchanges[x];
      if exchange.provider != actor {
        return Err(Forbidden);
      }
      if exchange.status != Pending {
        return Err(NotPending);
      }
      var updated := exchange.(status := Cancelled);
      exchanges := exchanges[x := updated];
      AwardPoints(exchange.requester, exchange.TotalCost(), x);
      SendNotice(exchange.requester, PointsAwarded, x);
      SendNotice(exchange.requester, ExchangeDeclined, x);
      reply := Ok(updated);
    }

    function Get(actor: UserId, x: ExchangeId): (r: Result<Detail, Error>)
      reads this
      ensures r.Ok? <==> x in exchanges && exchanges[x].HasParty(actor)
      ensures r.Ok? ==> r.value.exchange == exchanges[x]
    {
      GetDetail(State(), actor, x)
    }

    function Mine(actor: UserId): (r: seq<Exchange>)
      reads this
      requires Valid()
      ensures forall e :: e in r ==> e in exchanges.Values && e.HasParty(actor)
      ensures forall x :: x in exchanges && exchanges[x].HasParty(actor) ==> exchanges[x] in r
    {
      MyExchanges(State(), actor)
    }

    method SendMessage(actor: UserId, x: ExchangeId, content: string, messageType: string)
      returns (reply: Result<Message, Error>)
      requires Valid()
      modifies this
      ensures Valid()
      ensures Step(reply, State()) == MessageStep(old(State()), actor, x, content, messageType)
    {
      if x !in exchanges {
        return Err(ExchangeNotFound);
      }
      var exchange := exchanges[x];
      if !exchange.HasParty(actor) {
        return Err(Forbidden);
      }
      if content == "" {
        return Err(EmptyContent);
      }
      var message := AddMessage(x, actor, content, messageType);
      reply := Ok(message);
    }

    /** `database.addMessage`, called by the message route and the socket relay alike. */
    method AddMessage(x: ExchangeId, sender: UserId, content: string, messageType: string)
      returns (m: Message)
      modifies this
      ensures State() == WithMessage(old(State()), x, sender, content, messageType)
      ensures m == State().messages[|old(messages)|]
    {
      m := Message(nextMessageId, x, sender, content, MessageTypeOrDefault(messageType));
      messages := messages + [m];
      nextMessageId := nextMessageId + 1;
    }

    method UpdateStatus(actor: UserId, x: ExchangeId, text: string) returns (reply: Result<Exchange, Error>)
      requires Valid()
      modifies this
      ensures Valid()
      ensures Step(reply, State()) == StatusStep(old(State()), actor, x, text)
    {
      if x !in exchanges {
        return Err(ExchangeNotFound);
      }
      var exchange := exchanges[x];
      if !exchange.HasParty(actor) {
        return Err(Forbidden);
      }
      var parsed := ParseStatus(text);
      if parsed.None? {
        return Err(InvalidStatus);
      }
      var status := parsed.value;
      var updated := exchange.(status := status);
      ghost var s0 := State();
      assert WellFormedExchange(s0, x);
      ghost var s1 := s0.(exchanges := exchanges[x := updated]);
      exchanges := exchanges[x := updated];
      assert State() == s1;
      if status == Completed {
        AwardPoints(exchange.provider, exchange.TotalCost(), x);
        SendNotice(exchange.provider, PointsAwarded, x);
        assert State() == Payout(s1, exchange.provider, exchange.TotalCost(), x);
      }
      if status == Cancelled {
        AwardPoints(exchange.requester, exchange.TotalCost(), x);
        SendNotice(exchange.requester, PointsAwarded, x);
        assert State() == Payout(s1, exchange.requester, exchange.TotalCost(), x);
      }
      ghost var s2 := if Payee(exchange, status).Some?
                       then Payout(s1, Payee(exchange, status).value, exchange.TotalCost(), x)
                       else s1;
      assert State() == s2;
      SendNotice(exchange.Counterpart(actor), ExchangeStatusChange, x);
      reply := Ok(updated);
      assert StatusStep(s0, actor, x, text) == Step(reply, Notify(s2, exchange.Counterpart(actor), ExchangeStatusChange, x));
    }

    method Rate(actor: UserId, x: ExchangeId, ratedUser: UserId, score: real, reviewText: string)
      returns (reply: Result<Rating, Error>)
      requires Valid()
      modifies this
      ensures Valid()
      ensures Step(reply, State()) == RateStep(old(State()), actor, x, ratedUser, score, reviewText)
    {
      if x !in exchanges {
        return Err(ExchangeNotFound);
      }
      var exchange := exchanges[x];
      if exchange.requester != actor {
        return Err(Forbidden);
      }
      if exchange.status != Completed {
        return Err(NotCompleted);
      }
      if ratedUser != exchange.provider {
        return Err(InvalidTarget);
      }
      if !(1.0 <= score <= 5.0) {
        return Err(InvalidScore);
      }
      var rating := Rating(x, actor, ratedUser, score, reviewText);
      ratings := ratings + [rating];
      ScoresOfAppend(old(ratings), rating);
      var average := Mean(ScoresOf(ratings, ratedUser));
      averageRating := averageRating[ratedUser := average];
      SendNotice(ratedUser, NewRating, x);
      reply := Ok(rating);
    }
  }
}
