/** What the exchange routes promise across several calls: the ledger always
    reconciles with the balances, the guarded paths create -> decline and
    create -> accept -> complete move points without creating or destroying any,
    and the status and rate routes, having no guard against repetition, settle
    twice and accept a second rating. */
module ExchangeProperties {
  import opened Shared
  import opened Exchanges

  // ---------------------------------------------------------------- reconciliation

  /** One call of any exchange route. */
  datatype Call =
    | CreateCall(actor: UserId, req: CreateRequest)
    | AcceptCall(actor: UserId, x: ExchangeId)
    | DeclineCall(actor: UserId, x: ExchangeId)
    | MessageCall(actor: UserId, x: ExchangeId, content: string, messageType: string)
    | StatusCall(actor: UserId, x: ExchangeId, status: string)
    | RateCall(actor: UserId, x: ExchangeId, ratedUser: UserId, score: real, reviewText: string)

  function Apply(s: Store, c: Call): (r: Store)
    requires Consistent(s)
    ensures Consistent(r) && Reconciles(s, r)
  {
    match c
    case CreateCall(a, req) => CreateStep(s, a, req).post
    case AcceptCall(a, x) => AcceptStep(s, a, x).post
    case DeclineCall(a, x) => DeclineStep(s, a, x).post
    case MessageCall(a, x, content, t) => MessageStep(s, a, x, content, t).post
    case StatusCall(a, x, st) => StatusStep(s, a, x, st).post
    case RateCall(a, x, u, score, text) => RateStep(s, a, x, u, score, text).post
  }

  function Run(s: Store, calls: seq<Call>): (r: Store)
    requires Consistent(s)
    ensures Consistent(r)
    decreases |calls|
  {
    if calls == [] then s else Run(Apply(s, calls[0]), calls[1..])
  }

  /** After any sequence of route calls the ledger still only grows, no user appears
      or disappears, and every balance equals its starting value plus the net of the
      ledger entries written for that user. */
  lemma {:induction false} RunReconciles(s: Store, calls: seq<Call>)
    requires Consistent(s)
    ensures Reconciles(s, Run(s, calls))
    decreases |calls|
  {
    if calls == [] {
      assert s.ledger[|s.ledger|..] == [];
    } else {
      var t := Apply(s, calls[0]);
      RunReconciles(t, calls[1..]);
      ReconcilesTransitive(s, t, Run(s, calls));
    }
  }

  lemma FlowPair(a: Transaction, b: Transaction)
    ensures Flow([a, b]) == Signed(a) + Signed(b)
  {
    assert [a, b][..1] == [a];
    assert [a][..0] == [];
    assert Flow([a]) == Signed(a);
  }

  /** The two entries appended after a ledger l move Signed(a) + Signed(b) in total. */
  lemma FlowOfTwoAppended(l: seq<Transaction>, a: Transaction, b: Transaction)
    ensures Flow((l + [a] + [b])[|l|..]) == Signed(a) + Signed(b)
  {
    assert (l + [a] + [b])[|l|..] == [a, b];
    FlowPair(a, b);
  }

  /** What one "Completed" write by a party does, read off the status route's
      contract: the status is written and the provider is credited the price with
      one Award entry. */
  lemma CompleteEffect(s: Store, actor: UserId, x: ExchangeId)
    requires Consistent(s)
    requires x in s.exchanges && s.exchanges[x].HasParty(actor)
    ensures
      var e := s.exchanges[x];
      var r := StatusStep(s, actor, x, "Completed");
      && r.reply.Ok?
      && x in r.post.exchanges && r.post.exchanges[x] == e.(status := Completed)
      && r.post.exchanges[x].TotalCost() == e.TotalCost()
      && r.post.balances.Keys == s.balances.Keys
      && r.post.balances[e.provider] == s.balances[e.provider] + e.TotalCost()
      && (forall u :: u in s.balances && u != e.provider ==> r.post.balances[u] == s.balances[u])
      && r.post.ledger == s.ledger + [Transaction(e.provider, Award, e.TotalCost(), x)]
  {
    assert ParseStatus("Completed") == Some(Completed);
    StatusKeepsCost(s.exchanges[x], Completed);
  }

  /** What one "Cancelled" write by a party does: the status is written and the
      requester is credited the price with one Award entry. */
  lemma CancelEffect(s: Store, actor: UserId, x: ExchangeId)
    requires Consistent(s)
    requires x in s.exchanges && s.exchanges[x].HasParty(actor)
    ensures
      var e := s.exchanges[x];
      var r := StatusStep(s, actor, x, "Cancelled");
      && r.reply.Ok?
      && x in r.post.exchanges && r.post.exchanges[x] == e.(status := Cancelled)
      && r.post.exchanges[x].TotalCost() == e.TotalCost()
      && r.post.balances.Keys == s.balances.Keys
      && r.post.balances[e.requester] == s.balances[e.requester] + e.TotalCost()
      && (forall u :: u in s.balances && u != e.requester ==> r.post.balances[u] == s.balances[u])
      && r.post.ledger == s.ledger + [Transaction(e.requester, Award, e.TotalCost(), x)]
  {
    assert ParseStatus("Cancelled") == Some(Cancelled);
    StatusKeepsCost(s.exchanges[x], Cancelled);
  }

  // ---------------------------------------------------------------- guarded paths

  /** Creating an exchange and having its provider decline it gives the requester
      back exactly what was escrowed: every balance is as before, the ledger holds
      the payment and its refund, and together they move no points. */
  lemma CreateThenDeclineRestores(s: Store, actor: UserId, req: CreateRequest)
    requires Consistent(s)
    requires CreateStep(s, actor, req).reply.Ok?
    ensures
      var c := CreateStep(s, actor, req);
      var x := c.reply.value.id;
      var d := DeclineStep(c.post, req.providerId, x);
      && d.reply.Ok?
      && d.post.exchanges[x].status == Cancelled
      && d.post.balances == s.balances
      && d.post.ledger == s.ledger + [Transaction(actor, Payment, TotalPoints(req), x),
                                      Transaction(actor, Award, TotalPoints(req), x)]
      && Flow(d.post.ledger[|s.ledger|..]) == 0.0
  {
    var c := CreateStep(s, actor, req);
    var x := c.reply.value.id;
    var d := DeclineStep(c.post, req.providerId, x);
    var pay := Transaction(actor, Payment, TotalPoints(req), x);
    var refund := Transaction(actor, Award, TotalPoints(req), x);
    FlowOfTwoAppended(s.ledger, pay, refund);
    var e := c.post.exchanges[x];
    assert e.requester == actor && e.TotalCost() == TotalPoints(req);
    assert d.post.balances[actor] == c.post.balances[actor] + TotalPoints(req);
    forall u | u in s.balances
      ensures d.post.balances[u] == s.balances[u]
    {
      if u != actor {
        assert d.post.balances[u] == c.post.balances[u];
      }
    }
  }

  /** Accepting a freshly created exchange: the provider may, and the escrow stays put. */
  lemma CreateThenAccept(s: Store, actor: UserId, req: CreateRequest)
    requires Consistent(s)
    requires CreateStep(s, actor, req).reply.Ok?
    ensures
      var c := CreateStep(s, actor, req);
      var x := c.reply.value.id;
      var a := AcceptStep(c.post, req.providerId, x);
      && a.reply.Ok?
      && Consistent(a.post)
      && x in a.post.exchanges
      && a.post.exchanges[x] == c.reply.value.(status := Accepted)
      && a.post.exchanges[x].TotalCost() == TotalPoints(req)
      && a.post.balances.Keys == s.balances.Keys
      && a.post.balances[actor] == s.balances[actor] - TotalPoints(req)
      && (forall u :: u in s.balances && u != actor ==> a.post.balances[u] == s.balances[u])
      && a.post.ledger == s.ledger + [Transaction(actor, Payment, TotalPoints(req), x)]
  {
    var c := CreateStep(s, actor, req);
    StatusKeepsCost(c.reply.value, Accepted);
  }

  /** A single create -> accept -> Completed run moves the price from the requester
      to the provider: their sum is unchanged, every other balance is unchanged and
      the two ledger entries cancel out. */
  lemma CreateAcceptCompleteConserves(s: Store, actor: UserId, req: CreateRequest, completer: UserId)
    requires Consistent(s)
    requires CreateStep(s, actor, req).reply.Ok?
    requires completer == actor || completer == req.providerId
    ensures
      var c := CreateStep(s, actor, req);
      var x := c.reply.value.id;
      var a := AcceptStep(c.post, req.providerId, x);
      && a.reply.Ok?
      && StatusStep(a.post, completer, x, "Completed").reply.Ok?
      && StatusStep(a.post, completer, x, "Completed").post.exchanges[x].status == Completed
    ensures
      var c := CreateStep(s, actor, req);
      var x := c.reply.value.id;
      var a := AcceptStep(c.post, req.providerId, x);
      var f := StatusStep(a.post, completer, x, "Completed");
      var p := req.providerId;
      && f.post.balances.Keys == s.balances.Keys
      && f.post.balances[actor] == s.balances[actor] - TotalPoints(req)
      && f.post.balances[p] == s.balances[p] + TotalPoints(req)
      && f.post.balances[actor] + f.post.balances[p] == s.balances[actor] + s.balances[p]
      && (forall u :: u in s.balances && u != actor && u != p ==> f.post.balances[u] == s.balances[u])
      && Flow(f.post.ledger[|s.ledger|..]) == 0.0
  {
    var c := CreateStep(s, actor, req);
    var x := c.reply.value.id;
    var p := req.providerId;
    var cost := TotalPoints(req);
    CreateThenAccept(s, actor, req);
    var a := AcceptStep(c.post, p, x);
    CompleteEffect(a.post, completer, x);
    var f := StatusStep(a.post, completer, x, "Completed");
    var e := a.post.exchanges[x];
    assert e.provider == p && e.TotalCost() == cost;
    assert f.post.balances[p] == a.post.balances[p] + cost;
    assert f.post.balances[actor] == a.post.balances[actor];
    var pay := Transaction(actor, Payment, cost, x);
    var payout := Transaction(p, Award, cost, x);
    FlowOfTwoAppended(s.ledger, pay, payout);
  }

  // ---------------------------------------------------------------- missing guards

  /** The status route has no check of the current status: sending Completed twice
      pays the provider twice, so the ledger entries of the two calls add 2 * cost
      points that no one paid. */
  lemma RepeatedCompletionPaysTwice(s: Store, actor: UserId, x: ExchangeId)
    requires Consistent(s)
    requires x in s.exchanges && s.exchanges[x].HasParty(actor)
    ensures
      var first := StatusStep(s, actor, x, "Completed");
      first.reply.Ok? && StatusStep(first.post, actor, x, "Completed").reply.Ok?
    ensures
      var e := s.exchanges[x];
      var first := StatusStep(s, actor, x, "Completed");
      var second := StatusStep(first.post, actor, x, "Completed");
      && second.post.balances[e.provider] == s.balances[e.provider] + 2.0 * e.TotalCost()
      && second.post.balances[e.requester] == s.balances[e.requester]
      && Flow(second.post.ledger[|s.ledger|..]) == 2.0 * e.TotalCost()
  {
    var e := s.exchanges[x];
    var cost := e.TotalCost();
    CompleteEffect(s, actor, x);
    var first := StatusStep(s, actor, x, "Completed");
    CompleteEffect(first.post, actor, x);
    var second := StatusStep(first.post, actor, x, "Completed");
    assert second.post.balances[e.provider] == s.balances[e.provider] + cost + cost;
    var payout := Transaction(e.provider, Award, cost, x);
    FlowOfTwoAppended(s.ledger, payout, payout);
  }

  /** Cancelling an exchange that was already completed refunds the requester while
      the provider keeps the payout: both sides are credited the price. */
  lemma CancelAfterCompletionPaysBoth(s: Store, actor: UserId, x: ExchangeId)
    requires Consistent(s)
    requires x in s.exchanges && s.exchanges[x].HasParty(actor)
    ensures
      var e := s.exchanges[x];
      var done := StatusStep(s, actor, x, "Completed");
      var undone := StatusStep(done.post, actor, x, "Cancelled");
      && done.reply.Ok? && undone.reply.Ok?
      && undone.post.exchanges[x].status == Cancelled
      && undone.post.balances[e.provider] == s.balances[e.provider] + e.TotalCost()
      && undone.post.balances[e.requester] == s.balances[e.requester] + e.TotalCost()
  {
    CompleteEffect(s, actor, x);
    var done := StatusStep(s, actor, x, "Completed");
    CancelEffect(done.post, actor, x);
  }

  /** The rate route looks for no earlier rating: once a rating succeeds, a second one
      on the same exchange with an in-range score succeeds as well and both are stored. */
  lemma SecondRatingAccepted(s: Store, actor: UserId, x: ExchangeId, ratedUser: UserId,
                             first: real, second: real, text: string)
    requires Consistent(s)
    requires RateStep(s, actor, x, ratedUser, first, text).reply.Ok?
    requires 1.0 <= second <= 5.0
    ensures
      var r1 := RateStep(s, actor, x, ratedUser, first, text);
      var r2 := RateStep(r1.post, actor, x, ratedUser, second, text);
      && r2.reply.Ok?
      && r2.post.ratings == s.ratings + [Rating(x, actor, ratedUser, first, text),
                                         Rating(x, actor, ratedUser, second, text)]
  {
  }
}
