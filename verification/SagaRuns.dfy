/**
  Runs that go through to a decoded answer: they end CONFIRMED with 201 or FAILED with
  402, for exactly the orders that can be charged at all.
 */
module SagaRuns {
  import opened Wrappers
  import opened Payments
  import opened Orders
  import opened OrderSaga
  import opened SagaLimits
  import P = PaymentProtocol
  import PI = PaymentInvariant
  import SI = SagaInvariant
  import ST = SagaTheorems

  /** The gateway answers, the result is saved, and the response goes out. */
  lemma CallAndSave(retries: int, polly: nat, acts: seq<Action>, h: nat, env: Envelope, row: Payment, g: GatewayResult)
      returns (later: seq<Action>, reply: P.Reply)
    requires Legal(retries, polly, acts)
    requires var pay := Run(retries, polly, acts).pay;
      h in pay.handlers && pay.handlers[h] == P.Handler(env, P.Inserted(row))
    requires RowFits(Settle(row, Returned(g)))
    ensures OnlyPayMoved(retries, polly, acts, later) && reply in Run(retries, polly, later).pay.replies
    ensures reply == P.Reply(KeyOf(env), if g.approved then 200 else 402, Settle(row, Returned(g)))
  {
    later := PayStep(retries, polly, acts, P.CallGateway(h));
    later := PayStep(retries, polly, later, P.GatewayReturn(h, Returned(g)));
    later := PayStep(retries, polly, later, P.Save(h, P.Committed));
    var paid := Settle(row, Returned(g));
    reply := P.Reply(KeyOf(env), HttpStatus(paid.status), paid);
  }

  /** The order is stored, charged, and answered with what the gateway said. */
  lemma Answered(retries: int, polly: nat, order: Order, g: GatewayResult) returns (acts: seq<Action>, reply: P.Reply)
    requires CanBeStored(order) && order.totalCents >= 1 && retries >= 0
    requires FitsIn(g.transactionId, 100) && FitsIn(g.declineReason, 255)
    ensures Legal(retries, polly, acts)
    ensures var s := Run(retries, polly, acts);
      && s.tables == WithOrder(Tables(map[], map[]), order)
      && s.calls == map[order.id := OrderCall(Charging, Some(order), 1)] && reply in s.pay.replies
    ensures reply.key == Canonical(order.id) && reply.status == if g.approved then 200 else 402
    ensures reply.payment.status == if g.approved then Succeeded else Declined
  {
    var env := ChargeFor(order);
    acts := Sent(retries, polly, order);
    var h, row;
    acts, h, row := ArriveAndInsert(retries, polly, acts, env, order.id);
    SettledFits(row, Returned(g));
    acts, reply := CallAndSave(retries, polly, acts, h, env, row, g);
  }

  /** ... and order-service acts on the answer. */
  lemma Decided(retries: int, polly: nat, order: Order, g: GatewayResult) returns (acts: seq<Action>, reply: P.Reply)
    requires CanBeStored(order) && order.totalCents >= 1 && retries >= 0
    requires FitsIn(g.transactionId, 100) && FitsIn(g.declineReason, 255)
    ensures Legal(retries, polly, acts) && Decide(order.id, Some(reply)) in acts
    ensures var s := Run(retries, polly, acts);
      && s.calls == map[order.id := OrderCall(Done(if g.approved then 201 else 402), Some(order), 1)]
      && order.id in s.tables.orders
      && s.tables.orders[order.id].status == if g.approved then OrderConfirmed else OrderFailed
  {
    acts, reply := Answered(retries, polly, order, g);
    ghost var n := |acts|;
    acts := Extend(retries, polly, acts, Decide(order.id, Some(reply)));
    acts := Extend(retries, polly, acts, UpdateStatus(order.id, P.Committed));
    assert acts[n] == Decide(order.id, Some(reply));
  }

  /** A row under an order's key takes an order of at least a cent, and a request. */
  lemma RowNeedsCharge(s: State, id: nat, p: nat)
    requires SI.Inv(s) && In(s, id) && p in s.pay.payments && s.pay.payments[p].key == Canonical(id)
    ensures s.calls[id].order.Some? && s.calls[id].order.value.totalCents >= 1 && s.retries >= 0
  {
    SI.RowIsOfOrder(s, id, p);
    assert PI.HasOrigin(s.pay, s.pay.payments[p]);
    assert SI.CallWellFormed(s.retries, id, s.calls[id]);
  }

  /** The run leaves this order stored as CONFIRMED and answered with 201. */
  predicate LeavesConfirmed(retries: int, polly: nat, acts: seq<Action>, order: Order) {
    && Legal(retries, polly, acts)
    && var s, id := Run(retries, polly, acts), order.id;
      && In(s, id) && s.calls[id].order == Some(order) && s.calls[id].stage == Done(201)
      && id in s.tables.orders && s.tables.orders[id].status.OrderConfirmed?
  }

  /** Some run confirms an order if and only if it can be stored, is worth at least a
      cent, and order-service is set to make an attempt. */
  lemma ConfirmedExactlyWhen(retries: int, polly: nat, order: Order)
    ensures (exists acts :: LeavesConfirmed(retries, polly, acts, order)) <==>
              CanBeStored(order) && order.totalCents >= 1 && retries >= 0
  {
    if acts :| LeavesConfirmed(retries, polly, acts, order) {
      StoredCanBeStored(retries, polly, acts, order);
      ST.ConfirmedMeansPaid(retries, polly, acts, order.id);
      ST.RunInv(retries, polly, acts);
      var s := Run(retries, polly, acts);
      var p :| p in s.pay.payments && SI.PaidBy(s.pay.payments[p], order);
      RowNeedsCharge(s, order.id, p);
    }
    if CanBeStored(order) && order.totalCents >= 1 && retries >= 0 {
      var acts, reply := Decided(retries, polly, order, GatewayResult(true, Some("txn"), None));
      assert LeavesConfirmed(retries, polly, acts, order);
    }
  }

  /** The same orders, and no others, can be FAILED by a decoded answer. */
  lemma DeclinedExactlyWhen(retries: int, polly: nat, order: Order)
    ensures (exists acts, r :: FailedBy(retries, polly, acts, order, Some(r))) <==>
              CanBeStored(order) && order.totalCents >= 1 && retries >= 0
  {
    if acts, r :| FailedBy(retries, polly, acts, order, Some(r)) {
      StoredCanBeStored(retries, polly, acts, order);
      var n :| 0 <= n < |acts| && acts[n] == Decide(order.id, Some(r));
      ST.DecodedRow(retries, polly, acts, n, order.id, r);
      ST.RunInv(retries, polly, acts);
      RowNeedsCharge(Run(retries, polly, acts), order.id, r.payment.id);
    }
    if CanBeStored(order) && order.totalCents >= 1 && retries >= 0 {
      var acts, reply := Decided(retries, polly, order, GatewayResult(false, None, Some("declined")));
      assert FailedBy(retries, polly, acts, order, Some(reply));
    }
  }
}
