/** What every action of the saga keeps. */
module SagaInvariant {
  import opened Wrappers
  import opened Payments
  import opened Orders
  import opened OrderSaga
  import P = PaymentProtocol
  import PI = PaymentInvariant

  predicate HasOrder(c: OrderCall) {
    c.stage.Priced? || c.stage.Persisted? || c.stage.Charging? || c.stage.Decided?
  }

  predicate IsRefused(c: OrderCall) {
    c.stage.Done? && IsRefusal(c.stage.http)
  }

  /** CreateOrder has not reached repo.Create, and never will if it is done. */
  predicate Unpersisted(c: OrderCall) {
    c.stage.Begun? || c.stage.Priced? || IsRefused(c)
  }

  /** The status column has, or may have, been written. */
  predicate StatusWritten(c: OrderCall) {
    c.stage.Done? && c.stage.http in {201, 402}
  }

  predicate CallWellFormed(retries: int, id: nat, c: OrderCall) {
    && (HasOrder(c) ==> c.order.Some?)
    && (c.order.Some? ==> IsPricedOrder(id, c.order.value))
    && (c.sends > 0 ==> c.sends <= retries + 1)
    && (c.stage.Decided? ==> c.stage.final in {OrderConfirmed, OrderFailed})
    && (c.stage.Done? ==> IsRefusal(c.stage.http) || c.stage.http in {201, 402, 500})
  }

  predicate CallsWellFormed(s: State) {
    forall id :: id in s.calls ==> CallWellFormed(s.retries, id, s.calls[id])
  }

  /** The tables as far as this call has got. */
  predicate CallMatchesTables(s: State, id: nat, c: OrderCall) {
    && (Unpersisted(c) ==> id !in s.tables.orders)
    && (c.stage.Persisted? || c.stage.Charging? || c.stage.Decided? || StatusWritten(c) || c.sends > 0 ==>
         id in s.tables.orders)
    && (id in s.tables.orders ==>
         || s.tables.orders[id].status.OrderPending?
         || (StatusWritten(c)
             && s.tables.orders[id].status == if c.stage.http == 201 then OrderConfirmed else OrderFailed))
  }

  predicate CallsMatchTables(s: State) {
    forall id :: id in s.calls ==> CallMatchesTables(s, id, s.calls[id])
  }

  /** Everything in a stored order but its status is what the pricing loop made. */
  predicate RowMatchesOrder(t: Tables, id: nat, o: Order) {
    && id in t.orders
    && t.orders[id] == RowOf(o).(status := t.orders[id].status)
    && OrderRowAllowed(RowOf(o))
    && (forall i :: 0 <= i < |o.items| ==> ItemRowAllowed(ItemRowOf(o.id, o.items[i])))
    && (forall i, j :: 0 <= i < j < |o.items| ==> o.items[i].id != o.items[j].id)
    && ItemRowsOf(t, id) == ItemRowsFor(o)
  }

  lemma RowMatchesHolds(t: Tables, o: Order)
    requires RowMatchesOrder(t, o.id, o)
    ensures HoldsOrder(t, o)
  {
    InsertedRowsHold(t, o);
  }

  predicate RowsFollowOrders(s: State) {
    && ItemsBelong(s.tables)
    && forall id :: id in s.tables.orders ==>
         id in s.calls && s.calls[id].order.Some? && RowMatchesOrder(s.tables, id, s.calls[id].order.value)
  }

  /** A charge under an order id is the charge of that order, and the order was
      committed before. */
  predicate RequestsBelong(s: State) {
    forall env, id | env in s.pay.requests && id in s.calls && KeyOf(env) == Canonical(id) ::
      && s.calls[id].order.Some? && env == ChargeFor(s.calls[id].order.value)
      && id in s.tables.orders && s.calls[id].sends > 0
  }

  /** The payment of this order succeeded, for exactly its total. */
  predicate PaidBy(row: Payment, o: Order) {
    && row.key == Canonical(o.id) && row.orderId == o.id && row.userId == o.userId
    && row.amountCents == o.totalCents && row.currency == o.currency == "USD" && row.status.Succeeded?
  }

  ghost predicate Paid(pay: P.State, o: Order) {
    exists p :: p in pay.payments && PaidBy(pay.payments[p], o)
  }

  predicate SaysConfirmed(s: State, id: nat, c: OrderCall) {
    || c.stage == Decided(OrderConfirmed) || c.stage == Done(201)
    || (id in s.tables.orders && s.tables.orders[id].status.OrderConfirmed?)
  }

  ghost predicate ConfirmedIsPaid(s: State) {
    forall id :: id in s.calls && SaysConfirmed(s, id, s.calls[id]) ==>
      s.calls[id].order.Some? && Paid(s.pay, s.calls[id].order.value)
  }

  ghost predicate Inv(s: State) {
    && PI.Inv(s.pay)
    && CallsWellFormed(s)
    && CallsMatchTables(s)
    && RowsFollowOrders(s)
    && RequestsBelong(s)
    && ConfirmedIsPaid(s)
  }

  lemma InitInv(retries: int, polly: nat)
    ensures Inv(Init(retries, polly))
  {
    PI.InitInv(polly);
  }

  // ---------------------------------------------------------------------------

  lemma PaidStays(s: P.State, t: P.State, o: Order)
    requires PI.Keeps(s, t) && Paid(s, o)
    ensures Paid(t, o)
  {
    var p :| p in s.payments && PaidBy(s.payments[p], o);
    assert t.payments[p] == s.payments[p];
  }

  /** payment-service moves, or another client sends a charge. */
  lemma PayInv(s: State, act: P.Action)
    requires Inv(s) && Enabled(s, Pay(act))
    ensures Inv(Apply(s, Pay(act)))
  {
    PI.StepInv(s.pay, act);
    PI.StepKeeps(s.pay, act);
    var t := Apply(s, Pay(act));
    PayRequests(s, act);
    SameCallsAndTables(s, t);
    PayConfirmed(s, t);
  }

  lemma SameCallsAndTables(s: State, t: State)
    requires CallsWellFormed(s) && CallsMatchTables(s) && RowsFollowOrders(s)
    requires t.retries == s.retries && t.calls == s.calls && t.tables == s.tables
    ensures CallsWellFormed(t) && CallsMatchTables(t) && RowsFollowOrders(t)
  {
    assert forall id :: id in t.calls ==> CallMatchesTables(s, id, s.calls[id]);
  }

  lemma PayRequests(s: State, act: P.Action)
    requires RequestsBelong(s) && Enabled(s, Pay(act))
    ensures RequestsBelong(Apply(s, Pay(act)))
  {
    OnlySendAddsRequests(s.pay, act);
  }

  lemma OnlySendAddsRequests(s: P.State, act: P.Action)
    requires P.Enabled(s, act)
    ensures P.Apply(s, act).requests == s.requests + if act.Send? then {act.env} else {}
  {
  }

  lemma PayConfirmed(s: State, t: State)
    requires ConfirmedIsPaid(s) && PI.Keeps(s.pay, t.pay)
    requires t.calls == s.calls && t.tables == s.tables
    ensures ConfirmedIsPaid(t)
  {
    forall id | id in t.calls && SaysConfirmed(t, id, t.calls[id])
      ensures t.calls[id].order.Some? && Paid(t.pay, t.calls[id].order.value)
    {
      assert SaysConfirmed(s, id, s.calls[id]);
      PaidStays(s.pay, t.pay, s.calls[id].order.value);
    }
  }

  /** One call changes its local state only. */
  predicate LocalChange(s: State, t: State, id: nat) {
    && id in t.calls
    && t == s.(calls := s.calls[id := t.calls[id]])
  }

  lemma LocalChangeInv(s: State, t: State, id: nat)
    requires Inv(s) && LocalChange(s, t, id)
    requires CallWellFormed(t.retries, id, t.calls[id]) && CallMatchesTables(t, id, t.calls[id])
    requires id in s.calls ==> t.calls[id].sends == s.calls[id].sends
    requires if id in s.calls && id in s.tables.orders then t.calls[id].order == s.calls[id].order
             else forall env :: env in s.pay.requests ==> KeyOf(env) != Canonical(id)
    requires SaysConfirmed(t, id, t.calls[id]) ==>
               t.calls[id].order.Some? && Paid(t.pay, t.calls[id].order.value)
    ensures Inv(t)
  {
    LocalChangeTables(s, t, id);
    assert RequestsBelong(t);
    assert ConfirmedIsPaid(t) by {
      forall other | other in t.calls && SaysConfirmed(t, other, t.calls[other])
        ensures t.calls[other].order.Some? && Paid(t.pay, t.calls[other].order.value)
      {
        if other != id {
          assert SaysConfirmed(s, other, s.calls[other]);
        }
      }
    }
  }

  lemma LocalChangeTables(s: State, t: State, id: nat)
    requires CallsWellFormed(s) && CallsMatchTables(s) && RowsFollowOrders(s) && LocalChange(s, t, id)
    requires CallWellFormed(t.retries, id, t.calls[id]) && CallMatchesTables(t, id, t.calls[id])
    requires id in s.tables.orders ==> id in s.calls && t.calls[id].order == s.calls[id].order
    ensures CallsWellFormed(t) && CallsMatchTables(t) && RowsFollowOrders(t)
  {
    forall other | other in t.calls ensures CallMatchesTables(t, other, t.calls[other]) {
      assert other != id ==> CallMatchesTables(s, other, s.calls[other]);
    }
  }

  // ---------------------------------------------------------------------------
  // Persisting

  lemma StoreTables(s: State, id: nat, stage: Stage)
    requires CallsWellFormed(s) && CallsMatchTables(s) && RowsFollowOrders(s)
    requires In(s, id) && s.calls[id].stage.Priced? && Insertable(s.tables, s.calls[id].order.value)
    requires stage.Persisted? || stage == Done(500)
    ensures var t := Store(s, id, stage); CallsWellFormed(t) && CallsMatchTables(t) && RowsFollowOrders(t)
  {
    var t, o := Store(s, id, stage), s.calls[id].order.value;
    assert CallWellFormed(s.retries, id, s.calls[id]);
    WithOrderRows(s.tables, o);
    forall other | other in t.calls
      ensures CallWellFormed(t.retries, other, t.calls[other]) && CallMatchesTables(t, other, t.calls[other])
    {
      assert CallWellFormed(s.retries, other, s.calls[other]) && CallMatchesTables(s, other, s.calls[other]);
    }
    forall other | other in t.tables.orders
      ensures other in t.calls && t.calls[other].order.Some?
      ensures RowMatchesOrder(t.tables, other, t.calls[other].order.value)
    {
      if other != id {
        assert RowMatchesOrder(s.tables, other, s.calls[other].order.value);
        assert ItemRowsOf(t.tables, other) == ItemRowsOf(s.tables, other);
      }
    }
  }

  lemma StoreInv(s: State, id: nat, stage: Stage)
    requires Inv(s) && In(s, id) && s.calls[id].stage.Priced? && Insertable(s.tables, s.calls[id].order.value)
    requires stage.Persisted? || stage == Done(500)
    ensures Inv(Store(s, id, stage))
  {
    StoreTables(s, id, stage);
    assert RequestsBelong(Store(s, id, stage));
    assert CallMatchesTables(s, id, s.calls[id]) && CallWellFormed(s.retries, id, s.calls[id]);
    StoreConfirmed(s, id, stage);
  }

  lemma StoreConfirmed(s: State, id: nat, stage: Stage)
    requires ConfirmedIsPaid(s) && In(s, id) && s.calls[id].order.Some? && IsPricedOrder(id, s.calls[id].order.value)
    requires stage.Persisted? || stage == Done(500)
    ensures ConfirmedIsPaid(Store(s, id, stage))
  {
    var t := Store(s, id, stage);
    forall other | other in t.calls && SaysConfirmed(t, other, t.calls[other])
      ensures t.calls[other].order.Some? && Paid(t.pay, t.calls[other].order.value)
    {
      assert SaysConfirmed(s, other, s.calls[other]);
    }
  }

  // ---------------------------------------------------------------------------
  // Charging

  lemma SendInv(s: State, id: nat)
    requires Inv(s) && CanSend(s, id)
    ensures Inv(Send(s, id))
  {
    var act := P.Send(ChargeFor(s.calls[id].order.value));
    PI.StepInv(s.pay, act);
    PI.StepKeeps(s.pay, act);
    SendTables(s, id);
    SendRequests(s, id);
    SendConfirmed(s, id);
  }

  lemma SendConfirmed(s: State, id: nat)
    requires ConfirmedIsPaid(s) && CanSend(s, id) && PI.Keeps(s.pay, Send(s, id).pay)
    ensures ConfirmedIsPaid(Send(s, id))
  {
    var t := Send(s, id);
    forall other | other in t.calls && SaysConfirmed(t, other, t.calls[other])
      ensures t.calls[other].order.Some? && Paid(t.pay, t.calls[other].order.value)
    {
      assert SaysConfirmed(s, other, s.calls[other]);
      PaidStays(s.pay, t.pay, s.calls[other].order.value);
    }
  }

  lemma SendTables(s: State, id: nat)
    requires CallsWellFormed(s) && CallsMatchTables(s) && RowsFollowOrders(s) && CanSend(s, id)
    ensures var t := Send(s, id); CallsWellFormed(t) && CallsMatchTables(t) && RowsFollowOrders(t)
  {
    SendCalls(s, id);
    var t := Send(s, id);
    assert forall other :: other in t.calls ==> t.calls[other].order == s.calls[other].order;
  }

  lemma SendCalls(s: State, id: nat)
    requires CallsWellFormed(s) && CallsMatchTables(s) && CanSend(s, id)
    ensures CallsWellFormed(Send(s, id)) && CallsMatchTables(Send(s, id))
  {
    var t := Send(s, id);
    assert CallWellFormed(s.retries, id, s.calls[id]) && CallMatchesTables(s, id, s.calls[id]);
    forall other | other in t.calls
      ensures CallWellFormed(t.retries, other, t.calls[other]) && CallMatchesTables(t, other, t.calls[other])
    {
      assert CallWellFormed(s.retries, other, s.calls[other]) && CallMatchesTables(s, other, s.calls[other]);
    }
  }

  lemma SendRequests(s: State, id: nat)
    requires CallsWellFormed(s) && CallsMatchTables(s) && RequestsBelong(s) && CanSend(s, id)
    ensures RequestsBelong(Send(s, id))
  {
    assert CallWellFormed(s.retries, id, s.calls[id]) && CallMatchesTables(s, id, s.calls[id]);
    assert KeyOf(ChargeFor(s.calls[id].order.value)) == Canonical(id);
  }

  /** A row under an order's key is the charge of that order. */
  lemma RowIsOfOrder(s: State, id: nat, p: nat)
    requires PI.RowsHaveOrigin(s.pay) && CallsWellFormed(s) && RequestsBelong(s) && In(s, id)
    requires p in s.pay.payments && s.pay.payments[p].key == Canonical(id)
    ensures id in s.tables.orders && s.calls[id].order.Some? && s.calls[id].order.value.id == id
    ensures var row, o := s.pay.payments[p], s.calls[id].order.value;
      && row.orderId == id && row.userId == o.userId && row.amountCents == o.totalCents
      && row.currency == o.currency == "USD"
  {
    var row := s.pay.payments[p];
    assert PI.HasOrigin(s.pay, row);
    var env :| env in s.pay.requests && MadeFor(row, env);
    assert env == ChargeFor(s.calls[id].order.value);
    assert CallWellFormed(s.retries, id, s.calls[id]);
    ChargeOfOrder(row, s.calls[id].order.value);
  }

  lemma ChargeOfOrder(row: Payment, o: Order)
    requires MadeFor(row, ChargeFor(o)) && o.currency == "USD"
    ensures row.orderId == o.id && row.userId == o.userId
    ensures row.amountCents == o.totalCents && row.currency == o.currency
  {
    MadeForMeans(row, ChargeFor(o));
    UpperStays("USD");
  }

  /** What a decoded response proves about the payments table and the ledger. */
  lemma ReplyProves(s: State, id: nat, r: P.Reply)
    requires PI.Inv(s.pay) && CallsWellFormed(s) && RequestsBelong(s) && In(s, id)
    requires r in s.pay.replies && r.key == Canonical(id) && IsDecoded(r.status)
    ensures s.calls[id].order.Some?
    ensures r.payment.id in s.pay.payments && s.pay.payments[r.payment.id] == r.payment
    ensures r.status == 200 ==> PaidBy(r.payment, s.calls[id].order.value)
    ensures r.status == 402 ==> r.payment.status.Declined?
    ensures r.status != 201
  {
    assert r.payment in s.pay.results;
    assert s.pay.payments[r.payment.id] == r.payment;
    RowIsOfOrder(s, id, r.payment.id);
  }

  lemma DecideInv(s: State, id: nat, reply: Option<P.Reply>)
    requires Inv(s) && Enabled(s, Decide(id, reply))
    ensures Inv(Apply(s, Decide(id, reply)))
  {
    assert CallWellFormed(s.retries, id, s.calls[id]) && CallMatchesTables(s, id, s.calls[id]);
    DecidedCall(s, id, reply);
    DecidedIsPaid(s, id, reply);
    LocalChangeInv(s, Apply(s, Decide(id, reply)), id);
  }

  lemma DecidedCall(s: State, id: nat, reply: Option<P.Reply>)
    requires Enabled(s, Decide(id, reply))
    requires CallWellFormed(s.retries, id, s.calls[id]) && CallMatchesTables(s, id, s.calls[id])
    ensures var t := Apply(s, Decide(id, reply));
      && LocalChange(s, t, id) && t.calls[id] == s.calls[id].(stage := Decided(FinalStatus(reply)))
      && CallWellFormed(t.retries, id, t.calls[id]) && CallMatchesTables(t, id, t.calls[id])
      && (SaysConfirmed(t, id, t.calls[id]) ==> FinalStatus(reply).OrderConfirmed?)
  {
  }

  lemma DecidedIsPaid(s: State, id: nat, reply: Option<P.Reply>)
    requires PI.Inv(s.pay) && CallsWellFormed(s) && RequestsBelong(s) && Enabled(s, Decide(id, reply))
    ensures FinalStatus(reply).OrderConfirmed? ==> Paid(s.pay, s.calls[id].order.value)
  {
    if reply.Some? {
      ReplyProves(s, id, reply.value);
    }
  }

  // ---------------------------------------------------------------------------
  // The final status

  lemma FinishCalls(s: State, id: nat, write: bool)
    requires CallsWellFormed(s) && CallsMatchTables(s)
    requires In(s, id) && s.calls[id].stage.Decided? && id in s.tables.orders
    ensures CallsWellFormed(Finish(s, id, write)) && CallsMatchTables(Finish(s, id, write))
  {
    var t := Finish(s, id, write);
    forall other | other in t.calls
      ensures CallWellFormed(t.retries, other, t.calls[other]) && CallMatchesTables(t, other, t.calls[other])
    {
      assert CallWellFormed(s.retries, other, s.calls[other]) && CallMatchesTables(s, other, s.calls[other]);
    }
  }

  lemma FinishRows(s: State, id: nat, write: bool)
    requires RowsFollowOrders(s)
    requires In(s, id) && s.calls[id].stage.Decided? && id in s.tables.orders
    ensures RowsFollowOrders(Finish(s, id, write))
  {
    var t := Finish(s, id, write);
    forall other | other in t.tables.orders
      ensures other in t.calls && t.calls[other].order.Some?
      ensures RowMatchesOrder(t.tables, other, t.calls[other].order.value)
    {
      assert RowMatchesOrder(s.tables, other, s.calls[other].order.value);
      assert ItemRowsOf(t.tables, other) == ItemRowsOf(s.tables, other);
    }
  }

  lemma FinishRequests(s: State, id: nat, write: bool)
    requires RequestsBelong(s)
    requires In(s, id) && s.calls[id].stage.Decided? && id in s.tables.orders
    ensures RequestsBelong(Finish(s, id, write))
  {
  }

  lemma FinishConfirmed(s: State, id: nat, write: bool)
    requires ConfirmedIsPaid(s) && In(s, id) && CallWellFormed(s.retries, id, s.calls[id])
    requires s.calls[id].stage.Decided? && id in s.tables.orders
    ensures ConfirmedIsPaid(Finish(s, id, write))
  {
    var t := Finish(s, id, write);
    forall other | other in t.calls && SaysConfirmed(t, other, t.calls[other])
      ensures t.calls[other].order.Some? && Paid(t.pay, t.calls[other].order.value)
    {
      assert SaysConfirmed(s, other, s.calls[other]);
    }
  }

  lemma FinishInv(s: State, id: nat, write: bool)
    requires Inv(s) && In(s, id) && s.calls[id].stage.Decided? && id in s.tables.orders
    ensures Inv(Finish(s, id, write))
  {
    FinishCalls(s, id, write);
    FinishRows(s, id, write);
    FinishRequests(s, id, write);
    FinishConfirmed(s, id, write);
  }

  // ---------------------------------------------------------------------------

  /** Every enabled action keeps the invariant. */
  lemma StepInv(s: State, a: Action)
    requires Inv(s) && Enabled(s, a)
    ensures Inv(Apply(s, a))
  {
    match a
    case Pay(act) => PayInv(s, act);
    case Begin(id) => BeginInv(s, id);
    case Refuse(id, http) => EarlyInv(s, a, id);
    case Price(id, order) => EarlyInv(s, a, id);
    case Persist(id, commit) => PersistInv(s, id, commit);
    case SendCharge(id) => SendInv(s, id);
    case Decide(id, reply) => DecideInv(s, id, reply);
    case UpdateStatus(id, commit) => FinishInv(s, id, !commit.RolledBack?);
    case Crash(id, answered) => StopInv(s, id, if answered then Done(500) else Dead);
  }

  lemma BeginInv(s: State, id: nat)
    requires Inv(s) && Enabled(s, Begin(id))
    ensures Inv(Apply(s, Begin(id)))
  {
    LocalChangeInv(s, Apply(s, Begin(id)), id);
  }

  lemma EarlyInv(s: State, a: Action, id: nat)
    requires Inv(s) && Enabled(s, a)
    requires (a.Refuse? && a.id == id) || (a.Price? && a.id == id)
    ensures Inv(Apply(s, a))
  {
    assert CallWellFormed(s.retries, id, s.calls[id]) && CallMatchesTables(s, id, s.calls[id]);
    LocalChangeInv(s, Apply(s, a), id);
  }

  /** The call ends without touching the tables. */
  lemma StopInv(s: State, id: nat, stage: Stage)
    requires Inv(s) && In(s, id) && !s.calls[id].stage.Done?
    requires stage == Done(500) || stage.Dead?
    ensures Inv(Move(s, id, stage))
  {
    assert CallWellFormed(s.retries, id, s.calls[id]) && CallMatchesTables(s, id, s.calls[id]);
    LocalChangeInv(s, Move(s, id, stage), id);
  }

  lemma PersistInv(s: State, id: nat, commit: P.Commit)
    requires Inv(s) && Enabled(s, Persist(id, commit))
    ensures Inv(Apply(s, Persist(id, commit)))
  {
    if !Insertable(s.tables, s.calls[id].order.value) || commit.RolledBack? {
      StopInv(s, id, Done(500));
    } else {
      StoreInv(s, id, if commit.Committed? then Persisted else Done(500));
    }
  }
}
