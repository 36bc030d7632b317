/** What the order-to-payment saga promises, for every run. */
module SagaTheorems {
  import opened Wrappers
  import opened Payments
  import opened Orders
  import opened OrderSaga
  import opened SagaInvariant
  import opened Sums
  import P = PaymentProtocol
  import PI = PaymentInvariant
  import PT = PaymentTheorems

  // ---------------------------------------------------------------------------
  // What no action undoes

  /** PENDING may become CONFIRMED or FAILED, and nothing else ever moves. */
  predicate StatusMayBecome(before: OrderStatus, after: OrderStatus) {
    before == after || (before.OrderPending? && after in {OrderConfirmed, OrderFailed})
  }

  predicate OrderKept(s: Tables, t: Tables, id: nat)
    requires id in s.orders
  {
    && id in t.orders
    && t.orders[id] == s.orders[id].(status := t.orders[id].status)
    && StatusMayBecome(s.orders[id].status, t.orders[id].status)
    && ItemRowsOf(t, id) == ItemRowsOf(s, id)
  }

  predicate OrdersKept(s: Tables, t: Tables) {
    forall id :: id in s.orders ==> OrderKept(s, t, id)
  }

  /** Finished calls do not move again; an order is not repriced once stored. */
  predicate CallsKept(s: State, t: State) {
    forall id :: id in s.calls ==>
      && id in t.calls
      && (s.calls[id].stage.Done? ==> t.calls[id] == s.calls[id])
      && (id in s.tables.orders ==> t.calls[id].order == s.calls[id].order)
      && s.calls[id].sends <= t.calls[id].sends
  }

  ghost predicate Keeps(s: State, t: State) {
    s.retries == t.retries && PI.Keeps(s.pay, t.pay) && OrdersKept(s.tables, t.tables) && CallsKept(s, t)
  }

  lemma KeepsTransitive(s: State, t: State, u: State)
    requires Keeps(s, t) && Keeps(t, u)
    ensures Keeps(s, u)
  {
    PI.KeepsTransitive(s.pay, t.pay, u.pay);
    forall id | id in s.tables.orders ensures OrderKept(s.tables, u.tables, id) {
      assert OrderKept(s.tables, t.tables, id) && OrderKept(t.tables, u.tables, id);
    }
  }

  lemma KeepsReflexive(s: State)
    ensures Keeps(s, s)
  {
    PI.GrowsOnlyKeeps(s.pay, s.pay);
  }

  lemma LocalChangeKeeps(s: State, t: State, id: nat)
    requires LocalChange(s, t, id)
    requires id in s.calls ==> !s.calls[id].stage.Done? && t.calls[id].sends >= s.calls[id].sends
    requires id in s.calls && id in s.tables.orders ==> t.calls[id].order == s.calls[id].order
    ensures Keeps(s, t)
  {
    PI.GrowsOnlyKeeps(s.pay, t.pay);
  }

  lemma StoreKeeps(s: State, id: nat, stage: Stage)
    requires RowsFollowOrders(s) && In(s, id) && !s.calls[id].stage.Done? && s.calls[id].order.Some?
    requires Insertable(s.tables, s.calls[id].order.value)
    ensures Keeps(s, Store(s, id, stage))
  {
    PI.GrowsOnlyKeeps(s.pay, s.pay);
    WithOrderRows(s.tables, s.calls[id].order.value);
  }

  lemma FinishKeeps(s: State, id: nat, write: bool)
    requires CallsWellFormed(s) && CallsMatchTables(s)
    requires In(s, id) && s.calls[id].stage.Decided? && id in s.tables.orders
    ensures Keeps(s, Finish(s, id, write))
  {
    PI.GrowsOnlyKeeps(s.pay, s.pay);
    var t := Finish(s, id, write);
    assert CallWellFormed(s.retries, id, s.calls[id]) && CallMatchesTables(s, id, s.calls[id]);
    forall other | other in s.tables.orders ensures OrderKept(s.tables, t.tables, other) {
      assert ItemRowsOf(t.tables, other) == ItemRowsOf(s.tables, other);
    }
  }

  lemma SendKeeps(s: State, id: nat)
    requires PI.Inv(s.pay) && CanSend(s, id)
    ensures Keeps(s, Send(s, id))
  {
    PI.StepKeeps(s.pay, P.Send(ChargeFor(s.calls[id].order.value)));
  }

  lemma StepKeeps(s: State, a: Action)
    requires Inv(s) && Enabled(s, a)
    ensures Keeps(s, Apply(s, a))
  {
    match a
    case Pay(act) => PI.StepKeeps(s.pay, act);
    case Begin(id) => BeginKeeps(s, id);
    case Refuse(id, _) => LocalChangeKeeps(s, Apply(s, a), id);
    case Price(id, _) => PriceKeeps(s, a);
    case Persist(id, commit) => PersistKeeps(s, id, commit);
    case SendCharge(id) => SendKeeps(s, id);
    case Decide(id, _) => LocalChangeKeeps(s, Apply(s, a), id);
    case UpdateStatus(id, commit) => FinishKeeps(s, id, !commit.RolledBack?);
    case Crash(id, _) => LocalChangeKeeps(s, Apply(s, a), id);
  }

  lemma BeginKeeps(s: State, id: nat)
    requires Inv(s) && Enabled(s, Begin(id))
    ensures Keeps(s, Apply(s, Begin(id)))
  {
    LocalChangeKeeps(s, Apply(s, Begin(id)), id);
  }

  lemma PriceKeeps(s: State, a: Action)
    requires Inv(s) && a.Price? && Enabled(s, a)
    ensures Keeps(s, Apply(s, a))
  {
    assert CallMatchesTables(s, a.id, s.calls[a.id]);
    LocalChangeKeeps(s, Apply(s, a), a.id);
  }

  lemma PersistKeeps(s: State, id: nat, commit: P.Commit)
    requires Inv(s) && Enabled(s, Persist(id, commit))
    ensures Keeps(s, Apply(s, Persist(id, commit)))
  {
    if !Insertable(s.tables, s.calls[id].order.value) || commit.RolledBack? {
      LocalChangeKeeps(s, Move(s, id, Done(500)), id);
    } else {
      StoreKeeps(s, id, if commit.Committed? then Persisted else Done(500));
    }
  }

  // ---------------------------------------------------------------------------
  // Runs

  lemma {:induction false} RunInv(retries: int, polly: nat, acts: seq<Action>)
    requires Legal(retries, polly, acts)
    ensures Inv(Run(retries, polly, acts))
    ensures Run(retries, polly, acts).retries == retries && Run(retries, polly, acts).pay.polly == polly
    decreases |acts|
  {
    if acts == [] {
      InitInv(retries, polly);
    } else {
      var before := acts[..|acts| - 1];
      RunInv(retries, polly, before);
      StepInv(Run(retries, polly, before), acts[|acts| - 1]);
      StepKeeps(Run(retries, polly, before), acts[|acts| - 1]);
    }
  }

  lemma {:induction false} RunPrefixLegal(retries: int, polly: nat, acts: seq<Action>, n: nat)
    requires Legal(retries, polly, acts) && n <= |acts|
    ensures Legal(retries, polly, acts[..n])
    decreases |acts|
  {
    if n == |acts| {
      assert acts[..n] == acts;
    } else {
      var before := acts[..|acts| - 1];
      RunPrefixLegal(retries, polly, before, n);
      assert before[..n] == acts[..n];
    }
  }

  /** Causality and one-way status over whole runs: from any moment on, stored
      orders keep their items, owner and total, a status moves at most once, from
      PENDING to CONFIRMED or FAILED, and what the payment side holds is kept. */
  lemma {:induction false} HistoryIsKept(retries: int, polly: nat, acts: seq<Action>, n: nat)
    requires Legal(retries, polly, acts) && n <= |acts|
    ensures Legal(retries, polly, acts[..n])
    ensures Keeps(Run(retries, polly, acts[..n]), Run(retries, polly, acts))
    decreases |acts|
  {
    RunPrefixLegal(retries, polly, acts, n);
    var t := Run(retries, polly, acts);
    if n == |acts| {
      assert acts[..n] == acts;
      KeepsReflexive(t);
    } else {
      var before := acts[..|acts| - 1];
      assert before[..n] == acts[..n];
      HistoryIsKept(retries, polly, before, n);
      RunInv(retries, polly, before);
      StepKeeps(Run(retries, polly, before), acts[|acts| - 1]);
      KeepsTransitive(Run(retries, polly, acts[..n]), Run(retries, polly, before), t);
    }
  }

  // ---------------------------------------------------------------------------
  // CONFIRMED means paid

  /** The gateway client was called once for this order, approved, for the total. */
  ghost predicate CapturedExactlyOnce(pay: P.State, o: Order) {
    exists i :: 0 <= i < |pay.ledger| && PT.Approved(pay.ledger[i]) && CallFor(pay.ledger[i], o)
      && forall j :: 0 <= j < |pay.ledger| && pay.ledger[j].key == Canonical(o.id) ==> j == i
  }

  predicate CallFor(c: P.Call, o: Order) {
    && c.key == Canonical(o.id) && c.request.orderId == o.id
    && c.request.amountCents == o.totalCents && c.request.currency == o.currency == "USD"
  }

  predicate NothingCaptured(pay: P.State, id: nat) {
    forall i :: 0 <= i < |pay.ledger| && pay.ledger[i].key == Canonical(id) ==> !PT.Approved(pay.ledger[i])
  }

  lemma PaidIsCaptured(pay: P.State, o: Order)
    requires PI.Inv(pay) && Paid(pay, o)
    ensures CapturedExactlyOnce(pay, o)
  {
    var p :| p in pay.payments && PaidBy(pay.payments[p], o);
    var row := pay.payments[p];
    assert PI.Justified(pay, row);
    var i :| 0 <= i < |pay.ledger| && pay.ledger[i].pid == row.id && pay.ledger[i].outcome.Finished?
      && row == Settle(PI.Unsettled(row), pay.ledger[i].outcome.outcome);
    assert PT.Approved(pay.ledger[i]) && CallFor(pay.ledger[i], o);
    forall j | 0 <= j < |pay.ledger| && pay.ledger[j].key == Canonical(o.id) ensures j == i {
      assert pay.ledger[j].pid == row.id;
    }
  }

  /** An order that is stored as CONFIRMED, or answered with 201, was stored with
      this total, its payment row has its id as key, its user, exactly its total,
      and status Succeeded, and the gateway captured exactly that, exactly once. */
  lemma ConfirmedMeansPaid(retries: int, polly: nat, acts: seq<Action>, id: nat)
    requires Legal(retries, polly, acts)
    requires var s := Run(retries, polly, acts); In(s, id) && SaysConfirmed(s, id, s.calls[id])
    ensures var s := Run(retries, polly, acts);
      && s.calls[id].order.Some? && RowMatchesOrder(s.tables, id, s.calls[id].order.value)
      && s.calls[id].order.value.id == id && s.calls[id].order.value.currency == "USD"
      && HoldsOrder(s.tables, s.calls[id].order.value)
      && Paid(s.pay, s.calls[id].order.value)
      && CapturedExactlyOnce(s.pay, s.calls[id].order.value)
  {
    RunInv(retries, polly, acts);
    var s := Run(retries, polly, acts);
    assert CallWellFormed(s.retries, id, s.calls[id]) && CallMatchesTables(s, id, s.calls[id]);
    RowMatchesHolds(s.tables, s.calls[id].order.value);
    PaidIsCaptured(s.pay, s.calls[id].order.value);
  }

  /** ... and it stays so in every later state. */
  lemma ConfirmedStaysPaid(retries: int, polly: nat, acts: seq<Action>, n: nat, id: nat)
    requires Legal(retries, polly, acts) && n <= |acts| && Legal(retries, polly, acts[..n])
    requires id in Run(retries, polly, acts[..n]).tables.orders
    requires Run(retries, polly, acts[..n]).tables.orders[id].status.OrderConfirmed?
    ensures var s, t := Run(retries, polly, acts[..n]), Run(retries, polly, acts);
      && id in t.tables.orders && t.tables.orders[id] == s.tables.orders[id]
      && In(t, id) && t.calls[id].order.Some? && t.calls[id].order.value.totalCents == s.tables.orders[id].totalCents
      && Paid(t.pay, t.calls[id].order.value) && CapturedExactlyOnce(t.pay, t.calls[id].order.value)
  {
    HistoryIsKept(retries, polly, acts, n);
    RunInv(retries, polly, acts);
    assert OrderKept(Run(retries, polly, acts[..n]).tables, Run(retries, polly, acts).tables, id);
    ConfirmedMeansPaid(retries, polly, acts, id);
  }

  /** Every charge request under an order's key asks for the order that is committed under
      that id: for its user, its stored total, and in dollars. */
  lemma ChargesFollowOrders(retries: int, polly: nat, acts: seq<Action>, env: Envelope, id: nat)
    requires Legal(retries, polly, acts) && In(Run(retries, polly, acts), id)
    requires env in Run(retries, polly, acts).pay.requests && KeyOf(env) == Canonical(id)
    ensures var s := Run(retries, polly, acts);
      && id in s.tables.orders && env.header == Some(Canonical(id))
      && env.body.orderId == Canonical(id) && env.body.userId == Canonical(s.tables.orders[id].userId)
      && env.body.amountCents == s.tables.orders[id].totalCents
      && env.body.currency == s.tables.orders[id].currency == "USD"
  {
    RunInv(retries, polly, acts);
    var s := Run(retries, polly, acts);
    assert env == ChargeFor(s.calls[id].order.value);
    assert RowMatchesOrder(s.tables, id, s.calls[id].order.value);
    assert CallWellFormed(s.retries, id, s.calls[id]);
  }

  /** Every payment row under an order's key is for a committed order, with its user, its
      stored total and its currency, and so is every gateway call; CANCELLED is never
      reached. */
  lemma PaymentsFollowOrders(retries: int, polly: nat, acts: seq<Action>, p: nat, id: nat)
    requires Legal(retries, polly, acts)
    requires p in Run(retries, polly, acts).pay.payments && In(Run(retries, polly, acts), id)
    requires Run(retries, polly, acts).pay.payments[p].key == Canonical(id)
    ensures var s := Run(retries, polly, acts);
      && id in s.tables.orders && !s.tables.orders[id].status.OrderCancelled?
      && s.pay.payments[p].orderId == id
      && s.pay.payments[p].userId == s.tables.orders[id].userId
      && s.pay.payments[p].amountCents == s.tables.orders[id].totalCents
      && s.pay.payments[p].currency == s.tables.orders[id].currency == "USD"
      && forall i :: 0 <= i < |s.pay.ledger| && s.pay.ledger[i].key == Canonical(id) ==>
           && s.pay.ledger[i].request.orderId == id
           && s.pay.ledger[i].request.amountCents == s.tables.orders[id].totalCents
           && s.pay.ledger[i].request.currency == "USD"
  {
    RunInv(retries, polly, acts);
    var s := Run(retries, polly, acts);
    RowIsOfOrder(s, id, p);
    assert RowMatchesOrder(s.tables, id, s.calls[id].order.value);
    assert CallMatchesTables(s, id, s.calls[id]);
    forall i | 0 <= i < |s.pay.ledger| && s.pay.ledger[i].key == Canonical(id) ensures s.pay.ledger[i].pid == p {
      assert s.pay.payments[s.pay.ledger[i].pid].key == s.pay.payments[p].key;
    }
  }

  /** A 400, 404, 409 or 502 answer means that the order was never stored, never sent
      to payment-service and never charged, and in no later state will be. */
  lemma RefusalLeavesNoTrace(retries: int, polly: nat, acts: seq<Action>, n: nat, id: nat)
    requires Legal(retries, polly, acts) && n <= |acts| && Legal(retries, polly, acts[..n])
    requires var s := Run(retries, polly, acts[..n]);
      In(s, id) && s.calls[id].stage.Done? && s.calls[id].stage.http in {400, 404, 409, 502}
    ensures var t := Run(retries, polly, acts);
      && id !in t.tables.orders && ItemRowsOf(t.tables, id) == map[]
      && (forall env :: env in t.pay.requests ==> KeyOf(env) != Canonical(id))
      && (forall p :: p in t.pay.payments ==> t.pay.payments[p].key != Canonical(id))
      && (forall i :: 0 <= i < |t.pay.ledger| ==> t.pay.ledger[i].key != Canonical(id))
  {
    HistoryIsKept(retries, polly, acts, n);
    RunInv(retries, polly, acts);
    UnpersistedIsUncharged(Run(retries, polly, acts), id);
  }

  lemma UnpersistedIsUncharged(t: State, id: nat)
    requires Inv(t) && In(t, id) && id !in t.tables.orders
    ensures ItemRowsOf(t.tables, id) == map[]
    ensures forall env :: env in t.pay.requests ==> KeyOf(env) != Canonical(id)
    ensures forall p :: p in t.pay.payments ==> t.pay.payments[p].key != Canonical(id)
    ensures forall i :: 0 <= i < |t.pay.ledger| ==> t.pay.ledger[i].key != Canonical(id)
  {
    forall p | p in t.pay.payments ensures t.pay.payments[p].key != Canonical(id) {
      assert PI.HasOrigin(t.pay, t.pay.payments[p]);
    }
    assert forall i :: i in t.tables.items ==> t.tables.items[i].orderId != id;
  }

  lemma DeclinedCapturesNothing(pay: P.State, row: Payment)
    requires PI.Inv(pay) && row.id in pay.payments && pay.payments[row.id] == row && row.status.Declined?
    ensures forall i :: 0 <= i < |pay.ledger| && pay.ledger[i].key == row.key ==> !PT.Approved(pay.ledger[i])
  {
    assert PI.Justified(pay, row);
    var k :| 0 <= k < |pay.ledger| && pay.ledger[k].pid == row.id && pay.ledger[k].outcome.Finished?
      && row == Settle(PI.Unsettled(row), pay.ledger[k].outcome.outcome);
    forall i | 0 <= i < |pay.ledger| && pay.ledger[i].key == row.key ensures !PT.Approved(pay.ledger[i]) {
      assert pay.ledger[i].pid == row.id;
      assert i == k;
    }
  }

  // ---------------------------------------------------------------------------
  // From the verdict to the stored status

  /** The call has decided on `final`, and has at most gone on to act on it. */
  predicate Follows(s: State, id: nat, final: OrderStatus) {
    In(s, id) && s.calls[id].stage in {Decided(final), Done(ResponseTo(final)), Done(500), Dead}
  }

  lemma FollowsOn(s: State, a: Action, id: nat, final: OrderStatus)
    requires Enabled(s, a) && Follows(s, id, final)
    ensures Follows(Apply(s, a), id, final)
  {
  }

  /** A call decides once: whatever happens later, it can only write and answer what
      it decided on. */
  lemma {:induction false} DecisionSticks(retries: int, polly: nat, acts: seq<Action>, n: nat, id: nat,
      reply: Option<P.Reply>)
    requires Legal(retries, polly, acts) && n < |acts| && acts[n] == Decide(id, reply)
    ensures Legal(retries, polly, acts[..n]) && Enabled(Run(retries, polly, acts[..n]), acts[n])
    ensures Follows(Run(retries, polly, acts), id, FinalStatus(reply))
    decreases |acts|
  {
    var before := acts[..|acts| - 1];
    if n < |before| {
      assert before[..n] == acts[..n];
      DecisionSticks(retries, polly, before, n, id, reply);
      FollowsOn(Run(retries, polly, before), acts[|before|], id, FinalStatus(reply));
    }
  }

  /** What the caller and the orders table are told about this order. */
  predicate Tells(s: State, id: nat, final: OrderStatus) {
    && In(s, id)
    && (s.calls[id].stage == Done(ResponseTo(final)) || (id in s.tables.orders && s.tables.orders[id].status == final))
  }

  lemma ToldIsDecided(s: State, id: nat, final: OrderStatus, told: OrderStatus)
    requires CallsMatchTables(s) && Follows(s, id, final) && Tells(s, id, told)
    requires final in {OrderConfirmed, OrderFailed} && told in {OrderConfirmed, OrderFailed}
    ensures told == final
  {
    assert CallMatchesTables(s, id, s.calls[id]);
  }

  /** The row that a decoded response carried, and its charge, in every later state. */
  lemma DecodedRow(retries: int, polly: nat, acts: seq<Action>, n: nat, id: nat, r: P.Reply)
    requires Legal(retries, polly, acts) && n < |acts| && acts[n] == Decide(id, Some(r))
    ensures var s := Run(retries, polly, acts);
      && r.payment.id in s.pay.payments && s.pay.payments[r.payment.id] == r.payment && r.payment.key == Canonical(id)
      && In(s, id) && s.calls[id].order.Some?
      && (if r.payment.status.Succeeded? then CapturedExactlyOnce(s.pay, s.calls[id].order.value)
          else r.payment.status.Declined? && NothingCaptured(s.pay, id))
  {
    DecisionSticks(retries, polly, acts, n, id, Some(r));
    var was, s := Run(retries, polly, acts[..n]), Run(retries, polly, acts);
    RunInv(retries, polly, acts[..n]);
    RunInv(retries, polly, acts);
    HistoryIsKept(retries, polly, acts, n);
    ReplyProves(was, id, r);
    assert CallMatchesTables(was, id, was.calls[id]);
    assert s.pay.payments[r.payment.id] == r.payment;
    if r.payment.status.Succeeded? {
      assert PaidBy(r.payment, s.calls[id].order.value);
      PaidIsCaptured(s.pay, s.calls[id].order.value);
    } else {
      DeclinedCapturesNothing(s.pay, r.payment);
    }
  }

  /** Verdict agreement, over whole runs: once the payment client has decoded a
      response, the order is never stored CONFIRMED or answered 201 unless the
      payment row is Succeeded, nor stored FAILED or answered 402 unless the row is
      Declined; the row is one of the two for ever, and a Declined one captured
      nothing. */
  lemma VerdictAgreement(retries: int, polly: nat, acts: seq<Action>, n: nat, id: nat, r: P.Reply)
    requires Legal(retries, polly, acts) && n < |acts| && acts[n] == Decide(id, Some(r))
    ensures var s := Run(retries, polly, acts);
      && r.payment.id in s.pay.payments && s.pay.payments[r.payment.id] == r.payment && r.payment.key == Canonical(id)
      && In(s, id) && s.calls[id].order.Some?
      && (r.payment.status.Succeeded? || r.payment.status.Declined?)
      && (Tells(s, id, OrderConfirmed) ==> r.payment.status.Succeeded?)
      && (Tells(s, id, OrderFailed) ==> r.payment.status.Declined?)
      && (r.payment.status.Succeeded? ==> CapturedExactlyOnce(s.pay, s.calls[id].order.value))
      && (r.payment.status.Declined? ==> NothingCaptured(s.pay, id))
  {
    DecisionSticks(retries, polly, acts, n, id, Some(r));
    DecodedRow(retries, polly, acts, n, id, r);
    var s := Run(retries, polly, acts);
    RunInv(retries, polly, acts);
    forall told | told in {OrderConfirmed, OrderFailed} && Tells(s, id, told) ensures told == FinalStatus(Some(r)) {
      ToldIsDecided(s, id, FinalStatus(Some(r)), told);
    }
  }

  /** The status write carries out the decision. */
  lemma WriteFollowsDecision(retries: int, polly: nat, acts: seq<Action>, n: nat, id: nat, reply: Option<P.Reply>,
      commit: P.Commit)
    requires Legal(retries, polly, acts) && n < |acts| - 1
    requires acts[n] == Decide(id, reply) && acts[|acts| - 1] == UpdateStatus(id, commit)
    ensures var s := Run(retries, polly, acts);
      && In(s, id) && id in s.tables.orders && s.calls[id].stage == Done(ResponseTo(FinalStatus(reply)))
      && (!commit.RolledBack? ==> s.tables.orders[id].status == FinalStatus(reply))
  {
    DecisionSticks(retries, polly, acts[..|acts| - 1], n, id, reply);
  }

  /** The other direction: once the status write has gone through, the stored status
      is CONFIRMED exactly for a Succeeded row and FAILED exactly for a Declined one. */
  lemma VerdictIsStored(retries: int, polly: nat, acts: seq<Action>, n: nat, m: nat, id: nat, r: P.Reply,
      commit: P.Commit)
    requires Legal(retries, polly, acts) && n < m < |acts|
    requires acts[n] == Decide(id, Some(r)) && acts[m] == UpdateStatus(id, commit)
    ensures var s := Run(retries, polly, acts);
      && In(s, id) && id in s.tables.orders
      && (s.calls[id].stage == Done(201) <==> r.payment.status.Succeeded?)
      && (s.calls[id].stage == Done(402) <==> r.payment.status.Declined?)
      && (!commit.RolledBack? ==>
           && (s.tables.orders[id].status.OrderConfirmed? <==> r.payment.status.Succeeded?)
           && (s.tables.orders[id].status.OrderFailed? <==> r.payment.status.Declined?))
  {
    var done := acts[..m + 1];
    HistoryIsKept(retries, polly, acts, m + 1);
    WriteFollowsDecision(retries, polly, done, n, id, Some(r), commit);
    assert OrderKept(Run(retries, polly, done).tables, Run(retries, polly, acts).tables, id);
    VerdictAgreement(retries, polly, acts, n, id, r);
  }

  // ---------------------------------------------------------------------------
  // Money across the two services

  function ConfirmedOrders(s: State): set<nat> {
    set id | id in s.tables.orders && s.tables.orders[id].status.OrderConfirmed?
  }

  function Totals(s: State): map<nat, int> {
    map id | id in s.tables.orders :: s.tables.orders[id].totalCents
  }

  /** The payment row of each paid order. */
  ghost function PaymentOf(s: State, id: nat): (p: nat)
    requires Inv(s) && id in ConfirmedOrders(s)
    ensures p in s.pay.payments && s.pay.payments[p].key == Canonical(id)
    ensures s.pay.payments[p].status.Succeeded? && s.pay.payments[p].amountCents == s.tables.orders[id].totalCents
  {
    assert SaysConfirmed(s, id, s.calls[id]);
    assert RowMatchesOrder(s.tables, id, s.calls[id].order.value);
    var p :| p in s.pay.payments && PaidBy(s.pay.payments[p], s.calls[id].order.value);
    p
  }

  /** The payment rows of the confirmed orders, by order. */
  ghost function PaymentsOfConfirmed(s: State): (name: map<nat, nat>)
    requires Inv(s)
    ensures name.Keys == ConfirmedOrders(s)
    ensures forall id :: id in name ==>
              && name[id] in s.pay.payments && s.pay.payments[name[id]].key == Canonical(id)
              && s.pay.payments[name[id]].status.Succeeded?
              && s.pay.payments[name[id]].amountCents == s.tables.orders[id].totalCents
  {
    map id | id in ConfirmedOrders(s) :: PaymentOf(s, id)
  }

  /** Each confirmed order has a Succeeded row of its own for its total. */
  lemma ConfirmedTotalsAreRows(s: State, name: map<nat, nat>) returns (rows: set<nat>)
    requires name.Keys == ConfirmedOrders(s)
    requires forall id :: id in name ==>
               && name[id] in s.pay.payments && s.pay.payments[name[id]].key == Canonical(id)
               && s.pay.payments[name[id]].status.Succeeded?
               && s.pay.payments[name[id]].amountCents == s.tables.orders[id].totalCents
    ensures rows <= PT.RowsWith(s.pay, Succeeded) <= PT.Amounts(s.pay).Keys
    ensures SetSum(ConfirmedOrders(s), Totals(s)) == SetSum(rows, PT.Amounts(s.pay))
  {
    rows := SetSumRenamed(ConfirmedOrders(s), Totals(s), name, PT.Amounts(s.pay));
  }

  lemma AmountsArePositive(pay: P.State)
    requires PI.Inv(pay)
    ensures forall p :: p in pay.payments ==> PT.Amounts(pay)[p] > 0
  {
    assert forall p :: p in pay.payments ==> PI.HasOrigin(pay, pay.payments[p]);
  }

  /** The confirmed orders never add up to more than the gateway approved, and
      what it approved is all in Succeeded or Pending rows. */
  lemma ConfirmedTotalsAreCovered(retries: int, polly: nat, acts: seq<Action>)
    requires Legal(retries, polly, acts)
    ensures var s := Run(retries, polly, acts);
      && SetSum(ConfirmedOrders(s), Totals(s)) <= PT.ApprovedTotal(s.pay.ledger)
      && PT.ApprovedTotal(s.pay.ledger) <= PT.RowSum(s.pay, Succeeded) + PT.RowSum(s.pay, Pending)
  {
    RunInv(retries, polly, acts);
    var s := Run(retries, polly, acts);
    var rows := ConfirmedTotalsAreRows(s, PaymentsOfConfirmed(s));
    AmountsArePositive(s.pay);
    SetSumSubset(rows, PT.RowsWith(s.pay, Succeeded), PT.Amounts(s.pay));
    PT.Conservation(s.pay);
  }
}
