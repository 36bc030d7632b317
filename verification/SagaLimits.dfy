/**
  What the saga does not give: a FAILED order may have been charged. Exactly when
  that is excluded beforehand, which failures never capture, and which FAILED
  orders can still be charged afterwards.
 */
module SagaLimits {
  import opened Wrappers
  import opened Payments
  import opened Orders
  import opened OrderSaga
  import P = PaymentProtocol
  import PI = PaymentInvariant
  import PT = PaymentTheorems
  import SI = SagaInvariant
  import ST = SagaTheorems

  // ---------------------------------------------------------------------------
  // What the payments table says

  /** Whatever the status of the order: without a row the gateway captured nothing;
      for a settled row it captured exactly if the row is Succeeded; and over all rows,
      exactly if one is Succeeded or is Pending with an approval that was not saved. */
  lemma CaptureIsReadOffTheRow(retries: int, polly: nat, acts: seq<Action>, id: nat)
    requires Legal(retries, polly, acts)
    ensures var pay := Run(retries, polly, acts).pay;
      && (P.NoRowFor(pay, Canonical(id)) ==> ST.NothingCaptured(pay, id))
      && (forall p | p in pay.payments && pay.payments[p].key == Canonical(id) && !pay.payments[p].status.Pending? ::
            ST.NothingCaptured(pay, id) <==> !pay.payments[p].status.Succeeded?)
      && (ST.NothingCaptured(pay, id) <==>
            forall p | p in pay.payments && pay.payments[p].key == Canonical(id) ::
              !pay.payments[p].status.Succeeded? && p !in PT.UnsavedApprovals(pay))
  {
    ST.RunInv(retries, polly, acts);
    var pay := Run(retries, polly, acts).pay;
    PT.ApprovedRowsSplit(pay);
    forall p | p in pay.payments && pay.payments[p].key == Canonical(id)
      ensures ST.NothingCaptured(pay, id) <==> p !in PT.ApprovedRows(pay.ledger)
    {
      CapturedRow(pay, p);
    }
  }

  lemma CapturedRow(pay: P.State, p: nat)
    requires PI.Inv(pay) && p in pay.payments
    ensures p in PT.ApprovedRows(pay.ledger) <==>
              exists i ::
                0 <= i < |pay.ledger| && pay.ledger[i].key == pay.payments[p].key && PT.Approved(pay.ledger[i])
  {
    forall i | 0 <= i < |pay.ledger| && pay.ledger[i].key == pay.payments[p].key ensures pay.ledger[i].pid == p {
      assert pay.payments[pay.ledger[i].pid].key == pay.payments[p].key;
    }
  }

  /** A declined payment stays uncaptured in every later state. */
  lemma DeclinedStaysUncaptured(retries: int, polly: nat, acts: seq<Action>, n: nat, id: nat, p: nat)
    requires Legal(retries, polly, acts) && n <= |acts| && Legal(retries, polly, acts[..n])
    requires p in Run(retries, polly, acts[..n]).pay.payments
    requires var row := Run(retries, polly, acts[..n]).pay.payments[p]; row.key == Canonical(id) && row.status.Declined?
    ensures ST.NothingCaptured(Run(retries, polly, acts).pay, id)
  {
    ST.HistoryIsKept(retries, polly, acts, n);
    CaptureIsReadOffTheRow(retries, polly, acts, id);
    assert Run(retries, polly, acts).pay.payments[p] == Run(retries, polly, acts[..n]).pay.payments[p];
  }

  // ---------------------------------------------------------------------------
  // Who is never charged

  /** An order below one cent, and one that was never sent, meets no gateway call. */
  lemma UnchargeableIsNotCalled(s: State, id: nat)
    requires SI.Inv(s) && In(s, id)
    requires s.calls[id].order.Some? ==> s.calls[id].order.value.totalCents < 1 || s.calls[id].sends == 0
    ensures forall i :: 0 <= i < |s.pay.ledger| ==> s.pay.ledger[i].key != Canonical(id)
  {
    forall i | 0 <= i < |s.pay.ledger| ensures s.pay.ledger[i].key != Canonical(id) {
      var row := s.pay.payments[s.pay.ledger[i].pid];
      assert PI.HasOrigin(s.pay, row);
      var env :| env in s.pay.requests && MadeFor(row, env);
      assert KeyOf(env) == s.pay.ledger[i].key;
    }
  }

  /** What is captured under an order's key is the order's total, once. */
  lemma CapturedIsExact(s: State, id: nat)
    requires SI.Inv(s) && In(s, id) && !ST.NothingCaptured(s.pay, id)
    ensures s.calls[id].order.Some? && ST.CapturedExactlyOnce(s.pay, s.calls[id].order.value)
  {
    var i :| 0 <= i < |s.pay.ledger| && s.pay.ledger[i].key == Canonical(id) && PT.Approved(s.pay.ledger[i]);
    var row := s.pay.payments[s.pay.ledger[i].pid];
    SI.RowIsOfOrder(s, id, s.pay.ledger[i].pid);
    assert ST.CallFor(s.pay.ledger[i], s.calls[id].order.value);
    forall j | 0 <= j < |s.pay.ledger| && s.pay.ledger[j].key == Canonical(id) ensures j == i {
      assert s.pay.payments[s.pay.ledger[j].pid].key == row.key;
    }
  }

  // ---------------------------------------------------------------------------
  // Continuing a run

  lemma Extend(retries: int, polly: nat, acts: seq<Action>, a: Action) returns (later: seq<Action>)
    requires Legal(retries, polly, acts) && Enabled(Run(retries, polly, acts), a)
    ensures later == acts + [a] && Legal(retries, polly, later)
    ensures Run(retries, polly, later) == Apply(Run(retries, polly, acts), a)
  {
    later := acts + [a];
    assert later[..|acts|] == acts;
  }

  /** `later` goes on from `acts`, and only payment-service has moved. */
  predicate OnlyPayMoved(retries: int, polly: nat, acts: seq<Action>, later: seq<Action>) {
    && Legal(retries, polly, acts) && Legal(retries, polly, later) && acts <= later
    && Run(retries, polly, later) == Run(retries, polly, acts).(pay := Run(retries, polly, later).pay)
  }

  lemma PayStep(retries: int, polly: nat, acts: seq<Action>, act: P.Action) returns (later: seq<Action>)
    requires Legal(retries, polly, acts) && P.Enabled(Run(retries, polly, acts).pay, act) && !act.Send?
    ensures OnlyPayMoved(retries, polly, acts, later)
    ensures Run(retries, polly, later).pay == P.Apply(Run(retries, polly, acts).pay, act)
  {
    later := Extend(retries, polly, acts, Pay(act));
  }

  const APPROVAL := Returned(GatewayResult(true, Some("txn"), None))

  /** Handler h is about to call the gateway for this key, or waits for its answer. */
  predicate Working(pay: P.State, h: nat, key: IdText) {
    P.At(pay, h) && (P.PcOf(pay, h).Inserted? || P.PcOf(pay, h).Calling?) && P.PcOf(pay, h).payment.key == key
  }

  /** The gateway approves. */
  lemma Approve(retries: int, polly: nat, acts: seq<Action>, h: nat, id: nat) returns (later: seq<Action>)
    requires Legal(retries, polly, acts)
    requires var pay := Run(retries, polly, acts).pay; Working(pay, h, Canonical(id)) && P.PcOf(pay, h).Calling?
    ensures OnlyPayMoved(retries, polly, acts, later) && !ST.NothingCaptured(Run(retries, polly, later).pay, id)
    ensures var pay := Run(retries, polly, later).pay; P.At(pay, h) && P.PcOf(pay, h).Called?
    ensures Run(retries, polly, later).pay.handlers[h].env == Run(retries, polly, acts).pay.handlers[h].env
  {
    ST.RunInv(retries, polly, acts);
    var pay := Run(retries, polly, acts).pay;
    later := PayStep(retries, polly, acts, P.GatewayReturn(h, APPROVAL));
    var i := P.PcOf(pay, h).call;
    assert pay.ledger[i].key == Canonical(id);
    assert PT.Approved(Run(retries, polly, later).pay.ledger[i]);
  }

  lemma CallAndApprove(retries: int, polly: nat, acts: seq<Action>, h: nat, id: nat) returns (later: seq<Action>)
    requires Legal(retries, polly, acts) && Working(Run(retries, polly, acts).pay, h, Canonical(id))
    ensures OnlyPayMoved(retries, polly, acts, later) && !ST.NothingCaptured(Run(retries, polly, later).pay, id)
    ensures var pay := Run(retries, polly, later).pay; P.At(pay, h) && P.PcOf(pay, h).Called?
    ensures Run(retries, polly, later).pay.handlers[h].env == Run(retries, polly, acts).pay.handlers[h].env
  {
    later := acts;
    if P.PcOf(Run(retries, polly, acts).pay, h).Inserted? {
      later := PayStep(retries, polly, acts, P.CallGateway(h));
    }
    later := Approve(retries, polly, later, h, id);
  }

  lemma FreshNat(used: set<nat>) returns (n: nat)
    ensures forall x :: x in used ==> x < n
  {
    n := 0;
    if used != {} {
      var x :| x in used;
      n := FreshNat(used - {x});
      assert forall y :: y in used ==> y == x || y in used - {x};
      n := if x < n then n else x + 1;
    }
  }

  /** A request that is still on the network arrives, and finds no row. */
  lemma Arrive(retries: int, polly: nat, acts: seq<Action>, env: Envelope) returns (later: seq<Action>, h: nat)
    requires Legal(retries, polly, acts) && env in Run(retries, polly, acts).pay.requests
    requires ModelIsValid(env.body) && P.NoRowFor(Run(retries, polly, acts).pay, KeyOf(env))
    ensures OnlyPayMoved(retries, polly, acts, later)
    ensures var pay := Run(retries, polly, later).pay;
      && h in pay.handlers && pay.handlers[h] == P.Handler(env, P.Missed)
      && pay.payments == Run(retries, polly, acts).pay.payments
  {
    h := FreshNat(Run(retries, polly, acts).pay.handlers.Keys);
    later := PayStep(retries, polly, acts, P.Deliver(h, env));
    later := PayStep(retries, polly, later, P.Lookup(h, None));
  }

  /** ... and its row is inserted. */
  lemma ArriveAndInsert(retries: int, polly: nat, acts: seq<Action>, env: Envelope, id: nat)
      returns (later: seq<Action>, h: nat, row: Payment)
    requires Legal(retries, polly, acts) && env in Run(retries, polly, acts).pay.requests
    requires ModelIsValid(env.body) && GuidsParse(env) && KeyOf(env) == Canonical(id)
    requires P.NoRowFor(Run(retries, polly, acts).pay, KeyOf(env))
    ensures OnlyPayMoved(retries, polly, acts, later) && MadeFor(row, env) && PI.Fresh(row)
    ensures var pay := Run(retries, polly, later).pay;
      h in pay.handlers && pay.handlers[h] == P.Handler(env, P.Inserted(row))
  {
    later, h := Arrive(retries, polly, acts, env);
    var pid := FreshNat(Run(retries, polly, later).pay.payments.Keys);
    row := NewPayment(env, pid);
    assert RowFits(row);
    later := PayStep(retries, polly, later, P.Insert(h, pid, P.Committed));
  }

  lemma ArriveAndCapture(retries: int, polly: nat, acts: seq<Action>, env: Envelope, id: nat)
      returns (later: seq<Action>, h: nat)
    requires Legal(retries, polly, acts) && env in Run(retries, polly, acts).pay.requests
    requires ModelIsValid(env.body) && GuidsParse(env) && KeyOf(env) == Canonical(id)
    requires P.NoRowFor(Run(retries, polly, acts).pay, KeyOf(env))
    ensures OnlyPayMoved(retries, polly, acts, later) && !ST.NothingCaptured(Run(retries, polly, later).pay, id)
    ensures var pay := Run(retries, polly, later).pay;
      P.At(pay, h) && P.PcOf(pay, h).Called? && pay.handlers[h].env == env
  {
    var row;
    later, h, row := ArriveAndInsert(retries, polly, acts, env, id);
    later := CallAndApprove(retries, polly, later, h, id);
  }

  // ---------------------------------------------------------------------------
  // Which answered orders can still be charged

  /** Every charge request that was counted is on the network. */
  predicate SentIsOnWire(s: State) {
    forall id :: id in s.calls && s.calls[id].sends > 0 ==>
      s.calls[id].order.Some? && ChargeFor(s.calls[id].order.value) in s.pay.requests
  }

  lemma StepSent(s: State, a: Action)
    requires SentIsOnWire(s) && Enabled(s, a)
    ensures SentIsOnWire(Apply(s, a))
  {
    match a
    case Pay(act) => SI.OnlySendAddsRequests(s.pay, act);
    case _ =>
  }

  lemma {:induction false} RunSent(retries: int, polly: nat, acts: seq<Action>)
    requires Legal(retries, polly, acts)
    ensures SentIsOnWire(Run(retries, polly, acts))
    decreases |acts|
  {
    if acts != [] {
      RunSent(retries, polly, acts[..|acts| - 1]);
      StepSent(Run(retries, polly, acts[..|acts| - 1]), acts[|acts| - 1]);
    }
  }

  /** A request of at least a cent was sent, and either no row has been stored for it or
      some handler holds the row and has no answer from the gateway yet. */
  ghost predicate ChargeIsOpen(s: State, id: nat) {
    && In(s, id) && s.calls[id].order.Some? && s.calls[id].order.value.totalCents >= 1 && s.calls[id].sends > 0
    && (P.NoRowFor(s.pay, Canonical(id)) || exists h :: Working(s.pay, h, Canonical(id)))
  }

  /** Nobody will ever call the gateway for this key again, and no call was approved. */
  ghost predicate Sealed(pay: P.State, id: nat) {
    && !P.NoRowFor(pay, Canonical(id)) && ST.NothingCaptured(pay, id)
    && forall h :: h in pay.handlers ==> !Working(pay, h, Canonical(id))
  }

  lemma SealedStays(pay: P.State, act: P.Action, id: nat)
    requires PI.Inv(pay) && P.Enabled(pay, act) && Sealed(pay, id)
    ensures Sealed(P.Apply(pay, act), id)
  {
    PI.StepKeeps(pay, act);
    var p :| p in pay.payments && pay.payments[p].key == Canonical(id);
    var t := P.Apply(pay, act);
    assert t.payments[p].key == Canonical(id);
    SealedHandlers(pay, act, id);
    SealedLedger(pay, act, id);
  }

  lemma SealedHandlers(pay: P.State, act: P.Action, id: nat)
    requires P.Enabled(pay, act) && !P.NoRowFor(pay, Canonical(id))
    requires forall h :: h in pay.handlers ==> !Working(pay, h, Canonical(id))
    ensures forall h :: h in P.Apply(pay, act).handlers ==> !Working(P.Apply(pay, act), h, Canonical(id))
  {
    var t := P.Apply(pay, act);
    forall h | h in t.handlers ensures !Working(t, h, Canonical(id)) {
      assert h in pay.handlers ==> !Working(pay, h, Canonical(id));
    }
  }

  lemma SealedLedger(pay: P.State, act: P.Action, id: nat)
    requires PI.HandlersOk(pay) && PI.LedgerOk(pay) && P.Enabled(pay, act) && ST.NothingCaptured(pay, id)
    requires forall h :: h in pay.handlers ==> !Working(pay, h, Canonical(id))
    ensures ST.NothingCaptured(P.Apply(pay, act), id)
  {
    var t := P.Apply(pay, act);
    if act.GatewayReturn? {
      assert !Working(pay, act.h, Canonical(id));
      assert pay.ledger[P.PcOf(pay, act.h).call].key != Canonical(id);
    }
    forall i | 0 <= i < |t.ledger| && t.ledger[i].key == Canonical(id) ensures !PT.Approved(t.ledger[i]) {
      assert i < |pay.ledger| ==> pay.ledger[i].key == Canonical(id);
    }
  }

  lemma {:induction false} SealedForever(retries: int, polly: nat, acts: seq<Action>, later: seq<Action>, id: nat)
    requires Legal(retries, polly, acts) && Legal(retries, polly, later) && acts <= later
    requires Sealed(Run(retries, polly, acts).pay, id)
    ensures Sealed(Run(retries, polly, later).pay, id)
    decreases |later|
  {
    if |acts| == |later| {
      assert acts == later;
    } else {
      var before, a := later[..|later| - 1], later[|later| - 1];
      SealedForever(retries, polly, acts, before, id);
      ST.RunInv(retries, polly, before);
      var s := Run(retries, polly, before);
      if a.Pay? {
        SealedStays(s.pay, a.act, id);
      } else if a.SendCharge? {
        SealedStays(s.pay, P.Send(ChargeFor(s.calls[a.id].order.value)), id);
      }
    }
  }

  /** Some continuation of the run ends with money captured for this order. */
  ghost predicate MayBeCaptured(retries: int, polly: nat, acts: seq<Action>, id: nat) {
    exists later ::
      acts <= later && Legal(retries, polly, later) && !ST.NothingCaptured(Run(retries, polly, later).pay, id)
  }

  /** After the 402, exactly these orders are charged in some continuation: those
      charged already, and those whose charge is open. In particular a payment that was
      declined while the response was lost never is, and neither is one whose handler
      stopped before it called the gateway. */
  lemma CapturedAfterFailure(retries: int, polly: nat, acts: seq<Action>, id: nat)
    requires Legal(retries, polly, acts) && In(Run(retries, polly, acts), id)
    requires Run(retries, polly, acts).calls[id].stage == Done(402)
    ensures MayBeCaptured(retries, polly, acts, id) <==>
              !ST.NothingCaptured(Run(retries, polly, acts).pay, id) || ChargeIsOpen(Run(retries, polly, acts), id)
  {
    var s := Run(retries, polly, acts);
    if ChargeIsOpen(s, id) {
      var later := CaptureLater(retries, polly, acts, id);
    } else if !ST.NothingCaptured(s.pay, id) {
      assert acts <= acts;
    } else {
      forall later | acts <= later && Legal(retries, polly, later)
        ensures ST.NothingCaptured(Run(retries, polly, later).pay, id)
      {
        ClosedStaysUncaptured(retries, polly, acts, later, id);
      }
    }
  }

  lemma CaptureLater(retries: int, polly: nat, acts: seq<Action>, id: nat) returns (later: seq<Action>)
    requires Legal(retries, polly, acts) && ChargeIsOpen(Run(retries, polly, acts), id)
    ensures OnlyPayMoved(retries, polly, acts, later) && !ST.NothingCaptured(Run(retries, polly, later).pay, id)
  {
    var s := Run(retries, polly, acts);
    if P.NoRowFor(s.pay, Canonical(id)) {
      RunSent(retries, polly, acts);
      ST.RunInv(retries, polly, acts);
      Chargeable(s, id);
      var h;
      later, h := ArriveAndCapture(retries, polly, acts, ChargeFor(s.calls[id].order.value), id);
    } else {
      var h :| Working(s.pay, h, Canonical(id));
      later := CallAndApprove(retries, polly, acts, h, id);
    }
  }

  /** A sent request of at least a cent passes every check of payment-service. */
  lemma Chargeable(s: State, id: nat)
    requires SI.Inv(s) && In(s, id) && s.calls[id].sends > 0
    requires s.calls[id].order.Some? && s.calls[id].order.value.totalCents >= 1
    ensures var env := ChargeFor(s.calls[id].order.value);
      ModelIsValid(env.body) && GuidsParse(env) && KeyOf(env) == Canonical(id)
  {
    var o := s.calls[id].order.value;
    assert SI.CallWellFormed(s.retries, id, s.calls[id]) && SI.CallMatchesTables(s, id, s.calls[id]);
    assert SI.RowMatchesOrder(s.tables, id, o);
    assert o.currency == "USD" && !IsSpace(o.currency[0]);
  }

  lemma ClosedStaysUncaptured(retries: int, polly: nat, acts: seq<Action>, later: seq<Action>, id: nat)
    requires Legal(retries, polly, acts) && Legal(retries, polly, later) && acts <= later
    requires In(Run(retries, polly, acts), id) && Run(retries, polly, acts).calls[id].stage == Done(402)
    requires ST.NothingCaptured(Run(retries, polly, acts).pay, id) && !ChargeIsOpen(Run(retries, polly, acts), id)
    ensures ST.NothingCaptured(Run(retries, polly, later).pay, id)
  {
    var s, t := Run(retries, polly, acts), Run(retries, polly, later);
    var c := s.calls[id];
    if c.order.Some? && c.order.value.totalCents >= 1 && c.sends > 0 {
      assert Sealed(s.pay, id);
      SealedForever(retries, polly, acts, later, id);
    } else {
      assert later[..|acts|] == acts;
      ST.HistoryIsKept(retries, polly, later, |acts|);
      ST.RunInv(retries, polly, later);
      UnchargeableIsNotCalled(t, id);
    }
  }

  // ---------------------------------------------------------------------------
  // FAILED and charged

  /** The pricing loop can make this order, and the tables accept it. */
  predicate CanBeStored(order: Order) {
    IsPricedOrder(order.id, order) && Insertable(Tables(map[], map[]), order)
  }

  /** The run leaves this order stored as FAILED. */
  predicate LeavesFailed(retries: int, polly: nat, acts: seq<Action>, order: Order) {
    && Legal(retries, polly, acts)
    && var s, id := Run(retries, polly, acts), order.id;
      && In(s, id) && s.calls[id].order == Some(order)
      && id in s.tables.orders && s.tables.orders[id].status.OrderFailed?
  }

  /** ... after the payment client handed back `reply`, or an error. */
  predicate FailedBy(retries: int, polly: nat, acts: seq<Action>, order: Order, reply: Option<P.Reply>) {
    LeavesFailed(retries, polly, acts, order) && Decide(order.id, reply) in acts
  }

  /** The order is priced and stored, and nothing has been charged. */
  lemma Stored(retries: int, polly: nat, order: Order) returns (acts: seq<Action>)
    requires CanBeStored(order)
    ensures Legal(retries, polly, acts)
    ensures var tables := WithOrder(Tables(map[], map[]), order);
      Run(retries, polly, acts)
        == State(retries, P.Init(polly), tables, map[order.id := OrderCall(Persisted, Some(order), 0)])
  {
    var id := order.id;
    acts := Extend(retries, polly, [], Begin(id));
    acts := Extend(retries, polly, acts, Price(id, order));
    acts := Extend(retries, polly, acts, Persist(id, P.Committed));
  }

  /** ... and its first charge request is on the network. */
  lemma Sent(retries: int, polly: nat, order: Order) returns (acts: seq<Action>)
    requires CanBeStored(order) && order.totalCents >= 1 && retries >= 0
    ensures Legal(retries, polly, acts)
    ensures var s, env := Run(retries, polly, acts), ChargeFor(order);
      && s.tables == WithOrder(Tables(map[], map[]), order)
      && s.calls == map[order.id := OrderCall(Charging, Some(order), 1)]
      && env in s.pay.requests && P.NoRowFor(s.pay, Canonical(order.id))
      && ModelIsValid(env.body) && GuidsParse(env) && KeyOf(env) == Canonical(order.id)
  {
    acts := Stored(retries, polly, order);
    acts := Extend(retries, polly, acts, SendCharge(order.id));
    ST.RunInv(retries, polly, acts);
    Chargeable(Run(retries, polly, acts), order.id);
  }

  /** The handler of this request has ended in an exception, answered with 500. */
  ghost predicate AnsweredWith500(pay: P.State, env: Envelope) {
    exists h :: h in pay.handlers && pay.handlers[h] == P.Handler(env, P.Aborted)
  }

  /** The order is stored, its one charge request is approved, and the save of the
      result fails: the handler ends with 500, which order-service does not retry. */
  lemma ApprovedButNotSaved(retries: int, polly: nat, order: Order) returns (acts: seq<Action>)
    requires CanBeStored(order) && order.totalCents >= 1 && retries >= 0
    ensures Legal(retries, polly, acts)
    ensures var s := Run(retries, polly, acts);
      && s.tables == WithOrder(Tables(map[], map[]), order)
      && s.calls == map[order.id := OrderCall(Charging, Some(order), 1)]
      && AnsweredWith500(s.pay, ChargeFor(order)) && !ST.NothingCaptured(s.pay, order.id)
  {
    acts := Sent(retries, polly, order);
    var h;
    acts, h := ArriveAndCapture(retries, polly, acts, ChargeFor(order), order.id);
    acts := SaveFails(retries, polly, acts, h, order.id);
  }

  lemma SaveFails(retries: int, polly: nat, acts: seq<Action>, h: nat, id: nat) returns (later: seq<Action>)
    requires Legal(retries, polly, acts)
    requires var pay := Run(retries, polly, acts).pay; P.At(pay, h) && P.PcOf(pay, h).Called?
    requires !ST.NothingCaptured(Run(retries, polly, acts).pay, id)
    ensures OnlyPayMoved(retries, polly, acts, later) && !ST.NothingCaptured(Run(retries, polly, later).pay, id)
    ensures AnsweredWith500(Run(retries, polly, later).pay, Run(retries, polly, acts).pay.handlers[h].env)
  {
    later := PayStep(retries, polly, acts, P.Save(h, P.RolledBack));
    var before, after := Run(retries, polly, acts).pay, Run(retries, polly, later).pay;
    assert after.ledger == before.ledger;
    assert after.handlers[h] == P.Handler(before.handlers[h].env, P.Aborted);
  }

  /** For every order of at least a cent, whatever its id and the retry settings from 0
      up: a run leaves it FAILED, answered with 402, and captured exactly once. Its one
      charge request was approved and answered with 500, because the result could not be
      saved. */
  lemma FailedYetCharged(retries: int, polly: nat, order: Order) returns (acts: seq<Action>)
    requires CanBeStored(order) && order.totalCents >= 1 && retries >= 0
    ensures FailedBy(retries, polly, acts, order, None)
    ensures var s := Run(retries, polly, acts);
      && s.calls[order.id] == OrderCall(Done(402), Some(order), 1)
      && AnsweredWith500(s.pay, ChargeFor(order)) && ST.CapturedExactlyOnce(s.pay, order)
  {
    var before := ApprovedButNotSaved(retries, polly, order);
    acts := Extend(retries, polly, before, Decide(order.id, None));
    acts := Extend(retries, polly, acts, UpdateStatus(order.id, P.Committed));
    assert acts[|before|] == Decide(order.id, None);
    ST.RunInv(retries, polly, acts);
    CapturedIsExact(Run(retries, polly, acts), order.id);
  }

  /** A FAILED order that was decided by a decoded response, not by an error, is
      never captured: neither now nor in any continuation. */
  lemma DecodedFailureIsUncaptured(retries: int, polly: nat, acts: seq<Action>, order: Order, r: P.Reply)
    requires FailedBy(retries, polly, acts, order, Some(r))
    ensures r.payment.status.Declined? && !MayBeCaptured(retries, polly, acts, order.id)
  {
    var n :| 0 <= n < |acts| && acts[n] == Decide(order.id, Some(r));
    ST.VerdictAgreement(retries, polly, acts, n, order.id, r);
    forall later | acts <= later && Legal(retries, polly, later)
      ensures ST.NothingCaptured(Run(retries, polly, later).pay, order.id)
    {
      assert later[n] == acts[n];
      ST.VerdictAgreement(retries, polly, later, n, order.id, r);
    }
  }

  /** No run with these settings captures anything for this order. */
  lemma NeverCharged(retries: int, polly: nat, acts: seq<Action>, order: Order)
    requires Legal(retries, polly, acts) && In(Run(retries, polly, acts), order.id)
    requires Run(retries, polly, acts).calls[order.id].order == Some(order)
    requires order.totalCents < 1 || retries < 0
    ensures ST.NothingCaptured(Run(retries, polly, acts).pay, order.id)
  {
    ST.RunInv(retries, polly, acts);
    var s := Run(retries, polly, acts);
    assert SI.CallWellFormed(s.retries, order.id, s.calls[order.id]);
    UnchargeableIsNotCalled(s, order.id);
  }

  lemma StoredCanBeStored(retries: int, polly: nat, acts: seq<Action>, order: Order)
    requires Legal(retries, polly, acts) && In(Run(retries, polly, acts), order.id)
    requires Run(retries, polly, acts).calls[order.id].order == Some(order)
    requires order.id in Run(retries, polly, acts).tables.orders
    ensures CanBeStored(order)
  {
    ST.RunInv(retries, polly, acts);
    var s := Run(retries, polly, acts);
    assert SI.RowMatchesOrder(s.tables, order.id, order);
    assert SI.CallWellFormed(s.retries, order.id, s.calls[order.id]);
  }

  /** Exactly when FAILED means uncharged: every run that leaves this order FAILED has
      captured nothing for it if and only if its total is below one cent, or
      order-service is configured to send no request at all, or no such order can get
      into the tables in the first place. */
  lemma FailedMeansUnchargedExactlyWhen(retries: int, polly: nat, order: Order)
    ensures (forall acts | LeavesFailed(retries, polly, acts, order) ::
               ST.NothingCaptured(Run(retries, polly, acts).pay, order.id))
            <==> order.totalCents < 1 || retries < 0 || !CanBeStored(order)
  {
    if order.totalCents >= 1 && retries >= 0 && CanBeStored(order) {
      var acts := FailedYetCharged(retries, polly, order);
      assert LeavesFailed(retries, polly, acts, order);
    } else {
      forall acts | LeavesFailed(retries, polly, acts, order)
        ensures ST.NothingCaptured(Run(retries, polly, acts).pay, order.id)
      {
        StoredCanBeStored(retries, polly, acts, order);
        NeverCharged(retries, polly, acts, order);
      }
    }
  }
}
