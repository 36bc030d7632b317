/** PaymentProcessingService.ChargeAsync and PaymentsController.Charge. */
module PaymentProcessing {
  import opened Wrappers
  import opened Payments
  import opened OrderSaga
  import opened Worlds
  import P = PaymentProtocol

  /** What the database and the gateway do to one ChargeAsync: a failing lookup,
      how the two saves end, how many POSTs are made for the gateway call, and what
      it returns, where None is an exception that ChargeAsync does not catch
      (cancellation, an unreadable body, a crash). */
  datatype ChargeWeather = ChargeWeather(
    lookupFails: bool,
    insert: P.Commit,
    posts: nat,
    gateway: Option<GatewayOutcome>,
    save: P.Commit)

  datatype ChargeResult = Stored(payment: Payment) | ArgumentError | Failure

  predicate HandlerAt(s: State, h: nat, env: Envelope, pc: P.Pc) {
    h in s.pay.handlers && s.pay.handlers[h] == P.Handler(env, pc)
  }

  /** FirstOrDefaultAsync: some row with the key, if there is one. */
  method FirstOrDefault(w: World, key: IdText) returns (found: Option<Payment>)
    requires w.Valid()
    ensures P.IsFirstOrDefault(w.st.pay, key, found)
  {
    w.Facts();
    var rest := w.st.pay.payments.Keys;
    while rest != {}
      invariant rest <= w.st.pay.payments.Keys
      invariant forall p :: p in w.st.pay.payments.Keys - rest ==> w.st.pay.payments[p].key != key
      decreases |rest|
    {
      var p :| p in rest;
      if w.st.pay.payments[p].key == key {
        return Some(w.st.pay.payments[p]);
      }
      rest := rest - {p};
    }
    found := None;
  }

  /** Call i of the ledger was made for this row, with so many POSTs. */
  predicate CallRecorded(s: P.State, i: nat, payment: Payment, posts: nat, outcome: P.CallOutcome) {
    i < |s.ledger| && s.ledger[i] == P.NewCall(payment).(posts := posts, outcome := outcome)
  }

  function AtMost(n: nat, bound: nat): nat {
    if n < bound then n else bound
  }

  /** Handler h waits for call i, with so many POSTs made. */
  predicate WaitsFor(s: State, h: nat, env: Envelope, payment: Payment, i: nat, posts: nat) {
    HandlerAt(s, h, env, P.Calling(payment, i)) && CallRecorded(s.pay, i, payment, posts, P.InFlight)
  }

  /** POST number n + 1, if Polly allows it. */
  method PostOnce(w: World, h: nat, ghost env: Envelope, ghost payment: Payment, ghost call: nat, ghost n: nat)
    requires w.Valid() && WaitsFor(w.st, h, env, payment, call, AtMost(n, w.polly + 1))
    modifies w`st, w`trace, w`schedule
    ensures w.Valid() && w.Later(old(w.trace))
    ensures WaitsFor(w.st, h, env, payment, call, AtMost(n + 1, w.polly + 1))
  {
    w.PollyIsConfigured();
    if P.Enabled(w.st.pay, P.GatewayPost(h)) {
      w.Act(Pay(P.GatewayPost(h)));
    }
    w.Interfere(HandlerOf(h));
  }

  /** The gateway call, with its POSTs, of which Polly allows one more than its retries;
      others run meanwhile. */
  method CallGateway(w: World, h: nat, ghost env: Envelope, payment: Payment, weather: ChargeWeather)
      returns (ok: bool)
    requires w.Valid() && HandlerAt(w.st, h, env, P.Inserted(payment))
    modifies w`st, w`trace, w`schedule
    ensures w.Valid() && w.Later(old(w.trace) + [Pay(P.CallGateway(h))])
    ensures ok <==> weather.gateway.Some?
    ensures CallRecorded(w.st.pay, |old(w.st.pay.ledger)|, payment, AtMost(weather.posts, w.polly + 1),
                         if ok then P.Finished(weather.gateway.value) else P.InFlight)
    ensures HandlerAt(w.st, h, env, if ok then P.Called(payment, |old(w.st.pay.ledger)|, weather.gateway.value)
                                    else P.Aborted)
  {
    ghost var call := |w.st.pay.ledger|;
    ghost var called := w.trace + [Pay(P.CallGateway(h))];
    w.Act(Pay(P.CallGateway(h)));
    for i := 0 to weather.posts
      invariant w.Valid() && w.Later(called)
      invariant WaitsFor(w.st, h, env, payment, call, AtMost(i, w.polly + 1))
    {
      PostOnce(w, h, env, payment, call, i);
    }
    w.Interfere(HandlerOf(h));
    ok := EndCall(w, h, env, payment, call, AtMost(weather.posts, w.polly + 1), weather.gateway);
  }

  /** The gateway client comes back, or its exception escapes. */
  method EndCall(w: World, h: nat, ghost env: Envelope, ghost payment: Payment, ghost call: nat, ghost posts: nat,
      gateway: Option<GatewayOutcome>) returns (ok: bool)
    requires w.Valid() && WaitsFor(w.st, h, env, payment, call, posts)
    modifies w`st, w`trace
    ensures w.Valid() && w.Later(old(w.trace)) && (ok <==> gateway.Some?)
    ensures CallRecorded(w.st.pay, call, payment, posts, if ok then P.Finished(gateway.value) else P.InFlight)
    ensures HandlerAt(w.st, h, env, if ok then P.Called(payment, call, gateway.value) else P.Aborted)
  {
    ok := gateway.Some?;
    w.Act(Pay(if ok then P.GatewayReturn(h, gateway.value) else P.Abort(h)));
  }

  /** What the insert amounts to: with an id that is taken, nothing but an exception. */
  function InsertStep(s: State, h: nat, pid: nat, commit: P.Commit): Action {
    Pay(if pid in s.pay.payments then P.Abort(h) else P.Insert(h, pid, commit))
  }

  /** Insert the Pending row; a duplicate key or a failed commit is an exception. */
  method InsertPending(w: World, h: nat, env: Envelope, payment: Payment, commit: P.Commit) returns (ok: bool)
    requires w.Valid() && HandlerAt(w.st, h, env, P.Missed)
    requires GuidsParse(env) && payment == NewPayment(env, payment.id)
    modifies w`st, w`trace
    ensures w.Valid() && w.Later(old(w.trace))
    ensures w.trace == old(w.trace) + [InsertStep(old(w.st), h, payment.id, commit)]
    ensures HandlerAt(w.st, h, env, if ok then P.Inserted(payment) else P.Aborted)
    ensures ok <==>
              && payment.id !in old(w.st.pay.payments) && P.NoRowFor(old(w.st.pay), payment.key)
              && RowFits(payment) && commit.Committed?
  {
    if payment.id in w.st.pay.payments {
      w.Act(Pay(P.Abort(h)));
      return false;
    }
    w.Act(Pay(P.Insert(h, payment.id, commit)));
    ok := w.st.pay.handlers[h].pc.Inserted?;
  }

  /** The first await: a stored payment for the key is the answer. */
  method LookUp(w: World, h: nat, env: Envelope, fails: bool) returns (ok: bool, existing: Option<Payment>)
    requires w.Valid() && HandlerAt(w.st, h, env, P.Received)
    modifies w`st, w`trace
    ensures w.Valid() && w.Later(old(w.trace))
    ensures ok <==> !fails
    ensures w.trace == old(w.trace) + [Pay(if ok then P.Lookup(h, existing) else P.Abort(h))]
    ensures !ok ==> HandlerAt(w.st, h, env, P.Aborted)
    ensures ok ==> P.IsFirstOrDefault(old(w.st.pay), KeyOf(env), existing)
    ensures ok && existing.None? ==> HandlerAt(w.st, h, env, P.Missed)
    ensures ok && existing.Some? ==>
              HandlerAt(w.st, h, env, P.Replied(existing.value)) && AnswerIsOnRecord(w.st.pay, env, existing.value)
  {
    ok, existing := !fails, None;
    if fails {
      w.Act(Pay(P.Abort(h)));
      return;
    }
    existing := FirstOrDefault(w, KeyOf(env));
    w.Act(Pay(P.Lookup(h, existing)));
  }

  /** The assignments to the row, in the try block and in its catch. */
  method ApplyOutcome(pending: Payment, outcome: GatewayOutcome) returns (payment: Payment)
    ensures payment == Settle(pending, outcome)
    ensures SameCharge(payment, pending) && (pending.transactionId.None? ==> ReportsOutcome(payment, outcome))
  {
    payment := pending;
    match outcome {
      case Returned(result) =>
        payment := payment.(status := if result.approved then Succeeded else Declined);
        payment := payment.(transactionId := result.transactionId);
        payment := payment.(failureReason := result.declineReason);
      case Unavailable =>
        payment := payment.(status := Failed);
        payment := payment.(failureReason := Some("gateway_unavailable"));
    }
  }

  /** The try block and the final save. */
  method ChargeAndSettle(w: World, h: nat, env: Envelope, pending: Payment, weather: ChargeWeather)
      returns (r: ChargeResult)
    requires w.Valid() && HandlerAt(w.st, h, env, P.Inserted(pending))
    modifies w`st, w`trace, w`schedule
    ensures w.Valid() && w.Later(old(w.trace))
    ensures w.DidOnce(|old(w.trace)|, Pay(P.CallGateway(h)))
    ensures weather.gateway.Some? ==> w.DidOnce(|old(w.trace)|, Pay(P.Save(h, weather.save)))
    ensures r.Stored? <==>
              weather.gateway.Some? && weather.save.Committed? && RowFits(Settle(pending, weather.gateway.value))
    ensures r.Stored? ==>
              && r.payment == Settle(pending, weather.gateway.value)
              && SameCharge(r.payment, pending)
              && (pending.transactionId.None? ==> ReportsOutcome(r.payment, weather.gateway.value))
              && HandlerAt(w.st, h, env, P.Replied(r.payment)) && AnswerIsOnRecord(w.st.pay, env, r.payment)
    ensures !r.Stored? ==> r.Failure? && HandlerAt(w.st, h, env, P.Aborted)
  {
    var payment := pending;
    w.Interfere(HandlerOf(h));
    ghost var calling := w.trace;
    var returned := CallGateway(w, h, env, payment, weather);
    if !returned {
      w.DidIt(calling, Pay(P.CallGateway(h)), |old(w.trace)|);
      return Failure;
    }
    payment := ApplyOutcome(payment, weather.gateway.value);
    w.Interfere(HandlerOf(h));
    ghost var saving := w.trace;
    r := SaveSettled(w, h, env, payment, weather.save);
    w.DidIt(calling, Pay(P.CallGateway(h)), |old(w.trace)|);
    w.DidIt(saving, Pay(P.Save(h, weather.save)), |old(w.trace)|);
  }

  /** The lookup at `looked` finds a row. */
  predicate Replays(looked: State, env: Envelope, weather: ChargeWeather) {
    !weather.lookupFails && !P.NoRowFor(looked.pay, KeyOf(env))
  }

  /** The lookup at `looked` finds no row. */
  predicate Misses(looked: State, env: Envelope, weather: ChargeWeather) {
    !weather.lookupFails && P.NoRowFor(looked.pay, KeyOf(env))
  }

  /** The insert at `met` goes through: the ids parse, the id and the key are new, key and
      currency fit their columns, and the commit is acknowledged. */
  predicate Inserts(met: State, env: Envelope, newId: nat, weather: ChargeWeather) {
    && GuidsParse(env)
    && newId !in met.pay.payments && P.NoRowFor(met.pay, KeyOf(env))
    && TextLength(KeyOf(env)) <= 100 && |env.body.currency| <= 3
    && weather.insert.Committed?
  }

  /** ... and so do the gateway call and the second save. */
  predicate Completes(met: State, env: Envelope, newId: nat, weather: ChargeWeather) {
    && Inserts(met, env, newId, weather)
    && weather.gateway.Some? && weather.save.Committed?
    && (weather.gateway.value.Returned? ==>
         && FitsIn(weather.gateway.value.result.transactionId, 100)
         && FitsIn(weather.gateway.value.result.declineReason, 255))
  }

  lemma DidBoth(w: World, h: nat, weather: ChargeWeather, from: nat, later: nat)
    requires from <= later
    ensures w.DidOnce(later, Pay(P.CallGateway(h))) ==> w.DidOnce(from, Pay(P.CallGateway(h)))
    ensures w.DidOnce(later, Pay(P.Save(h, weather.save))) ==> w.DidOnce(from, Pay(P.Save(h, weather.save)))
  {
    if w.DidOnce(later, Pay(P.CallGateway(h))) {
      w.DidSince(from, later, Pay(P.CallGateway(h)));
    }
    if w.DidOnce(later, Pay(P.Save(h, weather.save))) {
      w.DidSince(from, later, Pay(P.Save(h, weather.save)));
    }
  }

  /** From the insert, at `met`, to the final save. */
  method InsertAndCharge(w: World, h: nat, env: Envelope, payment: Payment, weather: ChargeWeather)
      returns (r: ChargeResult, ghost met: State)
    requires w.Valid() && HandlerAt(w.st, h, env, P.Missed)
    requires GuidsParse(env) && payment == NewPayment(env, payment.id)
    modifies w`st, w`trace, w`schedule
    ensures w.Valid() && w.Later(old(w.trace)) && !r.ArgumentError?
    ensures w.Did(|old(w.trace)|, met, InsertStep(met, h, payment.id, weather.insert))
    ensures Inserts(met, env, payment.id, weather) ==>
              && w.DidOnce(|old(w.trace)|, Pay(P.CallGateway(h)))
              && (weather.gateway.Some? ==> w.DidOnce(|old(w.trace)|, Pay(P.Save(h, weather.save))))
    ensures r.Stored? <==> Completes(met, env, payment.id, weather)
    ensures r.Stored? ==>
              && ReportsOutcome(r.payment, weather.gateway.value) && SameCharge(r.payment, payment)
              && HandlerAt(w.st, h, env, P.Replied(r.payment)) && AnswerIsOnRecord(w.st.pay, env, r.payment)
    ensures !r.Stored? ==> HandlerAt(w.st, h, env, P.Aborted)
  {
    w.Interfere(HandlerOf(h));
    met := w.st;
    ghost var before := w.trace;
    NewPaymentFits(env, payment.id);
    var inserted := InsertPending(w, h, env, payment, weather.insert);
    if inserted {
      ghost var from := |w.trace|;
      if weather.gateway.Some? {
        SettledFits(payment, weather.gateway.value);
      }
      r := ChargeAndSettle(w, h, env, payment, weather);
      DidBoth(w, h, weather, |old(w.trace)|, from);
    } else {
      r := Failure;
    }
    w.DidIt(before, InsertStep(met, h, payment.id, weather.insert), |old(w.trace)|);
  }

  /** ChargeAsync after the lookup has found nothing. `met` is where the insert came. */
  method ChargeNew(w: World, h: nat, env: Envelope, newId: nat, weather: ChargeWeather)
      returns (r: ChargeResult, ghost met: State)
    requires w.Valid() && HandlerAt(w.st, h, env, P.Missed)
    modifies w`st, w`trace, w`schedule
    ensures w.Valid() && w.Later(old(w.trace))
    ensures r.ArgumentError? <==> !GuidsParse(env)
    ensures GuidsParse(env) ==> w.Did(|old(w.trace)|, met, InsertStep(met, h, newId, weather.insert))
    ensures Inserts(met, env, newId, weather) ==>
              && w.DidOnce(|old(w.trace)|, Pay(P.CallGateway(h)))
              && (weather.gateway.Some? ==> w.DidOnce(|old(w.trace)|, Pay(P.Save(h, weather.save))))
    ensures r.Stored? <==> Completes(met, env, newId, weather)
    ensures r.Stored? ==>
              && r.payment.id == newId && IsChargeOf(r.payment, env)
              && ReportsOutcome(r.payment, weather.gateway.value)
              && HandlerAt(w.st, h, env, P.Replied(r.payment)) && AnswerIsOnRecord(w.st.pay, env, r.payment)
    ensures !r.Stored? ==> HandlerAt(w.st, h, env, if r.ArgumentError? then P.BadRequest else P.Aborted)
  {
    met := w.st;
    if ParseId(env.body.orderId).None? || ParseId(env.body.userId).None? {
      w.Act(Pay(P.RejectIds(h)));
      return ArgumentError, met;
    }
    var payment := Payment(newId, ParseId(env.body.orderId).value, ParseId(env.body.userId).value,
                           env.body.amountCents, ToUpper(env.body.currency), Pending, None, None, KeyOf(env));
    r, met := InsertAndCharge(w, h, env, payment, weather);
  }

  /** ChargeAsync, run by handler h. `newId` is what Guid.NewGuid() returns; `looked`
      and `met` are where the lookup and the insert came. Every effect is an action of
      the payment protocol, so the at-most-once, replay and conservation theorems hold
      of this code. */
  method ChargeAsync(w: World, h: nat, env: Envelope, newId: nat, weather: ChargeWeather)
      returns (r: ChargeResult, ghost looked: State, ghost met: State)
    requires w.Valid() && HandlerAt(w.st, h, env, P.Received)
    modifies w`st, w`trace, w`schedule
    ensures w.Valid() && w.Later(old(w.trace))
    ensures !weather.lookupFails ==> exists found :: w.Did(|old(w.trace)|, looked, Pay(P.Lookup(h, found)))
    ensures Misses(looked, env, weather) && GuidsParse(env) ==>
              w.Did(|old(w.trace)|, met, InsertStep(met, h, newId, weather.insert))
    ensures Misses(looked, env, weather) && Inserts(met, env, newId, weather) ==>
              && w.DidOnce(|old(w.trace)|, Pay(P.CallGateway(h)))
              && (weather.gateway.Some? ==> w.DidOnce(|old(w.trace)|, Pay(P.Save(h, weather.save))))
    // a payment, if the lookup finds one or everything goes through; else which exception
    ensures r.Stored? <==>
              Replays(looked, env, weather) || (Misses(looked, env, weather) && Completes(met, env, newId, weather))
    ensures r.ArgumentError? <==> Misses(looked, env, weather) && !GuidsParse(env)
    ensures r.Stored? ==>
              if Replays(looked, env, weather) then P.IsFirstOrDefault(looked.pay, KeyOf(env), Some(r.payment))
              else r.payment.id == newId && IsChargeOf(r.payment, env)
                   && ReportsOutcome(r.payment, weather.gateway.value)
    ensures r.Stored? ==> HandlerAt(w.st, h, env, P.Replied(r.payment)) && AnswerIsOnRecord(w.st.pay, env, r.payment)
    ensures !r.Stored? ==> HandlerAt(w.st, h, env, if r.ArgumentError? then P.BadRequest else P.Aborted)
  {
    w.Interfere(HandlerOf(h));
    looked, met := w.st, w.st;
    ghost var before := w.trace;
    var found, existing := LookUp(w, h, env, weather.lookupFails);
    if !found {
      return Failure, looked, met;
    }
    if existing.Some? {
      w.DidIt(before, Pay(P.Lookup(h, existing)), |old(w.trace)|);
      return Stored(existing.value), looked, met;
    }
    ghost var from := |w.trace|;
    r, met := ChargeNew(w, h, env, newId, weather);
    DidBoth(w, h, weather, |old(w.trace)|, from);
    w.DidIt(before, Pay(P.Lookup(h, existing)), |old(w.trace)|);
  }

  /** The second SaveChangesAsync. */
  method SaveSettled(w: World, h: nat, env: Envelope, payment: Payment, commit: P.Commit) returns (r: ChargeResult)
    requires w.Valid() && h in w.st.pay.handlers && w.st.pay.handlers[h].env == env && w.st.pay.handlers[h].pc.Called?
    requires payment == Settle(w.st.pay.handlers[h].pc.payment, w.st.pay.handlers[h].pc.outcome)
    modifies w`st, w`trace
    ensures w.Valid() && w.trace == old(w.trace) + [Pay(P.Save(h, commit))]
    ensures r.Stored? <==> commit.Committed? && RowFits(payment)
    ensures r.Stored? ==>
              && r.payment == payment
              && HandlerAt(w.st, h, env, P.Replied(payment)) && AnswerIsOnRecord(w.st.pay, env, payment)
    ensures !r.Stored? ==> r.Failure? && HandlerAt(w.st, h, env, P.Aborted)
  {
    OwnRow(w, h);
    w.Act(Pay(P.Save(h, commit)));
    r := if commit.Committed? && RowFits(payment) then Stored(payment) else Failure;
  }

  lemma OwnRow(w: World, h: nat)
    requires w.Valid() && h in w.st.pay.handlers && w.st.pay.handlers[h].pc.Called?
    ensures w.st.pay.handlers[h].pc.payment.key == KeyOf(w.st.pay.handlers[h].env)
  {
    w.Facts();
    assert MadeFor(w.st.pay.handlers[h].pc.payment, w.st.pay.handlers[h].env);
  }

  /** The row is in the table under the request's key, and the response is out. */
  predicate AnswerIsOnRecord(s: P.State, env: Envelope, row: Payment) {
    && row.id in s.payments && s.payments[row.id] == row && row.key == KeyOf(env)
    && row in s.results && P.Reply(KeyOf(env), HttpStatus(row.status), row) in s.replies
  }

  /** Charge of the controller, from the delivery of a request to its status code. */
  method Charge(w: World, h: nat, env: Envelope, newId: nat, weather: ChargeWeather)
      returns (status: int, body: Option<Payment>, ghost looked: State, ghost met: State)
    requires w.Valid() && h !in w.st.pay.handlers && env in w.st.pay.requests
    modifies w`st, w`trace, w`schedule
    ensures w.Valid() && w.Later(old(w.trace))
    ensures ModelIsValid(env.body) && !weather.lookupFails ==>
              exists found :: w.Did(|old(w.trace)|, looked, Pay(P.Lookup(h, found)))
    ensures ModelIsValid(env.body) && Misses(looked, env, weather) && GuidsParse(env) ==>
              w.Did(|old(w.trace)|, met, InsertStep(met, h, newId, weather.insert))
    ensures status in {200, 400, 402, 500, 502}
    ensures var b := env.body;
      var valid := !IsBlank(b.orderId) && !IsBlank(b.userId) && 1 <= b.amountCents <= 2147483647
        && |b.currency| == 3 && exists i :: 0 <= i < 3 && !IsSpace(b.currency[i]);
      status == 400 <==>
        !valid || (Misses(looked, env, weather) && (ParseId(b.orderId).None? || ParseId(b.userId).None?))
    ensures status in {200, 402, 502} <==>
              && ModelIsValid(env.body)
              && (Replays(looked, env, weather)
                  || (Misses(looked, env, weather) && Completes(met, env, newId, weather)))
    ensures body.Some? <==> status in {200, 402, 502}
    ensures body.Some? ==>
              && AnswerIsOnRecord(w.st.pay, env, body.value)
              && (status == 200 <==> body.value.status.Succeeded?)
              && (status == 402 <==> body.value.status.Declined?)
              && (if Replays(looked, env, weather) then P.IsFirstOrDefault(looked.pay, KeyOf(env), body)
                  else body.value.id == newId && IsChargeOf(body.value, env)
                       && ReportsOutcome(body.value, weather.gateway.value))
              && P.Reply(KeyOf(env), status, body.value) in w.st.pay.replies
    ensures status == 400 ==> HandlerAt(w.st, h, env, P.BadRequest)
  {
    w.Act(Pay(P.Deliver(h, env)));
    if !ModelIsValid(env.body) {
      return 400, None, w.st, w.st;
    }
    var r;
    r, looked, met := ChargeAsync(w, h, env, newId, weather);
    match r {
      case Stored(payment) =>
        status := match payment.status case Succeeded => 200 case Declined => 402 case _ => 502;
        body := Some(payment);
      case ArgumentError =>
        status, body := 400, None;
      case Failure =>
        status, body := 500, None;
    }
  }
}
