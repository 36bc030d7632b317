/** UserClient, ProductClient and PaymentClient: what each makes of Do's result. */
module ServiceClients {
  import opened Wrappers
  import opened Payments
  import opened Orders
  import opened OrderSaga
  import opened Worlds
  import opened ResilientClients
  import opened Retry
  import P = PaymentProtocol

  /** The result of a client call. Panicked: Do returned neither a response nor an
      error, and the deferred Close dereferenced nil. */
  datatype CallResult<+T> = Ok(value: T) | Error(err: ClientError) | Panicked

  /** The last attempt since the log stood at `before`. */
  function Final(log: seq<Exchange>, before: seq<Exchange>): Option<Exchange> {
    if |log| > |before| then Some(log[|log| - 1]) else None
  }

  predicate Answered(o: HttpOutcome, status: int) {
    o.Response? && o.status == status
  }

  /** The product in this answer of product-service, if there is one. */
  function ProductIn(o: HttpOutcome): Option<ProductInfo> {
    if Answered(o, 200) && o.body.ProductBody? then Some(o.body.info) else None
  }

  /** The payment-service reply in this answer, if its status is one that is decoded. */
  function ReplyIn(o: HttpOutcome): Option<P.Reply> {
    if o.Response? && IsDecoded(o.status) && o.body.PaymentBody? then Some(o.body.reply) else None
  }

  /** All attempts since `before` sent this request. */
  predicate OnlySent(log: seq<Exchange>, before: seq<Exchange>, req: Request) {
    before <= log && forall i :: |before| <= i < |log| ==> log[i].req == req
  }

  /** What the attempts since `before` met. */
  function Outcomes(log: seq<Exchange>, before: seq<Exchange>): seq<HttpOutcome>
    requires |before| <= |log|
  {
    seq(|log| - |before|, i requires 0 <= i < |log| - |before| => log[|before| + i].outcome)
  }

  /** All attempts since `before` sent this request, and there were as many as the
      retry policy asks for: none if it allows none, else up to the first decisive
      outcome, the last attempt allowed, or the first cancelled wait. */
  ghost predicate AskedAsOftenAsAllowed(log: seq<Exchange>, before: seq<Exchange>, req: Request, attempts: int,
    weather: seq<Weather>)
  {
    && OnlySent(log, before, req)
    && if attempts < 0 then log == before else Retried(Outcomes(log, before), attempts, weather)
  }

  /** ... and without cancellation that is the specification of all retry loops. */
  lemma AskedRight(log: seq<Exchange>, before: seq<Exchange>, req: Request, attempts: nat, weather: seq<Weather>)
    requires AskedAsOftenAsAllowed(log, before, req, attempts, weather) && NeverCancelled(weather, attempts)
    ensures StopsRight(Outcomes(log, before), attempts + 1, TriesAgain)
    // a failure is no response, or a 502, 503 or 504; only the last attempt may be anything
    // else, and it may be a failure only if it was the last one allowed
    ensures |before| < |log| <= |before| + attempts + 1
    ensures forall i :: |before| <= i < |log| ==>
              var failed := log[i].outcome.NetworkError? || log[i].outcome.status in {502, 503, 504};
              if i < |log| - 1 then failed else failed ==> |log| == |before| + attempts + 1
  {
    forall i | |before| <= i < |log| ensures Outcomes(log, before)[i - |before|] == log[i].outcome {
    }
    UncancelledStopsRight(Outcomes(log, before), attempts, weather);
  }

  /** How Do ended, read off the log. */
  ghost predicate EndedOn(log: seq<Exchange>, before: seq<Exchange>, req: Request, attempts: int,
    weather: seq<Weather>, resp: Option<HttpOutcome>)
  {
    && AskedAsOftenAsAllowed(log, before, req, attempts, weather)
    && (attempts < 0 <==> Final(log, before).None?)
    && (attempts >= 0 ==>
         if resp.Some? then Final(log, before) == Some(Exchange(req, resp.value))
         else TriesAgain(Final(log, before).value.outcome))
  }

  lemma DoEndedOn(log: seq<Exchange>, before: seq<Exchange>, req: Request, attempts: int, weather: seq<Weather>,
      outs: seq<HttpOutcome>, resp: Option<HttpOutcome>, err: Option<ClientError>)
    requires Verdict(outs, attempts, true, weather, resp, err) && Logged(log, before, Some(req), outs)
    ensures EndedOn(log, before, req, attempts, weather, resp)
  {
    forall i | |before| <= i < |log| ensures log[i].req == req {
      assert log[|before| + (i - |before|)] == Exchange(req, outs[i - |before|]);
    }
    assert Outcomes(log, before) == outs;
    assert outs != [] ==> log[|before| + (|outs| - 1)] == Exchange(req, outs[|outs| - 1]);
  }

  method VerifyUserExists(rc: ResilientClient, w: World, id: nat, user: IdText) returns (r: CallResult<()>)
    requires w.Valid()
    modifies w
    ensures w.Valid() && w.Later(old(w.trace)) && SamePlace(old(w.st), w.st, CallOf(id))
    ensures AskedAsOftenAsAllowed(w.log, old(w.log), GetUser(user), rc.retryAttempts, old(w.weather))
    ensures w.open == old(w.open)
    ensures r.Panicked? <==> rc.retryAttempts < 0
    ensures r.Panicked? <==> Final(w.log, old(w.log)).None?
    ensures var last := Final(w.log, old(w.log));
      && (r.Ok? <==> last.Some? && Answered(last.value.outcome, 200))
      && (r == Error(NotFound) <==> last.Some? && Answered(last.value.outcome, 404))
  {
    var resp, err, outs := rc.Do(w, id, Some(GetUser(user)));
    DoEndedOn(w.log, old(w.log), GetUser(user), rc.retryAttempts, old(w.weather), outs, resp, err);
    if err.Some? {
      return Error(err.value);
    }
    if resp.None? {
      return Panicked;
    }
    w.CloseBody();
    if resp.value.status == 200 {
      r := Ok(());
    } else if resp.value.status == 404 {
      r := Error(NotFound);
    } else {
      r := Error(UnexpectedStatus(resp.value.status));
    }
  }

  method GetProductInfo(rc: ResilientClient, w: World, id: nat, product: IdText) returns (r: CallResult<ProductInfo>)
    requires w.Valid()
    modifies w
    ensures w.Valid() && w.Later(old(w.trace)) && SamePlace(old(w.st), w.st, CallOf(id))
    ensures AskedAsOftenAsAllowed(w.log, old(w.log), GetProduct(product), rc.retryAttempts, old(w.weather))
    ensures w.open == old(w.open)
    ensures r.Panicked? <==> rc.retryAttempts < 0
    ensures r.Panicked? <==> Final(w.log, old(w.log)).None?
    ensures var last := Final(w.log, old(w.log));
      && (r.Ok? <==> last.Some? && last.value.outcome.Response? && last.value.outcome.status == 200
                     && last.value.outcome.body.ProductBody?)
      && (r.Ok? ==> last.value.outcome.body.info == r.value)
      && (r == Error(NotFound) <==> last.Some? && Answered(last.value.outcome, 404))
  {
    var resp, err, outs := rc.Do(w, id, Some(GetProduct(product)));
    DoEndedOn(w.log, old(w.log), GetProduct(product), rc.retryAttempts, old(w.weather), outs, resp, err);
    if err.Some? {
      return Error(err.value);
    }
    if resp.None? {
      return Panicked;
    }
    w.CloseBody();
    if resp.value.status == 404 {
      r := Error(NotFound);
    } else if resp.value.status != 200 {
      r := Error(UnexpectedStatus(resp.value.status));
    } else if !resp.value.body.ProductBody? {
      r := Error(NotDecoded);
    } else {
      r := Ok(resp.value.body.info);
    }
  }

  /** PaymentClient.Charge. Every attempt sends the same request under the order's key.
      There is a result exactly if the last attempt was answered with a decodable 200,
      201 or 402, and then it is the reply in that answer. */
  method Charge(rc: ResilientClient, w: World, id: nat, order: Order) returns (r: CallResult<P.Reply>)
    requires w.Valid() && MayPost(w.st, id, Some(PostCharge(ChargeFor(order))), rc.retryAttempts, w.retries)
    requires order.id == id
    modifies w
    ensures w.Valid() && w.Later(old(w.trace))
    ensures AskedAsOftenAsAllowed(w.log, old(w.log), PostCharge(ChargeFor(order)), rc.retryAttempts, old(w.weather))
    ensures forall i :: |old(w.log)| <= i < |w.log| ==>
              && w.log[i].req.PostCharge? && w.log[i].req.env.header == Some(Canonical(order.id))
              && w.log[i].req.env.body.orderId == Canonical(order.id)
              && w.log[i].req.env.body.userId == Canonical(order.userId)
              && w.log[i].req.env.body.amountCents == order.totalCents
              && w.log[i].req.env.body.currency == order.currency
    ensures w.open == old(w.open)
    ensures Stands(old(w.st), w.st, id, Some(PostCharge(ChargeFor(order))), |w.log| - |old(w.log)|)
    ensures |w.log| - |old(w.log)| <= if rc.retryAttempts < 0 then 0 else rc.retryAttempts + 1
    ensures r.Panicked? <==> rc.retryAttempts < 0
    ensures r.Panicked? <==> Final(w.log, old(w.log)).None?
    ensures var last := Final(w.log, old(w.log));
      && (r.Ok? <==> last.Some? && last.value.outcome.Response? && last.value.outcome.status in {200, 201, 402}
                     && last.value.outcome.body.PaymentBody?)
      && (r.Ok? ==> last.value.outcome.body.reply == r.value)
    ensures r.Ok? ==> r.value in w.st.pay.replies && r.value.key == Canonical(id) && IsDecoded(r.value.status)
  {
    var req := PostCharge(ChargeFor(order));
    var resp, err, outs := rc.Do(w, id, Some(req));
    DoEndedOn(w.log, old(w.log), req, rc.retryAttempts, old(w.weather), outs, resp, err);
    if err.Some? {
      return Error(err.value);
    }
    if resp.None? {
      return Panicked;
    }
    w.CloseBody();
    if resp.value.status != 200 && resp.value.status != 201 && resp.value.status != 402 {
      r := Error(UnexpectedStatus(resp.value.status));
    } else if !resp.value.body.PaymentBody? {
      r := Error(NotDecoded);
    } else {
      r := Ok(resp.value.body.reply);
    }
  }
}
