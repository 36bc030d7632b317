/**
  The one mutable world in which the imperative code runs: the databases of both
  services and everything that is in flight. The code under study performs its
  own atomic effects with Act; wherever it awaits a database, the network or a
  timer, it calls Interfere, which lets everybody else run. What the others do, and
  what the network brings back, are inputs (`schedule`, `weather`), so every theorem
  about a method holds for all interleavings and all network behaviours. `trace`
  records the run.
 */
module Worlds {
  import opened Wrappers
  import opened Payments
  import opened OrderSaga
  import P = PaymentProtocol
  import PI = PaymentInvariant
  import SI = SagaInvariant
  import ST = SagaTheorems

  datatype ProductInfo = ProductInfo(id: IdText, sku: string, priceCents: int, stockQuantity: int, isActive: bool)

  /** What a JSON decoder can make of a response body. */
  datatype Body = Unreadable | PaymentBody(reply: P.Reply) | ProductBody(info: ProductInfo)

  /** What httpClient.Do returns. */
  datatype HttpOutcome = NetworkError(timeout: bool) | Response(status: int, body: Body)

  datatype Request = GetUser(user: IdText) | GetProduct(product: IdText) | PostCharge(env: Envelope)

  /** One attempt as it went: what was sent, and what came of it. */
  datatype Exchange = Exchange(req: Request, outcome: HttpOutcome)

  /** One attempt as the network would have it: whether the caller's context is
      cancelled during the wait before it, how long it takes, what it yields. */
  datatype Weather = Weather(cancelled: bool, took: nat, outcome: HttpOutcome)

  /** Whose code is running. */
  datatype Who = CallOf(id: nat) | HandlerOf(h: nat)

  function HandlerMoved(a: P.Action): Option<nat> {
    match a
    case Send(_) => None
    case Deliver(h, _) => Some(h)
    case Lookup(h, _) => Some(h)
    case RejectIds(h) => Some(h)
    case Insert(h, _, _) => Some(h)
    case CallGateway(h) => Some(h)
    case GatewayPost(h) => Some(h)
    case GatewayReturn(h, _) => Some(h)
    case Save(h, _) => Some(h)
    case Abort(h) => Some(h)
  }

  /** The action moves the local state of this very call or handler. */
  predicate Moves(a: Action, who: Who) {
    match who
    case CallOf(id) => Actor(a) == Some(id)
    case HandlerOf(h) => a.Pay? && HandlerMoved(a.act) == Some(h)
  }

  /** The gateway call that handler h waits for is as it was. */
  predicate CallKept(s: P.State, t: P.State, h: nat) {
    P.InCall(s, h) ==>
      P.InCall(t, h) && P.PcOf(t, h).call == P.PcOf(s, h).call
      && t.ledger[P.PcOf(t, h).call] == s.ledger[P.PcOf(s, h).call]
  }

  /** The call or handler stands where it stood. */
  predicate SamePlace(s: State, t: State, who: Who) {
    match who
    case CallOf(id) =>
      (id in s.calls <==> id in t.calls) && (id in s.calls ==> t.calls[id] == s.calls[id])
    case HandlerOf(h) =>
      && (h in s.pay.handlers <==> h in t.pay.handlers)
      && (h in s.pay.handlers ==> t.pay.handlers[h] == s.pay.handlers[h])
      && CallKept(s.pay, t.pay, h)
  }

  lemma OthersLeaveMe(s: State, a: Action, who: Who)
    requires PI.OwnersDistinct(s.pay) && PI.PcMatchesLedger(s.pay) && Enabled(s, a) && !Moves(a, who)
    ensures SamePlace(s, Apply(s, a), who)
  {
    match who
    case CallOf(id) => OthersLeaveMyOrder(s, a, id);
    case HandlerOf(h) =>
      if a.Pay? {
        PayOthersLeaveMe(s.pay, a.act, h);
        PayOthersLeaveMyCall(s.pay, a.act, h);
      } else {
        OrdersLeavePay(s, a);
      }
  }

  lemma OthersLeaveMyOrder(s: State, a: Action, id: nat)
    requires Enabled(s, a) && Actor(a) != Some(id)
    ensures SamePlace(s, Apply(s, a), CallOf(id))
  {
  }

  lemma OrdersLeavePay(s: State, a: Action)
    requires Enabled(s, a) && !a.Pay?
    ensures Apply(s, a).pay.handlers == s.pay.handlers && Apply(s, a).pay.ledger == s.pay.ledger
  {
  }

  lemma PayOthersLeaveMe(s: P.State, a: P.Action, h: nat)
    requires P.Enabled(s, a) && HandlerMoved(a) != Some(h)
    ensures h in s.handlers <==> h in P.Apply(s, a).handlers
    ensures h in s.handlers ==> P.Apply(s, a).handlers[h] == s.handlers[h]
  {
  }

  /** A call in progress belongs to one handler. */
  lemma PayOthersLeaveMyCall(s: P.State, a: P.Action, h: nat)
    requires PI.OwnersDistinct(s) && PI.PcMatchesLedger(s)
    requires P.Enabled(s, a) && HandlerMoved(a) != Some(h)
    ensures CallKept(s, P.Apply(s, a), h)
  {
    PayOthersLeaveMe(s, a, h);
    if P.InCall(s, h) && (a.GatewayPost? || a.GatewayReturn?) {
      assert s.ledger[P.PcOf(s, h).call].pid == P.PcOf(s, h).payment.id;
      assert s.ledger[P.PcOf(s, a.h).call].pid == P.PcOf(s, a.h).payment.id;
    }
  }

  /** The others' turn: an entry of the batch that is not enabled when its time
      comes, or that would move `who`, is passed over. */
  function OthersRun(s: State, batch: seq<Action>, who: Who): State
    decreases |batch|
  {
    if batch == [] then s
    else
      var t, a := OthersRun(s, batch[..|batch| - 1], who), batch[|batch| - 1];
      if Enabled(t, a) && !Moves(a, who) then Apply(t, a) else t
  }

  /** A body of a decoded status comes from payment-service and is about the key. */
  predicate Plausible(s: State, req: Request, o: HttpOutcome) {
    o.Response? ==>
      match o.body
      case PaymentBody(r) =>
        && req.PostCharge? && r in s.pay.replies && r.key == KeyOf(req.env) && r.status == o.status
      case _ => req.PostCharge? && IsDecoded(o.status) ==> o.body.Unreadable?
  }

  /** What the caller of httpClient.Do sees, and how long it waited for it. With a
      positive client timeout the attempt ends by then, as a timeout; an answer that
      payment-service never gave cannot arrive. */
  function Observed(s: State, req: Request, weather: seq<Weather>, timeout: int): (r: (HttpOutcome, nat))
    ensures Plausible(s, req, r.0) && (timeout > 0 ==> r.1 <= timeout)
  {
    if weather == [] then (NetworkError(false), 0)
    else if timeout > 0 && weather[0].took > timeout then (NetworkError(true), timeout)
    else (if Plausible(s, req, weather[0].outcome) then weather[0].outcome else NetworkError(false), weather[0].took)
  }

  /** The weather of the attempts that are still to come after n more. */
  function Rest(weather: seq<Weather>, n: nat): seq<Weather> {
    if n <= |weather| then weather[n..] else []
  }

  class World {
    const retries: int
    const polly: nat
    var st: State
    ghost var trace: seq<Action>
    var schedule: seq<seq<Action>>
    var weather: seq<Weather>
    // what ResilientClient.Do leaves behind
    ghost var log: seq<Exchange>
    var open: int
    var slept: int
    var elapsed: int

    ghost predicate Valid()
      reads this
    {
      Legal(retries, polly, trace) && st == Run(retries, polly, trace)
    }

    /** The run so far is a continuation of an earlier one. */
    ghost predicate Later(before: seq<Action>)
      reads this
    {
      before <= trace
    }

    /** The run stood at s, after at least `from` actions. */
    ghost predicate Saw(from: nat, s: State)
      reads this
    {
      exists n :: from <= n <= |trace| && Legal(retries, polly, trace[..n]) && Run(retries, polly, trace[..n]) == s
    }

    lemma SawIt(before: seq<Action>, from: nat)
      requires Valid() && Later(before) && from <= |before|
      ensures Legal(retries, polly, before) && Saw(from, Run(retries, polly, before))
    {
      Kept(before);
      assert trace[..|before|] == before;
    }

    /** The action `a` was taken at s, after at least `from` actions. */
    ghost predicate Did(from: nat, s: State, a: Action)
      reads this
    {
      exists n :: from <= n < |trace| && trace[n] == a
        && Legal(retries, polly, trace[..n]) && Run(retries, polly, trace[..n]) == s
    }

    lemma DidIt(before: seq<Action>, a: Action, from: nat)
      requires Valid() && Later(before + [a]) && from <= |before|
      ensures Legal(retries, polly, before) && Did(from, Run(retries, polly, before), a)
    {
      assert before <= before + [a];
      Kept(before);
      assert trace[..|before|] == before && trace[|before|] == a;
    }

    /** ... at some state. */
    ghost predicate DidOnce(from: nat, a: Action)
      reads this
    {
      exists s :: Did(from, s, a)
    }

    lemma DidSince(from: nat, later: nat, a: Action)
      requires from <= later && DidOnce(later, a)
      ensures DidOnce(from, a)
    {
      var s :| Did(later, s, a);
      assert Did(from, s, a);
    }

    /** What holds in every world. */
    lemma Facts()
      requires Valid()
      ensures SI.Inv(st) && st.retries == retries && st.pay.polly == polly
    {
      ST.RunInv(retries, polly, trace);
    }

    lemma RetriesAreConfigured()
      requires Valid()
      ensures st.retries == retries
    {
      Facts();
    }

    lemma PollyIsConfigured()
      requires Valid()
      ensures st.pay.polly == polly
    {
      Facts();
    }

    /** Nothing of an earlier state has been undone. */
    lemma Kept(before: seq<Action>)
      requires Valid() && Later(before)
      ensures Legal(retries, polly, before) && ST.Keeps(Run(retries, polly, before), st)
    {
      ST.HistoryIsKept(retries, polly, trace, |before|);
      assert trace[..|before|] == before;
    }

    constructor (retries: int, polly: nat, schedule: seq<seq<Action>>, weather: seq<Weather>)
      ensures Valid() && trace == [] && this.retries == retries && this.polly == polly
      ensures this.schedule == schedule && this.weather == weather
      ensures log == [] && open == 0 && slept == 0 && elapsed == 0
    {
      this.retries, this.polly := retries, polly;
      st := Init(retries, polly);
      trace := [];
      this.schedule, this.weather := schedule, weather;
      log, open, slept, elapsed := [], 0, 0, 0;
    }

    /** One atomic effect. */
    method Act(a: Action)
      requires Valid() && Enabled(st, a)
      modifies this`st, this`trace
      ensures Valid() && Later(old(trace))
      ensures st == Apply(old(st), a) && trace == old(trace) + [a]
    {
      st := Apply(st, a);
      trace := trace + [a];
      assert trace[..|trace| - 1] == old(trace);
    }

    /** Everybody else takes the next batch of steps of the schedule. */
    method TakeTurns(who: Who)
      requires Valid()
      modifies this`st, this`trace, this`schedule
      ensures Valid() && Later(old(trace)) && SamePlace(old(st), st, who)
      ensures st == (if old(schedule) == [] then old(st) else OthersRun(old(st), old(schedule)[0], who))
      ensures schedule == if old(schedule) == [] then [] else old(schedule)[1..]
    {
      if schedule == [] {
        return;
      }
      var batch := schedule[0];
      schedule := schedule[1..];
      for i := 0 to |batch|
        invariant Valid() && Later(old(trace)) && SamePlace(old(st), st, who)
        invariant st == OthersRun(old(st), batch[..i], who) && schedule == old(schedule)[1..]
      {
        assert batch[..i + 1][..i] == batch[..i];
        if Enabled(st, batch[i]) && !Moves(batch[i], who) {
          Facts();
          OthersLeaveMe(st, batch[i], who);
          Act(batch[i]);
        }
      }
      assert batch[..|batch|] == batch;
    }

    /** What the code under study may rely on when others run: the run goes on, and
        nobody moves its own local state. */
    method Interfere(who: Who)
      requires Valid()
      modifies this`st, this`trace, this`schedule
      ensures Valid() && Later(old(trace)) && SamePlace(old(st), st, who)
    {
      TakeTurns(who);
    }

    /** The request leaves; meanwhile the others run. */
    method PutOnWire(id: nat, req: Request)
      requires Valid()
      requires req.PostCharge? ==> CanSend(st, id) && req.env == ChargeFor(st.calls[id].order.value)
      modifies this`st, this`trace, this`schedule
      ensures Valid() && Later(old(trace))
      ensures req.PostCharge? ==>
                && In(st, id)
                && st.calls[id] == old(st.calls[id]).(stage := Charging, sends := old(st.calls[id].sends) + 1)
      ensures !req.PostCharge? ==> SamePlace(old(st), st, CallOf(id))
    {
      if req.PostCharge? {
        Act(SendCharge(id));
      }
      Interfere(CallOf(id));
    }

    /** httpClient.Do: one attempt. */
    method RoundTrip(id: nat, req: Request, timeout: int) returns (o: HttpOutcome)
      requires Valid()
      requires req.PostCharge? ==> CanSend(st, id) && req.env == ChargeFor(st.calls[id].order.value)
      modifies this
      ensures Valid() && Later(old(trace))
      ensures log == old(log) + [Exchange(req, o)] && slept == old(slept)
      ensures open == old(open) + if o.Response? then 1 else 0
      ensures (o, elapsed - old(elapsed)) == Observed(st, req, old(weather), timeout)
      ensures weather == Rest(old(weather), 1)
      ensures req.PostCharge? ==>
                && In(st, id)
                && st.calls[id] == old(st.calls[id]).(stage := Charging, sends := old(st.calls[id].sends) + 1)
      ensures !req.PostCharge? ==> SamePlace(old(st), st, CallOf(id))
    {
      PutOnWire(id, req);
      var took;
      var seen := Observed(st, req, weather, timeout);
      o, took := seen.0, seen.1;
      weather := if weather == [] then [] else weather[1..];
      elapsed := elapsed + took;
      open := open + if o.Response? then 1 else 0;
      log := log + [Exchange(req, o)];
    }

    /** resp.Body.Close() */
    method CloseBody()
      modifies this`open
      ensures open == old(open) - 1
    {
      open := open - 1;
    }
  }
}
