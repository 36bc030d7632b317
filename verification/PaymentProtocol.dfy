/**
  payment-service as a transition system. Any number of handlers of
  POST /api/v1/payments run concurrently against one payments table. The
  network may deliver a request never, once or many times, at any later moment.
  Each action is one atomic effect of ChargeAsync or of its environment; what
  happens between two awaits of one handler is any number of actions of others.
 */
module PaymentProtocol {
  import opened Wrappers
  import opened Payments

  /** How a SaveChangesAsync ends: acknowledged, undone, or done on the server
      while the caller sees an exception. */
  datatype Commit = Committed | RolledBack | Unacknowledged

  /** Where one handler stands in ChargeAsync. The local variable `payment` is
      carried along. */
  datatype Pc =
    | Received
    | Missed
    | Inserted(payment: Payment)
    | Calling(payment: Payment, call: nat)
    | Called(payment: Payment, call: nat, outcome: GatewayOutcome)
    | Replied(payment: Payment)
    | BadRequest
    | Aborted

  datatype Handler = Handler(env: Envelope, pc: Pc)

  datatype CallOutcome = InFlight | Finished(outcome: GatewayOutcome)

  datatype GatewayRequest = GatewayRequest(orderId: nat, amountCents: int, currency: string)

  /** One call of IPaymentGatewayClient.ChargeAsync: what was passed, and, for
      the record, the row and key on whose behalf. `posts` counts the HTTP POSTs
      that the live client and Polly made for it. */
  datatype Call = Call(request: GatewayRequest, pid: nat, key: IdText, posts: nat, outcome: CallOutcome)

  /** An HTTP response that carries a payment. */
  datatype Reply = Reply(key: IdText, status: int, payment: Payment)

  /** `polly` is the configured number of retries towards the card gateway. */
  datatype State = State(
    polly: nat,
    requests: set<Envelope>,
    handlers: map<nat, Handler>,
    payments: map<nat, Payment>,
    ledger: seq<Call>,
    results: seq<Payment>,
    replies: set<Reply>)

  function Init(polly: nat): State {
    State(polly, {}, map[], map[], [], [], {})
  }

  datatype Action =
    | Send(env: Envelope)
    | Deliver(h: nat, env: Envelope)
    | Lookup(h: nat, found: Option<Payment>)
    | RejectIds(h: nat)
    | Insert(h: nat, pid: nat, commit: Commit)
    | CallGateway(h: nat)
    | GatewayPost(h: nat)
    | GatewayReturn(h: nat, outcome: GatewayOutcome)
    | Save(h: nat, commit: Commit)
    | Abort(h: nat)

  predicate NoRowFor(s: State, key: IdText) {
    forall p :: p in s.payments ==> s.payments[p].key != key
  }

  /** FirstOrDefaultAsync on the key. */
  predicate IsFirstOrDefault(s: State, key: IdText, found: Option<Payment>) {
    match found
    case None => NoRowFor(s, key)
    case Some(row) => row.id in s.payments && s.payments[row.id] == row && row.key == key
  }

  predicate At(s: State, h: nat) { h in s.handlers }

  function PcOf(s: State, h: nat): Pc
    requires At(s, h)
  {
    s.handlers[h].pc
  }

  predicate InCall(s: State, h: nat) {
    At(s, h) && PcOf(s, h).Calling? && PcOf(s, h).call < |s.ledger|
  }

  predicate Enabled(s: State, a: Action) {
    match a
    case Send(_) => true
    case Deliver(h, env) => h !in s.handlers && env in s.requests
    case Lookup(h, found) =>
      At(s, h) && PcOf(s, h).Received? && IsFirstOrDefault(s, KeyOf(s.handlers[h].env), found)
    case RejectIds(h) => At(s, h) && PcOf(s, h).Missed? && !GuidsParse(s.handlers[h].env)
    case Insert(h, pid, _) =>
      At(s, h) && PcOf(s, h).Missed? && GuidsParse(s.handlers[h].env) && pid !in s.payments
    case CallGateway(h) => At(s, h) && PcOf(s, h).Inserted?
    case GatewayPost(h) => InCall(s, h) && s.ledger[PcOf(s, h).call].posts <= s.polly
    case GatewayReturn(h, _) => InCall(s, h)
    case Save(h, _) => At(s, h) && PcOf(s, h).Called?
    case Abort(h) => At(s, h) && !PcOf(s, h).Replied? && !PcOf(s, h).BadRequest?
  }

  function Goto(s: State, h: nat, pc: Pc): State
    requires At(s, h)
  {
    s.(handlers := s.handlers[h := s.handlers[h].(pc := pc)])
  }

  /** ChargeAsync returns `row` and the controller writes the response. */
  function Answer(s: State, h: nat, row: Payment): State
    requires At(s, h)
  {
    Goto(s, h, Replied(row)).(
      results := s.results + [row],
      replies := s.replies + {Reply(KeyOf(s.handlers[h].env), HttpStatus(row.status), row)})
  }

  /** The call that ChargeAsync makes for its row. */
  function NewCall(p: Payment): Call {
    Call(GatewayRequest(p.orderId, p.amountCents, p.currency), p.id, p.key, 0, InFlight)
  }

  /** The row is committed and the handler holds it. */
  function AddRow(s: State, h: nat, row: Payment): State
    requires At(s, h)
  {
    Goto(s, h, Inserted(row)).(payments := s.payments[row.id := row])
  }

  function StartCall(s: State, h: nat): State
    requires At(s, h) && PcOf(s, h).Inserted?
  {
    var p := PcOf(s, h).payment;
    Goto(s, h, Calling(p, |s.ledger|)).(ledger := s.ledger + [NewCall(p)])
  }

  function CountPost(s: State, h: nat): State
    requires InCall(s, h)
  {
    var i := PcOf(s, h).call;
    s.(ledger := s.ledger[i := s.ledger[i].(posts := s.ledger[i].posts + 1)])
  }

  function EndCall(s: State, h: nat, outcome: GatewayOutcome): State
    requires InCall(s, h)
  {
    var i := PcOf(s, h).call;
    Goto(s, h, Called(PcOf(s, h).payment, i, outcome)).(
      ledger := s.ledger[i := s.ledger[i].(outcome := Finished(outcome))])
  }

  /** The settled row is committed; the handler has not answered. */
  function StoreRow(s: State, h: nat): State
    requires At(s, h) && PcOf(s, h).Called?
  {
    var row := Settle(PcOf(s, h).payment, PcOf(s, h).outcome);
    Goto(s, h, Aborted).(payments := s.payments[row.id := row])
  }

  function Apply(s: State, a: Action): State
    requires Enabled(s, a)
  {
    match a
    case Send(env) => s.(requests := s.requests + {env})
    case Deliver(h, env) =>
      s.(handlers := s.handlers[h := Handler(env, if ModelIsValid(env.body) then Received else BadRequest)])
    case Lookup(h, found) => if found.None? then Goto(s, h, Missed) else Answer(s, h, found.value)
    case RejectIds(h) => Goto(s, h, BadRequest)
    case Insert(h, pid, commit) =>
      var row := NewPayment(s.handlers[h].env, pid);
      if !NoRowFor(s, row.key) || !RowFits(row) then Goto(s, h, Aborted)  // unique index or column width violated
      else (match commit {
        case Committed => AddRow(s, h, row)
        case Unacknowledged => Goto(AddRow(s, h, row), h, Aborted)
        case RolledBack => Goto(s, h, Aborted)
      })
    case CallGateway(h) => StartCall(s, h)
    case GatewayPost(h) => CountPost(s, h)
    case GatewayReturn(h, outcome) => EndCall(s, h, outcome)
    case Save(h, commit) =>
      var row := Settle(PcOf(s, h).payment, PcOf(s, h).outcome);
      if !RowFits(row) then Goto(s, h, Aborted)
      else (match commit {
        case Committed => Answer(StoreRow(s, h), h, row)
        case Unacknowledged => StoreRow(s, h)
        case RolledBack => Goto(s, h, Aborted)
      })
    case Abort(h) => Goto(s, h, Aborted)
  }

  // ---------------------------------------------------------------------------
  // Runs

  /** Every action of `acts` is enabled where it happens. */
  predicate Legal(polly: nat, acts: seq<Action>)
    decreases |acts|, 0
  {
    acts == [] ||
    var before := acts[..|acts| - 1];
    Legal(polly, before) && Enabled(Run(polly, before), acts[|acts| - 1])
  }

  /** The state after `acts`. */
  function Run(polly: nat, acts: seq<Action>): State
    requires Legal(polly, acts)
    decreases |acts|, 1
  {
    if acts == [] then Init(polly)
    else Apply(Run(polly, acts[..|acts| - 1]), acts[|acts| - 1])
  }
}
