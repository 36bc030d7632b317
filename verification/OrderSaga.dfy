/**
  The order-to-payment saga as a transition system: any number of concurrent
  calls of OrderService.CreateOrder against one orders database, next to the
  whole payment protocol. A charge attempt is a request put on the network; what
  comes back, and whether it comes back, is up to the other actions.
 */
module OrderSaga {
  import opened Wrappers
  import opened Payments
  import opened Orders
  import P = PaymentProtocol

  /** Where one call of CreateOrder stands. */
  datatype Stage =
    | Begun
    | Priced
    | Persisted
    | Charging
    | Decided(final: OrderStatus)
    | Done(http: int)
    | Dead

  /** `sends` counts the charge requests put on the wire. */
  datatype OrderCall = OrderCall(stage: Stage, order: Option<Order>, sends: nat)

  /** `retries` is HTTP_CLIENT_RETRY_ATTEMPTS, any integer. Calls are named by
      the order id that uuid.New() gives them. */
  datatype State = State(retries: int, pay: P.State, tables: Tables, calls: map<nat, OrderCall>)

  function Init(retries: int, polly: nat): State {
    State(retries, P.Init(polly), Tables(map[], map[]), map[])
  }

  datatype Action =
    | Pay(act: P.Action)
    | Begin(id: nat)
    | Refuse(id: nat, http: int)
    | Price(id: nat, order: Order)
    | Persist(id: nat, commit: P.Commit)
    | SendCharge(id: nat)
    | Decide(id: nat, reply: Option<P.Reply>)
    | UpdateStatus(id: nat, commit: P.Commit)
    | Crash(id: nat, answered: bool)

  /** Whose local state the action moves; None for payment-service. */
  function Actor(a: Action): Option<nat> {
    match a
    case Pay(_) => None
    case Begin(id) => Some(id)
    case Refuse(id, _) => Some(id)
    case Price(id, _) => Some(id)
    case Persist(id, _) => Some(id)
    case SendCharge(id) => Some(id)
    case Decide(id, _) => Some(id)
    case UpdateStatus(id, _) => Some(id)
    case Crash(id, _) => Some(id)
  }

  /** The one request that PaymentClient.Charge builds, on every attempt. */
  function ChargeFor(o: Order): Envelope {
    Envelope(Some(Canonical(o.id)),
             ChargeRequest(Canonical(o.id), Canonical(o.userId), o.totalCents, o.currency))
  }

  /** Statuses of the errors that CreateOrder returns before repo.Create. */
  predicate IsRefusal(http: int) { http in {400, 404, 409, 502} }

  /** Statuses whose body PaymentClient.Charge decodes. */
  predicate IsDecoded(http: int) { http in {200, 201, 402} }

  predicate IsPricedOrder(id: nat, o: Order) {
    o.id == id && o.status.OrderPending? && o.currency == "USD" && o.totalCents == LoopTotal(o.items)
  }

  /** finalStatus as computed from the charge result. */
  function FinalStatus(reply: Option<P.Reply>): OrderStatus {
    if reply.Some? && reply.value.payment.status.Succeeded? then OrderConfirmed else OrderFailed
  }

  predicate In(s: State, id: nat) { id in s.calls }

  /** Keys that equal an order id are used by order-service alone. */
  predicate IsForeign(s: State, env: Envelope) {
    forall id :: id in s.calls ==> KeyOf(env) != Canonical(id)
  }

  /** uuid.New() gives an id that nothing has used. */
  predicate IsFreshId(s: State, id: nat) {
    id !in s.calls && forall env :: env in s.pay.requests ==> KeyOf(env) != Canonical(id)
  }

  predicate CanSend(s: State, id: nat) {
    && In(s, id) && s.calls[id].order.Some?
    && (s.calls[id].stage.Persisted? || s.calls[id].stage.Charging?)
    && s.calls[id].sends <= s.retries
  }

  predicate Enabled(s: State, a: Action) {
    match a
    case Pay(act) => P.Enabled(s.pay, act) && (act.Send? ==> IsForeign(s, act.env))
    case Begin(id) => IsFreshId(s, id)
    case Refuse(id, http) => In(s, id) && s.calls[id].stage.Begun? && IsRefusal(http)
    case Price(id, order) => In(s, id) && s.calls[id].stage.Begun? && IsPricedOrder(id, order)
    case Persist(id, _) => In(s, id) && s.calls[id].stage.Priced? && s.calls[id].order.Some?
    case SendCharge(id) => CanSend(s, id)
    case Decide(id, reply) =>
      && In(s, id) && s.calls[id].order.Some?
      && (match reply
          case None => s.calls[id].stage.Persisted? || s.calls[id].stage.Charging?
          case Some(r) =>
            s.calls[id].stage.Charging? && r in s.pay.replies && r.key == Canonical(id) && IsDecoded(r.status))
    case UpdateStatus(id, _) =>
      In(s, id) && s.calls[id].stage.Decided? && id in s.tables.orders
    case Crash(id, _) => In(s, id) && !s.calls[id].stage.Done?
  }

  function Move(s: State, id: nat, stage: Stage): State
    requires In(s, id)
  {
    s.(calls := s.calls[id := s.calls[id].(stage := stage)])
  }

  function Send(s: State, id: nat): State
    requires In(s, id) && s.calls[id].order.Some?
  {
    s.(pay := P.Apply(s.pay, P.Send(ChargeFor(s.calls[id].order.value))),
       calls := s.calls[id := s.calls[id].(stage := Charging, sends := s.calls[id].sends + 1)])
  }

  function Store(s: State, id: nat, stage: Stage): State
    requires In(s, id) && s.calls[id].order.Some?
  {
    Move(s, id, stage).(tables := WithOrder(s.tables, s.calls[id].order.value))
  }

  function ResponseTo(final: OrderStatus): int {
    if final.OrderFailed? then 402 else 201
  }

  function Finish(s: State, id: nat, write: bool): State
    requires In(s, id) && s.calls[id].stage.Decided? && id in s.tables.orders
  {
    var final := s.calls[id].stage.final;
    Move(s, id, Done(ResponseTo(final))).(tables := if write then WithStatus(s.tables, id, final) else s.tables)
  }

  function Apply(s: State, a: Action): State
    requires Enabled(s, a)
  {
    match a
    case Pay(act) => s.(pay := P.Apply(s.pay, act))
    case Begin(id) => s.(calls := s.calls[id := OrderCall(Begun, None, 0)])
    case Refuse(id, http) => Move(s, id, Done(http))
    case Price(id, order) => s.(calls := s.calls[id := OrderCall(Priced, Some(order), 0)])
    case Persist(id, commit) =>
      if !Insertable(s.tables, s.calls[id].order.value) || commit.RolledBack? then Move(s, id, Done(500))
      else Store(s, id, if commit.Committed? then Persisted else Done(500))
    case SendCharge(id) => Send(s, id)
    case Decide(id, reply) => Move(s, id, Decided(FinalStatus(reply)))
    case UpdateStatus(id, commit) => Finish(s, id, !commit.RolledBack?)
    case Crash(id, answered) => Move(s, id, if answered then Done(500) else Dead)
  }

  // ---------------------------------------------------------------------------
  // Runs

  predicate Legal(retries: int, polly: nat, acts: seq<Action>)
    decreases |acts|, 0
  {
    acts == [] ||
    var before := acts[..|acts| - 1];
    Legal(retries, polly, before) && Enabled(Run(retries, polly, before), acts[|acts| - 1])
  }

  function Run(retries: int, polly: nat, acts: seq<Action>): State
    requires Legal(retries, polly, acts)
    decreases |acts|, 1
  {
    if acts == [] then Init(retries, polly)
    else Apply(Run(retries, polly, acts[..|acts| - 1]), acts[|acts| - 1])
  }
}
