/**
  api-gateway in front of the saga: each client POST /orders is one session whose
  attempts the axios interceptor repeats. Every attempt that reaches
  order-service is one call of CreateOrder with a fresh order id.
 */
module EdgeGateway {
  import Saga = OrderSaga

  /** `sent` attempts so far; `direct` while every finished attempt was answered
      by order-service itself. */
  datatype Session = Session(sent: nat, waiting: bool, direct: bool)

  /** The attempt of the session that a CreateOrder call serves. */
  datatype Origin = Origin(session: nat, attempt: nat)

  /** `retries` is HTTP_RETRY_ATTEMPTS of the gateway. */
  datatype State = State(retries: int, saga: Saga.State, sessions: map<nat, Session>, origin: map<nat, Origin>)

  function Init(retries: int, orderRetries: int, polly: nat): State {
    State(retries, Saga.Init(orderRetries, polly), map[], map[])
  }

  datatype Action =
    | ClientPost(g: nat)
    | Arrive(id: nat, g: nat, attempt: nat)
    | Within(act: Saga.Action)
    | GotResponse(g: nat, id: nat)
    | GotOther(g: nat, retryable: bool)

  /** isRetryable of the interceptor, for an error that carries a response. */
  predicate IsRetryableStatus(http: int) { http in {502, 503, 504} }

  predicate IsWaiting(s: State, g: nat) { g in s.sessions && s.sessions[g].waiting }

  predicate Enabled(s: State, a: Action) {
    match a
    case ClientPost(g) => g !in s.sessions
    case Arrive(id, g, k) =>
      && g in s.sessions && k < s.sessions[g].sent
      && Origin(g, k) !in s.origin.Values
      && Saga.Enabled(s.saga, Saga.Begin(id))
    case Within(act) => !act.Begin? && Saga.Enabled(s.saga, act)
    case GotResponse(g, id) =>
      && IsWaiting(s, g) && s.sessions[g].sent > 0
      && id in s.origin && s.origin[id] == Origin(g, s.sessions[g].sent - 1)
      && id in s.saga.calls && s.saga.calls[id].stage.Done?
    case GotOther(g, _) => IsWaiting(s, g)
  }

  /** Retry if the interceptor's predicate and its counter allow it. */
  function Next(retries: int, session: Session, retryable: bool): Session {
    if retryable && session.sent - 1 < retries then session.(sent := session.sent + 1)
    else session.(waiting := false)
  }

  function Apply(s: State, a: Action): State
    requires Enabled(s, a)
  {
    match a
    case ClientPost(g) => s.(sessions := s.sessions[g := Session(1, true, true)])
    case Arrive(id, g, k) =>
      s.(saga := Saga.Apply(s.saga, Saga.Begin(id)), origin := s.origin[id := Origin(g, k)])
    case Within(act) => s.(saga := Saga.Apply(s.saga, act))
    case GotResponse(g, id) =>
      s.(sessions := s.sessions[g := Next(s.retries, s.sessions[g], IsRetryableStatus(s.saga.calls[id].stage.http))])
    case GotOther(g, retryable) =>
      s.(sessions := s.sessions[g := Next(s.retries, s.sessions[g].(direct := false), retryable)])
  }

  predicate Legal(init: State, acts: seq<Action>)
    decreases |acts|, 0
  {
    acts == [] ||
    var before := acts[..|acts| - 1];
    Legal(init, before) && Enabled(Run(init, before), acts[|acts| - 1])
  }

  function Run(init: State, acts: seq<Action>): State
    requires Legal(init, acts)
    decreases |acts|, 1
  {
    if acts == [] then init
    else Apply(Run(init, acts[..|acts| - 1]), acts[|acts| - 1])
  }
}
