/** How far the retries of the gateway multiply, and when they are harmless. */
module EdgeTheorems {
  import opened Payments
  import opened EdgeGateway
  import opened Retry
  import opened Sums
  import A = AxiosRetry
  import Saga = OrderSaga
  import SI = SagaInvariant
  import ST = SagaTheorems
  import P = PaymentProtocol
  import PI = PaymentInvariant

  /** Attempts that n configured retries allow. */
  function Attempts(retries: int): nat { if retries < 0 then 1 else retries + 1 }

  predicate SessionsBounded(s: State) {
    forall g :: g in s.sessions ==> 1 <= s.sessions[g].sent <= Attempts(s.retries)
  }

  /** Every call of CreateOrder serves one attempt, and no two the same. */
  predicate OriginsDistinct(s: State) {
    && s.origin.Keys == s.saga.calls.Keys
    && (forall id :: id in s.origin ==>
         s.origin[id].session in s.sessions && s.origin[id].attempt < s.sessions[s.origin[id].session].sent)
    && forall x, y :: x in s.origin && y in s.origin && s.origin[x] == s.origin[y] ==> x == y
  }

  /** After direct answers only, all attempts but the last ended in a refusal. */
  predicate EarlierAttemptsRefused(s: State) {
    forall id :: id in s.origin && s.origin[id].session in s.sessions && id in s.saga.calls ==>
      var session := s.sessions[s.origin[id].session];
      session.direct && s.origin[id].attempt + 1 < session.sent ==>
        SI.IsRefused(s.saga.calls[id])
  }

  /** ... and each of them did reach order-service, so none can arrive late. */
  predicate EarlierAttemptsArrived(s: State) {
    forall g, k: nat | g in s.sessions && k < s.sessions[g].sent ::
      s.sessions[g].direct && k + 1 < s.sessions[g].sent ==> Origin(g, k) in s.origin.Values
  }

  ghost predicate Inv(s: State) {
    && SI.Inv(s.saga)
    && SessionsBounded(s) && OriginsDistinct(s) && EarlierAttemptsRefused(s) && EarlierAttemptsArrived(s)
  }

  lemma WithinInv(s: State, act: Saga.Action)
    requires Inv(s) && Enabled(s, Within(act))
    ensures Inv(Apply(s, Within(act)))
  {
    SI.StepInv(s.saga, act);
    ST.StepKeeps(s.saga, act);
    OnlyBeginAddsCalls(s.saga, act);
  }

  lemma OnlyBeginAddsCalls(s: Saga.State, act: Saga.Action)
    requires Saga.Enabled(s, act)
    ensures Saga.Apply(s, act).calls.Keys == s.calls.Keys + if act.Begin? then {act.id} else {}
  {
  }

  lemma ArriveInv(s: State, id: nat, g: nat, k: nat)
    requires Inv(s) && Enabled(s, Arrive(id, g, k))
    ensures Inv(Apply(s, Arrive(id, g, k)))
  {
    SI.StepInv(s.saga, Saga.Begin(id));
    ArriveOrigins(s, id, g, k);
  }

  lemma ArriveOrigins(s: State, id: nat, g: nat, k: nat)
    requires OriginsDistinct(s) && EarlierAttemptsRefused(s) && EarlierAttemptsArrived(s)
    requires Enabled(s, Arrive(id, g, k))
    ensures var t := Apply(s, Arrive(id, g, k));
      OriginsDistinct(t) && EarlierAttemptsRefused(t) && EarlierAttemptsArrived(t)
  {
    var t := Apply(s, Arrive(id, g, k));
    forall f, j: nat | f in t.sessions && j + 1 < t.sessions[f].sent && t.sessions[f].direct
      ensures Origin(f, j) in t.origin.Values
    {
      assert Origin(f, j) in s.origin.Values;
      var x :| x in s.origin && s.origin[x] == Origin(f, j);
      assert t.origin[x] == Origin(f, j);
    }
  }

  lemma GotResponseInv(s: State, g: nat, id: nat)
    requires Inv(s) && Enabled(s, GotResponse(g, id))
    ensures Inv(Apply(s, GotResponse(g, id)))
  {
    assert SI.CallWellFormed(s.saga.retries, id, s.saga.calls[id]);
    GotResponseOrigins(s, g, id);
    GotResponseRefused(s, g, id);
    GotResponseArrived(s, g, id);
  }

  lemma GotResponseOrigins(s: State, g: nat, id: nat)
    requires SessionsBounded(s) && OriginsDistinct(s) && Enabled(s, GotResponse(g, id))
    ensures var t := Apply(s, GotResponse(g, id)); SessionsBounded(t) && OriginsDistinct(t)
  {
  }

  /** A session may move on to another attempt once the last one was refused. */
  lemma MoveOn(s: State, g: nat, id: nat, next: Session)
    requires OriginsDistinct(s) && EarlierAttemptsRefused(s) && g in s.sessions && s.sessions[g].sent > 0
    requires id in s.origin && s.origin[id] == Origin(g, s.sessions[g].sent - 1)
    requires next.direct == s.sessions[g].direct
    requires next.sent == s.sessions[g].sent || (next.sent == s.sessions[g].sent + 1 && SI.IsRefused(s.saga.calls[id]))
    ensures EarlierAttemptsRefused(s.(sessions := s.sessions[g := next]))
  {
  }

  /** Moving on to another attempt after a 502, 503 or 504 from order-service means
      that the attempt left behind was refused. */
  lemma GotResponseRefused(s: State, g: nat, id: nat)
    requires OriginsDistinct(s) && EarlierAttemptsRefused(s)
    requires Enabled(s, GotResponse(g, id)) && SI.CallWellFormed(s.saga.retries, id, s.saga.calls[id])
    ensures EarlierAttemptsRefused(Apply(s, GotResponse(g, id)))
  {
    MoveOn(s, g, id, Next(s.retries, s.sessions[g], IsRetryableStatus(s.saga.calls[id].stage.http)));
  }

  lemma GotResponseArrived(s: State, g: nat, id: nat)
    requires EarlierAttemptsArrived(s) && Enabled(s, GotResponse(g, id))
    ensures EarlierAttemptsArrived(Apply(s, GotResponse(g, id)))
  {
    assert Origin(g, s.sessions[g].sent - 1) in s.origin.Values;
  }

  lemma StepInv(s: State, a: Action)
    requires Inv(s) && Enabled(s, a)
    ensures Inv(Apply(s, a)) && Apply(s, a).retries == s.retries
  {
    match a
    case ClientPost(g) => ClientPostInv(s, g);
    case Arrive(id, g, k) => ArriveInv(s, id, g, k);
    case Within(act) => WithinInv(s, act);
    case GotResponse(g, id) => GotResponseInv(s, g, id);
    case GotOther(g, retryable) => GotOtherInv(s, g, retryable);
  }

  lemma ClientPostInv(s: State, g: nat)
    requires Inv(s) && Enabled(s, ClientPost(g))
    ensures Inv(Apply(s, ClientPost(g)))
  {
  }

  lemma GotOtherInv(s: State, g: nat, retryable: bool)
    requires Inv(s) && Enabled(s, GotOther(g, retryable))
    ensures Inv(Apply(s, GotOther(g, retryable)))
  {
  }

  lemma {:induction false} RunInv(retries: int, orderRetries: int, polly: nat, acts: seq<Action>)
    requires Legal(Init(retries, orderRetries, polly), acts)
    ensures var s := Run(Init(retries, orderRetries, polly), acts);
      Inv(s) && s.retries == retries && s.saga.retries == orderRetries && s.saga.pay.polly == polly
    decreases |acts|
  {
    var init := Init(retries, orderRetries, polly);
    if acts == [] {
      SI.InitInv(orderRetries, polly);
    } else {
      var before, a := acts[..|acts| - 1], acts[|acts| - 1];
      RunInv(retries, orderRetries, polly, before);
      StepInv(Run(init, before), a);
      SettingsStay(Run(init, before), a);
    }
  }

  lemma SettingsStay(s: State, a: Action)
    requires Inv(s) && Enabled(s, a)
    ensures Apply(s, a).saga.retries == s.saga.retries && Apply(s, a).saga.pay.polly == s.saga.pay.polly
  {
    match a
    case Within(act) => ST.StepKeeps(s.saga, act);
    case Arrive(id, _, _) => ST.StepKeeps(s.saga, Saga.Begin(id));
    case _ =>
  }

  // ---------------------------------------------------------------------------
  // When a session goes on

  /** An attempt that order-service answers is followed by another exactly if the answer
      is a 502, 503 or 504 and fewer retries than configured have been made. */
  lemma RetriedExactlyWhen(s: State, g: nat, id: nat)
    requires Enabled(s, GotResponse(g, id))
    ensures var t, http := Apply(s, GotResponse(g, id)), s.saga.calls[id].stage.http;
      && g in t.sessions && t.sessions[g].direct == s.sessions[g].direct
      && if http in {502, 503, 504} && s.sessions[g].sent <= s.retries
         then t.sessions[g].waiting && t.sessions[g].sent == s.sessions[g].sent + 1
         else !t.sessions[g].waiting && t.sessions[g].sent == s.sessions[g].sent
  {
  }

  /** A session after these outcomes. */
  function Play(retries: int, outs: seq<A.Reply>): Session {
    if outs == [] then Session(1, true, true)
    else
      var session := Play(retries, outs[..|outs| - 1]);
      if session.waiting then Next(retries, session, A.CallsAgain(outs[|outs| - 1])) else session
  }

  lemma {:induction false} PlayGoesOn(retries: int, outs: seq<A.Reply>)
    requires forall i :: 0 <= i < |outs| ==> A.CallsAgain(outs[i])
    requires |outs| < A.AttemptsLeft(retries, 0)
    ensures Play(retries, outs) == Session(|outs| + 1, true, true)
    decreases |outs|
  {
    if outs != [] {
      PlayGoesOn(retries, outs[..|outs| - 1]);
    }
  }

  /** The sessions here are those of the interceptor: over outcomes at which its recursion
      stops right, a session makes as many attempts and then waits no longer. */
  lemma SessionIsInterceptor(retries: int, outs: seq<A.Reply>)
    requires StopsRight(outs, A.AttemptsLeft(retries, 0), A.CallsAgain)
    ensures Play(retries, outs) == Session(|outs|, false, true)
  {
    PlayGoesOn(retries, outs[..|outs| - 1]);
  }

  // ---------------------------------------------------------------------------
  // Amplification

  /** The calls of CreateOrder that one client POST caused. */
  function CallsOf(s: State, g: nat): set<nat> {
    set id | id in s.origin && s.origin[id].session == g
  }

  function OrdersOf(s: State, g: nat): set<nat> {
    set id | id in CallsOf(s, g) && id in s.saga.tables.orders
  }

  function Sends(s: State): map<nat, int> {
    map id | id in s.saga.calls :: s.saga.calls[id].sends
  }

  /** Indices of the gateway-client calls made on behalf of these orders. */
  function LedgerOf(s: State, ids: set<nat>): set<nat> {
    set i | 0 <= i < |s.saga.pay.ledger| && s.saga.pay.ledger[i].key.Canonical? && s.saga.pay.ledger[i].key.id in ids
  }

  function Posts(s: State): map<nat, int> {
    map i | 0 <= i < |s.saga.pay.ledger| :: s.saga.pay.ledger[i].posts
  }

  lemma CallsBound(s: State, g: nat)
    requires Inv(s) && g in s.sessions
    ensures |CallsOf(s, g)| <= Attempts(s.retries)
  {
    var slot := map id | id in s.origin :: s.origin[id].attempt;
    InjectionBound(CallsOf(s, g), slot, Attempts(s.retries));
  }

  lemma LedgerBound(s: State, g: nat)
    requires Inv(s) && g in s.sessions
    ensures |LedgerOf(s, CallsOf(s, g))| <= Attempts(s.retries)
  {
    var ids := CallsOf(s, g);
    var slot := map i | i in LedgerOf(s, ids) :: s.origin[s.saga.pay.ledger[i].key.id].attempt;
    forall i, j | i in LedgerOf(s, ids) && j in LedgerOf(s, ids) && slot[i] == slot[j] ensures i == j {
      assert s.origin[s.saga.pay.ledger[i].key.id] == s.origin[s.saga.pay.ledger[j].key.id];
      OneCallPerKey(s.saga.pay, i, j);
    }
    InjectionBound(LedgerOf(s, ids), slot, Attempts(s.retries));
  }

  lemma OneCallPerKey(pay: P.State, i: nat, j: nat)
    requires PI.Inv(pay) && i < |pay.ledger| && j < |pay.ledger| && pay.ledger[i].key == pay.ledger[j].key
    ensures i == j
  {
    assert pay.ledger[i].pid == pay.ledger[j].pid;
  }

  lemma Monotone(a: nat, b: nat, c: nat)
    requires a <= b
    ensures a * c <= b * c
  {
  }

  /** One client POST causes at most Rg+1 orders, (Rg+1)(Ro+1) charge requests,
      Rg+1 calls of the gateway client and (Rg+1)(Rp+1) POSTs to the card
      processor: the retries of order-service do not reach the gateway client. */
  lemma RetryAmplification(retries: int, orderRetries: int, polly: nat, acts: seq<Action>, g: nat)
    requires Legal(Init(retries, orderRetries, polly), acts)
    requires g in Run(Init(retries, orderRetries, polly), acts).sessions
    ensures var s := Run(Init(retries, orderRetries, polly), acts);
      var rg, ro := if retries < 0 then 1 else retries + 1, if orderRetries < 0 then 1 else orderRetries + 1;
      && |OrdersOf(s, g)| <= |CallsOf(s, g)| <= rg
      && CallsOf(s, g) <= Sends(s).Keys
      && SetSum(CallsOf(s, g), Sends(s)) <= rg * ro
      && |LedgerOf(s, CallsOf(s, g))| <= rg
      && LedgerOf(s, CallsOf(s, g)) <= Posts(s).Keys
      && SetSum(LedgerOf(s, CallsOf(s, g)), Posts(s)) <= rg * (polly + 1)
  {
    RunInv(retries, orderRetries, polly, acts);
    var s := Run(Init(retries, orderRetries, polly), acts);
    var ids := CallsOf(s, g);
    var mine := LedgerOf(s, ids);
    CallsBound(s, g);
    LedgerBound(s, g);
    SubsetSize(OrdersOf(s, g), ids);
    forall id | id in ids ensures Sends(s)[id] <= Attempts(orderRetries) {
      assert SI.CallWellFormed(s.saga.retries, id, s.saga.calls[id]);
    }
    SetSumBound(ids, Sends(s), Attempts(orderRetries));
    Monotone(|ids|, Attempts(retries), Attempts(orderRetries));
    SetSumBound(mine, Posts(s), polly + 1);
    Monotone(|mine|, Attempts(retries), polly + 1);
  }

  // ---------------------------------------------------------------------------
  // Retries on a status code

  /** While every attempt of a session is answered by order-service itself, all
      its attempts together leave at most one order, at most one payment row, and
      at most one call of the gateway client. */
  lemma StatusCodeRetriesAreSafe(retries: int, orderRetries: int, polly: nat, acts: seq<Action>, g: nat, x: nat, y: nat)
    requires Legal(Init(retries, orderRetries, polly), acts)
    requires g in Run(Init(retries, orderRetries, polly), acts).sessions
    requires Run(Init(retries, orderRetries, polly), acts).sessions[g].direct
    requires x in CallsOf(Run(Init(retries, orderRetries, polly), acts), g)
    requires y in CallsOf(Run(Init(retries, orderRetries, polly), acts), g)
    ensures var s := Run(Init(retries, orderRetries, polly), acts);
      && (x in s.saga.tables.orders && y in s.saga.tables.orders ==> x == y)
      && (forall p, q | p in s.saga.pay.payments && q in s.saga.pay.payments ::
            s.saga.pay.payments[p].key == Canonical(x) && s.saga.pay.payments[q].key == Canonical(y) ==> p == q)
      && (forall i, j | 0 <= i < |s.saga.pay.ledger| && 0 <= j < |s.saga.pay.ledger| ::
            s.saga.pay.ledger[i].key == Canonical(x) && s.saga.pay.ledger[j].key == Canonical(y) ==> i == j)
  {
    RunInv(retries, orderRetries, polly, acts);
    var s := Run(Init(retries, orderRetries, polly), acts);
    if x != y {
      var early := if s.origin[x].attempt < s.origin[y].attempt then x else y;
      assert s.origin[early].attempt + 1 < s.sessions[g].sent;
      assert SI.CallMatchesTables(s.saga, early, s.saga.calls[early]);
      ST.UnpersistedIsUncharged(s.saga, early);
    } else {
      forall i, j | 0 <= i < |s.saga.pay.ledger| && 0 <= j < |s.saga.pay.ledger|
        && s.saga.pay.ledger[i].key == s.saga.pay.ledger[j].key ensures i == j
      {
        OneCallPerKey(s.saga.pay, i, j);
      }
    }
  }
}
