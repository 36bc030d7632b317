/**
  The two implementations of IPaymentGatewayClient: the live HTTP client behind
  Polly's retry policy, and the simulated gateway with its fixed rule.
 */
module GatewayClients {
  import opened Wrappers
  import opened Payments
  import opened Retry
  import P = PaymentProtocol
  import PI = PaymentInvariant
  import PT = PaymentTheorems

  datatype Payload = Unparsable | NullPayload | Charge(result: GatewayResult)

  /** One POST to the card processor. */
  datatype Post = Refused | TimedOut | CallerCancelled | Answer(status: int, payload: Payload)

  predicate IsSuccess(status: int) { 200 <= status <= 299 }

  /** HandleTransientHttpError: HttpRequestException, 5xx and 408. A timeout of the
      HttpClient is not among them. */
  predicate PollyRetries(p: Post) {
    p.Refused? || (p.Answer? && (p.status >= 500 || p.status == 408))
  }

  /** What HttpPaymentGatewayClient.ChargeAsync makes of the last answer; None is an
      exception that is not PaymentGatewayUnavailableException. */
  function Classify(p: Post): Option<GatewayOutcome> {
    match p
    case Refused => Some(Unavailable)
    case TimedOut => Some(Unavailable)
    case CallerCancelled => None
    case Answer(status, payload) =>
      if !IsSuccess(status) then Some(Unavailable)
      else match payload
        case Unparsable => None
        case NullPayload => Some(Returned(GatewayResult(false, None, Some("empty_gateway_response"))))
        case Charge(result) => Some(Returned(result))
  }

  /** The live ChargeAsync: `posts` of the script are made. */
  function LiveCharge(script: seq<Post>, retries: nat): (r: (Option<GatewayOutcome>, nat))
    requires |script| > retries
    ensures 1 <= r.1 <= retries + 1
  {
    var used := Used(script, retries + 1, PollyRetries);
    (Classify(script[used - 1]), used)
  }

  /** The service sees an approval exactly when the first POST that Polly does not
      repeat was answered 2xx with an approval, and gateway_unavailable exactly when
      the last one failed, timed out or was answered outside 2xx. */
  lemma LiveChargeMeaning(script: seq<Post>, retries: nat, n: nat)
    requires |script| > retries && n <= |script| && StopsRight(script[..n], retries + 1, PollyRetries)
    ensures var r := LiveCharge(script, retries); var last := script[n - 1];
      && r.1 == n
      && ((exists g :: r.0 == Some(Returned(g)) && g.approved) <==>
            last.Answer? && IsSuccess(last.status) && last.payload.Charge? && last.payload.result.approved)
      && (r.0 == Some(Unavailable) <==> last.Refused? || last.TimedOut? || (last.Answer? && !IsSuccess(last.status)))
  {
    StopsRightIsUsed(script, n, retries + 1, PollyRetries);
  }

  // ---------------------------------------------------------------------------
  // Runs against the live gateway

  /** The live client makes `posts` POSTs for this outcome. */
  predicate LiveOutcome(script: seq<Post>, polly: nat, outcome: GatewayOutcome, posts: nat) {
    |script| > polly && LiveCharge(script, polly) == (Some(outcome), posts)
  }

  ghost predicate Live(c: P.Call, polly: nat) {
    c.outcome.Finished? ==> exists script :: LiveOutcome(script, polly, c.outcome.outcome, c.posts)
  }

  ghost predicate ReturnedLive(s: P.State, a: P.Action)
    requires a.GatewayReturn? && P.Enabled(s, a)
  {
    exists script :: LiveOutcome(script, s.polly, a.outcome, s.ledger[P.PcOf(s, a.h).call].posts)
  }

  /** Every gateway call of the run returned what the live client makes of the answers
      to the POSTs it made. */
  ghost predicate LiveRun(polly: nat, acts: seq<P.Action>)
    requires P.Legal(polly, acts)
    decreases |acts|
  {
    acts == [] ||
    var before, a := acts[..|acts| - 1], acts[|acts| - 1];
    LiveRun(polly, before) && (a.GatewayReturn? ==> ReturnedLive(P.Run(polly, before), a))
  }

  ghost predicate AllLive(s: P.State) {
    forall i :: 0 <= i < |s.ledger| ==> Live(s.ledger[i], s.polly)
  }

  lemma StepLive(s: P.State, a: P.Action)
    requires PI.PcMatchesLedger(s) && AllLive(s) && P.Enabled(s, a)
    requires a.GatewayReturn? ==> ReturnedLive(s, a)
    ensures AllLive(P.Apply(s, a))
  {
    var t := P.Apply(s, a);
    forall i | 0 <= i < |t.ledger| ensures Live(t.ledger[i], t.polly) {
      assert i < |s.ledger| ==> Live(s.ledger[i], s.polly);
    }
  }

  lemma {:induction false} RunLive(polly: nat, acts: seq<P.Action>)
    requires P.Legal(polly, acts) && LiveRun(polly, acts)
    ensures AllLive(P.Run(polly, acts))
    decreases |acts|
  {
    if acts != [] {
      var before, a := acts[..|acts| - 1], acts[|acts| - 1];
      RunLive(polly, before);
      PT.RunInv(polly, before);
      StepLive(P.Run(polly, before), a);
    }
  }

  /** The POST failed, or was answered with a 5xx or 408: a transient failure. */
  predicate Transient(p: Post) {
    p.Refused? || (p.Answer? && (p.status >= 500 || p.status == 408))
  }

  /** Only transient failures were repeated, and the last POST may be one only if the
      retries were used up. */
  predicate RepeatedRight(outs: seq<Post>, retries: nat) {
    && 1 <= |outs| <= retries + 1
    && (forall k :: 0 <= k < |outs| - 1 ==> Transient(outs[k]))
    && (Transient(outs[|outs| - 1]) ==> |outs| == retries + 1)
  }

  /** What the deciding POST says about the payment: an approval or a refusal in a 2xx
      answer, with its transaction and reason; a refusal for an empty one; and for
      anything else that the gateway was unavailable. */
  predicate RowFollows(row: Payment, last: Post) {
    if last.Answer? && 200 <= last.status <= 299 then
      if last.payload.Charge? then
        && (row.status.Succeeded? <==> last.payload.result.approved)
        && (row.status.Declined? <==> !last.payload.result.approved)
        && row.transactionId == last.payload.result.transactionId
        && row.failureReason == last.payload.result.declineReason
      else
        && last.payload.NullPayload? && row.status.Declined? && row.transactionId.None?
        && row.failureReason == Some("empty_gateway_response")
    else
      && !last.CallerCancelled? && row.status.Failed? && row.transactionId.None?
      && row.failureReason == Some("gateway_unavailable")
  }

  lemma LiveStatus(row: Payment, script: seq<Post>, polly: nat, outcome: GatewayOutcome, posts: nat)
    requires LiveOutcome(script, polly, outcome, posts) && row == Settle(PI.Unsettled(row), outcome)
    ensures posts <= |script| && RepeatedRight(script[..posts], polly)
    ensures RowFollows(row, script[posts - 1])
  {
    StopsRightIsUsed(script, posts, polly + 1, PollyRetries);
    LiveChargeMeaning(script, polly, posts);
    var outs := script[..posts];
    assert forall k :: 0 <= k < |outs| ==> (PollyRetries(outs[k]) <==> Transient(outs[k]));
  }

  /** In every run against the live gateway, a settled payment stems from one gateway
      call, whose POSTs, as many as were counted, were repeated right; and the last of
      them decided what the payment says. */
  lemma LiveGatewayDecides(polly: nat, acts: seq<P.Action>, p: nat) returns (i: nat, outs: seq<Post>)
    requires P.Legal(polly, acts) && LiveRun(polly, acts)
    requires p in P.Run(polly, acts).payments && !P.Run(polly, acts).payments[p].status.Pending?
    ensures var s := P.Run(polly, acts);
      && i < |s.ledger| && s.ledger[i].pid == p && s.ledger[i].posts == |outs|
      && RepeatedRight(outs, polly) && RowFollows(s.payments[p], outs[|outs| - 1])
  {
    RunLive(polly, acts);
    PT.RunInv(polly, acts);
    var s := P.Run(polly, acts);
    var row := s.payments[p];
    i := PT.SettlingCall(s, p);
    assert Live(s.ledger[i], polly);
    var script :| LiveOutcome(script, polly, s.ledger[i].outcome.outcome, s.ledger[i].posts);
    outs := script[..s.ledger[i].posts];
    LiveStatus(row, script, polly, s.ledger[i].outcome.outcome, s.ledger[i].posts);
  }

  // ---------------------------------------------------------------------------
  // The simulated gateway

  /** StringComparer.OrdinalIgnoreCase on the supported list. */
  predicate SupportedCurrency(c: string) { ToUpper(c) in {"USD", "EUR", "GBP"} }

  /** SimulatedPaymentGatewayClient.ChargeAsync; `txn` is the generated id. */
  function Simulate(r: P.GatewayRequest, threshold: int, txn: string): GatewayResult {
    if !SupportedCurrency(r.currency) then GatewayResult(false, None, Some("unsupported_currency"))
    else if r.amountCents > threshold then GatewayResult(false, None, Some("amount_exceeds_limit"))
    else GatewayResult(true, Some("sim_txn_" + txn), None)
  }

  /** The simulated gateway's answer to this call, whatever transaction id it generates. */
  ghost predicate Simulated(c: P.Call, threshold: int) {
    c.outcome.Finished? ==>
      && c.outcome.outcome.Returned?
      && exists txn :: c.outcome.outcome.result == Simulate(c.request, threshold, txn)
  }

  /** Every gateway call of the run returned what the simulated gateway returns. */
  ghost predicate SimulatedRun(polly: nat, acts: seq<P.Action>, threshold: int)
    requires P.Legal(polly, acts)
    decreases |acts|
  {
    acts == [] ||
    var before, a := acts[..|acts| - 1], acts[|acts| - 1];
    && SimulatedRun(polly, before, threshold)
    && (a.GatewayReturn? ==> ReturnedAsSimulated(P.Run(polly, before), a, threshold))
  }

  ghost predicate ReturnedAsSimulated(s: P.State, a: P.Action, threshold: int)
    requires a.GatewayReturn? && P.Enabled(s, a)
  {
    a.outcome.Returned?
    && exists txn :: a.outcome.result == Simulate(s.ledger[P.PcOf(s, a.h).call].request, threshold, txn)
  }

  ghost predicate AllSimulated(s: P.State, threshold: int) {
    forall i :: 0 <= i < |s.ledger| ==> Simulated(s.ledger[i], threshold)
  }

  lemma StepSimulated(s: P.State, a: P.Action, threshold: int)
    requires AllSimulated(s, threshold) && P.Enabled(s, a)
    requires a.GatewayReturn? ==> ReturnedAsSimulated(s, a, threshold)
    ensures AllSimulated(P.Apply(s, a), threshold)
  {
    var t := P.Apply(s, a);
    forall i | 0 <= i < |t.ledger| ensures Simulated(t.ledger[i], threshold) {
      assert i < |s.ledger| ==> Simulated(s.ledger[i], threshold);
    }
  }

  lemma {:induction false} RunSimulated(polly: nat, acts: seq<P.Action>, threshold: int)
    requires P.Legal(polly, acts) && SimulatedRun(polly, acts, threshold)
    ensures AllSimulated(P.Run(polly, acts), threshold)
    decreases |acts|
  {
    if acts != [] {
      var before, a := acts[..|acts| - 1], acts[|acts| - 1];
      RunSimulated(polly, before, threshold);
      StepSimulated(P.Run(polly, before), a, threshold);
    }
  }

  /** What the simulated gateway makes of a payment in this currency: in dollars, euros or
      pounds up to the threshold it is approved, under a generated transaction; else it
      is declined, with the reason. */
  predicate RowFollowsRule(row: Payment, threshold: int) {
    if row.currency !in {"USD", "EUR", "GBP"} then
      row.status.Declined? && row.transactionId.None? && row.failureReason == Some("unsupported_currency")
    else if row.amountCents > threshold then
      row.status.Declined? && row.transactionId.None? && row.failureReason == Some("amount_exceeds_limit")
    else
      && row.status.Succeeded? && row.failureReason.None?
      && row.transactionId.Some? && "sim_txn_" <= row.transactionId.value
  }

  lemma CurrencyIsUpper(row: Payment, e: Envelope)
    requires MadeFor(row, e)
    ensures ToUpper(row.currency) == row.currency
  {
    MadeForMeans(row, e);
    UpperStays(row.currency);
  }

  lemma RuleDecides(row: Payment, request: P.GatewayRequest, threshold: int, txn: string)
    requires ToUpper(row.currency) == row.currency
    requires request.currency == row.currency && request.amountCents == row.amountCents
    requires row == Settle(PI.Unsettled(row), Returned(Simulate(request, threshold, txn)))
    ensures RowFollowsRule(row, threshold)
  {
  }

  /** In every run against the simulated gateway, a settled payment follows its rule. */
  lemma SimulatedGatewayDecides(polly: nat, acts: seq<P.Action>, threshold: int, p: nat)
    requires P.Legal(polly, acts) && SimulatedRun(polly, acts, threshold)
    requires p in P.Run(polly, acts).payments && !P.Run(polly, acts).payments[p].status.Pending?
    ensures RowFollowsRule(P.Run(polly, acts).payments[p], threshold)
  {
    RunSimulated(polly, acts, threshold);
    PT.RunInv(polly, acts);
    var s := P.Run(polly, acts);
    var row := s.payments[p];
    assert PI.HasOrigin(s, row);
    var e :| e in s.requests && MadeFor(row, e);
    CurrencyIsUpper(row, e);
    var i := PT.SettlingCall(s, p);
    assert Simulated(s.ledger[i], threshold);
    var txn :| s.ledger[i].outcome.outcome.result == Simulate(s.ledger[i].request, threshold, txn);
    RuleDecides(row, s.ledger[i].request, threshold, txn);
  }
}
