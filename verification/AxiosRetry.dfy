/** The retry interceptor of api-gateway: recursion through client(cfg), with the
    counter kept in the request's own config object. */
module AxiosRetry {
  import opened Retry
  import opened Wrappers
  import R = ResilientClients
  import W = Worlds

  /** One attempt: an error without a response, or a response. */
  datatype Reply = NoResponse | Answer(status: int)

  datatype Settled = Resolved(status: int) | Rejected(error: Reply)

  /** validateStatus lets everything below 500 resolve. */
  predicate Resolves(r: Reply) { r.Answer? && r.status < 500 }

  /** isRetryable, of an error. */
  predicate IsRetryable(r: Reply) { r.NoResponse? || r.status in {502, 503, 504} }

  /** The outcomes after which the interceptor calls the client again. */
  predicate CallsAgain(r: Reply) { !Resolves(r) && IsRetryable(r) }

  /** Attempts left to a config that has already counted `count` retries. */
  function AttemptsLeft(retries: int, count: nat): nat {
    if count < retries then retries - count + 1 else 1
  }

  /** The delays before retries m+1 ... n. */
  function Delays(base: int, m: nat, n: nat): int
    requires m <= n
  {
    if m == n then 0 else Delays(base, m, n - 1) + base * Pow2(n - 1)
  }

  lemma {:induction false} DelaysClosedForm(base: int, n: nat)
    ensures Delays(base, 0, n) == base * (Pow2(n) - 1)
  {
    if n > 0 {
      DelaysClosedForm(base, n - 1);
      assert base * (Pow2(n - 1) - 1) + base * Pow2(n - 1) == base * (2 * Pow2(n - 1) - 1);
    }
  }

  lemma {:induction false} DelaysFront(base: int, m: nat, n: nat)
    requires m < n
    ensures Delays(base, m, n) == base * Pow2(m) + Delays(base, m + 1, n)
    decreases n
  {
    if m + 1 < n {
      DelaysFront(base, m, n - 1);
    }
  }

  class RequestConfig {
    var retryCount: nat

    constructor ()
      ensures retryCount == 0
    {
      retryCount := 0;
    }
  }

  /** client(cfg): one attempt, and on rejection the interceptor. `script` is what
      the attempts meet; `used` of it were made, with `waited` in between. */
  method Client(cfg: RequestConfig, script: seq<Reply>, retries: int, delayMs: int)
      returns (settled: Settled, used: nat, waited: int)
    requires |script| >= AttemptsLeft(retries, cfg.retryCount)
    modifies cfg
    ensures 1 <= used <= AttemptsLeft(retries, old(cfg.retryCount))
    ensures StopsRight(script[..used], AttemptsLeft(retries, old(cfg.retryCount)), CallsAgain)
    // below 500 resolves, anything else rejects; retried are failures without a response
    // and 502, 503 and 504, as long as the counter allows
    ensures var last := script[used - 1];
      settled == if last.Answer? && last.status < 500 then Resolved(last.status) else Rejected(last)
    ensures var allowed := if old(cfg.retryCount) < retries then retries - old(cfg.retryCount) + 1 else 1;
      forall i :: 0 <= i < used ==>
        var failed := script[i].NoResponse? || script[i].status in {502, 503, 504};
        if i < used - 1 then failed else failed ==> used == allowed
    ensures cfg.retryCount == old(cfg.retryCount) + used - 1
    ensures waited == Delays(delayMs, old(cfg.retryCount), cfg.retryCount)
    decreases AttemptsLeft(retries, cfg.retryCount)
  {
    var reply := script[0];
    if Resolves(reply) {
      return Resolved(reply.status), 1, 0;
    }
    settled, used, waited := OnRejected(cfg, reply, script[1..], retries, delayMs);
    assert script[..used] == [reply] + script[1..][..used - 1];
    assert forall i :: 0 <= i < used ==> script[..used][i] == script[i];
  }

  /** The interceptor's error handler; `rest` is what further attempts would meet. */
  method OnRejected(cfg: RequestConfig, error: Reply, rest: seq<Reply>, retries: int, delayMs: int)
      returns (settled: Settled, used: nat, waited: int)
    requires !Resolves(error) && |rest| + 1 >= AttemptsLeft(retries, cfg.retryCount)
    modifies cfg
    ensures 1 <= used <= AttemptsLeft(retries, old(cfg.retryCount)) && used <= |rest| + 1
    ensures StopsRight([error] + rest[..used - 1], AttemptsLeft(retries, old(cfg.retryCount)), CallsAgain)
    ensures var last := if used == 1 then error else rest[used - 2];
      settled == if Resolves(last) then Resolved(last.status) else Rejected(last)
    ensures cfg.retryCount == old(cfg.retryCount) + used - 1
    ensures waited == Delays(delayMs, old(cfg.retryCount), cfg.retryCount)
    decreases AttemptsLeft(retries, cfg.retryCount), 0
  {
    if cfg.retryCount < retries && IsRetryable(error) {
      ghost var count := cfg.retryCount;
      cfg.retryCount := cfg.retryCount + 1;
      var delay := delayMs * Pow2(cfg.retryCount - 1);
      var u, t;
      settled, u, t := Client(cfg, rest, retries, delayMs);
      used, waited := u + 1, delay + t;
      var outs := [error] + rest[..u];
      assert forall i :: 0 < i < |outs| ==> outs[i] == rest[..u][i - 1];
      DelaysFront(delayMs, count, cfg.retryCount);
    } else {
      settled, used, waited := Rejected(error), 1, 0;
      assert [error] + rest[..0] == [error];
    }
  }

  function AsReply(o: W.HttpOutcome): Reply {
    if o.NetworkError? then NoResponse else Answer(o.status)
  }

  function AsReplies(outs: seq<W.HttpOutcome>): seq<Reply> {
    seq(|outs|, i requires 0 <= i < |outs| => AsReply(outs[i]))
  }

  /** The two retry predicates pick the same outcomes. */
  lemma SamePredicate(o: W.HttpOutcome)
    ensures R.TriesAgain(o) <==> CallsAgain(AsReply(o))
  {
  }

  /** With the same number of retries, before the same outcomes, the recursion of the
      gateway makes exactly as many attempts as order-service's loop does when no wait
      is cancelled: the premises are what Do and Client ensure. */
  lemma RecursionAgreesWithLoop(script: seq<W.HttpOutcome>, retries: nat, weather: seq<W.Weather>,
      outs: seq<W.HttpOutcome>, resp: Option<W.HttpOutcome>, err: Option<R.ClientError>, used: nat)
    requires R.Verdict(outs, retries, true, weather, resp, err) && R.NeverCancelled(weather, retries)
    requires outs <= script && used <= |script|
    requires StopsRight(AsReplies(script)[..used], AttemptsLeft(retries, 0), CallsAgain)
    ensures used == |outs|
  {
    R.UncancelledStopsRight(outs, retries, weather);
    var n := if used < |outs| then used else |outs|;
    SamePredicate(script[n - 1]);
    assert AsReplies(script)[..used][n - 1] == AsReply(script[n - 1]);
  }
}
