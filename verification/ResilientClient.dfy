/** ResilientClient.Do and the three clients that order-service builds on it. */
module ResilientClients {
  import opened Wrappers
  import opened Int64
  import opened Retry
  import opened OrderSaga
  import opened Worlds

  datatype ClientError =
    | DownstreamUnavailable
    | DownstreamTimeout
    | ContextDone
    | NotBuilt
    | NotFound
    | UnexpectedStatus(status: int)
    | NotDecoded

  /** classifyErr on a network error, and the error kept for a 502, 503 or 504. */
  function Classify(o: HttpOutcome): ClientError {
    if o.NetworkError? && o.timeout then DownstreamTimeout else DownstreamUnavailable
  }

  /** isRetryable */
  predicate IsRetryable(e: ClientError) { e.DownstreamUnavailable? || e.DownstreamTimeout? }

  /** The outcomes after which Do tries again. */
  predicate TriesAgain(o: HttpOutcome) {
    o.NetworkError? || o.status in {502, 503, 504}
  }

  // ---------------------------------------------------------------------------
  // Backoff

  /** 1<<uint(n) as a time.Duration: shifted out of 64 bits it is zero. */
  function ShiftedOne(n: nat): int {
    if n < 64 then Wrap(Pow2(n)) else 0
  }

  /** The wait before attempt `attempt`; time.After of a negative duration fires at once. */
  function Backoff(base: int, attempt: nat): int
    requires attempt > 0
  {
    var d := Wrap(base * ShiftedOne(attempt - 1));
    if d < 0 then 0 else d
  }

  /** All waits up to and including the one before attempt n. */
  function TotalBackoff(base: int, n: nat): int {
    if n == 0 then 0 else TotalBackoff(base, n - 1) + Backoff(base, n)
  }

  lemma AtLeast(base: nat, p: nat)
    requires base > 0
    ensures p <= base * p
  {
  }

  lemma ShiftInRange(base: nat, n: nat)
    requires base > 0 && base * Pow2(n) < HALF
    ensures ShiftedOne(n) == Pow2(n)
  {
    AtLeast(base, Pow2(n));
    if n >= 63 {
      Pow2Monotone(63, n);
      Pow2Of63();
    }
  }

  lemma Pow2Of63()
    ensures Pow2(63) == HALF
  {
    assert Pow2(8) == 256;
    Pow2Add(8, 8);
    Pow2Add(16, 16);
    Pow2Add(32, 16);
    Pow2Add(48, 8);
    assert Pow2(7) == 128;
    Pow2Add(56, 7);
  }

  lemma {:induction false} Pow2Add(m: nat, n: nat)
    ensures Pow2(m + n) == Pow2(m) * Pow2(n)
    decreases n
  {
    if n > 0 {
      Pow2Add(m, n - 1);
      assert Pow2(m + n) == 2 * (Pow2(m) * Pow2(n - 1));
    }
  }

  lemma BackoffIsExact(base: nat, n: nat)
    requires n > 0 && base * Pow2(n - 1) < HALF
    ensures Backoff(base, n) == base * Pow2(n - 1)
  {
    if base > 0 {
      ShiftInRange(base, n - 1);
    }
  }

  lemma EarlierWaitFits(base: nat, n: nat)
    requires n > 1 && base * Pow2(n - 1) < HALF
    ensures base * Pow2(n - 2) < HALF
  {
    Pow2Monotone(n - 2, n - 1);
    Scale(base, Pow2(n - 2), Pow2(n - 1));
  }

  /** Without overflow of the last wait, the waits add up to base * (2^n - 1). */
  lemma {:induction false} TotalBackoffClosedForm(base: nat, n: nat)
    requires n > 0 ==> base * Pow2(n - 1) < HALF
    ensures TotalBackoff(base, n) == base * (Pow2(n) - 1)
  {
    if n > 0 {
      if n > 1 {
        EarlierWaitFits(base, n);
      }
      TotalBackoffClosedForm(base, n - 1);
      BackoffIsExact(base, n);
      Doubling(base, Pow2(n - 1));
    }
  }

  lemma Scale(base: nat, a: nat, b: nat)
    requires a <= b
    ensures base * a <= base * b
  {
  }

  lemma Doubling(base: nat, p: nat)
    ensures base * (p - 1) + base * p == base * (2 * p - 1)
  {
  }

  lemma {:induction false} TotalBackoffGrows(base: int, m: nat, n: nat)
    requires m <= n
    ensures 0 <= TotalBackoff(base, m) <= TotalBackoff(base, n)
    decreases n
  {
    if m < n {
      TotalBackoffGrows(base, m, n - 1);
    } else if m > 0 {
      TotalBackoffGrows(base, m - 1, m - 1);
    }
  }

  /** The most that n attempts can take, each bounded by the client timeout. */
  function CallTime(n: nat, timeout: int): int {
    if n == 0 then 0 else CallTime(n - 1, timeout) + timeout
  }

  lemma {:induction false} CallTimeIsProduct(n: nat, timeout: int)
    ensures CallTime(n, timeout) == n * timeout
  {
    if n > 0 {
      CallTimeIsProduct(n - 1, timeout);
      assert (n - 1) * timeout + timeout == n * timeout;
    }
  }

  // ---------------------------------------------------------------------------

  /** Where the call stands, relative to `was`, after n charge requests; for any
      other request it does not move. */
  predicate Stands(was: State, now: State, id: nat, req: Option<Request>, n: nat) {
    if req.Some? && req.value.PostCharge? then
      In(was, id) && In(now, id)
      && now.calls[id] == was.calls[id].(stage := if n == 0 then Persisted else Charging, sends := n)
    else SamePlace(was, now, CallOf(id))
  }

  /** A charge is posted for a persisted order that has not been charged yet. */
  predicate MayPost(s: State, id: nat, req: Option<Request>, attempts: int, configured: int) {
    req.Some? && req.value.PostCharge? ==>
      && attempts == configured && In(s, id) && s.calls[id].stage.Persisted? && s.calls[id].sends == 0
      && s.calls[id].order.Some? && req.value.env == ChargeFor(s.calls[id].order.value)
  }

  /** Since `before`, the log holds one attempt for each outcome, all with this request. */
  predicate Logged(log: seq<Exchange>, before: seq<Exchange>, req: Option<Request>, outs: seq<HttpOutcome>) {
    && |log| == |before| + |outs| && before <= log && (outs != [] ==> req.Some?)
    && forall i :: 0 <= i < |outs| ==> log[|before| + i] == Exchange(req.value, outs[i])
  }

  lemma LoggedOneMore(log: seq<Exchange>, before: seq<Exchange>, req: Request, outs: seq<HttpOutcome>, o: HttpOutcome)
    requires Logged(log, before, Some(req), outs)
    ensures Logged(log + [Exchange(req, o)], before, Some(req), outs + [o])
  {
  }

  /** The caller's context is done during the wait before attempt n. */
  predicate Cancelled(weather: seq<Weather>, n: nat) {
    0 < n < |weather| && weather[n].cancelled
  }

  predicate NeverCancelled(weather: seq<Weather>, attempts: int) {
    forall n: nat :: n <= attempts ==> !Cancelled(weather, n)
  }

  /** The loop ended where it must: after the first decisive outcome, or with all
      attempts used up, or in the first wait that was cancelled. */
  ghost predicate Retried(outs: seq<HttpOutcome>, attempts: int, weather: seq<Weather>) {
    && 1 <= |outs| <= attempts + 1
    && (forall i :: 0 <= i < |outs| - 1 ==> TriesAgain(outs[i]))
    && NeverCancelled(weather, |outs| - 1)
    && (TriesAgain(outs[|outs| - 1]) ==> |outs| == attempts + 1 || Cancelled(weather, |outs|))
  }

  /** Without cancellation that is the one specification of all retry loops. */
  lemma UncancelledStopsRight(outs: seq<HttpOutcome>, attempts: int, weather: seq<Weather>)
    requires Retried(outs, attempts, weather) && NeverCancelled(weather, attempts)
    ensures StopsRight(outs, attempts + 1, TriesAgain)
  {
  }

  /** What Do returns for the outcomes it saw: exactly one of a response and an
      error, unless no attempt is allowed at all. A response is the decisive outcome;
      the error is the caller's own if a wait was cancelled while attempts were left,
      and else that of the last failure. */
  ghost predicate Verdict(outs: seq<HttpOutcome>, attempts: int, built: bool, weather: seq<Weather>,
    resp: Option<HttpOutcome>, err: Option<ClientError>)
  {
    && (resp.None? && err.None? <==> attempts < 0)
    && (resp.None? || err.None?)
    && (if attempts >= 0 && built then Retried(outs, attempts, weather) else outs == [])
    && (attempts >= 0 && !built ==> err == Some(NotBuilt))
    && (outs != [] ==>
         var last := outs[|outs| - 1];
         if !TriesAgain(last) then resp == Some(last)
         else err == Some(
           if |outs| != attempts + 1 then ContextDone
           else if last.NetworkError? && last.timeout then DownstreamTimeout
           else DownstreamUnavailable))
  }

  lemma RightUnlessCancelled(outs: seq<HttpOutcome>, attempts: int, built: bool, weather: seq<Weather>,
      resp: Option<HttpOutcome>, err: Option<ClientError>)
    requires Verdict(outs, attempts, built, weather, resp, err)
    ensures built && attempts >= 0 && NeverCancelled(weather, attempts) ==> StopsRight(outs, attempts + 1, TriesAgain)
  {
    if built && attempts >= 0 && NeverCancelled(weather, attempts) {
      UncancelledStopsRight(outs, attempts, weather);
    }
  }

  lemma NothingBuilt(attempts: nat, weather: seq<Weather>)
    ensures Verdict([], attempts, false, weather, None, Some(NotBuilt))
  {
  }

  /** n attempts so far, none of them decisive, and no wait before them cancelled. */
  ghost predicate Undecided(outs: seq<HttpOutcome>, n: nat, weather: seq<Weather>, lastErr: Option<ClientError>) {
    && |outs| == n
    && (forall i :: 0 <= i < n ==> TriesAgain(outs[i]))
    && NeverCancelled(weather, n - 1)
    && lastErr == if n == 0 then None else Some(Classify(outs[n - 1]))
  }

  lemma Conclusive(outs: seq<HttpOutcome>, n: nat, weather: seq<Weather>, lastErr: Option<ClientError>, o: HttpOutcome,
      attempts: int)
    requires Undecided(outs, n, weather, lastErr) && n <= attempts && !TriesAgain(o) && !Cancelled(weather, n)
    ensures Verdict(outs + [o], attempts, true, weather, Some(o), None)
  {
  }

  lemma UsedUp(outs: seq<HttpOutcome>, n: nat, weather: seq<Weather>, lastErr: Option<ClientError>, attempts: int,
      built: bool)
    requires Undecided(outs, n, weather, lastErr) && (if attempts < 0 then n == 0 else n == attempts + 1 && built)
    ensures Verdict(outs, attempts, built, weather, None, lastErr)
  {
  }

  lemma GivenUp(outs: seq<HttpOutcome>, n: nat, weather: seq<Weather>, lastErr: Option<ClientError>, attempts: int)
    requires Undecided(outs, n, weather, lastErr) && n <= attempts && Cancelled(weather, n)
    ensures Verdict(outs, attempts, true, weather, None, Some(ContextDone))
  {
  }

  /** Waits and calls of n attempts. */
  predicate Spent(backoff: int, timeout: int, n: nat, slept: int, elapsed: int) {
    && slept == TotalBackoff(backoff, if n == 0 then 0 else n - 1)
    && 0 <= elapsed && (timeout > 0 ==> elapsed <= CallTime(n, timeout))
  }

  lemma SpentOneMore(base: int, timeout: int, n: nat, slept: int, elapsed: int, took: nat)
    requires Spent(base, timeout, n, slept, elapsed) && (timeout > 0 ==> took <= timeout)
    ensures Spent(base, timeout, n + 1, slept + if n == 0 then 0 else Backoff(base, n), elapsed + took)
  {
  }

  lemma WaitBound(base: nat, outs: nat, retries: nat)
    requires outs <= retries + 1
    requires retries > 0 ==> base * Pow2(retries - 1) < HALF
    ensures 0 <= TotalBackoff(base, if outs == 0 then 0 else outs - 1) <= base * (Pow2(retries) - 1)
  {
    TotalBackoffGrows(base, if outs == 0 then 0 else outs - 1, retries);
    TotalBackoffClosedForm(base, retries);
  }

  lemma CallBound(outs: nat, retries: nat, timeout: nat)
    requires outs <= retries + 1
    ensures CallTime(outs, timeout) <= (retries + 1) * timeout
  {
    CallTimeIsProduct(outs, timeout);
    Scale(timeout, outs, retries + 1);
  }

  /** Termination and time: whatever the network does, a Do with R >= 0 retries
      whose last wait does not overflow takes at most (R+1)*T for its calls and
      base*(2^R - 1) for its waits, when the client timeout T is positive. */
  lemma TimeBound(base: nat, timeout: int, retries: nat, outs: nat, slept: int, elapsed: int)
    requires Spent(base, timeout, outs, slept, elapsed) && outs <= retries + 1 && timeout > 0
    requires retries > 0 ==> base * Pow2(retries - 1) < HALF
    ensures 0 <= slept <= base * (Pow2(retries) - 1)
    ensures elapsed <= (retries + 1) * timeout
    ensures slept + elapsed <= (retries + 1) * timeout + base * (Pow2(retries) - 1)
  {
    WaitBound(base, outs, retries);
    CallBound(outs, retries, timeout);
  }

  /** Where the world stood when Do was called. */
  datatype Start = Start(
    trace: seq<Action>,
    st: State,
    log: seq<Exchange>,
    weather: seq<Weather>,
    open: int,
    slept: int,
    elapsed: int)

  class ResilientClient {
    const retryAttempts: int
    const retryBackoff: int
    const timeout: int

    constructor (retryAttempts: int, retryBackoff: int, timeout: int)
      ensures this.retryAttempts == retryAttempts && this.retryBackoff == retryBackoff && this.timeout == timeout
    {
      this.retryAttempts, this.retryBackoff, this.timeout := retryAttempts, retryBackoff, timeout;
    }

    /** The log, the waits, the calls and the weather used up so far belong to `outs`. */
    predicate Booked(from: Start, req: Option<Request>, outs: seq<HttpOutcome>, log: seq<Exchange>,
      weather: seq<Weather>, slept: int, elapsed: int)
    {
      && Logged(log, from.log, req, outs)
      && weather == Rest(from.weather, |outs|)
      && Spent(retryBackoff, timeout, |outs|, slept - from.slept, elapsed - from.elapsed)
    }

    lemma BookedOneMore(from: Start, req: Request, outs: seq<HttpOutcome>, log: seq<Exchange>, weather: seq<Weather>,
        slept: int, elapsed: int, o: HttpOutcome, took: nat)
      requires Booked(from, Some(req), outs, log, weather, slept, elapsed) && (timeout > 0 ==> took <= timeout)
      ensures var wait := if |outs| == 0 then 0 else Backoff(retryBackoff, |outs|);
        Booked(from, Some(req), outs + [o], log + [Exchange(req, o)], Rest(weather, 1), slept + wait, elapsed + took)
    {
      LoggedOneMore(log, from.log, req, outs, o);
      SpentOneMore(retryBackoff, timeout, |outs|, slept - from.slept, elapsed - from.elapsed, took);
    }

    /** What `outs` has come to: every wait, call and charge request accounted for, and
        all but `open` bodies closed. */
    ghost predicate Account(w: World, from: Start, id: nat, req: Option<Request>, outs: seq<HttpOutcome>, open: nat)
      reads w
    {
      && w.Valid() && w.Later(from.trace)
      && Booked(from, req, outs, w.log, w.weather, w.slept, w.elapsed)
      && w.open == from.open + open
      && Stands(from.st, w.st, id, req, |outs|)
    }

    /** The backoff before attempt n. */
    method Wait(w: World, id: nat, n: nat)
      requires w.Valid()
      modifies w`st, w`trace, w`schedule, w`slept
      ensures w.Valid() && w.Later(old(w.trace)) && SamePlace(old(w.st), w.st, CallOf(id))
      ensures w.slept == old(w.slept) + if n == 0 then 0 else Backoff(retryBackoff, n)
    {
      if n > 0 {
        w.slept := w.slept + Backoff(retryBackoff, n);
        w.Interfere(CallOf(id));
      }
    }

    /** One turn of the loop once the context allows it: wait, send, classify what
        came back. `from` is from before the first turn. */
    method Attempt(w: World, id: nat, req: Request, n: nat, ghost from: Start, ghost outs: seq<HttpOutcome>)
        returns (o: HttpOutcome, lastErr: Option<ClientError>)
      requires |outs| == n <= retryAttempts && Account(w, from, id, Some(req), outs, 0)
      requires MayPost(from.st, id, Some(req), retryAttempts, w.retries)
      modifies w
      ensures Account(w, from, id, Some(req), outs + [o], if TriesAgain(o) then 0 else 1)
      ensures w.log == old(w.log) + [Exchange(req, o)]
      ensures lastErr ==
                if o.NetworkError? then Some(if o.timeout then DownstreamTimeout else DownstreamUnavailable)
                else if o.status in {502, 503, 504} then Some(DownstreamUnavailable)
                else None
      ensures Plausible(w.st, req, o)
    {
      Wait(w, id, n);
      w.RetriesAreConfigured();
      o := w.RoundTrip(id, req, timeout);
      BookedOneMore(from, req, outs, old(w.log), old(w.weather), old(w.slept), old(w.elapsed), o,
                    w.elapsed - old(w.elapsed));
      if o.NetworkError? {
        lastErr := Some(Classify(o));
      } else if o.status == 502 || o.status == 503 || o.status == 504 {
        w.CloseBody();
        lastErr := Some(DownstreamUnavailable);
      } else {
        lastErr := None;
      }
    }

    /** The body of the loop: give up in a cancelled wait, or without a request, or make
        an attempt. It ends the loop, or goes on with one more failure seen. */
    method Turn(w: World, id: nat, req: Option<Request>, attempt: nat, lastErr: Option<ClientError>,
        ghost from: Start, ghost seen: seq<HttpOutcome>)
        returns (ended: bool, resp: Option<HttpOutcome>, err: Option<ClientError>, ghost outs: seq<HttpOutcome>)
      requires attempt <= retryAttempts && (attempt > 0 ==> req.Some?)
      requires Account(w, from, id, req, seen, 0) && Undecided(seen, attempt, from.weather, lastErr)
      requires MayPost(from.st, id, req, retryAttempts, w.retries)
      modifies w
      ensures ended ==>
                && Account(w, from, id, req, outs, if resp.Some? then 1 else 0)
                && Verdict(outs, retryAttempts, req.Some?, from.weather, resp, err)
                && (resp.Some? ==> resp.value.Response? && req.Some? && Plausible(w.st, req.value, resp.value))
      ensures !ended ==>
                && req.Some? && Account(w, from, id, req, outs, 0)
                && Undecided(outs, attempt + 1, from.weather, err) && IsRetryable(err.value)
    {
      ended, resp, err, outs := true, None, None, seen;
      if attempt > 0 && w.weather != [] && w.weather[0].cancelled {
        GivenUp(outs, attempt, from.weather, lastErr, retryAttempts);
        err := Some(ContextDone);
      } else if req.None? {
        NothingBuilt(retryAttempts, from.weather);
        err := Some(NotBuilt);
      } else {
        var o, failure := Attempt(w, id, req.value, attempt, from, seen);
        outs := seen + [o];
        if failure.None? {
          Conclusive(seen, attempt, from.weather, lastErr, o, retryAttempts);
          resp := Some(o);
        } else {
          ended, err := false, failure;
        }
      }
    }

    /** Do, for the CreateOrder call `id`. `req` is what reqFn builds, afresh but
        alike on every attempt, or None if it fails; `outs` are the outcomes. Every
        discarded body is closed, and each attempt of a charge put the one request of
        the order on the wire. */
    method Do(w: World, id: nat, req: Option<Request>)
        returns (resp: Option<HttpOutcome>, err: Option<ClientError>, ghost outs: seq<HttpOutcome>)
      requires w.Valid() && MayPost(w.st, id, req, retryAttempts, w.retries)
      modifies w
      ensures var from :=
          Start(old(w.trace), old(w.st), old(w.log), old(w.weather), old(w.open), old(w.slept), old(w.elapsed));
        Account(w, from, id, req, outs, if resp.Some? then 1 else 0)
      ensures Verdict(outs, retryAttempts, req.Some?, old(w.weather), resp, err)
      ensures req.Some? && retryAttempts >= 0 && NeverCancelled(old(w.weather), retryAttempts) ==>
                StopsRight(outs, retryAttempts + 1, TriesAgain)
      ensures resp.Some? ==> resp.value.Response? && req.Some? && Plausible(w.st, req.value, resp.value)
    {
      ghost var from := Start(w.trace, w.st, w.log, w.weather, w.open, w.slept, w.elapsed);
      resp, err, outs := None, None, [];
      var lastErr: Option<ClientError> := None;
      var attempt := 0;
      while attempt <= retryAttempts
        invariant attempt > 0 ==> attempt <= retryAttempts + 1 && req.Some?
        invariant Account(w, from, id, req, outs, 0) && Undecided(outs, attempt, from.weather, lastErr)
        decreases retryAttempts - attempt
      {
        var ended;
        ended, resp, err, outs := Turn(w, id, req, attempt, lastErr, from, outs);
        if ended {
          RightUnlessCancelled(outs, retryAttempts, req.Some?, from.weather, resp, err);
          return;
        }
        lastErr := err;
        if !IsRetryable(lastErr.value) {
          break;
        }
        attempt := attempt + 1;
      }
      UsedUp(outs, attempt, from.weather, lastErr, retryAttempts, req.Some?);
      resp, err := None, lastErr;
      RightUnlessCancelled(outs, retryAttempts, req.Some?, from.weather, resp, err);
    }
  }
}
