/** notification-service: the email provider's retry loop and the send machine. */
module Notifications {
  import opened Wrappers
  import opened Retry

  /** What response.json() yields. */
  datatype Json = Malformed | Null | Object(reason: Option<string>, messageId: Option<string>)

  /** One try of the provider: fetch threw (network error or abort), or answered. */
  datatype Try = Threw | Answered(status: int, json: Json)

  datatype Reason =
    | Text(text: string)
    | ProviderError(status: int)
    | ProviderUnavailable
    | RecipientBounced
    | SmsNotImplemented

  datatype SendResult = Delivered(providerMessageId: Option<string>) | NotDelivered(reason: Reason)

  predicate IsOk(status: int) { 200 <= status <= 299 }

  /** A try that ends in `continue` or in the catch block. A null body makes the
      property access throw, and so does a malformed body of a success. */
  predicate TriesAgain(t: Try) {
    t.Threw? || t.status >= 500 || t.json.Null? || (IsOk(t.status) && t.json.Malformed?)
  }

  /** What any other try returns; an empty reason counts as none. */
  function ResultOf(t: Try): SendResult
    requires !TriesAgain(t)
  {
    if IsOk(t.status) then Delivered(t.json.messageId)
    else NotDelivered(
      if t.json.Object? && t.json.reason.Some? && t.json.reason.value != "" then Text(t.json.reason.value)
      else ProviderError(t.status))
  }

  /** HttpEmailProvider.send. The fallback is reached exactly when every allowed try
      was a 5xx or threw. */
  method HttpSend(script: seq<Try>, retryAttempts: int) returns (r: SendResult, used: nat, waited: int)
    requires |script| > retryAttempts
    ensures retryAttempts < 0 ==> used == 0 && r == NotDelivered(ProviderUnavailable)
    ensures retryAttempts >= 0 ==>
              && 1 <= used <= retryAttempts + 1
              && StopsRight(script[..used], retryAttempts + 1, TriesAgain)
              && r == (if TriesAgain(script[used - 1]) then NotDelivered(ProviderUnavailable)
                       else ResultOf(script[used - 1]))
    ensures r == NotDelivered(ProviderUnavailable) <==> forall i :: 0 <= i <= retryAttempts ==> TriesAgain(script[i])
    ensures waited == 200 * (Pow2(if used == 0 then 0 else used - 1) - 1)
  {
    used, waited := 0, 0;
    var attempt := 0;
    while attempt <= retryAttempts
      invariant used == attempt && (attempt > 0 ==> attempt <= retryAttempts + 1)
      invariant forall i :: 0 <= i < attempt ==> TriesAgain(script[i])
      invariant waited == 200 * (Pow2(if attempt == 0 then 0 else attempt - 1) - 1)
      decreases retryAttempts - attempt
    {
      if attempt > 0 {
        waited := waited + 200 * Pow2(attempt - 1);
      }
      var t := script[attempt];
      used := used + 1;
      if t.Answered? && t.status < 500 {
        if !IsOk(t.status) {
          if !t.json.Null? {
            var reason := if t.json.Object? then t.json.reason else None;
            r := NotDelivered(if reason.Some? && reason.value != "" then Text(reason.value)
                              else ProviderError(t.status));
            return;
          }
        } else if t.json.Object? {
          r := Delivered(t.json.messageId);
          return;
        }
      }
      attempt := attempt + 1;
    }
    r := NotDelivered(ProviderUnavailable);
  }

  predicate OccursAt(s: string, part: string, i: nat) {
    i + |part| <= |s| && s[i..i + |part|] == part
  }

  predicate Contains(s: string, part: string) {
    exists i :: 0 <= i <= |s| && OccursAt(s, part, i)
  }

  /** SimulatedEmailProvider.send */
  function SimulatedSend(recipient: string, now: string): SendResult {
    if Contains(recipient, "+bounce") then NotDelivered(RecipientBounced) else Delivered(Some("sim_msg_" + now))
  }

  datatype Mode = Live(script: seq<Try>, retryAttempts: int) | Simulated(now: string)

  /** What the configured provider answers. */
  ghost predicate Answers(mode: Mode, recipient: string, r: SendResult) {
    match mode
    case Simulated(now) => r == SimulatedSend(recipient, now)
    case Live(script, retries) =>
      && |script| > retries
      && if forall i :: 0 <= i <= retries ==> TriesAgain(script[i]) then r == NotDelivered(ProviderUnavailable)
         else exists n ::
           0 <= n <= retries && !TriesAgain(script[n]) && (forall i :: 0 <= i < n ==> TriesAgain(script[i]))
                && r == ResultOf(script[n])
  }

  datatype Channel = Email | Sms

  datatype Status = PendingSend | Sent | FailedSend

  datatype Record = Record(
    status: Status,
    attempts: nat,
    failureReason: Option<Reason>,
    providerMessageId: Option<string>)

  /** One notification document: the object in memory, and every version saved. */
  class Notification {
    const recipient: string
    var record: Record
    var saved: seq<Record>

    constructor (recipient: string)
      ensures this.recipient == recipient && saved == []
      ensures record == Record(PendingSend, 0, None, None)
    {
      this.recipient := recipient;
      record := Record(PendingSend, 0, None, None);
      saved := [];
    }

    /** save(): stores the current version, or throws. */
    method Save(succeeds: bool) returns (ok: bool)
      modifies this`saved
      ensures ok == succeeds
      ensures saved == if ok then old(saved) + [record] else old(saved)
    {
      ok := succeeds;
      if ok {
        saved := saved + [record];
      }
    }
  }

  method Dispatch(mode: Mode, recipient: string) returns (r: SendResult)
    requires mode.Live? ==> |mode.script| > mode.retryAttempts
    ensures Answers(mode, recipient, r)
  {
    match mode {
      case Simulated(now) => r := SimulatedSend(recipient, now);
      case Live(script, retries) =>
        var used, waited;
        r, used, waited := HttpSend(script, retries);
        if r != NotDelivered(ProviderUnavailable) {
          var n := used - 1;
          assert !TriesAgain(script[n]);
          assert forall i :: 0 <= i < n ==> script[..used][i] == script[i];
        }
    }
  }

  /** The final version of a notification. */
  function FinalRecord(channel: Channel, r: SendResult): Record {
    if channel.Sms? then Record(FailedSend, 1, Some(SmsNotImplemented), None)
    else match r
      case Delivered(mid) => Record(Sent, 1, None, mid)
      case NotDelivered(reason) => Record(FailedSend, 1, Some(reason), None)
  }

  /** NotificationService.send. If both saves succeed, the store has seen exactly
      PENDING with 0 attempts and then SENT or FAILED with 1; if the second save
      fails it keeps PENDING with 0, whatever the provider did. */
  method Send(channel: Channel, recipient: string, mode: Mode, firstSave: bool, secondSave: bool)
      returns (n: Notification, ok: bool, ghost r: SendResult)
    requires mode.Live? ==> |mode.script| > mode.retryAttempts
    ensures fresh(n) && ok == (firstSave && secondSave)
    ensures firstSave && channel.Email? ==> Answers(mode, recipient, r)
    ensures firstSave ==> n.record == FinalRecord(channel, r)
    ensures n.saved ==
              (if firstSave then [Record(PendingSend, 0, None, None)] else [])
              + (if ok then [FinalRecord(channel, r)] else [])
    ensures ok ==> n.record.status in {Sent, FailedSend} && n.record.attempts == 1
    // an SMS always fails; an email is SENT exactly if the provider delivered it
    ensures firstSave && channel.Sms? ==> n.record == Record(FailedSend, 1, Some(SmsNotImplemented), None)
    ensures firstSave && channel.Email? ==>
              if r.Delivered? then n.record == Record(Sent, 1, None, r.providerMessageId)
              else n.record == Record(FailedSend, 1, Some(r.reason), None)
  {
    r := NotDelivered(SmsNotImplemented);
    n := new Notification(recipient);
    ok := n.Save(firstSave);
    if !ok {
      return;
    }
    if channel.Sms? {
      n.record := n.record.(status := FailedSend);
      n.record := n.record.(failureReason := Some(SmsNotImplemented));
      n.record := n.record.(attempts := 1);
      ok := n.Save(secondSave);
      return;
    }
    n.record := n.record.(attempts := n.record.attempts + 1);
    var result := Dispatch(mode, n.recipient);
    r := result;
    if result.Delivered? {
      n.record := n.record.(status := Sent, providerMessageId := result.providerMessageId);
    } else {
      n.record := n.record.(status := FailedSend, failureReason := Some(result.reason));
    }
    ok := n.Save(secondSave);
  }

  /** The try threw, was answered with a 5xx, or could not be read. */
  predicate HadNoOutcome(t: Try) {
    || t.Threw? || t.status >= 500 || t.json.Null?
    || (200 <= t.status <= 299 && t.json.Malformed?)
  }

  /** The tries before n had no outcome, and try n had one. */
  ghost predicate FirstOther(script: seq<Try>, retries: int, n: nat) {
    n <= retries < |script| && !HadNoOutcome(script[n]) && forall i :: 0 <= i < n ==> HadNoOutcome(script[i])
  }

  /** The record has the message id of a success; the reason of a refusal if it gives
      one, else its status. */
  predicate RecordFollows(rec: Record, t: Try)
    requires t.Answered?
  {
    if 200 <= t.status <= 299 then
      t.json.Object? && rec == Record(Sent, 1, None, t.json.messageId)
    else
      var given := t.json.Object? && t.json.reason.Some? && t.json.reason.value != "";
      rec == Record(FailedSend, 1, Some(if given then Text(t.json.reason.value) else ProviderError(t.status)), None)
  }

  /** With the live provider an email is SENT exactly when the first try that had an
      outcome, neither a 5xx nor a throw, was a success, and the fallback reason stands
      exactly when there was no such try. */
  lemma LiveOutcome(script: seq<Try>, retries: nat, recipient: string, r: SendResult)
    requires Answers(Live(script, retries), recipient, r)
    ensures FinalRecord(Email, r).status.Sent? <==>
              exists n: nat :: FirstOther(script, retries, n) && 200 <= script[n].status <= 299
    ensures FinalRecord(Email, r).status.Sent? || FinalRecord(Email, r).status.FailedSend?
    ensures FinalRecord(Email, r).failureReason == Some(ProviderUnavailable) <==>
              !exists n: nat :: FirstOther(script, retries, n)
    ensures forall n: nat :: FirstOther(script, retries, n) ==> RecordFollows(FinalRecord(Email, r), script[n])
  {
    if !(forall i :: 0 <= i <= retries ==> TriesAgain(script[i])) {
      var m :| 0 <= m <= retries && !TriesAgain(script[m])
        && (forall i :: 0 <= i < m ==> TriesAgain(script[i])) && r == ResultOf(script[m]);
      assert FirstOther(script, retries, m);
      assert forall n: nat :: FirstOther(script, retries, n) ==> n == m;
    }
  }

  /** With the simulated provider an email is SENT, with a message id made of the time,
      exactly when "+bounce" does not occur in the recipient, and else FAILED as bounced. */
  lemma SimulatedOutcome(recipient: string, now: string, r: SendResult)
    requires Answers(Simulated(now), recipient, r)
    ensures var bounces := exists before: string, after: string :: recipient == before + "+bounce" + after;
      FinalRecord(Email, r) == if bounces then Record(FailedSend, 1, Some(RecipientBounced), None)
                               else Record(Sent, 1, None, Some("sim_msg_" + now))
  {
    if before: string, after: string :| recipient == before + "+bounce" + after {
      assert OccursAt(recipient, "+bounce", |before|);
    }
    if i :| 0 <= i <= |recipient| && OccursAt(recipient, "+bounce", i) {
      assert recipient == recipient[..i] + "+bounce" + recipient[i + 7..];
    }
  }
}
