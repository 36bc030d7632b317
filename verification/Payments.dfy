/**
  payment-service: the charge request, the payment row, and the pure rules of
  the controller and of ChargeAsync. Nothing here has state; PaymentProtocol
  says how these pieces are used by concurrent handlers.
 */
module Payments {
  import opened Wrappers

  /** Text where a GUID is expected. Canonical(n) is the spelling that Go's
      UUID.String() writes; any other text may or may not parse. */
  datatype IdText = Canonical(id: nat) | Other(text: string, parsed: Option<nat>)

  /** Guid.TryParse */
  function ParseId(t: IdText): Option<nat> {
    match t
    case Canonical(id) => Some(id)
    case Other(_, parsed) => parsed
  }

  datatype ChargeRequest = ChargeRequest(orderId: IdText, userId: IdText, amountCents: int, currency: string)

  /** One HTTP request to POST /api/v1/payments. */
  datatype Envelope = Envelope(header: Option<IdText>, body: ChargeRequest)

  const INT32_MAX: int := 0x7fff_ffff

  /** char.IsWhiteSpace */
  predicate IsSpace(c: char) {
    || '\t' <= c <= '\r' || c == ' ' || c == '\U{85}' || c == '\U{A0}' || c == '\U{1680}'
    || '\U{2000}' <= c <= '\U{200A}' || c == '\U{2028}' || c == '\U{2029}'
    || c == '\U{202F}' || c == '\U{205F}' || c == '\U{3000}'
  }

  /** string.IsNullOrWhiteSpace */
  predicate IsWhiteSpace(s: string) {
    forall i :: 0 <= i < |s| ==> IsSpace(s[i])
  }

  predicate IsBlank(t: IdText) {
    t.Other? && IsWhiteSpace(t.text)
  }

  /** ModelState.IsValid; an amount outside int32 already fails to bind, and
      Required refuses white space. */
  predicate ModelIsValid(r: ChargeRequest) {
    && !IsBlank(r.orderId)
    && !IsBlank(r.userId)
    && 1 <= r.amountCents <= INT32_MAX
    && |r.currency| == 3 && !IsWhiteSpace(r.currency)
  }

  /** The idempotency key, with its fallback to the order id. Callers that send the
      order id as header and callers that send no usable header share one key. */
  function KeyOf(e: Envelope): (key: IdText)
    ensures key == e.body.orderId <==>
              e.header.None? || IsBlank(e.header.value) || e.header.value == e.body.orderId
  {
    if e.header.None? || IsBlank(e.header.value) then e.body.orderId else e.header.value
  }

  predicate GuidsParse(e: Envelope) {
    ParseId(e.body.orderId).Some? && ParseId(e.body.userId).Some?
  }

  datatype PaymentStatus = Pending | Succeeded | Failed | Declined

  datatype Payment = Payment(
    id: nat,
    orderId: nat,
    userId: nat,
    amountCents: int,
    currency: string,
    status: PaymentStatus,
    transactionId: Option<string>,
    failureReason: Option<string>,
    key: IdText)

  function UpperChar(c: char): char {
    if 'a' <= c <= 'z' then c - 'a' + 'A' else c
  }

  function ToUpper(s: string): (r: string)
    ensures |r| == |s|
    ensures forall i :: 0 <= i < |s| ==>
              if 'a' <= s[i] <= 'z' then r[i] as int == s[i] as int - 32 else r[i] == s[i]
  {
    seq(|s|, i requires 0 <= i < |s| => UpperChar(s[i]))
  }

  /** Text without small letters stays as it is. */
  lemma UpperStays(s: string)
    requires forall i :: 0 <= i < |s| ==> !('a' <= s[i] <= 'z')
    ensures ToUpper(s) == s
  {
  }

  /** The row that ChargeAsync adds before it calls the gateway. */
  function NewPayment(e: Envelope, pid: nat): Payment
    requires GuidsParse(e)
  {
    Payment(pid, ParseId(e.body.orderId).value, ParseId(e.body.userId).value,
            e.body.amountCents, ToUpper(e.body.currency), Pending, None, None, KeyOf(e))
  }

  datatype GatewayResult = GatewayResult(approved: bool, transactionId: Option<string>, declineReason: Option<string>)

  /** What a call of IPaymentGatewayClient.ChargeAsync hands back to the service:
      a result, or PaymentGatewayUnavailableException. Any other exception
      escapes ChargeAsync and is an Abort of the handler. */
  datatype GatewayOutcome = Returned(result: GatewayResult) | Unavailable

  /** The assignments between the two saves. */
  function Settle(p: Payment, o: GatewayOutcome): Payment {
    match o
    case Returned(r) =>
      p.(status := if r.approved then Succeeded else Declined,
         transactionId := r.transactionId,
         failureReason := r.declineReason)
    case Unavailable =>
      p.(status := Failed, failureReason := Some("gateway_unavailable"))
  }

  /** The row says what the gateway returned: its verdict, its transaction and its
      reason, or that it was unavailable. */
  predicate ReportsOutcome(p: Payment, o: GatewayOutcome) {
    match o
    case Returned(r) =>
      && (p.status.Succeeded? <==> r.approved) && (p.status.Declined? <==> !r.approved)
      && p.transactionId == r.transactionId && p.failureReason == r.declineReason
    case Unavailable =>
      p.status.Failed? && p.transactionId.None? && p.failureReason == Some("gateway_unavailable")
  }

  /** The row is the charge that the request asks for. */
  predicate IsChargeOf(p: Payment, e: Envelope) {
    && ParseId(e.body.orderId) == Some(p.orderId) && ParseId(e.body.userId) == Some(p.userId)
    && p.amountCents == e.body.amountCents && p.currency == ToUpper(e.body.currency)
    && p.key == if e.header.None? || IsBlank(e.header.value) then e.body.orderId else e.header.value
  }

  /** The controller's switch from payment status to HTTP status. */
  function HttpStatus(s: PaymentStatus): int {
    match s
    case Succeeded => 200
    case Declined => 402
    case _ => 502
  }

  function TextLength(t: IdText): nat {
    if t.Canonical? then 36 else |t.text|
  }

  predicate FitsIn(t: Option<string>, width: nat) {
    t.Some? ==> |t.value| <= width
  }

  /** The widths of the VARCHAR columns. */
  predicate RowFits(p: Payment) {
    && |p.currency| <= 3 && TextLength(p.key) <= 100
    && FitsIn(p.transactionId, 100) && FitsIn(p.failureReason, 255)
  }

  /** The part of a row that no save ever changes. */
  predicate SameCharge(p: Payment, q: Payment) {
    p.id == q.id && p.orderId == q.orderId && p.userId == q.userId
    && p.amountCents == q.amountCents && p.currency == q.currency && p.key == q.key
  }

  /** The row was made for this request. */
  predicate MadeFor(p: Payment, e: Envelope) {
    GuidsParse(e) && ModelIsValid(e.body) && SameCharge(p, NewPayment(e, p.id))
  }

  lemma MadeForMeans(p: Payment, e: Envelope)
    requires MadeFor(p, e)
    ensures IsChargeOf(p, e) && p.amountCents >= 1
  {
  }

  lemma NewPaymentFits(e: Envelope, pid: nat)
    requires GuidsParse(e)
    ensures RowFits(NewPayment(e, pid)) <==> TextLength(KeyOf(e)) <= 100 && |e.body.currency| <= 3
  {
  }

  lemma SettledFits(p: Payment, o: GatewayOutcome)
    requires RowFits(p)
    ensures RowFits(Settle(p, o)) <==>
              (o.Returned? ==> FitsIn(o.result.transactionId, 100) && FitsIn(o.result.declineReason, 255))
  {
  }
}
