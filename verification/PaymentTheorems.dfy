/**
  What payment-service promises, for every run: whatever the interleaving of
  handlers, the duplicated or delayed deliveries, the failed or unacknowledged
  commits, the cancellations and the crashes.
 */
module PaymentTheorems {
  import opened Payments
  import opened PaymentProtocol
  import opened PaymentInvariant
  import opened Sums

  lemma {:induction false} RunInv(polly: nat, acts: seq<Action>)
    requires Legal(polly, acts)
    ensures Inv(Run(polly, acts)) && Run(polly, acts).polly == polly
    decreases |acts|
  {
    if acts == [] {
      InitInv(polly);
    } else {
      var before := acts[..|acts| - 1];
      RunInv(polly, before);
      StepInv(Run(polly, before), acts[|acts| - 1]);
      StepKeeps(Run(polly, before), acts[|acts| - 1]);
    }
  }

  lemma {:induction false} RunPrefixLegal(polly: nat, acts: seq<Action>, n: nat)
    requires Legal(polly, acts) && n <= |acts|
    ensures Legal(polly, acts[..n])
    decreases |acts|
  {
    if n == |acts| {
      assert acts[..n] == acts;
    } else {
      var before := acts[..|acts| - 1];
      RunPrefixLegal(polly, before, n);
      assert before[..n] == acts[..n];
    }
  }

  /** In every run, the gateway client is called at most once per idempotency
      key, with the amount of the one row of that key, and makes at most one POST
      more than the configured retries. */
  lemma AtMostOneGatewayCallPerKey(polly: nat, acts: seq<Action>, i: nat, j: nat)
    requires Legal(polly, acts)
    requires i < |Run(polly, acts).ledger| && j < |Run(polly, acts).ledger|
    requires Run(polly, acts).ledger[i].key == Run(polly, acts).ledger[j].key
    ensures i == j
    ensures Run(polly, acts).ledger[i].posts <= polly + 1
  {
    RunInv(polly, acts);
    var s := Run(polly, acts);
    assert s.ledger[i].pid == s.ledger[j].pid;
  }

  /** What was true of the tables, the ledger and the results after n actions is
      true for ever: terminal rows never change, results are never taken back. */
  lemma {:induction false} HistoryIsKept(polly: nat, acts: seq<Action>, n: nat)
    requires Legal(polly, acts) && n <= |acts|
    ensures Legal(polly, acts[..n]) && Keeps(Run(polly, acts[..n]), Run(polly, acts))
    decreases |acts|
  {
    RunPrefixLegal(polly, acts, n);
    RunInv(polly, acts);
    if n == |acts| {
      assert acts[..n] == acts;
      GrowsOnlyKeeps(Run(polly, acts), Run(polly, acts));
    } else {
      var before := acts[..|acts| - 1];
      assert before[..n] == acts[..n];
      HistoryIsKept(polly, before, n);
      RunInv(polly, before);
      StepKeeps(Run(polly, before), acts[|acts| - 1]);
      KeepsTransitive(Run(polly, acts[..n]), Run(polly, before), Run(polly, acts));
    }
  }

  /** The results that ChargeAsync returns for one key, in the order of the read
      or save they stem from: Pending any number of times, then always the same
      terminal payment, with the same HTTP status. */
  lemma ReplayStability(polly: nat, acts: seq<Action>, i: nat, j: nat)
    requires Legal(polly, acts)
    requires i < j < |Run(polly, acts).results|
    requires Run(polly, acts).results[i].key == Run(polly, acts).results[j].key
    ensures var first, later := Run(polly, acts).results[i], Run(polly, acts).results[j];
      && first.id == later.id && first.amountCents == later.amountCents
      && (later.status.Pending? ==> first.status.Pending?)
      && (!first.status.Pending? ==> later == first && HttpStatus(later.status) == HttpStatus(first.status))
  {
    RunInv(polly, acts);
    assert SameCharge(Run(polly, acts).results[i], Run(polly, acts).results[j]);
  }

  // ---------------------------------------------------------------------------
  // What rows, calls and replies say

  /** The one call behind a settled row. */
  lemma SettlingCall(s: State, p: nat) returns (i: nat)
    requires SettledRowsJustified(s) && RowsHaveOrigin(s) && p in s.payments && !s.payments[p].status.Pending?
    ensures i < |s.ledger| && s.ledger[i].pid == p && s.ledger[i].outcome.Finished?
    ensures s.payments[p] == Settle(Unsettled(s.payments[p]), s.ledger[i].outcome.outcome)
  {
    var row := s.payments[p];
    assert Justified(s, row);
    i :| 0 <= i < |s.ledger| && s.ledger[i].pid == row.id && s.ledger[i].outcome.Finished?
      && row == Settle(Unsettled(row), s.ledger[i].outcome.outcome);
  }

  lemma SettledReports(row: Payment, o: GatewayOutcome)
    requires row == Settle(Unsettled(row), o)
    ensures ReportsOutcome(row, o)
  {
    assert row.status == Settle(Unsettled(row), o).status;
  }

  /** In every run a settled row tells what its one gateway call returned: Succeeded and
      Declined rows have the transaction id and the reason of the answer, Failed rows
      have no transaction and the reason gateway_unavailable. */
  lemma SettledRowTells(polly: nat, acts: seq<Action>, p: nat) returns (i: nat)
    requires Legal(polly, acts) && p in Run(polly, acts).payments && !Run(polly, acts).payments[p].status.Pending?
    ensures var s := Run(polly, acts);
      && i < |s.ledger| && s.ledger[i].pid == p && s.ledger[i].outcome.Finished?
      && ReportsOutcome(s.payments[p], s.ledger[i].outcome.outcome)
  {
    RunInv(polly, acts);
    i := SettlingCall(Run(polly, acts), p);
    SettledReports(Run(polly, acts).payments[p], Run(polly, acts).ledger[i].outcome.outcome);
  }

  /** A row that has not been settled has neither. */
  lemma PendingRowTellsNothing(polly: nat, acts: seq<Action>, p: nat)
    requires Legal(polly, acts) && p in Run(polly, acts).payments && Run(polly, acts).payments[p].status.Pending?
    ensures var row := Run(polly, acts).payments[p]; row.transactionId.None? && row.failureReason.None?
  {
    RunInv(polly, acts);
  }

  /** In every run a row is the charge that some sent request asks for, with an amount
      that its column and the model allow, and the gateway was asked for exactly what
      the row says. */
  lemma RowsFollowRequests(polly: nat, acts: seq<Action>, p: nat) returns (e: Envelope)
    requires Legal(polly, acts) && p in Run(polly, acts).payments
    ensures var s := Run(polly, acts);
      && e in s.requests && IsChargeOf(s.payments[p], e)
      && 1 <= s.payments[p].amountCents <= 2147483647 && |s.payments[p].currency| == 3
      && forall i :: 0 <= i < |s.ledger| && s.ledger[i].pid == p ==>
           && s.ledger[i].key == s.payments[p].key
           && s.ledger[i].request.orderId == s.payments[p].orderId
           && s.ledger[i].request.amountCents == s.payments[p].amountCents
           && s.ledger[i].request.currency == s.payments[p].currency
  {
    RunInv(polly, acts);
    var s := Run(polly, acts);
    assert HasOrigin(s, s.payments[p]);
    e :| e in s.requests && MadeFor(s.payments[p], e);
  }

  /** In every run a reply is 200 exactly for a Succeeded payment, 402 exactly for a
      Declined one, and 502 exactly for one that is Pending or Failed. */
  lemma RepliesTellStatus(polly: nat, acts: seq<Action>, r: Reply)
    requires Legal(polly, acts) && r in Run(polly, acts).replies
    ensures r.status == 200 <==> r.payment.status.Succeeded?
    ensures r.status == 402 <==> r.payment.status.Declined?
    ensures r.status == 502 <==> r.payment.status.Pending? || r.payment.status.Failed?
    ensures r.key == r.payment.key
  {
    RunInv(polly, acts);
  }

  // ---------------------------------------------------------------------------
  // Money

  predicate Approved(c: Call) {
    c.outcome.Finished? && c.outcome.outcome.Returned? && c.outcome.outcome.result.approved
  }

  /** The sum of all approvals that the gateway client has returned. */
  function ApprovedTotal(ledger: seq<Call>): int {
    if ledger == [] then 0
    else
      var last := ledger[|ledger| - 1];
      ApprovedTotal(ledger[..|ledger| - 1]) + if Approved(last) then last.request.amountCents else 0
  }

  function ApprovedRows(ledger: seq<Call>): set<nat> {
    set i | 0 <= i < |ledger| && Approved(ledger[i]) :: ledger[i].pid
  }

  function RowsWith(s: State, status: PaymentStatus): set<nat> {
    set p | p in s.payments && s.payments[p].status == status
  }

  /** Pending rows whose approval was returned but never saved. */
  function UnsavedApprovals(s: State): set<nat> {
    set p | p in RowsWith(s, Pending) && p in ApprovedRows(s.ledger)
  }

  function Amounts(s: State): map<nat, int> {
    map p | p in s.payments :: s.payments[p].amountCents
  }

  /** What the rows with this status are worth. */
  ghost function RowSum(s: State, status: PaymentStatus): int {
    SetSum(RowsWith(s, status), Amounts(s))
  }

  lemma {:induction false} ApprovedTotalIsRowSum(ledger: seq<Call>, amounts: map<nat, int>)
    requires forall i :: 0 <= i < |ledger| ==>
               ledger[i].pid in amounts && ledger[i].request.amountCents == amounts[ledger[i].pid]
    requires forall i, j :: 0 <= i < j < |ledger| ==> ledger[i].pid != ledger[j].pid
    ensures ApprovedRows(ledger) <= amounts.Keys
    ensures ApprovedTotal(ledger) == SetSum(ApprovedRows(ledger), amounts)
    decreases |ledger|
  {
    if ledger != [] {
      var before, last := ledger[..|ledger| - 1], ledger[|ledger| - 1];
      ApprovedTotalIsRowSum(before, amounts);
      assert ledger == before + [last];
      if Approved(last) {
        assert ApprovedRows(ledger) == ApprovedRows(before) + {last.pid};
        assert last.pid !in ApprovedRows(before);
        SetSumSplit(ApprovedRows(ledger), amounts, last.pid);
        assert ApprovedRows(ledger) - {last.pid} == ApprovedRows(before);
      } else {
        assert ApprovedRows(ledger) == ApprovedRows(before);
      }
    }
  }

  /** A row is Succeeded or still unsaved exactly when the gateway approved it. */
  lemma ApprovedRowsSplit(s: State)
    requires Inv(s)
    ensures ApprovedRows(s.ledger) == RowsWith(s, Succeeded) + UnsavedApprovals(s)
  {
    forall p | p in RowsWith(s, Succeeded) ensures p in ApprovedRows(s.ledger) {
      assert Justified(s, s.payments[p]);
    }
    forall p | p in ApprovedRows(s.ledger) ensures p in RowsWith(s, Succeeded) + UnsavedApprovals(s) {
      var i :| 0 <= i < |s.ledger| && Approved(s.ledger[i]) && s.ledger[i].pid == p;
      if !s.payments[p].status.Pending? {
        var j :| 0 <= j < |s.ledger| && s.ledger[j].pid == p && s.ledger[j].outcome.Finished?
          && s.payments[p] == Settle(Unsettled(s.payments[p]), s.ledger[j].outcome.outcome);
        assert i == j;
      }
    }
  }

  /** Money conservation: in every run, what the gateway approved is what the
      Succeeded rows hold plus what the approved but unsaved Pending rows hold. */
  lemma MoneyConservation(polly: nat, acts: seq<Action>)
    requires Legal(polly, acts)
    ensures var s := Run(polly, acts);
      && ApprovedTotal(s.ledger) == RowSum(s, Succeeded) + SetSum(UnsavedApprovals(s), Amounts(s))
      && RowSum(s, Succeeded) <= ApprovedTotal(s.ledger)
      && ApprovedTotal(s.ledger) <= RowSum(s, Succeeded) + RowSum(s, Pending)
  {
    RunInv(polly, acts);
    Conservation(Run(polly, acts));
  }

  lemma Conservation(s: State)
    requires Inv(s)
    ensures ApprovedTotal(s.ledger) == RowSum(s, Succeeded) + SetSum(UnsavedApprovals(s), Amounts(s))
    ensures RowSum(s, Succeeded) <= ApprovedTotal(s.ledger)
    ensures ApprovedTotal(s.ledger) <= RowSum(s, Succeeded) + RowSum(s, Pending)
  {
    var amounts := Amounts(s);
    assert forall p :: p in s.payments ==> HasOrigin(s, s.payments[p]) && amounts[p] > 0;
    ApprovedTotalIsRowSum(s.ledger, amounts);
    ApprovedRowsSplit(s);
    SetSumUnion(RowsWith(s, Succeeded), UnsavedApprovals(s), amounts);
    SetSumNonNegative(UnsavedApprovals(s), amounts);
    SetSumSubset(UnsavedApprovals(s), RowsWith(s, Pending), amounts);
  }
}
