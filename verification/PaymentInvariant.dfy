/**
  What every action of the payment protocol keeps. The clauses are separate
  predicates so that each is kept by a short argument of its own.
 */
module PaymentInvariant {
  import opened Wrappers
  import opened Payments
  import opened PaymentProtocol

  /** The row a handler is working on, between its insert and its last save. */
  predicate Owns(pc: Pc) { pc.Inserted? || pc.Calling? || pc.Called? }

  /** Handlers work for requests that were sent. */
  predicate HandlersServeRequests(s: State) {
    forall h :: h in s.handlers ==> s.handlers[h].env in s.requests
  }

  /** Every handler past the model check has a valid request. */
  predicate HandlersChecked(s: State) {
    forall h :: h in s.handlers && !s.handlers[h].pc.BadRequest? && !s.handlers[h].pc.Aborted?
      ==> ModelIsValid(s.handlers[h].env.body)
  }

  /** ux_payments_idempotency_key */
  predicate UniqueKeys(s: State) {
    forall p, q :: p in s.payments && q in s.payments && s.payments[p].key == s.payments[q].key ==> p == q
  }

  ghost predicate HasOrigin(s: State, row: Payment) {
    exists env :: env in s.requests && MadeFor(row, env)
  }

  ghost predicate RowsHaveOrigin(s: State) {
    forall p :: p in s.payments ==> s.payments[p].id == p && HasOrigin(s, s.payments[p])
  }

  /** A row in the hands of a handler is still the Pending row it inserted. */
  predicate OwnedRowsPending(s: State) {
    forall h :: h in s.handlers && Owns(s.handlers[h].pc) ==>
      var p := s.handlers[h].pc.payment;
      p.id in s.payments && s.payments[p.id] == p && Fresh(p) && MadeFor(p, s.handlers[h].env)
  }

  predicate OwnersDistinct(s: State) {
    forall g, h | g in s.handlers && h in s.handlers && Owns(s.handlers[g].pc) && Owns(s.handlers[h].pc) ::
      s.handlers[g].pc.payment.id == s.handlers[h].pc.payment.id ==> g == h
  }

  /** The gateway was asked for exactly what the row says. */
  predicate CallsMatchRows(s: State) {
    forall i :: 0 <= i < |s.ledger| ==>
      var c := s.ledger[i];
      && c.pid in s.payments
      && c.key == s.payments[c.pid].key
      && c.request.orderId == s.payments[c.pid].orderId
      && c.request.amountCents == s.payments[c.pid].amountCents
      && c.request.currency == s.payments[c.pid].currency
      && c.posts <= s.polly + 1
  }

  predicate OneCallPerRow(s: State) {
    forall i, j :: 0 <= i < j < |s.ledger| ==> s.ledger[i].pid != s.ledger[j].pid
  }

  predicate NoCallFor(s: State, pid: nat) {
    forall i :: 0 <= i < |s.ledger| ==> s.ledger[i].pid != pid
  }

  /** A handler's program counter and the ledger agree. */
  predicate PcMatchesLedger(s: State) {
    forall h :: h in s.handlers ==>
      match s.handlers[h].pc
      case Inserted(p) => NoCallFor(s, p.id)
      case Calling(p, i) => i < |s.ledger| && s.ledger[i].pid == p.id && s.ledger[i].outcome.InFlight?
      case Called(p, i, o) => i < |s.ledger| && s.ledger[i].pid == p.id && s.ledger[i].outcome == Finished(o)
      case _ => true
  }

  function Unsettled(row: Payment): Payment {
    row.(status := Pending, transactionId := None, failureReason := None)
  }

  /** A row that has left Pending holds what its one gateway call returned. */
  ghost predicate Justified(s: State, row: Payment) {
    exists i :: 0 <= i < |s.ledger| && s.ledger[i].pid == row.id && s.ledger[i].outcome.Finished?
      && row == Settle(Unsettled(row), s.ledger[i].outcome.outcome)
  }

  predicate Fresh(row: Payment) {
    row.status.Pending? && row.transactionId.None? && row.failureReason.None?
  }

  ghost predicate SettledRowsJustified(s: State) {
    forall p :: p in s.payments ==> Fresh(s.payments[p]) || Justified(s, s.payments[p])
  }

  /** `row` is what the table held at some earlier moment. */
  predicate WasStored(s: State, row: Payment) {
    && row.id in s.payments
    && SameCharge(row, s.payments[row.id])
    && (if row.status.Pending? then Fresh(row) else s.payments[row.id] == row)
  }

  predicate ResultsWereStored(s: State) {
    forall i :: 0 <= i < |s.results| ==> WasStored(s, s.results[i])
  }

  /** For one key: Pending, ..., Pending, then one terminal result for ever. */
  predicate ResultsStable(s: State) {
    forall i, j :: 0 <= i < j < |s.results| && s.results[i].key == s.results[j].key ==>
      SameCharge(s.results[i], s.results[j])
      && (!s.results[i].status.Pending? ==> s.results[j] == s.results[i])
  }

  predicate RepliesHonest(s: State) {
    forall r :: r in s.replies ==>
      r.payment in s.results && r.key == r.payment.key && r.status == HttpStatus(r.payment.status)
  }

  predicate HandlersOk(s: State) {
    HandlersServeRequests(s) && HandlersChecked(s) && OwnedRowsPending(s) && OwnersDistinct(s)
  }

  ghost predicate RowsOk(s: State) {
    UniqueKeys(s) && RowsHaveOrigin(s)
  }

  predicate LedgerOk(s: State) {
    CallsMatchRows(s) && OneCallPerRow(s) && PcMatchesLedger(s)
  }

  predicate ResultsOk(s: State) {
    ResultsWereStored(s) && ResultsStable(s) && RepliesHonest(s)
  }

  ghost predicate Inv(s: State) {
    HandlersOk(s) && RowsOk(s) && LedgerOk(s) && SettledRowsJustified(s) && ResultsOk(s)
  }

  /** What one step never undoes. */
  ghost predicate Keeps(s: State, t: State) {
    && s.polly == t.polly
    && s.requests <= t.requests
    && s.replies <= t.replies
    && (forall p | p in s.payments ::
          && p in t.payments && SameCharge(s.payments[p], t.payments[p])
          && (!s.payments[p].status.Pending? ==> t.payments[p] == s.payments[p]))
    && |s.ledger| <= |t.ledger|
    && (forall i :: 0 <= i < |s.ledger| ==> SameCall(s.ledger[i], t.ledger[i]))
    && s.results <= t.results
  }

  predicate SameCall(c: Call, d: Call) {
    c.request == d.request && c.pid == d.pid && c.key == d.key && c.posts <= d.posts
    && (c.outcome.Finished? ==> d.outcome == c.outcome)
  }

  lemma InitInv(polly: nat)
    ensures Inv(Init(polly))
  {}


  // ---------------------------------------------------------------------------
  // Each kind of change keeps the invariant

  /** Rows, verdicts and results do not depend on where the handlers stand. */
  lemma HandlerChangeKeepsRest(s: State, t: State)
    requires RowsOk(s) && SettledRowsJustified(s) && ResultsOk(s)
    requires s.requests <= t.requests && t == s.(requests := t.requests, handlers := t.handlers)
    ensures RowsOk(t) && SettledRowsJustified(t) && ResultsOk(t)
  {
    JustifiedFrame(s, t);
    forall p | p in t.payments ensures HasOrigin(t, t.payments[p]) {
      var env :| env in s.requests && MadeFor(s.payments[p], env);
      assert env in t.requests;
    }
  }

  lemma GotoHandlers(s: State, h: nat, pc: Pc)
    requires HandlersOk(s) && LedgerOk(s) && At(s, h)
    requires pc.BadRequest? || pc.Aborted? || (pc.Missed? && PcOf(s, h).Received?)
    ensures HandlersOk(Goto(s, h, pc)) && LedgerOk(Goto(s, h, pc))
  {
  }

  /** A handler gives up its row, if it has one, and nothing else changes. */
  lemma GotoInv(s: State, h: nat, pc: Pc)
    requires Inv(s) && At(s, h)
    requires pc.BadRequest? || pc.Aborted? || (pc.Missed? && PcOf(s, h).Received?)
    ensures Inv(Goto(s, h, pc))
  {
    GotoHandlers(s, h, pc);
    HandlerChangeKeepsRest(s, Goto(s, h, pc));
  }

  lemma SendInv(s: State, env: Envelope)
    requires Inv(s)
    ensures Inv(Apply(s, Send(env)))
  {
    HandlerChangeKeepsRest(s, Apply(s, Send(env)));
  }

  lemma DeliverHandlers(s: State, h: nat, env: Envelope)
    requires HandlersOk(s) && LedgerOk(s) && Enabled(s, Deliver(h, env))
    ensures HandlersOk(Apply(s, Deliver(h, env))) && LedgerOk(Apply(s, Deliver(h, env)))
  {
  }

  lemma DeliverInv(s: State, h: nat, env: Envelope)
    requires Inv(s) && Enabled(s, Deliver(h, env))
    ensures Inv(Apply(s, Deliver(h, env)))
  {
    DeliverHandlers(s, h, env);
    HandlerChangeKeepsRest(s, Apply(s, Deliver(h, env)));
  }

  /** A stored row is handed back. */
  lemma AnswerInv(s: State, h: nat, row: Payment)
    requires Inv(s) && At(s, h) && !Owns(PcOf(s, h)) && ModelIsValid(s.handlers[h].env.body)
    requires row.id in s.payments && s.payments[row.id] == row && row.key == KeyOf(s.handlers[h].env)
    ensures Inv(Answer(s, h, row))
  {
    AnswerHandlers(s, h, row);
    AnswerResults(s, h, row);
    HandlerChangeKeepsRest(s, Goto(s, h, Replied(row)));
    ResultChangeKeepsRows(Goto(s, h, Replied(row)), Answer(s, h, row));
  }

  lemma ResultChangeKeepsRows(s: State, t: State)
    requires RowsOk(s) && SettledRowsJustified(s)
    requires t == s.(results := t.results, replies := t.replies)
    ensures RowsOk(t) && SettledRowsJustified(t)
  {
    JustifiedFrame(s, t);
    assert forall row :: HasOrigin(s, row) ==> HasOrigin(t, row);
  }

  lemma AnswerHandlers(s: State, h: nat, row: Payment)
    requires HandlersOk(s) && LedgerOk(s) && At(s, h) && !Owns(PcOf(s, h)) && ModelIsValid(s.handlers[h].env.body)
    ensures HandlersOk(Answer(s, h, row)) && LedgerOk(Answer(s, h, row))
  {
  }

  lemma AnswerResults(s: State, h: nat, row: Payment)
    requires UniqueKeys(s) && SettledRowsJustified(s) && ResultsOk(s) && At(s, h)
    requires row.id in s.payments && s.payments[row.id] == row && row.key == KeyOf(s.handlers[h].env)
    ensures ResultsOk(Answer(s, h, row))
  {
    assert row.status.Pending? ==> Fresh(row);
  }

  // AddRow

  lemma AddRowHandlers(s: State, h: nat, row: Payment)
    requires HandlersOk(s) && At(s, h) && row.id !in s.payments
    requires Fresh(row) && MadeFor(row, s.handlers[h].env)
    ensures HandlersOk(AddRow(s, h, row))
  {
  }

  lemma AddRowRows(s: State, h: nat, row: Payment)
    requires RowsOk(s) && At(s, h) && row.id !in s.payments && NoRowFor(s, row.key)
    requires s.handlers[h].env in s.requests && MadeFor(row, s.handlers[h].env)
    ensures RowsOk(AddRow(s, h, row))
  {
    var t := AddRow(s, h, row);
    forall p | p in t.payments ensures t.payments[p].id == p && HasOrigin(t, t.payments[p]) {
      if p == row.id {
        assert MadeFor(row, s.handlers[h].env);
      } else {
        var env :| env in s.requests && MadeFor(s.payments[p], env);
        assert env in t.requests;
      }
    }
  }

  lemma AddRowLedger(s: State, h: nat, row: Payment)
    requires LedgerOk(s) && At(s, h) && row.id !in s.payments
    ensures LedgerOk(AddRow(s, h, row))
  {
  }

  lemma AddRowSettled(s: State, h: nat, row: Payment)
    requires SettledRowsJustified(s) && At(s, h) && Fresh(row)
    ensures SettledRowsJustified(AddRow(s, h, row))
  {
    JustifiedFrame(s, AddRow(s, h, row));
  }

  lemma AddRowResults(s: State, h: nat, row: Payment)
    requires ResultsOk(s) && At(s, h) && row.id !in s.payments
    ensures ResultsOk(AddRow(s, h, row))
  {
  }

  lemma AddRowInv(s: State, h: nat, pid: nat)
    requires Inv(s) && Enabled(s, Insert(h, pid, Committed))
    requires NoRowFor(s, KeyOf(s.handlers[h].env))
    ensures Inv(AddRow(s, h, NewPayment(s.handlers[h].env, pid)))
  {
    var row := NewPayment(s.handlers[h].env, pid);
    AddRowHandlers(s, h, row);
    AddRowRows(s, h, row);
    AddRowLedger(s, h, row);
    AddRowSettled(s, h, row);
    AddRowResults(s, h, row);
  }

  /** Justified only looks at the ledger, and finished calls stay as they are. */
  lemma JustifiedFrame(s: State, t: State)
    requires |s.ledger| <= |t.ledger|
    requires forall i :: 0 <= i < |s.ledger| ==> SameCall(s.ledger[i], t.ledger[i])
    ensures forall row :: Justified(s, row) ==> Justified(t, row)
  {
    forall row | Justified(s, row) ensures Justified(t, row) {
      var i :| 0 <= i < |s.ledger| && s.ledger[i].pid == row.id && s.ledger[i].outcome.Finished?
        && row == Settle(Unsettled(row), s.ledger[i].outcome.outcome);
      assert SameCall(s.ledger[i], t.ledger[i]);
    }
  }

  lemma LedgerChangeKeepsRest(s: State, t: State)
    requires RowsOk(s) && SettledRowsJustified(s) && ResultsOk(s)
    requires t.payments == s.payments && t.requests == s.requests && t.results == s.results && t.replies == s.replies
    requires |s.ledger| <= |t.ledger|
    requires forall i :: 0 <= i < |s.ledger| ==> SameCall(s.ledger[i], t.ledger[i])
    ensures RowsOk(t) && SettledRowsJustified(t) && ResultsOk(t)
  {
    JustifiedFrame(s, t);
    assert forall row :: HasOrigin(s, row) ==> HasOrigin(t, row);
  }

  // StartCall

  lemma StartCallHandlers(s: State, h: nat)
    requires HandlersOk(s) && At(s, h) && PcOf(s, h).Inserted?
    ensures HandlersOk(StartCall(s, h))
  {
  }

  lemma StartCallLedger(s: State, h: nat)
    requires LedgerOk(s) && OwnedRowsPending(s) && OwnersDistinct(s) && At(s, h) && PcOf(s, h).Inserted?
    ensures LedgerOk(StartCall(s, h))
  {
    var t := StartCall(s, h);
    assert t.ledger == s.ledger + [NewCall(PcOf(s, h).payment)];
    assert NoCallFor(s, PcOf(s, h).payment.id);
    forall g | g in t.handlers && t.handlers[g].pc.Inserted? ensures NoCallFor(t, t.handlers[g].pc.payment.id) {
      assert NoCallFor(s, s.handlers[g].pc.payment.id);
    }
  }

  lemma StartCallInv(s: State, h: nat)
    requires Inv(s) && At(s, h) && PcOf(s, h).Inserted?
    ensures Inv(StartCall(s, h))
  {
    StartCallHandlers(s, h);
    StartCallLedger(s, h);
    LedgerChangeKeepsRest(s, StartCall(s, h));
  }

  // CountPost

  lemma CountPostLedger(s: State, h: nat)
    requires LedgerOk(s) && Enabled(s, GatewayPost(h))
    ensures LedgerOk(CountPost(s, h))
  {
    var t := CountPost(s, h);
    forall g | g in t.handlers && t.handlers[g].pc.Inserted? ensures NoCallFor(t, t.handlers[g].pc.payment.id) {
      assert NoCallFor(s, s.handlers[g].pc.payment.id);
    }
  }

  lemma CountPostInv(s: State, h: nat)
    requires Inv(s) && Enabled(s, GatewayPost(h))
    ensures Inv(CountPost(s, h))
  {
    CountPostLedger(s, h);
    LedgerChangeKeepsRest(s, CountPost(s, h));
  }

  // EndCall

  lemma EndCallHandlers(s: State, h: nat, outcome: GatewayOutcome)
    requires HandlersOk(s) && InCall(s, h)
    ensures HandlersOk(EndCall(s, h, outcome))
  {
  }

  lemma EndCallLedger(s: State, h: nat, outcome: GatewayOutcome)
    requires LedgerOk(s) && OwnersDistinct(s) && InCall(s, h)
    ensures LedgerOk(EndCall(s, h, outcome))
  {
    var t := EndCall(s, h, outcome);
    forall g | g in t.handlers && t.handlers[g].pc.Inserted? ensures NoCallFor(t, t.handlers[g].pc.payment.id) {
      assert NoCallFor(s, s.handlers[g].pc.payment.id);
    }
  }

  lemma EndCallInv(s: State, h: nat, outcome: GatewayOutcome)
    requires Inv(s) && InCall(s, h)
    ensures Inv(EndCall(s, h, outcome))
  {
    EndCallHandlers(s, h, outcome);
    EndCallLedger(s, h, outcome);
    LedgerChangeKeepsRest(s, EndCall(s, h, outcome));
  }

  // StoreRow

  lemma StoreRowHandlers(s: State, h: nat)
    requires HandlersOk(s) && At(s, h) && PcOf(s, h).Called?
    ensures HandlersOk(StoreRow(s, h))
  {
  }

  lemma StoreRowRows(s: State, h: nat)
    requires RowsOk(s) && OwnedRowsPending(s) && At(s, h) && PcOf(s, h).Called?
    ensures RowsOk(StoreRow(s, h))
  {
    var t := StoreRow(s, h);
    forall p | p in t.payments ensures t.payments[p].id == p && HasOrigin(t, t.payments[p]) {
      var env :| env in s.requests && MadeFor(s.payments[p], env);
      assert MadeFor(t.payments[p], env);
    }
  }

  lemma StoreRowLedger(s: State, h: nat)
    requires LedgerOk(s) && OwnedRowsPending(s) && At(s, h) && PcOf(s, h).Called?
    ensures LedgerOk(StoreRow(s, h))
  {
  }

  lemma StoreRowSettled(s: State, h: nat)
    requires SettledRowsJustified(s) && OwnedRowsPending(s) && PcMatchesLedger(s) && At(s, h) && PcOf(s, h).Called?
    ensures SettledRowsJustified(StoreRow(s, h))
  {
    var t := StoreRow(s, h);
    JustifiedFrame(s, t);
    var row := Settle(PcOf(s, h).payment, PcOf(s, h).outcome);
    var i := PcOf(s, h).call;
    assert Unsettled(row) == PcOf(s, h).payment;
    assert t.ledger[i].pid == row.id && row == Settle(Unsettled(row), t.ledger[i].outcome.outcome);
    assert Justified(t, row);
  }

  lemma StoreRowResults(s: State, h: nat)
    requires ResultsOk(s) && OwnedRowsPending(s) && At(s, h) && PcOf(s, h).Called?
    ensures ResultsOk(StoreRow(s, h))
  {
  }

  lemma StoreRowInv(s: State, h: nat)
    requires Inv(s) && At(s, h) && PcOf(s, h).Called?
    ensures Inv(StoreRow(s, h))
  {
    StoreRowHandlers(s, h);
    StoreRowRows(s, h);
    StoreRowLedger(s, h);
    StoreRowSettled(s, h);
    StoreRowResults(s, h);
  }

  // ---------------------------------------------------------------------------

  /** Every enabled action keeps the invariant. */
  lemma StepInv(s: State, a: Action)
    requires Inv(s) && Enabled(s, a)
    ensures Inv(Apply(s, a))
  {
    match a
    case Send(env) => SendInv(s, env);
    case Deliver(h, env) => DeliverInv(s, h, env);
    case Lookup(h, found) =>
      if found.Some? { AnswerInv(s, h, found.value); } else { GotoInv(s, h, Missed); }
    case RejectIds(h) => GotoInv(s, h, BadRequest);
    case Insert(h, pid, commit) => InsertInv(s, h, pid, commit);
    case CallGateway(h) => StartCallInv(s, h);
    case GatewayPost(h) => CountPostInv(s, h);
    case GatewayReturn(h, outcome) => EndCallInv(s, h, outcome);
    case Save(h, commit) => SaveInv(s, h, commit);
    case Abort(h) => GotoInv(s, h, Aborted);
  }

  lemma InsertInv(s: State, h: nat, pid: nat, commit: Commit)
    requires Inv(s) && Enabled(s, Insert(h, pid, commit))
    ensures Inv(Apply(s, Insert(h, pid, commit)))
  {
    GotoInv(s, h, Aborted);
    if NoRowFor(s, KeyOf(s.handlers[h].env)) {
      AddRowInv(s, h, pid);
      GotoInv(AddRow(s, h, NewPayment(s.handlers[h].env, pid)), h, Aborted);
    }
  }

  /** The settled row is committed and handed back. */
  lemma SavedInv(s: State, h: nat)
    requires Inv(s) && At(s, h) && PcOf(s, h).Called?
    ensures Inv(Answer(StoreRow(s, h), h, Settle(PcOf(s, h).payment, PcOf(s, h).outcome)))
  {
    StoreRowInv(s, h);
    AnswerInv(StoreRow(s, h), h, Settle(PcOf(s, h).payment, PcOf(s, h).outcome));
  }

  lemma SaveInv(s: State, h: nat, commit: Commit)
    requires Inv(s) && Enabled(s, Save(h, commit))
    ensures Inv(Apply(s, Save(h, commit)))
  {
    if commit.RolledBack? || !RowFits(Settle(PcOf(s, h).payment, PcOf(s, h).outcome)) {
      GotoInv(s, h, Aborted);
    } else if commit.Unacknowledged? {
      StoreRowInv(s, h);
    } else {
      SavedInv(s, h);
    }
  }

  // ---------------------------------------------------------------------------
  // What no action undoes

  lemma KeepsTransitive(s: State, t: State, u: State)
    requires Keeps(s, t) && Keeps(t, u)
    ensures Keeps(s, u)
  {
    forall p | p in s.payments
      ensures p in u.payments && SameCharge(s.payments[p], u.payments[p])
      ensures !s.payments[p].status.Pending? ==> u.payments[p] == s.payments[p]
    {
      assert p in t.payments;
    }
    forall i | 0 <= i < |s.ledger| ensures SameCall(s.ledger[i], u.ledger[i]) {
      assert SameCall(s.ledger[i], t.ledger[i]) && SameCall(t.ledger[i], u.ledger[i]);
    }
  }

  /** Only handlers, requests, results and replies change, and the last three grow. */
  predicate GrowsOnly(s: State, t: State) {
    s.polly == t.polly && s.payments == t.payments && s.ledger == t.ledger
    && s.requests <= t.requests && s.replies <= t.replies && s.results <= t.results
  }

  lemma GrowsOnlyKeeps(s: State, t: State)
    requires GrowsOnly(s, t)
    ensures Keeps(s, t)
  {
  }

  lemma LedgerChangeKeeps(s: State, t: State)
    requires s.polly == t.polly && s.payments == t.payments && s.requests == t.requests
    requires s.replies == t.replies && s.results == t.results && |s.ledger| <= |t.ledger|
    requires forall i :: 0 <= i < |s.ledger| ==> SameCall(s.ledger[i], t.ledger[i])
    ensures Keeps(s, t)
  {
  }

  lemma StoreRowKeeps(s: State, h: nat)
    requires OwnedRowsPending(s) && At(s, h) && PcOf(s, h).Called?
    ensures Keeps(s, StoreRow(s, h))
  {
  }

  lemma AddRowKeeps(s: State, h: nat, row: Payment)
    requires At(s, h) && row.id !in s.payments
    ensures Keeps(s, AddRow(s, h, row))
  {
  }

  lemma SaveKeeps(s: State, h: nat, commit: Commit)
    requires OwnedRowsPending(s) && Enabled(s, Save(h, commit))
    ensures Keeps(s, Apply(s, Save(h, commit)))
  {
    var t := StoreRow(s, h);
    StoreRowKeeps(s, h);
    GrowsOnlyKeeps(s, Goto(s, h, Aborted));
    match commit
    case RolledBack =>
    case Unacknowledged =>
    case Committed =>
      var u := Answer(t, h, Settle(PcOf(s, h).payment, PcOf(s, h).outcome));
      GrowsOnlyKeeps(t, u);
      KeepsTransitive(s, t, u);
  }

  lemma InsertKeeps(s: State, h: nat, pid: nat, commit: Commit)
    requires Enabled(s, Insert(h, pid, commit))
    ensures Keeps(s, Apply(s, Insert(h, pid, commit)))
  {
    var row := NewPayment(s.handlers[h].env, pid);
    var t := AddRow(s, h, row);
    AddRowKeeps(s, h, row);
    GrowsOnlyKeeps(s, Goto(s, h, Aborted));
    GrowsOnlyKeeps(t, Goto(t, h, Aborted));
    KeepsTransitive(s, t, Goto(t, h, Aborted));
  }

  lemma CallKeeps(s: State, h: nat)
    requires At(s, h)
    ensures PcOf(s, h).Inserted? ==> Keeps(s, StartCall(s, h))
    ensures InCall(s, h) ==> Keeps(s, CountPost(s, h))
    ensures InCall(s, h) && PcMatchesLedger(s) ==> forall outcome :: Keeps(s, EndCall(s, h, outcome))
  {
    if PcOf(s, h).Inserted? {
      LedgerChangeKeeps(s, StartCall(s, h));
    }
    if InCall(s, h) {
      LedgerChangeKeeps(s, CountPost(s, h));
      if PcMatchesLedger(s) {
        forall outcome ensures Keeps(s, EndCall(s, h, outcome)) {
          LedgerChangeKeeps(s, EndCall(s, h, outcome));
        }
      }
    }
  }

  lemma QuietStepKeeps(s: State, a: Action)
    requires Enabled(s, a) && (a.Send? || a.Deliver? || a.Lookup? || a.RejectIds? || a.Abort?)
    ensures Keeps(s, Apply(s, a))
  {
    GrowsOnlyKeeps(s, Apply(s, a));
  }

  /** Terminal rows, the requests of rows and calls, and everything handed out
      before stay as they are under every action. */
  lemma StepKeeps(s: State, a: Action)
    requires Inv(s) && Enabled(s, a)
    ensures Keeps(s, Apply(s, a))
  {
    match a
    case Insert(h, pid, commit) => InsertKeeps(s, h, pid, commit);
    case CallGateway(h) => CallKeeps(s, h);
    case GatewayPost(h) => CallKeeps(s, h);
    case GatewayReturn(h, outcome) => CallKeeps(s, h);
    case Save(h, commit) => SaveKeeps(s, h, commit);
    case _ => QuietStepKeeps(s, a);
  }
}
