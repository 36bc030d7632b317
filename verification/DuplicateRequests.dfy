/**
  Two requests under one key. The later one gets the stored payment exactly if the row
  was there when it looked; one that ran alongside can instead hit the unique index.
 */
module DuplicateRequests {
  import opened Wrappers
  import opened Payments
  import opened PaymentProtocol
  import opened PaymentInvariant
  import PT = PaymentTheorems

  /** The row that a handler works on or has answered with. */
  function Held(pc: Pc): Option<nat> {
    match pc
    case Inserted(row) => Some(row.id)
    case Calling(row, _) => Some(row.id)
    case Called(row, _, _) => Some(row.id)
    case Replied(row) => Some(row.id)
    case _ => None
  }

  /** Handler h has inserted row p itself, under the key of its own request. */
  ghost predicate Inserter(s: State, acts: seq<Action>, h: nat, p: nat)
    requires At(s, h)
  {
    && p in s.payments && s.payments[p].key == KeyOf(s.handlers[h].env)
    && exists commit :: Insert(h, p, commit) in acts
  }

  /** Where handler h can be after a lookup that found nothing. */
  ghost predicate AfterMiss(s: State, acts: seq<Action>, h: nat) {
    && At(s, h) && !PcOf(s, h).Received?
    && (Held(PcOf(s, h)).Some? ==> Inserter(s, acts, h, Held(PcOf(s, h)).value))
  }

  /** A handler past its lookup comes by a row only by inserting it. */
  lemma HeldStep(s: State, a: Action, h: nat)
    requires Enabled(s, a) && At(s, h) && !PcOf(s, h).Received?
    ensures var t := Apply(s, a);
      && At(t, h) && !PcOf(t, h).Received? && t.handlers[h].env == s.handlers[h].env
      && (PcOf(s, h).Replied? ==> PcOf(t, h) == PcOf(s, h))
      && (Held(PcOf(t, h)).None? || Held(PcOf(t, h)) == Held(PcOf(s, h))
          || (a.Insert? && a.h == h && Held(PcOf(t, h)) == Some(a.pid)
              && a.pid in t.payments && t.payments[a.pid].key == KeyOf(t.handlers[h].env)))
  {
  }

  lemma StepAfterMiss(s: State, acts: seq<Action>, a: Action, h: nat)
    requires Inv(s) && Enabled(s, a) && AfterMiss(s, acts, h)
    ensures AfterMiss(Apply(s, a), acts + [a], h)
  {
    HeldStep(s, a, h);
    StepKeeps(s, a);
    var held := Held(PcOf(Apply(s, a), h));
    if held.Some? {
      if held == Held(PcOf(s, h)) {
        var commit :| Insert(h, held.value, commit) in acts;
        assert Insert(h, held.value, commit) in acts + [a];
      } else {
        assert (acts + [a])[|acts|] == Insert(h, held.value, a.commit);
      }
    }
  }

  /** What a lookup found decides what its handler can come to. */
  lemma {:induction false} LookupDecides(polly: nat, acts: seq<Action>, n: nat, h: nat, found: Option<Payment>)
    requires Legal(polly, acts) && n < |acts| && acts[n] == Lookup(h, found)
    ensures Legal(polly, acts[..n]) && Enabled(Run(polly, acts[..n]), acts[n])
    ensures At(Run(polly, acts), h) && Run(polly, acts).handlers[h].env == Run(polly, acts[..n]).handlers[h].env
    ensures if found.Some? then PcOf(Run(polly, acts), h) == Replied(found.value)
            else AfterMiss(Run(polly, acts), acts, h)
    decreases |acts|
  {
    var before, a := acts[..|acts| - 1], acts[|acts| - 1];
    assert acts == before + [a];
    if n < |before| {
      assert before[..n] == acts[..n];
      LookupDecides(polly, before, n, h, found);
      PT.RunInv(polly, before);
      HeldStep(Run(polly, before), a, h);
      if found.None? {
        StepAfterMiss(Run(polly, before), before, a, h);
      }
    }
  }

  /** A request whose key has a row that another handler inserted is answered with a
      payment if and only if that row was already there at its lookup, and then with
      that payment as it stood; otherwise it never gets an answer but a 400 or a 500. */
  lemma SecondRequestGetsTheRow(polly: nat, acts: seq<Action>, n: nat, h: nat, found: Option<Payment>, p: nat)
    requires Legal(polly, acts) && n < |acts| && acts[n] == Lookup(h, found)
    requires At(Run(polly, acts), h) && p in Run(polly, acts).payments
    requires Run(polly, acts).payments[p].key == KeyOf(Run(polly, acts).handlers[h].env)
    requires forall commit :: Insert(h, p, commit) !in acts
    ensures Legal(polly, acts[..n])
    ensures var was, s := Run(polly, acts[..n]), Run(polly, acts);
      && (PcOf(s, h).Replied? <==> p in was.payments)
      && (PcOf(s, h).Replied? ==> PcOf(s, h).payment == was.payments[p] && SameCharge(was.payments[p], s.payments[p]))
      && (!PcOf(s, h).Replied? ==> PcOf(s, h).Missed? || PcOf(s, h).BadRequest? || PcOf(s, h).Aborted?)
  {
    LookupDecides(polly, acts, n, h, found);
    PT.HistoryIsKept(polly, acts, n);
    PT.RunInv(polly, acts);
    PT.RunInv(polly, acts[..n]);
    var was, s := Run(polly, acts[..n]), Run(polly, acts);
    SameKeyBefore(was, s, p);
    assert forall q :: Inserter(s, acts, h, q) ==> q == p;
  }

  /** A row that was there under the key of p was p. */
  lemma SameKeyBefore(was: State, s: State, p: nat)
    requires UniqueKeys(s) && Keeps(was, s) && p in s.payments
    ensures NoRowFor(was, s.payments[p].key) <==> p !in was.payments
    ensures forall q :: q in was.payments && was.payments[q].key == s.payments[p].key ==> q == p
    ensures p in was.payments ==> SameCharge(was.payments[p], s.payments[p])
  {
    assert forall q :: q in was.payments ==> q in s.payments && s.payments[q].key == was.payments[q].key;
  }

  // ---------------------------------------------------------------------------

  lemma Extend(polly: nat, acts: seq<Action>, a: Action) returns (later: seq<Action>)
    requires Legal(polly, acts) && Enabled(Run(polly, acts), a)
    ensures later == acts + [a] && Legal(polly, later)
    ensures Run(polly, later) == Apply(Run(polly, acts), a)
  {
    later := acts + [a];
    assert later[..|acts|] == acts;
  }

  /** Two handlers of one request have both found nothing. */
  lemma BothMiss(polly: nat, e: Envelope) returns (acts: seq<Action>)
    requires ModelIsValid(e.body)
    ensures Legal(polly, acts)
    ensures var handlers := map[0 := Handler(e, Missed), 1 := Handler(e, Missed)];
      Run(polly, acts) == Init(polly).(requests := {e}, handlers := handlers)
  {
    acts := Extend(polly, [], Send(e));
    acts := Extend(polly, acts, Deliver(0, e));
    acts := Extend(polly, acts, Lookup(0, None));
    acts := Extend(polly, acts, Deliver(1, e));
    acts := Extend(polly, acts, Lookup(1, None));
  }

  /** Any request that can be charged, with a key that its column can hold, delivered
      twice: one handler stores the row, the
      other hits the unique index and ends without an answer, although the row of its
      key is there. */
  lemma TwoDeliveriesCollide(polly: nat, e: Envelope) returns (acts: seq<Action>)
    requires ModelIsValid(e.body) && GuidsParse(e) && RowFits(NewPayment(e, 0))
    ensures Legal(polly, acts)
    ensures var s := Run(polly, acts);
      && At(s, 0) && PcOf(s, 0) == Inserted(NewPayment(e, 0)) && s.payments == map[0 := NewPayment(e, 0)]
      && At(s, 1) && PcOf(s, 1) == Aborted && s.handlers[1].env == e
  {
    acts := BothMiss(polly, e);
    assert RowFits(NewPayment(e, 0)) && RowFits(NewPayment(e, 1));
    acts := Extend(polly, acts, Insert(0, 0, Committed));
    acts := Extend(polly, acts, Insert(1, 1, Committed));
  }
}
