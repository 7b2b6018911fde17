/** The explicit operator-payment lane. */
module OperatorLane {
  import opened Common
  import opened Tickets
  import opened Ledgers
  import opened Ancestry
  import opened ReducerSpec
  import opened LedgerSteps
  import opened ReducerSteps
  import opened Runs

  ghost predicate OnlyEvent(l: Ledger, k: EvidenceKey, e: EventKey) {
    e in l.events && e.evidence == k && forall f :: f in l.events && f.evidence == k ==> f == e
  }

  /** An event carrying exactly what the operator entry says. */
  predicate SaysEntry(v: Event, p: OperatorPayment) {
    && v.on == Some(p.date) && v.at == None && v.cents == Some(p.cents) && v.reference == p.reference
    && v.digest == PaymentDigest(Sha(p))
  }

  /** The step for one entry: it files exactly one payment event, and touches only its own ticket. */
  ghost predicate OperatorFiled(run: Run, st: State, s: State, p: OperatorPayment, i: nat)
    requires i < |st.tickets| && |s.tickets| == |st.tickets|
  {
    && Files(st.ledger, s.ledger, PaymentKey(Sha(p)), Record(Some(p.date), None, PaymentDigest(Sha(p))))
    && (forall j :: 0 <= j < |st.tickets| && j != i ==> s.tickets[j] == st.tickets[j])
    && exists e :: OnlyEvent(s.ledger, PaymentKey(Sha(p)), e)
                   && e.ticket == KeyOf(st, i) && SaysEntry(s.ledger.events[e], p)
                   && s.tickets[i] == OperatorApply(st, p, i, e.kind).tickets[i]
                   && (if PriorEvents(run, p) == {} then
                         e.kind == OperatorVerdict(run, p, st.tickets[i]).0
                       else e in run.prev.events && s.ledger.events[e] == run.prev.events[e])
  }

  lemma PutEvent(run: Run, st: State, p: OperatorPayment, i: nat, e: Event)
    requires i < |st.tickets| && Fresh(st.ledger, PaymentKey(Sha(p)))
    requires var k, r := PaymentKey(Sha(p)), Record(Some(p.date), None, PaymentDigest(Sha(p)));
             Fits(e, k, r) && e.ticket == KeyOf(st, i) && e.reference == p.reference && e.cents == Some(p.cents)
    requires if PriorEvents(run, p) == {} then e.kind == OperatorVerdict(run, p, st.tickets[i]).0
             else e.Key() in run.prev.events && run.prev.events[e.Key()] == e
    ensures var k, r := PaymentKey(Sha(p)), Record(Some(p.date), None, PaymentDigest(Sha(p)));
            var s := OperatorApply(AddEvent(AddEvidence(st, k, r), e), p, i, e.kind);
            s.ok == st.ok && OperatorFiled(run, st, s, p, i)
  {
    hide PaymentApplied, PaymentHeld, OperatorVerdict, PriorEvents;
    var k, r := PaymentKey(Sha(p)), Record(Some(p.date), None, PaymentDigest(Sha(p)));
    var s0 := AddEvidence(st, k, r);
    AddEventGrows(s0, e, k, r);
    var s1 := AddEvent(s0, e);
    var s := OperatorApply(s1, p, i, e.kind);
    assert s.ledger == s1.ledger;
    assert e.Key() in s.ledger.events;
    GrowthFiles(st.ledger, s.ledger, k, r);
    assert e.Key() !in st.ledger.events;
    assert OnlyEvent(s.ledger, k, e.Key());
  }

  lemma OperatorFiles(run: Run, st: State, p: OperatorPayment, i: nat)
    requires i < |st.tickets| && Fresh(st.ledger, PaymentKey(Sha(p)))
    requires p.reference != "" && Authentic(run.prev) && PaymentFields(run.prev)
    requires OperatorStep(run, st, p, i).ok
    ensures OperatorFiled(run, st, OperatorStep(run, st, p, i), p, i)
  {
    hide OperatorFiled, OperatorApply;
    var prior := PriorEvents(run, p);
    if prior == {} {
      hide OperatorVerdict;
      var v := OperatorVerdict(run, p, st.tickets[i]);
      VerdictFits(run, p, st.tickets[i]);
      PutEvent(run, st, p, i, OperatorEvent(p, KeyOf(st, i), v.0, v.1));
    } else {
      forall k | k in prior
        ensures var e := run.prev.events[k];
                e.Key() == k && e.reference == p.reference && e.cents == Some(p.cents)
                && (IsPayment(e.kind) ==> Fits(e, PaymentKey(Sha(p)), Record(Some(p.date), None, PaymentDigest(Sha(p)))))
      {
        PriorFits(run, p, k);
      }
      var k :| k in prior && OperatorStep(run, st, p, i) ==
        OperatorApply(AddEvent(AddEvidence(st, PaymentKey(Sha(p)), Record(Some(p.date), None, PaymentDigest(Sha(p)))),
                               run.prev.events[k]), p, i, run.prev.events[k].kind)
        && run.prev.events[k].ticket == KeyOf(st, i) && IsPayment(run.prev.events[k].kind);
      PutEvent(run, st, p, i, run.prev.events[k]);
    }
  }

  lemma VerdictFits(run: Run, p: OperatorPayment, t: TicketState)
    requires p.reference != ""
    ensures var v := OperatorVerdict(run, p, t);
            Fits(OperatorEvent(p, t.head.selector.key, v.0, v.1), PaymentKey(Sha(p)),
                 Record(Some(p.date), None, PaymentDigest(Sha(p))))
  {
  }

  lemma PriorFits(run: Run, p: OperatorPayment, k: EventKey)
    requires k in PriorEvents(run, p) && p.reference != "" && Authentic(run.prev) && PaymentFields(run.prev)
    ensures var e := run.prev.events[k];
            e.Key() == k && e.reference == p.reference && e.cents == Some(p.cents)
            && (IsPayment(e.kind) ==> Fits(e, PaymentKey(Sha(p)), Record(Some(p.date), None, PaymentDigest(Sha(p)))))
  {
  }
}
