/** The last phase, and the theorems about whole runs under schema-2 anchors. */
module RunTheorems {
  import opened Common
  import opened Tickets
  import opened Ledgers
  import opened Ancestry
  import opened ReducerSpec
  import opened LedgerSteps
  import opened ReducerSteps
  import opened PaymentSteps
  import opened Runs
  import opened LinkLane
  import opened OperatorLane
  import opened RunPhases

  /** `e` is the one event of entry `i`, judged on its ticket as it was in `mid`. */
  ghost predicate DoneBy(run: Run, mid: State, s: State, i: nat, e: EventKey)
    requires RunInRange(run, |mid.tickets|) && i < |run.operatorAt| && |s.tickets| == |mid.tickets|
  {
    var p, at := run.anchors.operatorPayments[i], run.operatorAt[i];
    && OnlyEvent(s.ledger, PaymentKey(Sha(p)), e)
    && e.ticket == KeyOf(mid, at) && SaysEntry(s.ledger.events[e], p)
    && s.tickets[at] == OperatorApply(mid, p, at, e.kind).tickets[at]
    && (if PriorEvents(run, p) == {} then e.kind == OperatorVerdict(run, p, mid.tickets[at]).0
        else e in run.prev.events && s.ledger.events[e] == run.prev.events[e])
  }

  ghost predicate OperatorDone(run: Run, mid: State, s: State, i: nat)
    requires RunInRange(run, |mid.tickets|) && i < |run.operatorAt| && |s.tickets| == |mid.tickets|
  {
    exists e :: DoneBy(run, mid, s, i, e)
  }

  ghost predicate OperatorNames(run: Run, mid: State, e: Event, i: nat)
    requires RunInRange(run, |mid.tickets|)
  {
    && i < |run.operatorAt|
    && e.evidence == PaymentKey(Sha(run.anchors.operatorPayments[i]))
    && e.ticket == KeyOf(mid, run.operatorAt[i]) && e.reference == run.anchors.operatorPayments[i].reference
  }

  ghost predicate Named(run: Run, mid: State, e: Event, links: nat, operators: nat)
    requires RunInRange(run, |mid.tickets|)
  {
    || (exists i :: 0 <= i < links && LinkNames(run, mid, e, i))
    || (exists i :: 0 <= i < operators && OperatorNames(run, mid, e, i))
  }

  ghost predicate OperatorInvariant(run: Run, mid: State, linked: State, s: State, n: nat)
    requires RunInRange(run, |mid.tickets|) && |linked.tickets| == |mid.tickets| && n <= |run.operatorAt|
  {
    && |s.tickets| == |mid.tickets|
    && Agrees(s.ledger) && Sources(run, s.ledger, |run.reviewAt|, |run.paymentIds|, n)
    && (forall j :: 0 <= j < |mid.tickets| && s.tickets[j] != linked.tickets[j] ==>
          exists i :: 0 <= i < n && run.operatorAt[i] == j)
    && (forall i :: 0 <= i < |run.paymentIds| ==> LinkDone(run, mid, s, i))
    && (forall i :: 0 <= i < n ==> OperatorDone(run, mid, s, i))
    && (forall e :: e in s.ledger.events && IsPayment(e.kind) ==> Named(run, mid, s.ledger.events[e], |run.paymentIds|, n))
  }

  lemma OperatorIsFresh(run: Run, l: Ledger, n: nat)
    requires LanesOk(run) && |run.operatorAt| == |run.anchors.operatorPayments| && n < |run.operatorAt|
    requires Agrees(l) && Sources(run, l, |run.reviewAt|, |run.paymentIds|, n)
    ensures Fresh(l, PaymentKey(Sha(run.anchors.operatorPayments[n])))
  {
    hide Agrees;
    var k := PaymentKey(Sha(run.anchors.operatorPayments[n]));
    forall i | 0 <= i < n ensures run.anchors.operatorPayments[i] != run.anchors.operatorPayments[n] {
      assert run.anchors.operatorPayments[i].reference != run.anchors.operatorPayments[n].reference;
    }
    assert !FromOperator(run, k, n);
    AbsentIsFresh(l, k);
  }

  /** Operator tickets are bound by no link. */
  lemma OperatorUnlinked(run: Run, n: nat, i: nat, k: nat, b: Bound)
    requires RunInRange(run, n) && LanesOk(run) && i < |run.operatorAt| && k < |run.paymentIds|
    requires run.paymentIds[k] in run.links.payments && b in BoundAt(run, k)
    ensures b.ticket != run.operatorAt[i]
    ensures b.reference != Sha(run.anchors.operatorPayments[i].reference)
  {
    var x :| 0 <= x < |BoundAt(run, k)| && BoundAt(run, k)[x] == b;
  }

  lemma OperatorTicketFromMid(run: Run, mid: State, linked: State, s: State, n: nat)
    requires RunInRange(run, |mid.tickets|) && LanesOk(run) && n < |run.operatorAt| && |linked.tickets| == |mid.tickets|
    requires LinkUntouched(run, mid, linked, |run.paymentIds|) && OperatorInvariant(run, mid, linked, s, n)
    ensures s.tickets[run.operatorAt[n]] == mid.tickets[run.operatorAt[n]]
  {
    hide Agrees, LinkDone, OperatorDone, Sources, Named, LanesOk;
    var j := run.operatorAt[n];
    OperatorsDiffer(run, n);
    if linked.tickets[j] != mid.tickets[j] {
      var i, b :| 0 <= i < |run.paymentIds| && run.paymentIds[i] in run.links.payments && b in BoundAt(run, i) && b.ticket == j;
      OperatorUnlinked(run, |mid.tickets|, n, i, b);
      assert false;
    }
  }

  lemma OperatorsDiffer(run: Run, n: nat)
    requires LanesOk(run) && n < |run.operatorAt|
    ensures forall i :: 0 <= i < |run.operatorAt| && i != n ==> run.operatorAt[i] != run.operatorAt[n]
  {
  }

  lemma {:induction false} OperatorPhase(run: Run, tickets: seq<TicketState>, n: nat)
    requires run.anchors.schema != 1 && RunOk(run, tickets) && n <= |run.operatorAt|
    requires OperatorUpTo(run, AfterLinks(run, tickets), n).ok
    ensures var mid, linked := AfterReviews(run, tickets), AfterLinks(run, tickets);
            LinkUntouched(run, mid, linked, |run.paymentIds|)
            && OperatorInvariant(run, mid, linked, OperatorUpTo(run, linked, n), n)
  {
    hide OperatorInvariant, LinkUntouched, OperatorStep, LinksUpTo, ReviewsUpTo, LanesOk, TextsOk, Authentic, PaymentFields;
    var mid, linked := AfterReviews(run, tickets), AfterLinks(run, tickets);
    if n == 0 {
      LinkPhase(run, tickets, |run.paymentIds|);
      OperatorPhaseStarts(run, mid, linked);
    } else {
      OperatorPhase(run, tickets, n - 1);
      OperatorPhaseStep(run, tickets, mid, linked, OperatorUpTo(run, linked, n - 1), n);
    }
  }

  lemma OperatorPhaseStarts(run: Run, mid: State, linked: State)
    requires RunInRange(run, |mid.tickets|) && LinkInvariant(run, mid, linked, |run.paymentIds|)
    ensures LinkUntouched(run, mid, linked, |run.paymentIds|) && OperatorInvariant(run, mid, linked, linked, 0)
  {
    hide Agrees, LinkDone, LinkNames;
  }

  lemma OperatorPhaseStep(run: Run, tickets: seq<TicketState>, mid: State, linked: State, s0: State, n: nat)
    requires RunOk(run, tickets) && |mid.tickets| == |linked.tickets| == |tickets| && 0 < n <= |run.operatorAt|
    requires LinkUntouched(run, mid, linked, |run.paymentIds|) && OperatorInvariant(run, mid, linked, s0, n - 1)
    requires OperatorStep(run, s0, run.anchors.operatorPayments[n - 1], run.operatorAt[n - 1]).ok
    ensures OperatorInvariant(run, mid, linked,
              OperatorStep(run, s0, run.anchors.operatorPayments[n - 1], run.operatorAt[n - 1]), n)
  {
    hide OperatorStep, LanesOk, TextsOk, Agrees, LinkDone, OperatorDone, Named, Sources, Authentic, PaymentFields;
    var p, at := run.anchors.operatorPayments[n - 1], run.operatorAt[n - 1];
    var s := OperatorStep(run, s0, p, at);
    var r := Record(Some(p.date), None, PaymentDigest(Sha(p)));
    OperatorIsFresh(run, s0.ledger, n - 1);
    ReferenceNamed(run, n - 1);
    OperatorFiles(run, s0, p, at);
    FilingAgrees(s0.ledger, s.ledger, PaymentKey(Sha(p)), r);
    OperatorTicketFromMid(run, mid, linked, s0, n - 1);
    OperatorSourcesStep(run, s0, s, n);
    OperatorDoneStep(run, mid, linked, s0, s, n);
    OperatorLinksStep(run, mid, linked, s0, s, n);
    OperatorEventsStep(run, mid, linked, s0, s, n);
  }

  lemma ReferenceNamed(run: Run, n: nat)
    requires LanesOk(run) && n < |run.anchors.operatorPayments|
    ensures run.anchors.operatorPayments[n].reference != ""
  {
  }

  lemma OperatorSourcesStep(run: Run, s0: State, s: State, n: nat)
    requires 0 < n <= |run.anchors.operatorPayments|
    requires Sources(run, s0.ledger, |run.reviewAt|, |run.paymentIds|, n - 1)
    requires s.ledger.evidence.Keys == s0.ledger.evidence.Keys + {PaymentKey(Sha(run.anchors.operatorPayments[n - 1]))}
    ensures Sources(run, s.ledger, |run.reviewAt|, |run.paymentIds|, n)
  {
    hide FromMail, FromReview, FromLink;
    forall k | k in s.ledger.evidence
      ensures FromMail(run, k) || FromReview(run, k, |run.reviewAt|) || FromLink(run, k, |run.paymentIds|) || FromOperator(run, k, n)
    {
      if k in s0.ledger.evidence && FromOperator(run, k, n - 1) {
        assert FromOperator(run, k, n);
      } else if k !in s0.ledger.evidence {
        assert FromOperator(run, k, n);
      }
    }
  }

  lemma OperatorDoneStep(run: Run, mid: State, linked: State, s0: State, s: State, n: nat)
    requires RunInRange(run, |mid.tickets|) && LanesOk(run) && 0 < n <= |run.operatorAt|
    requires |linked.tickets| == |s0.tickets| == |s.tickets| == |mid.tickets|
    requires forall i :: 0 <= i < n - 1 ==> OperatorDone(run, mid, s0, i)
    requires OperatorFiled(run, s0, s, run.anchors.operatorPayments[n - 1], run.operatorAt[n - 1])
    requires s0.tickets[run.operatorAt[n - 1]] == mid.tickets[run.operatorAt[n - 1]]
    ensures forall i :: 0 <= i < n ==> OperatorDone(run, mid, s, i)
  {
    hide OperatorApply, OperatorVerdict, PriorEvents, LanesOk, Files, OperatorDone, OperatorFiled, OnlyEvent;
    forall i | 0 <= i < n ensures OperatorDone(run, mid, s, i) {
      if i < n - 1 {
        EarlierStaysDone(run, mid, s0, s, i, n);
      } else {
        EntryIsDone(run, mid, s0, s, i);
      }
    }
  }

  lemma EarlierStaysDone(run: Run, mid: State, s0: State, s: State, i: nat, n: nat)
    requires RunInRange(run, |mid.tickets|) && LanesOk(run) && 0 < n <= |run.operatorAt| && i < n - 1
    requires |s0.tickets| == |s.tickets| == |mid.tickets| && OperatorDone(run, mid, s0, i)
    requires OperatorFiled(run, s0, s, run.anchors.operatorPayments[n - 1], run.operatorAt[n - 1])
    ensures OperatorDone(run, mid, s, i)
  {
    hide OperatorApply, OperatorVerdict, PriorEvents, LanesOk, Files, OnlyEvent, SaysEntry;
    OperatorsDiffer(run, n - 1);
    OperatorEntriesDiffer(run, n - 1);
    var p, at, last := run.anchors.operatorPayments[i], run.operatorAt[i], run.anchors.operatorPayments[n - 1];
    assert s.tickets[at] == s0.tickets[at];
    var e :| DoneBy(run, mid, s0, i, e);
    OnlyEventPersists(s0.ledger, s.ledger, PaymentKey(Sha(p)), e, PaymentKey(Sha(last)), Record(Some(last.date), None, PaymentDigest(Sha(last))));
    assert DoneBy(run, mid, s, i, e);
  }

  lemma EntryIsDone(run: Run, mid: State, s0: State, s: State, i: nat)
    requires RunInRange(run, |mid.tickets|) && i < |run.operatorAt| && |s0.tickets| == |s.tickets| == |mid.tickets|
    requires OperatorFiled(run, s0, s, run.anchors.operatorPayments[i], run.operatorAt[i])
    requires s0.tickets[run.operatorAt[i]] == mid.tickets[run.operatorAt[i]]
    ensures OperatorDone(run, mid, s, i)
  {
    hide PaymentApplied, PaymentHeld, OperatorVerdict, PriorEvents, Files, SaysEntry;
    var p, at := run.anchors.operatorPayments[i], run.operatorAt[i];
    var e :| OnlyEvent(s.ledger, PaymentKey(Sha(p)), e)
             && e.ticket == KeyOf(s0, at) && SaysEntry(s.ledger.events[e], p)
             && s.tickets[at] == OperatorApply(s0, p, at, e.kind).tickets[at]
             && (if PriorEvents(run, p) == {} then e.kind == OperatorVerdict(run, p, s0.tickets[at]).0
                 else e in run.prev.events && s.ledger.events[e] == run.prev.events[e]);
    assert DoneBy(run, mid, s, i, e);
  }

  lemma OperatorEntriesDiffer(run: Run, n: nat)
    requires LanesOk(run) && n < |run.anchors.operatorPayments|
    ensures forall i :: 0 <= i < n ==> run.anchors.operatorPayments[i] != run.anchors.operatorPayments[n]
  {
    forall i | 0 <= i < n ensures run.anchors.operatorPayments[i] != run.anchors.operatorPayments[n] {
      assert run.anchors.operatorPayments[i].reference != run.anchors.operatorPayments[n].reference;
    }
  }

  lemma OnlyEventPersists(l: Ledger, l': Ledger, k: EvidenceKey, e: EventKey, k': EvidenceKey, r: Record)
    requires OnlyEvent(l, k, e) && Files(l, l', k', r) && k != k'
    ensures OnlyEvent(l', k, e) && l'.events[e] == l.events[e]
  {
    forall f | f in l'.events && f !in l.events ensures f.evidence == k' {
      assert l'.events[f].Key() == f && Fits(l'.events[f], k', r);
    }
  }

  lemma OperatorLinksStep(run: Run, mid: State, linked: State, s0: State, s: State, n: nat)
    requires RunInRange(run, |mid.tickets|) && LanesOk(run) && 0 < n <= |run.operatorAt|
    requires |linked.tickets| == |mid.tickets| && OperatorInvariant(run, mid, linked, s0, n - 1)
    requires |s.tickets| == |mid.tickets|
    requires OperatorFiled(run, s0, s, run.anchors.operatorPayments[n - 1], run.operatorAt[n - 1])
    ensures forall i :: 0 <= i < |run.paymentIds| ==> LinkDone(run, mid, s, i)
  {
    hide LanesOk, Agrees, Outcome, Sources, Named, OperatorDone, Files, OperatorApply, OnlyEvent, OperatorVerdict, PriorEvents;
    var p := run.anchors.operatorPayments[n - 1];
    forall i | 0 <= i < |run.paymentIds| ensures LinkDone(run, mid, s, i) {
      if MailAt(run, i) {
        PaymentIdLinked(run, |mid.tickets|, i);
        assert LinkDone(run, mid, s0, i);
        forall b | b in BoundAt(run, i) ensures s.tickets[b.ticket] == s0.tickets[b.ticket] {
          OperatorUnlinked(run, |mid.tickets|, n - 1, i, b);
        }
        OutcomePersists(run, mid, s0, s, LinkedMail(run, i), BoundAt(run, i), PaymentKey(Sha(p)),
                        Record(Some(p.date), None, PaymentDigest(Sha(p))));
      }
    }
  }

  lemma OperatorEventsStep(run: Run, mid: State, linked: State, s0: State, s: State, n: nat)
    requires RunInRange(run, |mid.tickets|) && 0 < n <= |run.operatorAt|
    requires |linked.tickets| == |mid.tickets| == |s.tickets| && OperatorInvariant(run, mid, linked, s0, n - 1)
    requires OperatorFiled(run, s0, s, run.anchors.operatorPayments[n - 1], run.operatorAt[n - 1])
    requires s0.tickets[run.operatorAt[n - 1]] == mid.tickets[run.operatorAt[n - 1]]
    ensures forall e :: e in s.ledger.events && IsPayment(e.kind) ==>
              Named(run, mid, s.ledger.events[e], |run.paymentIds|, n)
  {
    hide Agrees, LinkDone, Sources, OperatorDone, LinkNames, OperatorApply, OperatorVerdict, PriorEvents;
    forall e | e in s.ledger.events && IsPayment(e.kind)
      ensures Named(run, mid, s.ledger.events[e], |run.paymentIds|, n)
    {
      if e in s0.ledger.events {
        assert Named(run, mid, s0.ledger.events[e], |run.paymentIds|, n - 1);
        if x :| 0 <= x < n - 1 && OperatorNames(run, mid, s0.ledger.events[e], x) {
          assert x < n;
        }
      } else {
        assert s.ledger.events[e].Key() == e;
        assert OperatorNames(run, mid, s.ledger.events[e], n - 1);
      }
    }
  }
}
