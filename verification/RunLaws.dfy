/** More laws of one successful run: the finished ledger, the loader's payment checks, and validity. */
module RunLaws {
  import opened Common
  import opened Tickets
  import opened TicketLaws
  import opened Ledgers
  import opened Ancestry
  import opened ReducerSpec
  import opened LedgerSteps
  import opened ReducerSteps
  import opened PaymentSteps
  import opened Runs
  import opened LinkLane
  import opened OperatorLane
  import opened RunPhases
  import opened RunTheorems
  import opened Settlement
  import opened OwedTotals

  /** Every finished ledger meets the loader's rules on evidence, events and unmatched entries. */
  lemma FinishedLedgerAgrees(run: Run, tickets: seq<TicketState>)
    requires run.anchors.schema != 1 && RunOk(run, tickets) && Succeeds(run, tickets)
    ensures LedgerAgrees(AfterAll(run, tickets).ledger)
    ensures OneRecordedPerTicket(AfterAll(run, tickets).ledger)
    ensures Authentic(AfterAll(run, tickets).ledger)
  {
    hide OperatorUpTo, LinksUpTo, ReviewsUpTo, MailsUpTo, LanesOk, TextsOk, LinkUntouched, LinkDone, Named,
         OperatorInvariant, PaymentFields, LanesKept, LinkedOrUnmatched, EventsMatchEvidence, AllKeep;
    RunFacts(run, tickets);
    var mid, linked, s := AfterReviews(run, tickets), AfterLinks(run, tickets), AfterAll(run, tickets);
    FinishedOperators(run, mid, linked, s);
    forall e, f | e in s.ledger.events && f in s.ledger.events && e.kind == PaymentRecorded && f.kind == PaymentRecorded
                  && e.ticket == f.ticket
      ensures e == f
    {
      OnePayment(run, tickets, e, f);
    }
  }

  lemma FinishedOperators(run: Run, mid: State, linked: State, s: State)
    requires RunInRange(run, |mid.tickets|) && |linked.tickets| == |mid.tickets|
    requires OperatorInvariant(run, mid, linked, s, |run.operatorAt|)
    ensures Agrees(s.ledger) && OneEventPerOperatorPayment(s.ledger) && Authentic(s.ledger)
  {
    hide LinkDone, Named, OperatorApply, OperatorVerdict, PriorEvents, LinkedOrUnmatched, PaymentFields;
    forall k | k in s.ledger.evidence && k.PaymentKey?
      ensures exists e :: OnlyEvent(s.ledger, k, e)
      ensures forall e :: e in s.ledger.events && e.evidence == k ==>
                SaysEntry(s.ledger.events[e], k.payment.of)
    {
      assert FromOperator(run, k, |run.operatorAt|);
      var i :| 0 <= i < |run.operatorAt| && i < |run.anchors.operatorPayments| && k == PaymentKey(Sha(run.anchors.operatorPayments[i]));
      assert OperatorDone(run, mid, s, i);
      var e :| DoneBy(run, mid, s, i, e);
    }
  }

  // ---------- Settled is absorbing ----------

  lemma SettledStays(run: Run, tickets: seq<TicketState>, j: nat)
    requires run.anchors.schema != 1 && RunOk(run, tickets) && Succeeds(run, tickets)
    requires j < |tickets| && tickets[j].live.workflow == Settled
    ensures AfterAll(run, tickets).tickets[j].live.workflow == Settled
  {
    hide OperatorUpTo, LinksUpTo, ReviewsUpTo, MailsUpTo, LanesOk, TextsOk, LinkUntouched, OperatorInvariant, Outcome, OperatorDone;
    RunFacts(run, tickets);
    var mid, linked, s := AfterReviews(run, tickets), AfterLinks(run, tickets), AfterAll(run, tickets);
    assert KeepsPayment(tickets[j], mid.tickets[j]);
    if s.tickets[j] != mid.tickets[j] {
      var i, viaLink := WhoMoved(run, mid, linked, s, j);
      if viaLink {
        var b :| b in BoundAt(run, i) && b.ticket == j;
        LinkMovesToSettled(run, mid, s, i, b);
      } else {
        OperatorKeepsSettled(run, mid, s, i);
      }
    }
  }

  lemma LinkMovesToSettled(run: Run, mid: State, s: State, i: nat, b: Bound)
    requires RunInRange(run, |mid.tickets|) && MailAt(run, i) && |s.tickets| == |mid.tickets|
    requires run.paymentIds[i] in run.links.payments && b in BoundAt(run, i) && BoundInRange(mid, BoundAt(run, i))
    requires Outcome(run, mid, s, LinkedMail(run, i), BoundAt(run, i))
    ensures s.tickets[b.ticket] == mid.tickets[b.ticket] || s.tickets[b.ticket].live.workflow == Settled
  {
    hide Judge, Blocks, PaymentFor;
  }

  lemma OperatorKeepsSettled(run: Run, mid: State, s: State, i: nat)
    requires RunInRange(run, |mid.tickets|) && i < |run.operatorAt| && |s.tickets| == |mid.tickets|
    requires OperatorDone(run, mid, s, i) && mid.tickets[run.operatorAt[i]].live.workflow == Settled
    ensures s.tickets[run.operatorAt[i]].live.workflow == Settled
  {
    hide OnlyEvent, OperatorVerdict, PriorEvents;
    var e :| DoneBy(run, mid, s, i, e);
  }

  // ---------- The loader's checks on recorded payments ----------

  /** An earlier recorded payment of entry `i`, which the run replays without looking at the total. */
  ghost predicate Replays(run: Run, i: nat) {
    i < |run.anchors.operatorPayments| &&
    exists k :: k in PriorEvents(run, run.anchors.operatorPayments[i]) && k.kind == PaymentRecorded
  }

  /** The ticket and the lane entry behind one recorded payment of a finished run. */
  ghost predicate Backed(run: Run, mid: State, s: State, e: EventKey, j: nat, exact: bool)
    requires RunInRange(run, |mid.tickets|) && |s.tickets| == |mid.tickets|
  {
    && e in s.ledger.events && j < |mid.tickets| && RecordedTarget(s.ledger.events[e], s.tickets[j])
    && Tickets.Payable(s.tickets[j].items) == Tickets.Payable(mid.tickets[j].items)
    && (exact ==> s.ledger.events[e].cents == Some(Tickets.Payable(s.tickets[j].items)))
    && (!exact ==> exists i :: 0 <= i < |run.operatorAt| && run.operatorAt[i] == j && Replays(run, i)
                              && s.ledger.events[e].cents == Some(run.anchors.operatorPayments[i].cents))
  }

  /** Every recorded payment targets a settled, approved, paid ticket with its date and confirmation;
      the amount is the ticket's total unless the payment is an operator entry's replay. */
  lemma RecordedIsBacked(run: Run, tickets: seq<TicketState>, e: EventKey) returns (j: nat, exact: bool)
    requires run.anchors.schema != 1 && RunOk(run, tickets) && Succeeds(run, tickets)
    requires e in AfterAll(run, tickets).ledger.events && e.kind == PaymentRecorded
    ensures Backed(run, AfterReviews(run, tickets), AfterAll(run, tickets), e, j, exact)
  {
    hide OperatorUpTo, LinksUpTo, ReviewsUpTo, MailsUpTo, LanesOk, TextsOk, LinkUntouched, LinkDone, OperatorDone, Sources,
         LinkNames, OperatorNames, Authentic, PaymentFields, LinkedOrUnmatched, LanesKept, Backed, AllKeep;
    RunFacts(run, tickets);
    var mid, linked, s := AfterReviews(run, tickets), AfterLinks(run, tickets), AfterAll(run, tickets);
    KeysKept(tickets, mid.tickets);
    var v := s.ledger.events[e];
    assert v.Key() == e;
    assert Named(run, mid, v, |run.paymentIds|, |run.operatorAt|);
    if i :| 0 <= i < |run.paymentIds| && LinkNames(run, mid, v, i) {
      assert LinkDone(run, mid, s, i);
      j := LinkBacks(run, mid, s, e, i);
      exact := true;
    } else {
      var i :| 0 <= i < |run.operatorAt| && OperatorNames(run, mid, v, i);
      assert OperatorDone(run, mid, s, i);
      j, exact := OperatorBacks(run, mid, s, e, i);
    }
  }

  lemma LinkBacks(run: Run, mid: State, s: State, e: EventKey, i: nat) returns (j: nat)
    requires RunInRange(run, |mid.tickets|) && KeysDistinct(mid.tickets) && |s.tickets| == |mid.tickets|
    requires e in s.ledger.events && e.kind == PaymentRecorded && s.ledger.events[e].Key() == e
    requires i < |run.paymentIds| && LinkNames(run, mid, s.ledger.events[e], i) && LinkDone(run, mid, s, i)
    ensures Backed(run, mid, s, e, j, true)
  {
    hide Outcome, LinkAuthority, Tickets.Payable, PaymentFor, KeysDistinct, OnlyPaid, HeldAs;
    PaymentIdLinked(run, |mid.tickets|, i);
    var m, v := LinkedMail(run, i), s.ledger.events[e];
    OutcomeIsAllOrNothing(run, mid, s, i);
    assert !GroupHeldBack(run, mid, s, i);
    var ps :| GroupSettled(run, mid, s, i, ps);
    var b :| b in BoundAt(run, i) && b.ticket < |mid.tickets| && v.ticket == KeyOf(mid, b.ticket) && Sha(v.reference) == b.reference;
    j := b.ticket;
    BoundBacks(run, mid, s, e, i, ps, b);
  }

  /** The bound ticket of a settled group is what its recorded event rests on. */
  lemma BoundBacks(run: Run, mid: State, s: State, e: EventKey, i: nat, ps: seq<PaymentText>, b: Bound)
    requires RunInRange(run, |mid.tickets|) && KeysDistinct(mid.tickets) && |s.tickets| == |mid.tickets|
    requires e in s.ledger.events && e.kind == PaymentRecorded && s.ledger.events[e].Key() == e
    requires i < |run.paymentIds| && MailAt(run, i) && run.paymentIds[i] in run.links.payments
    requires BoundInRange(mid, BoundAt(run, i)) && GroupSettled(run, mid, s, i, ps)
    requires b in BoundAt(run, i) && s.ledger.events[e].evidence == MailKey(LinkedMail(run, i).key)
    requires s.ledger.events[e].ticket == KeyOf(mid, b.ticket) && Sha(s.ledger.events[e].reference) == b.reference
    ensures Backed(run, mid, s, e, b.ticket, true)
  {
    hide LinkAuthority, Tickets.Payable, PaymentFor, KeysDistinct, RunInRange, Exact, OnlyPaid;
    var m, t, p := LinkedMail(run, i), mid.tickets[b.ticket], PaymentFor(ps, b.reference);
    assert RecordedEvent(m, t, p).Key() == e;
    SettlementKeepsTotal(t, m.on, p.cents, p.reference);
  }

  lemma OperatorBacks(run: Run, mid: State, s: State, e: EventKey, i: nat) returns (j: nat, exact: bool)
    requires RunInRange(run, |mid.tickets|) && |s.tickets| == |mid.tickets|
    requires e in s.ledger.events && e.kind == PaymentRecorded && s.ledger.events[e].Key() == e
    requires i < |run.operatorAt| && OperatorNames(run, mid, s.ledger.events[e], i) && OperatorDone(run, mid, s, i)
    ensures Backed(run, mid, s, e, j, exact) && j == run.operatorAt[i]
    ensures exact <==> PriorEvents(run, run.anchors.operatorPayments[i]) == {}
  {
    var p := run.anchors.operatorPayments[i];
    var d :| DoneBy(run, mid, s, i, d);
    assert d == e;
    j := run.operatorAt[i];
    exact := PriorEvents(run, p) == {};
    SettlementKeepsTotal(mid.tickets[j], Some(p.date), p.cents, p.reference);
    if !exact {
      assert e in PriorEvents(run, p);
      assert Replays(run, i);
    }
  }

  /** The finished run passes the loader's recorded-payment checks exactly when every replayed operator
      payment still equals what its ticket owes by the input items and their reviews. */
  lemma RecordedTargetsExactly(run: Run, tickets: seq<TicketState>)
    requires run.anchors.schema != 1 && RunOk(run, tickets) && Succeeds(run, tickets)
    ensures var s := AfterAll(run, tickets);
            RecordedTargets(s.ledger, s.tickets) <==>
            forall i :: 0 <= i < |run.operatorAt| && Replays(run, i) ==>
              run.anchors.operatorPayments[i].cents == Owed(run, tickets[run.operatorAt[i]], run.operatorAt[i])
  {
    hide OperatorUpTo, LinksUpTo, ReviewsUpTo, MailsUpTo, RunOk, Reproduces, Owed, Replays, RecordedTargets;
    RunOkInRange(run, tickets);
    OkBefore(run, tickets);
    forall i | 0 <= i < |run.operatorAt|
      ensures Owed(run, tickets[run.operatorAt[i]], run.operatorAt[i])
              == Tickets.Payable(AfterReviews(run, tickets).tickets[run.operatorAt[i]].items)
    {
      OwedBeforeLanes(run, tickets, run.operatorAt[i]);
    }
    RecordedTargetsAtMid(run, tickets);
  }

  lemma RunOkInRange(run: Run, tickets: seq<TicketState>)
    requires RunOk(run, tickets)
    ensures RunInRange(run, |tickets|)
  {
  }

  lemma RecordedTargetsAtMid(run: Run, tickets: seq<TicketState>)
    requires run.anchors.schema != 1 && RunOk(run, tickets) && Succeeds(run, tickets)
    ensures var mid, s := AfterReviews(run, tickets), AfterAll(run, tickets);
            RecordedTargets(s.ledger, s.tickets) <==>
            forall i :: 0 <= i < |run.operatorAt| && Replays(run, i) ==>
              run.anchors.operatorPayments[i].cents == Tickets.Payable(mid.tickets[run.operatorAt[i]].items)
  {
    hide OperatorUpTo, LinksUpTo, ReviewsUpTo, MailsUpTo, LanesOk, TextsOk, LinkUntouched, OperatorInvariant, AllKeep, Replays,
         RecordedTarget, Authentic, PaymentFields;
    var mid, linked, s := AfterReviews(run, tickets), AfterLinks(run, tickets), AfterAll(run, tickets);
    RunFacts(run, tickets);
    if RecordedTargets(s.ledger, s.tickets) {
      forall i | 0 <= i < |run.operatorAt| && Replays(run, i)
        ensures run.anchors.operatorPayments[i].cents == Tickets.Payable(mid.tickets[run.operatorAt[i]].items)
      {
        ReplayChecked(run, tickets, mid, linked, s, i);
      }
    }
    if forall i :: 0 <= i < |run.operatorAt| && Replays(run, i) ==>
         run.anchors.operatorPayments[i].cents == Tickets.Payable(mid.tickets[run.operatorAt[i]].items)
    {
      forall e | e in s.ledger.events && e.kind == PaymentRecorded
        ensures exists j :: 0 <= j < |s.tickets| && RecordedTarget(s.ledger.events[e], s.tickets[j])
                            && s.ledger.events[e].cents == Some(Tickets.Payable(s.tickets[j].items))
      {
        var j, exact := RecordedIsBacked(run, tickets, e);
      }
    }
  }

  lemma ReplayChecked(run: Run, tickets: seq<TicketState>, mid: State, linked: State, s: State, i: nat)
    requires RunInRange(run, |mid.tickets|) && KeysDistinct(tickets) && AllKeep(tickets, mid.tickets)
    requires |linked.tickets| == |mid.tickets| && OperatorInvariant(run, mid, linked, s, |run.operatorAt|)
    requires Reproduces(run.prev, s.ledger) && LinkUntouched(run, mid, linked, |run.paymentIds|)
    requires RecordedTargets(s.ledger, s.tickets) && i < |run.operatorAt| && Replays(run, i)
    ensures run.anchors.operatorPayments[i].cents == Tickets.Payable(mid.tickets[run.operatorAt[i]].items)
  {
    hide LinkDone, Named, Sources, OperatorVerdict, LinkedOrUnmatched, PaymentFields, LanesKept, KeysDistinct, AllKeep;
    var p, j := run.anchors.operatorPayments[i], run.operatorAt[i];
    assert OperatorDone(run, mid, s, i);
    var e :| DoneBy(run, mid, s, i, e);
    var k :| k in PriorEvents(run, p) && k.kind == PaymentRecorded;
    assert k == e;
    SettlementKeepsTotal(mid.tickets[j], Some(p.date), p.cents, p.reference);
    var x :| 0 <= x < |s.tickets| && RecordedTarget(s.ledger.events[e], s.tickets[x])
             && s.ledger.events[e].cents == Some(Tickets.Payable(s.tickets[x].items));
    SameTicket(run, tickets, mid, linked, s, x, j, e.ticket);
  }

  lemma SameTicket(run: Run, tickets: seq<TicketState>, mid: State, linked: State, s: State, x: nat, j: nat, key: string)
    requires RunInRange(run, |mid.tickets|) && KeysDistinct(tickets) && AllKeep(tickets, mid.tickets)
    requires |linked.tickets| == |mid.tickets| && OperatorInvariant(run, mid, linked, s, |run.operatorAt|)
    requires LinkUntouched(run, mid, linked, |run.paymentIds|)
    requires |s.tickets| == |mid.tickets| && x < |s.tickets| && j < |s.tickets| && s.tickets[x].head.selector.key == key && KeyOf(mid, j) == key
    ensures x == j
  {
    hide OperatorDone, LinkDone, Named, Sources, Agrees, OperatorInvariant, LinkUntouched;
    HeadsKept(run, mid, linked, s, x);
    KeysKept(tickets, mid.tickets);
  }

  /** No lane changes which ticket a position holds. */
  lemma HeadsKept(run: Run, mid: State, linked: State, s: State, j: nat)
    requires RunInRange(run, |mid.tickets|) && |linked.tickets| == |mid.tickets|
    requires LinkUntouched(run, mid, linked, |run.paymentIds|) && OperatorInvariant(run, mid, linked, s, |run.operatorAt|)
    requires |s.tickets| == |mid.tickets| && j < |mid.tickets|
    ensures s.tickets[j].head == mid.tickets[j].head
  {
    hide Outcome, OperatorDone, OperatorInvariant, LinkUntouched;
    if s.tickets[j] != mid.tickets[j] {
      var i, viaLink := WhoMoved(run, mid, linked, s, j);
      if viaLink {
        var b :| b in BoundAt(run, i) && b.ticket == j;
        LinkKeepsHead(run, mid, s, i, b);
      } else {
        OperatorKeepsHead(run, mid, s, i);
      }
    }
  }

  lemma LinkKeepsHead(run: Run, mid: State, s: State, i: nat, b: Bound)
    requires RunInRange(run, |mid.tickets|) && MailAt(run, i) && |s.tickets| == |mid.tickets|
    requires run.paymentIds[i] in run.links.payments && b in BoundAt(run, i) && BoundInRange(mid, BoundAt(run, i))
    requires Outcome(run, mid, s, LinkedMail(run, i), BoundAt(run, i))
    ensures s.tickets[b.ticket].head == mid.tickets[b.ticket].head
  {
    hide Judge, Blocks, PaymentFor;
  }

  lemma OperatorKeepsHead(run: Run, mid: State, s: State, i: nat)
    requires RunInRange(run, |mid.tickets|) && i < |run.operatorAt| && |s.tickets| == |mid.tickets|
    requires OperatorDone(run, mid, s, i)
    ensures s.tickets[run.operatorAt[i]].head == mid.tickets[run.operatorAt[i]].head
  {
    hide OnlyEvent, OperatorVerdict, PriorEvents;
    var e :| DoneBy(run, mid, s, i, e);
  }
}
