/** The main theorems about one successful run under schema-2 anchors. */
module Settlement {
  import opened Common
  import opened Tickets
  import opened Ledgers
  import opened Ancestry
  import opened ReducerSpec
  import opened LedgerSteps
  import opened ReducerSteps
  import opened PaymentSteps
  import opened Runs
  import opened LinkLane
  import opened OperatorLane
  import opened RunPhases
  import opened RunTheorems
  import opened TicketLaws

  /** The facts of a finished run that every theorem below starts from. */
  lemma RunFacts(run: Run, tickets: seq<TicketState>)
    requires run.anchors.schema != 1 && RunOk(run, tickets) && Succeeds(run, tickets)
    ensures var mid, linked, s := AfterReviews(run, tickets), AfterLinks(run, tickets), AfterAll(run, tickets);
            && AllKeep(tickets, mid.tickets)
            && LinkUntouched(run, mid, linked, |run.paymentIds|)
            && OperatorInvariant(run, mid, linked, s, |run.operatorAt|)
  {
    hide OperatorUpTo, LinksUpTo, ReviewsUpTo, MailsUpTo, LanesOk, TextsOk, OperatorInvariant, LinkUntouched, AllKeep;
    OperatorPhase(run, tickets, |run.operatorAt|);
    OkBefore(run, tickets);
    ReviewPhase(run, tickets, |run.reviewAt|);
  }

  lemma OkBefore(run: Run, tickets: seq<TicketState>)
    requires RunInRange(run, |tickets|) && AfterAll(run, tickets).ok
    ensures AfterLinks(run, tickets).ok && AfterReviews(run, tickets).ok
  {
  }

  // ---------- One payment per ticket, one ticket per reference ----------

  lemma LinkNamesAgree(run: Run, mid: State, e: Event, f: Event, i: nat, j: nat)
    requires RunInRange(run, |mid.tickets|) && LanesOk(run) && KeysDistinct(mid.tickets)
    requires LinkNames(run, mid, e, i) && LinkNames(run, mid, f, j)
    requires e.ticket == f.ticket || e.reference == f.reference
    ensures i == j && e.evidence == f.evidence && e.ticket == f.ticket
  {
    hide LanesOk;
    var b :| b in BoundAt(run, i) && b.ticket < |mid.tickets| && e.ticket == KeyOf(mid, b.ticket) && Sha(e.reference) == b.reference;
    var c :| c in BoundAt(run, j) && c.ticket < |mid.tickets| && f.ticket == KeyOf(mid, c.ticket) && Sha(f.reference) == c.reference;
    if i != j {
      LinksDisjoint(run, |mid.tickets|, i, j, b, c);
      assert false;
    }
    SameBinding(run, run.paymentIds[i], b, c);
  }

  lemma SameBinding(run: Run, id: MessageId, b: Bound, c: Bound)
    requires LanesOk(run) && id in run.links.payments && b in run.links.payments[id] && c in run.links.payments[id]
    requires b.ticket == c.ticket || b.reference == c.reference
    ensures b == c
  {
    var x :| 0 <= x < |run.links.payments[id]| && run.links.payments[id][x] == b;
    var y :| 0 <= y < |run.links.payments[id]| && run.links.payments[id][y] == c;
    assert x == y;
  }

  lemma OperatorNamesAgree(run: Run, mid: State, e: Event, f: Event, i: nat, j: nat)
    requires RunInRange(run, |mid.tickets|) && LanesOk(run) && KeysDistinct(mid.tickets)
    requires OperatorNames(run, mid, e, i) && OperatorNames(run, mid, f, j)
    requires e.ticket == f.ticket || e.reference == f.reference
    ensures i == j && e.evidence == f.evidence && e.ticket == f.ticket
  {
  }

  lemma LanesDoNotMeet(run: Run, mid: State, e: Event, f: Event, i: nat, j: nat)
    requires RunInRange(run, |mid.tickets|) && LanesOk(run) && KeysDistinct(mid.tickets)
    requires LinkNames(run, mid, e, i) && OperatorNames(run, mid, f, j)
    ensures e.ticket != f.ticket && e.reference != f.reference
  {
    hide LanesOk;
    var b :| b in BoundAt(run, i) && b.ticket < |mid.tickets| && e.ticket == KeyOf(mid, b.ticket) && Sha(e.reference) == b.reference;
    OperatorUnlinked(run, |mid.tickets|, j, i, b);
  }

  lemma KeysKept(a: seq<TicketState>, b: seq<TicketState>)
    requires KeysDistinct(a) && AllKeep(a, b)
    ensures KeysDistinct(b)
  {
  }

  /** No ticket has two recorded payments, and no reference pays two tickets. */
  lemma OnePayment(run: Run, tickets: seq<TicketState>, e: EventKey, f: EventKey)
    requires run.anchors.schema != 1 && RunOk(run, tickets) && Succeeds(run, tickets)
    requires var l := AfterAll(run, tickets).ledger;
             e in l.events && f in l.events && e.kind == PaymentRecorded && f.kind == PaymentRecorded
             && (e.ticket == f.ticket || l.events[e].reference == l.events[f].reference)
    ensures e == f
  {
    hide OperatorUpTo, LinksUpTo, ReviewsUpTo, MailsUpTo, LanesOk, TextsOk, LinkUntouched, LinkDone, OperatorDone, Sources,
         LinkNames, OperatorNames, Authentic, PaymentFields, LinkedOrUnmatched, LanesKept;
    RunFacts(run, tickets);
    var mid, s := AfterReviews(run, tickets), AfterAll(run, tickets);
    KeysKept(tickets, mid.tickets);
    var x, y := s.ledger.events[e], s.ledger.events[f];
    assert x.Key() == e && y.Key() == f;
    assert Named(run, mid, x, |run.paymentIds|, |run.operatorAt|) && Named(run, mid, y, |run.paymentIds|, |run.operatorAt|);
    if i :| 0 <= i < |run.paymentIds| && LinkNames(run, mid, x, i) {
      if j :| 0 <= j < |run.paymentIds| && LinkNames(run, mid, y, j) {
        LinkNamesAgree(run, mid, x, y, i, j);
      } else {
        var j :| 0 <= j < |run.operatorAt| && OperatorNames(run, mid, y, j);
        LanesDoNotMeet(run, mid, x, y, i, j);
        assert false;
      }
    } else {
      var i :| 0 <= i < |run.operatorAt| && OperatorNames(run, mid, x, i);
      if j :| 0 <= j < |run.paymentIds| && LinkNames(run, mid, y, j) {
        LanesDoNotMeet(run, mid, y, x, j, i);
        assert false;
      } else {
        var j :| 0 <= j < |run.operatorAt| && OperatorNames(run, mid, y, j);
        OperatorNamesAgree(run, mid, x, y, i, j);
      }
    }
  }

  // ---------- Payment groups ----------

  /** What a linked mail must be before it may settle anything. */
  ghost predicate LinkAuthority(run: Run, i: nat)
    requires MailAt(run, i) && run.paymentIds[i] in run.links.payments
  {
    var m := LinkedMail(run, i);
    && m.sender in run.anchors.paymentOperators
    && InTime(run, m)
    && !Conflicts(Resolutions(run.links, Parents(m)), BoundAt(run, i))
  }

  /** Every bound ticket was approved, unpaid-or-replayed and owed exactly the paid amount, and is settled. */
  ghost predicate GroupSettled(run: Run, mid: State, s: State, i: nat, ps: seq<PaymentText>)
    requires RunInRange(run, |mid.tickets|) && MailAt(run, i) && |s.tickets| == |mid.tickets|
    requires run.paymentIds[i] in run.links.payments && BoundInRange(mid, BoundAt(run, i))
  {
    var m := LinkedMail(run, i);
    LinkAuthority(run, i) && |ps| == |BoundAt(run, i)| && OnlyPaid(run, mid, s, m, BoundAt(run, i), ps)
    && forall b :: b in BoundAt(run, i) ==>
         var t, p := mid.tickets[b.ticket], PaymentFor(ps, b.reference);
         && Sha(p.reference) == b.reference
         && IsApproved(t) && IsZelle(t.head.payMethod) && p.cents == Tickets.Payable(t.items)
         && (SettledOrPaid(t) ==> Exact(run, RecordedEvent(m, t, p)))
         && s.tickets[b.ticket] == Settle(m, t, p) && s.tickets[b.ticket].live.workflow == Settled
         && RecordedEvent(m, t, p).Key() in s.ledger.events
         && s.ledger.events[RecordedEvent(m, t, p).Key()] == RecordedEvent(m, t, p)
  }

  /** No bound ticket moved: the mail is set aside without an event, or its events are one discrepancy or
      quarantine of each bound ticket and their replayed companions. */
  ghost predicate GroupHeldBack(run: Run, mid: State, s: State, i: nat)
    requires RunInRange(run, |mid.tickets|) && MailAt(run, i) && |s.tickets| == |mid.tickets|
    requires run.paymentIds[i] in run.links.payments && BoundInRange(mid, BoundAt(run, i))
  {
    var m := LinkedMail(run, i);
    && NonePaid(mid, s, m, BoundAt(run, i))
    && (SetAside(s, m) || exists ps :: HeldAs(run, mid, s, m, BoundAt(run, i), ps))
  }

  /** The blocks `ps` were read, each for a bound reference, and one of them is off its ticket's total. */
  ghost predicate HeldAs(run: Run, mid: State, s: State, m: Mail, bound: seq<Bound>, ps: seq<PaymentText>)
    requires BoundInRange(mid, bound)
  {
    && AllHeld(s, mid, m, bound, ps) && OnlyHeld(run, mid, s, m, bound, ps)
    && (forall b :: b in bound ==> Sha(PaymentFor(ps, b.reference).reference) == b.reference)
    && (exists b :: b in bound && PaymentFor(ps, b.reference).cents != Tickets.Payable(mid.tickets[b.ticket].items))
  }

  /** Each payment link settles every bound ticket or changes none of them. */
  lemma GroupAllOrNothing(run: Run, tickets: seq<TicketState>, i: nat)
    requires run.anchors.schema != 1 && RunOk(run, tickets) && Succeeds(run, tickets)
    requires MailAt(run, i) && run.paymentIds[i] in run.links.payments
    ensures var mid, s := AfterReviews(run, tickets), AfterAll(run, tickets);
            BoundInRange(mid, BoundAt(run, i))
            && ((exists ps :: GroupSettled(run, mid, s, i, ps)) || GroupHeldBack(run, mid, s, i))
  {
    hide OperatorUpTo, LinksUpTo, ReviewsUpTo, MailsUpTo, LanesOk, TextsOk, LinkUntouched, OperatorDone, Sources, Named,
         Agrees, Authentic, PaymentFields, Outcome, AllKeep;
    RunFacts(run, tickets);
    var mid, s := AfterReviews(run, tickets), AfterAll(run, tickets);
    PaymentIdLinked(run, |tickets|, i);
    assert LinkDone(run, mid, s, i);
    OutcomeIsAllOrNothing(run, mid, s, i);
  }

  lemma OutcomeIsAllOrNothing(run: Run, mid: State, s: State, i: nat)
    requires RunInRange(run, |mid.tickets|) && MailAt(run, i) && |s.tickets| == |mid.tickets|
    requires run.paymentIds[i] in run.links.payments && BoundInRange(mid, BoundAt(run, i))
    requires Outcome(run, mid, s, LinkedMail(run, i), BoundAt(run, i))
    ensures (exists ps :: GroupSettled(run, mid, s, i, ps)) || GroupHeldBack(run, mid, s, i)
    ensures Judge(run, mid, LinkedMail(run, i), BoundAt(run, i)) == Verdict.Payable ==>
              exists ps :: GroupSettled(run, mid, s, i, ps)
  {
    hide Judge, Blocks, AllHeld, OnlyHeld, AllPaid, OnlyPaid, HeldAs, GroupSettled, NonePaid, SetAside;
    match Judge(run, mid, LinkedMail(run, i), BoundAt(run, i)) {
      case Rejected =>
      case Held => HeldOutcome(run, mid, s, i);
      case Payable => PaidOutcome(run, mid, s, i);
    }
  }

  /** Each bound ticket of a judged group has the block of its own reference. */
  lemma BlocksNamed(run: Run, mid: State, m: Mail, bound: seq<Bound>)
    requires BoundInRange(mid, bound) && Judge(run, mid, m, bound) != Rejected
    ensures Blocks(run, mid, m, bound).Some?
    ensures forall b :: b in bound ==> Sha(PaymentFor(Blocks(run, mid, m, bound).value, b.reference).reference) == b.reference
  {
    JudgedReadable(run, mid, m, bound);
    hide Judge, Blocks, Eligible, PaymentFor;
    var parsed := Blocks(run, mid, m, bound);
    forall b | b in bound ensures Sha(PaymentFor(parsed.value, b.reference).reference) == b.reference {
      ReadableCovers(run, m, bound, parsed, b);
    }
  }

  lemma HeldOutcome(run: Run, mid: State, s: State, i: nat)
    requires RunInRange(run, |mid.tickets|) && MailAt(run, i) && |s.tickets| == |mid.tickets|
    requires run.paymentIds[i] in run.links.payments && BoundInRange(mid, BoundAt(run, i))
    requires Outcome(run, mid, s, LinkedMail(run, i), BoundAt(run, i))
    requires Judge(run, mid, LinkedMail(run, i), BoundAt(run, i)) == Held
    ensures GroupHeldBack(run, mid, s, i)
  {
    hide Judge, Blocks, AllHeld, OnlyHeld, NonePaid, PaymentFor, Tickets.Payable;
    var m, bound := LinkedMail(run, i), BoundAt(run, i);
    BlocksNamed(run, mid, m, bound);
    HeldIsOff(run, mid, m, bound);
    assert HeldAs(run, mid, s, m, bound, Blocks(run, mid, m, bound).value);
  }

  lemma PaidOutcome(run: Run, mid: State, s: State, i: nat)
    requires RunInRange(run, |mid.tickets|) && MailAt(run, i) && |s.tickets| == |mid.tickets|
    requires run.paymentIds[i] in run.links.payments && BoundInRange(mid, BoundAt(run, i))
    requires Outcome(run, mid, s, LinkedMail(run, i), BoundAt(run, i))
    requires Judge(run, mid, LinkedMail(run, i), BoundAt(run, i)) == Verdict.Payable
    ensures GroupSettled(run, mid, s, i, Blocks(run, mid, LinkedMail(run, i), BoundAt(run, i)).value)
  {
    hide Judge, Blocks, OnlyPaid, GroupReadable, PaymentFor, LinkAuthority, Tickets.Payable, UsesLegacy, Settle, RecordedEvent;
    var m, bound := LinkedMail(run, i), BoundAt(run, i);
    BlocksNamed(run, mid, m, bound);
    JudgedReadable(run, mid, m, bound);
    ReadableMeans(run, i, Blocks(run, mid, m, bound));
    SettlingSettles(m);
  }

  lemma SettlingSettles(m: Mail)
    ensures forall t, p :: Settle(m, t, p).live.workflow == Settled
  {
  }

  lemma HeldIsOff(run: Run, mid: State, m: Mail, bound: seq<Bound>)
    requires BoundInRange(mid, bound) && Judge(run, mid, m, bound) == Held
    ensures exists b :: b in bound && PaymentFor(Blocks(run, mid, m, bound).value, b.reference).cents
                                      != Tickets.Payable(mid.tickets[b.ticket].items)
  {
    hide GroupReadable, Eligible, PaymentFor, ParsedBlocks, UsesLegacy, Tickets.Payable;
  }

  lemma ReadableMeans(run: Run, i: nat, parsed: Option<seq<PaymentText>>)
    requires MailAt(run, i) && run.paymentIds[i] in run.links.payments
    requires GroupReadable(run, LinkedMail(run, i), BoundAt(run, i), parsed)
    ensures LinkAuthority(run, i) && |parsed.value| == |BoundAt(run, i)|
  {
    hide Conflicts, Resolutions;
  }

  // ---------- Settlement soundness ----------

  lemma {:induction false} SettlementKeepsTotal(t: TicketState, on: Option<Day>, cents: nat, reference: string)
    ensures Tickets.Payable(PaymentApplied(t, on, cents, reference).items) == Tickets.Payable(t.items)
  {
    PayableKept(t.items, Mark(t.items, A));
  }

  /** A ticket settled by `e`: approved, unpaid and owed exactly that, in time, on due authority. */
  ghost predicate SettledBy(run: Run, mid: State, s: State, j: nat, e: EventKey)
    requires RunInRange(run, |mid.tickets|) && |s.tickets| == |mid.tickets| && j < |mid.tickets|
  {
    var t := mid.tickets[j];
    && e in s.ledger.events && e.kind == PaymentRecorded && e.ticket == KeyOf(mid, j)
    && var v := s.ledger.events[e];
       && IsApproved(t) && t.live.payment == NotPaid
       && v.cents == Some(Tickets.Payable(t.items)) && Tickets.Payable(s.tickets[j].items) == Tickets.Payable(t.items)
       && v.on.Some? && v.on.value <= run.asOf
       && s.tickets[j] == PaymentApplied(t, v.on, v.cents.value, v.reference)
       && ((exists i :: OnLink(run, mid, j, i)) || (exists i :: OnOperator(run, j, i, e)))
  }

  ghost predicate OnOperator(run: Run, j: nat, i: nat, e: EventKey) {
    && i < |run.operatorAt| && i < |run.anchors.operatorPayments| && run.operatorAt[i] == j
    && e.evidence == PaymentKey(Sha(run.anchors.operatorPayments[i]))
  }

  ghost predicate OnLink(run: Run, mid: State, j: nat, i: nat)
    requires RunInRange(run, |mid.tickets|) && j < |mid.tickets|
  {
    && MailAt(run, i) && run.paymentIds[i] in run.links.payments
    && (exists b :: b in BoundAt(run, i) && b.ticket == j)
    && LinkAuthority(run, i) && IsZelle(mid.tickets[j].head.payMethod)
  }

  /** A recorded payment in the earlier ledger means its ticket was already settled. */
  lemma RecordedMeansSettled(run: Run, tickets: seq<TicketState>, mid: State, j: nat, e: EventKey)
    requires KeysDistinct(tickets) && AllKeep(tickets, mid.tickets) && j < |tickets|
    requires RecordedTargets(run.prev, tickets)
    requires e in run.prev.events && run.prev.events[e].Key() == e && e.kind == PaymentRecorded && e.ticket == KeyOf(mid, j)
    ensures tickets[j].live.workflow == Settled
  {
    var i :| 0 <= i < |tickets| && RecordedTarget(run.prev.events[e], tickets[i])
             && run.prev.events[e].cents == Some(Tickets.Payable(tickets[i].items));
    assert i == j;
  }

  /** A ticket that a run takes from open to settled was approved, every item A, not already paid,
      and paid exactly its payable total, by a payment dated no later than the report. */
  lemma SettlementSound(run: Run, tickets: seq<TicketState>, j: nat)
    requires run.anchors.schema != 1 && RunOk(run, tickets) && Succeeds(run, tickets)
    requires RecordedTargets(run.prev, tickets) && EventsMatchEvidence(run.prev)
    requires j < |tickets| && tickets[j].live.workflow == Active
    requires AfterAll(run, tickets).tickets[j].live.workflow == Settled
    ensures var mid, s := AfterReviews(run, tickets), AfterAll(run, tickets);
            exists e :: SettledBy(run, mid, s, j, e)
  {
    hide OperatorUpTo, LinksUpTo, ReviewsUpTo, MailsUpTo, LanesOk, TextsOk, Authentic, PaymentFields, SettledBy,
         RecordedTargets, EventsMatchEvidence, OperatorInvariant, LinkUntouched;
    RunFacts(run, tickets);
    var mid, linked, s := AfterReviews(run, tickets), AfterLinks(run, tickets), AfterAll(run, tickets);
    assert KeepsPayment(tickets[j], mid.tickets[j]);
    var i, viaLink := WhoMoved(run, mid, linked, s, j);
    if viaLink {
      var b :| b in BoundAt(run, i) && b.ticket == j;
      SettledByLink(run, tickets, mid, s, j, i, b);
    } else {
      SettledByOperator(run, tickets, mid, s, j, i);
    }
  }

  /** A ticket that differs from its state before the payment lanes was reached by one lane entry. */
  lemma WhoMoved(run: Run, mid: State, linked: State, s: State, j: nat) returns (i: nat, viaLink: bool)
    requires RunInRange(run, |mid.tickets|) && |linked.tickets| == |mid.tickets|
    requires LinkUntouched(run, mid, linked, |run.paymentIds|) && OperatorInvariant(run, mid, linked, s, |run.operatorAt|)
    requires j < |mid.tickets| && s.tickets[j] != mid.tickets[j]
    ensures viaLink ==>
              && MailAt(run, i) && run.paymentIds[i] in run.links.payments
              && (exists b :: b in BoundAt(run, i) && b.ticket == j)
              && BoundInRange(mid, BoundAt(run, i)) && BoundInRange(s, BoundAt(run, i))
              && Outcome(run, mid, s, LinkedMail(run, i), BoundAt(run, i))
    ensures !viaLink ==> i < |run.operatorAt| && run.operatorAt[i] == j && OperatorDone(run, mid, s, i)
  {
    hide Agrees, Sources, Named, Outcome, OperatorDone;
    viaLink := s.tickets[j] == linked.tickets[j];
    if viaLink {
      var x, b :| 0 <= x < |run.paymentIds| && MailAt(run, x) && run.paymentIds[x] in run.links.payments
                  && b in BoundAt(run, x) && b.ticket == j;
      i := x;
      PaymentIdLinked(run, |mid.tickets|, i);
      assert LinkDone(run, mid, s, i);
    } else {
      var x :| 0 <= x < |run.operatorAt| && run.operatorAt[x] == j;
      i := x;
    }
  }

  lemma SettledByOperator(run: Run, tickets: seq<TicketState>, mid: State, s: State, j: nat, i: nat)
    requires RunInRange(run, |mid.tickets|) && KeysDistinct(tickets) && AllKeep(tickets, mid.tickets)
    requires RecordedTargets(run.prev, tickets) && EventsMatchEvidence(run.prev)
    requires |s.tickets| == |mid.tickets| && j < |tickets| && i < |run.operatorAt| && run.operatorAt[i] == j
    requires OperatorDone(run, mid, s, i)
    requires tickets[j].live.workflow == Active && s.tickets[j].live.workflow == Settled
    ensures exists e :: SettledBy(run, mid, s, j, e)
  {
    var p, t := run.anchors.operatorPayments[i], mid.tickets[j];
    var e :| DoneBy(run, mid, s, i, e);
    assert KeepsPayment(tickets[j], t);
    assert e.kind == PaymentRecorded;
    if PriorEvents(run, p) != {} {
      RecordedMeansSettled(run, tickets, mid, j, e);
      assert false;
    }
    SettlementKeepsTotal(t, Some(p.date), p.cents, p.reference);
    assert OnOperator(run, j, i, e);
    assert SettledBy(run, mid, s, j, e);
  }

  lemma SettledByLink(run: Run, tickets: seq<TicketState>, mid: State, s: State, j: nat, i: nat, b: Bound)
    requires RunInRange(run, |mid.tickets|) && KeysDistinct(tickets) && AllKeep(tickets, mid.tickets)
    requires RecordedTargets(run.prev, tickets) && EventsMatchEvidence(run.prev)
    requires |s.tickets| == |mid.tickets| && j < |tickets|
    requires MailAt(run, i) && run.paymentIds[i] in run.links.payments && b in BoundAt(run, i) && b.ticket == j
    requires BoundInRange(mid, BoundAt(run, i)) && Outcome(run, mid, s, LinkedMail(run, i), BoundAt(run, i))
    requires tickets[j].live.workflow == Active && s.tickets[j].live.workflow == Settled
    ensures exists e :: SettledBy(run, mid, s, j, e)
  {
    hide Outcome, RecordedTargets, EventsMatchEvidence, LinkAuthority, Tickets.Payable, PaymentFor, OnlyPaid, HeldAs, AllKeep, KeysDistinct, SettledBy;
    var m, t := LinkedMail(run, i), mid.tickets[j];
    assert KeepsPayment(tickets[j], t) by {
      KeptAt(tickets, mid.tickets, j);
    }
    OutcomeIsAllOrNothing(run, mid, s, i);
    assert !GroupHeldBack(run, mid, s, i);
    var ps :| GroupSettled(run, mid, s, i, ps);
    PaidByLink(run, tickets, mid, s, j, i, b, ps);
  }

  lemma KeptAt(a: seq<TicketState>, b: seq<TicketState>, j: nat)
    requires AllKeep(a, b) && j < |a|
    ensures KeepsPayment(a[j], b[j])
  {
  }

  lemma PaidByLink(run: Run, tickets: seq<TicketState>, mid: State, s: State, j: nat, i: nat, b: Bound, ps: seq<PaymentText>)
    requires RunInRange(run, |mid.tickets|) && KeysDistinct(tickets) && AllKeep(tickets, mid.tickets)
    requires RecordedTargets(run.prev, tickets) && EventsMatchEvidence(run.prev)
    requires |s.tickets| == |mid.tickets| && j < |tickets|
    requires MailAt(run, i) && run.paymentIds[i] in run.links.payments && b in BoundAt(run, i) && b.ticket == j
    requires BoundInRange(mid, BoundAt(run, i)) && GroupSettled(run, mid, s, i, ps)
    requires tickets[j].live.workflow == Active
    ensures exists e :: SettledBy(run, mid, s, j, e)
  {
    hide RecordedTargets, LinkAuthority, Tickets.Payable, PaymentFor, OnlyPaid, AllKeep, KeysDistinct;
    var m, t := LinkedMail(run, i), mid.tickets[j];
    KeptAt(tickets, mid.tickets, j);
    var p := PaymentFor(ps, b.reference);
    var e := RecordedEvent(m, t, p).Key();
    if SettledOrPaid(t) {
      RecordedMeansSettled(run, tickets, mid, j, e);
      assert false;
    }
    SettlementKeepsTotal(t, m.on, p.cents, p.reference);
    AuthorityInTime(run, i);
    assert OnLink(run, mid, j, i);
    assert SettledBy(run, mid, s, j, e);
  }

  lemma AuthorityInTime(run: Run, i: nat)
    requires MailAt(run, i) && run.paymentIds[i] in run.links.payments && LinkAuthority(run, i)
    ensures LinkedMail(run, i).on.Some? && LinkedMail(run, i).on.value <= run.asOf
  {
  }
}
