/** The later phases of a run, each keeping what the earlier ones established. */
module RunPhases {
  import opened Common
  import opened Tickets
  import opened Ledgers
  import opened Ancestry
  import opened ReducerSpec
  import opened LedgerSteps
  import opened ReducerSteps
  import opened PaymentSteps
  import opened Runs
  import opened LinkLane
  import opened OperatorLane

  // ---------- Where a ledger's evidence comes from ----------

  ghost predicate FromMail(run: Run, k: EvidenceKey) {
    exists i :: 0 <= i < |run.mails| && k == MailKey(run.mails[i].key) && !IsAnchor(run, run.mails[i])
  }

  ghost predicate FromReview(run: Run, k: EvidenceKey, n: nat) {
    exists i :: 0 <= i < n && i < |run.anchors.reviews| && k == ReviewKey(Sha(run.anchors.reviews[i]))
  }

  ghost predicate FromLink(run: Run, k: EvidenceKey, n: nat) {
    exists i :: 0 <= i < n && i < |run.paymentIds| && run.paymentIds[i] in run.links.mails
                && k == MailKey(run.links.mails[run.paymentIds[i]].key)
  }

  ghost predicate FromOperator(run: Run, k: EvidenceKey, n: nat) {
    exists i :: 0 <= i < n && i < |run.anchors.operatorPayments| && k == PaymentKey(Sha(run.anchors.operatorPayments[i]))
  }

  ghost predicate Sources(run: Run, l: Ledger, reviews: nat, links: nat, operators: nat) {
    forall k :: k in l.evidence ==>
      FromMail(run, k) || FromReview(run, k, reviews) || FromLink(run, k, links) || FromOperator(run, k, operators)
  }

  lemma MailsAreSources(run: Run, l: Ledger)
    requires MailLedger(run, l, |run.mails|)
    ensures Agrees(l) && NoPayments(l) && Sources(run, l, 0, 0, 0)
  {
    forall k | k in l.evidence ensures FromMail(run, k) {
      var i :| 0 <= i < |run.mails| && k.key == run.mails[i].key && !IsAnchor(run, run.mails[i]);
      assert k == MailKey(run.mails[i].key);
    }
  }

  // ---------- Reviews ----------

  ghost predicate ReviewLedger(run: Run, l: Ledger, n: nat) {
    Agrees(l) && NoPayments(l) && Sources(run, l, n, 0, 0)
  }

  lemma {:induction false} ReviewPhase(run: Run, tickets: seq<TicketState>, n: nat)
    requires run.anchors.schema != 1 && RunOk(run, tickets) && n <= |run.reviewAt|
    requires ReviewsUpTo(run, AfterMails(run, tickets), n).ok
    ensures var s := ReviewsUpTo(run, AfterMails(run, tickets), n);
            ReviewLedger(run, s.ledger, n) && AllKeep(tickets, s.tickets)
  {
    hide ReviewStep, ReviewLedger, MailsUpTo, LanesOk, TextsOk;
    if n == 0 {
      MailPhase(run, tickets, |run.mails|);
      ReviewPhaseStarts(run, AfterMails(run, tickets).ledger);
    } else {
      ReviewPhase(run, tickets, n - 1);
      ReviewPhaseStep(run, tickets, ReviewsUpTo(run, AfterMails(run, tickets), n - 1), n);
    }
  }

  lemma ReviewPhaseStarts(run: Run, l: Ledger)
    requires MailLedger(run, l, |run.mails|)
    ensures ReviewLedger(run, l, 0)
  {
    MailsAreSources(run, l);
  }

  lemma ReviewPhaseStep(run: Run, tickets: seq<TicketState>, s0: State, n: nat)
    requires RunOk(run, tickets) && 0 < n <= |run.reviewAt| && |s0.tickets| == |tickets|
    requires ReviewLedger(run, s0.ledger, n - 1)
    requires ReviewStep(s0, run.anchors.reviews[n - 1], run.reviewAt[n - 1]).ok
    ensures var s := ReviewStep(s0, run.anchors.reviews[n - 1], run.reviewAt[n - 1]);
            ReviewLedger(run, s.ledger, n) && AllKeep(s0.tickets, s.tickets)
  {
    hide ReviewStep, Agrees, TextsOk;
    var o, i := run.anchors.reviews[n - 1], run.reviewAt[n - 1];
    var s, k := ReviewStep(s0, o, i), ReviewKey(Sha(o));
    AbsentIsFresh(s0.ledger, k);
    ReviewFiles(s0, o, i);
    FilingAgrees(s0.ledger, s.ledger, k, Record(None, None, ReviewDigest(Sha(o))));
    forall x | x in s.ledger.evidence ensures FromMail(run, x) || FromReview(run, x, n) {
      if x == k {
        assert FromReview(run, x, n);
      } else if !FromMail(run, x) {
        assert FromReview(run, x, n - 1);
      }
    }
  }

  // ---------- Payment links ----------

  function BoundAt(run: Run, i: nat): seq<Bound>
    requires i < |run.paymentIds| && run.paymentIds[i] in run.links.payments
  {
    run.links.payments[run.paymentIds[i]]
  }

  predicate MailAt(run: Run, i: nat) {
    i < |run.paymentIds| && run.paymentIds[i] in run.links.mails
  }

  function LinkedMail(run: Run, i: nat): Mail
    requires MailAt(run, i)
  {
    run.links.mails[run.paymentIds[i]]
  }

  lemma PaymentIdLinked(run: Run, n: nat, i: nat)
    requires RunInRange(run, n) && i < |run.paymentIds|
    ensures run.paymentIds[i] in run.links.payments
    ensures forall b :: b in BoundAt(run, i) ==> b.ticket < n
  {
    assert run.paymentIds[i] in run.paymentIds;
  }

  /** Different links bind different tickets and different references. */
  lemma LinksDisjoint(run: Run, n: nat, i: nat, j: nat, b: Bound, c: Bound)
    requires RunInRange(run, n) && LanesOk(run) && i < |run.paymentIds| && j < |run.paymentIds|
    requires i != j && run.paymentIds[i] in run.links.payments && run.paymentIds[j] in run.links.payments
    requires b in BoundAt(run, i) && c in BoundAt(run, j)
    ensures b.ticket != c.ticket && b.reference != c.reference && run.paymentIds[i] != run.paymentIds[j]
  {
    var x :| 0 <= x < |BoundAt(run, i)| && BoundAt(run, i)[x] == b;
    var y :| 0 <= y < |BoundAt(run, j)| && BoundAt(run, j)[y] == c;
    assert run.paymentIds[i] != run.paymentIds[j];
  }

  lemma LinkDistinct(run: Run, id: MessageId)
    requires LanesOk(run) && id in run.links.payments
    ensures DistinctTickets(run.links.payments[id]) && run.links.payments[id] != []
  {
  }

  /** Two archived messages with one key are one message. */
  lemma SameKeySameMail(run: Run, a: Mail, b: Mail)
    requires MailsOk(run) && a in run.mails && b in run.mails && a.key == b.key
    ensures a == b
  {
    var i :| 0 <= i < |run.mails| && run.mails[i] == a;
    var j :| 0 <= j < |run.mails| && run.mails[j] == b;
    assert i == j;
  }

  lemma LinkIsFresh(run: Run, n: nat, l: Ledger, i: nat)
    requires RunInRange(run, n) && MailsOk(run) && LanesOk(run) && MailAt(run, i)
    requires Agrees(l) && Sources(run, l, |run.reviewAt|, i, 0)
    ensures Fresh(l, MailKey(LinkedMail(run, i).key))
  {
    hide LanesOk, Agrees;
    var m := LinkedMail(run, i);
    PaymentIdLinked(run, n, i);
    forall j | 0 <= j < |run.mails| && run.mails[j].key == m.key ensures run.mails[j] == m {
      SameKeySameMail(run, m, run.mails[j]);
    }
    assert !FromMail(run, MailKey(m.key));
    forall j | 0 <= j < i && run.paymentIds[j] in run.links.mails
      ensures run.links.mails[run.paymentIds[j]].key != m.key
    {
      LinkMailsDiffer(run, j, i);
    }
    assert !FromLink(run, MailKey(m.key), i);
    AbsentIsFresh(l, MailKey(m.key));
  }

  lemma LinkIdsDiffer(run: Run, i: nat, j: nat)
    requires LanesOk(run) && i < |run.paymentIds| && j < |run.paymentIds| && i != j
    ensures run.paymentIds[i] != run.paymentIds[j]
  {
  }

  /** A payment event of link `i`: its mail, one of its tickets, and that binding's reference. */
  ghost predicate LinkNames(run: Run, mid: State, e: Event, i: nat)
    requires RunInRange(run, |mid.tickets|)
  {
    && MailAt(run, i) && run.paymentIds[i] in run.links.payments
    && e.evidence == MailKey(LinkedMail(run, i).key)
    && exists b :: b in BoundAt(run, i) && b.ticket < |mid.tickets|
                   && e.ticket == KeyOf(mid, b.ticket) && Sha(e.reference) == b.reference
  }

  ghost predicate LinkUntouched(run: Run, mid: State, s: State, n: nat)
    requires RunInRange(run, |mid.tickets|) && n <= |run.paymentIds| && |s.tickets| == |mid.tickets|
  {
    forall j :: 0 <= j < |mid.tickets| && s.tickets[j] != mid.tickets[j] ==>
      exists i, b :: 0 <= i < n && MailAt(run, i) && run.paymentIds[i] in run.links.payments && b in BoundAt(run, i) && b.ticket == j
  }

  ghost predicate LinkDone(run: Run, mid: State, s: State, i: nat)
    requires RunInRange(run, |mid.tickets|) && i < |run.paymentIds| && |s.tickets| == |mid.tickets|
  {
    PaymentIdLinked(run, |mid.tickets|, i);
    MailAt(run, i) ==> Outcome(run, mid, s, LinkedMail(run, i), BoundAt(run, i))
  }

  ghost predicate LinkInvariant(run: Run, mid: State, s: State, n: nat)
    requires RunInRange(run, |mid.tickets|) && n <= |run.paymentIds|
  {
    && |s.tickets| == |mid.tickets|
    && Agrees(s.ledger) && Sources(run, s.ledger, |run.reviewAt|, n, 0)
    && LinkUntouched(run, mid, s, n)
    && (forall i :: 0 <= i < n ==> LinkDone(run, mid, s, i))
    && (forall e :: e in s.ledger.events && IsPayment(e.kind) ==>
          exists i :: 0 <= i < n && LinkNames(run, mid, s.ledger.events[e], i))
  }

  /** A step filing other evidence and leaving the bound tickets alone keeps a link's outcome. */
  lemma OutcomePersists(run: Run, mid: State, s: State, s': State, m: Mail, bound: seq<Bound>, k: EvidenceKey, r: Record)
    requires BoundInRange(mid, bound) && BoundInRange(s, bound) && BoundInRange(s', bound)
    requires Outcome(run, mid, s, m, bound)
    requires Files(s.ledger, s'.ledger, k, r) && k != MailKey(m.key)
    requires forall b :: b in bound ==> s'.tickets[b.ticket] == s.tickets[b.ticket]
    ensures Outcome(run, mid, s', m, bound)
  {
    hide Judge, Blocks, HeldEvent, RecordedEvent, PaymentFor, Settle, OfTicket;
    forall e | e in s'.ledger.events && e !in s.ledger.events ensures e.evidence == k {
      assert s'.ledger.events[e].Key() == e && Fits(s'.ledger.events[e], k, r);
    }
  }

  /** An outcome reached from the current state is the outcome judged on the mid state. */
  lemma OutcomeFromMid(run: Run, mid: State, st: State, s: State, m: Mail, bound: seq<Bound>)
    requires BoundInRange(mid, bound) && BoundInRange(st, bound) && BoundInRange(s, bound)
    requires forall b :: b in bound ==> st.tickets[b.ticket] == mid.tickets[b.ticket]
    requires Outcome(run, st, s, m, bound)
    ensures Outcome(run, mid, s, m, bound)
  {
    hide Judge, Blocks, HeldEvent, PaymentFor, Settle, RecordedEvent, OfTicket, OnlyHeld, OnlyPaid;
    JudgeIsLocal(run, mid, st, m, bound);
    match Judge(run, mid, m, bound) {
      case Rejected =>
      case Held => OnlyHeldLocal(run, st, mid, s, m, bound, Blocks(run, st, m, bound).value);
      case Payable => OnlyPaidLocal(run, st, mid, s, m, bound, Blocks(run, st, m, bound).value);
    }
  }

  lemma {:induction false} LinkPhase(run: Run, tickets: seq<TicketState>, n: nat)
    requires run.anchors.schema != 1 && RunOk(run, tickets) && n <= |run.paymentIds|
    requires LinksUpTo(run, AfterReviews(run, tickets), n).ok
    ensures LinkInvariant(run, AfterReviews(run, tickets), LinksUpTo(run, AfterReviews(run, tickets), n), n)
  {
    hide LinkInvariant, LinkStep, ReviewsUpTo, LanesOk, TextsOk;
    var mid := AfterReviews(run, tickets);
    if n == 0 {
      ReviewPhase(run, tickets, |run.reviewAt|);
      LinkPhaseStarts(run, mid);
    } else {
      LinkPhase(run, tickets, n - 1);
      PaymentIdLinked(run, |tickets|, n - 1);
      LinkPhaseStep(run, tickets, mid, LinksUpTo(run, mid, n - 1), n);
    }
  }

  lemma LinkPhaseStarts(run: Run, mid: State)
    requires RunInRange(run, |mid.tickets|) && ReviewLedger(run, mid.ledger, |run.reviewAt|)
    ensures LinkInvariant(run, mid, mid, 0)
  {
  }

  lemma LinkPhaseStep(run: Run, tickets: seq<TicketState>, mid: State, s0: State, n: nat)
    requires RunOk(run, tickets) && 0 < n <= |run.paymentIds| && |mid.tickets| == |tickets|
    requires LinkInvariant(run, mid, s0, n - 1)
    requires run.paymentIds[n - 1] in run.links.payments && LinkStep(run, s0, run.paymentIds[n - 1]).ok
    ensures LinkInvariant(run, mid, LinkStep(run, s0, run.paymentIds[n - 1]), n)
  {
    hide LanesOk, TextsOk, Agrees, Outcome;
    var id := run.paymentIds[n - 1];
    var s := LinkStep(run, s0, id);
    if id !in run.links.mails {
      LinkPhaseSkips(run, mid, s0, n);
    } else {
      hide LinkStep;
      var m, bound := run.links.mails[id], run.links.payments[id];
      LinkIsFresh(run, |tickets|, s0.ledger, n - 1);
      LinkDistinct(run, id);
      LinkFiles(run, s0, id);
      FilingAgrees(s0.ledger, s.ledger, MailKey(m.key), MailRecord(m));
      LinkBoundFromMid(run, mid, s0, n);
      OutcomeFromMid(run, mid, s0, s, m, bound);
      LinkTicketsStep(run, mid, s0, s, n);
      LinkSourcesStep(run, mid, s0, s, n);
      LinkEventsStep(run, mid, s0, s, n);
      LinkOutcomesStep(run, mid, s0, s, n);
    }
  }

  lemma LinkPhaseSkips(run: Run, mid: State, s: State, n: nat)
    requires RunInRange(run, |mid.tickets|) && 0 < n <= |run.paymentIds| && LinkInvariant(run, mid, s, n - 1)
    requires !MailAt(run, n - 1)
    ensures LinkInvariant(run, mid, s, n)
  {
    hide Outcome, Agrees;
  }

  lemma LinkBoundFromMid(run: Run, mid: State, s0: State, n: nat)
    requires RunInRange(run, |mid.tickets|) && LanesOk(run) && 0 < n <= |run.paymentIds|
    requires LinkInvariant(run, mid, s0, n - 1) && run.paymentIds[n - 1] in run.links.payments
    ensures forall b :: b in BoundAt(run, n - 1) ==> b.ticket < |mid.tickets| && s0.tickets[b.ticket] == mid.tickets[b.ticket]
  {
    hide LanesOk, Agrees, LinkDone;
    PaymentIdLinked(run, |mid.tickets|, n - 1);
    forall b | b in BoundAt(run, n - 1) ensures s0.tickets[b.ticket] == mid.tickets[b.ticket] {
      if s0.tickets[b.ticket] != mid.tickets[b.ticket] {
        var i, c :| 0 <= i < n - 1 && run.paymentIds[i] in run.links.payments && c in BoundAt(run, i) && c.ticket == b.ticket;
        LinksDisjoint(run, |mid.tickets|, i, n - 1, c, b);
        assert false;
      }
    }
  }

  lemma LinkTicketsStep(run: Run, mid: State, s0: State, s: State, n: nat)
    requires RunInRange(run, |mid.tickets|) && 0 < n <= |run.paymentIds| && |s0.tickets| == |s.tickets| == |mid.tickets|
    requires run.paymentIds[n - 1] in run.links.payments && MailAt(run, n - 1) && LinkUntouched(run, mid, s0, n - 1)
    requires forall i :: 0 <= i < |s0.tickets| && (forall b :: b in BoundAt(run, n - 1) ==> b.ticket != i) ==> s.tickets[i] == s0.tickets[i]
    ensures LinkUntouched(run, mid, s, n)
  {
    forall j | 0 <= j < |mid.tickets| && s.tickets[j] != mid.tickets[j]
      ensures exists i, b :: 0 <= i < n && MailAt(run, i) && run.paymentIds[i] in run.links.payments && b in BoundAt(run, i) && b.ticket == j
    {
      if s.tickets[j] != s0.tickets[j] {
        var b :| b in BoundAt(run, n - 1) && b.ticket == j;
      } else {
        var i, b :| 0 <= i < n - 1 && MailAt(run, i) && run.paymentIds[i] in run.links.payments && b in BoundAt(run, i) && b.ticket == j;
      }
    }
  }

  lemma LinkSourcesStep(run: Run, mid: State, s0: State, s: State, n: nat)
    requires 0 < n <= |run.paymentIds| && MailAt(run, n - 1)
    requires Sources(run, s0.ledger, |run.reviewAt|, n - 1, 0)
    requires s.ledger.evidence.Keys == s0.ledger.evidence.Keys + {MailKey(LinkedMail(run, n - 1).key)}
    ensures Sources(run, s.ledger, |run.reviewAt|, n, 0)
  {
    forall k | k in s.ledger.evidence ensures FromMail(run, k) || FromReview(run, k, |run.reviewAt|) || FromLink(run, k, n) {
      if k in s0.ledger.evidence && FromLink(run, k, n - 1) {
        assert FromLink(run, k, n);
      } else if k !in s0.ledger.evidence {
        assert k == MailKey(LinkedMail(run, n - 1).key);
        assert FromLink(run, k, n);
      }
    }
  }

  lemma LinkEventsStep(run: Run, mid: State, s0: State, s: State, n: nat)
    requires RunInRange(run, |mid.tickets|) && 0 < n <= |run.paymentIds| && |s0.tickets| == |mid.tickets|
    requires MailAt(run, n - 1) && run.paymentIds[n - 1] in run.links.payments
    requires LinkInvariant(run, mid, s0, n - 1)
    requires Files(s0.ledger, s.ledger, MailKey(LinkedMail(run, n - 1).key), MailRecord(LinkedMail(run, n - 1)))
    requires NewPayments(s0.ledger, s.ledger, s0, MailKey(LinkedMail(run, n - 1).key), BoundAt(run, n - 1))
    requires forall b :: b in BoundAt(run, n - 1) ==> b.ticket < |mid.tickets| && s0.tickets[b.ticket] == mid.tickets[b.ticket]
    ensures forall e :: e in s.ledger.events && IsPayment(e.kind) ==>
              exists i :: 0 <= i < n && LinkNames(run, mid, s.ledger.events[e], i)
  {
    hide Agrees, LinkDone, Sources;
    forall e | e in s.ledger.events && IsPayment(e.kind)
      ensures exists i :: 0 <= i < n && LinkNames(run, mid, s.ledger.events[e], i)
    {
      if e in s0.ledger.events {
        var i :| 0 <= i < n - 1 && LinkNames(run, mid, s0.ledger.events[e], i);
      } else {
        var b :| b in BoundAt(run, n - 1) && s.ledger.events[e].ticket == KeyOf(s0, b.ticket)
                 && Sha(s.ledger.events[e].reference) == b.reference;
        assert s.ledger.events[e].evidence == MailKey(LinkedMail(run, n - 1).key);
        assert LinkNames(run, mid, s.ledger.events[e], n - 1);
      }
    }
  }

  lemma LinkOutcomesStep(run: Run, mid: State, s0: State, s: State, n: nat)
    requires RunInRange(run, |mid.tickets|) && LanesOk(run) && MailsOk(run) && 0 < n <= |run.paymentIds|
    requires |s0.tickets| == |s.tickets| == |mid.tickets|
    requires MailAt(run, n - 1) && run.paymentIds[n - 1] in run.links.payments
    requires LinkInvariant(run, mid, s0, n - 1)
    requires Files(s0.ledger, s.ledger, MailKey(LinkedMail(run, n - 1).key), MailRecord(LinkedMail(run, n - 1)))
    requires forall i :: 0 <= i < |s0.tickets| && (forall b :: b in BoundAt(run, n - 1) ==> b.ticket != i) ==> s.tickets[i] == s0.tickets[i]
    requires LinkDone(run, mid, s, n - 1)
    ensures forall i :: 0 <= i < n ==> LinkDone(run, mid, s, i)
  {
    hide LanesOk, MailsOk, Agrees, Outcome, Sources, Files;
    forall i | 0 <= i < n ensures LinkDone(run, mid, s, i) {
      if i < n - 1 && MailAt(run, i) {
        PaymentIdLinked(run, |mid.tickets|, i);
        assert LinkDone(run, mid, s0, i);
        forall b | b in BoundAt(run, i) ensures s.tickets[b.ticket] == s0.tickets[b.ticket] {
          forall c | c in BoundAt(run, n - 1) ensures c.ticket != b.ticket {
            LinksDisjoint(run, |mid.tickets|, i, n - 1, b, c);
          }
        }
        LinkMailsDiffer(run, i, n - 1);
        OutcomePersists(run, mid, s0, s, LinkedMail(run, i), BoundAt(run, i),
                        MailKey(LinkedMail(run, n - 1).key), MailRecord(LinkedMail(run, n - 1)));
      }
    }
  }

  lemma LinkMailsDiffer(run: Run, i: nat, j: nat)
    requires LanesOk(run) && MailsOk(run) && MailAt(run, i) && MailAt(run, j) && i != j
    ensures LinkedMail(run, i).key != LinkedMail(run, j).key
  {
    hide LanesOk;
    LinkIdsDiffer(run, i, j);
    if LinkedMail(run, i).key == LinkedMail(run, j).key {
      SameKeySameMail(run, LinkedMail(run, i), LinkedMail(run, j));
      assert false;
    }
  }
}
