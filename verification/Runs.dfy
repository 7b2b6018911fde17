/** Whole runs: the phases in order, and what holds after each of them. */
module Runs {
  import opened Common
  import opened Tickets
  import opened Ledgers
  import opened Ancestry
  import opened ReducerSpec
  import opened LedgerSteps
  import opened ReducerSteps
  import opened PaymentSteps

  // ---------- What the loaders guarantee of a run's inputs ----------

  /** `load_anchor_config`: one lane per ticket and per payment reference, one review per ticket. */
  ghost predicate LanesOk(run: Run) {
    && Distinct(run.paymentIds)
    && (forall id :: id in run.links.payments ==> run.links.payments[id] != [])
    && (forall id, k, id', k' ::
          id in run.links.payments && id' in run.links.payments
          && 0 <= k < |run.links.payments[id]| && 0 <= k' < |run.links.payments[id']|
          && (run.links.payments[id][k].ticket == run.links.payments[id'][k'].ticket
              || run.links.payments[id][k].reference == run.links.payments[id'][k'].reference)
          ==> id == id' && k == k')
    && (forall i, j :: 0 <= i < j < |run.operatorAt| ==> run.operatorAt[i] != run.operatorAt[j])
    && (forall i, j :: 0 <= i < j < |run.anchors.operatorPayments| ==>
          run.anchors.operatorPayments[i].reference != run.anchors.operatorPayments[j].reference)
    && (forall id, k, n :: id in run.links.payments && 0 <= k < |run.links.payments[id]| && 0 <= n < |run.operatorAt| ==>
          run.links.payments[id][k].ticket != run.operatorAt[n])
    && (forall id, k, n :: id in run.links.payments && 0 <= k < |run.links.payments[id]|
                           && 0 <= n < |run.anchors.operatorPayments| ==>
          run.links.payments[id][k].reference != Sha(run.anchors.operatorPayments[n].reference))
    && (forall n :: 0 <= n < |run.anchors.operatorPayments| ==> run.anchors.operatorPayments[n].reference != "")
    && (forall i, j :: 0 <= i < j < |run.anchors.reviews| ==> run.anchors.reviews[i] != run.anchors.reviews[j])
  }

  /** The archive: one message per stable key, and the id index points into it. */
  ghost predicate MailsOk(run: Run) {
    && (forall i, j :: 0 <= i < j < |run.mails| ==> run.mails[i].key != run.mails[j].key)
    && (forall id :: id in run.links.mails ==> run.links.mails[id] in run.mails && run.links.mails[id].id == id)
  }

  ghost predicate KeysDistinct(tickets: seq<TicketState>) {
    forall i, j :: 0 <= i < j < |tickets| ==> tickets[i].head.selector.key != tickets[j].head.selector.key
  }

  /** An operator payment's earlier event still says what the entry it is digested from says. */
  ghost predicate Authentic(l: Ledger) {
    forall e :: e in l.events && e.evidence.PaymentKey? ==>
      var p, v := e.evidence.payment.of, l.events[e];
      v.Key() == e && v.on == Some(p.date) && v.at == None && v.cents == Some(p.cents) && v.reference == p.reference
      && v.digest == PaymentDigest(Sha(p))
  }

  ghost predicate RunOk(run: Run, tickets: seq<TicketState>) {
    && RunInRange(run, |tickets|) && KeysDistinct(tickets)
    && MailsOk(run) && LanesOk(run) && TextsOk(run)
    && Authentic(run.prev) && PaymentFields(run.prev)
  }

  // ---------- Phases ----------

  function Begin(tickets: seq<TicketState>): State {
    State(true, tickets, NO_LEDGER)
  }

  ghost function AfterMails(run: Run, tickets: seq<TicketState>): (s: State)
    ensures |s.tickets| == |tickets|
  {
    MailsUpTo(run, Begin(tickets), |run.mails|)
  }

  ghost function AfterReviews(run: Run, tickets: seq<TicketState>): (s: State)
    requires RunInRange(run, |tickets|)
    ensures |s.tickets| == |tickets|
  {
    ReviewsUpTo(run, AfterMails(run, tickets), |run.reviewAt|)
  }

  ghost function AfterLinks(run: Run, tickets: seq<TicketState>): (s: State)
    requires RunInRange(run, |tickets|)
    ensures |s.tickets| == |tickets|
  {
    LinksUpTo(run, AfterReviews(run, tickets), |run.paymentIds|)
  }

  ghost function AfterAll(run: Run, tickets: seq<TicketState>): (s: State)
    requires RunInRange(run, |tickets|)
    ensures |s.tickets| == |tickets|
  {
    OperatorUpTo(run, AfterLinks(run, tickets), |run.operatorAt|)
  }

  /** A run succeeds when no step failed and everything earlier is reproduced. */
  ghost predicate Succeeds(run: Run, tickets: seq<TicketState>)
    requires RunInRange(run, |tickets|)
  {
    var s := AfterAll(run, tickets);
    s.ok && Reproduces(run.prev, s.ledger)
  }

  // ---------- Freshness ----------

  ghost predicate Agrees(l: Ledger) {
    LinkedOrUnmatched(l) && EventsMatchEvidence(l) && LanesKept(l) && PaymentFields(l)
  }

  lemma AbsentIsFresh(l: Ledger, k: EvidenceKey)
    requires Agrees(l) && k !in l.evidence
    ensures Fresh(l, k)
  {
  }

  /** After n mails: the ledger holds only those mails, none of them an anchor, and no payment. */
  ghost predicate MailLedger(run: Run, l: Ledger, n: nat) {
    && Agrees(l) && NoPayments(l)
    && forall k :: k in l.evidence ==>
         k.MailKey? && exists i :: 0 <= i < n && i < |run.mails| && k.key == run.mails[i].key && !IsAnchor(run, run.mails[i])
  }

  lemma NothingAgrees()
    ensures Agrees(NO_LEDGER)
  {
  }

  lemma {:induction false} MailPhase(run: Run, tickets: seq<TicketState>, n: nat)
    requires run.anchors.schema != 1 && MailsOk(run) && n <= |run.mails|
    requires MailsUpTo(run, Begin(tickets), n).ok
    ensures var s := MailsUpTo(run, Begin(tickets), n);
            MailLedger(run, s.ledger, n) && AllKeep(tickets, s.tickets)
  {
    hide MailStep, MailLedger;
    if n == 0 {
      MailPhaseStarts(run);
    } else {
      MailPhase(run, tickets, n - 1);
      MailPhaseStep(run, MailsUpTo(run, Begin(tickets), n - 1), n);
    }
  }

  lemma MailPhaseStarts(run: Run)
    ensures MailLedger(run, NO_LEDGER, 0)
  {
    NothingAgrees();
  }

  lemma MailPhaseStep(run: Run, s0: State, n: nat)
    requires run.anchors.schema != 1 && MailsOk(run) && 0 < n <= |run.mails|
    requires MailLedger(run, s0.ledger, n - 1) && MailStep(run, s0, run.mails[n - 1]).ok
    ensures var s := MailStep(run, s0, run.mails[n - 1]);
            MailLedger(run, s.ledger, n) && AllKeep(s0.tickets, s.tickets)
  {
    hide MailStep, Agrees;
    var m := run.mails[n - 1];
    var s := MailStep(run, s0, m);
    AbsentIsFresh(s0.ledger, MailKey(m.key));
    MailFiles(run, s0, m);
    if s.ledger != s0.ledger {
      FilingAgrees(s0.ledger, s.ledger, MailKey(m.key), MailRecord(m));
      assert !IsAnchor(run, m);
    }
  }

  lemma FilingAgrees(l: Ledger, l': Ledger, k: EvidenceKey, r: Record)
    requires Agrees(l) && Fresh(l, k) && Files(l, l', k, r)
    ensures Agrees(l') && l'.evidence == l.evidence[k := r]
  {
    FilingKeepsAgreement(l, l', k, r);
  }
}
