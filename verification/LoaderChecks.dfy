/** The loader's checks of each event against its ticket, on finished runs. */
module LoaderChecks {
  import opened Common
  import opened Tickets
  import opened TicketLaws
  import opened Ledgers
  import opened Ancestry
  import opened ReducerSpec
  import opened LedgerSteps
  import opened ReducerSteps
  import opened PaymentSteps
  import opened Runs
  import opened LinkLane
  import opened OperatorLane
  import opened RunPhases
  import opened RunTheorems
  import opened Settlement
  import opened RunLaws
  import opened RunValidity
  import opened OwedTotals

  // ---------- The three checks ----------

  ghost predicate Knows(tickets: seq<TicketState>, key: string) {
    exists j :: 0 <= j < |tickets| && tickets[j].head.selector.key == key
  }

  /** Every event targets a known ticket. */
  ghost predicate TargetsKnown(l: Ledger, tickets: seq<TicketState>) {
    forall e :: e in l.events ==> Knows(tickets, e.ticket)
  }

  /** A discrepancy is off its ticket's payable total. */
  ghost predicate DiscrepanciesDiffer(l: Ledger, tickets: seq<TicketState>) {
    forall e, j :: e in l.events && e.kind == PaymentDiscrepancy
                   && 0 <= j < |tickets| && tickets[j].head.selector.key == e.ticket ==>
      l.events[e].cents != Some(Tickets.Payable(tickets[j].items))
  }

  ghost predicate HasEvent(l: Ledger, key: string, kind: Kind) {
    exists e :: e in l.events && e.ticket == key && e.kind == kind
  }

  /** A granted approval's ticket has a decision, or an operator reviewed it. */
  ghost predicate GrantsDecided(l: Ledger, tickets: seq<TicketState>) {
    forall j :: 0 <= j < |tickets| && HasEvent(l, tickets[j].head.selector.key, ApprovalGranted) ==>
      tickets[j].live.decision != Unreviewed || HasEvent(l, tickets[j].head.selector.key, OperatorReviewed)
  }

  // ---------- What one step may add ----------

  const MAIL_KINDS: set<Kind> := {ReceiptReceived, ClarificationReceived, ApprovalGranted, ApprovalDeclined, ApprovalQuarantined,
                       PaymentRecorded, PaymentDiscrepancy, PaymentQuarantined}
  const LANE_KINDS: set<Kind> := {ReceiptReceived, ClarificationReceived, PaymentRecorded, PaymentDiscrepancy, PaymentQuarantined}

  /** No ticket changes its identity, no event goes, and every new one is of these kinds for a known ticket. */
  ghost predicate Tracks(st: State, s: State, kinds: set<Kind>) {
    && |s.tickets| == |st.tickets|
    && (forall j :: 0 <= j < |st.tickets| ==> s.tickets[j].head == st.tickets[j].head)
    && (forall e :: e in st.ledger.events ==> e in s.ledger.events)
    && (forall e :: e in s.ledger.events && e !in st.ledger.events ==> e.kind in kinds && Knows(st.tickets, e.ticket))
  }

  lemma SameKnows(a: seq<TicketState>, b: seq<TicketState>, key: string)
    requires |a| == |b| && forall j :: 0 <= j < |a| ==> b[j].head == a[j].head
    ensures Knows(a, key) == Knows(b, key)
  {
  }

  lemma TracksTransitive(a: State, b: State, c: State, kinds: set<Kind>)
    requires Tracks(a, b, kinds) && Tracks(b, c, kinds)
    ensures Tracks(a, c, kinds)
  {
    hide Knows;
    forall e | e in c.ledger.events && e !in a.ledger.events ensures e.kind in kinds && Knows(a.tickets, e.ticket) {
      SameKnows(a.tickets, b.tickets, e.ticket);
    }
  }

  lemma Stays(st: State, kinds: set<Kind>)
    ensures Tracks(st, st, kinds)
  {
  }

  lemma AddTracks(st: State, e: Event, i: nat, kinds: set<Kind>)
    requires i < |st.tickets| && e.ticket == KeyOf(st, i) && e.kind in kinds
    ensures Tracks(st, AddEvent(st, e), kinds) && AddEvent(st, e).tickets == st.tickets
  {
  }

  lemma PutTracks(st: State, i: nat, t: TicketState, kinds: set<Kind>)
    requires i < |st.tickets| && t.head == st.tickets[i].head
    ensures Tracks(st, Put(st, i, t), kinds)
  {
  }

  /** Recording an event and then changing its ticket. */
  lemma AddPutTracks(st: State, e: Event, i: nat, t: TicketState, kinds: set<Kind>)
    requires i < |st.tickets| && e.ticket == KeyOf(st, i) && e.kind in kinds && t.head == st.tickets[i].head
    ensures Tracks(st, Put(AddEvent(st, e), i, t), kinds)
  {
    AddTracks(st, e, i, kinds);
    PutTracks(AddEvent(st, e), i, t, kinds);
    hide Tracks;
    TracksTransitive(st, AddEvent(st, e), Put(AddEvent(st, e), i, t), kinds);
  }

  // ---------- Mails ----------

  lemma {:induction false} ProposalTracks(st: State, m: Mail, kind: Kind, at: seq<nat>, grants: seq<Option<Grant>>)
    requires InRange(st, at) && |grants| == |at| && IsProposalKind(kind)
    ensures Tracks(st, ProposalAll(st, m, kind, at, grants), MAIL_KINDS)
  {
    hide Tracks, ProposalApproved;
    if at == [] {
      Stays(st, MAIL_KINDS);
    } else {
      var n := |at| - 1;
      var s := ProposalAll(st, m, kind, at[..n], grants[..n]);
      ProposalTracks(st, m, kind, at[..n], grants[..n]);
      ProposalOneTracks(s, m, kind, at[n], grants[n]);
      TracksTransitive(st, s, ProposalOne(s, m, kind, at[n], grants[n]), MAIL_KINDS);
    }
  }

  lemma ProposalOneTracks(st: State, m: Mail, kind: Kind, i: nat, grant: Option<Grant>)
    requires i < |st.tickets| && IsProposalKind(kind)
    ensures Tracks(st, ProposalOne(st, m, kind, i, grant), MAIL_KINDS)
  {
    hide Tracks;
    var e := MailEvent(m, KeyOf(st, i), kind, Stock);
    AddTracks(st, e, i, MAIL_KINDS);
    FailedTracks(st, AddEvent(st, e), MAIL_KINDS);
    if grant.Some? && grant.value.Apply? && |grant.value.statuses| == |st.tickets[i].items| {
      AddPutTracks(st, e, i, ProposalApproved(st.tickets[i], grant.value.statuses), MAIL_KINDS);
    }
  }

  lemma FailedTracks(st: State, s: State, kinds: set<Kind>)
    requires Tracks(st, s, kinds)
    ensures Tracks(st, Failed(s), kinds)
  {
  }

  lemma ResponseTracks(run: Run, st: State, m: Mail, i: nat)
    requires run.anchors.schema != 1 && i < |st.tickets|
    ensures Tracks(st, ResponseStep(run, st, m, i), LANE_KINDS)
    ensures forall j :: 0 <= j < |st.tickets| ==> ResponseStep(run, st, m, i).tickets[j].live == st.tickets[j].live
  {
    hide Tracks;
    var e1 := MailEvent(m, KeyOf(st, i), ReceiptReceived, ReceiptCount(m.receipts));
    var s1 := if m.receipts > 0 then Put(AddEvent(st, e1), i, ResponseReceived(st.tickets[i], true)) else st;
    AddPutTracks(st, e1, i, ResponseReceived(st.tickets[i], true), LANE_KINDS);
    Stays(st, LANE_KINDS);
    var e2 := MailEvent(m, KeyOf(s1, i), ClarificationReceived, Stock);
    AddTracks(s1, e2, i, LANE_KINDS);
    AddPutTracks(s1, e2, i, ResponseReceived(s1.tickets[i], false), LANE_KINDS);
    var s2 := if Nonblank(m.text) then
                if m.receipts > 0 then AddEvent(s1, e2) else Put(AddEvent(s1, e2), i, ResponseReceived(s1.tickets[i], false))
              else s1;
    Stays(s1, LANE_KINDS);
    TracksTransitive(st, s1, s2, LANE_KINDS);
    UnmatchTracks(st, s2, m, LANE_KINDS);
  }

  lemma UnmatchTracks(st: State, s: State, m: Mail, kinds: set<Kind>)
    requires Tracks(st, s, kinds)
    ensures Tracks(st, Unmatch(s, m, NoActionableContent), kinds)
  {
  }

  lemma MailTracks(run: Run, st: State, m: Mail)
    requires run.anchors.schema != 1
    ensures Tracks(st, MailStep(run, st, m), MAIL_KINDS)
  {
    hide ResponseStep, ProposalAll, Resolutions;
    if !IsAnchor(run, m) {
      var r := ScopeOf(run, m);
      if !Ambiguous(r) && r != {} && InRange(st, Target(r)) && Target(r) != [] {
        var s0, at := Account(st, m), Target(r);
        if HasProposal(r) {
          var recs := ProposalRecs(run, ProposalMail(run, r), Refs(s0, at));
          var kind := ProposalKind(run, m, ProposalFits(run, m, s0, at, recs));
          ProposalTracks(s0, m, kind, at, Grants(run, m, s0, at, recs));
        } else {
          ResponseTracks(run, s0, m, at[0]);
          Widens(s0, ResponseStep(run, s0, m, at[0]), LANE_KINDS, MAIL_KINDS);
        }
      }
    }
  }

  lemma {:induction false} MailsTrack(run: Run, tickets: seq<TicketState>, n: nat)
    requires run.anchors.schema != 1 && n <= |run.mails|
    ensures Tracks(Begin(tickets), MailsUpTo(run, Begin(tickets), n), MAIL_KINDS)
  {
    hide Tracks, MailStep;
    if n == 0 {
      Stays(Begin(tickets), MAIL_KINDS);
    } else {
      MailsTrack(run, tickets, n - 1);
      var s := MailsUpTo(run, Begin(tickets), n - 1);
      MailTracks(run, s, run.mails[n - 1]);
      TracksTransitive(Begin(tickets), s, MailStep(run, s, run.mails[n - 1]), MAIL_KINDS);
    }
  }

  // ---------- Reviews ----------

  lemma ReviewTracks(st: State, o: OperatorReview, i: nat)
    requires i < |st.tickets|
    ensures Tracks(st, ReviewStep(st, o, i), {OperatorReviewed})
    ensures EventKey(ReviewKey(Sha(o)), KeyOf(st, i), OperatorReviewed) in ReviewStep(st, o, i).ledger.events
    ensures forall e :: e in ReviewStep(st, o, i).ledger.events && e !in st.ledger.events ==> e.ticket == KeyOf(st, i)
    ensures forall j :: 0 <= j < |st.tickets| && j != i ==> ReviewStep(st, o, i).tickets[j] == st.tickets[j]
  {
    hide Covers, OverriddenItems, RawRollup;
  }

  // ---------- Payment lanes ----------

  lemma {:induction false} AddEventsTrack(st: State, es: seq<Event>, i: nat)
    requires i < |st.tickets| && forall e :: e in es ==> e.ticket == KeyOf(st, i) && e.kind in LANE_KINDS
    ensures Tracks(st, AddEvents(st, es), LANE_KINDS)
  {
    hide Tracks, AddEvent;
    if es == [] {
      Stays(st, LANE_KINDS);
    } else {
      var front := es[..|es| - 1];
      AddEventsTrack(st, front, i);
      AddTracks(AddEvents(st, front), es[|es| - 1], i, LANE_KINDS);
      TracksTransitive(st, AddEvents(st, front), AddEvents(st, es), LANE_KINDS);
    }
  }

  lemma CompanionsAreOfTicket(run: Run, m: Mail, ticket: string)
    ensures forall e :: e in Companions(run, m, ticket) ==> e.ticket == ticket && e.kind in LANE_KINDS
  {
  }

  /** One binding's own event, its companions, and its ticket's change. */
  lemma BindingTracks(run: Run, st: State, m: Mail, i: nat, own: Event, t: TicketState)
    requires i < |st.tickets| && own.ticket == KeyOf(st, i) && own.kind in LANE_KINDS && t.head == st.tickets[i].head
    ensures var s := AddEvents(AddEvent(st, own), Companions(run, m, KeyOf(st, i)));
            Tracks(st, s, LANE_KINDS) && Tracks(st, Put(s, i, t), LANE_KINDS)
  {
    hide Tracks, Companions, AddEvents, AddEvent;
    var s1 := AddEvent(st, own);
    var s := AddEvents(s1, Companions(run, m, KeyOf(st, i)));
    CompanionsAreOfTicket(run, m, KeyOf(st, i));
    AddTracks(st, own, i, LANE_KINDS);
    AddEventsTrack(s1, Companions(run, m, KeyOf(st, i)), i);
    PutTracks(s, i, t, LANE_KINDS);
    TracksTransitive(st, s1, s, LANE_KINDS);
    TracksTransitive(st, s, Put(s, i, t), LANE_KINDS);
  }

  lemma {:induction false} HoldTracks(run: Run, st: State, m: Mail, bound: seq<Bound>, ps: seq<PaymentText>)
    requires BoundInRange(st, bound)
    ensures Tracks(st, HoldAll(run, st, m, bound, ps), LANE_KINDS)
  {
    hide Tracks, PaymentFor, Tickets.Payable, Companions, AddEvents, AddEvent;
    if bound == [] {
      Stays(st, LANE_KINDS);
    } else {
      var front, b := bound[..|bound| - 1], bound[|bound| - 1];
      HoldTracks(run, st, m, front, ps);
      var s := HoldAll(run, st, m, front, ps);
      BindingTracks(run, s, m, b.ticket, HeldEvent(m, s.tickets[b.ticket], PaymentFor(ps, b.reference)), s.tickets[b.ticket]);
      TracksTransitive(st, s, HoldAll(run, st, m, bound, ps), LANE_KINDS);
    }
  }

  lemma {:induction false} PayTracks(run: Run, st: State, m: Mail, bound: seq<Bound>, ps: seq<PaymentText>)
    requires BoundInRange(st, bound)
    ensures Tracks(st, PayAll(run, st, m, bound, ps), LANE_KINDS)
  {
    hide Tracks, PaymentFor, Tickets.Payable, Companions, AddEvents, AddEvent;
    if bound == [] {
      Stays(st, LANE_KINDS);
    } else {
      var front, b := bound[..|bound| - 1], bound[|bound| - 1];
      PayTracks(run, st, m, front, ps);
      var s, p := PayAll(run, st, m, front, ps), PaymentFor(ps, b.reference);
      var t := s.tickets[b.ticket];
      BindingTracks(run, s, m, b.ticket, RecordedEvent(m, t, p), PaymentApplied(t, m.on, p.cents, p.reference));
      TracksTransitive(st, s, PayAll(run, st, m, bound, ps), LANE_KINDS);
    }
  }

  lemma LinkTracks(run: Run, st: State, id: MessageId)
    requires id in run.links.payments && BoundInRange(st, run.links.payments[id])
    ensures Tracks(st, LinkStep(run, st, id), LANE_KINDS)
  {
    hide PayAll, HoldAll, GroupReadable, Eligible, PaymentFor, ParsedBlocks, Tickets.Payable;
    if id in run.links.mails {
      var m, bound := run.links.mails[id], run.links.payments[id];
      var s0 := Account(st, m);
      if Judge(run, st, m, bound) != Rejected {
        JudgedReadable(run, st, m, bound);
        ReadableParsed(run, m, bound, Blocks(run, st, m, bound));
        HoldTracks(run, s0, m, bound, Blocks(run, st, m, bound).value);
        PayTracks(run, s0, m, bound, Blocks(run, st, m, bound).value);
      }
    }
  }

  lemma {:induction false} LinksTrack(run: Run, st: State, n: nat)
    requires RunInRange(run, |st.tickets|) && n <= |run.paymentIds|
    ensures Tracks(st, LinksUpTo(run, st, n), LANE_KINDS)
  {
    hide Tracks, LinkStep;
    if n == 0 {
      Stays(st, LANE_KINDS);
    } else {
      LinksTrack(run, st, n - 1);
      assert run.paymentIds[n - 1] in run.links.payments;
      LinkTracks(run, LinksUpTo(run, st, n - 1), run.paymentIds[n - 1]);
      TracksTransitive(st, LinksUpTo(run, st, n - 1), LinksUpTo(run, st, n), LANE_KINDS);
    }
  }

  lemma ApplyTracks(st: State, p: OperatorPayment, i: nat, e: Event)
    requires i < |st.tickets| && e.ticket == KeyOf(st, i) && IsPayment(e.kind)
    ensures Tracks(st, OperatorApply(AddEvent(AddEvidence(st, PaymentKey(Sha(p)), Record(Some(p.date), None, PaymentDigest(Sha(p)))), e),
                                     p, i, e.kind), LANE_KINDS)
  {
    hide PaymentApplied, PaymentHeld;
    var s0 := AddEvidence(st, PaymentKey(Sha(p)), Record(Some(p.date), None, PaymentDigest(Sha(p))));
    AddTracks(s0, e, i, LANE_KINDS);
    HeadKept(st.tickets[i], p);
  }

  lemma HeadKept(t: TicketState, p: OperatorPayment)
    ensures PaymentApplied(t, Some(p.date), p.cents, p.reference).head == t.head && PaymentHeld(t).head == t.head
  {
  }

  lemma OperatorTracks(run: Run, st: State, p: OperatorPayment, i: nat)
    requires i < |st.tickets|
    ensures Tracks(st, OperatorStep(run, st, p, i), LANE_KINDS)
  {
    hide OperatorApply, PriorEvents;
    var prior := PriorEvents(run, p);
    if prior == {} {
      var v := OperatorVerdict(run, p, st.tickets[i]);
      ApplyTracks(st, p, i, OperatorEvent(p, KeyOf(st, i), v.0, v.1));
    } else {
      forall k | k in run.prev.events && run.prev.events[k].ticket == KeyOf(st, i) && IsPayment(run.prev.events[k].kind)
        ensures Tracks(st, OperatorApply(AddEvent(AddEvidence(st, PaymentKey(Sha(p)), Record(Some(p.date), None, PaymentDigest(Sha(p)))),
                             run.prev.events[k]), p, i, run.prev.events[k].kind), LANE_KINDS)
      {
        ApplyTracks(st, p, i, run.prev.events[k]);
      }
      PriorAreKept(run, p);
    }
  }

  lemma PriorAreKept(run: Run, p: OperatorPayment)
    ensures forall k :: k in PriorEvents(run, p) ==> k in run.prev.events
  {
  }

  lemma {:induction false} OperatorsTrack(run: Run, st: State, n: nat)
    requires RunInRange(run, |st.tickets|) && n <= |run.operatorAt|
    ensures Tracks(st, OperatorUpTo(run, st, n), LANE_KINDS)
  {
    hide Tracks, OperatorStep;
    if n == 0 {
      Stays(st, LANE_KINDS);
    } else {
      OperatorsTrack(run, st, n - 1);
      OperatorTracks(run, OperatorUpTo(run, st, n - 1), run.anchors.operatorPayments[n - 1], run.operatorAt[n - 1]);
      TracksTransitive(st, OperatorUpTo(run, st, n - 1), OperatorUpTo(run, st, n), LANE_KINDS);
    }
  }

  // ---------- Every event targets a known ticket ----------

  lemma Widens(st: State, s: State, kinds: set<Kind>, more: set<Kind>)
    requires Tracks(st, s, kinds) && kinds <= more
    ensures Tracks(st, s, more)
  {
    hide Knows;
  }

  lemma {:induction false} ReviewsTrack(run: Run, st: State, n: nat)
    requires RunInRange(run, |st.tickets|) && n <= |run.reviewAt|
    ensures Tracks(st, ReviewsUpTo(run, st, n), {OperatorReviewed})
  {
    hide Tracks, ReviewStep;
    if n == 0 {
      Stays(st, {OperatorReviewed});
    } else {
      ReviewsTrack(run, st, n - 1);
      ReviewTracks(ReviewsUpTo(run, st, n - 1), run.anchors.reviews[n - 1], run.reviewAt[n - 1]);
      TracksTransitive(st, ReviewsUpTo(run, st, n - 1), ReviewsUpTo(run, st, n), {OperatorReviewed});
    }
  }

  /** The payment lanes add no grant and no review. */
  lemma LanesTrack(run: Run, tickets: seq<TicketState>)
    requires RunInRange(run, |tickets|)
    ensures Tracks(AfterReviews(run, tickets), AfterAll(run, tickets), LANE_KINDS)
  {
    hide Tracks, MailsUpTo, ReviewsUpTo, LinksUpTo, OperatorUpTo;
    var mid, linked := AfterReviews(run, tickets), AfterLinks(run, tickets);
    LinksTrack(run, mid, |run.paymentIds|);
    OperatorsTrack(run, linked, |run.operatorAt|);
    TracksTransitive(mid, linked, AfterAll(run, tickets), LANE_KINDS);
  }

  /** A whole run changes no ticket's identity and adds events for known tickets only. */
  lemma RunTracks(run: Run, tickets: seq<TicketState>)
    requires run.anchors.schema != 1 && RunInRange(run, |tickets|)
    ensures Tracks(Begin(tickets), AfterAll(run, tickets), MAIL_KINDS + {OperatorReviewed})
  {
    hide MailsUpTo, ReviewsUpTo, LinksUpTo, OperatorUpTo, Tracks;
    var begin, mails, mid, s := Begin(tickets), AfterMails(run, tickets), AfterReviews(run, tickets), AfterAll(run, tickets);
    var all := MAIL_KINDS + {OperatorReviewed};
    MailsTrack(run, tickets, |run.mails|);
    ReviewsTrack(run, mails, |run.reviewAt|);
    LanesTrack(run, tickets);
    Widens(begin, mails, MAIL_KINDS, all);
    Widens(mails, mid, {OperatorReviewed}, all);
    Widens(mid, s, LANE_KINDS, all);
    TracksTransitive(begin, mails, mid, all);
    TracksTransitive(begin, mid, s, all);
  }

  /** Whatever a run meets, every event of its ledger targets a ticket of the list. */
  lemma EveryTargetKnown(run: Run, tickets: seq<TicketState>)
    requires run.anchors.schema != 1 && RunInRange(run, |tickets|)
    ensures TargetsKnown(AfterAll(run, tickets).ledger, AfterAll(run, tickets).tickets)
  {
    hide MailsUpTo, ReviewsUpTo, LinksUpTo, OperatorUpTo;
    RunTracks(run, tickets);
    var s := AfterAll(run, tickets);
    forall e | e in s.ledger.events ensures Knows(s.tickets, e.ticket) {
      SameKnows(tickets, s.tickets, e.ticket);
    }
  }

  // ---------- Grants and reviews before the payment lanes ----------

  /** After a grant its ticket has a decision, unless a review of the anchor file names it. */
  ghost predicate GrantsStand(run: Run, s: State) {
    forall j :: 0 <= j < |s.tickets| && HasEvent(s.ledger, KeyOf(s, j), ApprovalGranted) ==>
      s.tickets[j].live.decision != Unreviewed || HasOverride(run, s.tickets[j])
  }

  /** Every ticket of a granted reply gets statuses, or is a replay that a review covers. */
  ghost predicate GrantsFit(run: Run, st: State, at: seq<nat>, grants: seq<Option<Grant>>)
    requires InRange(st, at) && |grants| == |at|
  {
    forall k :: 0 <= k < |at| ==> grants[k].Some? && (grants[k].value.ReplayOnly? ==> HasOverride(run, st.tickets[at[k]]))
  }

  lemma ProposalOneStands(run: Run, st: State, m: Mail, kind: Kind, i: nat, grant: Option<Grant>)
    requires i < |st.tickets| && KeysDistinct(st.tickets) && GrantsStand(run, st)
    requires kind == ApprovalGranted ==> grant.Some? && (grant.value.ReplayOnly? ==> HasOverride(run, st.tickets[i]))
    requires ProposalOne(st, m, kind, i, grant).ok
    ensures GrantsStand(run, ProposalOne(st, m, kind, i, grant))
  {
    var s := ProposalOne(st, m, kind, i, grant);
    forall j | 0 <= j < |s.tickets| && HasEvent(s.ledger, KeyOf(s, j), ApprovalGranted)
      ensures s.tickets[j].live.decision != Unreviewed || HasOverride(run, s.tickets[j])
    {
      if j == i && kind == ApprovalGranted {
      } else {
        assert KeyOf(s, j) == KeyOf(st, j);
        var e :| e in s.ledger.events && e.ticket == KeyOf(s, j) && e.kind == ApprovalGranted;
        assert e in st.ledger.events;
        assert HasEvent(st.ledger, KeyOf(st, j), ApprovalGranted);
        OverrideByHead(run, st.tickets[j], s.tickets[j]);
      }
    }
  }

  lemma OverrideByHead(run: Run, t: TicketState, u: TicketState)
    requires t.head == u.head
    ensures HasOverride(run, t) == HasOverride(run, u)
  {
  }

  lemma {:induction false} ProposalStands(run: Run, st: State, m: Mail, kind: Kind, at: seq<nat>, grants: seq<Option<Grant>>)
    requires InRange(st, at) && |grants| == |at| && IsProposalKind(kind) && KeysDistinct(st.tickets) && GrantsStand(run, st)
    requires kind == ApprovalGranted ==> GrantsFit(run, st, at, grants)
    requires ProposalAll(st, m, kind, at, grants).ok
    ensures GrantsStand(run, ProposalAll(st, m, kind, at, grants))
  {
    hide GrantsStand, HasOverride, ProposalOne;
    if at != [] {
      var n := |at| - 1;
      var s := ProposalAll(st, m, kind, at[..n], grants[..n]);
      ProposalOneQuiet(s, m, kind, at[n], grants[n]);
      ProposalStands(run, st, m, kind, at[..n], grants[..n]);
      ProposalTracks(st, m, kind, at[..n], grants[..n]);
      OverrideByHead(run, st.tickets[at[n]], s.tickets[at[n]]);
      ProposalOneStands(run, s, m, kind, at[n], grants[n]);
    }
  }

  lemma GrantsOfFit(run: Run, m: Mail, st: State, at: seq<nat>, recs: Option<seq<Recommendation>>)
    requires InRange(st, at) && ProposalFits(run, m, st, at, recs)
    ensures GrantsFit(run, st, at, Grants(run, m, st, at, recs))
  {
    hide Expand, PriorGrant, HasOverride, Section;
    var grants := Grants(run, m, st, at, recs);
    forall k | 0 <= k < |at| ensures grants[k].Some? && (grants[k].value.ReplayOnly? ==> HasOverride(run, st.tickets[at[k]])) {
      assert SectionGrant(run, m, st.tickets[at[k]], recs.value).Some?;
    }
  }

  /** Same tickets' identities and decisions, no new grant. */
  lemma NoGrantStands(run: Run, st: State, s: State)
    requires GrantsStand(run, st) && |s.tickets| == |st.tickets|
    requires forall j :: 0 <= j < |st.tickets| ==> s.tickets[j].head == st.tickets[j].head && s.tickets[j].live == st.tickets[j].live
    requires forall e :: e in s.ledger.events && e !in st.ledger.events ==> e.kind != ApprovalGranted
    ensures GrantsStand(run, s)
  {
    forall j | 0 <= j < |s.tickets| && HasEvent(s.ledger, KeyOf(s, j), ApprovalGranted)
      ensures s.tickets[j].live.decision != Unreviewed || HasOverride(run, s.tickets[j])
    {
      var e :| e in s.ledger.events && e.ticket == KeyOf(s, j) && e.kind == ApprovalGranted;
      assert HasEvent(st.ledger, KeyOf(st, j), ApprovalGranted);
      OverrideByHead(run, st.tickets[j], s.tickets[j]);
    }
  }

  lemma ResponseStands(run: Run, st: State, m: Mail, i: nat)
    requires run.anchors.schema != 1 && i < |st.tickets| && GrantsStand(run, st)
    ensures GrantsStand(run, ResponseStep(run, st, m, i))
  {
    ResponseTracks(run, st, m, i);
    hide GrantsStand, Tracks, ResponseStep;
    NoGrantTracked(run, st, ResponseStep(run, st, m, i));
  }

  lemma NoGrantTracked(run: Run, st: State, s: State)
    requires GrantsStand(run, st) && Tracks(st, s, LANE_KINDS)
    requires forall j :: 0 <= j < |st.tickets| ==> s.tickets[j].live == st.tickets[j].live
    ensures GrantsStand(run, s)
  {
    hide GrantsStand, Knows;
    NoGrantStands(run, st, s);
  }

  lemma MailStands(run: Run, st: State, m: Mail)
    requires run.anchors.schema != 1 && KeysDistinct(st.tickets) && GrantsStand(run, st) && MailStep(run, st, m).ok
    ensures GrantsStand(run, MailStep(run, st, m))
  {
    hide ResponseStep, ProposalAll, Resolutions, GrantsStand, ProposalFits, GrantsFit;
    if !IsAnchor(run, m) {
      var r := ScopeOf(run, m);
      var s0 := Account(st, m);
      SameEventsStand(run, st, s0);
      if Ambiguous(r) || r == {} {
        SameEventsStand(run, st, MailStep(run, st, m));
      } else if HasProposal(r) {
        var at := Target(r);
        var recs := ProposalRecs(run, ProposalMail(run, r), Refs(s0, at));
        var kind := ProposalKind(run, m, ProposalFits(run, m, s0, at, recs));
        if kind == ApprovalGranted {
          GrantsOfFit(run, m, s0, at, recs);
        }
        ProposalStands(run, s0, m, kind, at, Grants(run, m, s0, at, recs));
      } else {
        ResponseStands(run, s0, m, Target(r)[0]);
      }
    }
  }

  lemma SameEventsStand(run: Run, st: State, s: State)
    requires GrantsStand(run, st) && s.tickets == st.tickets && s.ledger.events == st.ledger.events
    ensures GrantsStand(run, s)
  {
    hide HasOverride;
    NoGrantStands(run, st, s);
  }

  lemma HeadsKeepKeys(st: State, s: State, kinds: set<Kind>)
    requires Tracks(st, s, kinds) && KeysDistinct(st.tickets)
    ensures KeysDistinct(s.tickets)
  {
  }

  lemma {:induction false} MailsStand(run: Run, tickets: seq<TicketState>, n: nat)
    requires run.anchors.schema != 1 && n <= |run.mails| && KeysDistinct(tickets)
    requires MailsUpTo(run, Begin(tickets), n).ok
    ensures GrantsStand(run, MailsUpTo(run, Begin(tickets), n))
  {
    hide MailStep, HasOverride, KeysDistinct, Tracks;
    if n > 0 {
      var s := MailsUpTo(run, Begin(tickets), n - 1);
      MailTracks(run, s, run.mails[n - 1]);
      MailsTrack(run, tickets, n - 1);
      HeadsKeepKeys(Begin(tickets), s, MAIL_KINDS);
      MailsStand(run, tickets, n - 1);
      MailStands(run, s, run.mails[n - 1]);
    }
  }

  ghost predicate ReviewedBy(run: Run, j: nat, n: nat) {
    exists i :: 0 <= i < n && i < |run.reviewAt| && run.reviewAt[i] == j
  }

  /** Through the reviews: grants stay, reviewed tickets have their event, and others are as the mails left them. */
  ghost predicate ReviewsSoFar(run: Run, mails: State, s: State, n: nat) {
    && |s.tickets| == |mails.tickets|
    && (forall e: EventKey :: e.kind == ApprovalGranted ==> (e in s.ledger.events <==> e in mails.ledger.events))
    && (forall j :: 0 <= j < |s.tickets| ==>
          s.tickets[j].head == mails.tickets[j].head
          && (HasEvent(s.ledger, KeyOf(s, j), OperatorReviewed) <==> ReviewedBy(run, j, n))
          && (!ReviewedBy(run, j, n) ==> s.tickets[j] == mails.tickets[j]))
  }

  lemma ReviewsSoFarStep(run: Run, mails: State, s: State, n: nat)
    requires RunInRange(run, |mails.tickets|) && 0 < n <= |run.reviewAt| && KeysDistinct(mails.tickets)
    requires ReviewsSoFar(run, mails, s, n - 1)
    ensures ReviewsSoFar(run, mails, ReviewStep(s, run.anchors.reviews[n - 1], run.reviewAt[n - 1]), n)
  {
    var at := run.reviewAt[n - 1];
    var s' := ReviewStep(s, run.anchors.reviews[n - 1], at);
    ReviewTracks(s, run.anchors.reviews[n - 1], at);
    hide ReviewStep;
    forall j | 0 <= j < |s'.tickets|
      ensures HasEvent(s'.ledger, KeyOf(s', j), OperatorReviewed) <==> ReviewedBy(run, j, n)
      ensures !ReviewedBy(run, j, n) ==> s'.tickets[j] == mails.tickets[j]
    {
      assert ReviewedBy(run, j, n) <==> ReviewedBy(run, j, n - 1) || j == at;
      if e :| e in s'.ledger.events && e.ticket == KeyOf(s', j) && e.kind == OperatorReviewed {
        if e in s.ledger.events {
          assert HasEvent(s.ledger, KeyOf(s, j), OperatorReviewed);
        }
      }
      if ReviewedBy(run, j, n - 1) {
        var e :| e in s.ledger.events && e.ticket == KeyOf(s, j) && e.kind == OperatorReviewed;
        assert e in s'.ledger.events;
      }
    }
  }

  lemma {:induction false} ReviewsKeepGrants(run: Run, tickets: seq<TicketState>, n: nat)
    requires run.anchors.schema != 1 && RunInRange(run, |tickets|) && n <= |run.reviewAt| && KeysDistinct(tickets)
    ensures ReviewsSoFar(run, AfterMails(run, tickets), ReviewsUpTo(run, AfterMails(run, tickets), n), n)
  {
    hide MailsUpTo, ReviewStep, ReviewsSoFar, KeysDistinct, Tracks;
    var mails := AfterMails(run, tickets);
    MailsTrack(run, tickets, |run.mails|);
    if n == 0 {
      NoReviewYet(run, tickets, mails);
    } else {
      ReviewsKeepGrants(run, tickets, n - 1);
      HeadsKeepKeys(Begin(tickets), mails, MAIL_KINDS);
      ReviewsSoFarStep(run, mails, ReviewsUpTo(run, mails, n - 1), n);
    }
  }

  lemma NoReviewYet(run: Run, tickets: seq<TicketState>, mails: State)
    requires Tracks(Begin(tickets), mails, MAIL_KINDS)
    ensures ReviewsSoFar(run, mails, mails, 0)
  {
  }

  /** The anchor file's reviews are at the tickets they name. */
  ghost predicate ReviewsNamed(run: Run, tickets: seq<TicketState>)
    requires RunInRange(run, |tickets|)
  {
    forall n :: 0 <= n < |run.reviewAt| ==> tickets[run.reviewAt[n]].head.selector == run.anchors.reviews[n].ticket
  }

  /** Before the payment lanes: a granted ticket is decided or has a review event. */
  lemma GrantsBeforeLanes(run: Run, tickets: seq<TicketState>)
    requires run.anchors.schema != 1 && RunInRange(run, |tickets|) && KeysDistinct(tickets) && ReviewsNamed(run, tickets)
    requires AfterReviews(run, tickets).ok
    ensures var mid := AfterReviews(run, tickets);
            && GrantsDecided(mid.ledger, mid.tickets)
            && forall j :: 0 <= j < |tickets| ==>
                 (HasEvent(mid.ledger, KeyOf(mid, j), OperatorReviewed) <==> ReviewedBy(run, j, |run.reviewAt|))
  {
    hide MailsUpTo, ReviewsUpTo, Tracks, HasOverride;
    var mails, mid := AfterMails(run, tickets), AfterReviews(run, tickets);
    MailsTrack(run, tickets, |run.mails|);
    MailsStand(run, tickets, |run.mails|);
    ReviewsKeepGrants(run, tickets, |run.reviewAt|);
    forall j | 0 <= j < |tickets| && HasEvent(mid.ledger, KeyOf(mid, j), ApprovalGranted)
      ensures mid.tickets[j].live.decision != Unreviewed || HasEvent(mid.ledger, KeyOf(mid, j), OperatorReviewed)
    {
      if !ReviewedBy(run, j, |run.reviewAt|) {
        var e :| e in mid.ledger.events && e.ticket == KeyOf(mid, j) && e.kind == ApprovalGranted;
        assert HasEvent(mails.ledger, KeyOf(mails, j), ApprovalGranted);
        if HasOverride(run, mails.tickets[j]) {
          OverrideIsReviewed(run, tickets, mails, j);
        }
      }
    }
  }

  lemma OverrideIsReviewed(run: Run, tickets: seq<TicketState>, mails: State, j: nat)
    requires RunInRange(run, |tickets|) && KeysDistinct(tickets) && ReviewsNamed(run, tickets)
    requires Tracks(Begin(tickets), mails, MAIL_KINDS) && j < |tickets| && HasOverride(run, mails.tickets[j])
    ensures ReviewedBy(run, j, |run.reviewAt|)
  {
    var n :| 0 <= n < |run.anchors.reviews| && run.anchors.reviews[n].ticket == mails.tickets[j].head.selector;
    assert tickets[run.reviewAt[n]].head.selector.key == tickets[j].head.selector.key;
    assert run.reviewAt[n] == j;
  }

  // ---------- Granted approvals ----------

  /** Entry `i` books a discrepancy: a new verdict on its ticket, or the replay of an earlier one. */
  ghost predicate Discrepant(run: Run, mid: State, i: nat)
    requires RunInRange(run, |mid.tickets|) && i < |run.operatorAt|
  {
    var p := run.anchors.operatorPayments[i];
    if PriorEvents(run, p) == {} then OperatorVerdict(run, p, mid.tickets[run.operatorAt[i]]).0 == PaymentDiscrepancy
    else ReplaysDiscrepancy(run, i)
  }

  ghost predicate ReplaysDiscrepancy(run: Run, i: nat) {
    i < |run.anchors.operatorPayments| &&
    exists k :: k in PriorEvents(run, run.anchors.operatorPayments[i]) && k.kind == PaymentDiscrepancy
  }

  /** Entry `i` books a discrepancy on an open ticket that the mails granted and no review of the file names:
      it replays one, or it is the first payment of a ticket the mails left approved, dated in time and off its total. */
  ghost predicate TakesBack(run: Run, tickets: seq<TicketState>, i: nat)
    requires RunInRange(run, |tickets|) && i < |run.operatorAt|
  {
    var p, at := run.anchors.operatorPayments[i], run.operatorAt[i];
    var t, mails := tickets[at], AfterMails(run, tickets);
    && t.live.workflow == Active && !ReviewedBy(run, at, |run.reviewAt|)
    && HasEvent(mails.ledger, KeyOf(mails, at), ApprovalGranted)
    && (if PriorEvents(run, p) != {} then ReplaysDiscrepancy(run, i)
        else t.live.payment == NotPaid && IsApproved(mails.tickets[at])
             && p.date <= run.asOf && p.cents != Tickets.Payable(t.items))
  }

  /** The same, of the state before the payment lanes. */
  ghost predicate UndoesGrant(run: Run, mid: State, i: nat)
    requires RunInRange(run, |mid.tickets|) && i < |run.operatorAt|
  {
    var at := run.operatorAt[i];
    && Discrepant(run, mid, i) && mid.tickets[at].live.workflow == Active
    && HasEvent(mid.ledger, KeyOf(mid, at), ApprovalGranted) && !ReviewedBy(run, at, |run.reviewAt|)
  }

  /** The one event of entry `i` is a discrepancy exactly when the entry is discrepant. */
  lemma DiscrepantEvent(run: Run, mid: State, s: State, i: nat, e: EventKey)
    requires RunInRange(run, |mid.tickets|) && i < |run.operatorAt| && |s.tickets| == |mid.tickets|
    requires DoneBy(run, mid, s, i, e) && Reproduces(run.prev, s.ledger)
    ensures e.kind == PaymentDiscrepancy <==> Discrepant(run, mid, i)
  {
    hide OperatorVerdict, OperatorApply;
    var prior := PriorEvents(run, run.anchors.operatorPayments[i]);
    if prior != {} {
      assert e in prior;
      forall k | k in prior ensures k == e {
        assert k in s.ledger.events;
      }
    }
  }

  /** The granted-approval check passes exactly when no operator discrepancy takes an unreviewed grant's decision back. */
  lemma GrantsDecidedExactly(run: Run, tickets: seq<TicketState>)
    requires run.anchors.schema != 1 && RunOk(run, tickets) && Succeeds(run, tickets) && ReviewsNamed(run, tickets)
    ensures var s := AfterAll(run, tickets);
            GrantsDecided(s.ledger, s.tickets) <==> forall i :: 0 <= i < |run.operatorAt| ==> !TakesBack(run, tickets, i)
  {
    hide OperatorUpTo, LinksUpTo, ReviewsUpTo, MailsUpTo, RunOk, Reproduces, GrantsDecided, UndoesGrant, TakesBack, ReviewsNamed;
    RunOkInRange(run, tickets);
    OkBefore(run, tickets);
    forall i | 0 <= i < |run.operatorAt| ensures TakesBack(run, tickets, i) <==> UndoesGrant(run, AfterReviews(run, tickets), i) {
      TakesBackAtMid(run, tickets, i);
    }
    GrantsDecidedAtMid(run, tickets);
  }

  /** What mails and reviews leave of a ticket no review names. */
  lemma TakesBackAtMid(run: Run, tickets: seq<TicketState>, i: nat)
    requires run.anchors.schema != 1 && RunOk(run, tickets) && AfterReviews(run, tickets).ok && i < |run.operatorAt| && RunInRange(run, |tickets|)
    ensures TakesBack(run, tickets, i) <==> UndoesGrant(run, AfterReviews(run, tickets), i)
  {
    hide MailsUpTo, ReviewsUpTo, ReplaysDiscrepancy, PriorEvents, LanesOk, TextsOk, MailsOk, Authentic, PaymentFields, Tickets.Payable;
    var mails, mid, at := AfterMails(run, tickets), AfterReviews(run, tickets), run.operatorAt[i];
    ReviewsKeepGrants(run, tickets, |run.reviewAt|);
    AllMailsMayChange(run, tickets, |run.mails|);
    if !ReviewedBy(run, at, |run.reviewAt|) {
      assert mid.tickets[at] == mails.tickets[at];
      PayableKept(tickets[at].items, mails.tickets[at].items);
    }
  }

  lemma GrantsDecidedAtMid(run: Run, tickets: seq<TicketState>)
    requires run.anchors.schema != 1 && RunOk(run, tickets) && Succeeds(run, tickets) && ReviewsNamed(run, tickets)
    ensures var mid, s := AfterReviews(run, tickets), AfterAll(run, tickets);
            GrantsDecided(s.ledger, s.tickets) <==> forall i :: 0 <= i < |run.operatorAt| ==> !UndoesGrant(run, mid, i)
  {
    hide OperatorUpTo, LinksUpTo, ReviewsUpTo, MailsUpTo, LanesOk, TextsOk, MailsOk, LinkUntouched, OperatorInvariant, AllKeep,
         Authentic, PaymentFields, GrantsDecided, UndoesGrant, ReviewsNamed, KeysDistinct, Reproduces, Tracks;
    var mid, linked, s := AfterReviews(run, tickets), AfterLinks(run, tickets), AfterAll(run, tickets);
    RunFacts(run, tickets);
    OkBefore(run, tickets);
    GrantsBeforeLanes(run, tickets);
    LanesTrack(run, tickets);
    if GrantsDecided(s.ledger, s.tickets) {
      forall i | 0 <= i < |run.operatorAt| ensures !UndoesGrant(run, mid, i) {
        TakenBackIsSeen(run, mid, linked, s, i);
      }
    }
    if forall i :: 0 <= i < |run.operatorAt| ==> !UndoesGrant(run, mid, i) {
      NothingTakenBack(run, mid, linked, s);
    }
  }

  lemma TakenBackIsSeen(run: Run, mid: State, linked: State, s: State, i: nat)
    requires RunInRange(run, |mid.tickets|) && |linked.tickets| == |mid.tickets| && i < |run.operatorAt|
    requires OperatorInvariant(run, mid, linked, s, |run.operatorAt|) && Reproduces(run.prev, s.ledger)
    requires Tracks(mid, s, LANE_KINDS) && GrantsDecided(s.ledger, s.tickets)
    requires HasEvent(mid.ledger, KeyOf(mid, run.operatorAt[i]), OperatorReviewed) <==> ReviewedBy(run, run.operatorAt[i], |run.reviewAt|)
    ensures !UndoesGrant(run, mid, i)
  {
    hide OperatorInvariant, Knows, Discrepant, Reproduces, ReviewedBy, HasEvent;
    if Discrepant(run, mid, i) && mid.tickets[run.operatorAt[i]].live.workflow == Active {
      DiscrepancyUndecides(run, mid, linked, s, i);
      LanesAddNone(mid, s, run.operatorAt[i]);
    }
  }

  lemma DiscrepancyUndecides(run: Run, mid: State, linked: State, s: State, i: nat)
    requires RunInRange(run, |mid.tickets|) && |linked.tickets| == |mid.tickets| && i < |run.operatorAt|
    requires OperatorInvariant(run, mid, linked, s, |run.operatorAt|) && Reproduces(run.prev, s.ledger)
    requires Discrepant(run, mid, i) && mid.tickets[run.operatorAt[i]].live.workflow == Active
    ensures s.tickets[run.operatorAt[i]].live.decision == Unreviewed
  {
    hide LinkDone, Named, Sources, OperatorVerdict, PriorEvents, Agrees, Discrepant, Reproduces;
    assert OperatorDone(run, mid, s, i);
    var e :| DoneBy(run, mid, s, i, e);
    DiscrepantEvent(run, mid, s, i, e);
  }

  lemma LanesAddNone(mid: State, s: State, j: nat)
    requires Tracks(mid, s, LANE_KINDS) && j < |mid.tickets|
    ensures HasEvent(s.ledger, KeyOf(s, j), ApprovalGranted) <==> HasEvent(mid.ledger, KeyOf(mid, j), ApprovalGranted)
    ensures HasEvent(s.ledger, KeyOf(s, j), OperatorReviewed) <==> HasEvent(mid.ledger, KeyOf(mid, j), OperatorReviewed)
  {
    hide Knows;
  }

  lemma NothingTakenBack(run: Run, mid: State, linked: State, s: State)
    requires RunInRange(run, |mid.tickets|) && |linked.tickets| == |mid.tickets|
    requires LinkUntouched(run, mid, linked, |run.paymentIds|)
    requires OperatorInvariant(run, mid, linked, s, |run.operatorAt|) && Reproduces(run.prev, s.ledger)
    requires Tracks(mid, s, LANE_KINDS) && GrantsDecided(mid.ledger, mid.tickets)
    requires forall j :: 0 <= j < |mid.tickets| ==>
               (HasEvent(mid.ledger, KeyOf(mid, j), OperatorReviewed) <==> ReviewedBy(run, j, |run.reviewAt|))
    requires forall i :: 0 <= i < |run.operatorAt| ==> !UndoesGrant(run, mid, i)
    ensures GrantsDecided(s.ledger, s.tickets)
  {
    hide OperatorInvariant, LinkUntouched, Tracks, Outcome, OperatorDone, HasEvent, Reproduces;
    forall j | 0 <= j < |s.tickets| && HasEvent(s.ledger, s.tickets[j].head.selector.key, ApprovalGranted)
      ensures s.tickets[j].live.decision != Unreviewed || HasEvent(s.ledger, s.tickets[j].head.selector.key, OperatorReviewed)
    {
      assert |s.tickets| == |mid.tickets| by { SameCount(mid, s); }
      LanesAddNone(mid, s, j);
      if s.tickets[j] != mid.tickets[j] && mid.tickets[j].live.decision != Unreviewed {
        var i, viaLink := WhoMoved(run, mid, linked, s, j);
        if viaLink {
          var b :| b in BoundAt(run, i) && b.ticket == j;
          LinkMovesToApproved(run, mid, s, i, b);
        } else {
          OperatorKeepsDecision(run, mid, s, i);
        }
      }
    }
  }

  lemma SameCount(mid: State, s: State)
    requires Tracks(mid, s, LANE_KINDS)
    ensures |s.tickets| == |mid.tickets|
  {
  }

  lemma LinkMovesToApproved(run: Run, mid: State, s: State, i: nat, b: Bound)
    requires RunInRange(run, |mid.tickets|) && MailAt(run, i) && |s.tickets| == |mid.tickets|
    requires run.paymentIds[i] in run.links.payments && b in BoundAt(run, i) && BoundInRange(mid, BoundAt(run, i))
    requires Outcome(run, mid, s, LinkedMail(run, i), BoundAt(run, i))
    ensures s.tickets[b.ticket] == mid.tickets[b.ticket] || s.tickets[b.ticket].live.decision == Approved
  {
    hide Judge, Blocks, PaymentFor, OnlyHeld, OnlyPaid, AllHeld;
  }

  lemma OperatorKeepsDecision(run: Run, mid: State, s: State, i: nat)
    requires RunInRange(run, |mid.tickets|) && i < |run.operatorAt| && |s.tickets| == |mid.tickets|
    requires OperatorDone(run, mid, s, i) && Reproduces(run.prev, s.ledger)
    requires HasEvent(mid.ledger, KeyOf(mid, run.operatorAt[i]), ApprovalGranted) && !UndoesGrant(run, mid, i)
    requires mid.tickets[run.operatorAt[i]].live.decision != Unreviewed
    ensures s.tickets[run.operatorAt[i]].live.decision != Unreviewed || ReviewedBy(run, run.operatorAt[i], |run.reviewAt|)
  {
    hide OnlyEvent, OperatorVerdict, PriorEvents, Discrepant, Reproduces, HasEvent, ReviewedBy;
    var e :| DoneBy(run, mid, s, i, e);
    DiscrepantEvent(run, mid, s, i, e);
  }

  // ---------- Payment discrepancies ----------

  /** What a discrepancy event of a finished run is: off its ticket's total, unless it replays one. */
  lemma DiscrepancyIsOff(run: Run, tickets: seq<TicketState>, e: EventKey, j: nat)
    requires run.anchors.schema != 1 && RunOk(run, tickets) && Succeeds(run, tickets)
    requires var s := AfterAll(run, tickets);
             e in s.ledger.events && e.kind == PaymentDiscrepancy && j < |tickets| && s.tickets[j].head.selector.key == e.ticket
    ensures var mid, s := AfterReviews(run, tickets), AfterAll(run, tickets);
            Tickets.Payable(s.tickets[j].items) == Tickets.Payable(mid.tickets[j].items)
    ensures var mid, s := AfterReviews(run, tickets), AfterAll(run, tickets);
            || s.ledger.events[e].cents != Some(Tickets.Payable(mid.tickets[j].items))
            || exists i :: 0 <= i < |run.operatorAt| && run.operatorAt[i] == j && ReplaysDiscrepancy(run, i)
                           && s.ledger.events[e].cents == Some(run.anchors.operatorPayments[i].cents)
  {
    hide OperatorUpTo, LinksUpTo, ReviewsUpTo, MailsUpTo, LanesOk, TextsOk, MailsOk, LinkDone, OperatorDone, Sources,
         LinkNames, OperatorNames, Authentic, PaymentFields, LinkedOrUnmatched, LanesKept, AllKeep, Tickets.Payable, LinkUntouched,
         Reproduces, KeysDistinct;
    RunFacts(run, tickets);
    var mid, linked, s := AfterReviews(run, tickets), AfterLinks(run, tickets), AfterAll(run, tickets);
    KeysKept(tickets, mid.tickets);
    var v := s.ledger.events[e];
    assert v.Key() == e;
    assert Named(run, mid, v, |run.paymentIds|, |run.operatorAt|);
    HeadsKept(run, mid, linked, s, j);
    TotalsKept(run, mid, linked, s, j);
    if i :| 0 <= i < |run.paymentIds| && LinkNames(run, mid, v, i) {
      assert LinkDone(run, mid, s, i);
      LinkDiscrepancyIsOff(run, mid, s, e, i, j);
    } else {
      var i :| 0 <= i < |run.operatorAt| && OperatorNames(run, mid, v, i);
      assert OperatorDone(run, mid, s, i);
      OperatorDiscrepancyIsOff(run, mid, s, e, i, j);
    }
  }

  /** No lane changes what a ticket is owed. */
  lemma TotalsKept(run: Run, mid: State, linked: State, s: State, j: nat)
    requires RunInRange(run, |mid.tickets|) && |linked.tickets| == |mid.tickets|
    requires LinkUntouched(run, mid, linked, |run.paymentIds|) && OperatorInvariant(run, mid, linked, s, |run.operatorAt|)
    requires |s.tickets| == |mid.tickets| && j < |mid.tickets|
    ensures Tickets.Payable(s.tickets[j].items) == Tickets.Payable(mid.tickets[j].items)
  {
    hide Outcome, OperatorDone, OperatorInvariant, LinkUntouched, Tickets.Payable;
    if s.tickets[j] != mid.tickets[j] {
      var i, viaLink := WhoMoved(run, mid, linked, s, j);
      if viaLink {
        var b :| b in BoundAt(run, i) && b.ticket == j;
        LinkKeepsTotal(run, mid, s, i, b);
      } else {
        OperatorKeepsTotal(run, mid, s, i);
      }
    }
  }

  lemma LinkKeepsTotal(run: Run, mid: State, s: State, i: nat, b: Bound)
    requires RunInRange(run, |mid.tickets|) && MailAt(run, i) && |s.tickets| == |mid.tickets|
    requires run.paymentIds[i] in run.links.payments && b in BoundAt(run, i) && BoundInRange(mid, BoundAt(run, i))
    requires Outcome(run, mid, s, LinkedMail(run, i), BoundAt(run, i))
    ensures Tickets.Payable(s.tickets[b.ticket].items) == Tickets.Payable(mid.tickets[b.ticket].items)
  {
    hide Judge, Blocks, PaymentFor, OnlyHeld, OnlyPaid, AllHeld, Tickets.Payable;
    var m := LinkedMail(run, i);
    if Judge(run, mid, m, BoundAt(run, i)) == Verdict.Payable {
      var p := PaymentFor(Blocks(run, mid, m, BoundAt(run, i)).value, b.reference);
      SettlementKeepsTotal(mid.tickets[b.ticket], m.on, p.cents, p.reference);
    }
  }

  lemma OperatorKeepsTotal(run: Run, mid: State, s: State, i: nat)
    requires RunInRange(run, |mid.tickets|) && i < |run.operatorAt| && |s.tickets| == |mid.tickets|
    requires OperatorDone(run, mid, s, i)
    ensures var j := run.operatorAt[i]; Tickets.Payable(s.tickets[j].items) == Tickets.Payable(mid.tickets[j].items)
  {
    hide OnlyEvent, OperatorVerdict, PriorEvents, Tickets.Payable;
    var e :| DoneBy(run, mid, s, i, e);
    var p := run.anchors.operatorPayments[i];
    SettlementKeepsTotal(mid.tickets[run.operatorAt[i]], Some(p.date), p.cents, p.reference);
  }

  lemma LinkDiscrepancyIsOff(run: Run, mid: State, s: State, e: EventKey, i: nat, j: nat)
    requires RunInRange(run, |mid.tickets|) && KeysDistinct(mid.tickets) && |s.tickets| == |mid.tickets|
    requires e in s.ledger.events && e.kind == PaymentDiscrepancy && s.ledger.events[e].Key() == e
    requires i < |run.paymentIds| && LinkNames(run, mid, s.ledger.events[e], i) && LinkDone(run, mid, s, i)
    requires j < |mid.tickets| && KeyOf(mid, j) == e.ticket
    ensures s.ledger.events[e].cents != Some(Tickets.Payable(mid.tickets[j].items))
  {
    hide Outcome, LinkAuthority, Tickets.Payable, PaymentFor, KeysDistinct, GroupSettled, HeldAs, SetAside, NonePaid;
    PaymentIdLinked(run, |mid.tickets|, i);
    var m := LinkedMail(run, i);
    assert e.evidence == MailKey(m.key);
    OutcomeIsAllOrNothing(run, mid, s, i);
    if ps :| GroupSettled(run, mid, s, i, ps) {
      SettledIsOnlyPaid(run, mid, s, i, ps);
      PaidHasNoDiscrepancy(run, mid, s, m, BoundAt(run, i), ps, e);
    } else if ps :| HeldAs(run, mid, s, m, BoundAt(run, i), ps) {
      HeldHasOffDiscrepancy(run, mid, s, m, BoundAt(run, i), ps, e, j);
    } else {
      SetAsideHasNone(s, m, e);
    }
  }

  lemma SettledIsOnlyPaid(run: Run, mid: State, s: State, i: nat, ps: seq<PaymentText>)
    requires RunInRange(run, |mid.tickets|) && MailAt(run, i) && |s.tickets| == |mid.tickets|
    requires run.paymentIds[i] in run.links.payments && BoundInRange(mid, BoundAt(run, i)) && GroupSettled(run, mid, s, i, ps)
    ensures OnlyPaid(run, mid, s, LinkedMail(run, i), BoundAt(run, i), ps)
  {
    hide OnlyPaid, LinkAuthority;
  }

  lemma PaidHasNoDiscrepancy(run: Run, mid: State, s: State, m: Mail, bound: seq<Bound>, ps: seq<PaymentText>, e: EventKey)
    requires BoundInRange(mid, bound) && OnlyPaid(run, mid, s, m, bound, ps)
    requires e in s.ledger.events && e.evidence == MailKey(m.key) && s.ledger.events[e].Key() == e
    ensures e.kind != PaymentDiscrepancy
  {
    hide OfTicket, RecordedEvent, PaymentFor;
    var v := s.ledger.events[e];
    var b :| b in bound && OfTicket(run, m, mid.tickets[b.ticket],
               RecordedEvent(m, mid.tickets[b.ticket], PaymentFor(ps, b.reference)), v);
    NotADiscrepancy(run, m, mid.tickets[b.ticket], PaymentFor(ps, b.reference), v);
  }

  lemma HeldHasOffDiscrepancy(run: Run, mid: State, s: State, m: Mail, bound: seq<Bound>, ps: seq<PaymentText>, e: EventKey, j: nat)
    requires BoundInRange(mid, bound) && KeysDistinct(mid.tickets) && HeldAs(run, mid, s, m, bound, ps)
    requires e in s.ledger.events && e.evidence == MailKey(m.key) && s.ledger.events[e].Key() == e && e.kind == PaymentDiscrepancy
    requires j < |mid.tickets| && KeyOf(mid, j) == e.ticket
    ensures s.ledger.events[e].cents != Some(Tickets.Payable(mid.tickets[j].items))
  {
    hide OfTicket, HeldEvent, PaymentFor, KeysDistinct, AllHeld, Tickets.Payable;
    var v := s.ledger.events[e];
    var b :| b in bound && e.ticket == KeyOf(mid, b.ticket)
             && OfTicket(run, m, mid.tickets[b.ticket], HeldEvent(m, mid.tickets[b.ticket], PaymentFor(ps, b.reference)), v);
    HeldDiscrepancy(run, m, mid.tickets[b.ticket], PaymentFor(ps, b.reference), v);
    SameKeySameTicket(mid.tickets, b.ticket, j);
  }

  lemma SetAsideHasNone(s: State, m: Mail, e: EventKey)
    requires e in s.ledger.events && e.evidence == MailKey(m.key)
    ensures !SetAside(s, m)
  {
  }

  lemma SameKeySameTicket(tickets: seq<TicketState>, i: nat, j: nat)
    requires KeysDistinct(tickets) && i < |tickets| && j < |tickets|
    requires tickets[i].head.selector.key == tickets[j].head.selector.key
    ensures i == j
  {
  }

  lemma NotADiscrepancy(run: Run, m: Mail, t: TicketState, p: PaymentText, v: Event)
    requires OfTicket(run, m, t, RecordedEvent(m, t, p), v)
    ensures v.kind != PaymentDiscrepancy
  {
  }

  lemma HeldDiscrepancy(run: Run, m: Mail, t: TicketState, p: PaymentText, v: Event)
    requires OfTicket(run, m, t, HeldEvent(m, t, p), v) && v.kind == PaymentDiscrepancy
    ensures v.cents != Some(Tickets.Payable(t.items))
  {
    hide Tickets.Payable;
  }

  lemma OperatorDiscrepancyIsOff(run: Run, mid: State, s: State, e: EventKey, i: nat, j: nat)
    requires RunInRange(run, |mid.tickets|) && KeysDistinct(mid.tickets) && |s.tickets| == |mid.tickets|
    requires e in s.ledger.events && e.kind == PaymentDiscrepancy && s.ledger.events[e].Key() == e
    requires i < |run.operatorAt| && OperatorNames(run, mid, s.ledger.events[e], i) && OperatorDone(run, mid, s, i)
    requires j < |mid.tickets| && KeyOf(mid, j) == e.ticket
    ensures run.operatorAt[i] == j && s.ledger.events[e].cents == Some(run.anchors.operatorPayments[i].cents)
    ensures ReplaysDiscrepancy(run, i) || s.ledger.events[e].cents != Some(Tickets.Payable(mid.tickets[j].items))
  {
    hide Tickets.Payable;
    var d :| DoneBy(run, mid, s, i, d);
    assert d == e;
    SameKeySameTicket(mid.tickets, run.operatorAt[i], j);
    if PriorEvents(run, run.anchors.operatorPayments[i]) != {} {
      assert e in PriorEvents(run, run.anchors.operatorPayments[i]);
    }
  }

  /** The discrepancy check passes exactly when every replayed operator discrepancy is still off what its ticket
      owes by the input items and their reviews. */
  lemma DiscrepanciesDifferExactly(run: Run, tickets: seq<TicketState>)
    requires run.anchors.schema != 1 && RunOk(run, tickets) && Succeeds(run, tickets)
    ensures var s := AfterAll(run, tickets);
            DiscrepanciesDiffer(s.ledger, s.tickets) <==>
            forall i :: 0 <= i < |run.operatorAt| && ReplaysDiscrepancy(run, i) ==>
              run.anchors.operatorPayments[i].cents != Owed(run, tickets[run.operatorAt[i]], run.operatorAt[i])
  {
    hide OperatorUpTo, LinksUpTo, ReviewsUpTo, MailsUpTo, RunOk, Reproduces, Owed, ReplaysDiscrepancy, DiscrepanciesDiffer;
    RunOkInRange(run, tickets);
    OkBefore(run, tickets);
    forall i | 0 <= i < |run.operatorAt|
      ensures Owed(run, tickets[run.operatorAt[i]], run.operatorAt[i])
              == Tickets.Payable(AfterReviews(run, tickets).tickets[run.operatorAt[i]].items)
    {
      OwedBeforeLanes(run, tickets, run.operatorAt[i]);
    }
    DiscrepanciesDifferAtMid(run, tickets);
  }

  lemma DiscrepanciesDifferAtMid(run: Run, tickets: seq<TicketState>)
    requires run.anchors.schema != 1 && RunOk(run, tickets) && Succeeds(run, tickets)
    ensures var mid, s := AfterReviews(run, tickets), AfterAll(run, tickets);
            DiscrepanciesDiffer(s.ledger, s.tickets) <==>
            forall i :: 0 <= i < |run.operatorAt| && ReplaysDiscrepancy(run, i) ==>
              run.anchors.operatorPayments[i].cents != Tickets.Payable(mid.tickets[run.operatorAt[i]].items)
  {
    hide OperatorUpTo, LinksUpTo, ReviewsUpTo, MailsUpTo, LanesOk, TextsOk, MailsOk, LinkUntouched, OperatorInvariant, AllKeep,
         ReplaysDiscrepancy, Authentic, PaymentFields, Tickets.Payable, KeysDistinct, Reproduces;
    var mid, linked, s := AfterReviews(run, tickets), AfterLinks(run, tickets), AfterAll(run, tickets);
    RunFacts(run, tickets);
    if DiscrepanciesDiffer(s.ledger, s.tickets) {
      forall i | 0 <= i < |run.operatorAt| && ReplaysDiscrepancy(run, i)
        ensures run.anchors.operatorPayments[i].cents != Tickets.Payable(mid.tickets[run.operatorAt[i]].items)
      {
        ReplayedDiscrepancyIsSeen(run, mid, linked, s, i);
      }
    }
    if forall i :: 0 <= i < |run.operatorAt| && ReplaysDiscrepancy(run, i) ==>
         run.anchors.operatorPayments[i].cents != Tickets.Payable(mid.tickets[run.operatorAt[i]].items)
    {
      forall e, j | e in s.ledger.events && e.kind == PaymentDiscrepancy
                    && 0 <= j < |s.tickets| && s.tickets[j].head.selector.key == e.ticket
        ensures s.ledger.events[e].cents != Some(Tickets.Payable(s.tickets[j].items))
      {
        DiscrepancyIsOff(run, tickets, e, j);
      }
    }
  }

  lemma ReplayedDiscrepancyIsSeen(run: Run, mid: State, linked: State, s: State, i: nat)
    requires RunInRange(run, |mid.tickets|) && |linked.tickets| == |mid.tickets| && i < |run.operatorAt|
    requires LinkUntouched(run, mid, linked, |run.paymentIds|) && OperatorInvariant(run, mid, linked, s, |run.operatorAt|)
    requires Reproduces(run.prev, s.ledger) && DiscrepanciesDiffer(s.ledger, s.tickets) && ReplaysDiscrepancy(run, i)
    ensures run.anchors.operatorPayments[i].cents != Tickets.Payable(mid.tickets[run.operatorAt[i]].items)
  {
    var j := run.operatorAt[i];
    TotalsKept(run, mid, linked, s, j);
    HeadsKept(run, mid, linked, s, j);
    hide LinkDone, Named, Sources, OperatorVerdict, OperatorApply, Agrees, Tickets.Payable, LinkUntouched;
    assert OperatorDone(run, mid, s, i);
    var e :| DoneBy(run, mid, s, i, e);
    var k :| k in PriorEvents(run, run.anchors.operatorPayments[i]) && k.kind == PaymentDiscrepancy;
    assert k in s.ledger.events;
  }

  // ---------- All of the loader's event checks ----------

  /** What the loader checks of evidence, events and their tickets. */
  ghost predicate EventsPass(l: Ledger, tickets: seq<TicketState>) {
    && LedgerAgrees(l) && OneRecordedPerTicket(l)
    && TargetsKnown(l, tickets) && RecordedTargets(l, tickets) && DiscrepanciesDiffer(l, tickets) && GrantsDecided(l, tickets)
  }

  /** What the loader asks of entry `i`, read off the input tickets, their reviews, the earlier ledger and, for a
      ticket the mails grant, the state they leave it in. */
  ghost predicate EntryStands(run: Run, tickets: seq<TicketState>, i: nat)
    requires RunInRange(run, |tickets|) && i < |run.operatorAt|
  {
    var cents, owed := run.anchors.operatorPayments[i].cents, Owed(run, tickets[run.operatorAt[i]], run.operatorAt[i]);
    (Replays(run, i) ==> cents == owed) && (ReplaysDiscrepancy(run, i) ==> cents != owed) && !TakesBack(run, tickets, i)
  }

  /** A finished run passes all of them exactly when replayed operator payments still equal what their tickets owe,
      replayed discrepancies are still off it, and no discrepancy takes an unreviewed grant's decision back. */
  lemma LoaderAcceptsExactly(run: Run, tickets: seq<TicketState>)
    requires run.anchors.schema != 1 && RunOk(run, tickets) && Succeeds(run, tickets) && ReviewsNamed(run, tickets)
    ensures var s := AfterAll(run, tickets);
            EventsPass(s.ledger, s.tickets) <==> forall i :: 0 <= i < |run.operatorAt| ==> EntryStands(run, tickets, i)
  {
    hide OperatorUpTo, LinksUpTo, ReviewsUpTo, MailsUpTo, LanesOk, TextsOk, MailsOk, KeysDistinct, Authentic, PaymentFields, Reproduces,
         LedgerAgrees, OneRecordedPerTicket, TargetsKnown, RecordedTargets, DiscrepanciesDiffer, GrantsDecided, Replays,
         ReplaysDiscrepancy, TakesBack, ReviewsNamed, Owed;
    FinishedLedgerAgrees(run, tickets);
    EveryTargetKnown(run, tickets);
    RecordedTargetsExactly(run, tickets);
    DiscrepanciesDifferExactly(run, tickets);
    GrantsDecidedExactly(run, tickets);
    if forall i :: 0 <= i < |run.operatorAt| ==> EntryStands(run, tickets, i) {
      forall i | 0 <= i < |run.operatorAt|
        ensures !TakesBack(run, tickets, i) && (Replays(run, i) ==> run.anchors.operatorPayments[i].cents == Owed(run, tickets[run.operatorAt[i]], run.operatorAt[i]))
      {
        assert EntryStands(run, tickets, i);
      }
      forall i | 0 <= i < |run.operatorAt| && ReplaysDiscrepancy(run, i)
        ensures run.anchors.operatorPayments[i].cents != Owed(run, tickets[run.operatorAt[i]], run.operatorAt[i])
      {
        assert EntryStands(run, tickets, i);
      }
    }
  }
}
