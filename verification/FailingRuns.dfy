/** Three concrete refreshes, from bundles the loader accepts to results it refuses. */
module FailingRuns {
  import opened Common
  import opened Tickets
  import opened Ledgers
  import opened Ancestry
  import opened ReducerSpec
  import opened OperatorLane
  import opened PaymentSteps
  import opened Runs
  import opened RunLaws
  import opened OwedTotals
  import opened LoaderChecks

  const NAME := Selector("t", "NEW-01", "")

  /** One ticket of one approved item of ten dollars. */
  function One(live: Live, asks: seq<string>): TicketState {
    TicketState(Head(NAME, Origin.Submission, "Zelle", Some(1000), ["Food"]), live, Review(A, asks, asks, ""),
                [Item("i", 1, "Food", Some(1000), None, A)], [])
  }

  const OPEN := Live(Active, Unreviewed, NotPaid, None, [])
  const READER := Reader(_ => false, _ => None, (_, _) => None, (_, _) => Some([Recommendation("NEW-01", [A], false)]), _ => Some(Positive))
  const NO_LINKS := Links(map[], map[], map[], map[], map[])

  function Payment(cents: nat): OperatorPayment {
    OperatorPayment(NAME, 10, cents, "R", "")
  }

  // ---------- A reviewed amount under an earlier operator payment ----------

  /** The operator finds nine dollars supported. */
  const CORRECTION := OperatorReview(NAME, true, [Override(1, A, Some(900))], [], [], "")

  function Earlier(p: OperatorPayment, kind: Kind, d: Discrepancy): Ledger {
    Ledger(map[PaymentKey(Sha(p)) := Record(Some(10), None, PaymentDigest(Sha(p)))],
           map[EventKey(PaymentKey(Sha(p)), "t", kind) := OperatorEvent(p, "t", kind, d)], map[])
  }

  function Corrected(p: OperatorPayment, kind: Kind, d: Discrepancy): Run {
    Run(READER, Anchors(2, {}, {}, [], [], [CORRECTION], [], [p]), NO_LINKS, [], [], [0], [0], Earlier(p, kind, d), 20, {})
  }

  lemma CorrectedRunOk(p: OperatorPayment, kind: Kind, d: Discrepancy, t: TicketState)
    requires p == Payment(p.cents) && IsPayment(kind) && (kind == PaymentRecorded <==> d == NoDiscrepancy)
    ensures RunOk(Corrected(p, kind, d), [t])
    ensures t.head.selector == NAME ==> ReviewsNamed(Corrected(p, kind, d), [t])
  {
  }

  lemma CorrectedMid(p: OperatorPayment, kind: Kind, d: Discrepancy, live: Live, asks: seq<string>)
    requires live.payment == NotPaid || live.decision == Approved
    ensures var mid := AfterReviews(Corrected(p, kind, d), [One(live, asks)]);
            && mid.ok && mid.ledger.evidence.Keys == {ReviewKey(Sha(CORRECTION))}
            && mid.ledger.events.Keys == {EventKey(ReviewKey(Sha(CORRECTION)), "t", OperatorReviewed)}
            && mid.tickets[0].head.selector.key == "t"
  {
    var run, t := Corrected(p, kind, d), One(live, asks);
    var o := CORRECTION.items;
    assert ItemIndexes(t.items) == {1} && OverrideIndexes(o) == {1} by {
      assert t.items[0].index == 1 && o[0].index == 1;
    }
    var items := OverriddenItems(t.items, o);
    assert items == [Item("i", 1, "Food", Some(1000), Some(900), A)];
    assert OnlyA(items) && RawRollup(items) == A;
    assert items[..0] == [];
    assert AfterMails(run, [t]) == Begin([t]);
    assert ReviewsUpTo(run, Begin([t]), 0) == Begin([t]);
    assert AfterReviews(run, [t]) == ReviewStep(Begin([t]), CORRECTION, 0);
  }

  lemma OnePrior(p: OperatorPayment, kind: Kind, d: Discrepancy)
    ensures PriorEvents(Corrected(p, kind, d), p) == {EventKey(PaymentKey(Sha(p)), "t", kind)}
  {
    var ek := EventKey(PaymentKey(Sha(p)), "t", kind);
    assert ek in Corrected(p, kind, d).prev.events;
  }

  /** After the correction the entry replays its one earlier event. */
  lemma CorrectedReplays(p: OperatorPayment, kind: Kind, d: Discrepancy, mid: State)
    requires p == Payment(p.cents) && IsPayment(kind) && mid.ok && |mid.tickets| == 1 && KeyOf(mid, 0) == "t"
    requires mid.ledger.events.Keys == {EventKey(ReviewKey(Sha(CORRECTION)), "t", OperatorReviewed)}
    ensures var s, run := OperatorStep(Corrected(p, kind, d), mid, p, 0), Corrected(p, kind, d);
            s.ok && Reproduces(run.prev, s.ledger)
  {
    OnePrior(p, kind, d);
    hide OperatorApply, PriorEvents, CORRECTION;
    var run, ek := Corrected(p, kind, d), EventKey(PaymentKey(Sha(p)), "t", kind);
    var s := AddEvidence(mid, PaymentKey(Sha(p)), Record(Some(p.date), None, PaymentDigest(Sha(p))));
    assert OperatorStep(run, mid, p, 0) == OperatorApply(AddEvent(s, run.prev.events[ek]), p, 0, kind);
    ApplyKeepsLedger(AddEvent(s, run.prev.events[ek]), p, 0, kind);
  }

  lemma CorrectedSucceeds(p: OperatorPayment, kind: Kind, d: Discrepancy, live: Live, asks: seq<string>)
    requires p == Payment(p.cents) && IsPayment(kind) && (live.payment == NotPaid || live.decision == Approved)
    ensures Succeeds(Corrected(p, kind, d), [One(live, asks)])
    ensures PriorEvents(Corrected(p, kind, d), p) == {EventKey(PaymentKey(Sha(p)), "t", kind)}
  {
    var run, tickets := Corrected(p, kind, d), [One(live, asks)];
    var mid := AfterReviews(run, tickets);
    CorrectedMid(p, kind, d, live, asks);
    OnePrior(p, kind, d);
    CorrectedReplays(p, kind, d, mid);
    hide ReviewsUpTo, MailsUpTo, OperatorStep, PriorEvents, CORRECTION, One, Reproduces;
    assert AfterLinks(run, tickets) == mid;
    assert OperatorUpTo(run, mid, 0) == mid;
    assert AfterAll(run, tickets) == OperatorStep(run, mid, p, 0);
  }

  lemma ApplyKeepsLedger(st: State, p: OperatorPayment, i: nat, kind: Kind)
    requires i < |st.tickets|
    ensures OperatorApply(st, p, i, kind).ok == st.ok && OperatorApply(st, p, i, kind).ledger == st.ledger
  {
  }

  lemma OneIsValid(live: Live, asks: seq<string>)
    requires live == OPEN || (live.workflow == Settled && live.decision == Approved && live.payment == Paid)
    ensures ValidTicket(One(live, asks)) && Tickets.Payable(One(live, asks).items) == 1000
  {
    var t := One(live, asks);
    assert t.items[0].status == A;
    assert t.items[..0] == [];
    assert CategoriesOf(t.items) == ["Food"];
    assert ["Food"][..0] == [];
    assert FirstSeen(["Food"]) == ["Food"];
  }

  function Single(k: EvidenceKey, r: Record, e: Event): Ledger {
    Ledger(map[k := r], map[e.Key() := e], map[])
  }

  lemma SingleLinked(k: EvidenceKey, r: Record, e: Event)
    requires e.evidence == k
    ensures LinkedOrUnmatched(Single(k, r, e))
  {
    assert e.Key() in Single(k, r, e).events && e.Key().evidence == k;
  }

  lemma SingleOperator(k: EvidenceKey, r: Record, e: Event)
    requires e.evidence == k
    ensures OneEventPerOperatorPayment(Single(k, r, e))
  {
    var l := Single(k, r, e);
    assert OnlyEvent(l, k, e.Key());
    forall x | x in l.evidence && x.PaymentKey?
      ensures exists f :: f in l.events && f.evidence == x && forall g :: g in l.events && g.evidence == x ==> g == f
    {
      assert x == k;
    }
  }

  lemma EarlierAgrees(p: OperatorPayment, kind: Kind, d: Discrepancy)
    requires p == Payment(p.cents) && IsPayment(kind) && (kind == PaymentRecorded <==> d == NoDiscrepancy)
    ensures LedgerAgrees(Earlier(p, kind, d)) && OneRecordedPerTicket(Earlier(p, kind, d))
  {
    hide LinkedOrUnmatched, OneEventPerOperatorPayment;
    SingleLinked(PaymentKey(Sha(p)), Record(Some(10), None, PaymentDigest(Sha(p))), OperatorEvent(p, "t", kind, d));
    SingleOperator(PaymentKey(Sha(p)), Record(Some(10), None, PaymentDigest(Sha(p))), OperatorEvent(p, "t", kind, d));
  }

  /** The earlier bundle passes the loader's event checks, given those on its payment. */
  lemma EarlierPasses(p: OperatorPayment, kind: Kind, d: Discrepancy, t: TicketState)
    requires p == Payment(p.cents) && IsPayment(kind) && (kind == PaymentRecorded <==> d == NoDiscrepancy)
    requires t.head.selector == NAME
    requires kind == PaymentRecorded ==>
               RecordedTarget(OperatorEvent(p, "t", kind, d), t) && p.cents == Tickets.Payable(t.items)
    requires kind == PaymentDiscrepancy ==> p.cents != Tickets.Payable(t.items)
    ensures EventsPass(Earlier(p, kind, d), [t])
  {
    hide LedgerAgrees, OneRecordedPerTicket, RecordedTarget, Tickets.Payable, Payment;
    EarlierAgrees(p, kind, d);
    assert [t][0].head.selector.key == "t";
  }

  lemma CorrectedOwes(p: OperatorPayment, kind: Kind, d: Discrepancy, live: Live, asks: seq<string>)
    ensures Owed(Corrected(p, kind, d), One(live, asks), 0) == 900
  {
    var run, t := Corrected(p, kind, d), One(live, asks);
    assert ItemsReviewed(run, t.items, 0, 0) == t.items;
    var items := [Item("i", 1, "Food", Some(1000), Some(900), A)];
    assert ItemsReviewed(run, t.items, 0, 1) == items;
    assert items[..0] == [] && items[0].Effective() == 900;
  }

  // ---------- A paid ticket, corrected ----------

  const SETTLED_LIVE := Live(Settled, Approved, Paid, Some(10), [Recorded("R", 1000)])
  const PAID := One(SETTLED_LIVE, [])
  const PAID_RUN := Corrected(Payment(1000), PaymentRecorded, NoDiscrepancy)

  lemma PaidPasses()
    ensures ValidTicket(PAID) && EventsPass(PAID_RUN.prev, [PAID])
  {
    OneIsValid(SETTLED_LIVE, []);
    hide ValidTicket, EventsPass, Tickets.Payable, Strip;
    EarlierPasses(Payment(1000), PaymentRecorded, NoDiscrepancy, PAID);
  }

  lemma PaidRuns()
    ensures RunOk(PAID_RUN, [PAID]) && Succeeds(PAID_RUN, [PAID])
    ensures Replays(PAID_RUN, 0) && Owed(PAID_RUN, PAID, 0) == 900
  {
    hide RunOk, Succeeds, PriorEvents, Owed, One;
    CorrectedRunOk(Payment(1000), PaymentRecorded, NoDiscrepancy, PAID);
    CorrectedSucceeds(Payment(1000), PaymentRecorded, NoDiscrepancy, SETTLED_LIVE, []);
    CorrectedOwes(Payment(1000), PaymentRecorded, NoDiscrepancy, SETTLED_LIVE, []);
    assert EventKey(PaymentKey(Sha(Payment(1000))), "t", PaymentRecorded) in PriorEvents(PAID_RUN, Payment(1000));
  }

  /** A paid ticket whose amount a review then corrects: the replayed payment no longer equals the total. */
  lemma ReplayedPaymentIsRefused()
    ensures ValidTicket(PAID) && EventsPass(PAID_RUN.prev, [PAID]) && RunOk(PAID_RUN, [PAID]) && Succeeds(PAID_RUN, [PAID])
    ensures !RecordedTargets(AfterAll(PAID_RUN, [PAID]).ledger, AfterAll(PAID_RUN, [PAID]).tickets)
  {
    PaidPasses();
    PaidRuns();
    hide ValidTicket, EventsPass, RunOk, Succeeds, RecordedTargets, Replays, Owed, One, AfterAll;
    RecordedTargetsExactly(PAID_RUN, [PAID]);
  }

  // ---------- A held ticket, corrected ----------

  const HELD := One(OPEN, [AMOUNT_ASK])
  const HELD_RUN := Corrected(Payment(900), PaymentDiscrepancy, DiffersFrom(1000))

  lemma HeldPasses()
    ensures ValidTicket(HELD) && EventsPass(HELD_RUN.prev, [HELD])
  {
    OneIsValid(OPEN, [AMOUNT_ASK]);
    hide ValidTicket, EventsPass, Tickets.Payable, Strip;
    EarlierPasses(Payment(900), PaymentDiscrepancy, DiffersFrom(1000), HELD);
  }

  lemma HeldRuns()
    ensures RunOk(HELD_RUN, [HELD]) && Succeeds(HELD_RUN, [HELD])
    ensures ReplaysDiscrepancy(HELD_RUN, 0) && Owed(HELD_RUN, HELD, 0) == 900
  {
    hide RunOk, Succeeds, PriorEvents, Owed, One;
    CorrectedRunOk(Payment(900), PaymentDiscrepancy, DiffersFrom(1000), HELD);
    CorrectedSucceeds(Payment(900), PaymentDiscrepancy, DiffersFrom(1000), OPEN, [AMOUNT_ASK]);
    CorrectedOwes(Payment(900), PaymentDiscrepancy, DiffersFrom(1000), OPEN, [AMOUNT_ASK]);
    assert EventKey(PaymentKey(Sha(Payment(900))), "t", PaymentDiscrepancy) in PriorEvents(HELD_RUN, Payment(900));
  }

  /** An open ticket whose amount a review corrects to what was paid: the replayed discrepancy is none. */
  lemma ReplayedDiscrepancyIsRefused()
    ensures ValidTicket(HELD) && EventsPass(HELD_RUN.prev, [HELD]) && RunOk(HELD_RUN, [HELD]) && Succeeds(HELD_RUN, [HELD])
    ensures !DiscrepanciesDiffer(AfterAll(HELD_RUN, [HELD]).ledger, AfterAll(HELD_RUN, [HELD]).tickets)
  {
    HeldPasses();
    HeldRuns();
    hide ValidTicket, EventsPass, RunOk, Succeeds, DiscrepanciesDiffer, ReplaysDiscrepancy, Owed, One, AfterAll;
    DiscrepanciesDifferExactly(HELD_RUN, [HELD]);
  }

  // ---------- A granted ticket, paid a wrong amount ----------

  const PROPOSAL := Mail("k0", "p", [], [], Some(5), None, "b", "propose", 0, "d0")
  const REPLY := Mail("k1", "r", ["p"], [], Some(6), None, "a", "yes", 0, "d1")
  const NEW := One(OPEN, [])
  const THREAD := Links(map[], map["p" := Thread(ApprovalProposal, [0])], map[], map[], map["p" := PROPOSAL, "r" := REPLY])
  const GRANT_RUN := Run(READER, Anchors(2, {}, {"a"}, [], [], [], [], [Payment(900)]), THREAD, [PROPOSAL, REPLY],
                         [], [], [0], NO_LEDGER, 20, {})
  const GRANTED := EventKey(MailKey("k1"), "t", ApprovalGranted)

  const ANSWERS := Resolution(ApprovalProposal, [0], "p")

  lemma OnlyTheProposal(id: MessageId)
    ensures Reaches(THREAD, ["p"], id) <==> id == "p"
  {
    hide Reaches;
    StartReaches(THREAD, ["p"], "p");
    assert forall x :: !Hop(THREAD, "p", x);
    ClosedIsReachable(THREAD, ["p"], {"p"});
    assert id in {"p"} <==> id == "p";
  }

  lemma ProposalResolves()
    ensures Resolutions(THREAD, ["p"]) == {ANSWERS}
  {
    hide Reaches;
    assert Labels(THREAD, "p") == {ANSWERS};
    forall x | x in Resolutions(THREAD, ["p"]) ensures x == ANSWERS {
      var id :| id in Known(THREAD, ["p"]) && Reaches(THREAD, ["p"], id) && x in Labels(THREAD, id);
      OnlyTheProposal(id);
    }
    OnlyTheProposal("p");
    assert "p" in ["p"];
    assert ANSWERS in Labels(THREAD, "p");
    assert "p" in Known(THREAD, ["p"]);
  }

  /** The reply answers the proposal, and nothing else. */
  lemma ReplyResolves()
    ensures ScopeOf(GRANT_RUN, REPLY) == {ANSWERS}
  {
    hide Resolutions;
    ProposalResolves();
    assert Parents(REPLY) == ["p"];
  }

  lemma OneAnswer()
    ensures !Ambiguous({ANSWERS}) && HasProposal({ANSWERS}) && Target({ANSWERS}) == [0]
  {
    assert TicketLists({ANSWERS}) == {[0]};
    assert Scopes({ANSWERS}) == {(ApprovalProposal, [0])};
    assert ANSWERS in {ANSWERS};
  }

  /** The positive reply of an approver marks the one item A and records the approval. */
  lemma ReplyGrants(st: State)
    requires st == Begin([NEW])
    ensures var s := MailStep(GRANT_RUN, st, REPLY);
            && s.ok && s.ledger.events.Keys == {GRANTED} && s.ledger.evidence.Keys == {MailKey("k1")}
            && s.tickets == [One(Live(Active, Approved, NotPaid, None, []), [])]
  {
    ReplyResolves();
    OneAnswer();
    ReplyStep(Account(st, REPLY));
    hide ScopeOf, Ambiguous, HasProposal, Target, ProposalStep, ResponseStep, One;
    assert !IsAnchor(GRANT_RUN, REPLY);
    assert InRange(Account(st, REPLY), [0]);
  }

  lemma ProposalFound()
    ensures ProposalMail(GRANT_RUN, {ANSWERS}) == Some(PROPOSAL)
  {
    var r := {ANSWERS};
    assert (set x | x in r && x.purpose == ApprovalProposal :: x.anchor) == {"p"};
  }

  lemma ReplyStep(st: State)
    requires st == Account(Begin([NEW]), REPLY)
    ensures var s := ProposalStep(GRANT_RUN, st, REPLY, {ANSWERS}, [0]);
            && s.ok && s.ledger.events.Keys == {GRANTED} && s.ledger.evidence.Keys == {MailKey("k1")}
            && s.tickets == [One(Live(Active, Approved, NotPaid, None, []), [])]
  {
    var at, rec := [0], Recommendation("NEW-01", [A], false);
    ProposalFound();
    var recs := ProposalRecs(GRANT_RUN, Some(PROPOSAL), Refs(st, at));
    assert recs == Some([rec]);
    assert Section([rec], "NEW-01") == Some(rec);
    assert !Has(NEW.items, Dash);
    assert Expand(NEW.items, rec) == Some([A]);
    var grants := Grants(GRANT_RUN, REPLY, st, at, recs);
    assert grants == [Some(Apply([A]))];
    assert ProposalFits(GRANT_RUN, REPLY, st, at, recs);
    hide ProposalFits, Grants, ProposalMail;
    assert ProposalKind(GRANT_RUN, REPLY, true) == ApprovalGranted;
    assert at[..0] == [] && grants[..0] == [];
    assert ProposalAll(st, REPLY, ApprovalGranted, [], []) == st;
    assert WithStatuses(NEW.items, [A]) == NEW.items;
  }

  /** Before the payment lanes the ticket is approved. */
  lemma GrantMid()
    ensures RunInRange(GRANT_RUN, 1) && AfterReviews(GRANT_RUN, [NEW]) == AfterMails(GRANT_RUN, [NEW])
    ensures var mid := AfterReviews(GRANT_RUN, [NEW]);
            && mid.ok && mid.ledger.events.Keys == {GRANTED} && mid.ledger.evidence.Keys == {MailKey("k1")}
            && mid.tickets == [One(Live(Active, Approved, NotPaid, None, []), [])]
  {
    var st := Begin([NEW]);
    ReplyGrants(st);
    assert GRANT_RUN.mails == [PROPOSAL, REPLY];
    assert MailStep(GRANT_RUN, st, PROPOSAL) == st;
    hide MailStep;
    assert MailsUpTo(GRANT_RUN, st, 0) == st;
    assert MailsUpTo(GRANT_RUN, st, 1) == st;
    assert MailsUpTo(GRANT_RUN, st, 2) == MailStep(GRANT_RUN, st, REPLY);
  }

  lemma GrantRunOk()
    ensures RunOk(GRANT_RUN, [NEW]) && ReviewsNamed(GRANT_RUN, [NEW])
  {
    assert PROPOSAL in GRANT_RUN.mails && REPLY in GRANT_RUN.mails by {
      assert GRANT_RUN.mails[0] == PROPOSAL && GRANT_RUN.mails[1] == REPLY;
    }
  }

  /** Nine dollars against an approved ten is a discrepancy. */
  lemma NineIsOff()
    ensures OperatorVerdict(GRANT_RUN, Payment(900), One(Live(Active, Approved, NotPaid, None, []), [])) == (PaymentDiscrepancy, DiffersFrom(1000))
    ensures PriorEvents(GRANT_RUN, Payment(900)) == {}
  {
    OneIsValid(OPEN, []);
    hide Tickets.Payable;
    assert One(OPEN, []).items == One(Live(Active, Approved, NotPaid, None, []), []).items;
  }

  lemma NineIsBooked(mid: State)
    requires mid.ok && mid.ledger.events.Keys == {GRANTED} && mid.tickets == [One(Live(Active, Approved, NotPaid, None, []), [])]
    ensures OperatorStep(GRANT_RUN, mid, Payment(900), 0).ok
  {
    NineIsOff();
    hide OperatorVerdict, PriorEvents, OperatorApply, One;
    var p := Payment(900);
    var s := AddEvidence(mid, PaymentKey(Sha(p)), Record(Some(p.date), None, PaymentDigest(Sha(p))));
    ApplyKeepsLedger(AddEvent(s, OperatorEvent(p, KeyOf(mid, 0), PaymentDiscrepancy, DiffersFrom(1000))), p, 0, PaymentDiscrepancy);
  }

  lemma GrantSucceeds()
    ensures RunInRange(GRANT_RUN, 1) && Succeeds(GRANT_RUN, [NEW])
  {
    GrantMid();
    var mid := AfterReviews(GRANT_RUN, [NEW]);
    NineIsBooked(mid);
    hide ReviewsUpTo, MailsUpTo, OperatorStep, One;
    assert AfterLinks(GRANT_RUN, [NEW]) == mid;
    assert OperatorUpTo(GRANT_RUN, mid, 0) == mid;
    assert AfterAll(GRANT_RUN, [NEW]) == OperatorStep(GRANT_RUN, mid, Payment(900), 0);
  }

  lemma NewOwesTen()
    ensures Tickets.Payable(NEW.items) == 1000 && NEW.live == OPEN && NEW.head.selector.key == "t"
  {
    OneIsValid(OPEN, []);
    hide Tickets.Payable, ValidTicket;
  }

  lemma ApprovedIsApproved()
    ensures var t := One(Live(Active, Approved, NotPaid, None, []), []); IsApproved(t) && t.head.selector.key == "t"
  {
  }

  lemma GrantIsTakenBack()
    ensures RunInRange(GRANT_RUN, 1) && TakesBack(GRANT_RUN, [NEW], 0)
  {
    GrantMid();
    NewOwesTen();
    ApprovedIsApproved();
    NineIsOff();
    hide MailsUpTo, PriorEvents, Tickets.Payable, One, IsApproved, OperatorVerdict;
    var mails := AfterMails(GRANT_RUN, [NEW]);
    assert GRANTED in mails.ledger.events;
    assert HasEvent(mails.ledger, KeyOf(mails, 0), ApprovalGranted);
  }

  lemma NewPasses()
    ensures ValidTicket(NEW) && EventsPass(NO_LEDGER, [NEW])
  {
    OneIsValid(OPEN, []);
  }

  /** A ticket granted by reply and then paid a wrong amount keeps its grant and loses its decision. */
  lemma GrantTakenBackIsRefused()
    ensures ValidTicket(NEW) && EventsPass(GRANT_RUN.prev, [NEW]) && RunOk(GRANT_RUN, [NEW]) && Succeeds(GRANT_RUN, [NEW])
    ensures !GrantsDecided(AfterAll(GRANT_RUN, [NEW]).ledger, AfterAll(GRANT_RUN, [NEW]).tickets)
  {
    NewPasses();
    GrantRunOk();
    GrantSucceeds();
    GrantIsTakenBack();
    hide ValidTicket, EventsPass, RunOk, Succeeds, TakesBack, GrantsDecided, ReviewsUpTo, MailsUpTo, LinksUpTo, OperatorUpTo, ReviewsNamed;
    GrantsDecidedExactly(GRANT_RUN, [NEW]);
  }
}
