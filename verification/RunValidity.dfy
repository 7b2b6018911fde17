/** A run from validated tickets ends in validated tickets. */
module RunValidity {
  import opened Common
  import opened Tickets
  import opened TicketLaws
  import opened Ledgers
  import opened Ancestry
  import opened ReducerSpec
  import opened Runs
  import opened PaymentSteps
  import opened LinkLane
  import opened Settlement

  /** Valid, with no '-' item. */
  ghost predicate Sound(t: TicketState) {
    ValidTicket(t) && !Has(t.items, Dash)
  }

  /** Sound, and while it is undecided no generated draft waits to become a clarification without a question. */
  ghost predicate Ready(t: TicketState) {
    Sound(t) && (t.live.decision == Unreviewed && GeneratedDraft(t.messages) ==> !NoQuestions(t.review))
  }

  /** Ready for another run, or merely sound. */
  ghost predicate Good(t: TicketState, lasting: bool) {
    if lasting then Ready(t) else Sound(t)
  }

  ghost predicate AllGood(tickets: seq<TicketState>, lasting: bool) {
    forall i :: 0 <= i < |tickets| ==> Good(tickets[i], lasting)
  }

  ghost predicate AllReady(tickets: seq<TicketState>) {
    forall i :: 0 <= i < |tickets| ==> Ready(tickets[i])
  }

  /** The proposal parser only ever reads Approve and Clarification lines. */
  ghost predicate ProposalsReadAC(run: Run) {
    forall text, refs :: run.reader.proposal(text, refs).Some? ==>
      forall r :: r in run.reader.proposal(text, refs).value ==> forall s :: s in r.statuses ==> s == A || s == C
  }

  // ---------- Transitions ----------

  lemma ResponseKeepsReady(t: TicketState, receipts: bool)
    requires Ready(t)
    ensures Ready(ResponseReceived(t, receipts))
  {
    ResponseKeepsValidExactly(t, receipts);
    DraftsGone(t.messages);
  }

  lemma ProposalKeepsReady(t: TicketState, statuses: seq<Status>)
    requires Ready(t) && |statuses| == |t.items| && forall s :: s in statuses ==> s == A || s == C
    ensures Ready(ProposalApproved(t, statuses))
  {
    ProposalKeepsValidExactly(t, statuses);
    var u := ProposalApproved(t, statuses);
    if t.live.decision == Unreviewed {
      forall i | 0 <= i < |u.items| ensures u.items[i].status != Dash {
        assert u.items[i].status == statuses[i] && statuses[i] in statuses;
      }
    }
  }

  lemma PaymentKeepsGood(t: TicketState, on: Option<Day>, cents: nat, reference: string, lasting: bool)
    requires Good(t, lasting)
    ensures Good(PaymentApplied(t, on, cents, reference), lasting)
  {
    hide ValidTicket, GeneratedDraft;
    PaymentKeepsValid(t, on, cents, reference);
  }

  lemma HeldKeepsGood(t: TicketState, lasting: bool)
    requires Good(t, lasting)
    ensures Good(PaymentHeld(t), lasting)
  {
    DraftsGone(t.messages);
    HeldPaymentKeepsValidExactly(t);
    hide ValidTicket, GeneratedDraft, RawRollup;
  }

  // ---------- Mails ----------

  ghost predicate GrantsAC(grants: seq<Option<Grant>>) {
    forall k :: 0 <= k < |grants| && grants[k].Some? && grants[k].value.Apply? ==>
      forall s :: s in grants[k].value.statuses ==> s == A || s == C
  }

  lemma {:induction false} SectionFrom(recs: seq<Recommendation>, ref: string)
    ensures Section(recs, ref).Some? ==> Section(recs, ref).value in recs
  {
    if recs != [] {
      SectionFrom(recs[..|recs| - 1], ref);
    }
  }

  lemma GrantsAreAC(run: Run, m: Mail, st: State, at: seq<nat>, recs: Option<seq<Recommendation>>)
    requires InRange(st, at)
    requires recs.Some? ==> forall r :: r in recs.value ==> forall s :: s in r.statuses ==> s == A || s == C
    ensures GrantsAC(Grants(run, m, st, at, recs))
  {
    var grants := Grants(run, m, st, at, recs);
    forall k | 0 <= k < |grants| && grants[k].Some? && grants[k].value.Apply?
      ensures forall s :: s in grants[k].value.statuses ==> s == A || s == C
    {
      var t := st.tickets[at[k]];
      SectionFrom(recs.value, t.head.selector.ref);
      var r := Section(recs.value, t.head.selector.ref).value;
      if Expand(t.items, r).Some? {
        ExpansionIsScoped(t.items, r);
      }
    }
  }

  lemma {:induction false} ProposalAllKeepsReady(st: State, m: Mail, kind: Kind, at: seq<nat>, grants: seq<Option<Grant>>)
    requires InRange(st, at) && |grants| == |at| && AllReady(st.tickets) && GrantsAC(grants)
    ensures AllReady(ProposalAll(st, m, kind, at, grants).tickets)
  {
    hide Ready, ProposalApproved;
    if at != [] {
      var n := |at| - 1;
      ProposalAllKeepsReady(st, m, kind, at[..n], grants[..n]);
      var s := ProposalAll(st, m, kind, at[..n], grants[..n]);
      if grants[n].Some? && grants[n].value.Apply? && |grants[n].value.statuses| == |s.tickets[at[n]].items| {
        ProposalKeepsReady(s.tickets[at[n]], grants[n].value.statuses);
      }
    }
  }

  lemma ResponseStepKeepsReady(run: Run, st: State, m: Mail, i: nat)
    requires run.anchors.schema != 1 && i < |st.tickets| && AllReady(st.tickets)
    ensures AllReady(ResponseStep(run, st, m, i).tickets)
  {
    hide Ready, ResponseReceived;
    ResponseKeepsReady(st.tickets[i], true);
    ResponseKeepsReady(st.tickets[i], false);
  }

  lemma MailKeepsReady(run: Run, st: State, m: Mail)
    requires run.anchors.schema != 1 && ProposalsReadAC(run) && AllReady(st.tickets)
    ensures AllReady(MailStep(run, st, m).tickets)
  {
    hide Ready, ResponseStep, ProposalAll, Grants, Resolutions;
    if !IsAnchor(run, m) {
      var r := ScopeOf(run, m);
      if !Ambiguous(r) && r != {} && InRange(st, Target(r)) && Target(r) != [] {
        var s0, at := Account(st, m), Target(r);
        if HasProposal(r) {
          var recs := ProposalRecs(run, ProposalMail(run, r), Refs(s0, at));
          GrantsAreAC(run, m, s0, at, recs);
          var kind := ProposalKind(run, m, ProposalFits(run, m, s0, at, recs));
          ProposalAllKeepsReady(s0, m, kind, at, Grants(run, m, s0, at, recs));
        } else {
          ResponseStepKeepsReady(run, s0, m, at[0]);
        }
      }
    }
  }

  lemma {:induction false} MailsKeepReady(run: Run, tickets: seq<TicketState>, n: nat)
    requires run.anchors.schema != 1 && ProposalsReadAC(run) && AllReady(tickets) && n <= |run.mails|
    ensures AllReady(MailsUpTo(run, Begin(tickets), n).tickets)
  {
    hide MailStep, Ready;
    if n > 0 {
      MailsKeepReady(run, tickets, n - 1);
      MailKeepsReady(run, MailsUpTo(run, Begin(tickets), n - 1), run.mails[n - 1]);
    }
  }

  // ---------- Reviews ----------

  /** The exact condition of `ReviewKeepsValidExactly`. */
  ghost predicate ReviewFits(t: TicketState, o: OperatorReview) {
    && (forall x :: x in o.items ==> x.status != Dash)
    && DecisionStands(t, o)
    && !(&& RawRollup(OverriddenItems(t.items, o.items)) == C
         && GeneratedDraft(t.messages) && o.questions == [] && o.asks == [])
  }

  /** The decision a review leaves. */
  function DecisionLeft(t: TicketState, o: OperatorReview): Decision {
    if o.recordDecision then RecordedDecision(RawRollup(OverriddenItems(t.items, o.items))) else t.live.decision
  }

  /** It does not leave an undecided ticket with a generated draft and no question. */
  ghost predicate LeavesReady(t: TicketState, o: OperatorReview) {
    !(DecisionLeft(t, o) == Unreviewed && GeneratedDraft(t.messages) && o.questions == [] && o.asks == [])
  }

  /** Each accepted review fits the ticket it meets and, for a lasting result, leaves it ready. */
  ghost predicate ReviewsFit(run: Run, tickets: seq<TicketState>, lasting: bool)
    requires RunInRange(run, |tickets|)
  {
    forall n :: 0 <= n < |run.reviewAt| ==>
      var t := ReviewsUpTo(run, AfterMails(run, tickets), n).tickets[run.reviewAt[n]];
      Reviewed(t, run.anchors.reviews[n]).Some? ==>
        ReviewFits(t, run.anchors.reviews[n]) && (lasting ==> LeavesReady(t, run.anchors.reviews[n]))
  }

  lemma ReviewKeepsGood(t: TicketState, o: OperatorReview, lasting: bool)
    requires Good(t, lasting) && Reviewed(t, o).Some? && ReviewFits(t, o) && (lasting ==> LeavesReady(t, o))
    ensures Good(Reviewed(t, o).value, lasting)
  {
    ReviewKeepsValidExactly(t, o);
    OverridesReachAll(t.items, o.items);
    hide ValidTicket, GeneratedDraft, RawRollup, OverriddenItems, DecisionStands;
  }

  lemma PutKeepsGood(tickets: seq<TicketState>, i: nat, t: TicketState, lasting: bool)
    requires AllGood(tickets, lasting) && i < |tickets| && Good(t, lasting)
    ensures AllGood(tickets[i := t], lasting)
  {
    hide Good;
  }

  lemma ReviewStepKeepsGood(st: State, o: OperatorReview, i: nat, lasting: bool)
    requires i < |st.tickets| && AllGood(st.tickets, lasting)
    requires Reviewed(st.tickets[i], o).Some? ==> ReviewFits(st.tickets[i], o) && (lasting ==> LeavesReady(st.tickets[i], o))
    ensures AllGood(ReviewStep(st, o, i).tickets, lasting)
  {
    hide Good, ReviewFits, LeavesReady, Reviewed;
    if Reviewed(st.tickets[i], o).Some? {
      ReviewKeepsGood(st.tickets[i], o, lasting);
      PutKeepsGood(st.tickets, i, Reviewed(st.tickets[i], o).value, lasting);
    }
  }

  lemma {:induction false} ReviewsKeepGood(run: Run, tickets: seq<TicketState>, n: nat, lasting: bool)
    requires RunInRange(run, |tickets|) && n <= |run.reviewAt| && ReviewsFit(run, tickets, lasting)
    requires AllGood(AfterMails(run, tickets).tickets, lasting)
    ensures AllGood(ReviewsUpTo(run, AfterMails(run, tickets), n).tickets, lasting)
  {
    hide MailsUpTo, AllGood, ReviewFits, LeavesReady, ReviewStep, Reviewed;
    if n > 0 {
      ReviewsKeepGood(run, tickets, n - 1, lasting);
      ReviewStepKeepsGood(ReviewsUpTo(run, AfterMails(run, tickets), n - 1), run.anchors.reviews[n - 1], run.reviewAt[n - 1], lasting);
    }
  }

  // ---------- Payments ----------

  lemma {:induction false} PayAllKeepsGood(run: Run, st: State, m: Mail, bound: seq<Bound>, ps: seq<PaymentText>, lasting: bool)
    requires BoundInRange(st, bound) && AllGood(st.tickets, lasting)
    ensures AllGood(PayAll(run, st, m, bound, ps).tickets, lasting)
  {
    hide Good, PayOne, PaymentFor;
    if bound != [] {
      var b := bound[|bound| - 1];
      PayAllKeepsGood(run, st, m, bound[..|bound| - 1], ps, lasting);
      var s := PayAll(run, st, m, bound[..|bound| - 1], ps);
      var p := PaymentFor(ps, b.reference);
      PayOneTickets(run, s, m, b, p);
      PaymentKeepsGood(s.tickets[b.ticket], m.on, p.cents, p.reference, lasting);
      PutKeepsGood(s.tickets, b.ticket, Settle(m, s.tickets[b.ticket], p), lasting);
    }
  }

  lemma LinkStepKeepsGood(run: Run, st: State, id: MessageId, lasting: bool)
    requires id in run.links.payments && BoundInRange(st, run.links.payments[id]) && AllGood(st.tickets, lasting)
    ensures AllGood(LinkStep(run, st, id).tickets, lasting)
  {
    hide Good, PayAll, HoldAll, Judge, ParsedBlocks, GroupReadable, Eligible, PaymentFor;
    if id in run.links.mails {
      var m, bound := run.links.mails[id], run.links.payments[id];
      if Judge(run, st, m, bound) == Verdict.Payable {
        JudgedReadable(run, st, m, bound);
        ReadableParsed(run, m, bound, Blocks(run, st, m, bound));
        PayAllKeepsGood(run, Account(st, m), m, bound, Blocks(run, st, m, bound).value, lasting);
      }
    }
  }

  lemma {:induction false} LinksKeepGood(run: Run, st: State, n: nat, lasting: bool)
    requires RunInRange(run, |st.tickets|) && n <= |run.paymentIds| && AllGood(st.tickets, lasting)
    ensures AllGood(LinksUpTo(run, st, n).tickets, lasting)
  {
    hide AllGood, LinkStep;
    if n > 0 {
      LinksKeepGood(run, st, n - 1, lasting);
      assert run.paymentIds[n - 1] in run.links.payments;
      LinkStepKeepsGood(run, LinksUpTo(run, st, n - 1), run.paymentIds[n - 1], lasting);
    }
  }

  lemma ApplyKeepsGood(st: State, p: OperatorPayment, i: nat, kind: Kind, lasting: bool)
    requires i < |st.tickets| && AllGood(st.tickets, lasting)
    ensures AllGood(OperatorApply(st, p, i, kind).tickets, lasting)
  {
    hide Good, PaymentApplied, PaymentHeld;
    PaymentKeepsGood(st.tickets[i], Some(p.date), p.cents, p.reference, lasting);
    HeldKeepsGood(st.tickets[i], lasting);
  }

  lemma OperatorStepKeepsGood(run: Run, st: State, p: OperatorPayment, i: nat, lasting: bool)
    requires i < |st.tickets| && AllGood(st.tickets, lasting)
    ensures AllGood(OperatorStep(run, st, p, i).tickets, lasting)
  {
    hide AllGood, OperatorApply, OperatorVerdict, OperatorEvent, PriorEvents;
    forall s: State, kind | s.tickets == st.tickets ensures AllGood(OperatorApply(s, p, i, kind).tickets, lasting) {
      ApplyKeepsGood(s, p, i, kind, lasting);
    }
  }

  lemma {:induction false} OperatorsKeepGood(run: Run, st: State, n: nat, lasting: bool)
    requires RunInRange(run, |st.tickets|) && n <= |run.operatorAt| && AllGood(st.tickets, lasting)
    ensures AllGood(OperatorUpTo(run, st, n).tickets, lasting)
  {
    hide AllGood, OperatorStep;
    if n > 0 {
      OperatorsKeepGood(run, st, n - 1, lasting);
      OperatorStepKeepsGood(run, OperatorUpTo(run, st, n - 1), run.anchors.operatorPayments[n - 1], run.operatorAt[n - 1], lasting);
    }
  }

  lemma RunKeepsGood(run: Run, tickets: seq<TicketState>, lasting: bool)
    requires run.anchors.schema != 1 && RunInRange(run, |tickets|) && ProposalsReadAC(run)
    requires AllReady(tickets) && ReviewsFit(run, tickets, lasting)
    ensures AllGood(AfterAll(run, tickets).tickets, lasting)
  {
    hide MailsUpTo, ReviewsUpTo, LinksUpTo, OperatorUpTo, ReviewsFit, Ready, Sound;
    MailsKeepReady(run, tickets, |run.mails|);
    ReadyIsGood(AfterMails(run, tickets).tickets, lasting);
    hide AllGood, AllReady;
    ReviewsKeepGood(run, tickets, |run.reviewAt|, lasting);
    LinksKeepGood(run, AfterReviews(run, tickets), |run.paymentIds|, lasting);
    OperatorsKeepGood(run, AfterLinks(run, tickets), |run.operatorAt|, lasting);
  }

  lemma ReadyIsGood(tickets: seq<TicketState>, lasting: bool)
    requires AllReady(tickets)
    ensures AllGood(tickets, lasting)
  {
    hide Sound;
  }

  /** From validated tickets without '-' items or unasked generated drafts, through reviews that fit,
      every ticket of the finished run passes the validator. */
  lemma RunKeepsTicketsValid(run: Run, tickets: seq<TicketState>)
    requires run.anchors.schema != 1 && RunInRange(run, |tickets|) && ProposalsReadAC(run)
    requires AllReady(tickets) && ReviewsFit(run, tickets, false)
    ensures forall i :: 0 <= i < |tickets| ==> ValidTicket(AfterAll(run, tickets).tickets[i])
  {
    hide MailsUpTo, ReviewsUpTo, LinksUpTo, OperatorUpTo, ReviewsFit, ValidTicket, AfterAll;
    RunKeepsGood(run, tickets, false);
  }

  // ---------- The same, from the anchor file and the input tickets ----------

  /** What mails may change of a ticket: statuses, review text, an open decision, and drafts go. */
  ghost predicate MailsMayChange(t: TicketState, u: TicketState) {
    && u.head == t.head && |u.items| == |t.items|
    && (forall i :: 0 <= i < |t.items| ==> u.items[i] == t.items[i].(status := u.items[i].status))
    && u.live == t.live.(decision := u.live.decision) && (t.live.decision != Unreviewed ==> u.live == t.live)
    && (GeneratedDraft(u.messages) ==> GeneratedDraft(t.messages))
  }

  ghost predicate AllMayChange(a: seq<TicketState>, b: seq<TicketState>) {
    |a| == |b| && forall i :: 0 <= i < |a| ==> MailsMayChange(a[i], b[i])
  }

  lemma MayChangeTwice(t: TicketState, u: TicketState, v: TicketState)
    requires MailsMayChange(t, u) && MailsMayChange(u, v)
    ensures MailsMayChange(t, v)
  {
    hide GeneratedDraft;
  }

  lemma AllMayChangeTwice(a: seq<TicketState>, b: seq<TicketState>, c: seq<TicketState>)
    requires AllMayChange(a, b) && AllMayChange(b, c)
    ensures AllMayChange(a, c)
  {
    hide MailsMayChange;
    forall i | 0 <= i < |a| ensures MailsMayChange(a[i], c[i]) {
      MayChangeTwice(a[i], b[i], c[i]);
    }
  }

  lemma ResponseMayChange(t: TicketState, receipts: bool)
    ensures MailsMayChange(t, ResponseReceived(t, receipts))
  {
    DraftsGone(t.messages);
  }

  lemma {:induction false} ProposalsMayChange(st: State, m: Mail, kind: Kind, at: seq<nat>, grants: seq<Option<Grant>>)
    requires InRange(st, at) && |grants| == |at|
    ensures AllMayChange(st.tickets, ProposalAll(st, m, kind, at, grants).tickets)
  {
    hide GeneratedDraft;
    if at != [] {
      var n := |at| - 1;
      ProposalsMayChange(st, m, kind, at[..n], grants[..n]);
      var s := ProposalAll(st, m, kind, at[..n], grants[..n]);
      OneMayChange(s, m, kind, at[n], grants[n]);
      hide MailsMayChange, ProposalOne;
      AllMayChangeTwice(st.tickets, s.tickets, ProposalOne(s, m, kind, at[n], grants[n]).tickets);
    }
  }

  lemma OneMayChange(st: State, m: Mail, kind: Kind, i: nat, grant: Option<Grant>)
    requires i < |st.tickets|
    ensures AllMayChange(st.tickets, ProposalOne(st, m, kind, i, grant).tickets)
  {
    hide GeneratedDraft;
  }

  lemma ResponsesMayChange(run: Run, st: State, m: Mail, i: nat)
    requires run.anchors.schema != 1 && i < |st.tickets|
    ensures AllMayChange(st.tickets, ResponseStep(run, st, m, i).tickets)
  {
    hide ResponseReceived, AllMayChange, ResponseStep, Nonblank;
    ResponseTickets(run, st, m, i);
    ResponseChanges(st.tickets, i, true);
    ResponseChanges(st.tickets, i, false);
    NoneChanges(st.tickets);
  }

  lemma ResponseTickets(run: Run, st: State, m: Mail, i: nat)
    requires run.anchors.schema != 1 && i < |st.tickets|
    ensures ResponseStep(run, st, m, i).tickets
         == if m.receipts > 0 then st.tickets[i := ResponseReceived(st.tickets[i], true)]
            else if Nonblank(m.text) then st.tickets[i := ResponseReceived(st.tickets[i], false)]
            else st.tickets
  {
    hide ResponseReceived, Nonblank;
  }

  lemma ResponseChanges(tickets: seq<TicketState>, i: nat, receipts: bool)
    requires i < |tickets|
    ensures AllMayChange(tickets, tickets[i := ResponseReceived(tickets[i], receipts)])
  {
    ResponseMayChange(tickets[i], receipts);
    hide ResponseReceived;
  }

  lemma NoneChanges(tickets: seq<TicketState>)
    ensures AllMayChange(tickets, tickets)
  {
    hide GeneratedDraft;
  }

  lemma MailMayChange(run: Run, st: State, m: Mail)
    requires run.anchors.schema != 1
    ensures AllMayChange(st.tickets, MailStep(run, st, m).tickets)
  {
    hide ResponseStep, ProposalAll, Grants, Resolutions;
    if !IsAnchor(run, m) {
      var r := ScopeOf(run, m);
      if !Ambiguous(r) && r != {} && InRange(st, Target(r)) && Target(r) != [] {
        var s0, at := Account(st, m), Target(r);
        if HasProposal(r) {
          var recs := ProposalRecs(run, ProposalMail(run, r), Refs(s0, at));
          var kind := ProposalKind(run, m, ProposalFits(run, m, s0, at, recs));
          ProposalsMayChange(s0, m, kind, at, Grants(run, m, s0, at, recs));
        } else {
          ResponsesMayChange(run, s0, m, at[0]);
        }
      }
    }
  }

  lemma {:induction false} AllMailsMayChange(run: Run, tickets: seq<TicketState>, n: nat)
    requires run.anchors.schema != 1 && n <= |run.mails|
    ensures AllMayChange(tickets, MailsUpTo(run, Begin(tickets), n).tickets)
  {
    hide MailStep;
    if n > 0 {
      AllMailsMayChange(run, tickets, n - 1);
      var s := MailsUpTo(run, Begin(tickets), n - 1);
      MailMayChange(run, s, run.mails[n - 1]);
      hide AllMayChange;
      AllMayChangeTwice(tickets, s.tickets, MailStep(run, s, run.mails[n - 1]).tickets);
    }
  }

  /** A review of the anchor file fits an input ticket: it decides, or confirms the decision already there,
      and does not leave a generated draft as a clarification without a question. */
  ghost predicate FileFits(t: TicketState, o: OperatorReview) {
    && (forall x :: x in o.items ==> x.status != Dash)
    && (o.recordDecision || (t.live.decision != Unreviewed && DecisionStands(t, o)))
    && !(&& RawRollup(OverriddenItems(t.items, o.items)) == C
         && GeneratedDraft(t.messages) && o.questions == [] && o.asks == [])
  }

  /** Overrides that cover a ticket see nothing of what mails change. */
  lemma OverridesSeeNoMail(t: TicketState, u: TicketState, o: OperatorReview)
    requires MailsMayChange(t, u) && Covers(u.items, o.items)
    ensures OverriddenItems(u.items, o.items) == OverriddenItems(t.items, o.items)
  {
    forall i | 0 <= i < |u.items| ensures OverriddenItems(u.items, o.items)[i] == OverriddenItems(t.items, o.items)[i] {
      assert u.items[i].index in ItemIndexes(u.items) && u.items[i].index in OverrideIndexes(o.items);
      OverrideFound(o.items, u.items[i].index);
    }
  }

  /** One that leaves the ticket ready for another run: decided, or asking where a generated draft stays. */
  ghost predicate FileLasts(t: TicketState, o: OperatorReview) {
    FileFits(t, o) && LeavesReady(t, o)
  }

  lemma FileFitsLater(t: TicketState, u: TicketState, o: OperatorReview)
    requires MailsMayChange(t, u) && FileFits(t, o) && Reviewed(u, o).Some?
    ensures ReviewFits(u, o) && (LeavesReady(t, o) ==> LeavesReady(u, o))
  {
    OverridesSeeNoMail(t, u, o);
    hide GeneratedDraft, OverriddenItems, RawRollup, Covers;
  }

  /** Reviews of other tickets leave a ticket as the mails left it. */
  lemma {:induction false} UnreviewedStays(run: Run, st: State, n: nat, i: nat)
    requires RunInRange(run, |st.tickets|) && n <= |run.reviewAt| && i < |st.tickets|
    requires forall k :: 0 <= k < n ==> run.reviewAt[k] != i
    ensures ReviewsUpTo(run, st, n).tickets[i] == st.tickets[i]
  {
    hide Reviewed;
    if n > 0 {
      UnreviewedStays(run, st, n - 1, i);
    }
  }

  lemma FittingFile(run: Run, tickets: seq<TicketState>, lasting: bool)
    requires run.anchors.schema != 1 && RunInRange(run, |tickets|)
    requires forall n, k :: 0 <= k < n < |run.reviewAt| ==> run.reviewAt[k] != run.reviewAt[n]
    requires forall n :: 0 <= n < |run.reviewAt| ==>
               FileFits(tickets[run.reviewAt[n]], run.anchors.reviews[n])
               && (lasting ==> LeavesReady(tickets[run.reviewAt[n]], run.anchors.reviews[n]))
    ensures ReviewsFit(run, tickets, lasting)
  {
    hide MailsUpTo, ReviewsUpTo, FileFits, ReviewFits, LeavesReady, Reviewed, MailsMayChange;
    AllMailsMayChange(run, tickets, |run.mails|);
    var mails := AfterMails(run, tickets);
    forall n | 0 <= n < |run.reviewAt|
      ensures var t := ReviewsUpTo(run, mails, n).tickets[run.reviewAt[n]];
              Reviewed(t, run.anchors.reviews[n]).Some? ==>
                ReviewFits(t, run.anchors.reviews[n]) && (lasting ==> LeavesReady(t, run.anchors.reviews[n]))
    {
      var i := run.reviewAt[n];
      UnreviewedStays(run, mails, n, i);
      if Reviewed(mails.tickets[i], run.anchors.reviews[n]).Some? {
        FileFitsLater(tickets[i], mails.tickets[i], run.anchors.reviews[n]);
      }
    }
  }

  /** From validated tickets without '-' items or unasked generated drafts, and one fitting review per ticket
      in the anchor file, every ticket of the finished run passes the validator, whatever the mails say. */
  lemma FittingFileKeepsTicketsValid(run: Run, tickets: seq<TicketState>)
    requires run.anchors.schema != 1 && RunInRange(run, |tickets|) && ProposalsReadAC(run) && AllReady(tickets)
    requires forall n, k :: 0 <= k < n < |run.reviewAt| ==> run.reviewAt[k] != run.reviewAt[n]
    requires forall n :: 0 <= n < |run.reviewAt| ==> FileFits(tickets[run.reviewAt[n]], run.anchors.reviews[n])
    ensures forall i :: 0 <= i < |tickets| ==> ValidTicket(AfterAll(run, tickets).tickets[i])
  {
    hide ValidTicket, FileFits, AllReady, ProposalsReadAC, AfterAll, ReviewsFit;
    FittingFile(run, tickets, false);
    RunKeepsTicketsValid(run, tickets);
  }

  /** Where the reviews also leave their tickets ready, the finished run's tickets are ready for the next one. */
  lemma LastingFileKeepsTicketsReady(run: Run, tickets: seq<TicketState>)
    requires run.anchors.schema != 1 && RunInRange(run, |tickets|) && ProposalsReadAC(run) && AllReady(tickets)
    requires forall n, k :: 0 <= k < n < |run.reviewAt| ==> run.reviewAt[k] != run.reviewAt[n]
    requires forall n :: 0 <= n < |run.reviewAt| ==> FileLasts(tickets[run.reviewAt[n]], run.anchors.reviews[n])
    ensures AllReady(AfterAll(run, tickets).tickets)
  {
    hide ValidTicket, FileFits, LeavesReady, ProposalsReadAC, AfterAll, ReviewsFit, Ready;
    FittingFile(run, tickets, true);
    RunKeepsGood(run, tickets, true);
  }
}
