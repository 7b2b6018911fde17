/** Step facts: what each step of a run may change on tickets, and that it files its evidence. */
module ReducerSteps {
  import opened Common
  import opened Tickets
  import opened Ledgers
  import opened Ancestry
  import opened ReducerSpec
  import opened LedgerSteps

  /** The payment side of a ticket: nothing here changes outside the payment lanes. */
  predicate KeepsPayment(t: TicketState, u: TicketState) {
    && u.head == t.head
    && u.live.workflow == t.live.workflow && u.live.payment == t.live.payment
    && u.live.paidOn == t.live.paidOn && u.live.confirmations == t.live.confirmations
  }

  ghost predicate AllKeep(a: seq<TicketState>, b: seq<TicketState>) {
    |a| == |b| && forall i :: 0 <= i < |a| ==> KeepsPayment(a[i], b[i])
  }

  ghost predicate NoPayments(l: Ledger) {
    forall e :: e in l.events ==> !IsPayment(e.kind)
  }

  /** A step outside the payment lanes, for the evidence `k`. */
  ghost predicate Quiet(st: State, s: State, k: EvidenceKey, r: Record) {
    && (s.ok ==> st.ok)
    && AllKeep(st.tickets, s.tickets)
    && Grows(st.ledger, s.ledger, k, r)
    && (NoPayments(st.ledger) ==> NoPayments(s.ledger))
  }

  lemma QuietTransitive(a: State, b: State, c: State, k: EvidenceKey, r: Record)
    requires Quiet(a, b, k, r) && Quiet(b, c, k, r)
    ensures Quiet(a, c, k, r)
  {
    GrowsTransitive(a.ledger, b.ledger, c.ledger, k, r);
  }

  lemma AddEventQuiet(st: State, e: Event, k: EvidenceKey, r: Record)
    requires Fits(e, k, r) && !IsPayment(e.kind)
    ensures Quiet(st, AddEvent(st, e), k, r)
  {
    AddEventGrows(st, e, k, r);
  }

  lemma MailEventFits(m: Mail, ticket: string, kind: Kind, summary: Summary)
    requires kind != OperatorReviewed && !IsPayment(kind)
    ensures Fits(MailEvent(m, ticket, kind, summary), MailKey(m.key), MailRecord(m))
  {
  }

  predicate IsProposalKind(kind: Kind) {
    kind == ApprovalQuarantined || kind == ApprovalDeclined || kind == ApprovalGranted
  }

  lemma ProposalOneQuiet(st: State, m: Mail, kind: Kind, i: nat, grant: Option<Grant>)
    requires i < |st.tickets| && IsProposalKind(kind)
    ensures Quiet(st, ProposalOne(st, m, kind, i, grant), MailKey(m.key), MailRecord(m))
    ensures EventKey(MailKey(m.key), KeyOf(st, i), kind) in ProposalOne(st, m, kind, i, grant).ledger.events
  {
    var e := MailEvent(m, KeyOf(st, i), kind, Stock);
    AddEventGrows(st, e, MailKey(m.key), MailRecord(m));
    assert e.Key() == EventKey(MailKey(m.key), KeyOf(st, i), kind);
  }

  lemma {:induction false} ProposalQuiet(st: State, m: Mail, kind: Kind, at: seq<nat>, grants: seq<Option<Grant>>)
    requires InRange(st, at) && |grants| == |at| && IsProposalKind(kind)
    ensures Quiet(st, ProposalAll(st, m, kind, at, grants), MailKey(m.key), MailRecord(m))
    ensures at != [] ==>
      exists e :: e in ProposalAll(st, m, kind, at, grants).ledger.events && e.evidence == MailKey(m.key)
  {
    hide Quiet, ProposalOne, AddEvent;
    var k, r := MailKey(m.key), MailRecord(m);
    if at == [] {
      StaysQuiet(st, k, r);
    } else {
      var n := |at| - 1;
      var s := ProposalAll(st, m, kind, at[..n], grants[..n]);
      ProposalQuiet(st, m, kind, at[..n], grants[..n]);
      ProposalOneQuiet(s, m, kind, at[n], grants[n]);
      QuietTransitive(st, s, ProposalOne(s, m, kind, at[n], grants[n]), k, r);
    }
  }

  lemma StaysQuiet(st: State, k: EvidenceKey, r: Record)
    ensures Quiet(st, st, k, r)
  {
  }

  /** Under schema 2 a response only records events and reopens review; it files its mail. */
  lemma ResponseFiles(run: Run, st: State, m: Mail, i: nat)
    requires run.anchors.schema != 1 && i < |st.tickets|
    requires Fresh(st.ledger, MailKey(m.key))
    ensures var s := ResponseStep(run, Account(st, m), m, i);
            && (s.ok ==> st.ok) && AllKeep(st.tickets, s.tickets)
            && (NoPayments(st.ledger) ==> NoPayments(s.ledger))
            && Files(st.ledger, s.ledger, MailKey(m.key), MailRecord(m))
  {
    hide Fits, ResponseReceived, Nonblank, AllKeep, AddEvent, ResponseStep, Quiet, Grows, Files, NoPayments;
    var k, r := MailKey(m.key), MailRecord(m);
    var s0 := Account(st, m);
    var s1 := if m.receipts > 0 then ReceiptsIn(s0, m, i) else s0;
    var s2 := if Nonblank(m.text) then AnswerIn(s1, m, i, m.receipts == 0) else s1;
    StaysQuiet(s0, k, r);
    ReceiptsQuiet(s0, m, i);
    StaysQuiet(s1, k, r);
    AnswerQuiet(s1, m, i, m.receipts == 0);
    QuietTransitive(s0, s1, s2, k, r);
    ResponseIs(run, s0, m, i);
    if m.receipts > 0 || Nonblank(m.text) {
      EventStays(s1, s2, k, r);
      QuietFiles(st, s2, m);
    } else {
      UnmatchedFiles(st, m);
    }
  }

  lemma EventStays(a: State, b: State, k: EvidenceKey, r: Record)
    requires Quiet(a, b, k, r)
    ensures (exists e :: e in a.ledger.events && e.evidence == k) ==> exists e :: e in b.ledger.events && e.evidence == k
  {
    hide Fits;
  }

  /** Quiet growth under a mail just accounted for, with an event to show, files the mail. */
  lemma QuietFiles(st: State, s: State, m: Mail)
    requires Quiet(Account(st, m), s, MailKey(m.key), MailRecord(m)) && exists e :: e in s.ledger.events && e.evidence == MailKey(m.key)
    ensures (s.ok ==> st.ok) && AllKeep(st.tickets, s.tickets) && (NoPayments(st.ledger) ==> NoPayments(s.ledger))
    ensures Files(st.ledger, s.ledger, MailKey(m.key), MailRecord(m))
  {
    hide Fits;
    GrowthFiles(st.ledger, s.ledger, MailKey(m.key), MailRecord(m));
  }

  lemma UnmatchedFiles(st: State, m: Mail)
    ensures var s := Unmatch(Account(st, m), m, NoActionableContent);
            && (s.ok ==> st.ok) && AllKeep(st.tickets, s.tickets) && (NoPayments(st.ledger) ==> NoPayments(s.ledger))
            && Files(st.ledger, s.ledger, MailKey(m.key), MailRecord(m))
  {
    hide Fits;
  }

  /** The receipt half of a response: its event, and the ticket waits for review again. */
  function ReceiptsIn(st: State, m: Mail, i: nat): (s: State)
    requires i < |st.tickets|
    ensures |s.tickets| == |st.tickets|
  {
    Put(AddEvent(st, MailEvent(m, KeyOf(st, i), ReceiptReceived, ReceiptCount(m.receipts))), i, ResponseReceived(st.tickets[i], true))
  }

  /** The text half: its event and, where no receipt came, the ticket's review. */
  function AnswerIn(st: State, m: Mail, i: nat, alone: bool): (s: State)
    requires i < |st.tickets|
    ensures |s.tickets| == |st.tickets|
  {
    var s := AddEvent(st, MailEvent(m, KeyOf(st, i), ClarificationReceived, Stock));
    if alone then Put(s, i, ResponseReceived(s.tickets[i], false)) else s
  }

  lemma ResponseIs(run: Run, st: State, m: Mail, i: nat)
    requires run.anchors.schema != 1 && i < |st.tickets|
    ensures var s1 := if m.receipts > 0 then ReceiptsIn(st, m, i) else st;
            var s2 := if Nonblank(m.text) then AnswerIn(s1, m, i, m.receipts == 0) else s1;
            ResponseStep(run, st, m, i) == if m.receipts > 0 || Nonblank(m.text) then s2 else Unmatch(st, m, NoActionableContent)
  {
    ResponseKeepsPayment(st.tickets[i], true);
    hide ResponseReceived, Nonblank;
  }

  lemma ResponseKeepsPayment(t: TicketState, receipts: bool)
    ensures KeepsPayment(t, ResponseReceived(t, receipts))
  {
  }

  lemma PutKeeps(st: State, i: nat, t: TicketState)
    requires i < |st.tickets| && KeepsPayment(st.tickets[i], t)
    ensures AllKeep(st.tickets, Put(st, i, t).tickets)
  {
  }

  lemma ReceiptsQuiet(st: State, m: Mail, i: nat)
    requires i < |st.tickets|
    ensures Quiet(st, ReceiptsIn(st, m, i), MailKey(m.key), MailRecord(m))
    ensures exists e :: e in ReceiptsIn(st, m, i).ledger.events && e.evidence == MailKey(m.key)
  {
    hide Fits, ResponseReceived, KeepsPayment, Grows;
    var e := MailEvent(m, KeyOf(st, i), ReceiptReceived, ReceiptCount(m.receipts));
    MailEventFits(m, KeyOf(st, i), ReceiptReceived, ReceiptCount(m.receipts));
    AddEventGrows(st, e, MailKey(m.key), MailRecord(m));
    AddEventQuiet(st, e, MailKey(m.key), MailRecord(m));
    ResponseKeepsPayment(st.tickets[i], true);
    PutKeeps(AddEvent(st, e), i, ResponseReceived(st.tickets[i], true));
    assert e.Key().evidence == MailKey(m.key);
  }

  lemma AnswerQuiet(st: State, m: Mail, i: nat, alone: bool)
    requires i < |st.tickets|
    ensures Quiet(st, AnswerIn(st, m, i, alone), MailKey(m.key), MailRecord(m))
    ensures exists e :: e in AnswerIn(st, m, i, alone).ledger.events && e.evidence == MailKey(m.key)
  {
    hide Fits, ResponseReceived, KeepsPayment, Grows;
    var e := MailEvent(m, KeyOf(st, i), ClarificationReceived, Stock);
    MailEventFits(m, KeyOf(st, i), ClarificationReceived, Stock);
    AddEventGrows(st, e, MailKey(m.key), MailRecord(m));
    AddEventQuiet(st, e, MailKey(m.key), MailRecord(m));
    ResponseKeepsPayment(st.tickets[i], false);
    PutKeeps(AddEvent(st, e), i, ResponseReceived(st.tickets[i], false));
    assert e.Key().evidence == MailKey(m.key);
  }

  lemma ProposalFiles(run: Run, st: State, m: Mail, res: set<Resolution>, at: seq<nat>)
    requires InRange(st, at) && at != []
    requires Fresh(st.ledger, MailKey(m.key))
    ensures var s := ProposalStep(run, Account(st, m), m, res, at);
            && (s.ok ==> st.ok) && AllKeep(st.tickets, s.tickets)
            && (NoPayments(st.ledger) ==> NoPayments(s.ledger))
            && Files(st.ledger, s.ledger, MailKey(m.key), MailRecord(m))
  {
    var s0 := Account(st, m);
    var recs := ProposalRecs(run, ProposalMail(run, res), Refs(s0, at));
    var kind := ProposalKind(run, m, ProposalFits(run, m, s0, at, recs));
    var s := ProposalStep(run, s0, m, res, at);
    ProposalQuiet(s0, m, kind, at, Grants(run, m, s0, at, recs));
    GrowthFiles(st.ledger, s.ledger, MailKey(m.key), MailRecord(m));
  }

  /** Under schema 2 one mail leaves the payment side of every ticket alone, and is filed or ignored. */
  lemma MailFiles(run: Run, st: State, m: Mail)
    requires run.anchors.schema != 1
    requires Fresh(st.ledger, MailKey(m.key))
    ensures var s := MailStep(run, st, m);
            && (s.ok ==> st.ok) && AllKeep(st.tickets, s.tickets)
            && (NoPayments(st.ledger) ==> NoPayments(s.ledger))
            && (s.ok ==> s.ledger == st.ledger || Files(st.ledger, s.ledger, MailKey(m.key), MailRecord(m)))
            && (IsAnchor(run, m) ==> s == st)
  {
    hide ResponseStep, ProposalStep, Resolutions, Fits;
    if !IsAnchor(run, m) {
      var r := ScopeOf(run, m);
      if !Ambiguous(r) && r != {} && InRange(st, Target(r)) && Target(r) != [] {
        if HasProposal(r) {
          ProposalFiles(run, st, m, r, Target(r));
        } else {
          ResponseFiles(run, st, m, Target(r)[0]);
        }
      }
    }
  }

  lemma ReviewFiles(st: State, o: OperatorReview, i: nat)
    requires i < |st.tickets| && Fresh(st.ledger, ReviewKey(Sha(o)))
    ensures var s := ReviewStep(st, o, i);
            && (s.ok ==> st.ok) && AllKeep(st.tickets, s.tickets)
            && (NoPayments(st.ledger) ==> NoPayments(s.ledger))
            && Files(st.ledger, s.ledger, ReviewKey(Sha(o)), Record(None, None, ReviewDigest(Sha(o))))
  {
    hide Fits, Covers, OverriddenItems, RawRollup;
    var k, r := ReviewKey(Sha(o)), Record(None, None, ReviewDigest(Sha(o)));
    var s0 := AddEvidence(st, k, r);
    var e := Event(k, KeyOf(s0, i), OperatorReviewed, None, None, ReviewDigest(Sha(o)), Stock, None, "", NoDiscrepancy);
    ReviewEventFits(o, KeyOf(s0, i));
    AddEventGrows(s0, e, k, r);
    AddEventQuiet(s0, e, k, r);
    var s := ReviewStep(st, o, i);
    assert e.Key() in s.ledger.events;
    GrowthFiles(st.ledger, s.ledger, k, r);
  }

  lemma ReviewEventFits(o: OperatorReview, ticket: string)
    ensures var k, d := ReviewKey(Sha(o)), ReviewDigest(Sha(o));
            Fits(Event(k, ticket, OperatorReviewed, None, None, d, Stock, None, "", NoDiscrepancy), k, Record(None, None, d))
  {
  }
}
