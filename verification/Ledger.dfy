/** Mail evidence, private anchors, and the append-only ledger of evidence and events. */
module Ledgers {
  import opened Common
  import opened Tickets

  type MessageId = string
  type Stamp = nat

  /** One archived message; `id` is "" when it has no Message-ID. `text` is its top-authored text. */
  datatype Mail = Mail(key: string, id: MessageId, inReplyTo: seq<MessageId>, references: seq<MessageId>,
                       on: Option<Day>, at: Option<Stamp>, sender: string, text: string,
                       receipts: nat, digest: string)

  // ---------- Private anchors ----------

  datatype Purpose = Case | ApprovalProposal | ReceiptLink | ClarificationLink

  datatype ThreadAnchor = ThreadAnchor(id: MessageId, purpose: Purpose, tickets: seq<Selector>)
  datatype DirectLink = DirectLink(id: MessageId, purpose: Purpose, ticket: Selector)
  datatype PaymentBinding = PaymentBinding(ticket: Selector, reference: Sha<string>)
  datatype PaymentLink = PaymentLink(id: MessageId, bindings: seq<PaymentBinding>)
  datatype OperatorPayment = OperatorPayment(ticket: Selector, date: Day, cents: nat,
                                             reference: string, auditNote: string)

  datatype Anchors = Anchors(schema: int, paymentOperators: set<string>, approvers: set<string>,
                             threads: seq<ThreadAnchor>, direct: seq<DirectLink>,
                             reviews: seq<OperatorReview>, payments: seq<PaymentLink>,
                             operatorPayments: seq<OperatorPayment>)

  // ---------- The ledger ----------

  /** A stable evidence key; operator keys are digests of the whole operator entry. */
  datatype EvidenceKey = MailKey(key: string)
                       | ReviewKey(review: Sha<OperatorReview>)
                       | PaymentKey(payment: Sha<OperatorPayment>)

  datatype Digest = MailDigest(digest: string)
                  | ReviewDigest(review: Sha<OperatorReview>)
                  | PaymentDigest(payment: Sha<OperatorPayment>)

  datatype Record = Record(on: Option<Day>, at: Option<Stamp>, digest: Digest)

  datatype Kind = ReceiptReceived | ClarificationReceived
                | PaymentRecorded | PaymentDiscrepancy | PaymentQuarantined
                | ApprovalGranted | ApprovalDeclined | ApprovalQuarantined
                | OperatorReviewed

  /** The digest of (evidence key, ticket key, kind), by what it is taken of. */
  datatype EventKey = EventKey(evidence: EvidenceKey, ticket: string, kind: Kind)

  datatype Discrepancy = NoDiscrepancy | DiffersFrom(total: nat) | GroupHeld
                       | AlreadyPaid | NotApproved | AfterReport

  datatype Summary = Stock | ReceiptCount(n: nat) | AuditNote(text: string)

  datatype Event = Event(evidence: EvidenceKey, ticket: string, kind: Kind,
                         on: Option<Day>, at: Option<Stamp>, digest: Digest, summary: Summary,
                         cents: Option<nat>, reference: string, discrepancy: Discrepancy)
  {
    function Key(): EventKey { EventKey(evidence, ticket, kind) }
  }

  datatype Reason = NoExactLink | AmbiguousLink | MissingMessageId | NoActionableContent | PaymentLinkRejected

  /** The three ledger lists; the loader refuses repeated keys, so each is a map by its key. */
  datatype Ledger = Ledger(evidence: map<EvidenceKey, Record>, events: map<EventKey, Event>,
                           unmatched: map<EvidenceKey, Reason>)

  const NO_LEDGER := Ledger(map[], map[], map[])

  predicate IsPayment(kind: Kind) {
    kind == PaymentRecorded || kind == PaymentDiscrepancy || kind == PaymentQuarantined
  }

  // ---------- What the loader asks of a ledger ----------

  ghost predicate LinkedOrUnmatched(l: Ledger) {
    && (forall k :: k in l.evidence <==> k in l.unmatched || exists e :: e in l.events && e.evidence == k)
    && (forall e :: e in l.events ==> e.evidence !in l.unmatched)
  }

  ghost predicate EventsMatchEvidence(l: Ledger) {
    forall e :: e in l.events ==>
      && l.events[e].Key() == e
      && e.evidence in l.evidence
      && var record := l.evidence[e.evidence];
         l.events[e].digest == record.digest && l.events[e].on == record.on && l.events[e].at == record.at
  }

  ghost predicate LanesKept(l: Ledger) {
    && (forall e :: e in l.events ==>
          && (e.kind == OperatorReviewed <==> e.evidence.ReviewKey?)
          && (e.evidence.PaymentKey? ==> IsPayment(e.kind)))
    && (forall k :: k in l.unmatched ==> k.MailKey?)
  }

  ghost predicate OneEventPerOperatorPayment(l: Ledger) {
    forall k :: k in l.evidence && k.PaymentKey? ==>
      exists e :: e in l.events && e.evidence == k && forall f :: f in l.events && f.evidence == k ==> f == e
  }

  ghost predicate PaymentFields(l: Ledger) {
    forall e :: e in l.events ==>
      var v := l.events[e];
      && (IsPayment(e.kind) ==> v.on.Some? && v.cents.Some? && v.reference != "")
      && (!IsPayment(e.kind) ==> v.cents.None? && v.reference == "" && v.discrepancy == NoDiscrepancy)
      && (e.kind == PaymentRecorded ==> v.discrepancy == NoDiscrepancy)
      && (e.kind == PaymentDiscrepancy || e.kind == PaymentQuarantined ==> v.discrepancy != NoDiscrepancy)
  }

  ghost predicate OneRecordedPerTicket(l: Ledger) {
    forall e, f ::
      (e in l.events && f in l.events && e.kind == PaymentRecorded && f.kind == PaymentRecorded
       && e.ticket == f.ticket) ==> e == f
  }

  /** The ledger rules of `_parse_supplemental` and `_load_data` that name no ticket. */
  ghost predicate LedgerAgrees(l: Ledger) {
    && LinkedOrUnmatched(l)
    && EventsMatchEvidence(l)
    && LanesKept(l)
    && OneEventPerOperatorPayment(l)
    && PaymentFields(l)
  }

  /** A recorded payment's target, as the loader checks it. */
  ghost predicate RecordedTarget(e: Event, t: TicketState) {
    && t.head.selector.key == e.ticket
    && t.live.workflow == Settled && t.live.decision == Approved && t.live.payment == Paid
    && t.live.paidOn == e.on
    && e.cents.Some? && Recorded(e.reference, e.cents.value) in t.live.confirmations
  }

  ghost predicate RecordedTargets(l: Ledger, tickets: seq<TicketState>) {
    forall e :: e in l.events && e.kind == PaymentRecorded ==>
      exists i :: 0 <= i < |tickets| && RecordedTarget(l.events[e], tickets[i])
                  && l.events[e].cents == Some(Payable(tickets[i].items))
  }
}
