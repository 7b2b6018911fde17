/** One refresh run of the reducer, as functions of ticket values and ledger maps.
    A run that the source aborts has `ok == false` from that step on. */
module ReducerSpec {
  import opened Common
  import opened Tickets
  import opened Ledgers
  import opened Ancestry

  datatype PaymentText = PaymentText(cents: nat, reference: string)
  datatype Reply = Positive | Negative

  /** What the text parsers answer; `blocks` also gets the generated-email context it must match. */
  datatype Reader = Reader(candidate: string -> bool,
                           legacy: string -> Option<PaymentText>,
                           blocks: (string, string) -> Option<seq<PaymentText>>,
                           proposal: (string, seq<string>) -> Option<seq<Recommendation>>,
                           reply: string -> Option<Reply>)

  /** Everything one run reads. `mails` is in processing order; positions index the ticket list. */
  datatype Run = Run(reader: Reader, anchors: Anchors, links: Links, mails: seq<Mail>,
                     paymentIds: seq<MessageId>, reviewAt: seq<nat>, operatorAt: seq<nat>,
                     prev: Ledger, asOf: Day, outOfScope: set<string>)

  datatype State = State(ok: bool, tickets: seq<TicketState>, ledger: Ledger)

  function Failed(st: State): State { st.(ok := false) }

  function AddEvent(st: State, e: Event): State {
    if e.Key() in st.ledger.events && st.ledger.events[e.Key()] != e then Failed(st)
    else st.(ledger := st.ledger.(events := st.ledger.events[e.Key() := e]))
  }

  function AddEvidence(st: State, key: EvidenceKey, record: Record): State {
    st.(ledger := st.ledger.(evidence := st.ledger.evidence[key := record]))
  }

  function Unmatch(st: State, m: Mail, reason: Reason): State {
    st.(ledger := st.ledger.(unmatched := st.ledger.unmatched[MailKey(m.key) := reason]))
  }

  function MailRecord(m: Mail): Record {
    Record(m.on, m.at, MailDigest(m.digest))
  }

  function Account(st: State, m: Mail): State {
    AddEvidence(st, MailKey(m.key), MailRecord(m))
  }

  function KeyOf(st: State, i: nat): string
    requires i < |st.tickets|
  {
    st.tickets[i].head.selector.key
  }

  function MailEvent(m: Mail, ticket: string, kind: Kind, summary: Summary): Event {
    Event(MailKey(m.key), ticket, kind, m.on, m.at, MailDigest(m.digest), summary, None, "", NoDiscrepancy)
  }

  function MailPayment(m: Mail, ticket: string, kind: Kind, p: PaymentText, d: Discrepancy): Event {
    Event(MailKey(m.key), ticket, kind, m.on, m.at, MailDigest(m.digest), Stock, Some(p.cents), p.reference, d)
  }

  function Put(st: State, i: nat, t: TicketState): State
    requires i < |st.tickets|
  {
    st.(tickets := st.tickets[i := t])
  }

  predicate Exact(run: Run, e: Event) {
    e.Key() in run.prev.events && run.prev.events[e.Key()] == e
  }

  predicate Nonblank(text: string) {
    Strip(text) != ""
  }

  // ---------- Mail lane: routing ----------

  predicate IsAnchor(run: Run, m: Mail) {
    m.id in run.links.originals || m.id in run.links.threads || m.id in run.links.payments
  }

  function TicketLists(r: set<Resolution>): set<seq<nat>> {
    set x | x in r :: x.tickets
  }

  function Scopes(r: set<Resolution>): set<(Purpose, seq<nat>)> {
    set x | x in r :: (x.purpose, x.tickets)
  }

  predicate HasProposal(r: set<Resolution>) {
    exists x :: x in r && x.purpose == ApprovalProposal
  }

  /** A direct link overrides ancestry that names the same ticket, and joins ancestry that does not. */
  function WithDirect(run: Run, m: Mail, r: set<Resolution>): set<Resolution> {
    if m.id in run.links.direct then
      var d := Resolution(run.links.direct[m.id].purpose, [run.links.direct[m.id].ticket], m.id);
      if r != {} && TicketLists(r) != {d.tickets} then r + {d} else {d}
    else r
  }

  ghost function ScopeOf(run: Run, m: Mail): set<Resolution> {
    WithDirect(run, m, Resolutions(run.links, Parents(m)))
  }

  predicate Ambiguous(r: set<Resolution>) {
    |TicketLists(r)| > 1 || (|Scopes(r)| > 1 && HasProposal(r))
  }

  predicate Candidate(run: Run, m: Mail) {
    m.receipts > 0 || run.reader.candidate(m.text) || run.reader.legacy(m.text).Some?
  }

  ghost function Target(r: set<Resolution>): seq<nat>
    requires r != {}
  {
    var x :| x in r; x.tickets
  }

  // ---------- Mail lane: approval proposals ----------

  datatype Grant = Apply(statuses: seq<Status>) | ReplayOnly

  predicate HasPriorGrant(run: Run, m: Mail, t: TicketState) {
    var k := EventKey(MailKey(m.key), t.head.selector.key, ApprovalGranted);
    k in run.prev.events && run.prev.events[k].digest == MailDigest(m.digest)
  }

  function PriorGrant(run: Run, m: Mail, t: TicketState): Option<seq<Status>> {
    var statuses := StatusesOf(t.items);
    if HasPriorGrant(run, m, t) && statuses != []
       && (forall i :: 0 <= i < |statuses| ==> statuses[i] == A || statuses[i] == C)
       && t.live.decision == ProposedDecision(statuses)
    then Some(statuses) else None
  }

  predicate HasOverride(run: Run, t: TicketState) {
    exists i :: 0 <= i < |run.anchors.reviews| && run.anchors.reviews[i].ticket == t.head.selector
  }

  function GrantFor(run: Run, m: Mail, t: TicketState, r: Recommendation): Option<Grant> {
    match Expand(t.items, r)
    case Some(s) => Some(Apply(s))
    case None =>
      match PriorGrant(run, m, t)
      case Some(s) => Some(Apply(s))
      case None => if HasPriorGrant(run, m, t) && HasOverride(run, t) then Some(ReplayOnly) else None
  }

  /** The section for `ref`; a later one replaces an earlier. */
  function Section(recs: seq<Recommendation>, ref: string): Option<Recommendation> {
    if recs == [] then None
    else if recs[|recs| - 1].ref == ref then Some(recs[|recs| - 1])
    else Section(recs[..|recs| - 1], ref)
  }

  function SectionGrant(run: Run, m: Mail, t: TicketState, recs: seq<Recommendation>): Option<Grant> {
    match Section(recs, t.head.selector.ref)
    case None => None
    case Some(r) => GrantFor(run, m, t, r)
  }

  predicate InRange(st: State, at: seq<nat>) {
    forall k :: 0 <= k < |at| ==> at[k] < |st.tickets|
  }

  function Refs(st: State, at: seq<nat>): seq<string>
    requires InRange(st, at)
  {
    seq(|at|, k requires 0 <= k < |at| => st.tickets[at[k]].head.selector.ref)
  }

  ghost predicate ProposalFits(run: Run, m: Mail, st: State, at: seq<nat>, recs: Option<seq<Recommendation>>)
    requires InRange(st, at)
  {
    && recs.Some?
    && (forall k :: 0 <= k < |at| ==> SectionGrant(run, m, st.tickets[at[k]], recs.value).Some?)
    && Distinct(Refs(st, at))
  }

  ghost function ProposalMail(run: Run, r: set<Resolution>): Option<Mail> {
    var ids := set x | x in r && x.purpose == ApprovalProposal :: x.anchor;
    if |ids| != 1 then None
    else
      var id :| id in ids;
      if id in run.links.mails then Some(run.links.mails[id]) else None
  }

  function ProposalRecs(run: Run, proposal: Option<Mail>, refs: seq<string>): Option<seq<Recommendation>> {
    if proposal.Some? then run.reader.proposal(proposal.value.text, refs) else None
  }

  function ProposalKind(run: Run, m: Mail, fits: bool): Kind {
    if m.sender !in run.anchors.approvers || run.reader.reply(m.text).None? || !fits then ApprovalQuarantined
    else if run.reader.reply(m.text) == Some(Negative) then ApprovalDeclined
    else ApprovalGranted
  }

  /** Record one proposal event per ticket and, when granted, authorise the expanded statuses. */
  function ProposalOne(st: State, m: Mail, kind: Kind, i: nat, grant: Option<Grant>): State
    requires i < |st.tickets|
  {
    var s := AddEvent(st, MailEvent(m, KeyOf(st, i), kind, Stock));
    if kind == ApprovalGranted && grant.Some? && grant.value.Apply? then
      if |grant.value.statuses| != |s.tickets[i].items| then Failed(s)
      else Put(s, i, ProposalApproved(s.tickets[i], grant.value.statuses))
    else s
  }

  function Grants(run: Run, m: Mail, st: State, at: seq<nat>, recs: Option<seq<Recommendation>>): (g: seq<Option<Grant>>)
    requires InRange(st, at)
    ensures |g| == |at|
  {
    seq(|at|, k requires 0 <= k < |at| =>
      if recs.Some? then SectionGrant(run, m, st.tickets[at[k]], recs.value) else None)
  }

  function ProposalAll(st: State, m: Mail, kind: Kind, at: seq<nat>, grants: seq<Option<Grant>>): (s: State)
    requires InRange(st, at) && |grants| == |at|
    ensures |s.tickets| == |st.tickets| && (s.ok ==> st.ok)
  {
    if at == [] then st
    else
      var n := |at| - 1;
      ProposalOne(ProposalAll(st, m, kind, at[..n], grants[..n]), m, kind, at[n], grants[n])
  }

  ghost function ProposalStep(run: Run, st: State, m: Mail, r: set<Resolution>, at: seq<nat>): (s: State)
    requires InRange(st, at)
    ensures |s.tickets| == |st.tickets| && (s.ok ==> st.ok)
  {
    var recs := ProposalRecs(run, ProposalMail(run, r), Refs(st, at));
    var kind := ProposalKind(run, m, ProposalFits(run, m, st, at, recs));
    ProposalAll(st, m, kind, at, Grants(run, m, st, at, recs))
  }

  // ---------- Mail lane: responses, and the schema-1 payments found in them ----------

  predicate Schema1Payment(run: Run, m: Mail) {
    run.anchors.schema == 1 && run.reader.legacy(m.text).Some? && m.on.Some?
    && m.sender in run.anchors.paymentOperators
  }

  function ResponseStep(run: Run, st: State, m: Mail, i: nat): (s: State)
    requires i < |st.tickets|
    ensures |s.tickets| == |st.tickets| && (s.ok ==> st.ok)
  {
    var key := KeyOf(st, i);
    var paid := Schema1Payment(run, m);
    var s1 :=
      if m.receipts > 0 then
        var s := AddEvent(st, MailEvent(m, key, ReceiptReceived, ReceiptCount(m.receipts)));
        if paid then s else Put(s, i, ResponseReceived(s.tickets[i], true))
      else st;
    var s2 :=
      if Nonblank(m.text) then
        var s := AddEvent(s1, MailEvent(m, key, ClarificationReceived, Stock));
        if m.receipts > 0 || paid then s else Put(s, i, ResponseReceived(s.tickets[i], false))
      else s1;
    var s3 := if m.receipts == 0 && !Nonblank(m.text) then Unmatch(s2, m, NoActionableContent) else s2;
    if paid then Schema1Pay(s3, m, i, run.reader.legacy(m.text).value) else s3
  }

  function Schema1Pay(st: State, m: Mail, i: nat, p: PaymentText): (s: State)
    requires i < |st.tickets|
    ensures |s.tickets| == |st.tickets| && (s.ok ==> st.ok)
  {
    var total := SourceTotal(st.tickets[i].items);
    if p.cents != total then
      var s := AddEvent(st, MailPayment(m, KeyOf(st, i), PaymentDiscrepancy, p, DiffersFrom(total)));
      Put(s, i, PaymentHeld(s.tickets[i]))
    else
      var s := AddEvent(st, MailPayment(m, KeyOf(st, i), PaymentRecorded, p, NoDiscrepancy));
      Put(s, i, PaymentApplied(s.tickets[i], m.on, p.cents, p.reference))
  }

  ghost function MailStep(run: Run, st: State, m: Mail): (s: State)
    ensures |s.tickets| == |st.tickets| && (s.ok ==> st.ok)
  {
    if IsAnchor(run, m) then st
    else
      var r := ScopeOf(run, m);
      if Ambiguous(r) then Unmatch(Account(st, m), m, AmbiguousLink)
      else if r == {} then
        if Candidate(run, m) then Unmatch(Account(st, m), m, if m.id == "" then MissingMessageId else NoExactLink)
        else st
      else if !InRange(st, Target(r)) || Target(r) == [] then Failed(st)
      else if HasProposal(r) then ProposalStep(run, Account(st, m), m, r, Target(r))
      else ResponseStep(run, Account(st, m), m, Target(r)[0])
  }

  // ---------- Operator reviews ----------

  function ReviewStep(st: State, o: OperatorReview, i: nat): (s: State)
    requires i < |st.tickets|
    ensures |s.tickets| == |st.tickets| && (s.ok ==> st.ok)
  {
    var key := ReviewKey(Sha(o));
    var s := AddEvidence(st, key, Record(None, None, ReviewDigest(Sha(o))));
    var s' := AddEvent(s, Event(key, KeyOf(st, i), OperatorReviewed, None, None, ReviewDigest(Sha(o)),
                                Stock, None, "", NoDiscrepancy));
    match Reviewed(s'.tickets[i], o)
    case None => Failed(s')
    case Some(t) => Put(s', i, t)
  }

  // ---------- Payment links ----------

  function ContextOf(st: State, bound: seq<Bound>): string
    requires forall k :: 0 <= k < |bound| ==> bound[k].ticket < |st.tickets|
  {
    if |bound| == 1 then st.tickets[bound[0].ticket].review.context else ""
  }

  predicate UsesLegacy(run: Run, m: Mail, context: string, bound: seq<Bound>) {
    run.reader.blocks(m.text, context).None? && |bound| == 1 && run.reader.legacy(m.text).Some?
  }

  predicate RepeatsReference(ps: seq<PaymentText>) {
    exists i, j :: 0 <= i < j < |ps| && ps[i].reference == ps[j].reference
  }

  function ParsedBlocks(run: Run, m: Mail, context: string, bound: seq<Bound>): Option<seq<PaymentText>> {
    var found := if UsesLegacy(run, m, context, bound) then Some([run.reader.legacy(m.text).value])
                 else run.reader.blocks(m.text, context);
    if found.Some? && RepeatsReference(found.value) then None else found
  }

  function Positions(bound: seq<Bound>): set<nat> {
    set b | b in bound :: b.ticket
  }

  /** Ancestry that names other tickets than the bound ones, or any approval proposal. */
  predicate Conflicts(r: set<Resolution>, bound: seq<Bound>) {
    exists x :: x in r && ((set i | i in x.tickets) != Positions(bound) || x.purpose == ApprovalProposal)
  }

  predicate InTime(run: Run, m: Mail) {
    m.on.Some? && m.key !in run.outOfScope && m.on.value <= run.asOf
  }

  ghost predicate GroupReadable(run: Run, m: Mail, bound: seq<Bound>, parsed: Option<seq<PaymentText>>) {
    && m.sender in run.anchors.paymentOperators
    && InTime(run, m)
    && !Conflicts(Resolutions(run.links, Parents(m)), bound)
    && parsed.Some? && |parsed.value| == |bound|
    && TextReferences(parsed.value) == BoundReferences(bound)
  }

  function TextReferences(ps: seq<PaymentText>): set<Sha<string>> {
    set p | p in ps :: Sha(p.reference)
  }

  function BoundReferences(bound: seq<Bound>): set<Sha<string>> {
    set b | b in bound :: b.reference
  }

  function PaymentFor(ps: seq<PaymentText>, reference: Sha<string>): PaymentText {
    if ps == [] then PaymentText(0, "")
    else if Sha(ps[|ps| - 1].reference) == reference then ps[|ps| - 1]
    else PaymentFor(ps[..|ps| - 1], reference)
  }

  function RecordedEvent(m: Mail, t: TicketState, p: PaymentText): Event {
    MailPayment(m, t.head.selector.key, PaymentRecorded, p, NoDiscrepancy)
  }

  predicate Eligible(run: Run, m: Mail, t: TicketState, p: PaymentText, legacy: bool) {
    && (legacy ==> Exact(run, RecordedEvent(m, t, p)))
    && IsApproved(t) && IsZelle(t.head.payMethod)
    && (SettledOrPaid(t) ==> Exact(run, RecordedEvent(m, t, p)))
  }

  datatype Verdict = Rejected | Held | Payable

  predicate BoundInRange(st: State, bound: seq<Bound>) {
    forall k :: 0 <= k < |bound| ==> bound[k].ticket < |st.tickets|
  }

  ghost function Judge(run: Run, st: State, m: Mail, bound: seq<Bound>): Verdict
    requires BoundInRange(st, bound)
  {
    var context := ContextOf(st, bound);
    var parsed := ParsedBlocks(run, m, context, bound);
    if !GroupReadable(run, m, bound, parsed) then Rejected
    else if exists b :: b in bound && !Eligible(run, m, st.tickets[b.ticket], PaymentFor(parsed.value, b.reference),
                                                UsesLegacy(run, m, context, bound)) then Rejected
    else if exists b :: b in bound
              && PaymentFor(parsed.value, b.reference).cents != Tickets.Payable(st.tickets[b.ticket].items) then Held
    else Verdict.Payable
  }

  /** The earlier receipt and clarification events of this mail that this run justifies again. */
  function Companions(run: Run, m: Mail, ticket: string): seq<Event> {
    var receipt := MailEvent(m, ticket, ReceiptReceived, ReceiptCount(m.receipts));
    var clarification := MailEvent(m, ticket, ClarificationReceived, Stock);
    (if m.receipts > 0 && Exact(run, receipt) then [receipt] else []) +
    (if Nonblank(m.text) && Exact(run, clarification) then [clarification] else [])
  }

  function AddEvents(st: State, es: seq<Event>): (s: State)
    ensures s.tickets == st.tickets && (s.ok ==> st.ok)
  {
    if es == [] then st else AddEvent(AddEvents(st, es[..|es| - 1]), es[|es| - 1])
  }

  function HeldEvent(m: Mail, t: TicketState, p: PaymentText): Event {
    var total := Tickets.Payable(t.items);
    if p.cents != total then MailPayment(m, t.head.selector.key, PaymentDiscrepancy, p, DiffersFrom(total))
    else MailPayment(m, t.head.selector.key, PaymentQuarantined, p, GroupHeld)
  }

  function HoldOne(run: Run, st: State, m: Mail, b: Bound, p: PaymentText): (s: State)
    requires b.ticket < |st.tickets|
    ensures s.tickets == st.tickets && (s.ok ==> st.ok)
  {
    var t := st.tickets[b.ticket];
    AddEvents(AddEvent(st, HeldEvent(m, t, p)), Companions(run, m, t.head.selector.key))
  }

  function HoldAll(run: Run, st: State, m: Mail, bound: seq<Bound>, ps: seq<PaymentText>): (s: State)
    requires BoundInRange(st, bound)
    ensures s.tickets == st.tickets && (s.ok ==> st.ok)
  {
    if bound == [] then st
    else
      var b := bound[|bound| - 1];
      HoldOne(run, HoldAll(run, st, m, bound[..|bound| - 1], ps), m, b, PaymentFor(ps, b.reference))
  }

  function PayOne(run: Run, st: State, m: Mail, b: Bound, p: PaymentText): (s: State)
    requires b.ticket < |st.tickets|
    ensures |s.tickets| == |st.tickets| && (s.ok ==> st.ok)
  {
    var t := st.tickets[b.ticket];
    var s := AddEvents(AddEvent(st, RecordedEvent(m, t, p)), Companions(run, m, t.head.selector.key));
    Put(s, b.ticket, PaymentApplied(t, m.on, p.cents, p.reference))
  }

  function PayAll(run: Run, st: State, m: Mail, bound: seq<Bound>, ps: seq<PaymentText>): (s: State)
    requires BoundInRange(st, bound)
    ensures |s.tickets| == |st.tickets| && (s.ok ==> st.ok)
  {
    if bound == [] then st
    else
      var b := bound[|bound| - 1];
      PayOne(run, PayAll(run, st, m, bound[..|bound| - 1], ps), m, b, PaymentFor(ps, b.reference))
  }

  ghost function LinkStep(run: Run, st: State, id: MessageId): (s: State)
    requires id in run.links.payments && BoundInRange(st, run.links.payments[id])
    ensures |s.tickets| == |st.tickets| && (s.ok ==> st.ok)
  {
    if id !in run.links.mails then st
    else
      var m, bound := run.links.mails[id], run.links.payments[id];
      var s := Account(st, m);
      var ps := ParsedBlocks(run, m, ContextOf(st, bound), bound);
      match Judge(run, st, m, bound)
      case Rejected => Unmatch(s, m, PaymentLinkRejected)
      case Held => HoldAll(run, s, m, bound, ps.value)
      case Payable => PayAll(run, s, m, bound, ps.value)
  }

  // ---------- Explicit operator payments ----------

  function OperatorVerdict(run: Run, p: OperatorPayment, t: TicketState): (Kind, Discrepancy) {
    var total := Tickets.Payable(t.items);
    if SettledOrPaid(t) then (PaymentQuarantined, AlreadyPaid)
    else if !IsApproved(t) then (PaymentQuarantined, NotApproved)
    else if p.date > run.asOf then (PaymentQuarantined, AfterReport)
    else if p.cents != total then (PaymentDiscrepancy, DiffersFrom(total))
    else (PaymentRecorded, NoDiscrepancy)
  }

  function OperatorEvent(p: OperatorPayment, ticket: string, kind: Kind, d: Discrepancy): Event {
    Event(PaymentKey(Sha(p)), ticket, kind, Some(p.date), None, PaymentDigest(Sha(p)),
          if kind == PaymentRecorded then AuditNote(p.auditNote) else Stock,
          Some(p.cents), p.reference, d)
  }

  function OperatorApply(st: State, p: OperatorPayment, i: nat, kind: Kind): State
    requires i < |st.tickets|
  {
    if kind == PaymentRecorded then
      Put(st, i, PaymentApplied(st.tickets[i], Some(p.date), p.cents, p.reference))
    else if kind == PaymentDiscrepancy then Put(st, i, PaymentHeld(st.tickets[i]))
    else st
  }

  function PriorEvents(run: Run, p: OperatorPayment): set<EventKey> {
    set e | e in run.prev.events && e.evidence == PaymentKey(Sha(p))
  }

  ghost function OperatorStep(run: Run, st: State, p: OperatorPayment, i: nat): (s: State)
    requires i < |st.tickets|
    ensures |s.tickets| == |st.tickets| && (s.ok ==> st.ok)
  {
    var s := AddEvidence(st, PaymentKey(Sha(p)), Record(Some(p.date), None, PaymentDigest(Sha(p))));
    var prior := PriorEvents(run, p);
    if prior == {} then
      var v := OperatorVerdict(run, p, st.tickets[i]);
      OperatorApply(AddEvent(s, OperatorEvent(p, KeyOf(st, i), v.0, v.1)), p, i, v.0)
    else if |prior| != 1 then Failed(s)
    else
      var k :| k in prior;
      var e := run.prev.events[k];
      if e.ticket != KeyOf(st, i) || e.digest != PaymentDigest(Sha(p)) || !IsPayment(e.kind) then Failed(s)
      else OperatorApply(AddEvent(s, e), p, i, e.kind)
  }

  // ---------- The whole run ----------

  ghost function MailsUpTo(run: Run, st: State, n: nat): (s: State)
    requires n <= |run.mails|
    ensures |s.tickets| == |st.tickets| && (s.ok ==> st.ok)
  {
    if n == 0 then st else MailStep(run, MailsUpTo(run, st, n - 1), run.mails[n - 1])
  }

  ghost predicate RunInRange(run: Run, n: nat) {
    && |run.reviewAt| == |run.anchors.reviews| && (forall k :: 0 <= k < |run.reviewAt| ==> run.reviewAt[k] < n)
    && |run.operatorAt| == |run.anchors.operatorPayments|
    && (forall k :: 0 <= k < |run.operatorAt| ==> run.operatorAt[k] < n)
    && (forall id :: id in run.paymentIds <==> id in run.links.payments)
    && (forall id, k :: id in run.links.payments && 0 <= k < |run.links.payments[id]| ==>
          run.links.payments[id][k].ticket < n)
  }

  ghost function ReviewsUpTo(run: Run, st: State, n: nat): (s: State)
    requires RunInRange(run, |st.tickets|) && n <= |run.reviewAt|
    ensures |s.tickets| == |st.tickets| && (s.ok ==> st.ok)
  {
    if n == 0 then st else ReviewStep(ReviewsUpTo(run, st, n - 1), run.anchors.reviews[n - 1], run.reviewAt[n - 1])
  }

  ghost function LinksUpTo(run: Run, st: State, n: nat): (s: State)
    requires RunInRange(run, |st.tickets|) && n <= |run.paymentIds|
    ensures |s.tickets| == |st.tickets| && (s.ok ==> st.ok)
  {
    if n == 0 then st
    else
      assert run.paymentIds[n - 1] in run.links.payments;
      LinkStep(run, LinksUpTo(run, st, n - 1), run.paymentIds[n - 1])
  }

  ghost function OperatorUpTo(run: Run, st: State, n: nat): (s: State)
    requires RunInRange(run, |st.tickets|) && n <= |run.operatorAt|
    ensures |s.tickets| == |st.tickets| && (s.ok ==> st.ok)
  {
    if n == 0 then st
    else OperatorStep(run, OperatorUpTo(run, st, n - 1), run.anchors.operatorPayments[n - 1], run.operatorAt[n - 1])
  }

  /** Every earlier evidence digest and every earlier event is reproduced. */
  predicate Reproduces(prev: Ledger, l: Ledger) {
    && (forall k :: k in prev.evidence ==> k in l.evidence && l.evidence[k].digest == prev.evidence[k].digest)
    && (forall e :: e in prev.events ==> e in l.events && l.events[e] == prev.events[e])
  }
}
