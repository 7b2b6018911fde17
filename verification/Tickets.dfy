/** Tickets, the independent validator of a ticket, and the transitions that change one. */
module Tickets {
  import opened Common

  /** The item and ticket statuses; `Dash` is the unadjudicated '-' an item alone may carry. */
  datatype Status = A | C | D | Q | Dash

  /** Money is in cents; a blank amount is None. */
  datatype Item = Item(key: string, index: int, category: string,
                       source: Option<nat>, reviewed: Option<nat>, status: Status)
  {
    function Effective(): nat {
      match reviewed
      case Some(r) => r
      case None => if source.Some? then source.value else 0
    }
  }

  datatype Workflow = Active | Settled
  datatype Decision = Unreviewed | Approved | Clarification | Declined
  datatype PayStatus = NotPaid | Paid | PaidPrior
  datatype Confirmation = Recorded(reference: string, cents: nat) | FreeText(text: string)
  datatype Live = Live(workflow: Workflow, decision: Decision, payment: PayStatus,
                       paidOn: Option<Day>, confirmations: seq<Confirmation>)

  datatype Review = Review(status: Status, asks: seq<string>, questions: seq<string>, context: string)

  datatype MessageKind = Draft | Sent
  datatype MessageMode = Generated | Verbatim
  datatype Message = Message(kind: MessageKind, mode: MessageMode, body: string)

  datatype Selector = Selector(key: string, ref: string, formLabel: string)
  datatype Origin = Submission | Legacy

  /** The part of a ticket that no transition touches. */
  datatype Head = Head(selector: Selector, origin: Origin, payMethod: string,
                       mappedTotal: Option<nat>, categories: seq<string>)

  datatype TicketState = TicketState(head: Head, live: Live, review: Review,
                                     items: seq<Item>, messages: seq<Message>)

  // ---------- Sums and roll-ups ----------

  function Payable(items: seq<Item>): nat {
    if items == [] then 0 else Payable(items[..|items| - 1]) + items[|items| - 1].Effective()
  }

  function SourceTotal(items: seq<Item>): nat {
    if items == [] then 0
    else
      var last := items[|items| - 1].source;
      SourceTotal(items[..|items| - 1]) + if last.Some? then last.value else 0
  }

  function AmountFor(items: seq<Item>, status: Status): nat {
    if items == [] then 0
    else
      var last := items[|items| - 1];
      AmountFor(items[..|items| - 1], status) + if last.status == status then last.Effective() else 0
  }

  predicate Has(items: seq<Item>, status: Status) {
    exists i :: 0 <= i < |items| && items[i].status == status
  }

  predicate OnlyA(items: seq<Item>) {
    forall i :: 0 <= i < |items| ==> items[i].status == A
  }

  /** The reducer's roll-up, which also looks at '-' items. */
  function RawRollup(items: seq<Item>): Status {
    if items != [] && OnlyA(items) then A
    else if Has(items, C) then C
    else if Has(items, Q) then Q
    else D
  }

  predicate Adjudicated(items: seq<Item>) {
    exists i :: 0 <= i < |items| && items[i].status != Dash
  }

  predicate OnlyAOrDash(items: seq<Item>) {
    forall i :: 0 <= i < |items| ==> items[i].status == A || items[i].status == Dash
  }

  /** The validator's roll-up: '-' items are ignored, and a ticket of only '-' items has none. */
  function Rollup(items: seq<Item>): Option<Status> {
    if !Adjudicated(items) then None
    else if OnlyAOrDash(items) then Some(A)
    else if Has(items, C) then Some(C)
    else if Has(items, Q) then Some(Q)
    else Some(D)
  }

  // ---------- The validator ----------

  predicate IsZelle(paymentMethod: string) {
    Lower(Strip(paymentMethod)) == "zelle"
  }

  function FirstSeen(names: seq<string>): seq<string> {
    if names == [] then []
    else
      var rest := FirstSeen(names[..|names| - 1]);
      var last := names[|names| - 1];
      if last == "" || last in rest then rest else rest + [last]
  }

  function CategoriesOf(items: seq<Item>): seq<string> {
    seq(|items|, i requires 0 <= i < |items| => items[i].category)
  }

  function Drafts(messages: seq<Message>): nat {
    if messages == [] then 0
    else Drafts(messages[1..]) + if messages[0].kind == Draft then 1 else 0
  }

  predicate GeneratedDraft(messages: seq<Message>) {
    exists i :: 0 <= i < |messages| && messages[i].kind == Draft && messages[i].mode == Generated
  }

  predicate NoQuestions(review: Review) {
    review.questions == [] && review.asks == []
  }

  function Expected(status: Status): Option<Decision> {
    match status
    case A => Some(Approved)
    case C => Some(Clarification)
    case D => Some(Declined)
    case _ => None
  }

  ghost predicate ValidItems(items: seq<Item>) {
    && items != []
    && (forall i, j :: 0 <= i < j < |items| ==> items[i].key != items[j].key && items[i].index != items[j].index)
    && (forall i :: 0 <= i < |items| ==>
          items[i].index >= 1 && (items[i].status == Dash ==> items[i].reviewed == None))
  }

  ghost predicate SourceAgrees(head: Head, items: seq<Item>) {
    && FirstSeen(CategoriesOf(items)) == head.categories
    && (head.mappedTotal.Some? ==> SourceTotal(items) == head.mappedTotal.value)
  }

  predicate SettledRule(t: TicketState) {
    t.live.workflow == Settled ==>
      && t.live.payment != NotPaid
      && (|| (t.review.status == A && t.live.decision == Approved)
          || (&& t.review.status == D && t.live.decision == Declined
              && AmountFor(t.items, A) > 0 && AmountFor(t.items, D) > 0
              && (forall i :: 0 <= i < |t.items| ==> t.items[i].status == A || t.items[i].status == D)
              && t.live.paidOn.Some? && t.live.confirmations != []))
  }

  predicate DecisionRule(t: TicketState) {
    t.live.decision != Unreviewed ==> Expected(t.review.status) == Some(t.live.decision)
  }

  predicate QuestionRule(t: TicketState) {
    !(GeneratedDraft(t.messages) && t.review.status == C && NoQuestions(t.review))
  }

  /** What `_parse_ticket` and `_validate_ticket` demand of one ticket. */
  ghost predicate ValidTicket(t: TicketState) {
    && ValidItems(t.items)
    && SourceAgrees(t.head, t.items)
    && Rollup(t.items) == Some(t.review.status)
    && Drafts(t.messages) <= 1
    && (t.live.payment == NotPaid ==> t.live.paidOn == None && t.live.confirmations == [])
    && SettledRule(t)
    && DecisionRule(t)
    && QuestionRule(t)
  }

  // ---------- What the payment lanes ask of a ticket ----------

  predicate SettledOrPaid(t: TicketState) {
    t.live.workflow == Settled || t.live.payment != NotPaid
  }

  predicate IsApproved(t: TicketState) {
    t.items != [] && t.live.decision == Approved && t.review.status == A && OnlyA(t.items)
  }

  // ---------- Transitions, as functions of the ticket's value ----------

  function Mark(items: seq<Item>, status: Status): (r: seq<Item>)
    ensures |r| == |items|
  {
    seq(|items|, i requires 0 <= i < |items| => items[i].(status := status))
  }

  function WithoutDrafts(messages: seq<Message>): seq<Message> {
    if messages == [] then []
    else (if messages[0].kind == Draft then [] else [messages[0]]) + WithoutDrafts(messages[1..])
  }

  function ResponseReceived(t: TicketState, receipts: bool): TicketState {
    if t.live.workflow == Settled then t
    else
      var items := if receipts && t.live.decision == Unreviewed then Mark(t.items, Q) else t.items;
      t.(items := items,
         review := Review(RawRollup(items), [], [], ""),
         messages := WithoutDrafts(t.messages))
  }

  function PaymentApplied(t: TicketState, on: Option<Day>, cents: nat, reference: string): TicketState {
    var confirmation := Recorded(reference, cents);
    var confirmations := if confirmation in t.live.confirmations then t.live.confirmations
                         else t.live.confirmations + [confirmation];
    t.(items := Mark(t.items, A),
       review := Review(A, [], [], ""),
       live := Live(Settled, Approved, Paid, on, confirmations),
       messages := WithoutDrafts(t.messages))
  }

  const AMOUNT_ASK := "Confirm the recorded payment amount before settling this ticket."

  function PaymentHeld(t: TicketState): TicketState {
    if t.live.workflow == Settled then t
    else
      var asks := if AMOUNT_ASK in t.review.asks then t.review.asks else t.review.asks + [AMOUNT_ASK];
      t.(live := t.live.(decision := Unreviewed),
         review := Review(RawRollup(t.items), asks, asks, ""),
         messages := WithoutDrafts(t.messages))
  }

  function ProposedRollup(statuses: seq<Status>): Status {
    if C in statuses then C else A
  }

  function ProposedDecision(statuses: seq<Status>): Decision {
    if C in statuses then Clarification else Approved
  }

  function StatusesOf(items: seq<Item>): seq<Status> {
    seq(|items|, i requires 0 <= i < |items| => items[i].status)
  }

  function WithStatuses(items: seq<Item>, statuses: seq<Status>): (r: seq<Item>)
    requires |items| == |statuses|
    ensures |r| == |items|
  {
    seq(|items|, i requires 0 <= i < |items| => items[i].(status := statuses[i]))
  }

  function ProposalApproved(t: TicketState, statuses: seq<Status>): TicketState
    requires |statuses| == |t.items|
  {
    if t.live.decision != Unreviewed then t
    else
      t.(items := WithStatuses(t.items, statuses),
         review := t.review.(status := ProposedRollup(statuses)),
         live := t.live.(decision := ProposedDecision(statuses)))
  }

  /** One operator item override. */
  datatype Override = Override(index: int, status: Status, reviewed: Option<nat>)

  datatype OperatorReview = OperatorReview(ticket: Selector, recordDecision: bool, items: seq<Override>,
                                           asks: seq<string>, questions: seq<string>, context: string)

  predicate Covers(items: seq<Item>, overrides: seq<Override>) {
    ItemIndexes(items) == OverrideIndexes(overrides)
  }

  function ItemIndexes(items: seq<Item>): set<int> {
    set i | 0 <= i < |items| :: items[i].index
  }

  function OverrideIndexes(overrides: seq<Override>): set<int> {
    set o | 0 <= o < |overrides| :: overrides[o].index
  }

  function OverrideOf(overrides: seq<Override>, index: int): Option<Override> {
    if overrides == [] then None
    else if overrides[|overrides| - 1].index == index then Some(overrides[|overrides| - 1])
    else OverrideOf(overrides[..|overrides| - 1], index)
  }

  function Overridden(item: Item, o: Option<Override>): Item {
    if o.None? then item else item.(status := o.value.status, reviewed := o.value.reviewed)
  }

  function OverriddenItems(items: seq<Item>, overrides: seq<Override>): (r: seq<Item>)
    ensures |r| == |items|
  {
    seq(|items|, i requires 0 <= i < |items| => Overridden(items[i], OverrideOf(overrides, items[i].index)))
  }

  function RecordedDecision(rollup: Status): Decision {
    match Expected(rollup)
    case Some(decision) => decision
    case None => Unreviewed
  }

  /** None when the override misses an item, adds one, or contradicts a recorded payment. */
  function Reviewed(t: TicketState, o: OperatorReview): Option<TicketState> {
    if !Covers(t.items, o.items) then None
    else
      var items := OverriddenItems(t.items, o.items);
      var decision := RecordedDecision(RawRollup(items));
      if o.recordDecision && t.live.payment != NotPaid && decision != Approved then None
      else
        Some(t.(items := items,
                review := Review(RawRollup(items), o.asks, o.questions, o.context),
                live := if o.recordDecision then t.live.(decision := decision) else t.live))
  }

  /** The statuses a proposal section grants, or None when the section does not fit the ticket. */
  datatype Recommendation = Recommendation(ref: string, statuses: seq<Status>, allItems: bool)

  function HeldPositions(items: seq<Item>): nat {
    if items == [] then 0
    else HeldPositions(items[..|items| - 1]) + if items[|items| - 1].status != A then 1 else 0
  }

  /** Existing A items stay A; the k-th held item takes the k-th proposed status. */
  function FillHeld(items: seq<Item>, proposed: seq<Status>): (r: seq<Status>)
    requires HeldPositions(items) == |proposed|
    ensures |r| == |items|
  {
    if items == [] then []
    else
      var last := items[|items| - 1];
      if last.status == A then FillHeld(items[..|items| - 1], proposed) + [A]
      else FillHeld(items[..|items| - 1], proposed[..|proposed| - 1]) + [proposed[|proposed| - 1]]
  }

  function Expand(items: seq<Item>, r: Recommendation): Option<seq<Status>> {
    if items == [] || Has(items, Dash) then None
    else if r.allItems then
      if r.statuses == [A] then Some(seq(|items|, _ => A)) else None
    else if |r.statuses| == |items| then Some(r.statuses)
    else if HeldPositions(items) == 0 || |r.statuses| != HeldPositions(items) then None
    else Some(FillHeld(items, r.statuses))
  }
}
