/** When each transition keeps a validated ticket valid: exact conditions, for all tickets. */
module TicketLaws {
  import opened Common
  import opened Tickets

  /** The two roll-ups agree wherever there is no '-' item. */
  lemma RollupsAgreeWithoutDash(items: seq<Item>)
    requires items != [] && !Has(items, Dash)
    ensures Rollup(items) == Some(RawRollup(items))
  {
    assert items[0].status != Dash;
    if OnlyAOrDash(items) {
      forall i | 0 <= i < |items| ensures items[i].status == A {}
    }
  }

  /** Where some item is adjudicated they differ exactly when '-' items accompany only A items. */
  lemma RollupsDifferExactly(items: seq<Item>)
    requires Adjudicated(items)
    ensures Rollup(items) != Some(RawRollup(items)) <==> Has(items, Dash) && OnlyAOrDash(items)
  {
    if OnlyAOrDash(items) && !Has(items, Dash) {
      RollupsAgreeWithoutDash(items);
    }
  }

  /** The smallest ticket on which they differ. */
  lemma RollupsDisagreeOnADash()
    ensures
      var items := [Item("a", 1, "", None, None, A), Item("b", 2, "", None, None, Dash)];
      Rollup(items) == Some(A) && RawRollup(items) == D
  {
    var items := [Item("a", 1, "", None, None, A), Item("b", 2, "", None, None, Dash)];
    assert items[0].status == A && items[1].status == Dash;
  }

  lemma {:induction false} DraftsGone(messages: seq<Message>)
    ensures Drafts(WithoutDrafts(messages)) == 0 && !GeneratedDraft(WithoutDrafts(messages))
    ensures forall m :: m in WithoutDrafts(messages) <==> m in messages && m.kind == Sent
  {
    if messages != [] {
      DraftsGone(messages[1..]);
      var rest := WithoutDrafts(messages[1..]);
      assert messages == [messages[0]] + messages[1..];
      assert WithoutDrafts(messages) == if messages[0].kind == Draft then rest else [messages[0]] + rest;
      assert messages[0].kind != Draft ==> ([messages[0]] + rest)[1..] == rest;
    }
  }

  lemma {:induction false} SourceTotalKept(a: seq<Item>, b: seq<Item>)
    requires |a| == |b| && forall i :: 0 <= i < |a| ==> a[i].source == b[i].source
    ensures SourceTotal(a) == SourceTotal(b)
  {
    if a != [] {
      SourceTotalKept(a[..|a| - 1], b[..|b| - 1]);
    }
  }

  /** Item changes that leave keys, categories and source amounts alone keep the source checks. */
  lemma SourceKept(head: Head, a: seq<Item>, b: seq<Item>)
    requires |a| == |b|
    requires forall i :: 0 <= i < |a| ==> a[i].source == b[i].source && a[i].category == b[i].category
    ensures SourceAgrees(head, a) == SourceAgrees(head, b)
  {
    SourceTotalKept(a, b);
    assert CategoriesOf(a) == CategoriesOf(b);
  }

  lemma {:induction false} PayableKept(a: seq<Item>, b: seq<Item>)
    requires |a| == |b| && forall i :: 0 <= i < |a| ==> a[i].source == b[i].source && a[i].reviewed == b[i].reviewed
    ensures Payable(a) == Payable(b)
  {
    if a != [] {
      PayableKept(a[..|a| - 1], b[..|b| - 1]);
    }
  }

  /** A payment leaves every valid ticket valid, '-' items included. */
  lemma PaymentKeepsValid(t: TicketState, on: Option<Day>, cents: nat, reference: string)
    requires ValidTicket(t)
    ensures ValidTicket(PaymentApplied(t, on, cents, reference))
  {
    DraftsGone(t.messages);
    SourceKept(t.head, t.items, Mark(t.items, A));
    assert Mark(t.items, A)[0].status == A;
  }

  /** Applying the same payment twice is applying it once. */
  lemma PaymentIdempotent(t: TicketState, on: Option<Day>, cents: nat, reference: string)
    ensures var once := PaymentApplied(t, on, cents, reference);
            PaymentApplied(once, on, cents, reference) == once
  {
    DraftsGone(t.messages);
    WithoutDraftsTwice(t.messages);
    assert Mark(Mark(t.items, A), A) == Mark(t.items, A);
  }

  lemma {:induction false} WithoutDraftsTwice(messages: seq<Message>)
    ensures WithoutDrafts(WithoutDrafts(messages)) == WithoutDrafts(messages)
  {
    if messages != [] {
      WithoutDraftsTwice(messages[1..]);
      var rest := WithoutDrafts(messages[1..]);
      if messages[0].kind != Draft {
        assert ([messages[0]] + rest)[1..] == rest;
      } else {
        assert [] + rest == rest;
      }
    }
  }

  /** A response keeps an open ticket valid unless its '-' items accompany only A items and stay. */
  lemma ResponseKeepsValidExactly(t: TicketState, receipts: bool)
    requires ValidTicket(t)
    ensures ValidTicket(ResponseReceived(t, receipts)) <==>
            || t.live.workflow == Settled
            || (receipts && t.live.decision == Unreviewed)
            || !(Has(t.items, Dash) && OnlyAOrDash(t.items))
  {
    hide RawRollup, Rollup, OnlyAOrDash;
    if t.live.workflow == Active {
      DraftsGone(t.messages);
      if receipts && t.live.decision == Unreviewed {
        MarkedResponseValid(t);
      } else {
        KeptResponseValid(t, receipts);
      }
    }
  }

  lemma MarkedRollup(items: seq<Item>)
    requires items != []
    ensures Rollup(Mark(items, Q)) == Some(RawRollup(Mark(items, Q)))
  {
    assert Mark(items, Q)[0].status == Q;
    RollupsAgreeWithoutDash(Mark(items, Q));
    hide Rollup, RawRollup;
  }

  lemma MarkedItems(items: seq<Item>)
    requires ValidItems(items)
    ensures ValidItems(Mark(items, Q))
  {
  }

  lemma MarkedResponseValid(t: TicketState)
    requires ValidTicket(t) && t.live.workflow == Active && t.live.decision == Unreviewed
    ensures ValidTicket(ResponseReceived(t, true))
  {
    DraftsGone(t.messages);
    SourceKept(t.head, t.items, Mark(t.items, Q));
    MarkedRollup(t.items);
    MarkedItems(t.items);
    hide RawRollup, Rollup, SourceAgrees, Mark, ValidItems;
  }

  lemma KeptResponseValid(t: TicketState, receipts: bool)
    requires ValidTicket(t) && t.live.workflow == Active && !(receipts && t.live.decision == Unreviewed)
    ensures ValidTicket(ResponseReceived(t, receipts)) <==> !(Has(t.items, Dash) && OnlyAOrDash(t.items))
  {
    DraftsGone(t.messages);
    AdjudicatedIfValid(t);
    RollupsDifferExactly(t.items);
    hide RawRollup, Rollup, SourceAgrees, OnlyAOrDash, Has;
  }

  lemma AdjudicatedIfValid(t: TicketState)
    requires ValidTicket(t)
    ensures Adjudicated(t.items)
  {
    hide OnlyAOrDash, SourceAgrees;
  }

  /** A held payment keeps an open ticket valid unless its '-' items accompany only A items. */
  lemma HeldPaymentKeepsValidExactly(t: TicketState)
    requires ValidTicket(t)
    ensures ValidTicket(PaymentHeld(t)) <==>
            t.live.workflow == Settled || !(Has(t.items, Dash) && OnlyAOrDash(t.items))
  {
    DraftsGone(t.messages);
    RollupsDifferExactly(t.items);
  }

  /** An approved proposal keeps an open ticket valid unless a generated draft turns C unasked. */
  lemma ProposalKeepsValidExactly(t: TicketState, statuses: seq<Status>)
    requires ValidTicket(t)
    requires |statuses| == |t.items| && forall s :: s in statuses ==> s == A || s == C
    ensures ValidTicket(ProposalApproved(t, statuses)) <==>
            || t.live.decision != Unreviewed
            || !(C in statuses && GeneratedDraft(t.messages) && NoQuestions(t.review))
  {
    if t.live.decision == Unreviewed {
      var r := ProposalApproved(t, statuses);
      SourceKept(t.head, t.items, r.items);
      forall i | 0 <= i < |r.items| ensures r.items[i].status == A || r.items[i].status == C {
        assert r.items[i].status == statuses[i] && statuses[i] in statuses;
      }
      RollupsAgreeWithoutDash(r.items);
      if C in statuses {
        var i :| 0 <= i < |statuses| && statuses[i] == C;
        assert r.items[i].status == C;
        assert Has(r.items, C) && !OnlyA(r.items);
      } else {
        forall i | 0 <= i < |r.items| ensures r.items[i].status == A {
          assert r.items[i].status == statuses[i] && statuses[i] in statuses;
        }
      }
      assert t.live.workflow == Active;
      assert Rollup(r.items) == Some(r.review.status);
    }
  }

  lemma {:induction false} OverrideFound(overrides: seq<Override>, index: int)
    ensures OverrideOf(overrides, index).Some? <==> exists o :: 0 <= o < |overrides| && overrides[o].index == index
    ensures OverrideOf(overrides, index).Some? ==> OverrideOf(overrides, index).value in overrides
    ensures OverrideOf(overrides, index).Some? ==> OverrideOf(overrides, index).value.index == index
  {
    if overrides != [] {
      var front := overrides[..|overrides| - 1];
      OverrideFound(front, index);
      if overrides[|overrides| - 1].index != index && OverrideOf(front, index).Some? {
        var o :| 0 <= o < |front| && front[o].index == index;
        assert overrides[o].index == index;
      }
    }
  }

  /** Covering overrides reach every item, so no '-' item is left. */
  lemma OverridesReachAll(items: seq<Item>, overrides: seq<Override>)
    requires Covers(items, overrides)
    requires forall o :: o in overrides ==> o.status != Dash
    ensures !Has(OverriddenItems(items, overrides), Dash)
    ensures forall i :: 0 <= i < |items| ==>
              OverrideOf(overrides, items[i].index).Some? &&
              OverriddenItems(items, overrides)[i].status == OverrideOf(overrides, items[i].index).value.status
  {
    forall i | 0 <= i < |items|
      ensures OverrideOf(overrides, items[i].index).Some? && OverrideOf(overrides, items[i].index).value in overrides
    {
      assert items[i].index in ItemIndexes(items) && items[i].index in OverrideIndexes(overrides);
      OverrideFound(overrides, items[i].index);
    }
  }

  /** The decision rule a review leaves behind: its own decision, or the one already there. */
  predicate DecisionStands(t: TicketState, o: OperatorReview) {
    var rollup := RawRollup(OverriddenItems(t.items, o.items));
    if o.recordDecision then true
    else t.live.decision == Unreviewed ||
         (Expected(rollup) == Some(t.live.decision)
          && (t.live.workflow == Settled ==> t.live.decision == Approved || PaidAndDeclined(t, o)))
  }

  predicate PaidAndDeclined(t: TicketState, o: OperatorReview) {
    var items := OverriddenItems(t.items, o.items);
    && t.live.decision == Declined && AmountFor(items, A) > 0 && AmountFor(items, D) > 0
    && (forall i :: 0 <= i < |items| ==> items[i].status == A || items[i].status == D)
    && t.live.paidOn.Some? && t.live.confirmations != []
  }

  /** An accepted operator review keeps the ticket valid exactly when the decision it leaves stands
      and it does not turn a generated draft into an unasked clarification. */
  lemma ReviewKeepsValidExactly(t: TicketState, o: OperatorReview)
    requires ValidTicket(t) && Reviewed(t, o).Some?
    requires forall x :: x in o.items ==> x.status != Dash
    ensures ValidTicket(Reviewed(t, o).value) <==>
            && DecisionStands(t, o)
            && !(&& RawRollup(OverriddenItems(t.items, o.items)) == C
                 && GeneratedDraft(t.messages) && o.questions == [] && o.asks == [])
  {
    var r := Reviewed(t, o).value;
    OverridesReachAll(t.items, o.items);
    RollupsAgreeWithoutDash(r.items);
    SourceKept(t.head, t.items, r.items);
    assert ValidItems(r.items);
    assert SourceAgrees(r.head, r.items);
    if !o.recordDecision && t.live.decision == Unreviewed {
      assert t.live.workflow == Active;
    }
  }

  // ---------- What a proposal section may change ----------

  lemma {:induction false} HeldBefore(items: seq<Item>, i: nat)
    requires i < |items|
    ensures HeldPositions(items[..i]) + (if items[i].status != A then 1 else 0) <= HeldPositions(items)
  {
    var front := items[..|items| - 1];
    if i < |front| {
      assert front[..i] == items[..i];
      HeldBefore(front, i);
    }
  }

  /** An item already A stays A; the k-th held item gets the k-th proposed status. */
  lemma {:induction false} FillHeldAt(items: seq<Item>, proposed: seq<Status>, i: nat)
    requires i < |items| && HeldPositions(items) == |proposed|
    ensures items[i].status == A ==> FillHeld(items, proposed)[i] == A
    ensures items[i].status != A ==>
              HeldPositions(items[..i]) < |proposed| && FillHeld(items, proposed)[i] == proposed[HeldPositions(items[..i])]
  {
    HeldBefore(items, i);
    var front := items[..|items| - 1];
    if i < |front| {
      assert front[..i] == items[..i];
      HeldBefore(front, i);
      FillHeldAt(front, if items[|items| - 1].status == A then proposed else proposed[..|proposed| - 1], i);
    }
  }

  /** An expanded section grants only A and C, keeps every item already A in a held-items section,
      and covers the whole ticket. */
  lemma ExpansionIsScoped(items: seq<Item>, r: Recommendation)
    requires Expand(items, r).Some?
    requires forall s :: s in r.statuses ==> s == A || s == C
    ensures var e := Expand(items, r).value;
            && |e| == |items|
            && (forall s :: s in e ==> s == A || s == C)
            && (|r.statuses| != |items| ==> forall i :: 0 <= i < |items| && items[i].status == A ==> e[i] == A)
  {
    if !r.allItems && |r.statuses| != |items| {
      var e := FillHeld(items, r.statuses);
      forall i | 0 <= i < |e| ensures (e[i] == A || e[i] == C) && (items[i].status == A ==> e[i] == A) {
        FillHeldAt(items, r.statuses, i);
        if items[i].status != A {
          assert e[i] == r.statuses[HeldPositions(items[..i])] && e[i] in r.statuses;
        }
      }
    }
  }
}
