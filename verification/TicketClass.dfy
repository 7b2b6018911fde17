/** The mutable ticket: each method changes one object in place and meets its specification. */
module TicketObjects {
  import opened Common
  import opened Tickets

  class Ticket {
    const head: Head
    var live: Live
    var review: Review
    var items: seq<Item>
    var messages: seq<Message>

    constructor (t: TicketState)
      ensures View() == t
    {
      head := t.head;
      live, review, items, messages := t.live, t.review, t.items, t.messages;
    }

    function View(): TicketState
      reads this
    {
      TicketState(head, live, review, items, messages)
    }

    method SumAmounts(preferReviewed: bool) returns (total: nat)
      ensures total == if preferReviewed then Payable(items) else SourceTotal(items)
    {
      total := 0;
      for i := 0 to |items|
        invariant total == if preferReviewed then Payable(items[..i]) else SourceTotal(items[..i])
      {
        var item := items[i];
        assert items[..i + 1][..i] == items[..i];
        var raw := if preferReviewed && item.reviewed.Some? then item.reviewed else item.source;
        if raw.Some? {
          total := total + raw.value;
        }
      }
      assert items[..|items|] == items;
    }

    method MarkEvery(status: Status)
      modifies this`items
      ensures items == Mark(old(items), status)
    {
      for i := 0 to |items|
        invariant |items| == |old(items)|
        invariant forall k :: 0 <= k < i ==> items[k] == old(items)[k].(status := status)
        invariant forall k :: i <= k < |items| ==> items[k] == old(items)[k]
      {
        items := items[i := items[i].(status := status)];
      }
    }

    method RemoveDrafts()
      modifies this`messages
      ensures messages == WithoutDrafts(old(messages))
    {
      var kept: seq<Message> := [];
      for i := 0 to |messages|
        invariant messages == old(messages)
        invariant kept + WithoutDrafts(messages[i..]) == WithoutDrafts(messages)
      {
        assert messages[i..][0] == messages[i] && messages[i..][1..] == messages[i + 1..];
        if messages[i].kind != Draft {
          kept := kept + [messages[i]];
        }
      }
      messages := kept;
    }

    method ApplyResponseReceived(receipts: bool)
      modifies this
      ensures View() == ResponseReceived(old(View()), receipts)
    {
      if live.workflow == Settled {
        return;
      }
      if receipts && live.decision == Unreviewed {
        MarkEvery(Q);
      }
      review := Review(RawRollup(items), [], [], "");
      RemoveDrafts();
    }

    method ApplyPayment(on: Option<Day>, cents: nat, reference: string)
      modifies this
      ensures View() == PaymentApplied(old(View()), on, cents, reference)
    {
      MarkEvery(A);
      review := Review(A, [], [], "");
      var confirmation := Recorded(reference, cents);
      if confirmation !in live.confirmations {
        live := live.(confirmations := live.confirmations + [confirmation]);
      }
      live := live.(workflow := Settled, decision := Approved, payment := Paid, paidOn := on);
      RemoveDrafts();
    }

    method ApplyPaymentDiscrepancy()
      modifies this
      ensures View() == PaymentHeld(old(View()))
    {
      if live.workflow == Settled {
        return;
      }
      live := live.(decision := Unreviewed);
      var asks := review.asks;
      if AMOUNT_ASK !in asks {
        asks := asks + [AMOUNT_ASK];
      }
      review := Review(RawRollup(items), asks, asks, "");
      RemoveDrafts();
    }

    method ApplyProposalApproval(statuses: seq<Status>)
      requires |statuses| == |items|
      modifies this
      ensures View() == ProposalApproved(old(View()), statuses)
    {
      var alreadyApplied := StatusesOf(items) == statuses && live.decision == ProposedDecision(statuses);
      if alreadyApplied || live.decision != Unreviewed {
        return;
      }
      for i := 0 to |items|
        invariant |items| == |old(items)|
        invariant live == old(live) && review == old(review) && messages == old(messages)
        invariant forall k :: 0 <= k < i ==> items[k] == old(items)[k].(status := statuses[k])
        invariant forall k :: i <= k < |items| ==> items[k] == old(items)[k]
      {
        items := items[i := items[i].(status := statuses[i])];
      }
      assert items == WithStatuses(old(items), statuses);
      review := review.(status := ProposedRollup(statuses));
      live := live.(decision := ProposedDecision(statuses));
    }

    /** False, with the ticket possibly half changed, when the review must be refused. */
    method ApplyOperatorReview(o: OperatorReview) returns (ok: bool)
      modifies this
      ensures ok == Reviewed(old(View()), o).Some?
      ensures ok ==> View() == Reviewed(old(View()), o).value
    {
      if !Covers(items, o.items) {
        return false;
      }
      for i := 0 to |o.items|
        invariant |items| == |old(items)|
        invariant live == old(live) && review == old(review) && messages == old(messages)
        invariant forall k :: 0 <= k < |items| ==>
          items[k] == Overridden(old(items)[k], OverrideOf(o.items[..i], old(items)[k].index))
      {
        var target := o.items[i];
        assert o.items[..i + 1][..i] == o.items[..i];
        for k := 0 to |items|
          invariant |items| == |old(items)|
          invariant live == old(live) && review == old(review) && messages == old(messages)
          invariant forall m :: 0 <= m < k ==>
            items[m] == Overridden(old(items)[m], OverrideOf(o.items[..i + 1], old(items)[m].index))
          invariant forall m :: k <= m < |items| ==>
            items[m] == Overridden(old(items)[m], OverrideOf(o.items[..i], old(items)[m].index))
        {
          if items[k].index == target.index {
            items := items[k := items[k].(status := target.status, reviewed := target.reviewed)];
          }
        }
      }
      assert o.items[..|o.items|] == o.items;
      assert items == OverriddenItems(old(items), o.items);
      review := Review(RawRollup(items), o.asks, o.questions, o.context);
      if o.recordDecision {
        var decision := RecordedDecision(RawRollup(items));
        if live.payment != NotPaid && decision != Approved {
          return false;
        }
        live := live.(decision := decision);
      }
      ok := true;
    }
  }
}
