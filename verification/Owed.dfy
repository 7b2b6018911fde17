/** What the payment lanes of a run compare payments with, from its input tickets and its review entries. */
module OwedTotals {
  import opened Common
  import opened Tickets
  import opened TicketLaws
  import opened ReducerSpec
  import opened Runs
  import opened RunValidity

  /** Ticket j's items under the first n reviews: those that name it apply, in file order. */
  function ItemsReviewed(run: Run, items: seq<Item>, j: nat, n: nat): (r: seq<Item>)
    requires n <= |run.reviewAt| == |run.anchors.reviews|
    ensures |r| == |items|
  {
    if n == 0 then items
    else
      var before := ItemsReviewed(run, items, j, n - 1);
      if run.reviewAt[n - 1] == j then OverriddenItems(before, run.anchors.reviews[n - 1].items) else before
  }

  /** The total ticket j will owe, which no mail changes. */
  function Owed(run: Run, t: TicketState, j: nat): nat
    requires |run.reviewAt| == |run.anchors.reviews|
  {
    Tickets.Payable(ItemsReviewed(run, t.items, j, |run.reviewAt|))
  }

  predicate SameButStatus(a: seq<Item>, b: seq<Item>) {
    |a| == |b| && forall i :: 0 <= i < |a| ==> b[i] == a[i].(status := b[i].status)
  }

  lemma SameOverridden(a: seq<Item>, b: seq<Item>, overrides: seq<Override>)
    requires SameButStatus(a, b)
    ensures SameButStatus(OverriddenItems(a, overrides), OverriddenItems(b, overrides))
  {
    hide OverrideOf;
  }

  lemma {:induction false} ItemsAfterReviews(run: Run, st: State, items: seq<Item>, j: nat, n: nat)
    requires RunInRange(run, |st.tickets|) && n <= |run.reviewAt| && j < |st.tickets|
    requires SameButStatus(items, st.tickets[j].items) && ReviewsUpTo(run, st, n).ok
    ensures SameButStatus(ItemsReviewed(run, items, j, n), ReviewsUpTo(run, st, n).tickets[j].items)
  {
    hide SameButStatus, OverriddenItems, Covers;
    if n > 0 {
      ItemsAfterReviews(run, st, items, j, n - 1);
      SameOverridden(ItemsReviewed(run, items, j, n - 1), ReviewsUpTo(run, st, n - 1).tickets[j].items, run.anchors.reviews[n - 1].items);
    }
  }

  /** Before the payment lanes every ticket owes what its input items and its reviews say. */
  lemma OwedBeforeLanes(run: Run, tickets: seq<TicketState>, j: nat)
    requires run.anchors.schema != 1 && RunInRange(run, |tickets|) && AfterReviews(run, tickets).ok && j < |tickets|
    ensures Tickets.Payable(AfterReviews(run, tickets).tickets[j].items) == Owed(run, tickets[j], j)
  {
    hide MailsUpTo, ReviewsUpTo, Tickets.Payable;
    var mails := AfterMails(run, tickets);
    AllMailsMayChange(run, tickets, |run.mails|);
    ItemsAfterReviews(run, mails, tickets[j].items, j, |run.reviewAt|);
    PayableKept(ItemsReviewed(run, tickets[j].items, j, |run.reviewAt|), AfterReviews(run, tickets).tickets[j].items);
  }
}
