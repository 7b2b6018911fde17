/** Sequences of successful refreshes under schema-2 anchors. */
module Refreshes {
  import opened Common
  import opened Tickets
  import opened Ledgers
  import opened ReducerSpec
  import opened PaymentSteps
  import opened Runs
  import opened AnchorRules
  import opened SourceEvidence
  import opened Merge
  import opened Settlement
  import opened RunLaws
  import opened LoaderChecks

  datatype Bundle = Bundle(rows: seq<Row>, ledger: Ledger, provenance: Provenance)

  /** The inputs of one refresh: the source snapshot, the tickets whose free texts are an older refresh's stock
      texts, and the run that reduces the mail archive. */
  datatype Refresh = Refresh(snapshot: seq<Evidence>, stock: set<string>, run: Run)

  function TicketsOf(rows: seq<Row>): (t: seq<TicketState>)
    ensures |t| == |rows|
  {
    seq(|rows|, i requires 0 <= i < |rows| => rows[i].ticket)
  }

  function WithTickets(rows: seq<Row>, tickets: seq<TicketState>): seq<Row>
    requires |rows| == |tickets|
  {
    seq(|rows|, i requires 0 <= i < |rows| => rows[i].(ticket := tickets[i]))
  }

  function Merged(b: Bundle, x: Refresh): seq<Row> {
    MergedRows(b.rows, b.provenance, x.snapshot, x.stock)
  }

  /** The tickets the reducer is given. */
  function Input(b: Bundle, x: Refresh): seq<TicketState> {
    TicketsOf(Merged(b, x))
  }

  /** What the loader has checked of a bundle that was published, and what every run leaves behind. */
  ghost predicate BundleOk(b: Bundle) {
    && KeysDistinct(TicketsOf(b.rows))
    && LedgerAgrees(b.ledger) && Authentic(b.ledger)
    && RecordedTargets(b.ledger, TicketsOf(b.rows))
  }

  /** Accepted source, resolved anchors, and a run that succeeds: the result the loader then looks at. */
  ghost predicate Reduced(b: Bundle, x: Refresh, b': Bundle) {
    var tickets := Input(b, x);
    && Accepts(b.rows, b.provenance, x.snapshot)
    && x.run.anchors.schema == 2 && x.run.prev == b.ledger
    && LanesUnique(x.run.anchors) && Resolved(x.run, tickets) && MailsOk(x.run) && TextsOk(x.run)
    && RunInRange(x.run, |tickets|) && KeysDistinct(tickets)
    && Succeeds(x.run, tickets)
    && b'.rows == WithTickets(Merged(b, x), AfterAll(x.run, tickets).tickets)
    && b'.ledger == AfterAll(x.run, tickets).ledger
    && b'.provenance == Provenance(SnapshotDigest(x.snapshot), KeysOf(x.snapshot))
  }

  /** One successful refresh: the result passes the loader's check of recorded payments before it replaces the bundle. */
  ghost predicate Refreshed(b: Bundle, x: Refresh, b': Bundle) {
    Reduced(b, x, b') && RecordedTargets(b'.ledger, TicketsOf(b'.rows))
  }

  ghost predicate OneTicketPerReference(l: Ledger) {
    forall e, f ::
      (e in l.events && f in l.events && e.kind == PaymentRecorded && f.kind == PaymentRecorded
       && l.events[e].reference == l.events[f].reference) ==> e == f
  }

  /** Later bundles keep every ticket position, every settlement, every account, every record. */
  ghost predicate Continues(b: Bundle, b': Bundle) {
    && Reproduces(b.ledger, b'.ledger)
    && |b.rows| <= |b'.rows|
    && (forall j :: 0 <= j < |b.rows| && b.rows[j].ticket.live.workflow == Settled ==>
          b'.rows[j].ticket.live.workflow == Settled)
    && b.provenance.accounted <= b'.provenance.accounted
  }

  lemma ContinuesTransitive(a: Bundle, b: Bundle, c: Bundle)
    requires Continues(a, b) && Continues(b, c)
    ensures Continues(a, c)
  {
  }

  lemma RefreshRunOk(b: Bundle, x: Refresh, b': Bundle)
    requires BundleOk(b) && Reduced(b, x, b')
    ensures RunOk(x.run, Input(b, x)) && ReviewsNamed(x.run, Input(b, x))
  {
    hide Accepts, Succeeds, RecordedTargets, Merged, MailsOk, LanesUnique, Resolved;
    AnchorsKeepLanesApart(x.run, Input(b, x));
    ResolvedNamesReviews(x.run, Input(b, x));
  }

  /** Resolved selectors put each review at the ticket it names. */
  lemma ResolvedNamesReviews(run: Run, tickets: seq<TicketState>)
    requires Resolved(run, tickets) && RunInRange(run, |tickets|)
    ensures ReviewsNamed(run, tickets)
  {
    forall n | 0 <= n < |run.reviewAt| ensures tickets[run.reviewAt[n]].head.selector == run.anchors.reviews[n].ticket {
      assert Selects(tickets, run.anchors.reviews[n].ticket, run.reviewAt[n]);
    }
  }

  lemma ResultTickets(b: Bundle, x: Refresh, b': Bundle)
    requires Reduced(b, x, b')
    ensures TicketsOf(b'.rows) == AfterAll(x.run, Input(b, x)).tickets
  {
    hide Accepts, Succeeds, Merged, MailsOk, LanesUnique, Resolved, AfterAll, KeysDistinct;
  }

  /** The rows of the result: those merged, each with a ticket of the same identity. */
  lemma ResultRows(b: Bundle, x: Refresh, b': Bundle)
    requires Reduced(b, x, b')
    ensures |b'.rows| == |Merged(b, x)|
    ensures forall j :: 0 <= j < |b'.rows| ==> b'.rows[j].evidence == Merged(b, x)[j].evidence && b'.rows[j].ticket.head == Merged(b, x)[j].ticket.head
  {
    hide Accepts, Succeeds, Merged, MailsOk, LanesUnique, Resolved, AfterAll, KeysDistinct, Knows;
    RunTracks(x.run, Input(b, x));
    forall j | 0 <= j < |b'.rows| ensures b'.rows[j].ticket.head == Merged(b, x)[j].ticket.head {
      assert Begin(Input(b, x)).tickets[j] == Merged(b, x)[j].ticket;
    }
  }

  /** The result passes all of the loader's event checks if and only if each operator entry stands. */
  lemma RefreshPassesExactly(b: Bundle, x: Refresh, b': Bundle)
    requires BundleOk(b) && Reduced(b, x, b')
    ensures EventsPass(b'.ledger, TicketsOf(b'.rows))
            <==> forall i :: 0 <= i < |x.run.operatorAt| ==> EntryStands(x.run, Input(b, x), i)
  {
    RefreshRunOk(b, x, b');
    ResultTickets(b, x, b');
    hide Accepts, Merged, Input, MailsOk, LanesUnique, Resolved, RunOk, KeysDistinct, EventsPass, EntryStands, BundleOk, ReviewsNamed, AfterAll;
    LoaderAcceptsExactly(x.run, Input(b, x));
  }

  lemma RefreshKeepsRules(b: Bundle, x: Refresh, b': Bundle)
    requires BundleOk(b) && Refreshed(b, x, b')
    ensures BundleOk(b') && Reproduces(b.ledger, b'.ledger)
    ensures OneRecordedPerTicket(b'.ledger) && OneTicketPerReference(b'.ledger) && TargetsKnown(b'.ledger, TicketsOf(b'.rows))
  {
    RefreshRunOk(b, x, b');
    ResultTickets(b, x, b');
    ResultKeys(b, x, b');
    hide Accepts, Merged, Input, MailsOk, LanesUnique, Resolved, RunOk, RecordedTargets, KeysDistinct, LedgerAgrees, Authentic,
         Reproduces, TargetsKnown, ReviewsNamed, AfterAll;
    var tickets := Input(b, x);
    FinishedLedgerAgrees(x.run, tickets);
    EveryTargetKnown(x.run, tickets);
    forall e, f | e in b'.ledger.events && f in b'.ledger.events && e.kind == PaymentRecorded && f.kind == PaymentRecorded
                  && b'.ledger.events[e].reference == b'.ledger.events[f].reference
      ensures e == f
    {
      OnePayment(x.run, tickets, e, f);
    }
  }

  lemma ResultKeys(b: Bundle, x: Refresh, b': Bundle)
    requires Reduced(b, x, b')
    ensures KeysDistinct(TicketsOf(b'.rows))
  {
    ResultRows(b, x, b');
    hide Accepts, Succeeds, Merged, MailsOk, LanesUnique, Resolved, AfterAll, WithTickets;
    var t := TicketsOf(b'.rows);
    forall i, j | 0 <= i < j < |t| ensures t[i].head.selector.key != t[j].head.selector.key {
      assert t[i].head == Input(b, x)[i].head && t[j].head == Input(b, x)[j].head;
    }
  }

  lemma RefreshContinues(b: Bundle, x: Refresh, b': Bundle)
    requires BundleOk(b) && Refreshed(b, x, b') && Reproduces(b.ledger, b'.ledger)
    ensures Continues(b, b')
  {
    RefreshRunOk(b, x, b');
    ResultTickets(b, x, b');
    ResultRows(b, x, b');
    MergedRowsFresh(b.rows, b.provenance, x.snapshot, x.stock);
    hide MergedRows, MailsOk, LanesUnique, Resolved, RunOk, RecordedTargets, KeysDistinct, LedgerAgrees, Authentic, Reproduces,
         IsPlaceholder, ReviewsNamed, AfterAll;
    forall j | 0 <= j < |b.rows| && b.rows[j].ticket.live.workflow == Settled
      ensures b'.rows[j].ticket.live.workflow == Settled
    {
      assert Input(b, x)[j].live == b.rows[j].ticket.live;
      SettledStays(x.run, Input(b, x), j);
      assert TicketsOf(b'.rows)[j] == b'.rows[j].ticket;
    }
  }

  /** A refresh keeps the bundle sound, repeats no payment and no reference, and only continues. */
  lemma RefreshSafe(b: Bundle, x: Refresh, b': Bundle)
    requires BundleOk(b) && Refreshed(b, x, b')
    ensures BundleOk(b') && Continues(b, b')
    ensures OneRecordedPerTicket(b'.ledger) && OneTicketPerReference(b'.ledger) && TargetsKnown(b'.ledger, TicketsOf(b'.rows))
  {
    hide Refreshed, BundleOk, OneRecordedPerTicket, OneTicketPerReference, TargetsKnown, Continues, Reproduces;
    RefreshKeepsRules(b, x, b');
    RefreshContinues(b, x, b');
  }

  /** A chain of bundles, each the successful refresh of the one before. */
  ghost predicate Chain(bs: seq<Bundle>, xs: seq<Refresh>) {
    && |bs| == |xs| + 1
    && forall i :: 0 <= i < |xs| ==> Refreshed(bs[i], xs[i], bs[i + 1])
  }

  /** Across any sequence of refreshes: evidence and events are append-only, no ticket ever has a
      second recorded payment, no reference pays two tickets, every event targets a ticket, and nothing settled reopens. */
  lemma {:induction false} RefreshesSafe(bs: seq<Bundle>, xs: seq<Refresh>)
    requires Chain(bs, xs) && BundleOk(bs[0])
    ensures forall i :: 0 <= i < |bs| ==> BundleOk(bs[i])
    ensures forall i, j :: 0 <= i < j < |bs| ==> Continues(bs[i], bs[j])
    ensures forall i :: 0 < i < |bs| ==>
              OneRecordedPerTicket(bs[i].ledger) && OneTicketPerReference(bs[i].ledger) && TargetsKnown(bs[i].ledger, TicketsOf(bs[i].rows))
  {
    hide Refreshed, BundleOk, Continues, OneRecordedPerTicket, OneTicketPerReference, TargetsKnown;
    if xs != [] {
      var n := |xs| - 1;
      assert Refreshed(bs[n], xs[n], bs[n + 1]);
      RefreshesSafe(bs[..n + 1], xs[..n]);
      assert bs[..n + 1][n] == bs[n];
      RefreshSafe(bs[n], xs[n], bs[n + 1]);
      forall i, j | 0 <= i < j < |bs| ensures Continues(bs[i], bs[j]) {
        if j == n + 1 && i < n {
          assert Continues(bs[..n + 1][i], bs[..n + 1][n]);
          ContinuesTransitive(bs[i], bs[n], bs[n + 1]);
        } else if j <= n {
          assert Continues(bs[..n + 1][i], bs[..n + 1][j]);
        }
      }
      forall i | 0 <= i < |bs| ensures BundleOk(bs[i]) {
        if i <= n {
          assert BundleOk(bs[..n + 1][i]);
        }
      }
      forall i | 0 < i < |bs|
        ensures OneRecordedPerTicket(bs[i].ledger) && OneTicketPerReference(bs[i].ledger) && TargetsKnown(bs[i].ledger, TicketsOf(bs[i].rows))
      {
        if i <= n {
          assert bs[..n + 1][i] == bs[i];
        }
      }
    }
  }

  /** Every ticket that a refresh settles, one it adds included, was approved, unpaid and owed that amount. */
  lemma RefreshSettlesSoundly(b: Bundle, x: Refresh, b': Bundle, j: nat)
    requires BundleOk(b) && Refreshed(b, x, b')
    requires j < |b'.rows| && (j < |b.rows| ==> b.rows[j].ticket.live.workflow == Active)
    requires b'.rows[j].ticket.live.workflow == Settled
    ensures j < |Input(b, x)|
    ensures exists e :: SettledBy(x.run, AfterReviews(x.run, Input(b, x)), AfterAll(x.run, Input(b, x)), j, e)
  {
    RefreshRunOk(b, x, b');
    ResultTickets(b, x, b');
    ResultRows(b, x, b');
    OpenBefore(b, x, j);
    MergeKeepsTargets(b, x);
    hide Merged, MailsOk, LanesUnique, Resolved, RunOk, KeysDistinct, Authentic, Reproduces, SettledBy, Accepts, RecordedTargets,
         ReviewsNamed, AfterAll, AfterReviews;
    assert TicketsOf(b'.rows)[j] == b'.rows[j].ticket;
    SettlementSound(x.run, Input(b, x), j);
  }

  lemma OpenBefore(b: Bundle, x: Refresh, j: nat)
    requires j < |Input(b, x)| && (j < |b.rows| ==> b.rows[j].ticket.live.workflow == Active)
    ensures Input(b, x)[j].live.workflow == Active
  {
    hide IsPlaceholder, UpgradedTicket, Unaccounted, NextRefs, MaxOrder, NewReview, NewItems;
    if j < |b.rows| {
      UpgradeKeepsIdentity(b.rows[j], x.snapshot, x.stock);
    }
  }

  /** Only undecided tickets are upgraded, and no payment was recorded for those. */
  lemma MergeKeepsTargets(b: Bundle, x: Refresh)
    requires RecordedTargets(b.ledger, TicketsOf(b.rows))
    ensures RecordedTargets(b.ledger, Input(b, x))
  {
    MergedRowsFresh(b.rows, b.provenance, x.snapshot, x.stock);
    hide MergedRows, RecordedTarget;
    var a, c := TicketsOf(b.rows), Input(b, x);
    forall e | e in b.ledger.events && e.kind == PaymentRecorded
      ensures exists i :: 0 <= i < |c| && RecordedTarget(b.ledger.events[e], c[i]) && b.ledger.events[e].cents == Some(Tickets.Payable(c[i].items))
    {
      var i :| 0 <= i < |a| && RecordedTarget(b.ledger.events[e], a[i]) && b.ledger.events[e].cents == Some(Tickets.Payable(a[i].items));
      TargetIsDecided(b.ledger.events[e], a[i]);
      assert c[i] == a[i];
    }
  }

  lemma TargetIsDecided(e: Event, t: TicketState)
    requires RecordedTarget(e, t)
    ensures t.live.decision == Approved
  {
  }
}
