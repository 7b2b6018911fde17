/** What a chain of refreshes keeps of its source record and of its tickets' validity. */
module Chains {
  import opened Common
  import opened Tickets
  import opened ReducerSpec
  import opened Runs
  import opened RunValidity
  import opened AnchorRules
  import opened SourceEvidence
  import opened Merge
  import opened Refreshes

  /** The snapshot that bundle i of a chain records. */
  function RecordedBy(was: seq<Evidence>, xs: seq<Refresh>, i: nat): seq<Evidence>
    requires i <= |xs|
  {
    if i == 0 then was else xs[i - 1].snapshot
  }

  // ---------- The source record ----------

  /** A refresh records the snapshot it was given, and every submission recorded before is in it unchanged. */
  lemma RefreshRecords(b: Bundle, x: Refresh, b': Bundle, was: seq<Evidence>)
    requires Refreshed(b, x, b') && RecordedFrom(b.rows, b.provenance, was) && Snapshot(x.snapshot)
    ensures RecordedFrom(b'.rows, b'.provenance, x.snapshot) && Kept(was, x.snapshot)
  {
    ResultRows(b, x, b');
    MergeRecordsSnapshot(b.rows, b.provenance, was, x.snapshot, x.stock);
    hide MergedRows, Accepts, Snapshot, Kept, Resolved, KeysOf, RecordedFrom, AfterAll, Input;
    SameRowsRecord(Merged(b, x), b'.rows, b'.provenance, x.snapshot);
  }

  /** A chain whose first bundle records `was`, fed by ordered snapshots. */
  ghost predicate RecordingChain(bs: seq<Bundle>, xs: seq<Refresh>, was: seq<Evidence>) {
    && Chain(bs, xs) && RecordedFrom(bs[0].rows, bs[0].provenance, was)
    && forall i :: 0 <= i < |xs| ==> Snapshot(xs[i].snapshot)
  }

  lemma {:induction false} RecordedAt(bs: seq<Bundle>, xs: seq<Refresh>, was: seq<Evidence>, i: nat)
    requires RecordingChain(bs, xs, was) && i < |bs|
    ensures RecordedFrom(bs[i].rows, bs[i].provenance, RecordedBy(was, xs, i))
    ensures i > 0 ==> Kept(RecordedBy(was, xs, i - 1), RecordedBy(was, xs, i))
  {
    hide Refreshed, RecordedFrom, Kept, Snapshot;
    if i > 0 {
      RecordedAt(bs, xs, was, i - 1);
      assert Refreshed(bs[i - 1], xs[i - 1], bs[i - 1 + 1]);
      RefreshRecords(bs[i - 1], xs[i - 1], bs[i], RecordedBy(was, xs, i - 1));
    }
  }

  lemma {:induction false} KeptAcross(bs: seq<Bundle>, xs: seq<Refresh>, was: seq<Evidence>, i: nat, j: nat)
    requires RecordingChain(bs, xs, was) && i < j < |bs|
    ensures Kept(RecordedBy(was, xs, i), RecordedBy(was, xs, j))
  {
    hide Refreshed, RecordedFrom, Kept, Snapshot;
    RecordedAt(bs, xs, was, j);
    if i < j - 1 {
      KeptAcross(bs, xs, was, i, j - 1);
      KeptTransitive(RecordedBy(was, xs, i), RecordedBy(was, xs, j - 1), RecordedBy(was, xs, j));
    }
  }

  /** Along a chain each bundle records the snapshot of its refresh, so every drift check is exact, and what one
      snapshot records is in every later one with its payload unchanged. */
  lemma ChainRecords(bs: seq<Bundle>, xs: seq<Refresh>, was: seq<Evidence>)
    requires RecordingChain(bs, xs, was)
    ensures forall i :: 0 <= i < |bs| ==> RecordedFrom(bs[i].rows, bs[i].provenance, RecordedBy(was, xs, i))
    ensures forall i, j :: 0 <= i < j < |bs| ==> Kept(RecordedBy(was, xs, i), RecordedBy(was, xs, j))
  {
    hide Refreshed, RecordedFrom, Kept, Snapshot;
    forall i | 0 <= i < |bs| ensures RecordedFrom(bs[i].rows, bs[i].provenance, RecordedBy(was, xs, i)) {
      RecordedAt(bs, xs, was, i);
    }
    forall i, j | 0 <= i < j < |bs| ensures Kept(RecordedBy(was, xs, i), RecordedBy(was, xs, j)) {
      KeptAcross(bs, xs, was, i, j);
    }
  }

  // ---------- Validity ----------

  /** Evidence fit for tickets, proposals that grant A and C only, and reviews that leave their tickets ready. */
  ghost predicate Fitting(b: Bundle, x: Refresh) {
    && Snapshot(x.snapshot) && (forall e :: e in x.snapshot ==> WellMapped(e))
    && ProposalsReadAC(x.run)
    && |x.run.reviewAt| == |x.run.anchors.reviews|
    && forall n :: 0 <= n < |x.run.reviewAt| ==>
         x.run.reviewAt[n] < |Input(b, x)| && FileLasts(Input(b, x)[x.run.reviewAt[n]], x.run.anchors.reviews[n])
  }

  lemma NewTicketReady(e: Evidence, ref: string)
    requires WellMapped(e)
    ensures Ready(NewTicket(e, ref))
  {
    NewTicketValid(e, ref);
    hide WellMapped, ValidTicket, NewItems, NewReview;
  }

  /** Ready as it is, or a valid known placeholder, which no merge leaves as it is. */
  ghost predicate Mergeable(r: Row, stock: set<string>) {
    Ready(r.ticket) || (ValidTicket(r.ticket) && IsPlaceholder(r.ticket, RowKey(r) in stock))
  }

  ghost predicate AllMergeable(rows: seq<Row>, stock: set<string>) {
    forall r :: r in rows ==> Mergeable(r, stock)
  }

  lemma UpgradeReady(t: TicketState, e: Evidence)
    requires ValidTicket(t) && IsPlaceholder(t, true) && WellMapped(e) && HeadFrom(t, e)
    ensures Ready(UpgradedTicket(t, e))
  {
    UpgradeKeepsValid(t, e);
    hide WellMapped, ValidTicket, NewItems, NewReview, HeadFrom;
  }

  lemma UpgradedRowReady(r: Row, s: seq<Evidence>, stock: set<string>)
    requires Mergeable(r, stock) && (IsSubmission(r) ==> RowKey(r) in KeysOf(s))
    requires HeadsFrom([UpgradedRow(r, s, stock)], s) && forall e :: e in s ==> WellMapped(e)
    ensures Ready(UpgradedRow(r, s, stock).ticket)
  {
    hide WellMapped, NewItems, NewReview, HeadFrom, ValidTicket;
    var u := UpgradedRow(r, s, stock);
    FoundIsMember(s, RowKey(r));
    UpgradeKeepsIdentity(r, s, stock);
    assert u in [u];
    if IsPlaceholder(r.ticket, RowKey(r) in stock) {
      var e := EvidenceFor(s, RowKey(r)).value;
      SameHeadFrom(u.ticket, r.ticket, e);
      UpgradeReady(r.ticket, e);
    }
  }

  /** Merging hands the reducer tickets that are all ready, placeholders included. */
  lemma MergedReady(b: Bundle, x: Refresh, was: seq<Evidence>)
    requires Accepts(b.rows, b.provenance, x.snapshot) && RecordedFrom(b.rows, b.provenance, was) && HeadsFrom(b.rows, was)
    requires AllMergeable(b.rows, x.stock) && Snapshot(x.snapshot) && forall e :: e in x.snapshot ==> WellMapped(e)
    ensures AllReady(Input(b, x)) && HeadsFrom(Merged(b, x), x.snapshot)
  {
    MergeKeepsHeads(b.rows, b.provenance, was, x.snapshot, x.stock);
    forall r | r in b.rows && IsSubmission(r) ensures RowKey(r) in KeysOf(x.snapshot) {
    }
    hide Ready, WellMapped, UpgradedRow, NewRows, MergedRows, Accepts, RecordedFrom, Snapshot, Mergeable;
    var m := Merged(b, x);
    forall j | 0 <= j < |m| ensures Ready(m[j].ticket) {
      assert m[j] in m;
      var i, added := MergedRowIs(b.rows, b.provenance, x.snapshot, x.stock, m[j]);
      if added {
        NewRowRecords(b.rows, x.snapshot, b.provenance.accounted, i);
        var e := Unaccounted(x.snapshot, b.provenance.accounted)[i];
        var ref :| m[j].ticket == NewTicket(e, ref);
        NewTicketReady(e, ref);
      } else {
        assert HeadsFrom([m[j]], x.snapshot);
        UpgradedRowReady(b.rows[i], x.snapshot, x.stock);
      }
    }
  }

  lemma ResultHeads(b: Bundle, x: Refresh, b': Bundle)
    requires Reduced(b, x, b') && HeadsFrom(Merged(b, x), x.snapshot)
    ensures HeadsFrom(b'.rows, x.snapshot)
  {
    ResultRows(b, x, b');
    hide Reduced, Merged, HeadsFrom;
    SameRowsHeads(Merged(b, x), b'.rows, x.snapshot);
  }

  lemma FittingRunReady(b: Bundle, x: Refresh, b': Bundle)
    requires Reduced(b, x, b') && AllReady(Input(b, x)) && Fitting(b, x)
    ensures AllReady(TicketsOf(b'.rows))
  {
    ResultTickets(b, x, b');
    ReviewsApart(x.run, Input(b, x));
    hide Accepts, Snapshot, Merged, Input, Resolved, LanesUnique, MailsOk, FileLasts, ProposalsReadAC, WellMapped, AllReady, AfterAll,
         KeysDistinct;
    LastingFileKeepsTicketsReady(x.run, Input(b, x));
  }

  /** A refresh from mergeable tickets, through fitting reviews, ends in ready tickets. */
  lemma RefreshMakesReady(b: Bundle, x: Refresh, b': Bundle, was: seq<Evidence>)
    requires Refreshed(b, x, b') && RecordedFrom(b.rows, b.provenance, was) && HeadsFrom(b.rows, was)
    requires AllMergeable(b.rows, x.stock) && Fitting(b, x)
    ensures AllReady(TicketsOf(b'.rows)) && HeadsFrom(b'.rows, x.snapshot)
  {
    hide RecordedFrom, Snapshot, Merged, Input, FileLasts, ProposalsReadAC, WellMapped, AllReady, HeadsFrom, Accepts, Resolved, AfterAll,
         AllMergeable;
    MergedReady(b, x, was);
    FittingRunReady(b, x, b');
    ResultHeads(b, x, b');
  }

  lemma ReadyIsMergeable(rows: seq<Row>, stock: set<string>)
    requires AllReady(TicketsOf(rows))
    ensures AllMergeable(rows, stock)
  {
    hide Ready, IsPlaceholder, ValidTicket;
    forall r | r in rows ensures Mergeable(r, stock) {
      var j :| 0 <= j < |rows| && rows[j] == r;
      assert TicketsOf(rows)[j] == r.ticket;
    }
  }

  /** One review per ticket in the file is one review per position. */
  lemma ReviewsApart(run: Run, tickets: seq<TicketState>)
    requires LanesUnique(run.anchors) && Resolved(run, tickets)
    ensures forall n, k :: 0 <= k < n < |run.reviewAt| ==> run.reviewAt[k] != run.reviewAt[n]
  {
    forall n, k | 0 <= k < n < |run.reviewAt| ensures run.reviewAt[k] != run.reviewAt[n] {
      assert ReviewTickets(run.anchors.reviews)[k] != ReviewTickets(run.anchors.reviews)[n];
      assert Selects(tickets, run.anchors.reviews[k].ticket, run.reviewAt[k]);
      assert Selects(tickets, run.anchors.reviews[n].ticket, run.reviewAt[n]);
    }
  }

  /** What the first merge of the chain takes for stock texts. */
  function FirstStock(xs: seq<Refresh>): set<string> {
    if xs == [] then {} else xs[0].stock
  }

  /** A chain of fitting refreshes from tickets that are ready or placeholders, with the sources they were read from. */
  ghost predicate FittingChain(bs: seq<Bundle>, xs: seq<Refresh>, was: seq<Evidence>) {
    && RecordingChain(bs, xs, was) && HeadsFrom(bs[0].rows, was) && AllMergeable(bs[0].rows, FirstStock(xs))
    && forall i :: 0 <= i < |xs| ==> Fitting(bs[i], xs[i])
  }

  lemma {:induction false} ReadyAt(bs: seq<Bundle>, xs: seq<Refresh>, was: seq<Evidence>, i: nat)
    requires FittingChain(bs, xs, was) && i < |bs|
    ensures HeadsFrom(bs[i].rows, RecordedBy(was, xs, i)) && (i > 0 ==> AllReady(TicketsOf(bs[i].rows)))
  {
    hide Refreshed, RecordedFrom, HeadsFrom, AllReady, AllMergeable, Fitting, Snapshot, TicketsOf;
    if i > 0 {
      ReadyAt(bs, xs, was, i - 1);
      if i > 1 {
        ReadyIsMergeable(bs[i - 1].rows, xs[i - 1].stock);
      }
      RecordedAt(bs, xs, was, i - 1);
      assert Refreshed(bs[i - 1], xs[i - 1], bs[i - 1 + 1]);
      RefreshMakesReady(bs[i - 1], xs[i - 1], bs[i], RecordedBy(was, xs, i - 1));
    }
  }

  /** Along a chain of fitting refreshes, whatever the mails say, every ticket of every bundle passes the validator,
      and from the first refresh on is ready for the next: no placeholder is left. */
  lemma ChainStaysValid(bs: seq<Bundle>, xs: seq<Refresh>, was: seq<Evidence>)
    requires FittingChain(bs, xs, was)
    ensures forall i :: 0 < i < |bs| ==> AllReady(TicketsOf(bs[i].rows))
    ensures forall i :: 0 <= i < |bs| ==> HeadsFrom(bs[i].rows, RecordedBy(was, xs, i))
    ensures forall i, j :: 0 <= i < |bs| && 0 <= j < |bs[i].rows| ==> ValidTicket(bs[i].rows[j].ticket)
  {
    hide Refreshed, RecordedFrom, HeadsFrom, AllReady, AllMergeable, Fitting, ValidTicket, Snapshot, TicketsOf;
    forall i | 0 <= i < |bs| ensures HeadsFrom(bs[i].rows, RecordedBy(was, xs, i)) && (i > 0 ==> AllReady(TicketsOf(bs[i].rows))) {
      ReadyAt(bs, xs, was, i);
    }
    forall i, j | 0 <= i < |bs| && 0 <= j < |bs[i].rows| ensures ValidTicket(bs[i].rows[j].ticket) {
      if i > 0 {
        ReadyIsMergeable(bs[i].rows, FirstStock(xs));
      }
      MergeableIsValid(bs[i].rows, j, FirstStock(xs));
    }
  }

  lemma MergeableIsValid(rows: seq<Row>, j: nat, stock: set<string>)
    requires AllMergeable(rows, stock) && j < |rows|
    ensures ValidTicket(rows[j].ticket)
  {
    hide ValidTicket, IsPlaceholder;
    assert rows[j] in rows;
  }
}
