/** Linking receipt pages to unlinked review items, within the page budget of the sidecar. */
module ReceiptRefresh {
  import opened Common
  import opened ReceiptViewer

  /** One unlinked review item. */
  datatype Missing = Missing(ticket: string, item: string, fingerprint: string)

  /** What the fetch, decode and OCR stages answered; a ticket they refused has no pages. */
  datatype Stages = Stages(pages: map<string, seq<PageRow>>,
                           suggest: (string, string, string) -> Option<Box>)

  function Find(rows: seq<PageRow>, id: string): Option<PageRow> {
    if rows == [] then None
    else if rows[|rows| - 1].id == id then Some(rows[|rows| - 1])
    else Find(rows[..|rows| - 1], id)
  }

  // ---------- Pages ----------

  /** The bookkeeping of the page loop: bytes left, rows added, and this ticket's admitted pages. */
  datatype Admission = Admission(remaining: nat, rows: seq<PageRow>, seen: set<string>, admitted: seq<string>)

  function AdmitPage(disk: Disk, existing: seq<PageRow>, a: Admission, page: PageRow): Admission {
    if page.id in a.seen then a
    else
      var a' := a.(seen := a.seen + {page.id});
      var prior := if Find(existing, page.id).Some? then Find(existing, page.id) else Find(a.rows, page.id);
      if prior.Some? then
        if prior.value.digest == page.digest then a'.(admitted := a.admitted + [page.id]) else a'
      else if SizeOf(disk, page) > a.remaining then a'
      else a'.(remaining := a.remaining - SizeOf(disk, page), rows := a.rows + [page], admitted := a.admitted + [page.id])
  }

  function AdmitPages(disk: Disk, existing: seq<PageRow>, a: Admission, pages: seq<PageRow>): Admission {
    if pages == [] then a
    else AdmitPage(disk, existing, AdmitPages(disk, existing, a, pages[..|pages| - 1]), pages[|pages| - 1])
  }

  /** All tickets in report order: bytes left, rows added, and each ticket's admitted page ids. */
  datatype Gathered = Gathered(remaining: nat, rows: seq<PageRow>, byTicket: map<string, seq<string>>)

  function GatherOne(disk: Disk, existing: seq<PageRow>, g: Gathered, ticket: string, stages: Stages): Gathered {
    if ticket !in stages.pages then g
    else
      var a := AdmitPages(disk, existing, Admission(g.remaining, g.rows, {}, []), stages.pages[ticket]);
      Gathered(a.remaining, a.rows, g.byTicket[ticket := a.admitted])
  }

  function Gather(disk: Disk, existing: seq<PageRow>, g: Gathered, tickets: seq<string>, stages: Stages): Gathered {
    if tickets == [] then g
    else GatherOne(disk, existing, Gather(disk, existing, g, tickets[..|tickets| - 1], stages), tickets[|tickets| - 1], stages)
  }

  /** New rows are distinct from the existing ones and from each other, each is a producer's page, and
      every byte of theirs has come out of the budget. */
  ghost predicate RowsOk(disk: Disk, existing: seq<PageRow>, rows: seq<PageRow>, remaining: nat, budget: nat) {
    && (forall i, j :: 0 <= i < j < |rows| ==> rows[i].id != rows[j].id)
    && (forall i :: 0 <= i < |rows| ==> PageHolds(disk, rows[i]) && rows[i].id !in Ids(existing))
    && TotalBytes(disk, rows) + remaining == budget
  }

  ghost predicate ProducersOk(disk: Disk, stages: Stages) {
    forall t, i :: t in stages.pages && 0 <= i < |stages.pages[t]| ==> PageHolds(disk, stages.pages[t][i])
  }

  lemma {:induction false} FindFinds(rows: seq<PageRow>, id: string)
    ensures Find(rows, id).Some? <==> id in Ids(rows)
  {
    if rows != [] {
      FindFinds(rows[..|rows| - 1], id);
      assert forall i :: 0 <= i < |rows| - 1 ==> rows[..|rows| - 1][i] == rows[i];
    }
  }

  lemma RowsGrow(disk: Disk, existing: seq<PageRow>, rows: seq<PageRow>, page: PageRow, remaining: nat, budget: nat)
    requires RowsOk(disk, existing, rows, remaining, budget) && PageHolds(disk, page)
    requires page.id !in Ids(existing) && page.id !in Ids(rows) && SizeOf(disk, page) <= remaining
    ensures RowsOk(disk, existing, rows + [page], remaining - SizeOf(disk, page), budget)
    ensures Ids(rows + [page]) == Ids(rows) + {page.id}
  {
    hide PageHolds, SizeOf;
    var rows' := rows + [page];
    assert rows'[..|rows|] == rows;
    IdsAppend(rows, [page]);
    IdsSingle(page);
    forall i | 0 <= i < |rows| ensures rows[i].id != page.id {
      assert rows[i].id in Ids(rows);
    }
  }

  lemma AdmitPageOk(disk: Disk, existing: seq<PageRow>, a: Admission, page: PageRow, budget: nat)
    requires RowsOk(disk, existing, a.rows, a.remaining, budget) && PageHolds(disk, page)
    requires forall id :: id in a.admitted ==> id in Ids(existing) || id in Ids(a.rows)
    ensures var a' := AdmitPage(disk, existing, a, page);
            && RowsOk(disk, existing, a'.rows, a'.remaining, budget)
            && a.rows <= a'.rows
            && (forall id :: id in a'.admitted ==> id in Ids(existing) || id in Ids(a'.rows))
  {
    hide PageHolds, SizeOf, RowsOk, Ids;
    FindFinds(existing, page.id);
    FindFinds(a.rows, page.id);
    if page.id !in a.seen && Find(existing, page.id).None? && Find(a.rows, page.id).None? && SizeOf(disk, page) <= a.remaining {
      RowsGrow(disk, existing, a.rows, page, a.remaining, budget);
    }
  }

  lemma {:induction false} AdmitPagesOk(disk: Disk, existing: seq<PageRow>, a: Admission, pages: seq<PageRow>, budget: nat)
    requires RowsOk(disk, existing, a.rows, a.remaining, budget)
    requires forall i :: 0 <= i < |pages| ==> PageHolds(disk, pages[i])
    requires forall id :: id in a.admitted ==> id in Ids(existing) || id in Ids(a.rows)
    ensures var a' := AdmitPages(disk, existing, a, pages);
            && RowsOk(disk, existing, a'.rows, a'.remaining, budget)
            && a.rows <= a'.rows
            && (forall id :: id in a'.admitted ==> id in Ids(existing) || id in Ids(a'.rows))
  {
    hide RowsOk, PageHolds, AdmitPage;
    if pages != [] {
      AdmitPagesOk(disk, existing, a, pages[..|pages| - 1], budget);
      AdmitPageOk(disk, existing, AdmitPages(disk, existing, a, pages[..|pages| - 1]), pages[|pages| - 1], budget);
    }
  }

  ghost predicate GatheredOk(disk: Disk, existing: seq<PageRow>, g: Gathered, budget: nat) {
    && RowsOk(disk, existing, g.rows, g.remaining, budget)
    && forall t, id :: t in g.byTicket && id in g.byTicket[t] ==> id in Ids(existing) || id in Ids(g.rows)
  }

  lemma {:induction false} GatherOk(disk: Disk, existing: seq<PageRow>, budget: nat, tickets: seq<string>, stages: Stages)
    requires ProducersOk(disk, stages)
    ensures GatheredOk(disk, existing, Gather(disk, existing, Gathered(budget, [], map[]), tickets, stages), budget)
  {
    hide RowsOk, PageHolds, AdmitPages;
    if tickets == [] {
      NothingGathered(disk, existing, budget);
    } else {
      var ticket := tickets[|tickets| - 1];
      GatherOk(disk, existing, budget, tickets[..|tickets| - 1], stages);
      var g := Gather(disk, existing, Gathered(budget, [], map[]), tickets[..|tickets| - 1], stages);
      if ticket in stages.pages {
        AdmitPagesOk(disk, existing, Admission(g.remaining, g.rows, {}, []), stages.pages[ticket], budget);
        var a := AdmitPages(disk, existing, Admission(g.remaining, g.rows, {}, []), stages.pages[ticket]);
        forall id | id in Ids(g.rows) ensures id in Ids(a.rows) {
          var i :| 0 <= i < |g.rows| && g.rows[i].id == id;
          assert a.rows[i].id == id;
        }
      }
    }
  }

  lemma NothingGathered(disk: Disk, existing: seq<PageRow>, budget: nat)
    ensures RowsOk(disk, existing, [], budget, budget)
  {
  }

  // ---------- Entries ----------

  function Whole(pages: seq<string>): (r: seq<Region>)
    ensures |r| == |pages|
  {
    seq(|pages|, i requires 0 <= i < |pages| => Region(pages[i], None))
  }

  function Marked(m: Missing, pages: seq<string>, stages: Stages): seq<string> {
    if pages == [] then []
    else
      var rest := Marked(m, pages[..|pages| - 1], stages);
      if stages.suggest(m.ticket, m.item, pages[|pages| - 1]).Some? then rest + [pages[|pages| - 1]] else rest
  }

  /** One marked page carries the item's box; otherwise every page is offered without a box. */
  function ItemEntry(m: Missing, pages: seq<string>, stages: Stages): Entry {
    var marked := Marked(m, pages, stages);
    if |marked| == 1 then
      Entry(m.ticket, m.item, m.fingerprint,
            [Region(marked[0], stages.suggest(m.ticket, m.item, marked[0]))], Some(AutomaticOcr))
    else Entry(m.ticket, m.item, m.fingerprint, Whole(pages), Some(AutomaticTicketSource))
  }

  function PagesFor(byTicket: map<string, seq<string>>, ticket: string): seq<string> {
    if ticket in byTicket then byTicket[ticket] else []
  }

  function NewEntries(missing: seq<Missing>, byTicket: map<string, seq<string>>, stages: Stages): seq<Entry> {
    if missing == [] then []
    else
      var m := missing[|missing| - 1];
      var rest := NewEntries(missing[..|missing| - 1], byTicket, stages);
      if PagesFor(byTicket, m.ticket) == [] then rest else rest + [ItemEntry(m, PagesFor(byTicket, m.ticket), stages)]
  }

  predicate IsOcr(e: Entry) { e.matched == Some(AutomaticOcr) }

  predicate Shares(entries: seq<Entry>, i: nat)
    requires i < |entries|
  {
    IsOcr(entries[i]) && entries[i].regions != [] &&
    exists j :: 0 <= j < |entries| && j != i && IsOcr(entries[j]) && entries[j].regions != []
                && entries[j].regions[0] == entries[i].regions[0]
  }

  function Downgraded(e: Entry, byTicket: map<string, seq<string>>): Entry {
    e.(regions := Whole(PagesFor(byTicket, e.ticket)), matched := Some(AutomaticTicketSource))
  }

  /** Marks that share a region are all taken back to whole-ticket suggestions. */
  function Settled(entries: seq<Entry>, byTicket: map<string, seq<string>>): (r: seq<Entry>)
    ensures |r| == |entries|
  {
    seq(|entries|, i requires 0 <= i < |entries| =>
      if Shares(entries, i) then Downgraded(entries[i], byTicket) else entries[i])
  }

  function CountMatched(entries: seq<Entry>, method_: MatchMethod): nat {
    if entries == [] then 0
    else CountMatched(entries[..|entries| - 1], method_) + if entries[|entries| - 1].matched == Some(method_) then 1 else 0
  }

  function Referenced(rows: seq<PageRow>, used: set<string>): seq<PageRow> {
    if rows == [] then []
    else Referenced(rows[..|rows| - 1], used) + if rows[|rows| - 1].id in used then [rows[|rows| - 1]] else []
  }

  function NewItems(disk: Disk, existing: Sidecar, free: nat, tickets: seq<string>, missing: seq<Missing>, stages: Stages): seq<Entry> {
    var g := Gather(disk, existing.pages, Gathered(free, [], map[]), tickets, stages);
    Settled(NewEntries(missing, g.byTicket, stages), g.byTicket)
  }

  function Candidate(disk: Disk, existing: Sidecar, free: nat, tickets: seq<string>, missing: seq<Missing>, stages: Stages): Sidecar {
    var g := Gather(disk, existing.pages, Gathered(free, [], map[]), tickets, stages);
    var items := NewItems(disk, existing, free, tickets, missing, stages);
    Sidecar(existing.pages + Referenced(g.rows, UsedPages(items)), existing.items + items)
  }

  // ---------- The candidate satisfies the loader ----------

  ghost predicate BoxesOk(stages: Stages) {
    forall t, i, p :: stages.suggest(t, i, p).Some? ==> ValidBox(stages.suggest(t, i, p).value)
  }

  lemma {:induction false} MarkedFrom(m: Missing, pages: seq<string>, stages: Stages)
    ensures forall p :: p in Marked(m, pages, stages) <==> p in pages && stages.suggest(m.ticket, m.item, p).Some?
  {
    if pages != [] {
      MarkedFrom(m, pages[..|pages| - 1], stages);
      assert pages == pages[..|pages| - 1] + [pages[|pages| - 1]];
    }
  }

  /** An entry for item `m` drawn from these pages: regions there, boxes valid. */
  ghost predicate EntryOk(e: Entry, m: Missing, pages: seq<string>) {
    && e.ticket == m.ticket && e.item == m.item && e.fingerprint == m.fingerprint
    && e.regions != []
    && (forall i :: 0 <= i < |e.regions| ==>
          e.regions[i].page in pages && (e.regions[i].box.Some? ==> ValidBox(e.regions[i].box.value)))
    && (e.matched == Some(AutomaticOcr) || e.matched == Some(AutomaticTicketSource))
    && (IsOcr(e) ==> |e.regions| == 1 && e.regions[0].box.Some?)
  }

  lemma ItemEntryOk(m: Missing, pages: seq<string>, stages: Stages)
    requires pages != [] && BoxesOk(stages)
    ensures EntryOk(ItemEntry(m, pages, stages), m, pages)
  {
    MarkedFrom(m, pages, stages);
    var marked := Marked(m, pages, stages);
    if |marked| == 1 {
      assert marked[0] in marked;
    }
  }

  lemma {:induction false} NewEntriesOk(missing: seq<Missing>, byTicket: map<string, seq<string>>, stages: Stages) returns (at: seq<nat>)
    requires BoxesOk(stages)
    ensures var es := NewEntries(missing, byTicket, stages);
            && |at| == |es|
            && (forall i :: 0 <= i < |at| ==> at[i] < |missing| && EntryOk(es[i], missing[at[i]], PagesFor(byTicket, missing[at[i]].ticket)))
            && (forall i, j :: 0 <= i < j < |at| ==> at[i] < at[j])
            && (forall i :: 0 <= i < |at| ==> es[i] == ItemEntry(missing[at[i]], PagesFor(byTicket, missing[at[i]].ticket), stages))
            && (forall k :: 0 <= k < |missing| ==> (k in at <==> PagesFor(byTicket, missing[k].ticket) != []))
  {
    hide EntryOk, BoxesOk, ItemEntry;
    if missing == [] {
      at := [];
    } else {
      var front, m := missing[..|missing| - 1], missing[|missing| - 1];
      at := NewEntriesOk(front, byTicket, stages);
      if PagesFor(byTicket, m.ticket) != [] {
        ItemEntryOk(m, PagesFor(byTicket, m.ticket), stages);
        var before := at;
        at := at + [|missing| - 1];
        assert forall k :: k in at <==> k in before || k == |missing| - 1;
      }
    }
  }

  lemma SettledOk(es: seq<Entry>, byTicket: map<string, seq<string>>, i: nat, m: Missing)
    requires i < |es| && EntryOk(es[i], m, PagesFor(byTicket, m.ticket))
    ensures EntryOk(Settled(es, byTicket)[i], m, PagesFor(byTicket, m.ticket))
  {
    assert PagesFor(byTicket, m.ticket) != [];
  }

  /** After the downgrade no two new OCR marks share a region. */
  lemma MarksApart(es: seq<Entry>, byTicket: map<string, seq<string>>, i: nat, j: nat)
    requires i < |es| && j < |es| && i != j
    requires IsOcr(Settled(es, byTicket)[i]) && IsOcr(Settled(es, byTicket)[j])
    requires es[i].regions != [] && es[j].regions != []
    ensures Settled(es, byTicket)[i].regions[0] != Settled(es, byTicket)[j].regions[0]
  {
    assert !Shares(es, i);
  }

  lemma {:induction false} UsedMembers(items: seq<Entry>, p: string)
    ensures p in UsedPages(items) <==> exists i :: 0 <= i < |items| && p in RegionPages(items[i])
  {
    if items != [] {
      var front := items[..|items| - 1];
      UsedMembers(front, p);
      if p in UsedPages(front) {
        var i :| 0 <= i < |front| && p in RegionPages(front[i]);
        assert items[i] == front[i];
      }
      if i :| 0 <= i < |items| && p in RegionPages(items[i]) {
        if i < |front| { assert front[i] == items[i]; }
      }
    }
  }

  lemma UsedAppend(a: seq<Entry>, b: seq<Entry>)
    ensures UsedPages(a + b) == UsedPages(a) + UsedPages(b)
  {
    forall p ensures p in UsedPages(a + b) <==> p in UsedPages(a) + UsedPages(b) {
      UsedMembers(a + b, p);
      UsedMembers(a, p);
      UsedMembers(b, p);
      if i :| 0 <= i < |a| && p in RegionPages(a[i]) { assert (a + b)[i] == a[i]; }
      if i :| 0 <= i < |b| && p in RegionPages(b[i]) { assert (a + b)[|a| + i] == b[i]; }
    }
  }

  lemma IdsSingle(row: PageRow)
    ensures Ids([row]) == {row.id}
  {
    assert [row][0].id in Ids([row]);
  }

  lemma {:induction false} ReferencedFrom(rows: seq<PageRow>, used: set<string>)
    ensures forall r :: r in Referenced(rows, used) <==> r in rows && r.id in used
  {
    if rows != [] {
      ReferencedFrom(rows[..|rows| - 1], used);
      assert rows == rows[..|rows| - 1] + [rows[|rows| - 1]];
    }
  }

  lemma ReferencedIds(rows: seq<PageRow>, used: set<string>)
    ensures Ids(Referenced(rows, used)) == Ids(rows) * used
  {
    ReferencedFrom(rows, used);
    var r := Referenced(rows, used);
    forall id | id in Ids(rows) * used ensures id in Ids(r) {
      var i :| 0 <= i < |rows| && rows[i].id == id;
      assert rows[i] in r;
    }
    forall id | id in Ids(r) ensures id in Ids(rows) * used {
      var i :| 0 <= i < |r| && r[i].id == id;
      assert r[i] in r;
    }
  }

  lemma {:induction false} ReferencedTotal(disk: Disk, rows: seq<PageRow>, used: set<string>)
    ensures TotalBytes(disk, Referenced(rows, used)) <= TotalBytes(disk, rows)
  {
    hide SizeOf;
    if rows != [] {
      var front := rows[..|rows| - 1];
      ReferencedTotal(disk, front, used);
      var rest := Referenced(front, used);
      assert Referenced(rows, used) == rest || Referenced(rows, used)[..|rest|] == rest;
    }
  }

  ghost predicate DistinctIds(rows: seq<PageRow>) {
    forall i, j :: 0 <= i < j < |rows| ==> rows[i].id != rows[j].id
  }

  lemma {:induction false} ReferencedDistinct(rows: seq<PageRow>, used: set<string>)
    requires DistinctIds(rows)
    ensures DistinctIds(Referenced(rows, used))
  {
    if rows != [] {
      var front, last := rows[..|rows| - 1], rows[|rows| - 1];
      ReferencedDistinct(front, used);
      var rest := Referenced(front, used);
      ReferencedFrom(front, used);
      forall i | 0 <= i < |rest| ensures rest[i].id != last.id {
        assert rest[i] in rest;
        var k :| 0 <= k < |front| && front[k] == rest[i];
        assert rows[k] == front[k];
      }
      var r := Referenced(rows, used);
      assert r == rest || r == rest + [last];
      forall i, j | 0 <= i < j < |r| ensures r[i].id != r[j].id {
        if j < |rest| {
          assert r[i] == rest[i] && r[j] == rest[j];
          assert rest[i].id != rest[j].id;
        } else {
          assert r[i] == rest[i] && r[j] == last;
          assert rest[i].id != last.id;
        }
      }
    }
  }

  lemma ReferencedOk(disk: Disk, existing: seq<PageRow>, rows: seq<PageRow>, used: set<string>, remaining: nat, budget: nat)
    requires RowsOk(disk, existing, rows, remaining, budget)
    ensures var r := Referenced(rows, used);
            && (forall i, j :: 0 <= i < j < |r| ==> r[i].id != r[j].id)
            && (forall i :: 0 <= i < |r| ==> PageHolds(disk, r[i]) && r[i].id !in Ids(existing))
            && TotalBytes(disk, r) <= TotalBytes(disk, rows)
            && Ids(r) == Ids(rows) * used
  {
    hide PageHolds, SizeOf;
    ReferencedFrom(rows, used);
    ReferencedIds(rows, used);
    ReferencedTotal(disk, rows, used);
    ReferencedDistinct(rows, used);
    var r := Referenced(rows, used);
    forall i | 0 <= i < |r| ensures PageHolds(disk, r[i]) && r[i].id !in Ids(existing) {
      assert r[i] in r;
      var k :| 0 <= k < |rows| && rows[k] == r[i];
    }
  }

  lemma IdsAppend(a: seq<PageRow>, b: seq<PageRow>)
    ensures Ids(a + b) == Ids(a) + Ids(b)
  {
    forall id ensures id in Ids(a + b) <==> id in Ids(a) + Ids(b) {
      if i :| 0 <= i < |a| && a[i].id == id { assert (a + b)[i].id == id; }
      if i :| 0 <= i < |b| && b[i].id == id { assert (a + b)[|a| + i].id == id; }
    }
  }

  lemma {:induction false} TotalAppend(disk: Disk, a: seq<PageRow>, b: seq<PageRow>)
    ensures TotalBytes(disk, a + b) == TotalBytes(disk, a) + TotalBytes(disk, b)
  {
    if b == [] {
      assert a + b == a;
    } else {
      assert (a + b)[..|a + b| - 1] == a + b[..|b| - 1];
      TotalAppend(disk, a, b[..|b| - 1]);
    }
  }

  /** The unlinked items of a report against a sidecar, in report order. */
  ghost predicate MissingFrom(report: Report, existing: Sidecar, missing: seq<Missing>) {
    && (forall i, j :: 0 <= i < j < |missing| ==> (missing[i].ticket, missing[i].item) != (missing[j].ticket, missing[j].item))
    && (forall i :: 0 <= i < |missing| ==>
          ReportItem(missing[i].ticket, missing[i].item, missing[i].fingerprint) in report.items)
    && (forall i, k :: 0 <= i < |missing| && 0 <= k < |existing.items| ==>
          (missing[i].ticket, missing[i].item) != (existing.items[k].ticket, existing.items[k].item))
  }

  /** The pages side of a candidate: unique, intact, within the cap. */
  lemma CandidatePagesOk(disk: Disk, existing: seq<PageRow>, rows: seq<PageRow>, used: set<string>, remaining: nat)
    requires PagesOk(disk, existing)
    requires RowsOk(disk, existing, rows, remaining, MAX_TOTAL_BYTES - TotalBytes(disk, existing))
    ensures PagesOk(disk, existing + Referenced(rows, used))
    ensures Ids(existing + Referenced(rows, used)) == Ids(existing) + Ids(rows) * used
  {
    var r := Referenced(rows, used);
    ReferencedOk(disk, existing, rows, used, remaining, MAX_TOTAL_BYTES - TotalBytes(disk, existing));
    TotalAppend(disk, existing, r);
    IdsAppend(existing, r);
    var all := existing + r;
    forall i, j | 0 <= i < j < |all| ensures all[i].id != all[j].id {
      if i < |existing| <= j {
        assert existing[i].id in Ids(existing);
        assert all[j] == r[j - |existing|];
      }
    }
  }

  /** What a refresh starts from: no sidecar yet, or one that loads; either is valid but for follow-up pages. */
  ghost predicate Startable(disk: Disk, report: Report, s: Sidecar) {
    && PagesOk(disk, s.pages) && EntriesOk(report, s.items, Ids(s.pages))
    && Ids(s.pages) <= UsedPages(s.items) + FollowUpPages(report)
  }

  lemma LoadedIsStartable(disk: Disk, report: Report, s: Sidecar)
    ensures Accepts(disk, report, s) || s == Sidecar([], []) ==> Startable(disk, report, s)
  {
    hide PageHolds;
  }

  /** For any sidecar the loader accepts, the candidate is accepted too. */
  lemma CandidateAccepted(disk: Disk, report: Report, existing: Sidecar, tickets: seq<string>, missing: seq<Missing>, stages: Stages)
    requires Accepts(disk, report, existing)
    requires MissingFrom(report, existing, missing) && ProducersOk(disk, stages) && BoxesOk(stages)
    ensures var free := MAX_TOTAL_BYTES - TotalBytes(disk, existing.pages);
            Accepts(disk, report, Candidate(disk, existing, free, tickets, missing, stages))
  {
    LoadedIsStartable(disk, report, existing);
    CandidateAcceptedByPages(disk, report, existing, tickets, missing, stages);
    var free := MAX_TOTAL_BYTES - TotalBytes(disk, existing.pages);
    var c := Candidate(disk, existing, free, tickets, missing, stages);
    IdsAppend(existing.pages, c.pages[|existing.pages|..]);
    assert c.pages == existing.pages + c.pages[|existing.pages|..];
  }

  // ---------- Which pages the new items show ----------

  /** The box of item k's one marked page, among the pages admitted for its ticket. */
  function MarkOf(missing: seq<Missing>, byTicket: map<string, seq<string>>, stages: Stages, k: nat): Option<Region>
    requires k < |missing|
  {
    var m := missing[k];
    var marked := Marked(m, PagesFor(byTicket, m.ticket), stages);
    if |marked| == 1 then Some(Region(marked[0], stages.suggest(m.ticket, m.item, marked[0]))) else None
  }

  /** Item k has a mark and no other item has the same one. */
  predicate KeepsMark(missing: seq<Missing>, byTicket: map<string, seq<string>>, stages: Stages, k: nat)
    requires k < |missing|
  {
    && MarkOf(missing, byTicket, stages, k).Some?
    && forall l :: 0 <= l < |missing| && l != k ==> MarkOf(missing, byTicket, stages, l) != MarkOf(missing, byTicket, stages, k)
  }

  /** Item k shows this admitted page: its mark's page if it keeps a mark, and otherwise every one. */
  predicate ShownBy(missing: seq<Missing>, byTicket: map<string, seq<string>>, stages: Stages, k: nat, page: string)
    requires k < |missing|
  {
    && page in PagesFor(byTicket, missing[k].ticket)
    && (KeepsMark(missing, byTicket, stages, k) ==> MarkOf(missing, byTicket, stages, k).value.page == page)
  }

  lemma ItemEntryMark(missing: seq<Missing>, byTicket: map<string, seq<string>>, stages: Stages, k: nat)
    requires k < |missing|
    ensures var m := missing[k];
            var e, mark := ItemEntry(m, PagesFor(byTicket, m.ticket), stages), MarkOf(missing, byTicket, stages, k);
            && (IsOcr(e) <==> mark.Some?)
            && e.regions == (if mark.Some? then [mark.value] else Whole(PagesFor(byTicket, m.ticket)))
            && (mark.Some? ==> mark.value.page in PagesFor(byTicket, m.ticket))
  {
    var m := missing[k];
    MarkedFrom(m, PagesFor(byTicket, m.ticket), stages);
    var marked := Marked(m, PagesFor(byTicket, m.ticket), stages);
    if |marked| == 1 {
      assert marked[0] in marked;
    }
  }

  lemma SharesAreEqualMarks(missing: seq<Missing>, byTicket: map<string, seq<string>>, stages: Stages, at: seq<nat>, i: nat)
    requires var es := NewEntries(missing, byTicket, stages);
             && |at| == |es| && i < |at|
             && (forall n :: 0 <= n < |at| ==> at[n] < |missing| && es[n] == ItemEntry(missing[at[n]], PagesFor(byTicket, missing[at[n]].ticket), stages))
             && (forall n, l :: 0 <= n < l < |at| ==> at[n] < at[l])
             && (forall k :: 0 <= k < |missing| ==> (k in at <==> PagesFor(byTicket, missing[k].ticket) != []))
    ensures Shares(NewEntries(missing, byTicket, stages), i)
            <==> MarkOf(missing, byTicket, stages, at[i]).Some? && !KeepsMark(missing, byTicket, stages, at[i])
  {
    hide NewEntries, ItemEntry, MarkOf, PagesFor, Whole;
    var es, k := NewEntries(missing, byTicket, stages), at[i];
    forall n | 0 <= n < |es|
      ensures IsOcr(es[n]) <==> MarkOf(missing, byTicket, stages, at[n]).Some?
      ensures IsOcr(es[n]) ==> es[n].regions == [MarkOf(missing, byTicket, stages, at[n]).value]
    {
      ItemEntryMark(missing, byTicket, stages, at[n]);
    }
    if MarkOf(missing, byTicket, stages, k).Some? && !KeepsMark(missing, byTicket, stages, k) {
      var l :| 0 <= l < |missing| && l != k && MarkOf(missing, byTicket, stages, l) == MarkOf(missing, byTicket, stages, k);
      ItemEntryMark(missing, byTicket, stages, l);
      var n :| 0 <= n < |at| && at[n] == l;
      assert es[n].regions[0] == es[i].regions[0];
    }
  }

  lemma WholePages(e: Entry, pages: seq<string>, p: string)
    requires e.regions == Whole(pages)
    ensures p in RegionPages(e) <==> p in pages
  {
    if p in pages {
      var i :| 0 <= i < |pages| && pages[i] == p;
      assert e.regions[i].page == p;
    }
  }

  lemma MarkPage(e: Entry, mark: Region, p: string)
    requires e.regions == [mark]
    ensures p in RegionPages(e) <==> p == mark.page
  {
    assert e.regions[0].page == mark.page;
  }

  /** After the downgrade item i shows exactly these pages. */
  lemma ItemShows(missing: seq<Missing>, byTicket: map<string, seq<string>>, stages: Stages, at: seq<nat>, i: nat, p: string)
    requires var es := NewEntries(missing, byTicket, stages);
             && |at| == |es| && i < |at|
             && (forall n :: 0 <= n < |at| ==> at[n] < |missing| && es[n] == ItemEntry(missing[at[n]], PagesFor(byTicket, missing[at[n]].ticket), stages))
             && (forall n, l :: 0 <= n < l < |at| ==> at[n] < at[l])
             && (forall k :: 0 <= k < |missing| ==> (k in at <==> PagesFor(byTicket, missing[k].ticket) != []))
    ensures p in RegionPages(Settled(NewEntries(missing, byTicket, stages), byTicket)[i]) <==> ShownBy(missing, byTicket, stages, at[i], p)
  {
    SharesAreEqualMarks(missing, byTicket, stages, at, i);
    ItemEntryMark(missing, byTicket, stages, at[i]);
    var es, k := NewEntries(missing, byTicket, stages), at[i];
    assert es[i].ticket == missing[k].ticket;
    hide NewEntries, ItemEntry, MarkOf, KeepsMark, PagesFor, Whole, Shares, RegionPages;
    var item := Settled(es, byTicket)[i];
    if KeepsMark(missing, byTicket, stages, k) {
      KeptIsMarked(missing, byTicket, stages, k);
      MarkPage(item, MarkOf(missing, byTicket, stages, k).value, p);
    } else {
      WholePages(item, PagesFor(byTicket, missing[k].ticket), p);
    }
  }

  lemma KeptIsMarked(missing: seq<Missing>, byTicket: map<string, seq<string>>, stages: Stages, k: nat)
    requires k < |missing| && KeepsMark(missing, byTicket, stages, k)
    ensures MarkOf(missing, byTicket, stages, k).Some?
  {
  }

  /** The new items use a page exactly when some missing item shows it. */
  lemma UsedIsShown(missing: seq<Missing>, byTicket: map<string, seq<string>>, stages: Stages, p: string)
    requires BoxesOk(stages)
    ensures p in UsedPages(Settled(NewEntries(missing, byTicket, stages), byTicket))
            <==> exists k :: 0 <= k < |missing| && ShownBy(missing, byTicket, stages, k, p)
  {
    var at := NewEntriesOk(missing, byTicket, stages);
    var items := Settled(NewEntries(missing, byTicket, stages), byTicket);
    UsedMembers(items, p);
    hide Settled, NewEntries, ItemEntry, KeepsMark, EntryOk, BoxesOk, RegionPages, UsedPages;
    if i :| 0 <= i < |items| && p in RegionPages(items[i]) {
      ItemShows(missing, byTicket, stages, at, i, p);
    }
    if k :| 0 <= k < |missing| && ShownBy(missing, byTicket, stages, k, p) {
      assert k in at;
      var i :| 0 <= i < |at| && at[i] == k;
      ItemShows(missing, byTicket, stages, at, i, p);
    }
  }

  /** What a sidecar valid but for its follow-up pages still needs: each of those pages was there already, or
      a missing item shows it among the pages the stages brought for its ticket. */
  ghost predicate FollowUpsBrought(disk: Disk, report: Report, existing: Sidecar, free: nat, tickets: seq<string>,
                                   missing: seq<Missing>, stages: Stages)
  {
    var g := Gather(disk, existing.pages, Gathered(free, [], map[]), tickets, stages);
    forall p :: p in FollowUpPages(report) ==>
      p in Ids(existing.pages) || exists k :: 0 <= k < |missing| && ShownBy(missing, g.byTicket, stages, k, p)
  }

  /** A sidecar that is valid but for missing follow-up pages: its candidate is accepted exactly when the
      follow-up pages are brought. An absent sidecar is the empty case. */
  lemma CandidateAcceptedExactly(disk: Disk, report: Report, existing: Sidecar, tickets: seq<string>, missing: seq<Missing>, stages: Stages)
    requires Startable(disk, report, existing)
    requires MissingFrom(report, existing, missing) && ProducersOk(disk, stages) && BoxesOk(stages)
    ensures var free := MAX_TOTAL_BYTES - TotalBytes(disk, existing.pages);
            Accepts(disk, report, Candidate(disk, existing, free, tickets, missing, stages))
            <==> FollowUpsBrought(disk, report, existing, free, tickets, missing, stages)
  {
    hide PagesOk, BoxesOk, RowsOk, TotalBytes, Gather, Settled, Referenced, NewEntries, UsedPages, Ids, EntriesOk, MissingFrom, ProducersOk,
         ShownBy, FollowUpPages, Accepts;
    CandidateAcceptedByPages(disk, report, existing, tickets, missing, stages);
    var free := MAX_TOTAL_BYTES - TotalBytes(disk, existing.pages);
    TotalWithin(disk, existing.pages);
    var g := Gather(disk, existing.pages, Gathered(free, [], map[]), tickets, stages);
    var items := NewItems(disk, existing, free, tickets, missing, stages);
    GatherOk(disk, existing.pages, free, tickets, stages);
    CandidatePagesOk(disk, existing.pages, g.rows, UsedPages(items), g.remaining);
    forall p ensures p in Ids(existing.pages) + Ids(g.rows) * UsedPages(items)
                     <==> p in Ids(existing.pages) || exists k :: 0 <= k < |missing| && ShownBy(missing, g.byTicket, stages, k, p) {
      UsedIsShown(missing, g.byTicket, stages, p);
      if k :| 0 <= k < |missing| && ShownBy(missing, g.byTicket, stages, k, p) {
        ShownIsAdmitted(missing, g.byTicket, stages, k, p);
      }
    }
  }

  lemma ShownIsAdmitted(missing: seq<Missing>, byTicket: map<string, seq<string>>, stages: Stages, k: nat, p: string)
    requires k < |missing| && ShownBy(missing, byTicket, stages, k, p)
    ensures missing[k].ticket in byTicket && p in byTicket[missing[k].ticket]
  {
    hide KeepsMark, MarkOf;
  }

  lemma CandidateAcceptedByPages(disk: Disk, report: Report, existing: Sidecar, tickets: seq<string>, missing: seq<Missing>, stages: Stages)
    requires Startable(disk, report, existing)
    requires MissingFrom(report, existing, missing) && ProducersOk(disk, stages) && BoxesOk(stages)
    ensures var free := MAX_TOTAL_BYTES - TotalBytes(disk, existing.pages);
            var c := Candidate(disk, existing, free, tickets, missing, stages);
            Accepts(disk, report, c) <==> FollowUpPages(report) <= Ids(c.pages)
  {
    hide PagesOk, BoxesOk, RowsOk, TotalBytes, Gather, Settled, Referenced;
    var free := MAX_TOTAL_BYTES - TotalBytes(disk, existing.pages);
    TotalWithin(disk, existing.pages);
    var g := Gather(disk, existing.pages, Gathered(free, [], map[]), tickets, stages);
    var items := NewItems(disk, existing, free, tickets, missing, stages);
    var c := Candidate(disk, existing, free, tickets, missing, stages);
    GatherOk(disk, existing.pages, free, tickets, stages);
    CandidatePagesOk(disk, existing.pages, g.rows, UsedPages(items), g.remaining);
    UsedAppend(existing.items, items);
    NewItemsUsePages(disk, existing, g, missing, stages);
    ExistingUsePages(report, existing);
    CandidateEntriesOk(report, existing, g, missing, stages, Ids(c.pages));
  }

  lemma TotalWithin(disk: Disk, rows: seq<PageRow>)
    requires PagesOk(disk, rows)
    ensures TotalBytes(disk, rows) <= MAX_TOTAL_BYTES
  {
  }

  lemma ExistingUsePages(report: Report, existing: Sidecar)
    requires EntriesOk(report, existing.items, Ids(existing.pages))
    ensures UsedPages(existing.items) <= Ids(existing.pages)
  {
    forall p | p in UsedPages(existing.items) ensures p in Ids(existing.pages) {
      UsedMembers(existing.items, p);
    }
  }

  lemma NewItemsUsePages(disk: Disk, existing: Sidecar, g: Gathered, missing: seq<Missing>, stages: Stages)
    requires BoxesOk(stages)
    requires forall t, id :: t in g.byTicket && id in g.byTicket[t] ==> id in Ids(existing.pages) || id in Ids(g.rows)
    ensures UsedPages(Settled(NewEntries(missing, g.byTicket, stages), g.byTicket)) <= Ids(existing.pages) + Ids(g.rows)
  {
    hide BoxesOk, Ids, Settled;
    var es := NewEntries(missing, g.byTicket, stages);
    var items := Settled(es, g.byTicket);
    var at := NewEntriesOk(missing, g.byTicket, stages);
    forall p | p in UsedPages(items) ensures p in Ids(existing.pages) + Ids(g.rows) {
      UsedMembers(items, p);
      var i :| 0 <= i < |items| && p in RegionPages(items[i]);
      SettledOk(es, g.byTicket, i, missing[at[i]]);
      assert p in PagesFor(g.byTicket, missing[at[i]].ticket);
    }
  }

  /** Item i of the new entries is its missing item's, known to the report, with regions on known pages. */
  lemma NewEntryFits(report: Report, missing: seq<Missing>, byTicket: map<string, seq<string>>, stages: Stages, at: seq<nat>, i: nat, ids: set<string>)
    requires var es := NewEntries(missing, byTicket, stages);
             && |at| == |es| && i < |at| && at[i] < |missing|
             && EntryOk(es[i], missing[at[i]], PagesFor(byTicket, missing[at[i]].ticket))
    requires var m := missing[at[i]]; ReportItem(m.ticket, m.item, m.fingerprint) in report.items
    requires UsedPages(Settled(NewEntries(missing, byTicket, stages), byTicket)) <= ids
    ensures var e := Settled(NewEntries(missing, byTicket, stages), byTicket)[i];
            Known(report, e) && RegionsOk(e, ids) && e.ticket == missing[at[i]].ticket && e.item == missing[at[i]].item
  {
    hide Settled, NewEntries, ValidBox, PagesFor;
    var es := NewEntries(missing, byTicket, stages);
    var items := Settled(es, byTicket);
    SettledOk(es, byTicket, i, missing[at[i]]);
    forall k | 0 <= k < |items[i].regions| ensures items[i].regions[k].page in ids {
      assert items[i].regions[k].page in RegionPages(items[i]);
      UsedMembers(items, items[i].regions[k].page);
    }
  }

  /** Two lists of entries with no item twice, in either or across, have none twice together. */
  lemma EntriesJoin(report: Report, a: seq<Entry>, b: seq<Entry>, ids: set<string>)
    requires EntriesOk(report, a, ids) && EntriesOk(report, b, ids)
    requires forall i, k :: 0 <= i < |a| && 0 <= k < |b| ==> (a[i].ticket, a[i].item) != (b[k].ticket, b[k].item)
    ensures EntriesOk(report, a + b, ids)
  {
    hide Known, RegionsOk;
  }

  lemma MoreIds(report: Report, items: seq<Entry>, ids: set<string>, more: set<string>)
    requires EntriesOk(report, items, ids) && ids <= more
    ensures EntriesOk(report, items, more)
  {
    hide Known, ValidBox;
  }

  lemma CandidateEntriesOk(report: Report, existing: Sidecar, g: Gathered, missing: seq<Missing>, stages: Stages, ids: set<string>)
    requires EntriesOk(report, existing.items, Ids(existing.pages)) && Ids(existing.pages) <= ids
    requires MissingFrom(report, existing, missing) && BoxesOk(stages)
    requires UsedPages(Settled(NewEntries(missing, g.byTicket, stages), g.byTicket)) <= ids
    ensures EntriesOk(report, existing.items + Settled(NewEntries(missing, g.byTicket, stages), g.byTicket), ids)
  {
    hide BoxesOk, Ids, Settled, NewEntries, ItemEntry, PagesFor, EntryOk, Known, RegionsOk, UsedPages;
    MoreIds(report, existing.items, Ids(existing.pages), ids);
    var items := Settled(NewEntries(missing, g.byTicket, stages), g.byTicket);
    var at := NewEntriesOk(missing, g.byTicket, stages);
    forall i | 0 <= i < |items|
      ensures Known(report, items[i]) && RegionsOk(items[i], ids)
      ensures items[i].ticket == missing[at[i]].ticket && items[i].item == missing[at[i]].item
    {
      NewEntryFits(report, missing, g.byTicket, stages, at, i, ids);
    }
    EntriesJoin(report, existing.items, items, ids);
  }

  // ---------- The loops ----------

  method AdmitTicket(disk: Disk, existing: seq<PageRow>, remaining: nat, rows: seq<PageRow>, pages: seq<PageRow>)
    returns (remaining': nat, rows': seq<PageRow>, admitted: seq<string>)
    ensures var a := AdmitPages(disk, existing, Admission(remaining, rows, {}, []), pages);
            remaining' == a.remaining && rows' == a.rows && admitted == a.admitted
  {
    remaining', rows', admitted := remaining, rows, [];
    var seen: set<string> := {};
    ghost var start := Admission(remaining, rows, {}, []);
    for i := 0 to |pages|
      invariant AdmitPages(disk, existing, start, pages[..i]) == Admission(remaining', rows', seen, admitted)
    {
      var page := pages[i];
      assert pages[..i + 1][..i] == pages[..i];
      if page.id in seen {
        continue;
      }
      seen := seen + {page.id};
      var prior := Find(existing, page.id);
      if prior.None? {
        prior := Find(rows', page.id);
      }
      if prior.Some? {
        if prior.value.digest == page.digest {
          admitted := admitted + [page.id];
        }
        continue;
      }
      var size := SizeOf(disk, page);
      if size > remaining' {
        continue;
      }
      remaining' := remaining' - size;
      rows' := rows' + [page];
      admitted := admitted + [page.id];
    }
    assert pages[..|pages|] == pages;
  }

  method GatherPages(disk: Disk, existing: seq<PageRow>, free: nat, tickets: seq<string>, stages: Stages)
    returns (rows: seq<PageRow>, byTicket: map<string, seq<string>>)
    ensures var g := Gather(disk, existing, Gathered(free, [], map[]), tickets, stages);
            rows == g.rows && byTicket == g.byTicket
  {
    var remaining := free;
    rows, byTicket := [], map[];
    for i := 0 to |tickets|
      invariant Gather(disk, existing, Gathered(free, [], map[]), tickets[..i], stages) == Gathered(remaining, rows, byTicket)
    {
      assert tickets[..i + 1][..i] == tickets[..i];
      if tickets[i] in stages.pages {
        var admitted: seq<string>;
        remaining, rows, admitted := AdmitTicket(disk, existing, remaining, rows, stages.pages[tickets[i]]);
        byTicket := byTicket[tickets[i] := admitted];
      }
    }
    assert tickets[..|tickets|] == tickets;
  }

  /** Build one entry per item with pages, counting marks and items left for review. */
  method BuildEntries(missing: seq<Missing>, byTicket: map<string, seq<string>>, stages: Stages, priorMarked: nat, priorReview: nat)
    returns (entries: seq<Entry>, marked: nat, reviewNeeded: nat)
    ensures entries == NewEntries(missing, byTicket, stages)
    ensures marked == priorMarked + CountMatched(entries, AutomaticOcr)
    ensures marked + reviewNeeded == priorMarked + priorReview + |missing|
  {
    entries, marked, reviewNeeded := [], priorMarked, priorReview;
    for i := 0 to |missing|
      invariant entries == NewEntries(missing[..i], byTicket, stages)
      invariant marked == priorMarked + CountMatched(entries, AutomaticOcr)
      invariant marked + reviewNeeded == priorMarked + priorReview + i
    {
      var m := missing[i];
      assert missing[..i + 1][..i] == missing[..i];
      var pages := PagesFor(byTicket, m.ticket);
      if pages == [] {
        reviewNeeded := reviewNeeded + 1;
        continue;
      }
      var entry := ItemEntry(m, pages, stages);
      if entry.matched == Some(AutomaticOcr) {
        marked := marked + 1;
      } else {
        reviewNeeded := reviewNeeded + 1;
      }
      assert (entries + [entry])[..|entries|] == entries;
      entries := entries + [entry];
    }
    assert missing[..|missing|] == missing;
  }

  lemma {:induction false} CountUpdated(entries: seq<Entry>, i: nat, e: Entry)
    requires i < |entries| && IsOcr(entries[i]) && !IsOcr(e)
    ensures CountMatched(entries, AutomaticOcr) >= 1
    ensures CountMatched(entries[i := e], AutomaticOcr) == CountMatched(entries, AutomaticOcr) - 1
  {
    var n := |entries| - 1;
    if i < n {
      CountUpdated(entries[..n], i, e);
      assert entries[i := e][..n] == entries[..n][i := e];
    } else {
      assert entries[i := e][..n] == entries[..n];
    }
  }

  /** Take every mark that shares its region back to a whole-ticket suggestion. */
  method DowngradeShared(original: seq<Entry>, byTicket: map<string, seq<string>>, marked0: nat, review0: nat)
    returns (entries: seq<Entry>, marked: nat, reviewNeeded: nat)
    requires marked0 >= CountMatched(original, AutomaticOcr)
    ensures entries == Settled(original, byTicket)
    ensures marked - CountMatched(entries, AutomaticOcr) == marked0 - CountMatched(original, AutomaticOcr)
    ensures marked + reviewNeeded == marked0 + review0
  {
    entries, marked, reviewNeeded := original, marked0, review0;
    for i := 0 to |original|
      invariant |entries| == |original|
      invariant forall k :: 0 <= k < i ==> entries[k] == Settled(original, byTicket)[k]
      invariant forall k :: i <= k < |original| ==> entries[k] == original[k]
      invariant marked - CountMatched(entries, AutomaticOcr) == marked0 - CountMatched(original, AutomaticOcr)
      invariant marked >= CountMatched(entries, AutomaticOcr)
      invariant marked + reviewNeeded == marked0 + review0
    {
      if Shares(original, i) {
        CountUpdated(entries, i, Downgraded(entries[i], byTicket));
        entries := entries[i := Downgraded(entries[i], byTicket)];
        marked := marked - 1;
        reviewNeeded := reviewNeeded + 1;
      }
    }
  }

  /** Only the new pages an entry shows are kept. */
  method KeepReferenced(rows: seq<PageRow>, used: set<string>) returns (kept: seq<PageRow>)
    ensures kept == Referenced(rows, used)
  {
    kept := [];
    for i := 0 to |rows|
      invariant kept == Referenced(rows[..i], used)
    {
      assert rows[..i + 1][..i] == rows[..i];
      if rows[i].id in used {
        kept := kept + [rows[i]];
      }
    }
    assert rows[..|rows|] == rows;
  }

  /** The whole refresh: old pages and items are the candidate's prefix, every missing item is counted once, as a mark
      or as needing review, and the loader's look at the candidate passes exactly when the follow-up pages are brought,
      as it always does when the old sidecar loaded. */
  method RefreshReceipts(disk: Disk, report: Report, existing: Sidecar, tickets: seq<string>, missing: seq<Missing>,
                         stages: Stages, priorMarked: nat, priorReview: nat)
    returns (candidate: Sidecar, accepted: bool, marked: nat, reviewNeeded: nat)
    requires Startable(disk, report, existing)
    requires MissingFrom(report, existing, missing) && ProducersOk(disk, stages) && BoxesOk(stages)
    ensures accepted <==> Accepts(disk, report, candidate)
    ensures TotalBytes(disk, existing.pages) <= MAX_TOTAL_BYTES
    ensures accepted <==> FollowUpsBrought(disk, report, existing, MAX_TOTAL_BYTES - TotalBytes(disk, existing.pages), tickets, missing, stages)
    ensures Accepts(disk, report, existing) ==> accepted
    ensures existing.pages <= candidate.pages && existing.items <= candidate.items
    ensures candidate == Candidate(disk, existing, MAX_TOTAL_BYTES - TotalBytes(disk, existing.pages), tickets, missing, stages)
    ensures marked == priorMarked + CountMatched(candidate.items[|existing.items|..], AutomaticOcr)
    ensures marked + reviewNeeded == priorMarked + priorReview + |missing|
    ensures forall i, j :: |existing.items| <= i < j < |candidate.items| && IsOcr(candidate.items[i]) && IsOcr(candidate.items[j]) ==>
              candidate.items[i].regions != [] && candidate.items[j].regions != []
              && candidate.items[i].regions[0] != candidate.items[j].regions[0]
  {
    hide Accepts, PagesOk, EntriesOk, MissingFrom, ProducersOk, BoxesOk, Referenced, NewEntries, Settled, Gather, UsedPages, CountMatched,
         TotalBytes, FollowUpsBrought, FollowUpPages, Ids;
    TotalWithin(disk, existing.pages);
    var headroom := Headroom(disk, existing.pages);
    var free := headroom.value;
    var rows, byTicket := GatherPages(disk, existing.pages, free, tickets, stages);
    var entries: seq<Entry>;
    entries, marked, reviewNeeded := BuildEntries(missing, byTicket, stages, priorMarked, priorReview);
    entries, marked, reviewNeeded := DowngradeShared(entries, byTicket, marked, reviewNeeded);
    var kept := KeepReferenced(rows, UsedPages(entries));
    candidate := Sidecar(existing.pages + kept, existing.items + entries);
    assert candidate.items[|existing.items|..] == entries;
    NewMarksApart(missing, byTicket, stages);
    CandidateAcceptedExactly(disk, report, existing, tickets, missing, stages);
    accepted := LoadReceipts(disk, report, candidate);
    if Accepts(disk, report, existing) {
      CandidateAccepted(disk, report, existing, tickets, missing, stages);
    }
  }

  lemma NewMarksApart(missing: seq<Missing>, byTicket: map<string, seq<string>>, stages: Stages)
    requires BoxesOk(stages)
    ensures var items := Settled(NewEntries(missing, byTicket, stages), byTicket);
            forall i, j :: 0 <= i < j < |items| && IsOcr(items[i]) && IsOcr(items[j]) ==>
              items[i].regions != [] && items[j].regions != [] && items[i].regions[0] != items[j].regions[0]
  {
    hide BoxesOk;
    var es := NewEntries(missing, byTicket, stages);
    var at := NewEntriesOk(missing, byTicket, stages);
    var items := Settled(es, byTicket);
    forall i, j | 0 <= i < j < |items| && IsOcr(items[i]) && IsOcr(items[j])
      ensures items[i].regions != [] && items[j].regions != [] && items[i].regions[0] != items[j].regions[0]
    {
      SettledOk(es, byTicket, i, missing[at[i]]);
      SettledOk(es, byTicket, j, missing[at[j]]);
      MarksApart(es, byTicket, i, j);
    }
  }
}
