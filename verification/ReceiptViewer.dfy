/** The strict loader of a receipt sidecar: what every producer of one must satisfy. */
module ReceiptViewer {
  import opened Common

  const MAX_PAGE_BYTES := 20 * 1024 * 1024
  const MAX_TOTAL_BYTES := 100 * 1024 * 1024

  /** A page file inside the sidecar directory; `image` says it starts like a PNG or a JPEG. */
  datatype File = File(size: nat, digest: string, image: bool)
  type Disk = map<string, File>

  datatype Box = Box(left: real, top: real, width: real, height: real)
  datatype Region = Region(page: string, box: Option<Box>)
  datatype MatchMethod = AutomaticOcr | AutomaticTicketSource
  datatype PageRow = PageRow(id: string, path: string, digest: string, caption: string)
  datatype Entry = Entry(ticket: string, item: string, fingerprint: string, regions: seq<Region>,
                         matched: Option<MatchMethod>)
  datatype Sidecar = Sidecar(pages: seq<PageRow>, items: seq<Entry>)

  /** The report side: every (ticket, item) with its current fingerprint, and the follow-up pages. */
  datatype ReportItem = ReportItem(ticket: string, item: string, fingerprint: string)
  datatype Report = Report(items: seq<ReportItem>, followUps: seq<string>)

  predicate ValidBox(b: Box) {
    && b.left >= 0.0 && b.top >= 0.0 && b.width > 0.0 && b.height > 0.0
    && b.left + b.width <= 1.0 && b.top + b.height <= 1.0
  }

  function SizeOf(disk: Disk, row: PageRow): nat {
    if row.path in disk then disk[row.path].size else 0
  }

  function TotalBytes(disk: Disk, rows: seq<PageRow>): nat {
    if rows == [] then 0 else TotalBytes(disk, rows[..|rows| - 1]) + SizeOf(disk, rows[|rows| - 1])
  }

  predicate PageHolds(disk: Disk, row: PageRow) {
    && row.id != "" && row.caption != ""
    && row.path in disk && disk[row.path].size <= MAX_PAGE_BYTES
    && disk[row.path].digest == row.digest && disk[row.path].image
  }

  function Ids(rows: seq<PageRow>): set<string> {
    set i | 0 <= i < |rows| :: rows[i].id
  }

  ghost predicate PagesOk(disk: Disk, rows: seq<PageRow>) {
    && (forall i, j :: 0 <= i < j < |rows| ==> rows[i].id != rows[j].id)
    && (forall i :: 0 <= i < |rows| ==> PageHolds(disk, rows[i]))
    && TotalBytes(disk, rows) <= MAX_TOTAL_BYTES
  }

  predicate Known(report: Report, e: Entry) {
    ReportItem(e.ticket, e.item, e.fingerprint) in report.items
  }

  predicate RegionsOk(e: Entry, ids: set<string>) {
    && e.regions != []
    && forall i :: 0 <= i < |e.regions| ==>
         e.regions[i].page in ids && (e.regions[i].box.Some? ==> ValidBox(e.regions[i].box.value))
  }

  ghost predicate EntriesOk(report: Report, items: seq<Entry>, ids: set<string>) {
    && (forall i, j :: 0 <= i < j < |items| ==> (items[i].ticket, items[i].item) != (items[j].ticket, items[j].item))
    && (forall i :: 0 <= i < |items| ==> Known(report, items[i]) && RegionsOk(items[i], ids))
  }

  function RegionPages(e: Entry): set<string> {
    set i | 0 <= i < |e.regions| :: e.regions[i].page
  }

  function UsedPages(items: seq<Entry>): set<string> {
    if items == [] then {} else UsedPages(items[..|items| - 1]) + RegionPages(items[|items| - 1])
  }

  function FollowUpPages(report: Report): set<string> {
    set i | 0 <= i < |report.followUps| :: report.followUps[i]
  }

  /** What `load_receipts` accepts. */
  ghost predicate Accepts(disk: Disk, report: Report, s: Sidecar) {
    && PagesOk(disk, s.pages)
    && EntriesOk(report, s.items, Ids(s.pages))
    && FollowUpPages(report) <= Ids(s.pages)
    && UsedPages(s.items) + FollowUpPages(report) == Ids(s.pages)
  }

  lemma {:induction false} TotalGrows(disk: Disk, rows: seq<PageRow>, i: nat)
    requires i <= |rows|
    ensures TotalBytes(disk, rows[..i]) <= TotalBytes(disk, rows)
    decreases |rows|
  {
    if i == |rows| {
      assert rows[..i] == rows;
    } else {
      assert rows[..|rows| - 1][..i] == rows[..i];
      TotalGrows(disk, rows[..|rows| - 1], i);
    }
  }

  method LoadPages(disk: Disk, rows: seq<PageRow>) returns (ok: bool, ids: set<string>)
    ensures ok == PagesOk(disk, rows)
    ensures ok ==> ids == Ids(rows)
  {
    ids := {};
    var total := 0;
    for i := 0 to |rows|
      invariant ids == Ids(rows[..i]) && total == TotalBytes(disk, rows[..i])
      invariant PagesOk(disk, rows[..i])
    {
      var row := rows[i];
      assert rows[..i + 1][..i] == rows[..i];
      assert rows[..i + 1][i] == row;
      if row.id in ids || !PageHolds(disk, row) {
        return false, ids;
      }
      total := total + disk[row.path].size;
      if total > MAX_TOTAL_BYTES {
        TotalGrows(disk, rows, i + 1);
        return false, ids;
      }
      ids := ids + {row.id};
    }
    assert rows[..|rows|] == rows;
    ok := true;
  }

  method LoadEntries(report: Report, items: seq<Entry>, ids: set<string>) returns (ok: bool, used: set<string>)
    ensures ok == EntriesOk(report, items, ids)
    ensures ok ==> used == UsedPages(items)
  {
    used := {};
    var seen: set<(string, string)> := {};
    for i := 0 to |items|
      invariant seen == set k | 0 <= k < i :: (items[k].ticket, items[k].item)
      invariant used == UsedPages(items[..i])
      invariant EntriesOk(report, items[..i], ids)
    {
      var e := items[i];
      assert items[..i + 1][..i] == items[..i];
      assert items[..i + 1][i] == e;
      if !Known(report, e) || (e.ticket, e.item) in seen || !RegionsOk(e, ids) {
        return false, used;
      }
      seen := seen + {(e.ticket, e.item)};
      used := used + RegionPages(e);
    }
    assert items[..|items|] == items;
    ok := true;
  }

  method LoadReceipts(disk: Disk, report: Report, s: Sidecar) returns (ok: bool)
    ensures ok == Accepts(disk, report, s)
  {
    var ids: set<string>;
    ok, ids := LoadPages(disk, s.pages);
    if !ok {
      return;
    }
    var used: set<string>;
    ok, used := LoadEntries(report, s.items, ids);
    if ok {
      ok := FollowUpPages(report) <= ids && used + FollowUpPages(report) == ids;
    }
  }

  /** Every page file is there and within both caps. */
  predicate WithinCaps(disk: Disk, rows: seq<PageRow>) {
    && (forall i | 0 <= i < |rows| :: rows[i].path in disk && disk[rows[i].path].size <= MAX_PAGE_BYTES)
    && TotalBytes(disk, rows) <= MAX_TOTAL_BYTES
  }

  /** Bytes still free under the total cap; None exactly when a page is missing or a cap is broken. */
  method Headroom(disk: Disk, rows: seq<PageRow>) returns (free: Option<nat>)
    ensures free == if WithinCaps(disk, rows) then Some(MAX_TOTAL_BYTES - TotalBytes(disk, rows)) else None
    ensures PagesOk(disk, rows) ==> free.Some?
  {
    var total := 0;
    for i := 0 to |rows|
      invariant total == TotalBytes(disk, rows[..i])
      invariant WithinCaps(disk, rows[..i])
    {
      assert rows[..i + 1][..i] == rows[..i];
      assert rows[..i + 1][i] == rows[i];
      if rows[i].path !in disk {
        return None;
      }
      total := total + disk[rows[i].path].size;
      if disk[rows[i].path].size > MAX_PAGE_BYTES || total > MAX_TOTAL_BYTES {
        TotalGrows(disk, rows, i + 1);
        return None;
      }
    }
    assert rows[..|rows|] == rows;
    free := Some(MAX_TOTAL_BYTES - total);
  }
}
