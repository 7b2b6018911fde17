/** The receipt-asset cache: one call resolves its URLs and rewrites the ledger of what happened. */
module AssetLedger {
  import opened Common
  import opened Digits
  import opened AssetFetch

  type AssetId = Sha<Body>

  datatype AssetResult = AssetResult(url: string, key: string, asset: Option<AssetId>, media: Option<Media>,
    byteCount: nat, outcome: Outcome, detail: string)

  datatype Row = Row(url: string, key: string, asset: Option<AssetId>, media: Option<Media>, outcome: Outcome,
    byteCount: nat, attempts: nat, firstSeen: string, lastSeen: string, detail: string)

  /** A ledger document; `others` is the page-outcome and unjoinable lists, carried along as they are. */
  datatype Doc = Doc(updatedAt: string, assets: seq<Row>, others: string)

  type Files = map<(AssetId, Media), Body>

  /** A resolved URL with the network attempts it took. */
  datatype Note = Note(result: AssetResult, spent: nat)

  // ---------- The strict loader ----------

  predicate Accepted(outcome: Outcome) {
    outcome == Fetched || outcome == Cached
  }

  /** `YYYY-MM-DDTHH:MM:SSZ`. */
  predicate IsStamp(s: string) {
    && |s| == 20
    && (forall i | 0 <= i < 20 :: i !in {4, 7, 10, 13, 16, 19} ==> '0' <= s[i] <= '9')
    && s[4] == '-' && s[7] == '-' && s[10] == 'T' && s[13] == ':' && s[16] == ':' && s[19] == 'Z'
  }

  predicate ValidRow(canon: string -> string, row: Row) {
    && row.outcome != Retryable
    && row.key == canon(row.url)
    && IsStamp(row.firstSeen) && IsStamp(row.lastSeen)
    && (if Accepted(row.outcome) then row.asset.Some? && row.media.Some? && row.byteCount >= 1
        else row.asset == None && row.media == None && row.byteCount == 0)
  }

  predicate RowsLoad(canon: string -> string, rows: seq<Row>) {
    && (forall i | 0 <= i < |rows| :: ValidRow(canon, rows[i]))
    && (forall i, j | 0 <= i < j < |rows| :: (rows[i].key, rows[i].asset) != (rows[j].key, rows[j].asset))
  }

  predicate Loads(canon: string -> string, doc: Doc) {
    IsStamp(doc.updatedAt) && RowsLoad(canon, doc.assets)
  }

  // ---------- Recording one result ----------

  function Find(rows: seq<Row>, key: string, asset: Option<AssetId>): (k: nat)
    ensures k <= |rows|
    ensures k < |rows| ==> rows[k].key == key && rows[k].asset == asset
    ensures forall i :: 0 <= i < k ==> (rows[i].key, rows[i].asset) != (key, asset)
  {
    if rows == [] || (rows[0].key == key && rows[0].asset == asset) then 0
    else
      var k := Find(rows[1..], key, asset);
      assert forall i :: 1 <= i < |rows| ==> rows[i] == rows[1..][i - 1];
      k + 1
  }

  function Updated(row: Row, r: AssetResult, spent: nat, now: string): Row {
    row.(url := r.url, asset := r.asset, media := r.media, outcome := r.outcome, byteCount := r.byteCount,
         attempts := row.attempts + spent, lastSeen := now, detail := r.detail)
  }

  function Recorded(rows: seq<Row>, note: Note, now: string): seq<Row> {
    var r := note.result;
    var k := Find(rows, r.key, r.asset);
    if k < |rows| then rows[k := Updated(rows[k], r, note.spent, now)]
    else rows + [Row(r.url, r.key, r.asset, r.media, r.outcome, r.byteCount, note.spent, now, now, r.detail)]
  }

  function RecordAll(rows: seq<Row>, notes: seq<Note>, now: string): seq<Row> {
    if notes == [] then rows
    else Recorded(RecordAll(rows, notes[..|notes| - 1], now), notes[|notes| - 1], now)
  }

  /** The ledger's list of rows while a call holds it in memory. */
  class LedgerRows {
    var rows: seq<Row>

    constructor (rows: seq<Row>)
      ensures this.rows == rows
    {
      this.rows := rows;
    }

    method Record(result: AssetResult, spent: nat, now: string)
      modifies this
      ensures rows == Recorded(old(rows), Note(result, spent), now)
    {
      var i := 0;
      while i < |rows| && !(rows[i].key == result.key && rows[i].asset == result.asset)
        invariant 0 <= i <= |rows|
        invariant forall k :: 0 <= k < i ==> (rows[k].key, rows[k].asset) != (result.key, result.asset)
      {
        i := i + 1;
      }
      if i == |rows| {
        rows := rows + [Row(result.url, result.key, result.asset, result.media, result.outcome, result.byteCount,
                            0, now, now, result.detail)];
      }
      rows := rows[i := Updated(rows[i], result, spent, now)];
    }
  }

  // ---------- The cache lookup ----------

  predicate Matches(row: Row, url: string) {
    row.url == url && Accepted(row.outcome)
  }

  function BestRow(rows: seq<Row>, url: string): (best: Option<nat>)
    ensures best.Some? ==> best.value < |rows| && Matches(rows[best.value], url)
  {
    if rows == [] then None
    else
      var best := BestRow(rows[..|rows| - 1], url);
      var last := rows[|rows| - 1];
      if Matches(last, url) && (best.None? || !Before(last.lastSeen, rows[best.value].lastSeen)) then Some(|rows| - 1)
      else best
  }

  function HitOf(canon: string -> string, rows: seq<Row>, files: Files, url: string): Option<AssetResult>
    requires RowsLoad(canon, rows)
  {
    var best := BestRow(rows, url);
    if best.None? then None
    else
      var row := rows[best.value];
      var place := (row.asset.value, row.media.value);
      if place in files && |files[place]| >= 1
      then Some(AssetResult(url, canon(url), row.asset, row.media, |files[place]|, Cached, ""))
      else None
  }

  method CacheHit(canon: string -> string, rows: seq<Row>, files: Files, url: string) returns (hit: Option<AssetResult>)
    requires RowsLoad(canon, rows)
    ensures hit == HitOf(canon, rows, files, url)
  {
    var best: Option<nat> := None;
    for i := 0 to |rows|
      invariant best == BestRow(rows[..i], url)
    {
      if Matches(rows[i], url) && (best.None? || !Before(rows[i].lastSeen, rows[best.value].lastSeen)) {
        best := Some(i);
      }
      assert rows[..i + 1][..i] == rows[..i];
    }
    assert rows[..|rows|] == rows;
    if best.None? {
      return None;
    }
    var row := rows[best.value];
    var place := (row.asset.value, row.media.value);
    if place in files && |files[place]| >= 1 {
      return Some(AssetResult(url, canon(url), row.asset, row.media, |files[place]|, Cached, ""));
    }
    return None;
  }

  // ---------- One call ----------

  /** What a call is given: the URLs, the rules, the web, and the order in which fetches finish. */
  datatype Call = Call(urls: seq<string>, offline: bool, policy: Policy, web: string -> Site, finished: seq<string>,
    files: Files, now: string, writable: bool)

  datatype Stage = Done(results: seq<AssetResult>) | Malformed | Aborted | Unwritable

  /** The distinct URLs, in the order of their first occurrence. */
  function Unique(urls: seq<string>): (u: seq<string>)
    ensures forall x :: x in u <==> x in urls
    ensures |u| <= |urls|
  {
    if urls == [] then []
    else
      var rest := Unique(urls[..|urls| - 1]);
      var last := urls[|urls| - 1];
      assert urls == urls[..|urls| - 1] + [last];
      if last in rest then rest else rest + [last]
  }

  function FailureOf(url: string, key: string, f: Fetch): AssetResult {
    AssetResult(url, key, None, None, 0, f.outcome, f.detail)
  }

  function FetchedOf(canon: string -> string, url: string, f: Fetch): Note {
    if f.body.None? || f.media.None? then Note(FailureOf(url, canon(url), f), f.attempts)
    else Note(AssetResult(url, canon(url), Some(Sha(f.body.value)), f.media, |f.body.value|, Fetched, ""), f.attempts)
  }

  /** The URL is settled before any socket: a cache hit, offline, or barred by the rules. */
  function Immediate(canon: string -> string, rows: seq<Row>, c: Call, url: string): Option<Note>
    requires RowsLoad(canon, rows)
  {
    var hit := HitOf(canon, rows, c.files, url);
    if hit.Some? then Some(Note(hit.value, 0))
    else if c.offline then Some(Note(FailureOf(url, canon(url), NoBody(Uncached, "not in cache")), 0))
    else match c.policy.prepare(url)
      case Barred(reason) => Some(Note(FailureOf(url, canon(url), NoBody(Refused, reason)), 0))
      case Target(_) => None
  }

  function NoteFor(canon: string -> string, rows: seq<Row>, c: Call, url: string): Note
    requires RowsLoad(canon, rows)
  {
    var now := Immediate(canon, rows, c, url);
    if now.Some? then now.value else FetchedOf(canon, url, FetchFrom(c.policy, c.web(url), url, 1))
  }

  predicate Resolves(canon: string -> string, rows: seq<Row>, c: Call, url: string)
    requires RowsLoad(canon, rows)
  {
    Immediate(canon, rows, c, url).Some? || url in c.finished
  }

  /** The notes of the URLs resolved, in request order. */
  function NotesOf(canon: string -> string, rows: seq<Row>, c: Call, urls: seq<string>): seq<Note>
    requires RowsLoad(canon, rows)
  {
    if urls == [] then []
    else
      var rest := NotesOf(canon, rows, c, urls[..|urls| - 1]);
      var last := urls[|urls| - 1];
      if Resolves(canon, rows, c, last) then rest + [NoteFor(canon, rows, c, last)] else rest
  }

  predicate AllResolve(canon: string -> string, rows: seq<Row>, c: Call)
    requires RowsLoad(canon, rows)
  {
    forall url <- c.urls :: Resolves(canon, rows, c, url)
  }

  function RowsIn(stored: Option<Doc>): seq<Row> {
    if stored.None? then [] else stored.value.assets
  }

  function OthersIn(stored: Option<Doc>): string {
    if stored.None? then "" else stored.value.others
  }

  /** The stored document loads; an absent one is an empty ledger. */
  predicate StoreLoads(canon: string -> string, stored: Option<Doc>) {
    stored.None? || Loads(canon, stored.value)
  }

  /** The ledger on disk after one call. */
  function AfterCall(canon: string -> string, stored: Option<Doc>, c: Call): Option<Doc> {
    if c.urls == [] || !StoreLoads(canon, stored) || !c.writable then stored
    else
      var notes := NotesOf(canon, RowsIn(stored), c, Unique(c.urls));
      Some(Doc(c.now, RecordAll(RowsIn(stored), notes, c.now), OthersIn(stored)))
  }

  /** The cache directory: the ledger file and the stored bodies. */
  class AssetStore {
    var ledger: Option<Doc>
    var files: Files

    /** Stores accepted bytes under their digest; an intact copy is left alone. */
    method Publish(body: Body, media: Media) returns (asset: AssetId)
      modifies this`files
      ensures asset == Sha(body)
      ensures files == old(files)[(asset, media) := body]
    {
      asset := Sha(body);
      if !((asset, media) in files && files[(asset, media)] == body) {
        files := files[(asset, media) := body];
      }
    }

    /** Fetches the pending URLs in the order they finish, publishing each body as it arrives. */
    method FetchPending(canon: string -> string, c: Call, pending: seq<string>, settled: map<string, Note>)
        returns (resolved: map<string, Note>)
      requires settled.Keys !! set u | u in pending
      modifies this`files
      ensures resolved.Keys == settled.Keys + set u | u in pending && u in c.finished
      ensures forall u <- settled.Keys :: resolved[u] == settled[u]
      ensures forall u <- pending :: u in c.finished ==>
                resolved[u] == FetchedOf(canon, u, FetchFrom(c.policy, c.web(u), u, 1))
    {
      resolved := settled;
      for i := 0 to |c.finished|
        invariant resolved.Keys == settled.Keys + set u | u in pending && u in c.finished[..i]
        invariant forall u <- settled.Keys :: resolved[u] == settled[u]
        invariant forall u <- pending :: u in c.finished[..i] ==>
                    resolved[u] == FetchedOf(canon, u, FetchFrom(c.policy, c.web(u), u, 1))
      {
        var url := c.finished[i];
        assert c.finished[..i + 1] == c.finished[..i] + [url];
        if url in pending {
          var fetch := FetchOne(c.policy, c.web(url), url);
          var key := canon(url);
          if fetch.body.None? || fetch.media.None? {
            resolved := resolved[url := Note(FailureOf(url, key, fetch), fetch.attempts)];
          } else {
            var asset := Publish(fetch.body.value, fetch.media.value);
            resolved := resolved[url := Note(AssetResult(url, key, Some(asset), fetch.media, |fetch.body.value|, Fetched, ""),
                                             fetch.attempts)];
          }
        }
      }
      assert c.finished[..|c.finished|] == c.finished;
    }

    /** Resolves the distinct URLs: the cache and the rules first, then the network. */
    method Resolve(canon: string -> string, rows: seq<Row>, c: Call, unique: seq<string>) returns (resolved: map<string, Note>)
      requires RowsLoad(canon, rows)
      modifies this`files
      ensures forall u <- unique :: (u in resolved) == Resolves(canon, rows, c, u)
      ensures forall u <- unique :: u in resolved ==> resolved[u] == NoteFor(canon, rows, c, u)
    {
      hide RowsLoad, FetchFrom, FetchedOf, Immediate;
      var settled, pending := Settle(canon, rows, c, unique);
      resolved := FetchPending(canon, c, pending, settled);
    }

    method FetchAssets(canon: string -> string, c: Call) returns (stage: Stage)
      requires files == c.files
      modifies this
      ensures ledger == AfterCall(canon, old(ledger), c)
      ensures c.urls == [] ==> stage == Done([])
      ensures c.urls != [] && !StoreLoads(canon, old(ledger)) ==> stage == Malformed
      ensures c.urls != [] && StoreLoads(canon, old(ledger)) ==>
                var rows := RowsIn(old(ledger));
                stage == if !AllResolve(canon, rows, c) then Aborted
                         else if !c.writable then Unwritable
                         else Done(seq(|c.urls|, i requires 0 <= i < |c.urls| => NoteFor(canon, rows, c, c.urls[i]).result))
    {
      hide Unique, NotesOf, RecordAll, FetchFrom, FetchedOf, Immediate, Resolves, NoteFor;
      if c.urls == [] {
        return Done([]);
      }
      if !StoreLoads(canon, ledger) {
        return Malformed;
      }
      var unique := DistinctInOrder(c.urls);
      var rows := RowsIn(ledger);
      assert RowsLoad(canon, rows);
      hide RowsLoad;
      var resolved := Resolve(canon, rows, c, unique);
      var recorded := RecordResolved(canon, rows, c, unique, resolved);
      if c.writable {
        ledger := Some(Doc(c.now, recorded, OthersIn(ledger)));
      }
      if exists u <- unique :: u !in resolved {
        return Aborted;
      }
      if !c.writable {
        return Unwritable;
      }
      stage := Done(seq(|c.urls|, i requires 0 <= i < |c.urls| => resolved[c.urls[i]].result));
    }
  }

  /** Records every URL resolved so far, in request order. */
  method RecordResolved(canon: string -> string, rows: seq<Row>, c: Call, unique: seq<string>, resolved: map<string, Note>)
      returns (recorded: seq<Row>)
    requires RowsLoad(canon, rows)
    requires forall u <- unique :: (u in resolved) == Resolves(canon, rows, c, u)
    requires forall u <- unique :: u in resolved ==> resolved[u] == NoteFor(canon, rows, c, u)
    ensures recorded == RecordAll(rows, NotesOf(canon, rows, c, unique), c.now)
  {
    hide NoteFor, Resolves, RowsLoad, Recorded;
    var table := new LedgerRows(rows);
    for i := 0 to |unique|
      invariant fresh(table)
      invariant table.rows == RecordAll(rows, NotesOf(canon, rows, c, unique[..i]), c.now)
    {
      assert unique[..i + 1][..i] == unique[..i];
      if unique[i] in resolved {
        table.Record(resolved[unique[i]].result, resolved[unique[i]].spent, c.now);
      }
    }
    assert unique[..|unique|] == unique;
    recorded := table.rows;
  }

  method DistinctInOrder(urls: seq<string>) returns (unique: seq<string>)
    ensures unique == Unique(urls)
  {
    unique := [];
    for i := 0 to |urls|
      invariant unique == Unique(urls[..i])
    {
      assert urls[..i + 1][..i] == urls[..i];
      if urls[i] !in unique {
        unique := unique + [urls[i]];
      }
    }
    assert urls[..|urls|] == urls;
  }

  /** The first pass over the distinct URLs: what is settled at once, and what is left to fetch. */
  method Settle(canon: string -> string, rows: seq<Row>, c: Call, unique: seq<string>)
      returns (settled: map<string, Note>, pending: seq<string>)
    requires RowsLoad(canon, rows)
    ensures settled.Keys == set u | u in unique && Immediate(canon, rows, c, u).Some?
    ensures forall u <- settled.Keys :: settled[u] == Immediate(canon, rows, c, u).value
    ensures forall u :: u in pending <==> u in unique && Immediate(canon, rows, c, u).None?
  {
    settled, pending := map[], [];
    for i := 0 to |unique|
      invariant settled.Keys == set u | u in unique[..i] && Immediate(canon, rows, c, u).Some?
      invariant forall u <- settled.Keys :: settled[u] == Immediate(canon, rows, c, u).value
      invariant forall u :: u in pending <==> u in unique[..i] && Immediate(canon, rows, c, u).None?
    {
      var url := unique[i];
      assert unique[..i + 1] == unique[..i] + [url];
      var hit := CacheHit(canon, rows, c.files, url);
      if hit.Some? {
        settled := settled[url := Note(hit.value, 0)];
      } else if c.offline {
        settled := settled[url := Note(FailureOf(url, canon(url), NoBody(Uncached, "not in cache")), 0)];
      } else {
        match c.policy.prepare(url) {
          case Barred(reason) =>
            settled := settled[url := Note(FailureOf(url, canon(url), NoBody(Refused, reason)), 0)];
          case Target(_) =>
            pending := pending + [url];
        }
      }
    }
    assert unique[..|unique|] == unique;
  }
}
