/** What any sequence of calls keeps of the asset ledger. */
module AssetHistory {
  import opened Common
  import opened Digits
  import opened AssetFetch
  import opened AssetLedger

  /** The lookup takes the row last seen among those with exactly this URL and accepted bytes; the later row wins a tie. */
  lemma {:induction false} BestRowIsLatest(rows: seq<Row>, url: string)
    ensures var best := BestRow(rows, url);
            forall i :: 0 <= i < |rows| && Matches(rows[i], url) ==>
              best.Some? && !Before(rows[best.value].lastSeen, rows[i].lastSeen) &&
              (rows[i].lastSeen == rows[best.value].lastSeen ==> i <= best.value)
  {
    if rows != [] {
      var front, last := rows[..|rows| - 1], rows[|rows| - 1];
      BestRowIsLatest(front, url);
      var prior, best := BestRow(front, url), BestRow(rows, url);
      forall i | 0 <= i < |rows| && Matches(rows[i], url)
        ensures best.Some? && !Before(rows[best.value].lastSeen, rows[i].lastSeen) &&
                (rows[i].lastSeen == rows[best.value].lastSeen ==> i <= best.value)
      {
        if i < |front| {
          assert front[i] == rows[i];
          if best != prior && Before(last.lastSeen, rows[i].lastSeen) {
            BeforeTotal(last.lastSeen, rows[prior.value].lastSeen);
            if last.lastSeen != rows[prior.value].lastSeen {
              BeforeTransitive(rows[prior.value].lastSeen, last.lastSeen, rows[i].lastSeen);
            }
            assert false;
          }
        } else if best == prior {
          BeforeAsymmetric(last.lastSeen, rows[prior.value].lastSeen);
        } else {
          BeforeIrreflexive(last.lastSeen);
        }
      }
    }
  }

  lemma {:induction false} BeforeIrreflexive(a: string)
    ensures !Before(a, a)
  {
    if a != [] {
      BeforeIrreflexive(a[1..]);
    }
  }

  // ---------- What a note may be ----------

  ghost predicate NoteOk(canon: string -> string, policy: Policy, note: Note) {
    var r := note.result;
    && r.key == canon(r.url)
    && r.outcome != Retryable
    && (if Accepted(r.outcome) then r.asset.Some? && r.media.Some? && r.byteCount >= 1
        else r.asset == None && r.media == None && r.byteCount == 0)
    && note.spent <= policy.maxAttempts
  }

  lemma NoteForIsOk(canon: string -> string, rows: seq<Row>, c: Call, url: string)
    requires RowsLoad(canon, rows) && c.policy.maxAttempts >= 1
    ensures NoteOk(canon, c.policy, NoteFor(canon, rows, c, url))
    ensures NoteFor(canon, rows, c, url).result.url == url
  {
    FetchIsBounded(c.policy, c.web(url), url, 1);
    hide FetchFrom, AttemptOf, BestRow;
    var best := BestRow(rows, url);
    if best.Some? {
      assert ValidRow(canon, rows[best.value]);
    }
  }

  lemma {:induction false} NotesAreOk(canon: string -> string, rows: seq<Row>, c: Call, urls: seq<string>)
    requires RowsLoad(canon, rows) && c.policy.maxAttempts >= 1
    ensures |NotesOf(canon, rows, c, urls)| <= |urls|
    ensures forall note <- NotesOf(canon, rows, c, urls) :: NoteOk(canon, c.policy, note) && note.result.url in urls
  {
    hide NoteFor, RowsLoad, Resolves, NoteOk;
    if urls != [] {
      var front, last := urls[..|urls| - 1], urls[|urls| - 1];
      NotesAreOk(canon, rows, c, front);
      NoteForIsOk(canon, rows, c, last);
      assert urls == front + [last];
    }
  }

  // ---------- One record ----------

  /** The same row, later: its identity and first sighting fixed, its attempts no fewer, its bytes still accepted. */
  ghost predicate Later(a: Row, b: Row) {
    && b.key == a.key && b.asset == a.asset
    && b.firstSeen == a.firstSeen
    && a.attempts <= b.attempts
    && (Accepted(a.outcome) ==> Accepted(b.outcome))
  }

  /** Every row is still there, at its place. */
  ghost predicate Grows(before: seq<Row>, after: seq<Row>) {
    |before| <= |after| && forall i :: 0 <= i < |before| ==> Later(before[i], after[i])
  }

  predicate OfPair(row: Row, key: string, asset: Option<AssetId>) {
    row.key == key && row.asset == asset
  }

  /** The attempts the ledger holds for one (key, asset) pair. */
  function AttemptsAt(rows: seq<Row>, key: string, asset: Option<AssetId>): nat {
    if rows == [] then 0
    else AttemptsAt(rows[..|rows| - 1], key, asset)
         + if OfPair(rows[|rows| - 1], key, asset) then rows[|rows| - 1].attempts else 0
  }

  /** The attempts some notes add to one pair. */
  function SpentOn(notes: seq<Note>, key: string, asset: Option<AssetId>): nat {
    if notes == [] then 0
    else
      var last := notes[|notes| - 1];
      SpentOn(notes[..|notes| - 1], key, asset) + if last.result.key == key && last.result.asset == asset then last.spent else 0
  }

  lemma RecordKeepsLoading(canon: string -> string, policy: Policy, rows: seq<Row>, note: Note, now: string)
    requires RowsLoad(canon, rows) && NoteOk(canon, policy, note) && IsStamp(now)
    ensures RowsLoad(canon, Recorded(rows, note, now))
    ensures Grows(rows, Recorded(rows, note, now))
  {
    hide IsStamp;
    var r := note.result;
    var k := Find(rows, r.key, r.asset);
    var after := Recorded(rows, note, now);
    forall i | 0 <= i < |after| ensures ValidRow(canon, after[i]) {
      if i < |rows| {
        assert ValidRow(canon, rows[i]);
      }
    }
    forall i | 0 <= i < |rows| ensures Later(rows[i], after[i]) {
      assert ValidRow(canon, rows[i]);
    }
  }

  lemma {:induction false} AttemptsElsewhere(rows: seq<Row>, k: nat, row: Row, key: string, asset: Option<AssetId>)
    requires k < |rows| && rows[k].key == row.key && rows[k].asset == row.asset && row.attempts >= rows[k].attempts
    ensures AttemptsAt(rows[k := row], key, asset)
         == AttemptsAt(rows, key, asset) + if OfPair(row, key, asset) then row.attempts - rows[k].attempts else 0
  {
    var changed := rows[k := row];
    var n := |rows| - 1;
    if k == n {
      assert changed[..n] == rows[..n];
    } else {
      AttemptsElsewhere(rows[..n], k, row, key, asset);
      assert changed[..n] == rows[..n][k := row];
    }
  }

  /** Recording adds a note's attempts to the one pair it names and to no other. */
  lemma RecordAddsAttempts(rows: seq<Row>, note: Note, now: string, key: string, asset: Option<AssetId>)
    ensures AttemptsAt(Recorded(rows, note, now), key, asset)
         == AttemptsAt(rows, key, asset)
          + if note.result.key == key && note.result.asset == asset then note.spent else 0
  {
    var r := note.result;
    var k := Find(rows, r.key, r.asset);
    var after := Recorded(rows, note, now);
    if k < |rows| {
      AttemptsElsewhere(rows, k, Updated(rows[k], r, note.spent, now), key, asset);
    } else {
      assert after[..|rows|] == rows;
    }
  }

  lemma GrowsOnward(a: seq<Row>, b: seq<Row>, c: seq<Row>)
    requires Grows(a, b) && Grows(b, c)
    ensures Grows(a, c)
  {
    forall i | 0 <= i < |a| ensures Later(a[i], c[i]) {
      assert Later(a[i], b[i]) && Later(b[i], c[i]);
    }
  }

  lemma GrowsSelf(rows: seq<Row>)
    ensures Grows(rows, rows)
  {
  }

  // ---------- One call ----------

  lemma {:induction false} RecordAllKeepsLoading(canon: string -> string, policy: Policy, rows: seq<Row>, notes: seq<Note>, now: string)
    requires RowsLoad(canon, rows) && IsStamp(now)
    requires forall note <- notes :: NoteOk(canon, policy, note)
    ensures RowsLoad(canon, RecordAll(rows, notes, now))
    ensures Grows(rows, RecordAll(rows, notes, now))
  {
    hide NoteOk, IsStamp, Recorded, RowsLoad;
    if notes != [] {
      var front := notes[..|notes| - 1];
      RecordAllKeepsLoading(canon, policy, rows, front, now);
      RecordKeepsLoading(canon, policy, RecordAll(rows, front, now), notes[|notes| - 1], now);
      GrowsOnward(rows, RecordAll(rows, front, now), RecordAll(rows, notes, now));
    } else {
      GrowsSelf(rows);
    }
  }

  /** The ledger's attempts for a pair are what it held before plus exactly what the call spent on that pair. */
  lemma {:induction false} RecordAllAddsAttempts(rows: seq<Row>, notes: seq<Note>, now: string, key: string, asset: Option<AssetId>)
    ensures AttemptsAt(RecordAll(rows, notes, now), key, asset) == AttemptsAt(rows, key, asset) + SpentOn(notes, key, asset)
  {
    hide Recorded;
    if notes != [] {
      var front := notes[..|notes| - 1];
      RecordAllAddsAttempts(rows, front, now, key, asset);
      RecordAddsAttempts(RecordAll(rows, front, now), notes[|notes| - 1], now, key, asset);
    }
  }

  /** How many of some URLs share a canonical key. */
  function WithKey(canon: string -> string, urls: seq<string>, key: string): nat {
    if urls == [] then 0
    else WithKey(canon, urls[..|urls| - 1], key) + if canon(urls[|urls| - 1]) == key then 1 else 0
  }

  /** A call spends at most `maxAttempts` for each of its distinct URLs under a pair's key. */
  lemma {:induction false} SpentIsBounded(canon: string -> string, rows: seq<Row>, c: Call, urls: seq<string>,
      key: string, asset: Option<AssetId>)
    requires RowsLoad(canon, rows) && c.policy.maxAttempts >= 1
    ensures SpentOn(NotesOf(canon, rows, c, urls), key, asset) <= c.policy.maxAttempts * WithKey(canon, urls, key)
  {
    hide NoteFor, RowsLoad, Resolves;
    if urls != [] {
      var front, last := urls[..|urls| - 1], urls[|urls| - 1];
      SpentIsBounded(canon, rows, c, front, key, asset);
      NoteForIsOk(canon, rows, c, last);
      var notes, rest := NotesOf(canon, rows, c, urls), NotesOf(canon, rows, c, front);
      if Resolves(canon, rows, c, last) {
        assert notes[..|notes| - 1] == rest;
      }
      var w := WithKey(canon, front, key);
      assert c.policy.maxAttempts * (w + 1) == c.policy.maxAttempts * w + c.policy.maxAttempts;
    }
  }

  /** A row whose pair no note of the call names is left exactly as it was; so failures never touch accepted rows. */
  lemma {:induction false} UnnamedRowIsUntouched(rows: seq<Row>, notes: seq<Note>, now: string, i: nat)
    requires i < |rows|
    requires forall note <- notes :: (note.result.key, note.result.asset) != (rows[i].key, rows[i].asset)
    ensures i < |RecordAll(rows, notes, now)| && RecordAll(rows, notes, now)[i] == rows[i]
  {
    if notes != [] {
      UnnamedRowIsUntouched(rows, notes[..|notes| - 1], now, i);
      var prior, last := RecordAll(rows, notes[..|notes| - 1], now), notes[|notes| - 1];
      var k := Find(prior, last.result.key, last.result.asset);
      assert last in notes;
      if k < |prior| {
        assert prior[k].key == last.result.key && prior[k].asset == last.result.asset;
        assert k != i;
      }
    }
  }

  lemma FailuresSpareAcceptedRows(canon: string -> string, policy: Policy, rows: seq<Row>, notes: seq<Note>, now: string, i: nat)
    requires RowsLoad(canon, rows) && i < |rows| && Accepted(rows[i].outcome)
    requires forall note <- notes :: NoteOk(canon, policy, note) && !Accepted(note.result.outcome)
    ensures i < |RecordAll(rows, notes, now)| && RecordAll(rows, notes, now)[i] == rows[i]
  {
    assert ValidRow(canon, rows[i]);
    UnnamedRowIsUntouched(rows, notes, now, i);
  }

  /** A resolved URL is in the ledger after the call, under its pair, seen now. */
  lemma {:induction false} EveryNoteIsRecorded(rows: seq<Row>, notes: seq<Note>, now: string, n: nat)
    requires n < |notes|
    ensures exists row <- RecordAll(rows, notes, now) ::
              OfPair(row, notes[n].result.key, notes[n].result.asset) && row.lastSeen == now
  {
    var last := |notes| - 1;
    var prior, after := RecordAll(rows, notes[..last], now), RecordAll(rows, notes, now);
    var k := Find(prior, notes[last].result.key, notes[last].result.asset);
    if n == last {
      assert after[k].lastSeen == now && OfPair(after[k], notes[n].result.key, notes[n].result.asset);
    } else {
      EveryNoteIsRecorded(rows, notes[..last], now, n);
      assert notes[..last][n] == notes[n];
      var row :| row in prior && OfPair(row, notes[n].result.key, notes[n].result.asset) && row.lastSeen == now;
      var i :| 0 <= i < |prior| && prior[i] == row;
      assert after[i] in after && OfPair(after[i], notes[n].result.key, notes[n].result.asset) && after[i].lastSeen == now;
    }
  }

  // ---------- Any sequence of calls ----------

  function Run(canon: string -> string, stored: Option<Doc>, calls: seq<Call>): Option<Doc> {
    if calls == [] then stored
    else AfterCall(canon, Run(canon, stored, calls[..|calls| - 1]), calls[|calls| - 1])
  }

  /** The most attempts some calls may spend on a key. */
  function Allowance(canon: string -> string, calls: seq<Call>, key: string): nat {
    if calls == [] then 0
    else
      var last := calls[|calls| - 1];
      Allowance(canon, calls[..|calls| - 1], key) + last.policy.maxAttempts * WithKey(canon, Unique(last.urls), key)
  }

  /** The call was made with a policy the stage accepts, at a well-formed time. */
  ghost predicate CallOk(c: Call) {
    c.policy.maxAttempts >= 1 && IsStamp(c.now)
  }

  lemma CallKeepsLedger(canon: string -> string, stored: Option<Doc>, c: Call)
    requires StoreLoads(canon, stored) && CallOk(c)
    ensures StoreLoads(canon, AfterCall(canon, stored, c))
    ensures Grows(RowsIn(stored), RowsIn(AfterCall(canon, stored, c)))
    ensures forall key, asset :: AttemptsAt(RowsIn(AfterCall(canon, stored, c)), key, asset)
              <= AttemptsAt(RowsIn(stored), key, asset) + c.policy.maxAttempts * WithKey(canon, Unique(c.urls), key)
  {
    var rows := RowsIn(stored);
    var urls := Unique(c.urls);
    assert RowsLoad(canon, rows);
    var notes := NotesOf(canon, rows, c, urls);
    NotesAreOk(canon, rows, c, urls);
    RecordAllKeepsLoading(canon, c.policy, rows, notes, c.now);
    hide RowsLoad, NotesOf, RecordAll, Unique, IsStamp, NoteOk;
    forall key, asset
      ensures AttemptsAt(RowsIn(AfterCall(canon, stored, c)), key, asset)
           <= AttemptsAt(rows, key, asset) + c.policy.maxAttempts * WithKey(canon, urls, key)
    {
      RecordAllAddsAttempts(rows, notes, c.now, key, asset);
      SpentIsBounded(canon, rows, c, urls, key, asset);
    }
  }

  /**
   * From an absent or loadable ledger, every sequence of calls leaves one that loads: its pairs unique, every
   * earlier row in place with its first sighting, attempts only growing and within each call's allowance, and
   * accepted rows still accepted.
   */
  lemma {:induction false} LedgerHistory(canon: string -> string, stored: Option<Doc>, calls: seq<Call>)
    requires StoreLoads(canon, stored)
    requires forall c <- calls :: CallOk(c)
    ensures StoreLoads(canon, Run(canon, stored, calls))
    ensures Grows(RowsIn(stored), RowsIn(Run(canon, stored, calls)))
    ensures forall key, asset :: AttemptsAt(RowsIn(Run(canon, stored, calls)), key, asset)
              <= AttemptsAt(RowsIn(stored), key, asset) + Allowance(canon, calls, key)
  {
    hide CallOk, AfterCall, StoreLoads, RowsIn, AttemptsAt, Grows;
    if calls == [] {
      GrowsSelf(RowsIn(stored));
    } else {
      var front, last := calls[..|calls| - 1], calls[|calls| - 1];
      var before := Run(canon, stored, front);
      LedgerHistory(canon, stored, front);
      CallKeepsLedger(canon, before, last);
      GrowsOnward(RowsIn(stored), RowsIn(before), RowsIn(AfterCall(canon, before, last)));
    }
  }
}
