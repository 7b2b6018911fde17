/** What normalisation does to every row, and when the ids it mints are fresh. */
module NormalizeLaws {
  import opened Common
  import opened Ids
  import opened Normalize

  /** The largest sequence the ledger already holds for a fiscal year, 0 for none. */
  function Top(reader: Reader, start: Month, rows: seq<Row>, fy: nat): nat {
    At(Seeded(reader, start, rows), fy)
  }

  predicate SeedsTop(reader: Reader, start: Month, rows: seq<Row>, row: Row, fy: nat) {
    var seed := SeedOf(reader, start, row);
    seed.Some? && YearOf(reader, start, row) == fy && seed.value == Top(reader, start, rows, fy)
  }

  lemma {:induction false} SeedsAreMaxima(reader: Reader, start: Month, rows: seq<Row>, fy: nat)
    ensures forall i :: 0 <= i < |rows| && SeedOf(reader, start, rows[i]).Some? && YearOf(reader, start, rows[i]) == fy ==>
              SeedOf(reader, start, rows[i]).value <= Top(reader, start, rows, fy)
    ensures Top(reader, start, rows, fy) != 0 ==>
              exists i :: 0 <= i < |rows| && SeedsTop(reader, start, rows, rows[i], fy)
  {
    hide IdOf, SeqOf, FiscalYear;
    if rows != [] {
      var front, last := rows[..|rows| - 1], rows[|rows| - 1];
      SeedsAreMaxima(reader, start, front, fy);
      assert forall i :: 0 <= i < |front| ==> front[i] == rows[i];
      if Top(reader, start, rows, fy) != Top(reader, start, front, fy) {
        assert SeedsTop(reader, start, rows, last, fy);
      } else if Top(reader, start, front, fy) != 0 {
        var i :| 0 <= i < |front| && SeedsTop(reader, start, front, front[i], fy);
        assert SeedsTop(reader, start, rows, rows[i], fy);
      }
    }
  }

  predicate Idless(reader: Reader, row: Row) {
    WellFormed(reader, row) && IdOf(row) == ""
  }

  /** How many rows of a fiscal year wait for an id. */
  function Waiting(reader: Reader, start: Month, rows: seq<Row>, fy: nat): nat {
    if rows == [] then 0
    else
      var last := rows[|rows| - 1];
      Waiting(reader, start, rows[..|rows| - 1], fy) + if Idless(reader, last) && YearOf(reader, start, last) == fy then 1 else 0
  }

  /** An earlier well-formed row has the same natural key. */
  predicate Repeats(reader: Reader, rows: seq<Row>, i: nat)
    requires i < |rows|
  {
    WellFormed(reader, rows[i]) &&
    exists j | 0 <= j < i :: WellFormed(reader, rows[j]) && KeyOf(reader, rows[j]) == KeyOf(reader, rows[i])
  }

  /** The id a row without one is due: after the year's largest, in row order. */
  function DueId(reader: Reader, start: Month, rows: seq<Row>, i: nat): string
    requires i < |rows| && WellFormed(reader, rows[i])
  {
    var fy := YearOf(reader, start, rows[i]);
    TxnId(fy, Top(reader, start, rows, fy) + Waiting(reader, start, rows[..i], fy) + 1)
  }

  /** What normalisation owes row i, said without reference to the passes. */
  function Expected(reader: Reader, start: Month, rows: seq<Row>, i: nat): Row
    requires i < |rows|
  {
    if !WellFormed(reader, rows[i]) then Flagged(rows[i])
    else
      var named := if IdOf(rows[i]) == "" then rows[i]["id" := DueId(reader, start, rows, i)] else rows[i];
      if Repeats(reader, rows, i) then Flagged(named) else named
  }

  // ---------- Counting ----------

  datatype Fate = Broken | Sound(idless: bool, repeat: bool)

  function FateOf(reader: Reader, rows: seq<Row>, i: nat): Fate
    requires i < |rows|
  {
    if WellFormed(reader, rows[i]) then Sound(IdOf(rows[i]) == "", Repeats(reader, rows, i)) else Broken
  }

  predicate IsBroken(f: Fate) { f.Broken? }
  predicate GotId(f: Fate) { f.Sound? && f.idless }
  predicate IsRepeat(f: Fate) { f.Sound? && f.repeat }
  predicate Kept(f: Fate) { f.Sound? && !f.idless && !f.repeat }
  predicate Touched(f: Fate) { GotId(f) || IsRepeat(f) }

  /** How many of the first `n` rows meet a fate. */
  function Tally(reader: Reader, rows: seq<Row>, n: nat, want: Fate -> bool): nat
    requires n <= |rows|
  {
    if n == 0 then 0 else Tally(reader, rows, n - 1, want) + if want(FateOf(reader, rows, n - 1)) then 1 else 0
  }

  // ---------- The passes compute the reference ----------

  lemma {:induction false} PassNumbers(reader: Reader, start: Month, seeds: map<nat, nat>, rows: seq<Row>, fy: nat)
    ensures At(Pass(reader, start, seeds, rows).next, fy) == At(seeds, fy) + Waiting(reader, start, rows, fy)
  {
    hide IdOf, FiscalYear, TxnId, DateOf, CentsOf, WellFormed;
    if rows != [] {
      PassNumbers(reader, start, seeds, rows[..|rows| - 1], fy);
    }
  }

  lemma {:induction false} PassSees(reader: Reader, start: Month, seeds: map<nat, nat>, rows: seq<Row>, key: Key)
    ensures key in Pass(reader, start, seeds, rows).seen
       <==> exists j :: 0 <= j < |rows| && WellFormed(reader, rows[j]) && KeyOf(reader, rows[j]) == key
  {
    hide IdOf, FiscalYear, TxnId, DateOf, CentsOf, WellFormed;
    if rows != [] {
      var front, last := rows[..|rows| - 1], rows[|rows| - 1];
      PassSees(reader, start, seeds, front, key);
      if j :| 0 <= j < |front| && WellFormed(reader, front[j]) && KeyOf(reader, front[j]) == key {
        assert rows[j] == front[j];
      }
      if j :| 0 <= j < |rows| && WellFormed(reader, rows[j]) && KeyOf(reader, rows[j]) == key {
        if j < |front| {
          assert front[j] == rows[j];
        }
      }
    }
  }

  /** Row i comes out as this. */
  predicate ComesOutAs(reader: Reader, start: Month, rows: seq<Row>, i: nat, out: Row)
    requires i < |rows|
  {
    out == Expected(reader, start, rows, i)
  }

  /** A result that says of the first n rows what the reference says. */
  ghost predicate Says(reader: Reader, start: Month, rows: seq<Row>, n: nat, r: Result)
    requires n <= |rows|
  {
    && |r.rows| == n && (forall i :: 0 <= i < n ==> ComesOutAs(reader, start, rows, i, r.rows[i]))
    && r.malformed == Tally(reader, rows, n, IsBroken) && r.minted == Tally(reader, rows, n, GotId)
    && r.duplicates == Tally(reader, rows, n, IsRepeat) && r.untouched == Tally(reader, rows, n, Kept)
  }

  function PassResult(reader: Reader, start: Month, rows: seq<Row>, n: nat): Result
    requires n <= |rows|
  {
    Pass(reader, start, Seeded(reader, start, rows), rows[..n]).result
  }

  lemma {:induction false} PassRows(reader: Reader, start: Month, rows: seq<Row>, n: nat)
    requires n <= |rows|
    ensures Says(reader, start, rows, n, PassResult(reader, start, rows, n))
  {
    hide Says, PassResult, Booked, Expected, FateOf;
    if n == 0 {
      NothingPassed(reader, start, rows);
    } else {
      PassRows(reader, start, rows, n - 1);
      PassBooks(reader, start, rows, n);
      BookedSays(reader, start, rows, n, PassResult(reader, start, rows, n - 1));
    }
  }

  lemma NothingPassed(reader: Reader, start: Month, rows: seq<Row>)
    ensures Says(reader, start, rows, 0, PassResult(reader, start, rows, 0))
  {
    hide Seeded, Expected, FateOf, ComesOutAs;
    assert rows[..0] == [];
  }

  /** A result with one more row, counted by its fate. */
  function Booked(r: Result, out: Row, f: Fate): Result {
    Result(r.rows + [out], r.minted + (if GotId(f) then 1 else 0), r.duplicates + (if IsRepeat(f) then 1 else 0),
      r.malformed + (if IsBroken(f) then 1 else 0), r.untouched + (if Kept(f) then 1 else 0))
  }

  lemma StepBooks(reader: Reader, start: Month, rows: seq<Row>, i: nat)
    requires i < |rows|
    ensures var st := Pass(reader, start, Seeded(reader, start, rows), rows[..i]);
            Step(reader, start, st, rows[i]).result == Booked(st.result, Expected(reader, start, rows, i), FateOf(reader, rows, i))
  {
    PassAt(reader, start, rows, i);
    hide IdOf, FiscalYear, TxnId, DateOf, CentsOf, WellFormed, KeyOf, YearOf, Seeded, Waiting, Repeats, Flagged, At, Top, Pass;
  }

  lemma TallyNext(reader: Reader, rows: seq<Row>, n: nat, want: Fate -> bool)
    requires 0 < n <= |rows|
    ensures Tally(reader, rows, n, want) == Tally(reader, rows, n - 1, want) + if want(FateOf(reader, rows, n - 1)) then 1 else 0
  {
  }

  lemma PassBooks(reader: Reader, start: Month, rows: seq<Row>, n: nat)
    requires 0 < n <= |rows|
    ensures PassResult(reader, start, rows, n)
         == Booked(PassResult(reader, start, rows, n - 1), Expected(reader, start, rows, n - 1), FateOf(reader, rows, n - 1))
  {
    StepBooks(reader, start, rows, n - 1);
    PassNext(reader, start, Seeded(reader, start, rows), rows, n);
    hide Pass, Step, Expected, FateOf, Seeded, Booked;
  }

  lemma BookedSays(reader: Reader, start: Month, rows: seq<Row>, n: nat, r: Result)
    requires 0 < n <= |rows| && Says(reader, start, rows, n - 1, r)
    ensures Says(reader, start, rows, n, Booked(r, Expected(reader, start, rows, n - 1), FateOf(reader, rows, n - 1)))
  {
    TallyNext(reader, rows, n, IsBroken);
    TallyNext(reader, rows, n, GotId);
    TallyNext(reader, rows, n, IsRepeat);
    TallyNext(reader, rows, n, Kept);
    assert ComesOutAs(reader, start, rows, n - 1, Expected(reader, start, rows, n - 1));
    hide Expected, FateOf, Tally, ComesOutAs;
  }

  /** What the passes know when they come to row `i`: the id it is due and whether its key was seen. */
  lemma PassAt(reader: Reader, start: Month, rows: seq<Row>, i: nat)
    requires i < |rows|
    ensures WellFormed(reader, rows[i]) ==>
              var st := Pass(reader, start, Seeded(reader, start, rows), rows[..i]);
              && (KeyOf(reader, rows[i]) in st.seen <==> Repeats(reader, rows, i))
              && TxnId(YearOf(reader, start, rows[i]), At(st.next, YearOf(reader, start, rows[i])) + 1) == DueId(reader, start, rows, i)
  {
    hide IdOf, FiscalYear, TxnId, DateOf, CentsOf, Pass, Seeded, Waiting, Repeats;
    if WellFormed(reader, rows[i]) {
      var seeds := Seeded(reader, start, rows);
      PassNumbers(reader, start, seeds, rows[..i], YearOf(reader, start, rows[i]));
      PassSees(reader, start, seeds, rows[..i], KeyOf(reader, rows[i]));
      RepeatsBySlice(reader, rows, i);
    }
  }

  lemma RepeatsBySlice(reader: Reader, rows: seq<Row>, i: nat)
    requires i < |rows| && WellFormed(reader, rows[i])
    ensures Repeats(reader, rows, i)
       <==> exists j :: 0 <= j < |rows[..i]| && WellFormed(reader, rows[..i][j]) && KeyOf(reader, rows[..i][j]) == KeyOf(reader, rows[i])
  {
    hide WellFormed, KeyOf;
    if j :| 0 <= j < i && WellFormed(reader, rows[j]) && KeyOf(reader, rows[j]) == KeyOf(reader, rows[i]) {
      assert rows[..i][j] == rows[j];
    }
  }

  lemma {:induction false} TallyPartition(reader: Reader, rows: seq<Row>, n: nat)
    requires n <= |rows|
    ensures Tally(reader, rows, n, IsBroken) + Tally(reader, rows, n, Kept) + Tally(reader, rows, n, Touched) == n
    ensures Tally(reader, rows, n, Touched) <= Tally(reader, rows, n, GotId) + Tally(reader, rows, n, IsRepeat)
  {
    hide FateOf;
    if n > 0 {
      TallyPartition(reader, rows, n - 1);
    }
  }

  /**
   * Every row comes out at its place as the reference says; the counters count what they are named for; and
   * malformed, unchanged and (given an id or flagged as a repeat) add up to the row count.
   */
  lemma NormalizeIsExact(reader: Reader, start: Month, rows: seq<Row>)
    ensures var r := Normalized(reader, start, rows);
            && |r.rows| == |rows|
            && (forall i :: 0 <= i < |rows| ==> r.rows[i] == Expected(reader, start, rows, i))
            && r.minted == Tally(reader, rows, |rows|, GotId)
            && r.duplicates == Tally(reader, rows, |rows|, IsRepeat)
            && r.malformed + r.untouched + Tally(reader, rows, |rows|, Touched) == |rows|
  {
    PassRows(reader, start, rows, |rows|);
    TallyPartition(reader, rows, |rows|);
    assert rows[..|rows|] == rows;
  }

  // ---------- Idempotence ----------

  /** Normalising touches no cell a row is read by; a well-formed row comes out with an id. */
  lemma ExpectedReads(reader: Reader, start: Month, rows: seq<Row>, i: nat)
    requires i < |rows|
    ensures var e := Expected(reader, start, rows, i);
            && DateOf(reader, e) == DateOf(reader, rows[i]) && CentsOf(reader, e) == CentsOf(reader, rows[i])
            && Cell(e, "payee") == Cell(rows[i], "payee")
            && (WellFormed(reader, rows[i]) ==> IdOf(e) != "")
            && (IdOf(rows[i]) != "" ==> Cell(e, "id") == Cell(rows[i], "id"))
            && (Idless(reader, rows[i]) ==> IdOf(e) == DueId(reader, start, rows, i))
            && (IdOf(rows[i]) == "" && !WellFormed(reader, rows[i]) ==> IdOf(e) == "")
  {
    hide FiscalYear, TxnId, ParseId, Strip, Top, Waiting, Repeats;
    if WellFormed(reader, rows[i]) {
      var fy := YearOf(reader, start, rows[i]);
      TxnIdRoundTrip(fy, Top(reader, start, rows, fy) + Waiting(reader, start, rows[..i], fy) + 1);
    }
  }

  /** A row as it comes out reads as the row that went in, and has an id if it is well formed. */
  ghost predicate ReadsAlike(reader: Reader, row: Row, out: Row) {
    && WellFormed(reader, out) == WellFormed(reader, row)
    && (WellFormed(reader, row) ==> KeyOf(reader, out) == KeyOf(reader, row) && IdOf(out) != "")
  }

  lemma OutReadsAlike(reader: Reader, start: Month, rows: seq<Row>, i: nat)
    requires i < |rows|
    ensures ReadsAlike(reader, rows[i], Expected(reader, start, rows, i))
  {
    ExpectedReads(reader, start, rows, i);
    hide Expected, IdOf, Idless, DueId;
  }

  /** What a row comes out as comes out of a second run as it is. */
  lemma ComesOutAgain(reader: Reader, start: Month, rows: seq<Row>, out: seq<Row>, i: nat)
    requires |out| == |rows| && i < |rows| && out[i] == Expected(reader, start, rows, i)
    requires forall k :: 0 <= k < |rows| ==> ReadsAlike(reader, rows[k], out[k])
    ensures Expected(reader, start, out, i) == out[i]
  {
    RepeatsAlike(reader, rows, out, i);
    FlaggedTwice(rows[i]);
    assert ReadsAlike(reader, rows[i], out[i]);
    hide WellFormed, KeyOf, IdOf, Repeats, DueId, Flagged;
  }

  /** A second run changes nothing, mints nothing, and flags the same rows. */
  lemma NormalizeIdempotent(reader: Reader, start: Month, rows: seq<Row>)
    ensures var r := Normalized(reader, start, rows);
            var again := Normalized(reader, start, r.rows);
            again.rows == r.rows && again.minted == 0
  {
    var out := Normalized(reader, start, rows).rows;
    NormalizeIsExact(reader, start, rows);
    NormalizeIsExact(reader, start, out);
    hide Normalized, Expected, WellFormed, KeyOf, IdOf, Tally;
    forall i | 0 <= i < |rows| ensures ReadsAlike(reader, rows[i], out[i]) {
      OutReadsAlike(reader, start, rows, i);
    }
    forall i | 0 <= i < |rows| ensures Expected(reader, start, out, i) == out[i] {
      ComesOutAgain(reader, start, rows, out, i);
    }
    NothingWaits(reader, out, |out|);
  }

  lemma FlaggedTwice(row: Row)
    ensures forall r: Row :: Flagged(Flagged(r)) == Flagged(r)
  {
  }

  lemma RepeatsAlike(reader: Reader, rows: seq<Row>, out: seq<Row>, i: nat)
    requires |out| == |rows| && i < |rows|
    requires forall k :: 0 <= k < |rows| ==> WellFormed(reader, out[k]) == WellFormed(reader, rows[k])
    requires forall k :: 0 <= k < |rows| && WellFormed(reader, rows[k]) ==> KeyOf(reader, out[k]) == KeyOf(reader, rows[k])
    ensures Repeats(reader, out, i) == Repeats(reader, rows, i)
  {
    hide WellFormed, KeyOf;
  }

  lemma {:induction false} NothingWaits(reader: Reader, rows: seq<Row>, n: nat)
    requires n <= |rows|
    requires forall i :: 0 <= i < |rows| && WellFormed(reader, rows[i]) ==> IdOf(rows[i]) != ""
    ensures Tally(reader, rows, n, GotId) == 0
  {
    hide WellFormed, IdOf;
    if n > 0 {
      NothingWaits(reader, rows, n - 1);
    }
  }

  // ---------- Freshness ----------

  /** The sequence `k` is one this run mints for the fiscal year. */
  predicate Mints(reader: Reader, start: Month, rows: seq<Row>, fy: nat, k: nat) {
    Top(reader, start, rows, fy) < k <= Top(reader, start, rows, fy) + Waiting(reader, start, rows, fy)
  }

  lemma {:induction false} WaitingGrows(reader: Reader, start: Month, rows: seq<Row>, i: nat, j: nat, fy: nat)
    requires i <= j <= |rows|
    ensures Waiting(reader, start, rows[..i], fy) <= Waiting(reader, start, rows[..j], fy)
    ensures i < j && Idless(reader, rows[i]) && YearOf(reader, start, rows[i]) == fy ==>
              Waiting(reader, start, rows[..i], fy) < Waiting(reader, start, rows[..j], fy)
    decreases j
  {
    hide Idless, FiscalYear;
    if i < j {
      WaitingGrows(reader, start, rows, i, j - 1, fy);
      assert rows[..j][..j - 1] == rows[..j - 1];
    }
  }

  /** Every sequence in the range goes to some row. */
  lemma {:induction false} MintReached(reader: Reader, start: Month, rows: seq<Row>, n: nat, fy: nat, w: nat) returns (i: nat)
    requires n <= |rows| && w < Waiting(reader, start, rows[..n], fy)
    ensures i < n && Idless(reader, rows[i]) && YearOf(reader, start, rows[i]) == fy
    ensures Waiting(reader, start, rows[..i], fy) == w
  {
    hide Idless, FiscalYear;
    assert rows[..n][..n - 1] == rows[..n - 1];
    if w < Waiting(reader, start, rows[..n - 1], fy) {
      i := MintReached(reader, start, rows, n - 1, fy, w);
    } else {
      i := n - 1;
    }
  }

  lemma DueIdIsMinted(reader: Reader, start: Month, rows: seq<Row>, i: nat)
    requires i < |rows| && Idless(reader, rows[i])
    ensures var fy := YearOf(reader, start, rows[i]);
            Mints(reader, start, rows, fy, Top(reader, start, rows, fy) + Waiting(reader, start, rows[..i], fy) + 1)
  {
    WaitingGrows(reader, start, rows, i, |rows|, YearOf(reader, start, rows[i]));
    assert rows[..|rows|] == rows;
  }

  /** Every minted id differs from the id of every other row. */
  ghost predicate MintsFresh(reader: Reader, start: Month, rows: seq<Row>) {
    var out := Normalized(reader, start, rows).rows;
    forall i, j :: 0 <= i < |rows| && 0 <= j < |rows| && i != j && |out| == |rows| && Idless(reader, rows[i]) ==>
      IdOf(out[i]) != IdOf(out[j])
  }

  /** No id already in the ledger, and no other fiscal year with the same two digits, is in the way of the range. */
  ghost predicate RoomFor(reader: Reader, start: Month, rows: seq<Row>) {
    && (forall j, fy, k :: 0 <= j < |rows| && IdOf(rows[j]) != "" && Mints(reader, start, rows, fy, k) ==> IdOf(rows[j]) != TxnId(fy, k))
    && (forall fy, fy', k :: Mints(reader, start, rows, fy, k) && Mints(reader, start, rows, fy', k) && fy % 100 == fy' % 100 ==> fy == fy')
  }

  lemma OutIds(reader: Reader, start: Month, rows: seq<Row>)
    ensures var out := Normalized(reader, start, rows).rows;
            |out| == |rows| && forall i :: 0 <= i < |rows| ==>
              && (IdOf(rows[i]) != "" ==> IdOf(out[i]) == IdOf(rows[i]))
              && (Idless(reader, rows[i]) ==> IdOf(out[i]) == DueId(reader, start, rows, i))
              && (IdOf(rows[i]) == "" && !WellFormed(reader, rows[i]) ==> IdOf(out[i]) == "")
  {
    var out := Normalized(reader, start, rows).rows;
    NormalizeIsExact(reader, start, rows);
    forall i | 0 <= i < |rows|
      ensures IdOf(rows[i]) != "" ==> IdOf(out[i]) == IdOf(rows[i])
      ensures Idless(reader, rows[i]) ==> IdOf(out[i]) == DueId(reader, start, rows, i)
      ensures IdOf(rows[i]) == "" && !WellFormed(reader, rows[i]) ==> IdOf(out[i]) == ""
    {
      ExpectedReads(reader, start, rows, i);
      hide Strip, FiscalYear, TxnId, Repeats, DueId;
    }
  }

  lemma RoomMakesFresh(reader: Reader, start: Month, rows: seq<Row>, i: nat, j: nat)
    requires RoomFor(reader, start, rows)
    requires i < |rows| && j < |rows| && i != j && Idless(reader, rows[i])
    ensures var out := Normalized(reader, start, rows).rows; |out| == |rows| && IdOf(out[i]) != IdOf(out[j])
  {
    hide IdOf, Normalized, TxnId, ParseId, Strip, FiscalYear, Top, Waiting;
    OutIds(reader, start, rows);
    var fy := YearOf(reader, start, rows[i]);
    var k := Top(reader, start, rows, fy) + Waiting(reader, start, rows[..i], fy) + 1;
    DueIdIsMinted(reader, start, rows, i);
    TxnIdRoundTrip(fy, k);
    if Idless(reader, rows[j]) {
      var fy' := YearOf(reader, start, rows[j]);
      var k' := Top(reader, start, rows, fy') + Waiting(reader, start, rows[..j], fy') + 1;
      DueIdIsMinted(reader, start, rows, j);
      TxnIdInjective(fy, k, fy', k');
      if fy == fy' {
        WaitingGrows(reader, start, rows, if i < j then i else j, if i < j then j else i, fy);
      }
    }
  }

  /** The row that gets sequence `k` of a fiscal year. */
  lemma HolderOf(reader: Reader, start: Month, rows: seq<Row>, fy: nat, k: nat) returns (i: nat)
    requires Mints(reader, start, rows, fy, k)
    ensures i < |rows| && Idless(reader, rows[i]) && YearOf(reader, start, rows[i]) == fy
    ensures DueId(reader, start, rows, i) == TxnId(fy, k)
  {
    assert rows[..|rows|] == rows;
    i := MintReached(reader, start, rows, |rows|, fy, k - Top(reader, start, rows, fy) - 1);
  }

  lemma FreshNeedsRoom(reader: Reader, start: Month, rows: seq<Row>)
    requires MintsFresh(reader, start, rows)
    ensures RoomFor(reader, start, rows)
  {
    OutIds(reader, start, rows);
    hide WellFormed, IdOf, TxnId, Top, Waiting, Normalized, FiscalYear, Mints;
    forall j, fy, k | 0 <= j < |rows| && IdOf(rows[j]) != "" && Mints(reader, start, rows, fy, k)
      ensures IdOf(rows[j]) != TxnId(fy, k)
    {
      var i := HolderOf(reader, start, rows, fy, k);
    }
    forall fy, fy', k | Mints(reader, start, rows, fy, k) && Mints(reader, start, rows, fy', k) && fy % 100 == fy' % 100
      ensures fy == fy'
    {
      var i := HolderOf(reader, start, rows, fy, k);
      var i' := HolderOf(reader, start, rows, fy', k);
      TxnIdInjective(fy, k, fy', k);
    }
  }

  /** Minted ids are fresh exactly when nothing stands in their range. */
  lemma FreshExactly(reader: Reader, start: Month, rows: seq<Row>)
    ensures MintsFresh(reader, start, rows) <==> RoomFor(reader, start, rows)
  {
    if RoomFor(reader, start, rows) {
      var out := Normalized(reader, start, rows).rows;
      forall i, j | 0 <= i < |rows| && 0 <= j < |rows| && i != j && |out| == |rows| && Idless(reader, rows[i])
        ensures IdOf(out[i]) != IdOf(out[j])
      {
        RoomMakesFresh(reader, start, rows, i, j);
      }
    }
    if MintsFresh(reader, start, rows) {
      FreshNeedsRoom(reader, start, rows);
    }
  }

  /** Each row with a canonical id has a readable date in that id's fiscal year. */
  ghost predicate IdsDated(reader: Reader, start: Month, rows: seq<Row>) {
    forall j :: 0 <= j < |rows| && ParseId(IdOf(rows[j])).Some? ==>
      DateOf(reader, rows[j]).Some? && YearOf(reader, start, rows[j]) % 100 == ParseId(IdOf(rows[j])).value.0
  }

  /** The fiscal years present differ in their last two digits. */
  ghost predicate YearsApart(reader: Reader, start: Month, rows: seq<Row>) {
    forall i, j :: 0 <= i < |rows| && 0 <= j < |rows| && DateOf(reader, rows[i]).Some? && DateOf(reader, rows[j]).Some? ==>
      var fy, fy' := YearOf(reader, start, rows[i]), YearOf(reader, start, rows[j]);
      fy % 100 == fy' % 100 ==> fy == fy'
  }

  /** A ledger whose ids agree with its dates, within one century, always has room. */
  lemma DatedLedgerHasRoom(reader: Reader, start: Month, rows: seq<Row>)
    requires IdsDated(reader, start, rows) && YearsApart(reader, start, rows)
    ensures RoomFor(reader, start, rows)
  {
    hide FiscalYear, TxnId, Top, Waiting, Seeded, Mints, ParseId, DueId;
    forall j, fy, k | 0 <= j < |rows| && IdOf(rows[j]) != "" && Mints(reader, start, rows, fy, k)
      ensures IdOf(rows[j]) != TxnId(fy, k)
    {
      NoIdInRange(reader, start, rows, j, fy, k);
    }
    forall fy, fy', k | Mints(reader, start, rows, fy, k) && Mints(reader, start, rows, fy', k) && fy % 100 == fy' % 100
      ensures fy == fy'
    {
      var i := HolderOf(reader, start, rows, fy, k);
      var i' := HolderOf(reader, start, rows, fy', k);
    }
  }

  lemma NoIdInRange(reader: Reader, start: Month, rows: seq<Row>, j: nat, fy: nat, k: nat)
    requires IdsDated(reader, start, rows) && YearsApart(reader, start, rows)
    requires j < |rows| && IdOf(rows[j]) != "" && Mints(reader, start, rows, fy, k)
    ensures IdOf(rows[j]) != TxnId(fy, k)
  {
    var i := HolderOf(reader, start, rows, fy, k);
    TxnIdRoundTrip(fy, k);
    if ParseId(IdOf(rows[j])) == Some((fy % 100, k)) {
      DatedIdSeeds(reader, start, rows, j, i, k);
    }
  }

  lemma DatedIdSeeds(reader: Reader, start: Month, rows: seq<Row>, j: nat, i: nat, k: nat)
    requires IdsDated(reader, start, rows) && YearsApart(reader, start, rows)
    requires j < |rows| && i < |rows| && IdOf(rows[j]) != "" && DateOf(reader, rows[i]).Some?
    requires ParseId(IdOf(rows[j])) == Some((YearOf(reader, start, rows[i]) % 100, k))
    ensures k <= Top(reader, start, rows, YearOf(reader, start, rows[i]))
  {
    var fy := YearOf(reader, start, rows[i]);
    SeedsAreMaxima(reader, start, rows, fy);
    hide FiscalYear, ParseId, Top, IdOf;
    assert YearOf(reader, start, rows[j]) == fy;
    assert SeedOf(reader, start, rows[j]) == Some(k);
  }

  lemma UndatedRows(reader: Reader, a: Row, b: Row)
    requires reader.date("unknown") == None && reader.date("2026-01-05") == Some(Date(2026, 1, 5)) && reader.cents("5.00") == Some(500)
    requires a == map["id" := TxnId(2026, 1), "date" := "unknown"] && b == map["date" := "2026-01-05", "amount" := "5.00"]
    ensures !WellFormed(reader, a) && IdOf(a) == TxnId(2026, 1) && SeedOf(reader, 1, a) == None
    ensures WellFormed(reader, b) && IdOf(b) == "" && SeedOf(reader, 1, b) == None && YearOf(reader, 1, b) == 2026
  {
    hide TxnId, ParseId, Strip;
    TxnIdRoundTrip(2026, 1);
    StripBlank();
  }

  /** Without readable dates an id can be minted twice: the row that holds it does not seed its year. */
  lemma UndatedIdIsMintedAgain(reader: Reader)
    requires reader.date("unknown") == None && reader.date("2026-01-05") == Some(Date(2026, 1, 5)) && reader.cents("5.00") == Some(500)
    ensures var rows := [map["id" := TxnId(2026, 1), "date" := "unknown"], map["date" := "2026-01-05", "amount" := "5.00"]];
            var out := Normalized(reader, 1, rows).rows;
            |out| == 2 && IdOf(out[0]) == IdOf(out[1]) == TxnId(2026, 1)
  {
    hide TxnId, ParseId, Strip, SeedOf, WellFormed, YearOf, Normalized, Top;
    var rows: seq<Row> := [map["id" := TxnId(2026, 1), "date" := "unknown"], map["date" := "2026-01-05", "amount" := "5.00"]];
    OutIds(reader, 1, rows);
    NormalizeIsExact(reader, 1, rows);
    UndatedRows(reader, rows[0], rows[1]);
    NoSeeds(reader, rows[0], rows[1]);
    assert rows[..1] == [rows[0]];
    assert Waiting(reader, 1, [rows[0]], 2026) == 0 by { assert [rows[0]][..0] == []; }
    assert DueId(reader, 1, rows, 1) == TxnId(2026, 1);
  }

  lemma NoSeeds(reader: Reader, a: Row, b: Row)
    requires SeedOf(reader, 1, a) == None && SeedOf(reader, 1, b) == None
    ensures forall fy :: Top(reader, 1, [a, b], fy) == 0
  {
    hide SeedOf;
    assert [a, b][..1] == [a] && [a][..0] == [];
    assert Seeded(reader, 1, [a]) == map[];
    assert Seeded(reader, 1, [a, b]) == map[];
  }
}
