/** Normalisation of the transactions ledger: minting ids and flagging repeats and malformed rows. */
module Normalize {
  import opened Common
  import opened Ids

  /** A sheet row: cells by column name. */
  type Row = map<string, string>

  /** How date, amount (in cents) and payee cells read. */
  datatype Reader = Reader(date: string -> Option<Date>, cents: string -> Option<int>, payee: string -> string)

  /** The natural key two records of one transaction share. */
  datatype Key = Key(date: Date, cents: int, payee: string)

  datatype Result = Result(rows: seq<Row>, minted: nat, duplicates: nat, malformed: nat, untouched: nat)

  datatype State = State(next: map<nat, nat>, seen: set<Key>, result: Result)

  function Cell(row: Row, column: string): string {
    if column in row then row[column] else ""
  }

  /** The id a row carries, "" for none. */
  function IdOf(row: Row): string {
    Strip(Cell(row, "id"))
  }

  function DateOf(reader: Reader, row: Row): Option<Date> {
    if "date" in row then reader.date(row["date"]) else None
  }

  function CentsOf(reader: Reader, row: Row): Option<int> {
    if "amount" in row then reader.cents(row["amount"]) else None
  }

  predicate WellFormed(reader: Reader, row: Row) {
    DateOf(reader, row).Some? && CentsOf(reader, row).Some?
  }

  function KeyOf(reader: Reader, row: Row): Key
    requires WellFormed(reader, row)
  {
    Key(DateOf(reader, row).value, CentsOf(reader, row).value, reader.payee(Cell(row, "payee")))
  }

  function YearOf(reader: Reader, start: Month, row: Row): nat
    requires DateOf(reader, row).Some?
  {
    FiscalYear(DateOf(reader, row).value, start)
  }

  function SeqOf(id: string, fy: nat): Option<nat> {
    var parsed := ParseId(id);
    if parsed.Some? && parsed.value.0 == fy % 100 then Some(parsed.value.1) else None
  }

  // ---------- The two passes ----------

  function Max(a: nat, b: nat): nat {
    if a < b then b else a
  }

  function At(next: map<nat, nat>, fy: nat): nat {
    if fy in next then next[fy] else 0
  }

  /** The sequence a row's own id seeds for its fiscal year, if any. */
  function SeedOf(reader: Reader, start: Month, row: Row): Option<nat> {
    if IdOf(row) == "" || DateOf(reader, row).None? then None
    else SeqOf(IdOf(row), YearOf(reader, start, row))
  }

  function Seeded(reader: Reader, start: Month, rows: seq<Row>): map<nat, nat> {
    if rows == [] then map[]
    else
      var next, row := Seeded(reader, start, rows[..|rows| - 1]), rows[|rows| - 1];
      var seed := SeedOf(reader, start, row);
      if seed.None? then next
      else var fy := YearOf(reader, start, row); next[fy := Max(At(next, fy), seed.value)]
  }

  function Flagged(row: Row): Row {
    row["needs_review" := "TRUE"]
  }

  function Step(reader: Reader, start: Month, st: State, row: Row): State {
    var r := st.result;
    if !WellFormed(reader, row) then
      st.(result := r.(rows := r.rows + [Flagged(row)], malformed := r.malformed + 1))
    else
      var fy, key := YearOf(reader, start, row), KeyOf(reader, row);
      var minted := IdOf(row) == "";
      var seqNo := At(st.next, fy) + 1;
      var named := if minted then row["id" := TxnId(fy, seqNo)] else row;
      var repeat := key in st.seen;
      State(
        if minted then st.next[fy := seqNo] else st.next,
        st.seen + {key},
        Result(r.rows + [if repeat then Flagged(named) else named],
               if minted then r.minted + 1 else r.minted,
               if repeat then r.duplicates + 1 else r.duplicates,
               r.malformed,
               if !minted && !repeat then r.untouched + 1 else r.untouched))
  }

  function Pass(reader: Reader, start: Month, seeds: map<nat, nat>, rows: seq<Row>): State {
    if rows == [] then State(seeds, {}, Result([], 0, 0, 0, 0))
    else Step(reader, start, Pass(reader, start, seeds, rows[..|rows| - 1]), rows[|rows| - 1])
  }

  function Normalized(reader: Reader, start: Month, rows: seq<Row>): Result {
    Pass(reader, start, Seeded(reader, start, rows), rows).result
  }

  method NormalizeRows(reader: Reader, rows: seq<Row>, start: Month) returns (r: Result)
    ensures r == Normalized(reader, start, rows)
  {
    var next := SeedPass(reader, rows, start);
    r := AssignPass(reader, rows, start, next);
  }

  /** Pass 1: the largest sequence each fiscal year already holds. */
  method SeedPass(reader: Reader, rows: seq<Row>, start: Month) returns (next: map<nat, nat>)
    ensures next == Seeded(reader, start, rows)
  {
    hide IdOf, FiscalYear, ParseId, DateOf;
    next := map[];
    for i := 0 to |rows|
      invariant next == Seeded(reader, start, rows[..i])
    {
      assert rows[..i + 1][..i] == rows[..i];
      var row := rows[i];
      var d := DateOf(reader, row);
      if IdOf(row) != "" && d.Some? {
        var fy := FiscalYear(d.value, start);
        var seqNo := SeqOf(IdOf(row), fy);
        if seqNo.Some? {
          next := next[fy := Max(At(next, fy), seqNo.value)];
        }
      }
    }
    assert rows[..|rows|] == rows;
  }

  lemma PassNone(reader: Reader, start: Month, seeds: map<nat, nat>, rows: seq<Row>)
    ensures Pass(reader, start, seeds, rows[..0]) == State(seeds, {}, Result([], 0, 0, 0, 0))
  {
  }

  lemma PassNext(reader: Reader, start: Month, seeds: map<nat, nat>, rows: seq<Row>, n: nat)
    requires 0 < n <= |rows|
    ensures Pass(reader, start, seeds, rows[..n]) == Step(reader, start, Pass(reader, start, seeds, rows[..n - 1]), rows[n - 1])
  {
    hide Step;
    assert rows[..n][..n - 1] == rows[..n - 1];
  }

  /** Pass 2: ids, repeats and malformed rows, in order. */
  method AssignPass(reader: Reader, rows: seq<Row>, start: Month, seeds: map<nat, nat>) returns (r: Result)
    ensures r == Pass(reader, start, seeds, rows).result
  {
    hide IdOf, FiscalYear, TxnId, DateOf, CentsOf, Flagged, Pass;
    var next: map<nat, nat> := seeds;
    var out: seq<Row>, seen: set<Key> := [], {};
    var minted, duplicates, malformed, untouched := 0, 0, 0, 0;
    PassNone(reader, start, seeds, rows);
    for i := 0 to |rows|
      invariant State(next, seen, Result(out, minted, duplicates, malformed, untouched)) == Pass(reader, start, seeds, rows[..i])
    {
      PassNext(reader, start, seeds, rows, i + 1);
      var row := rows[i];
      var d, cents := DateOf(reader, row), CentsOf(reader, row);
      if d.None? || cents.None? {
        out := out + [Flagged(row)];
        malformed := malformed + 1;
        continue;
      }
      var newRow, fy, blank := row, FiscalYear(d.value, start), IdOf(row) == "";
      if blank {
        var seqNo := At(next, fy) + 1;
        next := next[fy := seqNo];
        newRow := newRow["id" := TxnId(fy, seqNo)];
        minted := minted + 1;
      }
      var key := Key(d.value, cents.value, reader.payee(Cell(row, "payee")));
      var repeat := key in seen;
      if repeat {
        newRow := Flagged(newRow);
        duplicates := duplicates + 1;
      } else {
        seen := seen + {key};
      }
      out := out + [newRow];
      if !blank && !repeat {
        untouched := untouched + 1;
      }
    }
    assert rows[..|rows|] == rows;
    r := Result(out, minted, duplicates, malformed, untouched);
  }
}
