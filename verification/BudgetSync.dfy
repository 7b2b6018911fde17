/** Planning the reconciliation of parsed budget lines with the timeseries sheet, and applying the plan. */
module BudgetSync {
  import opened Common
  import opened Digits
  import opened Money
  import opened BudgetTab

  type Grid = seq<seq<string>>

  /** A line's identity on either side: normalised type and category. */
  datatype Key = Key(kind: string, name: string)

  datatype Columns = Columns(fy: nat, kind: nat, measure: nat, amount: nat, raw: nat, group: nat, notes: nat)

  datatype Entry = Entry(sheetRow: nat, amount: string, notes: string, kind: string, raw: string)

  /** A dictionary with its keys in insertion order. */
  datatype Index = Index(order: seq<Key>, at: map<Key, Entry>)

  datatype Plan = Plan(cells: map<(nat, nat), string>, appended: Grid, changed: seq<(string, string, int, int)>,
    notesChanged: seq<(string, string)>, added: seq<(string, string, string, int)>, removed: seq<(string, string, int)>,
    duplicates: seq<(string, string)>, untouched: nat)

  datatype Planned = Ok(plan: Plan) | EmptySheet | MissingColumns(names: seq<string>)

  const REQUIRED: seq<string> := ["fiscal_year", "type", "measure", "amount", "raw_category", "category_group", "notes"]

  /** Runs of blanks become one space. */
  function Squeeze(s: string): string {
    if s == "" then ""
    else if IsSpace(s[0]) then
      if |s| > 1 && IsSpace(s[1]) then Squeeze(s[1..]) else " " + Squeeze(s[1..])
    else [s[0]] + Squeeze(s[1..])
  }

  function NormName(s: string): string {
    Lower(Squeeze(Strip(s)))
  }

  function MatchKey(kind: string, raw: string): Key {
    Key(Lower(Strip(kind)), NormName(raw))
  }

  /** The last column with this title: a dictionary keeps the last of equal keys. */
  function ColumnOf(header: seq<string>, name: string): (c: Option<nat>)
    ensures c.Some? ==> c.value < |header| && Strip(header[c.value]) == name
    ensures c.None? ==> forall i :: 0 <= i < |header| ==> Strip(header[i]) != name
  {
    if header == [] then None
    else if Strip(header[|header| - 1]) == name then Some(|header| - 1)
    else ColumnOf(header[..|header| - 1], name)
  }

  function MissingFrom(header: seq<string>, names: seq<string>): seq<string> {
    if names == [] then []
    else (if ColumnOf(header, names[0]).None? then [names[0]] else []) + MissingFrom(header, names[1..])
  }

  predicate HasColumns(header: seq<string>) {
    forall k | 0 <= k < |REQUIRED| :: ColumnOf(header, REQUIRED[k]).Some?
  }

  function ColumnsOf(header: seq<string>): Columns
    requires HasColumns(header)
  {
    assert forall k :: 0 <= k < |REQUIRED| ==> ColumnOf(header, REQUIRED[k]).Some?;
    Columns(ColumnOf(header, REQUIRED[0]).value, ColumnOf(header, REQUIRED[1]).value, ColumnOf(header, REQUIRED[2]).value,
      ColumnOf(header, REQUIRED[3]).value, ColumnOf(header, REQUIRED[4]).value, ColumnOf(header, REQUIRED[5]).value,
      ColumnOf(header, REQUIRED[6]).value)
  }

  // ---------- Indexing the sheet ----------

  /** A data row of this fiscal year's proposed budget. */
  predicate Proposed(c: Columns, fy: string, row: seq<string>) {
    Column(row, c.fy) == fy && Lower(Column(row, c.measure)) == "proposed"
  }

  function RowKey(c: Columns, row: seq<string>): Key {
    MatchKey(Column(row, c.kind), Column(row, c.raw))
  }

  function EntryOf(c: Columns, sheetRow: nat, row: seq<string>): Entry {
    Entry(sheetRow, Column(row, c.amount), Column(row, c.notes), Column(row, c.kind), Column(row, c.raw))
  }

  function IndexRow(c: Columns, fy: string, x: Index, sheetRow: nat, row: seq<string>): Index {
    if !Proposed(c, fy, row) || RowKey(c, row) in x.at then x
    else Index(x.order + [RowKey(c, row)], x.at[RowKey(c, row) := EntryOf(c, sheetRow, row)])
  }

  /** The index of the data rows of sheet rows 2 to n. */
  function Indexed(c: Columns, fy: string, grid: Grid, n: nat): Index
    requires 1 <= n <= |grid|
  {
    if n == 1 then Index([], map[]) else IndexRow(c, fy, Indexed(c, fy, grid, n - 1), n, grid[n - 1])
  }

  // ---------- Planning ----------

  /** The plan so far and the keys already met on the tab. */
  datatype Progress = Progress(plan: Plan, seen: set<Key>)

  const NOTHING := Plan(map[], [], [], [], [], [], [], 0)

  function LineKey(line: Line): Key {
    MatchKey(line.kind, line.item)
  }

  predicate AmountDiffers(other: string -> Option<int>, e: Entry, line: Line) {
    Num(other, e.amount) != Some(line.amount)
  }

  predicate NotesDiffer(e: Entry, line: Line) {
    line.notes != e.notes
  }

  function Was(other: string -> Option<int>, e: Entry): int {
    if Num(other, e.amount).Some? then Num(other, e.amount).value else 0
  }

  function NewRow(c: Columns, width: nat, fy: string, line: Line): seq<string> {
    seq(width, i =>
      if i == c.notes then line.notes else if i == c.group then line.group else if i == c.raw then line.item
      else if i == c.amount then FmtAmount(line.amount) else if i == c.kind then line.kind
      else if i == c.measure then "proposed" else if i == c.fy then fy else "")
  }

  function Matched(other: string -> Option<int>, c: Columns, e: Entry, p: Plan, line: Line): Plan {
    var amounts := if AmountDiffers(other, e, line)
      then p.(cells := p.cells[(e.sheetRow, c.amount + 1) := FmtAmount(line.amount)],
              changed := p.changed + [(line.kind, line.item, Was(other, e), line.amount)])
      else p;
    var notes := if NotesDiffer(e, line)
      then amounts.(cells := amounts.cells[(e.sheetRow, c.notes + 1) := line.notes],
                    notesChanged := amounts.notesChanged + [(line.kind, line.item)])
      else amounts;
    if !AmountDiffers(other, e, line) && !NotesDiffer(e, line) then notes.(untouched := notes.untouched + 1) else notes
  }

  function PlanLine(other: string -> Option<int>, c: Columns, width: nat, fy: string, x: Index, g: Progress, line: Line): Progress {
    var key := LineKey(line);
    if key in g.seen then g.(plan := g.plan.(duplicates := g.plan.duplicates + [(line.kind, line.item)]))
    else if key in x.at then Progress(Matched(other, c, x.at[key], g.plan, line), g.seen + {key})
    else Progress(g.plan.(appended := g.plan.appended + [NewRow(c, width, fy, line)],
                          added := g.plan.added + [(line.kind, line.group, line.item, line.amount)]),
                  g.seen + {key})
  }

  function PlanLines(other: string -> Option<int>, c: Columns, width: nat, fy: string, x: Index, lines: seq<Line>): Progress {
    if lines == [] then Progress(NOTHING, {})
    else PlanLine(other, c, width, fy, x, PlanLines(other, c, width, fy, x, lines[..|lines| - 1]), lines[|lines| - 1])
  }

  function RemovedFrom(other: string -> Option<int>, at: map<Key, Entry>, order: seq<Key>, seen: set<Key>): seq<(string, string, int)>
    requires forall k :: k in order ==> k in at
  {
    if order == [] then []
    else
      var key := order[|order| - 1];
      RemovedFrom(other, at, order[..|order| - 1], seen)
      + if key in seen then [] else [(if at[key].kind != "" then at[key].kind else key.kind, at[key].raw, Was(other, at[key]))]
  }

  lemma {:induction false} OrderIsDomain(c: Columns, fy: string, grid: Grid, n: nat)
    requires 1 <= n <= |grid|
    ensures forall k :: k in Indexed(c, fy, grid, n).order <==> k in Indexed(c, fy, grid, n).at
    ensures Distinct(Indexed(c, fy, grid, n).order)
  {
    hide Proposed, RowKey, EntryOf;
    if n > 1 {
      OrderIsDomain(c, fy, grid, n - 1);
    }
  }

  function PlanOf(other: string -> Option<int>, grid: Grid, lines: seq<Line>, fy: nat): Planned {
    if grid == [] then EmptySheet
    else if !HasColumns(grid[0]) then MissingColumns(MissingFrom(grid[0], REQUIRED))
    else
      var c, year := ColumnsOf(grid[0]), Decimal(fy);
      var x := Indexed(c, year, grid, |grid|);
      var g := PlanLines(other, c, |grid[0]|, year, x, lines);
      OrderIsDomain(c, year, grid, |grid|);
      Ok(g.plan.(removed := RemovedFrom(other, x.at, x.order, g.seen)))
  }

  /** Indexes the sheet's proposed rows of the year, the first of each key winning. */
  method BuildIndex(c: Columns, fy: string, grid: Grid) returns (x: Index)
    requires grid != []
    ensures x == Indexed(c, fy, grid, |grid|)
  {
    hide Column, MatchKey, Lower;
    var order: seq<Key>, at: map<Key, Entry> := [], map[];
    for n := 1 to |grid|
      invariant Index(order, at) == Indexed(c, fy, grid, n)
    {
      var row, sheetRow := grid[n], n + 1;
      if Column(row, c.fy) != fy {
        continue;
      }
      if Lower(Column(row, c.measure)) != "proposed" {
        continue;
      }
      var key := MatchKey(Column(row, c.kind), Column(row, c.raw));
      if key !in at {
        order := order + [key];
        at := at[key := EntryOf(c, sheetRow, row)];
      }
    }
    x := Index(order, at);
  }

  method PlanBudgetSync(other: string -> Option<int>, grid: Grid, lines: seq<Line>, fy: nat) returns (planned: Planned)
    ensures planned == PlanOf(other, grid, lines, fy)
  {
    hide Num, Strip, Lower, FmtAmount, NewRow, ColumnOf, HasColumns;
    if grid == [] {
      return EmptySheet;
    }
    if !HasColumns(grid[0]) {
      return MissingColumns(MissingFrom(grid[0], REQUIRED));
    }
    var c, year := ColumnsOf(grid[0]), Decimal(fy);
    var x := BuildIndex(c, year, grid);
    var seen, plan := PlanAll(other, c, |grid[0]|, year, x, lines);
    OrderIsDomain(c, year, grid, |grid|);
    var removed: seq<(string, string, int)> := [];
    for i := 0 to |x.order|
      invariant removed == RemovedFrom(other, x.at, x.order[..i], seen)
    {
      assert x.order[..i + 1][..i] == x.order[..i];
      var key := x.order[i];
      if key !in seen {
        var e := x.at[key];
        removed := removed + [(if e.kind != "" then e.kind else key.kind, e.raw, Was(other, e))];
      }
    }
    assert x.order[..|x.order|] == x.order;
    planned := Ok(plan.(removed := removed));
  }

  method PlanAll(other: string -> Option<int>, c: Columns, width: nat, fy: string, x: Index, lines: seq<Line>)
      returns (seen: set<Key>, plan: Plan)
    ensures Progress(plan, seen) == PlanLines(other, c, width, fy, x, lines)
  {
    hide LineKey, Num, FmtAmount, NewRow;
    seen, plan := {}, NOTHING;
    for i := 0 to |lines|
      invariant Progress(plan, seen) == PlanLines(other, c, width, fy, x, lines[..i])
    {
      assert lines[..i + 1][..i] == lines[..i];
      var line := lines[i];
      var key := LineKey(line);
      if key in seen {
        plan := plan.(duplicates := plan.duplicates + [(line.kind, line.item)]);
        continue;
      }
      seen := seen + {key};
      if key in x.at {
        var e := x.at[key];
        var amountChanged, notesChanged := AmountDiffers(other, e, line), NotesDiffer(e, line);
        if amountChanged {
          plan := plan.(cells := plan.cells[(e.sheetRow, c.amount + 1) := FmtAmount(line.amount)],
                        changed := plan.changed + [(line.kind, line.item, Was(other, e), line.amount)]);
        }
        if notesChanged {
          plan := plan.(cells := plan.cells[(e.sheetRow, c.notes + 1) := line.notes],
                        notesChanged := plan.notesChanged + [(line.kind, line.item)]);
        }
        if !amountChanged && !notesChanged {
          plan := plan.(untouched := plan.untouched + 1);
        }
      } else {
        plan := plan.(appended := plan.appended + [NewRow(c, width, fy, line)],
                      added := plan.added + [(line.kind, line.group, line.item, line.amount)]);
      }
    }
    assert lines[..|lines|] == lines;
  }

  // ---------- Applying ----------

  predicate HasWrites(plan: Plan) {
    plan.cells != map[] || plan.appended != []
  }

  predicate Writes(cells: map<(nat, nat), string>, sheetRow: nat, i: nat) {
    (sheetRow, i + 1) in cells
  }

  /** A sheet row after the cell writes; writing past the end of a short row leaves blanks between. */
  function Rewritten(cells: map<(nat, nat), string>, width: nat, sheetRow: nat, row: seq<string>): seq<string> {
    if exists i | 0 <= i < width :: Writes(cells, sheetRow, i) then
      seq(if |row| < width then width else |row|, i requires 0 <= i =>
        if Writes(cells, sheetRow, i) then cells[(sheetRow, i + 1)] else if i < |row| then row[i] else "")
    else row
  }

  /** The sheet after a plan: cells written, rows appended. */
  function Applied(grid: Grid, plan: Plan): Grid
    requires grid != []
  {
    seq(|grid|, n requires 0 <= n < |grid| => Rewritten(plan.cells, |grid[0]|, n + 1, grid[n])) + plan.appended
  }
}
