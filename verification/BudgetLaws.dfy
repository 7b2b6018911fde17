/** What a budget plan writes, and that applying it leaves nothing to write. */
module BudgetLaws {
  import opened Common
  import opened Digits
  import opened Money
  import opened BudgetTab
  import opened BudgetSync

  /** A planning problem: the readers, the resolved columns, the printed year, the sheet and the tab's lines. */
  datatype Job = Job(other: string -> Option<int>, c: Columns, year: string, grid: Grid, lines: seq<Line>)

  /** The columns lie on the sheet and are apart, as different titles are. */
  predicate Apart(c: Columns, width: nat) {
    && c.fy < width && c.kind < width && c.measure < width && c.amount < width && c.raw < width && c.group < width && c.notes < width
    && c.fy != c.kind && c.fy != c.measure && c.fy != c.amount && c.fy != c.raw && c.fy != c.group && c.fy != c.notes
    && c.kind != c.measure && c.kind != c.amount && c.kind != c.raw && c.kind != c.group && c.kind != c.notes
    && c.measure != c.amount && c.measure != c.raw && c.measure != c.group && c.measure != c.notes
    && c.amount != c.raw && c.amount != c.group && c.amount != c.notes
    && c.raw != c.group && c.raw != c.notes && c.group != c.notes
  }

  predicate JobOk(j: Job) {
    j.grid != [] && Strip(j.year) == j.year && Apart(j.c, |j.grid[0]|)
  }

  lemma TitlesApart(header: seq<string>)
    requires HasColumns(header)
    ensures Apart(ColumnsOf(header), |header|)
  {
    hide Strip, ColumnOf;
    forall k | 0 <= k < |REQUIRED|
      ensures ColumnOf(header, REQUIRED[k]).Some? && Strip(header[ColumnOf(header, REQUIRED[k]).value]) == REQUIRED[k]
    {
    }
  }

  // ---------- The index is the first row of each key ----------

  predicate Holds(j: Job, r: nat, key: Key)
    requires r < |j.grid|
  {
    Proposed(j.c, j.year, j.grid[r]) && RowKey(j.c, j.grid[r]) == key
  }

  /** The first data row before `n` that holds a key. */
  function FirstRow(j: Job, key: Key, n: nat): (r: Option<nat>)
    requires 1 <= n <= |j.grid|
    ensures r.Some? ==> 1 <= r.value < n && Holds(j, r.value, key) && forall i :: 1 <= i < r.value ==> !Holds(j, i, key)
    ensures r.None? ==> forall i :: 1 <= i < n ==> !Holds(j, i, key)
  {
    if n == 1 then None
    else
      var r := FirstRow(j, key, n - 1);
      if r.Some? then r else if Holds(j, n - 1, key) then Some(n - 1) else None
  }

  lemma {:induction false} IndexIsFirst(j: Job, n: nat, key: Key)
    requires 1 <= n <= |j.grid|
    ensures var x, r := Indexed(j.c, j.year, j.grid, n), FirstRow(j, key, n);
            if r.None? then key !in x.at else key in x.at && x.at[key] == EntryOf(j.c, r.value + 1, j.grid[r.value])
  {
    hide Proposed, RowKey, EntryOf;
    if n > 1 {
      IndexIsFirst(j, n - 1, key);
    }
  }

  function RowOf(j: Job, key: Key): Option<nat>
    requires j.grid != []
  {
    FirstRow(j, key, |j.grid|)
  }

  function IndexOf(j: Job): Index
    requires j.grid != []
  {
    Indexed(j.c, j.year, j.grid, |j.grid|)
  }

  // ---------- What the plan holds ----------

  /** The line is the tab's first of its key. */
  predicate First(lines: seq<Line>, i: nat)
    requires i < |lines|
  {
    forall k | 0 <= k < i :: LineKey(lines[k]) != LineKey(lines[i])
  }

  predicate WantsAmount(j: Job, i: nat)
    requires j.grid != [] && i < |j.lines|
  {
    var x := IndexOf(j);
    First(j.lines, i) && LineKey(j.lines[i]) in x.at && AmountDiffers(j.other, x.at[LineKey(j.lines[i])], j.lines[i])
  }

  predicate WantsNotes(j: Job, i: nat)
    requires j.grid != [] && i < |j.lines|
  {
    var x := IndexOf(j);
    First(j.lines, i) && LineKey(j.lines[i]) in x.at && NotesDiffer(x.at[LineKey(j.lines[i])], j.lines[i])
  }

  function SheetRow(j: Job, i: nat): nat
    requires j.grid != [] && i < |j.lines|
  {
    var x := IndexOf(j);
    if LineKey(j.lines[i]) in x.at then x.at[LineKey(j.lines[i])].sheetRow else 0
  }

  function Progressed(j: Job, n: nat): Progress
    requires j.grid != [] && n <= |j.lines|
  {
    PlanLines(j.other, j.c, |j.grid[0]|, j.year, IndexOf(j), j.lines[..n])
  }

  lemma {:induction false} SeenAreTheKeys(j: Job, n: nat, key: Key)
    requires j.grid != [] && n <= |j.lines|
    ensures key in Progressed(j, n).seen <==> exists i :: 0 <= i < n && LineKey(j.lines[i]) == key
  {
    hide LineKey, IndexOf, Matched;
    if n > 0 {
      SeenAreTheKeys(j, n - 1, key);
      assert j.lines[..n][..n - 1] == j.lines[..n - 1];
    }
  }

  lemma FirstIsUnseen(j: Job, n: nat)
    requires j.grid != [] && n < |j.lines|
    ensures First(j.lines, n) <==> LineKey(j.lines[n]) !in Progressed(j, n).seen
  {
    SeenAreTheKeys(j, n, LineKey(j.lines[n]));
    hide LineKey, Progressed;
  }

  /** Every planned cell is some line's. */
  ghost predicate CellsOwned(j: Job, n: nat, cells: map<(nat, nat), string>)
    requires j.grid != [] && n <= |j.lines|
  {
    forall row, col :: (row, col) in cells ==> exists i :: 0 <= i < n && SheetRow(j, i) == row && Wanted(j, i, col)
  }

  /** Every line's writes are planned, with its values. */
  ghost predicate CellsHold(j: Job, n: nat, cells: map<(nat, nat), string>)
    requires j.grid != [] && n <= |j.lines|
  {
    forall i :: 0 <= i < n ==> LineHolds(j, i, cells)
  }

  predicate LineHolds(j: Job, i: nat, cells: map<(nat, nat), string>)
    requires j.grid != [] && i < |j.lines|
  {
    var amount, notes := (SheetRow(j, i), j.c.amount + 1), (SheetRow(j, i), j.c.notes + 1);
    && (WantsAmount(j, i) ==> amount in cells && cells[amount] == FmtAmount(j.lines[i].amount))
    && (WantsNotes(j, i) ==> notes in cells && cells[notes] == j.lines[i].notes)
  }

  /** Line i has something to write in this (1-based) column of its row. */
  predicate Wanted(j: Job, i: nat, col: int)
    requires j.grid != [] && i < |j.lines|
  {
    (col == j.c.amount + 1 && WantsAmount(j, i)) || (col == j.c.notes + 1 && WantsNotes(j, i))
  }

  /** Different lines never write in one row. */
  lemma TargetsDiffer(j: Job, i: nat, k: nat)
    requires JobOk(j) && i < |j.lines| && k < |j.lines| && i != k && First(j.lines, i) && First(j.lines, k)
    requires LineKey(j.lines[i]) in IndexOf(j).at && LineKey(j.lines[k]) in IndexOf(j).at
    ensures SheetRow(j, i) != SheetRow(j, k)
  {
    IndexIsFirst(j, |j.grid|, LineKey(j.lines[i]));
    IndexIsFirst(j, |j.grid|, LineKey(j.lines[k]));
    hide LineKey, Indexed, Proposed, RowKey;
    assert LineKey(j.lines[i]) != LineKey(j.lines[k]);
  }

  /** What one line does to the cells. */
  function WithLine(j: Job, i: nat, cells: map<(nat, nat), string>): map<(nat, nat), string>
    requires j.grid != [] && i < |j.lines|
  {
    var amounts := if WantsAmount(j, i) then cells[(SheetRow(j, i), j.c.amount + 1) := FmtAmount(j.lines[i].amount)] else cells;
    if WantsNotes(j, i) then amounts[(SheetRow(j, i), j.c.notes + 1) := j.lines[i].notes] else amounts
  }

  lemma Unfolded(j: Job, i: nat)
    requires j.grid != [] && i < |j.lines|
    ensures Progressed(j, i + 1) == PlanLine(j.other, j.c, |j.grid[0]|, j.year, IndexOf(j), Progressed(j, i), j.lines[i])
  {
    hide PlanLine, IndexOf;
    assert j.lines[..i + 1][..i] == j.lines[..i];
  }

  lemma LineStep(j: Job, i: nat)
    requires j.grid != [] && i < |j.lines|
    ensures Progressed(j, i + 1).plan.cells == WithLine(j, i, Progressed(j, i).plan.cells)
  {
    hide First, LineKey, IndexOf, AmountDiffers, NotesDiffer, FmtAmount, NewRow, Was, Progressed;
    Unfolded(j, i);
    FirstIsUnseen(j, i);
  }

  lemma {:induction false} PlanCells(j: Job, n: nat)
    requires JobOk(j) && n <= |j.lines|
    ensures CellsOwned(j, n, Progressed(j, n).plan.cells)
    ensures CellsHold(j, n, Progressed(j, n).plan.cells)
  {
    hide WithLine, Progressed, Apart, LineHolds, SheetRow, Wanted;
    if n == 0 {
      NoCells(j);
    } else {
      PlanCells(j, n - 1);
      LineStep(j, n - 1);
      var before := Progressed(j, n - 1).plan.cells;
      StepOwned(j, n - 1, before);
      var after := WithLine(j, n - 1, before);
      forall i | 0 <= i < n ensures LineHolds(j, i, after) {
        StepHolds(j, n - 1, before, i);
      }
    }
  }

  lemma NoCells(j: Job)
    requires j.grid != []
    ensures Progressed(j, 0).plan.cells == map[]
  {
    hide IndexOf;
    assert j.lines[..0] == [];
  }

  lemma StepOwned(j: Job, i: nat, before: map<(nat, nat), string>)
    requires j.grid != [] && i < |j.lines| && CellsOwned(j, i, before)
    ensures CellsOwned(j, i + 1, WithLine(j, i, before))
  {
    hide SheetRow, WantsAmount, WantsNotes, FmtAmount;
    var after := WithLine(j, i, before);
    forall row, col | (row, col) in after ensures exists k :: 0 <= k < i + 1 && SheetRow(j, k) == row && Wanted(j, k, col) {
      if (row, col) in before {
        var k :| 0 <= k < i && SheetRow(j, k) == row && Wanted(j, k, col);
      } else {
        assert SheetRow(j, i) == row && Wanted(j, i, col);
      }
    }
  }

  lemma WritersApart(j: Job, i: nat, k: nat)
    requires JobOk(j) && i < |j.lines| && k < |j.lines| && i != k
    requires (WantsAmount(j, k) || WantsNotes(j, k)) && (WantsAmount(j, i) || WantsNotes(j, i))
    ensures SheetRow(j, i) != SheetRow(j, k)
  {
    hide SheetRow, LineKey, IndexOf, AmountDiffers, NotesDiffer, Apart;
    TargetsDiffer(j, i, k);
  }

  /** One more line adds its own writes and disturbs no other line's. */
  lemma StepHolds(j: Job, i: nat, before: map<(nat, nat), string>, k: nat)
    requires JobOk(j) && k <= i < |j.lines| && (k < i ==> LineHolds(j, k, before))
    ensures LineHolds(j, k, WithLine(j, i, before))
  {
    hide SheetRow, WantsAmount, WantsNotes, FmtAmount;
    if k < i && (WantsAmount(j, k) || WantsNotes(j, k)) && (WantsAmount(j, i) || WantsNotes(j, i)) {
      WritersApart(j, k, i);
    }
  }

  /** The rows due for lines new to the sheet, in tab order. */
  function NewRows(j: Job, n: nat): Grid
    requires j.grid != [] && n <= |j.lines|
  {
    if n == 0 then []
    else
      NewRows(j, n - 1) + if IsNew(j, n - 1) then [NewRow(j.c, |j.grid[0]|, j.year, j.lines[n - 1])] else []
  }

  predicate IsNew(j: Job, i: nat)
    requires j.grid != [] && i < |j.lines|
  {
    First(j.lines, i) && LineKey(j.lines[i]) !in IndexOf(j).at
  }

  lemma AppendStep(j: Job, i: nat)
    requires j.grid != [] && i < |j.lines|
    ensures Progressed(j, i + 1).plan.appended
         == Progressed(j, i).plan.appended + if IsNew(j, i) then [NewRow(j.c, |j.grid[0]|, j.year, j.lines[i])] else []
  {
    hide First, LineKey, IndexOf, AmountDiffers, NotesDiffer, FmtAmount, NewRow, Was, Progressed;
    Unfolded(j, i);
    FirstIsUnseen(j, i);
  }

  lemma {:induction false} PlanAppends(j: Job, n: nat)
    requires j.grid != [] && n <= |j.lines|
    ensures Progressed(j, n).plan.appended == NewRows(j, n)
  {
    hide IsNew, NewRow, Progressed, IndexOf;
    if n > 0 {
      PlanAppends(j, n - 1);
      AppendStep(j, n - 1);
    } else {
      NoRows(j);
    }
  }

  lemma NoRows(j: Job)
    requires j.grid != []
    ensures Progressed(j, 0).plan.appended == []
  {
    hide IndexOf;
    assert j.lines[..0] == [];
  }

  // ---------- Applying ----------

  function PlanFor(j: Job): Plan
    requires j.grid != []
  {
    Progressed(j, |j.lines|).plan
  }

  /** The same problem on the sheet the plan leaves. */
  function After(j: Job): Job
    requires j.grid != []
  {
    j.(grid := Applied(j.grid, PlanFor(j)))
  }

  lemma RewrittenReads(cells: map<(nat, nat), string>, width: nat, sheetRow: nat, row: seq<string>, k: nat)
    requires (sheetRow, k + 1) in cells ==> k < width
    ensures Column(Rewritten(cells, width, sheetRow, row), k)
         == if (sheetRow, k + 1) in cells then Strip(cells[(sheetRow, k + 1)]) else Column(row, k)
  {
    if (sheetRow, k + 1) in cells {
      assert Writes(cells, sheetRow, k);
    }
    StripBlank();
    hide Strip;
  }

  /** The plan writes amounts and notes only. */
  lemma WrittenColumns(j: Job, row: nat, col: nat)
    requires JobOk(j) && (row, col) in PlanFor(j).cells
    ensures col == j.c.amount + 1 || col == j.c.notes + 1
  {
    PlanCells(j, |j.lines|);
    hide Progressed, SheetRow, WantsAmount, WantsNotes, CellsHold, Strip, Apart;
    var i :| 0 <= i < |j.lines| && SheetRow(j, i) == row && Wanted(j, i, col);
  }

  /** A cell of an old row reads as before unless the plan writes there. */
  lemma OldRowReads(j: Job, r: nat, k: nat)
    requires JobOk(j) && r < |j.grid|
    ensures var cells := PlanFor(j).cells;
            Column(After(j).grid[r], k) == if (r + 1, k + 1) in cells then Strip(cells[(r + 1, k + 1)]) else Column(j.grid[r], k)
    ensures (r + 1, k + 1) in PlanFor(j).cells ==> k == j.c.amount || k == j.c.notes
  {
    hide PlanFor, Rewritten, Column, Strip;
    if (r + 1, k + 1) in PlanFor(j).cells {
      WrittenColumns(j, r + 1, k + 1);
    }
    RewrittenReads(PlanFor(j).cells, |j.grid[0]|, r + 1, j.grid[r], k);
  }

  lemma OldRowHolds(j: Job, r: nat, key: Key)
    requires JobOk(j) && r < |j.grid|
    ensures Holds(After(j), r, key) == Holds(j, r, key)
  {
    OldRowReads(j, r, j.c.fy);
    OldRowReads(j, r, j.c.measure);
    OldRowReads(j, r, j.c.kind);
    OldRowReads(j, r, j.c.raw);
    hide PlanFor, Applied, Column, MatchKey, Lower;
  }

  lemma HeaderUnwritten(j: Job, k: nat)
    requires JobOk(j)
    ensures !Writes(PlanFor(j).cells, 1, k)
  {
    hide Progressed, LineKey, Apart, Indexed, AmountDiffers, NotesDiffer;
    PlanCells(j, |j.lines|);
    if (1, k + 1) in PlanFor(j).cells {
      var i :| 0 <= i < |j.lines| && SheetRow(j, i) == 1 && Wanted(j, i, k + 1);
      IndexIsFirst(j, |j.grid|, LineKey(j.lines[i]));
    }
  }

  /** Sheet row 1 is never written, so the header and the columns stay. */
  lemma HeaderStays(j: Job)
    requires JobOk(j)
    ensures After(j).grid != [] && After(j).grid[0] == j.grid[0] && JobOk(After(j))
  {
    hide PlanFor, Strip, Apart, Writes;
    forall k: nat ensures !Writes(PlanFor(j).cells, 1, k) {
      HeaderUnwritten(j, k);
    }
  }

  /** A new line's row reads back as its line: of the year, proposed, under the line's key. */
  lemma NewRowReads(j: Job, line: Line)
    requires JobOk(j)
    ensures var row := NewRow(j.c, |j.grid[0]|, j.year, line);
            && Proposed(j.c, j.year, row) && RowKey(j.c, row) == LineKey(line)
            && Column(row, j.c.amount) == FmtAmount(line.amount) && Column(row, j.c.notes) == Strip(line.notes)
  {
    StripIdempotent(line.kind);
    StripIdempotent(line.item);
    FmtReads(j.other, line.amount);
    ProposedReads();
    hide Strip, FmtAmount, Squeeze, Lower, Num;
  }

  lemma ProposedReads()
    ensures Strip("proposed") == "proposed" && Lower("proposed") == "proposed"
  {
    assert Lower("proposed") == "proposed";
  }

  lemma {:induction false} NewRowsHold(j: Job, n: nat, i: nat)
    requires j.grid != [] && i < n <= |j.lines| && IsNew(j, i)
    ensures |NewRows(j, i)| < |NewRows(j, n)|
    ensures NewRows(j, n)[|NewRows(j, i)|] == NewRow(j.c, |j.grid[0]|, j.year, j.lines[i])
  {
    hide IsNew, NewRow;
    if i < n - 1 {
      NewRowsHold(j, n - 1, i);
    }
  }

  lemma {:induction false} NewRowsAreLines(j: Job, n: nat, m: nat)
    requires j.grid != [] && n <= |j.lines| && m < |NewRows(j, n)|
    ensures exists i :: 0 <= i < n && IsNew(j, i) && |NewRows(j, i)| == m && NewRows(j, n)[m] == NewRow(j.c, |j.grid[0]|, j.year, j.lines[i])
  {
    hide IsNew, NewRow;
    if m < |NewRows(j, n - 1)| {
      NewRowsAreLines(j, n - 1, m);
    }
  }

  lemma {:induction false} NewRowsGrow(j: Job, i: nat, n: nat)
    requires j.grid != [] && i <= n <= |j.lines|
    ensures |NewRows(j, i)| <= |NewRows(j, n)|
  {
    hide IsNew, NewRow;
    if i < n {
      NewRowsGrow(j, i, n - 1);
    }
  }

  /** The appended row before a new line's own belong to other keys. */
  lemma EarlierNewRowsDiffer(j: Job, i: nat, m: nat)
    requires JobOk(j) && i < |j.lines| && IsNew(j, i) && m < |NewRows(j, i)|
    ensures m < |NewRows(j, |j.lines|)| && RowKey(j.c, NewRows(j, |j.lines|)[m]) != LineKey(j.lines[i])
  {
    NewRowsGrow(j, i, |j.lines|);
    NewRowsAreLines(j, |j.lines|, m);
    var k :| 0 <= k < |j.lines| && IsNew(j, k) && |NewRows(j, k)| == m
             && NewRows(j, |j.lines|)[m] == NewRow(j.c, |j.grid[0]|, j.year, j.lines[k]);
    if i <= k {
      NewRowsGrow(j, i, k);
    }
    NewRowReads(j, j.lines[k]);
    hide LineKey, RowKey, NewRow, IndexOf;
    assert LineKey(j.lines[k]) != LineKey(j.lines[i]);
  }

  /** The sheet row that shows line i after the plan: its old row, or its appended one. */
  function ShownAt(j: Job, i: nat): nat
    requires j.grid != [] && i < |j.lines|
  {
    var r := RowOf(j, LineKey(j.lines[i]));
    if r.Some? then r.value else |j.grid| + |NewRows(j, i)|
  }

  lemma OldRowIsFound(j: Job, i: nat)
    requires JobOk(j) && i < |j.lines| && First(j.lines, i) && RowOf(j, LineKey(j.lines[i])).Some?
    ensures RowOf(After(j), LineKey(j.lines[i])) == Some(ShownAt(j, i))
  {
    var key := LineKey(j.lines[i]);
    var r := RowOf(j, key).value;
    HeaderStays(j);
    forall k | 1 <= k <= r ensures Holds(After(j), k, key) == Holds(j, k, key) {
      OldRowHolds(j, k, key);
    }
    hide Holds, LineKey, PlanFor, Applied;
    FirstRowIs(After(j), key, r);
  }

  lemma FirstRowIs(j: Job, key: Key, r: nat)
    requires j.grid != [] && 1 <= r < |j.grid| && Holds(j, r, key) && forall k :: 1 <= k < r ==> !Holds(j, k, key)
    ensures RowOf(j, key) == Some(r)
  {
    hide Holds;
  }

  lemma AfterShape(j: Job)
    requires j.grid != []
    ensures var grid, rows := After(j).grid, NewRows(j, |j.lines|);
            |grid| == |j.grid| + |rows| && forall m :: 0 <= m < |rows| ==> grid[|j.grid| + m] == rows[m]
  {
    hide Progressed, NewRows, Rewritten, IndexOf;
    PlanAppends(j, |j.lines|);
  }

  /** Before a new line's row, no row of the new sheet holds its key. */
  lemma NoneEarlier(j: Job, i: nat, k: nat)
    requires JobOk(j) && i < |j.lines| && First(j.lines, i) && RowOf(j, LineKey(j.lines[i])).None?
    requires 1 <= k < |j.grid| + |NewRows(j, i)| && k < |After(j).grid|
    ensures !Holds(After(j), k, LineKey(j.lines[i]))
  {
    hide LineKey, After, NewRows, First, RowKey, Proposed, FirstRow, Indexed;
    AfterShape(j);
    IndexIsFirst(j, |j.grid|, LineKey(j.lines[i]));
    if k < |j.grid| {
      OldRowHolds(j, k, LineKey(j.lines[i]));
    } else {
      EarlierNewRowsDiffer(j, i, k - |j.grid|);
      AfterKeepsColumns(j);
    }
  }

  lemma AfterKeepsColumns(j: Job)
    requires j.grid != []
    ensures After(j).c == j.c && After(j).year == j.year && After(j).lines == j.lines && After(j).other == j.other
  {
  }

  lemma NewRowIsFound(j: Job, i: nat)
    requires JobOk(j) && i < |j.lines| && First(j.lines, i) && RowOf(j, LineKey(j.lines[i])).None?
    ensures RowOf(After(j), LineKey(j.lines[i])) == Some(ShownAt(j, i))
    ensures After(j).grid[ShownAt(j, i)] == NewRow(j.c, |j.grid[0]|, j.year, j.lines[i])
  {
    hide LineKey, After, NewRow, NewRows, First, RowKey, Proposed, Indexed, FirstRow, Column, FmtAmount, Strip, Apart;
    var key, at, after := LineKey(j.lines[i]), |j.grid| + |NewRows(j, i)|, After(j);
    IndexIsFirst(j, |j.grid|, key);
    NewRowsHold(j, |j.lines|, i);
    AfterShape(j);
    AfterKeepsColumns(j);
    NewRowReads(j, j.lines[i]);
    forall k | 1 <= k < at ensures !Holds(after, k, key) {
      NoneEarlier(j, i, k);
    }
    FirstRowIs(after, key, at);
  }

  /** After the plan the sheet shows every tab line: its amount reads back, its notes are there. */
  lemma LineIsShown(j: Job, i: nat)
    requires JobOk(j) && i < |j.lines| && First(j.lines, i)
    ensures var r := RowOf(After(j), LineKey(j.lines[i]));
            && r == Some(ShownAt(j, i))
            && Num(j.other, Column(After(j).grid[r.value], j.c.amount)) == Some(j.lines[i].amount)
            && Column(After(j).grid[r.value], j.c.notes) == Strip(j.lines[i].notes)
  {
    var line := j.lines[i];
    FmtReads(j.other, line.amount);
    if RowOf(j, LineKey(line)).Some? {
      OldRowIsFound(j, i);
      MatchedRowShows(j, i);
    } else {
      NewRowIsFound(j, i);
      NewRowReads(j, line);
    }
    hide LineKey, After, NewRow, Num, FmtAmount, Column, Strip, RowOf;
  }

  lemma MatchedRowShows(j: Job, i: nat)
    requires JobOk(j) && i < |j.lines| && First(j.lines, i) && RowOf(j, LineKey(j.lines[i])).Some?
    ensures var row := After(j).grid[RowOf(j, LineKey(j.lines[i])).value];
            Num(j.other, Column(row, j.c.amount)) == Some(j.lines[i].amount) && Column(row, j.c.notes) == Strip(j.lines[i].notes)
  {
    hide LineKey, Num, FmtAmount, Column, Strip, First, Indexed, Progressed, Applied, FirstRow, CellsOwned;
    var line := j.lines[i];
    var r := RowOf(j, LineKey(line)).value;
    FmtReads(j.other, line.amount);
    IndexIsFirst(j, |j.grid|, LineKey(line));
    PlanCells(j, |j.lines|);
    OldRowReads(j, r, j.c.amount);
    OldRowReads(j, r, j.c.notes);
    ColumnIsStripped(j.grid[r], j.c.notes);
    UnwantedIsAbsent(j, i, r);
    assert LineHolds(j, i, PlanFor(j).cells);
  }

  lemma ColumnIsStripped(row: seq<string>, k: nat)
    ensures Strip(Column(row, k)) == Column(row, k)
  {
    if k < |row| {
      StripIdempotent(row[k]);
    }
    StripBlank();
  }

  lemma RowIsOwnLine(j: Job, k: nat, i: nat, r: nat)
    requires JobOk(j) && k < |j.lines| && i < |j.lines| && k != i && First(j.lines, i) && (WantsAmount(j, k) || WantsNotes(j, k))
    requires RowOf(j, LineKey(j.lines[i])) == Some(r)
    ensures SheetRow(j, k) != r + 1
  {
    IndexIsFirst(j, |j.grid|, LineKey(j.lines[i]));
    hide Progressed, LineKey, Indexed, AmountDiffers, NotesDiffer, Apart, Proposed;
    TargetsDiffer(j, k, i);
  }

  /** A cell of line i's row that line i does not want is not written at all. */
  lemma UnwantedIsAbsent(j: Job, i: nat, r: nat)
    requires JobOk(j) && i < |j.lines| && First(j.lines, i) && RowOf(j, LineKey(j.lines[i])) == Some(r)
    ensures var cells := PlanFor(j).cells;
            && ((r + 1, j.c.amount + 1) in cells ==> WantsAmount(j, i))
            && ((r + 1, j.c.notes + 1) in cells ==> WantsNotes(j, i))
  {
    PlanCells(j, |j.lines|);
    IndexIsFirst(j, |j.grid|, LineKey(j.lines[i]));
    hide Progressed, LineKey, Indexed, AmountDiffers, NotesDiffer, Apart, CellsHold;
    forall k, col | 0 <= k < |j.lines| && SheetRow(j, k) == r + 1 && Wanted(j, k, col) ensures k == i {
      if k != i {
        RowIsOwnLine(j, k, i, r);
      }
    }
  }

  // ---------- Planning again ----------

  /** Line i of a second plan: never a new amount or row, and new notes only for notes with outer blanks. */
  lemma SecondLook(j: Job, i: nat)
    requires JobOk(j) && i < |j.lines|
    ensures JobOk(After(j)) && !WantsAmount(After(j), i) && !IsNew(After(j), i)
    ensures WantsNotes(After(j), i) <==> First(j.lines, i) && Strip(j.lines[i].notes) != j.lines[i].notes
  {
    hide LineKey, After, Num, Column, Strip, RowOf, Indexed, First, NewRow;
    HeaderStays(j);
    AfterKeepsColumns(j);
    if First(j.lines, i) {
      LineIsShown(j, i);
      InIndex(After(j), LineKey(j.lines[i]));
    }
  }

  lemma InIndex(j: Job, key: Key)
    requires j.grid != []
    ensures var r := RowOf(j, key);
            if r.None? then key !in IndexOf(j).at
            else key in IndexOf(j).at && IndexOf(j).at[key].amount == Column(j.grid[r.value], j.c.amount)
                 && IndexOf(j).at[key].notes == Column(j.grid[r.value], j.c.notes)
  {
    IndexIsFirst(j, |j.grid|, key);
  }

  lemma {:induction false} NothingNew(j: Job, n: nat)
    requires j.grid != [] && n <= |j.lines| && forall i :: 0 <= i < n ==> !IsNew(j, i)
    ensures NewRows(j, n) == []
  {
    hide IsNew;
    if n > 0 {
      NothingNew(j, n - 1);
    }
  }

  /** Every line the tab keeps has notes without outer blanks. */
  ghost predicate NotesClean(lines: seq<Line>) {
    forall i :: 0 <= i < |lines| && First(lines, i) ==> Strip(lines[i].notes) == lines[i].notes
  }

  lemma SecondPlan(j: Job)
    requires JobOk(j)
    ensures After(j).grid != [] && (HasWrites(PlanFor(After(j))) <==> !NotesClean(j.lines))
  {
    hide After, WantsAmount, WantsNotes, IsNew, First, Strip, SheetRow, Progressed, Apart;
    var again := After(j);
    HeaderStays(j);
    AfterKeepsColumns(j);
    forall i | 0 <= i < |j.lines|
      ensures !WantsAmount(again, i) && !IsNew(again, i)
      ensures WantsNotes(again, i) <==> First(j.lines, i) && Strip(j.lines[i].notes) != j.lines[i].notes
    {
      SecondLook(j, i);
    }
    NothingNew(again, |j.lines|);
    PlanAppends(again, |j.lines|);
    PlanCells(again, |j.lines|);
    var cells := PlanFor(again).cells;
    if cells != map[] {
      var pos :| pos in cells;
      assert (pos.0, pos.1) in cells;
      var i :| 0 <= i < |j.lines| && SheetRow(again, i) == pos.0 && Wanted(again, i, pos.1);
      assert !NotesClean(j.lines);
    }
    forall i | 0 <= i < |j.lines| && WantsNotes(again, i) ensures cells != map[] {
      assert LineHolds(again, i, cells);
    }
  }

  function JobOf(other: string -> Option<int>, grid: Grid, lines: seq<Line>, fy: nat): Job
    requires grid != [] && HasColumns(grid[0])
  {
    Job(other, ColumnsOf(grid[0]), Decimal(fy), grid, lines)
  }

  lemma JobIsOk(other: string -> Option<int>, grid: Grid, lines: seq<Line>, fy: nat)
    requires grid != [] && HasColumns(grid[0])
    ensures JobOk(JobOf(other, grid, lines, fy))
  {
    TitlesApart(grid[0]);
    var s := Decimal(fy);
    assert IsDigit(s[0]) && IsDigit(s[|s| - 1]);
    hide Decimal, Apart, ColumnsOf;
  }

  lemma PlanOfJob(other: string -> Option<int>, grid: Grid, lines: seq<Line>, fy: nat)
    requires grid != [] && HasColumns(grid[0])
    ensures var p, j := PlanOf(other, grid, lines, fy), JobOf(other, grid, lines, fy);
            p.Ok? && p.plan.cells == PlanFor(j).cells && p.plan.appended == PlanFor(j).appended
    ensures var p, j := PlanOf(other, grid, lines, fy), JobOf(other, grid, lines, fy); Applied(grid, p.plan) == After(j).grid
  {
    hide Decimal, HasColumns, ColumnsOf, Indexed, PlanLines, RemovedFrom, Rewritten;
    assert lines[..|lines|] == lines;
  }

  /** Planning again after applying writes nothing, exactly when the kept lines' notes have no outer blanks. */
  lemma ReplanExactly(other: string -> Option<int>, grid: Grid, lines: seq<Line>, fy: nat)
    requires grid != [] && HasColumns(grid[0])
    ensures var p := PlanOf(other, grid, lines, fy);
            p.Ok? && (var again := PlanOf(other, Applied(grid, p.plan), lines, fy);
                      again.Ok? && (!HasWrites(again.plan) <==> NotesClean(lines)))
  {
    hide PlanOf, After, PlanFor, NotesClean, ColumnsOf, Decimal, Applied, HasColumns;
    var j := JobOf(other, grid, lines, fy);
    JobIsOk(other, grid, lines, fy);
    PlanOfJob(other, grid, lines, fy);
    HeaderStays(j);
    SecondPlan(j);
    AfterKeepsColumns(j);
    assert JobOf(other, After(j).grid, lines, fy) == After(j);
    PlanOfJob(other, After(j).grid, lines, fy);
  }

  lemma TitlesFound()
    ensures HasColumns(REQUIRED)
  {
    hide Strip, ColumnOf;
    forall k | 0 <= k < |REQUIRED| ensures Strip(REQUIRED[k]) == REQUIRED[k] {
      StripSolid(REQUIRED[k]);
    }
  }

  /** A note with a leading blank is written again by every later plan. */
  lemma BlankNoteIsRewritten(other: string -> Option<int>)
    ensures var grid, lines := [REQUIRED], [Line("expense", "", "Food", 0, " n")];
            var p := PlanOf(other, grid, lines, 2026);
            p.Ok? && (var again := PlanOf(other, Applied(grid, p.plan), lines, 2026); again.Ok? && HasWrites(again.plan))
  {
    var grid, lines := [REQUIRED], [Line("expense", "", "Food", 0, " n")];
    TitlesFound();
    assert Strip(" n") == "n" by {
      assert StripLeft(" n") == StripLeft("n") == "n";
    }
    hide PlanOf, Applied, HasColumns, LineKey, Strip;
    assert First(lines, 0) && Strip(lines[0].notes) != lines[0].notes;
    ReplanExactly(other, grid, lines, 2026);
  }

  /** Lines parsed from a tab are always clean, so a parsed tab reconciles in one pass. */
  lemma ReplanParsedTab(other: string -> Option<int>, grid: Grid, tab: Grid, fy: nat)
    requires grid != [] && HasColumns(grid[0])
    ensures var lines := ParsedTab(other, tab).lines;
            var p := PlanOf(other, grid, lines, fy);
            p.Ok? && (var again := PlanOf(other, Applied(grid, p.plan), lines, fy); again.Ok? && !HasWrites(again.plan))
  {
    var lines := ParsedTab(other, tab).lines;
    NumericRowsAccounted(other, tab);
    hide Scanned, First, PlanOf, Applied, HasColumns, HasWrites, Strip;
    forall i | 0 <= i < |lines| ensures Strip(lines[i].notes) == lines[i].notes {
      assert lines[i] in lines && Clean(lines[i]);
    }
    ReplanExactly(other, grid, lines, fy);
  }

  // ---------- What applying leaves alone ----------

  /** A cell's own text; past a row's end the sheet is blank. */
  function Cell(row: seq<string>, k: nat): string {
    if k < |row| then row[k] else ""
  }

  lemma RewrittenCells(cells: map<(nat, nat), string>, width: nat, sheetRow: nat, row: seq<string>, k: nat)
    requires (sheetRow, k + 1) !in cells
    ensures Cell(Rewritten(cells, width, sheetRow, row), k) == Cell(row, k) && |Rewritten(cells, width, sheetRow, row)| >= |row|
  {
    assert !Writes(cells, sheetRow, k);
  }

  lemma ChangedRowIsWritten(j: Job, r: nat) returns (k: nat)
    requires JobOk(j) && r < |j.grid| && After(j).grid[r] != j.grid[r]
    ensures Writes(PlanFor(j).cells, r + 1, k)
  {
    hide Progressed, Apart, Strip, Writes;
    k :| 0 <= k < |j.grid[0]| && Writes(PlanFor(j).cells, r + 1, k);
  }

  lemma OtherCellStays(j: Job, r: nat, k: nat)
    requires JobOk(j) && r < |j.grid| && k != j.c.amount && k != j.c.notes
    ensures r < |After(j).grid| && Cell(After(j).grid[r], k) == Cell(j.grid[r], k) && |After(j).grid[r]| >= |j.grid[r]|
  {
    hide PlanFor, Cell, Rewritten, Apart, Writes, Strip;
    OldRowReads(j, r, k);
    RewrittenCells(PlanFor(j).cells, |j.grid[0]|, r + 1, j.grid[r], k);
  }

  lemma WrittenRowIsProposed(j: Job, r: nat, k: nat)
    requires JobOk(j) && r < |j.grid| && Writes(PlanFor(j).cells, r + 1, k)
    ensures r >= 1 && Proposed(j.c, j.year, j.grid[r])
    ensures exists i :: 0 <= i < |j.lines| && LineKey(j.lines[i]) == RowKey(j.c, j.grid[r])
  {
    hide Progressed, AmountDiffers, NotesDiffer, Proposed, RowKey, LineKey, Apart, Strip, Indexed;
    PlanCells(j, |j.lines|);
    var i :| 0 <= i < |j.lines| && SheetRow(j, i) == r + 1 && Wanted(j, i, k + 1);
    IndexIsFirst(j, |j.grid|, LineKey(j.lines[i]));
  }

  /** A row that changes is a proposed row of the year that the tab has a line for, and it keeps every cell but its
      amount and notes, to the letter. */
  lemma OnlyProposedCellsChange(j: Job, r: nat)
    requires JobOk(j) && r < |j.grid| && After(j).grid[r] != j.grid[r]
    ensures r >= 1 && Proposed(j.c, j.year, j.grid[r])
    ensures exists i :: 0 <= i < |j.lines| && LineKey(j.lines[i]) == RowKey(j.c, j.grid[r])
    ensures forall k: nat :: k != j.c.amount && k != j.c.notes ==> Cell(After(j).grid[r], k) == Cell(j.grid[r], k)
    ensures |After(j).grid[r]| >= |j.grid[r]|
  {
    var at := ChangedRowIsWritten(j, r);
    WrittenRowIsProposed(j, r, at);
    AmountIsNotYear(j);
    hide PlanFor, Proposed, RowKey, LineKey, Cell, After, Apart, Writes, Strip, JobOk;
    OtherCellStays(j, r, j.c.fy);
    forall k: nat | k != j.c.amount && k != j.c.notes ensures Cell(After(j).grid[r], k) == Cell(j.grid[r], k) {
      OtherCellStays(j, r, k);
    }
  }

  lemma AmountIsNotYear(j: Job)
    requires JobOk(j)
    ensures j.c.fy != j.c.amount && j.c.fy != j.c.notes
  {
  }

  /** The tab has a line for this key. */
  predicate OnTab(lines: seq<Line>, key: Key) {
    exists i | 0 <= i < |lines| :: LineKey(lines[i]) == key
  }

  /** How a removed sheet row is reported. */
  function RemovedReport(j: Job, r: nat): (string, string, int)
    requires r < |j.grid|
  {
    var e := EntryOf(j.c, r + 1, j.grid[r]);
    (if e.kind != "" then e.kind else RowKey(j.c, j.grid[r]).kind, e.raw, Was(j.other, e))
  }

  /** The first row of a key, and the tab has no line for it. */
  predicate Abandoned(j: Job, r: nat)
    requires r < |j.grid|
  {
    RowOf(j, RowKey(j.c, j.grid[r])) == Some(r) && !OnTab(j.lines, RowKey(j.c, j.grid[r]))
  }

  lemma {:induction false} RemovedMembers(other: string -> Option<int>, at: map<Key, Entry>, order: seq<Key>, seen: set<Key>)
    requires forall k :: k in order ==> k in at
    ensures forall t :: t in RemovedFrom(other, at, order, seen) <==> exists key :: key in order && key !in seen && t == Reported(other, at, key)
  {
    if order != [] {
      var front, key := order[..|order| - 1], order[|order| - 1];
      RemovedMembers(other, at, front, seen);
      assert order == front + [key];
    }
  }

  function Reported(other: string -> Option<int>, at: map<Key, Entry>, key: Key): (string, string, int)
    requires key in at
  {
    (if at[key].kind != "" then at[key].kind else key.kind, at[key].raw, Was(other, at[key]))
  }

  function RemovedFor(j: Job): seq<(string, string, int)>
    requires j.grid != []
  {
    OrderIsDomain(j.c, j.year, j.grid, |j.grid|);
    RemovedFrom(j.other, IndexOf(j).at, IndexOf(j).order, Progressed(j, |j.lines|).seen)
  }

  lemma RemovedForJob(j: Job)
    requires j.grid != []
    ensures forall t :: t in RemovedFor(j) <==> exists r :: 0 <= r < |j.grid| && Abandoned(j, r) && t == RemovedReport(j, r)
  {
    hide Indexed, RemovedFrom, LineKey, Proposed, RowKey, Was, Progressed;
    var x, seen := IndexOf(j), Progressed(j, |j.lines|).seen;
    OrderIsDomain(j.c, j.year, j.grid, |j.grid|);
    RemovedMembers(j.other, x.at, x.order, seen);
    forall t | t in RemovedFor(j) ensures exists r :: 0 <= r < |j.grid| && Abandoned(j, r) && t == RemovedReport(j, r) {
      var key :| key in x.order && key !in seen && t == Reported(j.other, x.at, key);
      IndexIsFirst(j, |j.grid|, key);
      SeenAreTheKeys(j, |j.lines|, key);
      assert Abandoned(j, RowOf(j, key).value);
    }
    forall r | 0 <= r < |j.grid| && Abandoned(j, r) ensures RemovedReport(j, r) in RemovedFor(j) {
      var key := RowKey(j.c, j.grid[r]);
      IndexIsFirst(j, |j.grid|, key);
      SeenAreTheKeys(j, |j.lines|, key);
      assert key in x.order && key !in seen && RemovedReport(j, r) == Reported(j.other, x.at, key);
    }
  }

  /** `removed` reports exactly the sheet's proposed keys that the tab has no line for. */
  lemma RemovedIsAbandoned(other: string -> Option<int>, grid: Grid, lines: seq<Line>, fy: nat)
    requires grid != [] && HasColumns(grid[0])
    ensures var p, j := PlanOf(other, grid, lines, fy), JobOf(other, grid, lines, fy);
            p.Ok? && forall t :: t in p.plan.removed <==> exists r :: 0 <= r < |grid| && Abandoned(j, r) && t == RemovedReport(j, r)
  {
    hide Decimal, HasColumns, ColumnsOf, Indexed, PlanLines, RemovedFrom, Abandoned, RemovedReport;
    var j := JobOf(other, grid, lines, fy);
    assert lines[..|lines|] == lines;
    assert PlanOf(other, grid, lines, fy).plan.removed == RemovedFor(j);
    RemovedForJob(j);
  }
}
