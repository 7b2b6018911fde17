/** Parsing the editable budget tab. */
module BudgetTab {
  import opened Common
  import opened Money

  datatype Line = Line(kind: string, group: string, item: string, amount: int, notes: string)

  datatype Parsed = Parsed(lines: seq<Line>, skipped: seq<(string, string)>, orphaned: seq<(string, string)>, sections: nat)

  /** The parse so far: the section and sub-section rows fall under. */
  datatype Scan = Scan(kind: Option<string>, group: string, parsed: Parsed)

  function UpperChar(c: char): char {
    if 'a' <= c <= 'z' then c - 'a' + 'A' else c
  }

  function Upper(s: string): string {
    seq(|s|, i requires 0 <= i < |s| => UpperChar(s[i]))
  }

  function SectionKind(a: string): Option<string> {
    if a == "INCOME" then Some("income") else if a == "EXPENSE" then Some("expense") else None
  }

  predicate IsRollup(upper: string) {
    || upper in ["TOTAL", "TOTAL INCOME", "TOTAL EXPENSE"]
    || "SUBTOTAL \U{2014}" <= upper || "SUBTOTAL -" <= upper || "SUBTOTAL:" <= upper
    || "NET (" <= upper || "NET INCOME" <= upper || "NET EXPENSE" <= upper
  }

  function Column(row: seq<string>, i: nat): string {
    if i < |row| then Strip(row[i]) else ""
  }

  function ScanRow(other: string -> Option<int>, s: Scan, row: seq<string>): Scan {
    var a, b, c := Column(row, 0), Column(row, 1), Column(row, 2);
    var p := s.parsed;
    if a == "" then s
    else if SectionKind(a).Some? then Scan(SectionKind(a), "", p.(sections := p.sections + 1))
    else if IsRollup(Upper(a)) then s
    else if Num(other, b).Some? then
      if s.kind.None? then s.(parsed := p.(orphaned := p.orphaned + [(a, b)]))
      else s.(parsed := p.(lines := p.lines + [Line(s.kind.value, s.group, a, Num(other, b).value, c)]))
    else if s.kind.None? then s
    else if b == "" && c == "" then s.(group := a)
    else s.(parsed := p.(skipped := p.skipped + [(a, b)]))
  }

  function Scanned(other: string -> Option<int>, grid: seq<seq<string>>): Scan {
    if grid == [] then Scan(None, "", Parsed([], [], [], 0))
    else ScanRow(other, Scanned(other, grid[..|grid| - 1]), grid[|grid| - 1])
  }

  function ParsedTab(other: string -> Option<int>, grid: seq<seq<string>>): Parsed {
    Scanned(other, grid).parsed
  }

  method ParseBudgetTab(other: string -> Option<int>, grid: seq<seq<string>>) returns (parsed: Parsed)
    ensures parsed == ParsedTab(other, grid)
  {
    hide Num, IsRollup, Upper, Column;
    var lines: seq<Line>, skipped: seq<(string, string)>, orphaned: seq<(string, string)>, sections := [], [], [], 0;
    var kind: Option<string>, group := None, "";
    for i := 0 to |grid|
      invariant Scan(kind, group, Parsed(lines, skipped, orphaned, sections)) == Scanned(other, grid[..i])
    {
      assert grid[..i + 1][..i] == grid[..i];
      var a, b, c := Column(grid[i], 0), Column(grid[i], 1), Column(grid[i], 2);
      if a == "" {
        continue;
      }
      if SectionKind(a).Some? {
        kind, group, sections := SectionKind(a), "", sections + 1;
        continue;
      }
      if IsRollup(Upper(a)) {
        continue;
      }
      var amount := Num(other, b);
      if amount.Some? {
        if kind.None? {
          orphaned := orphaned + [(a, b)];
        } else {
          lines := lines + [Line(kind.value, group, a, amount.value, c)];
        }
        continue;
      }
      if b == "" && c == "" {
        if kind.Some? {
          group := a;
        }
      } else if kind.Some? {
        skipped := skipped + [(a, b)];
      }
    }
    assert grid[..|grid|] == grid;
    parsed := Parsed(lines, skipped, orphaned, sections);
  }

  // ---------- What parsing promises ----------

  /** A numeric row: not a banner, a roll-up or blank, and its amount reads. */
  predicate Numeric(other: string -> Option<int>, row: seq<string>) {
    var a := Column(row, 0);
    a != "" && SectionKind(a).None? && !IsRollup(Upper(a)) && Num(other, Column(row, 1)).Some?
  }

  function CountNumeric(other: string -> Option<int>, grid: seq<seq<string>>): nat {
    if grid == [] then 0 else CountNumeric(other, grid[..|grid| - 1]) + if Numeric(other, grid[|grid| - 1]) then 1 else 0
  }

  /** What a parsed line is: a section's kind, and item and notes without outer blanks. */
  predicate Clean(line: Line) {
    && line.kind in ["income", "expense"]
    && line.item != "" && Strip(line.item) == line.item
    && Strip(line.notes) == line.notes
  }

  /** No numeric row is lost: each one is a line or reported as an orphan; and every line is clean. */
  lemma {:induction false} NumericRowsAccounted(other: string -> Option<int>, grid: seq<seq<string>>)
    ensures var s := Scanned(other, grid);
            && |s.parsed.lines| + |s.parsed.orphaned| == CountNumeric(other, grid)
            && (forall line :: line in s.parsed.lines ==> Clean(line))
            && (s.kind.Some? ==> s.kind.value in ["income", "expense"])
  {
    hide Num, IsRollup, Upper, Strip;
    if grid != [] {
      var row := grid[|grid| - 1];
      NumericRowsAccounted(other, grid[..|grid| - 1]);
      if |row| > 0 { StripIdempotent(row[0]); }
      if |row| > 2 { StripIdempotent(row[2]); }
      StripBlank();
    }
  }
}
