/** Reading an approval proposal: ticket headings, each followed by its action lines. */
module Proposals {
  import opened Common
  import opened Tickets
  import opened ReducerSpec
  import opened Runs
  import opened RunValidity

  /** What a line is: a heading of references, an action ("clarification" or "approve", the latter perhaps exactly "approve as is"), or prose. */
  datatype Line = Heading(refs: seq<string>) | Action(clarify: bool, exact: bool) | Prose

  /** A heading's references with the actions under it. */
  datatype Part = Part(refs: seq<string>, actions: seq<Line>)

  datatype Reading = Reading(ok: bool, parts: seq<Part>, seen: set<string>)

  function StatusOf(action: Line): Status {
    if action.Action? && action.clarify then C else A
  }

  function StatusesOf(actions: seq<Line>): seq<Status> {
    seq(|actions|, i requires 0 <= i < |actions| => StatusOf(actions[i]))
  }

  function RefSet(refs: seq<string>): set<string> {
    set ref | ref in refs
  }

  /** A heading may name only expected references that no earlier heading named. */
  predicate Welcome(expected: set<string>, seen: set<string>, refs: seq<string>) {
    RefSet(refs) <= expected && RefSet(refs) !! seen
  }

  function ReadLine(expected: set<string>, r: Reading, line: Line): Reading {
    if line.Prose? || !r.ok then r
    else if line.Heading? then
      if Welcome(expected, r.seen, line.refs)
      then Reading(true, r.parts + [Part(line.refs, [])], r.seen + RefSet(line.refs))
      else r.(ok := false)
    else if r.parts == [] then r.(ok := false)
    else
      var last := |r.parts| - 1;
      r.(parts := r.parts[last := Part(r.parts[last].refs, r.parts[last].actions + [line])])
  }

  function ReadLines(expected: set<string>, lines: seq<Line>): Reading {
    if lines == [] then Reading(true, [], {})
    else ReadLine(expected, ReadLines(expected, lines[..|lines| - 1]), lines[|lines| - 1])
  }

  /** A heading of several references takes one action only, exactly "approve as is". */
  predicate PartFits(p: Part) {
    p.actions != [] && (|p.refs| > 1 ==> p.actions == [Action(false, true)])
  }

  /** The part whose heading names a reference. */
  function PartFor(parts: seq<Part>, ref: string): (k: Option<nat>)
    ensures k.Some? ==> k.value < |parts| && ref in parts[k.value].refs
    ensures k.None? ==> forall i :: 0 <= i < |parts| ==> ref !in parts[i].refs
  {
    if parts == [] then None
    else if ref in parts[|parts| - 1].refs then Some(|parts| - 1)
    else PartFor(parts[..|parts| - 1], ref)
  }

  function RecommendationFor(parts: seq<Part>, ref: string): Recommendation {
    var k := PartFor(parts, ref);
    if k.None? then Recommendation(ref, [], false)
    else Recommendation(ref, StatusesOf(parts[k.value].actions), |parts[k.value].refs| > 1)
  }

  predicate NoRepeat(refs: seq<string>) {
    forall i, j | 0 <= i < j < |refs| :: refs[i] != refs[j]
  }

  function Recommendations(lines: seq<Line>, expected: seq<string>): Option<seq<Recommendation>> {
    if expected == [] || !NoRepeat(expected) then None
    else
      var r := ReadLines(RefSet(expected), lines);
      if !r.ok || r.seen != RefSet(expected) || exists k | 0 <= k < |r.parts| :: !PartFits(r.parts[k]) then None
      else Some(seq(|expected|, i requires 0 <= i < |expected| => RecommendationFor(r.parts, expected[i])))
  }

  method ParseProposalRecommendations(lines: seq<Line>, expected: seq<string>) returns (r: Option<seq<Recommendation>>)
    ensures r == Recommendations(lines, expected)
  {
    hide PartFits, RecommendationFor;
    if expected == [] || !NoRepeat(expected) {
      return None;
    }
    var expectedSet := RefSet(expected);
    var parts: seq<Part>, seen: set<string> := [], {};
    for i := 0 to |lines|
      invariant Reading(true, parts, seen) == ReadLines(expectedSet, lines[..i])
    {
      assert lines[..i + 1][..i] == lines[..i];
      var line := lines[i];
      match line {
        case Heading(refs) =>
          if !Welcome(expectedSet, seen, refs) {
            RefusalSticks(expectedSet, lines, i + 1);
            return None;
          }
          seen := seen + RefSet(refs);
          parts := parts + [Part(refs, [])];
        case Action(_, _) =>
          if parts == [] {
            RefusalSticks(expectedSet, lines, i + 1);
            return None;
          }
          var last := |parts| - 1;
          parts := parts[last := Part(parts[last].refs, parts[last].actions + [line])];
        case Prose =>
      }
    }
    assert lines[..|lines|] == lines;
    if seen != expectedSet || exists k | 0 <= k < |parts| :: !PartFits(parts[k]) {
      return None;
    }
    r := Some(seq(|expected|, i requires 0 <= i < |expected| => RecommendationFor(parts, expected[i])));
  }

  lemma {:induction false} RefusalSticks(expected: set<string>, lines: seq<Line>, n: nat)
    requires n <= |lines| && !ReadLines(expected, lines[..n]).ok
    ensures !ReadLines(expected, lines).ok
    decreases |lines| - n
  {
    hide Welcome;
    if n == |lines| {
      assert lines[..n] == lines;
    } else {
      assert lines[..n + 1][..n] == lines[..n];
      RefusalSticks(expected, lines, n + 1);
    }
  }

  // ---------- What a reading rests on ----------

  /** The positions of the headings. */
  function Headings(lines: seq<Line>, n: nat): (h: seq<nat>)
    requires n <= |lines|
    ensures forall k :: 0 <= k < |h| ==> h[k] < n && lines[h[k]].Heading?
  {
    if n == 0 then [] else Headings(lines, n - 1) + if lines[n - 1].Heading? then [n - 1] else []
  }

  /** The action lines of a range. */
  function ActionsIn(lines: seq<Line>, lo: nat, hi: nat): seq<Line>
    requires lo <= hi <= |lines|
    decreases hi
  {
    if lo == hi then [] else ActionsIn(lines, lo, hi - 1) + if lines[hi - 1].Action? then [lines[hi - 1]] else []
  }

  function NextHeading(h: seq<nat>, k: nat, n: nat): nat {
    if k + 1 < |h| then h[k + 1] else n
  }

  /** The k-th part is the k-th heading with the action lines up to the next one. */
  ghost predicate PartsOf(lines: seq<Line>, n: nat, parts: seq<Part>)
    requires n <= |lines|
  {
    |parts| == |Headings(lines, n)| && forall k :: 0 <= k < |parts| ==> PartIs(lines, n, parts[k], k)
  }

  ghost predicate PartIs(lines: seq<Line>, n: nat, part: Part, k: nat)
    requires n <= |lines| && k < |Headings(lines, n)|
  {
    var h := Headings(lines, n);
    h[k] + 1 <= NextHeading(h, k, n) <= n && part == Part(lines[h[k]].refs, ActionsIn(lines, h[k] + 1, NextHeading(h, k, n)))
  }

  lemma {:induction false} PartsFollowHeadings(expected: set<string>, lines: seq<Line>, n: nat)
    requires n <= |lines| && ReadLines(expected, lines[..n]).ok
    ensures PartsOf(lines, n, ReadLines(expected, lines[..n]).parts)
  {
    hide Welcome, PartsOf, ReadLine;
    if n == 0 {
      NoParts(lines);
    } else {
      assert lines[..n][..n - 1] == lines[..n - 1];
      var before := ReadLines(expected, lines[..n - 1]);
      OkBefore(expected, before, lines[n - 1]);
      PartsFollowHeadings(expected, lines, n - 1);
      PartsStep(expected, lines, n - 1, before);
    }
  }

  lemma NoParts(lines: seq<Line>)
    ensures PartsOf(lines, 0, [])
  {
  }

  lemma OkBefore(expected: set<string>, r: Reading, line: Line)
    requires ReadLine(expected, r, line).ok
    ensures r.ok
  {
  }

  lemma PartsStep(expected: set<string>, lines: seq<Line>, n: nat, r: Reading)
    requires n < |lines| && PartsOf(lines, n, r.parts) && ReadLine(expected, r, lines[n]).ok
    ensures PartsOf(lines, n + 1, ReadLine(expected, r, lines[n]).parts)
  {
    hide Welcome, PartIs;
    var parts := ReadLine(expected, r, lines[n]).parts;
    forall k | 0 <= k < |parts| ensures PartIs(lines, n + 1, parts[k], k) {
      if k < |r.parts| {
        assert PartIs(lines, n, r.parts[k], k);
        PartGoesOn(lines, n, r.parts[k], k);
      } else {
        PartBegins(lines, n);
      }
    }
  }

  /** A part already begun: the last one takes an action line, the others stay. */
  lemma PartGoesOn(lines: seq<Line>, n: nat, part: Part, k: nat)
    requires n < |lines| && k < |Headings(lines, n)| && PartIs(lines, n, part, k)
    ensures k < |Headings(lines, n + 1)|
    ensures PartIs(lines, n + 1, if lines[n].Action? && k == |Headings(lines, n)| - 1 then Part(part.refs, part.actions + [lines[n]]) else part, k)
  {
    var h, was := Headings(lines, n + 1), Headings(lines, n);
    assert h[k] == was[k];
    if k < |was| - 1 {
      assert h[k + 1] == was[k + 1];
    } else if lines[n].Heading? {
      assert h[k + 1] == n;
    }
  }

  lemma PartBegins(lines: seq<Line>, n: nat)
    requires n < |lines| && lines[n].Heading?
    ensures var k := |Headings(lines, n)|; k < |Headings(lines, n + 1)| && PartIs(lines, n + 1, Part(lines[n].refs, []), k)
  {
  }

  /** Each reference is named by one heading only. */
  ghost predicate NamedOnce(parts: seq<Part>, seen: set<string>) {
    && (forall i, j :: 0 <= i < j < |parts| ==> RefSet(parts[i].refs) !! RefSet(parts[j].refs))
    && (forall i :: 0 <= i < |parts| ==> RefSet(parts[i].refs) <= seen)
    && (forall ref :: ref in seen ==> exists i :: 0 <= i < |parts| && ref in parts[i].refs)
  }

  lemma {:induction false} EachNamedOnce(expected: set<string>, lines: seq<Line>)
    ensures var r := ReadLines(expected, lines); NamedOnce(r.parts, r.seen)
  {
    if lines != [] {
      EachNamedOnce(expected, lines[..|lines| - 1]);
      StepNamesOnce(expected, ReadLines(expected, lines[..|lines| - 1]), lines[|lines| - 1]);
    }
  }

  lemma StepNamesOnce(expected: set<string>, r: Reading, line: Line)
    requires NamedOnce(r.parts, r.seen)
    ensures var s := ReadLine(expected, r, line); NamedOnce(s.parts, s.seen)
  {
    if r.ok && line.Heading? && Welcome(expected, r.seen, line.refs) {
      HeadingNamesOnce(r.parts, r.seen, line.refs);
    } else if r.ok && line.Action? && r.parts != [] {
      var last := |r.parts| - 1;
      SameNames(r.parts, r.parts[last := Part(r.parts[last].refs, r.parts[last].actions + [line])], r.seen);
    }
    hide NamedOnce, Welcome;
  }

  lemma HeadingNamesOnce(parts: seq<Part>, seen: set<string>, refs: seq<string>)
    requires NamedOnce(parts, seen) && RefSet(refs) !! seen
    ensures NamedOnce(parts + [Part(refs, [])], seen + RefSet(refs))
  {
    var after := parts + [Part(refs, [])];
    forall ref | ref in seen + RefSet(refs) ensures exists i :: 0 <= i < |after| && ref in after[i].refs {
      if ref in seen {
        var i :| 0 <= i < |parts| && ref in parts[i].refs;
        assert after[i] == parts[i];
      } else {
        assert ref in after[|parts|].refs;
      }
    }
  }

  lemma SameNames(parts: seq<Part>, after: seq<Part>, seen: set<string>)
    requires NamedOnce(parts, seen) && |after| == |parts| && forall i :: 0 <= i < |parts| ==> after[i].refs == parts[i].refs
    ensures NamedOnce(after, seen)
  {
    forall ref | ref in seen ensures exists i :: 0 <= i < |after| && ref in after[i].refs {
      var i :| 0 <= i < |parts| && ref in parts[i].refs;
      assert ref in after[i].refs;
    }
  }

  /** What one recommendation says: the actions under the one heading that names its ticket. */
  ghost predicate SaysItsHeading(lines: seq<Line>, rec: Recommendation, ref: string) {
    && rec.ref == ref && rec.statuses != []
    && (forall s :: s in rec.statuses ==> s == A || s == C)
    && (rec.allItems ==> rec.statuses == [A])
    && var h := Headings(lines, |lines|);
       exists k :: 0 <= k < |h| && h[k] + 1 <= NextHeading(h, k, |lines|) <= |lines| && ref in lines[h[k]].refs
                   && rec.statuses == StatusesOf(ActionsIn(lines, h[k] + 1, NextHeading(h, k, |lines|)))
                   && (rec.allItems <==> |lines[h[k]].refs| > 1)
                   && forall j :: 0 <= j < |h| && j != k ==> ref !in lines[h[j]].refs
  }

  /** A proposal that reads gives each expected ticket, in order, the actions under its one heading; only A and C. */
  lemma RecommendationsAreScoped(lines: seq<Line>, expected: seq<string>)
    requires Recommendations(lines, expected).Some?
    ensures var recs := Recommendations(lines, expected).value;
            |recs| == |expected| && forall i :: 0 <= i < |recs| ==> SaysItsHeading(lines, recs[i], expected[i])
  {
    var r := ReadLines(RefSet(expected), lines);
    assert lines[..|lines|] == lines;
    PartsFollowHeadings(RefSet(expected), lines, |lines|);
    EachNamedOnce(RefSet(expected), lines);
    hide ReadLines, ReadLine, Welcome, Headings, ActionsIn;
    forall i | 0 <= i < |expected| ensures SaysItsHeading(lines, RecommendationFor(r.parts, expected[i]), expected[i]) {
      OneSays(lines, r.parts, r.seen, expected[i]);
    }
  }

  lemma OneSays(lines: seq<Line>, parts: seq<Part>, seen: set<string>, ref: string)
    requires PartsOf(lines, |lines|, parts) && NamedOnce(parts, seen) && ref in seen
    requires forall k :: 0 <= k < |parts| ==> PartFits(parts[k])
    ensures SaysItsHeading(lines, RecommendationFor(parts, ref), ref)
  {
    hide Headings, ActionsIn, NextHeading;
    var h, rec, at := Headings(lines, |lines|), RecommendationFor(parts, ref), PartFor(parts, ref);
    var k := at.value;
    assert PartFits(parts[k]) && PartIs(lines, |lines|, parts[k], k);
    assert ref in RefSet(parts[k].refs);
    forall j | 0 <= j < |h| && j != k ensures ref !in lines[h[j]].refs {
      assert RefSet(parts[j].refs) !! RefSet(parts[k].refs);
      assert PartIs(lines, |lines|, parts[j], j);
      assert ref in RefSet(parts[j].refs) <==> ref in lines[h[j]].refs;
    }
    forall s | s in rec.statuses ensures s == A || s == C {}
  }

  /** A run whose reader is this parser reads only A and C from proposals. */
  lemma ParsedProposalsReadAC(run: Run, linesOf: string -> seq<Line>)
    requires forall text, refs :: run.reader.proposal(text, refs) == Recommendations(linesOf(text), refs)
    ensures ProposalsReadAC(run)
  {
    forall text, refs | run.reader.proposal(text, refs).Some?
      ensures forall r :: r in run.reader.proposal(text, refs).value ==> forall s :: s in r.statuses ==> s == A || s == C
    {
      RecommendationsAreScoped(linesOf(text), refs);
      hide Recommendations;
      var recs := run.reader.proposal(text, refs).value;
      forall i | 0 <= i < |recs| ensures forall s :: s in recs[i].statuses ==> s == A || s == C {
        assert SaysItsHeading(linesOf(text), recs[i], refs[i]);
      }
    }
  }

  /** With this parser reading its proposals, a run over sound tickets and a fitting anchor file ends in validated
      tickets, whatever its mails say. */
  lemma ParsedRunKeepsTicketsValid(run: Run, tickets: seq<TicketState>, linesOf: string -> seq<Line>)
    requires forall text, refs :: run.reader.proposal(text, refs) == Recommendations(linesOf(text), refs)
    requires run.anchors.schema != 1 && RunInRange(run, |tickets|) && AllReady(tickets)
    requires forall n, k :: 0 <= k < n < |run.reviewAt| ==> run.reviewAt[k] != run.reviewAt[n]
    requires forall n :: 0 <= n < |run.reviewAt| ==> FileFits(tickets[run.reviewAt[n]], run.anchors.reviews[n])
    ensures forall i :: 0 <= i < |tickets| ==> ValidTicket(AfterAll(run, tickets).tickets[i])
  {
    hide Recommendations, AllReady, FileFits, ValidTicket, ProposalsReadAC, MailsUpTo, ReviewsUpTo, LinksUpTo, OperatorUpTo;
    ParsedProposalsReadAC(run, linesOf);
    FittingFileKeepsTicketsValid(run, tickets);
  }
}
