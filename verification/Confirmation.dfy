/** The generated approval e-mail of a Zelle payment and the strict parser of its filled-in copy. */
module Confirmation {
  import opened Common
  import opened Digits
  import opened Money
  import opened Scans
  import opened TextLines
  import opened Grouped

  /** What an approved ticket's e-mail is written from. */
  datatype Approval = Approval(requestor: string, total: nat, channel: string, context: string)

  datatype Payment = Payment(cents: nat, reference: string)

  const INTRO_HEAD := "Your $"
  const APPROVED := " reimbursement has been "
  const SENT_BY := "approved and sent by "
  const INTRO_TAIL := APPROVED + SENT_BY + "Zelle."
  const LABEL := "Zelle confirmation: "
  const GREETINGS: seq<string> := ["Hello", "Hi", "Dear", "Good morning", "Good afternoon", "Good evening"]

  // ---------- Writing ----------

  function TokenPrefix(s: string): string {
    if s != "" && !IsSpace(s[0]) then [s[0]] + TokenPrefix(s[1..]) else ""
  }

  function FirstName(requestor: string): string {
    var name := Strip(requestor);
    if name == "" then "there" else TokenPrefix(name)
  }

  function Intro(a: Approval): string {
    INTRO_HEAD + Figures(a.total) + APPROVED + SENT_BY + a.channel + "."
  }

  function Greeting(a: Approval): string {
    "Hello " + FirstName(a.requestor) + ","
  }

  /** The e-mail of an approved ticket paid by Zelle, its confirmation line carrying `confirmation`. */
  function Letter(a: Approval, signoff: seq<string>, confirmation: string): string {
    Greeting(a) + "\n\n" + Intro(a) + "\n" + (LABEL + confirmation)
    + (if a.context != "" then "\n\n" + a.context else "") + "\n\n" + Join(signoff)
  }

  // ---------- Reading lines ----------

  /** The figures of an introduction line. */
  function IntroFigures(line: string): Option<string> {
    var n := |INTRO_HEAD|;
    var m := |line| - |INTRO_TAIL|;
    if m >= n && line[..n] == INTRO_HEAD && line[m..] == INTRO_TAIL && NumberLen(line[n..m]) == Some(m - n)
    then Some(line[n..m]) else None
  }

  /** The reference pattern: 3 to 64 letters, digits and dashes, not starting with a dash, some digit among them. */
  predicate IsReference(s: string) {
    && 3 <= |s| <= 64 && IsAlnum(s[0])
    && (forall k | 0 <= k < |s| :: IsToken(s[k]))
    && HasDigit(s)
  }

  function ConfirmedReference(line: string): Option<string> {
    var n := |LABEL|;
    if |line| >= n && line[..n] == LABEL && IsReference(line[n..]) then Some(line[n..]) else None
  }

  predicate GreetsWith(line: string, word: string) {
    && |line| > |word| && line[..|word|] == word && line[|line| - 1] in {',', '!'}
    && var middle := line[|word|..|line| - 1];
       middle == "" || (middle[0] == ' ' && 2 <= |middle| <= 81 && '\r' !in middle && '\n' !in middle)
  }

  predicate Greets(line: string) {
    exists k | 0 <= k < |GREETINGS| :: GreetsWith(line, GREETINGS[k])
  }

  predicate BareMoney(line: string) {
    var k := SkipSpace(line, if line != "" && line[0] == '$' then 1 else 0);
    NumberLen(line[k..]) == Some(|line| - k)
  }

  predicate BareConfirmation(line: string) {
    && 10 <= |line| <= 20
    && (forall k | 0 <= k < |line| :: 'A' <= line[k] <= 'Z' || IsDigit(line[k]))
    && (exists k | 0 <= k < |line| :: 'A' <= line[k] <= 'Z')
    && HasDigit(line)
  }

  // ---------- The parser ----------

  predicate IsPair(lines: seq<string>, i: nat)
    requires i + 1 < |lines|
  {
    IntroFigures(lines[i]).Some? && ConfirmedReference(lines[i + 1]).Some?
  }

  /** The introduction lines among the first `n` that a confirmation line follows. */
  function Pairs(lines: seq<string>, n: nat): (pairs: seq<nat>)
    requires n < |lines|
    ensures forall k :: 0 <= k < |pairs| ==> pairs[k] < n && IsPair(lines, pairs[k])
    ensures forall i :: 0 <= i < n && IsPair(lines, i) ==> i in pairs
  {
    if n == 0 then [] else Pairs(lines, n - 1) + if IsPair(lines, n - 1) then [n - 1] else []
  }

  function ExpectedSuffix(signoff: seq<string>, context: string): seq<string> {
    (if context != "" then [""] + ConfiguredLines(context) else [])
    + if signoff != [] then [""] + ConfiguredLines(Join(signoff)) else []
  }

  function ReadPair(lines: seq<string>, at: nat, signoff: seq<string>, context: string): Option<seq<Payment>>
    requires at + 1 < |lines| && IsPair(lines, at)
  {
    var prefix, suffix := lines[..at], lines[at + 2..];
    var figures, reference := IntroFigures(lines[at]).value, ConfirmedReference(lines[at + 1]).value;
    var text := lines[at] + "\n" + lines[at + 1];
    if prefix != [] && !(|prefix| == 2 && Greets(prefix[0]) && prefix[1] == "") then None
    else if suffix != [] && suffix != ExpectedSuffix(signoff, context) then None
    else if MoneyScan(text, 0) != [figures] || ReferenceScan(text, 0) != [reference] then None
    else if exists k | 0 <= k < |prefix| :: BareMoney(prefix[k]) || BareConfirmation(prefix[k]) then None
    else if CentsOf(figures).None? || CentsOf(figures).value == 0 then None
    else Some([Payment(CentsOf(figures).value, reference)])
  }

  function ParseGenerated(text: string, signoff: seq<string>, context: string): Option<seq<Payment>> {
    var lines := PaymentLines(text);
    if lines.None? then None
    else
      var pairs := if lines.value == [] then [] else Pairs(lines.value, |lines.value| - 1);
      if |pairs| != 1 then None else ReadPair(lines.value, pairs[0], signoff, context)
  }

  method ParseGeneratedSingle(text: string, signoff: seq<string>, context: string) returns (r: Option<seq<Payment>>)
    ensures r == ParseGenerated(text, signoff, context)
  {
    hide Normal, IntroFigures, ConfirmedReference, MoneyScan, ReferenceScan, Greets, BareMoney, BareConfirmation, CentsOf, ConfiguredLines;
    var found := PaymentLines(text);
    if found.None? {
      return None;
    }
    var lines := found.value;
    if lines == [] {
      return None;
    }
    var matches: seq<nat> := [];
    for index := 0 to |lines| - 1
      invariant matches == Pairs(lines, index)
    {
      if IntroFigures(lines[index]).Some? && ConfirmedReference(lines[index + 1]).Some? {
        matches := matches + [index];
      }
    }
    if |matches| != 1 {
      return None;
    }
    r := ReadAround(lines, matches[0], signoff, context);
  }

  /** What stands around the one pair, and the scans over it. */
  method ReadAround(lines: seq<string>, at: nat, signoff: seq<string>, context: string) returns (r: Option<seq<Payment>>)
    requires at + 1 < |lines| && IsPair(lines, at)
    ensures r == ReadPair(lines, at, signoff, context)
  {
    hide MoneyScan, ReferenceScan, Greets, BareMoney, BareConfirmation, CentsOf, ConfiguredLines;
    var prefix, suffix := lines[..at], lines[at + 2..];
    if prefix != [] && !(|prefix| == 2 && Greets(prefix[0]) && prefix[1] == "") {
      return None;
    }
    if suffix != [] && suffix != ExpectedSuffix(signoff, context) {
      return None;
    }
    var figures, reference := IntroFigures(lines[at]).value, ConfirmedReference(lines[at + 1]).value;
    var text := lines[at] + "\n" + lines[at + 1];
    if MoneyScan(text, 0) != [figures] || ReferenceScan(text, 0) != [reference] {
      return None;
    }
    for k := 0 to |prefix|
      invariant forall i :: 0 <= i < k ==> !(BareMoney(prefix[i]) || BareConfirmation(prefix[i]))
    {
      if BareMoney(prefix[k]) || BareConfirmation(prefix[k]) {
        return None;
      }
    }
    var cents := CentsOf(figures);
    if cents.None? || cents.value == 0 {
      return None;
    }
    r := Some([Payment(cents.value, reference)]);
  }

  /** The blocks parser: refused outright on a negative phrase, then the generated form, then the sent batch. */
  function ParseBlocks(negative: string -> bool, batch: (string, seq<string>) -> Option<seq<Payment>>, text: string,
      signoff: seq<string>, context: string): Option<seq<Payment>> {
    if negative(text) then None
    else
      var generated := ParseGenerated(text, signoff, context);
      if generated.Some? then generated else batch(text, signoff)
  }
}
