/** The filled-in approval e-mail parses back to its amount and reference, exactly when it can. */
module ConfirmationLaws {
  import opened Common
  import opened Digits
  import opened Money
  import opened Scans
  import opened TextLines
  import opened Grouped
  import opened Confirmation

  // ---------- The letter's lines ----------

  function HeadLines(a: Approval, reference: string): seq<string> {
    [Greeting(a), "", Intro(a), LABEL + reference]
  }

  function LetterLines(a: Approval, signoff: seq<string>, reference: string): seq<string> {
    HeadLines(a, reference) + (if a.context != "" then [""] + ConfiguredLines(a.context) else [])
    + [""] + ConfiguredLines(Join(signoff))
  }

  /** Configured texts a mail can carry unharmed: no NUL, no trailing carriage return, a visible last line. */
  predicate Configured(a: Approval, signoff: seq<string>) {
    var s := Join(signoff);
    && signoff != [] && s != "" && s[|s| - 1] != '\n' && s[|s| - 1] != '\r' && '\0' !in s
    && '\0' !in a.context && (a.context != "" ==> a.context[|a.context| - 1] != '\r')
    && '\0' !in a.requestor
  }

  lemma {:induction false} TokenPrefixShape(s: string)
    ensures forall k :: 0 <= k < |TokenPrefix(s)| ==> !IsSpace(TokenPrefix(s)[k]) && TokenPrefix(s)[k] in s
    ensures s != "" && !IsSpace(s[0]) ==> TokenPrefix(s) != ""
  {
    if s != "" {
      TokenPrefixShape(s[1..]);
    }
  }

  /** A first name is one visible word of the requestor's name, or "there". */
  lemma FirstNameShape(requestor: string)
    ensures var n := FirstName(requestor); n != "" && forall c :: c in n ==> !IsSpace(c)
    ensures '\0' !in requestor ==> Plain(FirstName(requestor))
  {
    StripLeftShape(requestor);
    StripRightShape(StripLeft(requestor));
    var name := Strip(requestor);
    assert forall c :: c in name ==> c in StripLeft(requestor);
    var n := FirstName(requestor);
    if name != "" {
      assert name[0] == StripLeft(requestor)[0];
      TokenPrefixShape(name);
    }
    assert forall k :: 0 <= k < |n| ==> n[k] in n && !IsSpace(n[k]) && ('\0' !in requestor ==> n[k] != '\0');
  }

  predicate Plain(s: string) {
    forall k | 0 <= k < |s| :: s[k] != '\r' && s[k] != '\n' && s[k] != '\0'
  }

  lemma {:induction false} ThousandsPlain(n: nat)
    ensures forall c :: c in Thousands(n) ==> IsDigit(c) || c == ','
  {
    if n >= 1000 {
      ThousandsPlain(n / 1000);
    }
  }

  lemma FiguresPlain(c: nat)
    ensures Plain(Figures(c))
  {
    ThousandsPlain(c / 100);
    hide Thousands;
    var whole := Thousands(c / 100);
    assert forall k :: 0 <= k < |whole| ==> whole[k] in whole;
  }

  predicate Tidy(line: string) {
    Plain(line) && StripRight(line) == line
  }

  lemma PlainAppend(a: string, b: string)
    requires Plain(a) && Plain(b)
    ensures Plain(a + b)
  {
  }

  lemma GreetingTidy(name: string)
    requires Plain(name)
    ensures Tidy("Hello " + name + ",")
  {
    StripRightSolid("Hello " + name + ",");
    hide StripRight;
    PlainAppend("Hello ", name);
    PlainAppend("Hello " + name, ",");
  }

  lemma IntroTidy(figures: string)
    requires Plain(figures)
    ensures Tidy(INTRO_HEAD + figures + APPROVED + SENT_BY + "Zelle" + ".")
  {
    StripRightSolid(INTRO_HEAD + figures + APPROVED + SENT_BY + "Zelle" + ".");
    assert Plain(INTRO_HEAD) && Plain(APPROVED) && Plain(SENT_BY) && Plain("Zelle") && Plain(".");
    hide StripRight, Plain;
    PlainAppend(INTRO_HEAD, figures);
    PlainAppend(INTRO_HEAD + figures, APPROVED);
    PlainAppend(INTRO_HEAD + figures + APPROVED, SENT_BY);
    PlainAppend(INTRO_HEAD + figures + APPROVED + SENT_BY, "Zelle");
    PlainAppend(INTRO_HEAD + figures + APPROVED + SENT_BY + "Zelle", ".");
  }

  lemma LabelTidy(reference: string)
    requires IsReference(reference)
    ensures Tidy(LABEL + reference)
  {
    var line := LABEL + reference;
    assert line[|line| - 1] == reference[|reference| - 1] && IsToken(reference[|reference| - 1]);
    StripRightSolid(line);
    hide StripRight;
    assert Plain(LABEL) && Plain(reference);
    PlainAppend(LABEL, reference);
  }

  lemma TwoBreaks(a: string, b: string)
    ensures Split(a + "\n\n" + b) == Split(a) + [""] + Split(b)
  {
    assert a + "\n\n" + b == a + "\n" + ("" + "\n" + b);
    SplitAppend(a, "" + "\n" + b);
    SplitAppend("", b);
    assert Split("") == [""];
  }

  function HeadText(a: Approval, reference: string): string {
    Greeting(a) + "\n\n" + Intro(a) + "\n" + (LABEL + reference)
  }

  lemma FourLines(greeting: string, intro: string, confirmation: string)
    requires Tidy(greeting) && Tidy(intro) && Tidy(confirmation)
    ensures var text, lines := greeting + "\n\n" + intro + "\n" + confirmation, [greeting, "", intro, confirmation];
            && Split(text) == lines && Trimmed(lines) == lines && Normal(text) == text && '\0' !in text
  {
    hide Split, Normal, StripRight;
    var rest := intro + "\n" + confirmation;
    var text := greeting + "\n\n" + rest;
    assert greeting + "\n\n" + intro + "\n" + confirmation == text;
    TwoBreaks(greeting, rest);
    SplitAppend(intro, confirmation);
    SplitOneLine(greeting);
    SplitOneLine(intro);
    SplitOneLine(confirmation);
    NormalPlain(text);
    StripRightSolid("");
  }

  lemma HeadTidy(a: Approval, signoff: seq<string>, reference: string)
    requires Configured(a, signoff) && a.channel == "Zelle" && IsReference(reference)
    ensures Tidy(Greeting(a)) && Tidy(Intro(a)) && Tidy(LABEL + reference)
  {
    FirstNameShape(a.requestor);
    FiguresPlain(a.total);
    hide FirstName, Tidy, Plain, Figures, IsReference;
    GreetingTidy(FirstName(a.requestor));
    IntroTidy(Figures(a.total));
    LabelTidy(reference);
  }

  lemma HeadSplits(a: Approval, signoff: seq<string>, reference: string)
    requires Configured(a, signoff) && a.channel == "Zelle" && IsReference(reference)
    ensures Split(HeadText(a, reference)) == HeadLines(a, reference) == Trimmed(HeadLines(a, reference))
    ensures Normal(HeadText(a, reference)) == HeadText(a, reference) && '\0' !in HeadText(a, reference)
  {
    HeadTidy(a, signoff, reference);
    hide Split, Greeting, IsReference, Trimmed, Normal, Tidy, Intro, Configured;
    FourLines(Greeting(a), Intro(a), LABEL + reference);
  }

  lemma {:induction false} NormalChars(s: string)
    requires '\0' !in s
    ensures '\0' !in Normal(s)
    decreases |s|
  {
    if s != "" {
      NormalChars(s[FirstWidth(s)..]);
    }
  }

  lemma {:induction false} SplitChars(s: string)
    requires '\0' !in s
    ensures forall i :: 0 <= i < |Split(s)| ==> '\0' !in Split(s)[i]
  {
    if s != "" {
      SplitChars(s[1..]);
    }
  }

  /** The text is not changed by stripping breaks, and no line of it holds a NUL. */
  lemma PaymentLinesOf(text: string, body: string)
    requires body == Normal(text) && '\0' !in text
    requires body != "" && body[0] != '\n' && body[|body| - 1] != '\n'
    ensures PaymentLines(text) == Some(Trimmed(Split(body)))
  {
    hide Normal, Split, StripRight;
    StripBreaksSolid(body);
    NormalChars(text);
    SplitChars(body);
    forall i | 0 <= i < |Split(body)| ensures '\0' !in StripRight(Split(body)[i]) {
      StripRightShape(Split(body)[i]);
    }
  }

  /** A text closed by a blank line and a configured one, line by line. */
  lemma ClosedText(front: string, s: string)
    requires s != "" && s[|s| - 1] != '\r'
    ensures Normal(front + "\n\n" + s) == Normal(front + "\n\n") + Normal(s)
    ensures front == "" || front[|front| - 1] != '\r' ==> Normal(front + "\n\n" + s) == Normal(front) + "\n\n" + Normal(s)
  {
    hide Normal;
    NormalAppend(front + "\n\n", s);
    NormalPlain("\n\n");
    if front == "" || front[|front| - 1] != '\r' {
      NormalAppend(front, "\n\n");
    }
  }

  lemma ClosedLines(front: string, s: string)
    ensures Trimmed(Split(front + "\n\n" + s)) == Trimmed(Split(front)) + [""] + Trimmed(Split(s))
  {
    TwoBreaks(front, s);
    BlankTrims();
    TrimmedAppend(Split(front) + [""], Split(s));
    TrimmedAppend(Split(front), [""]);
    hide Split, Trimmed;
  }

  function MiddleText(a: Approval, reference: string): string {
    if a.context != "" then HeadText(a, reference) + "\n\n" + a.context else HeadText(a, reference)
  }

  lemma MiddleSplits(a: Approval, signoff: seq<string>, reference: string)
    requires Configured(a, signoff) && a.channel == "Zelle" && IsReference(reference)
    ensures var middle := MiddleText(a, reference);
            && middle != "" && middle[0] == 'H' && middle[|middle| - 1] != '\r' && '\0' !in middle
            && Normal(middle) != "" && Normal(middle)[0] == 'H'
            && Trimmed(Split(Normal(middle))) == HeadLines(a, reference) + if a.context != "" then [""] + ConfiguredLines(a.context) else []
  {
    hide Split, Trimmed, Normal, Greeting, Intro, IsReference, HeadLines;
    HeadSplits(a, signoff, reference);
    var head := HeadText(a, reference);
    HeadEnds(a, reference);
    if a.context != "" {
      ClosedText(head, a.context);
      ClosedLines(head, Normal(a.context));
    }
  }

  lemma HeadEnds(a: Approval, reference: string)
    requires IsReference(reference)
    ensures var head := HeadText(a, reference); head != "" && head[0] == 'H' && head[|head| - 1] != '\r'
  {
    hide Intro;
    var head := HeadText(a, reference);
    assert head[|head| - 1] == reference[|reference| - 1] && IsToken(reference[|reference| - 1]);
  }

  lemma LetterSplits(a: Approval, signoff: seq<string>, reference: string)
    requires Configured(a, signoff) && a.channel == "Zelle" && IsReference(reference)
    ensures PaymentLines(Letter(a, signoff, reference)) == Some(LetterLines(a, signoff, reference))
  {
    hide Split, Trimmed, Normal, Greeting, Intro, IsReference, HeadLines, PaymentLines, Join;
    var middle, s := MiddleText(a, reference), Join(signoff);
    var text := Letter(a, signoff, reference);
    assert text == middle + "\n\n" + s;
    MiddleSplits(a, signoff, reference);
    ClosedText(middle, s);
    NormalLast(s);
    var body := Normal(middle) + "\n\n" + Normal(s);
    assert body[0] == 'H' && body[|body| - 1] == s[|s| - 1];
    PaymentLinesOf(text, body);
    ClosedLines(Normal(middle), Normal(s));
  }

  lemma BlankTrims()
    ensures Trimmed([""]) == [""]
  {
  }

  // ---------- Reading the pair ----------

  lemma ThreeParts(a: string, b: string, c: string)
    ensures var s := a + b + c; s[..|a|] == a && s[|a|..|a| + |b|] == b && s[|a| + |b|..] == c && |s| == |a| + |b| + |c|
  {
  }

  lemma IntroReads(a: Approval)
    requires a.channel == "Zelle"
    ensures IntroFigures(Intro(a)) == Some(Figures(a.total))
  {
    var figures, line := Figures(a.total), Intro(a);
    FiguresScan(a.total, "");
    hide Figures, NumberLen;
    assert figures + "" == figures;
    assert line == INTRO_HEAD + figures + INTRO_TAIL;
    ThreeParts(INTRO_HEAD, figures, INTRO_TAIL);
    hide INTRO_HEAD, INTRO_TAIL, Intro;
  }

  lemma LabelReads(reference: string)
    requires IsReference(reference)
    ensures ConfirmedReference(LABEL + reference) == Some(reference)
  {
    hide IsReference;
    var line := LABEL + reference;
    assert line[..|LABEL|] == LABEL && line[|LABEL|..] == reference;
  }

  lemma GreetingGreets(a: Approval)
    ensures Greets(Greeting(a)) <==> |FirstName(a.requestor)| <= 80
  {
    FirstNameShape(a.requestor);
    hide FirstName;
    var name, line := FirstName(a.requestor), Greeting(a);
    assert line[0] == 'H' && line[1] == 'e' && line[2] == 'l';
    assert line[..5] == "Hello" && line[5..|line| - 1] == " " + name;
    assert GREETINGS[0] == "Hello";
    assert GreetsWith(line, "Hello") <==> |name| <= 80;
    forall k | 1 <= k < |GREETINGS| ensures !GreetsWith(line, GREETINGS[k]) {
      assert GREETINGS[k][0] != 'H' || GREETINGS[k][1] != 'e';
    }
  }

  /** Neither line before the pair reads as a bare amount or a bare confirmation. */
  lemma GreetingNotBare(a: Approval)
    ensures !BareMoney(Greeting(a)) && !BareConfirmation(Greeting(a)) && !BareMoney("") && !BareConfirmation("")
  {
    hide FirstName;
    var line := Greeting(a);
    assert line[0] == 'H' && line[1] == 'e';
    assert SkipSpace(line, 0) == 0 && LeadDigits(line) == 0;
    assert line[0..] == line;
  }

  // ---------- The amount scan ----------

  /** No point with a digit after it: no amount. */
  lemma {:induction false} NoPointNoMoney(t: string, i: nat)
    requires i <= |t|
    requires forall p :: i <= p < |t| - 1 && t[p] == '.' ==> !IsDigit(t[p + 1])
    ensures MoneyScan(t, i) == []
    decreases |t| - i
  {
    hide MoneyAt;
    if i < |t| {
      NoPointNoMoney(t, i + 1);
    }
  }

  lemma NoMoneyHere(t: string, i: nat)
    requires i < |t| && (i > 0 ==> IsAlnum(t[i - 1])) && (i == 0 ==> t[0] != '$' && !IsSpace(t[0]) && !IsDigit(t[0]))
    ensures MoneyAt(t, i) == None
  {
    if i == 0 {
      assert SkipSpace(t, 0) == 0 && t[0..] == t && LeadDigits(t) == 0;
    }
  }

  lemma MoneyFound(t: string, i: nat, figures: string, rest: string)
    requires i <= |t| && t[i..] == "$" + figures + rest && (i > 0 ==> !IsAlnum(t[i - 1]))
    requires NumberLen(figures + rest) == Some(|figures|) && IsDigit((figures + rest)[0])
    ensures MoneyAt(t, i) == Some((i + 1, i + 1 + |figures|)) && t[i + 1..i + 1 + |figures|] == figures
  {
    hide NumberLen;
    assert t[i..][0] == '$' && t[i..][1..] == figures + rest;
    assert t[i + 1..] == figures + rest;
    assert t[i + 1] == (figures + rest)[0];
    assert SkipSpace(t, i + 1) == i + 1;
  }

  lemma FiguresStart(c: nat)
    ensures Figures(c) != "" && IsDigit(Figures(c)[0])
  {
  }

  lemma {:induction false} MoneySkipped(t: string, i: nat, n: nat)
    requires i <= n <= |t| && forall k :: i <= k < n ==> MoneyAt(t, k) == None
    ensures MoneyScan(t, i) == MoneyScan(t, n)
    decreases n - i
  {
    hide MoneyAt;
    if i < n {
      MoneySkipped(t, i + 1, n);
    }
  }

  lemma HeadHasNoMoney(t: string, k: nat)
    requires |t| > 6 && t[..6] == INTRO_HEAD && k < 5
    ensures MoneyAt(t, k) == None
  {
    assert forall p :: 0 <= p < 6 ==> t[p] == t[..6][p];
    assert t[0] == 'Y' && t[1] == 'o' && t[2] == 'u' && t[3] == 'r';
    NoMoneyHere(t, k);
  }

  lemma OneAmountIn(t: string, figures: string, rest: string)
    requires |t| == 6 + |figures| + |rest| && t[..6] == INTRO_HEAD && t[5..] == "$" + figures + rest && t[6 + |figures|..] == rest
    requires NumberLen(figures + rest) == Some(|figures|) && IsDigit((figures + rest)[0]) && !IsAlnum(t[4])
    requires forall p :: 0 <= p < |rest| - 1 && rest[p] == '.' ==> !IsDigit(rest[p + 1])
    ensures MoneyScan(t, 0) == [figures]
  {
    hide MoneyAt, NumberLen, IsAlnum, IsDigit;
    MoneyFound(t, 5, figures, rest);
    forall k | 0 <= k < 5 ensures MoneyAt(t, k) == None {
      HeadHasNoMoney(t, k);
    }
    MoneySkipped(t, 0, 5);
    NothingAfter(t, 6 + |figures|, rest);
  }

  lemma HeadedText(figures: string, rest: string)
    ensures var t := INTRO_HEAD + figures + rest;
            && |t| == 6 + |figures| + |rest| && t[..6] == INTRO_HEAD && t[5..] == "$" + figures + rest && t[6 + |figures|..] == rest
            && t[4] == ' '
  {
    assert INTRO_HEAD[4] == ' ' && INTRO_HEAD[5..] == "$";
  }

  /** The pair's two lines hold exactly one amount, the introduction's. */
  lemma OneAmount(c: nat, rest: string)
    requires rest != "" && !IsDigit(rest[0]) && forall p :: 0 <= p < |rest| - 1 && rest[p] == '.' ==> !IsDigit(rest[p + 1])
    ensures MoneyScan(INTRO_HEAD + Figures(c) + rest, 0) == [Figures(c)]
  {
    hide Figures, MoneyAt, NumberLen, MoneyScan;
    FiguresScan(c, rest);
    FiguresStart(c);
    HeadedText(Figures(c), rest);
    OneAmountIn(INTRO_HEAD + Figures(c) + rest, Figures(c), rest);
  }

  lemma NothingAfter(t: string, i: nat, rest: string)
    requires i <= |t| && t[i..] == rest && forall p :: 0 <= p < |rest| - 1 && rest[p] == '.' ==> !IsDigit(rest[p + 1])
    ensures MoneyScan(t, i) == []
  {
    forall p | i <= p < |t| - 1 && t[p] == '.' ensures !IsDigit(t[p + 1]) {
      assert t[p] == rest[p - i] && t[p + 1] == rest[p + 1 - i];
    }
    NoPointNoMoney(t, i);
  }

  // ---------- The reference scan ----------

  /** No label of a reference starts at this place, by the letters around it. */
  predicate Quiet(s: string, k: nat)
    requires k < |s|
  {
    || (k > 0 && IsWord(s[k - 1]))
    || s[k] !in {'c', 'C', 'r', 'R'}
    || (s[k] in {'r', 'R'} && k + 2 < |s| && s[k + 2] !in {'f', 'F'})
  }

  predicate AllQuiet(s: string) {
    forall k | 0 <= k < |s| :: Quiet(s, k)
  }

  lemma QuietAppend(a: string, b: string)
    requires AllQuiet(a) && AllQuiet(b)
    ensures AllQuiet(a + b)
  {
    forall k | 0 <= k < |a + b| ensures Quiet(a + b, k) {
      if k < |a| {
        assert Quiet(a, k);
      } else {
        assert Quiet(b, k - |a|);
      }
    }
  }

  lemma WordStarts(t: string, i: nat, w: string, k: nat)
    requires i <= |t| && WordEnd(t, i, w).Some? && k < |w|
    ensures i + k < |t| && LowerChar(t[i + k]) == w[k]
  {
    assert Lower(t[i..i + |w|])[k] == w[k];
  }

  lemma NoWord(t: string, i: nat, w: string, k: nat)
    requires i <= |t| && k < |w| && (i + k < |t| ==> LowerChar(t[i + k]) != w[k])
    ensures WordEnd(t, i, w) == None
  {
    if WordEnd(t, i, w).Some? {
      WordStarts(t, i, w, k);
    }
  }

  lemma QuietHasNoReference(t: string, i: nat)
    requires i < |t| && Quiet(t, i)
    ensures ReferenceAt(t, i) == None
  {
    hide WordEnd, NumberWords, TokenAfter;
    if !(i > 0 && IsWord(t[i - 1])) {
      if t[i] in {'r', 'R'} {
        NoWord(t, i, "reference", 2);
        NoWord(t, i, "ref", 2);
      } else {
        NoWord(t, i, "reference", 0);
        NoWord(t, i, "ref", 0);
      }
      NoWord(t, i, "confirmation", 0);
      NoWord(t, i, "check", 0);
    }
  }

  /** A quiet stretch is scanned through without a match. */
  lemma {:induction false} QuietSkipped(t: string, i: nat, n: nat)
    requires i <= n <= |t| && forall k :: i <= k < n ==> Quiet(t, k)
    ensures ReferenceScan(t, i) == ReferenceScan(t, n)
    decreases n - i
  {
    hide ReferenceAt, Quiet;
    if i < n {
      QuietHasNoReference(t, i);
      QuietSkipped(t, i + 1, n);
    }
  }

  /** What stands before the label in the pair's text. */
  function Before(a: Approval): string {
    Intro(a) + "\n" + "Zelle "
  }

  lemma ThousandsQuiet(s: string)
    requires forall k :: 0 <= k < |s| ==> IsDigit(s[k]) || s[k] == ',' || s[k] == '.'
    ensures AllQuiet(s)
  {
  }

  lemma WordsQuiet()
    ensures AllQuiet(INTRO_HEAD) && AllQuiet("Zelle") && AllQuiet(".") && AllQuiet("\n") && AllQuiet("Zelle ")
  {
  }

  lemma ApprovedQuiet()
    ensures AllQuiet(APPROVED)
  {
  }

  lemma SentByQuiet()
    ensures AllQuiet(SENT_BY)
  {
  }

  lemma FiguresQuiet(c: nat)
    ensures AllQuiet(Figures(c))
  {
    ThousandsPlain(c / 100);
    hide Thousands, AllQuiet;
    var whole := Thousands(c / 100);
    assert forall k :: 0 <= k < |whole| ==> whole[k] in whole;
    ThousandsQuiet(Figures(c));
  }

  lemma BeforeQuiet(a: Approval)
    requires a.channel == "Zelle"
    ensures AllQuiet(Before(a))
  {
    hide AllQuiet, Figures;
    var figures := Figures(a.total);
    FiguresQuiet(a.total);
    WordsQuiet();
    ApprovedQuiet();
    SentByQuiet();
    QuietAppend(INTRO_HEAD, figures);
    QuietAppend(INTRO_HEAD + figures, APPROVED);
    QuietAppend(INTRO_HEAD + figures + APPROVED, SENT_BY);
    QuietAppend(INTRO_HEAD + figures + APPROVED + SENT_BY, "Zelle");
    QuietAppend(INTRO_HEAD + figures + APPROVED + SENT_BY + "Zelle", ".");
    QuietAppend(Intro(a), "\n");
    QuietAppend(Intro(a) + "\n", "Zelle ");
  }

  lemma {:induction false} TokenAll(s: string)
    requires forall k :: 0 <= k < |s| ==> IsToken(s[k])
    ensures TokenLen(s) == |s|
  {
    if s != "" {
      TokenAll(s[1..]);
    }
  }

  const WORD := "confirmation: "

  lemma NotSpace(reference: string)
    requires IsReference(reference)
    ensures 3 <= |reference| <= 64 && IsAlnum(reference[0]) && IsToken(reference[|reference| - 1])
    ensures HasDigit(reference) && TokenLen(reference) == |reference|
  {
    TokenAll(reference);
  }

  lemma WordThere(t: string, i: nat, w: string)
    requires i + |w| <= |t| && t[i..i + |w|] == w && Lower(w) == w
    ensures WordEnd(t, i, w) == Some(i + |w|)
  {
  }

  /** At the label: its one end. */
  lemma LabelEnd(t: string, i: nat)
    requires i + 14 < |t| && t[i..i + 14] == WORD && (i > 0 ==> !IsWord(t[i - 1]))
    ensures Heads(t, i) == [i + 12]
  {
    assert t[i..i + 14][..12] == t[i..i + 12];
    assert t[i] == WORD[0] && t[i + 1] == WORD[1] && t[i + 12] == WORD[12];
    assert WORD[..12] == "confirmation" && Lower("confirmation") == "confirmation";
    WordThere(t, i, "confirmation");
    hide WordEnd;
    NoWord(t, i, "reference", 0);
    NoWord(t, i, "ref", 0);
    NoWord(t, i, "check", 1);
    assert SkipSpace(t, i + 12) == i + 12;
    assert NumberWords(t, i + 12) == [];
  }

  lemma TokenPlace(t: string, i: nat)
    requires i + 14 < |t| && t[i..i + 14] == WORD && IsAlnum(t[i + 14])
    ensures TokenStart(t, i + 12) == i + 14
  {
    assert t[i + 12] == WORD[12] && t[i + 13] == WORD[13];
    assert SkipSpace(t, i + 12) == i + 12 && SkipSpace(t, i + 13) == SkipSpace(t, i + 14) == i + 14;
  }

  /** A reference that ends the text is taken whole, unless its last character is a dash. */
  lemma TokenAtEnd(t: string, s: nat, reference: string)
    requires IsReference(reference) && s <= |t| && t[s..] == reference
    ensures if IsAlnum(reference[|reference| - 1]) then TokenFrom(t, s) == Some((s, |t|))
            else TokenFrom(t, s).Some? ==> TokenFrom(t, s).value.0 == s && TokenFrom(t, s).value.1 < |t|
  {
    NotSpace(reference);
    hide TokenLen, HasDigit, IsReference;
    assert t[s] == reference[0] && t[|t| - 1] == reference[|reference| - 1];
    assert t[s..s + |reference|] == reference;
  }

  lemma ReferenceHere(front: string, reference: string)
    requires IsReference(reference) && front != "" && !IsWord(front[|front| - 1])
    ensures var t, i := front + WORD + reference, |front|;
            if IsAlnum(reference[|reference| - 1]) then ReferenceAt(t, i) == Some((i + 14, |t|))
            else ReferenceAt(t, i).Some? ==> ReferenceAt(t, i).value.0 == i + 14 && ReferenceAt(t, i).value.1 < |t|
  {
    NotSpace(reference);
    hide Heads, TokenStart, TokenFrom, IsReference;
    var t, i := front + WORD + reference, |front|;
    assert t[i..i + 14] == WORD && t[i + 14..] == reference && t[i + 14] == reference[0];
    LabelEnd(t, i);
    TokenPlace(t, i);
    TokenAtEnd(t, i + 14, reference);
    assert ReferenceAt(t, i) == TokenFrom(t, i + 14);
  }

  /** Past the label's place every reference found is shorter than the whole one. */
  lemma {:induction false} ShorterAfter(t: string, i: nat, reference: string)
    requires i <= |t| && |reference| <= |t| && |t| - |reference| <= i
    ensures reference !in ReferenceScan(t, i)
    decreases |t| - i
  {
    hide ReferenceAt;
    if i < |t| {
      var r := ReferenceAt(t, i);
      ShorterAfter(t, if r.Some? then r.value.1 else i + 1, reference);
    }
  }

  lemma RestOfLabelQuiet(front: string, reference: string, k: nat)
    requires 1 <= k < 14 && IsReference(reference)
    ensures Quiet(front + WORD + reference, |front| + k)
  {
    var t := front + WORD + reference;
    assert t[|front| + k] == WORD[k] && t[|front| + k - 1] == WORD[k - 1];
  }

  /** From the label on, the scan's result hangs on the match at the label. */
  lemma ScanFromLabel(t: string, i: nat, reference: string)
    requires i + 14 <= |t| && t[i + 14..] == reference && |reference| >= 3
    requires forall k :: i + 1 <= k < i + 14 ==> Quiet(t, k)
    requires var r := ReferenceAt(t, i); r.Some? ==> r.value.0 == i + 14
    ensures ReferenceScan(t, i) == [reference] <==> ReferenceAt(t, i) == Some((i + 14, |t|))
  {
    hide ReferenceAt, Quiet;
    QuietSkipped(t, i + 1, i + 14);
    ShorterAfter(t, i + 14, reference);
    var r := ReferenceAt(t, i);
    if r.None? {
      assert reference in [reference];
    } else {
      FirstGroup(t, i, reference);
    }
  }

  lemma FirstGroup(t: string, i: nat, reference: string)
    requires i + 14 <= |t| && t[i + 14..] == reference && |reference| >= 3
    requires var r := ReferenceAt(t, i); r.Some? && r.value.0 == i + 14
    ensures ReferenceScan(t, i) == [reference] <==> ReferenceAt(t, i).value.1 == |t|
  {
    hide ReferenceAt;
    var r := ReferenceAt(t, i);
    var group := t[r.value.0..r.value.1];
    assert |group| == r.value.1 - i - 14;
    assert ReferenceScan(t, i)[0] == group && [reference][0] == reference;
    if r.value.1 == |t| {
      assert group == reference;
    }
  }

  lemma OneReferenceIn(t: string, i: nat, reference: string)
    requires i + 14 <= |t| && t[i + 14..] == reference && |reference| >= 3
    requires ReferenceScan(t, 0) == ReferenceScan(t, i)
    requires forall k :: i + 1 <= k < i + 14 ==> Quiet(t, k)
    requires if IsAlnum(reference[|reference| - 1]) then ReferenceAt(t, i) == Some((i + 14, |t|))
             else ReferenceAt(t, i).Some? ==> ReferenceAt(t, i).value.0 == i + 14 && ReferenceAt(t, i).value.1 < |t|
    ensures ReferenceScan(t, 0) == [reference] <==> IsAlnum(reference[|reference| - 1])
  {
    hide ReferenceScan, ReferenceAt, Quiet, IsAlnum;
    ScanFromLabel(t, i, reference);
  }

  /** The scan finds exactly the reference, when and only when it does not end in a dash. */
  lemma OneReference(front: string, reference: string)
    requires IsReference(reference) && front != "" && !IsWord(front[|front| - 1]) && AllQuiet(front)
    ensures ReferenceScan(front + WORD + reference, 0) == [reference] <==> reference[|reference| - 1] != '-'
  {
    hide ReferenceScan, ReferenceAt, Quiet, IsReference, AllQuiet, IsWord, IsAlnum, IsToken, TokenLen, HasDigit;
    NotSpace(reference);
    ReferenceHere(front, reference);
    FrontSkipped(front, WORD + reference);
    Regrouped(front, reference);
    forall k | |front| + 1 <= k < |front| + 14 ensures Quiet(front + WORD + reference, k) {
      RestOfLabelQuiet(front, reference, k - |front|);
    }
    OneReferenceIn(front + WORD + reference, |front|, reference);
    TokenEnds(reference[|reference| - 1]);
  }

  lemma Regrouped(front: string, reference: string)
    ensures front + WORD + reference == front + (WORD + reference)
    ensures |front| + 14 <= |front + WORD + reference| && (front + WORD + reference)[|front| + 14..] == reference
  {
  }

  lemma TokenEnds(c: char)
    requires IsToken(c)
    ensures IsAlnum(c) <==> c != '-'
  {
  }

  lemma FrontSkipped(front: string, rest: string)
    requires AllQuiet(front)
    ensures ReferenceScan(front + rest, 0) == ReferenceScan(front + rest, |front|)
  {
    hide Quiet, AllQuiet;
    forall k | 0 <= k < |front| ensures Quiet(front + rest, k) {
      QuietThere(front, rest, k);
    }
    QuietSkipped(front + rest, 0, |front|);
  }

  lemma QuietThere(front: string, rest: string, k: nat)
    requires AllQuiet(front) && k < |front|
    ensures Quiet(front + rest, k)
  {
    assert Quiet(front, k);
  }

  // ---------- The round trip ----------

  function PairText(a: Approval, reference: string): string {
    Intro(a) + "\n" + (LABEL + reference)
  }

  /** What follows the amount in the pair's text. */
  function AfterAmount(reference: string): string {
    APPROVED + SENT_BY + "Zelle." + "\n" + "Zelle " + WORD + reference
  }

  predicate NoPoint(s: string) {
    forall k | 0 <= k < |s| :: s[k] != '.'
  }

  lemma PointFree(reference: string)
    requires IsReference(reference)
    ensures NoPoint("\n" + "Zelle " + WORD + reference)
  {
    assert forall k :: 0 <= k < |reference| ==> IsToken(reference[k]);
    assert NoPoint("\n" + "Zelle " + WORD);
  }

  lemma PointFreeIntro()
    ensures NoPoint(APPROVED + SENT_BY + "Zelle") && APPROVED[0] == ' '
  {
    assert NoPoint(APPROVED) && NoPoint(SENT_BY) && NoPoint("Zelle");
  }

  lemma RestHasNoAmount(reference: string)
    requires IsReference(reference)
    ensures var rest := AfterAmount(reference);
            rest != "" && !IsDigit(rest[0]) && forall p :: 0 <= p < |rest| - 1 && rest[p] == '.' ==> !IsDigit(rest[p + 1])
  {
    PointFree(reference);
    PointFreeIntro();
    hide IsReference, NoPoint;
    var rest, head, tail := AfterAmount(reference), APPROVED + SENT_BY + "Zelle", "\n" + "Zelle " + WORD + reference;
    assert rest == head + "." + tail;
    assert rest[..|head|] == head && rest[|head|..] == "." + tail && rest[0] == APPROVED[0];
    NoPointThere(rest, |head|, tail);
  }

  lemma NoPointThere(s: string, point: nat, tail: string)
    requires point < |s| && NoPoint(s[..point]) && s[point..] == "." + tail && NoPoint(tail) && tail != "" && tail[0] == '\n'
    ensures forall p :: 0 <= p < |s| - 1 && s[p] == '.' ==> !IsDigit(s[p + 1])
  {
    assert forall p :: 0 <= p < point ==> s[..point][p] == s[p];
    forall p | point <= p < |s| - 1 && s[p] == '.' ensures !IsDigit(s[p + 1]) {
      assert s[point..][p - point] == s[p] && s[point..][p - point + 1] == s[p + 1];
    }
  }

  lemma PairTextForms(a: Approval, reference: string)
    requires a.channel == "Zelle"
    ensures PairText(a, reference) == INTRO_HEAD + Figures(a.total) + AfterAmount(reference)
    ensures PairText(a, reference) == Before(a) + WORD + reference
  {
    hide Figures;
    var figures := Figures(a.total);
    assert LABEL == "Zelle " + WORD;
    assert Intro(a) == INTRO_HEAD + figures + (APPROVED + SENT_BY + "Zelle.");
    assert LABEL + reference == "Zelle " + WORD + reference;
    Regroup(INTRO_HEAD + figures, APPROVED + SENT_BY + "Zelle.", "\n", "Zelle ", WORD + reference);
    Regroup(Intro(a), "\n", "Zelle ", WORD, reference);
    assert AfterAmount(reference) == (APPROVED + SENT_BY + "Zelle.") + "\n" + ("Zelle " + (WORD + reference));
  }

  lemma Regroup(a: string, b: string, c: string, d: string, e: string)
    ensures a + b + c + (d + e) == a + (b + c + (d + e)) && a + b + (c + d + e) == a + b + c + d + e
  {
  }

  lemma PairScans(a: Approval, reference: string)
    requires a.channel == "Zelle" && IsReference(reference)
    ensures MoneyScan(PairText(a, reference), 0) == [Figures(a.total)]
    ensures ReferenceScan(PairText(a, reference), 0) == [reference] <==> reference[|reference| - 1] != '-'
  {
    NotSpace(reference);
    BeforeEnds(a);
    RestHasNoAmount(reference);
    hide *;
    BeforeQuiet(a);
    PairTextForms(a, reference);
    OneAmount(a.total, AfterAmount(reference));
    OneReference(Before(a), reference);
  }

  lemma BeforeEnds(a: Approval)
    ensures Before(a) != "" && !IsWord(Before(a)[|Before(a)| - 1])
  {
    hide Intro;
    assert Before(a)[|Before(a)| - 1] == ' ';
  }

  /** No line but the introduction starts a second introduction-and-confirmation pair. */
  predicate OnlyPair(lines: seq<string>) {
    forall i | 0 <= i < |lines| - 1 :: IsPair(lines, i) ==> i == 2
  }

  lemma {:induction false} OnePairFound(lines: seq<string>, n: nat)
    requires n < |lines| && (3 < |lines| ==> IsPair(lines, 2)) && OnlyPair(lines)
    ensures Pairs(lines, n) == if n > 2 then [2] else []
  {
    hide IsPair;
    if n > 0 {
      OnePairFound(lines, n - 1);
    }
  }

  lemma PairsOfLetter(lines: seq<string>)
    requires |lines| > 3 && IsPair(lines, 2)
    ensures var pairs := Pairs(lines, |lines| - 1); 2 in pairs && (|pairs| == 1 <==> OnlyPair(lines)) && (|pairs| == 1 ==> pairs == [2])
  {
    hide IsPair, Pairs;
    var pairs := Pairs(lines, |lines| - 1);
    assert 2 in pairs;
    if OnlyPair(lines) {
      OnePairFound(lines, |lines| - 1);
    } else {
      var i :| 0 <= i < |lines| - 1 && IsPair(lines, i) && i != 2;
      assert i in pairs;
    }
  }

  /** What the round trip needs, each a thing a sender can check before sending. */
  predicate Parseable(a: Approval, signoff: seq<string>, reference: string) {
    && |FirstName(a.requestor)| <= 80
    && OnlyPair(LetterLines(a, signoff, reference))
    && reference != "" && reference[|reference| - 1] != '-'
    && a.total > 0
  }

  lemma LetterHead(a: Approval, signoff: seq<string>, reference: string)
    ensures var lines := LetterLines(a, signoff, reference);
            |lines| > 4 && lines[0] == Greeting(a) && lines[1] == "" && lines[2] == Intro(a) && lines[3] == LABEL + reference
  {
    hide ConfiguredLines, Greeting, Intro, Join;
  }

  lemma LetterPair(a: Approval, signoff: seq<string>, reference: string)
    requires a.channel == "Zelle" && IsReference(reference)
    ensures var lines := LetterLines(a, signoff, reference);
            && |lines| > 4 && lines[0] == Greeting(a) && lines[1] == "" && lines[2] == Intro(a) && lines[3] == LABEL + reference
            && IntroFigures(lines[2]) == Some(Figures(a.total)) && ConfirmedReference(lines[3]) == Some(reference)
  {
    hide *;
    IntroReads(a);
    LabelReads(reference);
    LetterHead(a, signoff, reference);
  }

  lemma AroundPair(a: Approval, signoff: seq<string>, reference: string)
    requires signoff != []
    ensures var lines := LetterLines(a, signoff, reference);
            |lines| > 4 && lines[..2] == [Greeting(a), ""] && lines[4..] == ExpectedSuffix(signoff, a.context)
  {
    hide ConfiguredLines, Greeting, Intro, Join;
  }

  /** The two lines before the pair pass as a greeting exactly when the name fits, and are not bare evidence. */
  predicate PrefixOk(prefix: seq<string>, fits: bool) {
    && |prefix| == 2 && prefix[1] == "" && (Greets(prefix[0]) <==> fits)
    && forall k | 0 <= k < 2 :: !BareMoney(prefix[k]) && !BareConfirmation(prefix[k])
  }

  lemma PrefixPasses(a: Approval)
    ensures PrefixOk([Greeting(a), ""], |FirstName(a.requestor)| <= 80)
  {
    GreetingGreets(a);
    GreetingNotBare(a);
    hide Greeting, Greets, BareMoney, BareConfirmation, FirstName;
  }

  lemma ReadPairBy(lines: seq<string>, signoff: seq<string>, context: string, p: Payment, fits: bool, whole: bool)
    requires |lines| > 4 && PrefixOk(lines[..2], fits) && lines[4..] == ExpectedSuffix(signoff, context)
    requires IntroFigures(lines[2]) == Some(Figures(p.cents)) && ConfirmedReference(lines[3]) == Some(p.reference)
    requires var text := lines[2] + "\n" + lines[3];
             MoneyScan(text, 0) == [Figures(p.cents)] && (ReferenceScan(text, 0) == [p.reference] <==> whole)
    requires CentsOf(Figures(p.cents)) == Some(p.cents)
    ensures IsPair(lines, 2) && ReadPair(lines, 2, signoff, context) == if fits && whole && p.cents > 0 then Some([p]) else None
  {
    hide IntroFigures, ConfirmedReference, Greets, BareMoney, BareConfirmation, MoneyScan, ReferenceScan, Figures, CentsOf, ExpectedSuffix;
    assert 2 + 2 == 4;
  }

  lemma ReadLetter(a: Approval, signoff: seq<string>, reference: string)
    requires signoff != [] && a.channel == "Zelle" && IsReference(reference) && reference != ""
    ensures var lines := LetterLines(a, signoff, reference);
            && |lines| > 3 && IsPair(lines, 2)
            && ReadPair(lines, 2, signoff, a.context)
            == if |FirstName(a.requestor)| <= 80 && reference[|reference| - 1] != '-' && a.total > 0
               then Some([Payment(a.total, reference)]) else None
  {
    hide *;
    LetterPair(a, signoff, reference);
    AroundPair(a, signoff, reference);
    PrefixPasses(a);
    PairScans(a, reference);
    FiguresReadBack(a.total);
    PairTextIs(a, reference);
    ReadPairBy(LetterLines(a, signoff, reference), signoff, a.context, Payment(a.total, reference),
      |FirstName(a.requestor)| <= 80, reference[|reference| - 1] != '-');
  }

  lemma PairTextIs(a: Approval, reference: string)
    ensures PairText(a, reference) == Intro(a) + "\n" + (LABEL + reference)
  {
  }

  lemma ParseByLines(text: string, lines: seq<string>, signoff: seq<string>, context: string)
    requires PaymentLines(text) == Some(lines) && |lines| > 3 && IsPair(lines, 2)
    ensures ParseGenerated(text, signoff, context) == if OnlyPair(lines) then ReadPair(lines, 2, signoff, context) else None
  {
    PairsOfLetter(lines);
    hide PaymentLines, Pairs, IsPair, OnlyPair, ReadPair;
  }

  /** A filled-in letter parses to exactly its amount and reference when it is parseable, and to nothing otherwise. */
  lemma LetterParsesExactly(a: Approval, signoff: seq<string>, reference: string)
    requires Configured(a, signoff) && a.channel == "Zelle" && IsReference(reference)
    ensures ParseGenerated(Letter(a, signoff, reference), signoff, a.context)
         == if Parseable(a, signoff, reference) then Some([Payment(a.total, reference)]) else None
  {
    NotSpace(reference);
    HasSignoff(a, signoff);
    ParseableMeans(a, signoff, reference);
    hide *;
    LetterSplits(a, signoff, reference);
    ReadLetter(a, signoff, reference);
    ParseByLines(Letter(a, signoff, reference), LetterLines(a, signoff, reference), signoff, a.context);
  }

  /** A reference the confirmation line takes, but whose dash at the end hides it from the reference scan. */
  lemma DashedReferenceIsLost()
    ensures var a, signoff := Approval("Ann", 1000, "Zelle", ""), ["Treasurer"];
            && ConfirmedReference(LABEL + "A1-") == Some("A1-") && Configured(a, signoff)
            && ParseGenerated(Letter(a, signoff, "A1-"), signoff, a.context) == None
  {
    var a, signoff := Approval("Ann", 1000, "Zelle", ""), ["Treasurer"];
    assert IsReference("A1-") by {
      assert IsDigit("A1-"[1]);
    }
    OneLineSignoff();
    LabelReads("A1-");
    hide Letter, ParseGenerated, Configured, IsReference, ConfirmedReference, OnlyPair, LetterLines, FirstName;
    LetterParsesExactly(a, signoff, "A1-");
  }

  lemma OneLineSignoff()
    ensures Configured(Approval("Ann", 1000, "Zelle", ""), ["Treasurer"])
  {
    assert Join(["Treasurer"]) == "Treasurer";
  }

  lemma HasSignoff(a: Approval, signoff: seq<string>)
    requires Configured(a, signoff)
    ensures signoff != []
  {
  }

  lemma ParseableMeans(a: Approval, signoff: seq<string>, reference: string)
    requires reference != ""
    ensures Parseable(a, signoff, reference) <==>
              |FirstName(a.requestor)| <= 80 && OnlyPair(LetterLines(a, signoff, reference)) && reference[|reference| - 1] != '-' && a.total > 0
  {
    hide FirstName, OnlyPair, LetterLines;
  }

  /** Without a negative phrase the whole blocks parser gives the same payment. */
  lemma LetterSettles(negative: string -> bool, batch: (string, seq<string>) -> Option<seq<Payment>>, a: Approval,
      signoff: seq<string>, reference: string)
    requires Configured(a, signoff) && a.channel == "Zelle" && IsReference(reference)
    requires Parseable(a, signoff, reference) && !negative(Letter(a, signoff, reference))
    ensures ParseBlocks(negative, batch, Letter(a, signoff, reference), signoff, a.context) == Some([Payment(a.total, reference)])
  {
    hide Letter, ParseGenerated, Parseable, Configured, IsReference;
    LetterParsesExactly(a, signoff, reference);
  }
}
