/** Text as lines: newline normalisation, splitting and joining. */
module TextLines {
  import opened Common

  /** How many characters the first normalised one stands for. */
  function FirstWidth(s: string): (w: nat)
    requires s != ""
    ensures 1 <= w <= |s|
  {
    if s[0] == '\r' && |s| > 1 && s[1] == '\n' then 2 else 1
  }

  function FirstNormal(s: string): char
    requires s != ""
  {
    if s[0] == '\r' then '\n' else s[0]
  }

  /** `\r\n` and lone `\r` become `\n`. */
  function Normal(s: string): string {
    if s == "" then "" else [FirstNormal(s)] + Normal(s[FirstWidth(s)..])
  }

  function Split(s: string): (lines: seq<string>)
    ensures |lines| >= 1
  {
    if s == "" then [""]
    else
      var rest := Split(s[1..]);
      if s[0] == '\n' then [""] + rest else [[s[0]] + rest[0]] + rest[1..]
  }

  function Join(lines: seq<string>): string {
    if lines == [] then "" else if |lines| == 1 then lines[0] else lines[0] + "\n" + Join(lines[1..])
  }

  function StripBreaksLeft(s: string): string {
    if s != "" && s[0] == '\n' then StripBreaksLeft(s[1..]) else s
  }

  function StripBreaksRight(s: string): string {
    if s != "" && s[|s| - 1] == '\n' then StripBreaksRight(s[..|s| - 1]) else s
  }

  function StripBreaks(s: string): string {
    StripBreaksRight(StripBreaksLeft(s))
  }

  function Trimmed(lines: seq<string>): seq<string> {
    seq(|lines|, i requires 0 <= i < |lines| => StripRight(lines[i]))
  }

  /** A configured text as the lines a mail must repeat. */
  function ConfiguredLines(s: string): seq<string> {
    Trimmed(Split(Normal(s)))
  }

  /** A mail's lines; none for an empty mail or one with a NUL. */
  function PaymentLines(text: string): Option<seq<string>> {
    var body := StripBreaks(Normal(text));
    if body == "" then None
    else
      var lines := Trimmed(Split(body));
      if exists i | 0 <= i < |lines| :: '\0' in lines[i] then None else Some(lines)
  }

  lemma {:induction false} NormalAppend(a: string, b: string)
    requires a == "" || a[|a| - 1] != '\r'
    ensures Normal(a + b) == Normal(a) + Normal(b)
    decreases |a|
  {
    if a == "" {
      assert a + b == b;
    } else {
      var w := FirstWidth(a);
      assert FirstWidth(a + b) == w && FirstNormal(a + b) == FirstNormal(a);
      assert (a + b)[w..] == a[w..] + b;
      NormalAppend(a[w..], b);
    }
  }

  lemma {:induction false} NormalPlain(s: string)
    requires '\r' !in s
    ensures Normal(s) == s
  {
    if s != "" {
      NormalPlain(s[1..]);
      assert s == [s[0]] + s[1..];
    }
  }

  lemma {:induction false} NormalLast(s: string)
    requires s != "" && s[|s| - 1] != '\r'
    ensures Normal(s) != "" && Normal(s)[|Normal(s)| - 1] == s[|s| - 1]
    decreases |s|
  {
    if |s| > 1 {
      if s[0] == '\r' && s[1] == '\n' {
        if |s| > 2 {
          NormalLast(s[2..]);
        } else {
          assert Normal(s) == "\n" + Normal(s[2..]) && s[2..] == "";
        }
      } else {
        NormalLast(s[1..]);
      }
    }
  }

  /** A character put before some lines: a break starts a new one, any other joins the first. */
  function Prepended(c: char, lines: seq<string>): seq<string>
    requires lines != []
  {
    if c == '\n' then [""] + lines else [[c] + lines[0]] + lines[1..]
  }

  lemma SplitUnfold(s: string)
    requires s != ""
    ensures Split(s) == Prepended(s[0], Split(s[1..]))
  {
  }

  lemma PrependedAppend(c: char, a: seq<string>, b: seq<string>)
    requires a != []
    ensures Prepended(c, a + b) == Prepended(c, a) + b
  {
  }

  lemma {:induction false} SplitAppend(a: string, b: string)
    ensures Split(a + "\n" + b) == Split(a) + Split(b)
  {
    var s := a + "\n" + b;
    SplitUnfold(s);
    if a == "" {
      assert s[1..] == b && s[0] == '\n';
    } else {
      SplitUnfold(a);
      hide Split, Prepended;
      SplitAppend(a[1..], b);
      PrependedAppend(a[0], Split(a[1..]), Split(b));
      assert s[0] == a[0] && s[1..] == a[1..] + "\n" + b;
    }
  }

  lemma {:induction false} SplitOneLine(s: string)
    requires '\n' !in s
    ensures Split(s) == [s]
  {
    if s != "" {
      SplitOneLine(s[1..]);
      assert s == [s[0]] + s[1..];
    }
  }

  lemma TrimmedAppend(a: seq<string>, b: seq<string>)
    ensures Trimmed(a + b) == Trimmed(a) + Trimmed(b)
  {
  }

  lemma StripBreaksSolid(s: string)
    requires s != "" && s[0] != '\n' && s[|s| - 1] != '\n'
    ensures StripBreaks(s) == s
  {
  }
}
