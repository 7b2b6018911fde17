/** Money as text: the budget tab's plain numerals and the e-mails' grouped dollars, each with its reader. */
module Money {
  import opened Common
  import opened Digits

  // ---------- Reading ----------

  /** Every occurrence of a character removed. */
  function Without(s: string, c: char): string {
    if s == "" then "" else if s[0] == c then Without(s[1..], c) else [s[0]] + Without(s[1..], c)
  }

  /** The position of the first decimal point, or the length. */
  function PointAt(s: string): (p: nat)
    ensures p <= |s| && (p < |s| ==> s[p] == '.')
  {
    if s == "" || s[0] == '.' then 0 else 1 + PointAt(s[1..])
  }

  /** Digits with at most two decimals, in cents. */
  function UnsignedCents(s: string): Option<nat> {
    var p := PointAt(s);
    if p == 0 || !AllDigits(s[..p]) then None
    else if p == |s| then Some(Value(s) * 100)
    else
      var decimals := s[p + 1..];
      if !AllDigits(decimals) then None
      else if |decimals| == 2 then Some(Value(s[..p]) * 100 + Value(decimals))
      else if |decimals| == 1 then Some(Value(s[..p]) * 100 + Value(decimals) * 10)
      else None
  }

  function PlainCents(s: string): Option<int> {
    if s != "" && s[0] == '-' then
      var c: Option<int> := UnsignedCents(s[1..]);
      if c.Some? then Some(-c.value) else None
    else UnsignedCents(s)
  }

  /**
   * A money-ish cell in cents: `$`, commas and outer blanks dropped, parentheses negating. `other` reads the
   * remaining spellings a float may have.
   */
  function Num(other: string -> Option<int>, s: string): Option<int> {
    var t := Strip(Without(Without(s, ','), '$'));
    if t == "" then None
    else
      var negative := |t| >= 2 && t[0] == '(' && t[|t| - 1] == ')';
      var body := if negative then t[1..|t| - 1] else t;
      var value := if PlainCents(body).Some? then PlainCents(body) else other(body);
      if value.None? then None else Some(if negative then -value.value else value.value)
  }

  // ---------- Plain printing ----------

  function Abs(c: int): nat { if c < 0 then -c else c }

  function Cent(n: nat): string
    requires n < 100
  {
    if n % 10 == 0 then [DigitChar(n / 10)] else [DigitChar(n / 10), DigitChar(n % 10)]
  }

  /** Whole amounts without decimals, others with their trailing zero trimmed. */
  function Unsigned(c: nat): string {
    if c % 100 == 0 then Decimal(c / 100) else Decimal(c / 100) + "." + Cent(c % 100)
  }

  function FmtAmount(c: int): string {
    (if c < 0 then "-" else "") + Unsigned(Abs(c))
  }

  // ---------- The plain form reads back ----------

  lemma {:induction false} PointAfter(s: string, t: string)
    requires AllDigits(s)
    ensures PointAt(s) == |s|
    ensures PointAt(s + "." + t) == |s|
  {
    if s != "" {
      PointAfter(s[1..], t);
      assert (s + "." + t)[1..] == s[1..] + "." + t;
    }
  }

  lemma TwoDigits(n: nat)
    requires n < 100
    ensures AllDigits(Cent(n)) && Value(Cent(n)) == if n % 10 == 0 then n / 10 else n
    ensures AllDigits([DigitChar(n / 10), DigitChar(n % 10)]) && Value([DigitChar(n / 10), DigitChar(n % 10)]) == n
  {
    var a, b := DigitChar(n / 10), DigitChar(n % 10);
    assert [a, b][..1] == [a] && [a][..0] == [];
    assert Value([a]) == n / 10;
  }

  lemma UnsignedReads(c: nat)
    ensures UnsignedCents(Unsigned(c)) == Some(c)
  {
    hide Decimal, PointAt, Value, DigitChar, Cent;
    var whole := Decimal(c / 100);
    if c % 100 == 0 {
      PointAfter(whole, "");
      assert whole[..|whole|] == whole;
    } else {
      var decimals := Cent(c % 100);
      PointAfter(whole, decimals);
      TwoDigits(c % 100);
      CentLength(c % 100);
      var s := whole + "." + decimals;
      assert s[..|whole|] == whole && s[|whole| + 1..] == decimals;
    }
  }

  lemma CentLength(n: nat)
    requires n < 100
    ensures |Cent(n)| == if n % 10 == 0 then 1 else 2
  {
  }

  predicate PlainChar(c: char) {
    IsDigit(c) || c == '.' || c == '-'
  }

  lemma {:induction false} WithoutKeeps(s: string, c: char)
    requires c !in s
    ensures Without(s, c) == s
  {
    if s != "" {
      WithoutKeeps(s[1..], c);
      assert s == [s[0]] + s[1..];
    }
  }

  lemma UnsignedShape(c: nat)
    ensures Unsigned(c) != "" && IsDigit(Unsigned(c)[0]) && forall k :: 0 <= k < |Unsigned(c)| ==> PlainChar(Unsigned(c)[k])
  {
    if c % 100 != 0 {
      TwoDigits(c % 100);
    }
  }

  lemma StripPlain(s: string)
    requires s != "" && forall k :: 0 <= k < |s| ==> PlainChar(s[k])
    ensures Strip(s) == s
  {
    assert PlainChar(s[0]) && PlainChar(s[|s| - 1]);
  }

  /** Every amount the plain form prints reads back as itself. */
  lemma FmtReads(other: string -> Option<int>, c: int)
    ensures Num(other, FmtAmount(c)) == Some(c)
    ensures Strip(FmtAmount(c)) == FmtAmount(c)
  {
    var s := FmtAmount(c);
    UnsignedShape(Abs(c));
    UnsignedReads(Abs(c));
    hide Unsigned, UnsignedCents, Strip, Without;
    assert forall k :: 0 <= k < |s| ==> PlainChar(s[k]);
    StripPlain(s);
    WithoutKeeps(s, ',');
    WithoutKeeps(s, '$');
    if c < 0 {
      assert s[1..] == Unsigned(Abs(c));
    } else {
      assert s == Unsigned(c);
    }
    assert PlainCents(s) == Some(c);
  }
}
