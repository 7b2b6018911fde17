/** Money in thousands-grouped dollars, as the e-mails print it, and its reading. */
module Grouped {
  import opened Common
  import opened Digits
  import opened Money
  import opened Scans

  /** `{n:,}`. */
  function Thousands(n: nat): (s: string)
    ensures s != "" && IsDigit(s[0])
  {
    if n < 1000 then Decimal(n) else Thousands(n / 1000) + "," + ThreeDigits(n % 1000)
  }

  function ThreeDigits(n: nat): (s: string)
    requires n < 1000
    ensures |s| == 3 && AllDigits(s)
  {
    [DigitChar(n / 100), DigitChar(n / 10 % 10), DigitChar(n % 10)]
  }

  function TwoPlaces(n: nat): (s: string)
    requires n < 100
    ensures |s| == 2 && AllDigits(s)
  {
    [DigitChar(n / 10), DigitChar(n % 10)]
  }

  /** `{c / 100:,.2f}`: the figures after the dollar sign. */
  function Figures(c: nat): string {
    Thousands(c / 100) + "." + TwoPlaces(c % 100)
  }

  /** The cents an amount's figures stand for, commas dropped. */
  function CentsOf(figures: string): Option<nat> {
    UnsignedCents(Without(figures, ','))
  }

  // ---------- The printed form is recognised ----------

  lemma {:induction false} LeadAppend(s: string, t: string)
    requires AllDigits(s) && (t == "" || !IsDigit(t[0]))
    ensures LeadDigits(s + t) == |s|
  {
    if s == "" {
      assert s + t == t;
    } else {
      LeadAppend(s[1..], t);
      assert (s + t)[1..] == s[1..] + t;
    }
  }

  lemma OneGroup(three: string, rest: string)
    requires |three| == 3 && AllDigits(three)
    ensures GroupsLen("," + three + rest) == 4 + GroupsLen(rest)
  {
    var s := "," + three + rest;
    assert s[1] == three[0] && s[2] == three[1] && s[3] == three[2] && s[4..] == rest;
  }

  /** The scan takes all of a grouped number and goes on as if it had started after it. */
  lemma {:induction false} ThousandsScan(n: nat, rest: string)
    requires rest == "" || !IsDigit(rest[0])
    ensures var s := Thousands(n) + rest; var d := LeadDigits(s);
            d > 0 && d + GroupsLen(s[d..]) == |Thousands(n)| + GroupsLen(rest)
  {
    hide GroupsLen, LeadDigits, Decimal, ThreeDigits;
    if n < 1000 {
      LeadAppend(Decimal(n), rest);
      assert (Decimal(n) + rest)[|Decimal(n)|..] == rest;
    } else {
      var tail := "," + ThreeDigits(n % 1000) + rest;
      ThousandsScan(n / 1000, tail);
      OneGroup(ThreeDigits(n % 1000), rest);
      assert Thousands(n) + rest == Thousands(n / 1000) + tail;
    }
  }

  lemma FiguresScan(c: nat, rest: string)
    requires rest == "" || !IsDigit(rest[0])
    ensures NumberLen(Figures(c) + rest) == Some(|Figures(c)|)
  {
    hide Thousands, GroupsLen, LeadDigits;
    var whole, places := Thousands(c / 100), TwoPlaces(c % 100);
    var tail := "." + places + rest;
    ThousandsScan(c / 100, tail);
    PointEndsGroups(tail);
    var s := Figures(c) + rest;
    assert s == whole + tail;
    assert s[|whole|] == '.' && s[|whole| + 1] == places[0] && s[|whole| + 2] == places[1];
    assert rest != "" ==> s[|whole| + 3] == rest[0];
  }

  lemma PointEndsGroups(s: string)
    requires s != "" && s[0] == '.'
    ensures GroupsLen(s) == 0
  {
  }

  // ---------- The printed form reads back ----------

  lemma {:induction false} WithoutAppend(a: string, b: string, c: char)
    ensures Without(a + b, c) == Without(a, c) + Without(b, c)
  {
    if a == "" {
      assert a + b == b;
    } else {
      WithoutAppend(a[1..], b, c);
      assert (a + b)[0] == a[0] && (a + b)[1..] == a[1..] + b;
      if a[0] != c {
        assert [a[0]] + (Without(a[1..], c) + Without(b, c)) == [a[0]] + Without(a[1..], c) + Without(b, c);
      }
    }
  }

  lemma AppendDigit(s: string, d: nat)
    requires AllDigits(s) && d < 10
    ensures AllDigits(s + [DigitChar(d)]) && Value(s + [DigitChar(d)]) == Value(s) * 10 + d
  {
    assert (s + [DigitChar(d)])[..|s|] == s;
  }

  lemma AppendThree(s: string, n: nat)
    requires AllDigits(s) && n < 1000
    ensures AllDigits(s + ThreeDigits(n)) && Value(s + ThreeDigits(n)) == Value(s) * 1000 + n
  {
    hide Value, DigitChar;
    var one := s + [DigitChar(n / 100)];
    var two := one + [DigitChar(n / 10 % 10)];
    AppendDigit(s, n / 100);
    AppendDigit(one, n / 10 % 10);
    AppendDigit(two, n % 10);
    assert s + ThreeDigits(n) == two + [DigitChar(n % 10)];
  }

  lemma JustAComma()
    ensures Without(",", ',') == ""
  {
    assert ","[1..] == "";
  }

  lemma CommaGone(a: string, b: string)
    requires AllDigits(b)
    ensures Without(a + "," + b, ',') == Without(a, ',') + b
  {
    hide Without;
    WithoutAppend(a + ",", b, ',');
    WithoutAppend(a, ",", ',');
    WithoutKeeps(b, ',');
    JustAComma();
  }

  lemma PointKept(a: string, b: string)
    requires AllDigits(b)
    ensures Without(a + "." + b, ',') == Without(a, ',') + "." + b
  {
    hide Without;
    WithoutAppend(a + ".", b, ',');
    WithoutAppend(a, ".", ',');
    WithoutKeeps(b, ',');
    WithoutKeeps(".", ',');
  }

  lemma {:induction false} ThousandsValue(n: nat)
    ensures var s := Without(Thousands(n), ','); s != "" && AllDigits(s) && Value(s) == n
  {
    hide Without, Value, ThreeDigits;
    if n < 1000 {
      WithoutKeeps(Decimal(n), ',');
    } else {
      ThousandsValue(n / 1000);
      CommaGone(Thousands(n / 1000), ThreeDigits(n % 1000));
      AppendThree(Without(Thousands(n / 1000), ','), n % 1000);
    }
  }

  /** Printing an amount in grouped dollars and reading it back gives the amount. */
  lemma FiguresReadBack(c: nat)
    ensures CentsOf(Figures(c)) == Some(c)
  {
    hide Thousands, Value, PointAt, TwoPlaces, Without;
    var whole, places := Without(Thousands(c / 100), ','), TwoPlaces(c % 100);
    ThousandsValue(c / 100);
    PointKept(Thousands(c / 100), places);
    PointAfter(whole, places);
    TwoPlacesValue(c % 100);
    var s := whole + "." + places;
    assert s[..|whole|] == whole && s[|whole| + 1..] == places;
  }

  lemma TwoPlacesValue(n: nat)
    requires n < 100
    ensures Value(TwoPlaces(n)) == n
  {
    TwoDigits(n);
  }
}
