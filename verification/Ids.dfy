/** Fiscal years and the printed form of transaction ids. */
module Ids {
  import opened Common
  import opened Digits

  datatype Date = Date(year: nat, month: nat, day: nat)

  type Month = m: nat | 1 <= m <= 12 witness 1

  /** A fiscal year is named by the calendar year it ends in. */
  function FiscalYear(d: Date, start: Month): nat {
    if start == 1 then d.year else if d.month >= start then d.year + 1 else d.year
  }

  /** `TXN-FY{yy}-{seq:04d}`. */
  function TxnId(fy: nat, seqNo: nat): string {
    "TXN-FY" + Padded(fy % 100, 2) + "-" + Padded(seqNo, 4)
  }

  /** Reads an id back as (yy, sequence); anything not of the canonical shape is `None`. */
  function ParseId(s: string): Option<(nat, nat)> {
    if |s| >= 13 && s[..6] == "TXN-FY" && AllDigits(s[6..8]) && s[8] == '-' && AllDigits(s[9..])
    then Some((Value(s[6..8]), Value(s[9..])))
    else None
  }

  lemma PaddedYear(yy: nat)
    requires yy < 100
    ensures |Padded(yy, 2)| == 2
  {
    if yy >= 10 {
      assert Decimal(yy) == Decimal(yy / 10) + [DigitChar(yy % 10)];
      assert |Decimal(yy / 10)| == 1;
    }
  }

  lemma IdShape(yy: string, n: string)
    requires |yy| == 2 && |n| >= 4
    ensures var id := "TXN-FY" + yy + "-" + n;
            |id| >= 13 && id[..6] == "TXN-FY" && id[6..8] == yy && id[8] == '-' && id[9..] == n
            && id[0] == 'T' && id[|id| - 1] == n[|n| - 1]
  {
  }

  /** An id reads back as its two-digit year and its sequence. */
  lemma TxnIdRoundTrip(fy: nat, seqNo: nat)
    ensures ParseId(TxnId(fy, seqNo)) == Some((fy % 100, seqNo))
    ensures Strip(TxnId(fy, seqNo)) == TxnId(fy, seqNo) != ""
  {
    hide Padded, Value, Strip;
    var yy, n := Padded(fy % 100, 2), Padded(seqNo, 4);
    PaddedYear(fy % 100);
    PaddedValue(fy % 100, 2);
    PaddedValue(seqNo, 4);
    IdShape(yy, n);
    assert IsDigit(n[|n| - 1]);
    StripSolid(TxnId(fy, seqNo));
  }

  /** Ids coincide only for the same sequence and the same two digits of the year. */
  lemma TxnIdInjective(fy: nat, n: nat, fy': nat, n': nat)
    ensures TxnId(fy, n) == TxnId(fy', n') <==> fy % 100 == fy' % 100 && n == n'
  {
    TxnIdRoundTrip(fy, n);
    TxnIdRoundTrip(fy', n');
  }
}
