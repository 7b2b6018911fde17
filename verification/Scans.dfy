/** The two scans a payment text goes through: amounts and references, leftmost matches first. */
module Scans {
  import opened Common
  import opened Digits

  predicate IsAlnum(c: char) {
    'a' <= c <= 'z' || 'A' <= c <= 'Z' || IsDigit(c)
  }

  predicate IsWord(c: char) {
    IsAlnum(c) || c == '_'
  }

  function SkipSpace(t: string, i: nat): (k: nat)
    requires i <= |t|
    ensures i <= k <= |t|
    ensures forall p :: i <= p < k ==> IsSpace(t[p])
    ensures k < |t| ==> !IsSpace(t[k])
    decreases |t| - i
  {
    if i < |t| && IsSpace(t[i]) then SkipSpace(t, i + 1) else i
  }

  // ---------- Amounts ----------

  function LeadDigits(s: string): (n: nat)
    ensures n <= |s|
  {
    if s != "" && IsDigit(s[0]) then 1 + LeadDigits(s[1..]) else 0
  }

  /** How much of the text `(,ddd)*` takes. */
  function GroupsLen(s: string): (n: nat)
    ensures n <= |s|
  {
    if |s| >= 4 && s[0] == ',' && IsDigit(s[1]) && IsDigit(s[2]) && IsDigit(s[3]) then 4 + GroupsLen(s[4..]) else 0
  }

  /** The length of an amount `d+(,ddd)*.dd` at the start of a text, not followed by another digit. */
  function NumberLen(s: string): (n: Option<nat>)
    ensures n.Some? ==> 4 <= n.value <= |s| && s[n.value - 3] == '.' && IsDigit(s[n.value - 2])
  {
    var d := LeadDigits(s);
    var p := d + GroupsLen(s[d..]);
    if d > 0 && |s| >= p + 3 && s[p] == '.' && IsDigit(s[p + 1]) && IsDigit(s[p + 2]) && !(p + 3 < |s| && IsDigit(s[p + 3]))
    then Some(p + 3) else None
  }

  /** An amount starting right here, as the range of its figures. */
  function NumberFrom(t: string, k: nat): (m: Option<(nat, nat)>)
    requires k <= |t|
    ensures m.Some? ==> m.value.0 == k && k + 4 <= m.value.1 <= |t|
    ensures m.Some? ==> t[m.value.1 - 3] == '.' && IsDigit(t[m.value.1 - 2])
  {
    var n := NumberLen(t[k..]);
    if n.Some? then Some((k, k + n.value)) else None
  }

  /** Past a dollar sign and blanks. */
  function MoneyStart(t: string, i: nat): (k: nat)
    requires i <= |t|
    ensures i <= k <= |t|
  {
    SkipSpace(t, if i < |t| && t[i] == '$' then i + 1 else i)
  }

  /** An amount found at a position, as the range of its figures. */
  function MoneyAt(t: string, i: nat): (m: Option<(nat, nat)>)
    requires i <= |t|
    ensures m.Some? ==> i <= m.value.0 && m.value.0 + 4 <= m.value.1 <= |t|
    ensures m.Some? ==> t[m.value.1 - 3] == '.' && IsDigit(t[m.value.1 - 2])
  {
    if i > 0 && IsAlnum(t[i - 1]) then None else NumberFrom(t, MoneyStart(t, i))
  }

  /** The amounts of a text from a position on. */
  function MoneyScan(t: string, i: nat): seq<string>
    requires i <= |t|
    decreases |t| - i
  {
    if i == |t| then []
    else
      var m := MoneyAt(t, i);
      if m.Some? then [t[m.value.0..m.value.1]] + MoneyScan(t, m.value.1) else MoneyScan(t, i + 1)
  }

  // ---------- References ----------

  /** The end of a word here, letters of either case. */
  function WordEnd(t: string, i: nat, w: string): Option<nat>
    requires i <= |t|
  {
    if i + |w| <= |t| && Lower(t[i..i + |w|]) == w then Some(i + |w|) else None
  }

  /** The ends of `\s+(number|no\.?)` here, in the order they are tried. */
  function NumberWords(t: string, i: nat): (ends: seq<nat>)
    requires i <= |t|
    ensures forall e :: e in ends ==> i < e <= |t|
  {
    var k := SkipSpace(t, i);
    if k == i then []
    else
      (if WordEnd(t, k, "number").Some? then [k + 6] else [])
      + (if WordEnd(t, k, "no.").Some? then [k + 3] else [])
      + (if WordEnd(t, k, "no").Some? then [k + 2] else [])
  }

  function LabelEnds(t: string, i: nat, w: string): (ends: seq<nat>)
    requires i <= |t| && w != ""
    ensures forall e :: e in ends ==> i < e <= |t|
  {
    var e := WordEnd(t, i, w);
    if e.Some? then NumberWords(t, e.value) + [e.value] else []
  }

  function CheckEnds(t: string, i: nat): (ends: seq<nat>)
    requires i <= |t|
    ensures forall e :: e in ends ==> i < e <= |t|
  {
    var e := WordEnd(t, i, "check");
    if e.None? then []
    else
      var k := SkipSpace(t, e.value);
      NumberWords(t, e.value) + if k < |t| && t[k] == '#' then [k + 1] else []
  }

  /** Where the label of a reference may end, for a label starting here. */
  function Heads(t: string, i: nat): (ends: seq<nat>)
    requires i <= |t|
    ensures forall e :: e in ends ==> i < e <= |t|
  {
    if i > 0 && IsWord(t[i - 1]) then []
    else LabelEnds(t, i, "confirmation") + LabelEnds(t, i, "reference") + LabelEnds(t, i, "ref") + CheckEnds(t, i)
  }

  predicate IsToken(c: char) {
    IsAlnum(c) || c == '-'
  }

  function TokenLen(s: string): (n: nat)
    ensures n <= |s| && forall k :: 0 <= k < n ==> IsToken(s[k])
  {
    if s != "" && IsToken(s[0]) then 1 + TokenLen(s[1..]) else 0
  }

  predicate BoundaryAt(t: string, p: nat)
    requires 0 < p <= |t|
  {
    IsWord(t[p - 1]) != (p < |t| && IsWord(t[p]))
  }

  /** The longest reference of at most `n` characters that ends at a word boundary. */
  function Longest(t: string, s: nat, n: nat): (len: Option<nat>)
    requires s + n <= |t|
    ensures len.Some? ==> 3 <= len.value <= n && BoundaryAt(t, s + len.value)
  {
    if n < 3 then None else if BoundaryAt(t, s + n) then Some(n) else Longest(t, s, n - 1)
  }

  predicate HasDigit(s: string) {
    exists k | 0 <= k < |s| :: IsDigit(s[k])
  }

  /** The reference after a label, as its range. */
  function TokenAfter(t: string, h: nat): (r: Option<(nat, nat)>)
    requires h <= |t|
    ensures r.Some? ==> h <= r.value.0 < r.value.1 <= |t| && BoundaryAt(t, r.value.1)
  {
    TokenFrom(t, TokenStart(t, h))
  }

  function TokenFrom(t: string, s: nat): (r: Option<(nat, nat)>)
    requires s <= |t|
    ensures r.Some? ==> s == r.value.0 < r.value.1 <= |t| && BoundaryAt(t, r.value.1)
  {
    if s == |t| || !IsAlnum(t[s]) then None
    else
      var run := TokenLen(t[s..]);
      var len := Longest(t, s, if run > 64 then 64 else run);
      if len.Some? && HasDigit(t[s..s + run]) then Some((s, s + len.value)) else None
  }

  /** Past `\s*[:#-]?\s*`. */
  function TokenStart(t: string, h: nat): (s: nat)
    requires h <= |t|
    ensures h <= s <= |t|
  {
    var a := SkipSpace(t, h);
    SkipSpace(t, if a < |t| && t[a] in {':', '#', '-'} then a + 1 else a)
  }

  function FirstToken(t: string, heads: seq<nat>): (r: Option<(nat, nat)>)
    requires forall e :: e in heads ==> e <= |t|
    ensures r.Some? ==> exists e :: e in heads && TokenAfter(t, e) == r
  {
    if heads == [] then None
    else
      assert heads[0] in heads && forall e :: e in heads[1..] ==> e in heads;
      if TokenAfter(t, heads[0]).Some? then TokenAfter(t, heads[0]) else FirstToken(t, heads[1..])
  }

  function ReferenceAt(t: string, i: nat): (r: Option<(nat, nat)>)
    requires i <= |t|
    ensures r.Some? ==> i < r.value.0 < r.value.1 <= |t| && BoundaryAt(t, r.value.1)
  {
    FirstToken(t, Heads(t, i))
  }

  function ReferenceScan(t: string, i: nat): seq<string>
    requires i <= |t|
    decreases |t| - i
  {
    if i == |t| then []
    else
      var r := ReferenceAt(t, i);
      if r.Some? then [t[r.value.0..r.value.1]] + ReferenceScan(t, r.value.1) else ReferenceScan(t, i + 1)
  }
}
