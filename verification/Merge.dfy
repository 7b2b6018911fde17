/** Merging a source snapshot into a bundle: the drift check, new tickets, fresh references. */
module Merge {
  import opened Common
  import opened Digits
  import opened Tickets
  import opened TicketLaws
  import opened SourceEvidence

  /** What `source_snapshot_sha256` is taken of: key and digest, in snapshot order. */
  function Payload(s: seq<Evidence>): seq<(string, EvidenceDigest)> {
    seq(|s|, i requires 0 <= i < |s| => (s[i].key, Digest(s[i])))
  }

  function SnapshotDigest(s: seq<Evidence>): Sha<seq<(string, EvidenceDigest)>> {
    Sha(Payload(s))
  }

  function KeysOf(s: seq<Evidence>): set<string> {
    set e | e in s :: e.key
  }

  function Accounted(s: seq<Evidence>, keys: set<string>): seq<Evidence> {
    if s == [] then []
    else Accounted(s[..|s| - 1], keys) + if s[|s| - 1].key in keys then [s[|s| - 1]] else []
  }

  function Unaccounted(s: seq<Evidence>, keys: set<string>): seq<Evidence> {
    if s == [] then []
    else Unaccounted(s[..|s| - 1], keys) + if s[|s| - 1].key in keys then [] else [s[|s| - 1]]
  }

  // ---------- Bundles ----------

  datatype Row = Row(ticket: TicketState, order: nat, evidence: Option<EvidenceDigest>)

  datatype Provenance = Provenance(snapshot: Sha<seq<(string, EvidenceDigest)>>, accounted: set<string>)

  predicate IsSubmission(r: Row) {
    r.ticket.head.origin == Submission
  }

  function RowKey(r: Row): string {
    r.ticket.head.selector.key
  }

  function EvidenceFor(s: seq<Evidence>, key: string): Option<Evidence> {
    if s == [] then None
    else if s[|s| - 1].key == key then Some(s[|s| - 1])
    else EvidenceFor(s[..|s| - 1], key)
  }

  /** A submission row whose recorded digest is not the current one is stale. */
  predicate Stale(r: Row, s: seq<Evidence>) {
    IsSubmission(r) && EvidenceFor(s, RowKey(r)).Some?
    && r.evidence != Some(Digest(EvidenceFor(s, RowKey(r)).value))
  }

  /** The merge's own refusals, in its order. */
  ghost predicate Accepts(rows: seq<Row>, p: Provenance, s: seq<Evidence>) {
    && |KeysOf(s)| == |s|
    && (forall r :: r in rows && IsSubmission(r) ==> RowKey(r) in p.accounted)
    && p.accounted <= KeysOf(s)
    && (p.accounted != {} ==> p.snapshot == SnapshotDigest(Accounted(s, p.accounted)))
    && (forall r :: r in rows ==> !Stale(r, s))
  }

  // ---------- The drift check is exact ----------

  /** The row's submission is in the snapshot, with the digest the row records. */
  ghost predicate Records(r: Row, s: seq<Evidence>) {
    && RowKey(r) in KeysOf(s) && EvidenceFor(s, RowKey(r)).Some?
    && r.evidence == Some(Digest(EvidenceFor(s, RowKey(r)).value))
  }

  /** The bundle records exactly the submissions of the snapshot `was`. */
  ghost predicate RecordedFrom(rows: seq<Row>, p: Provenance, was: seq<Evidence>) {
    && Snapshot(was)
    && (was != [] ==> p.snapshot == SnapshotDigest(was)) && p.accounted == KeysOf(was)
    && forall r :: r in rows && IsSubmission(r) ==> Records(r, was)
  }

  /** Every recorded submission is still there under its key, with all that the digest covers unchanged. */
  ghost predicate Kept(was: seq<Evidence>, s: seq<Evidence>) {
    forall e :: e in was ==> exists f :: f in s && f.key == e.key && DigestedOf(f) == DigestedOf(e)
  }

  lemma {:induction false} AccountedElements(s: seq<Evidence>, keys: set<string>)
    ensures forall e :: e in Accounted(s, keys) <==> e in s && e.key in keys
    ensures forall e :: e in Unaccounted(s, keys) <==> e in s && e.key !in keys
  {
    if s != [] {
      AccountedElements(s[..|s| - 1], keys);
      assert s == s[..|s| - 1] + [s[|s| - 1]];
    }
  }

  lemma {:induction false} AccountedSorted(s: seq<Evidence>, keys: set<string>)
    requires Snapshot(s)
    ensures Snapshot(Accounted(s, keys)) && Snapshot(Unaccounted(s, keys))
  {
    hide Earlier;
    if s != [] {
      var front, last := s[..|s| - 1], s[|s| - 1];
      AccountedSorted(front, keys);
      AccountedElements(front, keys);
      forall e | e in front ensures Earlier(e, last) && e.key != last.key {
        var i :| 0 <= i < |front| && front[i] == e;
        assert s[i] == e;
      }
      SnapshotGrows(Accounted(front, keys), last);
      SnapshotGrows(Unaccounted(front, keys), last);
      assert Accounted(front, keys) + [] == Accounted(front, keys);
      assert Unaccounted(front, keys) + [] == Unaccounted(front, keys);
    }
  }

  lemma SnapshotGrows(s: seq<Evidence>, last: Evidence)
    requires Snapshot(s) && forall e :: e in s ==> Earlier(e, last) && e.key != last.key
    ensures Snapshot(s + [last])
  {
    hide Earlier;
  }

  // ---------- What is digested, in snapshot order ----------

  function Core(s: seq<Evidence>): seq<Digested> {
    seq(|s|, i requires 0 <= i < |s| => DigestedOf(s[i]))
  }

  predicate CoreEarlier(a: Digested, b: Digested) {
    a.received < b.received || (a.received == b.received && Before(a.key, b.key))
  }

  ghost predicate Ordered(d: seq<Digested>) {
    forall i, j :: 0 <= i < j < |d| ==> CoreEarlier(d[i], d[j])
  }

  lemma SnapshotOrdered(s: seq<Evidence>)
    requires Snapshot(s)
    ensures Ordered(Core(s))
  {
    forall i, j | 0 <= i < j < |s| ensures CoreEarlier(Core(s)[i], Core(s)[j]) {
      assert Earlier(s[i], s[j]);
    }
  }

  lemma CoreStrict(a: Digested, b: Digested)
    ensures CoreEarlier(a, b) ==> !CoreEarlier(b, a) && a != b
  {
    if Before(a.key, b.key) {
      BeforeAsymmetric(a.key, b.key);
    }
  }

  /** An ordered list of digested payloads is determined by its elements. */
  lemma {:induction false} SameElementsSameOrder(a: seq<Digested>, b: seq<Digested>)
    requires Ordered(a) && Ordered(b)
    requires forall e :: e in a <==> e in b
    ensures a == b
  {
    hide CoreEarlier;
    assert b != [] ==> b[0] in b;
    assert a != [] ==> a[0] in a;
    if a != [] {
      var x, y := a[|a| - 1], b[|b| - 1];
      LastIsLatest(a, y);
      LastIsLatest(b, x);
      CoreStrict(x, y);
      var af, bf := a[..|a| - 1], b[..|b| - 1];
      forall e ensures e in af <==> e in bf {
        FrontElements(a, e);
        FrontElements(b, e);
      }
      SameElementsSameOrder(af, bf);
      assert a == af + [x] && b == bf + [y];
    }
  }

  lemma LastIsLatest(d: seq<Digested>, e: Digested)
    requires Ordered(d) && e in d
    ensures d != [] && (e == d[|d| - 1] || CoreEarlier(e, d[|d| - 1]))
  {
    var i :| 0 <= i < |d| && d[i] == e;
  }

  lemma FrontElements(d: seq<Digested>, e: Digested)
    requires Ordered(d) && d != []
    ensures e in d[..|d| - 1] <==> e in d && e != d[|d| - 1]
  {
    if e in d[..|d| - 1] {
      var i :| 0 <= i < |d| - 1 && d[i] == e;
      CoreStrict(e, d[|d| - 1]);
    }
  }

  lemma CorePayload(a: seq<Evidence>, b: seq<Evidence>)
    ensures Payload(a) == Payload(b) <==> Core(a) == Core(b)
  {
    assert |Payload(a)| == |a| == |Core(a)| && |Payload(b)| == |b| == |Core(b)|;
    if Payload(a) == Payload(b) {
      forall i | 0 <= i < |a| ensures Core(a)[i] == Core(b)[i] {
        assert Payload(a)[i] == (a[i].key, Digest(a[i])) && Payload(b)[i] == (b[i].key, Digest(b[i]));
      }
    }
    if Core(a) == Core(b) {
      forall i | 0 <= i < |a| ensures Payload(a)[i] == Payload(b)[i] {
        assert Core(a)[i] == DigestedOf(a[i]) && Core(b)[i] == DigestedOf(b[i]);
      }
    }
  }

  lemma {:induction false} FoundByKey(s: seq<Evidence>, e: Evidence)
    requires (forall i, j :: 0 <= i < j < |s| ==> s[i].key != s[j].key) && e in s
    ensures EvidenceFor(s, e.key) == Some(e)
  {
    if s[|s| - 1] != e {
      var i :| 0 <= i < |s| && s[i] == e;
      assert s[..|s| - 1][i] == e;
      FoundByKey(s[..|s| - 1], e);
    }
  }

  lemma {:induction false} FoundIsMember(s: seq<Evidence>, key: string)
    ensures EvidenceFor(s, key).Some? <==> key in KeysOf(s)
    ensures EvidenceFor(s, key).Some? ==> EvidenceFor(s, key).value in s && EvidenceFor(s, key).value.key == key
  {
    if s != [] {
      FoundIsMember(s[..|s| - 1], key);
      assert s == s[..|s| - 1] + [s[|s| - 1]];
    }
  }

  lemma KeysAppend(s: seq<Evidence>, last: Evidence)
    ensures KeysOf(s + [last]) == KeysOf(s) + {last.key}
    ensures last.key in KeysOf(s) ==> exists i :: 0 <= i < |s| && s[i].key == last.key
  {
    forall key ensures key in KeysOf(s + [last]) <==> key in KeysOf(s) + {last.key} {
      if key in KeysOf(s) {
        var e :| e in s && e.key == key;
        assert e in s + [last];
      }
      if key == last.key {
        assert last in s + [last];
      }
    }
  }

  lemma {:induction false} KeysCount(s: seq<Evidence>)
    requires forall i, j :: 0 <= i < j < |s| ==> s[i].key != s[j].key
    ensures |KeysOf(s)| == |s|
  {
    if s != [] {
      var front, last := s[..|s| - 1], s[|s| - 1];
      KeysCount(front);
      assert s == front + [last];
      KeysAppend(front, last);
      forall i | 0 <= i < |front| ensures front[i].key != last.key {
        assert s[i].key != s[|s| - 1].key;
      }
    }
  }

  /** The drift check passes exactly when every recorded submission is still there with its digested
      payload unchanged; submissions added anywhere in date order never trip it. */
  lemma DriftCheckExact(rows: seq<Row>, p: Provenance, was: seq<Evidence>, s: seq<Evidence>)
    requires RecordedFrom(rows, p, was) && Snapshot(s)
    ensures Accepts(rows, p, s) <==> Kept(was, s)
  {
    if Accepts(rows, p, s) {
      AcceptedMeansKept(rows, p, was, s);
    }
    if Kept(was, s) {
      KeptMeansAccepted(rows, p, was, s);
    }
  }

  lemma AcceptedMeansKept(rows: seq<Row>, p: Provenance, was: seq<Evidence>, s: seq<Evidence>)
    requires RecordedFrom(rows, p, was) && Snapshot(s) && Accepts(rows, p, s)
    ensures Kept(was, s)
  {
    AccountedElements(s, p.accounted);
    var kept := Accounted(s, p.accounted);
    forall e | e in was ensures exists f :: f in s && f.key == e.key && DigestedOf(f) == DigestedOf(e) {
      assert e.key in p.accounted;
      CorePayload(was, kept);
      var i :| 0 <= i < |was| && was[i] == e;
      assert |Core(was)| == |was| && |Core(kept)| == |kept|;
      assert Core(was)[i] == DigestedOf(e) && Core(kept)[i] == DigestedOf(kept[i]);
      assert kept[i] in kept && kept[i].key == e.key;
    }
  }

  lemma KeptKeys(was: seq<Evidence>, s: seq<Evidence>)
    requires Kept(was, s)
    ensures KeysOf(was) <= KeysOf(s)
  {
    forall key | key in KeysOf(was) ensures key in KeysOf(s) {
      var e :| e in was && e.key == key;
      var f :| f in s && f.key == e.key && DigestedOf(f) == DigestedOf(e);
    }
  }

  /** Under kept keys, a current submission has the payload its record has. */
  lemma KeptSame(was: seq<Evidence>, s: seq<Evidence>, e: Evidence, f: Evidence)
    requires Kept(was, s) && e in was && f in s && f.key == e.key
    requires forall i, j :: 0 <= i < j < |s| ==> s[i].key != s[j].key
    ensures DigestedOf(f) == DigestedOf(e)
  {
    var g :| g in s && g.key == e.key && DigestedOf(g) == DigestedOf(e);
    FoundByKey(s, f);
    FoundByKey(s, g);
  }

  lemma KeptCore(was: seq<Evidence>, s: seq<Evidence>)
    requires Snapshot(was) && Snapshot(s) && Kept(was, s)
    ensures Payload(Accounted(s, KeysOf(was))) == Payload(was)
  {
    var kept := Accounted(s, KeysOf(was));
    AccountedSorted(s, KeysOf(was));
    SnapshotOrdered(kept);
    SnapshotOrdered(was);
    hide Snapshot, Ordered, DigestedOf, Core, Payload, Accounted, Kept, KeysOf;
    forall d ensures d in Core(kept) <==> d in Core(was) {
      KeptIsRecorded(was, s, d);
      RecordedIsKept(was, s, d);
    }
    SameElementsSameOrder(Core(kept), Core(was));
    CorePayload(kept, was);
  }

  lemma KeptIsRecorded(was: seq<Evidence>, s: seq<Evidence>, d: Digested)
    requires Snapshot(s) && Kept(was, s)
    ensures d in Core(Accounted(s, KeysOf(was))) ==> d in Core(was)
  {
    var kept := Accounted(s, KeysOf(was));
    AccountedElements(s, KeysOf(was));
    SnapshotKeys(s);
    hide Snapshot, DigestedOf, Kept, Accounted;
    if i :| 0 <= i < |kept| && Core(kept)[i] == d {
      assert kept[i] in kept;
      var e :| e in was && e.key == kept[i].key;
      KeptSame(was, s, e, kept[i]);
      InCore(was, e);
    }
  }

  lemma RecordedIsKept(was: seq<Evidence>, s: seq<Evidence>, d: Digested)
    requires Kept(was, s)
    ensures d in Core(was) ==> d in Core(Accounted(s, KeysOf(was)))
  {
    var kept := Accounted(s, KeysOf(was));
    AccountedElements(s, KeysOf(was));
    hide DigestedOf, Accounted;
    if i :| 0 <= i < |was| && Core(was)[i] == d {
      assert was[i] in was;
      var f :| f in s && f.key == was[i].key && DigestedOf(f) == DigestedOf(was[i]);
      assert f.key in KeysOf(was);
      InCore(kept, f);
    }
  }

  lemma SnapshotKeys(s: seq<Evidence>)
    requires Snapshot(s)
    ensures forall i, j :: 0 <= i < j < |s| ==> s[i].key != s[j].key
  {
  }

  lemma InCore(s: seq<Evidence>, e: Evidence)
    requires e in s
    ensures DigestedOf(e) in Core(s)
  {
    var i :| 0 <= i < |s| && s[i] == e;
    assert Core(s)[i] == DigestedOf(e);
  }

  lemma KeptMeansAccepted(rows: seq<Row>, p: Provenance, was: seq<Evidence>, s: seq<Evidence>)
    requires RecordedFrom(rows, p, was) && Snapshot(s) && Kept(was, s)
    ensures Accepts(rows, p, s)
  {
    KeysCount(s);
    KeptKeys(was, s);
    KeptCore(was, s);
    SnapshotKeys(s);
    hide Snapshot, Core, Payload, DigestedOf, Accounted;
    forall r | r in rows ensures !Stale(r, s) {
      if IsSubmission(r) && EvidenceFor(s, RowKey(r)).Some? {
        FoundIsMember(was, RowKey(r));
        FoundIsMember(s, RowKey(r));
        KeptSame(was, s, EvidenceFor(was, RowKey(r)).value, EvidenceFor(s, RowKey(r)).value);
      }
    }
  }

  /** A submission whose receipt count or form marker alone changed is accepted: the digest does not cover them. */
  lemma ReceiptCountMayChange(rows: seq<Row>, p: Provenance, e: Evidence, receipts: nat, direct: bool)
    requires RecordedFrom(rows, p, [e])
    ensures Accepts(rows, p, [e.(receiptAssets := receipts, directEmail := direct)])
  {
    var s := [e.(receiptAssets := receipts, directEmail := direct)];
    assert DigestedOf(s[0]) == DigestedOf(e);
    assert s[0] in s;
    DriftCheckExact(rows, p, [e], s);
  }

  /** A submission whose notes alone changed is refused, though nothing else ever reads them. */
  lemma NotesMayNotChange(rows: seq<Row>, p: Provenance, e: Evidence, notes: string)
    requires RecordedFrom(rows, p, [e]) && notes != e.unread.notes
    ensures !Accepts(rows, p, [e.(unread := e.unread.(notes := notes))])
  {
    var s := [e.(unread := e.unread.(notes := notes))];
    assert e in [e] && DigestedOf(s[0]).unread.notes != DigestedOf(e).unread.notes;
    DriftCheckExact(rows, p, [e], s);
  }

  // ---------- New references ----------

  /** The number of a NEW-<digits> reference. */
  function NewNumber(ref: string): Option<nat> {
    if |ref| > 4 && ref[..4] == "NEW-" && AllDigits(ref[4..]) then Some(Value(ref[4..])) else None
  }

  function NewRef(n: nat): string {
    "NEW-" + Padded(n, 2)
  }

  lemma NewRefReads(n: nat)
    ensures NewNumber(NewRef(n)) == Some(n)
  {
    PaddedValue(n, 2);
    assert NewRef(n)[..4] == "NEW-" && NewRef(n)[4..] == Padded(n, 2);
  }

  function Highest(refs: seq<string>): nat {
    if refs == [] then 0
    else
      var n, rest := NewNumber(refs[|refs| - 1]), Highest(refs[..|refs| - 1]);
      if n.Some? && n.value > rest then n.value else rest
  }

  function NextRefs(refs: seq<string>, count: nat): seq<string> {
    var start := Highest(refs) + 1;
    seq(count, i requires 0 <= i < count => NewRef(start + i))
  }

  lemma {:induction false} HighestBounds(refs: seq<string>, ref: string)
    requires ref in refs && NewNumber(ref).Some?
    ensures NewNumber(ref).value <= Highest(refs)
  {
    if refs[|refs| - 1] != ref {
      assert refs == refs[..|refs| - 1] + [refs[|refs| - 1]];
      HighestBounds(refs[..|refs| - 1], ref);
    }
  }

  /** New references repeat neither an existing reference nor each other. */
  lemma NextRefsFresh(refs: seq<string>, count: nat)
    ensures Distinct(NextRefs(refs, count))
    ensures forall r :: r in NextRefs(refs, count) ==> r !in refs
  {
    var news := NextRefs(refs, count);
    var start := Highest(refs) + 1;
    forall i | 0 <= i < count ensures NewNumber(news[i]) == Some(start + i) {
      NewRefReads(start + i);
    }
    forall r | r in news ensures r !in refs {
      if r in refs {
        HighestBounds(refs, r);
      }
    }
  }

  // ---------- New tickets ----------

  const HIGH_VALUE := 20000
  const CHECK_FIRST := "Check the receipt first."
  const CHECK_RECEIPT := CHECK_FIRST + " Record the supported amount and explain the difference; "
                         + "ask the requester only if the receipt leaves it unresolved."

  function Ask(item: EvidenceItem, text: string): (q: string)
    ensures q != ""
  {
    "Item " + Decimal(item.index) + ": " + text
  }

  /** Deterministic advice: C with at least one question as soon as one scrutiny signal is present. */
  function Questions(e: Evidence, item: EvidenceItem): seq<string> {
    (if "unmapped-category" in item.flags || item.category == "" then [Ask(item, "confirm the budget category.")] else []) +
    (if "total-mismatch" in item.flags then [CHECK_RECEIPT] else []) +
    (if e.receiptAssets == 0 then [Ask(item, "provide the vendor receipt.")] else []) +
    (if e.directEmail then [Ask(item, "confirm the required form provenance.")] else []) +
    (if item.cents >= HIGH_VALUE then [Ask(item, "perform operator receipt and policy review.")] else []) +
    (if item.mealSignal then [Ask(item, "confirm the covered participants and policy basis.")] else []) +
    (if item.giveawaySignal then [Ask(item, "confirm the program purpose and policy basis.")] else [])
  }

  function Advice(e: Evidence, item: EvidenceItem): Status {
    if Questions(e, item) != [] then C else A
  }

  function AllQuestions(e: Evidence, items: seq<EvidenceItem>): seq<string> {
    if items == [] then [] else AllQuestions(e, items[..|items| - 1]) + Questions(e, items[|items| - 1])
  }

  function NewItems(e: Evidence): (r: seq<Item>)
    ensures |r| == |e.items|
  {
    seq(|e.items|, i requires 0 <= i < |e.items| =>
      Item(e.items[i].key, e.items[i].index, e.items[i].category, Amount(e.items[i].cents), None, Advice(e, e.items[i])))
  }

  /** Bundle money is nonnegative; the loader refuses a ticket with any other amount. */
  function Amount(cents: int): Option<nat> {
    if cents >= 0 then Some(cents) else None
  }

  function NewReview(e: Evidence): Review {
    var asks := FirstSeen(AllQuestions(e, e.items));
    Review(if Has(NewItems(e), C) then C else A, asks, asks, "")
  }

  function NewTicket(e: Evidence, ref: string): TicketState {
    TicketState(Head(Selector(e.key, ref, ""), Submission, e.payMethod, Amount(e.mappedTotal), e.categories),
                Live(Active, Unreviewed, NotPaid, None, []), NewReview(e), NewItems(e), [])
  }

  ghost predicate WellMapped(e: Evidence) {
    && e.items != []
    && (forall i, j :: 0 <= i < j < |e.items| ==> e.items[i].key != e.items[j].key && e.items[i].index != e.items[j].index)
    && (forall i :: 0 <= i < |e.items| ==> e.items[i].index >= 1)
    && (forall i :: 0 <= i < |e.items| ==> e.items[i].cents >= 0)
    && FirstSeen(seq(|e.items|, i requires 0 <= i < |e.items| => e.items[i].category)) == e.categories
    && SourceTotal(NewItems(e)) == e.mappedTotal
  }

  /** A ticket made from a mapped submission passes the validator, and carries no '-' item. */
  lemma NewTicketValid(e: Evidence, ref: string)
    requires WellMapped(e)
    ensures ValidTicket(NewTicket(e, ref)) && !Has(NewTicket(e, ref).items, Dash)
  {
    hide Questions, AllQuestions, FirstSeen, SourceTotal;
    var t := NewTicket(e, ref);
    assert CategoriesOf(t.items) == seq(|e.items|, i requires 0 <= i < |e.items| => e.items[i].category);
    RollupsAgreeWithoutDash(t.items);
    assert !Has(t.items, C) ==> OnlyA(t.items);
  }

  lemma {:induction false} QuestionsListed(e: Evidence, items: seq<EvidenceItem>, i: nat, q: string)
    requires i < |items| && q in Questions(e, items[i])
    ensures q in AllQuestions(e, items)
  {
    if i < |items| - 1 {
      QuestionsListed(e, items[..|items| - 1], i, q);
    }
  }

  lemma {:induction false} FirstSeenKeeps(names: seq<string>, q: string)
    ensures q in FirstSeen(names) <==> q in names && q != ""
  {
    if names != [] {
      FirstSeenKeeps(names[..|names| - 1], q);
      assert names == names[..|names| - 1] + [names[|names| - 1]];
    }
  }

  /** New advice is a clarification exactly when it has a question to ask. */
  lemma NewTicketAsks(e: Evidence, ref: string)
    ensures var t := NewTicket(e, ref);
            t.review.status == C <==> t.review.questions != []
  {
    hide Questions;
    var t := NewTicket(e, ref);
    assert forall i :: 0 <= i < |t.items| ==> t.items[i].status == Advice(e, e.items[i]);
    if i :| 0 <= i < |t.items| && t.items[i].status == C {
      var q := Questions(e, e.items[i])[0];
      QuestionsNotBlank(e, e.items[i]);
      QuestionsListed(e, e.items, i, q);
      FirstSeenKeeps(AllQuestions(e, e.items), q);
    } else {
      forall i | 0 <= i < |e.items| ensures Questions(e, e.items[i]) == [] {
        assert t.items[i].status != C;
      }
      NoQuestionsListed(e, e.items);
    }
  }

  lemma CheckReceiptSolid()
    ensures CHECK_RECEIPT != ""
  {
    assert CHECK_FIRST[0] == 'C';
    assert |CHECK_RECEIPT| >= |CHECK_FIRST|;
  }

  lemma QuestionsNotBlank(e: Evidence, item: EvidenceItem)
    ensures forall q :: q in Questions(e, item) ==> q != ""
  {
    CheckReceiptSolid();
    hide CHECK_RECEIPT, Ask;
  }

  lemma {:induction false} NoQuestionsListed(e: Evidence, items: seq<EvidenceItem>)
    requires forall i :: 0 <= i < |items| ==> Questions(e, items[i]) == []
    ensures AllQuestions(e, items) == []
  {
    if items != [] {
      NoQuestionsListed(e, items[..|items| - 1]);
    }
  }

  // ---------- Known placeholders ----------

  /** The undecided ticket an older refresh left without advice; `stock` says its free texts are the stock ones. */
  predicate IsPlaceholder(t: TicketState, stock: bool) {
    && t.head.origin == Submission && t.live.decision == Unreviewed
    && t.review == Review(Q, [], [], "") && t.items != [] && stock
    && (forall i | 0 <= i < |t.items| :: t.items[i].status == Q)
    && t.messages == [Message(Draft, Generated, "")]
  }

  /** Its items and review are made anew from the evidence, and its draft goes. */
  function UpgradedTicket(t: TicketState, e: Evidence): TicketState {
    t.(items := NewItems(e), review := NewReview(e), messages := [])
  }

  /** `stock` holds the keys of the tickets whose free texts are the stock ones. */
  function UpgradedRow(r: Row, s: seq<Evidence>, stock: set<string>): Row {
    if IsPlaceholder(r.ticket, RowKey(r) in stock) && EvidenceFor(s, RowKey(r)).Some?
    then r.(ticket := UpgradedTicket(r.ticket, EvidenceFor(s, RowKey(r)).value)) else r
  }

  function UpgradedRows(rows: seq<Row>, s: seq<Evidence>, stock: set<string>): (u: seq<Row>)
    ensures |u| == |rows|
  {
    seq(|rows|, i requires 0 <= i < |rows| => UpgradedRow(rows[i], s, stock))
  }

  /** The ticket's source block is what this evidence says; categories are those of its lines. */
  ghost predicate HeadFrom(t: TicketState, e: Evidence) {
    && t.head.categories == FirstSeen(seq(|e.items|, i requires 0 <= i < |e.items| => e.items[i].category))
    && (t.head.mappedTotal.Some? ==> t.head.mappedTotal.value == e.mappedTotal)
  }

  /** The source block rests only on what the digest covers. */
  lemma HeadFromDigest(t: TicketState, e: Evidence, f: Evidence)
    requires HeadFrom(t, e) && DigestedOf(e) == DigestedOf(f)
    ensures HeadFrom(t, f)
  {
    hide FirstSeen;
    assert |e.items| == |DigestedOf(e).items| == |f.items|;
    forall i | 0 <= i < |e.items| ensures e.items[i].category == f.items[i].category {
      assert DigestedOf(e).items[i] == DigestedOf(f).items[i];
    }
    assert seq(|e.items|, i requires 0 <= i < |e.items| => e.items[i].category)
        == seq(|f.items|, i requires 0 <= i < |f.items| => f.items[i].category);
  }

  /** An upgraded placeholder passes the validator and carries neither a '-' item nor a draft; its identity, its
      payment side and its open decision stay. */
  lemma UpgradeKeepsValid(t: TicketState, e: Evidence)
    requires ValidTicket(t) && IsPlaceholder(t, true) && WellMapped(e) && HeadFrom(t, e)
    ensures var u := UpgradedTicket(t, e);
            ValidTicket(u) && !Has(u.items, Dash) && u.messages == [] && u.head == t.head && u.live == t.live
  {
    NewTicketValid(e, "");
    hide Questions, AllQuestions, FirstSeen, SourceTotal, NewItems, NewReview, Rollup;
    var n, u := NewTicket(e, ""), UpgradedTicket(t, e);
    assert CategoriesOf(u.items) == CategoriesOf(n.items);
  }

  // ---------- The merge ----------

  function MaxOrder(rows: seq<Row>): nat {
    if rows == [] then 0
    else
      var rest := MaxOrder(rows[..|rows| - 1]);
      if rows[|rows| - 1].order > rest then rows[|rows| - 1].order else rest
  }

  function RefsOf(rows: seq<Row>): seq<string> {
    seq(|rows|, i requires 0 <= i < |rows| => rows[i].ticket.head.selector.ref)
  }

  function NewRows(rows: seq<Row>, news: seq<Evidence>): (r: seq<Row>)
    ensures |r| == |news|
  {
    var refs, start := NextRefs(RefsOf(rows), |news|), MaxOrder(rows) + 1;
    seq(|news|, i requires 0 <= i < |news| => Row(NewTicket(news[i], refs[i]), start + i, Some(Digest(news[i]))))
  }

  /** The rows a merge hands to the reducer: the old ones, known placeholders upgraded, then one per new submission. */
  function MergedRows(rows: seq<Row>, p: Provenance, s: seq<Evidence>, stock: set<string>): seq<Row> {
    UpgradedRows(rows, s, stock) + NewRows(rows, Unaccounted(s, p.accounted))
  }

  method AppendNewTickets(rows: seq<Row>, p: Provenance, s: seq<Evidence>) returns (merged: seq<Row>)
    ensures merged == rows + NewRows(rows, Unaccounted(s, p.accounted))
  {
    hide NewTicket, MaxOrder, RefsOf;
    var news: seq<Evidence> := [];
    for i := 0 to |s|
      invariant news == Unaccounted(s[..i], p.accounted)
    {
      assert s[..i + 1][..i] == s[..i];
      if s[i].key !in p.accounted {
        news := news + [s[i]];
      }
    }
    assert s[..|s|] == s;
    var refs := NextRefs(RefsOf(rows), |news|);
    var nextOrder := MaxOrder(rows) + 1;
    merged := rows;
    ghost var due := NewRows(rows, news);
    for offset := 0 to |news|
      invariant merged == rows + due[..offset]
    {
      assert due[..offset + 1] == due[..offset] + [due[offset]];
      merged := merged + [Row(NewTicket(news[offset], refs[offset]), nextOrder + offset, Some(Digest(news[offset])))];
    }
  }

  /** The merge's two loops: append, then upgrade the known placeholders among the old rows. */
  method MergeTickets(rows: seq<Row>, p: Provenance, s: seq<Evidence>, stock: set<string>) returns (merged: seq<Row>)
    ensures merged == MergedRows(rows, p, s, stock)
  {
    hide NewRows, Unaccounted, IsPlaceholder, UpgradedTicket;
    merged := AppendNewTickets(rows, p, s);
    ghost var news := NewRows(rows, Unaccounted(s, p.accounted));
    for i := 0 to |rows|
      invariant |merged| == |rows| + |news| && merged[|rows|..] == news
      invariant forall k :: 0 <= k < i ==> merged[k] == UpgradedRow(rows[k], s, stock)
      invariant forall k :: i <= k < |rows| ==> merged[k] == rows[k]
    {
      var key := RowKey(merged[i]);
      if IsPlaceholder(merged[i].ticket, key in stock) && EvidenceFor(s, key).Some? {
        merged := merged[i := merged[i].(ticket := UpgradedTicket(merged[i].ticket, EvidenceFor(s, key).value))];
      }
    }
    assert merged == merged[..|rows|] + merged[|rows|..];
    assert merged[..|rows|] == UpgradedRows(rows, s, stock);
  }

  lemma {:induction false} MaxOrderBounds(rows: seq<Row>, r: Row)
    requires r in rows
    ensures r.order <= MaxOrder(rows)
  {
    if rows[|rows| - 1] != r {
      assert rows == rows[..|rows| - 1] + [rows[|rows| - 1]];
      MaxOrderBounds(rows[..|rows| - 1], r);
    }
  }

  /** New rows bring fresh references and display orders; the old rows keep their place, identity, payment side and
      digest, and all else but in known placeholders. */
  lemma MergedRowsFresh(rows: seq<Row>, p: Provenance, s: seq<Evidence>, stock: set<string>)
    ensures var m := MergedRows(rows, p, s, stock);
            && |rows| <= |m|
            && (forall i :: 0 <= i < |rows| ==>
                  && m[i].ticket.head == rows[i].ticket.head && m[i].ticket.live == rows[i].ticket.live
                  && m[i].order == rows[i].order && m[i].evidence == rows[i].evidence
                  && (!IsPlaceholder(rows[i].ticket, RowKey(rows[i]) in stock) ==> m[i] == rows[i]))
            && (forall i, j :: |rows| <= i < |m| && 0 <= j < |m| && i != j ==>
                  m[i].ticket.head.selector.ref != m[j].ticket.head.selector.ref && m[i].order != m[j].order)
  {
    hide NextRefs, MaxOrder, IsPlaceholder, UpgradedTicket, NewRows, Unaccounted, RefsOf;
    var news := Unaccounted(s, p.accounted);
    var m := MergedRows(rows, p, s, stock);
    forall i | 0 <= i < |rows| ensures m[i] == UpgradedRow(rows[i], s, stock) && SameIdentity(rows[i], m[i]) {
      UpgradeKeepsIdentity(rows[i], s, stock);
    }
    forall i, j | |rows| <= i < |m| && 0 <= j < |m| && i != j
      ensures m[i].ticket.head.selector.ref != m[j].ticket.head.selector.ref && m[i].order != m[j].order
    {
      assert m[i] == NewRows(rows, news)[i - |rows|];
      if j < |rows| {
        NewRowApartFromOld(rows, news, i - |rows|, j);
      } else {
        assert m[j] == NewRows(rows, news)[j - |rows|];
        NewRowsApart(rows, news, i - |rows|, j - |rows|);
      }
    }
  }

  predicate SameIdentity(r: Row, u: Row) {
    u.ticket.head == r.ticket.head && u.ticket.live == r.ticket.live && u.order == r.order && u.evidence == r.evidence
  }

  lemma UpgradeKeepsIdentity(r: Row, s: seq<Evidence>, stock: set<string>)
    ensures SameIdentity(r, UpgradedRow(r, s, stock))
  {
  }

  lemma NewRowApartFromOld(rows: seq<Row>, news: seq<Evidence>, x: nat, j: nat)
    requires x < |news| && j < |rows|
    ensures NewRows(rows, news)[x].ticket.head.selector.ref != rows[j].ticket.head.selector.ref
    ensures NewRows(rows, news)[x].order != rows[j].order
  {
    NextRefsFresh(RefsOf(rows), |news|);
    NewRowAt(rows, news, x);
    MaxOrderBounds(rows, rows[j]);
    assert NextRefs(RefsOf(rows), |news|)[x] in NextRefs(RefsOf(rows), |news|);
    assert RefsOf(rows)[j] in RefsOf(rows);
  }

  lemma NewRowsApart(rows: seq<Row>, news: seq<Evidence>, x: nat, y: nat)
    requires x < |news| && y < |news| && x != y
    ensures NewRows(rows, news)[x].ticket.head.selector.ref != NewRows(rows, news)[y].ticket.head.selector.ref
    ensures NewRows(rows, news)[x].order != NewRows(rows, news)[y].order
  {
    NextRefsFresh(RefsOf(rows), |news|);
    NewRowAt(rows, news, x);
    NewRowAt(rows, news, y);
  }

  lemma NewRowAt(rows: seq<Row>, news: seq<Evidence>, x: nat)
    requires x < |news|
    ensures NewRows(rows, news)[x].order == MaxOrder(rows) + 1 + x
    ensures NewRows(rows, news)[x].ticket.head.selector.ref == NextRefs(RefsOf(rows), |news|)[x]
  {
  }

  lemma KeptRowRecords(was: seq<Evidence>, s: seq<Evidence>, r: Row)
    requires Kept(was, s) && Snapshot(s) && Records(r, was)
    ensures Records(r, s) && DigestedOf(EvidenceFor(s, RowKey(r)).value) == DigestedOf(EvidenceFor(was, RowKey(r)).value)
  {
    KeptKeys(was, s);
    SnapshotKeys(s);
    FoundIsMember(was, RowKey(r));
    FoundIsMember(s, RowKey(r));
    hide Snapshot, KeysOf, DigestedOf, Kept;
    KeptSame(was, s, EvidenceFor(was, RowKey(r)).value, EvidenceFor(s, RowKey(r)).value);
  }

  lemma NewRowRecords(rows: seq<Row>, s: seq<Evidence>, keys: set<string>, i: nat)
    requires Snapshot(s) && i < |Unaccounted(s, keys)|
    ensures var r, e := NewRows(rows, Unaccounted(s, keys))[i], Unaccounted(s, keys)[i];
            e in s && EvidenceFor(s, RowKey(r)) == Some(e) && Records(r, s)
            && exists ref :: r.ticket == NewTicket(e, ref)
  {
    SnapshotKeys(s);
    AccountedElements(s, keys);
    var news := Unaccounted(s, keys);
    assert news[i] in news;
    hide Snapshot, DigestedOf, Unaccounted;
    FoundByKey(s, news[i]);
    FoundIsMember(s, news[i].key);
    assert NewRows(rows, news)[i].ticket == NewTicket(news[i], NextRefs(RefsOf(rows), |news|)[i]);
  }

  /** A merged row is an old one, upgraded if need be, or a new one. */
  lemma MergedRowIs(rows: seq<Row>, p: Provenance, s: seq<Evidence>, stock: set<string>, r: Row) returns (i: nat, added: bool)
    requires r in MergedRows(rows, p, s, stock)
    ensures !added ==> i < |rows| && rows[i] in rows && r == UpgradedRow(rows[i], s, stock) && SameIdentity(rows[i], r)
    ensures added ==> i < |Unaccounted(s, p.accounted)| && r == NewRows(rows, Unaccounted(s, p.accounted))[i]
  {
    hide NewRows, Unaccounted, UpgradedRow;
    var m := MergedRows(rows, p, s, stock);
    i :| 0 <= i < |m| && m[i] == r;
    added := i >= |rows|;
    if added {
      i := i - |rows|;
    } else {
      UpgradeKeepsIdentity(rows[i], s, stock);
    }
  }

  /** After an accepted merge the bundle records the new snapshot, so the next check is exact too. */
  lemma MergeRecordsSnapshot(rows: seq<Row>, p: Provenance, was: seq<Evidence>, s: seq<Evidence>, stock: set<string>)
    requires RecordedFrom(rows, p, was) && Snapshot(s) && Accepts(rows, p, s)
    ensures RecordedFrom(MergedRows(rows, p, s, stock), Provenance(SnapshotDigest(s), KeysOf(s)), s)
    ensures p.accounted <= KeysOf(s) && Kept(was, s)
  {
    DriftCheckExact(rows, p, was, s);
    KeptKeys(was, s);
    hide Snapshot, Accepts, UpgradedRow, NewRows, MergedRows, KeysOf, Kept, DigestedOf;
    forall r | r in MergedRows(rows, p, s, stock) && IsSubmission(r) ensures Records(r, s) {
      var i, added := MergedRowIs(rows, p, s, stock, r);
      if added {
        NewRowRecords(rows, s, p.accounted, i);
      } else {
        assert Records(rows[i], was);
        KeptRowRecords(was, s, rows[i]);
      }
    }
  }

  /** Rows with the same identities and digests record the same. */
  lemma SameRowsRecord(rows: seq<Row>, after: seq<Row>, p: Provenance, s: seq<Evidence>)
    requires RecordedFrom(rows, p, s) && |after| == |rows|
    requires forall j :: 0 <= j < |rows| ==> after[j].evidence == rows[j].evidence && after[j].ticket.head == rows[j].ticket.head
    ensures RecordedFrom(after, p, s)
  {
    hide Snapshot, KeysOf;
    forall r | r in after && IsSubmission(r) ensures Records(r, s) {
      var j :| 0 <= j < |after| && after[j] == r;
      assert rows[j] in rows;
    }
  }

  /** Payloads kept twice are kept. */
  lemma KeptTransitive(a: seq<Evidence>, b: seq<Evidence>, c: seq<Evidence>)
    requires Kept(a, b) && Kept(b, c)
    ensures Kept(a, c)
  {
    hide DigestedOf;
    forall e | e in a ensures exists g :: g in c && g.key == e.key && DigestedOf(g) == DigestedOf(e) {
      var f :| f in b && f.key == e.key && DigestedOf(f) == DigestedOf(e);
      var g :| g in c && g.key == f.key && DigestedOf(g) == DigestedOf(f);
    }
  }

  // ---------- Source blocks ----------

  /** Every submission's source block is what the snapshot says of it. */
  ghost predicate HeadsFrom(rows: seq<Row>, s: seq<Evidence>) {
    forall r :: r in rows && IsSubmission(r) && EvidenceFor(s, RowKey(r)).Some? ==>
      HeadFrom(r.ticket, EvidenceFor(s, RowKey(r)).value)
  }

  lemma MergeKeepsHeads(rows: seq<Row>, p: Provenance, was: seq<Evidence>, s: seq<Evidence>, stock: set<string>)
    requires RecordedFrom(rows, p, was) && Snapshot(s) && Accepts(rows, p, s) && HeadsFrom(rows, was)
    requires forall e :: e in s ==> WellMapped(e)
    ensures HeadsFrom(MergedRows(rows, p, s, stock), s)
  {
    DriftCheckExact(rows, p, was, s);
    hide Snapshot, Accepts, UpgradedRow, NewRows, MergedRows, KeysOf, Kept, DigestedOf, HeadFrom, WellMapped, NewTicket;
    forall r | r in MergedRows(rows, p, s, stock) && IsSubmission(r) && EvidenceFor(s, RowKey(r)).Some?
      ensures HeadFrom(r.ticket, EvidenceFor(s, RowKey(r)).value)
    {
      var i, added := MergedRowIs(rows, p, s, stock, r);
      if added {
        NewRowRecords(rows, s, p.accounted, i);
        var e := Unaccounted(s, p.accounted)[i];
        var ref :| r.ticket == NewTicket(e, ref);
        NewHeadFrom(e, ref);
      } else {
        assert Records(rows[i], was);
        KeptRowRecords(was, s, rows[i]);
        HeadFromDigest(rows[i].ticket, EvidenceFor(was, RowKey(r)).value, EvidenceFor(s, RowKey(r)).value);
        SameHeadFrom(rows[i].ticket, r.ticket, EvidenceFor(s, RowKey(r)).value);
      }
    }
  }

  lemma SameHeadFrom(t: TicketState, u: TicketState, e: Evidence)
    requires HeadFrom(t, e) && u.head == t.head
    ensures HeadFrom(u, e)
  {
    hide FirstSeen;
  }

  lemma SameRowsHeads(rows: seq<Row>, after: seq<Row>, s: seq<Evidence>)
    requires HeadsFrom(rows, s) && |after| == |rows|
    requires forall j :: 0 <= j < |rows| ==> after[j].ticket.head == rows[j].ticket.head
    ensures HeadsFrom(after, s)
  {
    hide HeadFrom;
    forall r | r in after && IsSubmission(r) && EvidenceFor(s, RowKey(r)).Some?
      ensures HeadFrom(r.ticket, EvidenceFor(s, RowKey(r)).value)
    {
      var j :| 0 <= j < |after| && after[j] == r;
      assert rows[j] in rows;
      SameHeadFrom(rows[j].ticket, r.ticket, EvidenceFor(s, RowKey(r)).value);
    }
  }

  lemma NewHeadFrom(e: Evidence, ref: string)
    requires WellMapped(e)
    ensures HeadFrom(NewTicket(e, ref), e) && NewTicket(e, ref).head.selector.key == e.key
  {
    hide FirstSeen, SourceTotal, NewItems, NewReview;
  }
}
