/** What the evidence snapshot hands to the merge is what the merge and its new tickets rest on. */
module SnapshotLaws {
  import opened Common
  import opened Digits
  import opened SourceEvidence
  import Tickets
  import opened ReceiptMap
  import opened ReceiptMapLaws
  import Merge

  // ---------- The sort is by (received, key), strictly ----------

  lemma EarlierTotal(a: Evidence, b: Evidence)
    requires a.key != b.key
    ensures Earlier(a, b) || Earlier(b, a)
  {
    BeforeTotal(a.key, b.key);
  }

  lemma EarlierTransitive(a: Evidence, b: Evidence, c: Evidence)
    requires Earlier(a, b) && Earlier(b, c)
    ensures Earlier(a, c)
  {
    if a.received == b.received == c.received {
      BeforeTransitive(a.key, b.key, c.key);
    }
  }

  lemma {:induction false} PlacedElements(sorted: seq<Evidence>, t: Evidence)
    ensures forall e :: e in Placed(sorted, t) <==> e in sorted || e == t
  {
    hide Earlier;
    if sorted != [] {
      PlacedElements(sorted[..|sorted| - 1], t);
      assert sorted == sorted[..|sorted| - 1] + [sorted[|sorted| - 1]];
    }
  }

  lemma {:induction false} PlacedOrdered(sorted: seq<Evidence>, t: Evidence)
    requires Snapshot(sorted) && forall e :: e in sorted ==> e.key != t.key
    ensures Snapshot(Placed(sorted, t))
  {
    hide Earlier;
    if sorted != [] {
      var front, last := sorted[..|sorted| - 1], sorted[|sorted| - 1];
      EarlierTotal(t, last);
      if Earlier(t, last) {
        PlacedOrdered(front, t);
        PlacedElements(front, t);
        forall e | e in Placed(front, t) ensures Earlier(e, last) && e.key != last.key {
          if e in front {
            var i :| 0 <= i < |front| && front[i] == e;
            assert sorted[i] == e;
          }
        }
        Merge.SnapshotGrows(Placed(front, t), last);
      } else {
        forall e | e in sorted ensures Earlier(e, t) {
          var i :| 0 <= i < |sorted| && sorted[i] == e;
          if i < |sorted| - 1 {
            EarlierTransitive(e, last, t);
          }
        }
        Merge.SnapshotGrows(sorted, t);
      }
    }
  }

  ghost predicate KeysApart(tickets: seq<Evidence>) {
    forall i, j :: 0 <= i < j < |tickets| ==> tickets[i].key != tickets[j].key
  }

  lemma {:induction false} SortedOrdered(tickets: seq<Evidence>)
    requires KeysApart(tickets)
    ensures Snapshot(Sorted(tickets)) && forall e :: e in Sorted(tickets) <==> e in tickets
  {
    hide Placed, Snapshot;
    if tickets == [] {
      NothingOrdered();
    } else {
      var front, last := tickets[..|tickets| - 1], tickets[|tickets| - 1];
      SortedOrdered(front);
      PlacedElements(Sorted(front), last);
      forall e | e in Sorted(front) ensures e.key != last.key {
        var i :| 0 <= i < |front| && front[i] == e;
        assert tickets[i] == e;
      }
      PlacedOrdered(Sorted(front), last);
      assert tickets == front + [last];
    }
  }

  lemma NothingOrdered()
    ensures Snapshot([])
  {
  }

  // ---------- Each ticket's evidence is well mapped ----------

  /** The submission parser numbers lines by their labels and keeps one line per number. */
  ghost predicate Numbered(items: seq<Item>) {
    forall i, j :: 0 <= i < |items| && 0 <= j < |items| && i != j ==> items[i].index != items[j].index
  }

  ghost predicate LinesNumbered(sub: Submission) {
    Numbered(sub.items)
  }

  /** Digested keys differ where what they are taken of differs. */
  ghost predicate Injective(texts: Texts) {
    && (forall a, b :: texts.review(a) == texts.review(b) ==> a == b)
    && (forall a, i, b, j :: texts.line(a, i) == texts.line(b, j) ==> a == b && i == j)
  }

  lemma {:induction false} PricedNumbered(items: seq<Item>)
    requires Numbered(items)
    ensures Numbered(PricedItems(items)) && forall p :: p in PricedItems(items) ==> p in items
  {
    hide Priced;
    if items != [] {
      var front, last := items[..|items| - 1], items[|items| - 1];
      PricedNumbered(front);
      assert items == front + [last];
      forall p | p in PricedItems(front) ensures p.index != last.index {
        var i :| 0 <= i < |front| && front[i] == p;
        assert items[i] == p;
      }
      var f, r := PricedItems(front), PricedItems(items);
      assert r == f || r == f + [last];
      forall i | 0 <= i < |f| ensures r[i] == f[i] && r[i] in f {
        assert r[i] == f[i];
      }
    }
  }

  lemma {:induction false} SourceSum(items: seq<EvidenceItem>, made: seq<Tickets.Item>)
    requires |made| == |items| && forall i :: 0 <= i < |items| ==> items[i].cents >= 0 && made[i].source == Some(items[i].cents)
    ensures Tickets.SourceTotal(made) == SumCents(items)
  {
    if items != [] {
      SourceSum(items[..|items| - 1], made[..|made| - 1]);
    }
  }

  /** Amounts the bundle may hold, on lines labelled from 1 up. */
  ghost predicate InBounds(e: Evidence) {
    forall i :: 0 <= i < |e.items| ==> e.items[i].cents >= 0 && e.items[i].index >= 1
  }

  lemma LinesApart(rules: Rules, texts: Texts, sub: Submission, rows: seq<LedgerRow>)
    requires Injective(texts) && LinesNumbered(sub)
    requires var t := TicketOf(rules, texts, sub, rows); t.Done? && t.value.Some?
    ensures var e := TicketOf(rules, texts, sub, rows).value.value;
            forall i, j :: 0 <= i < j < |e.items| ==> e.items[i].key != e.items[j].key && e.items[i].index != e.items[j].index
  {
    hide Priced, FlagsOf, Strip, Tickets.FirstSeen, PricedItems, Categories, Flags, SumCents;
    var e := TicketOf(rules, texts, sub, rows).value.value;
    var priced := PricedItems(sub.items);
    assert |e.items| == |priced|;
    PricedNumbered(sub.items);
    forall i, j | 0 <= i < j < |e.items| ensures e.items[i].key != e.items[j].key && e.items[i].index != e.items[j].index {
      assert priced[i].index != priced[j].index;
      assert e.items[i].index == priced[i].index && e.items[j].index == priced[j].index;
      assert e.items[i].key == texts.line(e.key, priced[i].index) && e.items[j].key == texts.line(e.key, priced[j].index);
    }
  }

  /** A ticket built from a submission names it, and is well mapped unless a line is negative or labelled 0. */
  lemma TicketIsWellMapped(rules: Rules, texts: Texts, sub: Submission, rows: seq<LedgerRow>)
    requires Injective(texts) && LinesNumbered(sub)
    requires var t := TicketOf(rules, texts, sub, rows); t.Done? && t.value.Some?
    ensures var e := TicketOf(rules, texts, sub, rows).value.value;
            e.key == texts.review(IdOf(sub)) && (Merge.WellMapped(e) <==> InBounds(e))
  {
    hide Priced, FlagsOf, Strip, Merge.Questions, Tickets.FirstSeen, PricedItems, Injective;
    var e := TicketOf(rules, texts, sub, rows).value.value;
    LinesApart(rules, texts, sub, rows);
    if InBounds(e) {
      SourceSum(e.items, Merge.NewItems(e));
    }
    assert Categories(e.items) == seq(|e.items|, i requires 0 <= i < |e.items| => e.items[i].category);
  }

  // ---------- The whole snapshot ----------

  ghost predicate BuiltSoFar(texts: Texts, subs: seq<Submission>, i: nat, built: seq<Evidence>)
    requires i <= |subs|
  {
    && KeysApart(built)
    && (forall e :: e in built ==> (Merge.WellMapped(e) <==> InBounds(e)))
    && (forall e :: e in built ==> exists k :: 0 <= k < i && e.key == texts.review(IdOf(subs[k])))
  }

  lemma BuiltGrows(rules: Rules, texts: Texts, subs: seq<Submission>, rows: seq<LedgerRow>, i: nat, built: seq<Evidence>)
    requires i < |subs| && AllDifferent(subs) && Injective(texts) && LinesNumbered(subs[i])
    requires forall k :: 0 <= k < |subs| ==> IdOf(subs[k]) != ""
    requires BuiltSoFar(texts, subs, i, built)
    requires var t := TicketOf(rules, texts, subs[i], rows); t.Done? && t.value.Some?
    ensures BuiltSoFar(texts, subs, i + 1, built + [TicketOf(rules, texts, subs[i], rows).value.value])
  {
    TicketIsWellMapped(rules, texts, subs[i], rows);
    hide TicketOf, AllDifferent, IdOf, LinesNumbered, Merge.WellMapped, InBounds, Injective;
    var e := TicketOf(rules, texts, subs[i], rows).value.value;
    forall b | b in built ensures b.key != e.key {
      var k :| 0 <= k < i && b.key == texts.review(IdOf(subs[k]));
      IdsDiffer(subs, k, i);
    }
    forall k | 0 <= k < |built| ensures built[k].key != e.key {
      assert built[k] in built;
    }
  }

  lemma {:induction false} TicketsAreWellMapped(rules: Rules, texts: Texts, subs: seq<Submission>, rows: seq<LedgerRow>, i: nat, built: seq<Evidence>)
    requires i <= |subs| && AllDifferent(subs) && Injective(texts)
    requires forall k :: 0 <= k < |subs| ==> IdOf(subs[k]) != "" && LinesNumbered(subs[k])
    requires BuiltSoFar(texts, subs, i, built)
    ensures var t := TicketsFrom(rules, texts, subs, rows, i, built); t.Done? ==> BuiltSoFar(texts, subs, |subs|, t.value)
    decreases |subs| - i
  {
    hide TicketOf, AllDifferent, LinesNumbered, BuiltSoFar, Injective, IdOf, RowsByMessage;
    if i < |subs| {
      var mine := RowsByMessage(rows, IdOf(subs[i]));
      var t := TicketOf(rules, texts, subs[i], mine);
      if t.Done? && t.value.Some? {
        BuiltGrows(rules, texts, subs, mine, i, built);
        TicketsAreWellMapped(rules, texts, subs, rows, i + 1, built + [t.value.value]);
      } else if t.Done? {
        BuiltStays(texts, subs, i, built);
        TicketsAreWellMapped(rules, texts, subs, rows, i + 1, built);
      }
    }
  }

  lemma BuiltStays(texts: Texts, subs: seq<Submission>, i: nat, built: seq<Evidence>)
    requires i < |subs| && BuiltSoFar(texts, subs, i, built)
    ensures BuiltSoFar(texts, subs, i + 1, built)
  {
    hide IdOf, Merge.WellMapped, InBounds;
  }

  lemma NothingBuilt(texts: Texts, subs: seq<Submission>)
    ensures BuiltSoFar(texts, subs, 0, [])
  {
  }

  /** A finished snapshot is in the merge's strict order with unique keys, and each of its tickets is well
      mapped exactly when no line of it is negative or labelled 0. */
  lemma SnapshotFeedsMerge(rules: Rules, texts: Texts, originals: seq<Submission>)
    requires Injective(texts) && forall k :: 0 <= k < |originals| ==> LinesNumbered(originals[k])
    requires SnapshotOf(rules, texts, originals).Done?
    ensures var s := SnapshotOf(rules, texts, originals).value.tickets;
            Snapshot(s) && forall e :: e in s ==> (Merge.WellMapped(e) <==> InBounds(e))
  {
    var selected := Dedup(originals);
    KeptAreOriginals(originals);
    DedupIdempotent(originals);
    hide Dedup, AllDifferent, LinesNumbered, TicketsFrom, MapAll, SumItems, Sorted, Snapshot, Merge.WellMapped, InBounds, Injective, IdOf;
    forall k | 0 <= k < |selected| ensures LinesNumbered(selected[k]) {
      assert selected[k] in selected;
      var j :| 0 <= j < |originals| && originals[j] == selected[k];
    }
    NothingBuilt(texts, selected);
    TicketsAreWellMapped(rules, texts, selected, MapAll(rules, selected), 0, []);
    var t := TicketsFrom(rules, texts, selected, MapAll(rules, selected), 0, []);
    SortedOrdered(t.value);
  }

  /** Whatever the archive holds, a new ticket of a snapshot's evidence passes the validator when no line of it is
      negative or labelled 0. */
  lemma SnapshotTicketsAreValid(rules: Rules, texts: Texts, originals: seq<Submission>, e: Evidence, ref: string)
    requires Injective(texts) && forall k :: 0 <= k < |originals| ==> LinesNumbered(originals[k])
    requires SnapshotOf(rules, texts, originals).Done? && e in SnapshotOf(rules, texts, originals).value.tickets && InBounds(e)
    ensures Tickets.ValidTicket(Merge.NewTicket(e, ref)) && !Tickets.Has(Merge.NewTicket(e, ref).items, Tickets.Dash)
  {
    hide SnapshotOf, Merge.WellMapped, InBounds, Injective, LinesNumbered, Merge.NewTicket, Tickets.ValidTicket, Tickets.Has;
    SnapshotFeedsMerge(rules, texts, originals);
    Merge.NewTicketValid(e, ref);
  }

  lemma {:induction false} SelectedFrom(subs: seq<Submission>)
    ensures forall s :: s in Selected(subs).kept ==> s in subs
  {
    hide IdOf, ContentKey;
    if subs != [] {
      SelectedFrom(subs[..|subs| - 1]);
      assert subs == subs[..|subs| - 1] + [subs[|subs| - 1]];
    }
  }

  lemma KeptAreOriginals(subs: seq<Submission>)
    ensures forall s :: s in Dedup(subs) ==> s in subs
  {
    SelectedFrom(subs);
  }
}
