/** Which submissions are kept, how their rows line up with their items, and what the snapshot adds up to. */
module ReceiptMapLaws {
  import opened Common
  import opened SourceEvidence
  import Tickets
  import opened ReceiptMap

  // ---------- Deduplication, said without its sets ----------

  predicate Same(a: Submission, b: Submission) {
    (IdOf(a) != "" && IdOf(a) == IdOf(b)) || ContentKey(a) == ContentKey(b)
  }

  /** A submission survives when no earlier survivor is the same. */
  predicate Survives(subs: seq<Submission>, i: nat)
    requires i < |subs|
    decreases i
  {
    forall j | 0 <= j < i :: Survives(subs, j) ==> !Same(subs[j], subs[i])
  }

  function Survivors(subs: seq<Submission>, n: nat): seq<Submission>
    requires n <= |subs|
  {
    if n == 0 then [] else Survivors(subs, n - 1) + if Survives(subs, n - 1) then [subs[n - 1]] else []
  }

  lemma {:induction false} SurvivorsMembers(subs: seq<Submission>, n: nat)
    requires n <= |subs|
    ensures forall s :: s in Survivors(subs, n) <==> exists j :: 0 <= j < n && Survives(subs, j) && subs[j] == s
  {
    hide Survives;
    if n > 0 {
      SurvivorsMembers(subs, n - 1);
      forall s | exists j :: 0 <= j < n && Survives(subs, j) && subs[j] == s ensures s in Survivors(subs, n) {
        var j :| 0 <= j < n && Survives(subs, j) && subs[j] == s;
        if j < n - 1 {
          assert s in Survivors(subs, n - 1);
        }
      }
    }
  }

  ghost predicate Remembers(sel: Selection) {
    && (forall id :: id in sel.ids <==> id != "" && exists s :: s in sel.kept && IdOf(s) == id)
    && (forall key :: key in sel.keys <==> exists s :: s in sel.kept && ContentKey(s) == key)
  }

  lemma SelectRemembers(sel: Selection, sub: Submission)
    requires Remembers(sel)
    ensures Remembers(Select(sel, sub))
    ensures Select(sel, sub).kept == if exists s :: s in sel.kept && Same(s, sub) then sel.kept else sel.kept + [sub]
  {
    hide IdOf, ContentKey;
    var after := Select(sel, sub);
    assert forall s :: s in sel.kept ==> s in after.kept;
    if after.kept == sel.kept + [sub] {
      assert sub in after.kept;
    }
  }

  /** The loop keeps exactly the submissions no earlier kept one matches, in order. */
  lemma {:induction false} DedupIsExact(subs: seq<Submission>, n: nat)
    requires n <= |subs|
    ensures Selected(subs[..n]).kept == Survivors(subs, n) && Remembers(Selected(subs[..n]))
  {
    hide Same, Select, Remembers;
    if n > 0 {
      assert subs[..n][..n - 1] == subs[..n - 1];
      DedupIsExact(subs, n - 1);
      SelectRemembers(Selected(subs[..n - 1]), subs[n - 1]);
      SurvivorsMembers(subs, n - 1);
    } else {
      assert Remembers(Selection([], {}, {})) by { NothingRemembered(); }
    }
  }

  lemma NothingRemembered()
    ensures Remembers(Selection([], {}, {}))
  {
  }

  ghost predicate AllDifferent(subs: seq<Submission>) {
    forall i, j :: 0 <= i < j < |subs| ==> !Same(subs[i], subs[j])
  }

  lemma {:induction false} SurvivorsDiffer(subs: seq<Submission>, n: nat)
    requires n <= |subs|
    ensures AllDifferent(Survivors(subs, n))
  {
    hide Same;
    if n > 0 {
      SurvivorsDiffer(subs, n - 1);
      SurvivorsMembers(subs, n - 1);
      var front := Survivors(subs, n - 1);
      if Survives(subs, n - 1) {
        forall i | 0 <= i < |front| ensures !Same(front[i], subs[n - 1]) {
          assert front[i] in front;
        }
      }
    }
  }

  lemma {:induction false} DifferentAllSurvive(subs: seq<Submission>, n: nat)
    requires n <= |subs| && AllDifferent(subs)
    ensures Survivors(subs, n) == subs[..n]
  {
    hide Same;
    if n > 0 {
      DifferentAllSurvive(subs, n - 1);
      assert Survives(subs, n - 1);
    }
  }

  /** The kept submissions differ in id and content, and a second pass drops none of them. */
  lemma DedupIdempotent(subs: seq<Submission>)
    ensures AllDifferent(Dedup(subs)) && Dedup(Dedup(subs)) == Dedup(subs)
  {
    hide Same, Survives, Select, Remembers;
    var kept := Dedup(subs);
    assert subs[..|subs|] == subs && kept[..|kept|] == kept;
    DedupIsExact(subs, |subs|);
    SurvivorsDiffer(subs, |subs|);
    DedupIsExact(kept, |kept|);
    DifferentAllSurvive(kept, |kept|);
  }

  /** A submission is kept, or an earlier kept one is the same: nothing is lost without a kept match. */
  lemma DroppedHasKeptMatch(subs: seq<Submission>, i: nat)
    requires i < |subs|
    ensures if Survives(subs, i) then subs[i] in Dedup(subs)
            else exists j :: 0 <= j < i && Survives(subs, j) && Same(subs[j], subs[i]) && subs[j] in Dedup(subs)
  {
    hide Same, Select, Remembers;
    assert subs[..|subs|] == subs;
    DedupIsExact(subs, |subs|);
    SurvivorsMembers(subs, |subs|);
  }

  // ---------- Rows against items ----------

  /** The last nonblank of a column among the priced items, "" for none. */
  function LastText(items: seq<Item>, column: Item -> string): string {
    if items == [] then ""
    else
      var last := items[|items| - 1];
      if Priced(last) && column(last) != "" then column(last) else LastText(items[..|items| - 1], column)
  }

  function DateText(item: Item): string { Strip(item.date) }
  function CategoryText(item: Item): string { Strip(item.category) }

  lemma {:induction false} CarryIsLast(rules: Rules, sub: Submission, items: seq<Item>)
    ensures Carried(rules, sub, items).date == LastText(items, DateText)
    ensures Carried(rules, sub, items).raw == LastText(items, CategoryText)
    ensures |Carried(rules, sub, items).rows| == |PricedItems(items)|
  {
    hide Strip, RowFor, Priced;
    if items != [] {
      CarryIsLast(rules, sub, items[..|items| - 1]);
    }
  }

  /** The k-th row is the k-th priced item's, with the date and category of the nearest priced item at or before it that has one. */
  lemma {:induction false} RowsMatchItems(rules: Rules, sub: Submission, items: seq<Item>, k: nat)
    requires k < |PricedItems(items)|
    ensures k < |Carried(rules, sub, items).rows|
    ensures exists n :: 0 <= n < |items| && items[n] == PricedItems(items)[k] && |PricedItems(items[..n])| == k &&
              Carried(rules, sub, items).rows[k]
              == RowFor(rules, sub, items[n], LastText(items[..n + 1], DateText), LastText(items[..n + 1], CategoryText))
  {
    hide Strip, RowFor, Priced;
    var last := |items| - 1;
    var front := items[..last];
    CarryIsLast(rules, sub, front);
    CarryIsLast(rules, sub, items);
    if k < |PricedItems(front)| {
      RowsMatchItems(rules, sub, front, k);
      var n :| 0 <= n < |front| && front[n] == PricedItems(front)[k] && |PricedItems(front[..n])| == k &&
              Carried(rules, sub, front).rows[k]
              == RowFor(rules, sub, front[n], LastText(front[..n + 1], DateText), LastText(front[..n + 1], CategoryText));
      assert front[..n] == items[..n] && front[..n + 1] == items[..n + 1];
      assert items[n] == PricedItems(items)[k];
    } else {
      assert items[..last + 1] == items;
      assert items[last] == PricedItems(items)[k];
    }
  }

  // ---------- The snapshot ----------

  lemma {:induction false} RowsCarryId(rules: Rules, sub: Submission, items: seq<Item>)
    ensures forall row :: row in Carried(rules, sub, items).rows ==> row.messageId == IdOf(sub)
  {
    hide Strip, Priced, IdOf;
    if items != [] {
      RowsCarryId(rules, sub, items[..|items| - 1]);
    }
  }

  lemma {:induction false} ByMessageAppend(a: seq<LedgerRow>, b: seq<LedgerRow>, id: string)
    ensures RowsByMessage(a + b, id) == RowsByMessage(a, id) + RowsByMessage(b, id)
  {
    if b == [] {
      assert a + b == a;
    } else {
      assert (a + b)[..|a + b| - 1] == a + b[..|b| - 1];
      ByMessageAppend(a, b[..|b| - 1], id);
    }
  }

  lemma {:induction false} ByMessageAll(rows: seq<LedgerRow>, id: string, own: string)
    requires forall row :: row in rows ==> row.messageId == own
    ensures RowsByMessage(rows, id) == if id == own then rows else []
  {
    if rows != [] {
      ByMessageAll(rows[..|rows| - 1], id, own);
    }
  }

  /** Grouping by message id gives each submission back exactly its own rows. */
  lemma {:induction false} GroupingIsExact(rules: Rules, subs: seq<Submission>, n: nat, i: nat)
    requires n <= |subs| && i < |subs| && AllDifferent(subs)
    requires forall k :: 0 <= k < |subs| ==> IdOf(subs[k]) != ""
    ensures RowsByMessage(MapAll(rules, subs[..n]), IdOf(subs[i])) == if i < n then RowsOf(rules, subs[i]) else []
  {
    hide IdOf, ContentKey, Carried, Same, AllDifferent, RowsByMessage;
    if n == 0 {
      NoRowsNoGroup(IdOf(subs[i]));
    } else {
      assert subs[..n][..n - 1] == subs[..n - 1];
      GroupingIsExact(rules, subs, n - 1, i);
      var own := RowsOf(rules, subs[n - 1]);
      RowsCarryId(rules, subs[n - 1], subs[n - 1].items);
      ByMessageAppend(MapAll(rules, subs[..n - 1]), own, IdOf(subs[i]));
      ByMessageAll(own, IdOf(subs[i]), IdOf(subs[n - 1]));
      if i != n - 1 {
        IdsDiffer(subs, i, n - 1);
      }
    }
  }

  lemma NoRowsNoGroup(id: string)
    ensures RowsByMessage([], id) == []
  {
  }

  lemma IdsDiffer(subs: seq<Submission>, i: nat, j: nat)
    requires AllDifferent(subs) && i < |subs| && j < |subs| && i != j && IdOf(subs[i]) != "" && IdOf(subs[j]) != ""
    ensures IdOf(subs[i]) != IdOf(subs[j])
  {
    hide IdOf, ContentKey;
    assert !Same(subs[i], subs[j]) || !Same(subs[j], subs[i]);
  }

  function CountItems(tickets: seq<Evidence>): nat {
    if tickets == [] then 0 else CountItems(tickets[..|tickets| - 1]) + |tickets[|tickets| - 1].items|
  }

  function SumTotals(tickets: seq<Evidence>): int {
    if tickets == [] then 0 else SumTotals(tickets[..|tickets| - 1]) + tickets[|tickets| - 1].mappedTotal
  }

  /** What one submission contributes: as many items as rows, and a total that is their sum. */
  lemma TicketAddsUp(rules: Rules, texts: Texts, sub: Submission)
    ensures var t := TicketOf(rules, texts, sub, RowsOf(rules, sub));
            && t != Failed(LineCountsDisagree)
            && (t.Done? && t.value.Some? ==> |t.value.value.items| == |RowsOf(rules, sub)| && t.value.value.mappedTotal == SumCents(t.value.value.items))
            && (t.Done? && t.value.None? ==> |RowsOf(rules, sub)| == 0)
  {
    CarryIsLast(rules, sub, sub.items);
    hide Strip, Carried, PricedItems, SumCents, ItemOf;
  }

  lemma {:induction false} TicketsAddUp(rules: Rules, texts: Texts, subs: seq<Submission>, i: nat, built: seq<Evidence>)
    requires i <= |subs| && AllDifferent(subs)
    requires forall k :: 0 <= k < |subs| ==> IdOf(subs[k]) != ""
    requires CountItems(built) == |MapAll(rules, subs[..i])| && SumTotals(built) == SumItems(built)
    ensures var t := TicketsFrom(rules, texts, subs, MapAll(rules, subs), i, built);
            && t != Failed(LineCountsDisagree)
            && (t.Done? ==> CountItems(t.value) == |MapAll(rules, subs)| && SumTotals(t.value) == SumItems(t.value))
    decreases |subs| - i
  {
    hide IdOf, TicketOf, RowsByMessage, RowsOf, AllDifferent, SumCents;
    assert subs[..|subs|] == subs;
    if i < |subs| {
      GroupingIsExact(rules, subs, |subs|, i);
      TicketAddsUp(rules, texts, subs[i]);
      assert subs[..i + 1][..i] == subs[..i];
      var t := TicketOf(rules, texts, subs[i], RowsOf(rules, subs[i]));
      if t.Done? {
        TicketsAddUp(rules, texts, subs, i + 1, if t.value.Some? then built + [t.value.value] else built);
      }
    }
  }

  lemma {:induction false} PlacedKeepsAll(sorted: seq<Evidence>, t: Evidence)
    ensures multiset(Placed(sorted, t)) == multiset(sorted) + multiset{t}
  {
    hide Earlier;
    if sorted != [] {
      PlacedKeepsAll(sorted[..|sorted| - 1], t);
      assert sorted == sorted[..|sorted| - 1] + [sorted[|sorted| - 1]];
    }
  }

  lemma {:induction false} PlacedKeepsSums(sorted: seq<Evidence>, t: Evidence)
    ensures var p := Placed(sorted, t);
            && CountItems(p) == CountItems(sorted) + |t.items| && SumItems(p) == SumItems(sorted) + SumCents(t.items)
            && SumTotals(p) == SumTotals(sorted) + t.mappedTotal
  {
    hide Earlier, SumCents;
    var p := Placed(sorted, t);
    if sorted == [] {
      assert p[..0] == [];
    } else if Earlier(t, sorted[|sorted| - 1]) {
      PlacedKeepsSums(sorted[..|sorted| - 1], t);
      assert p[..|p| - 1] == Placed(sorted[..|sorted| - 1], t);
    } else {
      assert p[..|p| - 1] == sorted;
    }
  }

  lemma {:induction false} SortKeepsSums(tickets: seq<Evidence>)
    ensures var s := Sorted(tickets);
            CountItems(s) == CountItems(tickets) && SumItems(s) == SumItems(tickets) && SumTotals(s) == SumTotals(tickets)
            && multiset(s) == multiset(tickets)
  {
    hide Placed, SumCents;
    if tickets != [] {
      var front, last := tickets[..|tickets| - 1], tickets[|tickets| - 1];
      SortKeepsSums(front);
      PlacedKeepsSums(Sorted(front), last);
      PlacedKeepsAll(Sorted(front), last);
      assert tickets == front + [last];
    }
  }

  /**
   * The "line counts disagree" failure cannot be reached; and the snapshot's row count and total are the sums
   * over its tickets' items and mapped totals.
   */
  lemma SnapshotAddsUp(rules: Rules, texts: Texts, originals: seq<Submission>)
    ensures var r := SnapshotOf(rules, texts, originals);
            && r != Failed(LineCountsDisagree)
            && (r.Done? ==> r.value.mappedRows == CountItems(r.value.tickets) && r.value.mappedTotal == SumTotals(r.value.tickets))
  {
    hide Select, IdOf, TicketOf, RowsOf, Placed, SumCents, ContentKey, RowsByMessage;
    var selected := Dedup(originals);
    DedupIdempotent(originals);
    if forall i :: 0 <= i < |selected| ==> IdOf(selected[i]) != "" {
      assert selected[..0] == [];
      TicketsAddUp(rules, texts, selected, 0, []);
      var tickets := TicketsFrom(rules, texts, selected, MapAll(rules, selected), 0, []);
      if tickets.Done? {
        SortKeepsSums(tickets.value);
      }
    }
  }
}
