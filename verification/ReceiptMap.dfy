/** Selecting submissions, mapping them to ledger rows, and the evidence snapshot built from both. */
module ReceiptMap {
  import opened Common
  import opened SourceEvidence
  import Tickets

  datatype Item = Item(index: nat, date: string, category: string, description: string, amount: string)

  datatype Submission = Submission(messageId: string, subject: string, received: string, name: string, email: string,
    items: seq<Item>, total: string, payMethod: string, receiptUrls: seq<string>, sourceReceiptUrls: seq<string>,
    attachments: seq<string>, notes: string)

  /** A row's amount: two decimals, or the text kept verbatim when it does not parse. */
  datatype Amount = Cents(cents: int) | Verbatim(text: string)

  datatype Review = Review(unmapped: bool, badAmount: bool, mismatch: bool)

  datatype LedgerRow = LedgerRow(messageId: string, received: string, form: string, date: string, rawCategory: string,
    canonical: string, amount: Amount, review: Review)

  /** The readers, patterns and tables a mapping run is given; `mailAttachments` counts an archived original's. */
  datatype Rules = Rules(cents: string -> Option<int>, category: string -> string, fallback: string -> string,
    form: string -> string, reconciles: Submission -> Option<bool>, received: string -> Option<Day>, isoDate: string -> string,
    direct: string -> bool, meal: string -> bool, giveaway: string -> bool, mailAttachments: string -> nat)

  /** The digested keys: of a submission, from its message id, and of a line, from that key and its index. */
  datatype Texts = Texts(review: string -> string, line: (string, nat) -> string)

  function IdOf(sub: Submission): string {
    Strip(sub.messageId)
  }

  /** Requestor, stated total and first line's date: the mark of an accidental resubmission. */
  function ContentKey(sub: Submission): string {
    var email := Lower(Strip(sub.email));
    (if email != "" then email else Lower(Strip(sub.name))) + "|" + Strip(sub.total) + "|"
      + if sub.items == [] then "" else Strip(sub.items[0].date)
  }

  // ---------- Deduplication ----------

  datatype Selection = Selection(kept: seq<Submission>, ids: set<string>, keys: set<string>)

  function Select(s: Selection, sub: Submission): Selection {
    if (IdOf(sub) != "" && IdOf(sub) in s.ids) || ContentKey(sub) in s.keys then s
    else Selection(s.kept + [sub], if IdOf(sub) != "" then s.ids + {IdOf(sub)} else s.ids, s.keys + {ContentKey(sub)})
  }

  function Selected(subs: seq<Submission>): Selection {
    if subs == [] then Selection([], {}, {}) else Select(Selected(subs[..|subs| - 1]), subs[|subs| - 1])
  }

  function Dedup(subs: seq<Submission>): seq<Submission> {
    Selected(subs).kept
  }

  method DeduplicateSubmissions(subs: seq<Submission>) returns (kept: seq<Submission>)
    ensures kept == Dedup(subs)
  {
    hide IdOf, ContentKey;
    var ids: set<string>, keys: set<string> := {}, {};
    kept := [];
    for i := 0 to |subs|
      invariant Selection(kept, ids, keys) == Selected(subs[..i])
    {
      assert subs[..i + 1][..i] == subs[..i];
      var id := IdOf(subs[i]);
      if id != "" && id in ids {
        continue;
      }
      var key := ContentKey(subs[i]);
      if key in keys {
        continue;
      }
      if id != "" {
        ids := ids + {id};
      }
      keys := keys + {key};
      kept := kept + [subs[i]];
    }
    assert subs[..|subs|] == subs;
  }

  // ---------- Mapping ----------

  predicate Priced(item: Item) {
    Strip(item.amount) != ""
  }

  function AmountOf(rules: Rules, raw: string): Amount {
    if rules.cents(raw).Some? then Cents(rules.cents(raw).value) else Verbatim(raw)
  }

  /** The rows of one submission so far, with the date and category last seen. */
  datatype Carry = Carry(date: string, raw: string, rows: seq<LedgerRow>)

  function RowFor(rules: Rules, sub: Submission, item: Item, date: string, raw: string): LedgerRow {
    var mapped := rules.category(Lower(raw));
    var canonical := if mapped == "" && raw == "" then rules.fallback(rules.form(sub.subject)) else mapped;
    LedgerRow(IdOf(sub), sub.received, rules.form(sub.subject), date, raw, canonical, AmountOf(rules, item.amount),
      Review(canonical == "", rules.cents(item.amount).None?, rules.reconciles(sub) == Some(false)))
  }

  function Or(text: string, last: string): string {
    if text != "" then text else last
  }

  function CarryStep(rules: Rules, sub: Submission, c: Carry, item: Item): Carry {
    if !Priced(item) then c
    else
      var date, raw := Or(Strip(item.date), c.date), Or(Strip(item.category), c.raw);
      Carry(date, raw, c.rows + [RowFor(rules, sub, item, date, raw)])
  }

  function Carried(rules: Rules, sub: Submission, items: seq<Item>): Carry {
    if items == [] then Carry("", "", [])
    else CarryStep(rules, sub, Carried(rules, sub, items[..|items| - 1]), items[|items| - 1])
  }

  function RowsOf(rules: Rules, sub: Submission): seq<LedgerRow> {
    Carried(rules, sub, sub.items).rows
  }

  function MapAll(rules: Rules, subs: seq<Submission>): seq<LedgerRow> {
    if subs == [] then [] else MapAll(rules, subs[..|subs| - 1]) + RowsOf(rules, subs[|subs| - 1])
  }

  method MapOne(rules: Rules, sub: Submission) returns (rows: seq<LedgerRow>)
    ensures rows == RowsOf(rules, sub)
  {
    hide IdOf, Strip, Lower, RowFor;
    var lastDate, lastRaw := "", "";
    rows := [];
    for k := 0 to |sub.items|
      invariant Carry(lastDate, lastRaw, rows) == Carried(rules, sub, sub.items[..k])
    {
      assert sub.items[..k + 1][..k] == sub.items[..k];
      var item := sub.items[k];
      if Strip(item.amount) == "" {
        continue;
      }
      lastDate := Or(Strip(item.date), lastDate);
      lastRaw := Or(Strip(item.category), lastRaw);
      rows := rows + [RowFor(rules, sub, item, lastDate, lastRaw)];
    }
    assert sub.items[..|sub.items|] == sub.items;
  }

  method MapSubmissions(rules: Rules, subs: seq<Submission>) returns (rows: seq<LedgerRow>)
    ensures rows == MapAll(rules, Dedup(subs))
  {
    hide Selected, RowsOf;
    var kept := DeduplicateSubmissions(subs);
    rows := [];
    for i := 0 to |kept|
      invariant rows == MapAll(rules, kept[..i])
    {
      assert kept[..i + 1][..i] == kept[..i];
      var own := MapOne(rules, kept[i]);
      rows := rows + own;
    }
    assert kept[..|kept|] == kept;
  }

  // ---------- The evidence snapshot ----------

  datatype Built = Built(tickets: seq<Evidence>, mappedRows: nat, mappedTotal: int)

  datatype Failure = NoMessageId | LineCountsDisagree | BadAmount | BadDate | BadStatedTotal

  datatype Outcome<+T> = Done(value: T) | Failed(failure: Failure)

  function PricedItems(items: seq<Item>): seq<Item> {
    if items == [] then []
    else PricedItems(items[..|items| - 1]) + if Priced(items[|items| - 1]) then [items[|items| - 1]] else []
  }

  function RowsByMessage(rows: seq<LedgerRow>, id: string): seq<LedgerRow> {
    if rows == [] then []
    else RowsByMessage(rows[..|rows| - 1], id) + if rows[|rows| - 1].messageId == id then [rows[|rows| - 1]] else []
  }

  /** The reasons of a review, as the row spells them. */
  function FlagsOf(review: Review): seq<string> {
    (if review.unmapped then ["unmapped-category"] else []) + (if review.badAmount then ["bad-amount"] else [])
    + (if review.mismatch then ["total-mismatch"] else [])
  }

  function ItemOf(rules: Rules, texts: Texts, key: string, item: Item, row: LedgerRow): EvidenceItem
    requires row.amount.Cents?
  {
    var description := Or(Strip(item.description), "Item description unavailable");
    EvidenceItem(texts.line(key, item.index), item.index, rules.isoDate(row.date), description, Strip(row.canonical),
      row.amount.cents, FlagsOf(row.review), rules.meal(description), rules.giveaway(description))
  }

  function SumCents(items: seq<EvidenceItem>): int {
    if items == [] then 0 else SumCents(items[..|items| - 1]) + items[|items| - 1].cents
  }

  function Flags(items: seq<EvidenceItem>): seq<string> {
    if items == [] then [] else Flags(items[..|items| - 1]) + items[|items| - 1].flags
  }

  function Categories(items: seq<EvidenceItem>): seq<string> {
    seq(|items|, k requires 0 <= k < |items| => items[k].category)
  }

  function EvidenceOf(rules: Rules, sub: Submission, key: string, on: Day, items: seq<EvidenceItem>): Evidence {
    Evidence(key, on, sub.payMethod, Tickets.FirstSeen(Categories(items)), SumCents(items), Tickets.FirstSeen(Flags(items)),
      |sub.receiptUrls| + rules.mailAttachments(IdOf(sub)), rules.direct(sub.subject), items,
      Unread(sub.name, sub.email, rules.form(sub.subject), if Strip(sub.total) == "" then None else rules.cents(sub.total),
             sub.sourceReceiptUrls, sub.attachments, sub.notes))
  }

  /** One submission's evidence, given its mapped rows; none when no line has an amount. */
  function TicketOf(rules: Rules, texts: Texts, sub: Submission, rows: seq<LedgerRow>): Outcome<Option<Evidence>> {
    var priced := PricedItems(sub.items);
    if rows == [] then Done(None)
    else if |priced| != |rows| then Failed(LineCountsDisagree)
    else if exists k | 0 <= k < |rows| :: !rows[k].amount.Cents? then Failed(BadAmount)
    else if rules.received(sub.received).None? then Failed(BadDate)
    else if Strip(sub.total) != "" && rules.cents(sub.total).None? then Failed(BadStatedTotal)
    else
      var key := texts.review(IdOf(sub));
      var items := seq(|rows|, k requires 0 <= k < |rows| => ItemOf(rules, texts, key, priced[k], rows[k]));
      Done(Some(EvidenceOf(rules, sub, key, rules.received(sub.received).value, items)))
  }

  /** The evidence of the submissions from `i` on, after that already built. */
  function TicketsFrom(rules: Rules, texts: Texts, subs: seq<Submission>, rows: seq<LedgerRow>, i: nat, built: seq<Evidence>): Outcome<seq<Evidence>>
    requires i <= |subs|
    decreases |subs| - i
  {
    if i == |subs| then Done(built)
    else
      var t := TicketOf(rules, texts, subs[i], RowsByMessage(rows, IdOf(subs[i])));
      if t.Failed? then Failed(t.failure)
      else TicketsFrom(rules, texts, subs, rows, i + 1, if t.value.Some? then built + [t.value.value] else built)
  }

  /** Stable insertion: `tickets.sort(key=(received, review_key))`. */
  function Placed(sorted: seq<Evidence>, t: Evidence): seq<Evidence> {
    if sorted == [] then [t]
    else if Earlier(t, sorted[|sorted| - 1]) then Placed(sorted[..|sorted| - 1], t) + [sorted[|sorted| - 1]]
    else sorted + [t]
  }

  function Sorted(tickets: seq<Evidence>): seq<Evidence> {
    if tickets == [] then [] else Placed(Sorted(tickets[..|tickets| - 1]), tickets[|tickets| - 1])
  }

  function SumItems(tickets: seq<Evidence>): int {
    if tickets == [] then 0 else SumItems(tickets[..|tickets| - 1]) + SumCents(tickets[|tickets| - 1].items)
  }

  function SnapshotOf(rules: Rules, texts: Texts, originals: seq<Submission>): Outcome<Built> {
    var selected := Dedup(originals);
    if exists i | 0 <= i < |selected| :: IdOf(selected[i]) == "" then Failed(NoMessageId)
    else
      var rows := MapAll(rules, Dedup(selected));
      var tickets := TicketsFrom(rules, texts, selected, rows, 0, []);
      if tickets.Failed? then Failed(tickets.failure)
      else
        var sorted := Sorted(tickets.value);
        Done(Built(sorted, |rows|, SumItems(sorted)))
  }

  method BuildEvidenceSnapshot(rules: Rules, texts: Texts, originals: seq<Submission>) returns (r: Outcome<Built>)
    ensures r == SnapshotOf(rules, texts, originals)
  {
    hide IdOf, ContentKey, TicketOf, RowsByMessage, Selected, Placed, SumCents, RowsOf;
    var selected := DeduplicateSubmissions(originals);
    if exists i | 0 <= i < |selected| :: IdOf(selected[i]) == "" {
      return Failed(NoMessageId);
    }
    var rows := MapSubmissions(rules, selected);
    var tickets: seq<Evidence> := [];
    for i := 0 to |selected|
      invariant TicketsFrom(rules, texts, selected, rows, 0, []) == TicketsFrom(rules, texts, selected, rows, i, tickets)
    {
      var t := TicketOf(rules, texts, selected[i], RowsByMessage(rows, IdOf(selected[i])));
      if t.Failed? {
        return Failed(t.failure);
      }
      if t.value.Some? {
        tickets := tickets + [t.value.value];
      }
    }
    var sorted := Sorted(tickets);
    r := Done(Built(sorted, |rows|, SumItems(sorted)));
  }
}
