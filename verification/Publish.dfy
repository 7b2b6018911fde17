/** The three ledger lists as published: unique keys in the order the loader demands. */
module Publish {
  import opened Common
  import opened Digits
  import opened Ledgers

  ghost predicate StrictOrder<K(!new)>(less: (K, K) -> bool) {
    && (forall a, b :: less(a, b) ==> !less(b, a) && a != b)
    && (forall a, b :: a != b ==> less(a, b) || less(b, a))
    && (forall a, b, c :: less(a, b) && less(b, c) ==> less(a, c))
  }

  ghost predicate Ascending<K(!new)>(s: seq<K>, less: (K, K) -> bool) {
    forall i, j :: 0 <= i < j < |s| ==> less(s[i], s[j])
  }

  function Insert<K>(s: seq<K>, x: K, less: (K, K) -> bool): seq<K> {
    if s == [] then [x]
    else if less(x, s[0]) then [x] + s
    else [s[0]] + Insert(s[1..], x, less)
  }

  lemma {:induction false} InsertElements<K>(s: seq<K>, x: K, less: (K, K) -> bool, e: K)
    ensures e in Insert(s, x, less) <==> e in s || e == x
  {
    if s != [] && !less(x, s[0]) {
      InsertElements(s[1..], x, less, e);
      assert s == [s[0]] + s[1..];
    }
  }

  lemma {:induction false} InsertAscending<K(!new)>(s: seq<K>, x: K, less: (K, K) -> bool)
    requires StrictOrder(less) && Ascending(s, less) && x !in s
    ensures Ascending(Insert(s, x, less), less)
  {
    if s != [] && !less(x, s[0]) {
      var rest := Insert(s[1..], x, less);
      InsertAscending(s[1..], x, less);
      forall e | e in rest ensures less(s[0], e) {
        InsertElements(s[1..], x, less, e);
      }
    }
  }

  /** `sorted(values, key=...)` over a dictionary's distinct keys. */
  method SortKeys<K(==,!new)>(keys: set<K>, less: (K, K) -> bool) returns (s: seq<K>)
    requires StrictOrder(less)
    ensures Ascending(s, less) && Distinct(s)
    ensures forall k :: k in s <==> k in keys
  {
    s := [];
    var left := keys;
    while left != {}
      invariant left <= keys && Ascending(s, less)
      invariant forall k :: k in s <==> k in keys && k !in left
      decreases |left|
    {
      var k :| k in left;
      InsertAscending(s, k, less);
      forall e ensures e in Insert(s, k, less) <==> e in s || e == k {
        InsertElements(s, k, less, e);
      }
      s := Insert(s, k, less);
      left := left - {k};
    }
  }

  /** The published lists, given the text each key is written as. */
  datatype Lists = Lists(evidence: seq<EvidenceKey>, events: seq<EventKey>, unmatched: seq<EvidenceKey>)

  function StampRank(at: Option<Stamp>): int {
    if at.Some? then at.value else -1
  }

  /** Events are ordered by timestamp, a blank one first, then by key text. */
  predicate EventBefore(l: map<EventKey, Event>, text: EventKey -> string, a: EventKey, b: EventKey) {
    var x, y := (if a in l then StampRank(l[a].at) else -1), (if b in l then StampRank(l[b].at) else -1);
    x < y || (x == y && Before(text(a), text(b)))
  }

  function TextLess<K>(text: K -> string): (K, K) -> bool {
    (a, b) => Before(text(a), text(b))
  }

  function EventLess(l: map<EventKey, Event>, text: EventKey -> string): (EventKey, EventKey) -> bool {
    (a, b) => EventBefore(l, text, a, b)
  }

  lemma TextOrder<K(!new)>(text: K -> string)
    requires forall a, b :: a != b ==> text(a) != text(b)
    ensures StrictOrder(TextLess(text))
  {
    forall a, b ensures Before(text(a), text(b)) ==> !Before(text(b), text(a)) && a != b {
      if Before(text(a), text(b)) { BeforeAsymmetric(text(a), text(b)); }
    }
    forall a, b | a != b ensures Before(text(a), text(b)) || Before(text(b), text(a)) {
      BeforeTotal(text(a), text(b));
    }
    forall a, b, c | Before(text(a), text(b)) && Before(text(b), text(c)) ensures Before(text(a), text(c)) {
      BeforeTransitive(text(a), text(b), text(c));
    }
  }

  lemma EventOrder(l: map<EventKey, Event>, text: EventKey -> string)
    requires forall a, b :: a != b ==> text(a) != text(b)
    ensures StrictOrder(EventLess(l, text))
  {
    forall a, b ensures EventBefore(l, text, a, b) ==> !EventBefore(l, text, b, a) && a != b {
      if EventBefore(l, text, a, b) && Before(text(a), text(b)) { BeforeAsymmetric(text(a), text(b)); }
    }
    forall a, b | a != b ensures EventBefore(l, text, a, b) || EventBefore(l, text, b, a) {
      BeforeTotal(text(a), text(b));
    }
    forall a, b, c | EventBefore(l, text, a, b) && EventBefore(l, text, b, c) ensures EventBefore(l, text, a, c) {
      if Before(text(a), text(b)) && Before(text(b), text(c)) { BeforeTransitive(text(a), text(b), text(c)); }
    }
  }

  /** Whatever texts the keys have, the published lists hold each key once, in the loader's order. */
  method PublishLists(l: Ledger, evidenceText: EvidenceKey -> string, eventText: EventKey -> string) returns (p: Lists)
    requires forall a, b :: a != b ==> evidenceText(a) != evidenceText(b)
    requires forall a, b :: a != b ==> eventText(a) != eventText(b)
    ensures Distinct(p.evidence) && Distinct(p.events) && Distinct(p.unmatched)
    ensures forall i, j :: 0 <= i < j < |p.evidence| ==> Before(evidenceText(p.evidence[i]), evidenceText(p.evidence[j]))
    ensures forall i, j :: 0 <= i < j < |p.unmatched| ==> Before(evidenceText(p.unmatched[i]), evidenceText(p.unmatched[j]))
    ensures forall i, j :: 0 <= i < j < |p.events| ==> EventBefore(l.events, eventText, p.events[i], p.events[j])
    ensures forall k :: k in p.evidence <==> k in l.evidence
    ensures forall k :: k in p.events <==> k in l.events
    ensures forall k :: k in p.unmatched <==> k in l.unmatched
  {
    TextOrder(evidenceText);
    EventOrder(l.events, eventText);
    var evidence := SortKeys(l.evidence.Keys, TextLess(evidenceText));
    var events := SortKeys(l.events.Keys, EventLess(l.events, eventText));
    var unmatched := SortKeys(l.unmatched.Keys, TextLess(evidenceText));
    p := Lists(evidence, events, unmatched);
  }
}
