/** What one step of the reducer adds to the ledger: one evidence record, its events or its reason. */
module LedgerSteps {
  import opened Common
  import opened Tickets
  import opened Ledgers
  import opened Ancestry
  import opened ReducerSpec

  /** An event that belongs to the record `r` filed under `k`. */
  ghost predicate Fits(e: Event, k: EvidenceKey, r: Record) {
    && e.evidence == k && e.on == r.on && e.at == r.at && e.digest == r.digest
    && (k.MailKey? ==> e.kind != OperatorReviewed)
    && (k.ReviewKey? ==> e.kind == OperatorReviewed)
    && (k.PaymentKey? ==> IsPayment(e.kind))
    && (IsPayment(e.kind) ==> e.on.Some? && e.cents.Some? && e.reference != "")
    && (!IsPayment(e.kind) ==> e.cents.None? && e.reference == "" && e.discrepancy == NoDiscrepancy)
    && (e.kind == PaymentRecorded ==> e.discrepancy == NoDiscrepancy)
    && (e.kind == PaymentDiscrepancy || e.kind == PaymentQuarantined ==> e.discrepancy != NoDiscrepancy)
  }

  /** Only events change, every old one stays, and every new one fits the record under `k`. */
  ghost predicate Grows(l: Ledger, l': Ledger, k: EvidenceKey, r: Record) {
    && l'.evidence == l.evidence && l'.unmatched == l.unmatched
    && (forall e :: e in l.events ==> e in l'.events && l'.events[e] == l.events[e])
    && (forall e :: e in l'.events && e !in l.events ==> l'.events[e].Key() == e && Fits(l'.events[e], k, r))
  }

  ghost predicate Fresh(l: Ledger, k: EvidenceKey) {
    k !in l.evidence && k !in l.unmatched && forall e :: e in l.events ==> e.evidence != k
  }

  /** A whole step for one piece of evidence. */
  ghost predicate Files(l: Ledger, l': Ledger, k: EvidenceKey, r: Record) {
    && l'.evidence == l.evidence[k := r]
    && (forall e :: e in l.events ==> e in l'.events && l'.events[e] == l.events[e])
    && (forall e :: e in l'.events && e !in l.events ==> l'.events[e].Key() == e && Fits(l'.events[e], k, r))
    && ((l'.unmatched == l.unmatched && exists e :: e in l'.events && e.evidence == k)
        || (k.MailKey? && l'.events == l.events && k in l'.unmatched && l'.unmatched == l.unmatched[k := l'.unmatched[k]]))
  }

  lemma GrowsTransitive(a: Ledger, b: Ledger, c: Ledger, k: EvidenceKey, r: Record)
    requires Grows(a, b, k, r) && Grows(b, c, k, r)
    ensures Grows(a, c, k, r)
  {
    forall e | e in c.events && e !in a.events ensures c.events[e].Key() == e && Fits(c.events[e], k, r) {
      if e in b.events { assert c.events[e] == b.events[e]; }
    }
  }

  /** Adding an event that fits only grows the ledger, and the event is there if nothing failed. */
  lemma AddEventGrows(st: State, e: Event, k: EvidenceKey, r: Record)
    requires Fits(e, k, r)
    ensures Grows(st.ledger, AddEvent(st, e).ledger, k, r)
    ensures AddEvent(st, e).tickets == st.tickets
    ensures AddEvent(st, e).ok ==> st.ok
    ensures AddEvent(st, e).ok ==> e.Key() in AddEvent(st, e).ledger.events && AddEvent(st, e).ledger.events[e.Key()] == e
    ensures e.Key() in AddEvent(st, e).ledger.events
  {
  }

  lemma {:induction false} AddEventsGrows(st: State, es: seq<Event>, k: EvidenceKey, r: Record)
    requires forall e :: e in es ==> Fits(e, k, r)
    ensures Grows(st.ledger, AddEvents(st, es).ledger, k, r)
    ensures AddEvents(st, es).ok ==> st.ok
  {
    if es != [] {
      var front := es[..|es| - 1];
      AddEventsGrows(st, front, k, r);
      AddEventGrows(AddEvents(st, front), es[|es| - 1], k, r);
      GrowsTransitive(st.ledger, AddEvents(st, front).ledger, AddEvents(st, es).ledger, k, r);
    }
  }

  /** Growing under a record just added, with an event to show, files the record. */
  lemma GrowthFiles(l: Ledger, l': Ledger, k: EvidenceKey, r: Record)
    requires Grows(l.(evidence := l.evidence[k := r]), l', k, r)
    requires exists e :: e in l'.events && e.evidence == k
    ensures Files(l, l', k, r)
  {
  }

  /** Filing fresh evidence keeps every rule the loader checks of the ledger alone. */
  lemma FilingKeepsAgreement(l: Ledger, l': Ledger, k: EvidenceKey, r: Record)
    requires LinkedOrUnmatched(l) && EventsMatchEvidence(l) && LanesKept(l) && PaymentFields(l)
    requires Fresh(l, k) && Files(l, l', k, r)
    ensures LinkedOrUnmatched(l') && EventsMatchEvidence(l') && LanesKept(l') && PaymentFields(l')
  {
    hide Fits;
    FilingLinks(l, l', k, r);
    FilingMatches(l, l', k, r);
    FilingLanes(l, l', k, r);
  }

  lemma FilingLinks(l: Ledger, l': Ledger, k: EvidenceKey, r: Record)
    requires LinkedOrUnmatched(l) && Fresh(l, k) && Files(l, l', k, r)
    ensures LinkedOrUnmatched(l')
  {
    forall x ensures x in l'.evidence <==> x in l'.unmatched || exists e :: e in l'.events && e.evidence == x {
      if x != k && x in l.evidence && x !in l.unmatched {
        var e :| e in l.events && e.evidence == x;
        assert e in l'.events;
      }
    }
    forall e | e in l'.events ensures e.evidence !in l'.unmatched {
      if e !in l.events { assert l'.events[e].evidence == k; }
    }
  }

  lemma FilingMatches(l: Ledger, l': Ledger, k: EvidenceKey, r: Record)
    requires EventsMatchEvidence(l) && Fresh(l, k) && Files(l, l', k, r)
    ensures EventsMatchEvidence(l')
  {
  }

  lemma FilingLanes(l: Ledger, l': Ledger, k: EvidenceKey, r: Record)
    requires LanesKept(l) && PaymentFields(l) && Fresh(l, k) && Files(l, l', k, r)
    ensures LanesKept(l') && PaymentFields(l')
  {
  }
}
