/** Step facts of the two payment lanes. */
module PaymentSteps {
  import opened Common
  import opened Tickets
  import opened Ledgers
  import opened Ancestry
  import opened ReducerSpec
  import opened LedgerSteps
  import opened ReducerSteps

  lemma {:induction false} PaymentForFound(ps: seq<PaymentText>, reference: Sha<string>)
    requires exists p :: p in ps && Sha(p.reference) == reference
    ensures PaymentFor(ps, reference) in ps && Sha(PaymentFor(ps, reference).reference) == reference
  {
    var last := ps[|ps| - 1];
    if Sha(last.reference) != reference {
      var p :| p in ps && Sha(p.reference) == reference;
      assert p in ps[..|ps| - 1];
      PaymentForFound(ps[..|ps| - 1], reference);
    }
  }

  /** Every binding of a readable group has its own parsed block. */
  lemma ReadableCovers(run: Run, m: Mail, bound: seq<Bound>, parsed: Option<seq<PaymentText>>, b: Bound)
    requires GroupReadable(run, m, bound, parsed) && b in bound
    ensures PaymentFor(parsed.value, b.reference) in parsed.value
    ensures Sha(PaymentFor(parsed.value, b.reference).reference) == b.reference
  {
    hide Conflicts, Resolutions;
    assert b.reference in BoundReferences(bound);
    assert b.reference in TextReferences(parsed.value);
    PaymentForFound(parsed.value, b.reference);
  }

  ghost predicate TextsOk(run: Run) {
    && (forall t :: run.reader.legacy(t).Some? ==> run.reader.legacy(t).value.reference != "")
    && (forall t, c, p :: run.reader.blocks(t, c).Some? && p in run.reader.blocks(t, c).value ==> p.reference != "")
  }

  lemma ParsedNamed(run: Run, m: Mail, context: string, bound: seq<Bound>, p: PaymentText)
    requires TextsOk(run)
    requires ParsedBlocks(run, m, context, bound).Some? && p in ParsedBlocks(run, m, context, bound).value
    ensures p.reference != ""
  {
  }

  lemma CompanionsFit(run: Run, m: Mail, ticket: string)
    ensures forall e :: e in Companions(run, m, ticket) ==>
              Fits(e, MailKey(m.key), MailRecord(m)) && !IsPayment(e.kind)
  {
  }

  /** New payment events of a step are among those of `key` for a bound ticket and its reference. */
  ghost predicate NewPayments(l: Ledger, l': Ledger, st: State, key: EvidenceKey, bound: seq<Bound>)
    requires BoundInRange(st, bound)
  {
    forall e :: e in l'.events && e !in l.events && IsPayment(e.kind) ==>
      exists b :: b in bound && l'.events[e].ticket == KeyOf(st, b.ticket) && Sha(l'.events[e].reference) == b.reference
  }

  lemma {:induction false} AddEventsNoPayments(st: State, es: seq<Event>)
    requires forall e :: e in es ==> !IsPayment(e.kind)
    ensures forall e :: e in AddEvents(st, es).ledger.events && IsPayment(e.kind) ==> e in st.ledger.events
    ensures forall e :: e in st.ledger.events ==>
              e in AddEvents(st, es).ledger.events && AddEvents(st, es).ledger.events[e] == st.ledger.events[e]
  {
    if es != [] {
      AddEventsNoPayments(st, es[..|es| - 1]);
    }
  }

  /** One payment event and its companions. */
  lemma PaymentEventGrows(run: Run, st: State, m: Mail, b: Bound, e: Event)
    requires b.ticket < |st.tickets|
    requires Fits(e, MailKey(m.key), MailRecord(m)) && IsPayment(e.kind)
    requires e.ticket == KeyOf(st, b.ticket) && Sha(e.reference) == b.reference
    ensures var s := AddEvents(AddEvent(st, e), Companions(run, m, KeyOf(st, b.ticket)));
            && (s.ok ==> st.ok && e.Key() in s.ledger.events && s.ledger.events[e.Key()] == e)
            && e.Key() in s.ledger.events
            && Grows(st.ledger, s.ledger, MailKey(m.key), MailRecord(m))
            && NewPayments(st.ledger, s.ledger, st, MailKey(m.key), [b])
            && (forall x :: x in s.ledger.events && x !in st.ledger.events && IsPayment(x.kind) ==> x == e.Key())
  {
    hide Fits;
    var k, r := MailKey(m.key), MailRecord(m);
    var s1 := AddEvent(st, e);
    AddEventGrows(st, e, k, r);
    CompanionsFit(run, m, KeyOf(st, b.ticket));
    var es := Companions(run, m, KeyOf(st, b.ticket));
    AddEventsGrows(s1, es, k, r);
    AddEventsNoPayments(s1, es);
    var s := AddEvents(s1, es);
    GrowsTransitive(st.ledger, s1.ledger, s.ledger, k, r);
    assert b in [b];
    forall x | x in s.ledger.events && x !in st.ledger.events && IsPayment(x.kind) ensures x == e.Key() {
      assert x in s1.ledger.events;
    }
    if s.ok {
      assert s1.ok;
    }
  }

  /** `v` is ticket `t`'s own payment event of the mail, or one of its replayed companions. */
  predicate OfTicket(run: Run, m: Mail, t: TicketState, own: Event, v: Event) {
    v == own || v in Companions(run, m, t.head.selector.key)
  }

  lemma {:induction false} AddEventsAdds(st: State, es: seq<Event>)
    ensures forall e :: e in AddEvents(st, es).ledger.events && e !in st.ledger.events ==> AddEvents(st, es).ledger.events[e] in es
    ensures forall e :: e in st.ledger.events ==>
              e in AddEvents(st, es).ledger.events && AddEvents(st, es).ledger.events[e] == st.ledger.events[e]
  {
    if es != [] {
      AddEventsAdds(st, es[..|es| - 1]);
      assert es == es[..|es| - 1] + [es[|es| - 1]];
    }
  }

  /** One binding's step adds its own event and companions, and nothing else. */
  lemma PaymentEventAdds(run: Run, st: State, m: Mail, i: nat, own: Event)
    requires i < |st.tickets|
    ensures var s := AddEvents(AddEvent(st, own), Companions(run, m, KeyOf(st, i)));
            && (forall e :: e in s.ledger.events && e !in st.ledger.events ==>
                  OfTicket(run, m, st.tickets[i], own, s.ledger.events[e]))
            && (forall e :: e in st.ledger.events ==> e in s.ledger.events && s.ledger.events[e] == st.ledger.events[e])
  {
    hide Companions;
    AddEventsAdds(AddEvent(st, own), Companions(run, m, KeyOf(st, i)));
  }

  lemma HeldEventFits(m: Mail, t: TicketState, p: PaymentText)
    requires m.on.Some? && p.reference != ""
    ensures Fits(HeldEvent(m, t, p), MailKey(m.key), MailRecord(m))
    ensures HeldEvent(m, t, p).kind == PaymentDiscrepancy || HeldEvent(m, t, p).kind == PaymentQuarantined
  {
  }

  lemma RecordedEventFits(m: Mail, t: TicketState, p: PaymentText)
    requires m.on.Some? && p.reference != ""
    ensures Fits(RecordedEvent(m, t, p), MailKey(m.key), MailRecord(m))
  {
  }

  ghost predicate BlocksFit(ps: seq<PaymentText>, bound: seq<Bound>) {
    forall b :: b in bound ==>
      PaymentFor(ps, b.reference).reference != "" && Sha(PaymentFor(ps, b.reference).reference) == b.reference
  }

  /** A held group changes no ticket and records no payment, only discrepancies and quarantines. */
  lemma {:induction false} HoldAllFacts(run: Run, st: State, m: Mail, bound: seq<Bound>, ps: seq<PaymentText>)
    requires BoundInRange(st, bound) && m.on.Some? && BlocksFit(ps, bound)
    ensures var s := HoldAll(run, st, m, bound, ps);
            && (s.ok ==> st.ok)
            && Grows(st.ledger, s.ledger, MailKey(m.key), MailRecord(m))
            && NewPayments(st.ledger, s.ledger, st, MailKey(m.key), bound)
            && (forall x :: x in s.ledger.events && x !in st.ledger.events ==> x.kind != PaymentRecorded)
            && (forall b :: b in bound ==>
                  var e := HeldEvent(m, st.tickets[b.ticket], PaymentFor(ps, b.reference));
                  e.Key() in s.ledger.events && (s.ok ==> s.ledger.events[e.Key()] == e))
  {
    hide Fits, HeldEvent;
    if bound != [] {
      var front, b := bound[..|bound| - 1], bound[|bound| - 1];
      HoldAllFacts(run, st, m, front, ps);
      var s0 := HoldAll(run, st, m, front, ps);
      var p := PaymentFor(ps, b.reference);
      var e := HeldEvent(m, st.tickets[b.ticket], p);
      HeldEventFits(m, st.tickets[b.ticket], p);
      HeldNames(m, st.tickets[b.ticket], p);
      PaymentEventGrows(run, s0, m, b, e);
      var s := HoldAll(run, st, m, bound, ps);
      GrowsTransitive(st.ledger, s0.ledger, s.ledger, MailKey(m.key), MailRecord(m));
      forall x | x in s.ledger.events && x !in st.ledger.events
        ensures x.kind != PaymentRecorded
        ensures IsPayment(x.kind) ==> exists c :: c in bound && s.ledger.events[x].ticket == KeyOf(st, c.ticket)
                                                 && Sha(s.ledger.events[x].reference) == c.reference
      {
        if x in s0.ledger.events {
          if IsPayment(x.kind) {
            var c :| c in front && s0.ledger.events[x].ticket == KeyOf(st, c.ticket)
                     && Sha(s0.ledger.events[x].reference) == c.reference;
            assert c in bound && s.ledger.events[x] == s0.ledger.events[x];
          }
        } else if IsPayment(x.kind) {
          assert x == e.Key();
          var c :| c in [b] && s.ledger.events[x].ticket == KeyOf(s0, c.ticket) && Sha(s.ledger.events[x].reference) == c.reference;
          assert c in bound;
        }
      }
    }
  }

  /** What holding a group adds: each bound ticket's held event and companions. */
  lemma {:induction false} HoldAllAdds(run: Run, st: State, m: Mail, bound: seq<Bound>, ps: seq<PaymentText>)
    requires BoundInRange(st, bound)
    ensures var s := HoldAll(run, st, m, bound, ps);
            && (forall e :: e in s.ledger.events && e !in st.ledger.events ==>
                  exists b :: b in bound && OfTicket(run, m, st.tickets[b.ticket],
                    HeldEvent(m, st.tickets[b.ticket], PaymentFor(ps, b.reference)), s.ledger.events[e]))
            && (forall e :: e in st.ledger.events ==> e in s.ledger.events && s.ledger.events[e] == st.ledger.events[e])
  {
    hide HeldEvent, PaymentFor, OfTicket, AddEvent, Companions;
    if bound != [] {
      var front, b := bound[..|bound| - 1], bound[|bound| - 1];
      HoldAllAdds(run, st, m, front, ps);
      var s0, s := HoldAll(run, st, m, front, ps), HoldAll(run, st, m, bound, ps);
      PaymentEventAdds(run, s0, m, b.ticket, HeldEvent(m, st.tickets[b.ticket], PaymentFor(ps, b.reference)));
      forall e | e in s.ledger.events && e !in st.ledger.events
        ensures exists c :: c in bound && OfTicket(run, m, st.tickets[c.ticket],
                  HeldEvent(m, st.tickets[c.ticket], PaymentFor(ps, c.reference)), s.ledger.events[e])
      {
        if e in s0.ledger.events {
          var c :| c in front && OfTicket(run, m, st.tickets[c.ticket],
                     HeldEvent(m, st.tickets[c.ticket], PaymentFor(ps, c.reference)), s0.ledger.events[e]);
          assert c in bound;
        } else {
          assert b in bound;
        }
      }
    }
  }

  lemma HeldNames(m: Mail, t: TicketState, p: PaymentText)
    ensures HeldEvent(m, t, p).ticket == t.head.selector.key && HeldEvent(m, t, p).reference == p.reference
  {
  }

  ghost predicate DistinctTickets(bound: seq<Bound>) {
    forall i, j :: 0 <= i < j < |bound| ==> bound[i].ticket != bound[j].ticket
  }

  function Settle(m: Mail, t: TicketState, p: PaymentText): TicketState {
    PaymentApplied(t, m.on, p.cents, p.reference)
  }

  lemma PayOneTickets(run: Run, st: State, m: Mail, b: Bound, p: PaymentText)
    requires b.ticket < |st.tickets|
    ensures PayOne(run, st, m, b, p).tickets == st.tickets[b.ticket := Settle(m, st.tickets[b.ticket], p)]
  {
  }

  /** What paying a whole group does to tickets: each bound ticket is paid from its state before the
      group, because the bound tickets are distinct objects; no other ticket changes. */
  lemma {:induction false} PayAllTickets(run: Run, st: State, m: Mail, bound: seq<Bound>, ps: seq<PaymentText>)
    requires BoundInRange(st, bound) && DistinctTickets(bound)
    ensures var s := PayAll(run, st, m, bound, ps);
            && (forall b :: b in bound ==> s.tickets[b.ticket] == Settle(m, st.tickets[b.ticket], PaymentFor(ps, b.reference)))
            && (forall i :: 0 <= i < |st.tickets| && (forall b :: b in bound ==> b.ticket != i) ==> s.tickets[i] == st.tickets[i])
  {
    hide PayOne, PaymentFor, Settle;
    if bound != [] {
      var front, b := bound[..|bound| - 1], bound[|bound| - 1];
      PayAllTickets(run, st, m, front, ps);
      var s0 := PayAll(run, st, m, front, ps);
      PayOneTickets(run, s0, m, b, PaymentFor(ps, b.reference));
      forall c | c in front ensures c.ticket != b.ticket {
        var i :| 0 <= i < |front| && front[i] == c;
        assert bound[i] == c && bound[|bound| - 1] == b;
      }
      assert forall c :: c in bound <==> c in front || c == b;
      assert s0.tickets[b.ticket] == st.tickets[b.ticket];
    }
  }

  lemma {:induction false} PayAllFacts(run: Run, st: State, m: Mail, bound: seq<Bound>, ps: seq<PaymentText>)
    requires BoundInRange(st, bound) && DistinctTickets(bound) && m.on.Some? && BlocksFit(ps, bound)
    ensures var s := PayAll(run, st, m, bound, ps);
            && (s.ok ==> st.ok)
            && Grows(st.ledger, s.ledger, MailKey(m.key), MailRecord(m))
            && NewPayments(st.ledger, s.ledger, st, MailKey(m.key), bound)
            && (forall b :: b in bound ==>
                  var e := RecordedEvent(m, st.tickets[b.ticket], PaymentFor(ps, b.reference));
                  e.Key() in s.ledger.events && (s.ok ==> s.ledger.events[e.Key()] == e))
            && (forall x :: x in s.ledger.events && x !in st.ledger.events && IsPayment(x.kind) ==> x.kind == PaymentRecorded)
  {
    hide Fits, RecordedEvent, PaymentApplied;
    if bound != [] {
      var front, b := bound[..|bound| - 1], bound[|bound| - 1];
      PayAllFacts(run, st, m, front, ps);
      PayAllTickets(run, st, m, front, ps);
      PayAllTickets(run, st, m, bound, ps);
      var s0 := PayAll(run, st, m, front, ps);
      assert s0.tickets[b.ticket] == st.tickets[b.ticket];
      var p := PaymentFor(ps, b.reference);
      var e := RecordedEvent(m, st.tickets[b.ticket], p);
      RecordedEventFits(m, st.tickets[b.ticket], p);
      RecordedNames(m, st.tickets[b.ticket], p);
      PaymentEventGrows(run, s0, m, b, e);
      var s := PayAll(run, st, m, bound, ps);
      GrowsTransitive(st.ledger, s0.ledger, s.ledger, MailKey(m.key), MailRecord(m));
      forall x | x in s.ledger.events && x !in st.ledger.events && IsPayment(x.kind)
        ensures x.kind == PaymentRecorded
        ensures exists c :: c in bound && s.ledger.events[x].ticket == KeyOf(st, c.ticket)
                            && Sha(s.ledger.events[x].reference) == c.reference
      {
        if x in s0.ledger.events {
          var c :| c in front && s0.ledger.events[x].ticket == KeyOf(st, c.ticket)
                   && Sha(s0.ledger.events[x].reference) == c.reference;
          assert c in bound && s.ledger.events[x] == s0.ledger.events[x];
        } else {
          assert x == e.Key();
          var c :| c in [b] && s.ledger.events[x].ticket == KeyOf(s0, c.ticket) && Sha(s.ledger.events[x].reference) == c.reference;
          assert c in bound;
        }
      }
      forall c | c in bound
        ensures var f := RecordedEvent(m, st.tickets[c.ticket], PaymentFor(ps, c.reference));
                f.Key() in s.ledger.events && (s.ok ==> s.ledger.events[f.Key()] == f)
      {
        if c !in front {
          assert c == b;
        }
      }
    }
  }

  lemma RecordedNames(m: Mail, t: TicketState, p: PaymentText)
    ensures RecordedEvent(m, t, p).ticket == t.head.selector.key && RecordedEvent(m, t, p).reference == p.reference
    ensures RecordedEvent(m, t, p).kind == PaymentRecorded
  {
  }

  /** What paying a group adds: each bound ticket's recorded event and companions. */
  lemma {:induction false} PayAllAdds(run: Run, st: State, m: Mail, bound: seq<Bound>, ps: seq<PaymentText>)
    requires BoundInRange(st, bound) && DistinctTickets(bound)
    ensures var s := PayAll(run, st, m, bound, ps);
            && (forall e :: e in s.ledger.events && e !in st.ledger.events ==>
                  exists b :: b in bound && OfTicket(run, m, st.tickets[b.ticket],
                    RecordedEvent(m, st.tickets[b.ticket], PaymentFor(ps, b.reference)), s.ledger.events[e]))
            && (forall e :: e in st.ledger.events ==> e in s.ledger.events && s.ledger.events[e] == st.ledger.events[e])
  {
    hide RecordedEvent, PaymentFor, OfTicket, AddEvent, Companions, Settle, PaymentApplied;
    if bound != [] {
      var front, b := bound[..|bound| - 1], bound[|bound| - 1];
      PayAllAdds(run, st, m, front, ps);
      PayAllTickets(run, st, m, front, ps);
      var s0, s := PayAll(run, st, m, front, ps), PayAll(run, st, m, bound, ps);
      assert s0.tickets[b.ticket] == st.tickets[b.ticket];
      PaymentEventAdds(run, s0, m, b.ticket, RecordedEvent(m, st.tickets[b.ticket], PaymentFor(ps, b.reference)));
      forall e | e in s.ledger.events && e !in st.ledger.events
        ensures exists c :: c in bound && OfTicket(run, m, st.tickets[c.ticket],
                  RecordedEvent(m, st.tickets[c.ticket], PaymentFor(ps, c.reference)), s.ledger.events[e])
      {
        if e in s0.ledger.events {
          var c :| c in front && OfTicket(run, m, st.tickets[c.ticket],
                     RecordedEvent(m, st.tickets[c.ticket], PaymentFor(ps, c.reference)), s0.ledger.events[e]);
          assert c in bound;
        } else {
          assert b in bound;
        }
      }
    }
  }
}
