/** The payment-link lane: each linked mail settles all of its tickets or none of them. */
module LinkLane {
  import opened Common
  import opened Tickets
  import opened Ledgers
  import opened Ancestry
  import opened ReducerSpec
  import opened LedgerSteps
  import opened ReducerSteps
  import opened PaymentSteps

  /** All bound tickets are paid from their state in `mid`, each with its own recorded event. */
  ghost predicate AllPaid(run: Run, mid: State, s: State, m: Mail, bound: seq<Bound>, ps: seq<PaymentText>)
    requires BoundInRange(mid, bound) && BoundInRange(s, bound)
  {
    forall b :: b in bound ==>
      var p, t := PaymentFor(ps, b.reference), mid.tickets[b.ticket];
      && s.tickets[b.ticket] == Settle(m, t, p)
      && RecordedEvent(m, t, p).Key() in s.ledger.events
      && s.ledger.events[RecordedEvent(m, t, p).Key()] == RecordedEvent(m, t, p)
  }

  ghost predicate NonePaid(mid: State, s: State, m: Mail, bound: seq<Bound>)
    requires BoundInRange(mid, bound) && BoundInRange(s, bound)
  {
    && (forall b :: b in bound ==> s.tickets[b.ticket] == mid.tickets[b.ticket])
    && (forall e :: e in s.ledger.events && e.evidence == MailKey(m.key) ==> e.kind != PaymentRecorded)
  }

  /** Every bound ticket has its held event. */
  ghost predicate AllHeld(s: State, mid: State, m: Mail, bound: seq<Bound>, ps: seq<PaymentText>)
    requires BoundInRange(mid, bound)
  {
    forall b :: b in bound ==>
      var e := HeldEvent(m, mid.tickets[b.ticket], PaymentFor(ps, b.reference));
      e.Key() in s.ledger.events && s.ledger.events[e.Key()] == e
  }

  /** The mail's events are the bound tickets' held events and replayed companions, no others. */
  ghost predicate OnlyHeld(run: Run, mid: State, s: State, m: Mail, bound: seq<Bound>, ps: seq<PaymentText>)
    requires BoundInRange(mid, bound)
  {
    forall e :: e in s.ledger.events && e.evidence == MailKey(m.key) ==>
      exists b :: b in bound && e.ticket == KeyOf(mid, b.ticket)
                  && OfTicket(run, m, mid.tickets[b.ticket],
                              HeldEvent(m, mid.tickets[b.ticket], PaymentFor(ps, b.reference)), s.ledger.events[e])
  }

  /** The mail's events are the bound tickets' recorded events and replayed companions, no others. */
  ghost predicate OnlyPaid(run: Run, mid: State, s: State, m: Mail, bound: seq<Bound>, ps: seq<PaymentText>)
    requires BoundInRange(mid, bound)
  {
    forall e :: e in s.ledger.events && e.evidence == MailKey(m.key) ==>
      exists b :: b in bound && e.ticket == KeyOf(mid, b.ticket)
                  && OfTicket(run, m, mid.tickets[b.ticket],
                              RecordedEvent(m, mid.tickets[b.ticket], PaymentFor(ps, b.reference)), s.ledger.events[e])
  }

  lemma OfTicketNames(run: Run, m: Mail, t: TicketState, p: PaymentText, v: Event)
    ensures OfTicket(run, m, t, HeldEvent(m, t, p), v) ==> v.ticket == t.head.selector.key
    ensures OfTicket(run, m, t, RecordedEvent(m, t, p), v) ==> v.ticket == t.head.selector.key
  {
  }

  ghost predicate SetAside(s: State, m: Mail) {
    && MailKey(m.key) in s.ledger.unmatched && s.ledger.unmatched[MailKey(m.key)] == PaymentLinkRejected
    && forall e :: e in s.ledger.events ==> e.evidence != MailKey(m.key)
  }

  function Blocks(run: Run, st: State, m: Mail, bound: seq<Bound>): Option<seq<PaymentText>>
    requires BoundInRange(st, bound)
  {
    ParsedBlocks(run, m, ContextOf(st, bound), bound)
  }

  /** The outcome of one linked mail, judged on the tickets as they were in `mid`. */
  ghost predicate Outcome(run: Run, mid: State, s: State, m: Mail, bound: seq<Bound>)
    requires BoundInRange(mid, bound) && BoundInRange(s, bound)
  {
    match Judge(run, mid, m, bound)
    case Rejected => NonePaid(mid, s, m, bound) && SetAside(s, m)
    case Held => Blocks(run, mid, m, bound).Some? && NonePaid(mid, s, m, bound)
                 && AllHeld(s, mid, m, bound, Blocks(run, mid, m, bound).value)
                 && OnlyHeld(run, mid, s, m, bound, Blocks(run, mid, m, bound).value)
    case Payable => Blocks(run, mid, m, bound).Some? && AllPaid(run, mid, s, m, bound, Blocks(run, mid, m, bound).value)
                    && OnlyPaid(run, mid, s, m, bound, Blocks(run, mid, m, bound).value)
  }

  /** Judging reads only the bound tickets. */
  lemma JudgeIsLocal(run: Run, a: State, b: State, m: Mail, bound: seq<Bound>)
    requires BoundInRange(a, bound) && BoundInRange(b, bound)
    requires forall x :: x in bound ==> a.tickets[x.ticket] == b.tickets[x.ticket]
    ensures Judge(run, a, m, bound) == Judge(run, b, m, bound)
    ensures Blocks(run, a, m, bound) == Blocks(run, b, m, bound)
  {
    hide GroupReadable, Eligible, PaymentFor, ParsedBlocks, UsesLegacy, Tickets.Payable;
    assert ContextOf(a, bound) == ContextOf(b, bound);
  }

  lemma ReadableBlocksFit(run: Run, m: Mail, context: string, bound: seq<Bound>)
    requires TextsOk(run) && GroupReadable(run, m, bound, ParsedBlocks(run, m, context, bound))
    ensures BlocksFit(ParsedBlocks(run, m, context, bound).value, bound) && m.on.Some?
  {
    hide ParsedBlocks, TextsOk, Conflicts, Resolutions;
    var parsed := ParsedBlocks(run, m, context, bound);
    forall b | b in bound
      ensures PaymentFor(parsed.value, b.reference).reference != ""
              && Sha(PaymentFor(parsed.value, b.reference).reference) == b.reference
    {
      ReadableCovers(run, m, bound, parsed, b);
      ParsedNamed(run, m, context, bound, PaymentFor(parsed.value, b.reference));
    }
  }

  /** What a verdict other than rejection rests on. */
  lemma JudgedReadable(run: Run, st: State, m: Mail, bound: seq<Bound>)
    requires BoundInRange(st, bound) && Judge(run, st, m, bound) != Rejected
    ensures GroupReadable(run, m, bound, Blocks(run, st, m, bound))
    ensures forall b :: b in bound ==>
              Eligible(run, m, st.tickets[b.ticket], PaymentFor(Blocks(run, st, m, bound).value, b.reference),
                       UsesLegacy(run, m, ContextOf(st, bound), bound))
    ensures Judge(run, st, m, bound) == Verdict.Payable ==>
              forall b :: b in bound ==> PaymentFor(Blocks(run, st, m, bound).value, b.reference).cents
                                         == Tickets.Payable(st.tickets[b.ticket].items)
  {
    hide GroupReadable, Eligible, PaymentFor, ParsedBlocks, UsesLegacy, Tickets.Payable;
  }

  lemma PayStep(run: Run, st: State, m: Mail, bound: seq<Bound>, ps: seq<PaymentText>)
    requires BoundInRange(st, bound) && DistinctTickets(bound) && bound != []
    requires m.on.Some? && BlocksFit(ps, bound) && Fresh(st.ledger, MailKey(m.key))
    ensures var s := PayAll(run, Account(st, m), m, bound, ps);
            && Files(st.ledger, s.ledger, MailKey(m.key), MailRecord(m))
            && NewPayments(st.ledger, s.ledger, st, MailKey(m.key), bound)
            && (s.ok ==> AllPaid(run, st, s, m, bound, ps)) && OnlyPaid(run, st, s, m, bound, ps)
            && (forall i :: 0 <= i < |st.tickets| && (forall b :: b in bound ==> b.ticket != i) ==> s.tickets[i] == st.tickets[i])
  {
    hide Fits, BlocksFit, PaymentFor, RecordedEvent, Settle, PayAll;
    var s0 := Account(st, m);
    PayAllFacts(run, s0, m, bound, ps);
    PayAllTickets(run, s0, m, bound, ps);
    var s := PayAll(run, s0, m, bound, ps);
    assert bound[0] in bound;
    RecordedNames(m, st.tickets[bound[0].ticket], PaymentFor(ps, bound[0].reference));
    var e := RecordedEvent(m, st.tickets[bound[0].ticket], PaymentFor(ps, bound[0].reference)).Key();
    assert e in s.ledger.events;
    RecordedKey(m, st.tickets[bound[0].ticket], PaymentFor(ps, bound[0].reference));
    PaysOnly(run, st, m, bound, ps);
    GrowthFiles(st.ledger, s.ledger, MailKey(m.key), MailRecord(m));
  }

  lemma RecordedKey(m: Mail, t: TicketState, p: PaymentText)
    ensures RecordedEvent(m, t, p).Key().evidence == MailKey(m.key)
  {
  }

  lemma HoldStep(run: Run, st: State, m: Mail, bound: seq<Bound>, ps: seq<PaymentText>)
    requires BoundInRange(st, bound) && bound != []
    requires m.on.Some? && BlocksFit(ps, bound) && Fresh(st.ledger, MailKey(m.key))
    ensures var s := HoldAll(run, Account(st, m), m, bound, ps);
            && Files(st.ledger, s.ledger, MailKey(m.key), MailRecord(m))
            && NewPayments(st.ledger, s.ledger, st, MailKey(m.key), bound)
            && NonePaid(st, s, m, bound) && (s.ok ==> AllHeld(s, st, m, bound, ps)) && OnlyHeld(run, st, s, m, bound, ps)
  {
    hide Fits, BlocksFit, PaymentFor, HeldEvent;
    var s0 := Account(st, m);
    HoldAllFacts(run, s0, m, bound, ps);
    var s := HoldAll(run, s0, m, bound, ps);
    assert bound[0] in bound;
    HeldKey(m, st.tickets[bound[0].ticket], PaymentFor(ps, bound[0].reference));
    assert HeldEvent(m, st.tickets[bound[0].ticket], PaymentFor(ps, bound[0].reference)).Key() in s.ledger.events;
    HoldsOnly(run, st, m, bound, ps);
    GrowthFiles(st.ledger, s.ledger, MailKey(m.key), MailRecord(m));
  }

  lemma PayAllKeys(run: Run, st: State, m: Mail, bound: seq<Bound>, ps: seq<PaymentText>)
    requires BoundInRange(st, bound) && DistinctTickets(bound) && m.on.Some? && BlocksFit(ps, bound)
    ensures var s := PayAll(run, st, m, bound, ps);
            forall e :: e in s.ledger.events && e !in st.ledger.events ==> s.ledger.events[e].Key() == e
  {
    hide PaymentFor, PayAll, BlocksFit, Fits, RecordedEvent, NewPayments;
    PayAllFacts(run, st, m, bound, ps);
  }

  lemma OnlyPaidFromNew(run: Run, st: State, s: State, m: Mail, bound: seq<Bound>, ps: seq<PaymentText>)
    requires BoundInRange(st, bound) && forall e :: e in st.ledger.events ==> e.evidence != MailKey(m.key)
    requires forall e :: e in s.ledger.events && e !in st.ledger.events ==>
               s.ledger.events[e].Key() == e
               && exists b :: b in bound && OfTicket(run, m, st.tickets[b.ticket],
                    RecordedEvent(m, st.tickets[b.ticket], PaymentFor(ps, b.reference)), s.ledger.events[e])
    ensures OnlyPaid(run, st, s, m, bound, ps)
  {
    hide PaymentFor, OfTicket, RecordedEvent;
    forall e | e in s.ledger.events && e.evidence == MailKey(m.key)
      ensures exists b :: b in bound && e.ticket == KeyOf(st, b.ticket)
                          && OfTicket(run, m, st.tickets[b.ticket],
                                      RecordedEvent(m, st.tickets[b.ticket], PaymentFor(ps, b.reference)), s.ledger.events[e])
    {
      assert e !in st.ledger.events;
      var b :| b in bound && OfTicket(run, m, st.tickets[b.ticket],
                 RecordedEvent(m, st.tickets[b.ticket], PaymentFor(ps, b.reference)), s.ledger.events[e]);
      OfTicketNames(run, m, st.tickets[b.ticket], PaymentFor(ps, b.reference), s.ledger.events[e]);
    }
  }

  lemma PaysOnly(run: Run, st: State, m: Mail, bound: seq<Bound>, ps: seq<PaymentText>)
    requires BoundInRange(st, bound) && DistinctTickets(bound) && m.on.Some? && BlocksFit(ps, bound) && Fresh(st.ledger, MailKey(m.key))
    ensures OnlyPaid(run, st, PayAll(run, Account(st, m), m, bound, ps), m, bound, ps)
  {
    hide PaymentFor, PayAll, BlocksFit, OfTicket, RecordedEvent, OnlyPaid;
    var s0 := Account(st, m);
    PayAllAdds(run, s0, m, bound, ps);
    PayAllKeys(run, s0, m, bound, ps);
    OnlyPaidFromNew(run, s0, PayAll(run, s0, m, bound, ps), m, bound, ps);
    assert OnlyPaid(run, st, PayAll(run, s0, m, bound, ps), m, bound, ps) by {
      OnlyPaidLocal(run, s0, st, PayAll(run, s0, m, bound, ps), m, bound, ps);
    }
  }

  lemma OnlyPaidLocal(run: Run, st: State, mid: State, s: State, m: Mail, bound: seq<Bound>, ps: seq<PaymentText>)
    requires BoundInRange(st, bound) && BoundInRange(mid, bound)
    requires forall b :: b in bound ==> st.tickets[b.ticket] == mid.tickets[b.ticket]
    requires OnlyPaid(run, st, s, m, bound, ps)
    ensures OnlyPaid(run, mid, s, m, bound, ps)
  {
    hide PaymentFor, OfTicket, RecordedEvent;
  }

  lemma HoldAllKeys(run: Run, st: State, m: Mail, bound: seq<Bound>, ps: seq<PaymentText>)
    requires BoundInRange(st, bound) && m.on.Some? && BlocksFit(ps, bound)
    ensures var s := HoldAll(run, st, m, bound, ps);
            forall e :: e in s.ledger.events && e !in st.ledger.events ==> s.ledger.events[e].Key() == e
  {
    hide PaymentFor, HoldAll, BlocksFit, Fits, HeldEvent, NewPayments;
    HoldAllFacts(run, st, m, bound, ps);
  }

  lemma OnlyHeldFromNew(run: Run, st: State, s: State, m: Mail, bound: seq<Bound>, ps: seq<PaymentText>)
    requires BoundInRange(st, bound) && forall e :: e in st.ledger.events ==> e.evidence != MailKey(m.key)
    requires forall e :: e in s.ledger.events && e !in st.ledger.events ==>
               s.ledger.events[e].Key() == e
               && exists b :: b in bound && OfTicket(run, m, st.tickets[b.ticket],
                    HeldEvent(m, st.tickets[b.ticket], PaymentFor(ps, b.reference)), s.ledger.events[e])
    ensures OnlyHeld(run, st, s, m, bound, ps)
  {
    hide PaymentFor, OfTicket, HeldEvent;
    forall e | e in s.ledger.events && e.evidence == MailKey(m.key)
      ensures exists b :: b in bound && e.ticket == KeyOf(st, b.ticket)
                          && OfTicket(run, m, st.tickets[b.ticket],
                                      HeldEvent(m, st.tickets[b.ticket], PaymentFor(ps, b.reference)), s.ledger.events[e])
    {
      assert e !in st.ledger.events;
      var b :| b in bound && OfTicket(run, m, st.tickets[b.ticket],
                 HeldEvent(m, st.tickets[b.ticket], PaymentFor(ps, b.reference)), s.ledger.events[e]);
      OfTicketNames(run, m, st.tickets[b.ticket], PaymentFor(ps, b.reference), s.ledger.events[e]);
    }
  }

  lemma HoldsOnly(run: Run, st: State, m: Mail, bound: seq<Bound>, ps: seq<PaymentText>)
    requires BoundInRange(st, bound) && m.on.Some? && BlocksFit(ps, bound) && Fresh(st.ledger, MailKey(m.key))
    ensures OnlyHeld(run, st, HoldAll(run, Account(st, m), m, bound, ps), m, bound, ps)
  {
    hide PaymentFor, HoldAll, BlocksFit, OfTicket, HeldEvent, OnlyHeld;
    var s0 := Account(st, m);
    HoldAllAdds(run, s0, m, bound, ps);
    HoldAllKeys(run, s0, m, bound, ps);
    OnlyHeldFromNew(run, s0, HoldAll(run, s0, m, bound, ps), m, bound, ps);
    assert OnlyHeld(run, st, HoldAll(run, s0, m, bound, ps), m, bound, ps) by {
      OnlyHeldLocal(run, s0, st, HoldAll(run, s0, m, bound, ps), m, bound, ps);
    }
  }

  lemma OnlyHeldLocal(run: Run, st: State, mid: State, s: State, m: Mail, bound: seq<Bound>, ps: seq<PaymentText>)
    requires BoundInRange(st, bound) && BoundInRange(mid, bound)
    requires forall b :: b in bound ==> st.tickets[b.ticket] == mid.tickets[b.ticket]
    requires OnlyHeld(run, st, s, m, bound, ps)
    ensures OnlyHeld(run, mid, s, m, bound, ps)
  {
    hide PaymentFor, OfTicket, HeldEvent;
  }

  lemma HeldKey(m: Mail, t: TicketState, p: PaymentText)
    ensures HeldEvent(m, t, p).Key().evidence == MailKey(m.key)
  {
  }

  /** One payment link: all paid, or none; and nothing outside the bound tickets moves. */
  lemma LinkFiles(run: Run, st: State, id: MessageId)
    requires id in run.links.payments && id in run.links.mails && TextsOk(run)
    requires var bound := run.links.payments[id]; BoundInRange(st, bound) && DistinctTickets(bound) && bound != []
    requires Fresh(st.ledger, MailKey(run.links.mails[id].key))
    ensures var s, m, bound := LinkStep(run, st, id), run.links.mails[id], run.links.payments[id];
            && Files(st.ledger, s.ledger, MailKey(m.key), MailRecord(m))
            && NewPayments(st.ledger, s.ledger, st, MailKey(m.key), bound)
            && (s.ok ==> Outcome(run, st, s, m, bound))
            && (forall i :: 0 <= i < |st.tickets| && (forall b :: b in bound ==> b.ticket != i) ==> s.tickets[i] == st.tickets[i])
  {
    hide Judge, PayAll, HoldAll, ParsedBlocks, GroupReadable, BlocksFit, Fits, Eligible;
    var m, bound := run.links.mails[id], run.links.payments[id];
    match Judge(run, st, m, bound)
    case Rejected =>
    case Held =>
      JudgedReadable(run, st, m, bound);
      ReadableBlocksFit(run, m, ContextOf(st, bound), bound);
      ReadableParsed(run, m, bound, Blocks(run, st, m, bound));
      HoldStep(run, st, m, bound, Blocks(run, st, m, bound).value);
    case Payable =>
      JudgedReadable(run, st, m, bound);
      ReadableBlocksFit(run, m, ContextOf(st, bound), bound);
      ReadableParsed(run, m, bound, Blocks(run, st, m, bound));
      PayStep(run, st, m, bound, Blocks(run, st, m, bound).value);
  }

  lemma ReadableParsed(run: Run, m: Mail, bound: seq<Bound>, parsed: Option<seq<PaymentText>>)
    requires GroupReadable(run, m, bound, parsed)
    ensures parsed.Some?
  {
  }
}
