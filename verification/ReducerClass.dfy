/** The reducer as it runs: ticket objects mutated in place beside three growing dictionaries.
    Each method meets the value-level step of the same name. */
module Reducers {
  import opened Common
  import opened Tickets
  import opened TicketObjects
  import opened Ledgers
  import opened Ancestry
  import opened ReducerSpec
  import Runs

  class Reducer {
    const tickets: seq<Ticket>
    var evidence: map<EvidenceKey, Record>
    var events: map<EventKey, Event>
    var unmatched: map<EvidenceKey, Reason>

    constructor (tickets: seq<Ticket>)
      ensures this.tickets == tickets
      ensures evidence == map[] && events == map[] && unmatched == map[]
    {
      this.tickets := tickets;
      evidence, events, unmatched := map[], map[], map[];
    }

    /** No two positions hold the same ticket object. */
    ghost predicate Unaliased() {
      forall i, j :: 0 <= i < j < |tickets| ==> tickets[i] != tickets[j]
    }

    ghost function Views(): (v: seq<TicketState>)
      reads tickets
      ensures |v| == |tickets|
    {
      seq(|tickets|, i requires 0 <= i < |tickets| reads tickets => tickets[i].View())
    }

    ghost function View(): State
      reads this, tickets
    {
      State(true, Views(), Ledger(evidence, events, unmatched))
    }

    /** Changing one object changes one position. */
    twostate lemma OneMoved(i: nat)
      requires Unaliased() && i < |tickets|
      requires forall j :: 0 <= j < |tickets| && j != i ==> unchanged(tickets[j])
      ensures Views() == old(Views())[i := tickets[i].View()]
    {
    }

    method Add(e: Event) returns (ok: bool)
      modifies this`events
      ensures ok == AddEvent(old(View()), e).ok
      ensures ok ==> View() == AddEvent(old(View()), e)
    {
      if e.Key() in events && events[e.Key()] != e {
        return false;
      }
      events := events[e.Key() := e];
      ok := true;
    }

    method AccountMail(m: Mail)
      modifies this`evidence
      ensures View() == Account(old(View()), m)
    {
      evidence := evidence[MailKey(m.key) := MailRecord(m)];
    }

    // ---------- Mail lane ----------

    /** Whether every selected ticket's section expands, and to what. */
    method ReadSections(run: Run, m: Mail, at: seq<nat>, recs: Option<seq<Recommendation>>)
      returns (fits: bool, granted: map<string, Grant>)
      requires InRange(View(), at)
      ensures fits == ProposalFits(run, m, View(), at, recs)
      ensures fits ==> forall k :: 0 <= k < |at| ==>
                tickets[at[k]].head.selector.ref in granted
                && Grants(run, m, View(), at, recs)[k] == Some(granted[tickets[at[k]].head.selector.ref])
    {
      hide SectionGrant, ProposalFits, Collected, Grants, Refs;
      granted := map[];
      ghost var refs, grants := Refs(View(), at), Grants(run, m, View(), at, recs);
      GrantsMean(run, m, View(), at, recs);
      FitsMeans(run, m, View(), at, recs);
      if recs.None? {
        return false, granted;
      }
      var k := 0;
      CollectedNone(refs, grants);
      while k < |at|
        invariant 0 <= k <= |at|
        invariant Collected(refs, grants, granted, k)
      {
        var t := tickets[at[k]];
        assert View().tickets[at[k]] == t.View();
        assert refs[k] == t.head.selector.ref;
        var grant := SectionGrant(run, m, t.View(), recs.value);
        if grant.None? {
          assert grants[k] in grants;
          return false, granted;
        }
        CollectedStep(refs, grants, granted, k);
        granted := granted[t.head.selector.ref := grant.value];
        k := k + 1;
      }
      CollectedAll(refs, grants, granted);
      fits := |granted| == |at|;
    }

    static lemma GrantsMean(run: Run, m: Mail, st: State, at: seq<nat>, recs: Option<seq<Recommendation>>)
      requires InRange(st, at)
      ensures |Refs(st, at)| == |at| && forall k :: 0 <= k < |at| ==>
                Refs(st, at)[k] == st.tickets[at[k]].head.selector.ref
                && Grants(run, m, st, at, recs)[k] == if recs.Some? then SectionGrant(run, m, st.tickets[at[k]], recs.value) else None
    {
      hide SectionGrant;
    }

    static lemma FitsMeans(run: Run, m: Mail, st: State, at: seq<nat>, recs: Option<seq<Recommendation>>)
      requires InRange(st, at)
      ensures ProposalFits(run, m, st, at, recs) <==>
              recs.Some? && (forall g :: g in Grants(run, m, st, at, recs) ==> g.Some?) && Distinct(Refs(st, at))
    {
      hide SectionGrant;
      var grants := Grants(run, m, st, at, recs);
      if recs.Some? {
        assert forall k :: 0 <= k < |at| ==> grants[k] == SectionGrant(run, m, st.tickets[at[k]], recs.value);
      }
    }

    /** After k tickets the dictionary holds their grants; it is full exactly when no ref repeats. */
    static ghost predicate Collected(refs: seq<string>, grants: seq<Option<Grant>>, granted: map<string, Grant>, k: nat)
      requires k <= |refs| == |grants|
    {
      && granted.Keys == (set x | 0 <= x < k :: refs[x])
      && |granted| <= k && (|granted| == k <==> Distinct(refs[..k]))
      && (forall x :: 0 <= x < k ==> grants[x].Some?)
      && (Distinct(refs[..k]) ==> forall x :: 0 <= x < k ==> Some(granted[refs[x]]) == grants[x])
    }

    static lemma CollectedNone(refs: seq<string>, grants: seq<Option<Grant>>)
      requires |refs| == |grants|
      ensures Collected(refs, grants, map[], 0)
    {
    }

    static lemma CollectedAll(refs: seq<string>, grants: seq<Option<Grant>>, granted: map<string, Grant>)
      requires |refs| == |grants| && Collected(refs, grants, granted, |refs|)
      ensures |granted| == |refs| <==> Distinct(refs)
      ensures forall g :: g in grants ==> g.Some?
      ensures Distinct(refs) ==> forall x :: 0 <= x < |refs| ==> refs[x] in granted && Some(granted[refs[x]]) == grants[x]
    {
      assert refs[..|refs|] == refs;
      assert forall x :: 0 <= x < |refs| ==> refs[x] in granted.Keys;
    }

    static lemma CollectedStep(refs: seq<string>, grants: seq<Option<Grant>>, granted: map<string, Grant>, k: nat)
      requires k < |refs| == |grants| && Collected(refs, grants, granted, k) && grants[k].Some?
      ensures Collected(refs, grants, granted[refs[k] := grants[k].value], k + 1)
    {
      CountStep(refs, k, granted.Keys);
      var after := granted[refs[k] := grants[k].value];
      assert after.Keys == granted.Keys + {refs[k]};
      assert |after| == |after.Keys| && |granted| == |granted.Keys|;
    }

    static lemma CountStep(refs: seq<string>, k: nat, keys: set<string>)
      requires k < |refs| && keys == set x | 0 <= x < k :: refs[x]
      ensures Distinct(refs[..k + 1]) <==> Distinct(refs[..k]) && refs[k] !in keys
      ensures |keys + {refs[k]}| == |keys| + if refs[k] in keys then 0 else 1
      ensures keys + {refs[k]} == set x | 0 <= x < k + 1 :: refs[x]
    {
      if refs[k] in keys {
        assert keys + {refs[k]} == keys;
        var x :| 0 <= x < k && refs[x] == refs[k];
        assert refs[..k + 1][x] == refs[..k + 1][k];
      }
      if Distinct(refs[..k + 1]) {
        assert forall i :: 0 <= i < k ==> refs[..k + 1][i] == refs[..k][i];
      }
    }

    /** The proposal message itself, when exactly one anchor names it. */
    static method FindProposal(run: Run, res: set<Resolution>) returns (proposal: Option<Mail>)
      ensures proposal == ProposalMail(run, res)
    {
      var ids := set x | x in res && x.purpose == ApprovalProposal :: x.anchor;
      proposal := None;
      if |ids| == 1 {
        var id :| id in ids;
        OnlyOne(ids, id);
        if id in run.links.mails {
          proposal := Some(run.links.mails[id]);
        }
      }
    }

    method ProcessProposal(run: Run, m: Mail, res: set<Resolution>, at: seq<nat>) returns (ok: bool)
      requires Unaliased() && InRange(View(), at)
      modifies this`events, tickets
      ensures ok == ProposalStep(run, old(View()), m, res, at).ok
      ensures ok ==> View() == ProposalStep(run, old(View()), m, res, at)
    {
      hide SectionGrant, ProposalFits, ProposalMail, ProposalAll;
      var proposal := FindProposal(run, res);
      var refs := seq(|at|, k requires 0 <= k < |at| && at[k] < |tickets| => tickets[at[k]].head.selector.ref);
      assert refs == Refs(View(), at);
      var recs := ProposalRecs(run, proposal, refs);
      var fits, granted := ReadSections(run, m, at, recs);
      var kind := ProposalKind(run, m, fits);
      ghost var grants := Grants(run, m, View(), at, recs);
      ok := ApplyGrants(m, kind, at, granted, grants);
    }

    method ApplyGrants(m: Mail, kind: Kind, at: seq<nat>, granted: map<string, Grant>, ghost grants: seq<Option<Grant>>)
      returns (ok: bool)
      requires Unaliased() && InRange(View(), at) && |grants| == |at|
      requires kind == ApprovalGranted ==> forall k :: 0 <= k < |at| ==>
                 tickets[at[k]].head.selector.ref in granted
                 && grants[k] == Some(granted[tickets[at[k]].head.selector.ref])
      modifies this`events, tickets
      ensures ok == ProposalAll(old(View()), m, kind, at, grants).ok
      ensures ok ==> View() == ProposalAll(old(View()), m, kind, at, grants)
    {
      hide ProposalAll, ProposalOne, Unaliased;
      ghost var st := View();
      ProposalNone(st, m, kind);
      for k := 0 to |at|
        invariant Reached(st, m, kind, at, grants, k).ok
        invariant View() == Reached(st, m, kind, at, grants, k)
      {
        ProposalPrefix(st, m, kind, at, grants, k);
        ok := GrantOne(m, kind, at[k], granted, grants[k]);
        if !ok {
          ProposalFailed(st, m, kind, at, grants, k);
          return false;
        }
      }
      assert at[..|at|] == at && grants[..|at|] == grants;
      ok := true;
    }

    static function Reached(st: State, m: Mail, kind: Kind, at: seq<nat>, grants: seq<Option<Grant>>, k: nat): State
      requires InRange(st, at) && |grants| == |at| && k <= |at|
    {
      ProposalAll(st, m, kind, at[..k], grants[..k])
    }

    static lemma ProposalNone(st: State, m: Mail, kind: Kind)
      ensures ProposalAll(st, m, kind, [], []) == st
    {
    }

    method GrantOne(m: Mail, kind: Kind, i: nat, granted: map<string, Grant>, ghost grant: Option<Grant>) returns (ok: bool)
      requires Unaliased() && i < |tickets|
      requires kind == ApprovalGranted ==>
                 tickets[i].head.selector.ref in granted && grant == Some(granted[tickets[i].head.selector.ref])
      modifies this`events, tickets
      ensures ok == ProposalOne(old(View()), m, kind, i, grant).ok
      ensures ok ==> View() == ProposalOne(old(View()), m, kind, i, grant)
    {
      hide ProposalApproved;
      var t := tickets[i];
      assert View().tickets[i] == t.View();
      ok := Add(MailEvent(m, t.head.selector.key, kind, Stock));
      if !ok {
        return;
      }
      if kind == ApprovalGranted && granted[t.head.selector.ref].Apply? {
        var statuses := granted[t.head.selector.ref].statuses;
        if |statuses| != |t.items| {
          return false;
        }
        label Before:
        t.ApplyProposalApproval(statuses);
        OneMoved@Before(i);
      }
    }

    static lemma OnlyOne<T>(s: set<T>, x: T)
      requires |s| == 1 && x in s
      ensures s == {x}
    {
      assert |s - {x}| == 0;
    }

    static lemma ProposalPrefix(st: State, m: Mail, kind: Kind, at: seq<nat>, grants: seq<Option<Grant>>, k: nat)
      requires InRange(st, at) && |grants| == |at| && k < |at|
      ensures Reached(st, m, kind, at, grants, k + 1) ==
              ProposalOne(Reached(st, m, kind, at, grants, k), m, kind, at[k], grants[k])
    {
      assert at[..k + 1][..k] == at[..k] && grants[..k + 1][..k] == grants[..k];
    }

    static lemma {:induction false} ProposalFailed(st: State, m: Mail, kind: Kind, at: seq<nat>, grants: seq<Option<Grant>>, k: nat)
      requires InRange(st, at) && |grants| == |at| && k < |at|
      requires !Reached(st, m, kind, at, grants, k + 1).ok
      ensures !ProposalAll(st, m, kind, at, grants).ok
      decreases |at|
    {
      hide ProposalOne;
      if k + 1 == |at| {
        assert at[..k + 1] == at && grants[..k + 1] == grants;
      } else {
        var n := |at| - 1;
        assert at[..n][..k + 1] == at[..k + 1] && grants[..n][..k + 1] == grants[..k + 1];
        ProposalFailed(st, m, kind, at[..n], grants[..n], k);
        ProposalOneFails(ProposalAll(st, m, kind, at[..n], grants[..n]), m, kind, at[n], grants[n]);
      }
    }

    static lemma ProposalOneFails(st: State, m: Mail, kind: Kind, i: nat, grant: Option<Grant>)
      requires i < |st.tickets| && !st.ok
      ensures !ProposalOne(st, m, kind, i, grant).ok
    {
      hide ProposalApproved;
    }

    method Respond(i: nat, receipts: bool)
      requires Unaliased() && i < |tickets|
      modifies tickets
      ensures View() == Put(old(View()), i, ResponseReceived(old(View()).tickets[i], receipts))
    {
      hide ResponseReceived;
      assert View().tickets[i] == tickets[i].View();
      label Before:
      tickets[i].ApplyResponseReceived(receipts);
      OneMoved@Before(i);
    }

    method Pay(i: nat, on: Option<Day>, cents: nat, reference: string)
      requires Unaliased() && i < |tickets|
      modifies tickets
      ensures View() == Put(old(View()), i, PaymentApplied(old(View()).tickets[i], on, cents, reference))
    {
      hide PaymentApplied;
      assert View().tickets[i] == tickets[i].View();
      label Before:
      tickets[i].ApplyPayment(on, cents, reference);
      OneMoved@Before(i);
    }

    method Hold(i: nat)
      requires Unaliased() && i < |tickets|
      modifies tickets
      ensures View() == Put(old(View()), i, PaymentHeld(old(View()).tickets[i]))
    {
      hide PaymentHeld;
      assert View().tickets[i] == tickets[i].View();
      label Before:
      tickets[i].ApplyPaymentDiscrepancy();
      OneMoved@Before(i);
    }

    method SetAside(m: Mail, reason: Reason)
      modifies this`unmatched
      ensures View() == Unmatch(old(View()), m, reason)
    {
      unmatched := unmatched[MailKey(m.key) := reason];
    }

    method ProcessResponse(run: Run, m: Mail, i: nat) returns (ok: bool)
      requires Unaliased() && i < |tickets|
      modifies this`events, this`unmatched, tickets
      ensures ok == ResponseStep(run, old(View()), m, i).ok
      ensures ok ==> View() == ResponseStep(run, old(View()), m, i)
    {
      hide ResponseReceived, Schema1Pay, Unaliased;
      var key := tickets[i].head.selector.key;
      assert View().tickets[i].head.selector.key == key;
      var paid := Schema1Payment(run, m);
      if m.receipts > 0 {
        ok := Add(MailEvent(m, key, ReceiptReceived, ReceiptCount(m.receipts)));
        if !ok {
          return;
        }
        if !paid {
          Respond(i, true);
        }
      }
      if Nonblank(m.text) {
        ok := Add(MailEvent(m, key, ClarificationReceived, Stock));
        if !ok {
          return;
        }
        if m.receipts == 0 && !paid {
          Respond(i, false);
        }
      }
      if m.receipts == 0 && !Nonblank(m.text) {
        SetAside(m, NoActionableContent);
      }
      if paid {
        ok := PaySchema1(m, i, run.reader.legacy(m.text).value);
      } else {
        ok := true;
      }
    }

    method PaySchema1(m: Mail, i: nat, p: PaymentText) returns (ok: bool)
      requires Unaliased() && i < |tickets|
      modifies this`events, tickets
      ensures ok == Schema1Pay(old(View()), m, i, p).ok
      ensures ok ==> View() == Schema1Pay(old(View()), m, i, p)
    {
      hide PaymentApplied, PaymentHeld, Unaliased;
      var t := tickets[i];
      assert View().tickets[i] == t.View();
      var total := t.SumAmounts(false);
      if p.cents != total {
        ok := Add(MailPayment(m, t.head.selector.key, PaymentDiscrepancy, p, DiffersFrom(total)));
        if ok {
          Hold(i);
        }
      } else {
        ok := Add(MailPayment(m, t.head.selector.key, PaymentRecorded, p, NoDiscrepancy));
        if ok {
          Pay(i, m.on, p.cents, p.reference);
        }
      }
    }

    /** One message: skipped, set aside, or linked to a proposal or a case. */
    method ProcessMail(run: Run, m: Mail) returns (ok: bool)
      requires Unaliased()
      modifies this, tickets
      ensures ok == MailStep(run, old(View()), m).ok
      ensures ok ==> View() == MailStep(run, old(View()), m)
    {
      hide Resolutions, ResponseStep, ProposalStep, Unaliased;
      if IsAnchor(run, m) {
        return true;
      }
      var found := Resolve(run.links, Parents(m));
      var r := WithDirect(run, m, found);
      if Ambiguous(r) {
        AccountMail(m);
        SetAside(m, AmbiguousLink);
        return true;
      }
      if r == {} {
        if Candidate(run, m) {
          AccountMail(m);
          SetAside(m, if m.id == "" then MissingMessageId else NoExactLink);
        }
        return true;
      }
      var x :| x in r;
      OneTarget(r, x);
      var at := x.tickets;
      if at == [] || exists k :: 0 <= k < |at| && at[k] >= |tickets| {
        return false;
      }
      AccountMail(m);
      if exists y :: y in r && y.purpose == ApprovalProposal {
        ok := ProcessProposal(run, m, r, at);
      } else {
        ok := ProcessResponse(run, m, at[0]);
      }
    }

    static lemma OneTarget(r: set<Resolution>, x: Resolution)
      requires x in r && !Ambiguous(r)
      ensures Target(r) == x.tickets
    {
      var y :| y in r && Target(r) == y.tickets;
      assert x.tickets in TicketLists(r) && y.tickets in TicketLists(r);
      if x.tickets != y.tickets {
        assert |TicketLists(r) - {x.tickets}| >= 1 by { assert y.tickets in TicketLists(r) - {x.tickets}; }
      }
    }

    // ---------- Operator reviews ----------

    method ProcessReview(o: OperatorReview, i: nat) returns (ok: bool)
      requires Unaliased() && i < |tickets|
      modifies this, tickets
      ensures ok == ReviewStep(old(View()), o, i).ok
      ensures ok ==> View() == ReviewStep(old(View()), o, i)
    {
      hide Reviewed;
      var key := ReviewKey(Sha(o));
      var t := tickets[i];
      assert View().tickets[i] == t.View();
      evidence := evidence[key := Record(None, None, ReviewDigest(Sha(o)))];
      ok := Add(Event(key, t.head.selector.key, OperatorReviewed, None, None, ReviewDigest(Sha(o)),
                      Stock, None, "", NoDiscrepancy));
      if ok {
        label Before:
        ok := t.ApplyOperatorReview(o);
        OneMoved@Before(i);
      }
    }

    // ---------- Payment links ----------

    /** The text blocks of a linked mail, read against its one ticket's generated-email context. */
    method ReadBlocks(run: Run, m: Mail, bound: seq<Bound>) returns (parsed: Option<seq<PaymentText>>, legacy: bool)
      requires BoundInRange(View(), bound)
      ensures parsed == ParsedBlocks(run, m, ContextOf(View(), bound), bound)
      ensures legacy == UsesLegacy(run, m, ContextOf(View(), bound), bound)
    {
      var context := "";
      if |bound| == 1 {
        assert View().tickets[bound[0].ticket] == tickets[bound[0].ticket].View();
        context := tickets[bound[0].ticket].review.context;
      }
      legacy := false;
      parsed := run.reader.blocks(m.text, context);
      if parsed.None? && |bound| == 1 {
        var old_ := run.reader.legacy(m.text);
        if old_.Some? {
          parsed := Some([old_.value]);
          legacy := true;
        }
      }
      if parsed.Some? {
        var blocks := parsed.value;
        var seen: set<string> := {};
        for i := 0 to |blocks|
          invariant seen == set j | 0 <= j < i :: blocks[j].reference
          invariant !RepeatsReference(blocks[..i])
        {
          if blocks[i].reference in seen {
            var j :| 0 <= j < i && blocks[j].reference == blocks[i].reference;
            return None, legacy;
          }
          seen := seen + {blocks[i].reference};
        }
        assert blocks[..|blocks|] == blocks;
      }
    }

    method IsReadable(run: Run, m: Mail, bound: seq<Bound>, parsed: Option<seq<PaymentText>>) returns (readable: bool)
      ensures readable == GroupReadable(run, m, bound, parsed)
    {
      hide Conflicts;
      var ancestry := Resolve(run.links, Parents(m));
      readable := m.sender in run.anchors.paymentOperators && InTime(run, m) && !Conflicts(ancestry, bound)
                  && parsed.Some? && |parsed.value| == |bound|
                  && TextReferences(parsed.value) == BoundReferences(bound);
    }

    /** The all-or-nothing verdict: one ineligible binding rejects the group, one wrong amount holds it. */
    method JudgeGroup(run: Run, m: Mail, bound: seq<Bound>, parsed: Option<seq<PaymentText>>, legacy: bool)
      returns (v: Verdict)
      requires BoundInRange(View(), bound)
      requires parsed == ParsedBlocks(run, m, ContextOf(View(), bound), bound)
      requires legacy == UsesLegacy(run, m, ContextOf(View(), bound), bound)
      ensures v == Judge(run, View(), m, bound)
      ensures v != Rejected ==> parsed.Some?
    {
      hide GroupReadable, Eligible, ParsedBlocks, UsesLegacy, PaymentFor, Tickets.Payable;
      var readable := IsReadable(run, m, bound, parsed);
      if !readable {
        return Rejected;
      }
      ReadableHasBlocks(run, m, bound, parsed);
      var discrepant := false;
      for i := 0 to |bound|
        invariant forall k :: 0 <= k < i ==>
          Eligible(run, m, View().tickets[bound[k].ticket], PaymentFor(parsed.value, bound[k].reference), legacy)
        invariant discrepant <==> exists k :: 0 <= k < i && Differs(View(), bound, parsed.value, k)
      {
        var b := bound[i];
        var t := tickets[b.ticket];
        assert View().tickets[b.ticket] == t.View();
        var p := PaymentFor(parsed.value, b.reference);
        if !Eligible(run, m, t.View(), p, legacy) {
          assert b in bound;
          return Rejected;
        }
        var total := t.SumAmounts(true);
        assert Differs(View(), bound, parsed.value, i) <==> p.cents != total;
        if p.cents != total {
          discrepant := true;
        }
      }
      JudgeByIndex(run, View(), m, bound, parsed, legacy);
      v := if discrepant then Held else Verdict.Payable;
    }

    /** Binding `k` is paid another amount than its ticket's payable total. */
    static predicate Differs(st: State, bound: seq<Bound>, ps: seq<PaymentText>, k: nat)
      requires BoundInRange(st, bound) && k < |bound|
    {
      PaymentFor(ps, bound[k].reference).cents != Tickets.Payable(st.tickets[bound[k].ticket].items)
    }

    static lemma ReadableHasBlocks(run: Run, m: Mail, bound: seq<Bound>, parsed: Option<seq<PaymentText>>)
      requires GroupReadable(run, m, bound, parsed)
      ensures parsed.Some?
    {
    }

    static lemma JudgeByIndex(run: Run, st: State, m: Mail, bound: seq<Bound>, parsed: Option<seq<PaymentText>>, legacy: bool)
      requires BoundInRange(st, bound) && parsed.Some?
      requires parsed == ParsedBlocks(run, m, ContextOf(st, bound), bound)
      requires legacy == UsesLegacy(run, m, ContextOf(st, bound), bound)
      requires GroupReadable(run, m, bound, parsed)
      requires forall k :: 0 <= k < |bound| ==>
                 Eligible(run, m, st.tickets[bound[k].ticket], PaymentFor(parsed.value, bound[k].reference), legacy)
      ensures Judge(run, st, m, bound) ==
              if exists k :: 0 <= k < |bound| && Differs(st, bound, parsed.value, k) then Held else Verdict.Payable
    {
      hide GroupReadable, Eligible, ParsedBlocks, UsesLegacy, PaymentFor, Tickets.Payable;
      forall b | b in bound
        ensures Eligible(run, m, st.tickets[b.ticket], PaymentFor(parsed.value, b.reference), legacy)
      {
        var k :| 0 <= k < |bound| && bound[k] == b;
      }
      if k :| 0 <= k < |bound| && Differs(st, bound, parsed.value, k) {
        assert bound[k] in bound;
      } else {
        forall b | b in bound
          ensures PaymentFor(parsed.value, b.reference).cents == Tickets.Payable(st.tickets[b.ticket].items)
        {
          var k :| 0 <= k < |bound| && bound[k] == b;
          assert !Differs(st, bound, parsed.value, k);
        }
      }
    }

    method AddCompanions(run: Run, m: Mail, ticket: string) returns (ok: bool)
      modifies this`events
      ensures ok == AddEvents(old(View()), Companions(run, m, ticket)).ok
      ensures ok ==> View() == AddEvents(old(View()), Companions(run, m, ticket))
    {
      var es := Companions(run, m, ticket);
      ghost var st := View();
      for i := 0 to |es|
        invariant AddEvents(st, es[..i]).ok && View() == AddEvents(st, es[..i])
      {
        assert es[..i + 1][..i] == es[..i];
        ok := Add(es[i]);
        if !ok {
          CompanionFailed(st, es, i);
          return false;
        }
      }
      assert es[..|es|] == es;
      ok := true;
    }

    static lemma {:induction false} CompanionFailed(st: State, es: seq<Event>, k: nat)
      requires k < |es| && !AddEvents(st, es[..k + 1]).ok
      ensures !AddEvents(st, es).ok
      decreases |es|
    {
      if k + 1 == |es| {
        assert es[..k + 1] == es;
      } else {
        assert es[..|es| - 1][..k + 1] == es[..k + 1];
        CompanionFailed(st, es[..|es| - 1], k);
      }
    }

    method HoldBinding(run: Run, m: Mail, b: Bound, p: PaymentText) returns (ok: bool)
      requires b.ticket < |tickets|
      modifies this`events
      ensures ok == HoldOne(run, old(View()), m, b, p).ok
      ensures ok ==> View() == HoldOne(run, old(View()), m, b, p)
    {
      hide AddEvents, Companions;
      var t := tickets[b.ticket];
      assert View().tickets[b.ticket] == t.View();
      var total := t.SumAmounts(true);
      ok := Add(if p.cents != total then MailPayment(m, t.head.selector.key, PaymentDiscrepancy, p, DiffersFrom(total))
                else MailPayment(m, t.head.selector.key, PaymentQuarantined, p, GroupHeld));
      if ok {
        ok := AddCompanions(run, m, t.head.selector.key);
      }
    }

    method PayBinding(run: Run, m: Mail, b: Bound, p: PaymentText) returns (ok: bool)
      requires Unaliased() && b.ticket < |tickets|
      modifies this`events, tickets
      ensures ok == PayOne(run, old(View()), m, b, p).ok
      ensures ok ==> View() == PayOne(run, old(View()), m, b, p)
    {
      hide AddEvents, Companions, PaymentApplied, Unaliased;
      var t := tickets[b.ticket];
      assert View().tickets[b.ticket] == t.View();
      ok := Add(RecordedEvent(m, t.View(), p));
      if ok {
        ok := AddCompanions(run, m, t.head.selector.key);
        if ok {
          Pay(b.ticket, m.on, p.cents, p.reference);
        }
      }
    }

    method HoldGroup(run: Run, m: Mail, bound: seq<Bound>, ps: seq<PaymentText>) returns (ok: bool)
      requires BoundInRange(View(), bound)
      modifies this`events
      ensures ok == HoldAll(run, old(View()), m, bound, ps).ok
      ensures ok ==> View() == HoldAll(run, old(View()), m, bound, ps)
    {
      hide HoldOne, PaymentFor;
      ghost var st := View();
      for i := 0 to |bound|
        invariant HoldAll(run, st, m, bound[..i], ps).ok && View() == HoldAll(run, st, m, bound[..i], ps)
      {
        assert bound[..i + 1][..i] == bound[..i];
        ok := HoldBinding(run, m, bound[i], PaymentFor(ps, bound[i].reference));
        if !ok {
          HoldFailed(run, st, m, bound, ps, i);
          return false;
        }
      }
      assert bound[..|bound|] == bound;
      ok := true;
    }

    static lemma {:induction false} HoldFailed(run: Run, st: State, m: Mail, bound: seq<Bound>, ps: seq<PaymentText>, k: nat)
      requires BoundInRange(st, bound) && k < |bound| && !HoldAll(run, st, m, bound[..k + 1], ps).ok
      ensures !HoldAll(run, st, m, bound, ps).ok
      decreases |bound|
    {
      hide HoldOne, PaymentFor;
      if k + 1 == |bound| {
        assert bound[..k + 1] == bound;
      } else {
        assert bound[..|bound| - 1][..k + 1] == bound[..k + 1];
        HoldFailed(run, st, m, bound[..|bound| - 1], ps, k);
      }
    }

    method PayGroup(run: Run, m: Mail, bound: seq<Bound>, ps: seq<PaymentText>) returns (ok: bool)
      requires Unaliased() && BoundInRange(View(), bound)
      modifies this`events, tickets
      ensures ok == PayAll(run, old(View()), m, bound, ps).ok
      ensures ok ==> View() == PayAll(run, old(View()), m, bound, ps)
    {
      hide PayOne, PaymentFor, Unaliased;
      ghost var st := View();
      for i := 0 to |bound|
        invariant PayAll(run, st, m, bound[..i], ps).ok && View() == PayAll(run, st, m, bound[..i], ps)
      {
        assert bound[..i + 1][..i] == bound[..i];
        ok := PayBinding(run, m, bound[i], PaymentFor(ps, bound[i].reference));
        if !ok {
          PayFailed(run, st, m, bound, ps, i);
          return false;
        }
      }
      assert bound[..|bound|] == bound;
      ok := true;
    }

    static lemma {:induction false} PayFailed(run: Run, st: State, m: Mail, bound: seq<Bound>, ps: seq<PaymentText>, k: nat)
      requires BoundInRange(st, bound) && k < |bound| && !PayAll(run, st, m, bound[..k + 1], ps).ok
      ensures !PayAll(run, st, m, bound, ps).ok
      decreases |bound|
    {
      hide PayOne, PaymentFor;
      if k + 1 == |bound| {
        assert bound[..k + 1] == bound;
      } else {
        assert bound[..|bound| - 1][..k + 1] == bound[..k + 1];
        PayFailed(run, st, m, bound[..|bound| - 1], ps, k);
      }
    }

    /** One payment link: judge the whole group first, then pay, hold or set aside. */
    method ProcessLink(run: Run, id: MessageId) returns (ok: bool)
      requires Unaliased() && id in run.links.payments && BoundInRange(View(), run.links.payments[id])
      modifies this, tickets
      ensures ok == LinkStep(run, old(View()), id).ok
      ensures ok ==> View() == LinkStep(run, old(View()), id)
    {
      hide Judge, ParsedBlocks, UsesLegacy, HoldAll, PayAll, Unaliased;
      if id !in run.links.mails {
        return true;
      }
      var m, bound := run.links.mails[id], run.links.payments[id];
      var parsed, legacy := ReadBlocks(run, m, bound);
      var verdict := JudgeGroup(run, m, bound, parsed, legacy);
      AccountMail(m);
      match verdict {
        case Rejected =>
          SetAside(m, PaymentLinkRejected);
          ok := true;
        case Held =>
          ok := HoldGroup(run, m, bound, parsed.value);
        case Payable =>
          ok := PayGroup(run, m, bound, parsed.value);
      }
    }

    // ---------- Operator payments ----------

    method ApplyVerdict(p: OperatorPayment, i: nat, kind: Kind)
      requires Unaliased() && i < |tickets|
      modifies tickets
      ensures View() == OperatorApply(old(View()), p, i, kind)
    {
      hide PaymentApplied, PaymentHeld, Unaliased;
      if kind == PaymentRecorded {
        Pay(i, Some(p.date), p.cents, p.reference);
      } else if kind == PaymentDiscrepancy {
        Hold(i);
      }
    }

    method ProcessOperatorPayment(run: Run, p: OperatorPayment, i: nat) returns (ok: bool)
      requires Unaliased() && i < |tickets|
      modifies this, tickets
      ensures ok == OperatorStep(run, old(View()), p, i).ok
      ensures ok ==> View() == OperatorStep(run, old(View()), p, i)
    {
      hide OperatorApply, OperatorVerdict, Unaliased;
      var key, t := PaymentKey(Sha(p)), tickets[i];
      assert View().tickets[i] == t.View();
      ApplyKeepsOk(p, i);
      evidence := evidence[key := Record(Some(p.date), None, PaymentDigest(Sha(p)))];
      var prior := PriorEvents(run, p);
      if prior != {} {
        if |prior| != 1 {
          return false;
        }
        var k :| k in prior;
        OnlyOne(prior, k);
        var e := run.prev.events[k];
        if e.ticket != t.head.selector.key || e.digest != PaymentDigest(Sha(p)) || !IsPayment(e.kind) {
          return false;
        }
        ok := Add(e);
        if ok {
          ApplyVerdict(p, i, e.kind);
        }
        return;
      }
      var v := OperatorVerdict(run, p, t.View());
      ok := Add(OperatorEvent(p, t.head.selector.key, v.0, v.1));
      if ok {
        ApplyVerdict(p, i, v.0);
      }
    }

    static lemma ApplyKeepsOk(p: OperatorPayment, i: nat)
      ensures forall st: State, kind :: i < |st.tickets| ==> OperatorApply(st, p, i, kind).ok == st.ok
    {
      hide PaymentApplied, PaymentHeld;
    }

    // ---------- The run ----------

    /** Mail by mail, review by review, link by link, entry by entry; then the drift check. */
    method Reduce(run: Run) returns (ok: bool)
      requires Unaliased() && RunInRange(run, |tickets|)
      requires evidence == map[] && events == map[] && unmatched == map[]
      modifies this, tickets
      ensures ok == Runs.Succeeds(run, old(Views()))
      ensures ok ==> View() == Runs.AfterAll(run, old(Views()))
    {
      hide MailStep, ReviewStep, LinkStep, OperatorStep, Unaliased;
      ghost var start := View();
      assert start == Runs.Begin(Views());
      ghost var views := Views();
      ok := true;
      for i := 0 to |run.mails|
        invariant MailsUpTo(run, start, i).ok && View() == MailsUpTo(run, start, i)
      {
        ok := ProcessMail(run, run.mails[i]);
        if !ok {
          MailsFailed(run, start, i + 1, |run.mails|);
          return;
        }
      }
      ghost var mailed := View();
      for i := 0 to |run.reviewAt|
        invariant ReviewsUpTo(run, mailed, i).ok && View() == ReviewsUpTo(run, mailed, i)
      {
        ok := ProcessReview(run.anchors.reviews[i], run.reviewAt[i]);
        if !ok {
          ReviewsFailed(run, mailed, i + 1, |run.reviewAt|);
          return;
        }
      }
      ghost var reviewed := View();
      for i := 0 to |run.paymentIds|
        invariant LinksUpTo(run, reviewed, i).ok && View() == LinksUpTo(run, reviewed, i)
      {
        assert run.paymentIds[i] in run.paymentIds;
        ok := ProcessLink(run, run.paymentIds[i]);
        if !ok {
          LinksFailed(run, reviewed, i + 1, |run.paymentIds|);
          return;
        }
      }
      ghost var linked := View();
      for i := 0 to |run.operatorAt|
        invariant OperatorUpTo(run, linked, i).ok && View() == OperatorUpTo(run, linked, i)
      {
        ok := ProcessOperatorPayment(run, run.anchors.operatorPayments[i], run.operatorAt[i]);
        if !ok {
          OperatorsFailed(run, linked, i + 1, |run.operatorAt|);
          return;
        }
      }
      ok := Reproduces(run.prev, Ledger(evidence, events, unmatched));
    }

    static lemma {:induction false} MailsFailed(run: Run, st: State, k: nat, n: nat)
      requires k <= n <= |run.mails| && !MailsUpTo(run, st, k).ok
      ensures !MailsUpTo(run, st, n).ok
      decreases n
    {
      hide MailStep;
      if k < n { MailsFailed(run, st, k, n - 1); }
    }

    static lemma {:induction false} ReviewsFailed(run: Run, st: State, k: nat, n: nat)
      requires RunInRange(run, |st.tickets|) && k <= n <= |run.reviewAt| && !ReviewsUpTo(run, st, k).ok
      ensures !ReviewsUpTo(run, st, n).ok
      decreases n
    {
      hide ReviewStep;
      if k < n { ReviewsFailed(run, st, k, n - 1); }
    }

    static lemma {:induction false} LinksFailed(run: Run, st: State, k: nat, n: nat)
      requires RunInRange(run, |st.tickets|) && k <= n <= |run.paymentIds| && !LinksUpTo(run, st, k).ok
      ensures !LinksUpTo(run, st, n).ok
      decreases n
    {
      hide LinkStep;
      if k < n { LinksFailed(run, st, k, n - 1); }
    }

    static lemma {:induction false} OperatorsFailed(run: Run, st: State, k: nat, n: nat)
      requires RunInRange(run, |st.tickets|) && k <= n <= |run.operatorAt| && !OperatorUpTo(run, st, k).ok
      ensures !OperatorUpTo(run, st, n).ok
      decreases n
    {
      hide OperatorStep;
      if k < n { OperatorsFailed(run, st, k, n - 1); }
    }
  }
}
