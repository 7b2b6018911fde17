/** The uniqueness rules of the private anchor file, and resolving its selectors to tickets. */
module AnchorRules {
  import opened Common
  import opened Tickets
  import opened TicketObjects
  import opened Ledgers
  import opened Ancestry
  import opened ReducerSpec
  import opened Runs

  function AllBindings(links: seq<PaymentLink>): seq<PaymentBinding> {
    if links == [] then [] else AllBindings(links[..|links| - 1]) + links[|links| - 1].bindings
  }

  function BindingTickets(bs: seq<PaymentBinding>): seq<Selector> {
    seq(|bs|, i requires 0 <= i < |bs| => bs[i].ticket)
  }

  function BindingReferences(bs: seq<PaymentBinding>): seq<Sha<string>> {
    seq(|bs|, i requires 0 <= i < |bs| => bs[i].reference)
  }

  function PaymentTickets(ps: seq<OperatorPayment>): seq<Selector> {
    seq(|ps|, i requires 0 <= i < |ps| => ps[i].ticket)
  }

  function PaymentReferences(ps: seq<OperatorPayment>): seq<string> {
    seq(|ps|, i requires 0 <= i < |ps| => ps[i].reference)
  }

  function ReviewTickets(rs: seq<OperatorReview>): seq<Selector> {
    seq(|rs|, i requires 0 <= i < |rs| => rs[i].ticket)
  }

  function LinkIds(links: seq<PaymentLink>): seq<MessageId> {
    seq(|links|, i requires 0 <= i < |links| => links[i].id)
  }

  /** The cross-lane rules `load_anchor_config` enforces on payments and reviews. */
  ghost predicate LanesUnique(a: Anchors) {
    && Distinct(LinkIds(a.payments))
    && (forall i :: 0 <= i < |a.payments| ==> a.payments[i].bindings != [])
    && Distinct(ReviewTickets(a.reviews))
    && Distinct(BindingTickets(AllBindings(a.payments)))
    && Distinct(BindingReferences(AllBindings(a.payments)))
    && Distinct(PaymentTickets(a.operatorPayments))
    && Distinct(PaymentReferences(a.operatorPayments))
    && (forall b, p :: b in AllBindings(a.payments) && p in a.operatorPayments ==>
          b.ticket != p.ticket && b.reference != Sha(p.reference))
    && (forall p :: p in a.operatorPayments ==> p.reference != "")
  }

  /** `len(values) != len(set(values))`. */
  lemma {:induction false} SetCountsDistinct<T>(s: seq<T>)
    ensures |set x | x in s| <= |s|
    ensures |set x | x in s| == |s| <==> Distinct(s)
  {
    if s != [] {
      var front, last := s[..|s| - 1], s[|s| - 1];
      SetCountsDistinct(front);
      var before := set x | x in front;
      assert (set x | x in s) == before + {last};
      if last in before {
        assert before + {last} == before;
        var i :| 0 <= i < |front| && front[i] == last;
        assert s[i] == s[|s| - 1];
      }
    }
  }

  method NoRepeats<T(==)>(s: seq<T>) returns (ok: bool)
    ensures ok == Distinct(s)
  {
    SetCountsDistinct(s);
    ok := |set x | x in s| == |s|;
  }

  method CheckLanes(a: Anchors) returns (ok: bool)
    ensures ok == LanesUnique(a)
  {
    ok := NoRepeats(LinkIds(a.payments));
    if !ok || exists i :: 0 <= i < |a.payments| && a.payments[i].bindings == [] {
      return false;
    }
    ok := NoRepeats(ReviewTickets(a.reviews));
    if !ok {
      return;
    }
    var bindings: seq<PaymentBinding> := [];
    for i := 0 to |a.payments|
      invariant bindings == AllBindings(a.payments[..i])
    {
      assert a.payments[..i + 1][..i] == a.payments[..i];
      bindings := bindings + a.payments[i].bindings;
    }
    assert a.payments[..|a.payments|] == a.payments;
    ok := NoRepeats(BindingTickets(bindings));
    if !ok {
      return;
    }
    ok := NoRepeats(BindingReferences(bindings));
    if !ok {
      return;
    }
    ok := NoRepeats(PaymentTickets(a.operatorPayments));
    if !ok {
      return;
    }
    ok := NoRepeats(PaymentReferences(a.operatorPayments));
    if !ok || exists p :: p in a.operatorPayments && p.reference == "" {
      return false;
    }
    ok := forall b, p :: b in bindings && p in a.operatorPayments ==>
            b.ticket != p.ticket && b.reference != Sha(p.reference);
  }

  // ---------- Selectors ----------

  /** `i` is the one position whose ticket has this selector. */
  predicate Selects(tickets: seq<TicketState>, s: Selector, i: nat) {
    && i < |tickets| && tickets[i].head.selector == s
    && forall j :: 0 <= j < |tickets| && tickets[j].head.selector == s ==> j == i
  }

  /** Resolving fails unless exactly one ticket matches. */
  method ResolveSelector(tickets: seq<Ticket>, s: Selector) returns (r: Option<nat>)
    ensures r.Some? ==> r.value < |tickets| && tickets[r.value].head.selector == s
                        && forall j :: 0 <= j < |tickets| && tickets[j].head.selector == s ==> j == r.value
    ensures r.None? ==> !exists i :: 0 <= i < |tickets| && tickets[i].head.selector == s
                                     && forall j :: 0 <= j < |tickets| && tickets[j].head.selector == s ==> j == i
  {
    var matches: seq<nat> := [];
    for i := 0 to |tickets|
      invariant forall k :: 0 <= k < |matches| ==> matches[k] < i && tickets[matches[k]].head.selector == s
      invariant forall k, l :: 0 <= k < l < |matches| ==> matches[k] < matches[l]
      invariant forall j :: 0 <= j < i && tickets[j].head.selector == s ==> j in matches
    {
      if tickets[i].head.selector == s {
        matches := matches + [i];
      }
    }
    if |matches| != 1 {
      forall i | 0 <= i < |tickets| && tickets[i].head.selector == s
        ensures exists j :: 0 <= j < |tickets| && tickets[j].head.selector == s && j != i
      {
        assert i in matches && |matches| >= 2;
        assert matches[0] < matches[1];
        assert tickets[matches[0]].head.selector == s && tickets[matches[1]].head.selector == s;
      }
      return None;
    }
    r := Some(matches[0]);
  }

  /** The positions a run uses are the ones its anchors' selectors resolve to. */
  ghost predicate Resolved(run: Run, tickets: seq<TicketState>) {
    var a := run.anchors;
    && run.paymentIds == LinkIds(a.payments)
    && (forall id :: id in run.links.payments <==> id in run.paymentIds)
    && (forall i :: 0 <= i < |a.payments| ==>
          a.payments[i].id in run.links.payments && BindingsResolved(tickets, a.payments[i].bindings, run.links.payments[a.payments[i].id]))
    && |run.reviewAt| == |a.reviews| && (forall i :: 0 <= i < |a.reviews| ==> Selects(tickets, a.reviews[i].ticket, run.reviewAt[i]))
    && |run.operatorAt| == |a.operatorPayments|
    && (forall i :: 0 <= i < |a.operatorPayments| ==> Selects(tickets, a.operatorPayments[i].ticket, run.operatorAt[i]))
  }

  ghost predicate BindingsResolved(tickets: seq<TicketState>, bindings: seq<PaymentBinding>, bound: seq<Bound>) {
    && |bound| == |bindings|
    && forall k :: 0 <= k < |bound| ==>
         Selects(tickets, bindings[k].ticket, bound[k].ticket) && bound[k].reference == bindings[k].reference
  }

  lemma {:induction false} BindingListed(links: seq<PaymentLink>, i: nat, k: nat) returns (x: nat)
    requires i < |links| && k < |links[i].bindings|
    ensures x == Offset(links, i) + k && x < |AllBindings(links)| && AllBindings(links)[x] == links[i].bindings[k]
    ensures x < Offset(links, i) + |links[i].bindings| <= |AllBindings(links)|
  {
    x := Offset(links, i) + k;
    var n := |links| - 1;
    if i < n {
      assert links[..n][..i] == links[..i];
      var y := BindingListed(links[..n], i, k);
    }
  }

  function Offset(links: seq<PaymentLink>, i: nat): nat
    requires i <= |links|
  {
    |AllBindings(links[..i])|
  }

  lemma {:induction false} OffsetsGrow(links: seq<PaymentLink>, i: nat, j: nat)
    requires i < j <= |links|
    ensures Offset(links, i) + |links[i].bindings| <= Offset(links, j)
    decreases j
  {
    assert links[..j][..j - 1] == links[..j - 1];
    assert links[..j][j - 1] == links[j - 1];
    if i < j - 1 {
      OffsetsGrow(links, i, j - 1);
    }
  }

  /** Two bindings that agree on a ticket or a reference are the same binding of the same link. */
  lemma BindingsApart(a: Anchors, i: nat, k: nat, j: nat, l: nat)
    requires LanesUnique(a)
    requires i < |a.payments| && k < |a.payments[i].bindings| && j < |a.payments| && l < |a.payments[j].bindings|
    requires a.payments[i].bindings[k].ticket == a.payments[j].bindings[l].ticket
             || a.payments[i].bindings[k].reference == a.payments[j].bindings[l].reference
    ensures i == j && k == l
  {
    var all := AllBindings(a.payments);
    var x := BindingListed(a.payments, i, k);
    var y := BindingListed(a.payments, j, l);
    assert BindingTickets(all)[x] == a.payments[i].bindings[k].ticket && BindingTickets(all)[y] == a.payments[j].bindings[l].ticket;
    assert BindingReferences(all)[x] == a.payments[i].bindings[k].reference
           && BindingReferences(all)[y] == a.payments[j].bindings[l].reference;
    assert x == y;
    if i < j {
      OffsetsGrow(a.payments, i, j);
    } else if j < i {
      OffsetsGrow(a.payments, j, i);
    }
  }

  /** The anchor file's rules, once its selectors resolve, keep the payment lanes of a run apart. */
  lemma AnchorsKeepLanesApart(run: Run, tickets: seq<TicketState>)
    requires LanesUnique(run.anchors) && Resolved(run, tickets)
    ensures LanesOk(run) && RunInRange(run, |tickets|)
  {
    var a := run.anchors;
    LinksApart(run, tickets);
    OperatorsApart(run, tickets);
    forall i, j | 0 <= i < j < |a.reviews| ensures a.reviews[i] != a.reviews[j] {
      assert ReviewTickets(a.reviews)[i] != ReviewTickets(a.reviews)[j];
    }
  }

  lemma LinkIndex(run: Run, tickets: seq<TicketState>, id: MessageId) returns (i: nat)
    requires Resolved(run, tickets) && id in run.links.payments
    ensures i < |run.anchors.payments| && run.anchors.payments[i].id == id
    ensures BindingsResolved(tickets, run.anchors.payments[i].bindings, run.links.payments[id])
  {
    i :| 0 <= i < |run.paymentIds| && run.paymentIds[i] == id;
  }

  lemma LinksApart(run: Run, tickets: seq<TicketState>)
    requires LanesUnique(run.anchors) && Resolved(run, tickets)
    ensures Distinct(run.paymentIds)
    ensures forall id :: id in run.links.payments ==> run.links.payments[id] != []
    ensures forall id, k :: id in run.links.payments && 0 <= k < |run.links.payments[id]| ==>
              run.links.payments[id][k].ticket < |tickets|
    ensures forall id, k, id', k' ::
              id in run.links.payments && id' in run.links.payments
              && 0 <= k < |run.links.payments[id]| && 0 <= k' < |run.links.payments[id']|
              && (run.links.payments[id][k].ticket == run.links.payments[id'][k'].ticket
                  || run.links.payments[id][k].reference == run.links.payments[id'][k'].reference)
              ==> id == id' && k == k'
  {
    forall id | id in run.links.payments
      ensures run.links.payments[id] != []
      ensures forall k :: 0 <= k < |run.links.payments[id]| ==> run.links.payments[id][k].ticket < |tickets|
    {
      var i := LinkIndex(run, tickets, id);
    }
    forall id, k, id', k' | && id in run.links.payments && id' in run.links.payments
                            && 0 <= k < |run.links.payments[id]| && 0 <= k' < |run.links.payments[id']|
                            && (run.links.payments[id][k].ticket == run.links.payments[id'][k'].ticket
                                || run.links.payments[id][k].reference == run.links.payments[id'][k'].reference)
      ensures id == id' && k == k'
    {
      var i := LinkIndex(run, tickets, id);
      var j := LinkIndex(run, tickets, id');
      BindingsApart(run.anchors, i, k, j, k');
    }
  }

  lemma OperatorsApart(run: Run, tickets: seq<TicketState>)
    requires LanesUnique(run.anchors) && Resolved(run, tickets)
    ensures forall i :: 0 <= i < |run.operatorAt| ==> run.operatorAt[i] < |tickets|
    ensures forall i, j :: 0 <= i < j < |run.operatorAt| ==> run.operatorAt[i] != run.operatorAt[j]
    ensures forall i, j :: 0 <= i < j < |run.anchors.operatorPayments| ==>
              run.anchors.operatorPayments[i].reference != run.anchors.operatorPayments[j].reference
    ensures forall id, k, n :: id in run.links.payments && 0 <= k < |run.links.payments[id]| && 0 <= n < |run.operatorAt| ==>
              run.links.payments[id][k].ticket != run.operatorAt[n]
              && run.links.payments[id][k].reference != Sha(run.anchors.operatorPayments[n].reference)
  {
    var a := run.anchors;
    forall i, j | 0 <= i < j < |run.operatorAt|
      ensures run.operatorAt[i] != run.operatorAt[j]
      ensures a.operatorPayments[i].reference != a.operatorPayments[j].reference
    {
      assert PaymentTickets(a.operatorPayments)[i] != PaymentTickets(a.operatorPayments)[j];
      assert PaymentReferences(a.operatorPayments)[i] != PaymentReferences(a.operatorPayments)[j];
      assert Selects(tickets, a.operatorPayments[i].ticket, run.operatorAt[i]);
      assert Selects(tickets, a.operatorPayments[j].ticket, run.operatorAt[j]);
    }
    forall id, k, n | id in run.links.payments && 0 <= k < |run.links.payments[id]| && 0 <= n < |run.operatorAt|
      ensures run.links.payments[id][k].ticket != run.operatorAt[n]
      ensures run.links.payments[id][k].reference != Sha(a.operatorPayments[n].reference)
    {
      var i := LinkIndex(run, tickets, id);
      var x := BindingListed(a.payments, i, k);
      assert AllBindings(a.payments)[x] in AllBindings(a.payments) && a.operatorPayments[n] in a.operatorPayments;
      assert Selects(tickets, a.operatorPayments[n].ticket, run.operatorAt[n]);
    }
  }

  ghost function Views(tickets: seq<Ticket>): (v: seq<TicketState>)
    reads tickets
    ensures |v| == |tickets|
  {
    seq(|tickets|, i requires 0 <= i < |tickets| reads tickets => tickets[i].View())
  }

  ghost predicate Resolves(tickets: seq<TicketState>, s: Selector) {
    exists i :: 0 <= i < |tickets| && Selects(tickets, s, i)
  }

  ghost predicate BindingsResolve(tickets: seq<TicketState>, bindings: seq<PaymentBinding>) {
    forall k :: 0 <= k < |bindings| ==> Resolves(tickets, bindings[k].ticket)
  }

  /** Every selector of the payment lanes names exactly one ticket. */
  ghost predicate SelectorsResolve(tickets: seq<TicketState>, a: Anchors) {
    && (forall i :: 0 <= i < |a.payments| ==> BindingsResolve(tickets, a.payments[i].bindings))
    && (forall i :: 0 <= i < |a.reviews| ==> Resolves(tickets, a.reviews[i].ticket))
    && (forall i :: 0 <= i < |a.operatorPayments| ==> Resolves(tickets, a.operatorPayments[i].ticket))
  }

  lemma Unresolved(tickets: seq<Ticket>, s: Selector)
    requires !exists i :: 0 <= i < |tickets| && tickets[i].head.selector == s
                          && forall j :: 0 <= j < |tickets| && tickets[j].head.selector == s ==> j == i
    ensures !Resolves(Views(tickets), s)
  {
    if i :| 0 <= i < |tickets| && Selects(Views(tickets), s, i) {
      assert tickets[i].head.selector == s;
      forall j | 0 <= j < |tickets| && tickets[j].head.selector == s ensures j == i {
        assert Views(tickets)[j].head.selector == s;
      }
    }
  }

  method ResolveBindings(tickets: seq<Ticket>, bindings: seq<PaymentBinding>) returns (bound: Option<seq<Bound>>)
    ensures bound.Some? ==> BindingsResolved(Views(tickets), bindings, bound.value)
    ensures bound.Some? <==> BindingsResolve(Views(tickets), bindings)
  {
    var found: seq<Bound> := [];
    for k := 0 to |bindings|
      invariant |found| == k
      invariant forall l :: 0 <= l < k ==>
        Selects(Views(tickets), bindings[l].ticket, found[l].ticket) && found[l].reference == bindings[l].reference
    {
      var i := ResolveSelector(tickets, bindings[k].ticket);
      if i.None? {
        Unresolved(tickets, bindings[k].ticket);
        return None;
      }
      found := found + [Bound(i.value, bindings[k].reference)];
    }
    bound := Some(found);
  }

  /** The payment links of the anchor file, each with its bindings resolved. */
  method ResolvePayments(tickets: seq<Ticket>, links: seq<PaymentLink>) returns (ok: bool, payments: map<MessageId, seq<Bound>>)
    requires Distinct(LinkIds(links))
    ensures ok ==> forall id :: id in payments <==> id in LinkIds(links)
    ensures ok ==> forall i :: 0 <= i < |links| ==>
              links[i].id in payments && BindingsResolved(Views(tickets), links[i].bindings, payments[links[i].id])
    ensures ok <==> forall i :: 0 <= i < |links| ==> BindingsResolve(Views(tickets), links[i].bindings)
  {
    hide BindingsResolved, BindingsResolve, Views, LinkResolved;
    payments := map[];
    ghost var ids := LinkIds(links);
    for i := 0 to |links|
      invariant forall id :: id in payments <==> id in ids[..i]
      invariant forall j :: 0 <= j < i ==> LinkResolved(tickets, links[j], payments)
      invariant forall j :: 0 <= j < i ==> BindingsResolve(Views(tickets), links[j].bindings)
    {
      var bound := ResolveBindings(tickets, links[i].bindings);
      if bound.None? {
        return false, payments;
      }
      assert ids[..i + 1] == ids[..i] + [links[i].id];
      ghost var before := payments;
      payments := payments[links[i].id := bound.value];
      LinkAdded(tickets, links[i], before, bound.value);
      forall j | 0 <= j < i ensures LinkResolved(tickets, links[j], payments) {
        assert ids[j] != ids[i];
        LinkStays(tickets, links[j], before, links[i].id, bound.value);
      }
    }
    assert ids[..|links|] == ids;
    forall i | 0 <= i < |links|
      ensures links[i].id in payments && BindingsResolved(Views(tickets), links[i].bindings, payments[links[i].id])
    {
      assert LinkResolved(tickets, links[i], payments);
      LinkMeans(tickets, links[i], payments);
    }
    ok := true;
  }

  ghost predicate LinkResolved(tickets: seq<Ticket>, link: PaymentLink, payments: map<MessageId, seq<Bound>>)
    reads tickets
  {
    link.id in payments && BindingsResolved(Views(tickets), link.bindings, payments[link.id])
  }

  lemma LinkAdded(tickets: seq<Ticket>, link: PaymentLink, payments: map<MessageId, seq<Bound>>, bound: seq<Bound>)
    requires BindingsResolved(Views(tickets), link.bindings, bound)
    ensures LinkResolved(tickets, link, payments[link.id := bound])
  {
    hide BindingsResolved, Views;
  }

  lemma LinkMeans(tickets: seq<Ticket>, link: PaymentLink, payments: map<MessageId, seq<Bound>>)
    requires LinkResolved(tickets, link, payments)
    ensures link.id in payments && BindingsResolved(Views(tickets), link.bindings, payments[link.id])
  {
    hide BindingsResolved, Views;
  }

  lemma LinkStays(tickets: seq<Ticket>, link: PaymentLink, payments: map<MessageId, seq<Bound>>, id: MessageId, bound: seq<Bound>)
    requires LinkResolved(tickets, link, payments) && id != link.id
    ensures LinkResolved(tickets, link, payments[id := bound])
  {
    hide BindingsResolved, Views;
  }

  /** The payment lanes of a run: every selector of the anchor file resolved, or a refusal because one names
      no ticket or more than one. */
  method ResolveLanes(tickets: seq<Ticket>, a: Anchors)
    returns (ok: bool, payments: map<MessageId, seq<Bound>>, reviewAt: seq<nat>, operatorAt: seq<nat>)
    requires LanesUnique(a)
    ensures ok ==> forall run: Run ::
              (run.anchors == a && run.links.payments == payments && run.paymentIds == LinkIds(a.payments)
               && run.reviewAt == reviewAt && run.operatorAt == operatorAt) ==> Resolved(run, Views(tickets))
    ensures ok <==> SelectorsResolve(Views(tickets), a)
  {
    hide BindingsResolved, BindingsResolve;
    payments, reviewAt, operatorAt := map[], [], [];
    ok, payments := ResolvePayments(tickets, a.payments);
    if !ok {
      return false, payments, reviewAt, operatorAt;
    }
    for i := 0 to |a.reviews|
      invariant |reviewAt| == i && forall j :: 0 <= j < i ==> Selects(Views(tickets), a.reviews[j].ticket, reviewAt[j])
    {
      var at := ResolveSelector(tickets, a.reviews[i].ticket);
      if at.None? {
        Unresolved(tickets, a.reviews[i].ticket);
        return false, payments, reviewAt, operatorAt;
      }
      reviewAt := reviewAt + [at.value];
    }
    for i := 0 to |a.operatorPayments|
      invariant |operatorAt| == i && forall j :: 0 <= j < i ==> Selects(Views(tickets), a.operatorPayments[j].ticket, operatorAt[j])
    {
      var at := ResolveSelector(tickets, a.operatorPayments[i].ticket);
      if at.None? {
        Unresolved(tickets, a.operatorPayments[i].ticket);
        return false, payments, reviewAt, operatorAt;
      }
      operatorAt := operatorAt + [at.value];
    }
    ok := true;
  }
}
