/** Thread ancestry: which tickets a message answers (RFC 5322, section 3.6.4). */
module Ancestry {
  import opened Common
  import opened Tickets
  import opened Ledgers

  /** A scoped resolution: purpose, selected ticket positions, and the anchoring Message-ID. */
  datatype Resolution = Resolution(purpose: Purpose, tickets: seq<nat>, anchor: MessageId)

  datatype Thread = Thread(purpose: Purpose, tickets: seq<nat>)
  datatype Direct = Direct(purpose: Purpose, ticket: nat)
  datatype Bound = Bound(ticket: nat, reference: Sha<string>)

  /** The anchors of one run, resolved to ticket positions. */
  datatype Links = Links(originals: map<MessageId, nat>, threads: map<MessageId, Thread>,
                         direct: map<MessageId, Direct>, payments: map<MessageId, seq<Bound>>,
                         mails: map<MessageId, Mail>)

  function Parents(m: Mail): seq<MessageId> {
    m.inReplyTo + m.references
  }

  function Labels(g: Links, id: MessageId): set<Resolution> {
    (if id in g.originals then {Resolution(Case, [g.originals[id]], id)} else {}) +
    (if id in g.threads then {Resolution(g.threads[id].purpose, g.threads[id].tickets, id)} else {})
  }

  /** One hop towards the past; a payment-linked message is never travelled through. */
  predicate Hop(g: Links, a: MessageId, b: MessageId) {
    a !in g.payments && a in g.mails && b in Parents(g.mails[a])
  }

  ghost predicate Path(g: Links, start: seq<MessageId>, p: seq<MessageId>) {
    && p != [] && p[0] in start
    && forall k :: 0 <= k < |p| - 1 ==> Hop(g, p[k], p[k + 1])
  }

  ghost predicate Reaches(g: Links, start: seq<MessageId>, id: MessageId) {
    exists p :: Path(g, start, p) && p[|p| - 1] == id
  }

  function Known(g: Links, start: seq<MessageId>): set<MessageId> {
    (set id | id in start) + (set m, id | m in g.mails && id in Parents(g.mails[m]) :: id)
  }

  /** Exactly the anchors reachable from `start`. */
  ghost function Resolutions(g: Links, start: seq<MessageId>): set<Resolution> {
    set id, r | id in Known(g, start) && Reaches(g, start, id) && r in Labels(g, id) :: r
  }

  lemma StartReaches(g: Links, start: seq<MessageId>, id: MessageId)
    requires id in start
    ensures Reaches(g, start, id)
  {
    assert Path(g, start, [id]) && [id][|[id]| - 1] == id;
  }

  lemma HopReaches(g: Links, start: seq<MessageId>, a: MessageId, b: MessageId)
    requires Reaches(g, start, a) && Hop(g, a, b)
    ensures Reaches(g, start, b)
  {
    var p :| Path(g, start, p) && p[|p| - 1] == a;
    var q := p + [b];
    assert Path(g, start, q) && q[|q| - 1] == b;
  }

  /** A set that holds the start and is closed under hops holds everything reachable. */
  lemma {:induction false} ClosedHoldsPath(g: Links, start: seq<MessageId>, seen: set<MessageId>, p: seq<MessageId>)
    requires forall id :: id in start ==> id in seen
    requires forall a, b :: a in seen && Hop(g, a, b) ==> b in seen
    requires Path(g, start, p)
    ensures p[|p| - 1] in seen
    decreases |p|
  {
    if |p| > 1 {
      var front := p[..|p| - 1];
      assert Path(g, start, front);
      ClosedHoldsPath(g, start, seen, front);
      assert Hop(g, p[|p| - 2], p[|p| - 1]);
    }
  }

  lemma ClosedIsReachable(g: Links, start: seq<MessageId>, seen: set<MessageId>)
    requires forall id :: id in start ==> id in seen
    requires forall a, b :: a in seen && Hop(g, a, b) ==> b in seen
    requires forall id :: id in seen ==> Reaches(g, start, id)
    ensures forall id :: id in seen <==> Reaches(g, start, id)
  {
    forall id | Reaches(g, start, id) ensures id in seen {
      var p :| Path(g, start, p) && p[|p| - 1] == id;
      ClosedHoldsPath(g, start, seen, p);
    }
  }

  ghost function Collected(g: Links, seen: set<MessageId>): set<Resolution> {
    set id, r | id in seen && r in Labels(g, id) :: r
  }

  /** What visiting `id` puts on the queue. */
  function Next(g: Links, id: MessageId): seq<MessageId> {
    if id !in g.payments && id in g.mails then Parents(g.mails[id]) else []
  }

  /** The queue and the visited set between them hold the start and everything one hop on. */
  ghost predicate Frontier(g: Links, start: seq<MessageId>, seen: set<MessageId>, queue: seq<MessageId>) {
    && (forall id :: id in queue ==> id in Known(g, start) && Reaches(g, start, id))
    && seen <= Known(g, start)
    && (forall id :: id in seen ==> Reaches(g, start, id))
    && (forall id :: id in start ==> id in seen || id in queue)
    && (forall a, b :: a in seen && Hop(g, a, b) ==> b in seen || b in queue)
  }

  lemma FrontierStarts(g: Links, start: seq<MessageId>)
    ensures Frontier(g, start, {}, start) && Collected(g, {}) == {}
  {
    forall id | id in start ensures Reaches(g, start, id) { StartReaches(g, start, id); }
  }

  lemma FrontierSkips(g: Links, start: seq<MessageId>, seen: set<MessageId>, rest: seq<MessageId>, id: MessageId)
    requires Frontier(g, start, seen, rest + [id]) && id in seen
    ensures Frontier(g, start, seen, rest)
  {
    assert forall x :: x in rest + [id] <==> x in rest || x == id;
  }

  lemma FrontierVisits(g: Links, start: seq<MessageId>, seen: set<MessageId>, rest: seq<MessageId>, id: MessageId)
    requires Frontier(g, start, seen, rest + [id])
    ensures id in Known(g, start)
    ensures Frontier(g, start, seen + {id}, rest + Next(g, id))
  {
    assert forall x :: x in rest + [id] <==> x in rest || x == id;
    assert id in rest + [id];
    forall x | x in Next(g, id) ensures Reaches(g, start, x) && x in Known(g, start) {
      HopReaches(g, start, id, x);
    }
  }

  lemma CollectedGrows(g: Links, start: seq<MessageId>, seen: set<MessageId>, id: MessageId)
    requires id in Known(g, start) && id !in seen
    ensures Collected(g, seen + {id}) == Collected(g, seen) + Labels(g, id)
    ensures |Known(g, start) - (seen + {id})| < |Known(g, start) - seen|
  {
    FewerLeft(Known(g, start), seen, id);
    forall r | r in Collected(g, seen + {id}) ensures r in Collected(g, seen) + Labels(g, id) {}
    forall r | r in Collected(g, seen) + Labels(g, id) ensures r in Collected(g, seen + {id}) {
      if r in Labels(g, id) {
        assert id in seen + {id};
      } else {
        var i :| i in seen && r in Labels(g, i);
        assert i in seen + {id};
      }
    }
  }

  lemma FrontierDone(g: Links, start: seq<MessageId>, seen: set<MessageId>)
    requires Frontier(g, start, seen, [])
    ensures Collected(g, seen) == Resolutions(g, start)
  {
    ClosedIsReachable(g, start, seen);
  }

  /** One message of the walk: the anchors it carries and the messages it adds to the queue. */
  method Visit(g: Links, id: MessageId, found: set<Resolution>, queue: seq<MessageId>)
    returns (found': set<Resolution>, queue': seq<MessageId>)
    ensures found' == found + Labels(g, id)
    ensures queue' == queue + Next(g, id)
  {
    found', queue' := found, queue;
    if id in g.originals {
      found' := found' + {Resolution(Case, [g.originals[id]], id)};
    }
    if id in g.threads {
      found' := found' + {Resolution(g.threads[id].purpose, g.threads[id].tickets, id)};
    }
    if id in g.payments {
      return;
    }
    if id in g.mails {
      queue' := queue' + g.mails[id].inReplyTo;
      queue' := queue' + g.mails[id].references;
    }
  }

  /** The work queue visits each id once, whatever cycles the references form. */
  method Resolve(g: Links, start: seq<MessageId>) returns (found: set<Resolution>)
    ensures found == Resolutions(g, start)
  {
    hide Frontier, Collected, Known, Resolutions, Labels, Next;
    var queue := start;
    var seen: set<MessageId> := {};
    found := {};
    FrontierStarts(g, start);
    while queue != []
      invariant Frontier(g, start, seen, queue)
      invariant found == Collected(g, seen)
      decreases |Known(g, start) - seen|, |queue|
    {
      var id := queue[|queue| - 1];
      var rest := queue[..|queue| - 1];
      assert queue == rest + [id];
      if id in seen {
        FrontierSkips(g, start, seen, rest, id);
        queue := rest;
      } else {
        FrontierVisits(g, start, seen, rest, id);
        CollectedGrows(g, start, seen, id);
        seen := seen + {id};
        found, queue := Visit(g, id, found, rest);
      }
    }
    FrontierDone(g, start, seen);
  }
}
