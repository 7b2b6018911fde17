/** One selected original submission, as the evidence snapshot hands it to the merge, and what its digest covers. */
module SourceEvidence {
  import opened Common
  import opened Digits

  /** One mapped line, with the answers of the two advice patterns on its description. */
  datatype EvidenceItem = EvidenceItem(key: string, index: nat, date: string, description: string, category: string,
                                       cents: int, flags: seq<string>, mealSignal: bool, giveawaySignal: bool)

  /** What the digest covers and no later step reads. */
  datatype Unread = Unread(name: string, email: string, form: string, statedTotal: Option<int>,
                           receiptUrls: seq<string>, attachments: seq<string>, notes: string)

  datatype Evidence = Evidence(key: string, received: Day, payMethod: string, categories: seq<string>,
                               mappedTotal: int, flags: seq<string>, receiptAssets: nat, directEmail: bool,
                               items: seq<EvidenceItem>, unread: Unread)

  datatype DigestedItem = DigestedItem(key: string, index: nat, date: string, description: string, category: string, cents: int)

  /** The payload of `source_evidence_sha256`: neither the receipt count nor the subject's form marker is in it. */
  datatype Digested = Digested(key: string, received: Day, payMethod: string, mappedTotal: int,
                               items: seq<DigestedItem>, flags: seq<string>, unread: Unread)

  type EvidenceDigest = Sha<Digested>

  function DigestedOf(e: Evidence): Digested {
    Digested(e.key, e.received, e.payMethod, e.mappedTotal,
             seq(|e.items|, i requires 0 <= i < |e.items| =>
               DigestedItem(e.items[i].key, e.items[i].index, e.items[i].date, e.items[i].description,
                            e.items[i].category, e.items[i].cents)),
             e.flags, e.unread)
  }

  function Digest(e: Evidence): EvidenceDigest {
    Sha(DigestedOf(e))
  }

  /** Snapshots are sorted by (received, review key), and review keys are unique. */
  predicate Earlier(a: Evidence, b: Evidence) {
    a.received < b.received || (a.received == b.received && Before(a.key, b.key))
  }

  ghost predicate Snapshot(s: seq<Evidence>) {
    && (forall i, j :: 0 <= i < j < |s| ==> Earlier(s[i], s[j]))
    && (forall i, j :: 0 <= i < j < |s| ==> s[i].key != s[j].key)
  }
}
