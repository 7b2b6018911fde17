# A verified model of the reimbursement, receipt and budget reconcilers

This project models the parts of `np_finance` that decide things, and proves what they promise.

- **The reimbursement refresh.** One run reduces a mail archive, operator reviews, payment links and
  operator payments over a bundle of tickets, and rebuilds an append-only ledger of evidence and events.
  `Tickets`, `Ledgers` and `ReducerSpec` state every step on values; `TicketObjects.Ticket` and
  `Reducers.Reducer` are the same steps in place, on ticket objects that must not be aliased, proved equal
  to the value steps. `Settlement`, `RunLaws`, `LoaderChecks`, `RunValidity`, `Refreshes` and `Chains` hold the
  theorems: no double payment, all-or-nothing groups, sound settlement, validated tickets, agreement with the strict
  loader, over one run and over any sequence of refreshes. `OwedTotals` reads totals off a run's inputs; `FailingRuns`
  has the concrete runs the loader refuses. `Ancestry` is the thread walk along In-Reply-To and References (section 3.6.4
  of RFC 5322), `Proposals` the approval-proposal parser, `AnchorRules` the anchor file's uniqueness rules,
  `SourceEvidence` one submission's evidence and its digest, `Merge` the drift check and the new tickets,
  `Publish` the sorted lists.
- **The image-decode broker and its child.** `Pump` is the bounded incremental reader, `Decode` the page
  size arithmetic and the exit mapping, `DecodeProtocol` the two-party protocol with a clock.
- **Producers against their loaders.** `ReceiptRefresh` builds a sidecar that `ReceiptViewer` accepts;
  `AssetFetch`, `AssetLedger` and `AssetHistory` fetch receipt assets and keep a ledger that always reloads.
- **Reconcilers with a fixpoint.** `BudgetTab`, `BudgetSync` and `BudgetLaws`; `Ids`, `Normalize` and
  `NormalizeLaws`; `ReceiptMap` and `ReceiptMapLaws`, whose evidence snapshot `SnapshotLaws` hands to the merge.
- **The generated confirmation e-mail.** `Confirmation` writes and parses it, over `TextLines`, `Scans`,
  `Grouped` and `Money`; `ConfirmationLaws` proves the round trip.

How the outside world is represented: SHA-256 is a wrapper around its preimage (`Sha`), so digests are
equal exactly when what they digest is; money is integer cents, days are integers; mail text, OCR lines,
HTTP responses, JSON bytes, category tables and cell readers are arbitrary functions or values passed in
(`Reader`, `Stages`, `Wire`, `Site`, `Rules`); character classes and case folding are ASCII. A rule the
source enforces by raising is a refusal value or a sticky `ok` flag. Where a scan or a loop is in the
source, there is a method with that loop, proved equal to the function the theorems speak of.

What the proofs found:

- The reducer's and the validator's roll-ups differ exactly when '-' items accompany only A items
  (`TicketLaws.RollupsDifferExactly`), so a response or a held payment can take such a ticket out of the
  validated states; the `KeepsValidExactly` lemmas of `TicketLaws` give the exact conditions.
- A replayed operator payment is not compared with the ticket's total again, so a finished run passes the
  loader's recorded-payment check exactly when each replay still matches
  (`RunLaws.RecordedTargetsExactly`); the loader stops the other case before publication
  (`FailingRuns.ReplayedPaymentIsRefused`).
- In the same way a replayed discrepancy can come to equal a corrected total
  (`LoaderChecks.DiscrepanciesDifferExactly`, `FailingRuns.ReplayedDiscrepancyIsRefused`), and a wrong-amount
  operator payment takes back the decision an approval reply gave while the granted event stays
  (`LoaderChecks.GrantsDecidedExactly`, `FailingRuns.GrantTakenBackIsRefused`). These three cases are all
  (`LoaderChecks.LoaderAcceptsExactly`).
- A submission's digest covers its notes, attachments and legacy receipt links, but neither its receipt count nor
  the form marker of its subject: the drift check refuses a changed note (`Merge.NotesMayNotChange`) and accepts a
  changed receipt count (`Merge.ReceiptCountMayChange`).
- The submission parser takes a line labelled 0, and mapping a negative amount; the snapshot carries both, and they
  are the only two things that make its evidence unfit for a ticket (`SnapshotLaws.SnapshotFeedsMerge`).
- With a response cap below the ready-line cap the pump's overflow flag depends on how the pipe chunks its
  bytes (`Pump.StdoutPump.Run` assumes the cap the broker uses; `Pump.SmallCapSeesChunks` shows every
  smaller one fails).
- Planning a budget a second time is free of writes exactly when the kept lines' notes carry no outer
  blanks (`BudgetLaws.ReplanExactly`, with `BudgetLaws.BlankNoteIsRewritten`), which the tab parser guarantees
  (`BudgetLaws.ReplanParsedTab`).
- Freshly minted transaction ids are new exactly when nothing stands in their range
  (`NormalizeLaws.FreshExactly`); an id on a row whose date does not parse can be minted a second time
  (`NormalizeLaws.UndatedIdIsMintedAgain`).
- A confirmation reference that ends in a dash is accepted by the line pattern but not by the reference
  scan, which needs a word boundary, so the filled-in e-mail does not parse
  (`ConfirmationLaws.LetterParsesExactly`, `ConfirmationLaws.OneReference`, `ConfirmationLaws.DashedReferenceIsLost`).

## Model

| member | source | states |
|---|---|---|
| TicketLaws.RollupsAgreeWithoutDash | np_finance/reimbursement_report.py:1071-1081 | the reducer's and the validator's roll-ups give one status on every nonempty A/C/D/Q list |
| TicketLaws.RollupsDifferExactly | np_finance/reimbursement_pipeline.py:775-783 | with some adjudicated item, the two roll-ups differ if and only if '-' items accompany only A items |
| TicketLaws.RollupsDisagreeOnADash | np_finance/reimbursement_pipeline.py:775-783 | a concrete two-item ticket on which they differ |
| TicketLaws.PaymentKeepsValid | np_finance/reimbursement_pipeline.py:843-894 | a recorded payment leaves every validated ticket validated |
| TicketLaws.PaymentIdempotent | np_finance/reimbursement_pipeline.py:843-894 | applying the same payment twice is applying it once |
| TicketLaws.ResponseKeepsValidExactly | np_finance/reimbursement_pipeline.py:797-840 | a response keeps an open validated ticket validated, if and only if no '-' items stay beside only A items |
| TicketLaws.HeldPaymentKeepsValidExactly | np_finance/reimbursement_pipeline.py:897-930 | the same for a held (discrepant) payment, with its exact condition |
| TicketLaws.ProposalKeepsValidExactly | np_finance/reimbursement_pipeline.py:971-999 | an approved proposal keeps an open ticket validated, if and only if no generated draft turns C without a question |
| TicketLaws.ReviewKeepsValidExactly | np_finance/reimbursement_pipeline.py:1002-1037 | an accepted operator review keeps the ticket validated exactly when the decision it leaves stands and no unasked draft turns C |
| TicketLaws.FillHeldAt | np_finance/reimbursement_pipeline.py:933-968 | an item already A stays A and the k-th held item gets the k-th proposed status |
| TicketLaws.ExpansionIsScoped | np_finance/reimbursement_pipeline.py:933-968 | an expanded section grants only A and C, covers the whole ticket and takes back no A of a held-items section |
| TicketObjects.Ticket.ApplyResponseReceived | np_finance/reimbursement_pipeline.py:797-840 | the in-place transition ends in the value transition's ticket, all fields |
| TicketObjects.Ticket.ApplyPayment | np_finance/reimbursement_pipeline.py:843-894 | the in-place payment ends in the value transition's ticket |
| TicketObjects.Ticket.ApplyPaymentDiscrepancy | np_finance/reimbursement_pipeline.py:897-930 | the in-place discrepancy ends in the value transition's ticket |
| TicketObjects.Ticket.ApplyProposalApproval | np_finance/reimbursement_pipeline.py:971-999 | the in-place approval ends in the value transition's ticket |
| TicketObjects.Ticket.ApplyOperatorReview | np_finance/reimbursement_pipeline.py:1002-1037 | the in-place review refuses exactly when the value transition does, and otherwise ends in its ticket |
| Ancestry.Resolve | np_finance/reimbursement_pipeline.py:1219-1249 | the work queue ends on every reference graph, cycles included, with exactly the anchors reachable without passing a payment-linked message |
| Ancestry.ClosedIsReachable | np_finance/reimbursement_pipeline.py:1219-1249 | a set that holds the start, is closed under hops and holds only reachable ids is the reachable set |
| AnchorRules.CheckLanes | np_finance/reimbursement_events.py:672-697 | the anchor loader's length-against-set checks accept exactly the files whose payment and review lanes are unique |
| AnchorRules.AnchorsKeepLanesApart | np_finance/reimbursement_events.py:672-697 | unique lanes, once their selectors resolve to tickets, keep every binding and operator entry on its own ticket and reference |
| AnchorRules.BindingsApart | np_finance/reimbursement_events.py:672-697 | two bindings that share a ticket or a reference are one binding of one link |
| AnchorRules.ResolveLanes | np_finance/reimbursement_pipeline.py:586-593 | every payment, review and operator selector is resolved to the one ticket it names, and the run is refused exactly when some selector names no ticket or several |
| Proposals.ParseProposalRecommendations | np_finance/reimbursement_events.py:1051-1104 | the line loop computes the recommendations, or none on any line out of place |
| Proposals.RecommendationsAreScoped | np_finance/reimbursement_events.py:1051-1104 | each expected ticket, in order, gets exactly the action lines under the one heading that names it, only A and C, and a shared heading only one exact "approve as is" |
| Proposals.ParsedRunKeepsTicketsValid | np_finance/reimbursement_events.py:1051-1104 | a run whose proposals this parser reads takes sound tickets, under a fitting anchor file, to validated tickets whatever its mails say |
| Reducers.Reducer.ProcessMail | np_finance/reimbursement_pipeline.py:1251-1451 | one mail on distinct ticket objects has the value step's effect on tickets, events and unmatched entries |
| Reducers.Reducer.ProcessReview | np_finance/reimbursement_pipeline.py:1453-1466 | one operator review has the value step's effect |
| Reducers.Reducer.JudgeGroup | np_finance/reimbursement_pipeline.py:1500-1576 | the imperative verdict over a payment group is the all-or-nothing verdict |
| Reducers.Reducer.ProcessLink | np_finance/reimbursement_pipeline.py:1468-1629 | one payment link has the value step's effect on all of its tickets or none |
| Reducers.Reducer.ProcessOperatorPayment | np_finance/reimbursement_pipeline.py:1631-1715 | one operator payment has the value step's effect |
| Reducers.Reducer.Reduce | np_finance/reimbursement_pipeline.py:1059-1754 | the whole run over ticket objects succeeds exactly when the value run does and leaves its tickets and ledger |
| Settlement.OnePayment | np_finance/reimbursement_pipeline.py:1468-1754 | in a finished run no ticket has two recorded payments and no reference pays two tickets |
| Settlement.GroupAllOrNothing | np_finance/reimbursement_pipeline.py:1468-1629 | each payment link settles every bound ticket with its recorded event, or changes none; its mail then leaves one unmatched entry and no event, or one discrepancy or quarantine per bound ticket, some block being off its total; beside these events it leaves only replayed companions of the bound tickets |
| Settlement.SettlementSound | np_finance/reimbursement_pipeline.py:746-772 | a ticket that goes from open to settled was approved with every item A and unpaid, is paid exactly its payable total, not later than the report date, by an operator entry or an authorised unconflicted Zelle link |
| Settlement.RecordedMeansSettled | np_finance/reimbursement_report.py:1452-1474 | a recorded payment of a validated bundle means its ticket is settled |
| RunLaws.FinishedLedgerAgrees | np_finance/reimbursement_report.py:1405-1496 | every finished ledger meets the loader's rules on evidence, events and unmatched entries alone: evidence is the source of an event or listed unmatched but not both, events match their record, each operator payment has exactly one event, no ticket two recorded payments |
| RunLaws.SettledStays | np_finance/reimbursement_pipeline.py:1468-1715 | settled is absorbing over a run |
| RunLaws.RecordedIsBacked | np_finance/reimbursement_pipeline.py:1468-1715 | every recorded payment targets a settled, approved, paid ticket with that date and confirmation, for its total unless it is an operator replay |
| RunLaws.RecordedTargetsExactly | np_finance/reimbursement_report.py:1452-1474 | a finished run passes the loader's recorded-payment check if and only if every replayed operator payment equals what its ticket owes by the input items and their reviews |
| OwedTotals.OwedBeforeLanes | np_finance/reimbursement_pipeline.py:1453-1466 | before the payment lanes every ticket owes what its input items and its review entries say, whatever the mails did |
| LoaderChecks.EveryTargetKnown | np_finance/reimbursement_report.py:1425-1426 | every event of a run's ledger targets a ticket of the list |
| LoaderChecks.DiscrepanciesDifferExactly | np_finance/reimbursement_report.py:1474-1475 | a finished run passes the loader's discrepancy check if and only if every replayed operator discrepancy is still off what its ticket owes by the input items and their reviews |
| LoaderChecks.GrantsDecidedExactly | np_finance/reimbursement_report.py:1476-1481 | it passes the granted-approval check if and only if no operator discrepancy, replayed or new, falls on an open ticket that the mails granted and no review names |
| LoaderChecks.LoaderAcceptsExactly | np_finance/reimbursement_report.py:1405-1496 | it passes all of the loader's event checks if and only if these three conditions hold of each operator entry |
| FailingRuns.ReplayedPaymentIsRefused | np_finance/reimbursement_report.py:1452-1465 | a concrete accepted bundle and successful run whose replayed payment no longer equals the total |
| FailingRuns.ReplayedDiscrepancyIsRefused | np_finance/reimbursement_report.py:1474-1475 | the same for a replayed discrepancy that a review turned into the total |
| FailingRuns.GrantTakenBackIsRefused | np_finance/reimbursement_report.py:1476-1481 | a concrete reply that grants a ticket, and an operator payment of a wrong amount that takes its decision back |
| RunValidity.RunKeepsTicketsValid | np_finance/reimbursement_report.py:1084-1136 | every ticket of a finished run passes the validator, from tickets without '-' items or unasked drafts and reviews that fit the ticket they meet |
| RunValidity.FittingFileKeepsTicketsValid | np_finance/reimbursement_pipeline.py:1002-1037 | the same from the anchor file and the input tickets alone: one review per ticket that decides, or confirms the decision already there, and asks a question where a draft would turn C |
| RunValidity.LastingFileKeepsTicketsReady | np_finance/reimbursement_pipeline.py:1002-1037 | where each review also decides, asks or leaves no generated draft, the finished tickets meet the same conditions again |
| Refreshes.RefreshSafe | np_finance/reimbursement_pipeline.py:1757-1888 | one successful refresh, placeholder upgrades included, keeps the bundle sound and only continues it |
| Refreshes.RefreshPassesExactly | np_finance/reimbursement_report.py:1405-1496 | the result of a refresh passes all of the loader's event checks if and only if each operator entry of its anchor file stands |
| Refreshes.RefreshesSafe | np_finance/reimbursement_pipeline.py:1468-1754 | over any sequence of refreshes evidence and events are append-only, every event targets a ticket, no ticket gets a second recorded payment, no reference pays two tickets, nothing settled reopens, accounted keys only grow |
| Refreshes.RefreshSettlesSoundly | np_finance/reimbursement_pipeline.py:1757-1888 | every settlement a refresh makes, of an old ticket or of one it adds, is sound in the sense above |
| Chains.ChainRecords | np_finance/reimbursement_pipeline.py:1794-1866 | along any sequence of refreshes each bundle records the snapshot of its refresh, and a submission once recorded is in every later snapshot with its payload unchanged |
| Chains.ChainStaysValid | np_finance/reimbursement_report.py:1084-1136 | along any sequence of refreshes with fitting reviews, from tickets that are ready or known placeholders, every ticket of every bundle passes the validator and after the first refresh is ready again, whatever the mails say |
| Merge.DriftCheckExact | np_finance/reimbursement_pipeline.py:1794-1838 | the drift check passes if and only if every recorded submission is in the snapshot with its digested payload unchanged, so additions anywhere in date order never trip it |
| Merge.ReceiptCountMayChange | np_finance/reimbursement_pipeline.py:314-328 | a changed receipt count or form marker alone is accepted |
| Merge.NotesMayNotChange | np_finance/reimbursement_pipeline.py:314-328 | a changed note alone is refused |
| Merge.MergeRecordsSnapshot | np_finance/reimbursement_pipeline.py:1862-1866 | an accepted merge records the new snapshot and its keys, the digests of kept rows included, so the next check is exact too |
| Merge.NextRefsFresh | np_finance/reimbursement_pipeline.py:395-402 | new NEW-n references repeat neither an existing reference nor each other |
| Merge.MergedRowsFresh | np_finance/reimbursement_pipeline.py:1833-1841 | old rows keep place, identity, payment side and digest, and change at all only if they are known placeholders; new rows have fresh references and display orders |
| Merge.UpgradeKeepsValid | np_finance/reimbursement_pipeline.py:534-572 | an upgraded placeholder passes the validator without a '-' item or a draft, its identity and payment side as they were |
| Merge.NewTicketValid | np_finance/reimbursement_pipeline.py:500-531 | a ticket made from a mapped submission passes the validator and carries no '-' item |
| Merge.NewTicketAsks | np_finance/reimbursement_pipeline.py:405-497 | its advice is a clarification exactly when it has a question to ask |
| Merge.AppendNewTickets | np_finance/reimbursement_pipeline.py:1833-1838 | the loops append one new ticket per unaccounted submission, in snapshot order |
| Merge.MergeTickets | np_finance/reimbursement_pipeline.py:1833-1841 | the two loops append the new tickets and upgrade exactly the known placeholders among the old ones |
| Publish.PublishLists | np_finance/reimbursement_pipeline.py:1716-1754 | the three published lists hold each key once, in the strict order the loader demands |
| Pump.StdoutPump.Take | np_finance/receipt_pages.py:550-582 | one chunk keeps the buffer within one byte of its cap and what is kept a prefix of the stream |
| Pump.StdoutPump.Run | np_finance/receipt_pages.py:531-618 | for any chunking of the pipe the ready line, both flags and the response are those of the concatenated bytes; every read request is positive; the loop ends |
| Pump.SmallCapSeesChunks | np_finance/receipt_pages.py:540-582 | for every cap below the ready-line cap two chunkings of one stream give different overflow flags |
| Decode.ScaledSideBounds | np_finance/receipt_decode.py:185-207 | a scaled side is in 1..max, the long side exactly max, the short side half-up within half a pixel unless clamped |
| Decode.PageSizeBounds | np_finance/receipt_decode.py:185-207 | both page sides are in 1..max and a page that fits is not scaled |
| Decode.PageSizeFixpoint | np_finance/receipt_decode.py:185-207 | scaling its own output changes nothing |
| Decode.ChildIsAccepted | np_finance/receipt_pages.py:673-728 | every header and body the child writes is accepted by the broker as exactly that page or refusal, within the read cap |
| Decode.CleanChildAnswers | np_finance/receipt_pages.py:730-753 | of the child's own output the broker makes a page if and only if the child decoded, exited 0 with the body written, in time and under the cap: at the derived size with every pixel; and it repeats a refusal if and only if the child refused and ended so |
| DecodeProtocol.StepIsSafe | np_finance/receipt_pages.py:808-854 | every step of child, pump, writer, clock or broker keeps the protocol's safety |
| DecodeProtocol.ProtocolIsSafe | np_finance/receipt_pages.py:756-854 | over all interleavings no asset byte is sent before the ready line is accepted, aborts happen only before it, one answer is given and stays, and a page is earned |
| DecodeProtocol.PastDeadlineMovesOn | np_finance/receipt_pages.py:584-606 | past the wall deadline the broker can always move on, whatever the child does |
| ReceiptViewer.LoadReceipts | np_finance/receipt_viewer.py:150-243 | the loader's loops accept exactly the sidecars of the acceptance predicate |
| ReceiptViewer.Headroom | np_finance/receipt_viewer.py:97-147 | the bytes still free under the total cap, or none exactly when a page file is missing, over its own cap, or the pages break the total |
| ReceiptRefresh.CandidateAccepted | np_finance/receipt_refresh.py:426-584 | for any sidecar the loader accepts, the refreshed candidate is accepted: unique used pages, each item once, bytes within the cap, old entries a prefix |
| ReceiptRefresh.CandidateAcceptedExactly | np_finance/receipt_refresh.py:426-584 | from a sidecar that lacks only follow-up pages the candidate is accepted if and only if each of those pages was there or a missing item shows it: one of the pages admitted for its ticket, and its own mark's page if it keeps a mark |
| ReceiptRefresh.MarksApart | np_finance/receipt_refresh.py:549-564 | after the downgrade no two new OCR marks share a region |
| ReceiptRefresh.RefreshReceipts | np_finance/receipt_refresh.py:362-615 | from a sidecar that loads, or none, the loops produce that candidate; the loader accepts it if and only if the follow-up pages are brought, always when the old sidecar loaded; marks plus items for review equal the prior counts plus the missing items |
| AssetFetch.Attempt | np_finance/receipt_assets.py:691-739 | one attempt opens at most max_redirects + 1 targets, each let through by the allowlist, and ends as the redirect chain says |
| AssetFetch.FetchOne | np_finance/receipt_assets.py:742-757 | the retry loop ends in the retry function's fetch |
| AssetFetch.FetchIsBounded | np_finance/receipt_assets.py:742-757 | between one and max_attempts attempts, moving on only from a retryable answer with time left; a fetched body is nonempty, recognised and within the cap |
| AssetLedger.LedgerRows.Record | np_finance/receipt_assets.py:960-979 | the loop updates the first row of the pair in place or appends one |
| AssetLedger.CacheHit | np_finance/receipt_assets.py:807-831 | the lookup loop gives the best row's hit when its file is there |
| AssetLedger.AssetStore.FetchAssets | np_finance/receipt_assets.py:1053-1140 | one call writes every resolved outcome for any order of completion and any abort, and answers in request order |
| AssetHistory.BestRowIsLatest | np_finance/receipt_assets.py:807-818 | the row taken is the last seen among those with this URL and accepted bytes, the later one on a tie |
| AssetHistory.RecordKeepsLoading | np_finance/receipt_assets.py:860-979 | recording keeps the ledger loadable, its pairs unique, first_seen fixed and accepted rows accepted |
| AssetHistory.RecordAllAddsAttempts | np_finance/receipt_assets.py:960-979 | a pair's attempts grow by exactly what the call spent on that pair |
| AssetHistory.SpentIsBounded | np_finance/receipt_assets.py:742-757 | a call spends at most max_attempts per distinct URL of a key |
| AssetHistory.FailuresSpareAcceptedRows | np_finance/receipt_assets.py:960-979 | failures leave every accepted row exactly as it was |
| AssetHistory.EveryNoteIsRecorded | np_finance/receipt_assets.py:1127-1134 | each resolved outcome is in the written ledger under its pair, seen at this call |
| AssetHistory.LedgerHistory | np_finance/receipt_assets.py:898-1140 | over any sequence of calls the ledger reloads, no row is dropped, first_seen never changes, attempts only grow and within the allowance, accepted rows stay accepted |
| Money.FmtReads | np_finance/budget_sync.py:100-130 | every cents value the plain form prints reads back as itself |
| BudgetTab.ParseBudgetTab | np_finance/budget_sync.py:175-224 | the tab-parsing loop computes the scan's lines, skipped and orphaned rows |
| BudgetTab.NumericRowsAccounted | np_finance/budget_sync.py:175-224 | every numeric row is a line or an orphan, and each line is stripped and typed by its section |
| BudgetSync.PlanBudgetSync | np_finance/budget_sync.py:256-377 | the planning loops compute the plan |
| BudgetLaws.PlanCells | np_finance/budget_sync.py:321-345 | each planned cell belongs to a first-of-its-key line that differs there, with that line's value, and each such line has its cells |
| BudgetLaws.TargetsDiffer | np_finance/budget_sync.py:300-345 | distinct lines never write in one row |
| BudgetLaws.LineIsShown | np_finance/budget_sync.py:256-363 | after the plan the sheet shows every kept tab line, matched or appended, at the first row of its key |
| BudgetLaws.ReplanExactly | np_finance/budget_sync.py:256-363 | planning again after applying writes nothing if and only if the kept lines' notes have no outer blanks |
| BudgetLaws.BlankNoteIsRewritten | np_finance/budget_sync.py:256-363 | a concrete line whose note starts with a blank is written again by the second plan |
| BudgetLaws.ReplanParsedTab | np_finance/budget_sync.py:175-363 | for lines parsed from a tab the second plan never writes |
| BudgetLaws.OnlyProposedCellsChange | np_finance/budget_sync.py:228-249 | a sheet row that changes at all is a proposed row of the year whose key is on the tab, and keeps every cell but amount and notes to the letter |
| BudgetLaws.RemovedIsAbandoned | np_finance/budget_sync.py:357-363 | `removed` reports exactly the sheet's proposed keys the tab has no line for |
| Ids.TxnIdRoundTrip | np_finance/ids.py:61-68 | a printed id reads back as its two-digit year and sequence |
| Ids.TxnIdInjective | np_finance/ids.py:61-68 | two printed ids coincide if and only if sequence and two-digit year do |
| Normalize.NormalizeRows | np_finance/etl.py:119-228 | the two passes compute the normalised rows and counts |
| NormalizeLaws.NormalizeIsExact | np_finance/etl.py:119-228 | each row comes out at its place with its own cells, its due id and its flag, and malformed + unchanged + (assigned or duplicate) is the row count |
| NormalizeLaws.NormalizeIdempotent | np_finance/etl.py:119-228 | a second run changes no row and mints nothing |
| NormalizeLaws.SeedsAreMaxima | np_finance/etl.py:154-169 | the first pass finds each fiscal year's largest sequence |
| NormalizeLaws.FreshExactly | np_finance/etl.py:154-217 | minted ids differ from all other ids if and only if no id or other year stands in their range |
| NormalizeLaws.DatedLedgerHasRoom | np_finance/etl.py:105-169 | they are fresh when each canonical id's row has a date in its fiscal year and the years present differ modulo 100 |
| NormalizeLaws.UndatedIdIsMintedAgain | np_finance/etl.py:155-169 | without a readable date an existing id can be minted again |
| ReceiptMap.DeduplicateSubmissions | np_finance/receipt_map.py:172-193 | the selection loop computes the deduplicated list |
| ReceiptMapLaws.DedupIsExact | np_finance/receipt_map.py:172-193 | it keeps exactly the submissions no earlier kept one matches by id or content, in order |
| ReceiptMapLaws.DedupIdempotent | np_finance/receipt_map.py:172-193 | kept submissions differ in id and content, and a second pass drops none |
| ReceiptMapLaws.DroppedHasKeptMatch | np_finance/receipt_map.py:172-193 | every dropped submission has an earlier kept match |
| ReceiptMap.MapSubmissions | np_finance/receipt_map.py:196-258 | the nested loops compute the rows of the deduplicated submissions |
| ReceiptMapLaws.RowsMatchItems | np_finance/receipt_map.py:218-257 | the k-th row is the k-th priced item's, with date and category carried from the nearest priced item that has one |
| ReceiptMapLaws.GroupingIsExact | np_finance/reimbursement_pipeline.py:260-270 | grouping the rows by message id gives each selected submission exactly its own rows |
| ReceiptMap.BuildEvidenceSnapshot | np_finance/reimbursement_pipeline.py:251-392 | the snapshot loop computes the snapshot or its failure |
| ReceiptMapLaws.SnapshotAddsUp | np_finance/reimbursement_pipeline.py:251-392 | the "line counts disagree" failure cannot be reached, and row count and total are the sums over the tickets |
| SnapshotLaws.SnapshotFeedsMerge | np_finance/reimbursement_pipeline.py:251-355 | a finished snapshot is strictly ordered with unique keys, as the merge needs, and its evidence is fit for a ticket exactly when no line is negative or labelled 0 |
| SnapshotLaws.SnapshotTicketsAreValid | np_finance/reimbursement_pipeline.py:500-531 | a new ticket made from such evidence of any archive passes the validator |
| Grouped.FiguresReadBack | np_finance/reimbursement_report.py:1516-1519 | thousands-grouped money reads back as the amount printed |
| Grouped.FiguresScan | np_finance/reimbursement_events.py:206-209 | the amount pattern takes exactly the printed figures |
| Confirmation.ParseGeneratedSingle | np_finance/reimbursement_events.py:790-835 | the parser's loops compute the strict single-payment reading |
| ConfirmationLaws.LetterSplits | np_finance/reimbursement_events.py:770-787 | the generated e-mail's payment lines are its greeting, introduction, confirmation, context and sign-off lines |
| ConfirmationLaws.OneAmount | np_finance/reimbursement_events.py:164-164 | the amount scan over the pair finds the introduction's amount and nothing else |
| ConfirmationLaws.OneReference | np_finance/reimbursement_events.py:165-171 | the reference scan finds exactly the reference if and only if it does not end in a dash |
| ConfirmationLaws.LetterParsesExactly | np_finance/reimbursement_report.py:1535-1578 | a filled-in Zelle approval e-mail parses to its amount and reference if and only if the name fits, no second pair occurs, the reference does not end in a dash and the amount is positive |
| ConfirmationLaws.DashedReferenceIsLost | np_finance/reimbursement_events.py:165-171 | a concrete letter whose reference the line pattern takes and the parser loses |
| ConfirmationLaws.LetterSettles | np_finance/reimbursement_events.py:949-966 | without a negative phrase the blocks parser returns that payment |

## Left out

- The schema-1 payment lane: its branch is part of the reducer's steps, but the settlement theorems are about schema 2; under schema 1 source totals stand in for reviewed totals and bad outcomes stop only at publication.
- Full refresh idempotence: a rerun can rewrite review text after an approval, and an approved payment blanks the e-mail context that a later reading needs.
- Free text (why, note, action, summaries) except the e-mail context; whether a ticket's free texts are the stock ones of a placeholder is given to the merge; the display order of the ticket list.
- Thread and direct selectors are taken as resolved; one that names no ticket fails the run in the mail step.
- The sent-batch parser, the legacy payment parser and the approval-reply classifier are functions of the text; the proposal parser is modelled over lines already told apart as headings, actions and prose.
- The negative-phrase pattern is an arbitrary predicate; the character classes of all patterns are ASCII, and blanks are space, tab, line feed and carriage return.
- ConfirmationLaws.LetterParsesExactly: about a payment method spelled exactly "Zelle", configured texts without NUL whose last visible character is not a line break, and fully approved tickets; a partial approval's e-mail has another introduction and is not parsed by this reader.
- MIME and HTML parsing, JSON text, OCR, Pillow, sockets, TLS, subprocesses and Job Objects: each is its reply value. URL canonicalisation and the allowlist rules are functions of the URL.
- The box an OCR suggestion proposes and the matching of items to OCR lines: ReceiptRefresh takes them as stage replies with their bounds.
- Float rounding of scales, boxes and budget amounts: exact rationals and cents; non-finite amounts do not occur.
- The sheet reads a written budget cell back as it was written; `suspected_renames`, a display hint from a similarity ratio, is not planned.
- The write-back of normalised rows to the sheet: a minted id is not in the id column and is appended there.
- A fetched URL need not be a later cache hit: two URLs with one key and one body share a row.
- Corpus scanning, cutoffs and the mail index of the evidence snapshot, and its counters and mapped-rows digest; the refusal of a receipt refresh that could attach nothing.
- Merge.NewTicketValid: about evidence with nonnegative amounts; a negative one becomes a blank amount in the modelled ticket, where the published ticket keeps it and the loader refuses it.
- CLI, configuration, HTML rendering, CSV encoding, trend sums and deployment scripts.
