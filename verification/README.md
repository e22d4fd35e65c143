# Fikirtive: paid dispatch, canvas cards and their sequential algorithms

This project models the parts of the Fikirtive repository where correctness depends on several
functions, or several concurrent actors, keeping one promise together. It has three parts.

**Paid campaign dispatch.** A merchant approves plan entries and confirms a quote. The confirmation
claims a batch-wide lease that expires, then charges one cell at a time. Meanwhile other tabs edit,
approve, undo and remove entries or change the campaign period without any lock, other confirmations
compete, projects move in and out of the campaign, and workers finish or fail jobs.
`DispatchProtocol` is a step system in which every read, every lock acquisition and every write is its
own step; a run is any list of steps. Four mechanisms are modelled as the code has them: the campaign
advisory lock held until the charging transaction commits, the compare-and-set on the campaign row
version, the lease with its token compare-and-set, and the fresh / reused / conflict verdict over job
history. `DispatchSafety` to `DispatchEditors` show that every step of every actor keeps one
invariant, by rely-guarantee; `DispatchTheorems` reads the merchant's promises off it.
`DispatchProgress` shows the protocol is not safe by refusing everything: an undisturbed confirmation,
first or repeated, charges exactly the lines its quote calls new and spends the total on the button.
`DispatchAuthors`, `DispatchProjects` and `DispatchOnce` say what one charge per entry means over several
projects.

**Canvas cards.** `CanvasBoard` is a step system for job-locked placement, for a delete that reads
before it takes the lock, and for a browser report that takes no lock, together with the same calls as
methods over one board. `CanvasSafety` and `CanvasTheorems` prove what the board keeps; `CanvasRaces`
shows that undisturbed steps are the calls, and gives the three schedules where a promise stops.

**Sequential algorithms**, each against an independent specification: the two-pass recent-activity
read (`TaskLedger`), the lineage tree over possibly cyclic pointers (`LineageTree`,
`LineageDescent`, `LineageOrder`, `LineageBatch`), the orphan-asset sweep (`OrphanSweep`), the generator of the authentication wall's
route matcher (`Regex`, `AuthWall`), caller addresses and IPv6 folding (`CallerIdentity`), and mention
documents (`MentionDoc`). `Calendar`, `CampaignPlan`, `BatchIdempotency`, `CampaignQuote`,
`DispatchLease` and `DispatchHistory` are the pieces the dispatch protocol is made of; `Basics`,
`Ordering` and `Text` are shared vocabulary.

## What the proofs found

- `TaskLedger.ExactIffPlainReferences`: the two-pass read is exact on every ledger with at most four
  nonzero rows a task if and only if no reference starts with `row:`. A reference that does would be
  taken for a lone row's key and its rows not fetched (`TaskLedger.PrefixedReferenceIsLost` names such a
  ledger). No present writer produces one: references are job ids or start with `otto-turn:`,
  `otto-stream:`, `research:`, `understanding:` or `manual-refund:`. So this is an assumption the read
  makes about its writers, not a defect. `TaskLedger.ReadsRightIffBatchCovers` gives the condition for
  one ledger.
- `CanvasRaces.ReportRevivesDeletedOutput`, `CanvasRaces.PlacementRepointsAfterReport`: deletion is
  final and outputs are fixed over placements and deletions, but not against a browser report that
  binds an output. Such a report is harmless if and only if no card of the job, live or removed, already
  carries that output and no placement has already looked up the board and is about to write over what
  is reported (`CanvasTheorems.ReportSafeIff`; `CanvasTheorems.CollisionHurts` says what goes wrong
  otherwise). In any state at all, the one step that changes what a live card shows is the write of a
  placement whose card shows something else by then (`CanvasTheorems.OutputsMoveIffRepointed`).
- `CanvasRaces.LostDeleteLeavesJobOpen`: a delete that saw a card in flight but loses the race to
  another delete answers "not found", and the job's other outputs can still be placed. The job stays
  closed over every continuation if and only if that delete succeeds or an earlier one already closed
  it (`CanvasTheorems.InFlightDeletionIsFinal`). A delete that saw a settled output needs no such
  condition for refusals (`CanvasTheorems.SettledDeletionIsFinal`).
- `CallerIdentity.ClientPrefixIsPowerlessIff`: with a configured number of hops, a client-written prefix
  of the forwarded header is powerless if and only if the proxies really appended that many entries.
- `MentionDoc.RoundTripIff`: reading a built document back gives the original text if and only if every
  chip without an id took an empty stretch of it.
- `DispatchProjects.EachProjectChargesItsOwn`: one charge per entry is one charge per entry and project.
  Two confirmations of one campaign in two of its projects both charge their whole quote, and
  `DispatchProjects.TwoProjectsPayTwice` runs this from a concrete start. Over all projects the promise
  holds as long as every confirmation names one project (`DispatchProjects.OneProjectOneCharge`). In
  general, over every schedule, an entry never has two live jobs if and only if each commit that charges
  it finds none of its jobs live in another project (`DispatchOnce.NeverLiveTwiceIff`). For an undisturbed
  confirmation that is what a caller can read off the history before pressing the button
  (`DispatchProjects.OneLiveIffNoneElsewhere`).

## Reading the model

- A hash or an HMAC stands for its payload: fingerprints are compared as payloads, which treats SHA-256
  as injective. Batch ids are injective in the project, so histories are keyed by project and entry id.
- `updatedAt` of the campaign row is a version that every committed write makes fresh; `createdAt` is
  a strict order, so a card's place in its sequence is its age.
- Credits are the ledger's internal integers. The source shows a tenth of them on the button; the
  comparison with the button is the same in either unit.
- Configuration of one confirmation (models, video spec, defaults, the pricing function) is fixed for
  that confirmation. The price charged under the project lock is a free parameter of the step, and
  only the price gate relates it to the quote.
- Name lookup in a text, address recognition (`isIP`) and string collation belong to the runtime and
  are parameters.
- Calendar years below 100 are refused by the source's own round-trip check, and the model follows it.
- Dispatch properties are about runs that start from a sound plan with nothing dispatched, and in which
  projects are never hard-deleted.

## Model

| member | source | states |
|---|---|---|
| DispatchTheorems.DispatchedStaysApproved | apps/web/lib/campaign-approval-lock.ts:367-404 | over every schedule, an entry with a dispatched job is still in the plan and approved at every later moment |
| DispatchTheorems.PlanStaysSound | apps/web/lib/campaign-actions.ts:479-517 | concurrent plan edits and period edits leave every entry inside the stored period, ids unique and at most 40 entries |
| DispatchTheorems.HistoriesOnlyGrow | apps/web/lib/gen-actions.ts:1093-1336 | no schedule loses a job row, rewrites what it asked for, or moves it once it ended or delivered |
| DispatchTheorems.HistoryReadIsExact | apps/web/lib/campaign-dispatch-history.ts:32-101 | the dispatch-history read returns exactly the entries with a job in any project, whatever the grouping is by then |
| DispatchTheorems.DispatchedForever | apps/web/lib/campaign-actions.ts:716-743 | once the guarded door sees an entry as dispatched, it does so at every later moment |
| DispatchTheorems.OneNetChargePerEntry | apps/web/lib/batch-idempotency.ts:426-486 | per project and entry: all jobs carry the same material, at most one is live or delivered, and the ledger nets to that job's price or to nothing |
| DispatchTheorems.NeverMoreThanTheButton | apps/web/lib/campaign-generation-confirm.ts:602-612 | whatever workers and other tabs do, one confirmation never reserves more than the total on the pressed button |
| DispatchTheorems.ChargesNeverInterleave | apps/web/lib/campaign-approval-lock.ts:176-215 | charges of two confirmations of one campaign and project never interleave |
| DispatchTheorems.LostLeaseIsFinal | apps/web/lib/campaign-approval-lock.ts:217-247 | once the lease token has left an attempt it never returns and that attempt never charges again, through pauses, expiry, takeover and the two-step renewal |
| DispatchTheorems.LoserNeverTouchesALease | apps/web/lib/campaign-approval-lock.ts:230-271 | at every later moment of every schedule, no step of an attempt that lost its lease changes any batch row |
| DispatchTheorems.ResendIsAlwaysReplayed | apps/web/lib/gen-actions.ts:275-305 | the same attempt asked again, at any later moment of any schedule and whatever became of its job, is handed that job |
| DispatchTheorems.FaceHoldsWhileLeased | apps/web/lib/campaign-generation-confirm.ts:354-360 | while a confirmation holds its lease, the deliverable set is the one that was signed |
| DispatchTheorems.DeliveryCheckNeverRefuses | apps/web/lib/campaign-generation-confirm.ts:681-697 | the in-lock delivery check never refuses a cell whose lease check passed |
| DispatchProgress.UndisturbedRunSpendsTheButton | apps/web/lib/campaign-generation-confirm.ts:546-795 | from any reachable state in which the lock is free and the batch can be claimed, an undisturbed confirmation charges exactly the lines its quote calls new, once each and in plan order, adds exactly their jobs, and spends the quoted total |
| DispatchProgress.CellCharges | apps/web/lib/gen-actions.ts:840-1336 | an undisturbed cell does what its quoted line says: a new one passes every gate and is charged at its quoted price, a blocked one is refused and a live one reused before any transaction |
| DispatchAuthors.EveryJobHasItsAuthor | apps/web/lib/gen-actions.ts:1228-1336 | in every run every job was started by a confirmation on record, in its own project, and every refund is of a job that exists |
| DispatchProjects.OneProjectOneCharge | apps/web/lib/batch-idempotency.ts:426-486 | when every confirmation names one project: over all projects an entry's jobs carry one material, at most one is live or delivered, and the whole ledger nets to its price or to nothing |
| DispatchProjects.OneLiveIffNoneElsewhere | apps/web/lib/campaign-generation-confirm.ts:590-602 | after an undisturbed confirmation an entry it delivers has one live job over all projects exactly when none was live outside the chosen project; a blocked entry is left as it was |
| DispatchProjects.EachProjectChargesItsOwn | apps/web/lib/campaign-generation-confirm.ts:590-596 | the identity of a charge is per project: two confirmations in two projects each charge their own quote in full |
| DispatchProjects.TwoProjectsPayTwice | apps/web/lib/campaign-generation-confirm.ts:590-596 | a concrete start, with one approved entry and two projects, from which that entry is charged twice |
| DispatchOnce.NeverLiveTwiceIff | apps/web/lib/gen-actions.ts:1093-1336 | over every schedule, an entry never has two live jobs over all projects exactly when every commit that charges it finds none live in another project |
| DispatchOnce.OneLiveAfterChargeIff | apps/web/lib/gen-actions.ts:1093-1336 | in any reachable state, a commit that charges a cell leaves its entry with one live job exactly when none was live elsewhere just before |
| DispatchEditors.ApplyKeeps | apps/web/lib/campaign-generation-confirm.ts:642-795 | every step of every actor keeps the whole invariant |
| DispatchEditors.RunKeeps | apps/web/lib/campaign-generation-confirm.ts:642-795 | so does every schedule |
| DispatchEditors.UnlockedWriteMove | apps/web/lib/campaign-actions.ts:649-683 | an edit, approval, proposal or details write that took no lock still keeps the plan sound and every approval, because of the row-version compare-and-set |
| DispatchEditors.DoorWriteMove | apps/web/lib/campaign-actions.ts:716-743 | an undo or removal that found no dispatch under the lock keeps every approval a job depends on |
| DispatchSafety.EditorStable | apps/web/lib/campaign-actions.ts:700-743 | what a plan transaction knows survives any step of anyone else |
| DispatchSafety.AttemptStable | apps/web/lib/campaign-approval-lock.ts:367-435 | what a confirmation knows between two of its own steps survives any step of anyone else |
| DispatchSafety.FaceStable | apps/web/lib/campaign-generation-confirm.ts:675-697 | job status changes leave the live delivery face alone |
| DispatchSteps.StillApprovedCoversCell | apps/web/lib/campaign-generation-confirm.ts:669-674 | a live plan that still fingerprints to the signed one approves every signed entry |
| DispatchSteps.GateOk | apps/web/lib/campaign-approval-lock.ts:367-404 | what each gate, in order, establishes for the next one |
| DispatchCommit.FreshCellStaysOk | apps/web/lib/gen-actions.ts:275-305 | a cell judged fresh takes exactly one more live job, of the same material as all before it |
| DispatchCommit.ChargeKeepsFace | apps/web/lib/campaign-generation-confirm.ts:675-680 | a confirmation's own charge leaves its delivery face where the merchant signed it |
| DispatchCommit.ChargedLedger | apps/web/lib/gen-actions.ts:1248-1326 | after a charging commit the ledger still nets to what live jobs hold, for every project and entry |
| DispatchCommit.WorkerLedger | apps/web/lib/batch-idempotency.ts:426-437 | a job that ends without delivering gives its whole hold back, and the ledger still nets to what live jobs hold |
| DispatchCommit.CommitKeeps | apps/web/lib/gen-actions.ts:1093-1336 | create, reserve and renewal becoming visible together keep the invariant |
| DispatchCharges.ClaimCommitKeeps | apps/web/lib/campaign-generation-confirm.ts:742-756 | claiming the batch after the in-lock delivery check keeps the invariant |
| DispatchCharges.AfterWriteKeeps | apps/web/lib/campaign-generation-confirm.ts:698-701 | the out-of-lock renewal's late write keeps the invariant |
| DispatchEffects.StepExtendsJobs | apps/web/lib/gen-actions.ts:1093-1336 | no single step of anyone erases or rewrites a job row |
| DispatchLease.StatusRoundTrip | apps/web/lib/campaign-approval-lock.ts:113-142 | the status column keeps every value, and a token reads back as its own attempt only |
| DispatchLease.LeaseTable.Claim | apps/web/lib/campaign-approval-lock.ts:176-215 | takes the row exactly when it is absent, idle, expired or one's own, and changes nothing otherwise |
| DispatchLease.LeaseTable.RenewRead | apps/web/lib/campaign-approval-lock.ts:235-241 | answers yes exactly for an unexpired lease of one's own |
| DispatchLease.LeaseTable.RenewWrite | apps/web/lib/campaign-approval-lock.ts:242-246 | refreshes the row exactly when the token is still one's own |
| DispatchLease.LeaseTable.Renew | apps/web/lib/campaign-approval-lock.ts:230-247 | with nobody in between, renews exactly an unexpired lease of one's own |
| DispatchLease.LeaseTable.Release | apps/web/lib/campaign-approval-lock.ts:256-271 | clears the row only when it is one's own |
| DispatchHistory.DispatchedEntryIds | apps/web/lib/campaign-dispatch-history.ts:62-101 | the nested loops return exactly the asked entries that have a job in a hosting project, or all of them when positional history exists |
| BatchIdempotency.MatchesIffSameCanonicalForm | apps/web/lib/batch-idempotency.ts:463-486 | the material binding is exactly equality of canonical forms; status plays no part |
| BatchIdempotency.MatchingRowsAgree | apps/web/lib/batch-idempotency.ts:463-486 | two rows that match one request match each other |
| BatchIdempotency.ResentRequestIsRecognised | apps/web/lib/gen-actions.ts:275-305 | after its own dispatch a request is never a conflict: the same attempt is replayed, another one reuses while a job lives and may create once all ended without delivering |
| BatchIdempotency.StatusNeverDecidesConflict | apps/web/lib/batch-idempotency.ts:439-446 | no status change blocks or unblocks a cell |
| BatchIdempotency.OwnDispatchStaysDeliverable | apps/web/lib/batch-idempotency.ts:439-446 | dispatching a cell's own material keeps it deliverable and turns fresh into reused |
| BatchIdempotency.StillLivePrior | apps/web/lib/batch-idempotency.ts:435-437 | finds a row exactly when some row has not ended without delivering |
| CampaignQuote.FingerprintEqualIffSameApproval | apps/web/lib/campaign-generation-confirm.ts:331-351 | content fingerprints are equal exactly when the approved entries, with content, price and resolved spec, are the same set |
| CampaignQuote.FingerprintIgnoresOrder | apps/web/lib/campaign-generation-confirm.ts:338-346 | reordering the plan never changes the fingerprint |
| CampaignQuote.FingerprintCoversEntry | apps/web/lib/campaign-generation-confirm.ts:669-674 | a matching fingerprint puts every signed entry in the live approved set |
| CampaignQuote.FaceIsTheDeliverableSet | apps/web/lib/campaign-generation-confirm.ts:352-360 | the delivery face holds exactly the approved entries whose material still binds to their history |
| CampaignQuote.FaceMovesOnlyWithConflict | apps/web/lib/campaign-generation-confirm.ts:352-360 | the face moves only when some entry becomes blocked or stops being blocked |
| CampaignQuote.HistoryOnlyLowersTheQuote | apps/web/lib/campaign-generation-confirm.ts:299-320 | a readable history can only lower the total of an unreadable one |
| CampaignQuote.ApprovedEntriesUnique | apps/web/lib/campaign-generation-confirm.ts:193-207 | approved entries of a plan with unique ids have unique ids |
| CampaignPlan.MutateKeepsPlanOk | apps/web/lib/campaign-actions.ts:754-941 | every entry action keeps ids unique, the cap of 40 and every date inside the period |
| CampaignPlan.MutateKeepsApprovals | apps/web/lib/campaign-actions.ts:754-941 | approvals survive every action but an undo or removal of that very entry |
| CampaignPlan.ShrinkTakesExactlyThatEntry | apps/web/lib/campaign-actions.ts:847-941 | an undo or removal takes exactly that entry out of the approved set |
| CampaignPlan.NextRowKeepsRowOk | apps/web/lib/campaign-actions.ts:461-520 | no action strands an entry outside the period, whichever column it writes |
| CampaignPlan.StoredPeriodReadsBack | apps/web/lib/campaign-actions.ts:159-169 | a period stored as two instants reads back as the dates it was made from |
| CampaignPlan.CampaignTable.Save | apps/web/lib/campaign-actions.ts:672-682 | the guarded write lands exactly when the row is live and unchanged since it was read, and otherwise leaves the row alone |
| CampaignPlan.CampaignTable.Delete | apps/web/lib/campaign-actions.ts:594-647 | a soft delete takes any live row and makes its version fresh |
| Calendar.TextOrderIsDateOrder | apps/web/lib/campaign-actions.ts:123-127 | comparing two date strings is comparing the dates |
| Calendar.CivilDateInvertsDayNumber | apps/web/lib/campaign-actions.ts:41-51 | counting days and reading the date back are inverse, for every Gregorian date |
| Calendar.MalaysiaDateRoundTrip | apps/web/lib/campaign-actions.ts:159-169 | the start and the end instant of a Malaysian day both read back as that day |
| Calendar.PeriodCoversInstant | apps/web/lib/campaign-actions.ts:159-169 | an instant lies between a period's stored bounds exactly when its Malaysian date lies in the period |
| CanvasBoard.Board.Place | apps/web/lib/canvas-node-placement.ts:120-344 | refuses, finds or inserts as the checks and the two lookups say, with the whole new board stated |
| CanvasBoard.Board.Tombstone | apps/web/lib/canvas-node-placement.ts:347-375 | succeeds exactly on a live card, which keeps its output and becomes a tombstone |
| CanvasBoard.Board.Resolve | apps/web/lib/canvas-actions.ts:307-395 | applies a report exactly to an unbound card still being made |
| CanvasBoard.Oldest | apps/web/lib/canvas-node-placement.ts:162-187 | the lookup returns the first live card that qualifies, or none exists |
| CanvasTheorems.OneCardPerOutput | apps/web/lib/canvas-node-placement.ts:158-188 | over every orderly run: at most one live card per output, at most one unbound live card, which is the job's oldest, and outputs on the job's record |
| CanvasTheorems.OutputsAreFixed | apps/web/lib/canvas-node-placement.ts:266-306 | a live card's output goes from none to one fixed value, and a tombstone never changes |
| CanvasTheorems.InFlightDeletionIsFinal | apps/web/lib/canvas-node-placement.ts:347-375 | a delete of a card seen in flight closes its job to every request of every orderly continuation exactly when it succeeds or the job was closed before, even if an output was bound between the delete's read and write |
| CanvasTheorems.JobClosedIff | apps/web/lib/canvas-node-placement.ts:137-156 | every request of a job is refused exactly when the job is unknown or was removed in flight |
| CanvasTheorems.SettledDeletionIsFinal | apps/web/lib/canvas-node-placement.ts:142-156 | after a delete of a settled output, won or lost, every later request for it is refused, and no live card shows it again unless the delete lost to one that removed the whole job |
| CanvasTheorems.PlacementsAndDeletionsAreOrderly | apps/web/lib/canvas-node-placement.ts:137-141 | every run without output-binding reports is orderly |
| CanvasTheorems.ReportSafeIff | apps/web/lib/canvas-actions.ts:360-388 | an output-binding report, at any moment, keeps the board and every transaction's knowledge exactly when no card of the job carries that output and no placement is about to write over it |
| CanvasTheorems.CollisionHurts | apps/web/lib/canvas-node-placement.ts:266-344 | otherwise the placement's write re-points the reported card or adds a second card of the same output |
| CanvasTheorems.OutputsMoveIffRepointed | apps/web/lib/canvas-node-placement.ts:266-306 | in any state, a step changes a live card's output or a tombstone exactly when it is a placement's write on a live card that shows something else than it brings; a report never touches a card that shows something |
| CanvasTheorems.CardsOnlyMoveUp | packages/core/src/canvas-card-status.ts:73-120 | in every interleaving cards only move up the order, and a bound card never goes blank while live |
| CanvasTheorems.PlacementIsIdempotent | apps/web/lib/canvas-node-placement.ts:116-119 | placing the same result again finds the same card and changes nothing |
| CanvasSafety.ApplyKeeps | apps/web/lib/canvas-node-placement.ts:120-375 | every step of placements, deletions and orderly reports keeps the board invariant and what every transaction knows |
| CanvasSafety.TxStable | apps/web/lib/canvas-node-placement.ts:122-123 | what a placement or delete read survives any step of anyone else while the job lock is held |
| CanvasRaces.UndisturbedPlacement | apps/web/lib/canvas-node-placement.ts:120-344 | the four steps of an undisturbed placement do what the call does |
| CanvasRaces.UndisturbedDeletion | apps/web/lib/canvas-node-placement.ts:347-375 | the three steps of an undisturbed delete do what the call does |
| CanvasRaces.ReportRevivesDeletedOutput | apps/web/lib/canvas-actions.ts:378-388 | a concrete schedule from the empty board: a stale report puts a deleted output back on a waiting card |
| CanvasRaces.PlacementRepointsAfterReport | apps/web/lib/canvas-node-placement.ts:266-298 | a concrete schedule from the empty board: a placement re-points an output that a report bound after its read |
| CanvasRaces.LostDeleteLeavesJobOpen | apps/web/lib/canvas-node-placement.ts:353-373 | a concrete schedule from the empty board: a delete that lost the race leaves the job's other outputs open |
| TaskLedger.MergeByTask | apps/web/lib/account-actions.ts:68-113 | the loops return one entry per task in order of its newest row, with the net of its rows |
| TaskLedger.RecentTaskLedgerRows | apps/web/lib/account-actions.ts:129-166 | the loop with its early exit, and the re-fetch, return the two-pass read |
| TaskLedger.TwoPassIsExact | apps/web/lib/account-actions.ts:117-128 | with at most four rows a task, the read shows exactly the most recent tasks of the whole ledger, each with all its rows |
| TaskLedger.ReadsRightIffBatchCovers | apps/web/lib/account-actions.ts:129-146 | the read is right exactly when the first batch names as many tasks as there are to show |
| TaskLedger.ExactIffPlainReferences | apps/web/lib/account-actions.ts:148-158 | over all admissible ledgers, exact if and only if no reference looks like a lone row's key |
| TaskLedger.PrefixedReferenceIsLost | apps/web/lib/account-actions.ts:148-158 | what the read assumes of its writers: a reference that did look so would be lost |
| TaskLedger.FirstPassFindsTheTasks | apps/web/lib/account-actions.ts:130-145 | the pigeonhole: four times the limit in rows names that many tasks, or is the whole ledger |
| TaskLedger.MergeConserves | apps/web/lib/account-actions.ts:85-88 | the tasks' nets add up to the rows' |
| LineageTree.AncestorChain | apps/web/lib/canvas-lineage-tree.ts:116-136 | the walk up ends on every board and returns the maximal repeat-free recorded path and the origin |
| LineageTree.ChainIsUnique | apps/web/lib/canvas-lineage-tree.ts:116-136 | there is exactly one such path |
| LineageTree.ChildrenByParent | apps/web/lib/canvas-lineage-tree.ts:140-147 | the map holds exactly the cards recorded as made from each card, in board order |
| LineageDescent.BuildLineageTree | apps/web/lib/canvas-lineage-tree.ts:108-182 | the tree of any board: chain, origin, and the descendants, each once, parent first, siblings in the press's order, at exact depth; and for a card of a batch, every card of its press once, in recorded order; rows are drawn depth first |
| LineageDescent.DownWalk.WalkDown | apps/web/lib/canvas-lineage-tree.ts:148-161 | draws exactly what hangs below the parent, on cyclic boards too |
| LineageOrder.TreeIsUnique | apps/web/lib/canvas-lineage-tree.ts:108-182 | what the tree promises leaves exactly one tree, rows in one order, when the collation tells any two ids apart |
| LineageBatch.ArrangementDoesNotMatter | apps/web/lib/canvas-lineage-tree.ts:163-179 | no arrangement of the board reorders or changes the cards drawn for a press |
| LineageDescent.BelowIffOnItsChain | apps/web/lib/canvas-lineage-tree.ts:138-139 | a card is a descendant exactly when its own recorded chain passes through the focus |
| OrphanSweep.SweepInClosedForm | scripts/tools/purge-deleted-entity-assets.ts:94-107 | the sweep purges exactly the untombstoned assets some listed entity references live, no other entity references live and nothing else holds, each once |
| OrphanSweep.OrderDoesNotMatter | scripts/tools/purge-deleted-entity-assets.ts:216-226 | any order of the entities ends in the same tables and purges the same assets |
| OrphanSweep.SecondSweepIsEmpty | scripts/tools/purge-deleted-entity-assets.ts:16-18 | running the sweep again changes nothing |
| OrphanSweep.Orphans | apps/web/lib/asset-purge.ts:97-146 | the exclusive assets among the candidates, each once |
| OrphanSweep.Tables.PurgeOrphaned | apps/web/lib/asset-purge.ts:72-147 | marks exactly the orphans among the candidates and returns them |
| OrphanSweep.Tables.ProcessEntity | scripts/tools/purge-deleted-entity-assets.ts:94-107 | releases one entity's references, then purges what became orphaned |
| OrphanSweep.Tables.Walk | scripts/tools/purge-deleted-entity-assets.ts:216-226 | the loop over entities is the sweep, report included |
| OrphanSweep.Tables.DryRun | scripts/tools/purge-deleted-entity-assets.ts:140-165 | reports what applying would, and leaves every row as it was |
| AuthWall.WallIsExact | apps/web/lib/auth-wall-ledger.ts:271-318 | for every sound ledger and every address without a line break, the generated text, read as a regular expression, lets the address past exactly when some entry covers it |
| AuthWall.MatcherParses | apps/web/lib/auth-wall-ledger.ts:313-318 | the generated text reads back as the ledger's syntax tree |
| AuthWall.EntryMatches | apps/web/lib/auth-wall-ledger.ts:271-277 | one entry's pattern matches exactly what the entry covers |
| AuthWall.AssertLedgerSound | apps/web/lib/auth-wall-ledger.ts:279-305 | accepts exactly the sound ledgers and otherwise reports the first defect |
| AuthWall.BuildAuthWallMatcher | apps/web/lib/auth-wall-ledger.ts:313-318 | produces a matcher exactly for sound ledgers |
| CallerIdentity.ClientPrefixIsPowerlessIff | apps/web/lib/caller-identity.ts:184-190 | no client-written prefix changes the entry that is read, exactly when the proxies appended at least as many entries as hops |
| CallerIdentity.FoldDependsOnlyOnThe64 | apps/web/lib/caller-identity.ts:165-178 | two spellings fold to the same key exactly when the addresses share their first 64 bits |
| CallerIdentity.FoldIsIdempotent | apps/web/lib/caller-identity.ts:165-178 | folding a key again changes nothing |
| CallerIdentity.FoldSpellsThePrefix | apps/web/lib/caller-identity.ts:176-177 | the key is a spelling of the prefix's own address |
| CallerIdentity.FoldIPv6ToPrefix64 | apps/web/lib/caller-identity.ts:166-178 | the padding loop computes the fold |
| CallerIdentity.DressingComesOff | apps/web/lib/caller-identity.ts:144-157 | brackets, port and zone come off in every combination proxies write |
| CallerIdentity.BareAddress | apps/web/lib/caller-identity.ts:145-157 | the reassignments compute the bare address: no zone is left, a bracket pair is taken off, and an address that wears nothing comes back trimmed |
| CallerIdentity.OneBudgetPer64 | apps/web/lib/caller-identity.ts:206-225 | two IPv6 callers are counted under one key exactly when they share a /64, however their addresses arrive |
| MentionDoc.BuildMentionDoc | apps/web/components/MentionInput.tsx:155-186 | the nested loops build the document of the placed tokens |
| MentionDoc.TokensPartitionText | apps/web/components/MentionInput.tsx:161-181 | chips and text pieces always partition the original text |
| MentionDoc.EachItemChipsAtMostOnce | apps/web/components/MentionInput.tsx:162-181 | each listed item becomes a chip at most once, and nothing else does |
| MentionDoc.RoundTrip | apps/web/components/MentionInput.tsx:130-186 | building and reading back with stored labels gives the trimmed original text |
| MentionDoc.RoundTripIff | apps/web/components/MentionInput.tsx:136-143 | the untrimmed text comes back exactly when chips without an id took nothing |
| MentionDoc.LastChipDecides | apps/web/components/MentionInput.tsx:138-141 | an entity's variant is the one its last chip names; a last chip without one clears it |
| MentionDoc.Reader.Walk | apps/web/components/MentionInput.tsx:134-146 | the tree walk appends a node's text, ids and variant choices to the three accumulators |
| MentionDoc.ResolveDoc | apps/web/components/MentionInput.tsx:130-149 | the reader's whole answer: ids once each, variant choices, trimmed text |

## Left out

- Project hard deletion (apps/web/lib/actions.ts:298-310), which erases job and batch history.
- Text cells, cells the schema refuses, and the clip-anchor wording check: a cell of a campaign is an image or a video that passes the request schema.
- Positional legacy batch keys, except that one makes the history read treat every asked entry as dispatched.
- The project lock and the owner's spend cap inside `startGen`: a charge that either refuses is the step `TxAbort`.
- Canonical JSON, repair records inside video options and key derivation: materials and keys are compared as values.
- Creating a campaign with its first plan: runs start from any sound plan.
- DispatchTheorems.OneNetChargePerEntry: is per project, because the code's identity of a charge is; `DispatchProjects` and `DispatchOnce` say when the same holds over all projects.
- CanvasTheorems.OneCardPerOutput: is over orderly runs; text cards that carry a job id and the settlement writer (packages/db/src/canvas-settlement.ts) are not steps of the model.
- CanvasBoard.Board.Place: leaves out the layout, batch-position, parent and chat-thread columns, and the two thread attribution refusals, which in the step system are the step `Abort`.
- TaskLedger.MergeByTask: leaves out time-zone formatting, and the division by ten into displayed credits.
- LineageDescent.BuildLineageTree: leaves out the display columns of a row (kind label, prompt, A/B letter, position text); a recorded batch size or position is an integer or absent.
- OrphanSweep.Tables.DryRun: leaves out the storage bytes deleted after the commit and the second phase that retries them; the code itself documents that window as not fully closed.
- AuthWall.WallIsExact: reads the text as a plain anchored regular expression; what the framework's route syntax adds around it is not part of this model.
- CallerIdentity.DressingComesOff: the parsing of the `CALLER_IP_SOURCE` variable and the header stamped for the auth library are not modelled; an IPv6 address with a dotted tail is counted as the IPv4 it carries.
- MentionDoc.BuildMentionDoc: name lookup with Unicode word boundaries is an arbitrary in-bounds locator.
- Admin read models, charts, seeds, sessions, payment provider code and all interface text.
