# Bulk e-mail verification backend: a verified model

This project models the credit-charging core of the e-mail verification backend and proves properties of it in Dafny 4.11.
`dafny verify dfyconfig.toml` checks everything.

## What is modelled

**The bulk job protocol** (`JobState` to `JobStore`). A list is accepted and charged, shuffled and cut into chunks, partly
answered from the cache and from domain policies, and otherwise probed by workers that report batches at least once. It can be
paused, resumed, reclaimed from dead workers, failed, refunded, retried, reconciled and deleted.

* `JobState` gives the state (job row, task rows, result rows, worker queue, enqueue in progress, owner's credits and ledger) and
  one function per committed transaction. `Event`, `Legal` and `Step` make it a state machine; `Run` is any finite sequence of steps.
* `JobInvariant` and `JobSteps` hold the invariant and the proof that every legal step keeps it. `JobHistory`, `JobDelivery`,
  `JobOutcome` and `JobBilling` derive the results over whole runs. `JobReconcile` adds reconciliation at any moment. `JobRaces`
  gives the exact conditions for what `Legal` assumes, and `JobWitness` runs on two addresses that reach the failing sides.
* `JobStore` is the same protocol as running code: a class whose methods update its fields in place, with the loops of the services,
  each proved to make exactly the step of the state machine. `Payloads` cleans the results of a batch report. `JobAnswers` and
  `JobEffects` say what the steps come to field by field, without the step functions: which row an address gets, who pays what.

**What feeds it.** `BulkQueue` (de-duplication, round-robin shuffle, greedy chunks), `DomainIntel` (policy lookup), `Mailbox`,
`Verdicts`, `Text`, and `SourceCopy` (the Redis copy of a list).

**What stands beside it.** `SmtpProbe` (reply classification and the MX loop), `Accounts` (credits, transactions, transfers and the
life of a purchase), and three protocols over Redis in which every command is a step and the steps of different callers interleave
freely: `RedisCounters` (daily quota, prepare slots), `PrepareLock` (token lock with expiry) and `TransferKey` (idempotency key).

`Legal` is what a step may rely on: user commands, prepare attempts and the giving up of a preparation do not overlap the enqueue of
the job; a worker reports pairwise distinct addresses of a payload it was sent; cache rows are stored under their own address; a
write that fails on resume is the first one; reconciliation is asked for a job that is finished, gone or has tasks. A process may
crash in the middle of any enqueue. For each assumption a lemma says exactly when breaking it does harm: `LateHitsIff`,
`OverlappingPrepareIff`, `DeletedInFlightIff`, `GivenUpInFlightIff` and `RevivedIff` (a resume, a second preparation, a deletion, the
giving up of a preparation during an enqueue), `DistinctKeptIff` and `ForeignAddressIff` (repeated and foreign addresses in a batch),
`ForeignHitIff` (cache rows about other addresses), `DropWithoutRecountIff`, and for reconciliation `ReconcileIdentityIff` and the
whole of `JobReconcile`, whose runs do without that assumption.

Where code and documentation differ the model follows the code:

* `fraud_guard.go` says rejected requests are counted back "so counters reflect actual consumed quota"; a rejected request keeps its
  unit of the counter that was within its limit (`LeakIff`, `FreshAddressUsedUp`).
* `docs/BULK_UPLOAD_PIPELINE.md` says a job stays `preparing` until every chunk is queued, so that a crash is retried; the first new
  rows of a report end it (`ReportEndsPreparing`). A crash is repaired by preparing again exactly while the job is still preparing
  (`CrashRepairedIff`); otherwise what was still to be queued is never answered until the job is resumed or deleted
  (`StrandedForGood`).
* A full refund on record suppresses the later refund of unknown results of a retried job (`UnknownPaidBackIff`), and deleting a
  partly retried job while it is paused pays back more than its last charge left unused (`DeletePausedIff`).

## Model

| member | source | states |
|---|---|---|
| Text.NormalizeIdempotent | backend/internal/pipeline/bulk.go:50-51 | trimming and lower-casing twice is doing it once, so a canonical address stays canonical |
| Text.LowerLetters | backend/internal/pipeline/bulk.go:50-51 | every capital letter becomes its small letter and every other character stays, letter by letter of the alphabet |
| Text.TrimMeans | backend/internal/pipeline/bulk.go:50-51 | trimming takes away the blanks at both ends and nothing else |
| Text.NormalizeMeans | backend/internal/pipeline/bulk.go:50-51 | the canonical form is the text without surrounding blanks, character by character in small letters, and there is only one |
| Text.SplitJoin | backend/internal/pipeline/domain_intel.go:19-24 | splitting a joined list of labels at the dot gives the labels back |
| Mailbox.ValidSyntaxDomain | backend/internal/helper/mailbox.go:8-45 | an address that passes the syntax gate has a canonical domain of at least two labels |
| Mailbox.SyntaxIff | backend/internal/helper/mailbox.go:8-54 | an address passes the gate exactly when its canonical form is a well-formed local part and domain around one @, given by length, allowed characters, dots and the last label |
| Mailbox.DomainAfterAt | backend/internal/pipeline/bulk.go:64-70 | the domain of an address is what follows its last @ |
| BulkQueue.NormalizeAndDedup | backend/internal/pipeline/bulk.go:46-61 | the result holds exactly the non-empty addresses without surrounding blanks and in small letters, each once, in order of first appearance |
| BulkQueue.DedupedContents | backend/internal/pipeline/bulk.go:46-61 | the result holds exactly the non-empty canonical forms of the input, each once |
| BulkQueue.DedupedOrder | backend/internal/pipeline/bulk.go:46-61 | order of first appearance: a longer input only appends |
| BulkQueue.DedupedIdempotent | backend/internal/pipeline/bulk.go:46-61 | de-duplicating twice is de-duplicating once |
| BulkQueue.GroupByDomain | backend/internal/pipeline/bulk.go:73-88 | each bucket holds its domain's addresses in order, and `order` lists each bucket once |
| BulkQueue.AdaptiveShuffle | backend/internal/pipeline/bulk.go:92-131 | for every outcome of the random shuffles: a permutation of the input, and in every prefix a domain with mail left has been served at least any other domain's count less one; the no-progress break is dead |
| BulkQueue.DynamicTargetSize | backend/internal/pipeline/bulk.go:189-223 | the look-ahead loop computes the target size of its window |
| BulkQueue.TargetSize | backend/internal/pipeline/bulk.go:189-223 | a target never exceeds the base size, and reaches the minimum size when the base allows it |
| BulkQueue.WindowTiers | backend/internal/pipeline/bulk.go:206-222 | two domains or fewer give a quarter of the base size, ten or fewer or a half of free addresses give half of it, any other window the whole, then the minimum applies and the base again |
| BulkQueue.Fallbacks | backend/internal/pipeline/bulk.go:144-158 | a configuration with non-positive fields falls back to 1000, 50 and 50 |
| BulkQueue.ServedIs | backend/internal/pipeline/bulk.go:164-178 | what counts against the cap of a domain is the number of positions with an address of that domain |
| BulkQueue.DefaultPrepareConfig | backend/internal/pipeline/bulk.go:27-43 | the production configuration: the base raised to 50, a tenth of it per domain held between 25 and 100, minimum 50 |
| BulkQueue.BuildDynamicChunks | backend/internal/pipeline/bulk.go:144-186 | chunks are non-empty, consecutive, cover the list, respect target and per-domain cap, and none could be longer; both forced advances are dead |
| BulkQueue.GreedyTilingUnique | backend/internal/pipeline/bulk.go:144-186 | there is only one such chunking, so the loop's contract determines its result |
| BulkQueue.ChunkAtLeast25 | backend/internal/pipeline/bulk.go:27-43 | under the production configuration every chunk but the last has at least 25 addresses |
| BulkQueue.ChunkCount | backend/internal/pipeline/bulk.go:144-186 | so there are at most n/25 chunks, rounded up, each within base size and 100 per domain |
| BulkQueue.PrepareQueue | backend/internal/pipeline/bulk.go:227-231 | the prepared list is a fair permutation with a greedy chunking |
| DomainIntel.LookupDomainPolicy | backend/internal/pipeline/domain_intel.go:14-30 | the loop returns the policy of the walk over parent domains, or empty |
| DomainIntel.WalkIsFirst | backend/internal/pipeline/domain_intel.go:20-28 | the walk finds the most specific parent that has a policy, and nothing only if none has |
| DomainIntel.UniqueDomains | backend/internal/pipeline/domain_intel.go:97-122 | the list contains every domain, is closed under parents of two or more labels, holds nothing else and nothing twice |
| DomainIntel.LoadDomainPolicyMap | backend/internal/service/job_service.go:1369-1396 | loading in batches of 500, rows in any order, stores every active row of the list under its lower-cased domain and nothing else |
| DomainIntel.FoldedLower | backend/internal/service/job_service.go:1391-1393 | for a list in lower case that is exactly the active rows of the list |
| DomainIntel.WalkAgrees | backend/internal/pipeline/domain_intel.go:14-30 | on a closed list the restricted map and the whole table give the same walk |
| DomainIntel.QueuedPolicyAgrees | backend/internal/service/job_service.go:983-984 | every queued address is decided by the map loaded once as by the whole table |
| DomainIntel.CheckDomainPolicy | backend/internal/repo/worker_repo.go:162-195 | the per-candidate queries find the first match of the same walk over the whole table |
| DomainIntel.FlagsMean | backend/internal/repo/worker_repo.go:162-195 | the flags are those of the most specific active row among the domain and its parents, as texts, and none if there is no such row |
| DomainIntel.PolicyMeans | backend/internal/pipeline/domain_intel.go:14-30 | the batch lookup gives the kind of that same row |
| DomainIntel.NormalizeDomainType | backend/internal/service/domain_service.go:52-61 | only the four allowed kinds are ever stored |
| DomainIntel.KindSpellings | backend/internal/service/domain_service.go:52-61 | which spelling is stored as which kind, and which are refused |
| DomainIntel.ReadersAgree | backend/internal/repo/worker_repo.go:181-191 | on every table the service can store, the batch reader settles an address exactly when the per-row reader flags it, with the same flags and the verdict its override gives |
| Verdicts.NormalizeStored | backend/internal/helper/status.go:7-23 | normalising a stored status gives it back |
| Verdicts.StatusSpellings | backend/internal/helper/status.go:7-23 | which spellings give which verdict |
| Verdicts.Promotion | backend/internal/helper/status.go:28-34 | a full mailbox turns unknown into valid and leaves every other verdict alone |
| Verdicts.ScoreForStatus | backend/internal/helper/status.go:37-50 | scores lie between 0 and 100, and 100 is exactly valid |
| SourceCopy.JoinLines | backend/internal/service/prepare_lock.go:111-126 | the loop joins the list with newlines |
| SourceCopy.SplitNonEmptyLines | backend/internal/service/prepare_lock.go:147-164 | the scanning loop returns the non-empty lines without carriage returns |
| SourceCopy.CopyRoundTrip | backend/internal/service/prepare_lock.go:111-138 | a list of one-line addresses comes back from its Redis copy unchanged |
| SourceCopy.LinesMean | backend/internal/service/prepare_lock.go:147-164 | the lines of a text come one after the other, each on its own |
| SourceCopy.LineMeans | backend/internal/service/prepare_lock.go:147-164 | a line loses one carriage return at its end, and is dropped if nothing is left |
| Payloads.Clean | backend/internal/service/worker_service.go:425-486 | a cleaned result has its canonical address and stands for the row the policy override, the normalisation and the promotion decide |
| Payloads.RowFacts | backend/internal/service/worker_service.go:425-659 | a stored answer is canonical, a blocking policy overrides the worker, a full mailbox is never unknown, and nothing uncertain is marked deliverable |
| Payloads.RowMeans | backend/internal/service/worker_service.go:425-659 | the one row a reported result stands for: policy, then full mailbox, then the worker's status; every flag that was sent, the default of the verdict for every other; deliverable only when certain |
| JobRows.RecountConcat | backend/internal/service/job_service.go:1105-1125 | counting in increments agrees with the aggregate query |
| JobRows.RecountMeans | backend/internal/service/job_service.go:1105-1125 | each of the six counters is the number of rows with its property |
| JobRows.FreshFacts | backend/internal/service/worker_service.go:551-566 | the new rows of a batch are its addresses without a stored row, and distinct if the batch is |
| JobRows.HitsAndMisses | backend/internal/service/job_service.go:1399-1422 | classification splits a chunk: every address is either a hit or a miss, none both, hits distinct |
| JobRows.RemainingFacts | backend/internal/service/job_service.go:1793-1811 | requeueing keeps exactly the queued addresses without a row, each once |
| JobInvariant.AcceptedInv | backend/internal/repo/job_repo.go:152-236 | an accepted job satisfies the invariant |
| JobInvariant.ReportInv | backend/internal/service/worker_service.go:504-732 | a batch report keeps the invariant |
| JobSteps.PrepareInv | backend/internal/service/job_service.go:764-889 | preparation keeps the invariant, and puts every address on its way to a worker or a row |
| JobSteps.RequeueInv | backend/internal/service/job_service.go:1754-1877 | resume and retry keep the invariant |
| JobSteps.WriteHitsInv | backend/internal/service/job_service.go:1462-1563 | storing cached answers keeps the invariant |
| JobSteps.RollbackInv | backend/internal/service/job_service.go:1091-1138 | dropping an attempt's rows, recounting, failing and refunding keeps the invariant |
| JobSteps.SendFailsInv | backend/internal/service/job_service.go:988-998 | a failed enqueue refunds or pauses and keeps the invariant |
| JobSteps.ReclaimInv | backend/internal/repo/server_repo.go:105-171 | reclaiming tasks keeps the invariant |
| JobSteps.DeleteInv | backend/internal/service/job_service.go:117-234 | deletion keeps the invariant |
| JobSteps.StepInv | backend/internal/service/job_service.go:764-1904 | every legal step, crashes in mid-enqueue included, keeps counters, rows, task progress, coverage, job status, enqueue and bill consistent |
| JobSteps.RunInv | backend/internal/service/job_service.go:764-1904 | and so does every run |
| JobHistory.PausedListNeverEmpty | backend/internal/service/job_service.go:1783-1824 | over every run the remaining list of a paused job is never empty, is the queued addresses without a row, and requeueing recomputes the processed_count already stored |
| JobSteps.RiskyCheckIdentity | backend/internal/repo/job_repo.go:292-336 | a separate refund check never pays: whatever completion owes has been paid in its own transaction |
| JobSteps.ReconcileIdentityIff | backend/internal/repo/worker_repo.go:50-139 | reconciliation changes nothing exactly when the job is finished, gone or has tasks; a preparing or failed job without tasks is declared completed |
| JobHistory.CountersAgree | backend/internal/service/worker_service.go:563-703 | over every run processed_count is invalid_syntax plus the rows, every counter equals a recount, and each address has at most one row |
| JobHistory.CompletionAgrees | backend/internal/service/worker_service.go:689-720 | over every run pushed_count is the number of rows of the chunk, a task is completed exactly when all are there, the job exactly when all its tasks are |
| JobReconcile.SoundOrHollow | backend/internal/repo/worker_repo.go:50-139 | over every run, reconciliations at any moment included, the job satisfies the invariant or is hollow: declared completed while preparing or failed, with nothing answered |
| JobReconcile.ReconcileSound | backend/internal/repo/worker_repo.go:50-139 | reconciliation makes a job hollow exactly when it is preparing or failed and has no tasks, and otherwise does nothing |
| JobReconcile.HollowStep | backend/internal/repo/worker_repo.go:50-139 | a hollow job stays as it is, with what it is charged, until it is deleted or its submission is taken back |
| JobReconcile.CountersAnyway | backend/internal/service/worker_service.go:563-703 | over those runs, too, every counter equals a recount and each address has at most one row |
| JobReconcile.UnknownRefundAtMostOnce | backend/internal/repo/job_repo.go:292-336 | over every run, whenever the job is reconciled, retried or deleted, unknown results are refunded at most once, credits are never negative, and reconciliation, which pays without a ledger search, never pays at all |
| JobHistory.CompletedIsFinal | backend/internal/service/worker_service.go:516-519 | nothing but deletion touches a completed job, and nothing at all its counters and ledger |
| JobHistory.DeletedStays | backend/internal/service/job_service.go:117-234 | a deleted job never changes again |
| JobHistory.StaleForever | backend/internal/service/worker_service.go:505-539 | once a task is replaced, finished or broken, every later report for it changes nothing |
| JobHistory.ReplacedTasksInert | backend/internal/service/job_service.go:836-844 | after a prepare retry, resume or retry that starts, every report with an earlier task id is inert for good |
| JobHistory.InertReport | backend/internal/service/worker_service.go:505-539 | a report for a stale task, or to a failed, cancelled, completed or deleted job, leaves the whole state unchanged |
| JobHistory.ReclaimReleases | backend/internal/service/server_service.go:133-184 | after a reclaim no dead server holds a running task, progress is kept, nothing else moves, and the job goes to pending exactly when it was processing and lost a task |
| JobHistory.PausedSticks | backend/internal/jobcontrol/pause.go:42-44 | whatever still arrives, a paused job stays paused until its last answer is in, or its enqueue fails with a refund |
| JobDelivery.NoAddressLost | backend/internal/service/job_service.go:1754-1877 | the addresses to answer are those with a row and those in a current task, and no two tasks share one |
| JobDelivery.DeliveryStepIff | backend/internal/service/job_service.go:1026-1051 | a legal step keeps every unanswered address with a worker, or still to be sent or written, exactly unless it is a crash of a job that waits for its workers with something still to be queued, or the first new rows overtaking the repeated preparation of a crashed job |
| JobDelivery.RunDelivery | backend/internal/service/job_service.go:1026-1051 | and so over every run without those steps, crashes that preparation repairs included |
| JobDelivery.QueuedForWorkers | backend/internal/service/job_service.go:1026-1051 | so once nothing is being enqueued, each unanswered address of an unpaused job has been sent to a worker |
| JobDelivery.CrashRepairedIff | backend/internal/service/job_service.go:764-784 | after a crash with something still to be queued, preparing again puts everything back on its way exactly when the job is still preparing |
| JobDelivery.StrandsSome | backend/internal/jobcontrol/pause.go:42-44 | each of the two losing steps leaves an address without row, payload or anyone to send it |
| JobDelivery.StrandedForGood | backend/internal/service/job_service.go:1731-1741 | such an address is never answered and its job never completes, over every run without resume and deletion |
| JobDelivery.ReportEndsPreparing | backend/internal/jobcontrol/pause.go:42-44 | a report ends `preparing` exactly when it brings new rows, and preparing again then does nothing |
| JobOutcome.FinishedAs | backend/internal/service/worker_service.go:563-703 | a completed job has exactly the rows and the record that the list and the answers determine |
| JobOutcome.OutcomeOfRun | backend/internal/service/worker_service.go:504-732 | so every run that ends completed, with any pauses, resumes, reclaims, failures and retries in between, ends with the same rows and record |
| JobOutcome.ReportLands | backend/internal/service/worker_service.go:504-732 | a report for a current task leaves a row under every address it carries and no others |
| JobOutcome.DeliveringRun | backend/internal/service/worker_service.go:504-732 | over any schedule the addresses with a row are those there before and those delivered |
| JobOutcome.DeliveryDoesNotMatter | backend/internal/service/worker_service.go:504-732 | any two schedules of cached answers and reports (reordered, split, repeated, with pauses between) that deliver every address end with the same rows, counters, tasks, status, ledger and balance |
| JobOutcome.AllReportedCompletes | backend/internal/service/worker_service.go:504-732 | from a quiet, unpaused state that nothing was stranded on the way to, reporting every sent payload at least once, in whatever order and pieces, completes the job with a row under every address |
| JobOutcome.OneReportEachCompletes | backend/internal/service/worker_service.go:504-732 | and such a run always exists: one report for each payload is legal and completes the job |
| JobBilling.BalanceStep | backend/internal/repo/job_repo.go:238-266 | no step of the job moves the owner's balance without its ledger entry, or the other way round |
| JobBilling.CostIsNet | backend/internal/repo/job_repo.go:170-194 | over every run the balance has paid what the ledger says |
| JobBilling.BillingExact | backend/internal/repo/job_repo.go:170-194 | a job never retried has taken the whole list while active, nothing once failed, and one credit per known answer once completed |
| JobBilling.CostExact | backend/internal/repo/job_repo.go:170-194 | and the same of the owner's balance |
| JobBilling.DeleteClampsDead | backend/internal/service/job_service.go:162-177 | the clamps of the deletion refund are never reached: it is the charge less the known answers, and positive |
| JobBilling.DeletePausedExact | backend/internal/service/job_service.go:138-205 | deleting a never-retried paused job leaves one credit per known answer taken, for good |
| JobBilling.DeletePausedCost | backend/internal/service/job_service.go:138-205 | and the owner's balance has paid just that, whatever follows |
| JobBilling.DeletePausedIff | backend/internal/service/job_service.go:162-177 | after retries that holds exactly when the last charge covered the whole list |
| JobBilling.RetriedCompletedIff | backend/internal/service/job_service.go:1820-1852 | a retried job that completes costs its last charge, which is one credit per known answer exactly when as many answers preceded the retry as are unknown |
| JobBilling.UnknownPaidBackIff | backend/internal/repo/job_repo.go:299-311 | a completed job's unknown answers are paid back exactly when no full refund is on record |
| JobBilling.SamePriceSameOutcome | backend/internal/service/job_service.go:1731-1741 | from acceptance on, whatever the delivery order, repetition, pauses, resumes and reclaims, the same list with the same answers completes with the same rows and record at the same cost to the balance |
| JobRaces.AnyBatchCounts | backend/internal/service/worker_service.go:563-703 | whatever a batch contains, the counters equal a recount of the rows it leaves |
| JobRaces.DistinctKeptIff | backend/internal/service/worker_service.go:551-566 | a batch leaves one row per address exactly when its new addresses are distinct |
| JobRaces.LateHitsIff | backend/internal/service/job_service.go:1530-1550 | if a resume overtakes an enqueue, its late cache writes keep task progress right exactly when there are none |
| JobRaces.OverlappingPrepareIff | backend/internal/service/job_service.go:836-844 | the same of a second preparation that overlaps an enqueue |
| JobRaces.ForeignAddressIff | backend/internal/service/worker_service.go:551-720 | an accepted batch of distinct addresses keeps rows and task progress right exactly when its new addresses belong to the reported task |
| JobRaces.ForeignHitIff | backend/internal/service/job_service.go:1462-1563 | cached answers do so exactly when they are about addresses of their own task |
| JobRaces.DropWithoutRecountIff | backend/internal/service/job_service.go:1066-1080 | the resume failure branch keeps the counters right exactly when nothing had been written |
| JobRaces.DeletedInFlightIff | backend/internal/service/job_service.go:138-205 | a never-retried job deleted in mid-enqueue, whose enqueue goes on and later fails in either phase, is billed for its known answers exactly when the enqueue was a resume; otherwise it is refunded twice |
| JobRaces.GivenUpInFlightIff | backend/internal/service/prepare_worker.go:77-88 | when the retries of a preparation run out while an attempt is still enqueueing, and that attempt fails, the refunds add up to the charge exactly when the job was no longer preparing |
| JobRaces.GivenUpTwiceRefunded | backend/internal/service/prepare_worker.go:133-144 | however far that attempt gets before it fails, the whole charge is paid back twice |
| JobRaces.RevivedIff | backend/internal/service/prepare_worker.go:133-144 | a cached answer the attempt still writes revives the refunded job: it stays failed exactly when there is nothing to write |
| JobWitness.CrashStrands | backend/internal/service/job_service.go:764-784 | a run in which a crash after the first report strands the second address |
| JobWitness.CrashRepaired | backend/internal/service/job_service.go:836-844 | a run in which the crash before it is repaired by preparing again |
| JobWitness.OvertakenReportStrands | backend/internal/jobcontrol/pause.go:42-44 | a run in which a report overtakes the repeated preparation |
| JobWitness.ReportEndsPreparingEarly | backend/internal/jobcontrol/pause.go:42-44 | a run in which the first report ends `preparing` with a chunk still to be queued |
| JobWitness.ReconciledTooEarly | backend/internal/repo/worker_repo.go:50-139 | a preparing job that reconciliation declares completed |
| JobWitness.DeletedRetryOverpaid | backend/internal/service/job_service.go:162-177 | two chunks, one reported, the second send fails, retry, pause, delete: the known answer is not paid for |
| JobWitness.UnknownNotPaidBack | backend/internal/repo/job_repo.go:299-311 | a retried job that completes with an unknown answer it is not paid back |
| JobWitness.RetriedHalfPrice | backend/internal/service/job_service.go:1820-1852 | a retried job that completes at the price of its second half |
| JobWitness.DeletedInFlightTwiceRefunded | backend/internal/service/job_service.go:138-205 | a half-sent job, reported, paused, deleted, its second send failing: refunded twice |
| JobWitness.LateHit | backend/internal/service/job_service.go:1530-1550 | a resume that overtakes the write of a cached answer |
| JobWitness.OverlappedWrite | backend/internal/service/job_service.go:836-844 | a second preparation that overlaps the write of a cached answer |
| JobWitness.GivenUpInFlight | backend/internal/service/prepare_worker.go:133-144 | a preparation given up in mid-enqueue, revived by a cached answer and refunded again by a failing send |
| JobWitness.ForeignAnswers | backend/internal/service/worker_service.go:551-720 | another task's answer, reported or cached, spoils rows or progress |
| JobWitness.RepeatedAnswer | backend/internal/service/worker_service.go:551-566 | an address repeated in one batch gets two rows |
| JobWitness.RowDroppedCounterKept | backend/internal/service/job_service.go:1066-1080 | a resume whose first cached answer is written and second fails: the counters keep the dropped row |
| JobStore.Store.SubmitBulkJob | backend/internal/service/job_service.go:576-737 | each refusal has its one cause, in the order of the checks; an accepted list is charged one credit per valid address |
| JobStore.Store.CreateBulkJob | backend/internal/repo/job_repo.go:152-236 | creates the charged job row |
| JobStore.Store.ProcessCacheHits | backend/internal/service/job_service.go:1462-1563 | makes the step `PersistHits`, counting increments hit by hit |
| JobStore.Store.ReportTaskResults | backend/internal/service/worker_service.go:396-732 | each refusal has its one cause and changes nothing; a report for a current task adds the rows its new results stand for, counts them, pushes and claims the task, and settles a completed job; any other report is ignored |
| JobStore.Store.PrepareBulkJob | backend/internal/service/job_service.go:764-889 | a preparing job is cut into tasks over exactly its valid addresses; cached addresses are planned with their cache row, blocked ones with the answer of their domain's policy, and every other one is to be sent; any other job is left alone |
| JobStore.Store.RequeueRemainingWork | backend/internal/service/job_service.go:1756-1871 | exactly the valid addresses without a row are queued and planned that way, a retry is charged one credit for each, and a job it is not meant for or that cannot pay is left alone |
| JobStore.Store.StartEnqueue | backend/internal/service/job_service.go:1000-1024 | replaces the tasks and plans every chunk before anything is sent or written |
| JobStore.Store.WriteCacheHits | backend/internal/service/job_service.go:1053-1087 | the cached answers of the next chunk become rows, are counted and pushed, and settle a completed job |
| JobStore.Store.FailCacheHits | backend/internal/service/job_service.go:1059-1082 | makes the step `FailWrite` |
| JobStore.Store.RollbackPrepareHitEmails | backend/internal/service/job_service.go:1091-1138 | drops exactly the rows of the attempt, 500 addresses at a time, counts the rest, and refunds |
| JobStore.Store.PauseJob | backend/internal/service/job_service.go:1681-1729 | stops a pending or processing job, and succeeds exactly then |
| JobStore.Store.DeleteJob | backend/internal/service/job_service.go:117-234 | a paused job gets back its price less one credit per known answer, a finished one nothing, and other statuses are refused |
| JobStore.RemainingEmails | backend/internal/service/job_service.go:1793-1811 | the loop computes the remaining list |
| JobStore.ClassifyChunkEmails | backend/internal/service/job_service.go:1399-1422 | the loop computes the hits and misses of a chunk |
| JobAnswers.KnownMeans | backend/internal/service/job_service.go:1399-1422 | what is known about an address without SMTP is its cache row, else the row of the blocking policy of its domain |
| JobAnswers.EnqueueAnswers | backend/internal/service/job_service.go:1399-1422 | the plans of an enqueue answer and send exactly that, chunk by chunk and in order |
| JobAnswers.ReportedRows | backend/internal/service/worker_service.go:551-659 | the rows a report adds are those its results stand for, of addresses without a row, in their order |
| JobEffects.AlwaysInOrder | backend/internal/service/job_service.go:764-1904 | what these contracts assume of the stored list holds in every state that satisfies the invariant |
| JobEffects.SendMeans | backend/internal/service/job_service.go:1026-1051 | the misses of a chunk reach the worker queue under its task |
| JobEffects.FinishMeans | backend/internal/service/job_service.go:862-871 | the end of an enqueue turns a job that was being prepared into a pending one and touches nothing else |
| JobEffects.GiveUpMeans | backend/internal/service/job_service.go:961-998 | a preparation given up pays back one credit per valid address, a failed enqueue what it queued, and a failed resume pauses the job |
| JobEffects.ReconcileMeans | backend/internal/repo/worker_repo.go:50-139 | from any state: work left is left alone, short chunks are queued again, else the tasks decide the status and unknown results are paid |
| JobStore.TickRecount | backend/internal/service/job_service.go:1474-1500 | the switch and the flag tests count what the aggregate query counts |
| JobStore.FreshAgainst | backend/internal/service/worker_service.go:551-558 | looking up only the reported addresses finds the same new rows as looking at every stored row |
| SmtpProbe.SMTPReplyCode | backend/internal/helper/smtp_classify.go:22-47 | the digit loop returns the code of the error or of its text, or 0 |
| SmtpProbe.CodeMeans | backend/internal/helper/smtp_classify.go:22-47 | the code is 250 for success, that of a protocol error in range, else the number in range that the first three digits of the text spell |
| SmtpProbe.Severity | backend/internal/helper/smtp_classify.go:51-96 | only a permanent reply rejects a recipient or proves a server selective; temporary, protocol and unreadable replies never do (section 4.2.1 of RFC 5321) |
| SmtpProbe.TargetMeans | backend/internal/helper/smtp_classify.go:73-101 | a recipient is refused for good exactly by 550, 551, 553, 554, 521 and 556, and a mailbox is full exactly by 552 or the words for it, in any case |
| SmtpProbe.RandomMeans | backend/internal/helper/smtp_classify.go:51-68 | which replies to a random address prove a server selective and which show that it takes all |
| SmtpProbe.VerifyMX | backend/internal/verifier/smtp.go:337-476 | the loop gives the verdict of the first of five hosts that decides, else the fallback; a first host that answers gives rejected, full mailbox, accepted or catch-all exactly by its replies |
| SmtpProbe.HostAnswers | backend/internal/verifier/smtp.go:374-441 | any of the five hosts decides so, as long as no accept before it was inconclusive |
| SmtpProbe.RetryAnswers | backend/internal/verifier/smtp.go:374-441 | and so does the retry of a greylisted host |
| SmtpProbe.Undecisive | backend/internal/verifier/smtp.go:374-441 | an answer that settles nothing leads to the next host and is remembered |
| SmtpProbe.InVain | backend/internal/verifier/smtp.go:443-476 | when no host decides, what was seen gives the reason |
| SmtpProbe.ValidNeedsProof | backend/internal/verifier/smtp.go:374-441 | valid rests on a probe that was accepted where a random address is refused, or on a full mailbox |
| SmtpProbe.NeverInvalidAfterAccept | backend/internal/helper/smtp_classify.go:112-130 | for every sequence of outcomes the verdict is never invalid once any probe, retry included, was an inconclusive accept |
| SmtpProbe.SafeIff | backend/internal/helper/smtp_classify.go:132-135 | valid is exactly safe to send, a full mailbox is valid, the catch-all mark and the score follow the status |
| SmtpProbe.InvalidNeedsReason | backend/internal/verifier/smtp.go:443-458 | invalid rests on a permanent rejection, or on an address record that never answered |
| Accounts.Store.Add | backend/internal/repo/user_repo.go:193-214 | a known user gains the amount and has a completed entry of it |
| Accounts.Store.Take | backend/internal/service/job_service.go:290-312 | a deduction succeeds exactly when the balance covers it, and takes the amount with an entry of it |
| Accounts.Store.AdjustBy | backend/internal/repo/user_repo.go:235-268 | the balance moves by the amount and stops at zero, the entry does not |
| Accounts.Store.TransferTo | backend/internal/service/reseller_service.go:54-187 | every refusal changes nothing and has exactly its one cause, in the order of the checks; success takes the amount from the sender, gives it to the named account, and adds an entry of it to each |
| Accounts.TransferRules | backend/internal/service/reseller_service.go:104-134 | who may receive credits and who may send them |
| Accounts.Store.FulfillPaymentMapping | backend/internal/service/payment_service.go:1051-1097 | completes the first pending or expired row of the key and pays its credits to its owner, exactly when there is one, and changes nothing else |
| Accounts.Store.AbandonPaymentMapping | backend/internal/service/payment_service.go:1139-1152 | marks pending rows of the key, an unknown status as expired |
| Accounts.Store.CancelPayment | backend/internal/service/payment_service.go:622-652 | cancels the user's own pending purchase, and succeeds exactly when the purchase exists |
| Accounts.Store.ExpirePendingPurchases | backend/internal/service/payment_service.go:854-866 | expires stale pending purchases only |
| Accounts.CheckoutMeans | backend/internal/service/payment_service.go:322-345 | a checkout stores a pending purchase and pays nothing yet |
| Accounts.DriftOverRuns | backend/internal/repo/user_repo.go:193-268 | over every run credits stay non-negative, credits less completed entries never decrease, and stay equal exactly when no adjustment of the user was clamped |
| Accounts.TransferKeepsTotal | backend/internal/service/reseller_service.go:137-177 | a transfer keeps the total of any group holding both accounts |
| Accounts.PurchaseLife | backend/internal/service/payment_service.go:1051-1152 | over every order and repetition completed, cancelled and failed are final, expired can only complete, and a purchase completes once if it ends completed and never otherwise |
| Accounts.CompletingPays | backend/internal/service/payment_service.go:1072-1078 | the completing step pays exactly the row's credits to its owner |
| RedisCounters.FraudGuard.CheckRequest | backend/internal/security/fraud_guard.go:107-136 | run alone, a request is allowed exactly when both counters are below the limit, and each counter that was below it grows by one |
| RedisCounters.AloneIsRun | backend/internal/security/fraud_guard.go:107-136 | and leaves the counters its interleaved commands would leave |
| RedisCounters.GrantsWithinLimit | backend/internal/security/fraud_guard.go:107-136 | under every interleaving the requests allowed per address and per cookie stay within the daily limit |
| RedisCounters.QuietCounter | backend/internal/security/fraud_guard.go:107-136 | over every run, with no request in flight a counter is within the limit and equals the requests allowed plus the refused ones never given back |
| RedisCounters.LeakIff | backend/internal/security/fraud_guard.go:130-136 | over every interleaving a refused request keeps its unit of a counter exactly when that counter was within its limit, and never both |
| RedisCounters.FreshAddressUsedUp | backend/internal/security/fraud_guard.go:130-136 | a concrete run in which a fresh address is used up with nothing granted to it |
| RedisCounters.SlotsWithinLimit | backend/internal/service/prepare_lock.go:78-105 | from the empty start, under every interleaving never more slot holders than the limit, and the counter is their number once nobody is between INCR and check |
| RedisCounters.SlotGrantedIff | backend/internal/service/prepare_lock.go:78-105 | a worker gets a slot exactly when fewer than the limit were counted before it |
| PrepareLock.RemovedOnlyByHolderOrClock | backend/internal/service/prepare_lock.go:26-75 | an unexpired entry is removed only by its own token's release or by the clock, and never handed to another token |
| PrepareLock.KeptForItsTerm | backend/internal/service/prepare_lock.go:35-75 | over every interleaving from the unused lock on, a worker keeps the lock for its whole term whatever the others do |
| PrepareLock.Terms | backend/internal/service/prepare_lock.go:35-75 | a lock is taken, and renewed by its holder, for half an hour |
| PrepareLock.LateExpireIff | backend/internal/service/prepare_lock.go:59-64 | a late EXPIRE prolongs another worker's lock exactly when one is stored that was not just renewed, and never removes it |
| PrepareLock.LateExpireProlongs | backend/internal/service/prepare_lock.go:59-64 | a concrete run in which an EXPIRE after the end of its term prolongs the next worker's lock |
| PrepareLock.LateOnlyAfterLoss | backend/internal/service/prepare_lock.go:59-64 | over every interleaving an EXPIRE is late only after its worker's release or the end of its term |
| TransferKey.CommitsBound | backend/internal/service/reseller_service.go:62-91 | under every interleaving commits exceed the lost SETs by at most one, and stop for good once the key says done |
| TransferKey.AtMostOneCommit | backend/internal/service/reseller_service.go:62-91 | while every SET after a commit succeeds at most one transfer is committed, and success or a repeat is reported only then |
| TransferKey.SecondCommitIff | backend/internal/service/reseller_service.go:62-91 | over every run, a call that holds the key commits a second transfer exactly when a SET has failed after an earlier commit |
| TransferKey.CallAfterSuccess | backend/internal/service/reseller_service.go:70-80 | every call after success is on its way to reporting the repeat and nowhere else |
| TransferKey.CallMeans | backend/internal/service/reseller_service.go:62-91 | what each call is told: the first takes the key, a second hears that the transfer was processed or is being |
| TransferKey.FreedOnlyByClaimant | backend/internal/service/reseller_service.go:83-90 | only the claimant ever frees the key |
| TransferKey.FailedAttemptFrees | backend/internal/service/reseller_service.go:83-90 | a failed attempt leaves the key free, whatever ran in between |
| TransferKey.LostSetCommitsTwice | backend/internal/service/reseller_service.go:189-195 | a concrete run in which the SET after a commit fails and a second call commits again |

## Left out

- The single-result endpoint `ReportTaskResult`: it tolerates missing tasks and completed jobs, so the stale-report properties are not claimed for it.
- The resume failure branch after rows were written: it is modelled (`DropHitsAndPause`) but excluded from `Legal`, because it deletes rows without adjusting counters; `DropWithoutRecountIff` says exactly when that is harmless.
- `RedisCounters.SlotsWithinLimit`, `PrepareLock` and `TransferKey`: modelled on values, one step per Redis command, because calls interleave between commands; the in-place update of the keys inside one call is not a class here.
- Redis and database outages and key expiry other than the prepare lock's: an error from Redis is modelled only where the code undoes something (second INCR of the quota, SET after a transfer).
- The Redis pause flag and the purge of queued worker tasks: the model lets every payload ever sent be reported later, so it assumes nothing about either.
- Daily and slot limits that change while requests are in flight: a run has one limit.
- Fraud points, client blocks and usage statistics of the quota guard: they would only add easy members.
- Result columns that no counter, refund or later decision reads (score, reason, MX data, timings).
- The match of refund descriptions by job id: ledger entries are the entries about one job, tagged by kind.
- Text operations are over ASCII characters; Unicode case folding and digits are not modelled.
- `JobStore.Store.SubmitBulkJob`: the submission's idempotency key, the Redis health check and the source file are not modelled; a failure to store the file or to queue the preparation is the step `SubmitFails`.
- The domain reader inside the SMTP verifier and rows of the domains table written past the service: the spelling `spam_trap`, which the service rewrites before storing, would part the two readers (`ReadersAgreeIff`, `ReadersDisagree`).
- `JobStore.Store.RollbackPrepareHitEmails`: taken as one step, although the code commits each batch of deletions and the recount separately.
- `JobStore.Store.ReclaimTasks`: sees the tasks of one job; the code updates the tasks of all jobs at once and resets the job statuses afterwards.
- `JobStore.Store.CreateBulkJob`: the six count columns of the job row are one field.
- `BulkQueue.AdaptiveShuffle`: buckets are sequences that are replaced, not slices shuffled in the caller's memory.
- `Accounts.Store.TransferTo`: the order of row locks is not modelled; addresses are unique, as the table's index makes them.
- A checkout appears with its gateway key already set; the later update that stores the key is not a separate step.
- Prepare locks and slots are not tied to the job protocol: `Legal` assumes what they are for, that one enqueue of a job runs at a time.
- DNS, dialling, TLS and the rate limiter: the MX loop is given the outcome of each session and whether there is time for a retry.
- Single verification beyond its charge and refund, webhooks, broadcasts, result files, settings, user deletion, statistics and the frontend.
