# Verification of the operations assistant's core

A Dafny 4.11 model of the parts of the e-commerce operations assistant that several processes or
requests change at once, with proofs about whole runs. `dafny verify dfyconfig.toml` checks it.

**The generation queue.** Image and video jobs are rows that any number of workers lease, submit to a
provider, poll and finish, while scans time them out or recover their locks and operators cancel or
retry them. Each session block of the worker and of the job service is one atomic function from a job to
an outcome (`JobRows`). `JobWorker` holds the same code as objects whose columns are assigned in place,
each method proved to end as its function says. `JobProtocol` puts jobs, workers and assets into one
state machine: workers may stop at any point, and provider answers, exceptions, scans and operators come
in any order. Its invariant ties what each worker remembers to the row it claimed; `JobTheorems` draws
the guarantees over all runs from it. `JobReplay` reads the event log as an account of the row, and
`JobDecisions` tells what each transaction decides by what can happen to the job next. `JobClock` has the
guarantees that need clock readings which never go back; `JobWitnesses` gives the runs that break what
one might expect, with how far it breaks.

**The stores around it.** `Assets` and `AssetStore`: prepared files get contiguous versions and a re-sync
is idempotent. `CreativePlans`: selected plans, their revision log, and the jobs pinned to a revision.
`Inventory`: a ledger that replays to the row. `PerformanceRecords` and `Performance`: records, rates and
summaries; `Decimals` for their rounding; `PeriodRaces` for concurrent writers at the isolation the
database gives them. `Imports` and `ImportCentre`: how far a preview predicts the confirmation that
follows it; `ImportEffects`: what it leaves in the database. `Backoffice` runs all these writers one
after the other. `Dates` for ISO text.

**Two small algorithms.** `RateLimiter`, the sliding window in front of the text model, and
`InventoryAdvice`, the restock arithmetic.

## What turned out false

- `attempts <= max_attempts`. The requirements ask that retries beyond the limit are refused
  (`电商运营助手-需求分析与任务拆解.md`, line 150). It fails exactly when a submission follows a lock recovery
  that requeued a job with no attempts left (`LimitExceededExactlyWhen`), and only a scan that recovers
  the lock of such a row brings a job there (`RequeuesAtLimitExactlyWhen`). `AttemptsBounded` is the bound
  that remains for any clock readings. When readings never go back the exact bound is in the settings:
  attempts beyond the limit take one lock timeout each, and as many are possible as stay below the job
  timeout (`AttemptsExactly`).
- "A running job is locked, or has an external id to poll." The blocks for submission answers and poll
  errors check the status and not the lock, so a late poll error can free a row that another worker has
  just claimed. `StrandsExactlyWhen` says which steps strand a row and `UnstrandsExactlyWhen` which free it.
- "A row marked valid is imported." Four things written in the file come between
  (`PreviewPredictsConfirm`, and `PreviewInPractice` for every database the services can produce). A value
  that does not fit its column, such as the return on one cent spent and ten thousand earned, raises an
  error that confirmation does not catch: the whole file is rolled back and stays unconfirmed
  (`ValidFileAborts`). An address that grows beyond its bound when it is normalized, and a second product
  name that only the database's collation finds equal to the first, are rejected on their own, and so is a
  count of 2^64 or more, which the JSON column does not give back as an integer.
- "Active periods of a product never overlap." The period check reads the snapshot a transaction took
  before it got the product lock, so two requests that authenticate before either locks can both record
  the same period (`StaleSnapshotOverlaps`). `LockIsSafeExactlyWhen` has the exact condition, and
  `UndisturbedRunsStayDisjoint` the everyday one, for whole runs.
- "An equal inventory version means an equal row." The conventions promise that threshold and location are
  protected by the expected version (`技术方案与开发约定.md`, line 111); an import assigns both without
  raising it. `ImportVersion` has the exact condition for one import, `RunVersion` for any run of requests.
- "At most `limit` calls in any sixty seconds." The limiter reads the clock before it takes its lock, so
  readings can arrive late. `WindowLimitExactly` has the exact width that is still guaranteed.

## Model

| member | source | states |
|---|---|---|
| JobTheorems.SuccessIsFenced | backend/app/workers/generation.py:371-431 | For every run and every next step: if the step turns a job into a success, it is the finishing block of a worker whose claim is the last event of the job, whose last write is the current version, and whose polled external id is the recorded one |
| JobTheorems.LockTestIsCompareAndSwap | backend/app/workers/generation.py:260-261 | In every reachable state, for a worker in the middle of a job, "running and locked by me" holds if and only if nobody has committed to the row since that worker last did, although several blocks never look at the lock |
| JobTheorems.RowUnchangedSinceClaim | backend/app/workers/generation.py:147-172 | Between a poll claim and the success it leads to, under any interleaving, the row did not change at all |
| JobTheorems.AttemptsBounded | backend/app/workers/generation.py:267-278 | In every reachable state attempts equals the number of `provider.submitting` events and is at most `max_attempts` plus the number of lock recoveries that requeued the job with no attempts left, hence at most `max_attempts` when there was none |
| JobClock.AttemptsWithinTimeouts | backend/app/workers/generation.py:59-107 | The bound in the settings alone: in every run whose clock readings never go back, the attempts beyond `max_attempts`, each taken for one lock timeout, stay below the job timeout; with 120 and 900 seconds at most seven more |
| JobClock.RunKeepsTimes | backend/app/workers/generation.py:125-172 | Along such a run every job started at least one lock timeout ago for each recovery with no attempts left, and any lock it holds was taken that long after the start |
| JobTheorems.LimitExceededExactlyWhen | backend/app/workers/generation.py:98-107 | In every reachable state attempts exceeds `max_attempts` if and only if some submission follows a lock recovery that requeued the job when it had made `max_attempts` attempts already |
| JobClock.RequeuesAtLimitExactlyWhen | backend/app/workers/generation.py:85-107 | A step adds one to the requeues of a job with no attempts left if and only if it is a scan that recovers an expired lock of a row without external id and without attempts left; every other step leaves the number as it is |
| JobRows.PastLimitMeans | backend/app/workers/generation.py:98-107 | The recursive reading of the log agrees with the two positions in it, the recovery and the later submission |
| JobWitnesses.AttemptsCanExceedLimit | backend/app/workers/generation.py:99-107 | For every limit and every number k of recoveries whose lock timeouts together stay below the job timeout, a run whose clock readings never go back reaches exactly limit + k attempts with k requeues |
| JobWitnesses.AttemptsExactly | backend/app/workers/generation.py:59-107 | Over all runs whose clock readings never go back, a job can come to n attempts if and only if n is within the limit or the attempts beyond it, one lock timeout each, take less than the job timeout |
| JobDecisions.RetryResumes | backend/app/services/generation_jobs.py:432-479 | In every reachable state, for every accepted manual retry, and whatever runs elsewhere: the worker that takes the job next, if nothing has written it before that worker begins, polls task e if and only if the job had timed out with e recorded; otherwise it submits anew, with one more attempt and no task |
| JobDecisions.RetryDecides | backend/app/services/generation_jobs.py:423-479 | A retry is accepted if and only if it names the version of a failed or timed-out job with attempts left; then the job is due at once, clean of error, result and times, and keeps its task exactly after a timeout; any other retry changes nothing |
| JobDecisions.NextWorker | backend/app/workers/generation.py:256-278 | A worker that claims a job and finds it unwritten polls the recorded task, or submits and counts an attempt when there is none |
| JobDecisions.AnswerDecides | backend/app/workers/generation.py:196-369 | What each answer of a provider, or an exception, makes of a running row: from when on it can be claimed, whether it still has its task, its error, and when it is over; after a submission error the wait is two to the power of the attempts, at most sixty seconds, and the job ends if and only if the error is final or no attempt is left |
| JobDecisions.FinishDecides | backend/app/workers/generation.py:371-439 | The same for the last block: nothing unless the worker holds the row, nothing when the assets are refused, and else a later poll, a failure, another submission, or success with the polled result |
| JobDecisions.PollReachesTheRow | backend/app/workers/generation.py:325-439 | What a poll returned is what the row is finished with, if nobody writes it before the worker does |
| JobDecisions.ScanDecides | backend/app/workers/generation.py:52-123 | A scan ends a job if and only if it has run for the job timeout, and otherwise hands it back, due at once and with its task, if and only if its lock is as old as the lock timeout |
| JobDecisions.ClaimDecides | backend/app/workers/generation.py:125-172 | A claim takes a job if and only if it is waiting or polled, due, and under no running lease; nobody can claim it again before its own lease is over |
| JobDecisions.CancelDecides | backend/app/services/generation_jobs.py:364-404 | A cancel is accepted if and only if it names the version of an unfinished job, which nobody can claim any more |
| JobDecisions.CreateDecides | backend/app/services/generation_jobs.py:218-260 | A created job waits, due at once, without attempts or task |
| JobReplay.RowIsItsLog | backend/app/services/generation_jobs.py:53-88 | In every reachable state a job is what its events add up to: status, lock, task, provider, attempts, progress, error, canceller, length of the result and version follow from one meaning for each event, and the numbers the events carry are right |
| JobReplay.StepWrites | backend/app/workers/generation.py:52-464 | Each step that writes a row stamps heartbeat, first start, end and cancellation with its own time, and keeps row and log in agreement |
| JobTheorems.OpenJobAfterScan | backend/app/workers/generation.py:52-146 | After any scan of any reachable state, with whatever rows skipped, an unfinished job has just timed out, or can be claimed if and only if its lease is over and the scan recovered its lock or it is due with something to claim; where neither select skipped it, if and only if it is not stranded, its lease is over, and it was locked or is due |
| JobInvariants.ClaimableAfterScan | backend/app/workers/generation.py:52-146 | The same for one job that satisfies the job invariant |
| JobInvariants.BackoffGrows | backend/app/workers/generation.py:214 | Waiting times before automatic attempts never shrink and are one minute exactly from the sixth attempt on |
| JobTheorems.VersionsIdentifyRows | backend/app/services/generation_jobs.py:70-88 | Along any run a job's pinned order is constant, its log only grows, its version never falls, and an equal version means the identical row |
| JobTheorems.OperatorActsOnWhatItSaw | backend/app/services/generation_jobs.py:354-361 | A cancel or retry whose expected version matches acts on exactly the row the operator saw, whatever ran in between |
| JobTheorems.ReachableJob | backend/app/services/generation_jobs.py:53-88 | In every reachable state the column invariant holds, the version equals the number of events other than `assets.synced`, and the logged moves form a permitted path that ends in the row's status |
| JobTheorems.AssetsIffSucceeded | backend/app/workers/generation.py:397-431 | In every reachable state a job has asset rows if and only if it succeeded, and then for exactly the indices 0..n-1 of its result, in order |
| JobTheorems.CancelIsFinal | backend/app/services/generation_jobs.py:384-404 | After a committed cancel no later action, from whatever worker still in flight, writes the row or creates an asset for the job |
| JobTheorems.SettledForGood | backend/app/services/generation_jobs.py:21-29 | A succeeded or cancelled row is never written again in any run |
| JobTheorems.AssetVersionsContiguous | backend/app/services/assets.py:139-147 | Over any mix of worker successes and manual syncs, the versions of a (plan, type) are exactly 1..n, each once |
| JobTheorems.RunKeepsAssets | backend/app/services/assets.py:151-187 | No run removes an asset row or changes its plan, type, version or checksum |
| JobTheorems.SyncCreatesNothing | backend/app/services/assets.py:451-466 | A manual sync of a reachable job creates no row, changes no version and records no event |
| JobTheorems.SyncAcceptsWhatTheWorkerStored | backend/app/services/assets.py:182-183 | However long after a success, a manual sync is accepted if and only if every file has the checksum the worker recorded at that success |
| JobTheorems.StepIsRowStep | backend/app/workers/generation.py:52-439 | Every step of the system commits a job at most once (version plus one, log extended), never touches a succeeded or cancelled one, and lowers progress only by a manual retry |
| JobTheorems.OnlyFinishSucceeds | backend/app/workers/generation.py:417-425 | Only the finishing block of a worker that still holds the row can turn a job into a success, with the result it polled |
| JobWitnesses.StrandedIsReachable | backend/app/workers/generation.py:331-339 | A running row with neither lock nor external id is reachable with every worker idle and none dead: a late poll error of a worker that lost its lock clears the lock of the one that has just claimed the job, which then leaves it |
| JobWitnesses.StrandsExactlyWhen | backend/app/workers/generation.py:336-337 | A step strands a row that was not stranded if and only if it is a retryable poll error, from a worker still polling that job, on a running row without external id |
| JobWitnesses.UnstrandsExactlyWhen | backend/app/workers/generation.py:280-339 | A step frees a stranded row if and only if it is a scan past the job timeout, a cancel with the row's version, any answer of a worker still submitting the job, a final poll error of a worker still polling it, or an unexpected exception of a worker still on it |
| JobInvariants.StrandedWaitsForTimeout | backend/app/workers/generation.py:85-97 | A stranded row can be claimed by nobody and is seen by no lock recovery; a scan writes it if and only if the job timeout has passed |
| JobProtocol.StepKeepsInv | backend/app/workers/generation.py:52-464 | One inductive invariant, kept by every action: row and log agree, each worker's memory agrees with the row it still holds, asset indices match results, asset versions are ranks |
| JobProtocol.RunKeepsInv | backend/app/workers/generation.py:441-478 | The invariant holds after every run from any state that satisfies it, with crashes, scans and operators interleaved freely |
| JobProtocol.ReachableInv | backend/app/workers/generation.py:441-478 | The invariant holds in every state reachable from the empty system |
| JobProtocol.OthersLoseTheRow | backend/app/workers/generation.py:147-171 | A commit that leaves no lock, or only the committer's own, ends every other worker's ownership of the row |
| JobProtocol.CommitKeepsInv | backend/app/workers/generation.py:284-322 | Writing one row soundly keeps the memory of all other workers, at any program point, consistent with the rows |
| JobProtocol.SuccessKeepsInv | backend/app/workers/generation.py:397-439 | Asset rows and job row written together keep the invariant |
| JobProtocol.FinishKeepsInv | backend/app/workers/generation.py:371-439 | The finishing block keeps the invariant on all its branches, including the one that raises |
| JobProtocol.ScanKeepsInv | backend/app/workers/generation.py:52-123 | A scan over all rows at once keeps the invariant, whichever rows either select skips as locked |
| JobProtocol.ClaimKeepsInv | backend/app/workers/generation.py:125-172 | A claim keeps the invariant and leaves the claiming worker with what it needs to know |
| JobProtocol.AnswerSound | backend/app/workers/generation.py:280-369 | What a worker writes after an answer or an exception from outside is sound and never a success |
| JobInvariants.ScanClearsOverdue | backend/app/workers/generation.py:52-123 | After one scan that skips nothing, no running job is past the timeout cutoff or holds a lock older than the lock cutoff, no external id was lost, and the job was written at most once |
| JobInvariants.ScanSelectsAreDisjoint | backend/app/workers/generation.py:59-97 | The two selects of a scan never return the same stored row, although the second does not see the first one's writes |
| JobWorker.GenerationJob.TransitionTo | backend/app/services/generation_jobs.py:53-88 | Refuses exactly the moves outside the table and leaves the row alone then; otherwise ends as the transition specified |
| JobWorker.GenerationJob.Cancel | backend/app/services/generation_jobs.py:373-404 | Ends exactly as the cancel that `CancelDecides` describes; each refusal has its error and leaves the row alone |
| JobWorker.GenerationJob.Retry | backend/app/services/generation_jobs.py:432-479 | Ends exactly as the retry that `RetryDecides` describes; each refusal has its error and leaves the row alone |
| JobWorker.GenerationWorker.SubmissionError | backend/app/workers/generation.py:196-224 | On a running job, ends exactly as the submission-error transaction and cannot raise |
| JobWorker.GenerationWorker.PollError | backend/app/workers/generation.py:226-253 | On a running job, ends exactly as the poll-error transaction and cannot raise |
| JobWorker.GenerationWorker.Release | backend/app/workers/generation.py:174-194 | Ends exactly as the release transaction |
| JobWorker.GenerationWorker.ScanTimeoutsAndRecoverLocks | backend/app/workers/generation.py:52-123 | The two loops leave every row as one scan of that row alone would, and the two counters are the numbers of rows selected |
| JobWorker.GenerationWorker.TimeOutOverdue | backend/app/workers/generation.py:59-83 | The first loop leaves every row as timing it out where its select returned it would, and counts those |
| JobWorker.GenerationWorker.RecoverStale | backend/app/workers/generation.py:85-121 | The second loop, whose select read the stored rows, completes each row to one scan of it and counts the rows it recovered |
| JobWorker.OverdueNext | backend/app/workers/generation.py:68-83 | The counter of the first loop grows by one exactly for a selected row |
| JobWorker.StaleNext | backend/app/workers/generation.py:98-121 | The counter of the second loop grows by one exactly for a selected row |
| JobWorker.GenerationWorker.ClaimNextJob | backend/app/workers/generation.py:125-172 | Claims, of the rows that are due and that no one holds, the one due earliest, and of several the one with the least id; only that row; None exactly says that no row could be claimed |
| JobWorker.GenerationWorker.BeginBlock | backend/app/workers/generation.py:256-278 | Leaves the row to others unless it is running and locked by this worker; otherwise submits or polls the recorded task |
| JobWorker.GenerationWorker.SubmitFailedBlock | backend/app/workers/generation.py:283-291 | Writes exactly what the transaction says, checking the status only |
| JobWorker.GenerationWorker.SubmittedBlock | backend/app/workers/generation.py:292-323 | Writes exactly what the transaction says, checking the status only |
| JobWorker.GenerationWorker.PollFailedBlock | backend/app/workers/generation.py:331-339 | Writes exactly what the transaction says, checking the status only |
| JobWorker.GenerationWorker.StorageFailedBlock | backend/app/workers/generation.py:353-369 | Writes exactly what the transaction says, checking status and lock |
| JobWorker.GenerationWorker.UnexpectedBlock | backend/app/workers/generation.py:448-464 | Writes exactly what the transaction says |
| JobWorker.GenerationWorker.FinishBlock | backend/app/workers/generation.py:371-439 | Writes job row and asset rows together as specified, raises exactly when the assets are refused, and then leaves both tables as they were |
| Assets.PersistEffect | backend/app/services/assets.py:122-187 | Rejects exactly a bad plan or a file that differs from its recorded checksum; otherwise keeps every row at its place, adds one row for each missing index, touches no other job, and keeps versions ranked |
| Assets.PersistWrites | backend/app/services/assets.py:139-187 | After an accepted call each old row whose index is among the files is available and just synced and otherwise the same, every other old row is untouched, and every new row describes a file that had none, for the plan and type of the job |
| Assets.PersistFresh | backend/app/services/assets.py:151-181 | A first success creates exactly the indices 0..n-1, in order |
| Assets.ResyncIsIdempotent | backend/app/services/assets.py:181-186 | Syncing again creates nothing and changes no version; it is refused if and only if some file conflicts |
| Assets.SyncAcceptsRecordedContent | backend/app/services/assets.py:151-186 | After a first success, and however the table has grown since, a sync is accepted if and only if every file has the checksum recorded then |
| Assets.VersionsAreOneToN | backend/app/services/assets.py:139-147 | In a table of ranked versions, the versions of a (plan, type) are exactly 1..n |
| Assets.VersionsIncrease | backend/app/services/assets.py:139-147 | No version of a (plan, type) occurs twice; later rows have larger ones |
| Assets.MaxIsCount | backend/app/services/assets.py:139-147 | The maximum the query reads equals the number of rows, so the next version leaves no gap |
| Assets.PersistFromRejects | backend/app/services/assets.py:182-183 | The loop fails if and only if some item conflicts with a row of the query before the loop |
| AssetStore.Store.PersistPreparedAssets | backend/app/services/assets.py:122-187 | The loop with its next version and counter computes the specified table and the number of rows created |
| AssetStore.Store.SyncSucceededJob | backend/app/services/assets.py:431-477 | Refuses unknown and unfinished jobs; an error leaves the table as it was |
| CreativePlans.HistoryIsForever | backend/app/services/creative_plans.py:393-498 | Over any sequence of generate, edit, status and job-creation requests, the last with a plan table as old as the run itself: at most one selected plan per (product, type), revisions exactly 1..version with the newest equal to the plan, titles and rationales those of the content, archived plans frozen and never reached directly from selected, logs only extended, and every job still pinned to its revision |
| CreativePlans.EditDecides | backend/app/services/creative_plans.py:393-432 | An edit is accepted if and only if the plan is the product's, at the expected version and not archived; then it has the content, title and rationale that were sent, the status it had, and one new revision with them by this user, and no other plan changes; each refusal has its error |
| CreativePlans.EditsWhatWasRead | backend/app/services/creative_plans.py:402-420 | An edit accepted at the version a user read, after any requests in between, changes exactly the plan the user read |
| CreativePlans.StatusDecides | backend/app/services/creative_plans.py:444-486 | A status change is accepted if and only if the plan is the product's, at the expected version, and the move is allowed; then the plan has the status, exactly the other selected plans of its product and type are drafts when it is selected, each with a revision, and no content changes |
| CreativePlans.StatusChangesWhatWasRead | backend/app/services/creative_plans.py:444-462 | A status change accepted at the version a user read applies to the plan the user read |
| CreativePlans.GenerateDecides | backend/app/services/creative_plans.py:280-302 | Generation adds one draft at version 1 for each item, in order, with its content, and changes no other plan |
| CreativePlans.PlanVersionsIdentify | backend/app/services/creative_plans.py:402-420 | A plan that is at its old version is the plan it was |
| CreativePlans.PinSurvives | backend/app/services/generation_jobs.py:191-232 | The revision a job names exists, was selected, and has the title and content of the job's snapshot, in every later table |
| CreativePlans.NewOrderPinned | backend/app/services/generation_jobs.py:189-232 | A new job names the newest revision of the plan as it was read, with its title and content |
| CreativePlans.LateOrderPinned | backend/app/services/generation_jobs.py:181-232 | A creation that read its plan from any older table, and locks nothing, is pinned in the current table all the same, however the plan was edited, deselected or archived since |
| CreativePlans.CreationIsIdempotent | backend/app/services/generation_jobs.py:166-253 | Creating again with the same key and plan version, after any requests in between and whatever the transaction has read, never creates a second job: it returns the first one, always so when it sees it, or a plan error when it does not, also on the branch that lost a race for the key |
| CreativePlans.CreatedJob | backend/app/services/generation_jobs.py:165-253 | An accepted creation finds or records the job under its key with the plan version asked for, and is new if and only if the key was free |
| CreativePlans.CreationDecides | backend/app/services/generation_jobs.py:159-260 | A creation makes a job if and only if product, plan, version and parameters are in order and its key is free, and returns an older one if and only if that was created for the same request; the new job has the plan's text, is an image job if and only if the plan is a main image, and has the attempts the settings allow |
| CreativePlans.ServeKeepsInv | backend/app/services/creative_plans.py:435-486 | Each request keeps the plan invariants and drops or changes no job |
| CreativePlans.SetStatusInv | backend/app/services/creative_plans.py:444-486 | A status change deselects the rival plan, logs both, and keeps the invariants |
| CreativePlans.UpdateInv | backend/app/services/creative_plans.py:402-420 | An accepted edit keeps the plan invariants and extends the log (what it stores: `EditDecides`) |
| CreativePlans.GenerateInv | backend/app/services/creative_plans.py:280-302 | Generated plans are added as drafts with one revision each and keep the invariants |
| CreativePlans.ChangedKeepsOneSelected | backend/app/services/creative_plans.py:463-481 | After a status change no two plans of a product and type are selected |
| CreativePlans.PlanStore.GenerateFrom | backend/app/services/creative_plans.py:280-302 | The creation loop adds the specified plans |
| CreativePlans.PlanStore.Update | backend/app/services/creative_plans.py:393-432 | Ends as the edit that `EditDecides` describes, or reports its error and changes nothing |
| CreativePlans.PlanStore.DeselectRivals | backend/app/services/creative_plans.py:464-480 | The loop sends exactly the other selected plans of the product and type back to draft, with a revision each |
| CreativePlans.PlanStore.UpdateStatus | backend/app/services/creative_plans.py:435-498 | Ends as the status change that `StatusDecides` describes, or reports its error and changes nothing |
| Imports.PreviewPredictsConfirm | backend/app/services/imports.py:390-451 | For every file and import type, with nothing written in between: the confirmation gets through if and only if every expected row fits its columns, and then imports exactly the expected rows, those marked valid whose stored data passes the schema again, whose name no earlier one has taken for the database, and whose SKU, when it exists already, has an inventory row |
| Backoffice.PreviewInPractice | backend/app/services/imports.py:339-746 | In every database that any sequence of requests and confirmed files produces, the same without the condition on inventory rows, which always holds there |
| Backoffice.ConfirmedFileIsThere | backend/app/services/imports.py:684-746 | In every database that any sequence of requests and confirmed files produces: after a confirmation that gets through, each due row is in the database as the file says it, and nothing else has been added or changed |
| ImportEffects.ConfirmedIsSaid | backend/app/services/imports.py:699-731 | What a row of the file said when it was imported, the database still says at the end of the confirmation |
| ImportEffects.ConfirmTouchesOnlyTheFile | backend/app/services/imports.py:699-731 | After a confirmation every old product and record is as it was, every new one is what an imported row says, and every SKU and stock row that no imported row names is untouched |
| ImportEffects.SkuImported | backend/app/services/imports.py:565-645 | After an imported SKU row exactly one SKU of the product has the code: an older one, which keeps its spelling of it and whose ledger goes on, or a new one; it has the name, status, details, stock, locked quantity, threshold and location of the row, and no other SKU or stock row is touched |
| ImportEffects.ProductImported | backend/app/services/imports.py:499-526 | After an imported product row there is one product more, with the data of the row and the platform of its store, and nothing else has changed |
| ImportEffects.RecordImported | backend/app/services/imports.py:648-681 | After an imported performance row there is one active record more, with its numbers and their rates, and nothing else has changed |
| ImportEffects.SkuRowDecides | backend/app/services/imports.py:248-299 | Preview and handler accept a SKU row if and only if its product is not inactive, its quantities are possible, and an inactive SKU gets no more than it has; the preview also wants an active store |
| ImportEffects.ProductRowDecides | backend/app/services/imports.py:219-247 | They accept a product row if and only if its store is active and has no product whose name the database finds equal; the handler also wants the address within its bound |
| ImportEffects.RecordRowDecides | backend/app/services/imports.py:300-328 | They accept a performance row if and only if product, links and numbers are in order and no active record of the product has a day of it; the handler also wants its counts below 2^64 |
| ImportEffects.FitsDecides | backend/app/models/entities.py:201-205 | A SKU row fits its columns if and only if its quantities have 31 bits and its location at most 255 characters |
| ImportEffects.ValidExactlyWhen | backend/app/services/imports.py:398-426 | A row is marked valid if and only if it passes by itself and no earlier valid row of the file has its name, its code or one of its days |
| Backoffice.CodesStayUnique | backend/app/services/skus.py:110-158 | In all those databases no product has two SKUs of one code |
| Backoffice.ValidFileAborts | backend/app/services/imports.py:722 | From the empty database, one store and one product: a performance file whose only row is previewed valid and whose confirmation aborts, because its return on spend does not fit the column |
| Backoffice.StoresStayInOrder | backend/app/services/skus.py:110-158 | Over any sequence of SKU, stock and record requests and confirmed files, every SKU has its inventory row, every ledger replays to its row, and active periods of a product are disjoint, for one request at a time |
| Imports.InitializedPreview | backend/app/services/imports.py:684-735 | When every SKU has its inventory row, the confirmation gets through if and only if the rows that are due fit their columns, and then imports exactly those |
| Imports.PlainIsDue | backend/app/services/imports.py:412-426 | In a file whose addresses and counts keep their bounds and whose equal names are equal in lower case, the rows that are due are exactly the valid ones |
| Imports.HighReturnAborts | backend/app/services/performance.py:32-47 | One cent spent and ten thousand earned is previewed valid wherever the record is, and, when its counts pass the schema again, refused by the database at import |
| Imports.LargeQuantityAborts | backend/app/services/imports.py:270-274 | A quantity beyond 32 bits is previewed valid and refused by the database at import |
| Imports.HugeCounts | backend/app/services/imports.py:648-681 | A count of 2^64 or more is previewed valid, comes back from the JSON column as no integer, and is rejected at import without harm to other rows; below that and beyond 64-bit signed it is refused by the database and aborts the loop |
| Imports.LongAddressIsRejected | backend/app/services/imports.py:499-500 | An address that outgrows its bound when it is normalized is previewed valid and rejected at import, without harm to other rows |
| Imports.SecondNameIsRejected | backend/app/services/imports.py:399-413 | Of two names in one file that differ in lower case and not for the database, both are previewed valid, the first is imported and the second rejected |
| Imports.AbortIsFinal | backend/app/services/imports.py:722 | Once a row has aborted the loop, no later row is imported |
| Imports.MissingInventoryIsRejected | backend/app/services/imports.py:603-607 | A SKU without inventory row, which no service leaves behind, would pass the preview and be rejected at import |
| Imports.ValidPasses | backend/app/services/imports.py:219-327 | A row that passes the preview passes the handler's checks on the same database if and only if its stored data passes the schema again, which an address beyond its bound and a count of 2^64 or more do not, and its SKU does not lack an inventory row |
| Imports.Independent | backend/app/services/imports.py:412-425 | Importing one row neither blocks nor enables a row of the file it does not clash with, except that it blocks a product name only the database finds equal |
| Imports.DecidedAsPreviewed | backend/app/services/imports.py:710-731 | A row that clashes with no valid row before it is decided at its turn as in the previewed database, unless an imported row has taken its name for the database |
| Imports.ImportKeeps | backend/app/services/imports.py:565-645 | An import keeps record ids fresh and gives every new SKU its inventory row |
| Imports.ImportKeepsStores | backend/app/services/imports.py:565-681 | One imported row keeps active periods disjoint and every inventory ledger replayable |
| Imports.ConfirmKeepsDb | backend/app/services/imports.py:710-731 | A whole confirmation, of any file with any rows marked valid, keeps record ids fresh, inventory rows complete, periods disjoint and ledgers replayable |
| Dates.IsoOrder | backend/app/services/imports.py:416-419 | ISO texts of dates, years 1 to 9999, compare as strings exactly as the dates compare, so the text comparison of the preview is the date comparison of the import |
| ImportCentre.PreviewRows | backend/app/services/imports.py:390-451 | The loop with its set of keys and lists of periods marks a row valid if and only if it passes alone and clashes with no earlier valid row; valid and failed counts add up to all rows |
| ImportCentre.ChecksMeanClash | backend/app/services/imports.py:398-425 | What the collected keys and periods say about a row is exactly whether it clashes with an earlier valid row |
| ImportCentre.SameKeyClashes | backend/app/services/imports.py:407-413 | Equal keys always clash, for performance rows because equal periods overlap |
| ImportCentre.RowDecided | backend/app/services/imports.py:412-426 | Deciding one more row keeps both collections exact |
| ImportCentre.Centre.ImportProductRow | backend/app/services/imports.py:499-526 | Ends as the specified import of a product row, after validating its data again |
| ImportCentre.Centre.ImportSkuRow | backend/app/services/imports.py:565-645 | Ends as the import that `SkuImported` describes, though it overwrites the SKU before its last checks; a quantity or a location the columns do not hold is refused by the database |
| ImportCentre.Centre.ImportPerformanceRow | backend/app/services/imports.py:648-681 | Ends as the specified import of a performance row, after validating its data again; counts, amounts or a return the columns do not hold are refused by the database |
| ImportCentre.Centre.ImportRowNested | backend/app/services/imports.py:713-730 | Succeeds exactly when the row is importable; otherwise the row leaves no trace, and the loop is left exactly on a refusal of the database |
| ImportCentre.Centre.ConfirmRows | backend/app/services/imports.py:699-731 | Either the database becomes the sequential application of exactly the imported rows, both counters count what they name and all stores stay in order, or the loop is aborted, exactly when a row at its turn is refused by the database |
| ImportCentre.Centre.ConfirmBatch | backend/app/services/imports.py:684-746 | A validated batch either completes with success and failed rows adding up to all rows, or, exactly when a row is refused by the database, nothing changes and it stays validated; a completed batch changes nothing, any other is refused; stores stay in order in every case |
| ImportCentre.Centre.PreviewThenConfirm | backend/app/services/imports.py:339-746 | With nothing written in between: completes if and only if the rows that are due fit their columns, then imports exactly those, and in a plain file as many as were found valid |
| Inventory.LedgerReplays | backend/app/services/inventory.py:207-254 | Over any sequence of adjustments, configurations and imports: stock and locked quantity are the replayed sums of the ledger, entries chain and have the sign of their kind, every prefix satisfies 0 <= locked <= stock, the past is never rewritten, and the version is one plus movements plus configurations |
| Inventory.AdjustmentDecides | backend/app/services/inventory.py:207-254 | For an item whose ledger is in order, an adjustment is accepted if and only if it names the version, an increase has an active SKU and store, and the new quantities satisfy 0 <= locked <= stock and fit; it moves the one quantity and records the movement, and each refusal has its error |
| Inventory.InactiveNeverGrows | backend/app/services/inventory.py:222-226 | Over any requests of users while SKU or store is inactive, neither quantity grows |
| Inventory.InactiveCanBeEmptied | backend/app/services/inventory.py:222-236 | And adjustments that are accepted then can bring both to zero |
| Inventory.ConfigurationDecides | backend/app/services/inventory.py:179-192 | An update of threshold and location is accepted if and only if it names the version, changes what was sent and nothing else |
| Inventory.ImportedInv | backend/app/services/imports.py:608-644 | An import reaches its targets in at most two movements, which are adjustments, locks and unlocks, and no prefix of the ledger shows more locked than in stock, thanks to unlocking first |
| Inventory.AdjustedInv | backend/app/services/inventory.py:220-254 | An accepted adjustment adds one entry and keeps the ledger replaying to the row |
| Inventory.ToTargetInv | backend/app/services/imports.py:529-562 | Bringing one quantity to its target adds one entry unless it is there already |
| Inventory.LedgerAppend | backend/app/services/inventory.py:243-254 | One entry that continues its class and stays in bounds keeps the whole ledger in order |
| Inventory.WithinBounds | backend/app/services/inventory.py:231-236 | A row that its ledger replays to has 0 <= locked <= stock |
| Inventory.ImportVersion | backend/app/services/imports.py:539-549 | Equal versions do not mean equal rows: an import changes threshold or location under the old version if and only if both quantities are already at their targets |
| Inventory.RunVersion | backend/app/services/imports.py:539-549 | Over any run of requests the version stays if and only if each was rejected or imported the quantities that were there, and then row and ledger are the same up to threshold and location; it never falls |
| Inventory.StaleConfigurationPasses | backend/app/services/inventory.py:188-192 | So an update based on a stale read passes the version check and undoes an import's threshold |
| Inventory.InventoryItem.AdjustInventory | backend/app/services/inventory.py:216-254 | Ends as the adjustment that `AdjustmentDecides` describes, or reports its error and changes nothing |
| Inventory.InventoryItem.UpdateConfig | backend/app/services/inventory.py:187-192 | Ends as the specified configuration, or reports the conflict and changes nothing |
| Inventory.AdjustsWhatWasRead | backend/app/services/inventory.py:46-53 | An adjustment accepted with the version a user read, after any requests in between, moves exactly the quantities the user read and continues the ledger the user read |
| Inventory.InventoryItem.ImportTargets | backend/app/services/imports.py:608-644 | Ends as the specified import and keeps the ledger invariant |
| PeriodRaces.LockIsSafeExactlyWhen | backend/app/services/performance.py:150-180 | At the moment of the product lock: whatever its holder then creates or updates under its period check leaves periods disjoint if and only if its snapshot knows every day an active record covers now, from the same record or from one no longer active |
| PeriodRaces.PeriodsStayDisjoint | backend/app/services/performance.py:150-180 | In every interleaving of creations, updates, voids and batch imports of many products whose locks are all taken in that condition, active periods of one product never share a day |
| PeriodRaces.UndisturbedRunsStayDisjoint | backend/app/services/performance.py:150-180 | From the empty table, in every interleaving: if nobody commits a creation or an update for a product between the opening of a transaction and its lock on that product, every lock is taken in that condition and active periods stay disjoint |
| PeriodRaces.StaleSnapshotOverlaps | backend/app/services/performance.py:191-198 | For every product and every period, two requests that open their transactions before the first one locks record the period twice |
| PeriodRaces.UntouchedIsKnown | backend/app/services/performance.py:157-180 | The condition holds when every record active now was active in the snapshot with the same contents, as after nothing but voids |
| PeriodRaces.CheckIsSound | backend/app/services/performance.py:165-173 | In that condition a period that is free in the snapshot is free in the current table, also when the record itself is left out |
| PeriodRaces.UnknownDayBreaks | backend/app/services/performance.py:165-173 | Without it, some creation or update on the unknown day passes its check and makes two active records overlap |
| PeriodRaces.CommitTxnOk | backend/app/services/performance.py:231 | A commit leaves what other transactions know of their locked products as it was |
| PeriodRaces.VoidTxnOk | backend/app/services/performance.py:388-403 | So does a void, which takes no product lock |
| PeriodRaces.StepKeepsInv | backend/app/services/performance.py:183-419 | Each step, a lock in that condition among them, keeps the committed table disjoint and each transaction's view, writes and locks in order |
| PeriodRaces.PutTxnOk | backend/app/services/performance.py:341-357 | Writing what was checked keeps the writer's view and the current table disjoint and its locked products known |
| PeriodRaces.MetricsStayCurrent | backend/app/services/performance.py:199-216 | In every interleaving, whatever the snapshots, each record carries the metrics of its own numbers (which those are: `StoredRates`) |
| PeriodRaces.StoredRates | backend/app/services/performance.py:32-47 | In every interleaving from the empty table each record has no return if and only if it has no spend, and otherwise the millionth nearest to revenue by spend, half up; the same for clicks by impressions and conversions by clicks |
| PeriodRaces.RecordsMoveOn | backend/app/services/performance.py:309-419 | In every interleaving no record disappears or changes its product, a voided one never changes, and one at the version a user read is the record the user read |
| PeriodRaces.FreeMeansNoDay | backend/app/services/performance.py:165-173 | The period check passes if and only if no day of the period belongs to another active record of the product |
| PerformanceRecords.RecordStore.Create | backend/app/services/performance.py:183-233 | For one request at a time: creates the record if and only if product, references and period allow it and the columns hold it; any other request changes nothing |
| PerformanceRecords.RecordStore.Update | backend/app/services/performance.py:309-373 | For one request at a time: rewrites the record if and only if it is active at that version, its new period is free when it is itself left out, and the columns hold it |
| PerformanceRecords.RecordStore.VoidRecord | backend/app/services/performance.py:376-419 | Voids the record if and only if it is active at that version |
| Performance.SummaryBetweenRecords | backend/app/services/performance.py:282-293 | The CTR of a summary is a proportion and lies between the smallest and the largest CTR stored with its records |
| Performance.SummaryConversionBetweenRecords | backend/app/services/performance.py:282-293 | The same for the conversion rate |
| Performance.SummaryReturnBetweenRecords | backend/app/services/performance.py:282-293 | The return of a summary is never below all stored returns, and above all of them only when some record has revenue without spend |
| Performance.SummaryOfOne | backend/app/services/performance.py:282-293 | The summary of one record is exactly what is stored with it |
| Performance.StoredMetrics | backend/app/services/performance.py:32-47 | The rates of a valid record are the nearest millionths, or none where nothing was counted |
| Performance.FitsMeans | backend/app/models/entities.py:880-887 | A record fits its columns if and only if its counts are below 2^63, its amounts below a trillion, and its return, if any, rounds to less than a million |
| Performance.RateMeans | backend/app/services/performance.py:32-37 | A rate is the only millionth within half a step of the ratio, half up, and none for a zero denominator |
| Performance.SummaryRateBetween | backend/app/services/performance.py:32-47 | The rounded ratio of sums is never below all rounded ratios, nor above all of them unless something was counted above a zero |
| Performance.RateIsOneRounding | backend/app/services/performance.py:32-37 | Dividing at 28 digits and then quantizing to six places is one exact half-up rounding, for numerators below 10^21 |
| Performance.DoubleRoundingBeyond | backend/app/services/performance.py:32-37 | The bound is needed, also for proportions: for one numerator near 2 * 10^22 dividing and quantizing gives a millionth more than rounding once |
| Performance.Summarize | backend/app/services/performance.py:282-293 | The summary's rates are the rates of the summed counts |
| Decimals.QuantizedQuotientIsExact | backend/app/services/performance.py:32-37 | Below 10^27 steps, a quotient rounded to 28 digits and then to a step is the exact ratio rounded once, for half-up and half-even alike |
| Decimals.SameSide | backend/app/services/performance.py:35-37 | The 28-digit quotient lies on the same side of every half step as the exact ratio, and on it exactly when the ratio does |
| Decimals.HalfEvenIs | backend/app/services/inventory_advice.py:250-252 | The half-even rounding is the nearest step, at a tie the even one |
| RateLimiter.WindowLimitExactly | backend/app/integrations/ai/providers.py:86-94 | With clock readings late by at most `skew`, every half-open window of a given width holds at most `limit` (two or more) grants if and only if the width is at most sixty seconds less `skew` |
| RateLimiter.WindowLimit | backend/app/integrations/ai/providers.py:86-94 | For every limit and every sequence of calls late by at most `skew`, a half-open window of sixty seconds less `skew` holds at most `limit` grants; sixty seconds when readings come in lock order |
| RateLimiter.WindowLimitOfOne | backend/app/integrations/ai/providers.py:86-94 | With a limit of one, any half-open sixty-second window holds at most one grant, however late the readings come |
| RateLimiter.DequeCountsRecent | backend/app/integrations/ai/providers.py:89-94 | With readings in lock order the deque grants if and only if fewer than `limit` grants of the whole history are younger than sixty seconds |
| RateLimiter.RefusedExactlyWhenFull | backend/app/integrations/ai/providers.py:91-92 | After any such run a call is refused if and only if `limit` grants are younger than sixty seconds |
| RateLimiter.Limiter.Acquire | backend/app/integrations/ai/providers.py:86-94 | The popping loop and the append compute the specified queue and answer |
| InventoryAdvice.TargetWithinOne | backend/app/services/inventory_advice.py:250-257 | For every permitted request the demand target from the rounded rate is within one unit of the exact ceiling |
| InventoryAdvice.TargetIsLeast | backend/app/services/inventory_advice.py:253-257 | The target is the least stock above the warning threshold that lasts for the days to be covered at the rounded rate |
| InventoryAdvice.RateIsOneRounding | backend/app/services/inventory_advice.py:250-252 | Dividing at 28 digits and then quantizing the daily rate is one exact half-even rounding |
| InventoryAdvice.AdviseOne | backend/app/services/inventory_advice.py:244-273 | The daily rate is the nearest ten-thousandth, even at a tie; the target is the least that is enough; available plus restock meets it, exactly when anything is restocked; priority is low if and only if nothing is to be restocked, critical if and only if nothing is available and something was sold, high if and only if otherwise at or below the threshold |
| InventoryAdvice.GenerateAdvice | backend/app/services/inventory_advice.py:239-306 | One such item for each SKU; replenish, insufficient and healthy items partition the run, and the stored counters count them |

## Left out

- JobWorker.GenerationJob: its columns are one record-valued field that the methods reassign column by column, in the program's order, and not one field for each column.
- CreativePlans.PlanStore: plans, performance records and the tables of the import centre are sequences and maps of values that the methods reassign, so two handles on one loaded row are not modelled.
- JobProtocol: transactions are atomic and read the clock once. Worker ids are distinct and a worker has one claim at a time.
- Isolation: plain selects read the transaction's snapshot in `PeriodRaces` only; elsewhere they read the current tables. The transactions on jobs and stock lock their rows before they read them. The creation of a job locks nothing: `CreativePlans.CreateJob` takes the plan table and the key lookup it read as parameters.
- PeriodRaces: the product row, links and other tables a writer reads, and waiting for locks: a blocked step happens later or not at all.
- JobWorker.GenerationWorker.ClaimNextJob: picks the row by a search over the table; that the database evaluates ORDER BY and SKIP LOCKED so is taken as given, with a missing `next_run_at` first. Ids are positions in the table.
- Performance.RateIsOneRounding: numerators below 10^21, which covers single records within their columns and sums of fewer than 100 of the largest count columns; beyond it the law can fail (`DoubleRoundingBeyond`).
- InventoryAdvice.TargetWithinOne: the product of rate, days and multiplier is exact, as it is below 28 digits.
- CreativePlans.CreateJob: after a lost race the repeated lookup finds the row; the refusal when it does not, because the other creation was rolled back, is not modelled. The checks of size and duration are a parameter that says yes or no; the snapshot keeps product, plan, title and content.
- Imports: parsing of cells and schema checks are one outcome, readable or not; upload limits, headers and encoding of a file, and the errors stored with a row. A number beyond the range of a double, which the JSON column refuses at preview, is not modelled. That the column keeps integers below 2^64 exactly and gives back larger ones as doubles, which the schema refuses, is taken as given. That the program's lower case and the database's collation agree on SKU codes, which are ASCII, is taken as given.
- ImportCentre.Centre.ConfirmBatch: writes of other users between preview and confirmation, and batches side by side.
- Inventory: reason and reference texts, and versions beyond 32 bits.
- Deletion of products, plans and jobs with what hangs on them.
- Error messages, event texts, heartbeats other than the column, audit and usage logs.
- Preparation of media files: download, storage, checks of size and duration, and the clean-up of stored files, which can delete a file that a row still names.
- Model output: the plans a model proposes and the answers of media providers are arbitrary inputs.
- Review, tags and file checks of assets: single-row updates guarded by a lock version.
- Competitor monitors, promotion clicks, ad experiments, diagnoses, review reports, stores, users, settings, dashboard: simpler members of the same kinds.
- The demo data, which writes rows past the services and so past the invariants.
- HTTP routes, request trimming, encryption and the web front end.
