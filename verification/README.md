# Rables, proved in parts

A Dafny model of the parts of the Rables blog server where state, interleaving or text
translation is hard: the durable job queue and scheduled publishing, the life of stored
files, the rate limiter, the Twitter-sync cursor, the translations that must keep meaning,
and the arithmetic that must stay within bounds. Check it with
`dafny verify dfyconfig.toml` and Dafny 4.11.

## What is modelled

- `JobTable`, `Drain`: the job_runs table with its statements in place, the worker's RunOnce
  and the drain loop, the retry schedule.
- `Publishing`, `PublishRuns`, `PublishSafety`, `PublishScenarios`: the transactions that save,
  move, delete and publish an article with rollback at any statement; the transition system of
  all of them with claims, the split publish handler, retries, shutdown, crashes and restarts;
  its invariant, what follows for whole runs, and runs that reach the states spoken of.
- `RowNumbers`: the same system with the job ids that SQLite chooses, which come back.
- `Wakeups`: the one-slot wake channel between enqueuers and the worker, lost claims included.
- `StaticFiles`, `StaticFileRuns`, `StaticFileRequests`: uploads, overwrites and deletions
  racing statement by statement over the file tables, with ids that come back, and the same
  requests left to themselves. `FileSweeps`, `SweepResults`: the sweeps of article deletion and
  of the startup reaper, and which files are gone after them.
- `RateLimit`, `RateLimitRuns`: token buckets with a lazy sweep, and which calls of a run are
  admitted. `TwitterSync`: guarded writes against resets.
- `Replacement`, `ReplacementForms`, `Like`, `Cdata`, `Redirects`: printers and matchers against
  readers and eager specifications.
- `Crosspost`, `CrosspostText`, `SyncSchedule`, `Pagination`: text fitting, the next run, the
  page window.
- `Options`, `Collections`: an option type and facts about sets and maps.

## Assumptions

- One live process (`internal/jobs/recover.go:25-32`) and a clock that never goes back.
  A crash may come between any two steps; transactions are atomic.
- `PublishRuns` and `Wakeups` name a job row for good. The schema does not: its ids are
  `INTEGER PRIMARY KEY` without AUTOINCREMENT (`migrations/0001_init.sql:253`), so the largest
  id is handed out again once its row is deleted. The results carry over to runs in which no
  claim hits another row than the one selected; `RowNumbers` proves this, and what such a claim
  does to the article of the row it hits. Article ids may come back in `PublishRuns`, and file and static_files ids in
  `StaticFiles`.
- The publish handler's read is outside its transaction (`internal/jobs/publish.go:46`), as is
  that of TransitionStatus (`internal/service/articles/articles.go:414-415`). The transition
  system keeps them apart; only `AtomicHandler` takes the two together.
- Callers of TransitionStatus never ask for the schedule status, and every publish_article row
  comes from a save or from the queue itself.
- A stored file's variants have no variants, and file keys are unique. While static-file
  requests race, the attachments of other records and the uploads of other kinds stay as they
  are; a file that such an attachment names is called pinned, and one that no attachment and no
  static_files row names is called apart. At the start no two static_files rows share a file
  that is not pinned.
- One Allow call is one step. Tokens are real numbers.
- Admin updates of the Twitter sync are serialised against each other, not against runs.
- Character equality of LIKE is a parameter; where the file sweeps use it, it folds ASCII
  letters as SQLite does.

## Findings

- A claim that is lost ends the drain as if nothing were due
  (`internal/jobs/worker.go:112-124`, `internal/jobs/worker.go:91-103`), and no wake follows. A
  save or a destroy that cancels the selected row (`internal/service/articles/articles.go:386-394`,
  `internal/service/articles/articles.go:555`) can so leave another row, due and woken, to the
  ticker (`Wakeups.LostClaimLosesWakeup`). The loss is harmless exactly when a wake is pending or
  no such row is queued (`Wakeups.LostClaimIsHarmlessIff`).
- Job ids come back (`migrations/0001_init.sql:253`). When the row that the worker has selected
  is deleted and its id given to another row before the claim, the claim hits that row
  (`internal/jobs/worker.go:112-124`), the handler of the old job runs, and the new row is marked
  done. Two inputs strand an article so: a save that moves it to a later time
  (`internal/service/articles/articles.go:386-394`, `RowNumbers.NumberComesBack`), and the
  destruction of one article followed by the save of another
  (`internal/service/articles/articles.go:555`, `RowNumbers.NumberGoesToAnother`). The article is
  stranded exactly when the old job does not publish it or it is not due at the read
  (`RowNumbers.StrayStrandsIff`); any other job is skipped (`RowNumbers.StraySkipsRow`). No claim
  goes astray unless the id was handed out, which needs a save that leaves no row at or above it
  (`RowNumbers.SafeUntilHandedOut`, `RowNumbers.SaveHandsOutIff`).
- File ids come back too (`migrations/0001_init.sql:227`). The compare-and-swap of an overwrite
  (`internal/db/query/static_files.sql.go:192-196`) can match a later file under the id it read,
  and a stored file is then left with no owner (`StaticFileRuns.ReusedIdLeaks`). That is possible
  exactly when an upload gets the id that an overwrite in flight expects but would not purge,
  having read no file to purge yet or another one (`internal/httpd/static_files_admin.go:175`,
  `StaticFileRuns.StoringCanLoseIff`).
- The handler's guarded UPDATE checks the status alone (`internal/db/query/publish.sql.go:53-62`),
  so an article saved to a later time between the handler's read and its transaction
  (`internal/jobs/publish.go:46-75`) is published early, with the old snapshot
  (`PublishScenarios.SplitHandlerPublishesEarly`, `PublishScenarios.EarlyPublicationHappens`).
- A row claimed less than the recovery cutoff before a restart
  (`internal/jobs/recover.go:11-39`) stays running, untouched, until a later restart
  (`PublishScenarios.OrphanSurvivesRestart`, `PublishScenarios.OrphanWaitsForRestart`); a
  scheduled article whose row is in that state waits with it.
- Five attempts leave four retries, so the last backoff entry, one hour, is never used
  (`internal/jobs/worker.go:17-21`, `Drain.RetrySchedule`).
- A wake is kept only for rows that are due when it is sent (`internal/jobs/worker.go:75-105`); a
  row for later waits for the ticker (`Wakeups.LaterRowOutlivesItsWake`).
- The translation of replacements (`internal/httpd/middleware_redirect.go:418-458`) is faithful
  exactly for \k names of word characters (`Replacement.TranslationKeepsMeaning`), and prefix
  rules (`internal/httpd/middleware_redirect.go:355-405`) are inverse exactly without trailing
  slashes (`Redirects.PrefixRulesInverse`).
- A crosspost whose suffix exceeds the limit by one character still fits, as stripping takes the
  leading newline (`internal/domain/contentbuilder.go:110-113`, `Crosspost.PostFits`); near the
  limit the content is dropped although it would fit
  (`internal/domain/contentbuilder.go:115-134`, `Crosspost.ShownWhole`).
- The displayed next daily run is a tick of the scheduler exactly in zones whose offset is a
  multiple of 15 minutes (`internal/jobs/due.go:15-19`, `SyncSchedule.SlotIsTick`).

## Model

| member | source | states |
|---|---|---|
| `PublishSafety.NeverStranded` | internal/service/articles/articles.go:386-394 | over every run of saves, status changes, deletions, claims, retries, shutdowns, crashes and recoveries, where no job id is handed out twice (RowNumbers does without), a scheduled article has a publish row, not due before the article, that is queued or running and has not come back without an error; otherwise the row of its latest save has used up its five attempts |
| `PublishSafety.FollowUpsOncePerFlip` | internal/jobs/publish.go:60-105 | over every run: between two flips of an article lies a save to schedule; the rows handlers ever inserted are exactly the batches of the committed flips; batches share no row; each batch is what the snapshot its handler read asked for, at or after that snapshot's time |
| `PublishSafety.NeverEarly` | internal/jobs/publish.go:46-58 | over every run, no handler publishes before the time that the row it read was scheduled for |
| `PublishSafety.AttemptBudget` | internal/jobs/worker.go:133-172 | over every run and any restarts: attempts stay between 0 and 5, queued and running rows have fewer than 5, and at most five handler starts of a row ended in an error, a panic or with the process, a death after the commit and before the handler's return included |
| `PublishSafety.TerminalForever` | internal/db/query/jobs.sql.go:273-306 | a row that is done or failed never changes again; it can only be deleted |
| `PublishSafety.StepKeepsInv` | internal/jobs/worker.go:107-173 | every step of the transition system keeps the whole invariant (rows, worker, owners, budget, log, batches) |
| `PublishSafety.RunKeepsInv` | internal/jobs/worker.go:75-105 | so does every run, of any length |
| `PublishSafety.OwnersStep` | internal/service/articles/articles.go:386-394 | no step takes a scheduled article's pending row away, whether it is a cancel, a claim, a handler that gives up, a bookkeeping write or a recovery |
| `PublishSafety.ReadOwns` | internal/jobs/publish.go:46-58 | the handler that holds a scheduled article's row never finds it early: if the row was due, so is the article |
| `PublishSafety.CommitOwns` | internal/jobs/publish.go:70-83 | a publish transaction consumes only articles it takes out of the schedule |
| `PublishSafety.BudgetStep` | internal/jobs/worker.go:133-172 | every step keeps the count of failed starts within the attempts recorded, plus one while a charge is outstanding |
| `PublishSafety.TerminalStep` | internal/db/query/jobs.sql.go:13-57 | no statement brings a done or failed row back |
| `PublishSafety.LogStep` | internal/db/query/publish.sql.go:53-62 | every step keeps flips of one article separated by saves to schedule |
| `PublishSafety.BatchesStep` | internal/jobs/publish.go:84-103 | every step keeps the follow-up rows equal to the batches of the committed flips |
| `PublishSafety.SavesStep` | internal/service/articles/articles.go:386-394 | every step keeps publish rows to articles that some save put on schedule |
| `RowNumbers.NeverStrandedByNumber` | migrations/0001_init.sql:252-253 | the same with the ids that SQLite chooses, one above the largest in the table, over every run in which no claim hits a row other than the one selected |
| `RowNumbers.StatementsHitTheirRow` | internal/jobs/worker.go:112-173 | in such a run every claim by id does what the claim by row does, and every bookkeeping write hits the row that is held and no other |
| `RowNumbers.ClaimIsRightIff` | internal/db/query/jobs.sql.go:13-21 | the claim by id does what the claim of the selected row does if and only if no other queued row carries that id |
| `RowNumbers.SafeUntilHandedOut` | migrations/0001_init.sql:252-253 | no claim can hit another row before the selected id is handed out |
| `RowNumbers.HandsOutIff` | migrations/0001_init.sql:252-253 | a step hands out the selected id if and only if the largest id left is below it and the new rows, counting on from there, reach it |
| `RowNumbers.SaveHandsOutIff` | internal/service/articles/articles.go:386-394 | for a save to schedule: if and only if its cancel leaves no row at or above the selected id, and one just below it or none at all |
| `RowNumbers.LargerRowGuards` | migrations/0001_init.sql:252-253 | as long as a row at or above the selected id stays, that id is not handed out |
| `RowNumbers.NumberComesBack` | internal/service/articles/articles.go:386-394 | a whole run, with the ids of SQLite, that strands an article: a save moves it to a later time under the worker's selection, and the new row gets the id of the old |
| `RowNumbers.NumberGoesToAnother` | internal/service/articles/articles.go:555 | another: the selected row's article is destroyed, its id goes to the row of a second article, and that one, though due, is stranded |
| `RowNumbers.StrayStrandsIff` | internal/jobs/worker.go:117-173 | when the claim hits another row, the only one that would publish an article, and the handler of the selected job comes back without an error, the article is left on schedule with no active publish row if and only if that job does not publish it or it is not due at the read |
| `RowNumbers.StrayFailureCoversIff` | internal/jobs/worker.go:158-171 | when that handler errs instead, a row for the article's time is left if and only if the old job has an attempt left and its retry is not due before the article |
| `RowNumbers.StraySkipsRow` | internal/jobs/worker.go:117-173 | whatever the kind and payload of the row that was hit, it is marked done without having been run |
| `RowNumbers.BookedIsSettled` | internal/db/query/jobs.sql.go:31-44 | on the selected row the bookkeeping by id is the settlement of the transition system |
| `PublishScenarios.AtomicHandler` | internal/jobs/publish.go:46-105 | with the read and the transaction taken as one step: nothing changes, or the article is published with its scheduled time, which has come, and exactly the batch of the snapshot that is cleared |
| `PublishScenarios.PendingRowPublishes` | internal/jobs/worker.go:107-173 | a pending row that is the oldest due one can be run to done with its article published as of its scheduled time |
| `PublishScenarios.ShutdownIsFree` | internal/jobs/worker.go:141-157 | a handler cancelled by shutdown leaves its row due at once with the same attempts and no charge |
| `PublishScenarios.CrashIsCharged` | internal/jobs/worker.go:133-172 | the process dying between a handler's start and its return counts as one failed start, at any other point as none, and leaves the database as it was |
| `PublishScenarios.UnknownKindFails` | internal/jobs/worker.go:127-131 | a row of a kind without a handler fails for good with the attempts it had |
| `PublishScenarios.RecoveryRevives` | internal/jobs/recover.go:32-39 | a restart requeues a stale running row with one attempt fewer, or fails it when that was the fifth, and leaves a row claimed at or after the cutoff, and every row that is not running, alone |
| `PublishScenarios.OrphanWaitsForRestart` | internal/jobs/recover.go:11-15 | a running row that no worker holds stays exactly as it is through every run without a restart; so one claimed within the cutoff of a restart waits for a later one |
| `PublishScenarios.SplitHandlerPublishesEarly` | internal/jobs/publish.go:46-75 | because the read is outside the transaction and the UPDATE checks the status alone, a save to a later time in between is published early with the old snapshot |
| `PublishScenarios.FlipFitsRowIffUnchanged` | internal/jobs/publish.go:60-103 | a flip dates and follows up the article as the row it clears asks, if and only if that row's schedule and snapshot are still those the handler read |
| `PublishScenarios.TransitionToScheduleStrands` | internal/service/articles/articles.go:413-456 | a status-only change to schedule enqueues nothing: the article has an active publish row if and only if it had one before, and one that was never saved to schedule has none of any kind |
| `PublishScenarios.EarlyPublicationHappens` | internal/jobs/publish.go:46-75 | a whole run from an empty site that publishes an article before the time it was last saved for |
| `PublishScenarios.OrphanSurvivesRestart` | internal/jobs/recover.go:11-39 | a whole run, with a crash after the claim and a restart whose cutoff is not later, that leaves the row of a due article running with no worker |
| `PublishScenarios.ReachReady` | internal/jobs/publish.go:46-58 | a whole run to the point between the handler's read and its transaction |
| `PublishScenarios.ReachShutdown` | internal/jobs/worker.go:141-157 | a whole run to a handler at work when shutdown begins |
| `Publishing.Store.Save` | internal/service/articles/articles.go:152-405 | a save commits the row, the cancelled and re-enqueued publish job and the publish effects together, or leaves everything as it was, whichever statement fails; what it writes is in SavedToPublish, SaveWrites and OneQueuedPublish |
| `Publishing.OneQueuedPublish` | internal/service/articles/articles.go:386-394 | after a save to schedule exactly one queued publish row of the article is left, at its new time, and every other row is untouched |
| `Publishing.SavedToPublish` | internal/service/articles/articles.go:395-400 | after a save to publish, with the job table as it was and as it is: each ticked platform among mastodon, twitter and bluesky that is enabled and has no recorded post has exactly one new crosspost row, due at once; the newsletter has exactly one if it was ticked and is ready; there is no other new row and every old row stays |
| `Publishing.SaveWrites` | internal/service/articles/articles.go:236-268 | the article as a save leaves it, field by field: the snapshot holds the ticked platforms and the newsletter only while it is scheduled, a blank creation time keeps the stored one, and a save that neither schedules nor publishes leaves the jobs alone |
| `Publishing.TransitionWrites` | internal/service/articles/articles.go:413-456 | a change of status keeps the dates and clears the snapshot; only publishing an article that was read as scheduled adds rows, one for each enabled, postable and unrecorded platform of its snapshot and one for its newsletter |
| `Publishing.PublishWrites` | internal/jobs/publish.go:60-106 | whatever row the handler read: an article it finds scheduled is published as of that row's time and gets exactly that row's follow-ups; any other is left alone |
| `Publishing.DestroyWrites` | internal/service/articles/articles.go:555-557 | exactly the queued publish rows of the article go with it; other articles and rows stay as they are |
| `Publishing.SavedThenPublished` | internal/jobs/publish.go:60-105 | from the form to the follow-ups: an article saved to schedule and then published by its handler is dated by the schedule, and the rows added are exactly one crosspost row for the ticked platforms, if any, and then one newsletter row, if that was ticked |
| `Publishing.SavedThenTransitioned` | internal/service/articles/articles.go:420-450 | published by hand instead, it is crossposted to exactly the ticked platforms that are enabled, postable and not yet recorded |
| `Publishing.SelectedExactly` | internal/service/articles/articles.go:625-637 | the snapshot holds exactly the listed platforms that were ticked, none twice when the list has no duplicate |
| `Publishing.Store.TransitionStatus` | internal/service/articles/articles.go:413-456 | the status-only update clears the snapshot and, on publish, enqueues the effects of the snapshot read before, all or nothing |
| `Publishing.Store.Destroy` | internal/service/articles/articles.go:486-557 | the article row and its queued publish jobs go together |
| `Publishing.Store.EnqueuePublishEffects` | internal/service/articles/articles.go:648-685 | the loop inserts exactly the effects, in platform order, and nothing else |
| `Publishing.CrosspostsExactly` | internal/service/articles/articles.go:648-685 | a platform gets a crosspost if and only if it is listed, selected, enabled, postable and not yet recorded, and none gets two |
| `Publishing.Store.PublishArticle` | internal/jobs/publish.go:40-106 | run without interleaving and failing at any statement: the flip and its follow-ups commit together or not at all |
| `JobTable.JobRuns.GetDueJobRun` | internal/db/query/jobs.sql.go:155-177 | a queued row with the smallest due run_at, or none exactly when none is due |
| `JobTable.JobRuns.ClaimJobRun` | internal/db/query/jobs.sql.go:13-29 | the compare-and-swap claims a queued row once and affects nothing else |
| `JobTable.JobRuns.EnqueueJobRun` | internal/db/query/jobs.sql.go:71-96 | adds one queued row with no attempts under a fresh id |
| `JobTable.JobRuns.CompleteJobRun` | internal/db/query/jobs.sql.go:31-44 | marks the named row done and clears its error |
| `JobTable.JobRuns.FailJobRun` | internal/db/query/jobs.sql.go:133-153 | marks the named row failed |
| `JobTable.JobRuns.RescheduleJobRun` | internal/db/query/jobs.sql.go:308-331 | queues the named row again at the given time |
| `JobTable.JobRuns.RequeueStaleRunningJobRuns` | internal/db/query/jobs.sql.go:273-306 | charges every stale running row one attempt and queues or fails it; other rows stay |
| `JobTable.JobRuns.CancelQueuedPublishJobs` | internal/service/articles/articles.go:607-624 | the select-then-delete loop drops exactly the article's queued publish rows |
| `JobTable.JobRuns.CancelQueuedPublishPageJobs` | internal/db/query/pages_admin.sql.go:30-34 | marks the page's queued rows failed and touches no other |
| `JobTable.CleanupDeletes` | internal/db/query/jobs.sql.go:46-57 | the cleanup deletes exactly the done and failed rows that have not changed since the cutoff |
| `Drain.Worker.DrainDue` | internal/jobs/worker.go:91-103 | with the clock fixed and no enqueues the drain ends; no queued row is due; the started jobs are exactly the due rows of known kinds, each once, in run_at order; every due row has its outcome and no other row has changed |
| `Drain.Worker.RunOnce` | internal/jobs/worker.go:110-173 | one call claims the oldest due row and settles it by its handler's outcome, or changes nothing; a row deleted between select and claim is a lost race |
| `Drain.Worker.Progress` | internal/jobs/worker.go:91-103 | each round takes one row out of the due set and keeps the drain's invariant |
| `Drain.DrainSettles` | internal/jobs/worker.go:107-173 | row by row with the numbers: after a drain a due row is done, or queued again after 30, 60, 300 or 900 seconds with one attempt more, or failed with the fifth; a row of a kind without a handler fails unstarted and uncharged; rows that were not due stay as they are |
| `Drain.FinishedIsNotDue` | internal/jobs/worker.go:163-170 | a finished row is not due again at the same clock, as every backoff is positive |
| `Drain.RetrySchedule` | internal/jobs/worker.go:17-21 | a job that keeps failing is retried 30, 90, 390 and 1290 seconds after its first start and failed for good on the fifth; the one-hour backoff is never reached |
| `Wakeups.NoLostWakeup` | internal/jobs/worker.go:63-105 | over every run of insert-then-wake enqueuers and one worker in which no cancel hits a row between its selection and its claim: a row queued and due when woken has a wake pending or a worker still draining |
| `Wakeups.QuietMeansServed` | internal/jobs/worker.go:75-105 | over every run: when the worker waits with an empty channel, and not because of a lost claim, no row that was due when woken is left queued |
| `Wakeups.StepKeepsInv` | internal/jobs/jobs.go:55-76 | every step, lost claims included, keeps woken due rows covered, though wakes coalesce in one slot, unless the worker waits after a lost claim |
| `Wakeups.OnlyLostClaimsLoseWakeups` | internal/jobs/worker.go:110-124 | over every run at all: a row queued and due when woken has a wake pending, a worker still draining, or a worker that waits because its last drain ended with a lost claim |
| `Wakeups.LostClaimIsHarmlessIff` | internal/jobs/worker.go:117-124 | a lost claim leaves every woken due row covered if and only if a wake is pending or no such row is queued |
| `Wakeups.CoveredIffLossesHarmless` | internal/jobs/worker.go:75-124 | over whole runs: every state has its woken due rows covered if and only if each lost claim of the run was harmless when it happened |
| `Wakeups.UndisturbedNeverLoses` | internal/jobs/worker.go:112-124 | without a cancel between selection and claim no claim is ever lost |
| `Wakeups.ClaimsUseUpQueueings` | internal/db/query/jobs.sql.go:13-21 | over every run each claim of a row uses up one insert or retry of it, so none is run twice for one |
| `Wakeups.DrainServes` | internal/jobs/worker.go:91-103 | a drain left to itself claims the due rows one after another, leaves the others alone and comes to wait again |
| `Wakeups.LostClaimLosesWakeup` | internal/jobs/worker.go:91-124 | a whole run that breaks the guarantee: of two due rows the worker selects one that is cancelled, and the other, whose wake was consumed, is left to the ticker |
| `Wakeups.LaterRowOutlivesItsWake` | internal/jobs/worker.go:75-105 | the limit of the guarantee: a row for later can be due, woken and idle, with the ticker left to find it |
| `StaticFiles.OneOwner` | internal/httpd/static_files_admin.go:125-210 | over every interleaving of uploads, overwrites and deletions in which no upload gets the id of a file that an exposed overwrite expects (one that would not purge it), each stored file that is neither pinned by another record nor apart from static files has exactly one owner: one static_files row or one request in flight |
| `StaticFiles.NothingDangles` | internal/httpd/static_files_admin.go:229-250 | in such runs static_files rows and variants name existing files at every moment, and file names are unique |
| `StaticFiles.NothingLeaks` | internal/httpd/static_files_admin.go:285-318 | in such runs, when all requests have finished, every stored file belongs to a root that exactly one row points to, that another record pins, or that is apart |
| `StaticFiles.ApartStays` | internal/httpd/static_files_admin.go:285-318 | an upload that texts embed by its address alone is never removed by these requests |
| `StaticFileRuns.StoringCanLoseIff` | internal/httpd/static_files_admin.go:125 | the condition is exact: from any state of such a run, storing a file makes it possible that a file ends with no owner if and only if its id is one that an exposed overwrite in flight expects |
| `StaticFileRuns.ExposedOverwriteLoses` | internal/httpd/static_files_admin.go:125-250 | the run that then loses the file: two deletions clear the overwrite's row and the upload's name, the row comes back under its old id, and the compare-and-swap takes it over |
| `StaticFiles.LaterUploadsAreSafe` | migrations/0001_init.sql:226-227 | with ids that count on from the largest, that cannot happen while every exposed overwrite in flight has stored its file under a larger id than the one it expects |
| `StaticFileRuns.ReusedIdLeaks` | internal/httpd/static_files_admin.go:125-250 | a whole run, with the ids of SQLite, in which ids come back under a waiting overwrite and a stored file ends with no owner |
| `StaticFileRequests.UploadCreates` | internal/httpd/static_files_admin.go:125-163 | a first upload of a name, left to itself, ends with the name serving its file and changes nothing else |
| `StaticFileRequests.UploadReplaces` | internal/httpd/static_files_admin.go:170-209 | a later one ends with the name serving the new file, and the family served before is gone unless an attachment or another row names a member |
| `StaticFileRequests.DestroyRemoves` | internal/httpd/static_files_admin.go:233-250 | a deletion ends without the row, and with its family gone under the same condition |
| `StaticFileRequests.LoserPurgesItsOwn` | internal/httpd/static_files_admin.go:142-199 | an upload that loses its race for the name or for the row purges what it stored itself and nothing else |
| `StaticFiles.StepKeepsInv` | internal/httpd/static_files_admin.go:125-250 | every statement of every request keeps the ownership invariant |
| `StaticFiles.RunKeepsInv` | internal/httpd/static_files_admin.go:91-250 | so does every run, with any number of requests |
| `StaticFiles.ExclusiveSwap` | internal/db/query/static_files.sql.go:192-196 | a compare-and-swap that succeeds hands over the request's file and takes exactly the file the row pointed to |
| `StaticFiles.ExpectedElsewhere` | internal/db/query/static_files.sql.go:192-196 | no upload in flight holds the file that the compare-and-swap of an exposed overwrite expects to replace |
| `StaticFiles.RemovalSafe` | internal/httpd/static_files_admin.go:337-352 | a row being deleted is not pointed to, not attached and not the original of a remaining variant |
| `StaticFiles.CoveredStep` | internal/httpd/static_files_admin.go:125-250 | no step leaves a file without an owner |
| `StaticFiles.HandsOver` | internal/httpd/static_files_admin.go:285-308 | a request drops a file only when it is referenced or gone |
| `StaticFiles.PurgeCheckIsStable` | internal/httpd/static_files_admin.go:285-308 | for the file a request is purging, being referenced means being pinned, and no other request changes that, so the separate counts of the purge cannot disagree |
| `StaticFiles.StaticFileStore.CreateStaticFile` | internal/db/query/static_files.sql.go:27-60 | the insert performs the create step, or reports the conflict when the name is taken |
| `StaticFiles.StaticFileStore.UpdateStaticFile` | internal/db/query/static_files.sql.go:192-218 | the UPDATE performs the swap step exactly when the row still points to the expected file |
| `StaticFiles.StaticFileStore.DeleteStaticFile` | internal/db/query/static_files.sql.go:70-79 | the DELETE returns the file that the row pointed to when it went |
| `StaticFiles.StaticFileStore.PurgeStoredFile` | internal/httpd/static_files_admin.go:285-318 | removes the whole family if no member is referenced, and nothing otherwise |
| `FileSweeps.MediaStore.Destroy` | internal/service/articles/articles.go:468-580 | deleting an article deletes exactly the families of its attached files that have become free, with exactly their blobs, even when a file and its own variant are both attached |
| `FileSweeps.MediaStore.DestroyRecord` | internal/service/articles/articles.go:489-557 | the transaction alone: rows deleted, and keys to unlink after the commit |
| `FileSweeps.MediaStore.SweepFamily` | internal/service/articles/articles.go:507-549 | one family of the loop: gone with its keys, or kept whole because some member is referenced |
| `FileSweeps.MediaStore.DeleteFamily` | internal/service/articles/articles.go:540-549 | variants go before their original, never against a foreign key |
| `FileSweeps.DestroyRespects` | internal/service/articles/articles.go:489-553 | after Destroy no deleted file is referenced by a remaining attachment, static_files row or scanned column, no surviving row names a deleted original, and only families that had become free went |
| `SweepResults.DestroysExactly` | internal/service/articles/articles.go:489-553 | a file is gone after its article is destroyed if and only if it or its original was attached to the article and no member of that file's family is attached elsewhere, served, or mentioned outside the article and its comments |
| `SweepResults.DoomedIsGone` | internal/service/articles/articles.go:559-573 | the blobs unlinked are those of the well-formed keys of the rows that are gone |
| `SweepResults.ArticleGone` | internal/service/articles/articles.go:489-506 | what the transaction has removed before it looks at files: the article's attachments and its scanned columns, and nothing else |
| `SweepResults.KeysAreSafe` | internal/service/media/media.go:170-185 | a well-formed key is 4 to 64 ASCII letters and digits, holds no separator, dot or wildcard, and the keys of uploads are such |
| `FileSweeps.MediaStore.ReapOrphanFiles` | internal/jobs/cleanup.go:204-274 | removes exactly the free families of the candidates, with their blobs, and counts the rows; which these are is in ReapsExactly |
| `FileSweeps.ReapRespects` | internal/jobs/cleanup.go:204-274 | the reaper respects every reference and takes only families whose root is older than the cutoff |
| `SweepResults.ReapsExactly` | internal/jobs/cleanup.go:204-274 | on the tables alone: a file is gone after the startup sweep if and only if its original is older than the cutoff and no member of the family is attached, served, or mentioned by its address in a scanned column; going for certain needs well-formed keys, as the scan reads a wildcard in a key as one |
| `SweepResults.ReapedIsGone` | internal/jobs/cleanup.go:211-229 | the rows counted are those that are gone, and the blobs unlinked those of their well-formed keys |
| `FileSweeps.RespectLeavesNoMention` | internal/db/query/files.sql.go:24-42 | no content column that remains mentions a deleted file, whatever its key |
| `FileSweeps.ReapDecides` | internal/db/query/files.sql.go:292-301 | for a candidate, scanning the content for the family's keys decides whether it is free, whatever was reaped before |
| `FileSweeps.RootsApart` | internal/db/query/files.sql.go:292-301 | the families of different candidates are disjoint |
| `FileSweeps.SweepDecides` | internal/service/articles/articles.go:589-603 | checking a family in the half-swept tables decides the same as in the original ones |
| `FileSweeps.FamiliesRespect` | internal/service/articles/articles.go:507-549 | deleting any set of free families leaves consistent tables and no dangling reference |
| `FileSweeps.SurvivorsKeepBlobs` | internal/service/articles/articles.go:563-573 | unlinking the blobs of deleted rows leaves the blob of every other row |
| `FileSweeps.ContentScanIsExact` | internal/db/query/files.sql.go:24-52 | the LIKE over the content columns, which has no ESCAPE clause, finds every mention of a file's address, and nothing else if the key is well formed |
| `RateLimit.SweepingIsInvisible` | internal/httpd/ratelimit.go:58-105 | for every run of calls at times that never go back, the sweeping limiter gives the verdicts of one that never forgets a key |
| `RateLimit.WindowBound` | internal/httpd/ratelimit.go:58-86 | whatever came before, any stretch of calls admits a key at most burst + rate * d times, where d is the time it spans |
| `RateLimitRuns.AdmittedExactly` | internal/httpd/ratelimit.go:57-85 | in every run from the start a call is admitted if and only if, counting from each earlier call and from itself, the key's admissions plus one stay within burst + rate * time |
| `RateLimitRuns.BurstIsAdmitted` | internal/httpd/ratelimit.go:35-36 | no key is refused before it has been admitted burst times |
| `RateLimitRuns.SweepForgetsExactly` | internal/httpd/ratelimit.go:87-105 | a key is forgotten exactly when the last sweep is a minute old and the key has been idle for more than ten minutes and more than a full refill |
| `RateLimitRuns.RunIsBounded` | internal/httpd/ratelimit.go:87-105 | after every run the last sweep is less than a minute old and nobody is remembered who had been idle in it for more than ten minutes and more than a full refill |
| `RateLimit.IdleRefills` | internal/httpd/ratelimit.go:36-55 | a key idle for longer than the TTL has a full bucket again, although the TTL is truncated to whole nanoseconds |
| `RateLimit.CallAgrees` | internal/httpd/ratelimit.go:58-86 | one call: equal verdicts and agreement afterwards |
| `RateLimit.SweepAgrees` | internal/httpd/ratelimit.go:90-105 | a sweep forgets only keys whose bucket is full |
| `RateLimit.KeptWindow` | internal/httpd/ratelimit.go:58-86 | the tokens left plus the calls admitted never exceed the tokens there were plus those that accrued |
| `RateLimit.IPRateLimiter.AllowNow` | internal/httpd/ratelimit.go:58-86 | one call on the mutable limiter is one step of the runs that AdmittedExactly decides |
| `RateLimit.IPRateLimiter.SweepIdle` | internal/httpd/ratelimit.go:90-105 | the lazy sweep in place |
| `RateLimit.IPRateLimiter.constructor` | internal/httpd/ratelimit.go:36-55 | the idle TTL is the larger of ten minutes and a full refill |
| `TwitterSync.CursorMatchesConfig` | internal/db/query/twitter_sync.sql.go:82-85 | over every interleaving of sync runs and serialised admin updates, a cursor or last-sync time that is set was written by a run that started under the present account and start date, and a user id that is set was resolved for the present account |
| `TwitterSync.RunKeepsInv` | internal/service/twittersync/sync.go:142-237 | every run keeps the invariant that makes this so |
| `TwitterSync.ChangeResets` | internal/httpd/twitter_sync_admin.go:151-190 | an update that changes the account or start date leaves no cursor, one that changes the account no user id, and one that changes neither keeps both |
| `TwitterSync.FinishWrites` | internal/service/twittersync/sync.go:217-240 | a run that finishes moves the cursor to its newest post, or leaves it where it found it, exactly when cursor, account and start date are as it read them, and otherwise writes nothing |
| `TwitterSync.ResolveWrites` | internal/db/query/twitter_sync.sql.go:119-141 | a lookup writes the user id exactly when the account is still the one looked up; otherwise the run ends |
| `TwitterSync.UnserialisedUpdatesMix` | internal/httpd/twitter_sync_admin.go:109-150 | the serialisation is needed: two updates that read the same row can keep a cursor of the other account |
| `TwitterSync.SyncTable.TwitterSyncUpdate` | internal/httpd/twitter_sync_admin.go:109-196 | the three writes happen together or not at all |
| `TwitterSync.SyncTable.SetTwitterSyncSuccess` | internal/db/query/twitter_sync.sql.go:82-117 | writes the cursor only if the row is as the run read it |
| `TwitterSync.SyncTable.SetTwitterSyncUserId` | internal/db/query/twitter_sync.sql.go:119-141 | writes the user id only for the account it was resolved for |
| `Replacement.TranslationKeepsMeaning` | internal/httpd/middleware_redirect.go:418-458 | Go's expansion of the translated replacement equals the Ruby meaning under every match, where names that are no words stand for nothing, if and only if every \k name is made of word characters |
| `Replacement.RubyToGoExpansion` | internal/httpd/middleware_redirect.go:422-458 | the index loop computes the translation of the parsed pieces; what each form stands for is in the rows of ReplacementForms |
| `ReplacementForms.WholeMatchReads` | internal/httpd/middleware_redirect.go:432-434 | backslash-ampersand stands for the whole match, in Ruby's reading and in Go's expansion of the translation, whatever follows; so it is for every form of the next rows |
| `ReplacementForms.NumberReads` | internal/httpd/middleware_redirect.go:427-431 | a backslash and a digit stand for that group, 0 for the match |
| `ReplacementForms.NameReads` | internal/httpd/middleware_redirect.go:435-444 | backslash-k and a name in angle brackets or single quotes stand for that group; Go agrees where the name is a word |
| `ReplacementForms.DoubleBackslashReads` | internal/httpd/middleware_redirect.go:448-450 | two backslashes stand for one |
| `ReplacementForms.LoneBackslashReads` | internal/httpd/middleware_redirect.go:445-447 | any other backslash stands for itself: at the end, before another character, before a k whose name is empty or not closed |
| `ReplacementForms.CharacterReads` | internal/httpd/middleware_redirect.go:451-455 | every other character stands for itself, a dollar too |
| `Replacement.ReferenceReadsBack` | internal/httpd/middleware_redirect.go:432-447 | an emitted ${name} is read back as that reference whatever follows it |
| `Replacement.WordNamesTranslate` | internal/httpd/middleware_redirect.go:418-458 | the printed pieces expand to their value, dollars and backslashes included |
| `Replacement.NonWordsAreSeen` | internal/httpd/middleware_redirect.go:432-447 | a \k name that is no word leaves some of its text in Go's expansion |
| `Replacement.ExpandSplitsAtBrace` | internal/httpd/middleware_redirect.go:418-458 | what stands behind a closing brace is expanded on its own |
| `Like.PatternMatchesOccurrences` | internal/httpd/public.go:141-146 | the search pattern matches a text if and only if the term occurs in it, whatever wildcards it holds, under any character equality |
| `Like.EscapedMatchesPrefix` | internal/db/query/public.sql.go:495-505 | the escaped term followed by % matches exactly the texts that begin with the term |
| `Like.EscapedMatchesItself` | internal/httpd/public.go:141-146 | without the wildcards the escaped term matches itself alone |
| `Like.RawPatternFindsOccurrences` | internal/db/query/files.sql.go:24-46 | without ESCAPE the pattern of a term matches every text that the term occurs in, and only those if the term holds no wildcard |
| `Cdata.SectionsReadBack` | internal/httpd/public_feed.go:170-181 | for every string, reading the written sections, each ending at its first "]]>", and joining them gives the string back |
| `Cdata.WriteXmlCdata` | internal/httpd/public_feed.go:170-181 | the element holds sections that read back as the value |
| `Cdata.ReplaceAll` | internal/httpd/public_feed.go:176-178 | one pass from the left replaces the occurrences that do not overlap |
| `Cdata.FindsTheEnd` | internal/httpd/public_feed.go:170-181 | no "]]>" starts before the end of a written section, though its content may end in "]]" |
| `Redirects.RedirectMiddleware` | internal/httpd/middleware_redirect.go:92-154 | the loop that resolves host and site address lazily answers with the first rule that passes every guard of the eager specification, and passes on exactly when none does; a Location is neither protocol-relative nor the request itself; each resolution happens at most once; a single exact path rule answers exactly the paths that are its string but for one slash |
| `Redirects.TryRule` | internal/httpd/middleware_redirect.go:96-150 | one round of the loop gives the eager target of a rule exactly when the rule passes, from lookups made at most once |
| `Redirects.ExactRuleYields` | internal/httpd/middleware_redirect.go:357-362 | an exact rule yields its target for exactly the subjects that are its string, or differ from it by one trailing slash, where a lone slash is kept |
| `Redirects.PrefixRuleYields` | internal/httpd/middleware_redirect.go:363-379 | a prefix rule takes what follows its string only where a path segment ends, and puts it behind the target with one slash between: /blog takes /blog and /blog/x and never /blogroll |
| `Redirects.PrefixRuleNeedsPrefix` | internal/httpd/middleware_redirect.go:363-377 | a prefix rule yields nothing for a subject that does not begin with its string |
| `Redirects.SkipsExactly` | internal/httpd/middleware_redirect.go:24 | path rules are skipped for exactly the paths at or below five prefixes |
| `Redirects.PathRuleAnswers` | internal/httpd/middleware_redirect.go:96-150 | a path rule passes exactly when the path is not skipped, the matcher yields, and the location is neither protocol-relative nor the request itself; the answer is 301 if permanent and 302 otherwise |
| `Redirects.HostRuleAnswers` | internal/httpd/middleware_redirect.go:100-140 | a host rule sees host and path, and completes a target on the site with the site's address, without which it does not pass |
| `Redirects.PrefixRulesInverse` | internal/httpd/middleware_redirect.go:355-405 | the prefix rules from-to and to-from undo each other on every subject they match if and only if neither ends with a slash |
| `Redirects.SlashLosesDoubledSlash` | internal/httpd/middleware_redirect.go:391-405 | with a trailing slash on either side, a subject with a doubled slash does not come back |
| `Crosspost.PostFits` | internal/domain/contentbuilder.go:61-143 | the post is within the limit if and only if it needs no link or its suffix exceeds the limit by at most the newline that stripping takes |
| `Crosspost.SuffixIsWhole` | internal/domain/contentbuilder.go:98-113 | the link is present exactly when needed; link and source are never cut, but for the newline before a link that stands alone |
| `CrosspostText.LinkedExactly` | internal/domain/contentbuilder.go:72-90 | a post is linked if and only if the settings ask for it, the article has a description, or everything it has to say does not stay under the limit, 300 if none is set |
| `CrosspostText.UnlinkedSaysEverything` | internal/domain/contentbuilder.go:92-97 | a post without a link says title, description or text, and source, whole |
| `CrosspostText.LinkedText` | internal/domain/contentbuilder.go:99-143 | a linked post says its body, the link as it is labelled, and the source; its first line break goes exactly when no body fits |
| `CrosspostText.LinkedBody` | internal/domain/contentbuilder.go:109-142 | the body fills the room that the link leaves: whichever part is cut is the longest beginning that fits with its dots |
| `Crosspost.BodyIsDrawn` | internal/domain/contentbuilder.go:115-142 | the body is a prefix of the title or of the content, or the whole title above a prefix of the content, with an ellipsis or without |
| `Crosspost.ShownWhole` | internal/domain/contentbuilder.go:115-134 | beside a link, title and content are whole if and only if they fit and the title leaves more than five characters |
| `Crosspost.BareIsStripped` | internal/domain/contentbuilder.go:110-113 | stripping the suffix takes the newline of its caption and no more |
| `Crosspost.PostSize` | internal/domain/contentbuilder.go:72-113 | the lengths the builder adds up are the weight of the text it returns, the link counting 34 in double mode |
| `Crosspost.TruncateText` | internal/domain/contentbuilder.go:163-189 | both loops compute the truncation of the next row |
| `Crosspost.TruncatedIsLongest` | internal/domain/contentbuilder.go:162-189 | the truncation is the longest prefix within the limit |
| `Crosspost.CountChars` | internal/domain/contentbuilder.go:147-160 | characters count one, or two outside ASCII in double mode |
| `Crosspost.DoubleCount` | internal/domain/contentbuilder.go:147-160 | double counting is the length plus the number of characters outside ASCII |
| `SyncSchedule.NextRunIsReal` | internal/jobs/due.go:62-94 | the announced run is the first 15-minute tick after now at which the sync is due, unless a daily sync that is not due lives in a zone off the 15-minute grid or was last run after the coming slot; an exact condition |
| `SyncSchedule.NextRunAfterAPastSync` | internal/jobs/due.go:62-94 | so it is for every schedule in every zone on the grid after any past sync |
| `SyncSchedule.DueMeans` | internal/jobs/due.go:42-60 | due at once if never synced, after more than 15 minutes, an hour, 6 hours or 7 days, 15 minutes for an unknown schedule, and daily exactly when a local 08:00 lies between the last sync and now |
| `SyncSchedule.DailyIsAnnouncedAtEight` | internal/jobs/due.go:68-70 | a daily sync that is not due is announced for the first local 08:00 after now, on the grid or not |
| `SyncSchedule.SlotIsLatest` | internal/jobs/due.go:80-88 | the daily slot is an 08:00 local time and the last at or before now |
| `SyncSchedule.SlotIsTick` | internal/jobs/due.go:15-19 | the daily slot falls on a tick exactly in the zones whose offset is a multiple of 15 minutes |
| `SyncSchedule.DueStays` | internal/jobs/due.go:48-60 | once due, a sync stays due until it runs |
| `SyncSchedule.TickAfterIsNext` | internal/jobs/due.go:90-93 | the least tick strictly after a time |
| `Pagination.PaginationWindow` | internal/templates/funcs.go:86-136 | the items run from page 1 to the last without holes but for gaps that each hide at least two pages; they show the clamped current page and exactly the window, two pages at either end and a page that would be hidden alone; at most 15 items |
| `Pagination.Window` | internal/templates/funcs.go:97-109 | nine pages, or all there are, around the current page, as central as the ends allow |
| `Pagination.WindowSpans` | internal/templates/funcs.go:111-135 | the three parts join without a hole or a short gap |
| `Pagination.WindowShows` | internal/templates/funcs.go:111-135 | which pages are shown |

## Left out

- HTTP handlers, forms, sessions, templates, feeds beyond their CDATA, admin lists, network clients, mail and platform calls: user interface and plumbing.
- Page scheduling: its enqueue is not in the page's transaction and its failures are only logged, so the publishing guarantee does not hold for pages.
- Articles that a database import brings in already scheduled: no save enqueued a row for them.
- Validation of slugs, tags and source fields in a save: one flag stands for them; payloads are decoded values, and the snapshot of platforms always parses.
- Database and disk errors, except a rollback at any statement of the article transactions and process death between steps.
- EnqueueUnlessActive and the scheduler's own loop; the two cleanup jobs appear as deletion of finished rows.
- PublishSafety.NeverStranded: assumes job ids that never come back; RowNumbers.NeverStrandedByNumber states the same for those of the schema. Both count a running row whose worker has died as still pending, as a restart requeues it; that a restart happens, and that the worker is ever scheduled, is not claimed.
- Wakeups.NoLostWakeup: leaves out runs in which a selected row is cancelled before its claim, and rows not yet due when woken, because the guarantee fails there; Wakeups.CoveredIffLossesHarmless covers every run. One worker, whose queries succeed.
- RowNumbers.NeverStrandedByNumber: leaves out runs in which a claim hits another row, because it can fail there; RowNumbers.StrayStrandsIff and RowNumbers.StrayFailureCoversIff say when, for a handler that runs without interleaving.
- JobTable.JobRuns.EnqueueJobRun: hands out fresh ids, where the schema gives the largest plus one; RowNumbers has the ids of the schema.
- Drain.Worker.DrainDue: handlers are an oracle that neither writes the table nor lets time pass; the transition system has the interleaved version.
- StaticFiles.OneOwner, StaticFiles.NothingDangles: hold under the same condition on ids as StaticFiles.NothingLeaks.
- StaticFiles.NothingLeaks: holds where no id that an exposed overwrite expects is handed out, because it can fail otherwise, as it can for StaticFiles.OneOwner. It is about table rows: an overwrite whose expected id comes back after its read purges the right row and unlinks the blob of the old key, which leaves the new blob on disk. Process death in the middle of an upload is left out, as nothing but the orphan reaper collects what it leaves.
- FileSweeps.MediaStore.Destroy: comments, tags and social posts of the article matter here only as content columns that go with it; its html archive directory is not modelled, and files are swept in any order instead of the query's.
- FileSweeps.MediaStore.ReapOrphanFiles: runs alone, as at startup; a row or blob that cannot be removed is not modelled.
- Concurrent interleavings inside Allow, floating-point rounding of tokens, and refill times beyond the range of a duration.
- TwitterSync.RunKeepsInv: the fetch is one step with an arbitrary newest id; the archiving of posts is left out.
- Redirects.RedirectMiddleware: regular expressions, URL parsing, host normalisation and the lookup of rules and site address are functions; the rule cache and rewriteHostOnlyPattern are left out.
- Replacement.TranslationKeepsMeaning: the reading of the doc comment is the meaning; the class of word characters is a parameter that holds the digits and not the closing brace, and a number above the group count reads as the empty text on both sides through the match.
- Invalid UTF-8 in any text: text is a sequence of code points.
- BuildPostURL, EffectiveMaxCharacters and the plain text extraction: the post URL and the texts are inputs.
- SyncSchedule.NextRunIsReal: zones with daylight saving are not modelled, so a day has 24 hours.
- Pagination.PaginationWindow: page numbers are unbounded, so an overflow near the largest machine integer is not modelled.
- rubyToI, rubyInteger, the page-number parsers and normalizeMatchFrom: easy members with known edge cases.
