# Durable workflows of the backend, modelled and proved

This project models the Firestore-backed workflows of `backend/database` and proves what they promise
over every run: which worker may still write, what is delivered how often, which of two concurrent
writers wins, and which aggregate counts stay true. Two in-process components, the in-memory cache and
its singleflight fetch, are modelled beside them.

`dafny verify dfyconfig.toml` checks all of it. Dafny 4.11 is assumed; there are no dependencies.

## How to read it

A Firestore transaction is one atomic step. For each one there is a function (`...Txn`) from the
documents it reads to the documents it leaves and the answer it gives, and a method of a class holding
the stored documents that works field by field as the code does and is proved to do exactly what the
function says. The theorems are about the functions. A run is a sequence of states in which each state
follows from the one before by some event: any transaction with any arguments, or a step of the rest of
the system. Crashes are steps that are never taken.

| component | modules |
|---|---|
| conversation finalization outbox | `FinalizationJobs`, `FinalizationStore` (steps and runs), `FinalizationFencing`, `FinalizationProjection`, `FinalizationRecovery`, `FinalizationBinding`, `FinalizationGrants`, `FinalizationOutbox` (class) |
| task Candidates and their integration outbox | `CandidateAnnotations`, `CandidateRecords`, `CandidateRuns`, `CandidateGrants`, `CandidateStore` (class), `IntegrationOutbox` |
| capture groups | `CaptureGroups`, `CaptureGroupRuns`, `CaptureGroupGrants`, `CaptureGroupStore` (class) |
| proactive intents | `IntentDelivery`, `IntentDeliveryRuns`, `IntentGrants`, `IntentStore` (class) |
| chat messages | `ChatMessages`, `ChatPaging` |
| conversation mutations | `ConversationMutations` |
| cache | `CacheManager` (class), `Singleflight` |

What is assumed:

- Digest-derived ids (jobs, Candidates, intents, message payloads, mutation fingerprints) are injective,
  so they are the values they are derived from. Random ids are never drawn twice.
- The clock of a run never goes back. Commit times of one conversation document strictly increase.
- Steps of the rest of the system are explicit: a processor moves or discards a conversation, a user
  edits a task, another writer edits or soft-deletes a conversation row, the account generation changes.
  In the finalization runs a processor never moves a row back to processing by itself, and in the group
  runs other writers leave the group fields alone, as `backend/database/capture_groups.py:17-19` says.
- Messages that arrive between page requests are newer than all stored ones, and rows keep their reported
  flag meanwhile.
- In the intent runs `create_intent` is not called for the re-raise source, whose intents only come from
  released deferrals, as in the callers in `backend/utils/task_intelligence/proactive_engine.py`.

Points where the code is weaker than a first reading, stated here as exact conditions:

- `mark_finalization_completed` answers true for the same epoch on a fenced job too:
  `CompletedAnswerIsSuccessUnlessFenced`, with such a job in `FencedJobIsAcknowledgedAsCompleted`.
- A replay called outside the candidate sweep can schedule a job that needs the user's own keys:
  `StepKeepsByokUnscheduledIff`.
- The `nonterminal` number of the finalization summary is queued plus leased. It leaves out blocked_byok
  jobs, which are unfinished too and are counted by the reported age: `GetJobSummary`.
- A delivered row of the integration outbox may still turn suppressed: `DeliveredTurnsSuppressedIff`. It is
  never leased or recorded again: `SettledForever`, `OneSuccessPerRow`.
- The scans that skip reported messages are bounded, so an offset page or the history sent with a request
  may be short or empty although there are messages to return, against the guarantee in the comment at
  `backend/database/chat.py:423-425`: `OffsetPageIsTrueIff`, `GetCacheAligned`, with failing chats in
  `OffsetPageCanBeEmpty` and `HistoryCanBeEmpty`.
- A capture joined with itself may end up in a group of one: `JoinKeepsConsistencyIffCompany`.
- A leave by a soft-deleted conversation tears its group apart exactly when its own copy of the record is
  stale: `LeaveKeepsConsistencyIffCurrent`, with `NewcomerMakesDeadCopyStale` for how that arises.
- Creating a cold-start intent revives one that is already dead-lettered: `ColdStartRevivesTheDead`, with a
  run in `ColdStartCollision`.
- A save without content blocks keeps the blocks of whoever came before it, so the final row depends on
  the order of delivery exactly when the highest revision omits its blocks and another save has some:
  `OrderIndependentIff`.
- The comment at `backend/database/conversation_finalization_jobs.py:51-52` says seven days for the
  abandonment of such a job; the constant below it and the function that reads it say fourteen. The age is
  a parameter of the model.

## Model

The rows come in three parts. First the laws of runs and algorithms. Then, from
`FinalizationGrants.LeaseGrantedIff` on, for each transaction when exactly it is granted and what it leaves,
said of the stored fields and the arguments. Last, from `FinalizationOutbox.Outbox.RecordProjectionDelta` on,
the methods of the classes, which say that the field-by-field code of a transaction is the step that the other
rows are about; they are no results of their own.

| member | source | states |
|---|---|---|
| FinalizationFencing.EffectEvolves | backend/database/conversation_finalization_jobs.py:542-1057 | no transaction changes a job's identity, key or shard; generation, epoch and attempts never decrease; a terminal document is not written; a new lease or completion of an unleased job needs a new epoch; completed fanout survives |
| FinalizationFencing.RunEvolves | backend/database/conversation_finalization_jobs.py:585-1057 | the same between any two moments of any run |
| FinalizationFencing.TerminalJobsAreFrozen | backend/database/conversation_finalization_jobs.py:585-650 | completed and dead-lettered jobs are absorbing: no field changes in any later run |
| FinalizationFencing.GrantIsRecorded | backend/database/conversation_finalization_jobs.py:627-650 | a granted claim is the current lease right after it, with an epoch above every earlier one |
| FinalizationFencing.GrantedEpochsIncrease | backend/database/conversation_finalization_jobs.py:585-650 | of two grants of one job in a run the later has the larger epoch and no smaller generation |
| FinalizationFencing.SecondOwnerOvertakes | backend/database/conversation_finalization_jobs.py:1381-1429 | a later grant or replay overtakes the fence of an earlier grant |
| FinalizationFencing.OvertakenWorkerWritesNothing | backend/database/conversation_finalization_jobs.py:679-1057 | with an overtaken fence complete, fence, fanout, retry and dead-letter all write nothing |
| FinalizationFencing.SupersededWorkerIsInert | backend/database/conversation_finalization_jobs.py:679-1057 | in every run, after a re-claim or replay the earlier worker can never change any document again, and is never told that it completed or fenced the job |
| FinalizationGrants.GrantsAreSpaced | backend/database/conversation_finalization_jobs.py:585-650 | one worker at a time: two grants of a job in a run are at least the first lease apart, unless its owner reported a retry in between |
| FinalizationFencing.NoFanoutAfterCompletion | backend/database/conversation_finalization_jobs.py:816-867 | once fanout is completed no later fanout claim is granted and the job is never reported fenced |
| FinalizationFencing.FanoutKeyIsStable | backend/database/conversation_finalization_jobs.py:775-781 | every fanout grant of a job in a run carries the same idempotency key |
| FinalizationFencing.OutcomesAlwaysConsistent | backend/database/conversation_finalization_jobs.py:695-797 | terminal outcome, fanout status and job status agree in every reachable state |
| FinalizationFencing.TerminalOutcomeTellsFanout | backend/database/conversation_finalization_jobs.py:695-755 | a success implies completed fanout; a fenced terminal implies fanout was never completed at any earlier moment |
| FinalizationFencing.CompletedAnswerIsSuccessUnlessFenced | backend/database/conversation_finalization_jobs.py:679-710 | a true answer means completed under this epoch, and a success exactly when the job was not fenced |
| FinalizationFencing.FencedJobIsAcknowledgedAsCompleted | backend/database/conversation_finalization_jobs.py:689-692 | a lease holder that fences its job before fanout is afterwards told that it completed it, although the outcome is stale |
| FinalizationProjection.EffectDelta | backend/database/conversation_finalization_jobs.py:223-244 | the increments a transaction records are, counter by counter, the change in what that counter should count |
| FinalizationProjection.CreateConserves | backend/database/conversation_finalization_jobs.py:450-461 | creating a job keeps every shard counter equal to the number of jobs it stands for |
| FinalizationProjection.RunConserves | backend/database/conversation_finalization_jobs.py:223-244 | after any run each counter of each shard is the number of projected jobs of that shard it names |
| FinalizationProjection.FreshProjectionIsConserved | backend/database/conversation_finalization_jobs.py:213-220 | an empty projection beside any backlog of unprojected jobs is already exact |
| FinalizationProjection.ShardTotalCounts | backend/database/conversation_finalization_jobs.py:2156-2182 | a total over the first n shards is the number of projected jobs in them |
| FinalizationProjection.TotalsBalance | backend/database/conversation_finalization_jobs.py:2156-2182 | after any run accepted = queued + leased + blocked + completed + dead-letter and success + failure + stale = completed + dead-letter, each the true count |
| FinalizationRecovery.RunKeepsSchedule | backend/database/conversation_finalization_jobs.py:936-968 | the deadline fields stay in step with status and lease in every run |
| FinalizationRecovery.NothingIsStranded | backend/database/conversation_finalization_jobs.py:1402-1457 | a job without user keys has a deadline exactly while unfinished, and the candidate query returns it exactly from that deadline on, when a replay requeues it with a higher generation |
| FinalizationRecovery.ByokNeverScheduled | backend/database/conversation_finalization_jobs.py:542-570 | a job that needs user keys never carries a deadline in a run whose replays come from the candidate query |
| FinalizationRecovery.StepKeepsByokUnscheduledIff | backend/database/conversation_finalization_jobs.py:1381-1429 | of all steps of the system, exactly the replay of a due job of that kind gives such a job a deadline |
| FinalizationRecovery.ByokJobsCanBeAbandoned | backend/database/conversation_finalization_jobs.py:1971-2081 | an unchanged queued or leased job of that kind is abandoned if and only if its lease has ended and its age is reached |
| FinalizationBinding.EffectKeepsBinding | backend/database/conversation_finalization_jobs.py:1020-1057 | a dead letter closes the spinning row bound to the job, and no transaction rebinds a row |
| FinalizationBinding.CreateKeepsBindings | backend/database/conversation_finalization_jobs.py:343-498 | a create either leaves every binding as it is or gives the conversation its first job |
| FinalizationBinding.RunKeepsBindings | backend/database/conversation_finalization_jobs.py:343-498 | rows and jobs name each other consistently in every reachable state |
| FinalizationBinding.OneJobPerConversation | backend/database/conversation_finalization_jobs.py:343-498 | at most one create call of a whole run creates a job for a conversation |
| FinalizationBinding.NoSpinnerBehindDeadLetter | backend/database/conversation_finalization_jobs.py:1020-1057 | no undeferred, undiscarded row bound to a dead-lettered job is left on processing after any run |
| FinalizationOutbox.Outbox.GetJobSummary | backend/database/conversation_finalization_jobs.py:2143-2222 | each reported number is the sum of its counter over the sixteen shards, and the reported age is the longest that any unfinished job with a creation time has waited |
| CandidateAnnotations.MergeIsIdempotent | backend/database/candidates.py:300-346 | merging the same capture twice stores the same evidence as merging it once |
| CandidateAnnotations.MergeKeepsExisting | backend/database/candidates.py:300-346 | stored evidence is never dropped or reordered by a merge, stays bounded and free of repeats, and nothing comes in but what was proposed |
| CandidateAnnotations.MergeEvidence | backend/database/candidates.py:300-346 | the loop that stops at the bound computes the bounded first occurrences of both lists |
| CandidateAnnotations.MergeProvenance | backend/database/candidates.py:349-368 | the loop computes the first occurrences of both lists, unbounded |
| CandidateRuns.CreateCases | backend/database/candidates.py:523-690 | a create recognizes its key, coalesces into the live holder of its identity, or adds one new document, and nothing else |
| CandidateRuns.RunAdvances | backend/database/candidates.py:863-1260 | between any two moments of a run a Candidate keeps its key, a terminal Candidate keeps status, task and time, and a reservation is kept or honoured |
| CandidateRuns.AnnotationsOnlyGrow | backend/database/candidates.py:300-346 | over any run no confidence or priority of a Candidate falls and stored evidence is never lost or reordered |
| CandidateRuns.BeginReserves | backend/database/candidates.py:1203-1260 | a begun promotion is reserved under exactly the task its caller is told, on every repeat too |
| CandidateRuns.StartedPromotionWins | backend/database/candidates.py:1212-1260 | once the mutation started with task T, after any run the Candidate is pending with that reservation or accepted with T |
| CandidateRuns.ReservationRefusesEverythingElse | backend/database/candidates.py:1071-1104 | under a reservation accept, reject and expire are refused without a write, and a reconcile succeeds if and only if it names T with the token of a live lease |
| CandidateRuns.ResolutionIsPermanent | backend/database/candidates.py:863-977 | a resolved Candidate keeps status, task and resolution time in every later run |
| CandidateRuns.AcceptRetryReturnsTheReceipt | backend/database/candidates.py:863-977 | every later accept in that generation returns the same receipt and writes nothing |
| CandidateGrants.AcceptedTaskExists | backend/database/candidates.py:863-977 | once a create has been newly accepted, its task and its outbox row exist in every later state of the run |
| CandidateRuns.NewDocuments | backend/database/candidates.py:490-690 | a Candidate document appears only through the create of its own key, and then holds its identity |
| CandidateRuns.LiveSuggestionKeepsItsIdentity | backend/database/candidates.py:564-690 | while a suggestion is live its identity claim keeps naming it through every step |
| CandidateRuns.OneLiveSuggestion | backend/database/candidates.py:522-690 | at any time at most one live pending suggestion exists per task-create identity and generation |
| CandidateRuns.RunKeepsAliases | backend/database/candidates.py:522-690 | an alias, once written, names the same existing Candidate for ever |
| CandidateRuns.CreateRetryReturnsTheCandidate | backend/database/candidates.py:527-560 | every later create with the key returns that Candidate, or a conflict for another proposal, and writes nothing |
| CandidateRuns.OnlyAcceptAddsRows | backend/database/candidates.py:863-977 | an outbox row is created only by the accept of a pending Candidate |
| CandidateRuns.SettledForever | backend/database/candidate_integration_outbox.py:57-96 | after a recorded success or a suppression no lease is ever granted on the row again |
| CandidateRuns.DeliveredTurnsSuppressedIff | backend/database/candidate_integration_outbox.py:67-78 | a delivered row stays as it is in every step, except that it becomes suppressed exactly when a claim or completion comes across a change of generation |
| CandidateRuns.OneSuccessPerRow | backend/database/candidate_integration_outbox.py:140-167 | no run records two successes on one row |
| CandidateRuns.OvertakenTokenReportsNothing | backend/database/candidate_integration_outbox.py:113-167 | after a later lease the earlier token can never report an outcome |
| CandidateGrants.DispatchLeasesAreSpaced | backend/database/candidate_integration_outbox.py:57-96 | one dispatcher at a time: a leased row is leased again only after the lease time, unless its owner reported or it was parked meanwhile |
| CaptureGroups.SortedKeepsMembers | backend/database/capture_groups.py:72-73 | the ordered member list is a permutation of the given members and keeps their ids distinct |
| CaptureGroups.SortedIsInOrder | backend/database/capture_groups.py:72-73 | members stand in order of start, then id |
| CaptureGroups.PrimaryOutranksAll | backend/database/capture_groups.py:66-76 | the primary is a member with the longest window, ties broken by id |
| CaptureGroups.NewRecordIsWellFormed | backend/database/capture_groups.py:72-80 | a record of 2 to 12 distinct members lists exactly them, in order, with the longest as primary |
| CaptureGroupRuns.JoinLiveIsTheGroup | backend/database/capture_groups.py:150-169 | a join reads and rewrites every live copy of the group and the two captures, and no other row |
| CaptureGroupRuns.JoinKeepsConsistency | backend/database/capture_groups.py:137-190 | a join of two captures, or of one that has company in its group, keeps all copies consistent |
| CaptureGroupRuns.JoinedMembersAreDescribed | backend/database/capture_groups.py:176-187 | the joined record is the next revision and describes every live member by its current window, with its earlier evidence, or, for a newcomer, the match with the other capture of the pair |
| CaptureGroupRuns.StayingAreListedHolders | backend/database/capture_groups.py:217-223 | the rows a leave rewrites are exactly the live holders that the leaver's copy lists |
| CaptureGroupRuns.LeaveKeepsConsistencyIffCurrent | backend/database/capture_groups.py:207-244 | a leave keeps the copies consistent if and only if the leaver's copy lists all the other live holders or none |
| CaptureGroupRuns.UndeletedCopyIsCurrent | backend/database/capture_groups.py:207-244 | the copy of a conversation that is not soft-deleted is always current |
| CaptureGroupRuns.NewcomerMakesDeadCopyStale | backend/database/capture_groups.py:217-244 | after a join that adds a capture unknown to a soft-deleted member's copy, a leave by that member breaks consistency |
| CaptureGroupRuns.JoinKeepsConsistencyIffCompany | backend/database/capture_groups.py:137-190 | a join keeps the copies consistent if and only if its captures are two, or the one has another live member in its group |
| CaptureGroupRuns.CopiesAgreeInEveryRun | backend/database/capture_groups.py:137-244 | after any run live rows of one group hold the identical record, each is listed in it, records have 2 to 12 members with the longest as primary, and closed rows are in no group |
| CaptureGroupRuns.RevisionCountsRewrites | backend/database/capture_groups.py:185-242 | in any step a live row that stays in its group keeps its record or gets exactly the next revision |
| CaptureGroupRuns.StickyLeaveSeparates | backend/database/capture_groups.py:217-229 | a sticky leave excludes every other member that the group listed |
| CaptureGroupRuns.SeparatedNeverMeet | backend/database/capture_groups.py:109-110 | in a consistent state a live row and a live row it excludes share no group and list each other nowhere |
| CaptureGroupRuns.SeparationIsPermanent | backend/database/capture_groups.py:137-244 | after a sticky leave a live leaver never lists any member listed then, alive or not, and while both are live they share no group and the other does not list the leaver, in any later run of joins through any third capture |
| IntentDeliveryRuns.StepKeepsAccount | backend/database/chat_first_intents.py:702-794 | whatever transaction runs, the attempt document bounds the hand-outs that happened and counts the requeues exactly |
| IntentDeliveryRuns.StepKeepsExclusive | backend/database/chat_first_intents.py:434-481 | outside the cold-start lane an id stays in one collection at a time and the count of an open intent stays exact |
| IntentDeliveryRuns.RunIsAccounted | backend/database/chat_first_intents.py:702-794 | both hold in every reachable state |
| IntentDeliveryRuns.DeliveryIsBounded | backend/database/chat_first_intents.py:702-794 | in every run at most 19 counted hand-outs before a requeue, at most one requeue, at most 38 in all |
| IntentDeliveryRuns.OpenIntentsAreCountedExactly | backend/database/chat_first_intents.py:702-794 | for an open intent the hand-outs that happened are 19 for each requeue plus the stored fetch count, which is below the budget; its rejections and its span of deferrals are below theirs |
| IntentDeliveryRuns.NeverActiveAndDead | backend/database/chat_first_delivery_attempts.py:123-132 | outside the cold-start lane an id is never active and dead-lettered together |
| IntentDeliveryRuns.ColdStartRevivesTheDead | backend/database/chat_first_intents.py:525-540 | cold-start creation puts an id in both collections if and only if it finds only a dead letter in the current generation |
| IntentDeliveryRuns.ColdStartCollision | backend/database/chat_first_intents.py:525-540 | a run of 22 steps that ends there |
| IntentDeliveryRuns.MeasureDecreases | backend/database/chat_first_delivery_attempts.py:148-210 | every hand-out and requeue decreases (requeues left, fetches left), and no step increases it |
| IntentDeliveryRuns.FinishedIntentsStay | backend/database/chat_first_intents.py:1254-1317 | a delivered intent keeps its receipt, and a dead letter past repair stays dead, in every later run |
| IntentGrants.NothingAfterDelivery | backend/database/chat_first_intents.py:1254-1317 | an intent stored as delivered is never handed out again and keeps its receipt, in every later run |
| IntentGrants.DeliveryEndsHandOuts | backend/database/chat_first_intents.py:745-765 | after an accepted acknowledgement or a reconciled fetch the hand-outs of a run never grow again, and the intent stays delivered with a receipt |
| ChatMessages.HighestRevisionWins | backend/database/chat.py:1231-1290 | whatever the order and duplication of compatible saves, the row carries the payload of the highest revision, and its blocks if it supplied them |
| ChatMessages.LateDeliveriesChangeNothing | backend/database/chat.py:1231-1290 | once the highest revision is in, no later delivery changes the row |
| ChatMessages.OrderIndependentIff | backend/database/chat.py:1231-1290 | the final content is the same for all orders of delivery if and only if the highest revision supplies blocks or nobody does |
| ChatMessages.OrderMatters | backend/database/chat.py:1276-1287 | otherwise two orders are given that end differently |
| ChatMessages.StepLinearizes | backend/database/chat.py:1122-1190 | a step of any of several concurrent saves keeps the row and all answers equal to those of the same saves made one at a time |
| ChatMessages.ConcurrentSavesConverge | backend/database/chat.py:1122-1212 | when all concurrent saves have answered exactly one reports created, none conflicts, and the row is that of the highest revision |
| ChatMessages.EveryStepNearsTheAnswer | backend/database/chat.py:1122-1190 | each save answers within three steps of its own, whatever the others do |
| ChatPaging.ScanPage | backend/database/chat.py:499-538 | the batches cover a contiguous run of rows within the scan budget, and the end is claimed only at the end |
| ChatPaging.ReconcilePage | backend/database/chat.py:457-541 | a page is the visible part of the rows between its cursor and the next, moves on whenever it says there is more, and is refused for exactly the bad limits and cursors |
| ChatPaging.CursorKeepsItsPlace | backend/database/chat.py:483-508 | newer rows do not move a cursor relative to the older ones |
| ChatPaging.FollowCursors | backend/database/chat.py:457-541 | following the cursor ends and returns each message visible at the first request exactly once, in order, whatever arrives in between |
| ChatPaging.GetMessages | backend/database/chat.py:281-358 | an offset page is the requested slice of the visible rows within the scan budget |
| ChatPaging.OffsetPageIsTrueIff | backend/database/chat.py:310-358 | an offset page is the requested slice of the visible rows if and only if nothing is asked for, the scan saw enough visible rows for it, it saw all there are, or the page begins past the last of them |
| ChatPaging.FewReportedRowsAreCrossed | backend/database/chat.py:310-319 | it is, if the scan meets at most a thousand reported rows |
| ChatPaging.OffsetPageCanBeEmpty | backend/database/chat.py:310-319 | behind enough reported rows the page is empty although there are visible rows to return |
| ChatPaging.HistoryGrowsAppendOnly | backend/database/chat.py:396-411 | the history window has 10 to 17 messages and grows only at its end, except that it starts eight later once every eight messages |
| ChatPaging.GetCacheAligned | backend/database/chat.py:414-453 | the aligned window is the newest visible messages of that number if and only if the bounded scan comes across that many |
| ChatPaging.FewReportedRowsKeepTheHistory | backend/database/chat.py:442-448 | it does for any chat with at most a thousand reported rows |
| ChatPaging.HistoryCanBeEmpty | backend/database/chat.py:423-453 | with 1200 reported rows in front of twenty visible ones the history is empty, although twelve messages are asked for |
| ConversationMutations.EditIsWhatWasAsked | backend/database/conversation_mutations.py:75-105 | a new title replaces both titles and keeps the rest of the structured summary, a star keeps the titles, nothing else changes, and a write happens exactly when something changes |
| ConversationMutations.ReceiptsAreForever | backend/database/conversation_mutations.py:133-227 | a receipt never changes in any later run |
| ConversationMutations.RetriesAgree | backend/database/conversation_mutations.py:229-257 | every retry reads the identical answer, and another request under the same id always conflicts |
| ConversationMutations.PatchedAtMostOnce | backend/database/conversation_mutations.py:133-227 | in any run a mutation id patches the conversation at most once, and never before its receipt exists |
| ConversationMutations.OnePatchPerMutation | backend/database/conversation_mutations.py:133-227 | no two steps of a run patch the conversation for the same mutation id |
| ConversationMutations.RevisionNamesContent | backend/database/conversation_mutations.py:116-122 | the same revision at two moments of a run means the same document |
| ConversationMutations.PatchOnlyOnTopOfBase | backend/database/conversation_mutations.py:133-227 | a patch is applied to exactly the document the client saw under its base revision |
| ConversationMutations.OkAnswersMatchTheCommit | backend/database/conversation_mutations.py:183-257 | the answer is ok exactly when the base was current, and then shows the conversation and revision right after that commit, on every retry; otherwise nothing changed |
| CacheManager.EvictionKeepsLongestFit | backend/database/cache_manager.py:198-209 | what an eviction keeps fits beside the new entry, and no longer most-recently-used run does |
| CacheManager.Cache.Get | backend/database/cache_manager.py:68-94 | a hit returns the latest value set for the key, unexpired, and moves it to the end; a miss leaves no entry for the key; the byte count stays exact |
| CacheManager.Cache.Set | backend/database/cache_manager.py:143-166 | the plain map gets the entry, the cache keeps it after the entries that eviction leaves, and the size limit holds unless this entry is alone |
| CacheManager.Cache.EvictIfNeeded | backend/database/cache_manager.py:198-209 | the loop drops exactly the least recently used entries that have to go |
| CacheManager.Cache.Delete | backend/database/cache_manager.py:168-196 | the key leaves the plain map and the cache, the others keep their order |
| CacheManager.Cache.Clear | backend/database/cache_manager.py:178-185 | everything is empty and the statistics are zero |
| Singleflight.StepKeepsInv | backend/database/cache_manager.py:111-141 | every step of every thread keeps the tables, counts, locks and holders consistent |
| Singleflight.OneFetcherPerKey | backend/database/cache_manager.py:111-141 | at most one thread per key is inside the fetch function, in any interleaving |
| Singleflight.TablesAreExact | backend/database/cache_manager.py:114-141 | the count is the number of registered threads and all of them refer to the one lock in the table |
| Singleflight.TablesDrain | backend/database/cache_manager.py:134-141 | both tables are empty when nobody is registered |
| Singleflight.FetchesAreSeparated | backend/database/cache_manager.py:120-141 | two entries into the fetch function for one key, by whichever threads, are separated by a fetch that kept nothing or by the loss of the kept entry |
| Singleflight.FetchOnlyWhatIsMissing | backend/database/cache_manager.py:122-128 | a thread enters the fetch function only while it holds the lock and the key is not cached |
| Singleflight.SlowPathOnlyOnMiss | backend/database/cache_manager.py:111-113 | a thread enters the slow path only for a key that is not cached |
| Singleflight.ThreadsMoveOn | backend/database/cache_manager.py:114-141 | what each step of a thread comes to: it shares the lock in the table, waits while the lock is held, returns the cached value or fetches, and leaves |
| Singleflight.SomeoneCanMove | backend/database/cache_manager.py:111-141 | no deadlock: in every reachable state with a thread inside, some thread can take its next step |
| FinalizationGrants.LeaseGrantedIff | backend/database/conversation_finalization_jobs.py:585-650 | a lease is granted exactly on an unowned job of the named user and conversation, in its generation, with the keys it needs; it runs for the time asked under the next epoch and changes no other field |
| FinalizationGrants.LeaseRefusals | backend/database/conversation_finalization_jobs.py:600-626 | which refusal a claim gets |
| FinalizationGrants.CompletionGrantedIff | backend/database/conversation_finalization_jobs.py:679-710 | a completion is written exactly by the lease holder after fanout, and acknowledged again under its epoch |
| FinalizationGrants.FenceGrantedIff | backend/database/conversation_finalization_jobs.py:729-797 | a fence is written exactly by the lease holder before fanout was claimed |
| FinalizationGrants.FanoutGrantedIff | backend/database/conversation_finalization_jobs.py:804-867 | fanout is granted exactly to the lease holder of a job that still owns its completed, kept conversation at its revision; otherwise the holder ends the job as stale |
| FinalizationGrants.FanoutCompletionGrantedIff | backend/database/conversation_finalization_jobs.py:891-914 | fanout completion is written exactly by the lease holder, and acknowledged again under the fanout epoch |
| FinalizationGrants.RetryGrantedIff | backend/database/conversation_finalization_jobs.py:936-968 | a retry is granted exactly to the lease holder; it counts one attempt and gives the lease up |
| FinalizationGrants.DeadLetterGrantedIff | backend/database/conversation_finalization_jobs.py:993-1057 | a dead letter is granted exactly to the lease holder and closes exactly the row still waiting for the job |
| FinalizationGrants.ResumeGrantedIff | backend/database/conversation_finalization_jobs.py:542-570 | a session resumes exactly a job blocked on its keys |
| FinalizationGrants.ReplayGrantedIff | backend/database/conversation_finalization_jobs.py:1381-1429 | a replay requeues exactly a job whose lease ended or whose dispatch is a window old, under the next generation |
| FinalizationGrants.AbandonmentGrantedIff | backend/database/conversation_finalization_jobs.py:1971-2081 | abandonment ends exactly an unowned job of that kind that is as scanned and idle since the cutoff, and completes exactly the row waiting for it |
| FinalizationGrants.JobCreatedIff | backend/database/conversation_finalization_jobs.py:343-498 | a create makes a job exactly for an admitted, undeferred conversation with content and no job; what job and binding it leaves |
| CandidateGrants.AcceptGrantedIff | backend/database/candidates.py:863-950 | an accept is granted exactly on an accepted Candidate, or a pending task proposal held by no promotion with good links and target |
| CandidateGrants.AcceptResolves | backend/database/candidates.py:863-977 | a granted accept leaves the resolved Candidate the receipt speaks of; a repeated one leaves everything |
| CandidateGrants.AcceptedCreateMakesItsTask | backend/database/candidates.py:891-967 | an accepted create leaves its task, made from the proposal and traced to the Candidate, and a fresh outbox row |
| CandidateGrants.AcceptedChangeWritesItsTarget | backend/database/candidates.py:913-953 | an accepted change writes the changed target task and no outbox row |
| CandidateGrants.CloseGrantedIff | backend/database/candidates.py:995-1035 | a reject or expire is granted exactly on a Candidate so closed, or pending and held by no promotion, and changes only that document |
| CandidateGrants.ReconcileGrantedIff | backend/database/candidates.py:1059-1107 | a reconcile is granted exactly to a status already reached, to the owner of a started promotion for its task, or on a pending Candidate that none holds |
| CandidateGrants.PromotionClaimedIff | backend/database/candidates.py:1128-1177 | a promotion is claimed exactly when nobody owns it now, or to resume; a started one changes hands with its reservation |
| CandidateGrants.PromotionBegunIff | backend/database/candidates.py:1202-1262 | a promotion begins exactly for the owner of a running lease; which task it reserves |
| CandidateGrants.CreateGrantedIff | backend/database/candidates.py:522-690 | when a create is refused, and when exactly it adds a new suggestion |
| CandidateGrants.CaptureIsTakenIn | backend/database/candidates.py:300-346 | a capture taken in keeps everything of the holder but the annotations, and takes the stronger of each |
| CandidateGrants.TaskIsAnnotated | backend/database/candidates.py:610-665 | the task of an accepted holder is strengthened exactly then, and no other task is touched |
| IntegrationOutbox.DispatchGrantedIff | backend/database/candidate_integration_outbox.py:57-96 | a dispatch lease is granted exactly, within one generation, on a waiting row or one worked on for the lease time |
| IntegrationOutbox.OutcomeRecordedIff | backend/database/candidate_integration_outbox.py:113-167 | an outcome is recorded exactly for the token the row is worked on under; the fifth failure parks it |
| IntegrationOutbox.RedrivenIff | backend/database/candidate_integration_outbox.py:182-195 | a redrive wakes exactly a parked row of the generation |
| IntegrationOutbox.MalformedParkedIff | backend/database/candidate_integration_outbox.py:211-233 | a malformed row is parked exactly if it is not at rest |
| CaptureGroupGrants.JoinGrantedIff | backend/database/capture_groups.py:137-190 | a join is granted exactly for two fit captures, unedited since the evidence, not in different groups, that already make up their group or are at most twelve with its live members and not separated |
| CaptureGroupGrants.JoinBringsTogether | backend/database/capture_groups.py:170-190 | after a granted join every member holds one record with the returned id that lists exactly the members; all else stays |
| CaptureGroupGrants.LeaverIsReleased | backend/database/capture_groups.py:207-229 | the leaver loses its group and gets exactly the asked marks, separations only if sticky |
| CaptureGroupGrants.OthersAreRegrouped | backend/database/capture_groups.py:217-244 | two or more that stay get the next revision listing just them, a single one is freed, no other row changes |
| CaptureGroupGrants.StayingMembersAreDescribed | backend/database/capture_groups.py:235-240 | a member that stays is listed by its current window with the evidence it had |
| CaptureGroupGrants.PriorEvidenceIsTheMembers | backend/database/capture_groups.py:176-184 | evidence is carried over from the listed member of that id |
| CaptureGroupGrants.RecordReads | backend/database/capture_groups.py:66-80 | a record is sorted by start, unknown first, then id, and no member lasts longer than the primary |
| IntentGrants.CreateGrantedIff | backend/database/chat_first_intents.py:434-481 | a create is granted exactly for the same content again, or for a new id within the turn budget, and stores only the latter |
| IntentGrants.ColdStartGrantedIff | backend/database/chat_first_intents.py:525-542 | a cold start returns the stored one or stores a new one awaiting its receipt |
| IntentGrants.DeferralRecordedIff | backend/database/chat_first_intents.py:1350-1371 | a question is deferred once; another one under its key conflicts |
| IntentGrants.QuestionReleasedIff | backend/database/chat_first_intents.py:1522-1545 | a pending deferral is released once, as the question it held |
| IntentGrants.FetchComesTo | backend/database/chat_first_intents.py:715-794 | a fetch counts exactly on a deliverable intent, and then delivers, parks at the twentieth, or hands out |
| IntentGrants.RetiredIff | backend/database/chat_first_intents.py:883-911 | exactly a ready, never fetched receipt of captures is retired |
| IntentGrants.RejectionCountsIff | backend/database/chat_first_intents.py:1142-1193 | a rejection counts exactly for the permanent codes on a deliverable intent; the third parks it |
| IntentGrants.SuppressionNotedIff | backend/database/chat_first_intents.py:1211-1251 | a suppression is noted exactly on a deliverable intent; seven days after the first it is parked |
| IntentGrants.AcknowledgedIff | backend/database/chat_first_intents.py:1271-1317 | an acknowledgement stores a deliverable intent as delivered with its receipt and time; when it is refused |
| IntentGrants.RequeuedIff | backend/database/chat_first_delivery_attempts.py:148-210 | a dead letter is requeued exactly if transient, not yet requeued and six hours old, with fresh counts |
| ChatMessages.ArbitrationEnds | backend/database/chat.py:1231-1313 | when a save conflicts, updates or changes nothing, and what an update replaces |
| ChatMessages.OldRowConflictsIff | backend/database/chat.py:1350-1367 | when a save conflicts with a row older than the digests |
| ChatMessages.CreatedRowHoldsTheSave | backend/database/chat.py:1145-1168 | a created row holds the save as it came |
| ChatMessages.DigestTellsRequestsApart | backend/database/chat.py:1370-1392 | two saves share a digest exactly if they agree in all the caller controls |
| ChatPaging.ScanBudgetReads | backend/database/chat.py:499-501 | the scan budget for every limit a request may have |
| ConversationMutations.MutationJudgedIff | backend/database/conversation_mutations.py:133-227 | which verdict a request gets, and what exactly it stores |
| ConversationMutations.ProjectionReads | backend/database/conversation_mutations.py:44-56 | how a stored document reads in a response |
| FinalizationOutbox.Outbox.RecordProjectionDelta | backend/database/conversation_finalization_jobs.py:223-244 | the shard of the job gets exactly the nonzero increments, other shards nothing |
| FinalizationOutbox.Outbox.CreateOrGetIntent | backend/database/conversation_finalization_jobs.py:343-498 | the stored documents and the answer are those of the create transaction, in all its branches |
| FinalizationOutbox.Outbox.ResumeBlockedByokJob | backend/database/conversation_finalization_jobs.py:542-570 | the documents and answer of the resume transaction |
| FinalizationOutbox.Outbox.ClaimJob | backend/database/conversation_finalization_jobs.py:585-650 | the documents and answer of the claim transaction, with its order of refusals |
| FinalizationOutbox.Outbox.MarkFinalizationCompleted | backend/database/conversation_finalization_jobs.py:679-710 | the documents and answer of the completion transaction |
| FinalizationOutbox.Outbox.MarkFinalizationFenced | backend/database/conversation_finalization_jobs.py:729-756 | the documents and answer of the fencing transaction |
| FinalizationOutbox.Outbox.ClaimFinalizationFanout | backend/database/conversation_finalization_jobs.py:816-867 | the documents and answer of the fanout claim, including the fence for a row that no longer admits fanout |
| FinalizationOutbox.Outbox.MarkFinalizationFanoutCompleted | backend/database/conversation_finalization_jobs.py:891-914 | the documents and answer of the fanout completion |
| FinalizationOutbox.Outbox.MarkFinalizationRetryable | backend/database/conversation_finalization_jobs.py:936-968 | the documents and answer of the retry transaction |
| FinalizationOutbox.Outbox.MarkFinalizationDeadLetter | backend/database/conversation_finalization_jobs.py:993-1057 | the documents and answer of the dead-letter transaction, with the row it closes |
| FinalizationOutbox.Outbox.ClaimFinalizationReplay | backend/database/conversation_finalization_jobs.py:1381-1429 | the documents and answer of the replay transaction |
| FinalizationOutbox.Outbox.AbandonByokJob | backend/database/conversation_finalization_jobs.py:1971-2081 | the documents and answer of the abandonment, with what happens to the row |
| CandidateStore.Candidates.CreateCandidate | backend/database/candidates.py:490-690 | the documents and answer of the create transaction, in all its branches |
| CandidateStore.Candidates.ResolveTaskCandidate | backend/database/candidates.py:849-977 | the documents and answer of the accept transaction |
| CandidateStore.Candidates.ResolveWithoutMutation | backend/database/candidates.py:980-1035 | the documents and answer of the reject or expire transaction |
| CandidateStore.Candidates.ReconcileMigratedCandidate | backend/database/candidates.py:1038-1107 | the documents and answer of the reconcile transaction |
| CandidateStore.Candidates.ClaimForLegacyPromotion | backend/database/candidates.py:1110-1177 | the documents and answer of the promotion claim |
| CandidateStore.Candidates.BeginLegacyPromotion | backend/database/candidates.py:1180-1262 | the documents and answer of the begin transaction |
| IntegrationOutbox.OutboxDocument.Claim | backend/database/candidate_integration_outbox.py:57-96 | the row and lease of the claim transaction, generation before status |
| IntegrationOutbox.OutboxDocument.Complete | backend/database/candidate_integration_outbox.py:113-167 | the row and answer of the completion transaction |
| IntegrationOutbox.OutboxDocument.RedriveDeadLetter | backend/database/candidate_integration_outbox.py:182-195 | the row and answer of the redrive |
| IntegrationOutbox.OutboxDocument.DeadLetterMalformed | backend/database/candidate_integration_outbox.py:211-233 | the row and answer of the malformed dead letter |
| CaptureGroupStore.Conversations.WriteAll | backend/database/capture_groups.py:186-187 | exactly the listed documents get the value in their group field |
| CaptureGroupStore.Conversations.Join | backend/database/capture_groups.py:137-190 | the documents and answer of the join transaction, in all its branches |
| CaptureGroupStore.Conversations.Leave | backend/database/capture_groups.py:207-244 | the documents and answer of the leave transaction, in all its branches |
| IntentStore.Intents.MoveToDeadLetters | backend/database/chat_first_delivery_attempts.py:109-132 | the intent leaves the active collection and its full terminal record enters the other |
| IntentStore.Intents.CreateIntent | backend/database/chat_first_intents.py:434-481 | the documents and answer of the create transaction; no other id is touched |
| IntentStore.Intents.CreateColdStartIntent | backend/database/chat_first_intents.py:525-542 | the documents and answer of the cold-start create; no other id is touched |
| IntentStore.Intents.RecordQuestionDeferral | backend/database/chat_first_intents.py:1350-1371 | the documents and answer of the deferral record; no other id is touched |
| IntentStore.Intents.ReleaseQuestion | backend/database/chat_first_intents.py:1522-1545 | the documents and answer of the release; no other id is touched |
| IntentStore.Intents.AdvanceFetched | backend/database/chat_first_intents.py:715-794 | the documents and outcome (missed, reconciled, parked with a reason, handed out with its attempt) of one fetch; no other id is touched |
| IntentStore.Intents.RetireCaptureReceipt | backend/database/chat_first_intents.py:883-911 | the documents and answer of the retirement; no other id is touched |
| IntentStore.Intents.RecordRejection | backend/database/chat_first_intents.py:1142-1193 | the documents, returned intent and reason of the rejection; no other id is touched |
| IntentStore.Intents.RecordSuppression | backend/database/chat_first_intents.py:1211-1251 | the documents and returned intent of the suppression; no other id is touched |
| IntentStore.Intents.AcknowledgeMaterialization | backend/database/chat_first_intents.py:1271-1317 | the documents and answer of the acknowledgement; no other id is touched |
| IntentStore.Intents.RequeueTransientDeadLetter | backend/database/chat_first_delivery_attempts.py:148-210 | the documents and answer of the requeue; no other id is touched |
| ChatMessages.MessageDocument.ApplyExistingRevision | backend/database/chat.py:1231-1290 | the stored row and outcome of the arbitration |
| ChatMessages.MessageDocument.SaveMessage | backend/database/chat.py:1092-1212 | the stored row and outcome of a save, and a session counter that moves only for the save that created the row |
| ConversationMutations.ConversationDocuments.Commit | backend/database/conversation_mutations.py:133-227 | conversation, receipts and verdict of the transaction |
| ConversationMutations.ConversationDocuments.ApplyMutation | backend/database/conversation_mutations.py:108-257 | a failed call changes nothing; a committed one answers from its receipt |

## Left out

- Meeting receipts, the deferred lane and orphaned processing rows of the finalization file: lanes with their own owners that do not write the job fields modelled here.
- The paging cursors of the sweeps and their query limits: only which rows a candidate query may return is modelled.
- FinalizationOutbox.Outbox.CreateOrGetIntent: the content and admission checks and the shard number are parameters, and the client projection and metadata written beside the job are left out.
- Write-only timestamps and metric labels.
- CandidateStore.Candidates.ResolveTaskCandidate: the verdict of the relationship checks and the patched task are parameters.
- The compatibility score and metadata of Candidates, and backoff times of the integration outbox row.
- IntentStore.Intents.CreateIntent: the turn budget's answer is a parameter, and its reservation is not stored.
- IntentStore.Intents.AdvanceFetched: attempt documents are taken as well formed, so their repair is left out, and a reconciled turn is not entered in the turn budget.
- IntentStore.Intents.AcknowledgeMaterialization: the consumed turn is not entered in the turn budget.
- The scan of a fetch batch (order, priority, the choice of capture receipts to retire, stall telemetry, re-offers of intents a device deferred, which count no fetch): the run theorems hold for every order in which the batch could call its transactions.
- Repair of malformed intents and the terminal receipt of a sparse cold-start sequence.
- Messages saved without a client message id, deletion of messages while saves of the same id are in flight, session records other than the counter.
- Attaching conversations and files to returned messages, encryption, compression and search hooks.
- Malformed mutation receipts and receipts without an update time.
- CacheManager.Cache.Set: the size estimate of a value is a parameter.
- Singleflight.OneFetcherPerKey: storing the fetched value and releasing the lock are one step, as are the second look and the start of the fetch.
- Firestore retries, Redis, Cloud Tasks, and the routers and services above these modules.
