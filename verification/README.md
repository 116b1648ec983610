# Verification of the XHS edge queue and the scripts around it

This project models, in Dafny, the parts of the repository whose correctness depends on many steps
fitting together, and proves what they promise.

* **The durable job queue** of the XHS edge service (`xhs-intel/store.py`). Every
  `with self.connect()` block is one atomic transaction, so the service is a transition system over
  its tables. `Tables.dfy` holds the rows, `Transactions.dfy` one function per transaction and the
  runs made of them, `JobMoves.dfy` everything one transaction can do to one job, `QueueInvariant.dfy`
  the inductive invariant and what no transaction takes back.
  `QueueProperties.dfy`, `RunCoupling.dfy`, `Leases.dfy` and `Screening.dfy` state what follows for
  every run: any interleaving of workers, retries, expired leases and restarts, with an arbitrary
  clock unless said otherwise. `TransactionEffects.dfy` and `ScreeningAnswers.dfy` say column by column
  what transactions write, the second entry by entry of a screening answer. `Store.dfy` is the store itself, a class whose methods update its
  tables in place, each proved to be the transaction of the same name.
* **Delivery** of finished jobs to the chat in parts, with crashes anywhere (`DeliveryChunks.dfy`,
  `Delivery.dfy`, `Sending.dfy`), and the **worker's screening call** (`Classify.dfy`).
* **The migration gate** (`MigrationGate.dfy`) and **the collaboration branch**: `CollabBranch.dfy` holds
  the steps over commits, refs and checkouts, `CollabInvariant.dfy` what every step keeps,
  `CollabProperties.dfy` what follows for every run, `CollabRuns.dfy` what an undisturbed run comes to,
  `CollabWitnesses.dfy` runs that show where the guarantees end.
* **The resumable minute-history fetch** (`MinuteFetch.dfy`), the **commit watcher**
  (`CommitWatch.dfy`, `WatchMessage.dfy`) and the **weekly clock** of the supervisor
  (`WeeklyClock.dfy`).

Conventions. SHA-256 digests are injective: a job id is a datatype constructor applied to what the
source digests. Lease tokens come from a counter that never repeats. The clock, the answers of SELECT
statements whose order the database chooses, the answers of models and web services, and the moments
of crashes are arguments. A transaction that raises leaves the database as it was. Lemmas that range
over a `run` hold for every sequence of transactions from an empty database.

## What the proofs found

* The docstring of `scripts/collab_branch.py` says that a push is refused when main moved during the
  check. A push is accepted exactly when main is still at the base or the merged branch commit already
  contains it (`CollabProperties.AcceptedIff`); in the second case the comparison may have been made
  with another main (`CollabProperties.UncomparedIff`), and the push can take a migration off it
  (`CollabWitnesses.OutsidePushSlipsThrough`, exactly when: `CollabProperties.OutsidePushCostsIff`).
  Nothing else the script does can (`CollabProperties.MainIsAppendOnly`). A push to main from outside
  opens the way exactly when a fetched or merged branch commit contains it
  (`CollabProperties.OutsidePushIsHarmlessIff`).
* The history test, the count and the merge resolve the tracked branch one after the other. If the
  branch is rewritten and fetched in between, an accepted push loses what main had taken in before
  (`CollabWitnesses.RewrittenTipSlipsThrough`), exactly when the merged commit does not contain it
  (`CollabProperties.PushKeepsHistoryIff`).
* A sync can drop a migration of the branch tip it replaces when the branch is forced back
  (`CollabWitnesses.ForcedBranchLosesMigration`). On a branch that only moves forward it can only if the
  branch has caught up with the main that the sync merged (`CollabProperties.SyncUncomparedIff`,
  `CollabWitnesses.CaughtUpBranchLosesMigration`).
* The worker accepts a note-screening answer that names its note under `note_id`; the store refuses
  it. Answers pass both exactly when every entry has a `candidate_id`
  (`Classify.NoteFilterAsksForCandidateIds`, `Classify.NoteIdAnswerIsRefused`).
* The start-up backfill repairs every legacy run with one summary job except a run marked ready or
  sent ahead of it and a waiting run whose summary is completed (`RunCoupling.BackfillRepairs`,
  `RunCoupling.BackfillLeavesReadyRun`).
* A collection that ends on a run which already has its filter hides the filter
  (`RunCoupling.RecollectionHidesTheFilter`), and a failed filter retried as a plain job leaves its run
  failed. Every run has the status its jobs determine exactly as long as neither happens
  (`RunCoupling.StepIsDeterminedIff`, `RunCoupling.RunsAreDetermined`).
* When more than fifty commits arrive between two polls and the newest fifty are all by others, the
  watcher drops earlier executor commits without a message (`CommitWatch.SilentLoss`); how many it
  drops is stated exactly (`CommitWatch.CommitsAreConserved`, `CommitWatch.SilenceDrops`).
* A weekly run whose success is on record repeats when the clock goes back before it
  (`WeeklyClock.RewoundClockRepeats`), and also when the clock goes back to between it and a later run
  that failed and a start catches up (`WeeklyClock.FailedReceiptRepeats`). Which readings of the clock
  do this is stated exactly (`WeeklyClock.TakesUpSettledIff`, `WeeklyClock.NothingRepeatsIff`); any other
  clock, running back or not, is harmless (`WeeklyClock.RecordedSuccessIsFinal`).

## Model

| member | source | states |
|---|---|---|
| `JobMoves.EveryMove` | xhs-intel/store.py:220-433 | whatever the transaction, a job is left alone, appears pending without a lease (or ready, if it needs no worker), or changes in the one way that transaction allows, and only under its guard |
| `JobMoves.TokensAndParts` | xhs-intel/store.py:338-421 | only claims issue tokens and only the ledger's own transaction writes it |
| `QueueInvariant.NextKeeps` | xhs-intel/store.py:162-174 | every transaction keeps the invariant that ties jobs, notes, runs, items and decisions together, and takes back no result, routing, body or decision |
| `QueueInvariant.CoverageIsBijection` | xhs-intel/store.py:636-639 | the store's test (same set of ids, as many entries as candidates) makes the decisions a bijection onto the candidates: no malformed, foreign or repeated entry |
| `QueueProperties.CompletionIsFinal` | xhs-intel/store.py:355-386 | over every run a job has at most one accepted completion, made with the last token issued; afterwards it is never claimed, completed, failed or retried, and its result stays |
| `QueueProperties.LeaseIsLastIssued` | xhs-intel/store.py:338-345 | the token stored with a job is the one of the last claim granted on it |
| `QueueProperties.ProgressIsMonotone` | xhs-intel/store.py:355-433 | open, completed, ready, sent never goes back; a result is present exactly in completed, ready and sent and never changes |
| `QueueProperties.KindCannotGoStale` | xhs-intel/store.py:355-366 | reading the job type in one transaction and acting in another gives, whatever runs in between and for every token issued by then, what one atomic transaction would give |
| `QueueProperties.StaleTokensAreFenced` | xhs-intel/store.py:347-409 | a heartbeat, completion or failure with any token but the current one changes nothing |
| `QueueProperties.RepeatedAnswer` | xhs-intel/store.py:370-374 | repeating an accepted answer changes nothing: a duplicate for summaries, a conflict for screenings |
| `RunCoupling.WaitingRunsHaveTheirJob` | xhs-intel/store.py:381-386 | in every reachable state a waiting run has its job: filter pending or processing, one summary job, open, ready or sent as the run says |
| `RunCoupling.BackfillIsIdentity` | xhs-intel/store.py:140-160 | the backfill changes no state this code can reach |
| `RunCoupling.BackfillIsIdempotent` | xhs-intel/store.py:140-160 | running the backfill twice is running it once, on any database |
| `RunCoupling.BackfillRepairs` | xhs-intel/store.py:140-160 | on any legacy run with one summary job, the backfilled run agrees with that job exactly when it was not marked ready or sent ahead of it and does not wait for a completed one |
| `RunCoupling.BackfillLeavesReadyRun` | xhs-intel/store.py:140-160 | a concrete row that stays wrong: a ready run over a pending summary |
| `RunCoupling.StepIsDeterminedIff` | xhs-intel/store.py:591-595 | from a state in which every run has the status its jobs determine, a transaction leads to such a state exactly when it ends no collection on a run with a filter and retries no failed filter as a plain job |
| `RunCoupling.RunsAreDetermined` | xhs-intel/store.py:591-682 | over whole runs: every state has every run at exactly the status its jobs determine if and only if no transaction did either of these |
| `RunCoupling.RecollectionHidesTheFilter` | xhs-intel/edge_api.py:350-359 | a second collection leaves a waiting filter under a collected run |
| `Leases.ClaimGrantedIffEligible` | xhs-intel/store.py:331-337 | a claim is granted exactly when the lane has an eligible job |
| `Leases.ClaimGrantsIff` | xhs-intel/store.py:331-337 | in the columns of the rows: a claim grants a job exactly when it is pending and due, or processing with a lease that ran out, belongs to the lane, and goes before every other such job, single notes first, then the oldest |
| `Leases.AloneIsGranted` | xhs-intel/store.py:331-345 | a pending job whose delay is over and that is alone in its lane is granted at once |
| `Leases.LanesPartition` | xhs-intel/store.py:328-336 | the interactive and batch lanes split the eligible jobs |
| `Leases.SingleNotesGoFirst` | xhs-intel/store.py:334-335 | while a single note waits, nothing but an older single note is granted on the interactive or unrestricted lane |
| `Leases.HeldOrClaimable` | xhs-intel/store.py:331-353 | at any instant a processing job is completable by its holder or claimable by others, never both |
| `Leases.HeartbeatsKeepTheJob` | xhs-intel/store.py:347-353 | while every clock reading is within 180 s of the holder's last heartbeat, whatever others do, the job stays with its token and its completion would be accepted |
| `Leases.BeatInterval` | xhs-intel/local_worker.py:486-506 | two of the worker's intervals fit into the store's lease, and into any granted one of 20 seconds or more |
| `Leases.AtMostFiveFailures` | xhs-intel/store.py:388-401 | between two resets of attempts at most five failures of a job are accepted, whatever leases expire |
| `Leases.BackoffIsRespected` | xhs-intel/store.py:333-401 | over every run and any clocks: after an accepted failure that leaves the job pending, the next claim granted on it reads a time at least 120, 240, 480 or 960 s later, by how often it had been claimed |
| `Leases.BackoffRange` | xhs-intel/store.py:396-401 | a job left pending by a failure becomes due 120, 240, 480 or 960 s later; the cap of 3600 is never reached |
| `Leases.AttemptsAreClaims` | xhs-intel/store.py:338-345 | over every run, attempts is the number of claims granted since the job appeared or was last reset |
| `Leases.FifthClaimIsTheLast` | xhs-intel/store.py:394-401 | an accepted failure ends the job exactly when it has been claimed five times since then |
| `Leases.ResetStartsAfresh` | xhs-intel/store.py:1031-1056 | a retry or renewed request leaves a failed job pending, due at once, with all its claims; only a plain retry keeps the old lease |
| `Screening.RoutedOnce` | xhs-intel/store.py:281-321 | a note is routed once and stays there; its body never changes |
| `Screening.BatchesAreExact` | xhs-intel/store.py:293-321 | a batch job carries exactly the notes assigned to it, each once and in order; watched notes only in summaries, others only in screenings |
| `Screening.BatchNeverCollides` | xhs-intel/store.py:303-321 | the plain INSERT of a batch never meets an existing job |
| `Screening.BatchShrinksPool` | xhs-intel/store.py:287-321 | each call takes a non-empty set of notes out of the unassigned ones and leaves the others |
| `Screening.OnlyPermittedNotesAreSummarised` | xhs-intel/store.py:627-739 | a note in any summary is by a watched author or has a recorded include decision, in that state and in every later one |
| `Screening.DecisionsAreWriteOnce` | xhs-intel/store.py:656-662 | no recorded screening decision is overwritten by any later step |
| `Screening.RulingsMatchCandidates` | xhs-intel/store.py:636-645 | an accepted answer rules on every candidate exactly once |
| `ScreeningAnswers.FilterAcceptedIff` | xhs-intel/store.py:631-652 | a recommendation filter is accepted exactly from the holder of its lease, with an answer whose entries each have a verdict and two scores from 0 to 1 and name every candidate exactly once and nothing else |
| `ScreeningAnswers.FilterRecordsTheAnswer` | xhs-intel/store.py:640-682 | entry by entry: the screening row and the item of the id an entry names hold that entry's verdict, all other rows are as before; the summary carries exactly the notes whose entry includes them, as stored, each once; the run's tallies count the entries |
| `ScreeningAnswers.NoteFilterAcceptedIff` | xhs-intel/store.py:688-714 | the same for note screenings, whose entries must name notes by candidate id |
| `ScreeningAnswers.NoteFilterRecordsTheAnswer` | xhs-intel/store.py:701-739 | entry by entry: the topic row of the note named holds the entry's verdict; the summary carries exactly the included notes |
| `ScreeningAnswers.ProfileFilterAcceptedIff` | xhs-intel/store.py:910-935 | the same for profile screenings |
| `ScreeningAnswers.ProfileFilterRecordsTheAnswer` | xhs-intel/store.py:923-944 | entry by entry: the profile row of the user named holds the entry's verdict; nothing else changes but the job |
| `Screening.CountsAddUp` | xhs-intel/store.py:640-665 | include, review and exclude add up to the number of decisions |
| `Screening.FilterAccountsForEveryCandidate` | xhs-intel/store.py:627-682 | classified equals the number of candidates and the three tallies, each tally equals the items standing at that verdict, and a summary with one note per inclusion exists exactly when something was included |
| `Screening.NoDeliveryRequestIsLost` | xhs-intel/store.py:243-263 | the delivery flag of a single-note job is the OR of all requests so far; completed implies it is false, ready or sent that it is true |
| `TransactionEffects.OldestUnassignedIs` | xhs-intel/store.py:290-292 | the rows read are waiting notes, each once, oldest first; one left out comes after all of them and only when the limit is full |
| `TransactionEffects.BatchIsQueued` | xhs-intel/store.py:290-321 | a job appears with exactly the watched rows read, or with all rows if none is watched, with their bodies as stored; those notes and no others change hands |
| `TransactionEffects.SingleIsRequested` | xhs-intel/store.py:220-279 | a request makes the job with what was asked, or is folded in: delivery is the OR, a live fetch replaces a cached body, a failed job is reopened with a fresh budget, a completed one becomes ready when delivery is wanted |
| `TransactionEffects.FilterIsQueued` | xhs-intel/store.py:597-625 | the filter asks about every item of the run that has a note and about no other, each once and by rank, with the bodies as stored; run and items are queued |
| `TransactionEffects.SummaryIsAnswered` | xhs-intel/store.py:363-386 | the exact condition for each reply, and what an accepted summary leaves in the job and its run |
| `TransactionEffects.FailureSpreads` | xhs-intel/store.py:388-409 | only the failure that ends a filter reaches its run and its queued items, and no others |
| `TransactionEffects.RetrySpreads` | xhs-intel/store.py:1035-1056 | retrying a failed filter takes its run and exactly its failed items back to the queue |
| `EdgeStore.Store.Open` | xhs-intel/store.py:140-160 | opening a database is the backfill, and the identity on a valid one |
| `EdgeStore.Store.Rollback` | xhs-intel/store.py:169-171 | an exception inside a transaction leaves the saved state |
| `EdgeStore.Store.AddNote` | xhs-intel/store.py:176-184 | a known revision is left alone, a new one is stored unassigned |
| `EdgeStore.Store.SelectPending` | xhs-intel/store.py:290-292 | the answer is an oldest-first prefix of the unassigned notes, empty only when there are none or the limit is 0 |
| `EdgeStore.Store.ChooseBatch` | xhs-intel/store.py:294-303 | watched rows go to a summary if there are any, else all rows to a screening, in order |
| `EdgeStore.Store.EnqueuePending` | xhs-intel/store.py:281-321 | one batch job for the chosen rows and their assignment; None exactly when nothing is pending |
| `EdgeStore.Store.AssignNotes` | xhs-intel/store.py:309-310 | exactly the batch's notes point at the job |
| `EdgeStore.Store.Drain` | xhs-intel/collector.py:376-378 | the drain loop ends, leaves no unassigned note, and puts each drained note into a job created by the drain |
| `EdgeStore.Store.EnqueueSingleNote` | xhs-intel/store.py:220-279 | one job per revision, created or reused as above |
| `EdgeStore.Store.Claim` | xhs-intel/store.py:323-345 | a granted job is due or abandoned and first in (single note, created) among such jobs of the lane, and gets a token never used before; nothing changes when there is none |
| `EdgeStore.Store.Heartbeat` | xhs-intel/store.py:347-353 | the lease is extended exactly for its holder while it runs |
| `EdgeStore.Store.Fail` | xhs-intel/store.py:388-409 | the holder's failure reopens the job or ends it after five attempts and then fails the run and its items |
| `EdgeStore.Store.Complete` | xhs-intel/store.py:355-386 | the two-transaction code does what the one-transaction specification does, and an accepted screening answer is recorded entry by entry |
| `EdgeStore.Store.CompleteSummary` | xhs-intel/store.py:363-386 | invalid, duplicate and lost-lease answers change nothing; an accepted one sets result and status once and moves the run |
| `EdgeStore.Store.RecordRun` | xhs-intel/store.py:640-665 | the loop records every decision, sets every item and collects the included notes and the tallies |
| `EdgeStore.Store.CompleteFilter` | xhs-intel/store.py:627-682 | the whole transaction: decisions, items, summary job, run and closed filter, or nothing |
| `EdgeStore.Store.RecordTopics` | xhs-intel/store.py:701-721 | the loop records every topic decision and selects the included notes |
| `EdgeStore.Store.CompleteNoteFilter` | xhs-intel/store.py:684-739 | the whole transaction, or nothing |
| `EdgeStore.Store.RecordProfiles` | xhs-intel/store.py:923-938 | the loop records every profile decision or stops at the first unacceptable one |
| `EdgeStore.Store.CompleteProfileFilter` | xhs-intel/store.py:908-944 | the whole transaction; a bad decision rolls back those already written |
| `EdgeStore.Store.RecordDelivery` | xhs-intel/store.py:419-421 | the part is in the ledger, nothing else changes |
| `EdgeStore.Store.Delivered` | xhs-intel/store.py:423-433 | only a ready job is marked sent, and its run with it |
| `EdgeStore.Store.CreateRecommendationRun` | xhs-intel/store.py:557-570 | an existing run is left alone |
| `EdgeStore.Store.AddRecommendationItem` | xhs-intel/store.py:577-589 | the item is added once and an unrouted note reserved for the run |
| `EdgeStore.Store.FinishRecommendationCollection` | xhs-intel/store.py:591-595 | the run becomes collected or failed |
| `EdgeStore.Store.SelectRanked` | xhs-intel/store.py:602-604 | the answer holds every item of the run that has a note, once, by source rank |
| `EdgeStore.Store.QueueRecommendationFilter` | xhs-intel/store.py:597-625 | one filter job per run with its candidates in rank order |
| `EdgeStore.Store.RetryRecommendationFilter` | xhs-intel/store.py:1035-1056 | only a failed filter is reopened, with its run and items |
| `EdgeStore.Store.RetryJob` | xhs-intel/store.py:1031-1033 | only a failed job is reopened, with a fresh budget |
| `DeliveryChunks.TextRoundTrip` | xhs-intel/edge_api.py:253-257 | the text chunks read in order are the text; all but the last are full and none exceeds the limit |
| `DeliveryChunks.TextChunkIs` | xhs-intel/edge_api.py:253-254 | chunk i of a text is its characters from 3000 i on |
| `DeliveryChunks.LinksRoundTrip` | xhs-intel/edge_api.py:258-270 | read back line by line, the link chunks are the heading and for every link, in order and whole, the line that labels it; each chunk fits or is one line, and no line starts a chunk it did not have to |
| `DeliveryChunks.Chunks` | xhs-intel/edge_api.py:253-270 | the loop builds the text chunks followed by the link chunks |
| `Delivery.SentMeansPosted` | xhs-intel/edge_api.py:273-289 | with crashes anywhere and any retries, a job is marked sent only when the whole text of its result is in the ledger and in the chat: part i says its characters from 3000 i on and nothing else, and the parts put together to the text |
| `Delivery.PostsAreAccountedFor` | xhs-intel/edge_api.py:279-288 | the posts of a part are its recorded one, those cut off between post and record, and the one in flight |
| `Delivery.PostsAreBounded` | xhs-intel/edge_api.py:279-288 | a part is posted at most once more than a crash separated its post from its record |
| `Delivery.RecordedPartsAreNotRepeated` | xhs-intel/edge_api.py:280-281 | a recorded part is never posted again, however the run goes on |
| `Delivery.OthersDeliverNothing` | xhs-intel/store.py:411-433 | no transaction of another thread sends a job, un-readies one or touches the ledger |
| `Sending.Sender.DeliverPart` | xhs-intel/edge_api.py:279-288 | one turn of the loop skips, posts and records, or stops |
| `Sending.Sender.DeliverOne` | xhs-intel/edge_api.py:273-289 | one call is a run of courier acts; the job is sent exactly when the webhook is configured and every part not yet recorded could be posted and recorded, else it stays ready; when it is sent, each slice of its text and each link message is in the ledger, posted in this call or recorded before |
| `Classify.Classify` | xhs-intel/local_worker.py:395-433 | the batch loop returns exactly when there are candidates with ids, every answer covers its batch, and no entry is malformed; the closing check adds no condition |
| `Classify.CheckBatch` | xhs-intel/local_worker.py:422-429 | a batch is covered exactly when its ids are answered once each and no other |
| `Classify.GatheredNames` | xhs-intel/local_worker.py:411-432 | batch-wise coverage adds up to coverage of all candidates for every batch size |
| `Classify.ClassifiedCovers` | xhs-intel/local_worker.py:411-433 | what the worker returns for distinct candidates passes the store's coverage test |
| `Classify.FilterAcceptsTheWorker` | xhs-intel/store.py:627-656 | a leased recommendation filter accepts the worker's answer exactly when every verdict and score is in range |
| `Classify.NoteFilterAsksForCandidateIds` | xhs-intel/store.py:696-698 | for note screenings an answer that covers with the fallback covers without it exactly when every entry has a candidate id |
| `Classify.NoteIdAnswerIsRefused` | xhs-intel/local_worker.py:423-424 | a concrete answer that passes the worker and fails the store |
| `MigrationGate.MigrationProblems` | scripts/collab_branch.py:93-130 | each message is given exactly when it is true, and there is none exactly when the files are readable, unique, closed, acyclic and have one head |
| `MigrationGate.MessagesMean` | scripts/collab_branch.py:95-112 | in terms of the files: a file is reported as unreadable or without revision exactly if it is, a duplicate with the first file of the revision and the later one, a missing parent exactly when the first file of some revision follows one that no file carries |
| `MigrationGate.HeadsMean` | scripts/collab_branch.py:113-116 | the heads listed are exactly the revisions no counted file follows, each once, and not one |
| `MigrationGate.Colouring.Visit` | scripts/collab_branch.py:119-126 | true only if there is a cycle; otherwise the revision is finished after everything it follows; terminates by unvisited revisions |
| `MigrationGate.FindCycle` | scripts/collab_branch.py:117-129 | the colouring search finds a cycle exactly when there is one |
| `MigrationGate.ReadFiles` | scripts/collab_branch.py:95-108 | the first file of a revision wins; unreadable, empty and duplicate revisions are reported, each exactly once it holds |
| `MigrationGate.CheckParents` | scripts/collab_branch.py:109-112 | exactly the parents outside the chain are reported |
| `MigrationGate.CheckHeads` | scripts/collab_branch.py:113-116 | reported exactly when a non-empty graph has not one head |
| `MigrationGate.FinishedMeansAcyclic` | scripts/collab_branch.py:119-126 | a finishing order over all revisions rules out any loop |
| `MigrationGate.NoProblemsMeansClean` | scripts/collab_branch.py:93-130 | no true message is the same as one clean chain |
| `MigrationGate.HeadLeadsToAll` | scripts/collab_branch.py:113-116 | in a clean chain every revision is reached from the head |
| `CollabInvariant.ActKeepsInv` | scripts/collab_branch.py:294-402 | every step of every script run, owner, outside push to main and fetch keeps the invariant, with tracking refs shared by the runs of a checkout and no discipline asked of anybody |
| `CollabProperties.AcceptedIff` | scripts/collab_branch.py:333-356 | a push to main is accepted exactly when main is still at the base or the merged branch commit contains it |
| `CollabProperties.UncomparedIff` | scripts/collab_branch.py:350-356 | an accepted push replaces a main it was not compared with exactly when main has moved to a commit that the merged branch commit contains |
| `CollabProperties.MainIsAppendOnly` | scripts/collab_branch.py:133-135 | over every run of everybody, a migration on main stays byte for byte unless a named step took it: an outside push, or an accepted push that was compared with another main |
| `CollabProperties.OutsidePushIsHarmlessIff` | scripts/collab_branch.py:350-356 | an outside push to main leaves every merge in progress compared or refused exactly when no fetched and no merged branch commit contains it |
| `CollabProperties.CarefulPushesKeepMain` | scripts/collab_branch.py:303-310 | over runs whose outside pushes are all harmless in that sense, every accepted push was compared with the very tip it replaces and keeps its migrations |
| `CollabProperties.OutsidePushCostsIff` | scripts/collab_branch.py:303-356 | some merge result passes the gates, is accepted after an outside push and drops a migration, exactly when the branch tip contains that push and the push has a migration the compared main lacks |
| `CollabProperties.PushKeepsHistoryIff` | scripts/collab_branch.py:296-305 | an accepted push keeps the merge history exactly when the commit it merged contains the branch commit main took in last; it does whenever it contains the commit that was tested |
| `CollabProperties.HistoryIsKept` | scripts/collab_branch.py:167-177 | over every run of everybody, merged branch commits are never rewritten away unless a named step did it: an outside push, or a merge of a branch rewritten after its test |
| `CollabProperties.ScriptPushesAreClean` | scripts/collab_branch.py:307-402 | over every run, each tree the script pushes to main is one clean chain, and each it pushes to the branch is one or is a public commit of somebody else |
| `CollabProperties.SyncAcceptedIff` | scripts/collab_branch.py:395-400 | the push of a sync is accepted exactly when the branch commit or the main it merged contains the current branch tip |
| `CollabProperties.SyncUncomparedIff` | scripts/collab_branch.py:375-402 | on a branch that was not rewritten, an accepted sync replaces a tip it was not compared with exactly when the branch has moved on to a commit that the merged main contains |
| `CollabProperties.AcceptedSyncKeepsBoth` | scripts/collab_branch.py:381-402 | over every run in which the branch only moves forward, an accepted sync pushes a clean tree with every migration of the main it was compared with, and of the branch tip it replaces unless the merged main contains that tip |
| `CollabProperties.StartIsCalm` | scripts/collab_branch.py:340-370 | a repository no script has looked at satisfies what the theorems over runs start from |
| `CollabRuns.UndisturbedMerge` | scripts/collab_branch.py:340-364 | a merge that nobody disturbs puts one commit with both tips as parents on both branches exactly when every gate passes, and moves neither otherwise |
| `CollabRuns.UndisturbedSync` | scripts/collab_branch.py:367-402 | a sync that nobody disturbs leaves a branch alone that contains main, fast-forwards one without commits of its own, and otherwise puts a merge on it exactly when the gates pass |
| `CollabRuns.NothingIsForced` | scripts/collab_branch.py:333-336 | no push to main and no push of the script to the branch leaves out the tip it replaces |
| `CollabWitnesses.OutsidePushSlipsThrough` | scripts/collab_branch.py:350-357 | a concrete run in which an outside push to main is followed by an accepted push that drops its migration |
| `CollabWitnesses.RewrittenTipSlipsThrough` | scripts/collab_branch.py:296-305 | a concrete run in which the branch is rewritten between the history test and the merge, and an accepted push loses the commit main took in before |
| `CollabWitnesses.ForcedBranchLosesMigration` | scripts/collab_branch.py:381-402 | a concrete run in which the branch is forced back and an accepted sync drops a migration of the tip it replaces |
| `CollabWitnesses.CaughtUpBranchLosesMigration` | scripts/collab_branch.py:381-402 | a concrete run in which the branch only moves forward and an accepted sync drops a migration of the tip it replaces, which the merged main contains |
| `MinuteFetch.Fetcher.PendingDays` | scripts/licensed_minute_history_fetch.py:110-116 | the days not on file, in order |
| `MinuteFetch.Fetcher.TakeNext` | scripts/licensed_minute_history_fetch.py:180-202 | the window slides from exactly the next `workers` days to the next such window; the failure count and the file follow the answer |
| `MinuteFetch.Fetcher.FollowPending` | scripts/licensed_minute_history_fetch.py:179-202 | the loop takes pending days in order until done, paused or aborted |
| `MinuteFetch.Fetcher.FetchCode` | scripts/licensed_minute_history_fetch.py:161-202 | each pending day is asked at most once and exactly the storable answers are appended |
| `MinuteFetch.Fetcher.Fetch` | scripts/licensed_minute_history_fetch.py:142-211 | never more than `workers` outstanding; every entry is the answer to the request for its day; a day asked for is on file afterwards exactly if the upstream answered, with data unless the day is not among the last three; nothing else gets on file and no day twice; finished leaves out only failed, refused or recent empty days; aborted exactly when the last twenty answers across codes failed |
| `MinuteFetch.EntryMeaning` | scripts/licensed_minute_history_fetch.py:102-107 | exceptions and error codes other than none, 0 and 1020 count as failures; any other answer is stored unless it is empty for one of the last three days |
| `MinuteFetch.StreakIsTail` | scripts/licensed_minute_history_fetch.py:187-199 | the counter is the length of the run of failures that ends the log |
| `MinuteFetch.StreakStaysThroughout` | scripts/licensed_minute_history_fetch.py:193-195 | the limit was not reached before the last answer |
| `CommitWatch.NewCommits` | scripts/b300_collab_watch.py:138-145 | the commits before the recorded one, and whether it is still listed |
| `CommitWatch.Watcher.Run` | scripts/b300_collab_watch.py:249-309 | one run is one step of the specification: baseline, silence, dry run, logged, failed or sent |
| `CommitWatch.Watcher.MarkEvents` | scripts/b300_collab_watch.py:125-135 | exactly the named, unmarked events are marked |
| `CommitWatch.CommitsAreConserved` | scripts/b300_collab_watch.py:249-309 | through failed polls and sends, headers plus the commits hidden behind a gap add up to the executor commits between baseline and recorded head |
| `CommitWatch.WithoutGapsTheCountIsExact` | scripts/b300_collab_watch.py:138-145 | when every poll still sees the recorded commit, nothing is missed |
| `CommitWatch.RoundConserves` | scripts/b300_collab_watch.py:279-308 | one run's header and its missed commits are all that came after the recorded commit |
| `CommitWatch.SilenceDrops` | scripts/b300_collab_watch.py:282-285 | a run that moves on in silence drops exactly the executor commits since the recorded one |
| `CommitWatch.SilentLoss` | scripts/b300_collab_watch.py:279-285 | a concrete poll that drops one |
| `CommitWatch.EventsAreToldOnce` | scripts/b300_collab_watch.py:104-135 | however sends fail, no event is in two messages |
| `CommitWatch.PollCounts` | scripts/b300_collab_watch.py:138-145 | the number in a header is how many of the newest fifty commits are by the executor and newer than the recorded one |
| `CommitWatch.RoundSpeaksIff` | scripts/b300_collab_watch.py:258-308 | a message is sent or logged exactly when there are such commits or a fresh event that asks for one, and no send fails; the recorded commit moves to the newest one unless a send fails or nothing may be written |
| `CommitWatch.EventFate` | scripts/b300_collab_watch.py:110-135 | exactly what becomes of every event: it expires exactly when a working round finds it more than 24 hours old, a fresh one is in the message of the first round that speaks, and waits if sending fails |
| `CommitWatch.FreshTriggerIsTold` | scripts/b300_collab_watch.py:276-308 | a fresh event that asks for a message is told in the round that finds it, or is kept with the recorded commit when the send fails |
| `WatchMessage.Trim` | scripts/b300_collab_watch.py:193-201 | the text is the first version short enough, counting removals one by one, changes before commits; it never exceeds the limit |
| `WatchMessage.MessageReadsBack` | scripts/b300_collab_watch.py:178-192 | read line by line, an untruncated message has the header, the commits shown in order, and a count that makes them add up to all |
| `WatchMessage.MessageLines` | scripts/b300_collab_watch.py:178-192 | line by line: header, commits shown and the count of the rest, the changes shown and the count of the rest, what needs attention, and the footer |
| `WatchMessage.DecimalReadsBack` | scripts/b300_collab_watch.py:181 | the printed count is the count |
| `WeeklyClock.PreviousIsGreatest` | scripts/svc_supervisor.py:447-454 | the previous occurrence is the greatest one not after now, for every moment and weekday, 0 read as 7 |
| `WeeklyClock.NextCalendar` | scripts/svc_supervisor.py:438-445 | the next occurrence is the least one after now, a week after the previous one; the fallback is never reached |
| `WeeklyClock.CalendarTask.Start` | scripts/svc_supervisor.py:496-517 | a start runs at most the previous occurrence, inside the window, and never one with a success receipt |
| `WeeklyClock.CalendarTask.Plan` | scripts/svc_supervisor.py:518-521 | the thread waits for the next occurrence |
| `WeeklyClock.CalendarTask.Fire` | scripts/svc_supervisor.py:522-534 | the task runs exactly when the planned moment has come |
| `WeeklyClock.PlanIff` | scripts/svc_supervisor.py:518-521 | a thread that waits for nothing plans an occurrence exactly when the clock reads a time in the week before it |
| `WeeklyClock.StartIff` | scripts/svc_supervisor.py:496-512 | a start runs an occurrence exactly when the clock reads a time in the week after it, inside the window, and the receipt does not show its success |
| `WeeklyClock.TakesUpSettledIff` | scripts/svc_supervisor.py:496-534 | a step runs or waits for an occurrence whose success is on record exactly when a plan reads a time in the week before one or a start reaches back to one its receipt no longer shows |
| `WeeklyClock.RecordedSuccessIsFinal` | scripts/svc_supervisor.py:496-534 | over restarts, failures, lost receipts and clock changes without such a reading, an occurrence whose success is on record never runs again |
| `WeeklyClock.NothingRepeatsIff` | scripts/svc_supervisor.py:496-534 | over whole runs: no step runs or waits for a recorded success again if and only if there is no such reading |
| `WeeklyClock.InTimeRunsAreCareful` | scripts/svc_supervisor.py:496-534 | a clock that may go back, but not before a recorded success at a plan nor before the occurrence on the receipt at a start, gives no such reading |
| `WeeklyClock.ForwardRunsAreInTime` | scripts/svc_supervisor.py:496-534 | a clock that never goes back is such a clock |
| `WeeklyClock.FreshIsOrderly` | scripts/svc_supervisor.py:496-501 | a task without a receipt starts in the order that these rows rely on |
| `WeeklyClock.RewoundClockRepeats` | scripts/svc_supervisor.py:518-534 | for every schedule and occurrence: if the clock goes back into the week before a recorded success, it runs again |
| `WeeklyClock.FailedReceiptRepeats` | scripts/svc_supervisor.py:496-512 | for every schedule and occurrence: after a later failed run the receipt hides the success, and a start that reads a time in between runs it again |

## Left out

- Columns that only inform: `updated`, `worker`, `last_error`, `finished`, `fetched`, `added`, reasons, topics and evidence of decisions, model names other than of summaries.
- Transactions that queue profile sweeps, daily digests, manual messages and command answers are events of every run (`QueueProfiles`, `QueueDigest`, `QueueText`) but not methods of the class; which notes a digest selects and the length checks of manual messages are not modelled.
- Topic and policy tables, watch users, following accounts, note links, dashboards and listings: they do not touch the queue.
- `start_run` and `end_run`, and which ten ready jobs a delivery pass picks: the code promises nothing about them beyond a time window and an order.
- Delivery of link parts: links may differ between attempts, so only text parts are claimed to be complete; that no recorded part repeats is proved for all parts.
- Delivery interleaves with other threads in the transition system; `Sending.Sender` itself runs undisturbed.
- Prompts, parsing of model output, model routing, image download and note normalisation; candidate ids are compared as values, not as the strings a number would print to.
- Git itself: a merge result is an arbitrary tree and a push is an atomic fast-forward check; forbidden paths, repository checks and the test suite may only refuse.
- The migrations of a sync that is a plain fast-forward: it pushes a tip of main or of the branch as it is, and nothing is compared.
- Order of messages of the migration gate: files are read in the order given, and the sort by name only orders messages; revision ids are strings, and the recursion limit of the interpreter is not modelled.
- Request threads of the fetch: an answer is an argument, the session guard and the until clock decide only when it waits or pauses; a torn last line of a file is not modelled.
- CommitWatch.CommitsAreConserved: for a branch that only grows at its newest end, without a crash between a send and the state write; how `git log` interleaves merged side branches by date is not modelled.
- Shortening of commit subjects and the choice of attention lines are arguments of a draft; the event log's own truncation is not modelled.
- Daemon, interval and daily loops of the supervisor, and daylight saving: a moment is a day and a time of day.
