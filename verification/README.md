# A verified model of the menti bridge and its grading service

Two durable-queue services share one SQLite file: the **bridge**, which keeps Yonote cards, task branches and
pull requests in step, and the **grading service**, which has hidden test suites written, reviewed and frozen,
and grades commits with them. This project models their step protocol and proves what it keeps over every run.

How the model is laid out:

- `text`, `json`, `decimals`: character patterns, decoded JSON, decimal numerals.
- `contracts`, `results`, `compare`: the suite parser and its payload printer, the acceptance gate and the grade
  summary, the strict and the loose comparator. `expectations` shows that parser and comparators read the same,
  `safe_paths` what the parser's path rule is for.
- `leases`, `tables`: the lease columns that four queues share, and each transaction as a function on the tables.
- `pipeline`: the grading service as a state machine. One event is one transaction, one step of a worker
  between transactions, or a crash; any number of workers interleave. The author, critic, executor and publisher
  answer anything. A promotion may break between the vault's rename and the database commit.
  `pipeline_invariant`, `pipeline_steps` and `pipeline_theorems` prove what every run keeps; `authoring_theorems`,
  `provenance`, `progress`, `fencing`, `exclusivity`, `outbox`, `grading_queue` and `draining` prove the results on
  questions, answers and feedback, on what the holder of a row achieves, on stale workers, leases, sends, retries and
  order.
- `deliveries`, `dedup`, `delivery_leases`, `pull_requests`, `webhook`, `agreement`: the webhook delivery queue, its
  memory of completed deliveries and its leases, the ordering of pull-request events, and the two writes (Yonote, then
  the database) that a crash may separate.
- `naming`, `mappings`, `reconcile`, `reconcile_theorems`, `reconcile_cards`: made-up names, the task mappings, and the
  reconcile loop joined to the grading pipeline, with any number of reconcilers on out-of-date cards; and what one
  undisturbed reconcile does with its card.
- `bot`: the mentor bot's handling of an update as a sequence of durable writes that may be cut anywhere.
- `store`, `coordinators`, `gateway`, `menti_bot`, `bridge_store`, `webhook_handler`, `service`: the classes of the
  source. Each store method rewrites rows in place and is proved to do what the transaction of the same name
  does; each `process_once`, `handle`, `handle_update` and `reconcile_once` is proved to do what the machine
  does on a fixed script of events, so the results about runs speak about it.
- `normalize_key`: the two reference programs for project keys. `words`: the words that slugs, branch names and
  descriptions are made of.

Clocks are parameters that never go back; tokens and nonces are new when they are drawn (a state records the ones
stored so far); answers of outside services are parameters. Digests are arbitrary functions: collisions are refused
by the primary keys, as in the source.

Where the code does not do what one might hope, the condition is proved exactly:

- With any lookup that always answers the same, or with none, pull-request events end in the same record in every
  order if and only if the latest event or the answer decides: nothing of the pull request is merged unless the end
  is, two states at the last instant are told apart by the answer, and an answer for an earlier instant gives way.
  Neither the order nor the answer given to each arrival matters if and only if the latest pull request never has two
  states at one instant and no merge that is taken back. If no merge is taken back, an answer that is the latest event
  suffices; an answer older than two events that it should tell apart leaves their order to matter.
- A handled Telegram update that is cut short and delivered again ends as if undisturbed unless it stopped after
  the update was marked and before the conversation was cleared or renewed (an answer is still applied once). An answer
  with a NUL character is never marked as processed and fails on every delivery.
- The two key programs disagree exactly on texts with non-space white space around an otherwise acceptable key:
  the pipeline refuses them, the state machine strips them.
- In every run, whatever the API answers: once every delivery is completed, Yonote and the database agree on a branch
  if and only if it was not lost. A branch is lost when its last writer showed something new in Yonote and stopped
  before recording it while its delivery was spent, that is, closed or in the hands of a handler that had handled it
  already; or when the delivery of such a stopped writer is handled again and the API no longer has news.
  - With a lookup that always answers the same, or none, nothing is lost unless a delivery was handled before its branch
    was mapped, by its holder, while another handler stood at it. A run shows that this happens.
  - With answers that only move on, nothing is lost unless a handler of a spent delivery wrote. A run shows that this
    happens: one handler finds nothing to do, the pull request is merged, and an older handler of the same delivery
    writes the merge to Yonote and stops.
- The API may answer differently when an interrupted delivery is retried: the branch then agrees if and only if the new
  answer is applied to the record too, or the first one showed what is recorded; so it does for an answer that follows.
- Released authoring jobs and released mentor notifications are handed out again at once, so draining those queues
  need not end; grading attempts and delayed publications are not.
- The parser compares the schema version with Python's `==`, so `true` and `1.0` pass for `1`; the model follows the code.
- A delivery that is completed is kept if and only if fewer than the retained number with newer rows were completed at
  the same time; a run shows the last completion being forgotten first.
- Grading an attempt fails on the suite itself only if the suite, printed with default separators, exceeds the parser's
  1,000,000 characters.

## Model

The results come first. From `Store.GraderStore.constructor` on follow the methods of the classes, which are proved to
do what the transactions and the machines do, so that the results speak about them.

| member | source | states |
|---|---|---|
| Contracts.FromDecoded | grader/contracts.py:39-77 | the parser's loops accept a decoded value, with one draft as the only possible reading, exactly as the declarative reading does |
| Contracts.ParseRubric | grader/contracts.py:143-164 | the rubric loop returns the unique reading of a bounded list of distinct, valid items, and refuses everything else |
| Contracts.ParseCases | grader/contracts.py:167-197 | the same for cases, each under a known rubric item |
| Contracts.CheckFixtureFiles | grader/contracts.py:292-308 | the loop accepts exactly the lists with distinct safe paths whose contents fit singly and together |
| Contracts.AcceptedDraftIsUnique | grader/contracts.py:39-77 | a value has at most one accepted reading |
| Contracts.PayloadRoundTrip | grader/contracts.py:39-105 | parsing the payload of any accepted draft succeeds and gives the same draft |
| Contracts.PayloadInjective | grader/contracts.py:79-105 | two accepted drafts with the same payload are the same draft |
| Contracts.PayloadIsSerialisable | grader/contracts.py:79-105 | the payload of an accepted draft has no NaN or infinity |
| Expectations.ExpectationsAgree | grader/contracts.py:240-334 | the parser accepts as the expectation of a case exactly what is written from one that the comparators read, within the limits, and only one is written so |
| Expectations.MatchersAgree | grader/contracts.py:324-334 | the parser accepts as a matcher exactly the written form of none, an exact text, a part or a JSON value within the limits |
| SafePaths.SafeExactly | grader/contracts.py:337-348 | the path rule accepts exactly the texts without a backslash whose every part between slashes is there and not hidden |
| SafePaths.SafePathsStayInside | grader/contracts.py:337-348 | an accepted path names a file below the workspace, as deep as it has parts, and different accepted paths name different files |
| Json.StrictIsLooseWithSameTypes | grader/vm_executor.py:241-253 | the strict equality is Python's equality plus equal types at every position |
| Json.StrictIsEquivalence | grader/vm_executor.py:241-253 | on finite values the strict equality is an equivalence relation and in fact identity |
| Json.StrictReflexive | grader/vm_executor.py:241-253 | a value equals itself exactly when it contains no NaN |
| Compare.CompareInVm | grader/vm_executor.py:167-206 | the failures that the branches and the file loop build are the specified ones, in order, and there are none iff the exit code or the call, the texts and every file are as expected |
| Compare.CheckFiles | grader/vm_executor.py:191-205 | the file loop reports each expected file as missing, unreadable or by its matcher, and nothing iff the last report on each path is present, complete and matching |
| Compare.VmPassesExactly | grader/vm_executor.py:167-253 | a case passes in the VM iff the process did not fail and each field meets its expectation: equal exit code, value or named exception; texts equal, containing, or decoding to the value after line breaks are unified; each file present, read in full and matching |
| Compare.LocalPassesExactly | grader/executor.py:65-219 | the same for the local executor, with Python's equality and the files of the workspace |
| Compare.NormalizedIs | grader/vm_executor.py:213-238 | unifying line breaks replaces every carriage return with line feed by a line feed and changes nothing else |
| Compare.VmRefinesLocal | grader/vm_executor.py:167-253 | on the same observation the VM passes a case if and only if the local comparator does and the process did not fail, every file was read in full and all JSON types agree |
| Compare.LooseAcceptsTrueForOne | grader/executor.py:85-115 | the inclusion is strict: `True` for `1` passes locally and not in the VM |
| Results.GateVerdict | grader/acceptance.py:41-63 | the gate accepts exactly two complete equal runs with a failing case whose failures are not all protocol failures |
| Results.SummaryFaithful | grader/grading_coordinator.py:102-120 | for a ready suite the summary exists iff the result matches; it counts the suite cases reported as passed and lists exactly the rubric items with a failing case, in order; all passed iff every case passed iff no rubric line is listed; counts and report meet the store's own checks |
| Results.ParsedReadySuite | grader/contracts.py:61-77 | every ready draft that the parser accepts is such a suite: distinct cases under known rubric items, at most twenty of these |
| Results.AllPassedMeansAllCasesPassed | grader/grading_coordinator.py:102-112 | the counts are equal if and only if every suite case has a passing result |
| Results.NoFailedLinesMeansPassed | grader/grading_coordinator.py:112-120 | no failed rubric line if and only if everything passed |
| Leases.Next | grader/store.py:336-345 | the row a claim picks is eligible and earlier than every other eligible one; none is picked only if none is eligible |
| Leases.HeadExists | grader/store.py:650-659 | whenever a row is eligible one of them is first |
| Leases.HeadUnique | grader/store.py:650-659 | and only one is, since ties on the creation time are broken by identifier |
| PipelineTheorems.StepKeeps | grader/store.py:331-961 | every event, whoever crashes and whatever the oracles answer, keeps the invariant and undoes nothing |
| PipelineTheorems.ReadyMeansFrozenAndSound | grader/store.py:440-477 | in every reachable state a ready job has its vault entry's hash and starter, and the entry is the payload of a suite that the parser, the critic and the gate accepted |
| PipelineTheorems.ReadyIsForever | grader/store.py:440-477 | a ready job and a vault entry never change again |
| PipelineTheorems.OutboxExact | grader/store.py:679-756 | an attempt is completed iff one publication and one notification carry its ID, with its commit, verdict and report |
| PipelineTheorems.OutboxIsForever | grader/store.py:806-961 | completed results never change and outbox rows are never lost, altered or redelivered once delivered |
| PipelineTheorems.GradingUsesApprovedSuite | grader/grading_coordinator.py:59-100 | for every attempt the vault loads under its hash and parses back to the approved suite; a stored grade summarises a result of that suite |
| PipelineTheorems.GradingFailsExactly | grader/grading_coordinator.py:59-80 | in every reachable state grading an attempt gives a grade iff the printed suite is within the parser's limit and the result reports the cases of the approved suite, each once |
| PipelineTheorems.ClarificationProtocol | grader/store.py:479-580 | rows carry revisions 1..n once each; a row is pending iff its job waits for exactly that revision; each stored answer was applied once |
| PipelineTheorems.AnswersAreForever | grader/store.py:540-580 | a stored answer never changes |
| AuthoringTheorems.AuthorsAreTold | grader/store.py:479-580 | in every reachable state a job has exactly the question and answer of its current revision, a job failed only after all its attempts, and an author that owns a job holds its content |
| AuthoringTheorems.AnswerReachesTheAuthor | grader/store.py:540-580 | a usable answer to a pending question queues its job with the stripped text, and over every continuation whoever owns the job at that revision holds this question and this answer |
| AuthoringTheorems.GivesUpExactly | grader/coordinator.py:159-193 | when the owner's pass raised or was refused, the job fails iff its attempts are used up and is otherwise queued with the feedback, keeping question, answer and revision |
| Provenance.FeedbackWasSaid | grader/coordinator.py:92-193 | over any run a job's feedback is the stored form of what the critic or the gate said to a worker that held this job |
| Provenance.QuestionWasAsked | grader/coordinator.py:92-158 | over any run every question is, stripped, what the author's draft or the critic asked of a worker that held its job |
| Words.TextIsBounded | grader/store.py:1296-1308 | a question or an answer is taken iff it says something, fits and has no NUL, and what is stored is the text between the surrounding white space |
| Progress.AcceptedBecomesReady | grader/store.py:440-477 | an accepted suite of the job's owner makes it ready, with this suite in the vault, iff the author's name and the size fit and the task has no other suite; otherwise nothing changes |
| Progress.QuestionIsAsked | grader/store.py:479-518 | the owner's question is stored under the next revision and the job waits for it, iff its text can be stored |
| Progress.AnswerTellsTruly | grader/store.py:540-580 | answering fails iff the text cannot be stored, and otherwise says whether this text is now the answer under this revision |
| Progress.GradeIsStored | grader/store.py:679-756 | in every reachable state the owner of an attempt stores its computed grade with both outbox rows: the store's checks never refuse it |
| Progress.MigrationRequeuesFailed | grader/store.py:220-229 | opening the database makes failed attempts eligible at once with fresh attempts and changes no other row |
| Exclusivity.LeaseIsExclusive | grader/store.py:331-961 | in all four queues, until a lease runs out nobody but its holder changes or takes the row, over any run of everyone else |
| Exclusivity.ClaimLeases | grader/store.py:331-363 | in all four queues a claim takes the first eligible row, counts one attempt, leases it for the configured time from now and hands out its content |
| Outbox.PublishedAfterSend | grader/check_publication.py:23-48 | over any run, a published row was held, with its commit and verdict, by a publisher whose send returned and which then settled it under the current token |
| Outbox.NotifiedAfterSend | grader/menti_bot.py:157-175 | the same for a notification marked as sent |
| Outbox.PublicationFinishesExactly | grader/check_publication.py:30-48 | settling under the current token publishes iff the send returned, else queues the row again for half a minute later |
| Outbox.NoteFinishesExactly | grader/menti_bot.py:157-175 | settling under the current token marks a notification as sent iff the send returned, else queues it again |
| PipelineSteps.AuthorFinalizeKeeps | grader/store.py:440-477 | a promotion keeps the invariant also when it breaks between the vault's rename and the commit |
| PipelineSteps.AuthorAskKeeps | grader/store.py:479-518 | asking a question keeps the invariant |
| PipelineSteps.AnswerKeeps | grader/store.py:540-580 | answering keeps the invariant, whatever nonce, revision and text are submitted |
| PipelineSteps.GraderCompleteKeeps | grader/store.py:679-756 | completing an attempt with both outbox rows keeps the invariant |
| PipelineSteps.PushWriteKeeps | grader/gateway.py:36-57 | enqueueing a commit after a separate read of the job keeps the invariant |
| Fencing.OnlyTheHolderMovesARow | grader/store.py:331-961 | in all four queues a row has a token iff it is leased, and it changes only by a claim while eligible, by the holder of its current token, or by being queued again while nobody holds it |
| Fencing.ChangedRowIsLost | grader/store.py:331-961 | whoever else changes the row a worker holds makes that worker stale |
| Fencing.StaleWorkerLeavesNoTrace | grader/coordinator.py:92-193 | from any reachable state, a run with a stale worker is the run without it: tables, vault, history and all other workers are the same as if it had crashed |
| Fencing.ReclaimedWorkerLeavesNoTrace | grader/coordinator.py:159-171 | so after a reclaim the rest of a worker's pass, exception handler included, leaves no trace |
| GradingQueue.RetryDelayBacksOff | grader/store.py:778-804 | between resets the delay never shrinks and lies between the base and one hour |
| GradingQueue.RetryDelayDoubles | grader/store.py:790-794 | the first retry waits the base, each further one twice as long up to an hour, and an hour once the attempts are used up |
| GradingQueue.NoAttemptIsLost | grader/store.py:645-804 | after start-up and any run, an uncompleted attempt is claimable by max(3600, lease) seconds after its last update, and a queued one has attempts left |
| Draining.DrainsInOrder | grader/store.py:645-804 | at one instant, whatever happens to each claimed attempt, the queue hands out eligible attempts once each in increasing (created_at, attempt_id) order, and then nothing |
| Draining.RoundSetsAside | grader/store.py:645-804 | after its round an attempt is not eligible at that instant |
| Draining.ComesBackAtOnce | grader/store.py:365-402 | which releases are handed out again at once: authoring and mentor notifications always, delayed rows iff the delay is zero, attempts never |
| PullRequests.RunsNeverGoBack | bridge/github_webhook.py:286-316 | over any arrivals and lookup answers the recorded (number, time) never decreases and a merge is never taken back while its number is recorded |
| PullRequests.EventsTellTheState | bridge/github_webhook.py:163-183 | the state that an event asks for is that of the pull request after the action: done iff merged, review iff open and not a draft, in progress otherwise, and nothing for other actions |
| PullRequests.ApiTellsTheState | bridge/github_webhook.py:37-65 | the API's answer reads as the state of the pull request in the same sense |
| PullRequests.OrderMattersExactly | bridge/github_webhook.py:185-236 | for any set of events and any lookup that always answers the same, or none: all orders of arrival with repeats end alike if and only if the set is empty, or its latest event decides, or the answer decides |
| PullRequests.LatestEndsEveryOrder | bridge/github_webhook.py:185-236 | every order ends in the event `e` if and only if it is the latest, a merge if any event of its number is, each conflict at its instant is resolved to it, and each earlier conflict to it or to something it replaces |
| PullRequests.AnswerEndsEveryOrder | bridge/github_webhook.py:203-217 | every order ends in an answer that no event carries if and only if the latest instant has two states, the answer replaces each of them, and a merge among the events is the only one, has a rival at its instant, and is answered as merged |
| PullRequests.OrderMattersExactlyWhenAmbiguous | bridge/github_webhook.py:201-202 | without a lookup all orders with repeats end alike if and only if the set is unambiguous |
| PullRequests.UnambiguousEndsInLatest | bridge/github_webhook.py:185-236 | and then every order ends in the event of the greatest (number, time) |
| PullRequests.TruthfulAnswerEndsEveryOrder | bridge/github_webhook.py:203-211 | if the lookup answers the latest event, every order ends in it, whatever states share an instant |
| PullRequests.StaleAnswerLeavesTheOrder | bridge/github_webhook.py:197-220 | if it answers something older than two states at one instant, the order of these two matters |
| PullRequests.AnswersNeverMatterExactlyWhenClear | bridge/github_webhook.py:185-236 | with answers chosen anew for each arrival, all orders and all answers end alike if and only if the set is unambiguous and the greatest number never has two states at one instant |
| PullRequests.ClearEndsInLatest | bridge/github_webhook.py:185-236 | and then they end in the latest event |
| PullRequests.TidyHistoriesEndInLatest | bridge/github_webhook.py:286-316 | no change after a merge and one state per instant suffice, whatever is answered |
| Deliveries.KeepsTheNewest | bridge/store.py:370-384 | pruning keeps at most the retained number, as many as fit, and what it keeps outranks what it drops |
| DeliveryLeases.DeliveryLeaseIsExclusive | bridge/store.py:269-406 | over any operations by others before a lease runs out, the delivery stays as it is |
| DeliveryLeases.RedeliveryIsTold | bridge/store.py:269-318 | a redelivery is told changed, completed, busy or claimed exactly when another event or payload, a completion, a running lease or none of these is stored; only a claim writes, and it leases from now |
| DeliveryLeases.ComesBackExactly | bridge/store.py:320-406 | a released delivery is due exactly after its delay, one whose holder disappeared exactly when its lease ran out |
| Dedup.RememberedExactly | bridge/store.py:299-307 | if no two completions fall on the same time, a redelivery is answered as completed iff it is among the last R completions |
| Dedup.JustCompletedStays | bridge/store.py:370-384 | after any history a delivery that is completed now is kept iff fewer than R deliveries with newer rows were completed at the same time |
| Dedup.SameTimeForgetsTheNewest | bridge/store.py:370-384 | a run of four transactions after which the last completion is forgotten and the one before is kept |
| Webhook.StepKeeps | bridge/github_webhook.py:111-236 | every step of any handler, move of the API, failure or crash keeps the invariant of the two writes, which holds whatever the API answers |
| Agreement.DisagreementIsRepairable | bridge/github_webhook.py:191-236 | with a lookup that always answers the same, or none, outside the locked section a branch agrees or an open delivery still asks for exactly what Yonote shows; except for a branch with a delivery that its holder handled unmapped while another handler stood at it |
| Agreement.FixedAnswersAgree | bridge/github_webhook.py:191-236 | and with every delivery completed it agrees |
| Agreement.SteadyDisagreement | bridge/github_webhook.py:191-236 | with answers that only move on, it agrees, or handling some open delivery writes to it again, or it was lost |
| Agreement.AllDoneMeansAgreement | bridge/github_webhook.py:191-236 | in every run, whatever the API answers, with every delivery completed Yonote and the record agree if and only if the branch was not lost |
| Agreement.OpenWritersAgree | bridge/github_webhook.py:191-236 | with answers that only move on and no write by a handler of a spent delivery, everything agrees in the end |
| Agreement.LostStays | bridge/github_webhook.py:191-236 | a lost branch disagrees, and stays lost until it is written to again |
| Agreement.StoppedWriterLosesExactly | bridge/github_webhook.py:191-236 | from any state, a handler that writes to Yonote and stops leaves the branch apart iff it wrote something new, and loses it iff, besides, its delivery was spent |
| Agreement.OvertakenLoses | bridge/github_webhook.py:158-160 | from every reachable state with a delivery handled before its branch was mapped and an older handler at it: complete, map, write, crash closes the delivery and loses the branch |
| Agreement.OvertakingHappens | bridge/github_webhook.py:94-140 | such a state is reached by a lease that runs out |
| Agreement.OvertakenBranchesDisagree | bridge/github_webhook.py:94-160 | so a run closes every delivery and leaves Yonote with a pull request that the database lacks |
| Agreement.MovedAnswerLoses | bridge/github_webhook.py:197-236 | from any state with a conflicting delivery that one handler has handled and an older one still has: complete, move the API to an applicable answer, write, crash loses the branch iff the answer shows another state than the record |
| Agreement.MovedAnswersDisagree | bridge/github_webhook.py:94-236 | such a state is reached, so a run with answers that only move on closes every delivery and leaves a merge in Yonote that the record lacks |
| Agreement.AnswersThatGoBackLose | bridge/github_webhook.py:197-236 | an answer is written to Yonote, the handler crashes, the API answers differently and the delivery is retried: the branch agrees in the end iff the new answer is applied too or the first one showed what is recorded, and always if it follows the first |
| Agreement.OpenDeliveriesStay | bridge/store.py:269-406 | an uncompleted delivery keeps event and payload until the holder of its current token, having handled that payload or found no mapping, completes it |
| Agreement.RetryRepairs | bridge/github_webhook.py:111-125 | retrying the open delivery once without interruption makes the branch agree |
| Naming.SlugIsKey | bridge/domain.py:45-47 | a slug is a key, or empty exactly when the title has no usable character |
| Words.SlugJoinsRuns | bridge/domain.py:45-47 | a slug is the runs of letters and digits of the normalised title, joined by hyphens |
| Naming.ProjectDirectoryIsCanonical | bridge/domain.py:50-60 | an accepted project is a key of at most 64 characters and is accepted unchanged again |
| Words.ProjectNamesKey | bridge/domain.py:50-60 | a project names a directory iff, stripped, it is a key of at most 64 characters up to capitals, and then it names that key |
| Naming.BranchNameIsBranch | bridge/domain.py:63-66 | for IDs of three to nine digits the name fits 80 characters and the branch pattern, truncated or not |
| Words.BranchNameTells | bridge/domain.py:63-66 | the name is the prefix with the task ID and the slug, or `task`; a slug that does not fit is cut by at most one character more than needed |
| Naming.BranchNamesAreDistinct | bridge/domain.py:63-66 | distinct IDs never share a branch name, whatever the titles |
| Naming.AllocatedIdIsFresh | bridge/store.py:408-415 | an allocated number exceeds every recorded one, its printed form reads back, and it has the graded form iff it has at most nine digits |
| Mappings.OwnNamesNeverCollide | bridge/store.py:136-178 | the bridge's own IDs and branch names never violate the table's uniqueness |
| WebhookHandler.PushAsksExactly | bridge/github_webhook.py:238-274 | a push asks for a grade iff it moved the head of a task's recorded branch to a commit and did not just create it at its starter |
| Reconcile.StepKeeps | bridge/service.py:66-164 | every step of any reconciler, edit, crash or grading event keeps the joint invariant |
| ReconcileTheorems.IntentIsWrittenOnce | bridge/service.py:106-146 | over any run a row's task ID, branch, project and starter never change once set, are not shared, and every push carries the recorded starter |
| ReconcileTheorems.LearnersSeeOnlyFrozenSuites | bridge/service.py:130-164 | a branch address written while its card is assigned to a learner, with grading configured, means a frozen, loadable, approved suite pinned to the mapping's starter, then and ever after |
| ReconcileTheorems.OnlyWorkableCards | bridge/service.py:66-164 | over any run, every reservation, push, suite and address was made for a card that was looked at while in progress with an accepted assignee, reservations with its project's directory and suites for the learner only; a row has no other branch or project than initially or by a reservation |
| ReconcileCards.CardReachesItsEnd | bridge/service.py:96-164 | an undisturbed reconcile of such a card without an address fills in exactly what was missing, has the branch at its starter, the suite asked for with the card's text if graded, and writes the address iff the card is not graded or its suite is ready |
| ReconcileCards.CardWithAddress | bridge/service.py:74-95 | with an address it adds a missing project and ensures the suite of a graded card with a starter, and neither pushes nor writes to the card |
| ReconcileCards.CardIsLeftAlone | bridge/service.py:69-105 | a card that is not in progress, has no accepted assignee, or has neither an intent nor an accepted project changes nothing |
| MentorBot.ReplayConvergesExactly | grader/menti_bot.py:231-289 | a second delivery right after a cut ends as one undisturbed delivery, except exactly between marking and clearing or renewing |
| MentorBot.HandledIsProcessed | grader/menti_bot.py:231-289 | after handling, an update is marked iff the store did not refuse its answer |
| MentorBot.AnswersMoveJobsOnce | grader/menti_bot.py:177-289 | over any run with updates cut and replayed, each answer moves its job on at most once and the conversation is about a question that was asked |
| MentorBot.UpdateDoesExactly | grader/menti_bot.py:231-289 | a new update passes on an answer, to the conversation's question, iff it is the mentor's private reply to the waiting prompt with a usable text; only commands pause and resume the conversation |
| MentorBot.AnswersComeFromReplies | grader/menti_bot.py:231-301 | over any run in which only the bot answers, every stored answer is the stripped text of such a reply to the prompt of exactly that question |
| Words.DescriptionJoinsWords | grader/menti_bot.py:335 | a description line is the words of the description with one space between them |
| MentiBot.ListItems | grader/menti_bot.py:330-341 | lists the failed items in order, all of them or as many as fit, with a mark if some were cut |
| MentiBot.FormatNotification | grader/menti_bot.py:303-349 | refuses senseless counts; else the text is the task, the counts, the verdict or the failed items that fit, the commit and the delivery, and for short IDs and numbers it fits Telegram's limit whatever failed |
| NormalizeKey.RunMachine | benchmarks/development/project-key-normalization/references/state-machine/main.py:1-19 | the loop computes the specified scan |
| NormalizeKey.MachineIsSlug | benchmarks/development/project-key-normalization/references/state-machine/main.py:1-19 | on acceptable text the machine's output is the lowered text with separator runs collapsed and ends stripped |
| NormalizeKey.ProgramsAgreeExactly | benchmarks/development/project-key-normalization/references/regex/main.py:3-9 | the two programs agree iff the text is not an otherwise acceptable key with non-space white space around it |
| NormalizeKey.ProgramsAgreeWithinSpaces | benchmarks/development/project-key-normalization/references/regex/main.py:3-9 | in particular they agree, in result or in refusing, on every text with nothing but spaces around it |
| NormalizeKey.ResultsAreFixedPoints | benchmarks/development/project-key-normalization/references/regex/main.py:3-9 | what either program returns is a key, and both return it unchanged |
| NormalizeKey.MachineIsIdempotent | benchmarks/development/project-key-normalization/references/state-machine/main.py:1-19 | every result of the machine is a key that it returns unchanged |
| NormalizeKey.PipelineIsIdempotent | benchmarks/development/project-key-normalization/references/regex/main.py:3-9 | the same for the pipeline |
| Store.GraderStore.constructor | grader/store.py:101-264 | opening the database keeps every table but queues failed attempts again |
| Store.GraderStore.EnqueueAuthoring | grader/store.py:266-329 | new tables and result are those of the transaction |
| Store.GraderStore.ClaimNextAuthoring | grader/store.py:331-363 | claims the first eligible job, or nothing |
| Store.GraderStore.ReleaseAuthoring | grader/store.py:365-376 | queues the job if the token is current |
| Store.GraderStore.RequeueAfterCritic | grader/store.py:378-402 | queues it with feedback and delay, or reports why not |
| Store.GraderStore.MarkAuthoringFailed | grader/store.py:404-422 | fails the job if the token is current |
| Store.GraderStore.FinalizeAuthoring | grader/store.py:440-477 | promotes and marks ready under the current token only; the vault is not written to otherwise |
| Store.GraderStore.RequestClarification | grader/store.py:479-518 | stores the next revision and lets the job wait |
| Store.GraderStore.AnswerClarification | grader/store.py:540-580 | stores a first answer and requeues the waiting job with it; repeats are answered by comparison |
| Store.GraderStore.EnqueueGrading | grader/store.py:582-643 | one attempt per commit, refused when its inputs changed |
| Store.GraderStore.ClaimNextGrading | grader/store.py:645-677 | claims the first eligible attempt, or nothing |
| Store.GraderStore.CompleteGrading | grader/store.py:679-756 | completes the attempt and writes both outbox rows in one transaction |
| Store.GraderStore.ReleaseGrading | grader/store.py:758-804 | queues the attempt with its backoff, resetting the count when it is used up |
| Store.GraderStore.ClaimNextPublication | grader/store.py:806-839 | claims the first eligible publication |
| Store.GraderStore.CompletePublication | grader/store.py:841-852 | publishes under the current token |
| Store.GraderStore.ReleasePublication | grader/store.py:854-883 | queues it again after the delay |
| Store.GraderStore.ClaimNextNote | grader/store.py:885-923 | claims the first eligible notification |
| Store.GraderStore.MarkNoteSent | grader/store.py:925-942 | marks it sent under the current token |
| Store.GraderStore.ReleaseNote | grader/store.py:944-961 | queues it again |
| Store.SuiteVault.Freeze | grader/store.py:1032-1092 | writes a suite once; an equal one is returned, a different one refused |
| Store.SuiteVault.Load | grader/store.py:1094-1128 | returns the entry if its digest still matches |
| Coordinators.AuthoringCoordinator.ProcessOnce | grader/coordinator.py:92-171 | leaves tables and vault as the machine does on claim, draft, review, gate, settle, handle |
| Coordinators.AuthoringCoordinator.RejectOrRetry | grader/coordinator.py:173-193 | fails the job when its attempts are used up, else requeues it with the feedback |
| Coordinators.GradingCoordinator.ProcessOnce | grader/grading_coordinator.py:40-57 | leaves the grading tables as the machine does on claim, evaluate, complete, handle |
| Coordinators.GradingCoordinator.Evaluate | grader/grading_coordinator.py:59-80 | loads, checks the hash, parses again and summarises, or gives no grade |
| Coordinators.CheckPublicationCoordinator.ProcessOnce | grader/check_publication.py:23-48 | leaves the publications as the machine does on claim, send, settle |
| Gateway.GraderGateway.Ensure | grader/gateway.py:15-34 | succeeds only if the job has exactly these inputs, assignment included, and returns its state; a refusal changes nothing |
| Gateway.GraderGateway.EnqueueCommit | grader/gateway.py:36-57 | enqueues a commit iff the job matches the push and is ready |
| BridgeStore.SQLiteStore.NextTaskId | bridge/store.py:408-415 | the loop over the rows finds the number after the highest |
| BridgeStore.SQLiteStore.GetOrAllocate | bridge/store.py:121-145 | new table and result are those of the transaction |
| BridgeStore.SQLiteStore.ReserveBranch | bridge/store.py:147-178 | the same |
| BridgeStore.SQLiteStore.RecordStarter | bridge/store.py:196-218 | the same |
| BridgeStore.SQLiteStore.RecordBranch | bridge/store.py:180-194 | the same |
| BridgeStore.SQLiteStore.FindByBranch | bridge/store.py:227-232 | the loop over the rows finds the mapping of the branch, if there is one |
| BridgeStore.SQLiteStore.ClaimDelivery | bridge/store.py:269-318 | new, busy, completed and changed deliveries are told apart as in the transaction |
| BridgeStore.SQLiteStore.NextDue | bridge/store.py:325-339 | the loop finds the due delivery before every other by (next_attempt_at, received_at, rowid), or that none is due |
| BridgeStore.SQLiteStore.ClaimNextDelivery | bridge/store.py:320-356 | leases that delivery, or changes nothing when none is due |
| BridgeStore.SQLiteStore.CompleteDelivery | bridge/store.py:358-384 | completes under the current token and prunes |
| BridgeStore.SQLiteStore.ReleaseDelivery | bridge/store.py:386-406 | queues it again under the current token |
| WebhookHandler.GitHubWebhookHandler.HandlePush | bridge/github_webhook.py:238-274 | a push of a new head of a mapped branch leaves the grading tables as the push script does, every other push leaves them alone; left without an exception, there is an attempt for exactly that task, branch and commit |
| WebhookHandler.GitHubWebhookHandler.HandlePullRequest | bridge/github_webhook.py:147-236 | from the fields of the event, through the translation into a state and the conflict with the API, it writes Yonote and then the record as the machine does, or stops where a call fails; without a fault, on a mapped branch without a record, it shows and records done iff the event is a merged close, and each other state for its actions |
| WebhookHandler.GitHubWebhookHandler.HandleClaimed | bridge/github_webhook.py:142-274 | what any claimed delivery leaves in Yonote, the records and the grading tables |
| WebhookHandler.GitHubWebhookHandler.ProcessDelivery | bridge/github_webhook.py:127-140 | leaves databases and Yonote as the machine does on the script of the delivery; a push that asks for a grade is completed only if its attempt exists |
| WebhookHandler.GitHubWebhookHandler.Handle | bridge/github_webhook.py:94-109 | claims and processes a delivery, or leaves everything as it was |
| WebhookHandler.GitHubWebhookHandler.RetryPendingOnce | bridge/github_webhook.py:111-125 | works exactly when a delivery is due, on the first one, as the machine does |
| BridgePasses.GitBranchClient.EnsurePrepared | bridge/github_git.py:89-110 | an existing branch must be the starter; a missing one is pushed at it |
| BridgePasses.BridgeService.ReconcileCard | bridge/service.py:69-164 | leaves mappings, repository, cards and jobs as the machine does on the card; it raises iff one of the calls on the way fails, and otherwise comes to the outcome of `ReconcileCards` |
| BridgePasses.BridgeService.ReconcileOnce | bridge/service.py:66-171 | a pass is a run of the machine over the registered and handled cards, all of them unless it raised, and keeps the joint invariant |
| MentiBot.MentiBot.HandleUpdate | grader/menti_bot.py:231-289 | leaves the bot's state and the jobs as the sequence of effects does |
| MentiBot.MentiStateStore.ClearExact | grader/menti_bot.py:122-138 | removes the conversation only if nonce, revision and prompt are the given ones |

## Left out

- SQLite, files and permissions: tables are maps with the stated uniqueness, a vault entry appears in one rename; symlink, owner and mode checks are not modelled.
- `mark_authoring_ready`: no service calls it; jobs become ready through `finalize_authoring` only.
- `answered_at` and `status` of a clarification: a row is pending exactly while it has no answer.
- The canonical JSON text of assignments, critic feedback and reports: serialisers are parameters, and a report is a record whose conditions `complete_grading` checks.
- The JSON text decoder and the cap on the author's output: parsing starts from the decoded value; sizes of values in bytes and characters are parameters.
- Secret-quality, signature and peer checks, HTTP, Telegram, Yonote, GitHub and Git themselves: their calls may succeed, fail, or succeed and then fail.
- Duplicate check runs under concurrent publishers: the publisher's search and creation are not one step.
- Unicode digits in task IDs and Python's `lower()` outside ASCII: numerals are ASCII, and titles reach the slug through an arbitrary normalisation.
- Comparators take an expectation as a record, which `Expectations.ExpectationsAgree` ties to the parsed value; the decoding of observed JSON text is a parameter, and timeouts and broken result envelopes of the local executor are not modelled.
- Push deliveries in `Webhook`: they change neither Yonote nor the records there; what they enqueue is in `WebhookHandler.GitHubWebhookHandler.HandlePush`, and its two transactions interleave with everything else in `Pipeline`.
- Webhook bodies: deliveries carry the fields that the handler reads, and count as equal when these are; a body that cannot be read raises, which is a failure like any other.
- Webhook deliveries stored without event or payload by an early version: every delivery arrives with both.
- Agreement.DisagreementIsRepairable: supposes a lookup that always answers the same, which the live API need not do; `Agreement.SteadyDisagreement` and `Agreement.AllDoneMeansAgreement` say what holds otherwise.
- The row number of a new delivery: any number above all present ones, as SQLite assigns.
- Exceptions of one card end a whole reconcile pass in `BridgePasses.BridgeService.ReconcileOnce`; in `Reconcile` a reconciler may stop anywhere.
- Validation of prompts by `send_clarification`: conversations hold texts that the store already bounded.
- Student sandboxing, prompt texts, models' wording, CLIs and the benchmark walker.
