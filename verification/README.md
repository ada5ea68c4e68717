# Models and proofs for the AI video series workflow

This project states what the workflow's core promises and proves it for all inputs, all runs and all
interleavings. It has one module per part of the system.

* **Character error rate** (`EditScripts`, `CerEvaluation`). The Levenshtein table, its traceback with a fixed
  tie-break, and the rescoring of substitutions between Han characters that share a reading. Distances are
  minimal over all edit scripts, and the traceback is the first optimal script read from the right.
* **Immutable revisions** (`Revisions`, `RevisionClients`, `Dependencies`). Compare-and-append chains, concurrent
  clients whose read and create are separate steps, and the breadth-first closure of what a change makes stale.
* **Paid generation in memory** (`FakeProviders`, `Generation`). An idempotent provider and the runner over it;
  other parties may act on the provider between any two calls.
* **Paid generation with durable state** (`TaskRegistry`, `PaidLedger`, `PaidJob`, `PaidOutcomes`, `PaidOverlaps`,
  `ActivityJournal`, `ShotProduction`). The provider's task registry, the run's ledger transaction by transaction,
  the two activities step by step with crashes and lost replies, what they come to when nothing disturbs them, and
  the shot workflow that drives them. The workflow is proved never to give an early verdict, and so to keep what the
  at-most-one-payment theorems ask for.
* **Episodes** (`WorkflowSignals`, `Episode`). Pause and resume, two creative attempts per shot, decisions, the
  final gate. The promise of every ending is the exact shape of the workflow's log.
* **Context** (`ContextResolution`). The four-layer fold over unordered maps and the asset override rule.
* **Money and statistics** (`Budget`, `PostProduction`, `SpeechCeilings`, `LiveEvidence`). Saturating 128-bit ceiling
  pricing, exact budget splitting, authorization coverage, ceilings over totals that wrap around, and percentiles
  that do not depend on any order.

`Ordering`, `Text`, `Wrappers` and `ProviderContract` hold what the others share.

Assumptions and parameters. Digests and derived IDs are functions; where a result needs them to be collision-free
its lemma says so. Clocks, contexts, waits, the network, artifact stores, human decisions and activity results are
unconstrained values. In the paid-job protocol a database transaction and one exchange with the provider are
single steps; a request that reaches the provider takes effect in the step that sends it, and its reply may be lost.
Activities, callbacks and providers write what they did into ghost logs, and the contracts of the code that calls them
say what went into its result and why it stopped.
The shot workflow is modelled with attempts that do not overlap: an attempt that times out is taken to be dead before
the next one starts. `PaidOverlaps` says what happens otherwise.

What turned out not to hold as one might expect, with the exact condition:

* Rescoring the standard script can miss a cheaper tone-aware alignment (`StandardScriptCanMissHomophones`). Over an
  alphabet it never does if and only if the alphabet has no two homophones (`RescoringIsExactWithoutHomophones`). For
  a single pair of texts the absence of homophones is enough (`RescoringIsExactApart`) but not necessary: a pair of
  homophones may stand where the standard script substitutes them anyway.
* Attempts that overlap can send the paid request twice (`OverlapPostsTwice`). They do so in some continuation if and
  only if an attempt is stale: it has frozen its intent, or was told to submit before the boundary was crossed and the
  job has not failed or been cancelled since; a job that succeeded does not stop it
  (`LaterPostsNeedAStaleAttempt`, `SecondPostsNeedAStaleAttempt`).
* They can also pay after "no remote task" was recorded (`OverlapPaysAfterRelease`), if and only if an attempt stands
  between its intent and its request (`LatePaymentNeedsAnIntent`).
* The workflow's failure verdict releases a job the provider may be working on (`EarlyVerdictReleasesALiveTask`), if
  and only if the job is live and has no upstream identity yet (`FailedVerdictsRelease`).
* The ledger accepts a QUEUED observation that allows a second submit (`QueuedObservationReopensSubmission`);
  `OnlyNamelessQueuedObservationsReopen` says exactly which. The workers never send one, and ends and money survive
  it (`EndedStaysEnded`, `MoneyIsConserved`).
* Overlapping attempts of one journaled activity can return different results (`OverlappingAttemptsMayDisagree`),
  if and only if another result was recorded while one of them ran (`AttemptsDisagreeWithEarlierResults`).
* The running AFP total wraps around in int64, so a ceiling can be passed unnoticed. On every route the request alone
  decides whether it can (`CeilingsHoldUnlessTheyOverrun`). Off the metered route that comes to this:
  a fresh subscription outside v2 needs at most one cue or twice its ceiling in range
  (`FreshSubscriptionsStayBelowTheirCeiling`, failing in `CeilingsNearTheRangeFail`);
  a v2 batch needs every cue's authorization, added to what the cues before it may use within the ceiling, in range
  (`AttributedBatchesStayBelowTheirCeiling`, failing in `WrappedBatchesFail`, where validation wraps around as well);
  a batch outside a subscription and outside v2 needs at most one cue or a ceiling of zero
  (`BatchesStayBelowTheirCeiling`). A v2 subscription holds (`AuthorizedSubscriptionsStayBelowTheirCeiling`), and so
  does the metered route short of 600 characters a cue leaving the range (`MeteredRequestsStayBelowTheirCeiling`).

## Model

| member | source | states |
|---|---|---|
| EditScripts.DistanceIsMinimumCost | internal/videopipeline/cerevaluation/evaluator.go:285-306 | The distance of any two prefixes is the least cost over all edit scripts that turn one into the other, and some script has that cost; for standard and tone-aware scoring alike |
| EditScripts.AlignsMeansTransforms | internal/videopipeline/cerevaluation/evaluator.go:285-306 | Walking two texts in step with a script is the same as the script replaying the one into the other |
| EditScripts.NeighboursDifferByAtMostOne | internal/videopipeline/cerevaluation/evaluator.go:300-304 | Neighbouring cells of the table differ by at most one, for every text and position |
| EditScripts.EqualCharactersKeepTheDiagonal | internal/videopipeline/cerevaluation/evaluator.go:313-319 | Where the two characters are equal the distance is the diagonal neighbour's, so the match branch is always taken there |
| EditScripts.SubstitutionsDiffer | internal/videopipeline/cerevaluation/evaluator.go:319-325 | No substitution in the traceback's script has equal characters, although its branch does not test for that |
| EditScripts.TraceEdit | internal/videopipeline/cerevaluation/evaluator.go:312-338 | The branch the traceback takes always has the characters it consumes: the default branch never runs out of hypothesis |
| EditScripts.TraceIsOptimal | internal/videopipeline/cerevaluation/evaluator.go:308-346 | The traceback's script replays the reference into the hypothesis and costs exactly the distance |
| EditScripts.TraceIsTheFirstOptimalScript | internal/videopipeline/cerevaluation/evaluator.go:308-346 | Among all optimal scripts the traceback's is the first when read from the right under match, substitution, deletion, insertion |
| EditScripts.FirstScriptIsUnique | internal/videopipeline/cerevaluation/evaluator.go:312-338 | That order leaves only one first script |
| EditScripts.DistanceIsAtMostTheLongerText | internal/videopipeline/cerevaluation/evaluator.go:285-306 | The distance is at most the length of the longer text |
| EditScripts.ToneAwareErrorsAreBounded | internal/videopipeline/cerevaluation/evaluator.go:214-235 | Tone-aware errors are at least the minimum alignment cost with tone-sharing substitutions free, and at most the standard errors, themselves at most the longer text |
| EditScripts.StandardScriptCanMissHomophones | internal/videopipeline/cerevaluation/evaluator.go:214-235 | Four Han characters with one reading: rescoring the standard script of U+662F U+4E8B U+4E16 against U+4E8B U+4E16 U+5E02 leaves errors although the tone-aware minimum is none |
| EditScripts.RescoringIsExactApart | internal/videopipeline/cerevaluation/evaluator.go:214-235 | For two texts without homophones across them the rescored errors are the tone-aware minimum |
| EditScripts.RescoringIsExactWithoutHomophones | internal/videopipeline/cerevaluation/evaluator.go:214-235 | For texts over an alphabet, rescoring reaches the tone-aware minimum on every pair of them if and only if the alphabet holds no two different characters sharing a reading |
| CerEvaluation.FillTable | internal/videopipeline/cerevaluation/evaluator.go:286-306 | Every cell of the filled table is the distance of its prefixes |
| CerEvaluation.LevenshteinOperations | internal/videopipeline/cerevaluation/evaluator.go:285-347 | Fill, traceback and renumbering return the operations of the traceback's script, left to right, with their positions in both texts |
| CerEvaluation.SharedReadings | internal/videopipeline/cerevaluation/evaluator.go:364-377 | The shared readings are exactly the hypothesis readings the reference has too, sorted |
| CerEvaluation.Rescore | internal/videopipeline/cerevaluation/evaluator.go:217-233 | Only a substitution between Han characters with a shared reading becomes free; everything else keeps its cost |
| CerEvaluation.ErrorsAreCosts | internal/videopipeline/cerevaluation/evaluator.go:215-235 | The two error counters are the standard and the tone-aware cost of the script |
| CerEvaluation.EvidenceSpeaks | internal/videopipeline/cerevaluation/evaluator.go:217-338 | The recorded operations replay both texts in order, and each one's readings, reclassification and tone cost are those of its characters |
| CerEvaluation.Evaluate | internal/videopipeline/cerevaluation/evaluator.go:195-264 | The operations spell both texts with their positions, kinds, readings and costs; errors, reference length and status of both metrics are given outright: the gate fails exactly above two errors per hundred reference characters; empty texts are refused |
| CerEvaluation.GateFollowsTheAlignment | internal/videopipeline/cerevaluation/evaluator.go:349-362 | The gate fails if even the best tone-aware alignment exceeds two errors per hundred characters, and passes if the distance does not exceed them |
| Revisions.RevisionStore.Create | internal/videopipeline/production/revision.go:94-187 | One atomic create. With digests free of collisions an edit that differs from the newest revision in schema version, payload or evidence is appended once, as it was given; one that repeats it returns the newest and changes nothing |
| Revisions.NoEditIsLost | internal/videopipeline/production/revision.go:94-187 | What every create comes to, in the caller's terms: each refusal, the repetition, and otherwise exactly one revision with the input's content |
| Revisions.CreateKeepsValid | internal/videopipeline/production/revision.go:94-187 | A create keeps every chain linear, gapless and linked to exact predecessors, and never changes a stored revision, whatever the digests |
| Revisions.ReachableStoresAreValid | internal/videopipeline/production/revision.go:94-187 | Every reachable store has linear chains numbered 1..n, each parent the exact predecessor, and no non-rollback revision repeating its predecessor |
| Revisions.NoForks | internal/videopipeline/production/revision.go:113-119 | Two stored revisions of one chain with the same parent are one revision |
| Revisions.ExistingIDIsUnreachable | internal/videopipeline/production/revision.go:165-168 | With collision-free IDs the early return for an existing ID is never taken |
| Revisions.RollbackGrowsByOne | internal/videopipeline/production/revision.go:120-125 | With collision-free IDs a successful rollback always appends one linked revision |
| Revisions.ChainKeysAreDistinct | internal/videopipeline/production/revision.go:260-262 | NUL-free kinds keep the chain keys of different aggregates apart |
| Revisions.ChainBelongsToItsAggregate | internal/videopipeline/production/revision.go:249-258 | A chain read under a NUL-free kind holds only revisions of that aggregate |
| Revisions.RevisionStore.Latest | internal/videopipeline/production/revision.go:239-247 | The stored newest revision of the chain, or none exactly when it is empty |
| Revisions.RevisionStore.History | internal/videopipeline/production/revision.go:249-258 | The stored revisions of the whole chain in order |
| Revisions.RevisionStore.CreateNext | internal/videopipeline/production/revision.go:189-204 | Alone, it appends after the newest revision, unless that already says the same, and cannot conflict |
| Revisions.RevisionStore.Rollback | internal/videopipeline/production/revision.go:206-230 | Refuses foreign targets, and otherwise creates a revision linked to the target after the newest one |
| RevisionClients.StaleReadsConflict | internal/videopipeline/production/revision.go:189-204 | A create whose parent is still newest sees exactly the chain its client had read |
| RevisionClients.ConcurrentClientsNeverLoseUpdates | internal/videopipeline/production/revision.go:189-230 | With any number of clients whose read and create are separate steps, every append lands directly after what its client read, no chain forks and no revision is lost |
| RevisionClients.SuccessesSayWhatWasAsked | internal/videopipeline/production/revision.go:127-187 | In every concurrent run, a client that is told its create succeeded has its payload, schema version and evidence in the revision it got |
| RevisionClients.UndisturbedClientsSucceed | internal/videopipeline/production/revision.go:189-230 | A client that nobody disturbs between its read and its create always succeeds, with edits and with rollbacks |
| RevisionClients.SuccessfulRollbacksAppend | internal/videopipeline/production/revision.go:206-230 | In every concurrent run a successful rollback grows its chain by exactly one, given collision-free IDs |
| Dependencies.DependencyGraph.Add | internal/videopipeline/production/revision.go:294-313 | Records an edge once per consumer and role; incomplete dependencies are refused |
| Dependencies.DependencyGraph.Impacted | internal/videopipeline/production/revision.go:315-349 | Terminates on cyclic graphs and returns exactly one reference per revision reachable from the producer, never the producer, sorted |
| Dependencies.ClosureIgnoresInsertionOrder | internal/videopipeline/production/revision.go:315-349 | For references from one store the sorted closure depends only on which edges exist |
| Dependencies.AddAllFeeds | internal/videopipeline/production/revision.go:294-313 | The edges after any number of additions are exactly those added, in any order |
| Dependencies.SameDependenciesSameClosure | internal/videopipeline/production/revision.go:294-349 | Two lists with the same dependencies, in any order and with any repetitions, give the same sorted closure |
| Dependencies.StoreRefsAreSeparated | internal/videopipeline/production/revision.go:333-347 | The sort order separates references that come from one store |
| FakeProviders.JobIDsAreDistinct | internal/providercontract/fake.go:104-151 | Numbered job IDs never collide |
| FakeProviders.FakeProvider.Submit | internal/providercontract/fake.go:104-151 | Replays an accepted key, or accepts a new one, possibly reporting an ambiguous failure after accepting |
| FakeProviders.SubmitsAreAnswered | internal/providercontract/fake.go:104-151 | An accepted key becomes one new queued job with the request's identity; a known key gets its job as it stands; refusals change nothing |
| FakeProviders.FakeProvider.Poll | internal/providercontract/fake.go:153-200 | Moves a live job on, and leaves a terminal one alone |
| FakeProviders.TwoPollsFinish | internal/providercontract/fake.go:153-200 | A live job runs after one poll and succeeds with the fixture output at the second, or at once in the cancellation race |
| FakeProviders.FakeProvider.Cancel | internal/providercontract/fake.go:202-219 | Cancels a live job, and leaves a terminal one alone |
| FakeProviders.CancellationsStop | internal/providercontract/fake.go:202-219 | A cancellation stops a live job and changes nothing else |
| FakeProviders.FakeProvider.ApplyCallback | internal/providercontract/fake.go:224-262 | Applies a callback only if it is new, in rank and newer; repetitions change nothing |
| FakeProviders.CallbacksApplyInOrder | internal/providercontract/fake.go:224-262 | A callback applies exactly if its event is new and its job live, and it neither turns the job back nor repeats its status without a later time; then only status and time change |
| FakeProviders.RunKeepsValid | internal/providercontract/fake.go:104-262 | Every interleaving keeps job IDs 1..n, one to one with idempotency keys, and only evolves the registry |
| FakeProviders.OneJobPerKey | internal/providercontract/fake.go:104-151 | Two jobs never share an idempotency key |
| FakeProviders.TerminalJobsAreFrozen | internal/providercontract/fake.go:153-262 | Under the provider's own operations status rank never decreases and a terminal job record never changes again |
| FakeProviders.EventsApplyAtMostOnce | internal/providercontract/fake.go:224-262 | Each callback event takes effect at most once in any run |
| FakeProviders.CallbacksAreNoted | internal/providercontract/fake.go:236-262 | A repeated event changes nothing at all; an applied one was new |
| Generation.RunLedger.Begin | internal/videopipeline/production/generation.go:215-234 | Begins a run once; the same input replays it and another input conflicts |
| Generation.RunLedger.Complete | internal/videopipeline/production/generation.go:236-254 | Closes a running run with the same input, and afterwards only confirms it; each refusal in order |
| Generation.ManifestStore.Put | internal/videopipeline/production/generation.go:162-181 | A manifest ID keeps its first content |
| Generation.GenerationRunner.SubmitUntilAccepted | internal/videopipeline/production/generation.go:358-397 | Between one and the allowed number of submits, all recorded; it ends in the provider's one job for the key, or at a final error, at the last attempt allowed, or in an interrupted wait, and the record shows which |
| Generation.GenerationRunner.PollUntilTerminal | internal/videopipeline/production/generation.go:399-450 | Polls exactly until the key's own job is over, a final error, the last poll allowed, or an interrupted wait, which leaves the job over; the record shows which; submits nothing |
| Generation.GenerationRunner.Generate | internal/videopipeline/production/generation.go:356-524 | The paid part ends in a closed record whose attempts show how far it came; success names the provider's finished job for the key, routed as frozen, within the reservation |
| Generation.GenerationRunner.Conclude | internal/videopipeline/production/generation.go:445-524 | A finished job is accepted exactly if it came from the frozen route, names its region and request, costs between nothing and the reservation, has assets, and committer and manifest store take it |
| Generation.GenerationRunner.Execute | internal/videopipeline/production/generation.go:286-524 | A call that fails preflight changes nothing; a known key replays or conflicts and changes nothing; a new key ends closed, and the verdict is decided both ways: a finished job from the frozen route within its reservation, committed and bound, succeeds, and anything else fails for the first reason that applies |
| Generation.GenerationRunner.Fail | internal/videopipeline/production/generation.go:601-610 | Closes the run as failed with the failure's code |
| Generation.GenerationRunner.Manifest | internal/videopipeline/production/generation.go:473-523 | Either stores the manifest the closed run names and closes it as the job ended, or fails the run with the store's reason; no stored manifest changes |
| Generation.KeysArePaidOnce | internal/videopipeline/production/generation.go:215-254 | Over any sequence of calls and outside provider activity: a recorded run never changes, its key is never submitted again and sees at most the allowed submits, and owns at most one provider job |
| Generation.FirstClearedCallDecides | internal/videopipeline/production/generation.go:334-355 | The first call past preflight leaves the record every later call finds; nothing was submitted before it |
| TaskRegistry.Server.CreateJob | internal/videopipeline/mockprovider/server.go:133-205 | Refusals before any lookup, then replay, conflict or creation of the one entry under the job ID, which then lasts |
| TaskRegistry.CreationsAreAnswered | internal/videopipeline/mockprovider/server.go:133-205 | Each refusal in order, and otherwise a task with the request's identity, queued, or unknown after a simulated timeout, whose cost is the lesser of the amount and 125 |
| TaskRegistry.Server.GetJob | internal/videopipeline/mockprovider/server.go:207-230 | Polling moves only a live, known task; identity and success last |
| TaskRegistry.PollsMove | internal/videopipeline/mockprovider/server.go:207-230 | What a poll makes of a task, by its state and simulation |
| TaskRegistry.Server.CancelJob | internal/videopipeline/mockprovider/server.go:232-255 | Cancels a task that is not over, or lets the race complete it; a success stays |
| TaskRegistry.CancellationsEnd | internal/videopipeline/mockprovider/server.go:232-255 | What a cancellation makes of a task, by its state and simulation |
| TaskRegistry.Server.ApplyCallback | internal/videopipeline/mockprovider/server.go:263-292 | Per-task duplicate, sequence and terminal rules; a success stays and is backed by an artifact |
| TaskRegistry.CallbacksMove | internal/videopipeline/mockprovider/server.go:263-292 | Exactly which callbacks take effect, and what they change |
| TaskRegistry.Server.Complete | internal/videopipeline/mockprovider/server.go:309-344 | Success needs a committed artifact; a store failure leaves the outcome unknown |
| TaskRegistry.EventsLast | internal/videopipeline/mockprovider/server.go:133-344 | No request removes a task or changes its request or upstream identity; a success with its artifact is final |
| TaskRegistry.OneTaskPerJob | internal/videopipeline/mockprovider/server.go:159-204 | Whatever requests arrive for a job ID, at most one task is ever created and it is never lost |
| TaskRegistry.RepeatedCreateReplays | internal/videopipeline/mockprovider/server.go:161-168 | Repeating the creating request returns the current response and changes nothing |
| TaskRegistry.CallbacksAreOrdered | internal/videopipeline/mockprovider/server.go:277-286 | An applied callback is new, is noted and raises the sequence number |
| TaskRegistry.CallbacksApplyOnceInOrder | internal/videopipeline/mockprovider/server.go:263-292 | Over any requests the callbacks that take effect have different IDs and rising sequence numbers |
| PaidLedger.PrepareKeeps | internal/videopipeline/repository/workflow_ledger.go:1800-1960 | A run gets one live, nameless, reserved job, an ended run none; a known job is only to be reconciled unless it is queued without a task; nothing that ended changes |
| PaidLedger.ObserveKeeps | internal/videopipeline/repository/workflow_ledger.go:1989-2135 | An observation that contradicts nothing is frozen as it is, any other changes nothing; what has ended stays, and one outside QUEUED never reopens the paid boundary |
| PaidLedger.CompleteKeeps | internal/videopipeline/repository/workflow_ledger.go:2315-2696 | A usable success settles a live job under its identity, actual, trust and return written down exactly; it succeeds if and only if the cost is certain and within the reservation, and fails the run otherwise |
| PaidLedger.RepeatedCompletions | internal/videopipeline/repository/workflow_ledger.go:2332-2359 | A completion that comes again is accepted if and only if identity and cost are the recorded ones; it changes nothing but a run that resumed meanwhile |
| PaidLedger.ReleaseKeeps | internal/videopipeline/repository/workflow_ledger.go:6526-6675 | A release ends a nameless live job and gives its whole reservation back; a settled job keeps its settlement |
| PaidLedger.SettleKeeps | internal/videopipeline/repository/workflow_ledger.go:6153-6325 | A confirmed end leaves the job settled in that state under its own identity, and a settled one as it was; the actual cost is recorded if it makes sense, trusted if verified and matching, and what a trusted cost leaves is given back |
| PaidLedger.LiveCancellations | internal/videopipeline/repository/workflow_ledger.go:5840-6151 | What recording a cancellation does to a live job, by what the provider said: settled with its money written down, given back whole, or left in doubt |
| PaidLedger.OtherCancellations | internal/videopipeline/repository/workflow_ledger.go:5840-6151 | Without a live job a cancellation is accepted exactly if it is the end the job had, or there was no job, and moves no money |
| PaidLedger.CancellationKeeps | internal/videopipeline/repository/workflow_ledger.go:5840-6151 | Recording a cancellation keeps every end as it was |
| PaidLedger.FinalizeKeeps | internal/videopipeline/repository/workflow_ledger.go:6423-6524 | The workflow's verdict reverses nothing; success is recorded if and only if the job succeeded, and each failure verdict is accepted or refused by an exact rule |
| PaidLedger.FailedVerdictsRelease | internal/videopipeline/repository/workflow_ledger.go:6526-6600 | A failure verdict gives the reservation back if and only if the run is live and its job is live and has no upstream identity |
| PaidLedger.ControlKeeps | internal/videopipeline/repository/postgres.go:1505-1572 | Pause, cancel, resume and recover move exactly the runs they apply to, each to its own state |
| PaidLedger.EndedStaysEnded | internal/videopipeline/repository/workflow_ledger.go:1261-6675 | Over any sequence of transactions whatever, an ended run, attempt or job stays as it ended, money included |
| PaidLedger.SubmissionStaysForbidden | internal/videopipeline/repository/workflow_ledger.go:1261-6675 | Over any sequence of transactions that observes no QUEUED, a job that forbids a submit goes on forbidding it |
| PaidLedger.OnlyNamelessQueuedObservationsReopen | internal/videopipeline/repository/workflow_ledger.go:1989-2104 | A transaction makes a forbidden submit allowed again if and only if it observes QUEUED without a task on a live job without a task, request IDs permitting |
| PaidLedger.MoneyIsConserved | internal/videopipeline/repository/workflow_ledger.go:2463-2486 | After any sequence of transactions the reserved amount is held, given back whole, or settled so that what was spent and returned adds up; a succeeded run has a settled, succeeded job |
| PaidLedger.PausedCompletionsAreRepaired | internal/videopipeline/repository/workflow_ledger.go:2332-2359 | A completion during a pause leaves the run paused; after resuming, its exact replay succeeds the run and nothing else |
| PaidLedger.KnownTasksAreNotWrittenOff | internal/videopipeline/repository/workflow_ledger.go:5874-5905 | A missing task whose upstream identity is durable keeps its reservation and stays unknown |
| PaidLedger.QueuedObservationReopensSubmission | internal/videopipeline/repository/workflow_ledger.go:1989-1992 | The shortest history in which a QUEUED observation allows a submit again |
| PaidJob.ActingIsFair | internal/videopipeline/orchestration/activities.go:341-530 | Every step of either activity keeps the ledger sound and linked to the provider's own task; what each step comes to is said by the results of PaidOutcomes |
| PaidJob.AnyRunIsSound | internal/videopipeline/orchestration/activities.go:263-530 | In every run, overlaps included: at most one task is ever created; a recorded success is the provider's; a success that races a cancellation is completed and settled before the cancellation is recorded |
| PaidJob.ActingOnce | internal/videopipeline/orchestration/activities.go:386-409 | One worker's step crosses the paid boundary only after freezing its intent, and only once |
| PaidJob.AtMostOnePost | internal/videopipeline/orchestration/activities.go:386-409 | Over every interleaving of crashes, retries, pauses and cancellations without overlapping attempts, the paid request is sent at most once |
| PaidJob.ReleasedMeansNeverAccepted | internal/videopipeline/orchestration/activities.go:877-983 | Without overlap, once the ledger holds that nothing is owed the provider has not accepted the job and never will |
| PaidJob.NoRemoteTaskVerdictsHold | internal/videopipeline/orchestration/activities.go:876-902 | In a run without overlaps a recorded verdict that there is no remote task is true, and stays true whatever happens afterwards |
| PaidJob.VerdictsAfterSuccessReleaseNothing | internal/videopipeline/repository/workflow_ledger.go:6423-6524 | After an execution has returned, no verdict touches the settled job |
| PaidOutcomes.AnswersDecide | internal/videopipeline/orchestration/activities.go:422-520 | An answer about a live job is frozen in the ledger and decides how the worker goes on: take a success with artifacts over, keep polling, or stop; a foreign answer changes nothing |
| PaidOutcomes.FinishingDecides | internal/videopipeline/orchestration/activities.go:300-330 | Taking a success over completes a live job and returns if and only if its cost is usable and affordable; a usable cost beyond the reservation fails the run |
| PaidOutcomes.SubmitsDecide | internal/videopipeline/orchestration/activities.go:394-409 | After the paid request only an answered refusal that rules a task out leaves no doubt behind |
| PaidOutcomes.AnsweredSuccessesReturn | internal/videopipeline/orchestration/activities.go:422-530 | In any run: a success the provider has answered with is taken over in two undisturbed steps, and returns if and only if its cost is usable and affordable |
| PaidOutcomes.UndisturbedExecutionsReturn | internal/videopipeline/orchestration/activities.go:263-530 | An acceptable job, undisturbed and with a working artifact store, is paid for once, seen to succeed, and taken over if and only if its cost is usable and affordable |
| PaidOutcomes.TimeoutsArePolledOn | internal/videopipeline/orchestration/activities.go:440-520 | A task the provider lost track of is polled for as long as the execution lasts, without another payment |
| PaidOutcomes.AnsweredCancellationsDecide | internal/videopipeline/orchestration/activities.go:903-983 | How an answered cancellation leaves a live job, its money and the verdict; a success found that way is completed first |
| PaidOutcomes.AbsenceDecides | internal/videopipeline/orchestration/activities.go:893-902 | Finding no task gives a nameless job's whole reservation back, and leaves one with a name to be reconciled |
| PaidOutcomes.UndisturbedCancellationsSettle | internal/videopipeline/orchestration/activities.go:863-983 | An undisturbed cancellation of a task that is not over cancels task and run and settles what the provider says it cost |
| PaidOutcomes.LateStepsDecide | internal/videopipeline/repository/workflow_ledger.go:1989-2359 | Beside a job that has ended nothing new is frozen; its own completion is confirmed, by identity and cost |
| PaidOverlaps.LatePaymentNeedsAnIntent | internal/videopipeline/orchestration/activities.go:893-902 | In any run: after nothing is owed and no task exists, one can still appear if and only if some attempt stands between its frozen intent and its request |
| PaidOverlaps.LaterPostsNeedAStaleAttempt | internal/videopipeline/orchestration/activities.go:343-409 | In any run whose ledger forbids a submit: the request is sent again in some continuation if and only if an attempt stands before its request, or was told to submit earlier and the job has not failed or been cancelled |
| PaidOverlaps.SecondPostsNeedAStaleAttempt | internal/videopipeline/orchestration/activities.go:343-409 | The same condition, exact for a second request in any run that has sent one |
| PaidOverlaps.OnlyFailedJobsRefuseIntents | internal/videopipeline/repository/workflow_ledger.go:2042-2052 | The ledger accepts a late intent beside a succeeded job; only failed and cancelled ones refuse it |
| PaidOverlaps.OverlapPostsTwice | internal/videopipeline/orchestration/activities.go:394-409 | Two overlapping attempts can both send the request; the provider still makes one task |
| PaidOverlaps.OverlapPaysAfterRelease | internal/videopipeline/orchestration/activities.go:893-902 | An overlapping attempt can pay right after "no remote task" was recorded |
| PaidOverlaps.EarlyVerdictReleasesALiveTask | internal/videopipeline/orchestration/shot_workflow.go:192-205 | A failure verdict before any execution returned releases a task that may be running, by the rule of FailedVerdictsRelease |
| ActivityJournal.WorkflowStepJournal.BeginWorkflowStep | internal/videopipeline/repository/postgres.go:177-232 | Reserves a step, finds its recorded result, or refuses a changed input; the journal only grows |
| ActivityJournal.WorkflowStepJournal.CompleteWorkflowStep | internal/videopipeline/repository/postgres.go:237-286 | Records a result once and never replaces it; a success leaves one recorded |
| ActivityJournal.WorkflowStepJournal.JournalActivity | internal/videopipeline/orchestration/activities.go:1022-1072 | Runs the activity exactly if its step is named, not reserved for another input and without a recorded result, and otherwise replays or is refused; a result alone in its journal is the recorded one |
| ActivityJournal.AttemptsAreJournaled | internal/videopipeline/orchestration/activities.go:1022-1072 | What one attempt comes to: a refusal, a replay, its own valid result recorded, or a bare reservation |
| ActivityJournal.JournalsOnlyExtend | internal/videopipeline/repository/postgres.go:177-286 | However attempts interleave, inputs never change and recorded results are never replaced |
| ActivityJournal.NonOverlappingAttemptsAgree | internal/videopipeline/orchestration/activities.go:1049-1071 | After one attempt returned, every later one returns the same result or is refused for a different input |
| ActivityJournal.AttemptsDisagreeWithEarlierResults | internal/videopipeline/orchestration/activities.go:1049-1071 | In any run: an attempt that began with nothing recorded and completes later returns something other than the record if and only if another result was recorded meanwhile |
| ActivityJournal.OverlappingAttemptsMayDisagree | internal/videopipeline/orchestration/activities.go:1060-1071 | Two overlapping attempts can return different results, while the journal keeps the first |
| WorkflowSignals.Signals.WaitForResume | internal/videopipeline/orchestration/workflow.go:551-579 | Takes in the arrived controls, waits out a pause, and reports whether a pause was seen |
| WorkflowSignals.LastCommandDecides | internal/videopipeline/orchestration/workflow.go:581-591 | Whether a workflow is paused is decided by the last command with an ID and an actor |
| ShotProduction.ShotWorkflow.Attempt | internal/videopipeline/orchestration/activities.go:263-330 | One activity attempt is an orderly run of the protocol's steps that ends, or is assumed to die, before the next one starts |
| ShotProduction.ShotWorkflow.ExecuteProviderWithControls | internal/videopipeline/orchestration/shot_workflow.go:340-397 | A result is that of the last execution, of at most three attempts; a success means that an execution returned and that nothing paused the workflow from its start until now; the workflow waits on only for an execution that has not ended, or in a pause |
| ShotProduction.ShotWorkflow.WaitForExactDecision | internal/videopipeline/orchestration/shot_workflow.go:415-447 | Takes the first complete decision on exactly this shot and run, while neither paused nor cancelled; passes over no such decision, waits on only if nothing more comes or a pause never ends, and a cancellation ends the wait |
| ShotProduction.ShotWorkflow.FinalizeShot | internal/videopipeline/orchestration/shot_workflow.go:477-485 | Called only after an execution has returned; a success is recorded as one, a failure leaves an ended run |
| ShotProduction.ShotWorkflow.ReconcileProviderExecutionFailure | internal/videopipeline/orchestration/shot_workflow.go:315-338 | After a failed execution the job's end is found out, never decided |
| ShotProduction.ShotWorkflow.CheckAndReview | internal/videopipeline/orchestration/shot_workflow.go:207-313 | From the quality control on: which stages follow, in which order, and what each makes of the result |
| ShotProduction.ShotWorkflow.ShotProductionWorkflow | internal/videopipeline/orchestration/shot_workflow.go:125-313 | The result is explained by what the workflow waited for, stage by stage. Given attempts that do not overlap, it never gives an early verdict; success means a succeeded run, passed quality control and, when required, a sent decision approving exactly this run |
| ShotProduction.WorkflowsPayOnce | internal/videopipeline/orchestration/shot_workflow.go:121-124 | However the workflow went, it paid at most once, and what it released was never accepted |
| Episode.EpisodeWorkflow.ValidateInput | internal/videopipeline/orchestration/workflow.go:876-888 | Shots must be present, named and distinct |
| Episode.EpisodeWorkflow.WaitForShotDecision | internal/videopipeline/orchestration/workflow.go:593-624 | Returns the first complete decision on exactly this shot and run; only a cancelled workflow passes one over, and it waits on only if nothing more comes or a pause never ends |
| Episode.EpisodeWorkflow.WaitForGate3Decision | internal/videopipeline/orchestration/workflow.go:626-652 | Returns the first complete decision, with the same exceptions |
| Episode.EpisodeWorkflow.Try | internal/videopipeline/orchestration/workflow.go:371-455 | One creative attempt is accepted only after its run passed quality control and, when required, was approved; it errs if and only if an activity failed for good, and every decision in its log was sent |
| Episode.EpisodeWorkflow.ProduceShot | internal/videopipeline/orchestration/workflow.go:357-474 | At most two attempts, and escalation after the second failure |
| Episode.EpisodeWorkflow.ProduceShots | internal/videopipeline/orchestration/workflow.go:355-474 | Shots in input order; a given-up shot stops the episode with exactly the accepted prefix |
| Episode.EpisodeWorkflow.Review | internal/videopipeline/orchestration/workflow.go:476-548 | The gate opens only after everything is ready, and its decision closes the episode |
| Episode.EpisodeWorkflow.EpisodeProductionWorkflow | internal/videopipeline/orchestration/workflow.go:311-549 | LOCKED, G3_REJECTED and NEEDS_INTERVENTION each have exactly their log, no ending opens the gate early, no activity starts under a known pause, and every decision in the log was sent; it errs if and only if its input is malformed or an activity failed for good, and waits on only if nothing more comes or a pause never ends |
| Episode.ProductionEarns | internal/videopipeline/orchestration/workflow.go:355-456 | Every produced shot has a run that passed quality control and, when required, was approved, in shot order |
| Episode.ProductionCounts | internal/videopipeline/orchestration/workflow.go:371 | Every produced shot took one or two creative attempts, and no other shot took any |
| Episode.LockedEpisodesAreEarned | internal/videopipeline/orchestration/workflow.go:541-548 | A locked episode has one earned run per input shot in order, within two attempts each, and was delivered if post-production is enabled |
| ContextResolution.AssetCatalog.Add | internal/videopipeline/production/context.go:101-118 | An asset revision is added once and can afterwards only be confirmed |
| ContextResolution.AssetCatalog.Resolve | internal/videopipeline/production/context.go:120-135 | Only exact known revisions resolve |
| ContextResolution.LayersMustFit | internal/videopipeline/production/context.go:269-323 | When one layer fits: complete, in its place, with allowed, insensitive, non-empty values, and with known assets that rebind only by an allowed override |
| ContextResolution.ContextResolver.MergeValues | internal/videopipeline/production/context.go:295-309 | One layer's values merge the same way in whatever order they are iterated |
| ContextResolution.ContextResolver.MergeAssets | internal/videopipeline/production/context.go:310-323 | One layer's bindings merge, with the override rule against the layers before |
| ContextResolution.ContextResolver.Resolve | internal/videopipeline/production/context.go:269-351 | Succeeds exactly on resolvable layers, and then with the fold of the four layers, for every iteration order |
| ContextResolution.DeepestLayerWins | internal/videopipeline/production/context.go:296-309 | Each key has the normalized value and the origin of the deepest layer that sets it |
| ContextResolution.OnlySetKeysAppear | internal/videopipeline/production/context.go:296-309 | No other key appears |
| ContextResolution.ContextsNameTheirAssets | internal/videopipeline/production/context.go:72-90 | A bound asset is named by its exact revision, pinned content and licence, in its default role unless another is given |
| ContextResolution.ContextsPinTheirLayers | internal/videopipeline/production/context.go:269-351 | The context carries the revision of each of the four layers in order, and the content hash of each scope's layer |
| ContextResolution.AliasesNameOneRevision | internal/videopipeline/production/context.go:311-316 | An alias that no layer may override names one revision wherever it is bound |
| ContextResolution.OnlyShotsRebind | internal/videopipeline/production/context.go:195-239 | Under the default policy only a shot rebinds an alias, and only the primary character or prop |
| Budget.CheckedAddNonNegative | internal/providercontract/budget.go:102-111 | Adds exactly, or refuses negative amounts and totals beyond int64 |
| Budget.EvaluateBudget | internal/providercontract/budget.go:69-100 | Each refusal is returned exactly when its reason holds and no earlier one does; approval, projection and warning are exact |
| Budget.RoundedCost | internal/providercontract/budget.go:125-144 | The cost is the least price covering units times rate, capped at the int64 range, with the 128-bit division inside its domain |
| Budget.DivisionFitsBelowTheDivisor | internal/providercontract/budget.go:129-132 | The guard on the high word catches exactly the quotients beyond 64 bits |
| Budget.LargeProductsSaturate | internal/providercontract/budget.go:129-132 | Where the guard holds the exact price is beyond the int64 range |
| Budget.PriceIsMonotone | internal/providercontract/budget.go:125-144 | More units, a higher rate or a smaller divisor never cost less |
| Budget.PriceNeverUndercharges | internal/providercontract/budget.go:125-144 | The price covers what is owed and no smaller price would, unless it saturated |
| PostProduction.ValidateCompletedAttempt | internal/videopipeline/postproduction/speech.go:475-516 | A completed attempt is valid exactly if some cue of the subtitles has it as its exact record |
| PostProduction.ValidateCoverage | internal/videopipeline/postproduction/speech.go:423-473 | Accepts exactly requests whose completed attempts are distinct and valid and whose batch authorizes the remaining cues in timeline order |
| PostProduction.Service.Pay | internal/videopipeline/postproduction/service.go:97-126 | The callback precedes the submission of the same cue; the attempt is taken exactly if it is complete evidence within the cue's share |
| PostProduction.Service.PayNext | internal/videopipeline/postproduction/service.go:83-153 | One cue: its share, its submission, its evidence and the running AFP total; if it stops there, the answer is the reason |
| PostProduction.Service.Finalize | internal/videopipeline/postproduction/service.go:37-161 | Ends at the first cue that may not be paid for, is refused, or is not answered with fitting evidence, and otherwise succeeds within its ceiling; submissions and answers are exactly those up to that point, in cue order |
| PostProduction.EvidenceMeans | internal/videopipeline/postproduction/speech.go:344-421 | What an attempt must show, route by route, both ways |
| PostProduction.CueCeilingMeans | internal/videopipeline/postproduction/speech.go:344-421 | A v2 batch caps each cue by its own first authorization, which must be for the very same job |
| PostProduction.SharesSplitTheMaximum | internal/videopipeline/postproduction/service.go:63-96 | The shares differ by at most one micro, sum to exactly the maximum, and no prefix exceeds it |
| PostProduction.FinalizationAllocatesTheMaximum | internal/videopipeline/postproduction/service.go:63-96 | A finalization with cues to pay for allocates exactly the approved maximum |
| PostProduction.SpendingStaysApproved | internal/videopipeline/postproduction/service.go:75-127 | Up to every cue what the providers report for it is within the approved maximum |
| PostProduction.SubmissionsAreAuthorized | internal/videopipeline/postproduction/service.go:97-104 | Every submission comes right after the authorization of the same cue |
| PostProduction.AttemptsFollowTheCues | internal/videopipeline/postproduction/service.go:75-127 | Attempts are in cue order, completed ones unchanged |
| PostProduction.CanariesNeverFinalize | internal/videopipeline/postproduction/service.go:146-153 | A v2 request without a batch and outside a subscription never finalizes a cue |
| SpeechCeilings.CeilingsHold | internal/videopipeline/postproduction/service.go:83-160 | On any route, under a subscription or a batch: unless the request overruns, an accepted list of attempts stays within the ceiling, counted exactly |
| SpeechCeilings.SubscriptionsStayBelowTheirCeiling | internal/videopipeline/postproduction/service.go:128-160 | The same for all units of a finalized subscription |
| SpeechCeilings.CeilingsHoldUnlessTheyOverrun | internal/videopipeline/postproduction/service.go:83-160 | On every route, under a subscription or a batch, with or without the v2 identities: every accepted list stays within the ceiling if and only if the entries of the request cannot overrun, which the request alone decides; asks that what is counted in any case leaves room in the int64 range |
| SpeechCeilings.FreshSubscriptionsStayBelowTheirCeiling | internal/videopipeline/postproduction/service.go:128-160 | Outside v2 and off the metered route, with nothing completed: every accepted list stays within the ceiling if and only if there is at most one cue or twice the ceiling is an int64 |
| SpeechCeilings.AuthorizedSubscriptionsStayBelowTheirCeiling | internal/videopipeline/postproduction/service.go:83-91 | A v2 subscription without a batch always stays within its ceiling, because it pays for one cue at most |
| SpeechCeilings.MeteredRequestsStayBelowTheirCeiling | internal/videopipeline/postproduction/service.go:83-160 | On the metered route every accepted list stays within the ceiling, whatever it is, unless 600 characters for every cue leave the int64 range |
| SpeechCeilings.BatchesStayBelowTheirCeiling | internal/videopipeline/postproduction/service.go:136-145 | Outside a subscription and v2 and off the metered route: every accepted list stays within the batch ceiling if and only if the batch authorizes at most one cue or no units |
| SpeechCeilings.AttributedBatchesStayBelowTheirCeiling | internal/videopipeline/postproduction/service.go:136-145 | A v2 batch off the metered route: every accepted list stays within the batch ceiling if and only if each authorization, added to what the cues before it may use within the ceiling, is an int64 |
| SpeechCeilings.AuthorizedBatchesStayBelowTheirCeiling | internal/videopipeline/postproduction/service.go:136-145 | A v2 batch on any route whose authorized units add up inside the int64 range stays within its ceiling |
| SpeechCeilings.NegativeCeilingsAcceptNothing | internal/videopipeline/postproduction/service.go:136-145 | Under a negative batch ceiling no cue is ever paid for |
| SpeechCeilings.RequestsWithRoomCannotOverrun | internal/videopipeline/postproduction/service.go:128-160 | Room for one more attempt below the int64 range is enough, under a subscription and on the metered route |
| SpeechCeilings.RunningWraps | internal/videopipeline/postproduction/service.go:128-136 | The running int64 total is the exact sum of the counted units, wrapped around |
| SpeechCeilings.CeilingsNearTheRangeFail | internal/videopipeline/postproduction/service.go:128-135 | Under the largest ceiling one cue of a subscription stays within it, and two can pass far beyond |
| SpeechCeilings.WrappedBatchesFail | internal/videopipeline/speechcontract/authorization.go:112-132 | A v2 batch of three cues whose authorizations add up, in int64, to the batch maximum, as validation asks, and whose total can pass that maximum |
| LiveEvidence.ClassifyGroup | internal/providercontract/liveevidence.go:380-398 | A sorted group is split by idle time, or refused exactly if it overlaps |
| LiveEvidence.GroupSamples | internal/providercontract/liveevidence.go:367-370 | Samples are grouped by key in their order |
| LiveEvidence.DeriveTemperatureLatencies | internal/providercontract/liveevidence.go:363-401 | Succeeds exactly when no two samples of a group overlap, and splits all latencies by the idle time before each sample |
| LiveEvidence.IdlenessDecides | internal/providercontract/liveevidence.go:363-401 | A sample is cold exactly after an idle time of the minimum or more, hot exactly after a shorter one within the window, and otherwise unclassified |
| LiveEvidence.EverySampleCountsOnce | internal/providercontract/liveevidence.go:371-400 | Cold, hot and unclassified samples account for every attempt exactly once |
| LiveEvidence.EqualStartsOverlap | internal/providercontract/liveevidence.go:374-388 | Equal start times in one group always fail as overlap |
| LiveEvidence.NearestRankPercentile | internal/providercontract/liveevidence.go:403-414 | The smallest value with at least the given percentage of values at or below it |
| LiveEvidence.PercentilesIgnoreOrder | internal/providercontract/liveevidence.go:403-414 | A percentile depends only on which values there are |
| LiveEvidence.Evaluate | internal/providercontract/liveevidence.go:191-205 | Counts and percentiles of the temperature split; succeeds exactly without overlap and with the cold and hot samples asked for |
| LiveEvidence.EvidenceOrderDoesNotMatter | internal/providercontract/liveevidence.go:191-205 | Evidence in any order, iterated in any order, has one evaluation |

## Left out

- ShotProduction.ShotWorkflow.ExecuteProviderWithControls: a workflow cancelled while it is paused finds itself paused and its activity cancelled on every pass, so it never gets further; the model stops there as still running.
- ShotProduction.ShotWorkflow.Attempt: heartbeats, activity timeouts and the retry policy's list of final errors are any attempt ending at any time.
- FakeProviders.TerminalJobsAreFrozen: the generation runner later writes committed assets into a terminal record through the output pointer it shares with the fake provider; records are values here.
- Generation.GenerationRunner.Execute: the preflight checks and the digest of the frozen input arrive as values; the runner overwrites the assets of an output it shares by pointer with the fake provider, which the values here do not show; a failed job returns a nil error pointer as a non-nil error, modelled as an error.
- PaidLedger.CompleteKeeps: the artifact, usage and audit rows written with a completion are left out, and so are the checks that re-read them.
- SpeechCeilings.CeilingsHoldUnlessTheyOverrun: the direction that constructs an overrun asks that completed units, and one character for each metered cue, leave room in the int64 range together; the other direction (CeilingsHold) asks for nothing.
- EditScripts.RescoringIsExactApart: one direction only, because whether homophones matter for one pair of texts depends on the alignments themselves.
- LiveEvidence.DeriveTemperatureLatencies: idle times and thresholds are exact; saturation of int64 durations over 292 years is not modelled.
- CerEvaluation.Evaluate: the percentage shown beside the verdict is floating point and decides nothing.
- Revisions.RevisionStore.Rollback: decoding and encoding the payload again may reorder its fields, so the new content hash need not be the target's; the codec is a parameter.
- Text normalization, reading tables and trimming of text beyond the white-space test.
- Hashes, canonical JSON and derived IDs beyond collision-freeness; cue lengths, prompt digests and request hashes are inputs.
- HTTP, JSON, PostgreSQL, Temporal, FFmpeg and the file system themselves.
- The creator-project branches of the ledger, the live AFP reservation and the Stage 1 runner.
- Publication locks, gate and authorization records, route selection and other single-call validators.
- The older version of the pause race, kept for workflows started before its version marker.
- Liveness under interference: undisturbed executions and cancellations are proved to come to their end (`PaidOutcomes`); nothing here says that interference stops.
