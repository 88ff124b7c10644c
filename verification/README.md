# Dafny models of the harness's crash-safe bookkeeping

The harness runs AI research work through tools, logs, ledgers and repositories that must stay
correct when tool calls overlap, processes die between two writes, and calls are repeated. Each
core state machine has a module here that follows the Python code branch by branch, and run-level
theorems about it. `dafny verify dfyconfig.toml` checks the project.

How the modules are built: where the code updates an object, there is a class with its fields;
every method of the class is tied by its `ensures` to a step function on a value of the whole
state, and the theorems are lemmas about those step functions over arbitrary sequences of steps,
crashes included. Hashes are function parameters with stated assumptions (no collisions, no hash
equal to the genesis mark); signatures are a pair of functions with verify(sign(x)) = x; JSON
printing and parsing are parameters with parse(print(x)) = x; clocks, process tables, Git, SQLite
and network answers are inputs of the steps. Proof code hides definitions it does not need.

| file | subject |
|---|---|
| Retrieval, RetrievalRuns | admission control of parallel tool calls on a three-rung ladder |
| Trajectory, TrajectoryRuns | hash-chained event log, verification, restart after torn writes |
| Checkpoints, Replication | signed checkpoint chain, locked replication with torn appends, manifest against truncation |
| S3Replication | the same history on an object store with conditional puts by several writers |
| Payload | validation of the onboarding payload and its round trip |
| Saga, SagaHost | the onboarding saga: journal phases, crash recovery, commit, publication |
| Manifests, Guard, GuardHost | database manifests and the mutation guard with its recovery |
| Mailbus, MailbusRuns | the mail router with half-written sends, failing reads and moves, and crashes |
| MemoryFts | incremental index against full scan, shadow table kept by triggers |
| Worktree | claims and releases of worktrees, interleaved step by step |
| Failover | candidate list, quota-group skipping, synthesis exhaustion reason |
| Relay | the CONNECT byte relay with partial sends and half-close |
| Lifecycle, Fitness | task rows over crash and retry, and the weekly score |
| Wrappers | the shared option type |

## What the proofs found

These statements are expected of the code by its comments or its shape, and are false in general;
each has a lemma that shows the failure, and beside it the lemma that says when the code does keep it.

- The turn bound fails once a completion is dropped: a reservation that is never released keeps
  refusals of its rung uncounted for ever. One drop is enough, in a run that is orderly otherwise
  (`OneDropDefeatsTurnBound`, `OneDropDefeatsTheDefault`). `TurnBoundExact` says from which states,
  reached with any drops, the turns are bounded and from which they are not.
- Three things can take a message from its addressee: a crash while an intercepted message is
  rewritten in place destroys it (`TornRewriteLosesAMessage`); a failed read quarantines an intact
  one (`FailedReadSetsAside`); and a router that polls during a send quarantines it, without any
  fault (`PolledSendIsSetAside`). `RouterNoLoss` says that there is no other way,
  `RoutingLosesExactly` and `SendArrivesExactly` at which steps it happens.
- An intercepted message promises the operator the first 500 characters of the original body. What
  `send` intercepts is tested again by the router, which finds the command in the kept text and cuts
  notice and text together to 500: of a long command 221 characters are left
  (`LongCommandLosesItsEnd`). `SentCommandIsCut` says exactly when the promise holds, and
  `CopiesAreFaithful` what is kept in every case.
- A worker that overwrites a protected database with something that is not one cannot be undone: no
  recovery restores over it (`GarbageNeedsTheOperator`). A crash inside the guard's cleanup, after
  the first backup is gone, leaves a journal that no recovery can close although the databases were
  intact (`CleanupCrashNeedsTheOperator`). `RecoveryExact`, `CheckExact`, `MutationIsUndone` and
  `OwnerUndoesMutation` say exactly when recovery and the owner's check succeed.
- A checkpoint append torn of nothing but its line end goes unnoticed; the next call reports
  success, and from then on the chain is broken for good (`LostLineEndBreaksTheNextSuccess`).
  `ReplicaStaysVerifiable` and `CallKeepsStore` say exactly when the replica stays verifiable and
  when a success leaves the manifest in agreement. Before the first manifest truncation shows
  nothing (`NoManifestNoEvidence`, `AuditAfterAnyRun`).
- Neither rollback nor release of a worktree claim deletes its branch, and a claim is refused while
  the branch exists: a rolled-back claim can never be repeated (`RolledBackTaskStaysUnclaimed`).
- A lock file that cannot be removed after the registry was written makes the rollback remove the
  worktree of a claim that stays recorded (`StuckLockOrphansAClaim`); `ClaimsKeepTheirWorktrees`
  says that a recorded claim lacks its worktree in this case and no other.
- Two writers of the object store can both succeed and break the hash links, because the tip is
  read before the ETag (`RaceBreaksTheLinks`), permanently (`WrongLinkIsPermanent`);
  `PutKeepsLinksExactly` gives the condition.
- `to_json` keeps tuples and the validator insists on lists: validating its result directly always
  fails (`DirectRoundTripFails`). Through the journal file the round trip holds exactly for complete
  payloads (`RoundTrip`). Recovery validates the journalled payload again, and would raise for ever
  on an incomplete one; the guard of staging keeps such a payload out of every journal
  (`RevalidationExact`, `StagedPayloadComesBack`).
- The comment at orchestrator/execution.py:359-360 says a wrongly declared quota group can only cost
  a wasted call. It can cost a rung that would have answered (`MisdeclaredGroupSkipsAGoodRung`);
  `SkippingExact` says exactly when skipping changes the outcome, and `SkippingRefines` that it
  never does when groups refuse as a whole.
- The docstring at orchestrator/execution.py:440-442 says exhaustion means that every candidate
  returned a quota error; the code also reports it when none was called
  (`ExhaustedWithoutAnyRefusal`). `ExhaustedMeansAllRefused` says exactly when it means that.
- The cost part of the reported fitness floor is always zero, whatever
  orchestrator/ledger.py:385-394 says: the floor is a quarter or nothing (`FloorIsAQuarterOrZero`).

## Model

| member | source | states |
|---|---|---|
| `Retrieval.RetrievalProgressController.constructor` | orchestrator/retrieval_progress.py:131-148 | a new controller stands on the policy's first rung with all counters at zero |
| `Retrieval.RetrievalProgressController.BeginToolBatch` | orchestrator/retrieval_progress.py:164-168 | opens a batch in which no violation is counted yet |
| `Retrieval.RetrievalProgressController.EndToolBatch` | orchestrator/retrieval_progress.py:170-173 | closes the batch |
| `Retrieval.RetrievalProgressController.CountBatchViolation` | orchestrator/retrieval_progress.py:175-182 | at most one violation of a batch counts |
| `Retrieval.RetrievalProgressController.Before` | orchestrator/retrieval_progress.py:184-230 | the admission decision and the new state for every tool name, in the code's order of tests |
| `Retrieval.RetrievalProgressController.RedirectCall` | orchestrator/retrieval_progress.py:329-364 | a refusal always raises the refusal count; only a counted one can be terminal |
| `Retrieval.RetrievalProgressController.After` | orchestrator/retrieval_progress.py:237-313 | the whole accounting of a completion; `RetrievalRuns.ResultEffect` says what it amounts to |
| `Retrieval.RetrievalProgressController.Charge` | orchestrator/retrieval_progress.py:239-245 | exactly one call is added to the rung and at most one reservation leaves it |
| `Retrieval.RetrievalProgressController.Learn` | orchestrator/retrieval_progress.py:250-278 | what was seen grows by the result, and the novelty streak moves as `RetrievalRuns.ResultEffect` spells out |
| `Retrieval.RetrievalProgressController.Store` | orchestrator/retrieval_progress.py:266-277 | an excerpt within both caps is stored with its length counted, an empty one is not |
| `Retrieval.RetrievalProgressController.Advance` | orchestrator/retrieval_progress.py:315-327 | a stale advance does nothing; otherwise the ladder moves to the next rung with a budget |
| `RetrievalRuns.ChargedRungOfTool` | orchestrator/retrieval_progress.py:87-107 | the rung `after` charges is the one `before` classified, and the setup tool and the proxy fall to the last rung |
| `RetrievalRuns.ToolsByMark` | orchestrator/retrieval_progress.py:87-95 | in any case, a name with "search" in it belongs to the first rung, any other with "fetch" in it to the second |
| `RetrievalRuns.ToolsByName` | orchestrator/retrieval_progress.py:87-107 | in any case, opaque code belongs to the second rung, the skill tool is setup, delegation is a proxy, an unknown tool falls to the last rung |
| `RetrievalRuns.BeforeEffect` | orchestrator/retrieval_progress.py:184-230 | an admitted call fits its rung's free budget at the current rung; a refusal takes no reservation; the first refusal of a batch without reservations counts, and past the limit a counted one is terminal |
| `RetrievalRuns.CallKeepsBooks` | orchestrator/retrieval_progress.py:184-230 | admission keeps the books of real calls in flight and done, and admits only the current rung or the setup tool |
| `RetrievalRuns.CompletionKeepsBooks` | orchestrator/retrieval_progress.py:237-278 | a completion, stale ones and setup included, keeps the books and the evidence total |
| `RetrievalRuns.StepKeepsBooks` | orchestrator/retrieval_progress.py:164-278 | every event of an interleaving keeps the books and never moves the rung back |
| `RetrievalRuns.BudgetSafety` | orchestrator/retrieval_progress.py:184-278 | over every run: done plus in flight within each rung's limit, executed calls within limits plus setup calls, evidence equal to its count and within the cap, rung monotone, nothing admitted at the end |
| `RetrievalRuns.ShippedBudgets` | orchestrator/retrieval_progress.py:25-84 | over every run the default profile makes at most three searches, three fetches and two browser calls, and the browser profile the same eight calls for the browser alone, with at most ten calls and 30000 characters of evidence in all |
| `RetrievalRuns.StaleResultsMoveTheLadder` | orchestrator/retrieval_progress.py:251-278 | any sequence of results none of which brings an unseen URL or text leaves the rung after at most the novelty limit of them, whatever else they contain |
| `RetrievalRuns.ResultEffect` | orchestrator/retrieval_progress.py:237-313 | a result of the current rung resets the streak if and only if it did not fail, is long enough, and brings an unseen URL or an unseen text with twelve new words; the ladder moves if and only if the call limit is reached or the streak, one longer otherwise, reaches its limit |
| `RetrievalRuns.FreshResultsKeepTheRung` | orchestrator/retrieval_progress.py:251-283 | below the call limit any number of such results leaves the rung standing with the streak at zero |
| `RetrievalRuns.ResultIsStored` | orchestrator/retrieval_progress.py:266-277 | the excerpt kept is the longest beginning of the text that both caps allow, recorded with its tool, rung, number, URLs and failure |
| `RetrievalRuns.TurnBound` | orchestrator/retrieval_progress.py:158-182 | a run whose batches wait for earlier completions and drop none halts within call limits plus setup calls plus refusal limit non-empty batches |
| `RetrievalRuns.ShippedTurnBound` | orchestrator/retrieval_progress.py:158-182 | an orderly worker under either shipped profile halts within thirteen turns |
| `RetrievalRuns.TurnBoundExact` | orchestrator/retrieval_progress.py:158-230 | from every reachable state at rest, drops and all, the turns of every orderly continuation are bounded if and only if no reservation is leaked on another rung, nor on the current one while that can still be left for a later one |
| `RetrievalRuns.OneDropDefeatsTurnBound` | orchestrator/retrieval_progress.py:158-230 | under every policy like the default one there are runs of any number of turns without a terminal refusal, orderly but for one dropped completion |
| `RetrievalRuns.OneDropDefeatsTheDefault` | orchestrator/retrieval_progress.py:158-230 | the default policy has such runs |
| `Trajectory.LinesAppend` | orchestrator/trajectory.py:90-100 | appending to a closed file keeps its lines and adds those of the new text |
| `Trajectory.VerifyChain` | orchestrator/trajectory.py:90-119 | the loop accepts exactly what the line-by-line verdict accepts |
| `Trajectory.RejectionStands` | orchestrator/trajectory.py:90-119 | a rejected file is rejected with any further lines |
| `Trajectory.AcceptedIsChained` | orchestrator/trajectory.py:90-119 | every hashed event of an accepted file covers its own content and names the hash before it, from the last legacy line on |
| `Trajectory.AcceptedExactly` | orchestrator/trajectory.py:90-119 | the accepted files are exactly those of blank lines and events, no legacy event after a hashed one, whose hashed events form one chain from the last legacy line or the genesis mark |
| `Trajectory.TipDeterminesHistory` | orchestrator/trajectory.py:80-117 | two accepted files with the same last hash hold the same hashed events in order, and the same last legacy line |
| `TrajectoryRuns.TrajectoryWriter.constructor` | orchestrator/trajectory.py:130-136 | a new writer has the state that reading the file gives |
| `TrajectoryRuns.TrajectoryWriter.ResumeState` | orchestrator/trajectory.py:137-168 | the loop finds the highest own sequence, its hash, and whether a separator is needed |
| `TrajectoryRuns.TrajectoryWriter.Emit` | orchestrator/trajectory.py:190-237 | the file grows by exactly the next event's text, that event carries the payload given, and the writer moves on to it |
| `TrajectoryRuns.ResumeFindsTheTip` | orchestrator/trajectory.py:137-168 | on a file of own events and fragments, resuming yields the number of events and the last one's hash |
| `TrajectoryRuns.OpenExactly` | orchestrator/trajectory.py:137-168 | in any file, whoever wrote it, the writer goes on from the highest number of its own task, at the first line that has it, by its stored hash or by the hash of the line, and separates unless the file ends with a line end |
| `TrajectoryRuns.VerifiedIffNothingTorn` | orchestrator/trajectory.py:90-119 | on such files the verifier accepts if and only if no fragment was left |
| `TrajectoryRuns.StepKeepsConsistent` | orchestrator/trajectory.py:130-237 | reopen, emit and an emit torn at any character keep a gap-free chain, old bytes as a prefix, and a writer equal to a reopened one; an emit adds its payload and nothing else, a torn one at most its payload |
| `TrajectoryRuns.RestartRefinement` | orchestrator/trajectory.py:130-237 | over every mix of opens, emits and torn emits: sequences 1..n, writer equal to a reopened one, file accepted exactly when nothing is torn, always without tears |
| `TrajectoryRuns.LogIsWhatWasEmitted` | orchestrator/trajectory.py:190-237 | over every mix of operations the payloads in the log are exactly those emitted, in order, together with those of the torn emits that lost only their line end; without tears exactly those emitted |
| `TrajectoryRuns.BytesAndEventsStay` | orchestrator/trajectory.py:212-237 | no later operation changes bytes or drops an event |
| `Checkpoints.VerifyCheckpointChain` | orchestrator/audit_replication.py:190-260 | the loop returns the line-by-line verdict and the checkpoints up to the first error |
| `Checkpoints.ErrorStops` | orchestrator/audit_replication.py:190-260 | lines after the first error change nothing of the verdict |
| `Checkpoints.EntryCheck` | orchestrator/audit_replication.py:206-252 | a record passes all tests exactly when it is genuine, well formed, linked, hashed and its artifact held |
| `Checkpoints.FirstWrongIsReported` | orchestrator/audit_replication.py:206-252 | a record is refused exactly when something is wrong with it, with the error of the first thing that is |
| `Checkpoints.ScanIffAccepts` | orchestrator/audit_replication.py:190-260 | accepted files are exactly those of genuine, well-formed, linked records whose artifacts are held unchanged |
| `Checkpoints.TipDeterminesHistory` | orchestrator/audit_replication.py:161-164 | linked histories with the same tip are equal |
| `Checkpoints.AcceptedTipDeterminesHistory` | orchestrator/audit_replication.py:213-255 | two accepted files with the same last hash hold the same checkpoints in order |
| `Replication.Replica.CopyImmutable` | orchestrator/audit_replication.py:295-313 | an existing destination is only compared, a new one is checked before it appears |
| `Replication.Replica.AppendCheckpoint` | orchestrator/audit_replication.py:315-325 | the text grows by the record and its line end, or by as much of them as is written |
| `Replication.Replica.ReplicateTrajectory` | orchestrator/audit_replication.py:327-396 | one locked call, stopped between any two of its durable effects or after any character of its append, has exactly the modelled effect and outcome |
| `Replication.TruncationEvidence` | orchestrator/audit_replication.py:490-508 | against a manifest written for a history, an accepted file shows no truncation if and only if it holds exactly that history |
| `Replication.AlteredManifestIsUntrusted` | orchestrator/audit_replication.py:490-508 | under a genuine signature a manifest is reported as untrusted if and only if it is not the one that was signed |
| `Replication.CopyKeeps` | orchestrator/audit_replication.py:295-313 | the copy keeps every held artifact and, unless refused, holds the new one |
| `Replication.AppendKeeps` | orchestrator/audit_replication.py:315-325 | an accepted file extended by the new record is accepted and one checkpoint longer |
| `Replication.CallKeepsStore` | orchestrator/audit_replication.py:315-396 | one call, stopped anywhere: the file stays accepted if and only if the append starts on a new line and is not cut inside its record, the history is then only extended, and a success leaves the manifest in agreement if and only if the file was ended before it |
| `Replication.OutcomeExactly` | orchestrator/audit_replication.py:295-396 | on an accepted replica a call succeeds, finds a tampered copy, or a mismatch, exactly when it says so; a success on an ended file leaves its own record last, with task, digest, size, time and link, and the signed manifest of the whole history |
| `Replication.BrokenCall` | orchestrator/audit_replication.py:340-352 | on any other replica it changes nothing and reports the verifier's error, which the audit reports too |
| `Replication.ReplicaStaysVerifiable` | orchestrator/audit_replication.py:315-396 | every sequence of locked calls with stops anywhere leaves the replica verifiable if and only if nothing was torn, and otherwise with a last line that is not JSON |
| `Replication.TextStays` | orchestrator/audit_replication.py:315-325 | the checkpoint file is only ever appended to |
| `Replication.AuditAfterAnyRun` | orchestrator/audit_replication.py:448-508 | after any run the audit reports a broken chain exactly when something was torn, and truncation exactly while a manifest exists and is behind the file; the next success ends that if and only if the file is then ended |
| `Replication.BrokenReplicaIsFrozen` | orchestrator/audit_replication.py:340-352 | once the file is not accepted no call changes anything |
| `Replication.TornAppendFailsClosed` | orchestrator/audit_replication.py:315-325 | a record cut inside, or appended to an unended line, makes the audit and every later call refuse |
| `Replication.LostLineEndBreaksTheNextSuccess` | orchestrator/audit_replication.py:315-325 | a lost line end is accepted, the next call reports success, and the chain is broken from then on |
| `Replication.NoManifestNoEvidence` | orchestrator/audit_replication.py:448-508 | a first call that stops after its append leaves a record that can be cut off without the audit seeing it |
| `S3Replication.AuditBucket.FetchCheckpoints` | orchestrator/s3_audit_replication.py:148-172 | the non-blank lines in order, and the tag if the object exists and the store sends one |
| `S3Replication.AuditBucket.ConditionalPut` | orchestrator/s3_audit_replication.py:333-362 | the object is replaced exactly when the precondition holds |
| `S3Replication.AuditBucket.Replicate` | orchestrator/s3_audit_replication.py:256-362 | undisturbed, a verified history grows by one linked record unless the store withheld an existing object's tag |
| `S3Replication.PutExtends` | orchestrator/s3_audit_replication.py:333-362 | an accepted put adds its own record after all stored ones and changes nothing else |
| `S3Replication.NoLostUpdate` | orchestrator/s3_audit_replication.py:333-362 | in every interleaving, lost answers and retries included, the stored lines are the initial ones and then exactly the accepted records, every acknowledged one among them |
| `S3Replication.StoredIsAppendOnly` | orchestrator/s3_audit_replication.py:333-362 | the stored lines of each state are a prefix of every later state's |
| `S3Replication.RetryIsRefused` | orchestrator/s3_audit_replication.py:333-362 | a put that was applied but not answered is never applied again |
| `S3Replication.PutKeepsLinksExactly` | orchestrator/s3_audit_replication.py:319-362 | an accepted put keeps the history valid if and only if the tip verified is the tip of the lines fetched |
| `S3Replication.WrongLinkIsPermanent` | orchestrator/s3_audit_replication.py:282-284 | after a wrong link no later history verifies |
| `S3Replication.LoneWriterKeepsHistory` | orchestrator/s3_audit_replication.py:256-362 | one writer at a time keeps the history valid whatever fails or is retried |
| `S3Replication.AttemptExactly` | orchestrator/s3_audit_replication.py:256-362 | an undisturbed attempt, for every fate of its put: what is stored, what the writer is told, and whether it still holds what it fetched |
| `S3Replication.FailedStepsGiveUp` | orchestrator/s3_audit_replication.py:256-362 | a failed step ends the attempt of its own writer, touches no other, and only puts change what is stored |
| `S3Replication.RaceBreaksTheLinks` | orchestrator/s3_audit_replication.py:282-346 | a run of two writers in which both puts succeed and the links break |
| `Payload.StripIsStable` | orchestrator/onboarding_autonomy.py:136-139 | stripping leaves no outer white space and does nothing the second time |
| `Payload.TextExactly` | orchestrator/onboarding_autonomy.py:136-139 | a text is accepted when it is not blank and at most 4000 characters long, white space included, and yields what is between the white space |
| `Payload.SlugExactly` | orchestrator/onboarding_autonomy.py:114-122 | a slug is one to 64 characters of lower-case letters and digits in groups with single hyphens between them |
| `Payload.ProbabilityExactly` | orchestrator/onboarding_autonomy.py:191-197 | a probability is 0, 1 or a float between, and only an integer no float can hold overflows |
| `Payload.FieldsExactly` | orchestrator/onboarding_autonomy.py:125-133 | an accepted record has exactly its own keys, and anything but an object is a type error |
| `Payload.CheckList` | orchestrator/onboarding_autonomy.py:142-145 | a list of the required length whose items all pass, or the first failure |
| `Payload.ValidateOnboardingPayload` | orchestrator/onboarding_autonomy.py:148-242 | the validator's verdict, with the order of its tests and its error kinds |
| `Payload.AcceptedIsCanonical` | orchestrator/onboarding_autonomy.py:148-242 | an accepted payload has stripped bounded texts, valid slugs, ranges, unique names, and consistent parts |
| `Payload.RootExactly` | orchestrator/onboarding_autonomy.py:148-153 | an accepted payload has niches and personas and no unknown key; missing ones are value errors, anything but an object is a type error |
| `Payload.PartsAreOptional` | orchestrator/onboarding_autonomy.py:188-242 | without its critiques an accepted payload is still accepted, without its estimates too unless it names a winner, without niches or personas never |
| `Payload.RationaleIsASynonym` | orchestrator/onboarding_autonomy.py:210-212 | the older name of the rationale counts exactly where the newer one is missing |
| `Payload.CritiquesAreABijection` | orchestrator/onboarding_autonomy.py:216-239 | every persona and niche pair has its critique and none has two |
| `Payload.EstimatesAreABijection` | orchestrator/onboarding_autonomy.py:188-201 | every niche has its estimate and none has two |
| `Payload.PayloadBack` | orchestrator/onboarding_autonomy.py:100-101 | what `to_json` writes reads back with its tuples as lists and nothing else changed |
| `Payload.RoundTrip` | orchestrator/onboarding_autonomy.py:100-242 | for every accepted payload, validating what is read back gives the same payload if and only if it is complete |
| `Payload.DirectRoundTripFails` | orchestrator/onboarding_autonomy.py:100-145 | validating the result of `to_json` directly is refused for every payload |
| `Saga.ActionIsLocal` | orchestrator/onboarding_autonomy.py:393-412 | an action for one run leaves the journal, staging, ledger row and decisions of all others alone |
| `Saga.ActionKeepsInv` | orchestrator/onboarding_autonomy.py:298-306 | each action, in the situation its script performs it, keeps the invariant of all runs |
| `Saga.RaisesExactly` | orchestrator/onboarding_autonomy.py:298-412 | when each action raises: a second staging or an incomplete payload, a phase out of order, a rejected payload, a missing winner or estimate, an artifact with another digest or nowhere, a second finalization |
| `Saga.CommitAddsOnce` | orchestrator/onboarding_autonomy.py:543-585 | a commit adds the decision of its winner unless the run has it, so a second one of the same payload changes nothing and one for another winner would add a row |
| `Saga.WitnessIsTrue` | orchestrator/onboarding_autonomy.py:393-412 | a run is recorded as having had its artifacts in place only by its finalization and only when every one is, with its recorded digest |
| `Saga.PreparationIsLegal` | orchestrator/onboarding_autonomy.py:456-492 | the whole workflow of a new run performs every action in its proper situation |
| `Saga.WorkflowEnds` | orchestrator/onboarding_autonomy.py:456-492 | from any state without an open run a new run that lives for ten actions more than it has artifacts ends closed in journal and ledger: passed as done, its one decision the winner, every artifact in place with its content and recorded digest; otherwise as failed or infra_failed with nothing decided and nothing moved |
| `Saga.HandlerEnds` | orchestrator/onboarding_autonomy.py:499-540 | a process that lives through its exception handler closes the run as quota_wait or infra_failed, or keeps a journal that is reviewed or later for recovery, and undoes and adds nothing else |
| `Saga.StagedPayloadComesBack` | orchestrator/onboarding_autonomy.py:366-369 | an accepted payload that passes the guard of staging is accepted again from the journal file, unchanged, and can be committed |
| `Saga.RevalidationExact` | orchestrator/onboarding_autonomy.py:588-613 | recovery of a reviewed journal accepts a payload that was written there if and only if it is complete, and otherwise changes nothing however often it is tried; staging lets only complete ones through |
| `Saga.RecoveryIsLegal` | orchestrator/onboarding_autonomy.py:588-636 | recovery of any journal from any reachable state never raises, its second validation of the payload included |
| `Saga.RecoveryCompletes` | orchestrator/onboarding_autonomy.py:588-636 | uninterrupted recovery closes a journal with exactly the status its phase and verdict call for; after a passed review the artifacts are then in place and the one decision is the winner |
| `Saga.RecoverFullyCloses` | orchestrator/onboarding_autonomy.py:588-636 | after a full recovery no listed journal is open and none appeared |
| `Saga.SessionKeepsInv` | orchestrator/onboarding_autonomy.py:499-540 | a process that recovers, works, dies or raises anywhere keeps the invariant |
| `Saga.SagaExactlyOnce` | orchestrator/onboarding_autonomy.py:456-636 | over every history of processes: a closed run is done if and only if its one domain commit exists and the verdict is pass, the commit names the winner its journal holds, artifacts were in place at closing, the ledger agrees, and there is no commit or publication without a pass |
| `SagaHost.OnboardingHost.AdvanceJournal` | orchestrator/onboarding_autonomy.py:298-306 | only the next phase is accepted, otherwise the journal is unchanged |
| `SagaHost.OnboardingHost.FinalizeJournal` | orchestrator/onboarding_autonomy.py:298-306 | a journal is finalized at most once |
| `SagaHost.OnboardingHost.CommitDomainMemory` | orchestrator/onboarding_autonomy.py:543-585 | one decision for the run id and its winner, however often it is attempted; an incomplete payload is refused |
| `SagaHost.OnboardingHost.PublishArtifact` | orchestrator/onboarding_autonomy.py:393-412 | on success the destination holds the recorded digest, on a mismatch nothing changes |
| `SagaHost.OnboardingHost.RecoverJournal` | orchestrator/onboarding_autonomy.py:588-636 | recovery of one journal, its payload validated again first, cut after any number of steps |
| `SagaHost.OnboardingHost.RunWorkflow` | orchestrator/onboarding_autonomy.py:456-492 | the workflow of one run, cut after any number of durable actions; performed in full it ends as `Saga.WorkflowEnds` says |
| `Manifests.ComputeTableManifest` | orchestrator/integrity.py:142-168 | the row loop yields columns, sorted row digests and their digest |
| `Manifests.SortedIsCanonical` | orchestrator/integrity.py:155-165 | sorted digest lists are equal exactly when they have the same elements |
| `Manifests.TableManifestExact` | orchestrator/integrity.py:142-168 | equal table manifests mean equal columns and equal row multisets, and conversely |
| `Manifests.ManifestExact` | orchestrator/integrity.py:142-168 | equal database manifests mean equal schema, pragmas and row multisets, and conversely |
| `Guard.RestoreEffect` | orchestrator/integrity.py:235-274 | the restore loop closes the journal only with every protected database matching |
| `Guard.JournalOutlivesDamage` | orchestrator/integrity.py:229-352 | one event of any kind: a journal changes only when every protected database matches it |
| `Guard.GuardCrashSafety` | orchestrator/integrity.py:229-352 | over every run of snapshots, checks, recoveries, crashes and arbitrary mutation, a journal disappears only at a moment when every protected database matched it |
| `Guard.MatchingMeansSameContent` | orchestrator/integrity.py:142-168 | a match with the snapshot is the content of the original, both ways |
| `Guard.RecoveryExact` | orchestrator/integrity.py:111-298 | recovery that lives, whatever fails in it, restores and closes if and only if every backup is intact, every database file exists and takes a restore, and no copy, restore or report fails; otherwise it keeps the journal; each file ends restored, half restored or untouched exactly as its own restore went |
| `Guard.CheckExact` | orchestrator/integrity.py:330-352 | the owner's check, with the same exactness: clean and changing no database if and only if all match, restored if and only if something differs and the restore can succeed, refused with the journal kept otherwise |
| `Guard.SnapshotExact` | orchestrator/integrity.py:300-327 | a snapshot is taken if and only if every protected database can be read, and then records the manifest and backs up the file of each; it is refused while another guard is open |
| `Guard.SuccessClosesTheJournal` | orchestrator/integrity.py:229-352 | check and recovery report success exactly when they closed the journal, whatever fails and whenever they die |
| `Guard.RefusalIsFinal` | orchestrator/integrity.py:235-352 | a refusal is the same however much longer the process lives, and with enough life it never ends in a crash |
| `Guard.InterruptedRecoveryIsHarmless` | orchestrator/integrity.py:111-298 | a recovery cut anywhere leaves matching databases, or its journal, which the next recovery can use exactly if every file can still be restored over |
| `Guard.MutationIsUndone` | orchestrator/integrity.py:277-352 | whatever a worker leaves in the files, one recovery brings back the content of the snapshot and closes the journal if and only if every file exists and can be restored over |
| `Guard.OwnerUndoesMutation` | orchestrator/integrity.py:300-352 | the same through the owner's check: what a worker did to the files is undone, down to the content of the snapshot, and reported as restored, exactly when something differs and every file takes a restore; as clean exactly when nothing does |
| `Guard.GarbageNeedsTheOperator` | orchestrator/integrity.py:111-123 | a protected database overwritten with something that is not one is never restored, and its journal never closed, by any sequence of checks, recoveries and snapshots |
| `Guard.CleanupCrashNeedsTheOperator` | orchestrator/integrity.py:229-232 | a crash after the first removed backup leaves a journal no recovery closes, with intact databases |
| `GuardHost.DatabaseGuard.CleanupSnapshot` | orchestrator/integrity.py:229-232 | backups first, journal last, cut anywhere |
| `GuardHost.DatabaseGuard.PreserveAndRestore` | orchestrator/integrity.py:235-274 | the restore of every database under failing copies, restores and report, refused over a file that is not a database |
| `GuardHost.DatabaseGuard.RecoverGuards` | orchestrator/integrity.py:277-298 | recovery at start: nothing, refused, or restored |
| `GuardHost.DatabaseGuard.IntegrityCheck` | orchestrator/integrity.py:330-352 | the owner's check: cleanup on a match, restore otherwise; `Guard.CheckExact` says what it amounts to |
| `GuardHost.DatabaseGuard.TakeSnapshot` | orchestrator/integrity.py:300-327 | a snapshot after recovery, with the journal written last |
| `Mailbus.Mailboxes.Send` | orchestrator/mailbus.py:356-407 | a send through an open and a write that may fail; `MailbusRuns.SendExactly` and `MailbusRuns.CopiesAreFaithful` say what is queued |
| `Mailbus.Mailboxes.QuarantineUnparseable` | orchestrator/mailbus.py:553-563 | the file is in quarantine instead of the outbox, or stays when it cannot be moved |
| `Mailbus.Mailboxes.RouteFile` | orchestrator/mailbus.py:440-542 | one outbox file under a failing read and the faults between the later steps |
| `Mailbus.Mailboxes.RouteCycle` | orchestrator/mailbus.py:440-542 | one pass over the files, with the number delivered |
| `Mailbus.Mailboxes.ArchiveMessage` | orchestrator/mailbus.py:267-279 | the message is in the archive instead of the inbox, or nothing changed |
| `MailbusRuns.StepKeepsInv` | orchestrator/mailbus.py:356-563 | every event, sends polled half-way and failed reads included, keeps every message bound for its addressee and either safe or recorded as torn or set aside |
| `MailbusRuns.StepKeepsCap` | orchestrator/mailbus.py:492-499 | no event takes an inbox but the operator's over the cap |
| `MailbusRuns.RouterNoLoss` | orchestrator/mailbus.py:226-563 | over every run a message is in its outbox, or in its addressee's inbox or archive, if and only if it was neither torn undelivered in an interception rewrite nor set aside undelivered; one set aside is complete in quarantine; nobody else ever gets it; caps hold |
| `MailbusRuns.RoutingLosesExactly` | orchestrator/mailbus.py:440-542 | the routing steps that take a safe message away are those of its own undelivered file with a failed read, or with a crash in the rewrite of a command that its recipient has room for |
| `MailbusRuns.SendArrivesExactly` | orchestrator/mailbus.py:397-407 | a send ends with its message safe if and only if the router has not moved its half-written file |
| `MailbusRuns.RedeliveryMakesNoSecondCopy` | orchestrator/mailbus.py:226-264 | delivering again before archiving fills the same slot |
| `MailbusRuns.RoutingDelivers` | orchestrator/mailbus.py:440-542 | with room and no fault one pass delivers and clears the file |
| `MailbusRuns.RoutingDeliversExactly` | orchestrator/mailbus.py:440-542 | one file counts as delivered if and only if it is complete and valid, its recipient has room and no step fails, and then exactly one inbox gets a copy: its recipient's, or the operator's for a command |
| `MailbusRuns.PassCountsDeliveries` | orchestrator/mailbus.py:440-542 | a pass reports as many deliveries as it makes |
| `MailbusRuns.SendExactly` | orchestrator/mailbus.py:356-407 | a send succeeds if and only if the message is valid and its file is written, and then queues a copy of it with its sender, or with the operator for a command |
| `MailbusRuns.CopiesAreFaithful` | orchestrator/mailbus.py:356-563 | over every run each whole message anywhere in outbox, inbox, archive or quarantine is the one that was sent, or, only if it carried a command, an interception of it: same id, sender, act and hops, addressed to the operator, its body ending in the first 500 characters of the body it replaces |
| `MailbusRuns.SentCommandIsCut` | orchestrator/mailbus.py:374-518 | a command that `send` intercepted is intercepted again by the router if and only if the kept text still reads as a command; the operator then has its first 500 characters if and only if notice and kept text together fit in 500 |
| `MailbusRuns.LongCommandLosesItsEnd` | orchestrator/mailbus.py:374-518 | a command of which 500 characters were to be kept reaches the operator with 221 of them |
| `MailbusRuns.TornRewriteLosesAMessage` | orchestrator/mailbus.py:501-518 | a crash in the in-place rewrite loses the message |
| `MailbusRuns.FailedReadSetsAside` | orchestrator/mailbus.py:456-465 | one failed read takes any valid message to quarantine |
| `MailbusRuns.PolledSendIsSetAside` | orchestrator/mailbus.py:397-465 | without any fault, a router that polls during a send takes the message to quarantine |
| `MailbusRuns.AsideStays` | orchestrator/mailbus.py:440-563 | what was set aside is never brought back by the router or an agent |
| `MemoryFts.ScanCount` | orchestrator/memory_fts.py:85-113 | the scan has exactly one row for each paragraph |
| `MemoryFts.ScanAt` | orchestrator/memory_fts.py:85-113 | each paragraph's row has its number, agent, digest and text |
| `MemoryFts.InsertKeepsGood` | orchestrator/memory_fts.py:38-41 | an insert with its trigger keeps the shadow equal to the image of the table |
| `MemoryFts.UpdateKeepsGood` | orchestrator/memory_fts.py:46-51 | an update with its trigger does |
| `MemoryFts.DeleteKeepsGood` | orchestrator/memory_fts.py:42-45 | a delete with its trigger does |
| `MemoryFts.SyncParagraphEffect` | orchestrator/memory_fts.py:140-149 | one paragraph ends as if it had been written, and no existing key changes id |
| `MemoryFts.SyncDocumentEffect` | orchestrator/memory_fts.py:137-152 | one document's rows end as its paragraphs, other rows and surviving ids untouched |
| `MemoryFts.SyncEqualsScan` | orchestrator/memory_fts.py:130-153 | from any index whose digests match its texts, sync ends with exactly the rows of the scan, the shadow its image, and every paragraph that was indexed under its old id |
| `MemoryFts.RebuildEqualsScan` | orchestrator/memory_fts.py:155-165 | rebuild ends with exactly the rows of the scan and the counter at their number |
| `MemoryFts.RebuildNumbersInScanOrder` | orchestrator/memory_fts.py:155-165 | a rebuilt row's id is its position in scan order |
| `MemoryFts.SyncAgreesWithRebuild` | orchestrator/memory_fts.py:130-165 | sync and rebuild agree on keys, paragraphs and searchable text |
| `MemoryFts.IndexSaysWhatFilesSay` | orchestrator/memory_fts.py:85-165 | after sync and after rebuild every paragraph has one row with its agent, path, number, digest and text, and one searchable entry with the same agent, path and text, and there is no row or entry besides |
| `MemoryFts.MemoryFtsIndex.Insert` | orchestrator/memory_fts.py:38-41 | the statement and its trigger on table, unique index, counter and shadow |
| `MemoryFts.MemoryFtsIndex.Update` | orchestrator/memory_fts.py:46-51 | the statement and its trigger, the id kept |
| `MemoryFts.MemoryFtsIndex.Delete` | orchestrator/memory_fts.py:42-45 | the statement and its trigger |
| `MemoryFts.MemoryFtsIndex.Sync` | orchestrator/memory_fts.py:130-153 | the loops end in the synchronized state and return the number of paragraphs |
| `MemoryFts.MemoryFtsIndex.Rebuild` | orchestrator/memory_fts.py:155-165 | the loops end in the rebuilt state and return the number of paragraphs |
| `Worktree.TaskWorktreeManager.ClaimConflicts` | orchestrator/task_worktree.py:138-148 | true exactly when an active entry has the task or shares a path |
| `Worktree.TaskWorktreeManager.KeepOthers` | orchestrator/task_worktree.py:231-234 | the entries that are not this agent's for this task, in order |
| `Worktree.TaskWorktreeManager.CountClaims` | orchestrator/task_worktree.py:204-208 | the number of this agent's entries in progress for this task |
| `Worktree.TaskWorktreeManager.CasRegistry` | orchestrator/task_worktree.py:120-136 | the registry changes only from the expected preimage, and then by one entry |
| `Worktree.TaskWorktreeManager.Claim` | orchestrator/task_worktree.py:150-192 | an undisturbed claim succeeds exactly when nothing owns task, paths, worktree or branch; a failed one leaves registry and worktrees as they were |
| `Worktree.TaskWorktreeManager.Release` | orchestrator/task_worktree.py:194-247 | an undisturbed release needs one matching entry, gate and merge, and then removes entry and worktree |
| `Worktree.WithoutHolds` | orchestrator/task_worktree.py:231-234 | a release removes exactly the entries of its task and agent |
| `Worktree.AdvanceKeepsInv` | orchestrator/task_worktree.py:102-247 | one step of any process keeps exclusion and what every other process relies on |
| `Worktree.OwnershipExclusion` | orchestrator/task_worktree.py:102-192 | in every interleaving, with failures and rollbacks, active entries have distinct tasks and disjoint paths |
| `Worktree.ClaimsKeepTheirWorktrees` | orchestrator/task_worktree.py:150-247 | a recorded claim has its entry and branch until its release, and its worktree if and only if a rollback after an unremovable lock file has not removed it |
| `Worktree.StuckLockOrphansAClaim` | orchestrator/task_worktree.py:112-118 | a run in which the recorded claim loses its worktree |
| `Worktree.RolledBackTaskStaysUnclaimed` | orchestrator/task_worktree.py:166-192 | after a rollback the task is never claimed again, whatever happens |
| `Worktree.LeftLockFreezesRegistry` | orchestrator/task_worktree.py:102-110 | a lock file left behind stops every later change of the registry |
| `Worktree.ClaimAloneExactly` | orchestrator/task_worktree.py:138-192 | an undisturbed claim of any process is granted if and only if no active entry names its task, as text or number, or holds one of its paths, the task has neither worktree nor branch, and nobody has the lock; the new entry is the claim's own |
| `Worktree.ReleaseAloneExactly` | orchestrator/task_worktree.py:194-247 | an undisturbed release succeeds if and only if its own agent has the task in progress, worktree and branch exist and nobody has the lock, so another agent's is refused; it takes out exactly that agent's entries for the task |
| `Worktree.ClaimEndsByItsAgent` | orchestrator/task_worktree.py:194-247 | in every interleaving a recorded claim ends only after a release that its own agent asked for |
| `Worktree.OnlyTheReadRegistryIsChanged` | orchestrator/task_worktree.py:120-136 | under the lock a claim or release goes on if and only if the registry is still the one it read |
| `Worktree.FailuresAreUndone` | orchestrator/task_worktree.py:102-192 | a failing step gives the lock back and a failing claim removes its worktree; only a lock file that cannot be removed stays |
| `Failover.FailoverCandidates` | orchestrator/execution.py:405-426 | the loop yields the worker and then the chain, first occurrences only, without excluded local rungs |
| `Failover.CandidatesInOrder` | orchestrator/execution.py:405-426 | candidates stand at strictly growing positions of the configuration |
| `Failover.CandidatesComplete` | orchestrator/execution.py:405-426 | the candidates' models are exactly those the local filter admits |
| `Failover.CandidatesDistinct` | orchestrator/execution.py:405-426 | no model occurs twice |
| `Failover.LocalExactly` | orchestrator/execution.py:341-343 | a rung is local if and only if its provider reads "ollama" in any case and its model has no ":cloud" in it |
| `Failover.FitsUpTo` | orchestrator/execution.py:392-396 | a prompt fits if and only if the rung declares no context or the prompt is shorter than four characters for each token the reserve leaves |
| `Failover.WorkerWithFailover` | orchestrator/execution.py:429-522 | the loop's end, the rungs it called, and the rung it reports |
| `Failover.FullWalkFindsFirstStop` | orchestrator/execution.py:447-522 | without skipping, the walk ends at the first fitting rung that stops it, and is exhausted when there is none |
| `Failover.SkippingRefines` | orchestrator/execution.py:353-362 | when groups refuse as a whole, skipping dead groups ends exactly as trying every fitting rung |
| `Failover.SkippingExact` | orchestrator/execution.py:447-522 | the two walks end alike if and only if the rung that ends the full walk is not preceded by a quota refusal of its own group |
| `Failover.TriedAreAlive` | orchestrator/execution.py:447-475 | only rungs that fit and whose group is alive are called |
| `Failover.OneRefusalPerGroup` | orchestrator/execution.py:447-505 | rungs are called in order, with at most one quota refusal per group |
| `Failover.WalkExactly` | orchestrator/execution.py:447-522 | the walk rung by rung from the answers: a rung is called if it fits and no earlier rung of its group was out of quota; a called rung out of quota, or unreachable before the last, is passed over; the first other one ends the walk, raised for a time-out and returned otherwise; exhausted means there is none |
| `Failover.ExhaustedMeansAllRefused` | orchestrator/execution.py:440-522 | an exhausted walk had a quota refusal of every candidate if and only if every candidate fits, none is passed over for its group and none was unreachable |
| `Failover.ExhaustedWithoutAnyRefusal` | orchestrator/execution.py:440-522 | exhaustion is reported although no rung was called |
| `Failover.MisdeclaredGroupSkipsAGoodRung` | orchestrator/execution.py:353-362 | a group that is not whole makes the walk skip the rung that would answer |
| `Failover.SynthesisWithFailover` | orchestrator/execution.py:538-612 | exhausted only when no rung ended the walk, and then the reason names quota and context exactly as they occurred; what is raised is an error passed on or a last rung without access |
| `Failover.TraceExactly` | orchestrator/execution.py:538-612 | the synthesis walk rung by rung from the replies: skipped for a group that refused, skipped for context, refused, passed over without access, or ended, each exactly when the replies say so |
| `Relay.Socket.ForwardChunk` | orchestrator/egress_broker.py:23-44 | exactly the accepted bytes go out, in order, and true means all of them |
| `Relay.SentOf` | orchestrator/egress_broker.py:23-44 | never more than the chunk, and done exactly when the whole chunk is out |
| `Relay.SentExactly` | orchestrator/egress_broker.py:23-44 | over any pattern of partial sends, as much of the chunk goes out as the target takes before its first failure |
| `Relay.Tunnel.Serve` | orchestrator/egress_broker.py:252-283 | one readable source: end of stream, cap, or a forwarded chunk |
| `Relay.Tunnel.Relay` | orchestrator/egress_broker.py:244-289 | the select loop reaches the state its schedule determines |
| `Relay.TurnKeepsInv` | orchestrator/egress_broker.py:252-283 | one turn keeps fidelity and the cap, and never touches an ended direction |
| `Relay.TurnExactly` | orchestrator/egress_broker.py:252-283 | a turn gives up if and only if recv fails, the cap would be passed, or the target does not take the chunk; otherwise the chunk, or the end, is passed on whole, and the other direction is untouched |
| `Relay.RelayGivesUpExactly` | orchestrator/egress_broker.py:244-289 | over every schedule the relay gives up if and only if some turn of an open source cannot be served, or a select stays quiet before both ends; otherwise each target has exactly what its source said up to its end |
| `Relay.RelayFidelity` | orchestrator/egress_broker.py:244-289 | delivered is a prefix of received each way and within the cap in all; an end passes only after all bytes; closing on both sides means everything was delivered |
| `Relay.NothingAfterTheEnd` | orchestrator/egress_broker.py:260-270 | a direction whose end was seen never changes again |
| `Lifecycle.Ledger.QueueMissionTasks` | orchestrator/scheduler.py:73-108 | every seed has its one row afterwards, nothing else changed, and exactly the rows that wait to be run are returned, never-attempted ones first, in order of their ids |
| `Lifecycle.Ledger.StartTask` | orchestrator/ledger.py:84-118 | the row runs under a new lease and owner, its counts kept |
| `Lifecycle.Ledger.FinishTask` | orchestrator/ledger.py:121-179 | an omitted count keeps what the row has |
| `Lifecycle.Ledger.ExpireStaleParked` | orchestrator/scheduler.py:124-162 | afterwards no parked or queued row of another week waits, other rows are unchanged, and the count is the number of rows changed |
| `Lifecycle.Ledger.ReconcileInterruptedTasks` | orchestrator/scheduler.py:164-225 | afterwards no running row is orphaned, other rows are unchanged, and the count is the number of rows changed |
| `Lifecycle.GivesUpAtTheCap` | orchestrator/scheduler.py:188-221 | an interruption fails the task exactly when the count reaches the cap, and leaves it resumable otherwise |
| `Lifecycle.StartedTaskIsSettledExactly` | orchestrator/scheduler.py:164-225 | a started task is left running if and only if its lease of 4200 seconds has not run out and its owner has not disappeared, where no answer is no disappearance; otherwise it is interrupted, or failed at its third attempt |
| `Lifecycle.OnlyAttemptedWorkOutlivesItsWeek` | orchestrator/scheduler.py:124-162 | the expiry makes stale exactly the queued and parked rows of other weeks |
| `Lifecycle.StepKeepsInv` | orchestrator/scheduler.py:73-225 | every event keeps the table, the counts and the token books |
| `Lifecycle.LifecycleBooks` | orchestrator/scheduler.py:164-243 | over every run: no task twice, fewer recoveries than the cap, tokens equal to the sum of the reports |
| `Lifecycle.LoweredCountDefeatsTheCap` | orchestrator/scheduler.py:188-221 | a caller that lowers the count gets a retry after any number of interruptions |
| `Lifecycle.OverlappingAttemptsLoseTokens` | orchestrator/scheduler.py:227-243 | two attempts from the same prior total count right if and only if the first reported nothing |
| `Fitness.SumsAreOk` | orchestrator/ledger.py:341-372 | the counts and sums behind the score are ordered as the formula needs |
| `Fitness.RowAdds` | orchestrator/ledger.py:341-372 | what one row adds to every count and sum, wherever it stands in the window |
| `Fitness.PassIsWorth` | orchestrator/ledger.py:349-374 | a verdict that turns from fail to pass is worth 0.30 shared among the checked rows |
| `Fitness.CompletionIsWorth` | orchestrator/ledger.py:341-374 | a worked row completed instead of failed is worth 0.35 shared among all rows |
| `Fitness.PerfectWeek` | orchestrator/ledger.py:364-374 | completed, passed, unaided rows score 1 up to an average cost of 0.50, and beyond it lose out of a tenth in proportion |
| `Fitness.HopelessWeek` | orchestrator/ledger.py:364-374 | failed, refuted, aided rows without work or cost score 0 |
| `Fitness.FitnessInUnit` | orchestrator/ledger.py:364-374 | the score of every window is in [0, 1] |
| `Fitness.FloorIsAQuarterOrZero` | orchestrator/ledger.py:397-399 | the floor is the intervention weight or nothing, for every window |
| `Fitness.FitnessAboveFloor` | orchestrator/ledger.py:364-399 | the score is never below the floor reported with it |
| `Fitness.UnfinishedNeverRaises` | orchestrator/ledger.py:341-374 | a pending or stale row never raises the score and lowers it once anything was completed |
| `Fitness.NothingRanScoresTheFloor` | orchestrator/ledger.py:341-374 | a window without a resolved row scores exactly the floor |

## Left out

- Retrieval: audit records, prompt text and the finalizer's own call; lower-casing is ASCII; canonical URLs, words and digests of a result are inputs.
- Trajectory: redaction, timestamps, and a failing write inside a living process (memory would then be ahead of the file); a file that is not UTF-8.
- Replication: only a line feed ends a line (the JSON is ASCII-escaped, so a record has no other line end); configuration, replica paths beyond their one safe shape, timestamps' meaning, the retention floor; the lock is an atomic mutex, so one call is one step.
- S3Replication.AuditBucket.Replicate: the field and artifact tests of the S3 verifier are not repeated here; the verdict is an input tied to signatures and links. The manifest object and object-lock settings are not modelled.
- Payload: Unicode white space and case folding are parameters; text files and JSON number syntax.
- Saga: model calls and parsing (a run's collected JSON, artifacts, manifest and verdict are inputs), the memory tables' rows beyond the decision of a run, and recovery inside the same living process.
- Manifests: SQLite itself; a database is its schema, pragmas and rows, or unreadable.
- Guard: whether SQLite can restore over a file is a property of the file (it can unless the file is non-empty and no database); `runlock` liveness is an input; the file-system guard, which reverts tracked files through Git and so restores no earlier content.
- Mailbus: the conversation, reply and creation fields of a message; a torn file whose cut character makes it no UTF-8 text (the pass then raises instead of quarantining it); a second writer of one outbox; the routing log, message timestamps, retry timing, and the sorted order of files (any order is allowed); ids are distinct, as `new_message_id` makes them.
- MemoryFts: splitting text into paragraphs, the search query, and concurrent connections; a document is its stripped, non-empty paragraphs.
- Worktree: the batch lock, the ledger's task check, uncommitted changes, and registry edits by hand outside the lock.
- Failover: what a rung answers is an input; logging, usage files, timeouts' lengths.
- Relay: name resolution and authorization of the destination, the audit record, and bytes the HTTP reader buffered before the tunnel began.
- Lifecycle: notes, artifacts, cost and verdict columns, the mission file, and schema migration.
- Lifecycle.LifecycleBooks: one attempt of a task at a time and attempt counts that callers do not lower are assumed, because the two lemmas after it show what happens otherwise.
- Fitness: rounding of the reported figures and the AI-performed marker.
