# Verified model of the NanoHarness benchmark evidence chain

This project models, in Dafny, the parts of NanoHarness that decide what a benchmark number means: the
resumable campaign protocol, the statistics computed from it, the migration of stored evidence, the
merging of official reports, and two small stateful objects of the runtime.  `dafny verify
dfyconfig.toml` checks everything.

## Modules

- `CampaignDomain`, `CampaignSlots`, `CampaignRunner`: the campaign's data, what one slot goes through,
  and `RunBenchmarkCampaign` as classes that update records in place and save the checkpoint.
- `CampaignMachine`, `CampaignSafety`, `CampaignEvidence`, `CampaignFrozen`, `CampaignWorkers`,
  `CampaignConfluence`: the same protocol as a step system with any number of workers, saves that raise, a
  crash at any point and any number of resumed invocations.  A history is any sequence of labels; a label
  that is not enabled does nothing.  `CampaignWorkers` bounds the histories by the pool of a configuration,
  and `CampaignEvidence` traces what is saved back to the runner's answers.
- `CampaignMatrix`, `CampaignSummary`, `CampaignPairs`, `CampaignWins`: the planned matrix, the counters over
  it, the two paired views, and who wins a pair.
- `Wilson`, `McNemar`, `PairedDecision`, `PublishGate`: the statistics and the publication gate.
- `Migration`, `MigrationFrame`, `MigrationMeaning`, `MigrationVerify`, `MigrationApply`: the rewrite of stored
  checkpoints, what it does place by place and when it rejects, what it leaves unchanged, when it passes its
  own verification, and the application of the write-set.
- `OfficialResults`, `OfficialImages`: merging evaluator reports and owning evaluator images.
- `SkillVersions`, `SkillIndex`, `SkillOrder`, `SkillSelection`, `Mailbox`: the versioned skill registry, its
  order and its choices as they read in texts and requests, and the run control mailbox.
- `Counting`, `Ordering`, `Wrappers`: sums and counts, lexicographic orders and the stable sort, options
  and results.

## Where the code and its description differ

The model follows the code.  Each of these is stated as an exact condition, with an input at which the
expectation fails.

- `_outcome_from_run_report` calls a case in error when the incomplete list and one other list name it,
  although the per-case merge would let the other list decide (`OfficialResults.AggregateIsJoinIff`,
  `IncompleteListWitness`).
- `_decision` is not monotone: one more gained case can turn a directional result into a rejection, or
  without activation into no positive result (`PairedDecision.ExtraGainLowersIff`, `FifthGainWitness`,
  `ThirdGainWitness`).
- A checkpoint whose version is spelled 2.0 passes the planning comparison, which uses Python equality,
  but not the digest comparison after the migration; and in a file of the write-set a version 3 checkpoint
  that says version 2 is accepted by the migration and refused by its verification
  (`MigrationVerify.AcceptedVerifiesIff`, `FloatVersionWitness`, `LeftoverVersionWitness`).
- If an exception follows the replacement of the manifest, and the machine stops during the rollback,
  the new manifest can be on disk beside restored files (`MigrationApply.JournalSafeIff`,
  `StoppedRollbackWitness`).
- A completion whose save raises is turned into a failure a moment later.  If another worker saves in
  between, a durably completed record becomes a failed one.  A valid configuration rules this out exactly
  when `max_parallel_slots` is 1 or there is one slot (`CampaignWorkers.FrozenIff`, `RaisingSaveWitness`; step
  by step in `CampaignFrozen.QuietStepIff` and `QuietIff`).
- `drain_steers` is described as keeping the order of submission.  It sorts by request time, which is
  taken before the lock, and lists the run's messages before unbound ones at equal times
  (`Mailbox.OrderKeptIff`, `EarlierStampWitness`, `EqualStampWitness`).  A cancel has no priority over a
  pause pending for the run itself (`Mailbox.CancelSeenIff`, `PauseBeforeCancelWitness`).
- `_inspect_image` reads any failing inspection as "absent".  A tag that was there but not seen is pulled,
  owned and removed (`OfficialImages.LostIff` and `HostRestoredIff`, `LostTagWitness`).
- Versions such as 1.0 and 1-0 have equal keys, and then the order of registration decides
  (`SkillIndex.OrderFreeIff` and `CommuteIff`, `EqualKeysWitness`).

## Modelling choices

- Strings that the code only compares are constructors with an `Other…` constructor for the rest.  A
  missing dictionary key and an empty string are one value wherever every reader treats them alike.
- Floats are reals and the final roundings are dropped; a square root is any non-negative number with the
  right square, and the Wilson results hold for every positive z.
- `campaign_config_digest` is injective in the model: the checkpoint keeps configuration and source
  themselves and compares them.  The publication gate takes the digest as an arbitrary function.
- Saving a checkpoint is one atomic durable step or raises and changes nothing, and there is one campaign
  process at a time.  The classes of `CampaignRunner` have saves that succeed.  Timestamps of records are not
  modelled; request times of control signals are arbitrary.
- The runner, the harness process, the Docker daemon, the text matching of skills and the faults of file
  operations are parameters or left open, so the results hold for all of them.
- JSON objects are sequences of entries with unique keys, as `json.loads` yields them.

## Model

| member | source | states |
|---|---|---|
| `CampaignRunner.CampaignFiles.LoadState` | agent_forge/bench/application/campaign.py:249-265 | loading builds new record objects whose value is exactly the last saved checkpoint; no file, no state |
| `CampaignRunner.RunBenchmarkCampaign.MarkRunSlotStarted` | agent_forge/bench/application/campaign.py:284-297 | the record runs with one more attempt and no error, keeps everything else, and is saved before the method returns |
| `CampaignRunner.RunBenchmarkCampaign.FailClosedStartedSlot` | agent_forge/bench/application/campaign.py:299-315 | the refused slot keeps its attempts and history, becomes failed, and is saved |
| `CampaignRunner.RunBenchmarkCampaign.RecordRunSlotCompletion` | agent_forge/bench/application/campaign.py:352-390 | every branch of recording a finished run field by field: the runner's evidence and identifiers are stored, a retry is appended to the history, and an artifact read that raises half way keeps what was read |
| `CampaignRunner.RunBenchmarkCampaign.RunOnce` | agent_forge/bench/application/campaign.py:214-245 | one turn of the retry loop leaves the absorbed outcome, saved, and asks for a retry exactly when it is allowed |
| `CampaignRunner.RunBenchmarkCampaign.RunSlotLoop` | agent_forge/bench/application/campaign.py:198-245 | the retry loop ends in the record that the recursive slot meaning gives, saved |
| `CampaignRunner.RunBenchmarkCampaign.LoadOrCreateState` | agent_forge/bench/application/campaign.py:249-282 | a fresh matrix, the saved state of the same experiment, or one of two rejections that leave the file alone |
| `CampaignRunner.RunBenchmarkCampaign.ScanSlots` | agent_forge/bench/application/campaign.py:106-123 | the first pass keeps completed slots, fails started strict slots closed, and lists exactly the rest in order |
| `CampaignRunner.RunBenchmarkCampaign.CloseCampaign` | agent_forge/bench/application/campaign.py:160-169 | the loop over the slots decides: the saved status is completed exactly when every single slot is |
| `CampaignRunner.RunBenchmarkCampaign.RunCampaign` | agent_forge/bench/application/campaign.py:72-169 | one invocation with one worker: which request is rejected with which error and without a trace, or every slot settled and the result saved |
| `CampaignRunner.RunAtSettles` | agent_forge/bench/application/campaign.py:106-135 | the first pass followed by the runnable slots one by one settles every record of the checkpoint |
| `CampaignSlots.RunSlotSettles` | agent_forge/bench/application/campaign.py:214-245 | one `_run_slot` ends completed or failed, calls the runner at most max(1, max - attempts) times, and counts each call |
| `CampaignSlots.HistoryBound` | agent_forge/bench/application/campaign.py:352-390 | at most max - 1 retries are ever recorded for a slot |
| `CampaignSlots.RunSlotIff` | agent_forge/bench/application/campaign.py:198-245 | the loop leaves exactly the record that the runner's answers call for: the last answer with all its evidence, or its error, and one history entry per superseded attempt |
| `CampaignSlots.SettleIff` | agent_forge/bench/application/campaign.py:106-135 | what an invocation makes of a record: a completed one stays, a started one is refused only under the strict policy, any other one runs as `RunSlotIff` says |
| `CampaignSafety.StepKeeps` | agent_forge/bench/application/campaign.py:198-245 | every lock-atomic step, raising save, crash and resume keeps the invariant of all slots, in memory and on disk |
| `CampaignSafety.CallsAreSavedAttempts` | agent_forge/bench/application/campaign.py:216-230 | over every history the runner calls of a slot never exceed its saved attempts |
| `CampaignEvidence.CallsAreCounted` | agent_forge/bench/application/campaign.py:224-230 | the call counter of a slot, which the two bounds speak of, is the number of runner calls in the whole history |
| `CampaignSafety.StrictPassAtOne` | agent_forge/bench/application/campaign.py:109-123 | without rerun_incomplete_slots the runner is called at most once per slot over any crashes and resumes |
| `CampaignSafety.AttemptAccounting` | agent_forge/bench/application/campaign.py:214-245 | increasing retry numbers below the maximum over all invocations, and the call budget of the current one |
| `CampaignSafety.ReturnSettlesEverything` | agent_forge/bench/application/campaign.py:160-169 | after a normal return every slot is completed or failed and the status says which |
| `CampaignSafety.NothingTakenBack` | agent_forge/bench/application/campaign.py:96-123 | configuration, source and slots never change and no saved attempt or retry is ever taken back, even if saves raise |
| `CampaignEvidence.SavedEvidenceIsAnswered` | agent_forge/bench/application/campaign.py:231-238 | over every history a record saved as completed holds the identifiers and the evidence that the runner returned for its last attempt, and each recorded retry those of its own attempt |
| `CampaignWorkers.FrozenIff` | agent_forge/bench/application/campaign.py:125-156 | for every valid configuration: over all histories of its worker pool, with any raising saves, crashes and resumes, durably completed records are never written again exactly when max_parallel_slots is 1 or the matrix has one slot |
| `CampaignWorkers.RaisingSaveWitness` | agent_forge/bench/application/campaign.py:231-245 | for any configuration with two workers and two slots, a history from an empty directory in which one raising save turns a durably completed record into a failed one |
| `CampaignWorkers.OneAtATimeIsQuiet` | agent_forge/bench/application/campaign.py:125-135 | with one worker, or one slot, no step saves while the completion of another slot is about to be failed |
| `CampaignWorkers.PoolExec` | agent_forge/bench/application/campaign.py:137-156 | over every history never more slots are between mark and end of `_run_slot` than there are workers, and none before the first pass is over |
| `CampaignFrozen.QuietStepIff` | agent_forge/bench/application/campaign.py:231-245 | a step saves no doomed completion of another slot exactly when no step after it takes a completed record of the file back |
| `CampaignFrozen.QuietIff` | agent_forge/bench/application/campaign.py:231-245 | the same for whole histories: quiet exactly when in no world passed through a step takes a completed record back |
| `CampaignFrozen.SuccessfulSavesAreQuiet` | agent_forge/bench/application/campaign.py:231-238 | every history whose completion saves succeed is quiet, with any number of workers |
| `CampaignSafety.FixedDenominator` | agent_forge/bench/application/campaign.py:249-282 | every checkpoint of every history plans exactly the matrix of its own configuration |
| `CampaignConfluence.Confluence` | agent_forge/bench/application/campaign.py:125-156 | every interleaving of the workers ends with the records and the call counts of the one-worker run |
| `CampaignConfluence.InvocationConfluence` | agent_forge/bench/application/campaign.py:72-169 | after any history, an accepted request leaves the checkpoint that the one-worker `RunCampaign` leaves, however the workers interleave |
| `CampaignConfluence.BeginIsFresh` | agent_forge/bench/application/campaign.py:96-123 | an accepted invocation starts from the saved checkpoint, or from the planned matrix, with nothing scanned |
| `CampaignConfluence.ScheduleFate` | agent_forge/bench/application/campaign.py:125-156 | no step of any schedule changes what a slot will end with or how many calls it still takes |
| `CampaignConfluence.StepWork` | agent_forge/bench/application/campaign.py:214-245 | every step of a worker lowers one common measure, whatever the runner returns and whether or not saves raise |
| `CampaignConfluence.Terminates` | agent_forge/bench/application/campaign.py:125-156 | the workers of an invocation make a bounded number of moves |
| `CampaignConfluence.NeverStuck` | agent_forge/bench/application/campaign.py:125-156 | while some slot is unsettled a step is possible |
| `CampaignMatrix.BuildCampaignRecords` | agent_forge/bench/domain/campaign.py:328-356 | the nested loops produce the counterbalanced matrix, numbered from 1 without gaps |
| `CampaignMatrix.AppendBlock` | agent_forge/bench/domain/campaign.py:339-354 | one block lists the variants forwards or backwards by the parity of repetition and case |
| `CampaignMatrix.ExactlyOnce` | agent_forge/bench/domain/campaign.py:328-356 | each (case, repetition, variant) is planned at exactly one place, the mixed-radix index |
| `CampaignMatrix.IndexFormula` | agent_forge/bench/domain/campaign.py:328-356 | that index as arithmetic: (repetition-1)·n·k + case·k + the variant, reversed in every other block |
| `CampaignMatrix.MatrixLocate` | agent_forge/bench/domain/campaign.py:328-356 | every place of the matrix is the index of the cell it holds |
| `CampaignMatrix.NothingElse` | agent_forge/bench/domain/campaign.py:328-356 | the matrix has repetitions × cases × variants slots, all inside the request |
| `CampaignMatrix.MatrixUnique` | agent_forge/bench/domain/campaign.py:328-356 | the configuration alone determines the planned records |
| `CampaignMatrix.ExcessValue` | agent_forge/bench/domain/campaign.py:339-343 | forward blocks exceed reversed ones by (R·n) mod 2 |
| `CampaignMatrix.Counterbalanced` | agent_forge/bench/domain/campaign.py:339-343 | all variants have the same total position exactly when R·n is even or there is one variant |
| `CampaignMatrix.CommonPosition` | agent_forge/bench/domain/campaign.py:339-343 | the common total position is R·n·(k-1)/2 |
| `CampaignSummary.SummarizeVariants` | agent_forge/bench/domain/campaign.py:371-424 | one pass of mutable counters equals independent counts and sums over all records, for every variant |
| `CampaignSummary.AddRecord` | agent_forge/bench/domain/campaign.py:376-424 | one turn of the loop: a summary of the records so far becomes the summary with one record more |
| `CampaignSummary.AddRetries` | agent_forge/bench/domain/campaign.py:381-389 | superseded attempts add their count and tokens |
| `CampaignSummary.CountStatuses` | agent_forge/bench/domain/campaign.py:474-476 | the status dictionary lists exactly the statuses that occur, with their counts |
| `CampaignSummary.CountersAre` | agent_forge/bench/domain/campaign.py:376-404 | every counter is the number of the variant's records with the status, patch, validation, verdict or failure class it is named for |
| `CampaignSummary.ClassesAreCounted` | agent_forge/bench/domain/campaign.py:376-424 | a listed failure class has the number of its completed runs, with an empty class listed as unclassified |
| `CampaignSummary.AmountsOfOne` | agent_forge/bench/domain/campaign.py:381-424 | the amounts of one record: only a completed run counts for its cost, every run for its retries |
| `CampaignSummary.PlannedAddsUp` | agent_forge/bench/domain/campaign.py:371-380 | the planned counts of all variants add up to the number of records |
| `CampaignSummary.StatusesAddUp` | agent_forge/bench/domain/campaign.py:474-476 | the status counts add up to the number of records |
| `CampaignSummary.CountersNest` | agent_forge/bench/domain/campaign.py:390-424 | resolved ≤ evaluated ≤ completed, local ≤ patch ≤ completed, completed + failed ≤ planned |
| `CampaignSummary.ClassesAddUp` | agent_forge/bench/domain/campaign.py:401-424 | the failure classes partition the completed runs |
| `CampaignSummary.InfrastructureAddsUp` | agent_forge/bench/domain/campaign.py:401-404 | the three infrastructure classes together are the infrastructure counter |
| `CampaignSummary.SummaryAdditive` | agent_forge/bench/domain/campaign.py:376-424 | every integer counter of a concatenation is the sum of its parts |
| `CampaignSummary.SummaryOrderFree` | agent_forge/bench/domain/campaign.py:376-424 | the summary does not depend on the order of the records |
| `CampaignPairs.GroupPairs` | agent_forge/bench/domain/campaign.py:575-579 | grouping by case and repetition keeps the latest record of each variant, in first-seen order |
| `CampaignPairs.PairedOfficialSummary` | agent_forge/bench/domain/campaign.py:563-617 | the loop of the official view counts pairs with an explicit verdict on both sides |
| `CampaignPairs.PairedSampleSummary` | agent_forge/bench/domain/campaign.py:620-692 | the loop of the sample view counts adjudicated and excluded pairs |
| `CampaignPairs.ViewAddsUp` | agent_forge/bench/domain/campaign.py:563-692 | wins and ties make up the pairs, pairs and excluded make up the groups |
| `CampaignPairs.SwapMirrors` | agent_forge/bench/domain/campaign.py:563-692 | exchanging control and treatment exchanges the wins and nothing else, in both views |
| `CampaignPairs.OfficialWithinSample` | agent_forge/bench/domain/campaign.py:563-692 | official pairs are the ones with and without an infrastructure failure, and every count of the latter is at most its sample counterpart |
| `CampaignPairs.PairsOnMatrix` | agent_forge/bench/domain/campaign.py:328-356 | a matrix has one pair per case and repetition |
| `CampaignPairs.SampleCoversMatrix` | agent_forge/bench/domain/campaign.py:620-692 | adjudicated and excluded pairs of a two-variant matrix are cases × repetitions |
| `CampaignPairs.HistorySampleCovers` | agent_forge/bench/domain/campaign.py:620-692 | so does the checkpoint that any history of invocations, crashes and resumes leaves |
| `CampaignPairs.PairIsPlanned` | agent_forge/bench/domain/campaign.py:637-643 | on a matrix grouping overwrites nothing: a pair compares the two planned slots |
| `CampaignWins.OfficialWinners` | agent_forge/bench/domain/campaign.py:563-617 | the official view counts a win for the side found resolved when the other was found unresolved, and a tie for equal verdicts, over the pairs whose last records completed |
| `CampaignWins.SampleWinners` | agent_forge/bench/domain/campaign.py:620-692 | the sample view does so for completed pairs without an infrastructure failure, with anything but resolved as unresolved |
| `CampaignWins.MatrixWinners` | agent_forge/bench/domain/campaign.py:563-692 | on a planned matrix the wins are the cells, by case and repetition, whose two planned records are as the view asks; the control is the first variant |
| `CampaignWins.LatestStands` | agent_forge/bench/domain/campaign.py:575-579 | a group keeps the last record of its case, repetition and variant |
| `CampaignWins.FirstSeenOrder` | agent_forge/bench/domain/campaign.py:575-579 | the groups come in the order of their first records |
| `Wilson.CampaignIntervalIsScoreSet` | agent_forge/bench/domain/campaign.py:520-536 | the clamped interval is exactly the set of rates x with n(p-x)² ≤ z²x(1-x) |
| `Wilson.AcceptedInUnit` | agent_forge/bench/domain/campaign.py:520-536 | accepted rates lie in [0,1], so the clamps never act |
| `Wilson.ImplementationsAgree` | scripts/summarize_tool_aci_golden_20.py:488-500 | the two differently factored implementations give the same ends |
| `Wilson.ContainsObservedRate` | agent_forge/bench/domain/campaign.py:520-536 | the observed rate lies inside |
| `Wilson.Mirrored` | agent_forge/bench/domain/campaign.py:520-536 | counting failures instead of successes reflects the interval |
| `Wilson.Monotone` | agent_forge/bench/domain/campaign.py:520-536 | more successes move both ends up |
| `McNemar.WhereCounts` | scripts/summarize_tool_aci_golden_20.py:503-511 | sign patterns with a property of their gain count are counted by binomial coefficients |
| `McNemar.ExtremeCounts` | scripts/summarize_tool_aci_golden_20.py:507-510 | the numerator is the number of sign patterns at least as extreme in either direction |
| `McNemar.ExactIsShareOfExtremePatterns` | scripts/summarize_tool_aci_golden_20.py:503-511 | the p-value is the share of those patterns among all; the clamp acts only on a tie |
| `McNemar.ExactRange` | scripts/summarize_tool_aci_golden_20.py:503-511 | the p-value is in (0,1], and is 1 exactly when the counts differ by at most one |
| `McNemar.ExactDecreases` | scripts/summarize_tool_aci_golden_20.py:503-511 | for a fixed total a larger imbalance beyond one is strictly more significant |
| `PairedDecision.CountTransitions` | scripts/summarize_tool_aci_golden_20.py:620-641 | the transition loop counts the four kinds of change |
| `PairedDecision.TransitionsAre` | scripts/summarize_tool_aci_golden_20.py:620-641 | a transition count is the number of cases with that outcome before and that outcome after |
| `PairedDecision.TransitionsBalance` | scripts/summarize_tool_aci_golden_20.py:620-705 | the four counts partition the cases, and the net change is gains minus regressions |
| `PairedDecision.DecisionByCounts` | scripts/summarize_tool_aci_golden_20.py:514-526 | which transition counts lead to which decision |
| `PairedDecision.GainAt` | scripts/summarize_tool_aci_golden_20.py:620-641 | resolving one unresolved case adds one gain and no other change |
| `PairedDecision.ExtraGainLowersIff` | scripts/summarize_tool_aci_golden_20.py:514-526 | exactly when resolving one more case lowers the rank of the decision |
| `PairedDecision.ThirdGainWitness` | scripts/summarize_tool_aci_golden_20.py:514-526 | three cases without activation, where a third gain turns directional into no positive result |
| `PairedDecision.FifthGainWitness` | scripts/summarize_tool_aci_golden_20.py:514-526 | seven cases with two regressions, where a fifth gain turns directional into reject |
| `PairedDecision.StrongPositivePValue` | scripts/summarize_tool_aci_golden_20.py:503-526 | a strong positive has p-value 2/2^gains, at most 1/4 |
| `PublishGate.GateIsExact` | scripts/run_swebench_verified_mini_50.py:537-594 | the gate, which compares counters, publishes exactly when every single record is sound and the identities match |
| `PublishGate.PublishedBuckets` | scripts/run_swebench_verified_mini_50.py:541-600 | on publication the evaluated and the empty-patch records partition the campaign |
| `PublishGate.GateCounters` | scripts/run_swebench_verified_mini_50.py:537-600 | what each counter counts, and that the headline is the number of resolved runs, absent without publication |
| `MigrationFrame.FrameAt` | scripts/migrate_context_semantic_naming_v3.py:471-501 | place by place the migrated document is the old one, with the same entries in the same order, except for the digest key and the version of a version 2 checkpoint |
| `MigrationFrame.UntouchedWithoutCheckpoint` | scripts/migrate_context_semantic_naming_v3.py:471-501 | a document without a version 2 checkpoint is accepted and stays exactly as it is |
| `MigrationFrame.RejectedIff` | scripts/migrate_context_semantic_naming_v3.py:471-501 | a document is rejected exactly when some node is a defective version 2 checkpoint, for the first such node in document order |
| `MigrationFrame.CheckpointsCounted` | scripts/migrate_context_semantic_naming_v3.py:526-537 | the count is the number of nodes, at any depth, with the digest and every identity entry |
| `MigrationFrame.SchemaIff` | scripts/migrate_context_semantic_naming_v3.py:526-550 | some checkpoint at any depth says this version |
| `MigrationFrame.NormalizedNode` | scripts/migrate_context_semantic_naming_v3.py:504-528 | one node under the normaliser: only integrity entries are dropped, and only a version 3 checkpoint gets its old digest key and version |
| `Migration.TransformCounts` | scripts/migrate_context_semantic_naming_v3.py:471-537 | the count is the number of v2 checkpoints at any depth; none is left and the v3 ones are the sum |
| `MigrationMeaning.MigrationInvisible` | scripts/migrate_context_semantic_naming_v3.py:172-187 | whatever was migrated, the normalised trees before and after are equal for Python |
| `MigrationMeaning.PythonEqualIff` | scripts/migrate_context_semantic_naming_v3.py:471-524 | the equality used there: numbers by value, lists and objects entry by entry, everything else itself |
| `MigrationMeaning.TransformIdempotent` | scripts/migrate_context_semantic_naming_v3.py:471-501 | a second migration is the identity with count 0 |
| `MigrationMeaning.TransformWellFormed` | scripts/migrate_context_semantic_naming_v3.py:471-501 | the rewrite never makes two keys of an object collide |
| `MigrationMeaning.SameSpelling` | scripts/migrate_context_semantic_naming_v3.py:504-523 | the normalised trees, and so their digests, are identical exactly when every visible v2 version is the integer 2 |
| `MigrationMeaning.LeftoverSchema` | scripts/migrate_context_semantic_naming_v3.py:540-550 | a checkpoint with schema version 2 remains exactly when a v3 one carried it before |
| `MigrationVerify.TreeVerifiesIff` | scripts/migrate_context_semantic_naming_v3.py:313-332 | exactly when a migrated file meets the three conditions on a listed file |
| `MigrationVerify.AcceptedVerifiesIff` | scripts/migrate_context_semantic_naming_v3.py:295-332 | exactly when an accepted migration passes, over the files of its write-set; other files are not read |
| `MigrationVerify.FloatVersionWitness` | scripts/migrate_context_semantic_naming_v3.py:172-187 | a checkpoint with version 2.0 that planning accepts and verification refuses |
| `MigrationVerify.LeftoverVersionWitness` | scripts/migrate_context_semantic_naming_v3.py:295-332 | a file with a version 3 checkpoint saying 2 that planning accepts and verification refuses |
| `MigrationApply.Disk.WriteForward` | scripts/migrate_context_semantic_naming_v3.py:265-282 | the forward writes leave the disk after exactly the replacements that took effect, the manifest last |
| `MigrationApply.Disk.Apply` | scripts/migrate_context_semantic_naming_v3.py:253-292 | the whole application: the outcome, the disk and everything the disk went through, decided by the first fault of each phase |
| `MigrationApply.AppliedIsMerge` | scripts/migrate_context_semantic_naming_v3.py:263-282 | without an exception the staged bytes are on disk and nothing else changed |
| `MigrationApply.RollbackRestoresIff` | scripts/migrate_context_semantic_naming_v3.py:283-291 | a complete rollback restores the disk exactly when every replaced file but the manifest existed before |
| `MigrationApply.CrashDuringWrites` | scripts/migrate_context_semantic_naming_v3.py:263-275 | wherever the machine stops during the writes, a new manifest implies that all staged files are new |
| `MigrationApply.CrashDuringRollback` | scripts/migrate_context_semantic_naming_v3.py:283-291 | when that also holds in the middle of a rollback |
| `MigrationApply.JournalSafeIff` | scripts/migrate_context_semantic_naming_v3.py:253-292 | over everything the disk went through the manifest is a valid commit record exactly when no exception followed its own replacement, or the rollback changed nothing |
| `MigrationApply.StoppedRollbackWitness` | scripts/migrate_context_semantic_naming_v3.py:253-292 | one file, one raising manifest write and one restoration after which the new manifest stands beside the old file |
| `OfficialResults.JoinIsLeast` | agent_forge/bench/adapters/official_results.py:92-123 | the join of statuses is their least upper bound |
| `OfficialResults.AggregateTells` | agent_forge/bench/adapters/official_results.py:169-205 | which id list alone gives which status, and which combinations are an error |
| `OfficialResults.AggregateIsJoinIff` | agent_forge/bench/adapters/official_results.py:169-205 | when the outcome from the id lists is the join of the lists that name the case |
| `OfficialResults.IncompleteListWitness` | agent_forge/bench/adapters/official_results.py:169-205 | an id on the resolved and the incomplete list, called in error |
| `OfficialResults.MergeVerdict` | agent_forge/bench/adapters/official_results.py:99-123 | the merge branches compute the join with the explicit verdict and keep the boolean consistent |
| `OfficialResults.ParseOfficialResults` | agent_forge/bench/adapters/official_results.py:65-125 | every requested case ends with the join of its aggregate outcome and all its case reports |
| `OfficialResults.ParsedIff` | agent_forge/bench/adapters/official_results.py:64-127 | exactly when a case ends resolved, failed, skipped, incomplete or in error, in terms of the five id lists and of what the case reports say |
| `OfficialResults.PathIsLast` | agent_forge/bench/adapters/official_results.py:83-127 | the report path of a case is that of the last case report that says something about it |
| `OfficialResults.MergeOrderFree` | agent_forge/bench/adapters/official_results.py:88-123 | the merged status does not depend on file order or duplicate reports |
| `OfficialResults.ResolvedIff` | agent_forge/bench/adapters/official_results.py:88-123 | resolved exactly when some source says so and none says anything else |
| `OfficialResults.ApplyOfficialResults` | agent_forge/bench/adapters/official_results.py:131-156 | the write-back changes each case to its outcome, raised to error on a non-zero exit code when incomplete |
| `OfficialResults.WrittenStatus` | agent_forge/bench/adapters/official_results.py:131-156 | the exit code never overrides a verdict and no case becomes resolved without a source |
| `OfficialImages.ReleaseOwnedImages` | agent_forge/bench/adapters/official_evaluator.py:225-244 | every owned lease is tried in reverse order, only those tags change, and there is a warning exactly if a removal failed |
| `OfficialImages.PullImage` | agent_forge/bench/adapters/official_evaluator.py:140-160 | a pulled tag is recorded as owned before anything else can fail |
| `OfficialImages.PrepareImage` | agent_forge/bench/adapters/official_evaluator.py:132-182 | however one image ends, the owned leases are the successful pulls; it fails exactly when a pull failed, an inspection was unusable, or the platform is another one |
| `OfficialImages.PrepareOfficialImages` | agent_forge/bench/adapters/official_evaluator.py:118-190 | the owned leases are the successful pulls and are released on failure; when it raises, and that success means the requested platform for every case |
| `OfficialImages.EvaluateSerial` | agent_forge/bench/adapters/official_evaluator.py:50-114 | which of the five endings, statuses and exit codes results from the installation, the daemon's log, the request and the harness; on every way out the removals tried are the pulls in reverse |
| `OfficialImages.ReleasedIsEnded` | agent_forge/bench/adapters/official_evaluator.py:183-244 | releasing the leases of a preparation tries exactly the successful pulls, in reverse order |
| `OfficialImages.LostIff` | agent_forge/bench/adapters/official_evaluator.py:118-244 | a tag of the host is lost exactly when it was pulled again and removed, and then an inspection had overlooked it |
| `OfficialImages.HostRestoredIff` | agent_forge/bench/adapters/official_evaluator.py:118-244 | when no removal failed the host is as found exactly if no successful pull was of a tag it had |
| `OfficialImages.ReleasedTwiceIff` | agent_forge/bench/adapters/official_evaluator.py:118-244 | every tag is released as often as it was pulled |
| `OfficialImages.FaithfulHost` | agent_forge/bench/adapters/official_evaluator.py:50-244 | with inspections that see what is there no tag of the host is touched, none is released twice, and only failed removals leave tags |
| `OfficialImages.LostTagWitness` | agent_forge/bench/adapters/official_evaluator.py:118-244 | a host image that one inspection overlooks is pulled, owned and removed |
| `SkillVersions.BuildVersionKey` | agent_forge/skills/registry.py:259-266 | the loop builds the tuple of numbers and words |
| `SkillVersions.KeysAreTotal` | agent_forge/skills/registry.py:259-266 | version keys are totally ordered: mixed tuples always compare, and equal only if identical |
| `SkillOrder.VersionLessIff` | agent_forge/skills/registry.py:259-266 | the version order read off the texts: at the first different token a smaller number, a number before a word, or the smaller word; a version that ends there comes first |
| `SkillOrder.NumeralIff` | agent_forge/skills/registry.py:259-266 | the digit test and the conversion read exactly the decimal numerals, with any leading zeros |
| `SkillOrder.TokensSplit` | agent_forge/skills/registry.py:259-266 | the tokens hold no separator, and joined by the separators they are the version again |
| `SkillOrder.NumberDecides` | agent_forge/skills/registry.py:259-266 | versions that agree up to a place where both have numbers are ordered by these numbers |
| `SkillVersions.RegisterKeeps` | agent_forge/skills/registry.py:169-181 | registration keeps a name's list sorted with unique versions |
| `SkillVersions.ElementsDetermine` | agent_forge/skills/registry.py:169-181 | with different keys for different versions a list is determined by its elements |
| `SkillIndex.BuiltIsValid` | agent_forge/skills/registry.py:169-181 | after any registrations every list is sorted, unique and not empty |
| `SkillIndex.BuiltHolds` | agent_forge/skills/registry.py:169-181 | the catalogue holds exactly the last registration of each name and version |
| `SkillIndex.LatestIsMaximum` | agent_forge/skills/registry.py:236-243 | no version ever registered under the name comes after the one that is resolved as the latest |
| `SkillOrder.LatestIsNewest` | agent_forge/skills/registry.py:236-243 | the resolved spec was registered under the name, and no registered version of the name comes after it as a text |
| `SkillOrder.NewestWins` | agent_forge/skills/registry.py:169-182 | a registration that no earlier version comes after is resolved from then on, also among equal versions |
| `SkillOrder.LastRegisteredAt` | agent_forge/skills/registry.py:236-246 | a given version resolves to its last registration |
| `SkillOrder.TenAfterNineWitness` | agent_forge/skills/registry.py:259-266 | 1.10 is resolved and not 1.9, whichever is registered first |
| `SkillOrder.TwoAfterOneWitness` | agent_forge/skills/registry.py:259-266 | 2.0 is resolved and not 1.0, whichever is registered first |
| `SkillIndex.OrderFree` | agent_forge/skills/registry.py:169-181 | with distinct version keys the catalogue does not depend on the order of registration |
| `SkillIndex.OrderFreeIff` | agent_forge/skills/registry.py:169-181 | for every history: the catalogue depends only on the last registrations exactly when different versions have different keys |
| `SkillIndex.CommuteIff` | agent_forge/skills/registry.py:169-181 | exactly when two registrations commute; equal keys of different versions do not |
| `SkillIndex.EqualKeysWitness` | agent_forge/skills/registry.py:259-266 | 1.0 and 1-0 have equal keys, and their order of registration shows |
| `SkillIndex.RankingUnique` | agent_forge/skills/registry.py:94-119 | the ranking of candidates is determined by the catalogue |
| `SkillIndex.ListSpecs` | agent_forge/skills/registry.py:226-234 | every spec once, by name and by version |
| `SkillIndex.ScoreSpecs` | agent_forge/skills/registry.py:95-110 | the loop keeps only latest versions, respects read-only requests, and scores four per matching term |
| `SkillIndex.SkillRegistry.Register` | agent_forge/skills/registry.py:169-181 | one registration on the object's catalogue |
| `SkillIndex.SkillRegistry.Resolve` | agent_forge/skills/registry.py:236-247 | the latest spec, the last registration of the version, or KeyError |
| `SkillIndex.SkillRegistry.DiscoverForTask` | agent_forge/skills/registry.py:70-135 | explicit names, else the first `limit` of all candidates by (-score, name), else the known fallbacks; all latest versions |
| `SkillSelection.SelectionTells` | agent_forge/skills/registry.py:91-119 | the automatic choice: eligible latest versions, more points first and equal points by name, cut off by the limit, and nothing better is left out |
| `SkillSelection.ScoreIsPoints` | agent_forge/skills/registry.py:95-111 | four points for every activation term that occurs |
| `SkillSelection.FallbackTells` | agent_forge/skills/registry.py:121-136 | without a match: orientation only for a read-only request, otherwise the targeted edit before it, as far as they are known |
| `SkillSelection.ExplicitTells` | agent_forge/skills/registry.py:84-89 | explicit names give one entry each, in their order, for the latest version |
| `SkillIndex.SkillRegistry.SelectForTask` | agent_forge/skills/registry.py:50-68 | every entry is activated as the very spec that was discovered; only an unknown explicit name raises |
| `Mailbox.RunController.SubmitSteer` | agent_forge/control.py:61-66 | a message is queued under its run at the end, or rejected when blank |
| `Mailbox.RunController.DrainSteers` | agent_forge/control.py:76-82 | a poll empties the run's and the unbound queue and returns both sorted by request time |
| `Mailbox.RunController.SetTerminal` | agent_forge/control.py:95-100 | the latest pause or cancel is pending, except that a pending cancel stays |
| `Mailbox.RunController.TakeTerminal` | agent_forge/control.py:69-73 | the run's own signal, else the unbound one, is taken |
| `Mailbox.Conservation` | agent_forge/control.py:61-82 | over every history the submitted messages are the delivered and the queued ones, each once |
| `Mailbox.QueuesMatch` | agent_forge/control.py:61-82 | every queue holds what was submitted under its key and not yet drained, in order |
| `Mailbox.DrainDelivers` | agent_forge/control.py:76-82 | what a poll returns is the delivery of the history |
| `Mailbox.DeliveryIsVisible` | agent_forge/control.py:76-82 | a poll gets exactly the messages for its run or for none, sorted by request time |
| `Mailbox.OrderKeptIff` | agent_forge/control.py:76-82 | exactly when a poll keeps the order of submission |
| `Mailbox.EarlierStampWitness` | agent_forge/control.py:76-82 | two messages for one run that come back in the other order |
| `Mailbox.EqualStampWitness` | agent_forge/control.py:76-82 | an unbound message and one for the run with the same time that come back in the other order |
| `Mailbox.CancelSurvives` | agent_forge/control.py:95-100 | a pending cancel outlasts every later operation until a poll takes it |
| `Mailbox.CancelTakenOnce` | agent_forge/control.py:69-100 | the poll that takes it gets the cancel itself and leaves nothing under the key |
| `Mailbox.PendingIsFresh` | agent_forge/control.py:69-100 | a pending signal was submitted after the last poll that took from its key, so none is taken twice |
| `Mailbox.PendingIff` | agent_forge/control.py:69-100 | after any history a signal, or a cancel, is pending exactly when one was submitted that no poll has taken since |
| `Mailbox.PendingIs` | agent_forge/control.py:69-100 | which of the held signals is pending: the first cancel, or the last pause when there is no cancel |
| `Mailbox.PollTells` | agent_forge/control.py:69-100 | a poll after any history is given the signal pending for its run, else the one pending for no run, else nothing, and takes exactly that one away |
| `Mailbox.CancelSeenIff` | agent_forge/control.py:69-100 | when a cancel for the run or for any run was submitted and not taken, the poll returns a cancel except exactly when only a pause is held for the run itself |
| `Mailbox.PauseBeforeCancelWitness` | agent_forge/control.py:69-100 | an unbound cancel that waits behind a pause for the run itself |

## Left out

- `_extract_run_evidence` and the artifact store: evidence arrives as a value; an unreadable artifact is one of the run outcomes.
- Exceptions outside `Exception`, such as an interrupt: a process that stops is a crash step at the nearest boundary.
- CampaignRunner.RunBenchmarkCampaign.RunOnce: a save that raises inside the `try` is a step of `CampaignMachine` and not of this class, whose saves succeed.
- CampaignRunner.RunBenchmarkCampaign.RunSlotLoop: saves that raise are steps of `CampaignMachine` and not of this class, whose saves succeed.
- The order in which pool threads take the slots: any free worker takes any slot, which includes the order of submission.
- The sort of the records by ordinal before the first pass: the planned list is already in that order, which `CampaignMatrix.BuildCampaignRecords` states.
- Validity rules of a request about identifiers, cohorts and custom case files, and `variants_by_name`: field comparisons without further consequence here.
- Cost sums of `summarize_campaign`, its rates and claim texts: float additions rounded to six digits, and divisions of the counters that are modelled.
- Variant entries of a stored configuration that are not objects, and `attempt_history` entries without evidence: the code that writes them never produces either.
- Final artifacts, public bundle and latest-run link of a campaign: written after the last checkpoint.
- `_aggregate_variant` and the reading of trajectories in the golden-20 report: field copying and counters over files.
- Construction of a frozen plan and its file: the publication gate takes both plans as values.
- Discovery of the files to migrate, and the updates of run manifests, trace hashes and evidence trees: hashing and path handling.
- MigrationVerify.AcceptedVerifiesIff: states the conditions that verification puts on the trees of the write-set; its checks of file hashes, closure and evidence trees are outside.
- `Normalize` merging two entries that become the same key: the code's dictionary would drop one, which happens only on trees that the migration rejects.
- NaN and numbers beyond real arithmetic in JSON, and booleans equal to 0 or 1 as schema versions.
- Making backups before a migration: an exception there changes no file.
- Finding and decoding report files, warnings and detail texts of the evaluator: reports arrive as values; an unreadable one is a report that is not an object.
- Whether the evaluator harness itself changes the host's images, and other users of the Docker daemon: assumed not to.
- `_official_image_tag` as text: an arbitrary function from instance ids to tags, which need not be injective; an unknown platform raises as in the code.
- OfficialImages.EvaluateSerial: an exception inside `_release_owned_images` itself, such as a missing docker executable, is not modelled.
- The stored command, output, warnings and image identities of an official run: diagnostics that no verdict reads.
- Parsing of skill packages and manifests, resource disclosure, `rollback_target`, and the text rules for read-only requests and activation terms.
- Digits outside ASCII in version strings, which the code accepts as digits but cannot convert.
- Whitespace outside space, tab and line breaks in steering messages.
- SkillVersions.BuildVersionKey: splitting the string at the separators is a function of the model rather than the regular-expression library.
- CampaignRunner.RunBenchmarkCampaign.RunCampaign: states the one-worker branch; the thread pool is `CampaignMachine`, tied to it by `CampaignConfluence.Confluence`.
- MigrationApply.Disk.Apply: file metadata is not modelled; a failing metadata call is a fault after the replacement.
- The agent loop, the thread repository, the multi-agent scheduler, tool routing, permission policy and all user interfaces.
