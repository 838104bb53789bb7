# Deja loop, assembly and recall: a verified model

This project models four pieces of the repository in Dafny and proves what they promise.

**The governance loop over its reference store.** `run` proposes recommendations, `review` approves or rejects them,
`apply` executes a batch against the store, `rollback` retracts what an apply created, and the host policy may take a
recommendation from pending to applied by itself.

- `text.dfy`, `cal_text.dfy`: the string level. What the statement writer emits, how the engine reads its own
  SUPERSEDE lines back, how the executor reads any line, and the destructive check. JSON comes in through a codec with
  four laws; `codec_witness.dfy` builds a codec that meets them all.
- `loop_model.dfy`: grains, recommendations, audit records, the persisted state and the lifecycle table.
- `store.dfy`: the store as a value. `substrate.dfy`: the reference substrate as a class (a list of grains, an index, an
  address counter, a clock and the state blob) whose every method is proved to do to the value it represents what the
  function of `store.dfy` says.
- `engine_spec.dfy`: every engine operation as a function from one world (store and persisted state) to the next.
  `engine.dfy`: the operations themselves, with their loops and their updates in place, each proved equal to its
  function, on success and on every failure.
- `invariants.dfy`, `steps.dfy`, `reachable.dfy`, `runs.dfy`: the invariant and its proof. A history is any sequence of
  runs, reviews, applies, rollbacks and configuration changes, successful or failed, interleaved with arbitrary host
  writes to the store, starting from any well-formed store without loop state. Findings are arbitrary, and every act
  names the engine it runs on, so the host's policy, its analyzers and its measurements may change between any two acts.
- `guarantees.dfy`, `rejections.dfy`, `outcomes.dfy`, `apply_rollback.dfy`, `auto_apply.dfy`: what follows.
  `failing_run.dfy`: a run that fails.
- `authority.dfy`: who may take which step, and what it leaves. `screening.dfy`: from findings to survivors.
  `curation.dfy`: what the policy applies by itself. `provenance.dfy`: where every added grain comes from, and that a
  rollback takes all of an apply back. `verbs.dfy`: what the verbs of a batch do. These state their conditions on
  scopes, statuses, fields and texts themselves.
- `dedup_key.dfy`: when dedup keys tell findings apart.

**Multi-source assembly** (`assemble.dfy`): dedup across sources, the cap, budget allocation and greedy trimming;
`assemble_labels.dfy`: which grains of sources that share a label are lost on the way; `priority_rank.dfy`: what the
weights of a priority clause mean for dedup and for shares.

**Two kernels**: day counts to Gregorian dates (`calendar.dfy`; section 5.7 and Appendix C of RFC 3339) and the one-pass
JSON nesting guard against the real depth of any JSON text (`json_nesting.dfy`; sections 2, 4, 5 and 7 of RFC 8259).

**Two stages of recall** (`recall.dfy`): bounded expansion along the entity graph and the newest-per-key resolver.

`basics.dfy` holds optional values, results and decimal text. `dafny verify dfyconfig.toml` checks everything.

## Where the code does less than its documentation says

- A value-identical SUPERSEDE whose type contains `{` passes the auto-apply check, but the executor refuses the line
  (`AutoApplying.BracedTypePassesTheCheck`, `CuratedBatchReplaces`, `AutoApplyFailsIff`). A run stops half way exactly
  when it gets to such a survivor under a grant (`RunFailsIff`, `RunFailsIffBraced`); `FailingRun.ARunFails` is a run
  that does. The state is then not stored, and the grain of one recommendation stays behind with its key occupied
  although nothing indexed holds it (`FailedRunLeavesAnOrphan`). No later run of any history proposes that key again
  (`FailedRunSilencesAKey`).
- The comment on the dedup key says its separator cannot occur in the parts. Nothing keeps it out of the id a command
  analyzer reports, and two commands can then share a key for findings about different targets
  (`DedupKeys.TwoCommandsShareAKey`). Keys of two families are faithful exactly when neither family is the other one,
  the separator and the beginning of a target (`FaithfulIffNoOverlap`); what the targets contain does not matter.
- The substrate interface calls supersession atomic, but the replacement is stored before the target is looked up: a
  supersession fails exactly when the target is missing, and leaves its grain behind then (`GrainStore.SupersedeKeeps`).
- A schedule with repeated horizons is measured once per repetition (`Outcomes.RepeatsAreMeasuredTwice`,
  `MeasuredOnceIffListedOnce`).
- An assembly exceeds its budget exactly when the first grain of some source is larger than what is left for it
  (`Assemble.WithinBudgetIff`, `ExceedsIff`); `OversizedGrainExceeds` is an assembly that does, for any budget.
- The text grammar refuses repeated source labels, but the JSON form of a query and the engine do not look at them
  again. Under the default dedup, a source that shares its label then loses capped grains without a report:
  `AssembleLabels.AssemblyLosesNothingIff` says exactly when, `SharedLabelLosesTails` shows it on three sources of a
  thousand rows.
- The graph expansion starts from eight grains of the first pass only. It misses nothing within reach on any store,
  short of its budget, if and only if it makes one hop at most, has no entity to start from, or those eight name every
  entity the first pass names (`Recall.CompleteIffSeedsNameAll`); `NinthGrainIsMissed` is an entity one edge away that
  is missed.

## Model

| member | source | states |
|---|---|---|
| Runs.ReachableIsGood | crates/deja-loop/src/engine.rs:270-366 | in every reachable world, failed operations, host writes and changes of policy and analyzers included, the whole invariant holds: sound trails, consistent maps, one open recommendation per key, rested keys, sound applied records and schedules |
| Runs.StepIsGood | crates/deja-loop/src/engine.rs:918-1190 | every single operation, on any engine, keeps the invariant and continues the past |
| Runs.LaterFollows | crates/deja-loop/src/engine.rs:270-1190 | between any two moments of a history no grain is lost, rewritten or revived and every author, applied record and trail of the earlier moment survives |
| Guarantees.AuditTrailIsSound | crates/deja-loop/src/recommendation.rs:317-328 | following previous-audit links from any head reads exactly one finite trail; it starts with a proposal, joins up, takes only table steps (the direct one only as the policy), gives a reason each time, dates the applied record and ends in the indexed status |
| Guarantees.HistoryIsAppendOnly | crates/deja-loop/src/engine.rs:313-342 | in every later world a recommendation's trail extends the earlier one and its author, trigger and applied record are unchanged |
| Guarantees.SeparationOfDuties | crates/deja-loop/src/engine.rs:949-964 | whatever is or was applied got there by the policy on a built-in, non-destructive finding, or right after an approval by somebody who is neither its author nor the recorded trigger |
| Guarantees.NewEntriesAreAccountable | crates/deja-loop/src/engine.rs:313-346 | every recommendation a run indexes is one of its survivors, names its engine as author, names the trigger exactly when it is not built in, and is applied at once only under a grant |
| Guarantees.ClosedPolicyAppliesNothing | crates/deja-loop/src/policy.rs:85-94 | with the policy's master switch off a run leaves everything it stores pending |
| Guarantees.AtMostOneOpen | crates/deja-loop/src/engine.rs:475-504 | in every reachable world two open recommendations of one key are the same one |
| Guarantees.HeldKeyIsNotProposed | crates/deja-loop/src/engine.rs:1879-1909 | a key held by an open recommendation never survives a run, whatever its findings |
| Guarantees.RunIsIdempotent | crates/deja-loop/src/engine.rs:268-366 | after an executed run, the same findings at the same time store nothing |
| DedupKeys.FaithfulIffNoOverlap | crates/deja-loop/src/recommendation.rs:276-286 | for any two families, all accepted findings of theirs share a key only when family, target and action agree up to case and outer whitespace, if and only if neither family is the other one, the separator and the beginning of a target |
| DedupKeys.KeysTellApart | crates/deja-loop/src/recommendation.rs:276-286 | for families that do not overlap, keys agree exactly when family, target and action do, whatever the targets contain |
| DedupKeys.SeparatorFreeFamiliesAreFaithful | crates/deja-loop/src/recommendation.rs:276-286 | families without the separator always have faithful keys |
| Verbs.NormalizeIgnores | crates/deja-loop/src/model.rs:266-270 | two texts normalize alike exactly when they have the same letters up to case between their outer whitespace |
| Verbs.WhitespaceIs | crates/deja-loop/src/model.rs:266-270 | what trimming takes off are the twenty-five code points of the Unicode White_Space property |
| DedupKeys.TwoCommandsShareAKey | crates/deja-loop/src/external.rs:166-174 | two commands whose reported ids differ by the separator and `host:b` both get a finding stamped, for different targets and under one key |
| Guarantees.RolledBackStaysDead | crates/deja-loop/src/engine.rs:1165-1188 | every grain a rolled-back recommendation created is not live in any later world |
| Provenance.RunAccounts | crates/deja-loop/src/engine.rs:882-894 | every grain a successful run adds is a recommendation it indexed, one of the two latest audit grains of one, or listed as created in the applied record of one |
| Provenance.ApplyAccounts | crates/deja-loop/src/engine.rs:1066-1130 | every grain a reviewed apply adds is the new head of an audit trail or listed as created in its applied record |
| Provenance.RollbackTakesAllBack | crates/deja-loop/src/engine.rs:1165-1188 | stated on the stores before and after the apply: once its recommendation is rolled back, at whatever later moment, every grain the apply added is dead, heads of audit trails aside |
| Provenance.RunIsTakenBack | crates/deja-loop/src/engine.rs:882-894 | every grain a run added, recommendations and their audit grains aside, is dead in every later world in which the recommendation it came with is rolled back |
| Guarantees.PreflightForetellsApply | crates/deja-loop/src/engine.rs:998-1026 | for an approved recommendation, what preflight refuses apply refuses with the same error and no write, and what it passes fails only if the batch or the reverted rollback fails |
| Authority.ReviewGoesThroughIff | crates/deja-loop/src/engine.rs:918-996 | in a good world a rejection goes through, whoever asks, exactly with the review or admin scope, a reason of 1 to 500 characters once trimmed and a pending recommendation; an approval exactly when besides the actor neither authored nor triggered it; a refused review changes nothing |
| Authority.ReviewRefusals | crates/deja-loop/src/engine.rs:929-964 | which error a refused review gets, spelled out on scopes, reason, status and actor; without the scope always the scope error |
| Authority.ReviewLeaves | crates/deja-loop/src/engine.rs:965-996 | a review that goes through adds one live audit grain that says who, why and from what to what, moves one status, and only a rejection moves strikes and cooldown of the key |
| Authority.RollbackGoesThroughIff | crates/deja-loop/src/engine.rs:1136-1172 | in a good world a rollback goes through exactly with the apply or admin scope, a reason and an applied recommendation recorded as rollbackable; retracting what was created never fails; a refused one changes nothing |
| Authority.RollbackLeaves | crates/deja-loop/src/engine.rs:1165-1190 | a rollback moves one status, kills exactly the created grains and adds one live audit grain that names the actor and the reason |
| Authority.ApplyGoesThroughIff | crates/deja-loop/src/engine.rs:1034-1130 | an apply goes through exactly with the apply or admin scope, a reason, an approved recommendation, for a destructive one the admin scope and the leave to destroy, and a proposal that can be carried out |
| Authority.ApplyRefusals | crates/deja-loop/src/engine.rs:1044-1065 | without the scope an apply is refused with the scope error, a destructive one without leave with the destructive gate, and every refusal on a check leaves the world as it was |
| Authority.BatchApplyLeaves | crates/deja-loop/src/engine.rs:1066-1130 | applying a batch leaves the store the batch leaves plus one live audit grain, one status moved and one applied record with what the batch reported |
| Authority.RevertRollsBack | crates/deja-loop/src/engine.rs:1082-1110 | applying a revert rolls the named recommendation back and then records itself |
| Authority.PreflightPassesIff | crates/deja-loop/src/engine.rs:1009-1026 | preflight passes exactly with the scope, a reason, a stored recommendation, leave for a destructive one and a proposal of an executable shape |
| Rejections.RejectionsAreSpaced | crates/deja-loop/src/engine.rs:979-992 | under a clock that never runs back, the rejection after the n-th of one key comes at least min(7 * 2^(n-1), 90) days after it, in every history and under any changes of policy |
| Rejections.RestFollowsRejections | crates/deja-loop/src/engine.rs:979-992 | strikes and cooldown of a key always equal what the history of its rejections gives |
| Rejections.BackoffIsDoubling | crates/deja-loop/src/engine.rs:986-988 | the interval is exactly seven days doubled per strike up to ninety; neither the shift bound nor the saturating product ever matters |
| Rejections.RejectedAfterRest | crates/deja-loop/src/engine.rs:495-501 | a rejection only ever hits a recommendation proposed after its key had rested |
| Rejections.CreatedByARun | crates/deja-loop/src/engine.rs:1747-1796 | every indexed recommendation survived one of the runs of the history, under that run's engine and in its world, and carries its time |
| Outcomes.OutcomesFollowTheSchedule | crates/deja-loop/src/engine.rs:1429-1480 | in every reachable world outcomes and measured checkpoints run in lockstep, none early, each judged against the stored baseline, and each measured exactly as often as the schedule lists it |
| Outcomes.NothingStaysOverdue | crates/deja-loop/src/engine.rs:1434-1470 | after an executed run every due checkpoint of every applied recommendation with a re-measurable metric is measured, the missing ones by this run against its store |
| Outcomes.OnlyTheDueIsMeasured | crates/deja-loop/src/engine.rs:1429-1480 | an executed run adds measurements only of recommendations applied at present whose metric can be re-measured, with the value measured now, for checkpoints due and not measured yet |
| Outcomes.MeasuredOnceIffListedOnce | crates/deja-loop/src/engine.rs:1434-1447 | in every reachable world no checkpoint of a recommendation is measured twice if and only if its schedule lists each measured one once |
| Outcomes.RepeatsAreMeasuredTwice | crates/deja-loop/src/engine.rs:1434-1447 | a schedule that falls due all at once is measured exactly as it stands, repeats included |
| Outcomes.ScheduleIsSorted | crates/deja-loop/src/recommendation.rs:159-171 | checkpoints are the horizons in ascending order, each as often as listed, or the one review delay |
| ApplyRollback.ApplyThenRollback | crates/deja-loop/src/engine.rs:1034-1190 | applying and rolling back a batch of ADDs both succeed and leave live exactly what was live before plus the two new audit grains |
| ApplyRollback.ApprovalsGoThrough | crates/deja-loop/src/engine.rs:929-964 | an approval goes through if and only if the recommendation is pending, scope and reason are given and the approver is neither author nor trigger |
| ApplyRollback.WholeLife | crates/deja-loop/src/engine.rs:918-1190 | from any good world a pending ADD-only recommendation can be approved, applied and rolled back, and then exactly the three audit grains have come alive |
| ApplyRollback.ReachableWholeLife | crates/deja-loop/src/engine.rs:918-1190 | in every reachable world any pending recommendation whose batch only adds can be taken through its whole life; its flags follow from its batch |
| ApplyRollback.IndexedAreStamped | crates/deja-loop/src/engine.rs:1755-1763 | in every reachable world the flags of an indexed recommendation are the ones its own batch asks for |
| ApplyRollback.AddOnlyIsRollbackable | crates/deja-loop/src/engine.rs:1755-1763 | a drafted batch the executor reads as ADDs is stamped non-destructive and rollbackable |
| AutoApplying.CuratedBatchReplaces | crates/deja-loop/src/engine.rs:863-870 | a batch whose every line passes the auto-apply check runs without error exactly when no type has a brace; then each target is superseded by a live grain made for it whose every field says what the target says, no target had an expiry and nothing else loses liveness |
| AutoApplying.RunOnlyRepeats | crates/deja-loop/src/engine.rs:836-894 | whatever a run does, failed or not: a grain that loses its liveness is superseded by a new grain every field of which means what the same field of the target means (strings up to case and outer whitespace, `namespace` against the namespace, all else exactly), and the target has no expiry; no content is rewritten |
| Curation.WrittenPassesIff | crates/deja-loop/src/engine.rs:1570-1607 | a written SUPERSEDE passes the check exactly when its target is stored without expiry and already says everything the replacement says |
| Curation.GrantIs | crates/deja-loop/src/engine.rs:836-871 | a recommendation is applied by policy exactly when it is built in, not destructive, declared structural by the first manifest of its id, aimed at memory or a query, covered by a grant of its family up to its severity with the switch on, and only restates |
| Curation.RunIndexes | crates/deja-loop/src/engine.rs:306-366 | when no batch names an address before it is minted, a run indexes every survivor once, applied exactly when the host lets it be and pending otherwise, leaves all other statuses alone, and its report counts just these |
| AutoApplying.SupersessionsReplace | crates/deja-loop/src/reference.rs:158-172 | any batch superseding grains of the starting store runs through and changes liveness of its targets and its own grains only |
| AutoApplying.BracedTypePassesTheCheck | crates/deja-loop/src/engine.rs:1570-1607 | the type `fact{` on any value-identical replacement passes the check and stops the batch |
| AutoApplying.AutoApplyFailsIff | crates/deja-loop/src/engine.rs:875-889 | an automatic apply fails exactly on a type with a brace |
| AutoApplying.RunFailsIff | crates/deja-loop/src/engine.rs:306-353 | a run fails if and only if its gate is met and it gets, without failing before, to a survivor that may be auto-applied once stored and whose batch spells a type with a brace |
| AutoApplying.RunFailsIffBraced | crates/deja-loop/src/engine.rs:306-353 | decided before the run: when no batch names an address before it is minted, a run fails if and only if its gate is met and some survivor may be auto-applied to the store as it stands and spells a type with a brace |
| FailingRun.ARunFails | crates/deja-loop/src/engine.rs:306-353 | one built-in finding, granted by the host, whose replacement of the only stored grain has the type `fact{`: the run of a fresh loop fails |
| AutoApplying.FailedRunLeavesAnOrphan | crates/deja-loop/src/engine.rs:306-353 | a failed run leaves the state as it was and the stored, unindexed grain of some survivor, whose key is occupied though no indexed recommendation holds it |
| AutoApplying.OrphanStaysForever | crates/deja-loop/src/engine.rs:306-353 | no later act of any kind indexes such a grain |
| AutoApplying.FailedRunSilencesAKey | crates/deja-loop/src/engine.rs:1879-1909 | after a failed run the key of one of its survivors never survives a run again, in any later history, on any engine, from any findings |
| Runs.SiftKeeps | crates/deja-loop/src/engine.rs:475-504 | survivors are candidates above their floor, of keys not existing and not cooling, each key once |
| Runs.SiftSees | crates/deja-loop/src/engine.rs:475-504 | every free, rested key of a candidate above its floor does survive |
| Screening.CandidatesAre | crates/deja-loop/src/engine.rs:440-474 | the candidates of a run are, in order, one for every finding that aims at a known scheme (a model draft: at memory or a query), with key, origin and flags spelled out |
| Screening.SurvivorsAre | crates/deja-loop/src/engine.rs:475-504 | the survivors are, in order, exactly the first strong enough candidate of every key that no open or unindexed recommendation occupies and that is not resting; the stricter of the file floor and the first host floor of the family decides strength |
| Screening.TargetClassIs | crates/deja-loop/src/model.rs:204-262 | memory, query, prompt and host targets are exactly those with something behind one of their schemes |
| Screening.FamilyIs | crates/deja-loop/src/manifest.rs:283-285 | the family of an id is what stands in front of its first slash |
| Screening.ConfigureSetsOneFloor | crates/deja-loop/src/engine.rs:1300-1306 | configuring sets or removes one floor and touches nothing else |
| Screening.SkippedIffNothingMet | crates/deja-loop/src/engine.rs:1829-1854 | a run is skipped, and writes nothing, exactly when something was asked of it and nothing asked is met; staleness is the reason only when it was all that was asked |
| Screening.StaleSinceLastRun | crates/deja-loop/src/engine.rs:1829-1854 | after an executed run, one that asks only to be stale is skipped exactly until that much time has passed since |
| Runs.StoreAllKeeps | crates/deja-loop/src/engine.rs:306-350 | storing survivors keeps the invariant until something fails, leaves old entries alone and gives every survivor its key |
| Reachable.ReviewKeeps | crates/deja-loop/src/engine.rs:918-996 | a review keeps the invariant and the past |
| Reachable.ApplyKeeps | crates/deja-loop/src/engine.rs:1034-1130 | an apply, including one that rolls back another recommendation, keeps the invariant and the past, also when it fails half way |
| Reachable.RollbackKeeps | crates/deja-loop/src/engine.rs:1136-1190 | a rollback keeps the invariant and the past and, when it succeeds, changes one status from applied to rolled back |
| Steps.StepKeeps | crates/deja-loop/src/recommendation.rs:366-395 | recording any legal, independent, reasoned step that names the previous head keeps the invariant and lengthens one trail |
| Steps.ProposeKeeps | crates/deja-loop/src/engine.rs:307-343 | storing a recommendation for a free, rested key keeps the invariant and adds one holder |
| Steps.MeasureKeeps | crates/deja-loop/src/engine.rs:1429-1480 | measuring keeps the invariant and changes nothing else |
| LoopEngine.Run | crates/deja-loop/src/engine.rs:270-366 | the imperative run leaves the substrate in exactly the specified world with the specified report, on success, skip and failure, and keeps the whole invariant |
| LoopEngine.Review | crates/deja-loop/src/engine.rs:918-996 | the imperative review does exactly what its specification says and keeps the whole invariant |
| LoopEngine.Apply | crates/deja-loop/src/engine.rs:1034-1130 | the imperative apply, with the nested rollback and the reload of the state, does exactly what its specification says and keeps the whole invariant, also when it fails |
| LoopEngine.Rollback | crates/deja-loop/src/engine.rs:1136-1190 | the imperative rollback does exactly what its specification says and keeps the whole invariant |
| LoopEngine.PreflightApply | crates/deja-loop/src/engine.rs:1009-1026 | reports what an apply would refuse and writes nothing |
| LoopEngine.MeasureDue | crates/deja-loop/src/engine.rs:1429-1480 | collecting the due checkpoints first and measuring them one by one gives the per-recommendation specification |
| LoopEngine.CollectExistingKeys | crates/deja-loop/src/engine.rs:1879-1909 | the scan over stored grains finds exactly the occupied keys |
| LoopEngine.SiftCandidates | crates/deja-loop/src/engine.rs:475-504 | the loop over candidates keeps exactly the specified survivors |
| LoopEngine.StampFindings | crates/deja-loop/src/engine.rs:440-456 | the loop over findings stamps the well-formed ones in order |
| LoopEngine.StoreSurvivors | crates/deja-loop/src/engine.rs:306-350 | the storing loop reaches the specified store, state and count, and stops where the specification fails |
| Substrate.ReferenceSubstrate.Insert | crates/deja-loop/src/reference.rs:60-71 | appends a record; the index stays sound if and only if a brought-along address is neither taken nor still to be minted |
| Substrate.ReferenceSubstrate.PutGrain | crates/deja-loop/src/reference.rs:153-156 | refines the store value's put |
| Substrate.ReferenceSubstrate.Supersede | crates/deja-loop/src/reference.rs:158-172 | refines the store value's supersession, replacement first |
| Substrate.ReferenceSubstrate.Retract | crates/deja-loop/src/reference.rs:174-187 | refines the store value's retraction |
| Substrate.ReferenceSubstrate.ExecuteCal | crates/deja-loop/src/reference.rs:189-242 | the line loop executes the parsed batch up to its first failing statement |
| Substrate.FailureIsFinal | crates/deja-loop/src/reference.rs:189-242 | once a statement has failed nothing after it runs |
| GrainStore.ExecKeeps | crates/deja-loop/src/reference.rs:189-242 | a batch, finished or failed, only extends the store, and the addresses it reports are new, different and present |
| GrainStore.AddsOnlyAdd | crates/deja-loop/src/reference.rs:207-217 | a batch of ADDs cannot fail and makes live exactly what it creates |
| GrainStore.SupersedeKeeps | crates/deja-loop/src/reference.rs:158-172 | a supersession fails exactly on a missing target, and adds its grain either way |
| GrainStore.RetractKeeps | crates/deja-loop/src/reference.rs:174-187 | a retraction fails exactly on a missing grain, takes its liveness, marks it retracted with the reason and leaves all other content |
| GrainStore.MintIsInjective | crates/deja-loop/src/reference.rs:73-77 | minted addresses never repeat, past eight digits too |
| CalText.WriterRoundTrip | crates/deja-loop/src/cal.rs:21-50 | the engine reads from a written SUPERSEDE the target, type and fields that were written |
| CalText.ExecutorReadsWrittenSupersede | crates/deja-loop/src/reference.rs:221-233 | the executor extracts the same three from any written line whose type has no brace, and refuses every line whose type has one |
| CalText.ReadersAgree | crates/deja-loop/src/reference.rs:274-299 | on any line the engine takes as its own, the executor reads the same replacement exactly when the target is not blank and the type has no brace and no outer whitespace; a brace makes the line unreadable |
| CalText.BracedTypeIsUnsupported | crates/deja-loop/src/reference.rs:282-299 | a written line with the type `fact{` is the engine's own and unsupported by the executor |
| CalText.WrittenStatement | crates/deja-loop/src/cal.rs:11-26 | every written ADD, SUPERSEDE and FORGET is one trimmed line, flagged destructive exactly when it is a FORGET, which the executor reads back as the same statement if and only if its type has no brace |
| CalText.WrittenBatch | crates/deja-loop/src/cal.rs:29-31 | from a joined batch of written statements the executor reads exactly those statements in order, an unsupported one for each braced type, and the batch is flagged destructive if and only if one of them is a FORGET |
| CodecWitness.LawsCanBeMet | crates/deja-loop/src/reference.rs:282-299 | the laws asked of the JSON codec hold together of some codec |
| CalText.UnflaggedNeverForgets | crates/deja-loop/src/cal.rs:64-78 | a batch not flagged destructive never reaches the executor's FORGET arm, whatever its text |
| CalText.AddOnlyIsNotDestructive | crates/deja-loop/src/cal.rs:64-78 | a batch the executor reads as ADDs and reads is never flagged |
| Verbs.FirstWordDecides | crates/deja-loop/src/reference.rs:189-242 | the word up to the first whitespace, in any mix of cases, decides what the executor makes of a line |
| Verbs.FlaggedIff | crates/deja-loop/src/cal.rs:64-78 | a line is flagged exactly when the word behind its leading whitespace spells FORGET or PURGE |
| Verbs.FirstLine | crates/deja-loop/src/reference.rs:189-195 | a batch is cut at line feeds, a carriage return in front of one belonging to the line end |
| Verbs.ForgetEndsLiveness | crates/deja-loop/src/reference.rs:189-242 | a FORGET never fails, ends the liveness of its grain if there is one, and changes nothing else of any grain |
| Verbs.RetractNotesWhy | crates/deja-loop/src/reference.rs:174-187 | a RETRACT ends the liveness of a stored grain, notes that and why, and changes nothing else; of any other address it stops the batch |
| Verbs.OthersChangeNothing | crates/deja-loop/src/reference.rs:232-239 | a read leaves the batch as it is, an unreadable line stops it and leaves the store |
| Verbs.NewGrainIs | crates/deja-loop/src/reference.rs:84-102 | what an ADD or SUPERSEDE stores has the type and fields spelled, the namespace and expiry its fields name, and is live |
| Verbs.SupersedeMarksTarget | crates/deja-loop/src/reference.rs:158-172 | a SUPERSEDE marks its stored target with the address of the replacement and touches no other grain |
| Verbs.RecFieldsSay | crates/deja-loop/src/recommendation.rs:428-445 | a stored recommendation carries its key and its body without the fields that are never serialized |
| Verbs.MintReads | crates/deja-loop/src/reference.rs:73-77 | an address is `ref-` and at least eight digits that read back to the counter |
| Verbs.AuditFieldsTellApart | crates/deja-loop/src/recommendation.rs:366-395 | audit records with the same stored fields are the same record |
| Assemble.Execute | crates/dejadb-cal/src/assemble.rs:201-300 | the assembled grains, per-source reports and totals are those of the specified dedup, cap, shares and greedy trim |
| Assemble.DedupKeepsFirstCopies | crates/dejadb-cal/src/assemble.rs:398-472 | whatever the labels, the first source of a label gets back exactly the first copies of their value, in (rank, source, position) order, of all sources of that label, in that order; later sources of the label get nothing |
| Assemble.OwnLabelKeepsFirstCopies | crates/dejadb-cal/src/assemble.rs:398-472 | with distinct labels each source gets back exactly its own first copies in its own order |
| PriorityRank.DedupByWeight | crates/dejadb-cal/src/assemble.rs:398-472 | on weights: the first source of a label gets exactly the grains with no copy of the same text under a label the clause prefers, or at an earlier place under one preferred neither way; later sources of the label get nothing |
| PriorityRank.RankFollowsWeights | crates/dejadb-cal/src/assemble.rs:407-419 | one label ranks before another exactly when only it is named, or both are and its lowest entry weighs more, or the same and is listed first |
| Assemble.DedupByHashFieldIsDedupByHash | crates/dejadb-cal/src/assemble.rs:475-490 | dedup by the address field without priorities equals the single-pass default |
| Assemble.DedupByHash | crates/dejadb-cal/src/assemble.rs:475-490 | the single pass keeps exactly the grains whose address has no earlier place |
| Assemble.CapBound | crates/dejadb-cal/src/assemble.rs:520-544 | over k non-empty sources the retained count lies between the cap and cap + k - 1, or is k at a cap of zero, and no non-empty source is emptied |
| Assemble.KeepLenFits | crates/dejadb-cal/src/assemble.rs:498-512 | the kept part is the longest fitting prefix, apart from the one-grain floor |
| Assemble.BudgetConservation | crates/dejadb-cal/src/assemble.rs:252-290 | tokens used plus budget left equal the budget plus the excesses, at every source |
| Assemble.ExceedsIff | crates/dejadb-cal/src/assemble.rs:252-290 | a source goes over what is left exactly when its first grain alone is larger than that, and then it keeps that grain only |
| Assemble.WithinBudgetIff | crates/dejadb-cal/src/assemble.rs:252-290 | the total stays within the budget if and only if every source's first grain fits what is left when its turn comes |
| Assemble.OversizedGrainExceeds | crates/dejadb-cal/src/assemble.rs:498-512 | for any budget, an assembly of one grain a token larger uses a token more than the budget |
| AssembleLabels.AssemblyLosesNothingIff | crates/dejadb-cal/src/assemble.rs:201-290 | for any sources, labels, dedup, priorities and budget, a source's kept grains followed by its omitted ones are its deduped grains if and only if nothing capped is dropped: behind another source of its label it has no tail, and ahead of all others none of them has one |
| AssembleLabels.NothingLostIff | crates/dejadb-cal/src/assemble.rs:209-288 | the same for any disjoint sources, any cap and any shares |
| AssembleLabels.AssemblyLosesNothing | crates/dejadb-cal/src/assemble.rs:201-290 | with dedup by a field, or with distinct labels, every deduped grain of every source is kept or reported as omitted, in order |
| AssembleLabels.SharedLabelLosesTails | crates/dejadb-cal/src/assemble.rs:520-544 | under the default dedup and the real cap, two of three thousand-row sources with one label both lose grains |
| Assemble.AllocateBudget | crates/dejadb-cal/src/assemble.rs:564-606 | shares are the rounded weights times the budget, the last entry of a repeated label winning |
| Assemble.SharesNearBudget | crates/dejadb-cal/src/assemble.rs:564-627 | without priorities or with any non-negative weights, the shares add up to the budget give or take half a token per source |
| PriorityRank.LargerWeightLargerShare | crates/dejadb-cal/src/assemble.rs:564-606 | under a clause that weighs anything, the larger weight never gets the smaller share |
| PriorityRank.ShareIsProportional | crates/dejadb-cal/src/assemble.rs:564-606 | under non-negative weights each share is within half a token of the weight over the total weight of the budget |
| PriorityRank.DefaultWeightsFall | crates/dejadb-cal/src/assemble.rs:608-627 | without a clause earlier sources weigh more, from five sources on by the factor of three fifths |
| PriorityRank.ThousandTokens | crates/dejadb-cal/src/assemble.rs:608-627 | the default split of a thousand tokens among one to four sources |
| Assemble.ReportAddsUp | crates/dejadb-cal/src/assemble.rs:252-300 | the totals are the sums of the per-source reports |
| Assemble.OfferedShare | crates/dejadb-cal/src/assemble.rs:255-264 | a source with a share is offered the share or what is left, whichever is less |
| Calendar.CivilSuccessor | crates/dejadb-cal/src/humanize.rs:100-118 | one more day is the calendar's next day, for every day count |
| Calendar.EpochDayIsFirstOfJanuary1970 | crates/dejadb-cal/src/humanize.rs:100-118 | day zero is 1970-01-01 |
| Calendar.CivilIsValid | crates/dejadb-cal/src/humanize.rs:100-118 | every day count gives a date the month lengths and the leap rule allow |
| Calendar.CivilStrictlyIncreasing | crates/dejadb-cal/src/humanize.rs:100-118 | later days give later dates |
| Calendar.EpochDayExact | crates/dejadb-cal/src/humanize.rs:100-102 | the day of an instant is right exactly from 1970 on and at earlier midnights |
| Calendar.DayCountWraps | crates/dejadb-cal/src/humanize.rs:100-102 | the day count is a signed 32-bit number and starts over after 2^32 days |
| Calendar.SameDateStringIffSameDay | crates/dejadb-cal/src/humanize.rs:100-118 | from 1970 on two instants print the same date exactly when they share a day |
| Calendar.DateReads | crates/dejadb-cal/src/humanize.rs:100-118 | every valid date reads back from its text: two digits each for month and day, at least four characters for the year, its sign among them, ten characters in all from year -999 to 9999 |
| Calendar.EpochDateReads | crates/dejadb-cal/src/humanize.rs:100-118 | from 1970 to 9999 the printed date of an instant reads as the calendar date of its day |
| Calendar.AgeReads | crates/dejadb-cal/src/humanize.rs:62-93 | each label names the whole minutes, hours, days or weeks of the age, and which unit it is follows from the age alone |
| Calendar.SameLabelIffSameAge | crates/dejadb-cal/src/humanize.rs:62-93 | two instants under a month old share a label exactly when they are equally many whole units old |
| JsonNesting.ScanDecidesNesting | crates/dejadb-cal/src/json.rs:75-110 | the scan passes a JSON text exactly when its containers nest at most eight deep; otherwise it reports nine; the saturating decrement never saturates |
| JsonNesting.ValidateNestingDepth | crates/dejadb-cal/src/json.rs:75-110 | the byte loop with its early exit computes the scan |
| JsonNesting.InsideString | crates/dejadb-cal/src/json.rs:80-92 | nothing inside a quoted string, escapes included, moves the scan |
| Recall.ExpandHops | crates/dejadb-cal/src/dejadb_facade.rs:1144-1196 | the loops give the specified expansion: the first pass plus what the expanded entities brought, each expanded once, named by a seed or an added grain and reachable in fewer than n steps, within max(initial, budget + 15) |
| Recall.ExpansionIsComplete | crates/dejadb-cal/src/dejadb_facade.rs:1155-1192 | short of the budget, when the seeds name all the first pass names, every entity fewer than n edges away is expanded |
| Recall.CompleteIffSeedsNameAll | crates/dejadb-cal/src/dejadb_facade.rs:1155-1192 | on every store and for every k the expansion misses nothing within reach if and only if it makes one hop at most, the seeds name nothing, or they name all the first pass names |
| Recall.EdgesAre | crates/dejadb-cal/src/dejadb_facade.rs:1155-1192 | what is in reach: the non-empty subjects and objects of the seeds, and those of whatever either leg returns for an entity in reach |
| Recall.SeedsAreEight | crates/dejadb-cal/src/dejadb_facade.rs:1155-1172 | the walk starts from exactly the entities the first eight grains name |
| Recall.ForwardLegFirst | crates/dejadb-cal/src/dejadb_facade.rs:1155-1192 | what an expanded entity brings is appended in order, the forward leg first |
| Recall.NinthGrainIsMissed | crates/dejadb-cal/src/dejadb_facade.rs:1155-1172 | nine first-pass grains whose ninth names an entity one edge away that no expansion of two or more hops reaches |
| Recall.PoolMembers | crates/dejadb-cal/src/dejadb_facade.rs:1144-1196 | the first pass stays an unchanged prefix, no address repeats, and each added grain is a leg of an expanded entity |
| Recall.OneHitPerKey | crates/dejadb-cal/src/dejadb_facade.rs:1276-1311 | exactly the newest hit by (created, address) stays per key, and every hit without a key |
| Recall.NewestHitStays | crates/dejadb-cal/src/dejadb_facade.rs:1276-1311 | of hits that share subject and relation one stays exactly when no other was created later, or at the same time with a larger address; a missing time counts as zero |
| Recall.ResolvingIsIdempotent | crates/dejadb-cal/src/dejadb_facade.rs:1276-1311 | resolving twice is resolving once |
| Recall.ResolveConflicts | crates/dejadb-cal/src/dejadb_facade.rs:1276-1311 | the two passes over the table keep exactly the hits that stay, in order |

## Left out

- Analyzers, the model-backed stages (DISCOVER, GROUND, VERIFY, ENRICH) and external commands: their output is an
  arbitrary list of findings, so which analyzers are enabled, denied or lack a capability is part of that input. The
  final routing of model drafts looks up a verdict only; nothing about grounding is claimed.
- Telemetry, health, listing and metrics reports, forks and capabilities: reads and counts that would only add easy
  members.
- The counts the run gate compares (`new_grains`, `new_error_events`) are inputs of a run, not counted from the store.
- The typed re-measurement of a metric is a function parameter of the engine.
- JSON is read and written through an assumed pair of functions (`CalText.Codec`) with four laws: what is written
  reads back to the same entries, is one trimmed line starting with `{`, an object starts with `{`, and an object behind
  a text that opens a brace is no object. `CodecWitness.LawsCanBeMet` shows that they can hold together. JSON numbers
  are integers or binary fractions in lowest terms, of any size. A grain's typed readings as a recommendation or an
  audit record travel with its fields; CAL text that happens to spell such a record reads back to whatever the codec
  says.
- Case folding in `Text.Normalize` is ASCII, where the source folds all of Unicode; whitespace is the Unicode property.
- Times are unbounded integers: adding a cooldown to the clock does not wrap. The address counter does not wrap either.
- Measurements are real numbers; rounding of 64-bit floats is not modelled.
- CalText.WrittenBatch: addresses and grain types are free of whitespace; CalText.ReadersAgree has any SUPERSEDE line.
- Analyzer parameters, namespaces and enabling in the file configuration, and the scope and manifest checks of changing
  it; only severity floors are kept, changed freely.
- Substrates other than the reference one, storage faults and crashes in the middle of an operation.
- Substrate.ReferenceSubstrate.Insert: the invariants start from stores without colliding addresses; a record inserted
  under a taken or future address leaves the index unsound, as the contract states, and is followed no further.
- Assemble.SharesNearBudget: weights are exact reals and token sums do not overflow; the source computes with
  64-bit floats and 32-bit counters.
- Assemble.CapBound: the proportion is exact ceiling division, the source multiplies 64-bit floats.
- Calendar.SameDateStringIffSameDay: holds up to the last day whose shifted count fits 32 bits; beyond it the source's
  arithmetic overflows, which is not modelled.
- Recall.ExpandHops: the two legs are arbitrary functions within their fan-out; the length bound assumes that and
  nothing else does.
- Assembly's fetching of sources, warnings, the overflow sample and the printed estimate of a grain's size.
- The lexer, parser, executor and stores of the database itself, the facade's other filters, bindings and tools.
