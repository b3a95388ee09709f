# Empire game server: a verified model of its decision logic

This project models the in-process rules of a multiplayer strategy-game
server in Dafny. The database is replaced by in-memory tables: classes whose
`map` or `seq` fields the operations reassign. The server's own code is
written in Rust. The modules follow the source's structure. Most stand for
one source file, sometimes together with the record or table that file works
on: `Players` holds both the player record and the player table. `Buffers`
stands for two files, src/net/buffer.rs and crates/rpc/src/buffer.rs, which
behave the same; the second writes integers with `to_le_bytes` instead of a
transmute. `Bytes`, `Text`, `Wrappers` and `DbErrors` hold definitions that
several modules share. Each module proves what its code and tests promise.
The groups are:

- **Modifier aggregation.** Two generations are modelled.
  - The current `apply_stacking_rules` computes
    `(1 + Σ additive) · Π (1 + multiplicative) · Π (1 + highest per group)`
    and clamps the result to [0.5, 3].
  - The older service groups modifiers by stacking group, multiplies
    `1 + Σ` per group, and keeps a memo cache with a nearest-expiry time.
  - Decimal magnitudes are modelled as exact reals.
- **Job queue and schedulers.** The jobs table is a state machine:
  - enqueue creates a Pending row;
  - a claim atomically takes the eligible row with the lowest priority value and locks it;
  - complete and fail are terminal and unlock the row.
  - The modifier and production schedulers are enqueue rules on top of the queue.
- **Resources.** Collection moves `min(accumulated, cap − stored)` per
  resource into storage. Production rates are base rates times multipliers.
  Every production run schedules the next one.
- **Unit training.** The model covers:
  - the validation order;
  - the deduction of `amount × quantity`;
  - the queue limit of five active entries per building;
  - idempotent completion;
  - the cancellation guards;
  - the handler's affordability arithmetic and queue view.
- **Buildings.** The model covers:
  - availability locks;
  - construction, upgrade and confirmation, in both the current and the older generation;
  - the table primitives those operations use.
- **Sessions.** A session is created for 30 days. Validation:
  - fails when the session is missing;
  - deletes the session and fails when it has expired;
  - extends the session when fewer than 15 days are left.
- **Players.** Payload validation produces a changeset. Production is
  scheduled exactly when a player leaves the Neutral faction.
- **Validators and codecs:**
  - the user-name validator;
  - the byte buffer;
  - the packet encoder and decoder;
  - the UDP client's command and host strings;
  - the enum ⇄ SQL-string codecs;
  - the uptime text;
  - the start-up hydration of the faction and building tables.

The following are parameters of the model:
- clocks, as `now: int` seconds;
- database failures, as fault flags or `Result` inputs;
- hashing and token encoding, as opaque functions;
- grapheme counting, as an abstract length;
- queries whose definitions are not in the repository's shown files, as their results.

## Model

| member | source | states |
|---|---|---|
| ActionTypeCodec.ModifierActionTypeFromSql | src/domain/modifier_history.rs:56-64 | exactly the four spellings `to_sql` writes decode, each to the variant that writes it; any other text is an error |
| ActionTypeCodec.ModifierActionTypeRoundTrip | src/domain/modifier_history.rs:44-64 | `from_sql(to_sql(v)) == v` for every action type |
| ActionTypeCodec.ModifierActionTypeSpellingsDistinct | src/domain/modifier_history.rs:44-52 | no two action types are written with the same text |
| FactionCodec.FactionCodeFromSql | src/domain/factions.rs:59-72 | exactly the six faction spellings decode, each to its variant; any other text is an error quoting it |
| FactionCodec.FactionCodeRoundTrip | src/domain/factions.rs:45-72 | `from_sql(to_sql(f)) == f` for every faction code |
| FactionCodec.FactionCodeSpellingsDistinct | src/domain/factions.rs:45-55 | no two faction codes are written with the same text |
| ResourceTypeCodec.ResourceTypeFromSql | src/domain/player/resource.rs:54-66 | exactly the five resource spellings decode, each to its variant; any other text is an error quoting it |
| ResourceTypeCodec.ResourceTypeRoundTrip | src/domain/player/resource.rs:41-66 | `from_sql(to_sql(r)) == r` for every resource type |
| ResourceTypeCodec.ResourceTypeSpellingsDistinct | src/domain/player/resource.rs:41-50 | no two resource types are written with the same text |
| UnitTypeCodec.UnitTypeFromSql | src/domain/unit/mod.rs:63-75 | exactly the five unit spellings decode, each to its variant; any other text is an error quoting it |
| UnitTypeCodec.UnitTypeRoundTrip | src/domain/unit/mod.rs:50-75 | `from_sql(to_sql(u)) == u` for every unit type |
| UnitTypeCodec.UnitTypeSpellingsDistinct | src/domain/unit/mod.rs:50-59 | no two unit types are written with the same text |
| SourceTypeCodec.ModifierSourceTypeFromSql | src/domain/modifier/active_modifier.rs:60-72 | exactly the five source spellings decode, each to its variant; any other text is an error quoting it |
| SourceTypeCodec.ModifierSourceTypeRoundTrip | src/domain/modifier/active_modifier.rs:47-72 | `from_sql(to_sql(s)) == s` for every modifier source type |
| SourceTypeCodec.ModifierSourceTypeSpellingsDistinct | src/domain/modifier/active_modifier.rs:47-56 | no two modifier source types are written with the same text |
| TrainingStatusCodec.TrainingStatusToSql | src/domain/unit/training.rs:61-64 | each status is written as its own snake_case spelling, and each spelling belongs to exactly one status |
| TrainingStatusCodec.TrainingStatusFromSql | src/domain/unit/training.rs:68-76 | `from_sql` inverts `as_ref` on the four names and rejects every other text |
| TrainingStatusCodec.TrainingStatusRoundTrip | src/domain/unit/training.rs:50-76 | `from_sql(to_sql(s)) == s` for every training status |
| TrainingStatusCodec.TrainingStatusSpellingsDistinct | src/domain/unit/training.rs:50-57 | no two training statuses share an `as_ref` name |
| JobCodecs.JobTypeFromSql | src/domain/jobs.rs:57-67 | exactly the three job type spellings decode, each to its variant; any other text is an error quoting it |
| JobCodecs.JobTypeRoundTrip | src/domain/jobs.rs:46-67 | `from_sql(to_sql(t)) == t` for every job type |
| JobCodecs.JobTypeSpellingsDistinct | src/domain/jobs.rs:46-53 | no two job types are written with the same text |
| JobCodecs.JobStatusFromSql | src/domain/jobs.rs:114-126 | exactly the five job status spellings decode, each to its variant; any other text is an error quoting it |
| JobCodecs.JobStatusRoundTrip | src/domain/jobs.rs:101-126 | `from_sql(to_sql(s)) == s` for every job status |
| JobCodecs.JobStatusSpellingsDistinct | src/domain/jobs.rs:101-110 | no two job statuses are written with the same text |
| LegacyJobCodecs.JobTypeFromSql | src/domain/job.rs:50-60 | the older job types: exactly the three spellings decode, each to its variant; any other text is an error |
| LegacyJobCodecs.JobTypeRoundTrip | src/domain/job.rs:39-60 | `from_sql(to_sql(t)) == t` for every older job type |
| LegacyJobCodecs.JobTypeSpellingsDistinct | src/domain/job.rs:39-46 | no two older job types are written with the same text |
| LegacyJobCodecs.JobStatusFromSql | src/domain/job.rs:101-113 | the older job statuses: exactly the five spellings decode, each to its variant; any other text is an error |
| LegacyJobCodecs.JobStatusRoundTrip | src/domain/job.rs:88-113 | `from_sql(to_sql(s)) == s` for every older job status |
| LegacyJobCodecs.JobStatusSpellingsDistinct | src/domain/job.rs:88-97 | no two older job statuses are written with the same text |
| LegacyModifierCodecs.ModifierTypeFromSql | src/domain/modifier.rs:42-49 | exactly the three older modifier type spellings decode, each to its variant; anything else is an error |
| LegacyModifierCodecs.ModifierTypeRoundTrip | src/domain/modifier.rs:31-49 | `from_sql(to_sql(t)) == t` for every older modifier type |
| LegacyModifierCodecs.ModifierTypeSpellingsDistinct | src/domain/modifier.rs:31-38 | no two older modifier types are written with the same text |
| LegacyModifierCodecs.ModTargetTypeFromSql | src/domain/modifier.rs:88-96 | exactly the four target type spellings decode, each to its variant; anything else is an error |
| LegacyModifierCodecs.ModTargetTypeRoundTrip | src/domain/modifier.rs:76-96 | `from_sql(to_sql(t)) == t` for every target type |
| LegacyModifierCodecs.ModTargetTypeSpellingsDistinct | src/domain/modifier.rs:76-84 | no two target types are written with the same text |
| ModifierCodecs.ModifierTypeFromSql | src/domain/modifier/mod.rs:60-70 | exactly "percentage", "flat" and "multiplier" decode, each to its variant; any other text is an error quoting it |
| ModifierCodecs.ModifierTypeRoundTrip | src/domain/modifier/mod.rs:49-70 | `from_sql(to_sql(t)) == t` for every modifier type |
| ModifierCodecs.ModifierTypeSpellingsDistinct | src/domain/modifier/mod.rs:49-56 | no two modifier types are written with the same text |
| ModifierCodecs.ModifierTargetFromSql | src/domain/modifier/mod.rs:111-122 | exactly "resource", "combat", "training" and "research" decode, each to its variant; any other text is an error |
| ModifierCodecs.ModifierTargetRoundTrip | src/domain/modifier/mod.rs:99-122 | `from_sql(to_sql(t)) == t` for every modifier target |
| ModifierCodecs.ModifierTargetSpellingsDistinct | src/domain/modifier/mod.rs:99-107 | no two modifier targets are written with the same text |
| ModifierCodecs.StackingBehaviourFromSql | src/domain/modifier/mod.rs:159-169 | exactly the three stacking spellings (HighestOnly as "highest") decode, each to its variant; anything else is an error |
| ModifierCodecs.StackingBehaviourRoundTrip | src/domain/modifier/mod.rs:148-169 | `from_sql(to_sql(b)) == b` for every stacking behaviour |
| ModifierCodecs.StackingBehaviourSpellingsDistinct | src/domain/modifier/mod.rs:148-155 | no two stacking behaviours are written with the same text |
| FullModifiers.GetStackingGroup | src/domain/modifier/full_modifier.rs:60-66 | the derived group is the source's and the target's database spellings joined by an underscore |
| FullModifiers.LowerDisplayIsSpelling | src/domain/modifier/full_modifier.rs:60-66 | lower-casing the `Display` name of a source type or target gives its database spelling |
| FullModifiers.IntoFull | src/domain/modifier/full_modifier.rs:70-90 | the merged record carries the activation (with `modifier_id` the definition's id) and the definition field for field: both are recovered from it |
| ModifierOperations.Matching | src/game/modifiers/modifier_operations.rs:100-103 | a modifier is kept exactly when it is among the player's modifiers and both its target type and target resource equal the query |
| ModifierOperations.MatchingAppend | src/game/modifiers/modifier_operations.rs:100-103 | the filter keeps the player's order: one more modifier is appended to the result exactly when it matches |
| ModifierOperations.CalcMultiplier | src/game/modifiers/modifier_operations.rs:93-106 | the multiplier always lies in [0.5, 3] |
| ModifierOperations.NonMatchingIgnored | src/game/modifiers/modifier_operations.rs:100-105 | a modifier aimed at another target or resource never changes the multiplier |
| ModifierOperations.GroupKey | src/game/modifiers/modifier_operations.rs:136-140 | the highest-only group key is the explicit stacking group when present, otherwise the derived `source_target` group |
| ModifierOperations.MaxOf | src/game/modifiers/modifier_operations.rs:153-160 | the group value bounds every magnitude of the group and is one of them |
| ModifierOperations.ApplyStackingRules | src/game/modifiers/modifier_operations.rs:116-177 | 1 for no modifiers; otherwise `(1 + Σ additive) × multiplicative total` when that lies in [0.5, 3], else the nearer bound |
| ModifierOperations.AdditiveContribution | src/game/modifiers/modifier_operations.rs:146-173 | an additive modifier leaves the multiplicative total alone and adds its magnitude times that total to the raw value |
| ModifierOperations.MultiplicativeFactor | src/game/modifiers/modifier_operations.rs:164-170 | a multiplicative modifier multiplies the raw value by (1 + magnitude) |
| ModifierOperations.GroupKeysFromMembers | src/game/modifiers/modifier_operations.rs:131-143 | every highest-only group is keyed by some highest-only modifier of the input |
| ModifierOperations.NewGroupFactor | src/game/modifiers/modifier_operations.rs:151-170 | a highest-only modifier opening a new group multiplies the raw value by (1 + magnitude) |
| ModifierOperations.MemberInItsGroup | src/game/modifiers/modifier_operations.rs:135-141 | every highest-only magnitude lands in the group of its key |
| ModifierOperations.MaxOfDominated | src/game/modifiers/modifier_operations.rs:153-160 | a member no larger than one already present leaves the group's maximum unchanged |
| ModifierOperations.PartitionedUnique | src/game/modifiers/modifier_operations.rs:129-140 | the partition holds at most one group per key, as the map it models does |
| ModifierOperations.DominatedMemberIgnored | src/game/modifiers/modifier_operations.rs:151-167 | adding a highest-only modifier no larger than a member of its group changes neither the raw value nor the result |
| ModifierOperations.AdditiveExample | src/game/modifiers/modifier_operations.rs:29-33 | +10% and +20% additive give 1.3 |
| ModifierOperations.ProductExample | src/game/modifiers/modifier_operations.rs:36-40 | (1 + 0.1) × (1 + 0.2) = 1.32 |
| ModifierOperations.MultiplicativeExample | src/game/modifiers/modifier_operations.rs:36-40 | +10% and +20% multiplicative give 1.32 |
| ModifierService.Resolve | src/game/modifiers/modifier_service.rs:143-147 | every activation's definition is looked up in order; the result succeeds exactly when all of them exist, and then holds each definition at its activation's position |
| ModifierService.Selected | src/game/modifiers/modifier_service.rs:148-154 | a definition survives exactly when its target type and target resource both equal the query |
| ModifierService.CalculateTotalMultiplier | src/game/modifiers/modifier_service.rs:131-171 | the loops compute the reference total: a missing definition fails the call, otherwise the product over stacking groups of (1 + Σ magnitudes) |
| ModifierService.MultiplyGroups | src/game/modifiers/modifier_service.rs:163-168 | the final loop's running product equals the product of the group values |
| ModifierService.ResolveErrorSticks | src/game/modifiers/modifier_service.rs:144-146 | once a lookup fails, the whole call fails with that error, whatever comes after (the `?` inside the loop) |
| ModifierService.InsertKeys | src/game/modifiers/modifier_service.rs:156-159 | after one `entry().or_default().push()` every group key is the inserted modifier's or an existing one |
| ModifierService.GroupedWellFormed | src/game/modifiers/modifier_service.rs:141-160 | the grouping has one group per stacking group, and each group holds only input modifiers of its key |
| ModifierService.GroupedKeysFromInput | src/game/modifiers/modifier_service.rs:156-159 | a key that no input modifier uses names no group |
| ModifierService.NoMatchesGiveOne | src/game/modifiers/modifier_service.rs:149-170 | when every definition exists and none aims at the query, the total is exactly 1 |
| ModifierService.NonMatchingSkipped | src/game/modifiers/modifier_service.rs:149-154 | a definition aimed elsewhere is skipped and leaves the selection unchanged |
| ModifierService.NewGroupMultiplies | src/game/modifiers/modifier_service.rs:156-195 | a modifier whose stacking group is new multiplies the total by its own factor 1 + magnitude |
| ModifierService.OneGroup | src/game/modifiers/modifier_service.rs:165-195 | modifiers sharing one stacking group form one group worth 1 + the sum of their magnitudes |
| ModifierService.NearestExpiration | src/game/modifiers/modifier_service.rs:174-186 | None exactly when no activation has an expiry; otherwise the earliest expiry among them, over all of the user's activations whatever the target |
| ModifierService.UserActives | src/game/modifiers/modifier_service.rs:91-94 | one user's activations are exactly those whose owner is that user |
| ModifierService.NewRow | src/game/modifiers/modifier_service.rs:47 | the stored activation keeps the user, the definition and the expiry it was created with, and starts at the given start or else at the insert time |
| ModifierService.Service.constructor | src/game/modifiers/modifier_service.rs:27-41 | a service over the given tables, cache and scheduler |
| ModifierService.Service.GetTotalMultiplier | src/game/modifiers/modifier_service.rs:97-128 | a cache hit returns the stored value and changes nothing; a miss computes the total and stores it with the nearest expiry; a failed lookup stores nothing |
| ModifierService.Service.Refresh | src/game/modifiers/modifier_service.rs:59-74 | the cache entry is dropped, the total recomputed, and stored with the activation's expiry unless the computation failed |
| ModifierService.InsertFailure | src/game/modifiers/modifier_service.rs:47 | the insert succeeds exactly when no database error occurs, the expiry is not before the start (a missing start is the insert time) and the definition exists |
| ModifierService.Service.ApplyModifier | src/game/modifiers/modifier_service.rs:44-88 | a refused insert (expiry before start, unknown definition, database error) returns that error and changes nothing; otherwise the activation is stored first under the next key, with a missing start taken as now; the target's cache entry is refreshed; an expiry job is enqueued exactly when the activation expires, and a failed enqueue is an error after the cache update |
| JobQueue.PriorityValue | src/job_queue/mod.rs:16-20 | the stored priority is 0, 50 or 100 |
| JobQueue.PriorityOrder | src/job_queue/mod.rs:16-20 | High is served before Normal, Normal before Low, and distinct priorities store distinct values |
| JobQueue.NewJobRow | src/job_queue/mod.rs:45-54 | an enqueued row is Pending, unlocked, without error, with 3 retries, a 300-second timeout and the priority's value |
| JobQueue.Claimed | src/job_queue/mod.rs:83-90 | a claim sets InProgress, `locked_at` and `locked_by`, and nothing else |
| JobQueue.MarkCompleted | src/job_queue/mod.rs:103-109 | completion sets Completed and clears the lock, and nothing else |
| JobQueue.MarkFailed | src/job_queue/mod.rs:118-126 | failure sets Failed, records the message and clears the lock, and nothing else |
| JobQueue.FinishedNotEligible | src/job_queue/mod.rs:71-126 | a claimed, completed or failed job is never claimable again: failure is final |
| JobQueue.NewJobEligibleWhenDue | src/job_queue/mod.rs:45-74 | a new job becomes claimable exactly when its run time is at most one second ahead |
| JobQueue.SelectNext | src/job_queue/mod.rs:71-79 | None exactly when no row is Pending, unlocked and due; otherwise such a row with the smallest priority value |
| JobQueue.JobTable.constructor | src/job_queue/mod.rs:29-32 | a queue over the given jobs table |
| JobQueue.JobTable.Enqueue | src/job_queue/mod.rs:35-62 | a new row under a fresh key, returning the key; a failed insert is an error and changes nothing |
| JobQueue.JobTable.GetNextJob | src/job_queue/mod.rs:65-97 | the selected row is returned as read and claimed for the worker at `now`; with nothing eligible the table is unchanged |
| JobQueue.JobTable.CompleteJob | src/job_queue/mod.rs:100-112 | the keyed row is marked completed; an unknown key changes nothing |
| JobQueue.JobTable.FailJob | src/job_queue/mod.rs:115-129 | the keyed row is marked failed with the message; an unknown key changes nothing |
| ModifierScheduler.FirstFault | src/game/modifiers/modifier_scheduler.rs:101-104 | the index of the first failing enqueue: every earlier one succeeds |
| ModifierScheduler.FirstFaultAt | src/game/modifiers/modifier_scheduler.rs:101-104 | the first failure is the one every earlier enqueue succeeded before |
| ModifierScheduler.FirstFaultNone | src/game/modifiers/modifier_scheduler.rs:101-106 | with no failure the whole batch runs |
| ModifierScheduler.Scheduler.constructor | src/game/modifiers/modifier_scheduler.rs:33-35 | a scheduler over the given queue |
| ModifierScheduler.Scheduler.ScheduleExpiration | src/game/modifiers/modifier_scheduler.rs:38-52 | one Normal-priority ExpireModifier job due at the expiry; a failed enqueue passes its error on and changes nothing |
| ModifierScheduler.Scheduler.ScheduleResourceRecalculation | src/game/modifiers/modifier_scheduler.rs:55-73 | one High-priority RecalculateResources job due now |
| ModifierScheduler.Scheduler.ScheduleCacheUpdate | src/game/modifiers/modifier_scheduler.rs:76-91 | one Low-priority UpdateModifierCache job at the given run time |
| ModifierScheduler.Scheduler.ScheduleBatchCacheUpdate | src/game/modifiers/modifier_scheduler.rs:94-107 | one job per user in input order, keys returned in that order, each key new to the table and none repeated; the first failure ends the batch with its error and the jobs already enqueued, under fresh distinct keys, stay |
| ModifierScheduler.ExtendWithFreshKeys | src/game/modifiers/modifier_scheduler.rs:101-104 | a batch under fresh distinct keys overwrites no earlier job, and the i-th key holds the cache-update job for the i-th user |
| ResourceScheduler.MapRequests | src/game/resources/resource_scheduler.rs:51-59 | one ProduceResources request per player, in order |
| ResourceScheduler.DropNull | src/game/resources/resource_scheduler.rs:60 | exactly the requests whose payload is not Null are kept |
| ResourceScheduler.DropNullKeepsAll | src/game/resources/resource_scheduler.rs:57-60 | when no payload is Null the filter keeps the list as it is |
| ResourceScheduler.BatchRequestsOnePerPlayer | src/game/resources/resource_scheduler.rs:46-63 | every player gets exactly one Resource request at Normal priority due at `produce_at`, in input order |
| ResourceScheduler.ProductionScheduler.constructor | src/game/resources/resource_scheduler.rs:32-36 | a scheduler over the given queue |
| ResourceScheduler.ProductionScheduler.ScheduleProduction | src/game/resources/resource_scheduler.rs:73-96 | one Normal-priority ProduceResources job due at `produce_at`; an error passes through and changes nothing |
| ResourceOperations.Collectible | src/game/resources/resource_operations.rs:39-42 | the amount moved is the smaller of what was accumulated and the room left under the cap: never more than either, and equal to one of them |
| ResourceOperations.Drained | src/game/resources/resource_operations.rs:60-67 | the accumulator keeps its owner and loses exactly the collected amount of each resource |
| ResourceOperations.Filled | src/game/resources/resource_operations.rs:70-79 | the stored amounts grow by exactly the collected amounts; owner and caps are unchanged |
| ResourceOperations.CollectConserves | src/game/resources/resource_operations.rs:56-79 | collection only moves resources: stored plus accumulated is the same before and after, per resource |
| ResourceOperations.CollectKeepsBounds | src/game/resources/resource_operations.rs:39-42 | a row within its caps stays within them after collection, and a non-negative accumulator stays non-negative |
| ResourceOperations.CollectIsMaximal | src/game/resources/resource_operations.rs:39-42 | after collection each resource is either at its cap or fully drained from the accumulator |
| ResourceOperations.ResourceTables.constructor | src/game/resources/resource_operations.rs:27-81 | the two tables collection reads and writes, as given |
| ResourceOperations.ResourceTables.CollectResources | src/game/resources/resource_operations.rs:27-81 | a player without both rows gets NotFound and nothing changes; otherwise the accumulator is drained and the storage filled by the same collectible amounts, and the updated storage row is returned |
| ResourceOperations.CollectExample | tests/resource_service.rs:19-58 | accumulated 1000/850/901/899 against caps of 1000 with 100 stored gives 1000/950/1000/999 stored and 100/0/1/0 left accumulated |
| ResourceService.Position | src/game/resources/resource_service.rs:109 | every resource type has a place in the iteration order |
| ResourceService.AllResourceTypesComplete | src/game/resources/resource_service.rs:109 | the iteration visits all five resource types, each once |
| ResourceService.FirstFailing | src/game/resources/resource_service.rs:109-115 | the first resource type whose multiplier lookup fails, or the count of types when none does: every type before it succeeded |
| ResourceService.GetProductionRates | src/game/resources/resource_service.rs:103-138 | the first multiplier error, else the base-rate error, is returned; on success every resource type has the rate base × multiplier |
| ResourceService.FirstFailingAt | src/game/resources/resource_service.rs:109-115 | the lookup stops at the first type that fails |
| ResourceService.FirstFailingNone | src/game/resources/resource_service.rs:109-115 | when every lookup succeeds, all types are visited |
| ResourceService.Service.constructor | src/game/resources/resource_service.rs:47-53 | the service holds the given production scheduler |
| ResourceService.Service.ProduceForPlayer | src/game/resources/resource_service.rs:65-84 | an error in the rates or in production returns that error (the first failing multiplier query, else the base-rate read, else production) and enqueues nothing; a scheduling fault returns that fault; otherwise exactly one new Normal-priority ProduceResources job for the player due two minutes later is added |
| ResourceRows.Deducted | src/db/resources.rs:157-185 | each stored amount goes down by exactly the deducted amount; owner and caps are unchanged |
| ResourceRows.Added | src/game/units/training_operations.rs:232-234 | each stored amount goes up by exactly the refunded amount; owner and caps are unchanged |
| ResourceRows.DeductThenAdd | src/db/resources.rs:157-185 | adding back what was deducted restores the row |
| ResourceRows.DeductMayGoNegative | src/db/resources.rs:170-176 | the deduction is unchecked: taking 15 food from 10 leaves -5 |
| ResourceRows.ResourceTable.constructor | src/db/resources.rs:137-145 | the table holds the given rows |
| ResourceRows.ResourceTable.GetByPlayerId | src/db/resources.rs:137-145 | the player's row, or NotFound when there is none |
| ResourceRows.ResourceTable.Deduct | src/db/resources.rs:157-185 | NotFound with nothing changed for a player without a row; otherwise only that row changes, to the deducted row, which is returned |
| ResourceRows.ResourceTable.Add | src/game/units/training_operations.rs:232-234 | NotFound with nothing changed for a player without a row; otherwise only that row changes, to the row with the amounts added, which is returned |
| TrainingQueue.ActiveIds | src/db/training_queue.rs:129-137 | exactly the building's entries whose status is Pending or InProgress |
| TrainingQueue.MarkCompleted | src/db/training_queue.rs:70-81 | the entry becomes Completed with `completed_at` set to now; every other field is kept |
| TrainingQueue.MarkCancelled | src/db/training_queue.rs:87-93 | the entry becomes Cancelled; `completed_at` and every other field are kept |
| TrainingQueue.FinishingFreesSlot | src/db/training_queue.rs:43-47 | completing or cancelling an active entry removes exactly that entry from its building's active set |
| TrainingQueue.InsertTakesSlot | src/db/training_queue.rs:22-33 | a new active entry joins its own building's active set and no other |
| TrainingQueue.TrainingQueueTable.constructor | src/db/training_queue.rs:22-33 | an empty table |
| TrainingQueue.TrainingQueueTable.Create | src/db/training_queue.rs:22-33 | the entry is stored under a fresh key, started now, not completed, with the given fields; nothing else changes |
| TrainingQueue.TrainingQueueTable.GetById | src/db/training_queue.rs:116-119 | the stored entry, or NotFound |
| TrainingQueue.TrainingQueueTable.GetByJobId | src/db/training_queue.rs:161-164 | a stored entry linked to the job; NotFound exactly when no entry is |
| TrainingQueue.TrainingQueueTable.GetActiveCountForBuilding | src/db/training_queue.rs:125-139 | the number of the building's active entries |
| TrainingQueue.TrainingQueueTable.Complete | src/db/training_queue.rs:70-81 | NotFound with nothing changed for an unknown key; otherwise only that entry changes, to its completed form, which is returned |
| TrainingQueue.TrainingQueueTable.Cancel | src/db/training_queue.rs:87-93 | one row changed, to its cancelled form, when the key exists; zero rows and nothing changed otherwise |
| TrainingQueue.TrainingQueueTable.SetJobId | src/db/training_queue.rs:170-184 | only the entry's job link changes; an unknown key is NotFound and changes nothing |
| PlayerUnits.UpsertAddsExactly | src/db/player_units.rs:75-89 | an upsert raises the pair's count by exactly the quantity and leaves every other pair's count alone |
| PlayerUnits.UpsertsAccumulate | src/db/player_units.rs:75-89 | two upserts for the same pair equal one upsert of the sum |
| PlayerUnits.PlayerUnitTable.constructor | src/db/player_units.rs:75-89 | the table holds the given rows |
| PlayerUnits.PlayerUnitTable.GetPlayerUnitCount | src/db/player_units.rs:31-43 | the stored quantity, or 0 when the player has no row for the unit |
| PlayerUnits.PlayerUnitTable.UpdateQuantity | src/db/player_units.rs:49-69 | an existing row gains the (possibly negative) delta and is returned; a missing row is NotFound and nothing changes |
| PlayerUnits.PlayerUnitTable.CreateOrUpdate | src/db/player_units.rs:75-89 | the table becomes the upsert: the pair's count rises by exactly the quantity, whether or not it had a row |
| PlayerUnits.PlayerUnitTable.AddUnits | src/db/player_units.rs:106-122 | the player's count for the unit rises by exactly the quantity |
| TrainingOperations.LastAmount | src/game/units/training_operations.rs:438-446 | 0 when no cost row names the resource; a non-zero amount comes from a row naming it |
| TrainingOperations.LastAmountIsLastRow | src/game/units/training_operations.rs:438-446 | the amount that counts is the one of the last row naming the resource: later rows overwrite earlier ones |
| TrainingOperations.TotalCostIgnoresUnknown | src/game/units/training_operations.rs:444 | a cost row naming none of food, wood, stone and gold changes no total |
| TrainingOperations.TotalCostLaterWins | src/game/units/training_operations.rs:440 | a later wood row sets the wood total to its amount times the quantity and leaves food alone |
| TrainingOperations.GetTotalCost | src/game/units/training_operations.rs:426-449 | the loop's four running amounts equal the total cost: per known resource, the last row's amount times the quantity |
| TrainingOperations.StartCheck | src/game/units/training_operations.rs:79-105 | a non-positive quantity is refused first; no error exactly when the quantity is positive, the building exists and is the player's, the unit exists and the building can train its type, and the player's stock covers the total cost |
| TrainingOperations.ForeignBuildingRefused | src/game/units/training_operations.rs:372-387 | training at another player's building is refused with "Building not found" |
| TrainingOperations.InsufficientIffShort | src/game/units/training_operations.rs:408-423 | past the earlier checks, the resource check fails exactly when some stored amount is below its amount × quantity |
| TrainingOperations.TrainingSystem.constructor | src/game/units/training_operations.rs:65-72 | the system over the given resource, queue and unit tables |
| TrainingOperations.TrainingSystem.StartTransaction | src/game/units/training_operations.rs:112-161 | a building with five or more active entries is refused and nothing changes; otherwise the total cost is deducted and exactly one new InProgress entry is stored and returned |
| TrainingOperations.TrainingSystem.StartTraining | src/game/units/training_operations.rs:65-186 | a failed check returns its error and changes nothing; a full queue returns the start error and changes nothing; otherwise the cost is deducted and one new entry is stored, linked to the completion job when enqueuing succeeds and left unlinked, with the enqueue error returned, when it fails |
| TrainingOperations.TrainingSystem.CompleteTraining | src/game/units/training_operations.rs:274-316 | an unknown job is NotFound and a job with a linked entry always succeeds; an error changes neither table; a Completed or Cancelled entry is returned unchanged and no units are added (idempotent); otherwise the entry becomes Completed and the player's count of the unit rises by exactly the quantity |
| TrainingOperations.TrainingSystem.CancelTraining | src/game/units/training_operations.rs:198-264 | an unknown entry, another player's entry, or a Completed/Cancelled entry is refused and nothing changes; otherwise the entry becomes Cancelled and the refund is added only when some component is positive |
| UnitHandlers.FoldUnitCost | src/controllers/game/units/handlers.rs:75-84 | the per-unit cost is the total cost of one unit: each known resource takes its last row's amount, unknown names are ignored |
| UnitHandlers.BatchCostScales | src/controllers/game/units/handlers.rs:170-179 | a batch's cost is the per-unit cost times the quantity, resource by resource |
| UnitHandlers.ResourcesSpent | src/controllers/game/units/handlers.rs:170-179 | each resource spent is the last matching row's amount times the quantity, 0 when no row names it |
| UnitHandlers.Narrow | src/controllers/game/units/handlers.rs:98-108 | one step of the running minimum keeps a batch that fits, and when it lowers the bound the result is the largest count that fits for that resource |
| UnitHandlers.MaxAffordable | src/controllers/game/units/handlers.rs:93-110 | 0 when one unit is not affordable; otherwise the largest batch that fits every positive-cost resource (one more does not fit), and i64::MAX when no cost is positive |
| UnitHandlers.AffordsDownward | src/controllers/game/units/handlers.rs:93-110 | whenever a batch fits, every smaller batch fits |
| UnitHandlers.SecondsRemaining | src/controllers/game/units/handlers.rs:261-267 | never negative; before the start it is the whole (non-negative) training time; during training remaining plus elapsed is the total; after it, 0 |
| UnitHandlers.RemainingNeverGrows | src/controllers/game/units/handlers.rs:261-267 | the time remaining never increases as time passes |
| UnitHandlers.Rows | src/controllers/game/units/handlers.rs:250-283 | at most one row per entry, and only for entries whose unit is known |
| UnitHandlers.RowsKeepKnown | src/controllers/game/units/handlers.rs:250-283 | every entry whose unit is known gets its row; only missing units are skipped |
| UnitHandlers.InsertByStart | src/controllers/game/units/handlers.rs:286 | inserting into a sorted sequence keeps it sorted by start time and adds exactly that row |
| UnitHandlers.SortByStart | src/controllers/game/units/handlers.rs:286 | the result is sorted by start time and is a permutation of the input |
| UnitHandlers.QueueView | src/controllers/game/units/handlers.rs:223-299 | the view is sorted by start time and holds exactly the rows of the entries whose unit is known |
| UnitHandlers.AvailableUnits | src/controllers/game/units/handlers.rs:69-130 | one entry per unit, in order, with its per-unit cost (all zero without cost rows); affordable exactly when the stock covers one unit, which is exactly when the largest affordable batch is at least 1, and that batch fits |
| RequirementOperations.ParseReqLock | src/game/buildings/requirement_operations.rs:178-200 | a building requirement locks exactly when the level passed in is below the required level, recording both; a requirement without a building locks exactly when it names a tech node |
| RequirementOperations.RequirementLocks | src/game/buildings/requirement_operations.rs:103-107 | at most one lock per requirement, and never MaxCountReached |
| RequirementOperations.NoRequirementLocksIff | src/game/buildings/requirement_operations.rs:103-107 | no requirement lock arises exactly when every requirement is met |
| RequirementOperations.GenAvailData | src/game/buildings/requirement_operations.rs:88-117 | buildable exactly when there are no locks; MaxCountReached is present exactly when the count has reached the maximum, and then it is the first lock; building, construction, count and maximum are passed through |
| RequirementOperations.BuildableIff | src/game/buildings/requirement_operations.rs:88-117 | buildable exactly when the count is below the maximum and every requirement is met |
| RequirementOperations.LocksInOrder | src/game/buildings/requirement_operations.rs:97-107 | after the optional count lock, the locks are the requirement locks in requirement order |
| RequirementOperations.GenAvailDataBuildableExample | src/game/buildings/requirement_operations.rs:227-244 | no requirements and 0 of 5 owned is buildable with no locks |
| RequirementOperations.GenAvailDataMaxCountExample | src/game/buildings/requirement_operations.rs:247-282 | 3 of 3 owned gives exactly the MaxCountReached lock |
| RequirementOperations.GenAvailListAsWritten | src/game/buildings/requirement_operations.rs:128-164 | one availability per building in the data, each what `gen_avail_data` gives with the listed building's own highest level |
| RequirementOperations.OwnLevelUsedForOtherBuilding | src/game/buildings/requirement_operations.rs:147-150 | counterexample: a player owning building 1 at level 5 is still told building 2 needs building 1 at level 2, with current level 0 |
| RequirementOperations.RequirementLock | src/game/buildings/requirement_operations.rs:178-200 | a building requirement locks exactly when the player's highest level of the required building is below the required level; tech requirements as before |
| RequirementOperations.RequiredBuildingLocks | src/game/buildings/requirement_operations.rs:147-150 | never MaxCountReached |
| RequirementOperations.RequiredBuildingLocksExact | src/game/buildings/requirement_operations.rs:147-150 | a lock is in the list exactly when some requirement yields it |
| RequirementOperations.GenAvailList | src/game/buildings/requirement_operations.rs:128-164 | one availability per building in the data; building, construction, count and maximum passed through; buildable exactly when there are no locks; MaxCountReached exactly when the count has reached the maximum |
| RequirementOperations.GenAvailListLevelLock | src/game/buildings/requirement_operations.rs:147-150 | a building requirement's lock is present exactly when the player's highest level of the required building is below the required level |
| RequirementOperations.RequiredLevelMetExample | src/game/buildings/requirement_operations.rs:147-150 | in the counterexample's case the corrected list makes building 2 buildable |
| BuildingDomain.LevelCost | src/game/buildings/building_operations.rs:97-103 | each amount is the level's requirement for that resource, 0 when it has none |
| BuildingDomain.NextUpgrade | src/db/building_levels.rs:148-164 | the data of level `level + 1` of the building when it exists, NotFound otherwise |
| PlayerBuildings.OwnedOf | src/db/player_buildings.rs:272-276 | exactly the rows of that player and that building type |
| PlayerBuildings.HighestLevel | src/db/player_buildings.rs:392 | None for no rows, otherwise a level some row has and no row exceeds |
| PlayerBuildings.MaxLevelUnique | src/db/player_buildings.rs:392 | the highest level of a set of rows is determined by the rows |
| PlayerBuildings.SummaryOf | src/db/player_buildings.rs:389-400 | the count is the number of the player's rows of that type, the maximum is the type's, and there is a level exactly when the count is non-zero |
| PlayerBuildings.AvailableTo | src/db/player_buildings.rs:378-382 | exactly the building types of the player's faction or neutral |
| PlayerBuildings.LevelledUp | src/db/player_buildings.rs:336-345 | one level higher with the upgrade ETA cleared; every other field is kept |
| PlayerBuildings.PlayerBuildingTable.constructor | src/db/player_buildings.rs:63-69 | an empty table |
| PlayerBuildings.PlayerBuildingTable.GetById | src/db/player_buildings.rs:50-53 | the row, or NotFound |
| PlayerBuildings.PlayerBuildingTable.Construct | src/db/player_buildings.rs:239-245 | exactly one new row with the given fields under a fresh key; nothing else changes |
| PlayerBuildings.PlayerBuildingTable.Delete | src/db/player_buildings.rs:94-97 | the row is gone and the count says whether it existed |
| PlayerBuildings.PlayerBuildingTable.CanConstruct | src/db/player_buildings.rs:259-283 | NotFound for an unknown type; otherwise true exactly when the player owns fewer of it than its maximum count |
| PlayerBuildings.PlayerBuildingTable.GetUpgradeTuple | src/db/player_buildings.rs:292-305 | NotFound for an unknown row; otherwise the row with its type's maximum level, None when the left join finds no type |
| PlayerBuildings.PlayerBuildingTable.SetUpgradeEta | src/db/player_buildings.rs:316-326 | only that row's ETA changes; an unknown row is NotFound and changes nothing |
| PlayerBuildings.PlayerBuildingTable.IncLevel | src/db/player_buildings.rs:336-345 | only that row changes, one level up with the ETA cleared; an unknown row is NotFound and changes nothing |
| PlayerBuildings.PlayerBuildingTable.MaxLevel | src/db/player_buildings.rs:392 | the highest level among the given rows, None for none |
| PlayerBuildings.PlayerBuildingTable.Summary | src/db/player_buildings.rs:389-400 | one type's count, maximum count and highest level, as the summary defines them |
| PlayerBuildings.PlayerBuildingTable.GetPlayerBldCountsLevels | src/db/player_buildings.rs:370-406 | both maps have exactly the faction's and the neutral types as keys; the building map holds the definitions and each data entry summarises the player's rows of that type |
| PlayerBuildings.UnbuiltHasNoLevel | src/db/player_buildings.rs:383-392 | a type the player owns none of is reported with count 0 and no level |
| PlayerBuildings.ConstructCountsOne | src/db/player_buildings.rs:239-245 | construction adds one to its owner's count of its type and leaves every other count alone |
| BuildingOperations.Availability | src/game/buildings/building_operations.rs:64-66 | buildable exactly when the player owns fewer than the type's maximum count and no requirement of that level is unmet at the player's highest level of the type |
| BuildingOperations.ResourceCheck | src/game/buildings/building_operations.rs:338-361 | NotFound for a player without a resource row, "Not enough resources" when a stored amount is below the level's requirement, and no error exactly when every amount covers it |
| BuildingOperations.ResourceCheckLeavesNoDebt | src/game/buildings/building_operations.rs:81-104 | after passing the resource check, deducting the level's cost leaves no amount below zero |
| BuildingOperations.HasEnoughIffNoDebt | src/game/buildings/building_operations.rs:352-360 | a row passes the check exactly when deducting the level's cost leaves no amount below zero |
| BuildingOperations.ConstructCheck | src/game/buildings/building_operations.rs:61-90 | passes exactly when level 1 exists, the type exists, the availability is buildable and the stock covers level 1's cost, and then yields level 1; a missing level 1 is NotFound; locks give the "has locks" error |
| BuildingOperations.ConstructStaysWithinMaxCount | src/game/buildings/building_operations.rs:61-118 | a construction that passes its checks adds exactly one to the player's count of the type and stays within the maximum count |
| BuildingOperations.UpgradeTarget | src/game/buildings/building_operations.rs:172-184 | the row and the data of its next level, or NotFound when the row, the next level or the type is missing |
| BuildingOperations.UpgradeCheck | src/game/buildings/building_operations.rs:172-209 | target errors pass through; passes exactly when the target exists, the availability (count lock included) is buildable and the owner's stock covers the next level's cost |
| BuildingOperations.UpgradeBlockedAtMaxCount | src/game/buildings/building_operations.rs:184-197 | counterexample: the only building of a type whose maximum count is 1 cannot be upgraded, with ample resources and no requirements |
| BuildingOperations.IntendedUpgradeCheck | src/game/buildings/building_operations.rs:184-197 | the corrected check: passes exactly when the target exists, no requirement of the next level is unmet and the owner's stock covers its cost |
| BuildingOperations.IntendedAgreesBelowMaxCount | src/game/buildings/building_operations.rs:184-197 | below the maximum count the corrected and the written checks agree on every input |
| BuildingOperations.IntendedUpgradeAtMaxCount | src/game/buildings/building_operations.rs:184-197 | under the corrected check the counterexample's building can be upgraded |
| BuildingOperations.ConfirmOutcome | src/game/buildings/building_operations.rs:280-315 | NotFound for a missing row; "not upgrading" without an ETA; "time has not passed" before the ETA; from the ETA on, the row one level up with the ETA cleared |
| BuildingOperations.ConfirmOnce | src/game/buildings/building_operations.rs:280-315 | a confirmed upgrade cannot be confirmed again: the ETA is gone |
| BuildingOperations.UpgradeThenConfirm | src/game/buildings/building_operations.rs:167-315 | an upgrade started now is refused confirmation before its upgrade time has passed and confirmed from then on, reaching exactly the level whose cost was charged |
| BuildingOperations.BuildingSystem.constructor | src/game/buildings/building_operations.rs:52-56 | the system over the given resource and building tables |
| BuildingOperations.BuildingSystem.HasEnoughResources | src/game/buildings/building_operations.rs:338-361 | NotFound for a player without a resource row; otherwise whether the resource check passes |
| BuildingOperations.BuildingSystem.CountLevel | src/game/buildings/building_operations.rs:65 | NotFound for an unknown type; otherwise the type and the player's count, maximum count and highest level of it |
| BuildingOperations.BuildingSystem.ConstructBuilding | src/game/buildings/building_operations.rs:52-140 | a failed check returns its error and changes nothing; a failed transaction is rolled back; otherwise level 1's cost is deducted and one new level-0 row with the ETA now plus level 1's upgrade time is added and returned |
| BuildingOperations.BuildingSystem.UpgradeBuilding | src/game/buildings/building_operations.rs:167-252 | a failed check returns its error and changes nothing; a failed transaction is rolled back; otherwise the next level's cost is deducted from the owner and only the row's ETA changes, to now plus that level's upgrade time |
| BuildingOperations.BuildingSystem.ConfirmUpgrade | src/game/buildings/building_operations.rs:280-315 | the outcome ConfirmOutcome decides; on success only that row changes, to the levelled-up row, and on refusal nothing changes |
| BuildingOperations.RequirementsAt | src/db/building_requirements.rs:147-159 | the requirements of that building's level, none when it has none |
| BuildingService.NextLevel | src/game/building_service.rs:108-110 | the data of level `level + 1` of the building exactly when it exists, NotFound otherwise |
| BuildingService.ResourceCheck | src/game/building_service.rs:183-199 | NotFound for a player without a resource row, "Not enough resources" when a stored amount is below the level's requirement (absent counting as 0), and no error exactly when every amount covers it |
| BuildingService.ConstructCheck | src/game/building_service.rs:54-70 | passes exactly when level 1 exists, the stock covers its cost, the type exists and the player owns fewer than its maximum count, yielding level 1; a short stock gives "Not enough resources" |
| BuildingService.ResourcesCheckedBeforeCount | src/game/building_service.rs:57-70 | a player both short of resources and at the maximum count is told "Not enough resources": the resource check comes first |
| BuildingService.ConstructStaysWithinMaxCount | src/game/building_service.rs:65-91 | a construction that passes its checks keeps the player within the type's maximum count |
| BuildingService.MaxLevelOf | src/game/building_service.rs:107-121 | the type's maximum level, 0 when the left join finds no type |
| BuildingService.UpgradeCheck | src/game/building_service.rs:107-126 | passes exactly when the row and its next level exist, the owner's stock covers the cost and the level is below the type's maximum level; at the maximum the error is "Building is at max level" |
| BuildingService.UpgradeBoundedByMaxLevel | src/game/building_service.rs:121-126 | an upgrade that passes its checks targets a level no higher than the type's maximum level |
| BuildingService.ConfirmOutcome | src/game/building_service.rs:159-181 | NotFound for a missing row; "not upgrading" without an upgrade time; "time has not passed" before it; from it on, the row one level up with the upgrade time cleared |
| BuildingService.UpgradeConfirmWithinMaxLevel | src/game/building_service.rs:106-181 | an upgrade started and then confirmed never takes a building past its type's maximum level |
| BuildingService.Service.constructor | src/game/building_service.rs:34-42 | the service over the given resource and building tables |
| BuildingService.Service.HasEnoughResources | src/game/building_service.rs:183-199 | NotFound for a player without a resource row; otherwise whether every amount covers the requirement |
| BuildingService.Service.ConstructBuilding | src/game/building_service.rs:45-103 | a failed check returns its error and changes nothing; a failed transaction is rolled back; otherwise level 1's cost is deducted and one new level-0 row carrying level 1's upgrade time is added and returned |
| BuildingService.Service.UpgradeBuilding | src/game/building_service.rs:106-156 | a failed check returns its error and changes nothing; a failed transaction is rolled back; otherwise the next level's cost is deducted from the owner and only the row's upgrade time changes |
| BuildingService.Service.ConfirmUpgrade | src/game/building_service.rs:159-181 | the outcome ConfirmOutcome decides; on success only that row changes, to the levelled-up row, and on refusal nothing changes |
| UserBuildings.OwnedBy | src/db/user_buildings.rs:78-82 | exactly the rows of that user and that building type |
| UserBuildings.CreateCountsOne | src/db/user_buildings.rs:29-35 | a new row adds one to its owner's count of its type and leaves every other count alone |
| UserBuildings.UserBuildingTable.constructor | src/db/user_buildings.rs:12 | an empty table |
| UserBuildings.UserBuildingTable.GetById | src/db/user_buildings.rs:24-27 | the row, or NotFound |
| UserBuildings.UserBuildingTable.Create | src/db/user_buildings.rs:29-35 | exactly one new row with the given fields under a fresh key; nothing else changes |
| UserBuildings.UserBuildingTable.Delete | src/db/user_buildings.rs:49-52 | the row is gone and the count says whether it existed |
| UserBuildings.UserBuildingTable.CanConstruct | src/db/user_buildings.rs:64-89 | NotFound for an unknown type; otherwise true exactly when the user owns fewer of it than its maximum count |
| UserBuildings.UserBuildingTable.GetUpgradeTuple | src/db/user_buildings.rs:91-102 | NotFound for an unknown row; otherwise the row with its type's maximum level, None when the left join finds no type |
| UserBuildings.UserBuildingTable.SetUpgradeTime | src/db/user_buildings.rs:104-115 | only that row's upgrade time changes; an unknown row is NotFound and changes nothing |
| UserBuildings.UserBuildingTable.IncLevel | src/db/user_buildings.rs:120-133 | only that row changes, one level up with the upgrade time cleared; an unknown row is NotFound and changes nothing |
| UserNames.TrimStart | src/domain/player/user_name.rs:33 | drops exactly the leading whitespace: the result is a suffix of the input, what it drops is blank, and it does not start with whitespace |
| UserNames.TrimEnd | src/domain/player/user_name.rs:33 | drops exactly the trailing whitespace: the result is a prefix of the input, what it drops is blank, and it does not end with whitespace |
| UserNames.TrimEmptyIffBlank | src/domain/player/user_name.rs:33 | the trimmed text is empty exactly when the name is empty or all whitespace |
| UserNames.Parse | src/domain/player/user_name.rs:32-52 | accepted exactly when the name is not blank, has at most 256 graphemes and contains none of the nine forbidden characters; an accepted name keeps the text as given; any refusal is the invalid-username error |
| UserNames.ParseThenAsRef | src/domain/player/user_name.rs:55-63 | the text of a parsed name is the text it was parsed from |
| UserNames.LongestNameAccepted | src/domain/player/user_name.rs:84-88 | 256 copies of a two-byte letter are accepted |
| UserNames.TooLongNameRejected | src/domain/player/user_name.rs:90-94 | 257 letters are refused |
| UserNames.BlankNamesRejected | src/domain/player/user_name.rs:96-105 | a single space and the empty string are refused |
| UserNames.ForbiddenCharactersRejected | src/domain/player/user_name.rs:106-112 | each forbidden character alone is refused |
| UserNames.PlainNameAccepted | src/domain/player/user_name.rs:113-117 | "Bruce Wayne" is accepted |
| Players.Apply | src/domain/player/mod.rs:66-74 | each field given in the changeset replaces the stored one and each absent field keeps it; id and timestamps are kept |
| Players.EmptyChangesetIsIdentity | src/domain/player/mod.rs:66-74 | written over a row, a changeset with no fields would leave the player as it is; the table refuses such a changeset (see `Players.PlayerTable.Update`) |
| Players.ApplyIdempotent | src/domain/player/mod.rs:66-74 | applying a changeset twice is the same as applying it once |
| Players.UpdateAsWritten | src/db/players.rs:63-66 | the update as written: with no filter on the id, every row receives the changeset |
| Players.UpdateReachesOtherPlayers | src/db/players.rs:63-66 | counterexample: changing player 1's faction also changes player 2's |
| Players.UpdateKeyed | src/db/players.rs:63-66 | the corrected update: the keyed row receives the changeset and every other row is unchanged |
| Players.KeyedUpdateSparesOtherPlayers | src/db/players.rs:63-66 | the corrected update leaves other players alone and agrees with the written one on the keyed player |
| Players.PlayerTable.constructor | src/db/players.rs:47-53 | the table holds the given rows, each stored under its own id |
| Players.PlayerTable.GetById | src/db/players.rs:34-37 | the player, or none when the key is unknown |
| Players.PlayerTable.Update | src/db/players.rs:63-66 | a failure, a changeset with no field (which the database refuses to build) or an unknown key changes nothing and gives None; otherwise the table becomes the corrected keyed update and the updated player is returned (weaker than the as-written update, see Left out) |
| PlayerOperations.TryFrom | src/game/player_operations.rs:17-48 | name, email and password are checked only when present; the conversion succeeds exactly when each present one is valid (a bad name gives its parse error, a failed hash the internal error); on success the changeset carries the id, the faction, the parsed name and email and the hash, each present exactly when given |
| PlayerOperations.FactionChanged | src/game/player_operations.rs:87 | true exactly when a faction is given and it differs from the stored one |
| PlayerOperations.SchedulesIffLeavingNeutral | src/game/player_operations.rs:87-103 | production is scheduled exactly when a Neutral player is given a non-Neutral faction |
| PlayerOperations.NoSecondSchedule | src/game/player_operations.rs:87-103 | once a player has left Neutral, no later update schedules production again |
| PlayerOperations.UpdateEffectMeaning | src/game/player_operations.rs:57-115 | the job queue changes only for a Neutral player given a non-Neutral faction; a successful update returns the stored row, with the new faction and name when given, and, under the corrected keyed update, leaves every other player unchanged; a payload with no field at all is INTERNAL_SERVER_ERROR with nothing changed |
| PlayerOperations.Operations.constructor | src/game/player_operations.rs:57-62 | the operations over the given player table and scheduler |
| PlayerOperations.Operations.GetPlayer | src/game/player_operations.rs:50-55 | the player, or NOT_FOUND |
| PlayerOperations.Operations.UpdatePlayer | src/game/player_operations.rs:57-115 | validation failure is BAD_REQUEST and an unknown player NOT_FOUND, both before any change; a failed write or an empty changeset is INTERNAL_SERVER_ERROR; otherwise the player is updated and production is scheduled to run now when leaving Neutral, a scheduling failure being INTERNAL_SERVER_ERROR; the write is the corrected keyed update |
| PlayerService.Service.constructor | src/game/player_service.rs:17-20 | the service over the given player table and production scheduler |
| PlayerService.Service.UpdateUser | src/game/player_service.rs:32-91 | the same effect as the newer update: BAD_REQUEST on validation failure and NOT_FOUND for an unknown player, both before any change; INTERNAL_SERVER_ERROR for a failed write, an empty changeset or a failed schedule; production scheduled to run now exactly when a Neutral player picks a non-Neutral faction; the write is the corrected keyed update |
| PlayerModels.ProfileFrom | src/controllers/player/models.rs:18-34 | the profile copies id, name, email and timestamps; Neutral is shown as no faction and any other faction as itself, so the stored faction can be read back |
| PlayerModels.ProfileShowsFaction | src/controllers/player/models.rs:18-34 | two players differing only in faction get different profiles |
| PlayerModels.JoinFaction | src/controllers/player/models.rs:41-50 | the payload carries only the chosen faction |
| PlayerModels.JoinFactionChangesOnlyFaction | src/controllers/player/models.rs:41-50 | joining a faction always validates, changes only the player's faction, and schedules production exactly when a Neutral player joins a non-Neutral faction |
| PlayerSessions.SessionsOf | src/db/player_sessions.rs:82-86 | exactly the keys of that player's sessions |
| PlayerSessions.WithoutPlayer | src/db/player_sessions.rs:82-86 | exactly the other players' sessions, each unchanged |
| PlayerSessions.WithoutPlayerCount | src/db/player_sessions.rs:82-86 | the sessions removed are as many as the player had |
| PlayerSessions.SessionTable.constructor | src/db/player_sessions.rs:51-57 | an empty table |
| PlayerSessions.SessionTable.FindById | src/db/player_sessions.rs:29-40 | the session with its player exactly when the key is stored and its player exists; otherwise none |
| PlayerSessions.SessionTable.Create | src/db/player_sessions.rs:51-57 | a new key is stored and returned; a key already present is a unique-key violation and changes nothing |
| PlayerSessions.SessionTable.Delete | src/db/player_sessions.rs:68-71 | the keyed session is gone and the count (0 or 1) says whether it existed |
| PlayerSessions.SessionTable.DeleteByPlayer | src/db/player_sessions.rs:82-86 | all and only the player's sessions are removed, and the count is how many there were |
| PlayerSessions.SessionTable.RefreshToken | src/db/player_sessions.rs:97-104 | only the session's expiry changes, to now plus 30 days; an unknown key is NotFound and changes nothing |
| SessionService.StandingAt | src/auth/session_service.rs:97-113 | expired exactly when the expiry is not after now; near expiry exactly when it is less than 15 days away; fresh otherwise |
| SessionService.NewSessionStanding | src/auth/session_service.rs:55-113 | a session created at some time is fresh for its first 15 days, near expiry until day 30, and expired from then on |
| SessionService.ValidatedHasFifteenDays | src/auth/session_service.rs:97-116 | a session that passes validation has at least 15 days left afterwards |
| SessionService.CreateSession | src/auth/session_service.rs:46-66 | the session is stored under the token's hash, owned by the player and expiring 30 days from now; a hash already present is a unique-key violation and changes nothing |
| SessionService.ValidateSessionToken | src/auth/session_service.rs:78-117 | an unknown token is NoSession and changes nothing; an expired session is deleted and reported expired; a session within 15 days of expiry is refreshed to 30 days from now and returned; any other is returned unchanged |
| SessionService.InvalidateSession | src/auth/session_service.rs:125-139 | the keyed session is removed; a missing key is no error and changes nothing |
| SessionService.InvalidateAllSessions | src/auth/session_service.rs:147-160 | every session of the player is removed and every other session is kept |
| SessionService.InvalidatedTokensFindNothing | src/auth/session_service.rs:147-160 | after invalidating all of a player's sessions none of their keys is found and the player has no session left |
| Bytes.LE | src/net/buffer.rs:90-101 | the little-endian layout of a value has exactly the width's number of bytes |
| Bytes.FromLE | src/net/buffer.rs:113-133 | the value read from n little-endian bytes fits in n bytes |
| Bytes.FromLEOfLE | src/net/buffer.rs:90-133 | reading back the little-endian bytes of a value gives the value |
| Bytes.LEOfFromLE | src/net/buffer.rs:90-133 | writing back the value read from bytes gives the same bytes: the layout is a bijection |
| Bytes.OneByteLE | src/net/buffer.rs:102-105 | a single byte is written as itself |
| Bytes.I32ToU32 | src/net/packet.rs:106-117 | `as u32` on an i32: non-negative values are kept and negative ones gain 2^32 |
| Bytes.U32ToI32 | src/net/packet.rs:69-84 | `as i32` on a u32 gives an i32 in range |
| Bytes.I32RoundTrip | src/net/packet.rs:69-117 | an i32 cast to u32 and back is unchanged |
| Bytes.U32RoundTrip | src/net/packet.rs:69-117 | a u32 cast to i32 and back is unchanged |
| Bytes.Ascii | src/net/buffer.rs:85 | an ASCII string's UTF-8 bytes are its characters' codes, one byte each |
| Buffers.WriteGuardChecksWrongCursor | src/net/buffer.rs:90-101 | counterexample: the written guard admits a two-byte write starting at the block's last byte and refuses one into an empty buffer whose read cursor is at the end |
| Buffers.WriteGuardIgnoresCursor | src/net/buffer.rs:90-105 | corrects the guard of the Findings row for these lines (the same guard is at crates/rpc/src/buffer.rs:94-106): the corrected guard does not depend on the read cursor and admits exactly the writes whose bytes fit after what was written |
| Buffers.StringBytes | src/net/buffer.rs:84-89 | a string is laid out as two length bytes followed by its bytes |
| Buffers.StringBytesRoundTrip | src/net/buffer.rs:84-112 | a string shorter than 64 KiB reads back from its layout: the two-byte prefix is its length, the bytes follow, and whatever follows is untouched |
| Buffers.Buffer.WriteData | src/net/buffer.rs:36-38 | the written data has exactly `size` bytes |
| Buffers.Buffer.constructor | src/net/buffer.rs:13-21 | a zeroed block of 2048 bytes, nothing written, nothing read |
| Buffers.Buffer.From | src/net/buffer.rs:23-30 | the block is exactly the given bytes, all of them counted as written, nothing read |
| Buffers.Buffer.GetSize | src/net/buffer.rs:32-34 | the size is the length of the written data |
| Buffers.Buffer.ResetRead | src/net/buffer.rs:40-42 | the read cursor goes back to 0 and nothing else changes |
| Buffers.Buffer.Write | src/net/buffer.rs:53-63 | the bytes are copied to the write position, which moves on by their count; the read cursor and every other byte are kept |
| Buffers.Buffer.Read | src/net/buffer.rs:71-81 | the next n bytes at the read cursor, which moves past them; the write side is untouched |
| Buffers.Buffer.WriteUnsigned | src/net/buffer.rs:90-101 | the written data grows by exactly the little-endian bytes of the value |
| Buffers.Buffer.WriteByte | src/net/buffer.rs:102-105 | the written data grows by exactly that byte |
| Buffers.Buffer.WriteShort | src/net/buffer.rs:98-101 | the written data grows by the value's two little-endian bytes |
| Buffers.Buffer.WriteInteger | src/net/buffer.rs:94-97 | the written data grows by the value's four little-endian bytes |
| Buffers.Buffer.WriteLong | src/net/buffer.rs:90-93 | the written data grows by the value's eight little-endian bytes |
| Buffers.Buffer.WriteString | src/net/buffer.rs:84-89 | the written data grows by the string's length-prefixed layout; the count returned is that of the string bytes alone |
| Buffers.Buffer.ReadUnsigned | src/net/buffer.rs:113-133 | the little-endian value of the bytes at the cursor, which moves past them |
| Buffers.Buffer.ReadByte | src/net/buffer.rs:134-138 | the byte at the cursor, which moves on by one |
| Buffers.Buffer.ReadShort | src/net/buffer.rs:127-133 | the little-endian value of the two bytes at the cursor, which moves past them |
| Buffers.Buffer.ReadInteger | src/net/buffer.rs:120-126 | the little-endian value of the four bytes at the cursor, which moves past them |
| Buffers.Buffer.ReadLong | src/net/buffer.rs:113-119 | the little-endian value of the eight bytes at the cursor, which moves past them |
| Buffers.Buffer.ReadString | src/net/buffer.rs:107-112 | the bytes after the two-byte length prefix, as many as it says; the cursor moves past both |
| Buffers.WriteTwiceReadOnce | src/net/buffer.rs:141-154 | two writes of byte 12 and one read: the first write leaves [12], the read gives 12, one byte has been read and two written |
| Buffers.UnsignedRoundTrip | src/net/buffer.rs:90-133 | whatever value is written with a width is read back with the same width |
| Packets.PacketType | src/net/packet.rs:17-28 | every tag is at most 7 |
| Packets.PacketByBit | src/net/packet.rs:30-50 | a tag up to 7 gives the variant carrying that tag; any other is the invalid-packet-type error |
| Packets.TagsIdentifyVariants | src/net/packet.rs:17-28 | two packets share a tag exactly when they are the same variant |
| Packets.Encode | src/net/packet.rs:92-122 | the tag byte followed by the body |
| Packets.LoginLength | src/net/packet.rs:124-136 | a Login takes one tag byte plus two length-prefixed strings |
| Packets.DecodeString | src/net/buffer.rs:107-112 | a decoded string used its two-byte prefix plus its bytes, within the input |
| Packets.DecodeBody | src/net/packet.rs:55-89 | a decoded body stays within the input and has the tag it was decoded for |
| Packets.Decode | src/net/packet.rs:52-90 | a decoded packet uses no more bytes than were given |
| Packets.DecodeStringOfStringBytes | src/net/buffer.rs:84-112 | a string shorter than 64 KiB decodes from its layout, leaving what follows |
| Packets.DecodeIdOfLE | src/net/packet.rs:69-117 | an id written as four bytes of its u32 cast decodes back to the same i32 |
| Packets.DecodeEncode | src/net/packet.rs:52-122 | decoding the encoding of any encodable packet, whatever follows, gives the packet and uses exactly the encoding's length |
| Packets.SetPacket | src/net/packet.rs:92-122 | the written data grows by exactly the packet's encoding; the read cursor is kept |
| Packets.WriteBody | src/net/packet.rs:95-121 | the written data grows by exactly the packet's body |
| Packets.WriteTextBody | src/net/packet.rs:100-105 | a Logout, Chat or Error body is written as its one string |
| Packets.WriteIdBody | src/net/packet.rs:106-117 | a Build, Upgrade, Destroy or Cancel body is written as the four bytes of the id cast to u32 |
| Packets.WriteLogin | src/net/packet.rs:96-99 | a Login body is written as the user name's string then the password's |
| Packets.GetPacket | src/net/packet.rs:52-90 | a tag above 7 is the invalid-packet-type error after one byte; otherwise the packet the bytes at the cursor decode to, the cursor moving past exactly the bytes used |
| Packets.ReadBody | src/net/packet.rs:55-89 | reads exactly the body the bytes at the cursor decode to for the tag, moving past them |
| Packets.ReadStringField | src/net/packet.rs:57-66 | reads exactly the string the bytes at the cursor decode to, moving past it |
| Packets.ReadIdField | src/net/packet.rs:69-84 | reads exactly the id the four bytes at the cursor decode to, moving past them |
| Packets.SetGetRoundTrip | src/net/packet.rs:138-149 | writing a packet into a new buffer and reading it back gives the same packet, and the size is the encoding's length |
| Packets.LoremIpsumLoginLength | src/net/packet.rs:124-136 | the "lorem" / "ipsum" Login takes 15 bytes |
| Sender.IdentifyCommand | crates/rpc/src/net/sender.rs:85-96 | the command word picks the variant: any word outside the seven known ones is Unknown keeping the data; never Error; the payload variants carry the data |
| Sender.Flag | crates/rpc/src/net/sender.rs:85-96 | each known command has one of the seven command words |
| Sender.IdentifyFlag | crates/rpc/src/net/sender.rs:85-96 | every known command is recovered from its word and payload |
| Sender.SetHostParameters | crates/rpc/src/net/sender.rs:117-124 | the ip, a colon, then the port |
| Sender.HostDeterminesAddress | crates/rpc/src/net/sender.rs:117-124 | a host string determines its ip and port when the port has no colon |
| Sender.HostConfig.constructor | crates/rpc/src/net/sender.rs:154-164 | local 127.0.0.1:40404 and remote 127.0.0.1:12345, each host string built from its ip and port |
| Sender.HostConfig.BuildConfig | crates/rpc/src/net/sender.rs:126-151 | a local field update rebuilds only the local host, a remote one only the remote host; every other command changes nothing; each host string stays its ip and port |
| Sender.ConsolePortChange | crates/rpc/src/net/sender.rs:126-164 | setting the local port to 5000 gives local host 127.0.0.1:5000 and leaves the remote 127.0.0.1:12345 |
| Sender.LoremIpsumBytes | crates/rpc/src/net/sender.rs:187-189 | the UTF-8 bytes of "lorem" and "ipsum" |
| Sender.LoginMessageLayout | crates/rpc/src/net/sender.rs:187-189 | the message's bytes are the encoding of a Login |
| Sender.LoginMessageIsLogin | crates/rpc/src/net/sender.rs:187-189 | the client's message is the encoding of the "lorem" / "ipsum" Login and decodes back to it using all 15 bytes |
| Health.Split | src/controllers/health/handlers.rs:51-58 | the fields are in range and add up to the seconds given; days are whole days |
| Health.SplitUnique | src/controllers/health/handlers.rs:51-58 | the split is the only in-range one for those seconds |
| Text.DecimalDigits | src/controllers/health/handlers.rs:57 | digits only, one exactly below ten, with a leading zero only for zero itself |
| Text.DecimalRoundTrip | src/controllers/health/handlers.rs:57 | reading the digits back gives the number |
| Health.Pad2 | src/controllers/health/handlers.rs:57 | decimal digits with the given value, exactly two below 100 and more from 100 on; a leading zero only below ten, so from ten on they are the unpadded digits |
| Health.FormatUptime | src/controllers/health/handlers.rs:51-58 | the text ends with the d, h, m and s fields at fixed places from the end, each field's digits giving the split's days, hours, minutes and seconds; every other character is a digit; it is twelve characters exactly when days are below 100, and a longer text has no leading zero |
| Health.FormatUptimeReadsBack | src/controllers/health/handlers.rs:51-58 | reading the four fields back out of the text gives the uptime in seconds |
| Health.OneOfEach | src/controllers/health/handlers.rs:51-58 | 90061 seconds is "01d01h01m01s" |
| Health.JustStarted | src/controllers/health/handlers.rs:51-58 | 0 seconds is "00d00h00m00s" |
| Health.HundredDays | src/controllers/health/handlers.rs:51-58 | a hundred days is "100d00h00m00s": days are not wrapped |
| Hydrate.HasAll | src/data/hydrate.rs:30-46 | true exactly when the stored rows are non-empty, as many as the defaults and include every default; false whenever the table is empty or of another size |
| Hydrate.HasAllFactions | src/data/hydrate.rs:30-46 | true exactly when the stored ids are non-empty, as many as the default factions and include every default id; a failed read counts as empty and gives false |
| Hydrate.HasAllBuildings | src/data/hydrate.rs:48-64 | true exactly when the stored names are non-empty, as many as the default buildings and include every default name; a failed read counts as empty and gives false |
| Hydrate.InsertDefaults | src/data/hydrate.rs:8-28 | the defaults are appended in order up to the first failing insert, which is reported; with no failure all of them are appended |
| Hydrate.Table.constructor | src/data/hydrate.rs:8-28 | a table holding the given rows |
| Hydrate.Table.Create | src/data/hydrate.rs:8-28 | the row is appended, or on failure nothing changes and the failure is reported |
| Hydrate.Table.InsertAll | src/data/hydrate.rs:8-28 | the rows and the result are those InsertDefaults gives |
| Hydrate.InitializeDatabase | src/data/hydrate.rs:8-28 | factions first: a complete table is left alone, an incomplete one gets every default; a failed faction insert stops before buildings are touched; buildings are then handled the same way |
| Hydrate.DefaultsDistinct | src/data/factions.rs:3-16 | each default list names each entry once |
| Hydrate.EmptyTableBecomesComplete | src/data/hydrate.rs:8-28 | initialising an empty table with no failing insert leaves it holding exactly the defaults |
| Hydrate.CompleteTableUntouched | src/data/hydrate.rs:13-20 | a complete table is left alone |
| Hydrate.IncompleteTableGetsAllDefaults | src/data/hydrate.rs:13-27 | an incomplete table gets every default appended after its rows |
| Hydrate.InitializeTwice | src/data/hydrate.rs:8-28 | two initialisations of empty tables: the first fills both with the defaults, the second changes nothing |

## Left out

- **Concurrency.** Worker pools, the processors' polling loops, signal
  handling and the `FOR UPDATE` row lock are not modelled. A job claim is
  one atomic method on the jobs table. Job retries, lease expiry and job
  cancellation do not exist in the queue as written.
- **Integer widths.** Arithmetic is on unbounded integers. An i32 or i64
  overflow in the source is not modelled. This covers
  `cost.amount * quantity`, resource additions and unit counts. The i32 ⇄
  u32 casts of packet ids and the little-endian widths are written out
  explicitly.
- **Floating point.** The following are left out:
  - the cancellation refund and the training duration (f64 ratios truncated to i64);
  - the queue view's progress percentage and modified training seconds;
  - the experience formulas.

  The refund and the completion time are inputs of the methods that use them.
- **Foreign code:**
  - Argon2 password hashing, the Blake2 session-token encoding, random token generation and JWTs are opaque function parameters (`encode`, `hash`).
  - E-mail parsing is a parameter.
  - Grapheme segmentation is an abstract length function.
- **Clocks.** Every clock read is an explicit `now`. Session validation
  uses one `now` for the source's separate clock reads.
- **Database.**
  - Tables are maps keyed by serial ids. Building keys are naturals.
  - Timestamps that SQL triggers maintain (`updated_at`) are not modelled.
  - Behaviour implemented in SQL triggers that are not shown is not modelled: faction modifiers applied on player creation, and starter buildings.
  - Query failures are fault flags or `Result` inputs. This includes a failed `get_all` during hydration, which counts as an empty table.
  - Deletes and refreshes of an existing session row cannot fail in the
    in-memory table, so their error paths in session validation are not
    modelled.
  - The order of rows a `Vec` query returns is the table's order. `HashMap` iteration order is the first-seen order of the keys.
- **Definitions not in the repository's shown files** are not part of this
  model. Their results are inputs, or they are modelled from their call
  sites:
  - `get_player_bld_count_level` (the count and level come from the player building table);
  - `resources::add` (modelled as adding the refund to each column);
  - `cancel_job`, `enqueue_batch`, `get_next_job_of_type`, `get_active_count_for_building_locked`;
  - `resource_operations::produce_resources` and `resource_operations::get_base_rates`
    (`ResourceService.Service.ProduceForPlayer` and
    `ResourceService.Service.GetProductionRates` take their outcomes as the
    parameters `produced` and `base`, so the produced amounts and the base
    rates are unconstrained inputs);
  - the three-argument `gen_avail_data`.
- **Training.** src/game/units/training_operations.rs enqueues a
  `JobType::Training` job, but src/domain/jobs.rs declares no such variant,
  so the job codecs have none. The training methods take the enqueue's
  outcome as an input. Unit sorting in the queue view is
  modelled as an insertion sort by start time; the stability of Rust's
  sort among equal start times is not stated.
- **Time formats.** RFC 3339 parsing and its "Invalid time format" error are
  left out; times are integers throughout.
- **Networking and console I/O.** The following are not modelled:
  - UDP `listen`, `send`, `init_host` and `show_menu`;
  - `read_console` and the `main` loop;
  - the receivers;
  - `get_uptime`, which reads file metadata.

  The `try_read!` macro is not modelled.
- **Strings on the wire** are handled as their UTF-8 bytes. `from_utf8_lossy`
  replacement of invalid sequences is not modelled. Strings are ASCII
  where a layout is stated character by character.
- **Health endpoints** other than `format_uptime` are HTTP plumbing and are
  left out.
- **Hydration.** The source compares the faction ids it reads, as i32,
  with the string ids of the defaults, and the repositories are generic.
  The model compares keys as strings. The insert order of the defaults is
  kept.
- **PlayerService.** Its payload conversion is the same function as
  `PlayerOperations.TryFrom` (src/game/player_service.rs:97-128), so the
  model uses that one definition for both.
- Buffers.Buffer.WriteString: requires the string's bytes to fit in the
  block. A string of 64 KiB or more, whose u16 length prefix the source
  truncates, can never fit, so the truncation is not modelled.
- Players.PlayerTable.Update: uses the corrected keyed update,
  `Players.UpdateKeyed` (see Findings). As written, src/db/players.rs:63-66
  applies the changeset to every row (`Players.UpdateAsWritten`), returns
  whichever updated row the database yields first, and fails with NotFound
  only on an empty table. The model changes only the named row, returns
  that row, and gives None for an unknown id.
- PlayerOperations.Operations.UpdatePlayer: built on the keyed
  `Players.PlayerTable.Update`, so a successful update leaves every other
  player unchanged and returns the named player's row. The source as
  written overwrites every player with the changeset and may return
  another player's row. The NOT_FOUND check before the update is the
  same in both.
- PlayerService.Service.UpdateUser: the same keyed-update difference as
  `PlayerOperations.Operations.UpdatePlayer`.
- PlayerOperations.UpdateEffectMeaning: its clause that other players are
  unchanged holds for the corrected keyed update only.
  `Players.UpdateReachesOtherPlayers` shows the as-written update breaking it.
- Buffers.Buffer.WriteUnsigned, Buffers.Buffer.WriteByte,
  Buffers.Buffer.WriteShort, Buffers.Buffer.WriteInteger,
  Buffers.Buffer.WriteLong, Buffers.Buffer.WriteString: these write methods
  require the corrected guard, which checks the write position, instead of
  the source's check of the read cursor (see Findings). WriteString also
  requires its length-prefixed bytes to fit in the block.
- Packets.SetPacket: states the grown written data and the kept read
  cursor, but not that the bytes beyond the write position are untouched.
  The buffer's own write methods do state it.
- Packets.WriteBody: like SetPacket, does not state that the rest of the
  block is untouched.
- Packets.GetPacket: requires the bytes at the cursor not to end inside a
  field. The source panics on such input (`unwrap` on a short read), so no
  error value exists to model.
- RequirementOperations.ParseReqLock: requires every building requirement
  to carry a level. The source panics (`expect`) on one without a level
  (src/game/buildings/requirement_operations.rs:184-186). That condition
  reaches every building operation through
  `BuildingOperations.CatalogWellFormed`. The panic is not modelled.
- RequirementOperations.GenAvailList: requires every building named in the
  player's building data to be in the catalogue, and so does
  `RequirementOperations.GenAvailListAsWritten`. The source panics
  (`expect`) on a missing one
  (src/game/buildings/requirement_operations.rs:153-155). This panic and
  the one `ParseReqLock` excludes are not modelled.
- ModifierService.Service.ApplyModifier: the activations table's schema
  is not part of this model. The insert's refusals follow the constraints
  the tests exercise (tests/active_modifier_constraints.rs:40-56 and
  135-149): an expiry strictly before the start, and an unknown definition.
  The exact boundary of the check, and which error is reported when
  several apply at once, are not in the shown files. An unknown user and
  any other database error are the `insertFault` input. The re-read of the
  new row by id after the insert is not modelled, because it cannot miss
  once the insert has succeeded.
- **Enum codecs.** Codecs take the column's text. The training status
  decoder's non-UTF-8 error branch is not modelled.

## Findings

| source | as written | input that shows it | evidently intended | confidence | as-written member | corrected member |
|---|---|---|---|---|---|---|
| src/game/buildings/requirement_operations.rs:147-150 | `parse_req_lock` receives the level of the building being listed (`max_level`) and compares it with the level the requirement asks of another building | b1 is owned at level 5 and b2 requires b1 at level 2: b2 is locked with BuildingLevelRequired(1, 0, 2) | the requirement is met when the player's level of the required building is high enough | not executed | RequirementOperations.GenAvailListAsWritten, RequirementOperations.OwnLevelUsedForOtherBuilding | RequirementOperations.GenAvailList, RequirementOperations.GenAvailListLevelLock, RequirementOperations.RequiredLevelMetExample |
| src/game/buildings/building_operations.rs:184-197 | `upgrade_building` refuses any building with a lock, and the lock list includes MaxCountReached | a building type with max_count 1, of which the player owns one: the upgrade is refused as UpgradeLocked | the count limit applies to construction only; upgrading an owned building does not add one | not executed | BuildingOperations.UpgradeBlockedAtMaxCount | BuildingOperations.IntendedUpgradeCheck, BuildingOperations.IntendedUpgradeAtMaxCount, BuildingOperations.IntendedAgreesBelowMaxCount |
| src/db/players.rs:63-66 | `players::update` applies the changeset with no key filter, so every player row is updated | players 1 (Neutral) and 2 (Human); updating player 1's faction to Orc also makes player 2 an Orc | only the row of the player being updated changes | not executed | Players.UpdateAsWritten, Players.UpdateReachesOtherPlayers | Players.UpdateKeyed, Players.KeyedUpdateSparesOtherPlayers |
| src/net/buffer.rs:90-105 | the guard before each `write_*` compares the read cursor plus the width with the capacity, but the bytes go to the write position; crates/rpc/src/buffer.rs:94-106 has the same guard | read cursor 0, 2047 bytes written: a two-byte write passes the guard and runs past the 2048-byte block; read cursor 2047 on an empty buffer: the same write is refused | the guard checks the write position: written bytes plus width at most the capacity | not executed | Buffers.WriteGuardAsWritten, Buffers.WriteGuardChecksWrongCursor | Buffers.WriteGuard, Buffers.WriteGuardIgnoresCursor |
