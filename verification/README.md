# Verification model of the personalization core

The system stores, for each subject (tenant, namespace, subject id), events with evidence, long-term
memories with their revisions, feature observations and the states aggregated from them, and versioned
profile snapshots; it answers context requests from all of these. This project models the services over
one in-memory database and proves what they promise about it. To verify it: `dafny verify dfyconfig.toml`.

How the parts fit together:

- **Database** (`Domain`, `Records`, `Memory`, `Database`): a value with one map or set per table, the
  repository calls as writes that are refused or take effect, and the constraints every sequence of calls
  keeps. A transaction works on its own copy of the tables and publishes it at commit.
- **Memory store** (`MemoryPlans`, `MemoryInvariants`, `MemoryTransactions`, `MemoryProtocol`,
  `MemoryProperties`, `MemoryService`): each service call is a plan, the statements it decides on from
  what it read. `MemoryProtocol` is a step relation with any number of clients that begin on one state and
  commit on a later one, among foreign writes, purges and clock ticks; its invariant covers lifecycle, complete
  revision logs, exact evidence counts and held evidence, and survives purges that run among the
  transactions. `MemoryService` is the imperative form, proved to end as the plans say and to keep the store.
- **Feature engine** (`Aggregation`, `Registry`, `FeatureEngine`, `FeatureService`): stored states are a cache of the
  stored observations; every run, failed ones included, leaves each state equal to a rebuild by the greatest
  registered version of its aggregator. A run starts from the stored facts, works on its own copy and records
  itself as a processing run. Arithmetic is over exact reals; decay weights are any function that is 1
  at age 0, multiplicative, positive and at most 1, and one such function is given.
- **Profile** (`Profile`, `ProfileResolver`, `ProfileProperties`, `ProfileService`): late fusion of
  memories and states, snapshot versions, and the difference of two snapshots.
- **Context** (`Context`, `ContextService`): candidates from untrusted index hits, reloading, reranking,
  token budget; then interests, conflicts and the evidence of all that is returned. The tables that are
  listed, those read again for the candidates, and those read for everything else are three independent
  parameters.
- **Events** (`Events`, `EventService`): idempotent ingestion with arbitrary writers between a
  transaction's reads, its commit and its retry; the remote client over a connection that may lose requests
  or responses; atomic and best-effort batches.
- **Export and purge** (`Export`, `Purge`, `PurgeInvariants`, `PurgeHealth`): the evidence an export
  collects, the foreign-key-ordered deletion of a subject, and what the memory store, the feature cache and
  the snapshot versions of everybody else are afterwards.
- **Full text** (`FullText`): tokenizer, ranking by three stable sorts, top-k cut.
- `Sorting` holds stable sorting, which most of the components rest on.

Where the code and an expected property part, the code is followed:

- `add_memory` with a scope that needs a value but none given is not refused up front: the slot lookup then
  does not filter on the value. Exactly when the scope is well formed does a successful add hold the slot
  it names (`AddTakesSlot`, `MalformedAddLandsElsewhere`, `MalformedAddCanSucceed`).
- `patch_memory` accepts deleted records, so a later restore can find a deleted previous revision and
  refuse. `RestoreIsExact` gives the condition for every store; `DeleteThenRestore` is the adjacent case.
- Transitions copy records without validating them; `TransitionsNeedTheClock` says when the copy is valid.
- `confirm_memory`, `patch_memory` and `restore_memory` onto a slot that another active memory holds end with
  the database's own integrity error: the UPDATE is issued outside of the helper that translates such
  errors to an invalid argument.
- States are keyed by aggregator name only, so of several registered versions the last one run wins. Versions
  are ordered as texts, so 1.9 wins over 1.10 (`WinnerIsGreatest`).
- A decayed score is the same at two times, whatever the scores, if and only if all its observations age by
  the same amount between them (`AverageKeepsIffAgingIsEven`). That is so once all of them have happened
  (`AverageIsTimeless`) and as long as none has, and fails when some are still in the future and others are
  not (`AverageMovesBeforehand`).
- Conflicts in a context bundle are those about any memory considered, also one dropped when it was read again.
- Coverage counts runs, not distinct events; `CoverageFromRuns` claims the clamped sum and no more.

## Model

| member | source | states |
|---|---|---|
| Memory.TransitionsNeedTheClock | src/personalization_core/domain/memory.py:346-627 | Each of the five transitions demands the stored revision, raises it by one, and yields a valid record exactly when the clock is not behind the record's creation |
| Memory.TransitionsFollowLifecycle | src/personalization_core/domain/memory.py:346-627 | Confirm, supersede, delete and restore change only what they are named for; the first three keep a record lawful (inferred never in force), restore exactly if the state it returns to is lawful, and expire, which no service calls, never |
| Database.WritesKeepConsistency | src/personalization_core/infrastructure/persistence/sqlalchemy_models.py:113-433 | After any sequence of repository calls rows sit under their own keys, every foreign key names a row of the same subject, and the unique constraints hold |
| MemoryInvariants.StepKeeps | src/personalization_core/application/memory_service.py:740-783 | A creation or revision decided on older tables keeps the whole store invariant when it is executed on the current ones: valid lawful records, complete logs, exact evidence counts, held evidence, consistent tables |
| MemoryInvariants.StepEvolves | src/personalization_core/infrastructure/persistence/repositories.py:605-645 | Such a step only moves memories forward: nothing a reader saw is lost, revisions only grow |
| MemoryTransactions.PlanKeeps | src/personalization_core/application/memory_service.py:144-570 | A whole plan decided on older tables keeps the store invariant when it executes on the current ones |
| MemoryTransactions.PlanOverwrites | src/personalization_core/infrastructure/persistence/repositories.py:605-645 | A plan that overwrites a revision executes only while that revision is current, and leaves a later one |
| MemoryTransactions.AddOk | src/personalization_core/application/memory_service.py:144-231 | Every successful add decides on a sound plan that binds the evidence it creates |
| MemoryTransactions.ExtractAllOk | src/personalization_core/application/memory_service.py:494-570 | So does every successful extraction, over its whole loop |
| MemoryTransactions.SlotFound | src/personalization_core/application/memory_service.py:621-646 | Despite the page limit the lookup returns a stored match whenever there is one |
| MemoryTransactions.BeforeDeletion | src/personalization_core/application/memory_service.py:420-436 | The log row before a deleted record is the record before its deletion |
| MemoryProtocol.PlanIsSound | src/personalization_core/application/memory_service.py:144-570 | Whatever call a client makes on the tables it read, its statements are sound and leave no evidence unbound |
| MemoryProtocol.CommitKeeps | src/personalization_core/infrastructure/persistence/sqlalchemy_uow.py:117-160 | A commit that executes on tables changed since the read keeps the invariant of the whole system |
| MemoryProtocol.RunsAreSafe | src/personalization_core/infrastructure/persistence/repositories.py:605-645 | In every state of every interleaving of any number of clients, other writers and purges the store invariant holds |
| MemoryProtocol.OneWinner | src/personalization_core/infrastructure/persistence/repositories.py:605-645 | Of all calls naming one expected revision of one memory at most one commits a change |
| MemoryProperties.OneHolder | src/personalization_core/infrastructure/persistence/sqlalchemy_models.py:424-433 | At most one active memory holds a subject, key, scope and scope value |
| MemoryProperties.ActiveLookup | src/personalization_core/application/memory_service.py:621-646 | For a well-formed scope the lookup of active rows returns a memory if and only if it is the stored holder of the slot |
| MemoryProperties.FirstAddSucceeds | src/personalization_core/application/memory_service.py:144-231 | Into the empty store exactly the valid records whose evidence names no event can be added, every other input fails with its error, and the store invariant holds after |
| MemoryProperties.AddTakesSlot | src/personalization_core/application/memory_service.py:154-216 | A successful add leaves its content as the single active holder of its slot |
| MemoryProperties.MalformedAddLandsElsewhere | src/personalization_core/infrastructure/persistence/repositories.py:666-667 | Without the value its scope needs, an add that succeeds hands back a memory of another scope value |
| MemoryProperties.MalformedAddCanSucceed | src/personalization_core/infrastructure/persistence/repositories.py:666-667 | Such an add does succeed, with or without evidence, for any active memory alone with its key and scope and of equal content: it only binds the evidence |
| MemoryProperties.ConfirmIsExact | src/personalization_core/application/memory_service.py:347-377 | Which error or which new tables a confirmation gives, for every input on every store that meets the invariant; onto a taken slot it is the integrity error of the unique index |
| MemoryProperties.DeleteIsExact | src/personalization_core/application/memory_service.py:379-407 | Which error or which new tables a deletion gives, for every input on every store that meets the invariant, missing subjects and memories included |
| MemoryProperties.PatchIsExact | src/personalization_core/application/memory_service.py:310-345 | Which error or which new tables a patch gives, for every input on every store that meets the invariant; onto a taken slot it is the integrity error of the unique index |
| MemoryProperties.RestoreIsExact | src/personalization_core/application/memory_service.py:409-452 | Which error or which new tables a restore gives, for every input on every store that meets the invariant: it needs a previous revision that is not deleted and a free slot, stores that revision with only revision and updated_at changed, and never ends with a protection error |
| MemoryProperties.DeleteThenRestore | src/personalization_core/application/memory_service.py:379-452 | Restoring right after deleting always succeeds and undoes the deletion |
| MemoryProperties.ExtractionOnlyAddsEvidence | src/personalization_core/application/memory_service.py:704-738 | Extraction never alters content, polarity, authority, state or scope of an existing memory; it raises confidence only of inferred candidates |
| MemoryProperties.InferredIsNeverActive | src/personalization_core/domain/memory.py:556-627 | In every reachable store no inferred memory is active and none is expired |
| MemoryProperties.LogIsComplete | src/personalization_core/application/memory_service.py:740-783 | In every reachable store the log of a memory is exactly revisions 1 to current, each row following from the one before, the last equal to the stored record |
| MemoryProperties.CountIsCardinality | src/personalization_core/application/memory_service.py:676-702 | In every reachable store evidence_count is the number of bound evidence rows |
| MemoryService.UnitOfWork.SaveRevision | src/personalization_core/application/memory_service.py:740-783 | Bind, compare-and-swap and audit row take effect together or fail |
| MemoryService.UnitOfWork.BindAndCount | src/personalization_core/application/memory_service.py:676-702 | New evidence is bound and counted by one revision, known evidence changes nothing |
| MemoryService.Service.AddMemory | src/personalization_core/application/memory_service.py:144-231 | Ends as its plan says, the plan's tables on success and the old tables on failure, and keeps the store invariant |
| MemoryService.Service.PatchMemory | src/personalization_core/application/memory_service.py:310-345 | Ends as its plan says and keeps the store invariant |
| MemoryService.Service.ConfirmMemory | src/personalization_core/application/memory_service.py:347-377 | Ends as its plan says and keeps the store invariant |
| MemoryService.Service.DeleteMemory | src/personalization_core/application/memory_service.py:379-407 | Ends as its plan says and keeps the store invariant |
| MemoryService.Service.RestoreMemory | src/personalization_core/application/memory_service.py:409-452 | Ends as its plan says and keeps the store invariant |
| MemoryService.Service.ExtractMemories | src/personalization_core/application/memory_service.py:494-570 | The extraction loop ends as its plan says and keeps the store invariant; the first failing item rolls all back |
| Aggregation.HalvingIsDecay | src/personalization_core/plugins/builtins/recency.py:75-89 | The hypotheses on the decay weight are met by one half per half-life, which does fade |
| Aggregation.AverageKeepsIffAgingIsEven | src/personalization_core/plugins/builtins/recency.py:71-89 | For a weight that does fade, the average at two times is the same for every choice of scores if and only if all observations age by the same amount between them |
| Aggregation.AverageIsTimeless | src/personalization_core/plugins/builtins/recency.py:71-89 | At any two times not before the last observation the decayed average is the same |
| Aggregation.AverageMovesBeforehand | src/personalization_core/plugins/builtins/recency.py:71-72 | A concrete pair of observations, one of them still in the future, whose average moves: ages are cut at zero |
| Aggregation.AverageIsBounded | src/personalization_core/plugins/builtins/recency.py:75-89 | The decayed average lies between the least and the greatest signed score |
| Aggregation.UniqueEvidenceIds | src/personalization_core/plugins/builtins/recency.py:99-106 | The loop keeps the first occurrence of each evidence id, in order |
| Aggregation.ConfidenceBounds | src/personalization_core/plugins/builtins/recency.py:109-121 | The clamp never acts and confidence is at least min(1, n/5)/3 times freshness |
| Aggregation.RecencyDescribes | src/personalization_core/plugins/builtins/recency.py:32-61 | From valid observations decay makes a valid draft: counts sum to n, evidence covers exactly the inputs once, first and last times are attained |
| Aggregation.FrequencyDescribes | src/personalization_core/plugins/builtins/frequency.py:24-56 | So does the frequency aggregator |
| Aggregation.AggregatesIgnoreOrder | src/personalization_core/plugins/builtins/frequency.py:24-56 | Neither aggregator depends on the order of the observations |
| Aggregation.RecencyIsTimeless | src/personalization_core/plugins/builtins/recency.py:32-61 | Recomputing a decayed draft at another time changes nothing but its confidence if the observations age by the same amount |
| Registry.FeatureRegistry.RegisterAggregator | src/personalization_core/plugins/registry.py:24-37 | A blank or repeated name, version and dimension is refused, so no two registered aggregators agree in all three |
| Registry.RegistrationOrderIsImmaterial | src/personalization_core/plugins/registry.py:47-55 | Which aggregators run for a dimension, and in which order, depends only on which ones are registered |
| Registry.WinnerIsGreatest | src/personalization_core/plugins/registry.py:47-55 | Of the applicable aggregators of one name the one of the greatest version text, then dimension text, keeps the state; there is one exactly if any applies |
| FeatureEngine.Transaction.Upsert | src/personalization_core/infrastructure/persistence/repositories.py:935-994 | A state replaces the one with its key, and its evidence links are replaced with it |
| FeatureEngine.Transaction.RebuildValue | src/personalization_core/application/feature_service.py:336-350 | Each aggregator name of the coordinate ends with the valid draft of its last version, a draft the validators refuse fails the call; all other states stay |
| FeatureEngine.Transaction.RebuildDimension | src/personalization_core/application/feature_service.py:325-350 | Every coordinate of the dimension with observations has a freshly derived state, everything else is untouched |
| FeatureEngine.Transaction.SaveObservation | src/personalization_core/application/feature_service.py:290-310 | An observation is added exactly if its identity is not stored yet |
| FeatureEngine.Transaction.SaveAll | src/personalization_core/application/feature_service.py:254-278 | The extraction loop: created and replayed add up to the drafts emitted, and only emitted identities are added |
| FeatureEngine.Transaction.ProcessEventIn | src/personalization_core/application/feature_service.py:237-288 | Afterwards every stored state is again what a rebuild from all observations would give |
| FeatureEngine.ReprocessingCreatesNothing | src/personalization_core/application/feature_service.py:290-310 | Processing an event again creates no observation; every draft is a replay |
| FeatureService.Service.ProcessEvent | src/personalization_core/application/feature_service.py:54-84 | Commits observations, states and a succeeded run together, or leaves the features as they were and records the failed run |
| FeatureService.Service.ProcessListed | src/personalization_core/application/feature_service.py:108-125 | Whatever fails, exactly what the extractors make of the events that succeed is stored; if all of that was stored before, nothing changes |
| FeatureService.Service.ProcessPending | src/personalization_core/application/feature_service.py:86-144 | Processed and failed counts add up to the events listed; the run succeeds exactly if none failed; the observations stored are the old ones and those of the events processed |
| FeatureService.Service.RebuildDimension | src/personalization_core/application/feature_service.py:146-177 | A succeeded run counts the dimension's observations and its states are all derived anew |
| FeatureService.OtherWritesKeepHealth | src/personalization_core/infrastructure/persistence/repositories.py:935-994 | No other write of any service can make a stored state disagree with its observations |
| FeatureService.StoredStateStaysTrue | src/personalization_core/application/feature_service.py:325-350 | A stored decayed state equals a recomputation at another time but for its confidence as long as the stored observations age by the same amount |
| FeatureService.StoredStateDescribes | src/personalization_core/domain/features.py:77-93 | A stored state of a built-in aggregator is valid and describes the observations stored now |
| Profile.DiffSnapshots | src/personalization_core/domain/profile.py:391-440 | The comparison loop; it fails exactly for different subjects, for versions out of order, or for equal versions that differ |
| Profile.EachDifferenceOnce | src/personalization_core/domain/profile.py:404-433 | A coordinate is listed once if its preference differs and not at all if it does not |
| Profile.DifferenceIsAPatch | src/personalization_core/domain/profile.py:391-440 | Applying the changes to the left preferences gives the right ones |
| Profile.DifferenceMirrors | src/personalization_core/domain/profile.py:404-433 | Comparing the other way round swaps added with removed and strengthened with weakened |
| Profile.ChangesAreValid | src/personalization_core/domain/profile.py:298-333 | Every listed change passes its validator |
| ProfileResolver.CoverageFromRuns | src/personalization_core/application/profile_service.py:369-386 | The counting loop over runs, clamped to the number of events |
| ProfileResolver.GroupMemories | src/personalization_core/application/profile_service.py:166-191 | The first loop groups exactly the counting memories by coordinate and collects the ids of those without evidence |
| ProfileResolver.GroupStates | src/personalization_core/application/profile_service.py:289-291 | States grouped by coordinate |
| ProfileResolver.ResolvePlaces | src/personalization_core/application/profile_service.py:214-229 | The resolution loop over the sorted coordinates |
| ProfileResolver.BuildSnapshot | src/personalization_core/application/profile_service.py:153-265 | The whole construction equals its specification over the rows |
| ProfileProperties.SelectionIsBest | src/personalization_core/application/profile_service.py:196-211 | The selected memory ranks first by scope, authority, recency and id, the selected state by confidence and strength; all candidates and all their evidence are named |
| ProfileProperties.PairPasses | src/personalization_core/application/profile_service.py:306-335 | The widened pair, copied without validation, still passes the preference and conflict validators and follows the memory |
| ProfileProperties.EveryPlaceResolves | src/personalization_core/application/profile_service.py:306-367 | Every covered coordinate resolves to a valid preference that follows its memory if it has one, else its behaviour |
| ProfileProperties.BuildingNeverFails | src/personalization_core/domain/profile.py:269-279 | From well-formed rows a snapshot is always built and passes the preference, conflict, coverage and snapshot validators |
| ProfileProperties.BehaviorCannotOverride | src/personalization_core/application/profile_service.py:153-265 | Two sets of feature states give the same polarity, score and confidence wherever a memory counts |
| ProfileProperties.OrderDoesNotMatter | src/personalization_core/application/profile_service.py:193-304 | The content does not depend on the order of memories, states and events |
| ProfileProperties.WarningsAreExact | src/personalization_core/application/profile_service.py:181-239 | Which warnings a snapshot carries: incomplete coverage and each memory without evidence, no others |
| ProfileProperties.StatusIsExact | src/personalization_core/application/profile_service.py:231-253 | A snapshot is empty exactly if there is neither an event nor anything to resolve, else complete exactly if the runs count as many processed events as there are, else partial |
| ProfileService.Service.RefreshProfile | src/personalization_core/application/profile_service.py:84-122 | Lists all pages, builds, compares digests, and adds the next version only if the content changed or it is forced |
| ProfileService.Service.CompareProfiles | src/personalization_core/application/profile_service.py:140-151 | Makes sure of the subject first; then two stored versions compare exactly when given in order, and a missing one is an invalid argument |
| ProfileService.VersionsStayDense | src/personalization_core/infrastructure/persistence/repositories.py:1047-1076 | Versions stay exactly 1 to n, old snapshots never change, the returned snapshot is the latest |
| ProfileService.RefreshIsIdempotent | src/personalization_core/application/profile_service.py:84-122 | In every store that meets the invariant a second refresh with the same options and time returns the same snapshot and changes nothing |
| ProfileService.ReadsAreWellFormed | src/personalization_core/application/profile_service.py:388-418 | The rows of every store that meets the invariant, and so of every reachable one, meet what building needs |
| Context.Boost | src/personalization_core/application/context_service.py:139-166 | Hits raise the score to the best of theirs and mark the source; hits for unknown ids change nothing |
| Context.Rerank | src/personalization_core/application/context_service.py:434-465 | The first result for each known id sets its score, all others are ignored |
| Context.Retrieve | src/personalization_core/application/context_service.py:125-187 | Kept are all listed memories, or with query retrieval the hard ones and those hit |
| Context.Reload | src/personalization_core/application/context_service.py:193-208 | A candidate survives exactly if the store still admits it, with its current row |
| Context.SelectWithBudget | src/personalization_core/application/context_service.py:487-513 | The greedy loop takes each memory that still fits and reports whether one did not |
| Context.SelectionIsGreedy | src/personalization_core/application/context_service.py:487-513 | The selection keeps the ranking's order, stays in max(budget, hard cost), and nothing left out would fit in what remains |
| Context.TruncatedIffTooMuch | src/personalization_core/application/context_service.py:508-513 | Something is left out exactly when not everything fits |
| Context.BundleIsValid | src/personalization_core/domain/context.py:86-99 | Hard and soft lists have no duplicates and do not overlap |
| Context.BundleIsRanked | src/personalization_core/application/context_service.py:249-267 | Both lists come in the order of score, scope, authority, recency and id |
| Context.SelectMemories | src/personalization_core/application/context_service.py:98-273 | Whatever the indexes and the reranker return: every memory returned is effective, in scope, admitted by authority and of the subject in the store as read again; hard constraints are exactly the hard ones; the rest is complete unless truncated |
| ContextService.Interests | src/personalization_core/application/context_service.py:213-233 | The interests are the top of the states by weighted score, update, dimension and value, cut to the limit |
| ContextService.RelevantConflicts | src/personalization_core/application/context_service.py:475-485 | The loop keeps exactly the conflicts about one of the given memories |
| ContextService.BundleEvidence | src/personalization_core/application/context_service.py:527-546 | The evidence ids of the memories, states and conflicts given, each once and in order |
| ContextService.ResolveContext | src/personalization_core/application/context_service.py:89-310 | Fails exactly for an unknown or deleted subject; else the memories are safe, the interests the strongest, the conflicts those of the latest profile about a memory considered, and the evidence exactly what supports all that is returned |
| ContextService.CitedEvidenceIsStored | src/personalization_core/application/context_service.py:240-247 | The evidence of memories and interests is stored and the subject's own |
| Context.HardConstraintsAlwaysReturned | src/personalization_core/application/context_service.py:171-187 | A memory is a hard constraint of the bundle if and only if it is a stored effective in-scope explicit or confirmed constraint or instruction of the subject |
| Events.HolderIs | src/personalization_core/infrastructure/persistence/repositories.py:411-424 | There is at most one event per subject, source and key, and the lookup finds it |
| Events.FirstWriterWins | src/personalization_core/application/event_service.py:165-171 | Whoever holds a key holds it for good |
| Events.SuccessMeansStored | src/personalization_core/application/event_service.py:112-140 | Whatever others wrote between read and commit, success means the content sent is stored under the key with evidence attached, and created means the event is new |
| Events.ConflictMeansDifferent | src/personalization_core/application/event_service.py:207-220 | A conflict is reported exactly when another content holds the key in the tables read |
| Events.RetryMeansStored | src/personalization_core/application/event_service.py:142-158 | The retry keeps both promises |
| Events.RetryIsIdle | src/personalization_core/application/event_service.py:112-158 | With nobody else writing the retry changes nothing |
| Events.CountsPartition | src/personalization_core/application/event_service.py:331-348 | Created, replayed and failed counts add up to the items |
| Events.BatchesAgree | src/personalization_core/application/event_service.py:269-311 | An atomic batch succeeds exactly when the best-effort batch has no failure, and then leaves the same tables and items |
| EventService.Service.IngestEvent | src/personalization_core/application/event_service.py:112-158 | With arbitrary writers between its steps: success means stored with evidence, a conflict is the answer exactly if in the end another content holds the key of a subject that is not deleted, and no event or evidence is lost or altered |
| EventService.Service.IngestBatch | src/personalization_core/application/event_service.py:269-311 | Best effort is the fold of single ingestions; a failing atomic batch leaves the store unchanged |
| EventService.Request | src/personalization_core/sdk/remote_client.py:784-850 | At most max_retries+1 requests, one if the request may not be retried; success means stored; an answered client is told of a conflict exactly if another content holds the key of a subject that is not deleted, so that a conflict stored beforehand is always reported unless the subject is deleted meanwhile; no answer only after every attempt went unanswered |
| EventService.IngestRemotely | src/personalization_core/sdk/remote_client.py:123-143 | A key other than the event's own is refused before anything is sent; otherwise success and conflict mean what they mean to the client of `Request` |
| Purge.EveryPrefixDeletes | src/personalization_core/infrastructure/persistence/sqlalchemy_uow.py:174-225 | Along any children-first order every prefix of the deletes succeeds and removes exactly the subject's rows of its tables |
| Purge.OrderIsDependencyOrder | src/personalization_core/infrastructure/persistence/sqlalchemy_uow.py:174-225 | The order of the code is children-first |
| Purge.PurgeIsClean | src/personalization_core/infrastructure/persistence/sqlalchemy_uow.py:162-225 | The purge leaves no row of the subject and every row of every other subject |
| Purge.EventsNeedTheirChildrenGone | src/personalization_core/infrastructure/persistence/sqlalchemy_models.py:113-387 | The order matters: deleting events first fails as long as evidence names them |
| Purge.Session.PurgeSubject | src/personalization_core/infrastructure/persistence/sqlalchemy_uow.py:162-225 | The sequence of statements does it; an unknown subject changes nothing |
| PurgeInvariants.PurgeKeepsStore | src/personalization_core/infrastructure/persistence/sqlalchemy_uow.py:162-225 | References, unique keys, valid states, logs, counts and held evidence survive a purge |
| PurgeHealth.PurgeKeepsHealth | src/personalization_core/infrastructure/persistence/sqlalchemy_uow.py:162-225 | After a purge every stored state is still what a rebuild from the stored observations would give |
| PurgeHealth.PurgeKeepsVersions | src/personalization_core/infrastructure/persistence/sqlalchemy_uow.py:162-225 | The versions of the remaining snapshots are still 1 to n for each subject |
| Export.ListPaged | src/personalization_core/application/subject_service.py:149-196 | The paging loop returns the whole listing once, in order |
| Export.EverythingIsReached | src/personalization_core/application/subject_service.py:198-232 | In every reachable store an evidence row of the subject is bound to one of its memories or attached to one of its events, and only its own rows are reached |
| Export.ExportReader.ExportEvidence | src/personalization_core/application/subject_service.py:198-232 | The collected evidence is exactly the subject's |
| FullText.Tokenize | src/personalization_core/infrastructure/indexes/full_text.py:22-33 | The tokenizer loop equals its specification |
| FullText.TokensAreMaximalRuns | src/personalization_core/infrastructure/indexes/full_text.py:22-33 | With separators put back between them the tokens are the text: none is cut short and nothing alphanumeric is lost |
| FullText.TokensOfJoined | src/personalization_core/infrastructure/indexes/full_text.py:22-33 | Tokenizing undoes joining alphanumeric words with any separators |
| FullText.ThreeSortsAreOne | src/personalization_core/infrastructure/indexes/full_text.py:70-72 | The three stable sorts are one sort by score, update and id, whatever order the matches came in |
| FullText.CutIsTopK | src/personalization_core/infrastructure/indexes/full_text.py:73-76 | The cut has min(limit, matches) entries and nothing left out ranks before anything kept |
| FullText.Index.Collect | src/personalization_core/infrastructure/indexes/full_text.py:60-69 | The scan finds exactly the matching documents of the queried scope, each once |
| FullText.Index.Search | src/personalization_core/infrastructure/indexes/full_text.py:52-76 | The result is the top of the ranking over exactly those matches |
| FullText.Index.Upsert | src/personalization_core/infrastructure/indexes/full_text.py:48-50 | The documents are replaced under their keys in turn |
| FullText.LastUpsertWins | src/personalization_core/infrastructure/indexes/full_text.py:48-50 | Under each key the document given last is stored; other keys keep theirs |
| FullText.DeletionSilencesOneSubject | src/personalization_core/infrastructure/indexes/full_text.py:78-84 | After a deletion no query of the subject finds anything, and queries of every other subject find what they found before |
| Sorting.StablePasses | src/personalization_core/infrastructure/indexes/full_text.py:70-72 | Two stable sorts, least significant key first, are one lexicographic sort |
| Sorting.SortIgnoresOrder | src/personalization_core/application/profile_service.py:197-204 | A sort by a total key depends only on which elements there are |

## Left out

- Web application, routers, authentication, error mapping, SDK facades, command line, migrations: plumbing around the services.
- SQL text, isolation levels and locking: a transaction reads one state of the tables and executes its statements on one (possibly later) state, where the constraints are checked.
- Exceptions other than the domain errors and validation errors (connection loss, cancellation): a transaction that ends with one is an abandoned client.
- Floating-point rounding and underflow: decay is over exact reals, so a zero sum of weights for very old data does not arise.
- SHA-256 and JSON printing: a digest stands for the content itself; two contents have equal digests when they are equal.
- UUID generation: ids are parameters, and an id in use is refused by the tables; UUIDs are numbers ordered as their strings are.
- One clock reading per transaction, where the code reads the clock several times; the readings of a run's start and end are two parameters.
- String checks (non-blank fields, lengths, whitespace stripping) and case folding before tokenizing; which characters are alphanumeric is a parameter.
- JSON properties and metadata are opaque strings; nothing depends on their structure.
- Extractors and their registration, merge strategies, confirmation policies, embedders, rerankers and indexes are arbitrary parameters; validation of what a memory extractor returns before the writing phase (memory_service.py lines 785-823) is not modelled.
- Audit events, metrics, retention hooks, purge tokens, maintenance jobs and evaluation metrics: nothing else depends on them.
- Memory list filters by kind, authority and target, event list filters and paging of `list_events`: easy selections.
- Entity content and merging: an entity row is a reference, a text and a deletion time.
- Matched terms and the evidence list of a single context hit, index versions and query digest of a bundle: copied along.
- MemoryProtocol.RunsAreSafe: a purge is one step, because its statements run in one transaction; memory ids are taken to be given out once, because they are random UUIDs.
- FeatureService.Service.ProcessEvent: runs are serial, because concurrent writers can leave a stale state in the code; the retry after a lost insertion race (feature_service.py lines 304-310) cannot occur then.
- FeatureService.Service.ProcessPending: the listing is taken from the tables at the start of the run and events are not added during it, because runs are serial.
- EventService.Service.IngestEvent: the retry's own statements execute on the tables it read, because a third race would only repeat the second.
- EventService.Service.IngestBatch: nobody else writes during a batch, because the comparison of the two modes is about one batch alone.
- ProfileService.Service.RefreshProfile: the rows of `list_states` are a parameter in any order, because the database leaves ties of that listing open.
- ContextService.ResolveContext: the states of `list_states` are a parameter in any order, because interests that tie come in that order; how index and reranker scores combine is stated by `Boost` and `Rerank` alone, because safety holds for any scores.
