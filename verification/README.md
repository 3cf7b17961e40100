# Gacha engine service: model and proofs

A Dafny model of the gacha engine service: the pull engine, the frozen pull context and the
catalog it is taken from, pull evidence and its verification, the Postgres store behind its row
trigger, and the durable pull protocol in which request handlers and recovery workers share
operation and pity rows and talk to Asset (ledger), Kafka (log) and Backpack (rewards).

## Layout

| file | part of the service |
|---|---|
| `Collections.dfy` | options, results, dictionaries in key order, the values a list keeps of another |
| `CatalogConfig.dfy`, `CatalogAssembly.dfy`, `CatalogRepository.dfy` | banner configurations and schedules; how a payload builds them; releases and the cached provider |
| `VersionRows.dfy`, `OfferedVersions.dfy` | what a version builds, told by its rows; what a loaded release offers, and that one pity group is one pity |
| `SampleReleases.dfy` | three releases the loader accepts, on which promises that look unconditional fail |
| `Schemas.dfy`, `PullOperations.dfy` | pity, records, responses, events; the context a charged pull freezes |
| `Engine.dfy`, `EngineRules.dfy`, `DrawRules.dfy` | the pull loop over a stateful generator; pity and guarantee rules over any history of pulls; each record as the draws decide it |
| `PullAudit.dfy`, `EvidenceSufficiency.dfy` | evidence and replay; when equal evidence means equal pulls |
| `AlteredResponses.dfy` | which changed responses verification notices |
| `Store.dfy` | every SQL statement as a guarded change of the tables, the trigger, and the store class that performs them |
| `Protocol.dfy` | workers, store, ledger, log and Backpack as one transition system |
| `Invariant.dfy`, `Steps.dfy`, `Safety.dfy` | what holds in every reachable world, what one action can do, and that every action and every run keeps it |
| `Linearizability.dfy` | committed pulls are one sequential run; pity bounds over whole histories |
| `Accounting.dfy`, `StickyAnswers.dfy` | commits, charges, failures and refunds over runs |
| `Replays.dfy`, `Setbacks.dfy` | what a repeated request gets; what a worker does when a call fails or is not answered |
| `Fencing.dfy`, `Lifecycle.dfy` | token ownership; the path of an operation's status |
| `DeliveryOverRuns.dfy` | publications, rewards and answers over runs |
| `RetryLoop.dfy` | the optimistic loop around the pity version |
| `Recoverability.dfy`, `StuckPulls.dfy` | schedules that finish every unfinished operation; exactly when a charged one can be finished |
| `AcceptedPulls.dfy` | what a new request meets, and how any world accepts, charges and commits one more pull |
| `AuditOverRuns.dfy`, `AuditGap.dfy` | committed pulls verify against their release, exactly when it can be had; a pull whose release no longer can |
| `ScanRotation.dfy` | fairness of the pending event scan |

A run of the protocol is any sequence of actions. Each SQL statement or transaction is one
action that may take effect and answer, take effect and lose its answer, or do neither. An
external call is a request put on the wire, an effect its server applies at any later time (also
after the caller has given up or crashed), and a reply that may be lost. Workers crash between
any two actions; lease and lock times are arbitrary, so leases expire under live workers and
stale workers keep going. Any number of workers exists.

## Assumptions about the environment

- Asset deduplicates by idempotency key: a key is charged at most once and credited at most once,
  and a reply tells the truth about it. That its first definite answer for a key is final
  (`sticky`) is assumed only where a statement says so.
- Kafka may append an event put on the wire any number of times, at any later time. Backpack
  applies an event id at most once.
- Processing tokens and operation ids are fresh (uuid4); event ids, seeds, request hashes and
  digests are injective (uuid5, SHA-256); JSON stored in a column reads back unchanged.
- Each SQL transaction is atomic; published releases are immutable.
- The database starts empty, or with refund_pending rows that keep their context (`Init`);
  statements about a fresh database say `FreshInit`.
- Consecutive clock readings of the scan and its claims are strictly increasing (`ScanRotation.Clock`);
  nothing else assumes anything about time.
- The catalog database may fail to answer at any load (`answered`).
- Nothing is assumed about configurations except where a statement names it, as `Servable`,
  `Proper`, `SureFrom` or `PromisesFeatured`.

## Model

| member | source | states |
|---|---|---|
| `Engine.RollRarity` | gacha_engine_service/engine.py:80-104 | the stateful roll yields the rarity and stream position of the position-addressed account: none, one or two draws consumed, none at five-star hard pity |
| `Engine.RollItem` | gacha_engine_service/engine.py:119-135 | the item and generator position after it agree with the position-addressed account, a guaranteed feature taking no draw and a missed one drawing from the off-rate pool |
| `Engine.PerformPulls` | gacha_engine_service/engine.py:22-77 | the loop over one mutable generator and one mutable pity gives exactly the recursive batch of the seed's stream, including which error stops it |
| `DrawRules.RarityFollowsDraws` | gacha_engine_service/engine.py:80-116 | the rarity rolled, from the draws and the rule's own numbers, in both directions: at hard pity five without a draw; under the five-star chance five; then four-star hard pity, then the four-star chance; the chance is the base below the soft start and without one, else base plus one increment per count from the start on, at most certainty |
| `DrawRules.ItemFollowsDraws` | gacha_engine_service/engine.py:119-160 | the item and the draws it took: a guarantee or a draw under the featured rate picks among the featured ids in their order, a miss from the pool, without them if it sets the guarantee; the pool is the banner's own items of the rarity, or all of it when that leaves none; an error exactly names an unknown featured id or an empty pool |
| `DrawRules.PullsFollowDraws` | gacha_engine_service/engine.py:22-77 | a batch read off its seed's stream: record by record, rarity, item, index, id, printed pity and feature flag tell a draw that starts where the one before ended, made under counters and guarantee given as closed forms of the start and the records before it |
| `EngineRules.BatchIsLegal` | gacha_engine_service/engine.py:36-77 | every batch is a legal history of exactly the requested length, from the given pity to the returned one |
| `EngineRules.SoftPityIsSure` | gacha_engine_service/engine.py:107-116 | soft pity makes a rarity sure from the count on at which base rate and increments reach certainty, however far hard pity is |
| `EngineRules.ServablePullsSucceed` | gacha_engine_service/engine.py:80-160 | with rules for five- and four-stars and something to pick for each rarity on hit and miss, the engine answers for every pity, seed and count |
| `EngineRules.FiveStarWindow` | gacha_engine_service/engine.py:36-59 | across configurations and batches, every H consecutive pulls contain a five-star, when under each a five-star is sure from count H on, by hard or by soft pity |
| `EngineRules.FourStarWindow` | gacha_engine_service/engine.py:98-104 | no run of three-stars is as long as the count from which a four-star is sure |
| `EngineRules.CountdownFalls` | gacha_engine_service/engine.py:36-59 | every pull that is not a featured five-star lowers the distance to one by at least one and keeps it positive |
| `EngineRules.FeaturedWithinCountdown` | gacha_engine_service/engine.py:119-154 | from any pity below the sure count a featured five-star arrives within the countdown |
| `EngineRules.FeaturedWindow` | gacha_engine_service/engine.py:36-59 | every 2H consecutive pulls contain a featured five-star |
| `EngineRules.CountersRestateHistory` | gacha_engine_service/engine.py:43-59 | both counters are closed forms of their start and the rarities pulled |
| `EngineRules.EngineCounters` | gacha_engine_service/engine.py:36-77 | the returned pity and the pity printed on each record follow from the starting pity and the rarities alone |
| `EngineRules.GuaranteeRestatesHistory` | gacha_engine_service/engine.py:147-154 | over any history, across configurations, the guarantee is what the last five-star left: set if it was not featured and its configuration makes up for that; before any it is unchanged |
| `EngineRules.EngineGuarantee` | gacha_engine_service/engine.py:36-59 | the returned guarantee as a closed form of the given one and the records: of the last five-star, whether a miss sets it and this one missed |
| `EngineRules.FourCounterBound` | gacha_engine_service/engine.py:43-59 | the four-star counter stays below the sure count when five-stars reset it, else exceeds it by at most the five-stars since the last four-star |
| `PullOperations.FrozenConfigThaws` | gacha_engine_service/pull_operations.py:91-196 | freezing a configuration into a recovery context and thawing it gives the same configuration |
| `CatalogConfig.EffectiveIsScheduled` | gacha_engine_service/catalog_config.py:126-142 | a configuration in force comes from a schedule whose window contains the instant |
| `CatalogConfig.UnscheduledIsOffered` | gacha_engine_service/catalog_config.py:126-142 | a banner without schedules is offered at every instant as configured; one with schedules only as one in force says |
| `CatalogAssembly.GroupByOwner` | gacha_engine_service/catalog_repository.py:503-542 | the loop that files rules by owner and rarity files exactly the owners and rarities of the rows, and the last row of each pair wins |
| `CatalogAssembly.InsertSchedule` | gacha_engine_service/catalog_repository.py:444-453 | sorting in a schedule keeps every other one with its multiplicity |
| `CatalogAssembly.InsertedInOrder` | gacha_engine_service/catalog_repository.py:444-453 | and keeps the start order |
| `CatalogAssembly.SchedulesExactly` | gacha_engine_service/catalog_repository.py:440-453 | schedules exist exactly when every version builds; each banner's are then its versions, in start order, those of one start in payload order |
| `CatalogAssembly.ActiveExactly` | gacha_engine_service/catalog_repository.py:426-431 | active configurations exist exactly when every version builds and no two of one banner are in force, and are then those in force |
| `CatalogAssembly.BuiltConfigIsWellBuilt` | gacha_engine_service/catalog_repository.py:306-477 | every built configuration files rules and items under their own keys, has both rates and pity rules, and features only pooled items of the right rarity |
| `VersionRows.BuildsExactly` | gacha_engine_service/catalog_repository.py:306-477 | what a version builds, on the payload's rows: it builds exactly when its banner is listed, it has items, all known, its rules cover both rarities and its group is proper; the group is the named one when present and not empty, else the banner id; id, number and dates are the row's; the pool is its item rows in order, the featured ids those with a group, by rarity; each rule map comes from the rule set when that owns a row, else from the version, the last row of a rarity winning |
| `CatalogAssembly.Assemble` | gacha_engine_service/catalog_repository.py:306-477 | the assembly loop succeeds exactly when every version builds and no two of one banner are in force, and then sorts each banner's schedules and lists the configurations in force |
| `CatalogRepository.LoadsExactly` | gacha_engine_service/catalog_repository.py:169-246 | a release loads exactly when its checks pass, every version builds and no two versions of one banner are in force by their own dates |
| `CatalogRepository.LoadSnapshot` | gacha_engine_service/catalog_repository.py:169-246 | loading succeeds at exactly those instants, with each banner's schedules sorted and the configurations in force |
| `CatalogRepository.LoadTimeIrrelevant` | gacha_engine_service/catalog_config.py:126-142 | what a release offers for a banner at an instant does not depend on when it was loaded |
| `CatalogRepository.OfferedIsWellBuilt` | gacha_engine_service/catalog_repository.py:306-477 | whatever a loaded release offers is well built and is the asked banner's |
| `OfferedVersions.OffersExactly` | gacha_engine_service/catalog_config.py:126-142 | a loaded release offers a banner at an instant exactly when one version of it is in force by its own dates, and then what that version's rows say; none is no offer, two are an error |
| `OfferedVersions.OneGroupOnePity` | gacha_engine_service/catalog_repository.py:570-575 | over all runs, a user's pulls on any banners of any releases that name one group stand in one history, one after the other |
| `CatalogRepository.EmptyOffersNothing` | gacha_engine_service/catalog_repository.py:176-184 | when no release is current, no banner is offered |
| `CatalogRepository.SnapshotsOfOneReleaseAgree` | gacha_engine_service/catalog_repository.py:69-72 | any two snapshots of one release agree on everything an audit reads |
| `CatalogRepository.CachedCatalogProvider.GetSnapshot` | gacha_engine_service/catalog_repository.py:49-67 | a snapshot is served exactly when the cache is fresh, or the database answers and the current release loads or none is current; before the expiry it is the cached one, from then on one loaded at that instant, and only a new one replaces the cache |
| `CatalogRepository.CachedCatalogProvider.GetReleaseSnapshot` | gacha_engine_service/catalog_repository.py:69-72 | a release is had exactly when it is cached, or the database answers, has it, and it loads now; the snapshot is one of that release, the cached one if it is |
| `PullAudit.CollectEffectiveItems` | gacha_engine_service/pull_audit.py:67-77 | the growing selection keeps, in order, the pooled items and all items of rarities the pool does not cover |
| `PullAudit.EvidenceIsTaken` | gacha_engine_service/pull_audit.py:90-112 | a pull's audit is refused exactly when a release's snapshot does not name it in full; else it names release, version, configuration and builds, and a catalog without a release is no obstacle |
| `PullAudit.CheckRelease` | gacha_engine_service/pull_audit.py:116-216 | the release and configuration checks all pass exactly when release and configuration are the recorded ones |
| `PullAudit.VerifyPullResponse` | gacha_engine_service/pull_audit.py:116-216 | an exact verdict: verified iff the response reproduces (same release, digest, records, next pity and version); unverifiable iff evidence or release identity is missing or another generator drew it; mismatch iff the banner is absent, or the replay succeeds and does not give the response; an error iff schedules overlap or the replay fails; each named check is true of exactly what it names |
| `PullAudit.OneVerdict` | gacha_engine_service/pull_audit.py:116-216 | every response meets exactly one of these four |
| `AlteredResponses.RetoldDiffers` | gacha_engine_service/pull_audit.py:179-204 | of a response that reproduces, another telling of the same length is a mismatch if and only if something verification compares was changed |
| `AlteredResponses.AlteredIsMismatch` | gacha_engine_service/main.py:470-516 | over all runs: change any record, the next pity, the version or a recorded release number, digest or banner version of a committed response, and its audit at any time the release loads is a mismatch |
| `AlteredResponses.TruncatedReproduces` | gacha_engine_service/pull_audit.py:179-195 | verification replays as many pulls as the response has records, so a response cut short still verifies, exactly when the records kept leave the recorded next pity |
| `AlteredResponses.TruncationUnseen` | gacha_engine_service/pull_audit.py:179-195 | that happens: on an accepted version where every pull is a featured five-star, a batch of any length cut anywhere leaves the same pity |
| `EvidenceSufficiency.EvidenceFixesRules` | gacha_engine_service/pull_audit.py:19-77 | equal evidence means the same banner, group, version, rates and rules |
| `EvidenceSufficiency.SamePulls` | gacha_engine_service/pull_audit.py:19-77 | configurations with equal evidence pull alike whenever reachable misses stay inside the evidence |
| `EvidenceSufficiency.EscapeIsVisible` | gacha_engine_service/catalog_config.py:73-94 | when a reachable miss falls back to items the evidence omits, another configuration with the same evidence pulls a different item; the loader can build it if it can build the first |
| `EvidenceSufficiency.EvidenceDeterminesPullsExactly` | gacha_engine_service/pull_audit.py:19-77 | evidence determines the pulls if and only if no such miss is reachable |
| `EvidenceSufficiency.EvidenceDeterminesBuiltPullsExactly` | gacha_engine_service/pull_audit.py:19-77 | so it is among the configurations some payload builds |
| `EvidenceSufficiency.EqualEvidenceEqualPulls` | gacha_engine_service/pull_audit.py:19-77 | it does when every covered rarity whose misses set a guarantee keeps an off-rate pooled item |
| `EvidenceSufficiency.SoleFeaturedEscapes` | gacha_engine_service/engine.py:131-133 | it does not for a configuration a payload with real rates and pools builds, whose only pooled five-star is featured |
| `Store.TriggerStopsOnlySaves` | migrations/000008_reward_delivery_confirmation.up.sql:27-49 | claims, releases, fenced transitions and commits always pass the trigger |
| `Store.ClaimsTouchOneRow` | gacha_engine_service/postgres_state.py:844-874 | no claim, lock or release changes another row, or the owner or request hash of its own |
| `Store.SavesTouchOneRow` | gacha_engine_service/postgres_state.py:763-812 | no save or failure does either, and a save by user key meets only a row of its own request |
| `Store.CommitTouchesOnePity` | gacha_engine_service/postgres_state.py:274-317 | a commit moves one row and one pity, the pity by one version |
| `Store.LeaseExcludesClaims` | gacha_engine_service/postgres_state.py:844-855 | after a claim, request and recovery claims of the row succeed exactly when its lease has lapsed |
| `Store.LockExcludesClaims` | gacha_engine_service/postgres_state.py:857-874 | after a recovery lock, another succeeds exactly when it has lapsed or was released |
| `Store.BeginningExcludesClaims` | gacha_engine_service/postgres_state.py:685-712 | a new operation, and one a request claims, is as safe until its lease lapses |
| `Store.WhoMayClaim` | gacha_engine_service/postgres_state.py:685-712 | who may begin, claim, take over or lock an operation, exactly |
| `Store.WhoMayFinish` | gacha_engine_service/postgres_state.py:258-354 | who may fail or commit one, exactly, and which refusal each other caller gets |
| `Store.ClaimsAreStamped` | gacha_engine_service/postgres_state.py:844-874 | no claim, lock or release changes a row without its time, on which every scan's order rests |
| `Store.SavesAreStamped` | gacha_engine_service/postgres_state.py:763-812 | no save, failure or commit does either |
| `Store.SavesExactly` | gacha_engine_service/postgres_state.py:506-531 | an unfenced save goes through exactly when its row exists, has not succeeded and, if committed, keeps hash, response and event and moves no further back; the row then holds what was saved, and no claim or lock |
| `Store.OwnersLetGo` | gacha_engine_service/postgres_state.py:778-795 | a fenced failure and a commit leave what they write, and free their row of its claim |
| `Store.PostgresGachaStateStore.BeginPullOperation` | gacha_engine_service/postgres_state.py:111-171 | insert, else claim, else read: the new tables, and who holds a claim |
| `Store.PostgresGachaStateStore.CompareAndSetWithPullOperation` | gacha_engine_service/postgres_state.py:258-321 | pity version and operation move together or not at all, for the token holder on the expected version only |
| `Store.PostgresGachaStateStore.TransitionFromProcessing` | gacha_engine_service/postgres_state.py:323-354 | a fenced failure of a processing row, or no change |
| `Store.PostgresGachaStateStore.SavePullOperation` | gacha_engine_service/postgres_state.py:356-384 | an unfenced save by user key, guarded by request hash and trigger |
| `Store.PostgresGachaStateStore.SavePullOperationByKey` | gacha_engine_service/postgres_state.py:506-531 | an unfenced save by id, guarded by the trigger |
| `Store.PostgresGachaStateStore.ClaimExpiredProcessing` | gacha_engine_service/postgres_state.py:447-474 | an expired claim is taken over with its context kept |
| `Store.PostgresGachaStateStore.ClaimPullOperationRecovery` | gacha_engine_service/postgres_state.py:476-495 | a recovery lock is taken on a row of the expected status |
| `Store.PostgresGachaStateStore.ReleasePullOperationRecovery` | gacha_engine_service/postgres_state.py:497-504 | the lock is cleared, whoever holds it |
| `Safety.StartSafe` | gacha_engine_service/main.py:518-610 | accepting a request keeps the invariant; its context carries its own event id, price, count and seed |
| `AcceptedPulls.CatalogsServe` | gacha_engine_service/main.py:1210-1218 | the built-in catalog is always there, and so is the empty one while no release is current; a release's is there exactly when it loads |
| `AcceptedPulls.StartsExactly` | gacha_engine_service/main.py:518-610 | what a new request meets: overlapping schedules or refused evidence end it without a trace; a banner not offered at its acceptance leads to looking for a row of its key; else it goes on with a context of its own event id, count, seed, 160 per pull, audit and acceptance time that thaws to the offered configuration |
| `Safety.InsertSafe` | gacha_engine_service/postgres_state.py:685-697 | a row and its frozen context appear together, once per user and key |
| `Safety.ClaimSafe` | gacha_engine_service/postgres_state.py:699-712 | a claim keeps the context frozen first, whatever is offered with it |
| `Safety.ReactionOk` | gacha_engine_service/main.py:881-929 | whatever a reaction to a row answers, publishes or refunds is its committed response, its committed event or its frozen charge; that it does so, status by status, is `Replays.SelectReacts` and `Replays.ReconcileReacts` |
| `Safety.LedgerRejectSafe` | gacha_engine_service/main.py:698-742 | with final answers, a charged key is never rejected, because its spend calls are all the same |
| `Safety.FailSafe` | gacha_engine_service/main.py:714-742 | only an operation whose spend was rejected fails from processing |
| `Safety.CommitFacts` | gacha_engine_service/postgres_state.py:274-317 | a commit extends the group's history by one engine-made entry and leaves row, event, pity and history in agreement |
| `Safety.CommitMissed` | gacha_engine_service/main.py:838-876 | a commit that did not happen leads to a retry that has seen one more commit, to reconciliation, or to giving up |
| `Safety.DeliveredRow` | gacha_engine_service/postgres_state.py:763-776 | an unfenced delivery save either changes nothing or moves a committed row that is not succeeded |
| `Safety.RefundedRow` | gacha_engine_service/main.py:1460-1504 | an unfenced refund save only meets rows that are refund_pending or failed |
| `Safety.ActionSafe` | gacha_engine_service/main.py:613-963 | every action of every worker and of the outside keeps the invariant and takes nothing back |
| `Safety.RunSafe` | gacha_engine_service/main.py:613-1833 | so does every run |
| `Linearizability.Linearizable` | gacha_engine_service/main.py:801-859 | in every reachable world the rows committed to a group carry versions 1, 2, ... up to the stored one, each starts where the one before ended, and their records and the stored pity are what one worker alone would have computed on their contexts in that order |
| `Linearizability.WholeHistoryFiveStarWindow` | gacha_engine_service/engine.py:36-59 | over all records ever committed to a group by concurrent pulls, every H consecutive ones contain a five-star, when the committed configurations make one sure from count H on, by hard or soft pity |
| `Linearizability.WholeHistoryFeaturedWindow` | gacha_engine_service/engine.py:36-59 | and every 2H a featured one, when the committed configurations promise it |
| `Linearizability.StoredPityRestatesRecords` | gacha_engine_service/main.py:801-859 | the stored pity restates all records ever committed to its group: each counter is the records since the last one that resets it (the four-star counter when its configurations reset it alike), and the guarantee what the last five-star left |
| `Accounting.VersionCountsCommits` | gacha_engine_service/postgres_state.py:275-316 | a group's pity version is the number of its committed operations |
| `Accounting.CommittedExactlyOnce` | gacha_engine_service/postgres_state.py:275-316 | an operation is in the histories exactly when its row is committed, and then at one place only |
| `Accounting.SpendCallsNeverDiffer` | gacha_engine_service/main.py:698-706 | all spend calls under one key, at any two moments of a run, are the one frozen with the first claim |
| `Accounting.CommittedIsChargedPerRecord` | gacha_engine_service/main.py:574 | a committed operation is charged 160 for each of its records, and described to Asset with their number |
| `Accounting.ChargesMatchRecords` | gacha_engine_service/main.py:698-706 | summed over a group, charges of committed operations equal 160 times all its records |
| `Accounting.NoCreditsFromFreshDatabase` | gacha_engine_service/main.py:1145-1188 | from a fresh database no credit is ever asked for or given |
| `Accounting.FailureIsFree` | gacha_engine_service/main.py:714-742 | with final answers, a failed operation never was and never will be charged, and stays failed |
| `Accounting.ChargedNeverFails` | gacha_engine_service/main.py:714-742 | and a charged one never fails |
| `StickyAnswers.FailureCanCost` | gacha_engine_service/main.py:698-742 | without final answers, from every reachable world and for every new request any catalog serves, some way on ends with a failed operation that was charged |
| `Accounting.RefundIsExact` | gacha_engine_service/main.py:1775-1833 | a row left in refund_pending is credited at most once, with its own amount and reason, and is failed only once credited |
| `Steps.ActionStep` | gacha_engine_service/main.py:613-963 | an action moves its own worker only, gives out only new tokens, freezes contexts only with their row, and moves statuses only by commit, failure or a delivery's own save |
| `Fencing.OneOwner` | gacha_engine_service/postgres_state.py:699-712 | no operation ever has two workers holding its current token |
| `Fencing.LostOwnershipIsLostForever` | gacha_engine_service/postgres_state.py:844-855 | a token a row has stopped carrying never comes back |
| `Fencing.OnlyOwnerCommits` | gacha_engine_service/postgres_state.py:274-287 | only the holder of the current token commits |
| `Fencing.OnlyOwnerFails` | gacha_engine_service/postgres_state.py:778-795 | only the holder of the current token fails a processing operation |
| `Lifecycle.SavesFindTheirRow` | gacha_engine_service/main.py:1696-1737 | however late, a delivery's save finds its row committed, and a receipt's save finds it at least published |
| `Lifecycle.StatusFollows` | migrations/000008_reward_delivery_confirmation.up.sql:35-46 | every action leaves a status alone or moves it one step along its path, skipping none |
| `Lifecycle.TerminalAndCommittedAreFinal` | gacha_engine_service/postgres_state.py:763-812 | failed and succeeded are final; a committed hash, response and event never change; the status walks the path with falling rank |
| `DeliveryOverRuns.OnlyPaidCommittedEvents` | gacha_engine_service/main.py:932-963 | everything published, logged or rewarded is a committed event that retells its response, of an operation charged under the same id, banner, group, version and audit |
| `DeliveryOverRuns.PublicationsNeverDiffer` | gacha_engine_service/main.py:1696-1737 | all publications of an event id carry one payload |
| `DeliveryOverRuns.StatusTellsDelivery` | gacha_engine_service/main.py:1696-1737 | event_published means logged; succeeded means rewarded with that very event, for good |
| `DeliveryOverRuns.LockIsReleased` | gacha_engine_service/main.py:1757-1767 | a recovery worker that does not crash leaves a delivery only by releasing its lock, whatever failed |
| `DeliveryOverRuns.LockIsGivenBack` | gacha_engine_service/main.py:1757-1767 | unless the release is lost, the row can be locked again at any time and otherwise holds what it held |
| `DeliveryOverRuns.AnswersAgree` | gacha_engine_service/main.py:755-785 | any two answers under one user and key are identical |
| `DeliveryOverRuns.ConflictingRequestChangesNothing` | gacha_engine_service/main.py:1390-1398 | a request reusing a key with another hash changes no row, ledger, log, reward or answer, whatever others do meanwhile |
| `DeliveryOverRuns.StartingAConflict` | gacha_engine_service/main.py:518-610 | and starting it leads no further than that |
| `Replays.SelectReacts` | gacha_engine_service/main.py:1378-1457 | in every reachable world, a request that finds a row adds exactly the stored response as its answer if the row is event_published or succeeded with its hash, starts to publish the stored event, to answer with the stored response, if it is event_pending, credits the frozen charge if it is refund_pending, and else ends |
| `Replays.LookUpReacts` | gacha_engine_service/main.py:1302-1375 | so does a request for a banner no longer offered, on a row without a context; on one with a context it resumes that |
| `Replays.ReconcileReacts` | gacha_engine_service/main.py:755-776 | so does a worker unsure of its commit |
| `Replays.RebuiltChargeIsFrozen` | gacha_engine_service/main.py:1302-1375 | the charge rebuilt from a committed row without a context is the one frozen with it |
| `Replays.AcknowledgedIsAnswered` | gacha_engine_service/main.py:1402-1423 | an acknowledged publication made for a request adds its answer after the save, whatever became of the save |
| `Replays.UnacknowledgedIsRetried` | gacha_engine_service/main.py:1868-1880 | an unacknowledged one is tried three times, then given up |
| `Replays.ReplayIsAnswered` | gacha_engine_service/main.py:1399-1423 | from every reachable world with a committed pull, a request repeated under its key and hash, its banner still offered or not, can end answered with the stored response |
| `DeliveryOverRuns.OnlyRepliesAnswer` | gacha_engine_service/main.py:932-963 | only a delivery made for a request answers anyone, and only that request |
| `DeliveryOverRuns.DeliveredRowTells` | gacha_engine_service/main.py:1402-1423 | a delivery's save that gets through leaves the delivered response and event, the new status, and neither error, context, claim nor lock |
| `DeliveryOverRuns.FailureTellsWhy` | gacha_engine_service/main.py:714-742 | a failure that gets through keeps why: the code Asset rejected with, or the refund's reason |
| `DeliveryOverRuns.ReceiptDecides` | gacha_engine_service/main.py:1706-1737 | the receipt decides: unheard ends the delivery, received is saved, not received is published again |
| `DeliveryOverRuns.RefundLockIsReleased` | gacha_engine_service/main.py:1775-1833 | a recovery worker that refunds releases its lock whether its save got through or not |
| `Setbacks.SpendReplyDecides` | gacha_engine_service/main.py:698-742 | Asset's reply decides a spend, and only a true one: charged goes on to pull, rejected to fail with the code given, unknown leaves the operation processing |
| `Setbacks.UnreadPityReconciles` | gacha_engine_service/main.py:755-785 | a pity that cannot be read leads to reconciling; a pull the engine cannot answer ends |
| `Setbacks.UnheardCommitReconciles` | gacha_engine_service/main.py:755-785 | a commit whose answer is lost leads to reconciling, whether it took effect or not |
| `Setbacks.SaveLandsUnheard` | gacha_engine_service/main.py:1529-1543 | a delivery's save whose answer is lost has happened, a dropped one has not |
| `RetryLoop.AttemptOnce` | gacha_engine_service/main.py:801-859 | one attempt commits the response computed from the pity it read, or nothing, whatever others do in between |
| `RetryLoop.GenerateAndCommitPullWithRetry` | gacha_engine_service/main.py:788-878 | with others changing the database arbitrarily before and inside every attempt, each attempt but the last lost to a moved version on a row still owned; the last committed what it computed from the pity it read, still the stored one, or was the fifth lost, or met a lost or missing row, an engine error or a store that did not answer; nothing but the commit changes the database |
| `RetryLoop.ReconcileClaimedPull` | gacha_engine_service/main.py:755-785 | reading the operation again after an unknown commit takes the protocol's reconciliation step, and reacts to no row still processing |
| `RetryLoop.CommitLeadsOn` | gacha_engine_service/main.py:778-785 | a commit that took effect leads, acknowledged, to publishing the event it stored in answer to its request, else to reconciling |
| `RetryLoop.LosersLetOthersThrough` | gacha_engine_service/main.py:838-876 | a fifth conflict means at least five distinct other operations committed to the group since the loop began; its own stays processing, owned, charged and unrefunded |
| `Recoverability.HoldsWhatRecoveryNeeds` | gacha_engine_service/postgres_state.py:833-855 | unfinished operations keep their context, committed ones their response and event |
| `Recoverability.ScansExactly` | gacha_engine_service/postgres_state.py:823-842 | recovery takes up exactly the processing rows with a context whose lease has lapsed |
| `Recoverability.Advances` | gacha_engine_service/main.py:1546-1737 | from any world, one worker and answering services move an unfinished operation one step along its path |
| `Recoverability.Recoverable` | gacha_engine_service/main.py:1546-1833 | and, by rounds of falling rank, to succeeded or failed, if the engine has an answer for it |
| `Recoverability.EveryOperationRecovers` | gacha_engine_service/main.py:1546-1833 | in every reachable world of the real engine, for every operation whose configuration can be served |
| `StuckPulls.EndsExactlyWhenAnswered` | gacha_engine_service/main.py:1546-1640 | with final answers, a charged operation still processing can come to an end if and only if the world can come to a point at which the engine has an answer for it on the pity then stored |
| `StuckPulls.UnansweredNeverEnds` | gacha_engine_service/main.py:788-878 | so one the engine answers at no pity stays processing, charged and unrefunded in every later world |
| `StuckPulls.PaidAndStuck` | gacha_engine_service/engine.py:157-160 | from a fresh database, with any generator, a run on a release the loader accepts ends with such a pull |
| `SampleReleases.NoThreeStarIsAccepted` | gacha_engine_service/catalog_repository.py:485-500 | the loader also accepts a version with one five-star and one four-star, for which a three-star roll fails |
| `AuditOverRuns.WorkerKeepsRequested` | gacha_engine_service/main.py:518-610 | every frozen context was made from a snapshot the service could have |
| `AuditOverRuns.RequestedFromRelease` | gacha_engine_service/main.py:563-600 | such a context thaws to what its release offers at any load, and its audit names that release and digests that configuration |
| `AuditOverRuns.CommittedResponsesVerify` | gacha_engine_service/pull_audit.py:116-216 | every response committed in any run from a release reproduces from any load of that release, also after newer releases and takeovers; the release is there, buildable, and loads exactly when no two versions of one banner are in force |
| `AuditOverRuns.AuditPull` | gacha_engine_service/main.py:470-516 | the audit endpoint calls every such response verified exactly when its release is cached, or the database answers and no two versions of one banner are in force; otherwise it has no verdict; a response without a release is unverifiable exactly when a snapshot is served |
| `AuditGap.CommittedThenOverlapping` | gacha_engine_service/catalog_repository.py:426-431 | from a fresh database, with any generator, a pull accepted at 5 is committed from a release that no longer loads at 20 |
| `AuditGap.AuditAtTwenty` | gacha_engine_service/main.py:498-514 | and its audit at 20, with nothing cached, has no verdict |
| `ScanRotation.IterEventPendingPullOperations` | gacha_engine_service/postgres_state.py:814-821 | the scan lists exactly the first rows of the queue, in order |
| `ScanRotation.ShortScanListsAll` | gacha_engine_service/postgres_state.py:814-821 | a scan below its limit lists every event_pending and every event_published row, and nothing else |
| `ScanRotation.Deliver` | gacha_engine_service/main.py:1696-1737 | what a delivery attempt leaves behind for each outcome of publication and receipt check |
| `ScanRotation.RecoverOne` | gacha_engine_service/main.py:1675-1767 | a listed row is always claimed, ends behind every row not yet claimed, and no other row changes |
| `ScanRotation.RecoverPendingPullEventsOnce` | gacha_engine_service/main.py:1654-1772 | a pass claims exactly the head of the queue, leaves the rest ahead of it, and counts exactly the rows it delivered or sent once more |
| `ScanRotation.RecoverRepeatedly` | gacha_engine_service/main.py:1612-1640 | n undelivered events are all claimed within ceil(n / limit) passes, even if every delivery fails |

## Left out

- Display fields (names, types, themes, quotes), error texts, HTTP status codes, request ids, tracing and log lines.
- Routing, headers, authentication, readiness, settings, deployment files; `X-Request-Accepted-At` checks, so any acceptance time is allowed.
- Python's generator and float rounding: draws come from an abstract stream, rates are exact parts per million.
- Record ids are tuples rather than colon-joined strings, so two records whose joined texts coincide are not confused here.
- `compare_and_set` (postgres_state.py:78-109): the service never calls it, and it would move a version without an operation.
- Listing, summary and replay projections; `scripts/migrate_redis_state.py`; schema and backfill migrations other than the row trigger; its DELETE branch, since the service deletes nothing.
- One begin call uses the same new token for its insert and its claim; here each asks for its own, since a token the insert did not store is unknown to everyone else.
- The unique index on event ids is not modelled: event ids already follow from the unique user and key.
- Clock readings, lease and lock lengths and scan order in the protocol: any worker may pick any row the scan could return at any moment, with any times. `ScanRotation.dfy` has the clock, the order and the limit.
- Recovery scans and claims of refunds and of expired claims rotate like those of pending events and are only in the protocol.
- Catalog cache expiry in the protocol: a request may use any load of any published release, or the empty snapshot of a time without one.
- Release checks that do not shape configurations are one flag of a release, `checksumValid`: its checksum, schema version, project, environment and embedded release id, that its tables are arrays of objects, and that its timestamps parse.
- Attributes of a pity model other than its fields, when a rule names one as its guarantee key; the engine reads them as absent here.
- A refund_pending row without a stored context: recovery never picks it, and the starting worlds have none.
- Sleeping and back-off between attempts; three publication attempts are kept.
