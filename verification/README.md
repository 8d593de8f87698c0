# Verified model of the gateway and its control plane

A Dafny 4.11 model of the stateful cores of the repository, with proofs of what they keep
over all runs. `dafny verify dfyconfig.toml` checks everything.

- **Publishing.** `Ledger` is the publisher of controld: the ordered revisions, the active
  one, the bounded history of publishes, the durable copy, and every operation on them as the
  source does it, branch by branch. `LedgerRuns` proves what every run of these operations
  keeps, with failing saves and crashes. `PublishSystem` puts controld, gatewayd, gatewayd's
  two files and the calls between them into one transition system in which a reply may be
  lost, a request may arrive late or twice, and either side may die at any step; `Gatewayd`
  has the gateway's own code and its agreement with the steps of that system. `StateStore`
  has the three stores: the database, the file, and the one that moves from one to the other;
  `StoredRuns` puts whole runs of the publisher through the tables and back.
- **Configuration.** `Config` is normalisation and the copy through YAML, `Compiler` the
  compiler from a configuration to a snapshot. Both are what the coherence of the snapshots
  that the publisher keeps rests on. `Text` has trimming and case.
- **Telemetry.** `TelemetryStore` is the write-behind store as a machine of interleaved steps
  (recording, sending, overflow to direct writes, the batching writer, flush requests, close)
  together with the class whose methods do those steps; `SnapshotCache` is its version-keyed
  cache of results, read and filled concurrently. (`Sequences` and `Wrappers` have what
  several modules share.)
- **Updates.** `Updater` has file trees as maps from paths to contents, with a fault possible
  at any copy, and the manifest check that an installed tree must pass.
- **Gateway request path.** `RateLimit` is the token bucket limiter with its sweep of idle
  buckets, `KeyRotation` the rotation and quarantine of keys, `Fallback` the capped search
  over fallback models.
- **Prices.** `PricingAliases` is the worklist that finds the names a price may be listed
  under, normalisation and upstream keys included; `PricingReport` merges priced routes into
  models and totals (sums over dictionaries are in `MapSum`).
- **Control plane algorithms.** `ConfigDiff` is the structural diff of two configurations,
  `Benchmark` the scoring, aggregation and verdict of a benchmark.

Code that changes state in the source is modelled by classes and loops proved against
functions on values; the properties are lemmas about those functions. Where such a function
only computes, a lemma beside it says what its result means without using it. Crashes, failing
saves, replies, clocks, generated ids and the order in which goroutines run are parameters
or steps chosen freely.

Several claims that one would expect turn out to depend on a condition. They are stated with
the exact condition and, where that helps, with a concrete run that fails without it: the
rate bound (`RateBoundIff`), honest ids after a restart of the gateway
(`LabelsMatchIff`, `ServedMislabelledIff`, `CutThenRestartMislabels`,
`CallDuringBootMislabels`), convergence of a republish (`RepublishConverges`,
`RestoreOverwritesNewerCall`), coherent snapshots through the store
(`RestartKeepsCoherentIff`, `EverySnapshotIsFreshIff`, `EmptySourcesAreLost`), what a flush
makes the table hold (`FlushedIsInTable`, `FlushMissesUnqueued`), rollback as an exact
inverse (`RollbackIsIdentityIff`), backups shared within a second (`SharedBackupHarmlessIff`), cache hits of one moment (`HitExactIff`,
`HitCanBeTorn`), fair rotation (`WrappedIndexStarves`), quarantine of keys and of values
(`Quarantine`, `FailedValueEscapesIff`), totals by currency (`TotalsFollowModelsIff`,
`MixedCurrenciesDiffer`), dotted paths (`ReadsBackIff`), normal names of models
(`NormalAliasIdempotentIff`), the reported model
(`ModelInAnyOrderIff`) and monotone verdicts (`VerdictMonotoneIff`).

Where code and documentation disagree the model follows the code:
docs/config-publish-rollback.md:149-150 says that a failed compilation marks the publish
record as failed, but publisher.go:300-303 returns before any record is staged
(`Ledger.Publisher.PublishRevision`).

## Model

| member | source | states |
|---|---|---|
| `PublishSystem.ServedWasBuilt` | internal/control/publish/publisher.go:299-398 | in every run of both daemons (lost replies, late delivery, crashes of either at any step, overlapping calls) the payload served was built and sent by some step of the run, from a revision that the ledger had then or the update appended, and the ledger kept that revision with the snapshot sent |
| `PublishSystem.LabelsMatchIff` | cmd/gatewayd/snapshot_cache.go:118-197 | the reported snapshot and revision ids belong to the payload served exactly when it was not restored from two files written for requests with different labels |
| `PublishSystem.MislabelledOnlyAfterCutOrRename` | cmd/gatewayd/snapshot_cache.go:75-197 | with one call at a time, calls during a start included, served labels differ from the payload's own only after a restore that read a payload left without its meta rename, or saw a meta rename between its two reads |
| `PublishSystem.ServedMislabelledIff` | cmd/gatewayd/snapshot_cache.go:75-197 | with one call at a time and distinct snapshot ids exactly when the last meta rename between the two reads of the restore was for another request than the payload read, or there was none and that payload had been left beside the labels of another request |
| `PublishSystem.CutThenRestartMislabels` | cmd/gatewayd/snapshot_cache.go:98-115 | a concrete run in which the gateway dies between its two renames and then serves one revision under another's ids |
| `PublishSystem.CallDuringBootMislabels` | cmd/gatewayd/main.go:224-242 | a concrete run without overlapping calls, and with both files of one request in the end, in which a call between the two reads of a start makes the gateway serve one revision under another's id |
| `PublishSystem.RestoreOverwritesNewerCall` | cmd/gatewayd/main.go:224-242 | a concrete run in which the RPC server, started before the restore, accepts a newer snapshot that the restore then replaces with the old one |
| `PublishSystem.RepublishConverges` | cmd/controld/daemon.go:253-279 | from every reachable state, with any steps between the publish of the active revision and the handling of its call and any after it but another call, a start or a crash of the gateway: it serves exactly that revision's snapshot under its own ids if and only if no restore still under way has served something else, so always when the restore was over before the call was handled |
| `PublishSystem.RestoreUndoesCall` | cmd/gatewayd/main.go:224-242 | where a restore has read both files by then and would serve something else, its end undoes the call |
| `PublishSystem.RepublishMendsMislabelled` | cmd/controld/daemon.go:253-279 | a run in which the gateway serves one revision under another's id, and after the next republish the active revision's snapshot under its own |
| `PublishSystem.ConvergedIsCompiled` | internal/control/publish/publisher.go:435-475 | what it then serves is what the active revision's current configuration compiles to, over all runs of upserts, updates, saves and restarts in which a snapshot that a caller brings is that of its configuration and no update asks for no pricing sources |
| `PublishSystem.ConvergedIsCompiledIff` | internal/control/publish/publisher.go:435-475 | with updates of any configuration it is that exactly when the snapshot sent has pricing sources or the configuration means none |
| `PublishSystem.RepublishChangesOnlyTheIdIff` | internal/control/publish/publisher.go:299-341 | a second publish of a revision whose snapshot has all its upstream ids differs in the snapshot id alone exactly when that snapshot has a generation time of its own (or the clock stood still) |
| `PublishSystem.ReachKeepsSent` | cmd/gatewayd/rpc_server.go:54-95 | memory, both files, both temporary files and a restore under way only ever hold requests that were sent, each staged by a step of the run from a revision of the ledger at that step |
| `PublishSystem.SerialKeepsAgreement` | cmd/gatewayd/snapshot_cache.go:75-115 | with one call at a time, calls during a start included, the two files hold the same request except between the two renames or after a cut |
| `PublishSystem.ReachKeepsControlValid` | internal/control/publish/publisher.go:299-398 | the ledger and its stored copy stay valid through every interleaving of a publish with crashes and replies |
| `Gatewayd.Daemon.ApplyRequest` | cmd/gatewayd/main.go:673-803 | the snapshot is swapped in exactly when it has an id, the current schema, an address to listen on and a provider; otherwise nothing changes |
| `Gatewayd.Daemon.PersistLastApplied` | cmd/gatewayd/snapshot_cache.go:75-115 | the payload file is that of the call once two of the four operations have succeeded, the meta file once all have, and each is untouched before |
| `Gatewayd.Daemon.ApplySnapshot` | cmd/gatewayd/rpc_server.go:54-95 | applied is answered exactly when the snapshot was swapped in, under the ids, schema and time of the request, however far persisting got |
| `Gatewayd.Daemon.TryRestore` | cmd/gatewayd/snapshot_cache.go:118-197 | a start serves the payload file under the labels of the meta file, or without one under its own, and nothing without a payload or with labels that cannot be read |
| `Gatewayd.StepsDoWhatTheCodeDoes` | cmd/gatewayd/snapshot_cache.go:75-115 | the steps of the transition system do to the files what the gateway's code does |
| `Gatewayd.WholePersistHeals` | cmd/gatewayd/snapshot_cache.go:75-115 | after a persist that runs through, whatever the files held, a start reports the payload's own ids |
| `Gatewayd.CutPersistMislabelsIff` | cmd/gatewayd/snapshot_cache.go:75-115 | after a persist that stops early, the ids a start reports are the payload's exactly when the payload was not renamed yet or the labels were the same already |
| `Ledger.Publisher.ReplaceRevisions` | internal/control/publish/publisher.go:182-223 | refused exactly when an id is blank or repeated after trimming or the wanted active revision is not among them; a refusal changes nothing, and the stored copy follows the ledger when the save succeeds |
| `Ledger.Publisher.UpsertRevision` | internal/control/publish/publisher.go:227-256 | replaces in place or appends, activates only if asked, and stores the result |
| `Ledger.Publisher.CompileSnapshot` | internal/control/publish/publisher.go:435-475 | the kept snapshot, or a recompiled or mended one, which is then kept; an error changes nothing |
| `Ledger.Publisher.PublishRevision` | internal/control/publish/publisher.go:299-398 | a compile error returns before any record is staged; otherwise the last record carries the publish id, snapshot id, revision, kind and time of this publish, is observed without an error exactly when the reply was Applied and failed with that reply's own error otherwise, and the records before it are the newest that still fit, unchanged; the stored copy after each of the two saves, the request sent and the result follow for every reply |
| `Ledger.Publisher.Publish` | internal/control/publish/publisher.go:259-296 | publish and rollback keep the ledger valid, move the active revision only on Applied and then to the one asked for, put the outcome of exactly that reply on record, answer with success exactly on Applied, and send the kept, recompiled or mended snapshot labelled alike inside and out |
| `Ledger.PublishIsRecorded` | internal/control/publish/publisher.go:323-387 | every publish leaves one record more, observed without an error if and only if the reply is Applied and failed with the reply's error otherwise, cut to the limit in force, which is that of the revision once it is active |
| `Ledger.UpdateIsRecorded` | internal/control/publish/publisher.go:828-881 | so does every update, for the revision it makes, one that ended in an error and took its revision out again included |
| `LedgerRuns.RecordsTellTheRun` | internal/control/publish/publisher.go:323-398 | over every run, with crashes, failed saves and restarts: each record in memory or in the store is of one call of the run, with its ids, kind and time, observed only where that call's reply was Applied and failed only with the error that its reply gave |
| `LedgerRuns.EveryPublishIsRecorded` | internal/control/publish/publisher.go:259-398 | at any point of any run a publish that compiles, and an update, is put on record with what came of it |
| `Ledger.CompiledMeans` | internal/control/publish/publisher.go:435-475 | a kept snapshot with all its upstream ids is sent as it is, one without is compiled anew, and where there is no configuration its blank ids alone are filled in |
| `Ledger.Publisher.UpdateConfig` | internal/control/publish/publisher.go:828-881 | a compile error changes nothing; an error after publishing takes the revision out of the list in memory; otherwise the new revision is published |
| `Ledger.Publisher.LoadState` | internal/control/publish/publisher.go:159-178 | restores exactly when the stored names are distinct and not blank and the active one is among them, and otherwise changes nothing |
| `Ledger.Publisher.SetPolicy` | internal/control/publish/publisher.go:116-122 | a limit that is not positive means the default, and the newest records within it are kept |
| `Ledger.UpsertedMeans` | internal/control/publish/publisher.go:227-256 | an upsert leaves every other revision where and as it was, and has a copy of the new one in the place of its id or at the end |
| `Ledger.ReplacedMeans` | internal/control/publish/publisher.go:182-223 | a replacement holds copies of exactly the revisions given, in order, and the newest publishes that fit |
| `Ledger.ReplacedStaysValid` | internal/control/publish/publisher.go:182-223 | a replacement keeps the ledger valid and activates the revision asked for, or without one keeps the active id |
| `Ledger.UpsertedStaysValid` | internal/control/publish/publisher.go:227-256 | an upsert keeps the ledger valid and the active revision where it was unless asked to activate |
| `Ledger.PublishStaysValid` | internal/control/publish/publisher.go:299-398 | a publish keeps the ledger valid and moves the active revision only on Applied |
| `Ledger.UpdatedStaysValidIff` | internal/control/publish/publisher.go:828-881 | an update leaves a valid ledger exactly when the generated id is new or the update ended in an error |
| `Ledger.RemovedStaysValid` | internal/control/publish/publisher.go:867-872 | an update that ended in an error leaves a valid ledger with the same active revision, whatever the generated id was |
| `Ledger.ErrorLeavesOrphan` | internal/control/publish/publisher.go:864-872 | after an update that ended in an error the stored copy has one revision more than the list in memory |
| `LedgerRuns.LedgerInvariant` | internal/control/publish/publisher.go:182-398 | over every run with new generated ids: ids distinct and not blank, active index -1 or in range, history within a positive limit, in memory and in the store, and only records of publishes that died or could not be stored are left staged |
| `LedgerRuns.ActiveMovesOnlyWhenApplied` | internal/control/publish/publisher.go:259-398 | in every run publishing and updating move the active revision only on an Applied reply |
| `LedgerRuns.RestartBringsBackTheLastSave` | internal/control/publish/publisher.go:673-738 | a restart brings back the last save: revisions in order with their ids, the active one, normal forms of the configurations and the newest publishes that the active configuration's limit allows |
| `LedgerRuns.EverySnapshotIsFresh` | internal/control/publish/publisher.go:435-544 | over every run in which a snapshot that a caller brings is that of its configuration and no update asks for no pricing sources, the kept snapshot is what compiling the current configuration afresh gives, errors included |
| `LedgerRuns.EverySnapshotIsFreshIff` | internal/control/publish/publisher.go:435-544 | over every run in which a snapshot that a caller brings is that of its configuration, updates that ask for no pricing sources included: what publishing sends is what compiling the current configuration afresh gives exactly when it has pricing sources or that configuration means none |
| `LedgerRuns.EmptySourcesAreLost` | internal/control/publish/publisher.go:639-738 | an update that asks for no pricing sources, published and stored, and a restart: the snapshot kept is not that of the configuration read back |
| `LedgerRuns.RestartKeepsCoherentIff` | internal/control/publish/publisher.go:639-654 | through the store and back a kept snapshot stays that of its configuration exactly when the configuration does not have an explicitly empty source list |
| `LedgerRuns.BackfillRestoresIds` | internal/control/publish/publisher.go:506-527 | a compiled snapshot that lost its upstream ids is mended into what it was: the compiler and the publisher compute them alike, and a compiled snapshot never needs mending |
| `StateStore.SqliteStore.Save` | internal/control/publish/sqlite_store.go:174-261 | all tables are replaced or none: it succeeds exactly when ids are distinct, every insert succeeds and the commit does |
| `StateStore.SqliteStore.Load` | internal/control/publish/sqlite_store.go:63-171 | nothing before the first save, an error for an unknown version, otherwise the rows in order of their position |
| `StateStore.ReadBack` | internal/control/publish/sqlite_store.go:96-101 | reading a filled table in order of position gives back the entries in their order |
| `StateStore.LoadGivesTheLastSave` | internal/control/publish/sqlite_store.go:174-261 | after any sequence of saves, failed saves and crashes a load gives exactly the last state that was committed |
| `StateStore.FileStore.Save` | internal/control/publish/state_store.go:82-106 | the file holds the new state or, after a failure or a crash at any point, the old one |
| `StateStore.MigratingStore.Load` | internal/control/publish/sqlite_store.go:280-304 | an error of the primary store, its state if it has one, and otherwise what the legacy store gives, error included, copied over if that works |
| `StateStore.LegacyIsForgotten` | internal/control/publish/sqlite_store.go:280-313 | once the primary holds a state the legacy store is never read again, and every load gives the last state saved, or an error where the primary cannot be read |
| `StoredRuns.RunSurvivesRestart` | internal/control/publish/publisher.go:673-738 | after any run of the publisher, any attempts to save of which the last to land was that of its ledger, and a restart that reads the tables: the same revisions in order, the same one active, each configuration in its normal form, and the newest publishes that its limit allows |
| `StoredRuns.SaveLandsIff` | internal/control/publish/sqlite_store.go:174-261 | after any run of the publisher a save of its ledger lands exactly when it reaches its commit and no publish id comes twice |
| `Config.NormalIdempotent` | internal/core/config.go:354-588 | normalising the whole configuration twice changes nothing more |
| `Config.YamlMeansTheSameIff` | internal/core/config.go:186-203 | a copy through YAML keeps the meaning exactly when the source list is not explicitly empty |
| `Config.PricingSection.Normalize` | internal/core/config.go:474-531 | the section after the in-place changes is its normal form |
| `Config.PricingMeans` | internal/core/config.go:474-531 | intervals and timeouts that are given stay, the hours are the fewest that hold the minutes, and the sources are those listed with the section's values where they have none, or the ten known ones |
| `Config.TrimModels` | internal/core/config.go:567-576 | the alias models trimmed, in order, without the empty ones |
| `Config.TrimmedModelsInOrder` | internal/core/config.go:567-576 | each model is trimmed by itself and left out where that leaves nothing, in order |
| `Compiler.CompileModelTable` | internal/control/compiler/compiler.go:525-553 | one entry a model that is not blank, in the order of first mention, with its trimmed alias as the upstream model or, without an alias that is not blank, its own name |
| `Compiler.ModelTableIsExact` | internal/control/compiler/compiler.go:525-553 | every model that is not blank has exactly one entry, under its trimmed name; its upstream model is the trimmed alias where there is one that is not blank and the name itself otherwise |
| `Compiler.ModelTableInOrder` | internal/control/compiler/compiler.go:525-553 | entries come in the order in which their models are first mentioned |
| `Compiler.CompileFromConfig` | internal/control/compiler/compiler.go:89-143 | the snapshot depends on the normal form alone; disabled providers are left out and the first error is the result |
| `Compiler.CompilesIff` | internal/control/compiler/compiler.go:129-143 | a configuration compiles exactly when a provider is enabled and every enabled one has a name, a base URL, a model and no Anthropic URL that is not absolute |
| `Compiler.PayloadHoldsConfig` | internal/control/compiler/compiler.go:89-143 | a snapshot holds the listen address, exactly the enabled providers with their names, URLs, adapters, upstream ids and exact model tables, and the pricing sources, each in order |
| `Compiler.FirstErrorIsGiven` | internal/control/compiler/compiler.go:129-137 | the error is that of the first enabled provider that does not compile |
| `Compiler.UpstreamIdMeans` | internal/control/compiler/compiler.go:455-481 | the upstream id is the canonical form of the Anthropic URL or else of the base URL, without such a form the URL less the slashes at its end, and where that leaves nothing the provider's name |
| `Compiler.UpstreamIdNotBlank` | internal/control/compiler/compiler.go:455-481 | a compiled provider has an upstream id that is not blank |
| `Compiler.YamlCompilesTheSameIff` | internal/control/compiler/compiler.go:207-230 | a copy through YAML compiles to the same snapshot exactly when the source list is not explicitly empty or compiling fails anyway |
| `TelemetryStore.SummaryAccountsForEverything` | internal/telemetry/store.go:320-340 | at every interleaving the cached totals count and add up exactly the rows of the table, the records in flight, queued or in the open batch, and those of failed batches: requests, those that succeeded, those that did not, and each kind of tokens |
| `TelemetryStore.SumCounts` | internal/telemetry/store.go:417-439 | over any rows the totals are the number of requests, of those that succeeded and of the others, and the sum of each kind of tokens; errors count for nothing |
| `TelemetryStore.RowMeans` | internal/telemetry/store.go:1069-1095 | a row holds the record as it was handed over, but for a duration of zero, which is stored as one |
| `TelemetryStore.MemoryHoldsEverything` | internal/telemetry/store.go:320-355 | at every moment of every run memory counts the rows found at the start and all records so far, and the recent lists hold the two hundred newest of either kind, newest first |
| `TelemetryStore.EveryRecordPersistedOnce` | internal/telemetry/store.go:925-1067 | every record is in flight or in exactly one persistBatch call, never in two |
| `TelemetryStore.FlushIsABarrier` | internal/telemetry/store.go:944-961 | an acknowledged flush means that all writes queued before it went through persistBatch in their order, and no acknowledgement is closed twice |
| `TelemetryStore.FlushedIsInTable` | internal/telemetry/store.go:381-391 | once a flush is acknowledged every record whose enqueue was over when the flush joined the channel has been through persistBatch, so a table read from then on holds it unless its batch failed |
| `TelemetryStore.FlushMissesUnqueued` | internal/telemetry/store.go:381-391 | a run in which a record that the version counts is missing from the table after an acknowledged flush, because its enqueue had not finished |
| `TelemetryStore.CloseDrains` | internal/telemetry/store.go:904-923 | no step sends on the closed channel or closes anything twice, and when the first Close returns the whole queue has been through persistBatch |
| `TelemetryStore.SecondCloseReturnsEarly` | internal/telemetry/store.go:904-910 | a second Close gives no such guarantee: a run in which it finds the flag set while a write is still queued |
| `TelemetryStore.RunKeepsInvariant` | internal/telemetry/store.go:893-1001 | over every run memory is what the records make of it, the table is the committed batches in order, and the queue keeps its order and its barriers |
| `TelemetryStore.RunConserves` | internal/telemetry/store.go:925-1067 | any quantity added up over records is the same over all records and over the places where they can be |
| `TelemetryStore.PrependRecord` | internal/telemetry/store.go:1162-1186 | the newest first, at most the limit, nothing for a limit that is not positive |
| `TelemetryStore.Store.RecordRequest` | internal/telemetry/store.go:320-340 | the locked section adds one to the requests and to successes or failures as the record says, adds its tokens kind by kind, puts the record in front of the recent ones, and leaves the error list alone |
| `TelemetryStore.Store.RecordError` | internal/telemetry/store.go:342-352 | the locked section for an error record updates the error list and the version and leaves the totals alone |
| `TelemetryStore.Store.TrySend` | internal/telemetry/store.go:925-942 | a write joins the queue exactly when there is room and is otherwise left to be persisted directly |
| `TelemetryStore.Store.PersistBatch` | internal/telemetry/store.go:1003-1067 | all rows of a batch are committed or none, and which of the two depends on every statement and the commit |
| `TelemetryStore.Store.TakeMessage` | internal/telemetry/store.go:963-1001 | one turn of the writer: a full batch, a flush request and the end of the channel flush, anything else only joins the batch |
| `SnapshotCache.EveryPartIsCurrent` | internal/telemetry/store.go:354-401 | every part of a cache hit is that part of memory at some moment of the call, never older than the version read |
| `SnapshotCache.HitIsAtomic` | internal/telemetry/store.go:354-401 | a condition on the cache alone: an entry that was there when the version was read gives all parts as of that very moment |
| `SnapshotCache.HitExactIff` | internal/telemetry/store.go:354-401 | with distinct records a cache hit is memory as it was at its version exactly when no request was recorded between that version and the reading of the requests and no error between it and the reading of the errors |
| `SnapshotCache.HitSummaryIff` | internal/telemetry/store.go:354-401 | the totals of a cache hit are those of the version read exactly when no request was recorded between that version and the reading of the totals |
| `SnapshotCache.HitCanBeTorn` | internal/telemetry/store.go:379-400 | a run in which a hit mixes totals of one moment with errors of a later one |
| `Updater.VerifyManifest` | internal/release/manifest.go:223-300 | the report lists exactly what is wrong, and is clean exactly when every binary's file is there with its digest, the admin files are exactly those that were hashed if any were, the required, updating and shipped binaries are named, daemons have the product's version, and schema, versions and platform fit |
| `Updater.VerifiedIff` | internal/release/manifest.go:223-300 | a tree is what its manifest says, binary by binary, admin file by admin file, name by name and version by version, if and only if no issue belongs in the report; a blank admin digest matches no tree |
| `Updater.ManifestPinsPayload` | internal/release/manifest.go:223-300 | two trees that verify against one manifest agree on every binary and, if it has an admin digest, on all files below the admin directory |
| `Updater.ManifestDeterminesUpdate` | internal/updater/updater.go:935-954 | of two bundles that verify with the same manifest file, either leaves the same install tree |
| `Updater.Installation.BackUpInstallPayload` | internal/updater/updater.go:919-933 | every file that copying the bundle can touch is backed up first |
| `Updater.Installation.CopyBundlePayload` | internal/updater/updater.go:935-954 | on success exactly the payload is installed and the admin directory replaced; at any fault nothing outside the payload has changed |
| `Updater.Installation.RestoreInstallPayload` | internal/updater/updater.go:994-1008 | the backup laid over the install directory, or a partial one that touches no other file |
| `Updater.Installation.ApplyBundle` | internal/updater/updater.go:401-451 | rejected exactly when the manifest cannot be read or the bundle is not what it says; applied only with the whole payload copied, when bundle and installed tree are both what the manifest says and the payload files there before are in the backup; restored with every payload file back; and for every outcome what the install tree and the backups are |
| `Updater.Installation.Rollback` | internal/updater/updater.go:460-477 | the newest backup is laid over the install directory |
| `Updater.RestoredIsPutBack` | internal/updater/updater.go:440-446 | after a fault at any copy and a restore, every payload file that was there is as it was, and other files change only through older files in the same backup directory |
| `Updater.SharedBackupHarmlessIff` | internal/updater/updater.go:434 | two updates in one second share a backup directory: when the first was applied and the second failed and was restored, the second changed nothing outside its payload exactly when the first had changed no file outside it |
| `Updater.SecondUpdateUndoesFirst` | internal/updater/updater.go:434-446 | otherwise every file of the first payload outside the second is back at its content from before the first update, and all others are as the first one left them |
| `Updater.AppliedStillVerifies` | internal/release/manifest.go:223-300 | an applied bundle verifies where it was installed exactly when the bundle does, whichever checks are asked for, and carries the same manifest file |
| `Updater.RollbackIsIdentityIff` | internal/updater/updater.go:994-1008 | rolling back an applied update is the identity exactly when the bundle brought no new file name |
| `Updater.RollbackUndoesLastUpdateIff` | internal/updater/updater.go:1010-1026 | the backup that a rollback picks is that of the last update when the clock has not gone back, so it undoes that update exactly when the bundle brought no new file name |
| `RateLimit.Limiter.Allow` | internal/gateway/ratelimit/limiter.go:48-88 | one call of the object is one step of the table, verdict included |
| `RateLimit.Limiter.CleanupStaleBuckets` | internal/gateway/ratelimit/limiter.go:92-99 | exactly the buckets idle for more than five minutes go |
| `RateLimit.RateBound` | internal/gateway/ratelimit/limiter.go:48-88 | in every window of every run a key is granted at most burst + rps times its length, evictions included, when an idle bucket refills before it goes stale |
| `RateLimit.RateBoundIff` | internal/gateway/ratelimit/limiter.go:48-99 | the bound holds of every run exactly when the burst is not negative and rps times 300 reaches it |
| `RateLimit.GrantedIff` | internal/gateway/ratelimit/limiter.go:48-88 | where there is room for the key, a call is granted exactly when the key has a whole token |
| `RateLimit.SpacedCallPasses` | internal/gateway/ratelimit/limiter.go:48-99 | a call that comes at least a token's time after the key's earlier calls is never denied, whatever other keys do and whatever was swept, if there is room for the key at all |
| `RateLimit.EvictionRunGrants` | internal/gateway/ratelimit/limiter.go:92-99 | a run that breaks the bound otherwise: a burst, a pause long enough to be swept, another burst |
| `RateLimit.EvictionIsInvisible` | internal/gateway/ratelimit/limiter.go:48-99 | under that condition no caller can tell the limiter from one that never forgets a key, but for being turned away for lack of room |
| `RateLimit.MapStaysBounded` | internal/gateway/ratelimit/limiter.go:61-70 | the map never holds more than maxBuckets buckets |
| `PricingAliases.CanonicalPricingAliases` | internal/telemetry/pricing.go:449-495 | terminates and returns, each once and nearer ones first, exactly the names reachable from the normalised one by the stripping rules |
| `PricingAliases.PricingLookupCandidates` | internal/telemetry/pricing.go:427-447 | the names of the requested model first and then those of the effective one that are new, each kind in its own order and each name once |
| `PricingAliases.CollapseDashes` | internal/telemetry/pricing.go:556-558 | the loop ends, and with no two dashes in a row |
| `PricingAliases.StrippedIsShorter` | internal/telemetry/pricing.go:562-593 | one step offers at most twelve names, all strictly shorter |
| `PricingAliases.StrippedMeans` | internal/telemetry/pricing.go:449-593 | one step leads to a name exactly when it is what follows the last slash, what precedes a date, the last colon or a release word, or in a claude model an effort word |
| `PricingAliases.SnapshotIsADate` | internal/telemetry/pricing.go:570-586 | the rule that splits at dashes takes off a date of eight digits or of 4-2-2 digits and nothing else |
| `PricingAliases.NormalAliasMeans` | internal/telemetry/pricing.go:550-560 | a normal name has lower case and single dashes inside only, and otherwise the name's own characters in order |
| `PricingAliases.NormalAliasIdempotentIff` | internal/telemetry/pricing.go:550-560 | normalising again changes nothing exactly when taking dashes off the ends left no white space there |
| `PricingAliases.CleanIsNormal` | internal/telemetry/pricing.go:550-602 | a clean trimmed name is its own normal form, and the key for one upstream is made of both names |
| `PricingAliases.RoundLosesWeight` | internal/telemetry/pricing.go:459-492 | with at most twelve shorter names for the one taken out, the sum of thirteen to the length over the queue falls in each round |
| `PricingAliases.FoundBefore` | internal/telemetry/pricing.go:449-495 | a name n steps away has been found unless the queue still holds something no deeper |
| `PricingReport.ResolvePricing` | internal/telemetry/pricing.go:310-326 | the first candidate with a price for the upstream itself is used whatever general prices there are, otherwise the first candidate with a general price, and without a result no candidate name is in the catalogue |
| `PricingReport.BuildPricingSnapshot` | internal/telemetry/pricing.go:139-209 | the merged lines, currency totals and cached tokens of the routes that count; each currency's total is, over the routes priced in it, the tokens of each kind times the route's own rates |
| `PricingReport.TotalsAreBilled` | internal/telemetry/pricing.go:149-188 | prompt, completion, total and savings of a currency are the sums over its routes of uncached, cached and completion tokens times their own rates per million, and a currency is there exactly when a route is priced in it |
| `PricingReport.MillionTokens` | internal/telemetry/pricing.go:616-664 | a million completion tokens cost the output price, a million uncached prompt tokens the input price, a million cached ones the cached price if it is positive and otherwise the input price |
| `PricingReport.CostAdds` | internal/telemetry/pricing.go:616-664 | costs and savings are additive in the tokens of each kind |
| `PricingReport.CostHasItsParts` | internal/telemetry/pricing.go:616-640 | completion depends on the output price alone and the prompt's cost on the input and cached prices alone, the total is their sum, and the dollar amounts are these amounts exactly for dollars |
| `PricingReport.CountsAreCorrected` | internal/telemetry/pricing.go:655-664 | counts out of range cost what the nearest ones in range do |
| `PricingReport.CachedTokensMean` | internal/telemetry/pricing.go:655-664 | cached tokens are those counted, but none below zero and no more than the prompt has |
| `PricingReport.NormalPricingMeans` | internal/telemetry/pricing.go:517-540 | listed rates stay, a missing one is the dollar rate if that is positive, and a dollar price gets the dollar rates it lacks |
| `PricingReport.LineMeans` | internal/telemetry/pricing.go:162-189 | a line shows the effective name or else the requested one, is priced by the key found, and without one is grouped by the requested name or else the effective one |
| `PricingReport.ModelIsItsLines` | internal/telemetry/pricing.go:190-209 | the line of a merge key adds up exactly the lines with that key |
| `PricingReport.MergedKeepsFirstNames` | internal/telemetry/pricing.go:190-209 | a merged line keeps the display name, price and currency of the first line and for each other name the first that is not blank |
| `PricingReport.MergingConserves` | internal/telemetry/pricing.go:190-209 | whatever adds up (tokens, costs) is the same over merged lines and over routes |
| `PricingReport.ModelCostsAreCurrencyTotals` | internal/telemetry/pricing.go:149-209 | the costs of all models add up to the totals of all currencies |
| `PricingReport.CurrencyTotalsAreOfTheirModels` | internal/telemetry/pricing.go:139-298 | for a catalogue of normal keys and names without the separator of merge keys, lines that merge share one currency, and at every point of the loop each currency's total is what the models in it cost |
| `PricingReport.SameKeySamePrice` | internal/telemetry/pricing.go:278-326 | under the same condition two routes that are merged are priced alike or both without a price |
| `PricingReport.GroupedByPriceIsPriced` | internal/telemetry/pricing.go:278-326 | a route whose group name is a normal key of the catalogue finds a price |
| `PricingReport.TotalsFollowModelsIff` | internal/telemetry/pricing.go:149-209 | for any names: at every point of the loop each currency's total is what its models cost, exactly when every line that costs something joins a merged line of its own currency |
| `PricingReport.MixedCurrenciesDiffer` | internal/telemetry/pricing.go:278-288 | a concrete report in which they differ, because a model name with the separator in it makes an unpriced route and one priced in euros share a key |
| `PricingReport.SavingsCompleteTheCostIff` | internal/telemetry/pricing.go:616-664 | cost plus cache savings is the cost with nothing cached exactly when the prompt count is not negative or the cached rate makes no difference |
| `PricingReport.NormalPricingIdempotent` | internal/telemetry/pricing.go:517-540 | normalising a price twice changes nothing more |
| `KeyRotation.KeyRotator.Next` | internal/gateway/api/key_rotation.go:54-86 | hands out the key that the specification picks and advances the index, wrap-around included |
| `KeyRotation.PickIsFirstUsable` | internal/gateway/api/key_rotation.go:54-86 | the key handed out is the first, going round from the slot of the index or from the first slot for a negative one, that is not disabled and has fewer than three failures |
| `KeyRotation.KeyRotator.ReportSuccess` | internal/gateway/api/key_rotation.go:89-104 | resets the first key of that value |
| `KeyRotation.KeyRotator.ReportFailure` | internal/gateway/api/key_rotation.go:107-122 | counts a failure of the first key of that value |
| `KeyRotation.KeyRotator.TryRecover` | internal/gateway/api/key_rotation.go:137-159 | resets the count of exactly the keys with three failures or more whose last failure is known and a cooldown ago, changes no other key, and says whether there was one |
| `KeyRotation.EveryUsableKeyServed` | internal/gateway/api/key_rotation.go:54-86 | while the counter does not wrap, n calls in a row hand out every usable key of n |
| `KeyRotation.PicksAreUsable` | internal/gateway/api/key_rotation.go:54-86 | while the counter does not wrap, no call hands out an unusable key |
| `KeyRotation.PickNoneIff` | internal/gateway/api/key_rotation.go:54-86 | a call hands out nothing exactly when no key is usable, for every value of the counter |
| `KeyRotation.WrappedIndexStarves` | internal/gateway/api/key_rotation.go:54-86 | once the counter has wrapped to a negative value, n calls serve all usable keys exactly when no more than one is usable |
| `KeyRotation.Quarantine` | internal/gateway/api/key_rotation.go:54-159 | over all runs with distinct values a key is never handed out exactly when it is disabled or has failed three times since its last reset, which is a success or a TryRecover that found it quarantined for the cooldown |
| `KeyRotation.QuarantineOfEveryKey` | internal/gateway/api/key_rotation.go:54-159 | every key has a last reset or none in every run, and its quarantine is decided by the failures since |
| `KeyRotation.CountIsFailuresSince` | internal/gateway/api/key_rotation.go:89-159 | the failure count of the first key of a value is that of the failures since its last reset, on top of those it was loaded with if there was none |
| `KeyRotation.ResetEndsQuarantine` | internal/gateway/api/key_rotation.go:89-159 | either kind of reset puts an enabled key back into the rotation |
| `KeyRotation.LoadedFailuresNeverRecover` | internal/gateway/api/key_rotation.go:137-159 | a key loaded with three failures has no failure time and is never recovered |
| `KeyRotation.FailedValueEscapesIff` | internal/gateway/api/key_rotation.go:107-122 | once the first key of a value has failed three times since its last reset, the value is handed out all the same exactly when another key was loaded with that value that is usable |
| `KeyRotation.DuplicateValuesEscape` | internal/gateway/api/key_rotation.go:107-122 | two fresh keys of one value: whatever is reported, the value can always be handed out |
| `Fallback.ResolveFallbackModels` | internal/gateway/api/fallback.go:16-50 | the acceptable fallback names of the providers that list the model, each at its first occurrence |
| `Fallback.FallbacksAreOffered` | internal/gateway/api/fallback.go:16-50 | the fallback names are exactly those that some provider of the model offers, but for the empty one and the model itself |
| `Fallback.FallbacksInFirstOrder` | internal/gateway/api/fallback.go:16-50 | no fallback name comes twice, and they come in the order of first occurrence |
| `Fallback.OfferedInOrder` | internal/gateway/api/fallback.go:16-50 | offers are read provider by provider, each one's as it lists them |
| `Fallback.PlanMembers` | internal/gateway/api/fallback.go:84-125 | a candidate is tried for a model exactly when the model is a fallback model and has that candidate |
| `Fallback.PlaceInPlan` | internal/gateway/api/fallback.go:84-125 | the j-th candidate of the i-th model comes after all candidates of the models before it, and all are counted |
| `Fallback.TryFallbackModels` | internal/gateway/api/fallback.go:57-191 | at most ten attempts, made over the candidates of the fallback models in their order from the first, one check before each model and each attempt; it gives up only at the cap, for a client that has gone or a spent budget, and otherwise fails only after every candidate; the response is written once if the result is true and never if it is false |
| `Fallback.FallbackIsComplete` | internal/gateway/api/fallback.go:57-191 | with a client that stays and time to spare it succeeds exactly when one of the first ten candidates is served, and with ten candidates at most it fails only after every candidate of every fallback model that a provider offers has had its attempt, in order |
| `ConfigDiff.WalkDiff` | internal/control/api/ops.go:720-751 | appends every change between the two trees once, at its path from the root |
| `ConfigDiff.DiffConfigs` | internal/control/api/ops.go:711-718 | the whole diff of two configurations |
| `ConfigDiff.NoChangesIff` | internal/control/api/ops.go:720-751 | no change is reported exactly when the trees are equal with absent read as null |
| `ConfigDiff.ChangesMean` | internal/control/api/ops.go:720-751 | a change is reported exactly where the two trees share objects down to a path and then hold different values that are not both objects, with these values, as removed where the second is null, added where only the first is, and changed otherwise |
| `ConfigDiff.PathsFormAnAntichain` | internal/control/api/ops.go:720-751 | no reported path is another's or leads to another's |
| `ConfigDiff.ApplyingTheDiffGivesAfter` | internal/control/api/ops.go:720-751 | applied in any order the reported changes turn the first tree into the second |
| `ConfigDiff.ReadsBackIff` | internal/control/api/ops.go:731-736 | a path written with dots can be read back exactly when no key has a dot and the first key is not empty |
| `ConfigDiff.PlainPathsDiffer` | internal/control/api/ops.go:731-736 | two paths of that kind are written alike only if they are the same |
| `ConfigDiff.DottedPathsCollide` | internal/control/api/ops.go:731-736 | a concrete diff in which a dotted key and a nested one are reported under one path |
| `Benchmark.Score` | internal/control/benchmarking/suite.go:252-389 | a score is within 0..100 and is 100, so not a failure of a critical case, exactly when nothing asked for is missing; a stream succeeds exactly with data and a second sign of the protocol; a case not completed scores 0 |
| `Benchmark.ScoreMeans` | internal/control/benchmarking/suite.go:252-389 | what each part of a JSON answer and of a stream is worth, and a judge's score cut to 0..100 with success from 70 |
| `Benchmark.Aggregate` | internal/control/benchmarking/service.go:287-317 | the tally of the results in the order of their arrival |
| `Benchmark.TallyIsTotals` | internal/control/benchmarking/service.go:287-317 | tokens, cost, completed cases and critical failures are the totals over the results |
| `Benchmark.ReasonsComeFromArrivals` | internal/control/benchmarking/service.go:310-316 | a reason code is there exactly when a critical case that scored less than a hundred, or a case with an error, gives it |
| `Benchmark.FirstReportedModel` | internal/control/benchmarking/service.go:299-301 | the effective model is the first one that a response reports |
| `Benchmark.DimensionScoreMeans` | internal/control/benchmarking/service.go:319-334 | a dimension scores the mean over its cases, and 0 where there was none |
| `Benchmark.OrderDoesNotMatter` | internal/control/benchmarking/service.go:287-334 | tokens, cost, completion, critical failures and all dimension scores are the same for the same results in any order |
| `Benchmark.ReasonsInAnyOrder` | internal/control/benchmarking/service.go:310-316 | the same reason codes come out in any order of arrival |
| `Benchmark.ModelInAnyOrder` | internal/control/benchmarking/service.go:299-301 | the effective model does not depend on the order of arrival where all responses agree on it |
| `Benchmark.ModelInAnyOrderIff` | internal/control/benchmarking/service.go:299-301 | the effective model is the same in all orders of arrival exactly when all responses that report a model agree on it |
| `Benchmark.ModelDependsOnOrder` | internal/control/benchmarking/service.go:299-301 | wherever two responses report different models, moving either to the front makes the effective model differ |
| `Benchmark.ReportInAnyOrder` | internal/control/benchmarking/service.go:319-371 | completion rate, overall score, gaps, verdict and suspicion are the same in any order of arrival where the responses agree on their model |
| `Benchmark.WeightedAverage` | internal/control/benchmarking/service.go:862-876 | the weighted mean, in whatever order the dictionary comes, and 0 without weights |
| `Benchmark.AverageSplits` | internal/control/benchmarking/service.go:862-876 | every dimension adds its value, or 0 where it has none, times its weight, and the average is the whole of that over the whole of the weights |
| `Benchmark.AllScoresInRange` | internal/control/benchmarking/service.go:319-332 | where cases score within 0..100 and weights are not negative, every dimension and the overall score are within 0..100 too |
| `Benchmark.CompareAgainstBaseline` | internal/control/benchmarking/service.go:484-524 | the gap to the overall row if there is one, else the weighted mean of the differences the baseline has |
| `Benchmark.LastRowCounts` | internal/control/benchmarking/service.go:484-524 | a metric's baseline is its last row in per cent of the row's scale, cut to 0..100 |
| `Benchmark.GapMeans` | internal/control/benchmarking/service.go:484-524 | the gap is the distance of the overall scores where the baseline has one, otherwise the weighted mean of the distances in exactly the dimensions it has, and there is none without rows or weight |
| `Benchmark.GapInRange` | internal/control/benchmarking/service.go:484-524 | the gap to a baseline of any scale is within 0..100 for scores within 0..100 and weights that are not negative |
| `Benchmark.VerdictMonotoneIff` | internal/control/benchmarking/service.go:792-830 | at fixed completion and baselines a worse result never gets a milder verdict exactly when two critical failures at most mean high suspicion (or a threshold is negative, which normalising rules out) |
| `Benchmark.VerdictMeans` | internal/control/benchmarking/service.go:792-830 | exactly when each verdict is given, and when nothing is suspicious at all |
| `Benchmark.SuspicionAddsUp` | internal/control/benchmarking/service.go:792-830 | each critical failure adds twenty to the suspicion and each per cent less completion half a point, up to a hundred |
| `Benchmark.SuspicionGrows` | internal/control/benchmarking/service.go:792-830 | the suspicion score never falls for a worse result, whatever the thresholds |

## Left out

- Compiler.CompileFromConfig: the sections other than the address to listen on, the providers' names, URLs, models and upstream ids, and the pricing sources are one opaque part (`Env.copyRest`, `Env.copyProvider`), because they are copied field by field.
- Benchmark.Score: what the parsers find in a response is given by flags; reading the response bodies is JSON and text search.
- PublishSystem.ConvergedIsCompiled: a snapshot that a caller brings along is served as it is, whatever its configuration says, so runs with such snapshots are excluded; updates that ask for no pricing sources are the subject of PublishSystem.ConvergedIsCompiledIff.
- HTTP handlers, the RPC transport, sockets, command lines, the admin interface and its translations: plumbing around the cores.
- YAML, JSON and hashing are faithful or injective by assumption, but for the source list that YAML drops when it is explicitly empty; SQLite is a store that commits all statements of a transaction or none.
- URL parsing (`Env.parseUrl`) and the sections that normalising and compiling copy field by field (`Env.copyRest`, `Env.copyProvider`) are parameters.
- Trimming and case cover ASCII only. The built-in price catalogue, which replaces an empty one, and the loading of catalogues are not modelled: the catalogue is an input.
- The final sorts of the diff, of models and totals by value, and of manifest issues; secret redaction in the diff.
- Limits of archive extraction, download and version comparison of the updater; empty directories, file modes, leftover temporary directories, and a bundle unpacked into the install directory itself.
- Partial writes of the gateway's two temporary files and a payload file that does not parse: a file holds a whole request or is not there.
- Aliasing inside the compiler's copy of a configuration, which shares one list of aliases with the original: the model copies values.
- The watch of the configuration file: a watched revision is an upsert followed by a publish.
- How long controld waits and how often it retries while the gateway is not ready: each attempt is a publish of its own, at any moment.
- What the telemetry queries compute from the rows of the table, the time series cache, and a wrap-around of the version counter.
- The slots that bound concurrent benchmark runs, and the calls to the judge and the upstream: their results are inputs.
- The optional hook that compiles a revision in another way, which only unit tests set.
- The snapshot id and compiler version that compiling puts in: every publish replaces the id, and the model's compiler leaves it blank.
- Generators of ids: snapshot ids are not blank and the ids of new revisions are new by assumption; `Ledger.UpdatedStaysValidIff` says what a repeated one does.
- Rounding of floating point numbers and wrap-around of integers, but for the rotation counter, which wraps: money, tokens, scores and time are reals or unbounded integers.
- Routing, compatibility plans, the event log and the query store: the core only passes data to them.
