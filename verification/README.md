# Verification of the ML call cache

A Dafny model of a store that records the answers of machine-learning clients and replays them, with proofs that a cache
entry is whole and servable, or is not an entry. It models six things.

* **The recording service** over mutable rows, a blob store and a journal (`Executions`, `Repository`, `CacheModel`,
  `Storing`, `Engine`, `EngineRuns`). `CacheSpec` says on a plain map from keys to complete answers what one call does;
  `Engine` is proved to do exactly that, whatever the client does and whichever puts, marks and removals fail. `CacheLaws`
  proves what the map promises, for one call and for whole runs with blobs lost in between.
* **The same recording as a protocol** (`RecorderProtocol`, `RecorderTheorems`, `RecorderProgress`, `RecordOnce`): any
  number of recorders and readers, one database or blob-store step at a time, in any order, dying anywhere. What never
  goes wrong, and what gets done. `ProtocolRows` ties its rows to the repository's.
* **Retention and repair** over the same rows and blobs (`Purging`, `Eviction`, `PurgeService`, `RunService`, `Repairing`,
  `RepairService`, `Recovery`, `LossFree`, `StoreLife`).
* **Store encryption** (`Encryptor`, `EncryptionLifecycle`): staging, commit marker, roll-forward, with a step budget that
  runs out anywhere.
* **Locks and schema migration** (`KeyLock`, `LockAgreement`, `Migration`, `MigrationRace`).
* **Key framing and session reports** (`TextOrder`, `Framing`, `SessionReport`, `SessionLaws`).

`dafny verify dfyconfig.toml` checks everything.

## Conventions

* A SHA-256 digest is its preimage (collision-free); a blob's name is its execution's id and its content's digest; fresh
  execution ids count up; the input documents are a function of the key, which fingerprints them (but for
  `ArgumentsKeyedApart`: no argument and one empty argument share a key, and for that one pair this is an idealisation).
* `World` holds what surrounds one call: what the client does, whether content is reachable and storage healthy, and for each
  document whether its put is refused or its mark lost. Theorems hold for every `World`; only `SelfHeals` asks for a healthy one.
* An answer is `Whole` (with its documents) or `Broken` (its row lost a blob). `StoreOk` is what every completed operation
  keeps: one row per id, at most one servable row per key, artifact rows that name their own execution's blobs, and blobs each
  named by a row.
* In the encryptor `life` is the number of primitive file operations the process still makes; `Recovered` says what recovery
  makes of a disk. The cipher is any that satisfies its port's laws; sealing draws a fresh nonce each time.

## Where the code differs from what is said of it

* `journal_events.py:5-7` says every resolution emits exactly one event. A call emits none, and raises, exactly when
  the content it needs is out of reach, the store refuses, or a client that is called does not finish: `OneEventEach`,
  `ARaisingCallIsSilent`. RECORD means that a run was stored whole, not that the answer changed, for a failure
  recorded on request is stored whole too: `EventKindsExact`, `OnlyAStoredSuccessIsMapped`,
  `ARecordedFailureMapsNothing`.
* `cached_ml_execution_service.py:142-147` says the token gate comes before any read of content, and a METER call
  reads none. OFFLINE is served before METER is looked at, so a METER call with OFFLINE does read, and on a locked
  store raises at its first document: `TokenMissing`, `RaisesExact`, `ALockedReplayRaises`.
* `probe_service.py:24-25` says a probe and a run can never disagree. The probe looks at rows only. It says HIT for an
  entry that has lost a blob, which is not replayed, and it knows nothing of content out of reach, a store that
  refuses or a client that fails: `ProbeForecasts` has the condition of each verdict, `TheProbeCanBeWrong` an
  instance.
* `repair_store_service.py:23-24` says a run with every artifact reconciled is servable again. A run whose rows are
  all STORED but which was not finalised is not on the worklist: `PromotedExactly`, `RecordedThenRepaired`,
  `StoredButNeverRepaired`. And a run that repair promotes is broken when a blob of one of its STORED rows has been
  lost, even where it takes the place of a whole answer: `RepairDisplaces`, `AnAnswerIsDisplaced`. In a store that
  lost no blob and refused no removal it is whole: `RepairInARun`.
* The key framing is not injective when a key contains 0x1F: `UniquelyDecodable`, `SeparatorsCollide`. The NUL join
  gives no argument and one empty argument one fingerprint: `ArgumentsKeyedApart`.
* A DATASET hit on an answer without input can break it, when the put of new input bytes is refused:
  `BackFillMeaning`, `ABackFillCanBreak`. It then misses and is recorded again.

## Model

| member | source | states |
|---|---|---|
| Repository.InMemoryExecutionRepository.FindCurrent | packages/core/src/generic_ml_cache_core/testing/in_memory_execution_repository.py:72-76 | returns the first persisted, unsuperseded success of the key, and nothing when there is none |
| Repository.InMemoryExecutionRepository.Save | packages/core/src/generic_ml_cache_core/testing/in_memory_execution_repository.py:81-90 | the row goes to the end of its key's history; saving a servable row retires the servable rows before it; every other row keeps its value |
| Repository.InMemoryExecutionRepository.RecordOutcome | packages/core/src/generic_ml_cache_core/testing/in_memory_execution_repository.py:92-96 | the outcome is written to the one row with that id and to nothing else; an unknown id is refused and changes nothing |
| Repository.InMemoryExecutionRepository.PersistArtifact | packages/core/src/generic_ml_cache_core/testing/in_memory_execution_repository.py:98-100 | one artifact row is appended to the one run with that id; an unknown id is refused |
| Repository.InMemoryExecutionRepository.MarkArtifacts | packages/core/src/generic_ml_cache_core/testing/in_memory_execution_repository.py:102-117 | every artifact of the run that references the blob gets the status, no other does; a mark that matches none is refused |
| Repository.InMemoryExecutionRepository.FinalizeOutputPersisted | packages/core/src/generic_ml_cache_core/testing/in_memory_execution_repository.py:119-134 | refused, with nothing changed, while an artifact is not STORED; otherwise a success retires every servable row of its key and becomes the key's row, a failure retires none |
| Repository.InMemoryExecutionRepository.RemoveExecution | packages/core/src/generic_ml_cache_core/testing/in_memory_execution_repository.py:167-178 | exactly the row with that id goes, and the key with its last row; an unknown id changes nothing |
| Repository.InMemoryExecutionRepository.RunsAwaitingPersistence | packages/core/src/generic_ml_cache_core/testing/in_memory_execution_repository.py:193-205 | lists, in key order, each key's newest row when it is unpersisted and has an artifact that is not STORED, with its distinct unstored blobs |
| Repository.InMemoryExecutionRepository.AddInputArtifacts | packages/core/src/generic_ml_cache_core/testing/in_memory_execution_repository.py:227-239 | input rows go to the current row, and only when it carries no input yet |
| Repository.InMemoryExecutionRepository.SoftPurgeExecution | packages/core/src/generic_ml_cache_core/testing/in_memory_execution_repository.py:252-256 | every row of the key loses its artifacts and flags and stays in the history; no other key changes |
| Repository.InMemoryExecutionRepository.HardDeleteExecution | packages/core/src/generic_ml_cache_core/testing/in_memory_execution_repository.py:258-263 | the key and its history go, and nothing else |
| Repository.InMemoryExecutionRepository.TotalStoredBytes | packages/core/src/generic_ml_cache_core/testing/in_memory_execution_repository.py:265-272 | the bytes of the artifacts of all servable rows |
| Repository.InMemoryExecutionRepository.CurrentExecutionsWithSizes | packages/core/src/generic_ml_cache_core/testing/in_memory_execution_repository.py:274-284 | one entry per servable row, in key order, with its bytes |
| CacheModel.RowRewritten | packages/core/src/generic_ml_cache_core/testing/in_memory_execution_repository.py:92-117 | rewriting one row in place, its own blobs growing with it, keeps the store sound and moves no other key's answer |
| CacheModel.FinalizedMeaning | packages/core/src/generic_ml_cache_core/testing/in_memory_execution_repository.py:119-134 | finalising an unpersisted row of a sound store keeps it sound; the key's answer becomes that row's exactly when the row is a success |
| CacheModel.RemovedMeaning | packages/core/src/generic_ml_cache_core/testing/in_memory_execution_repository.py:167-178 | removing a row whose blobs are gone loses the key's answer exactly when the row was servable |
| CacheModel.LosingBlobs | packages/core/src/generic_ml_cache_core/application/usecase/cached_ml_execution_service.py:254-276 | whichever blobs are lost, a sound store stays sound, and an answer either stays as it was or is broken, never altered |
| Storing.PersistedMeaning | packages/core/src/generic_ml_cache_core/application/usecase/cached_ml_execution_service.py:717-772 | documents stored against an in-flight row change no answer; stored without a fault they hydrate to exactly the documents given |
| Storing.RecordedMeaning | packages/core/src/generic_ml_cache_core/application/usecase/cached_ml_execution_service.py:554-615 | outcome, documents and finalisation together change the answers only for a fully stored success, and then only its own key's, to exactly its documents |
| Storing.BackFillMeaning | packages/core/src/generic_ml_cache_core/application/usecase/cached_ml_execution_service.py:352-385 | what a DATASET hit makes of an answer without input: the input appended when every byte of it is there afterwards, a broken answer when one put of new bytes was refused |
| Storing.QuarantineMeaning | packages/core/src/generic_ml_cache_core/application/usecase/cached_ml_execution_service.py:278-289 | taking a broken current row and its blobs away loses exactly its own key's answer |
| Engine.CachedMlExecutionService.Execute | packages/core/src/generic_ml_cache_core/application/usecase/cached_ml_execution_service.py:120-210 | the result, the answers, the journal and the number of client calls are those of the plain map, for every mode, depth, client behaviour and put, mark or removal fault; the store stays sound |
| Engine.CachedMlExecutionService.RunFreshLocked | packages/core/src/generic_ml_cache_core/application/usecase/cached_ml_execution_service.py:423-495 | under the key lock: replays what has appeared meanwhile, or runs and records |
| Engine.CachedMlExecutionService.Settle | packages/core/src/generic_ml_cache_core/application/usecase/cached_ml_execution_service.py:459-495 | an interrupted run leaves no row, a raising client a visible failure, a finished one is recorded or returned unstored |
| Engine.CachedMlExecutionService.RecordStored | packages/core/src/generic_ml_cache_core/application/usecase/cached_ml_execution_service.py:554-615 | the answer changes only when every document was stored and the run succeeded; the event says whether the run was stored whole |
| Engine.CachedMlExecutionService.StoreRun | packages/core/src/generic_ml_cache_core/application/usecase/cached_ml_execution_service.py:573-591 | rows and blobs after the whole recorded run, under any fault schedule, and whether every document ended STORED |
| Engine.CachedMlExecutionService.PersistDocuments | packages/core/src/generic_ml_cache_core/application/usecase/cached_ml_execution_service.py:717-734 | the row carries one artifact per document in order, marked as its put and mark went, and the blobs are those whose put landed |
| Engine.CachedMlExecutionService.StoreBlob | packages/core/src/generic_ml_cache_core/application/usecase/cached_ml_execution_service.py:736-772 | a refused put marks FAILED and stores nothing, a lost mark leaves PENDING with the blob in place, otherwise STORED |
| Engine.CachedMlExecutionService.ServeCurrentIfHealthy | packages/core/src/generic_ml_cache_core/application/usecase/cached_ml_execution_service.py:254-276 | a whole answer is replayed; a broken one is removed and counts as a miss, unless its blobs cannot be removed and the call fails with the answer still there |
| Engine.CachedMlExecutionService.RemoveExecutionAndBlobs | packages/core/src/generic_ml_cache_core/application/usecase/cached_ml_execution_service.py:278-289 | removes exactly the blobs its own row names and then the row; a refused removal leaves the row |
| Engine.CachedMlExecutionService.ServeOffline | packages/core/src/generic_ml_cache_core/application/usecase/cached_ml_execution_service.py:299-332 | replays a whole answer or reports a miss, or raises when an entry with documents cannot be read for want of the token; a miss journals once and leaves rows and blobs untouched; the client is never called |
| Engine.CachedMlExecutionService.AccumulateInput | packages/core/src/generic_ml_cache_core/application/usecase/cached_ml_execution_service.py:352-385 | the answers after a hit's back-fill |
| Engine.CachedMlExecutionService.Hydrate | packages/core/src/generic_ml_cache_core/application/usecase/cached_ml_execution_service.py:793-810 | all documents, in order, with the stored bytes, or nothing when any blob is missing |
| Engine.CachedMlExecutionService.RunMetered | packages/core/src/generic_ml_cache_core/application/usecase/cached_ml_execution_service.py:617-651 | always calls the client, never touches rows or blobs; the event says whether a servable row existed |
| Engine.CachedMlExecutionService.OpenRun | packages/core/src/generic_ml_cache_core/application/usecase/cached_ml_execution_service.py:452-466 | a fresh id gets an IN_PROGRESS row before the client is called, and no answer changes |
| EngineRuns.ExecuteAll | packages/core/src/generic_ml_cache_core/application/usecase/cached_ml_execution_service.py:120-210 | over any sequence of calls, with any blobs deleted by others in between, results, answers, journal and client calls are those of a run of the plain map |
| EngineRuns.LoseBlobs | packages/core/src/generic_ml_cache_core/application/usecase/cached_ml_execution_service.py:254-276 | blobs deleted from outside leave the store sound, and each answer as it was or broken |
| EngineRuns.ProbeOnly | packages/core/src/generic_ml_cache_core/application/usecase/probe_service.py:32-44 | the verdict is that of the current row; nothing is changed |
| CacheLaws.OnlyItsOwnKey | packages/core/src/generic_ml_cache_core/application/usecase/cached_ml_execution_service.py:120-210 | a call changes at most its own key's answer and calls the client at most once |
| CacheLaws.OneEventEach | packages/core/src/generic_ml_cache_core/common/journal_events.py:5-8 | a call writes one event, of its own key, iff none of the failing branches is taken, named over the command, the answers and the world; it raises iff one is |
| CacheLaws.ClientCalledExactly | packages/core/src/generic_ml_cache_core/application/usecase/cached_ml_execution_service.py:120-210 | when a call runs the client, from the command, the answers and the world: every bypass and METER call, and a storing call with reachable content, nothing to replay and a store that does not refuse |
| CacheLaws.ALockedReplayRaises | packages/core/src/generic_ml_cache_core/application/usecase/cached_ml_execution_service.py:142-162 | a METER call with OFFLINE on a locked store: the gate lets it pass, reading the recorded answer raises, and no event is written |
| CacheLaws.ARaisingCallIsSilent | packages/core/src/generic_ml_cache_core/common/journal_events.py:5-8 | a call that raises and writes no event |
| CacheLaws.EventKindsExact | packages/core/src/generic_ml_cache_core/common/journal_events.py:12-23 | HIT iff served without the client, MISS iff an offline miss, RECORD iff the call stores a client run and every put and mark goes through, WOULD_HIT or WOULD_MISS iff METER, with the row present or absent, RUN otherwise; for every call that writes an event |
| CacheLaws.RaisesExact | packages/core/src/generic_ml_cache_core/application/usecase/cached_ml_execution_service.py:144-150 | content needed and out of reach, a refusing store, an interrupt and a client error are each raised iff their own branch's guard holds; the first two before the client is called; a raising call loses at most a broken answer |
| CacheLaws.OnlyAStoredSuccessIsMapped | packages/core/src/generic_ml_cache_core/application/usecase/cached_ml_execution_service.py:423-495 | of every call that runs the client: the key is mapped to the returned documents iff the client succeeds and every put and mark goes through; otherwise it keeps its answer or, in CACHE mode, has lost a broken one |
| CacheLaws.ARecordedFailureMapsNothing | packages/core/src/generic_ml_cache_core/application/usecase/cached_ml_execution_service.py:554-615 | a refresh that journals RECORD and leaves the answer as it was: a failure recorded on request |
| CacheLaws.FailedRefreshKeepsTheAnswer | packages/core/src/generic_ml_cache_core/application/usecase/cached_ml_execution_service.py:554-615 | a refresh that does not store a success, for whatever reason, leaves all answers unchanged |
| CacheLaws.OfflineNeverCalls | packages/core/src/generic_ml_cache_core/application/usecase/cached_ml_execution_service.py:299-332 | OFFLINE never calls the client, a miss changes nothing, and it replays iff there is a whole answer and no content it needs is out of reach |
| CacheLaws.HitsExact | packages/core/src/generic_ml_cache_core/application/usecase/cached_ml_execution_service.py:128-185 | a call replays iff the key has a whole answer, the call is cacheable, no content it needs is out of reach, and it is OFFLINE, or CACHE at a depth that stores output; the documents are the mapped ones |
| CacheLaws.SelfHeals | packages/core/src/generic_ml_cache_core/application/usecase/cached_ml_execution_service.py:254-276 | after a broken answer one healthy CACHE call runs the client once and records, and the next call replays exactly that |
| CacheLaws.ABackFillCanBreak | packages/core/src/generic_ml_cache_core/application/usecase/cached_ml_execution_service.py:352-385 | a DATASET hit that returns a whole answer and leaves it broken, so that no later CACHE call replays it |
| CacheLaws.ProbeForecasts | packages/core/src/generic_ml_cache_core/application/usecase/probe_service.py:32-44 | in every world: after NON_CACHEABLE the next CACHE call bypasses, after MISS it replays nothing, and each calls the client exactly when its guard allows; after HIT it replays iff the content is reachable and the answer has all its blobs, and a broken answer is run again iff the store does not refuse |
| CacheLaws.TheProbeCanBeWrong | packages/core/src/generic_ml_cache_core/application/usecase/probe_service.py:24-25 | a broken entry for which the probe says HIT and the next call runs the client |
| CacheLaws.AnswersAreTheLatest | packages/core/src/generic_ml_cache_core/application/usecase/cached_ml_execution_service.py:120-210 | over any run with losses in between, a whole answer is the one the newest stored success of its key returned, with the key's input appended at most once |
| CacheLaws.ReplaysReturnTheLatest | packages/core/src/generic_ml_cache_core/application/usecase/cached_ml_execution_service.py:334-350 | a replay returns the bytes of the newest stored success of its key, never a partial answer |
| CacheLaws.RunsReturnTheClientsAnswer | packages/core/src/generic_ml_cache_core/application/usecase/cached_ml_execution_service.py:554-615 | a call that ran the client returns, byte for byte, the client's stdout, its stderr and its files in order, followed by the input iff the run is recorded with it, whatever became of storing them; it says SUCCESS iff the exit code is 0; what it stores is the same |
| CacheLaws.ReplaysReturnAClientsBytes | packages/core/src/generic_ml_cache_core/application/usecase/cached_ml_execution_service.py:334-350 | over any run: a replay returns, byte for byte, the stdout, stderr and files that the client of an earlier call of the key gave, one that exited with 0 and was stored whole, followed by nothing or by exactly the key's input |
| CacheLaws.JournalAccounts | packages/core/src/generic_ml_cache_core/common/journal_events.py:5-23 | over any run: executions journaled = client runs that returned, hits = replays, misses = offline misses; the only client calls not journaled are those that raised |
| RecorderProtocol.EveryStepKeeps | packages/core/src/generic_ml_cache_core/application/usecase/cached_ml_execution_service.py:423-615 | no single step of any recorder or reader, with locks timing out and processes dying anywhere, breaks the invariant: one servable row per key, each complete with all its blobs, each recorder alone on its row |
| RecorderProtocol.FinalizeKeeps | packages/core/src/generic_ml_cache_core/testing/in_memory_execution_repository.py:119-134 | finalising, raced by other finalisers of the key, leaves one servable row, complete |
| RecorderProtocol.MarkKeeps | packages/core/src/generic_ml_cache_core/application/usecase/cached_ml_execution_service.py:736-772 | marking after a put keeps `every document so far is STORED and present` exactly when both landed |
| RecorderTheorems.EveryStateIsSafe | packages/core/src/generic_ml_cache_core/application/usecase/cached_ml_execution_service.py:459-495 | the invariant holds in every state of every schedule, with no mutual exclusion assumed |
| RecorderTheorems.CurrentIsComplete | packages/core/src/generic_ml_cache_core/application/usecase/cached_ml_execution_service.py:254-276 | whatever row a reader finds is the whole answer of a client that succeeded, every byte of it stored |
| RecorderTheorems.AnswersChangeByFinalizingOnly | packages/core/src/generic_ml_cache_core/testing/in_memory_execution_repository.py:119-134 | a step changes a key's answer iff it finalises a success of that key, and then to that client's documents: the old complete answer or the new one |
| RecorderTheorems.AnAnswerIsNeverLost | packages/core/src/generic_ml_cache_core/testing/in_memory_execution_repository.py:119-134 | once a key has an answer no step leaves it with none |
| RecorderTheorems.ReadersReturnCurrentAnswers | packages/core/src/generic_ml_cache_core/application/usecase/cached_ml_execution_service.py:334-350 | what a reader returns, fetched blob by blob while others record, was the key's current answer at an earlier moment |
| ProtocolRows.SaveRepresents | packages/core/src/generic_ml_cache_core/testing/in_memory_execution_repository.py:81-90 | inserting a row in the history table is inserting it in the protocol's rows |
| ProtocolRows.FinalizeRepresents | packages/core/src/generic_ml_cache_core/testing/in_memory_execution_repository.py:119-134 | finalising in the history table is finalising in the protocol's rows |
| ProtocolRows.RemoveRepresents | packages/core/src/generic_ml_cache_core/testing/in_memory_execution_repository.py:167-178 | removing from the history table is removing from the protocol's rows |
| ProtocolRows.SetRowRepresents | packages/core/src/generic_ml_cache_core/testing/in_memory_execution_repository.py:92-117 | rewriting a row of the history table is rewriting it in the protocol's rows |
| ProtocolRows.FindCurrentAgrees | packages/core/src/generic_ml_cache_core/testing/in_memory_execution_repository.py:72-76 | with one servable row per key both forms find the same current row |
| RecorderProgress.LeavesWithItsRunRecorded | packages/core/src/generic_ml_cache_core/application/usecase/cached_ml_execution_service.py:573-591 | whatever others do in between: a recorder none of whose puts and marks is lost, with a success or a failure it records, leaves only after its row was persisted with every document STORED and in place; a success was then the key's answer, with the client's documents |
| RecorderProgress.UndisturbedRecords | packages/core/src/generic_ml_cache_core/application/usecase/cached_ml_execution_service.py:423-615 | from any state that others may have left, with the lock free: a call that finds no answer or wants none, stepping alone with nothing lost, ends with its run recorded whole, its documents the key's answer if it succeeded, every other answer as it was, and the lock free again |
| RecorderProgress.UndisturbedReplays | packages/core/src/generic_ml_cache_core/application/usecase/cached_ml_execution_service.py:254-276 | and a CACHE call of a key that has an answer ends by returning it, changing nothing |
| RecorderProgress.UndisturbedCallAgrees | packages/core/src/generic_ml_cache_core/application/usecase/cached_ml_execution_service.py:120-210 | an undisturbed call ends with the answer and the documents the plain map gives |
| RecorderProgress.StoppedRunsLeave | packages/core/src/generic_ml_cache_core/application/usecase/cached_ml_execution_service.py:476-489 | a stopped client leaves no row, a raising one a FAILED row without documents |
| RecorderProgress.ContendersCan | packages/adapters/src/generic_ml_cache_adapters/adapter/outbound/persistence/filesystem_execution_key_lock.py:177-193 | looks, fetches, acquires of a free lock and timeouts are steps whenever they are due |
| RecorderProgress.RecordersCan | packages/core/src/generic_ml_cache_core/application/usecase/cached_ml_execution_service.py:471-495 | a client may give any answer, be stopped or raise, and a recorder's next write is always a step |
| RecorderProgress.LostPut | packages/core/src/generic_ml_cache_core/application/usecase/cached_ml_execution_service.py:749-760 | a refused put stores nothing and is marked next |
| RecorderProgress.LostMark | packages/core/src/generic_ml_cache_core/application/usecase/cached_ml_execution_service.py:761-771 | a lost mark leaves rows and blobs; after a landed put the run goes on unfinalised, after a refused one the call gives up |
| RecorderProgress.FailedMark | packages/core/src/generic_ml_cache_core/application/usecase/cached_ml_execution_service.py:749-760 | the mark after a refused put says FAILED of every row of those bytes |
| RecorderProgress.DyingLeaves | packages/core/src/generic_ml_cache_core/application/usecase/cached_ml_execution_service.py:423-615 | a process may die at any step; rows and blobs stay and its lock is free |
| RecordOnce.RecordedOnce | packages/core/src/generic_ml_cache_core/application/usecase/cached_ml_execution_service.py:434-447 | with no timed-out wait and only CACHE calls for a key, however many contenders run, crash and interleave: at most one stored success, every replay returns it, and nobody runs the client while it is there |
| RecordOnce.LateContendersReplay | packages/core/src/generic_ml_cache_core/application/usecase/cached_ml_execution_service.py:173-185 | a contender that looks after the answer is there ends, if at all, by returning exactly it, without the lock or the client |
| RecordOnce.OneRecorder | packages/adapters/src/generic_ml_cache_adapters/adapter/outbound/persistence/filesystem_execution_key_lock.py:132-152 | two contenders past the lock of one key are one |
| Encryptor.RecoveryIsIdempotent | packages/adapters/src/generic_ml_cache_adapters/adapter/outbound/crypto/store_encryptor.py:81-93 | recovery settles the store, and on a settled store does nothing |
| Encryptor.StoreEncryptor.Recover | packages/adapters/src/generic_ml_cache_adapters/adapter/outbound/crypto/store_encryptor.py:81-93 | dying anywhere in recovery leaves a store that recovers to the same outcome; a finished recovery is that outcome; on a settled store it takes no step; it fails to finish only when given too few steps for what is on the disk |
| Encryptor.StoreEncryptor.FinishCommit | packages/adapters/src/generic_ml_cache_adapters/adapter/outbound/crypto/store_encryptor.py:161-174 | replaying the roll-forward from any point gives the same store |
| Encryptor.StoreEncryptor.MoveStaged | packages/adapters/src/generic_ml_cache_adapters/adapter/outbound/crypto/store_encryptor.py:161-168 | half-moved blobs recover to the same store as unmoved ones |
| Encryptor.StoreEncryptor.Commit | packages/adapters/src/generic_ml_cache_adapters/adapter/outbound/crypto/store_encryptor.py:157-179 | before the marker the store recovers to what it was, from the marker on to what it becomes |
| Encryptor.StoreEncryptor.Stage | packages/adapters/src/generic_ml_cache_adapters/adapter/outbound/crypto/store_encryptor.py:149-155 | the staged blobs are the live ones transformed, one for one; a transform that fails stops it with the live blobs untouched |
| Encryptor.StoreEncryptor.Enable | packages/adapters/src/generic_ml_cache_adapters/adapter/outbound/crypto/store_encryptor.py:97-105 | finished: every blob sealed under one key wrapped for the token; died: the store recovers wholly before or wholly after; refused only when already encrypted, unchanged; with steps enough for the blobs it does not die |
| Encryptor.StoreEncryptor.Disable | packages/adapters/src/generic_ml_cache_adapters/adapter/outbound/crypto/store_encryptor.py:107-116 | finished: every blob opened; died: wholly before or wholly after; refused for no manifest, a wrong token or an unreadable blob, and then it recovers unchanged; with steps enough it does not die |
| Encryptor.StoreEncryptor.Rotate | packages/adapters/src/generic_ml_cache_adapters/adapter/outbound/crypto/store_encryptor.py:118-128 | no blob differs; only the wrapped key does |
| EncryptionLifecycle.EnableThenRecover | packages/adapters/src/generic_ml_cache_adapters/adapter/outbound/crypto/store_encryptor.py:81-105 | enable dying anywhere, then any number of dying recoveries: the store that comes through is exactly the old one or exactly the enabled one, settled; it is the enabled one when enabling finished, and enabling does not die when given its steps |
| EncryptionLifecycle.DisableThenRecover | packages/adapters/src/generic_ml_cache_adapters/adapter/outbound/crypto/store_encryptor.py:81-116 | the same for disable; after a refusal the recovered store is the old one |
| EncryptionLifecycle.DisablingRestores | packages/core/src/generic_ml_cache_core/application/port/outbound/cipher_port.py:33-59 | from the cipher laws alone, switching off gives back every original blob byte for byte, and only the token in force can do it |
| EncryptionLifecycle.RotatingKeeps | packages/adapters/src/generic_ml_cache_adapters/adapter/outbound/crypto/store_encryptor.py:118-128 | after a rotation the content is held under the new token and no blob has changed |
| EncryptionLifecycle.TheCurrentTokenWorks | packages/core/src/generic_ml_cache_core/application/port/outbound/cipher_port.py:43-59 | the token in force is never refused and never meets an unreadable blob |
| EncryptionLifecycle.Live | packages/adapters/src/generic_ml_cache_adapters/adapter/outbound/crypto/store_encryptor.py:81-128 | over any sequence of enable, disable, rotate and recover, each cut off anywhere: each finishes with exactly its own effect, is refused only for its own reason, or dies, and then only short of steps, leaving the store before or after it; the recovered store stands for the original blobs, and a finished disable gives them back |
| Purging.PurgeMeaning | packages/core/src/generic_ml_cache_core/application/usecase/purge_service.py:196-246 | purging a key loses its answer and its blobs, and no answer and no blob of any other key |
| Purging.BytesAreConserved | packages/core/src/generic_ml_cache_core/application/usecase/purge_service.py:258-280 | bytes on disk before plus missing named bytes equal bytes after plus bytes reported; with nothing missing, before = after + freed, shared blobs once |
| PurgeService.BlobSizesFor | packages/core/src/generic_ml_cache_core/application/usecase/purge_service.py:258-269 | each blob the history names, once, with its size, and no other |
| PurgeService.RemoveBlobs | packages/core/src/generic_ml_cache_core/application/usecase/purge_service.py:271-280 | exactly the collected blobs go, and the sum of their sizes is reported |
| PurgeService.PurgeService.SoftPurgeKeys | packages/core/src/generic_ml_cache_core/application/usecase/purge_service.py:196-221 | rows, blobs, answers and reported bytes after purging the keys one by one; every named blob counted once; other keys untouched, histories keep their lengths |
| PurgeService.PurgeService.HardDeleteKeys | packages/core/src/generic_ml_cache_core/application/usecase/purge_service.py:223-246 | the keys, their rows, blobs and journal events go, and nothing else; every named blob counted once |
| PurgeService.EventsKeptAre | packages/core/src/generic_ml_cache_core/application/usecase/purge_service.py:232-232 | the journal keeps the events of all other keys, in their order |
| PurgeService.WithoutIsKept | packages/core/src/generic_ml_cache_core/application/usecase/purge_service.py:232-232 | deleting one key's events is keeping the others' |
| PurgeService.PurgeService.PurgeByKey | packages/core/src/generic_ml_cache_core/application/usecase/purge_service.py:106-109 | a key without rows reports nothing and keeps its events; otherwise exactly that key's rows and answer, the blobs its rows name and, for a hard delete, its events go, and the blobs are counted and measured |
| PurgeService.PurgeService.PurgeAllSoft | packages/core/src/generic_ml_cache_core/application/usecase/purge_service.py:122-130 | soft-purging every current key leaves no answer, and what no current answer stands for stays |
| PurgeService.PurgeService.PurgeAllHard | packages/core/src/generic_ml_cache_core/application/usecase/purge_service.py:122-128 | deleting every key leaves no row, no blob and no answer |
| Eviction.SortSorts | packages/core/src/generic_ml_cache_core/application/usecase/purge_service.py:151-151 | least recently used first, and a permutation of the entries |
| Eviction.SortIsStable | packages/core/src/generic_ml_cache_core/application/usecase/purge_service.py:151-151 | entries of equal age keep their order |
| Eviction.ChooseVictims | packages/core/src/generic_ml_cache_core/application/usecase/purge_service.py:152-158 | the keys of the shortest prefix that brings the running total to the cap |
| Eviction.VictimsAreLeastRecent | packages/core/src/generic_ml_cache_core/application/usecase/purge_service.py:144-166 | no key that stays was used earlier than one that goes, read off the access and recording times |
| Eviction.VictimsAreFew | packages/core/src/generic_ml_cache_core/application/usecase/purge_service.py:152-158 | nothing goes under the cap, and without the last victim the total is above it |
| Eviction.SizeIsTheBytes | packages/core/src/generic_ml_cache_core/testing/in_memory_execution_repository.py:274-284 | an entry weighs the bytes of its documents, each counted for itself |
| Eviction.ShortestIsUnique | packages/core/src/generic_ml_cache_core/application/usecase/purge_service.py:152-158 | there is one such prefix |
| Eviction.EvictionFits | packages/core/src/generic_ml_cache_core/application/usecase/purge_service.py:144-166 | with one servable row per key the total after eviction is exactly the bytes of the entries not evicted, and within any cap that is not negative |
| Eviction.SoftPurgedHistories | packages/core/src/generic_ml_cache_core/application/usecase/purge_service.py:196-221 | purging changes the histories of exactly the named keys, row by row, and no key order |
| Eviction.OnlyFreshRemain | packages/core/src/generic_ml_cache_core/application/usecase/purge_service.py:132-142 | after stale eviction the entries left are exactly those used since the cutoff |
| PurgeService.PurgeService.EvictToQuota | packages/core/src/generic_ml_cache_core/application/usecase/purge_service.py:144-166 | no key that stays was used earlier than one that goes, by last access, or by recording time for a key without one, or 0; nothing goes under the cap, and no more than must; the total is then within the cap; all other keys, blobs and answers are as they were |
| PurgeService.PurgeService.EvictStale | packages/core/src/generic_ml_cache_core/application/usecase/purge_service.py:132-142 | evicts exactly the current keys whose last access, or recording time for a key without one, or 0, is before now minus the age; none for an age that is not positive |
| RunService.RunMlExecutionService.Execute | packages/core/src/generic_ml_cache_core/application/usecase/run_ml_execution_service.py:313-315 | the call's own effect, then, after a stored record and only then, eviction from the store the call left: of keys used no later than any that stays, by last access or else recording time, and no more than must; the cap then holds |
| StoreLife.SoundStoreIsOwned | packages/core/src/generic_ml_cache_core/application/port/outbound/blob_store_port.py:67-72 | every blob is named by the rows of one execution and of no other, and holds the bytes its name digests |
| StoreLife.Live | packages/core/src/generic_ml_cache_core/application/usecase/purge_service.py:196-280 | over any sequence of calls, purges of keys and of everything, evictions, repairs and losses: each has the effect on table, blobs, answers and journal that it is there for, every blob has one owner and every key at most one current row |
| RepairService.RepairStoreService.RepairRun | packages/core/src/generic_ml_cache_core/application/usecase/repair_store_service.py:44-58 | one run reconciled and, when every blob is there, finalised; no mark and no finalisation is ever refused |
| RepairService.RepairStoreService.Repair | packages/core/src/generic_ml_cache_core/application/usecase/repair_store_service.py:39-63 | the table after the whole worklist; recovered and unrecoverable are the numbers of awaiting keys with no blob missing and with one, together the worklist's length; reconciled and missing are the numbers of lacked blobs of awaiting runs that are there and that are not |
| Repairing.RepairedRows | packages/core/src/generic_ml_cache_core/application/usecase/repair_store_service.py:44-58 | only a newest, unpersisted run with a row not STORED is touched: a row whose blob some unstored row names becomes STORED if the blob is there and FAILED if not, and the run is persisted iff none is missing |
| RepairService.WorklistIs | packages/core/src/generic_ml_cache_core/testing/in_memory_execution_repository.py:193-205 | the worklist names each awaiting key once, with its newest row |
| Repairing.RepairMeaning | packages/core/src/generic_ml_cache_core/application/usecase/repair_store_service.py:39-63 | a sound store stays sound; a key gains its newest run's answer iff that run is promoted; every other answer is unchanged |
| Repairing.PromotedExactly | packages/core/src/generic_ml_cache_core/application/usecase/repair_store_service.py:44-58 | with no stored blob lost, a run is promoted iff it is the key's newest, an unpersisted success, not every row STORED, and every blob there |
| Repairing.PromotedIsWhole | packages/core/src/generic_ml_cache_core/application/usecase/repair_store_service.py:44-58 | a promoted run is a whole answer |
| Repairing.RepairIsIdempotent | packages/core/src/generic_ml_cache_core/application/usecase/repair_store_service.py:39-63 | a second repair changes nothing, recovers and reconciles nothing, and reports the same unrecoverable runs and missing blobs |
| Recovery.RecoveredExactly | packages/core/src/generic_ml_cache_core/application/usecase/repair_store_service.py:44-58 | a success whose documents were all inserted is brought back by repair, as the whole answer, iff some row is not STORED and every document's bytes landed in some put |
| Recovery.StoredExactly | packages/core/src/generic_ml_cache_core/application/usecase/cached_ml_execution_service.py:736-772 | a document's row ends STORED iff the last mark its bytes got from it or a later document was a good one |
| Recovery.RecordedThenRepaired | packages/core/src/generic_ml_cache_core/application/usecase/repair_store_service.py:44-58 | recording under any faults and then repairing: the key ends with the run's whole answer iff the run succeeded and either nothing failed or some row was left unstored with all bytes there; else with the answer it had |
| Recovery.RecordThenRepair | packages/core/src/generic_ml_cache_core/application/usecase/repair_store_service.py:39-63 | the same of the services' own methods: open, record, repair |
| Recovery.RecordingLosesNone | packages/core/src/generic_ml_cache_core/application/usecase/cached_ml_execution_service.py:717-772 | recording keeps every STORED row's blob in place, under any faults |
| Recovery.BackFillLosesNone | packages/core/src/generic_ml_cache_core/application/usecase/cached_ml_execution_service.py:352-385 | so does a hit's back-fill |
| Recovery.RepairLosesNone | packages/core/src/generic_ml_cache_core/application/usecase/repair_store_service.py:44-58 | so does repair |
| Recovery.PurgeLosesNone | packages/core/src/generic_ml_cache_core/application/usecase/purge_service.py:196-246 | so does a purge |
| Recovery.QuarantineLosesNone | packages/core/src/generic_ml_cache_core/application/usecase/cached_ml_execution_service.py:278-289 | so does a quarantine that goes through |
| Recovery.OpeningLosesNone | packages/core/src/generic_ml_cache_core/application/usecase/cached_ml_execution_service.py:452-466 | so does opening a run |
| LossFree.EveryStateIsIntact | packages/core/src/generic_ml_cache_core/application/usecase/cached_ml_execution_service.py:120-210 | over any run of opening, recording, closing, dropping, back-filling, quarantining, repairing and purging from the empty store, no STORED row ever loses its blob, and the store stays sound |
| LossFree.Live | packages/core/src/generic_ml_cache_core/application/usecase/cached_ml_execution_service.py:120-210 | each of those changes is exactly what the service's own method makes of the store, and over any run of them no STORED row loses its blob |
| LossFree.RepairInARun | packages/core/src/generic_ml_cache_core/application/usecase/repair_store_service.py:39-63 | so in every such state a repair promotes exactly the newest unpersisted successes with a row not STORED and every blob there, and what it promotes is a whole answer |
| Repairing.RepairDisplaces | packages/core/src/generic_ml_cache_core/application/usecase/repair_store_service.py:44-58 | repair puts a broken run in the place of a whole answer iff it promotes a newest run one of whose STORED rows has lost its blob |
| Repairing.AnAnswerIsDisplaced | packages/core/src/generic_ml_cache_core/application/usecase/repair_store_service.py:44-58 | an instance |
| Recovery.StoredButNeverRepaired | packages/core/src/generic_ml_cache_core/application/usecase/cached_ml_execution_service.py:736-772 | the exception: a success recorded with two empty streams that share a blob, the first put refused, the second landed; every row is STORED and present, the run is not finalised, repair leaves it so and the key keeps the answer it had |
| Framing.UniquelyDecodable | packages/core/src/generic_ml_cache_core/common/checksum.py:59-82 | a parser inverts the framing iff no key contains the field separator |
| Framing.SameStreamSameFields | packages/core/src/generic_ml_cache_core/common/checksum.py:59-82 | without separators in keys, two calls hash the same bytes iff they have the same fields, in any insertion order |
| Framing.OrderIndependent | packages/core/src/generic_ml_cache_core/common/checksum.py:64-70 | the hashed bytes do not depend on insertion order |
| Framing.OneFieldStream | packages/core/src/generic_ml_cache_core/common/checksum.py:72-81 | the stream of one field, byte by byte |
| Framing.TwoArgumentsJoined | packages/core/src/generic_ml_cache_core/common/checksum.py:50-56 | two joined arguments, byte by byte |
| Framing.SeparatorsCollide | packages/core/src/generic_ml_cache_core/common/checksum.py:76-81 | with separators in keys it fails: any two fields collide with one forged field that spells them out |
| Framing.ChecksumInputData | packages/core/src/generic_ml_cache_core/common/checksum.py:59-82 | the digest is of the sorted, framed fields |
| Framing.JoinInvertible | packages/core/src/generic_ml_cache_core/common/checksum.py:50-56 | splitting at NUL inverts the join iff the list is not empty and its arguments are free of NUL |
| Framing.ArgumentsKeyedApart | packages/core/src/generic_ml_cache_core/common/checksum.py:50-56 | argument lists free of NUL share a fingerprint iff they are equal, except no argument and one empty argument |
| SessionReport.BuildSessionReport | packages/core/src/generic_ml_cache_core/application/domain/service/session_report.py:48-141 | the loop's report: totals, one entry per model and per day with exactly that group's counts, strictly ascending, and the span |
| SessionLaws.ReportConserves | packages/core/src/generic_ml_cache_core/application/domain/service/session_report.py:62-104 | per-model entries add up to the totals of executions, hits and every token count; per-day entries to invocations, executions and hits |
| SessionReport.UnknownAndKnown | packages/core/src/generic_ml_cache_core/application/domain/service/session_report.py:96-104 | executions with unknown usage and executions with known usage make up the executions |
| SessionLaws.ReportIgnoresOrder | packages/core/src/generic_ml_cache_core/application/domain/service/session_report.py:48-141 | any reordering of the events gives the same report |
| SessionLaws.ReportsAdd | packages/core/src/generic_ml_cache_core/application/domain/service/session_report.py:48-141 | reporting two sessions' events together lists the models and days of either, and the counts of every model, of every day and of the totals are the sums, where an absent model or day counts as nothing |
| SessionLaws.OneRowReport | packages/core/src/generic_ml_cache_core/application/domain/service/session_report.py:36-104 | what one row counts for, column by column: a run its reported tokens, or unknown when neither input nor output is reported; a replay the tokens saved; its day the first ten characters of its time |
| SessionLaws.ReportIsSorted | packages/core/src/generic_ml_cache_core/application/domain/service/session_report.py:106-134 | models by client and then model, days by date, in code-point order |
| SessionLaws.SpanIsTight | packages/core/src/generic_ml_cache_core/application/domain/service/session_report.py:129-141 | the span runs from the least day with an event to the greatest |
| SessionLaws.ReportAccountsForTheRun | packages/core/src/generic_ml_cache_core/application/domain/service/session_report.py:36-104 | the report of a run of the service: executions = client runs that returned, hits = replays, invocations = calls that did not raise |
| Migration.MigrationRunner.BootstrapVersion | packages/adapters/src/generic_ml_cache_adapters/migration_runner.py:100-136 | the version is the single row's, or the old pragma's, which is then seeded; a table with more rows is refused unchanged; it gives none otherwise only for want of a step |
| Migration.MigrationRunner.RunMigrationsLocked | packages/adapters/src/generic_ml_cache_adapters/migration_runner.py:166-210 | the schema stays migrations 1 to the version, once each and in order; no failing file is ever applied; given its steps, the run ends just below the first failing file iff there is one, else at the shipped version; a newer store is refused unchanged; it dies exactly when given fewer steps, at the version it had reached |
| MigrationRace.EveryStepKeeps | packages/adapters/src/generic_ml_cache_adapters/migration_runner.py:139-236 | no step of any racing, dying or failing process breaks that, the store lock is held exactly by the one process at work, and the version never goes back |
| MigrationRace.EveryRaceIsSafe | packages/adapters/src/generic_ml_cache_adapters/migration_runner.py:139-236 | so over every race, with processes of different builds |
| MigrationRace.FinishingLeavesTheShippedVersion | packages/adapters/src/generic_ml_cache_adapters/migration_runner.py:166-210 | a process that finishes leaves exactly the version it ships |
| MigrationRace.NewerStoreIsLeftAlone | packages/adapters/src/generic_ml_cache_adapters/migration_runner.py:183-193 | no step of a build older than the store moves schema or version |
| MigrationRace.UndisturbedMigrates | packages/adapters/src/generic_ml_cache_adapters/migration_runner.py:166-210 | a process that nobody disturbs ends as the runner alone does: at the shipped version, below the first failing file, or leaving a newer store alone |
| MigrationRace.AnythingCanGoWrong | packages/adapters/src/generic_ml_cache_adapters/migration_runner.py:213-236 | a process may die at any step and any file may fail; neither moves the store, and the lock is given back |
| MigrationRace.NeverTwoRows | packages/adapters/src/generic_ml_cache_adapters/migration_runner.py:124-136 | even without the lock the version table never gets a second row |
| MigrationRace.WithoutTheLockFilesRepeat | packages/adapters/src/generic_ml_cache_adapters/migration_runner.py:150-153 | a run from a fresh database without the lock in which two processes apply one file twice |
| KeyLock.EveryStepKeeps | packages/adapters/src/generic_ml_cache_adapters/adapter/outbound/persistence/filesystem_execution_key_lock.py:132-152 | no step of any thread, over any nesting, collision, timeout or exceptional exit, breaks the lock's invariant, however each process stripes the keys |
| KeyLock.KillKeeps | packages/adapters/src/generic_ml_cache_adapters/adapter/outbound/persistence/filesystem_execution_key_lock.py:177-193 | killing a process at any point keeps it |
| KeyLock.EveryStateKeeps | packages/adapters/src/generic_ml_cache_adapters/adapter/outbound/persistence/filesystem_execution_key_lock.py:125-152 | so in every state of every run |
| KeyLock.OneThreadPerProcess | packages/adapters/src/generic_ml_cache_adapters/adapter/outbound/persistence/filesystem_execution_key_lock.py:132-152 | at most one thread of a process is inside a key, whatever the lock files do |
| KeyLock.OneFileHolder | packages/adapters/src/generic_ml_cache_adapters/adapter/outbound/persistence/filesystem_execution_key_lock.py:138-152 | a thread holds a key's lock file iff an outermost frame of its that took it is open; one thread of one process at a time |
| KeyLock.ExclusiveWithoutTimeouts | packages/adapters/src/generic_ml_cache_adapters/adapter/outbound/persistence/filesystem_execution_key_lock.py:132-152 | when every holder did get the lock file, one thread of all processes is inside the key |
| KeyLock.LeavingReleasesEverything | packages/adapters/src/generic_ml_cache_adapters/adapter/outbound/persistence/filesystem_execution_key_lock.py:144-152 | a thread with no open frame holds no stripe, no lock file and no key |
| KeyLock.FreeLockIsTaken | packages/adapters/src/generic_ml_cache_adapters/adapter/outbound/persistence/filesystem_execution_key_lock.py:132-152 | a lock nobody uses can be taken, file and all, and leaving it gives back exactly what was taken |
| KeyLock.GoesInWithoutTheFile | packages/adapters/src/generic_ml_cache_adapters/adapter/outbound/persistence/filesystem_execution_key_lock.py:132-175 | without the lock file the thread goes in all the same, and leaving undoes it |
| KeyLock.NestingUndoes | packages/adapters/src/generic_ml_cache_adapters/adapter/outbound/persistence/filesystem_execution_key_lock.py:136-141 | taking a key again inside itself, and leaving it, changes nothing |
| KeyLock.AcquireOsLock | packages/adapters/src/generic_ml_cache_adapters/adapter/outbound/persistence/filesystem_execution_key_lock.py:177-193 | the wait ends; it gives up only after a failed try with the clock at or past the deadline, and earlier tries all failed before it, one every 50 milliseconds at most |
| KeyLock.FilesAreFrames | packages/adapters/src/generic_ml_cache_adapters/adapter/outbound/persistence/filesystem_execution_key_lock.py:138-152 | holding a key's lock file is having an open outermost frame of that key that took it |
| LockAgreement.FilesMove | packages/adapters/src/generic_ml_cache_adapters/adapter/outbound/persistence/filesystem_execution_key_lock.py:132-152 | each step of a thread moves the lock files as a lock per key: taken only when free, given back by the holder's outermost frame, untouched by anything else |
| LockAgreement.LocksMove | packages/core/src/generic_ml_cache_core/application/usecase/cached_ml_execution_service.py:434-434 | each step of a recorder moves the protocol's key locks in the same way |
| LockAgreement.WaitForFile | packages/adapters/src/generic_ml_cache_adapters/adapter/outbound/persistence/filesystem_execution_key_lock.py:177-193 | a thread's bounded wait while others go on ends in a step of the lock: it takes the file at the first try that finds it free, or times out past its deadline |
| KeyLock.LockWaitForClientTimeout | packages/adapters/src/generic_ml_cache_adapters/adapter/outbound/persistence/filesystem_execution_key_lock.py:63-73 | the wait is the peer's client timeout and 30 seconds, or 300 seconds when there is none |

## Left out

- Engine.CachedMlExecutionService.PersistDocuments: a database write that raises, other than a lost mark after a landed put, ends the call in the code; in this sequential form it is not among the faults, and the protocol modules have it as a step at which the process dies or fails.
- Engine.CachedMlExecutionService.ServeCurrentIfHealthy: a row that cannot be loaded, and a read that fails for another reason than a missing blob, are not modelled; the in-memory repository raises neither.
- RecorderProtocol.EveryStepKeeps: hit-time input back-fill and purge are not steps of the protocol; purge is excluded by the key lock, and back-fill attaches PENDING rows to an already servable entry, so a concurrent reader may find it incomplete.
- RecordOnce.RecordedOnce: assumes no timed-out wait, no refresh, no purge and no lost blob for the key.
- Recovery.RecoveredExactly: assumes every document's row was inserted, and so does RecordedThenRepaired; after a crash between documents repair may finalise a prefix of them.
- Recovery.QuarantineLosesNone: a quarantine refused halfway leaves its row with blobs missing, as the code does; PromotedExactly does not apply to such a row.
- Encryptor.StoreEncryptor.Stage: deleting a staging directory is assumed to succeed unless the process dies; the code ignores deletion errors there. Files ending in `.tmp` are left as they are, by the code too.
- MigrationRace.EveryRaceIsSafe: assumes every process takes the store lock; what holds without it is `NeverTwoRows`.
- KeyLock.EveryStepKeeps: safety only; nested acquires of several keys in no fixed order may deadlock.
- KeyLock.LockWaitForClientTimeout: whole milliseconds instead of floating-point seconds.
- Framing.ChecksumInputData: values are texts; the code's TypeError for other values is not modelled. Texts are their UTF-8 bytes.
- PurgeService.PurgeService.EvictToQuota: access times are real numbers, and a creation time is given parsed or not at all.
- Interleaving of a purge or an eviction with other calls: each of its keys is handled under that key's lock, and the model runs it alone.
- `invalidate`, which writes no marker; blob-store handles opened before a migration.
- Tags, session specifications, usage and failure details on rows, diagnostics and timing: they would only add easy members.
- Purge by tag and by session, which only choose the keys.
- The command line, HTTP routes, presenters, provider adapters, subprocess runners, workspace handling, detached jobs, configuration and plugin discovery.
- AES-GCM, HKDF, SHA-256, flock and SQLite themselves.
