# KAOS attachment engine: a verified model

This project models the attachment (blob) mutation engine of KAOS and the small
concurrency and analysis components around it, and proves what they promise for
every run and every input. It is a Dafny 4.11 project: `dafny verify dfyconfig.toml`
checks all of it.

The engine is a crash-tolerant, write-ahead, epoch-fenced protocol written as
asynchronous methods of one plugin object. It is modelled as a step machine
(`Engine.dfy`): a step is the code between two awaits of one activity, and between
any two steps a crash, a failed save, a scope switch (including A to B and back to
A), a load, a settlement callback or a local file event may happen. Memory, the
durable record per scope and the queue of snapshots still to be written are
separate parts of the state. The parts:

- `Authority`, `Lanes`: scope epochs, and one persistence lane with its promise
  tail, health flag, corrupt latch and ensure routine. The engine has two lanes.
- `BlobRefs`, `Journal`, `Settlements`, `Discovery`: the data the lanes store and
  the operations on it.
- `IntentJournal`, `SettlementStore`, `LaneObject`: the same as objects with fields
  updated in place; every method is proved against the functions.
- `EngineSafety`, `EngineTheorems`, `LaneTheorems`: the safety invariant, and what
  follows from it for every reachable state.
- `OwedMutations`, `LaneOutcomes`, `EngineOutcomes`: what each operation of the
  journal, a lane and the engine decides, written out over the state before and
  after it; among it that the engine forgets no intent.
- `EngineProtection`: fences and gates that were confirmed, in every run.
- `EngineRemoval`: what stays durable through confirmed removals and retirements,
  over whole runs.
- `EngineRuns`, `EngineLimits`: how runs from a device start are put together, and
  the runs after which a weaker proviso would not do.
- `ExcludePatterns`, `ProjectionGate`, `ProviderPolicy`: the exclude-policy overlay
  across connection generations.
- `ParallelMap`, `AsyncRunners`: the server's concurrency primitives.
- `EditorCausality`, `EditorReturns`: the trace classifier, and what its report says
  of the events alone.

## What the engine's surroundings are assumed to do

- A save writes one record atomically; a save that fails may or may not have
  landed, and the next one starts after it settled. A load answers the record as it
  is, its absence, corruption or an error.
- Intent and attempt identities are fresh. Durable journals a device starts with
  hold distinct entries under their own scope.
- The disk, the shared document, the server receipt and how a mutation ends
  (thrown, none, done) are inputs of the step that looks at them.
- A change of the control file's text on disk moves its identity or revision. The
  source compares file object, times and size, which is what this stands for.

## Results that differ from a first reading

Where the code does not meet a property in full, the model keeps the code, gives an
input or a whole run from a device start that shows it, and proves when the code does
meet it.

- A healthy lane can have a rejected tail (after an adoption without write), so it
  can be healthy and still fail to flush: `EngineLimits.HealthyLaneMayHaveRejectedTail`,
  `LaneTheorems.AdoptionFlushesIff`.
- Overlap exclusion is decided on the captured entry. A rename that follows its file
  while the pass runs escapes it: `EngineLimits.ExclusionFailsForStaleCaptures`,
  `EngineTheorems.AppliedIntentsAreDisjoint`, `EngineTheorems.MutationKeepsExclusionIff`.
- A refused rename preparation leaves its retire stage in memory only, and a later
  one takes it for saved: `EngineLimits.RefusedPreparationLosesTheFence`,
  `EngineRemoval.RemovalLeavesFenceIff`.
- An entry put back after a failed gate write may have left the durable journal, and
  its removal may begin all the same: `EngineLimits.RemovalMayBeginUnheld`,
  `EngineRemoval.HealthyJournalHoldsIff`.
- A local event during a gate write enqueues the journal without the intent, and no
  gate is durable yet: `EngineLimits.InterveningSnapshotLosesTheFence`,
  `EngineRemoval.InterveningSnapshotEndsTheCoverIff`.
- A retirement of a path that memory gates already does not wait for that gate's own
  write: `EngineLimits.QueuedGateDoesNotCoverRetirement`,
  `EngineLimits.GatedRetirementIsCoveredIff`.
- Exclude patterns are cleaned on every merge, trimming before normalizing and
  stripping one `./` at a time, so a captured pattern can lose its paths:
  `ProviderPolicy.WhiteSpacePatternLosesItsPaths`,
  `ProviderPolicy.ExcludedPathsStayExcludedIff`, `ExcludePatterns.CleanIsIdempotentIff`.
- A concurrency limit below one still runs one worker: `ParallelMap.LimitIsRespectedIff`.
- Single flight needs tasks whose synchronous prefix does not call back:
  `AsyncRunners.ReenteringOverlaps`.
- The classifier's history of 64 contents can grow past 64:
  `EditorReturns.HistoryOutgrowsItsBound`.
- Write keys of the classifier can collide when a domain or hash holds a colon:
  `EditorCausality.WriteKeysMayCollide`, `EditorCausality.ContentIsReportedOnceIff`.

## Model

| member | source | states |
|---|---|---|
| `EngineTheorems.EveryIntentIsAppliedAtMostOnce` | src/main.ts:2524-2619 | In every run, whatever crashes, failed saves, scope switches and events happen at any await, no intent's mutation takes effect twice, and no copy of an intent that took effect is ready: not in memory, not durable, not in a queued snapshot, not captured by the pass |
| `EngineTheorems.NoRestartRevivesAnAppliedIntent` | src/main.ts:3028-3043 | What a restarted process can load for an applied intent is attempted or committed, so no later attempt can be marked on it |
| `EngineTheorems.MutationsAreBehindWriteAhead` | src/main.ts:2533-2576 | Whenever any step of any run applies a mutation, both lanes are healthy and have nothing queued, the scope is current, and the durable journal holds the intent with exactly the attempt being applied, as its only copy |
| `EngineTheorems.LaterMutationsAvoidEarlierOnes` | src/main.ts:2081-2089 | In every run, the paths a mutation was decided on are disjoint from every path of an intent applied before it and still journaled in the scope |
| `EngineTheorems.AppliedIntentsAreDisjoint` | src/main.ts:2065-2089 | In every reachable state applied and still journaled intents of one scope are pairwise non-overlapping exactly when no path that an entry came to name between its capture and its mutation belongs to an intent applied before it; so they are when no entry was renamed in between; a rename owns both its paths |
| `EngineTheorems.MutationKeepsExclusionIff` | src/main.ts:2558-2576 | At a mutation the pairwise exclusion survives exactly when the guard would also have passed for the entry as it is journaled now; it does when the captured and the journaled entry name the same paths |
| `EngineLimits.ExclusionFailsForStaleCaptures` | src/main.ts:2558-2576 | A run of the engine that fails: a durable journal holds a ready delete of c and a ready rename a -> b; the delete is applied, the renamed file moves on to c while its final writes are awaited, the pass then commits the rename it captured, and two applied, journaled entries own c |
| `EngineLimits.StaleGuardPasses` | src/main.ts:2081-2089 | The same run just before that mutation: the guard asked about the captured rename passes although the journaled one overlaps the applied delete |
| `EngineLimits.RenamingLeavesTheCaptureStale` | src/sync/pendingBlobIntentJournal.ts:476-498 | How that comes about: an event during the pass moves the target of the journaled rename, not of the captured one |
| `EngineSafety.CurrentEntryIsTheOnlyCopy` | src/main.ts:2558-2576 | When the checks before a mutation pass, every copy of the intent anywhere equals the journaled entry |
| `EngineSafety.FencedCopiesAreDisjoint` | src/main.ts:2081-2089 | When they pass, every attempted or committed copy of another intent of the scope is disjoint from the paths looked at |
| `EngineSafety.StepIsSafe` | src/main.ts:2948-3288 | Every step of every activity keeps the safety invariant of lanes, copies, captures and the attempt in progress |
| `EngineSafety.CasIsSafe` | src/main.ts:2533-2618 | The segment from the last check to the start of the final writes keeps it, for every way the mutation can end |
| `EngineSafety.AdoptJournalIsSafe` | src/main.ts:1189-1245 | Installing a loaded journal under the entries in memory keeps it; nothing ready replaces an applied intent |
| `EngineSafety.RecordEventIsSafe` | src/main.ts:1916-2006 | Recording a local delete or rename at any await keeps it |
| `EngineSafety.CrashIsSafe` | src/main.ts:2519-2523 | A process death at any point keeps it; only durable records and history remain |
| `EngineSafety.ReachableIsSafe` | src/main.ts:2932-3288 | The safety invariant holds in every reachable state, from any durable journals with distinct, scoped entries |
| `LaneTheorems.HealthMeansQuiescence` | src/main.ts:1055-1117 | In every run an open health flag of either lane means: store attached for the current scope and epoch, key not latched corrupt, nothing queued, durable record equal to the snapshot enqueued or adopted last, and a tail that succeeded unless an adoption without write came over it |
| `LaneTheorems.HealthyLaneFlushes` | src/main.ts:1328-1341 | In every run a healthy lane, either of the two, fails to flush only over a tail that an adoption without write came over |
| `LaneTheorems.AdoptionFlushesIff` | src/main.ts:1216-1245 | After an adoption without write the lane is healthy, and flushes exactly when the tail it came over was not rejected |
| `EngineLimits.HealthyLaneMayHaveRejectedTail` | src/main.ts:1244-1245 | A run in which it does: a failed write followed by such an adoption leaves a healthy lane whose tail is the rejected promise, so the flush answers false |
| `LaneTheorems.AdoptedLoadIsLinearized` | src/main.ts:1171-1179 | A load is adopted only with a value that reflects every write ever enqueued for its key: none is queued, and it is the snapshot of the last landed write, after which none was acknowledged |
| `LaneTheorems.ReachableLoadsAreLinearized` | src/main.ts:1441-1482 | The same for both lanes in every reachable state |
| `LaneTheorems.OneLoadMayAdopt` | src/sync/blobAuthorityScopeGuard.ts:129-139 | Of overlapping ensures only the newest can adopt |
| `LaneTheorems.SwitchingBackDoesNotReviveLoads` | src/sync/blobAuthorityScopeGuard.ts:81-127 | After a switch A to B and back to A, no load of either lane begun before can adopt |
| `LaneTheorems.LoadDoesNotResurrectSettlement` | src/main.ts:1480-1526 | A path that an acknowledged write retired, and that no later snapshot settles, is not settled again by any load |
| `LaneTheorems.StaleWriteChangesNothing` | src/main.ts:1101-1115 | The completion of a write that is not the current tail changes neither health nor store |
| `LaneTheorems.SupersededLoadsNeverAdopt` | src/main.ts:1171-1179 | A load overtaken by an epoch or by a newer ensure can never be adopted again, in any run from there on, through scope switches there and back and through crashes, on either lane |
| `LaneTheorems.HealthOpensOnlyForTheTail` | src/main.ts:1102-1106 | Health opens only for the successful newest tail of the attached store, whose snapshot is then the durable record |
| `LaneTheorems.DurableIsLastLanded` | src/main.ts:1097-1100 | A durable record is the snapshot of the last landed write of its key, or the one from before all writes |
| `Lanes.NewLaneInv` | src/main.ts:518-521 | A lane with nothing attached and arbitrary durable records satisfies the lane invariant |
| `Lanes.PushKeepsLane` | src/main.ts:1094-1100 | Enqueueing a snapshot keeps the lane invariant |
| `Lanes.LandKeepsLane` | src/main.ts:1097-1099 | A write reaching the database keeps it |
| `Lanes.SettleKeepsLane` | src/main.ts:1101-1115 | A settled write and its callback keep it, whether or not a failed save had landed |
| `Lanes.BeginEnsureKeepsLane` | src/main.ts:1119-1171 | Starting an ensure keeps it |
| `Lanes.TailSettledKeepsLane` | src/main.ts:1025-1038 | One turn of waiting for a stable tail keeps it |
| `Lanes.StartReadKeepsLane` | src/main.ts:1171-1175 | Starting the read keeps it |
| `Lanes.FinishReadKeepsLane` | src/main.ts:1175 | Any end of the read keeps it |
| `Lanes.AbandonLoadKeepsLane` | src/main.ts:1176-1187 | Stale, corrupt and failed loads keep it |
| `Lanes.AdoptKeepsLane` | src/main.ts:1206-1245 | Installing the store, with or without a write, keeps it |
| `Lanes.ActivationKeepsLane` | src/main.ts:899-961 | A scope activation keeps it |
| `Lanes.CrashKeepsLane` | src/main.ts:2519-2523 | A process death keeps it |
| `EngineRemoval.ConfirmedRemovalIsCrashSafe` | src/main.ts:3086-3099 | Receipt-confirmed removal, delete and rename alike, over whole runs: from the preparation of a removal whose entry the durable journal holds, as long as the entry leaves memory only by that removal with its fence saved (or in a crash), each state has exactly the committed entry in the durable journal, or a retire stage for its source with its ref and version in the durable settled record; a fence given up later ends it |
| `EngineRemoval.RemovalLeavesFenceIff` | src/main.ts:2118-2152 | The proviso on the fence is exact: with a healthy settled lane whose memory fences the source, the removal leaves that fence durable exactly when no refused preparation put the stage there since the last write |
| `EngineLimits.RefusedPreparationLosesTheFence` | src/main.ts:2133-2160 | A run in which it did: a rename whose destination has no source version refuses after staging its source in memory, and a later preparation takes the stage for saved. From that reachable state, with the entry held by the durable journal, the named run of three segments, the landing of the journal write and a crash leaves neither the entry nor its fence durable |
| `EngineRemoval.PreparationKeeps` | src/main.ts:2114-2118 | When a removal is being prepared, the durable journal and its queue holding the entry is all it takes: memory and the pass then know no other version of it |
| `EngineRemoval.StepKeeps` | src/main.ts:2932-3288 | Every step, a crash and a scope switch included, that does not take the entry out of memory keeps it durable, queued and the only version known |
| `EngineRemoval.HealthyJournalHoldsIff` | src/main.ts:1055-1117 | On a healthy journal lane the durable journal and its queue hold an entry exactly when the snapshot enqueued or adopted last lists it |
| `EngineLimits.RemovalMayBeginUnheld` | src/main.ts:2388-2396 | A run in which a removal begins although the durable journal does not hold its entry: a failed gate write put it back in memory after a local event had written the journal without it |
| `EngineProtection.ClaimsAreDurable` | src/main.ts:2114-2214 | Every confirmed fence or gate is in the durable settled record and in every snapshot still queued for its scope, in every run |
| `EngineProtection.ClaimsEndOnlyWhenGivenUp` | src/main.ts:1702-1843 | No step, crash or scope switch ends a confirmed fence or gate, unless memory of its own scope stops providing it |
| `EngineProtection.AwaitedFenceIsDurable` | src/main.ts:2202 | An awaited preparation write that succeeded has made the fence durable |
| `EngineRemoval.RetirementNeverDropsTheLastFence` | src/main.ts:2380-2404 | Authority-moved retirement over whole runs: from a gate write whose intent the durable journal holds, as long as nobody enqueues a journal snapshot without the intent before the gate is confirmed or lifts the confirmed gate, each state has the intent in the durable journal or the path in the durable download gate |
| `EngineRemoval.GateWriteBeginsCovered` | src/main.ts:2328-2387 | Starting the gate write leaves what the durable journal holds as it was and waits for exactly that gate |
| `EngineRemoval.GateWriteKeepsCover` | src/main.ts:2386-2404 | The segment after the gate write meets that proviso itself, whether it still waits, succeeded or failed |
| `EngineProtection.AcknowledgedGateIsDurable` | src/main.ts:2386-2404 | An acknowledged gate write has made the gate durable before the journal without the intent is enqueued |
| `EngineProtection.FailedGateWriteRestoresTheIntent` | src/main.ts:2388-2396 | A failed gate write puts the intent back in memory and leaves the durable journal alone |
| `EngineRemoval.InterveningSnapshotEndsTheCoverIff` | src/main.ts:2329-2404 | The proviso on other snapshots is exact: after one is enqueued the durable journal and its queue hold the intent exactly when the journal in memory lists it |
| `EngineLimits.InterveningSnapshotLosesTheFence` | src/main.ts:2329-2404 | A run in which it does not: from a reachable gate write whose intent the durable journal holds, a local delete elsewhere, the landing of the snapshot it enqueued and a crash leave neither intent nor gate durable |
| `EngineProtection.GateAlreadyThereIsDurable` | src/main.ts:2352-2380 | A path memory gates already is not written again; on a healthy settled lane its gate is durable |
| `EngineLimits.GatedRetirementIsCoveredIff` | src/main.ts:2352-2404 | A retirement of a path that memory gates already, without a gate write, is sure to find that gate durable exactly when the settled lane is healthy |
| `EngineLimits.QueuedGateDoesNotCoverRetirement` | src/main.ts:2352-2404 | A run in which the lane is not healthy: from a reachable state whose durable journal lists the intent and whose gate snapshot is still queued, the retirement writes only the journal, that write lands and a crash leaves neither intent nor gate durable; nobody else enqueues the journal in between, and memory keeps the gate in every state before the crash |
| `EngineProtection.StepProtects` | src/main.ts:2948-3288 | Every step keeps the invariant of claimed, pending and synchronized protections |
| `Settlements.RetiredStaysRetired` | src/main.ts:1702-1810 | Whatever callbacks run after a retirement, in any order, the path stays retired under the same stage until that stage is aborted or cleared |
| `Settlements.SettledOnlyByFinalizing` | src/main.ts:1732-1774 | A path becomes settled only by finalizing its own non-retire stage for exactly the ref and version the document holds |
| `Settlements.FinalizingSettles` | src/main.ts:1732-1774 | A finalization is accepted exactly under its five conditions, and leaves the path settled as the document has it, unfenced and ungated, and everything else alone |
| `Settlements.AbortUndoesStaging` | src/main.ts:1798-1810 | Aborting a fresh stage by its identity restores the state before it; any other identity is refused |
| `Settlements.RetiringRetires` | src/main.ts:1776-1796 | A retirement is accepted exactly under its own retire stage; the path is then unsettled, without a version and ungated under that stage, and nothing else changes |
| `Settlements.BaseIsKnownIff` | src/main.ts:1865-1908 | A mutation base is known exactly for an unfenced path that is settled or that the ready document lacks; a known version is one settlement and document agree on |
| `Settlements.RetiredPathHasUnknownBase` | src/main.ts:1865-1873 | In every run after a retirement no local mutation of the path can know its base |
| `Settlements.PreparationIsIdempotent` | src/main.ts:2114-2214 | A repeated preparation against the same document changes nothing and gives the same verdict |
| `Settlements.PreparationFencesSource` | src/main.ts:2118-2152 | A preparation that does not refuse leaves the source fenced by a matching retire stage and unsettled |
| `SettlementStore.BlobSettlements.DoStage` | src/main.ts:1702-1730 | The in-place stage callback up to its write: refused without change, or the change the callback function describes |
| `SettlementStore.BlobSettlements.DoFinalize` | src/main.ts:1732-1774 | The in-place finalize callback up to its write: refused without change, or the change the callback function describes |
| `SettlementStore.BlobSettlements.DoRetire` | src/main.ts:1776-1796 | The in-place retire callback up to its write: refused without change, or the change the callback function describes |
| `SettlementStore.BlobSettlements.DoAbort` | src/main.ts:1798-1810 | The in-place abort callback up to its write: refused without change, or the change the callback function describes |
| `SettlementStore.BlobSettlements.DoClear` | src/main.ts:1833-1848 | The in-place clear callback up to its write: refused without change, or the change the callback function describes |
| `SettlementStore.BlobSettlements.DoPrepare` | src/main.ts:2114-2202 | The preparation with its early returns, in place: final state and verdict (refuse, write, nothing to write) are those of the preparation function |
| `SettlementStore.BlobSettlements.DoRetireEpisode` | src/main.ts:2333-2356 | The loop that drops exactly the stages of the intent's own removal, and the gate of a moved authority; the change flags are exact |
| `SettlementStore.BlobSettlements.GateRevivals` | src/main.ts:2760-2788 | First discovery loop: afterwards a retire-staged path is gated exactly while it has a live revival, every other path keeps its gate, and the change flag is exact |
| `SettlementStore.BlobSettlements.ResolveConfirmed` | src/main.ts:2838-2905 | Second discovery loop: settlement state, journal and count are those of resolving the candidates one by one; unchanged settlement is not reported as changed |
| `Discovery.DroppedOnlyWhenGone` | src/main.ts:2853-2858 | Over all candidate lists, a settled entry is dropped only when a candidate confirmed it missing and the document's ref is absent or tombstoned |
| `Discovery.JournaledOnlyWhenExact` | src/main.ts:2860-2904 | A delete is journaled only for a confirmed candidate whose live ref and source version match exactly, and carries exactly that base |
| `Discovery.EveryCandidateMeetsItsFate` | src/main.ts:2838-2905 | Each candidate ends skipped, dropped, staged and gated, or journaled, exactly as the state before the loop decides; every other changed live ref ends staged for retirement with the settled ref and version, and gated |
| `Discovery.OtherPathsAreUntouched` | src/main.ts:2838-2905 | Paths no candidate names keep their settlement, fence and gate |
| `Discovery.JournalOnlyGrows` | src/main.ts:2890-2899 | Discovery removes nothing from the journal |
| `Discovery.FreshDeleteIsAppended` | src/sync/pendingBlobIntentJournal.ts:390-454 | Recording a delete of a path nothing is journaled about appends exactly that delete |
| `IntentJournal.PendingBlobIntentJournal.RecordDelete` | src/sync/pendingBlobIntentJournal.ts:390-454 | The collapsing loop and its append, in place, against the journal function; identities stay distinct |
| `IntentJournal.PendingBlobIntentJournal.RecordRename` | src/sync/pendingBlobIntentJournal.ts:456-516 | In place: refused, chained, undone or appended as the journal function says |
| `IntentJournal.PendingBlobIntentJournal.Remove` | src/sync/pendingBlobIntentJournal.ts:518-523 | Splicing out the first entry with the identity; the answer says whether there was one |
| `IntentJournal.PendingBlobIntentJournal.Restore` | src/sync/pendingBlobIntentJournal.ts:525-528 | Puts an entry back unless its identity is present |
| `IntentJournal.PendingBlobIntentJournal.MarkCommitAttempted` | src/sync/pendingBlobIntentJournal.ts:555-572 | Only a ready entry becomes attempted, and only its phase changes |
| `IntentJournal.PendingBlobIntentJournal.ClearCommitAttempt` | src/sync/pendingBlobIntentJournal.ts:578-587 | Only the exact attempt is cleared |
| `IntentJournal.PendingBlobIntentJournal.MarkCommittedFromAttempt` | src/sync/pendingBlobIntentJournal.ts:589-616 | Only the exact attempt is committed |
| `IntentJournal.PendingBlobIntentJournal.Hydrate` | src/sync/pendingBlobIntentJournal.ts:384-388 | Takes over the loaded entries; identities are distinct exactly when the record has them so |
| `IntentJournal.RenamingBackUndoesRenaming` | src/sync/pendingBlobIntentJournal.ts:490-494 | Renaming there and back leaves the journal as it was |
| `IntentJournal.RenamingTwiceRenamesOnce` | src/sync/pendingBlobIntentJournal.ts:476-498 | A chain of renames is one rename from its origin to where the file is now |
| `IntentJournal.DeletingARenamedFileDeletesItsOrigin` | src/sync/pendingBlobIntentJournal.ts:399-454 | Deleting a renamed file journals the deletion of its origin with the base of the rename |
| `IntentJournal.ClearingUndoesMarking` | src/sync/pendingBlobIntentJournal.ts:574-587 | Clearing an attempt restores the journal before it was marked |
| `IntentJournal.OnlyTheExactAttemptMoves` | src/sync/pendingBlobIntentJournal.ts:574-616 | A stale continuation cannot clear or commit a newer attempt |
| `Journal.RecordDeleteTouchesOnlyReady` | src/sync/pendingBlobIntentJournal.ts:390-454 | Recording a delete never changes attempted or committed entries, and adds only ready ones with a fresh identity |
| `Journal.RecordRenameTouchesOnlyReady` | src/sync/pendingBlobIntentJournal.ts:456-516 | Recording a rename never changes attempted or committed entries; what appears is ready and fresh or succeeds a ready entry |
| `Journal.MarkIsExact` | src/sync/pendingBlobIntentJournal.ts:555-616 | A successful mark changes exactly the phase of exactly one entry |
| `Journal.MergeIsUnion` | src/main.ts:1189-1192 | Loaded entries merged under memory: memory wins by identity, and nothing else is lost or added |
| `Journal.RemoveIsExact` | src/sync/pendingBlobIntentJournal.ts:518-523 | After a removal the identity is gone and all others are distinct |
| `LaneObject.PersistenceLane.Enqueue` | src/main.ts:1075-1117 | Refused exactly when token, key or store is not current; otherwise health closes and the tail moves; in place, keeping the lane invariant |
| `LaneObject.PersistenceLane.LandHead` | src/main.ts:1097-1099 | The head of the queue becomes the durable record of its key; in place, keeping the lane invariant |
| `LaneObject.PersistenceLane.SettleHead` | src/main.ts:1101-1115 | Health is touched only by the current tail of the attached store, and opens only if it succeeded with nothing queued; in place, keeping the lane invariant |
| `LaneObject.PersistenceLane.OnActivation` | src/main.ts:899-961 | A changed activation closes health and detaches the store; in place, keeping the lane invariant |
| `LaneObject.PersistenceLane.OnEnsure` | src/main.ts:1119-1169 | Ready at once only when attached, current and healthy; otherwise detached before the first await; in place, keeping the lane invariant |
| `LaneObject.PersistenceLane.OnTail` | src/main.ts:1025-1038 | Stale: dropped; tail moved: wait again; else stable; in place, keeping the lane invariant |
| `LaneObject.PersistenceLane.OnStable` | src/main.ts:1172-1173 | Reads only as the newest attempt of the current epoch; in place, keeping the lane invariant |
| `LaneObject.PersistenceLane.OnRead` | src/main.ts:1175 | The answer is the durable record, its absence, or a failure; in place, keeping the lane invariant |
| `LaneObject.PersistenceLane.Install` | src/main.ts:1206-1245 | The store is attached; healthy at once without a write, closed until the write settles with one; in place, keeping the lane invariant |
| `LaneObject.PersistenceLane.OnLoaded` | src/main.ts:1176-1259 | Adopts exactly when current and loaded or missing; corrupt records latch their key, failures detach; in place, keeping the lane invariant |
| `ProviderPolicy.OpenGateEnforcesTheOverlay` | src/main.ts:8595-8612 | While the gate is open and the overlay is held, it was captured from the document of this runtime and of the very generation the gate admits, every pattern of it is in force in merged form, whatever refreshes do, and no primitive of an older epoch runs |
| `ProviderPolicy.CapturedPatternIsInForceIff` | src/main.ts:8536-8546 | A captured pattern is literally in the effective set of every reachable state with an open gate exactly when it has no outer white space and no further ./ in front |
| `ProviderPolicy.ExcludedPathsStayExcludedIff` | src/sync/exclude.ts:101-119 | Every path a captured pattern excludes is excluded by the effective set of every reachable state with an open gate exactly when cleaning the pattern once more leaves something, and that is still a prefix of it in the form paths are compared in |
| `ProviderPolicy.WhiteSpacePatternLosesItsPaths` | src/sync/exclude.ts:130-161 | A run in which a path is lost: the document `/ a` excludes the folder named ` a`, and behind the open gate only `a` is enforced, so ` a/x` is not excluded |
| `ProviderPolicy.DotSlashPatternIsRewritten` | src/sync/exclude.ts:147-161 | A run in which the text is rewritten and no path is lost: `././a` is captured as `./a` and enforced as `a` |
| `ExcludePatterns.CleanIsIdempotentIff` | src/sync/exclude.ts:35-41 | Cleaning a cleaned pattern changes nothing exactly when it has no outer white space and no ./ left in front |
| `ExcludePatterns.MergeExcludePatterns` | src/sync/exclude.ts:147-161 | The two loops compute the stable union of the cleaned entries |
| `ExcludePatterns.MergeIsUnion` | src/sync/exclude.ts:147-161 | The union holds exactly the cleaned, non-empty entries of all groups |
| `ExcludePatterns.MergeIsStable` | src/sync/exclude.ts:146-161 | It has no duplicates, and earlier groups keep their place in front |
| `ProviderPolicy.OverlayIsDroppedOnlyInAgreement` | src/main.ts:8688-8783 | The overlay is dropped only by a settlement at a step where disk and document hold identical texts, the disk authority and refresh epoch did not move since before its read, and runtime and generation are current; every pattern of the document stays in force |
| `ProviderPolicy.SettlementDropsIff` | src/main.ts:8717-8783 | A settlement drops a held overlay exactly when its read succeeded, authority and refresh epoch have not moved since, runtime and generation are current and the readable document has exactly the text that is on disk now |
| `ProviderPolicy.NoRefreshSurvivesTheDrop` | src/main.ts:8711-8759 | If no refresh ran when the read began, none runs when the overlay goes |
| `ProviderPolicy.StepKeepsInv` | src/main.ts:8510-8900 | Every step keeps the policy invariant |
| `ProviderPolicy.ExcludePolicy.DoPrepare` | src/main.ts:8564-8647 | Capture, merge and opening of the gate in place, with every early return |
| `ProviderPolicy.ExcludePolicy.DoApplySnapshot` | src/main.ts:8876-8888 | A changed control text replaces the file patterns and the effective set is merged anew |
| `ProviderPolicy.ExcludePolicy.DoFinishSettlement` | src/main.ts:8718-8783 | The end of a settlement in place; its answer is exactly the drop condition |
| `ProjectionGate.GateRunKeepsInv` | src/runtime/remoteProjectionPolicyGate.ts:40-121 | In every run an open gate admits only its own generation while no primitive of an older close epoch runs |
| `ProjectionGate.ClosedLeasesStayStale` | src/runtime/remoteProjectionPolicyGate.ts:40-46 | Closing ends every lease for good, even when the same generation opens again |
| `ProjectionGate.RemoteProjectionPolicyGate.DoClose` | src/runtime/remoteProjectionPolicyGate.ts:40-46 | An older generation is ignored; otherwise the gate closes under a new epoch and forgets a deferred opening; in place |
| `ProjectionGate.RemoteProjectionPolicyGate.DoEnter` | src/runtime/remoteProjectionPolicyGate.ts:66-107 | A primitive is admitted exactly under a lease of this generation and epoch with the gate open, or on the control file alone; in place |
| `ProjectionGate.RemoteProjectionPolicyGate.FindsStale` | src/runtime/remoteProjectionPolicyGate.ts:123-128 | The loop finds a running primitive of an older epoch exactly when there is one |
| `ProjectionGate.RemoteProjectionPolicyGate.DoOpen` | src/runtime/remoteProjectionPolicyGate.ts:48-64 | Opens exactly for the closed generation with nothing stale running; otherwise it stays closed and remembers to retry |
| `ProjectionGate.RemoteProjectionPolicyGate.DoRelease` | src/runtime/remoteProjectionPolicyGate.ts:109-142 | Releases one primitive, and resumes a deferred opening exactly when it was the last stale one |
| `BlobRefs.BoundedLineageRefinesFull` | src/types.ts:59-94 | For every chain of publications the stored prior hashes are the first 16 of the newest-first, deduplicated full history without the current hash |
| `BlobRefs.WindowSurvivesTruncation` | src/types.ts:73-94 | Truncating the previous ref's lineage to 16 loses nothing inside the next window |
| `BlobRefs.CollectPriorHashes` | src/types.ts:79-92 | The loop with its early break computes the bounded lineage |
| `BlobRefs.CreateCausalBlobRef` | src/types.ts:73-94 | The minted ref carries the hash, the size and that lineage |
| `BlobRefs.SameBlobRefIsEquivalence` | src/types.ts:104-116 | Sameness of refs is an equivalence |
| `BlobRefs.CloneIsNormalForm` | src/types.ts:96-102 | Cloning preserves sameness and gives same refs equal clones |
| `BlobRefs.FingerprintIdentifiesRef` | src/types.ts:118-122 | Two refs have equal fingerprints exactly when they are the same ref, with the JSON text written out |
| `ParallelMap.EachIndexIsClaimedOnce` | server/src/concurrency.ts:17-31 | In every interleaving each index is handed out once and in order, and at most the normalized limit of calls is in flight |
| `ParallelMap.LimitIsRespectedIff` | server/src/concurrency.ts:17 | The caller's limit bounds the calls in flight exactly when it is at least one; below one, one worker still runs |
| `ParallelMap.LimitIsReached` | server/src/concurrency.ts:17-31 | And it is reached: some interleaving has as many calls in flight as the limit and the items permit |
| `ParallelMap.ResultsMatchTheirItems` | server/src/concurrency.ts:22-34 | When all workers are done and none rejected, each result is the answer of its own item and every index was claimed |
| `ParallelMap.EveryRunEnds` | server/src/concurrency.ts:21-31 | Every run has at most 3n + limit steps and can only stop when all workers are done |
| `ParallelMap.SharedMap.DoClaim` | server/src/concurrency.ts:23-25 | The shared counter and the worker's next call, in place, keeping the invariant |
| `ParallelMap.SharedMap.DoReturn` | server/src/concurrency.ts:25 | The write into the results array, in place, keeping the invariant |
| `AsyncRunners.SerializedTasksNeverOverlap` | server/src/asyncConcurrency.ts:29-36 | For any calls and failures at most one task runs, tasks start in call order, and each caller gets its own task's outcome |
| `AsyncRunners.SerializedCallsNeverStall` | server/src/asyncConcurrency.ts:33-34 | While a call is unsettled, a task runs or the event loop can advance, whatever failed before |
| `AsyncRunners.SerializedState.Run` | server/src/asyncConcurrency.ts:29-36 | The synchronous part puts the call behind the current chain, in place |
| `AsyncRunners.SingleFlightsNeverOverlap` | server/src/asyncConcurrency.ts:5-23 | Without re-entrance no two tasks overlap, each caller gets the outcome of its flight, and the slot is empty after every success or failure |
| `AsyncRunners.EnteringJoinsIff` | server/src/asyncConcurrency.ts:9-16 | A call joins the flight in the slot without starting a task, and starts exactly one when the slot is empty |
| `AsyncRunners.SingleFlightCallersNeverStall` | server/src/asyncConcurrency.ts:9-22 | While a caller has not heard, the event loop can advance, whatever failed |
| `AsyncRunners.ReenteringOverlaps` | server/src/asyncConcurrency.ts:9-16 | The condition is exact: any re-entrant call starts an overlapping task |
| `AsyncRunners.ReentranceFreesTheSlotEarly` | server/src/asyncConcurrency.ts:18-22 | Counterexample run: after a re-entrant start the slot is emptied while the outer task still runs |
| `AsyncRunners.SingleFlightState.Run` | server/src/asyncConcurrency.ts:9-16 | Joins the flight in the slot or fills it, in place |
| `AsyncRunners.LaunchIsEnterAndLeave` | server/src/asyncConcurrency.ts:9-16 | What that call does at once is what the steps of a run do for a task that does not call back |
| `AsyncRunners.SingleFlightState.Finish` | server/src/asyncConcurrency.ts:18-22 | The finally of the starter empties the slot |
| `EditorCausality.AnalyzeEditorCausality` | qa/analyzers/editorCausality.ts:13-104 | The loops compute the gaps, the captures and the observations of all groups; the status is exact |
| `EditorCausality.GroupEvents` | qa/analyzers/editorCausality.ts:14-28 | The grouping loop: one list per key in trace order, keys in order of first event |
| `EditorCausality.AnalyzeGroup` | qa/analyzers/editorCausality.ts:34-97 | The loop over one group, maps and window updated in place |
| `EditorCausality.SortSorts` | qa/analyzers/editorCausality.ts:35 | Ordering a group sorts it by sequence number and rearranges nothing away |
| `EditorCausality.SortIsStable` | qa/analyzers/editorCausality.ts:35 | It keeps events with equal numbers in order |
| `EditorCausality.RepeatedWriteIsTheThird` | qa/analyzers/editorCausality.ts:43-49 | A repeated-write observation appears exactly at the third write counted under a key, citing its three sequence numbers |
| `EditorCausality.ThirdWriteIsUnique` | qa/analyzers/editorCausality.ts:43-49 | No key has two third writes, so it is reported at most once |
| `EditorCausality.OneReportPerWriteKey` | qa/analyzers/editorCausality.ts:43-49 | Over every report: each group and write key has exactly one repeated-write observation when at least three writes of the trace share them, and none otherwise |
| `EditorCausality.OneReportPerContent` | qa/analyzers/editorCausality.ts:43-49 | The same for each group and content (rendered domain and hash), as long as no other content of the trace shares its key |
| `EditorCausality.OneReportPerPlainHash` | qa/analyzers/editorCausality.ts:43-49 | So it holds for every content of a trace whose hashes have no colon |
| `EditorCausality.ContentIsReportedOnceIff` | qa/analyzers/editorCausality.ts:43-49 | Every trace reports a content exactly once per group with three writes of it, and not otherwise, exactly when neither its domain nor its hash has a colon |
| `EditorCausality.EmissionsAreTheReport` | qa/analyzers/editorCausality.ts:31-97 | What is counted is the report: without the group and event noted beside each, the emissions are its observations in order |
| `EditorCausality.RepeatedWritesAreReported` | qa/analyzers/editorCausality.ts:43-49 | In every group each key with at least three writes is reported, citing the first three |
| `EditorCausality.KeyIsExclusiveIff` | qa/analyzers/editorCausality.ts:44 | A key stands for one content exactly when neither its rendered domain nor its hash has a colon |
| `EditorCausality.WriteKeysAreExactWithoutColons` | qa/analyzers/editorCausality.ts:44 | Keys tell content apart, by rendered domain and hash, whenever no hash holds a colon |
| `EditorCausality.WriteKeysMayCollide` | qa/analyzers/editorCausality.ts:44 | Counterexample with a colon: different hashes share a key |
| `EditorCausality.ReturnsCiteTheirEvidence` | qa/analyzers/editorCausality.ts:58-84 | A return-to-seen observation cites an earlier event of the group and lineage that really had the hash, then exactly its matches among the preceding 24 events, then itself |
| `EditorCausality.ReportedReturnsAreGenuine` | qa/analyzers/editorCausality.ts:13-104 | The same for every observation of every report |
| `EditorCausality.RecentIsTail` | qa/analyzers/editorCausality.ts:95-96 | The sliding window is exactly the preceding 24 events of the group |
| `EditorCausality.HistoriesAreWitnessed` | qa/analyzers/editorCausality.ts:88-92 | Whatever a history remembers was held by the editor at the event it names, even after evictions |
| `EditorCausality.MatchingIsExact` | qa/analyzers/editorCausality.ts:65-74 | The cited matches are all matching events of the window and nothing else |
| `Settlements.BaseCarriesTheSettlement` | src/main.ts:1865-1908 | What a mutation base carries, field by field: a fenced path nothing; a settled one the ref this device settled, whatever the document has now, and its version exactly when the document still has that ref at that version; a path the ready document lacks is known to be absent; any other is unknown |
| `Settlements.StagingFences` | src/main.ts:1702-1730 | A stage is accepted exactly where nothing or the same episode is staged; it fences the path with the identity, kind, ref and version the caller named, and nothing else changes |
| `Settlements.AbortingLiftsTheFence` | src/main.ts:1798-1810 | An abort is accepted exactly under the stage's own identity; the path is then in no stage and nothing else changes |
| `Settlements.ClearingLiftsTheFence` | src/main.ts:1833-1848 | The operator's resolution always lifts the fence: the path is settled, versioned and staged no more, any stage is accepted there, and every other path and the gate are as they were |
| `Settlements.PostconditionIff` | src/main.ts:2216-2229 | The postcondition, written out over document and entry: no ref at the source; a committed fingerprint equals the delete snapshot's; without one, the snapshot's deleted ref is the base ref, if there is one |
| `Settlements.PreparationRefusesIff` | src/main.ts:2114-2202 | A preparation refuses exactly when the document does not confirm the mutation, the source has a fence other than a retirement of the entry's base, or a live destination has no version or a fence other than its own |
| `Settlements.PreparationRetiresTheSource` | src/main.ts:2118-2152 | What an accepted preparation leaves at the source: unsettled under a retire stage with the entry's ref and version; without a destination to stage nothing else changes, and no write is asked for exactly when all was so before |
| `Settlements.PreparationStagesTheDestination` | src/main.ts:2154-2202 | And at a destination to be staged: fenced and gated with the ref and version the document has, and nothing else changes |
| `Settlements.PreparedIff` | src/main.ts:2203-2213 | A prepared entry may leave exactly when it is a delete, or its destination is gone, or settled as the document has it and unfenced |
| `Settlements.RetirementIsExact` | src/main.ts:2333-2369 | A retirement drops the stages of the entry's own removal and no other, gates the source exactly when a live ref took it over, and leaves every settlement alone |
| `Settlements.RetirementUndoesPreparation` | src/main.ts:2330-2344 | Retiring an entry takes back exactly the stages its preparation installed |
| `LaneTheorems.CorruptRecordsStayShutOut` | src/main.ts:1180-1187 | Both lanes, over runs: once the current load has read a corrupt record its key is latched, and from there until a crash, whatever runs, no store and no load that could adopt has that key and the lane is never healthy for it |
| `LaneTheorems.OnlyCorruptionLatches` | src/main.ts:1180-1187 | No step latches a key but the end of the current load of that key that found its record corrupt |
| `LaneTheorems.LatchedKeyIsRefused` | src/main.ts:1135-1141 | While the scope's key is latched, an ensure starts no load and closes health, and an enqueue is refused |
| `LaneOutcomes.SettlementMovesHealthIff` | src/main.ts:1055-1115 | A settling write moves health exactly when it is the newest of the store attached for the active scope: open if it succeeded and its key is not latched, closed otherwise |
| `LaneOutcomes.LandingIsDurable` | src/main.ts:1097-1099 | A landing write becomes the record of its key and no other record changes |
| `LaneOutcomes.EnqueuedIsTheTail` | src/main.ts:1092-1100 | An enqueued snapshot closes health and becomes the tail behind everything queued |
| `LaneOutcomes.OnlyRecordsSurvive` | src/main.ts:2519-2523 | A process death leaves the durable records alone and nothing else that could act |
| `LaneOutcomes.EnsureDecides` | src/main.ts:1119-1170 | An ensure closes a barred lane's health, keeps a healthy store of the scope, and otherwise detaches first and starts a load exactly when its store could be opened; the load waits for the tail of that moment |
| `LaneOutcomes.TailDecides` | src/main.ts:1025-1038 | After the awaited tail a load of lost authority is over, one whose tail moved waits again, and only another may read |
| `LaneOutcomes.ReadStartsIff` | src/main.ts:1172-1175 | A load reads exactly under current authority with no newer ensure |
| `LaneOutcomes.ReadAnswersTheRecord` | src/main.ts:1175 | A read answers the durable record of its key, that there is none, or how it failed |
| `LaneOutcomes.AbandonDecides` | src/main.ts:1176-1187 | A stale read changes nothing; a current one latches a corrupt record's key, and one that failed leaves the lane detached (also 1246-1259) |
| `LaneOutcomes.AdoptionAttaches` | src/main.ts:1206-1245 | An adoption attaches its store; without a write health opens over the tail as it is, with one it is closed and the adopted value queued |
| `LaneOutcomes.WriteBackOpensHealth` | src/main.ts:1216-1242 | The acknowledged write back of a current load opens health with the adopted value durable |
| `OwedMutations.NewIntentCarriesBase` | src/sync/pendingBlobIntentJournal.ts:437-451 | A new entry is ready and carries exactly the base it was recorded on: ref, version and whether each is known |
| `OwedMutations.HasPathIff` | src/sync/pendingBlobIntentJournal.ts:628-636 | A path is spoken for by a source, and by the destination of a rename that is not committed |
| `OwedMutations.AttemptIsRecorded` | src/sync/pendingBlobIntentJournal.ts:555-572 | Exactly a ready entry becomes attempted, with that attempt, time and session |
| `OwedMutations.AttemptIsCleared` | src/sync/pendingBlobIntentJournal.ts:578-586 | Exactly the attempt named becomes ready again |
| `OwedMutations.CommitIsRecorded` | src/sync/pendingBlobIntentJournal.ts:589-616 | Exactly the attempt named is committed, with the receipt candidate and the fingerprint given, each in its place; empty texts are refused |
| `OwedMutations.DeleteIsOwed` | src/sync/pendingBlobIntentJournal.ts:390-454 | Recording a delete owes the deletion of the place where the file's chain of ready renames began, on the base it had there: one ready delete of it is journaled, and only ready renames of the scope are dropped |
| `OwedMutations.RenameIsOwed` | src/sync/pendingBlobIntentJournal.ts:456-516 | Recording a rename changes nothing when it is meaningless or a ready delete owns its source; else it moves the rename it continues on from its origin and base, drops it when it leads back there, or is owed afresh on its own base |
| `Discovery.RecordedCountsDeletes` | src/main.ts:2890-2904 | Each candidate journaled is counted once |
| `Discovery.FateIff` | src/main.ts:2844-2889 | What decides a candidate's fate, written out: skipped unless still missing, unclaimed and settled as it was; dropped when no live ref is left; journaled exactly when ref and version are unchanged |
| `EngineOutcomes.FailedRemovalRestoresTheIntent` | src/main.ts:2660-2674 | A stale intent whose removal could not be saved is in the journal afterwards, nothing is lost, and the pass ends |
| `EngineOutcomes.SavedRemovalIsRevertedIff` | src/main.ts:2675-2699 | Once its removal was saved, a stale intent comes back exactly when the pass is authorized, its occupant has left and nobody speaks for its path; the journal with it is then enqueued |
| `EngineOutcomes.ClearedAttemptIsRetiredIff` | src/main.ts:2638-2661 | A cleared attempt is retired exactly when both writes are saved, the disk made it stale, the occupant is still there and the pass is authorized |
| `EngineOutcomes.IntentLeavesOnlyWhenDone` | src/main.ts:2932-3288 | The engine forgets no intent: at every step of every run an intent leaves memory only by its confirmed removal, a retirement disk and attempt allow, as a proven stale one cleared durably, by a local event that rewrites a ready rename, or in a crash; no load, scope switch, failed write or settlement loses one |
| `EngineOutcomes.GateWriteDecides` | src/main.ts:2386-2404 | A new gate that was not saved puts the intent back without a journal write; in every other case the journal without it is enqueued |
| `EngineOutcomes.RemovalStands` | src/main.ts:2399-2404 | A retirement stands whether its journal write was saved or not |
| `EngineOutcomes.RetirementRetires` | src/main.ts:2328-2387 | A stuck entry stays, quarantined, exactly while its path is occupied and it was never attempted; otherwise it leaves memory with its own stages, a taken-over path is gated, and the settled record is saved first exactly when that changed it |
| `EngineOutcomes.StuckEntryIsDecided` | src/main.ts:3030-3114 | Which captured entries are decided so: attempted ones, ready ones held up by a stage or another's uncertain mutation, and committed ones contradicted by disk or document; a committed one without its receipt is passed over |
| `EngineOutcomes.ConfirmedEntryIsPrepared` | src/main.ts:3086-3099 | A committed entry is prepared exactly as the document and its receipt confirm it, and its preparation refuses exactly when a fence is in the way at source or destination |
| `EngineOutcomes.OnlyConfirmedEntriesArePrepared` | src/main.ts:3182-3197 | No other segment begins a removal: it takes the receipt, a free disk path, and a document that confirms the mutation |
| `EngineOutcomes.PreparationIsSaved` | src/main.ts:2114-2202 | What the preparation changed is in memory at once, and saved as a whole exactly when it asked for a write |
| `EngineOutcomes.PreparationAnswers` | src/main.ts:2202-2214 | A refused preparation answers no, one whose write failed ends the pass, and any other answers whether its destination is settled and unfenced by then |
| `EngineOutcomes.PreparedEntryLeaves` | src/main.ts:3087-3099 | A prepared entry leaves memory and nothing else does; one that could not be prepared is decided like a stuck one |
| `EngineOutcomes.ReadyEntryIsAttempted` | src/main.ts:2533-2541 | A ready entry that nothing holds up is marked with a fresh attempt, and the journal with the mark is written ahead |
| `EngineOutcomes.AttemptAdvancesInOrder` | src/main.ts:2540-2557 | Between mark and mutation the write-ahead, the journal flush and the settled flush succeed in this order, each under the authority of the pass |
| `EngineOutcomes.MutationIsAllowedIff` | src/main.ts:2558-2576 | What the segment of a mutation checks, written out: authority, readiness, both lanes healthy, the exact attempt journaled, no stage on its paths and no other entry sharing one |
| `EngineOutcomes.ForbiddenMutationEndsThePass` | src/main.ts:2558-2576 | A mutation that is not allowed is not tried |
| `EngineOutcomes.ThrowingMutationKeepsTheAttempt` | src/main.ts:2577-2585 | A mutation that throws leaves the entry attempted and ends the pass |
| `EngineOutcomes.ProvenNoMutationClearsTheAttempt` | src/main.ts:2586-2591 | A proof that nothing happened makes the entry ready again, and both records are written |
| `EngineOutcomes.MutationCommitsTheEntry` | src/main.ts:2592-2611 | A mutation moves the settled refs with it and commits the entry with the receipt candidate and fingerprint of that moment; both records are written from the same memory; without authority or identity the entry stays attempted |
| `EngineOutcomes.CommitEnds` | src/main.ts:2621-2636 | Both final writes saved let an authorized pass go on, one that failed ends it |
| `EngineOutcomes.LocalEventIsRecorded` | src/main.ts:1916-2006 | A local event is recorded whenever the scope is complete, the journal lane is unhealthy from then on, and with a store attached the journal with it is enqueued at once |
| `EngineOutcomes.LocalDeleteIsOwed` | src/main.ts:1930-1932 | A deleted file is owed as the deletion of the place its ready renames began |
| `EngineOutcomes.ReplacedFileIsOwed` | src/main.ts:1972-1994 | A rename that continues with another file owes the deletion of the first one's origin |
| `EngineOutcomes.FollowedFileIsOwed` | src/main.ts:1989-1994 | Any other rename is owed as the journal has it: elsewhere, as a continuation, or afresh on its base |
| `EngineOutcomes.JournaledDeleteCarriesTheSettlement` | src/main.ts:1930-1932 | The delete of an untouched path carries the ref this device settled there, whatever the document holds by then, and nothing known for a fenced path |
| `EngineOutcomes.PassStartsIff` | src/main.ts:2948-2973 | A pass starts exactly with everything ready, a complete scope, a healthy settled lane and something pending in the scope |
| `EngineOutcomes.JournalIsFlushedFirst` | src/main.ts:2978-2979 | The journal is flushed first: a moved tail is awaited again, a failed flush or lost authority ends the pass |
| `EngineOutcomes.CaptureFollowsBothFlushes` | src/main.ts:2980-2994 | Then the settled record, and only then exactly the entries of the scope are captured |
| `EngineOutcomes.LoopEndsWithItsRemovals` | src/main.ts:3270-3276 | After the loop removals that no later write covers are written |
| `EngineOutcomes.PassWaits` | src/main.ts:2932-3288 | No segment runs before the write or tail it awaits has settled |
| `EngineOutcomes.CrashLeavesTheRecords` | src/main.ts:2519-2523 | A crash loses all memory and everything in progress; the durable records stay |
| `EngineOutcomes.LastWriteEndsThePass` | src/main.ts:3270-3276 | The pass ends with its last write, saved or not |
| `EngineOutcomes.SettlementIsEnqueued` | src/main.ts:1702-1843 | A settled snapshot saves the whole memory and closes health until it is acknowledged |
| `EngineOutcomes.AcceptedCallbackIsEnqueued` | src/main.ts:1702-1810 | An accepted settlement callback is in memory and enqueued at once; a refused one changes nothing |
| `EngineOutcomes.GateIsEnqueued` | src/main.ts:1822-1825 | Setting or lifting a gate changes that gate alone and is enqueued at once |
| `EngineOutcomes.ForgettingUnsettles` | src/main.ts:2020-2025 | A path whose settlement lost its authority is settled no more, and its fence and gate stay |
| `EngineOutcomes.SettledRecordIsAdopted` | src/main.ts:1480-1578 | A loaded settled record becomes memory as it is; gated are what it gated, what it was establishing, and what a migration found missing; it is written back exactly when missing or migrated |
| `EngineOutcomes.JournalRecordIsMerged` | src/main.ts:1189-1208 | A loaded journal joins memory: memory wins by identity, everything else of the record is added, entries of other scopes stay |
| `EngineOutcomes.JournalRecordIsWrittenBack` | src/main.ts:1216-1245 | It is written back exactly when there was no record or memory had something of the scope |
| `EngineOutcomes.ScopeSwitchDropsAuthority` | src/main.ts:899-961 | Activating another scope drops all authority at once and keeps the journaled intents; the same scope again changes nothing |
| `ProjectionGate.OpensIff` | src/runtime/remoteProjectionPolicyGate.ts:48-64 | The gate opens exactly for its own generation with nothing of an older epoch running; while something runs an opening closes it and waits |
| `ProjectionGate.EntersIff` | src/runtime/remoteProjectionPolicyGate.ts:85-108 | A primitive enters exactly under the generation and epoch of its lease and, beyond the control file, an open gate; then exactly one more runs under that epoch |
| `ProjectionGate.ResumesIff` | src/runtime/remoteProjectionPolicyGate.ts:108-142 | A release ends one primitive; it runs the deferred opening exactly when one waits since the last close and the last older primitive is gone, and that opening succeeds |
| `ProjectionGate.LeavingUndoesEntering` | src/runtime/remoteProjectionPolicyGate.ts:100-121 | Leaving undoes entering: the same primitives run and an open gate stays as it was |
| `ProjectionGate.ClosesIff` | src/runtime/remoteProjectionPolicyGate.ts:40-46 | A new or repeated generation closes the gate under a new epoch and forgets what waited; an older one is ignored |
| `ProviderPolicy.PrepareIsReadyIff` | src/main.ts:8564-8647 | A generation is ready exactly when it is the connection's and its policy is held already, or its document is readable under an unblocked schema and no primitive admitted by an older generation runs |
| `ProviderPolicy.PrepareCaptures` | src/main.ts:8583-8612 | A preparation that may read the document captures its text for this runtime and generation and puts its patterns in force before it tries the gate |
| `ProviderPolicy.PrepareKeepsThePolicy` | src/main.ts:8565-8581 | Any other preparation leaves the policy alone; at most it closes the gate for a newer generation |
| `ProviderPolicy.SettlementOutcome` | src/main.ts:8768-8783 | A settlement that drops the overlay leaves exactly the text both sides agree on in force; any other changes nothing |
| `ProviderPolicy.RefreshOutcome` | src/main.ts:8855-8888 | A failed refresh keeps the policy; a read takes the place of the file patterns and leaves the overlay alone |
| `ProviderPolicy.ReadsSeeTheDisk` | src/runtime/excludeFile.ts:28-55 | A read answers the text on disk unless it fails or the text has more than 65536 characters |
| `ProviderPolicy.SettlementStartsIff` | src/main.ts:8688-8701 | A waiting request is taken once no settlement runs, and started exactly when its runtime and generation are current and the gate admits it |
| `ProviderPolicy.RequestIsNoted` | src/main.ts:8677-8686 | A request names the overlay that is held and takes the place of one that waits |
| `ProviderPolicy.RuntimeStartsClosed` | src/main.ts:3919-3928 | A new runtime, and the end of one, start without an overlay behind a closed gate |
| `ProviderPolicy.RequestWaits` | src/runtime/providerPolicySettlementCoordinator.ts:23-40 | A request waits until it is taken or a later one takes its place |
| `ProviderPolicy.SettlementOfAnEarlierRuntimeKeepsTheOverlay` | src/main.ts:8688-8703 | However long its read takes, a settlement asked for one runtime never drops the overlay of a later one, in any run |
| `ExcludePatterns.FilePatternsIff` | src/sync/exclude.ts:134-144 | A control file has exactly the cleaned prefixes its lines name: those with more than white space that are no comment |
| `ExcludePatterns.LeadingMarkIsDropped` | src/sync/exclude.ts:137 | One byte order mark in front is no part of the file |
| `ExcludePatterns.LinesRoundTrip` | src/sync/exclude.ts:138 | Splitting a file gives back the lines it was written from |
| `BlobRefs.LineageReadsIff` | src/types.ts:59-71 | A stored lineage reads exactly when it has at most 16 hashes, all valid, and then as its hashes in order, each once; any other reads as empty |
| `BlobRefs.MintedLineage` | src/types.ts:73-94 | A minted ref's lineage begins with the path's own chain, then takes the inherited hashes while there is room; it never lists its own hash or anything else, and leaves nothing out below 16 |
| `EditorReturns.ReturnIsReportedIff` | qa/analyzers/editorCausality.ts:58-84 | The i-th event adds exactly one return observation when it is an ok capture of an editor update or a rebinding, without undo or redo, whose content differs from the one before and is still remembered from an earlier event of its lineage, and none otherwise; a rebinding or a change by others makes it a non-user return; it cites the last event that held the content, the events among the 24 before that could have supplied it, and itself |
| `EditorReturns.RememberedIff` | qa/analyzers/editorCausality.ts:88-92 | What a capture finds of a content: the last event of the lineage that held it if it still has a place, and nothing otherwise; places are said of the events alone |
| `EditorReturns.HistoryIsInOrder` | qa/analyzers/editorCausality.ts:88-92 | The insertion-ordered map holds at every event exactly the contents with a place, in its order: a content after a change moves to the end, one before a change keeps its place, and the oldest is given up when there are more than 64 |
| `EditorReturns.RecentContentIsRemembered` | qa/analyzers/editorCausality.ts:88-91 | Content the editor changed to stays remembered until the lineage has held 64 other contents since |
| `EditorReturns.FewHashesAreAllRemembered` | qa/analyzers/editorCausality.ts:91 | Nothing is forgotten while the lineage has held at most 64 contents |
| `EditorReturns.HistoryOutgrowsItsBound` | qa/analyzers/editorCausality.ts:91 | The bound of 64 is not kept: a capture with two new contents on a full history gives up one and grows it by one |
| `EditorReturns.RecentReturnIsReported` | qa/analyzers/editorCausality.ts:58-84 | So a return to content the lineage changed to earlier is reported unless it held 64 others in between |
| `EditorReturns.EventIsReported` | qa/analyzers/editorCausality.ts:38-97 | The loop with its maps and its window reports of each event exactly what the events before it in the group call for, in order |
| `EditorReturns.TraceIsReported` | qa/analyzers/editorCausality.ts:34-97 | The report of a trace is what its groups call for, groups in the order of their first event |
| `EditorReturns.ReturnIsInTheReportIff` | qa/analyzers/editorCausality.ts:58-84 | A return observation is in the report exactly when an event of some group calls for it |
| `EditorReturns.CandidatesAreTheNames` | qa/analyzers/editorCausality.ts:75-78 | The candidates are the names of the supplying events, each once |
| `EditorReturns.CandidatesGrow` | qa/analyzers/editorCausality.ts:75-78 | A later supplier adds its name behind the others |
| `EditorReturns.CountedWriteIff` | qa/analyzers/editorCausality.ts:36 | Committed writes count if the group has any, else successful ones |
| `EditorReturns.GapsAreTheLosses` | qa/analyzers/editorCausality.ts:17-22 | The gaps name the losses and the failed captures of the trace, and nothing else |
| `EditorReturns.GapsAreCounted` | qa/analyzers/editorCausality.ts:17-22 | Each of them once |
| `EditorReturns.CapturesAreCounted` | qa/analyzers/editorCausality.ts:53-54 | The report counts each ok capture with a path once, over all groups |

## Left out

- EngineRemoval.ConfirmedRemovalIsCrashSafe: takes as given that the durable journal held the entry when its removal began; `EngineLimits.RemovalMayBeginUnheld` is a run in which it does not.
- EngineRemoval.RetirementNeverDropsTheLastFence: takes as given that the durable journal held the intent when its retirement began, and leaves out snapshots enqueued meanwhile without it; `EngineLimits.InterveningSnapshotLosesTheFence` is a run with one.
- EditorCausality.WriteKeysAreExactWithoutColons: tells an absent domain from no other one, because the source renders an absent domain as the text `undefined`.
- UTF-16: the size limit of the control file counts characters here, code units in the source.
- ParallelMap.LimitIsRespectedIff: covers whole-number limits only.
- The replay chain itself is a step machine over one state value, not an object: its methods are suspended at every await, and aliasing between the plugin's fields is not modelled.
- The steps between the last flush of a pass and its trace message: they change nothing.
- Two awaits with no effect between them are one step (the turn of a flush and the authority check after it).
- Going on to the next entry of the replay loop is a step of its own, which allows more interleavings than the source; taking the entry up (`AtEntry`) is never a suspension point.
- The first discovery loop writes all its gates at once; in the engine they are separate gate events, each with its own write.
- Discovery is proved on its own and is not wired into the replay pass of the engine.
- The `.base` document-ownership migration of intents (`src/main.ts:1193-1202`, `2990-3026`).
- The nuclear reset and `blobAuthorityResetInProgress`, which only refuses more.
- Dashboard and operator flows, among them the whole-journal rollback at `src/main.ts:6298` and dismissals beside a running replay.
- The migration of settled refs from the settings file (`src/main.ts:1480-1578`) beyond its gate evidence, which is an input.
- The scrub of settlement entries whose path became a document (`src/main.ts:1492-1502`), which belongs to that migration.
- Validation of records read from the database (`readIntent`, `readBlobRef`): an unreadable record is a corrupt or absent one here.
- Path normalization and scope canonicalization: paths and scopes are taken in canonical form.
- The coordinator that coalesces settlement requests: one settlement runs at a time and the latest request is kept.
- Attention entries, notices, traces and status bars.
- The CRDT merge, IndexedDB, HTTP, timers and the file system.
- EngineOutcomes.GateIsEnqueued: does not model the rollback of a quarantine change whose own write failed (`src/main.ts:1826-1829`), nor the checks before it (`1817-1821`).
- What makes a receipt cover a commit (`src/main.ts:2102-2111`) is an input; its postcondition part is `Settlements.PostconditionIff`.
- Liveness of stuck intents: they are quarantined on purpose.
