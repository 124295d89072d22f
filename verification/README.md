# A verified model of the gift chat services

This project models the parts of the repository that must stay right through retries, lost replies,
crashes, threads and restarts, and proves what they promise over whole runs.

- **Turn log and lease** (`TurnLog`, `TurnStore`, `LeaseRuns`, `StoredAnswers`): the PostgreSQL transactions of the chat
  runtime. The lease is a compare-and-swap on an owner token; every rotation closes the open turns in
  the same transaction; a turn is a state and an append-only list of numbered events.
- **Readers of the log** (`CardProjection`, `ProjectionCommutes`, `EventStream`, `EventService`,
  `ResumeClient`, `ChatReaders`, `StreamedTurns`, `ShownAnswers`): the projection of unreadable cards in states and in
  events, the framing of server-sent events (sections 9.2.5 and 9.2.6 of the WHATWG HTML Living
  Standard), and the client that resumes from a snapshot and a suffix.
- **Chat runtime** (`RuntimeTurns`, `RuntimeProofs`, `RuntimeProgress`): one task per admitted turn, store calls without
  an answer, user cancellation, recovery requests, and the heartbeat that stops every task and rotates
  the lease before work goes on.
- **Catalog rebinding** (`CatalogBinding`, `RebindRuns`, `RebindProgress`): the profiler threads that share one catalog
  binding under a condition lock.
- **Catalog generations** (`CatalogGenerations`, `CatalogServing`, `CatalogRuns`, `ServingTheorems`,
  `DeletionTheorems`, `CatalogProgress`): immutable generations, the active and pending pointer, the polls and readiness
  checks of the serving processes, and what is remembered of deleted products.
- **Provider key directory** (`KeyDirectory`, `KeyRuns`, `KeyProgress`): saves by ordered file operations, where a
  directory change that is not synced may or may not survive a crash.
- **Console relay** (`ChatAdmissions`, `AdmissionRuns`, `AdmissionProgress`): durable admission rows with a frozen body, and
  when a turn may be sent again.
- **Native values** (`NativeGrammar`, `NativeParsers`, `NativeWindows`, `NativeWriting`,
  `NativeRoundTrip`, `NativeReading`, `SpanTheorems`, `ProseFields`, `DecisionMasking`,
  `WrittenCalls`): one grammar, two parsers proved against it, a writer that knows nothing of them
  and whose texts they read back, the spans of one of them, and the training labels that are dropped
  for prose. The character classes are parameters that are usual on ASCII. Numbers follow section 6 and quoted strings section 7 of
  RFC 8259.
- **Patches, history and streams** (`FilterPatch`, `ToolHistory`, `ProviderPackets`, `AnswerStream`).

A class performs in place what the source object does; its methods are proved equal to functions on
the value of its fields, and the run modules take those functions as atomic steps: one database
transaction, one block under a lock, one file operation, or what happens between two awaits.

## Where the code and its promises part

- A cards event whose valid reason is not trimmed reads differently from the stored state: the state
  is serialised trimmed, the event is not. `ProjectionCommutesWithFolding` has the exact condition; the
  store itself writes reasons trimmed.
- A replaced card arrives as a delta, which clears the progress message in the client, while the
  readable state keeps it. The exact condition is in the same lemma.
- The event text leaves U+0085, U+2028 and U+2029 unescaped, and the HTTP client ends a line at each of
  them. A progress message, a delta, a card reason, an error message, or a user message or text in the
  closing state that holds one is never read back, and a client that resumes meets it again.
  `WholeStreamIffUnbroken` has the exact condition, `SeparatorStopsTheClient` one input.
- A save that finds the no-fallback marker does not sync it. If an earlier save had left that marker
  live but unsynced, and this save dies or fails before its own last sync, a crash can keep the new
  record and drop the marker; losing the record later brings the deployment value back.
  `ReplacedRecordForbidsFallback` has the exact condition, `UnsyncedMarkerLosesTheBoundary` the run.
- `prepare` treats a generation of the same id and content as stored already even when its export id
  differs; the stored export id wins.
- Any failure to load a pending generation rejects it, also a passing one of the connection.

## Model

| member | source | states |
|---|---|---|
| PythonText.StripTrims | chat/app/card_contract.py:14-43 | stripping a text yields a text without outer space, and changes exactly the texts that have some |
| PythonText.StripLosesSpaceOnly | chat/app/card_contract.py:14-43 | stripping takes away outer space and nothing else |
| TurnLog.ConsistentStep | chat/app/store.py:174-203 | one more event on an open turn keeps state, numbering and closing in step |
| TurnLog.NormalizedIsIdentity | chat/app/card_contract.py:45-50 | validating a cards payload loses nothing exactly when every reason was trimmed already |
| TurnStore.Store.RecordEvent | chat/app/store.py:174-183 | numbers the event, stores the state and appends the row; the closing event carries the state |
| TurnStore.Store.Rotate | chat/app/store.py:62-80 | compare-and-swap of the owner, renewal of a committed rotation, claim of an expired lease, sweep in the same transaction |
| TurnStore.Store.Sweep | chat/app/store.py:76-79 | closes every unfinished turn once and touches no other |
| TurnStore.Store.Release | chat/app/store.py:56-61 | the releasing owner is replaced by a fresh expired tombstone, without a sweep |
| TurnStore.Store.Start | chat/app/store.py:124-171 | admission with its refusals in order; a repeated request returns the stored turn; nothing else changes |
| TurnStore.Store.Emit | chat/app/store.py:184-203 | the effect of each event kind on the stored state, refused without the lease, ignored on a closed turn |
| TurnStore.Store.Replay | chat/app/store.py:204-210 | the state with exactly the events after the cursor, or a refused cursor |
| TurnStore.ReplayIsSuffix | chat/app/store.py:204-210 | on a numbered log the rows after a cursor are the suffix after it |
| TurnStore.SweepKeepsRow | chat/app/store.py:76-79 | the sweep keeps state, events and writers of a turn in agreement |
| TurnStore.EmissionKeepsRow | chat/app/store.py:184-203 | an emission keeps state, events and writers of a turn in agreement |
| TurnStore.EffectIsPublic | chat/app/store.py:193-197 | at most one cards block, valid and trimmed, in the state and in the events |
| StoredAnswers.WhenARotationIsAnswered | chat/app/store.py:62-80 | the column is renewed by its holder, or taken from the expected one unless a claim finds it live, and never otherwise |
| StoredAnswers.WhenALeaseIsReleased | chat/app/store.py:56-61 | a release takes the column from its holder only |
| StoredAnswers.WhenATurnIsAdmitted | chat/app/store.py:124-171 | exactly when a new turn is admitted, and the open turn without blocks and events that it gets |
| StoredAnswers.RepeatedRequestFindsItsTurn | chat/app/store.py:131-135 | the same request again finds the stored turn, another one under its id is refused |
| StoredAnswers.WhatAReplayAnswers | chat/app/store.py:204-210 | the state and all events after the cursor, for exactly the cursors inside the log |
| StoredAnswers.WhenAnEmissionIsStored | chat/app/store.py:184-203 | exactly when an emission is stored: live lease of the sender, open turn, at most one cards block of showable products, a terminal status with its error |
| StoredAnswers.StoredEmission | chat/app/store.py:174-203 | a stored emission puts its status, text, progress or trimmed cards into its own turn, adds one event that says so, and touches nothing else |
| StoredAnswers.StoredAnswerIsWhatWasSent | chat/app/store.py:184-203 | however an answer is cut into deltas, the stored text, cards and final status are exactly what was sent |
| LeaseRuns.OwnerNeverReturns | chat/app/store.py:44-80 | over delayed, repeated and lost calls the owner column never returns to a value it left |
| LeaseRuns.RotationTakesEffectOnce | chat/app/store.py:62-80 | a rotation moves the owner column at most once, however often it is executed |
| LeaseRuns.ClaimWaitsForExpiry | chat/app/store.py:68-69 | a claim never takes over a live lease |
| LeaseRuns.EventsBelongToTheAdmittingOwner | chat/app/store.py:81-83 | every event was written by the owner that admitted the turn, but for one closing event of the sweep that took over; an open turn belongs to the current owner or its tombstone |
| LeaseRuns.StateIsTheFoldOfItsEvents | chat/app/store.py:174-210 | events are numbered 1 to lastEventId, their fold is the stored state, and only a finished turn has a closing event, its last |
| LeaseRuns.AdmissionStaysBounded | chat/app/store.py:148-153 | never two open turns in a conversation, never more open turns than the limit |
| LeaseRuns.RepeatedRotationSweepsNothing | chat/app/store.py:63-67 | repeating the rotation in force renews the lease and leaves every turn alone |
| LeaseRuns.RotationClosesExactlyTheUnfinished | chat/app/store.py:76-79 | a rotation that moves the owner closes exactly the open turns |
| CardProjection.ReplaceInvalid | chat/app/card_contract.py:65-78 | a notice stands in place of each unreadable cards block, all other blocks stay |
| CardProjection.MergeBlocks | chat/app/card_contract.py:79-88 | neighbouring text blocks are joined in order |
| CardProjection.ProjectTurn | chat/app/card_contract.py:65-92 | the readable turn, or a refusal when the public model rejects it |
| CardProjection.ProjectReplay | chat/app/card_contract.py:98-109 | the readable batch keeps every number; a closing event carries the readable state |
| ShownAnswers.WhenATurnIsReadable | chat/app/card_contract.py:65-92 | exactly which stored turns the public model accepts |
| ShownAnswers.ShownTurnHasTheStoredContents | chat/app/card_contract.py:65-92 | the readable form has the stored text in order, with the notice in place of each unreadable cards block, and the readable cards, trimmed |
| ShownAnswers.FollowedEventsAreShown | chat/app/integration_client.py:68-76 | a client that follows an open turn shows its deltas, its cards and the progress since the last delta |
| ShownAnswers.ClosingEventIsShown | chat/app/integration_client.py:66-67 | a client that receives the closing event shows its state |
| ProjectionCommutes.ProjectionCommutesWithFolding | chat/app/card_contract.py:65-109 | from any readable snapshot, folding the readable events gives the readable blocks exactly when readable cards were stored trimmed, the same status and number always, and the same progress message exactly when no notice follows the last progress change |
| ProjectionCommutes.AnySnapshotReachesTheProjectedState | chat/app/card_contract.py:98-109 | a client that joins at any point of a log ends with the readable form of the final state |
| ProjectionCommutes.FoldsHaveNoAdjacentText | chat/app/integration_client.py:70-73 | folding from admission never leaves two text blocks side by side |
| ProjectionCommutes.UntrimmedCardsDiverge | chat/app/card_contract.py:98-109 | a concrete log with an untrimmed valid reason on which the two forms differ |
| ProjectionCommutes.NoticeClearsProgress | chat/app/card_contract.py:98-109 | a concrete log on which the progress messages differ |
| EventStream.Parse | chat/app/integration_client.py:12-26 | the frames dispatched from any lines, and whether a malformed frame stopped the parser |
| EventStream.Join | chat/app/integration_client.py:18 | several data lines are joined by line feeds |
| EventStream.CutText | chat/app/integration_client.py:12-26 | a cut text is whole lines and perhaps the front of one more |
| EventStream.CutStreamDeliversPrefix | chat/app/main.py:298 | a sent stream cut at any character dispatches a prefix of the sent frames and is never malformed |
| EventStream.WholeStreamIffUnbroken | chat/app/integration_client.py:12-26 | a stream as the server writes it is read as the frames that were sent exactly when no data holds a line end that JSON leaves as it is |
| EventStream.BreaksBeyondAscii | chat/app/main.py:298 | those line ends are U+0085, U+2028 and U+2029 |
| EventStream.SeparatorStopsTheClient | chat/app/integration_client.py:12-26 | a concrete delta that stops the client at its frame |
| EventService.Stream | chat/app/main.py:291-306 | a viewer is sent exactly the events after its cursor, once each and in order, and the server closes only after the closing event |
| EventService.SuffixFrom | chat/app/main.py:303 | a reading after a cursor returns consecutive numbers from the cursor on |
| ResumeClient.BackendClient.Resume | chat/app/integration_client.py:51-79 | snapshot checks, skipped repetitions, gap and terminal checks, and the saved turn after every accepted frame |
| ResumeClient.FollowsTheLogExactlyOnce | chat/app/integration_client.py:63-78 | over frames that repeat, arrive early, or are missing, the saved turn is the fold of a prefix of the log |
| ResumeClient.InOrderStreamLosesNothing | chat/app/integration_client.py:63-78 | an in-order stream, cut anywhere, is followed to the cut |
| ResumeClient.AnyFramesAreChecked | chat/app/integration_client.py:63-78 | whatever frames arrive: the saved turn is the adopted one with received events applied in number order, each once, and done exactly with a finished state of that very turn |
| ResumeClient.ResumedTurnShowsTheStoredTurn | chat/app/integration_client.py:51-79 | a resuming client shows what the stored turn showed at the same number |
| ChatReaders.StoredLogReadsAsItself | chat/app/card_contract.py:65-109 | logs written by the store itself need no projection: neither state nor events change |
| ChatReaders.ClientReachesStoredState | chat/app/integration_client.py:51-79 | in every run of the store, a client that joins a turn at any of its events and receives its events in any order, repeated or missing, saves the state the store had after some number of them, and the final one when it reports completion |
| StreamedTurns.ReadingsOfARunGrow | chat/app/main.py:303 | what the server reads of a turn at successive moments of a run is what the event service can stream |
| StreamedTurns.CutStreamReachesStoredState | chat/app/integration_client.py:51-79 | from a run of the store, through the public events, the sent text, any character cut, the parser and the decoded payloads: the client saves the stored state after some number of events, is done exactly with the final state, and loses nothing when nothing is cut |
| CatalogBinding.ManagedSearch.constructor | integration/profiler_rebind.py:33-45 | a new manager serves its catalog, with nothing pending, borrowed or retired |
| CatalogBinding.ManagedSearch.RetireIfReady | integration/profiler_rebind.py:78-83 | a retired catalog leaves the retired set with its last reader |
| CatalogBinding.ManagedSearch.BorrowStart | integration/profiler_rebind.py:51-58 | a job thread borrows its own catalog, others need an open admission |
| CatalogBinding.ManagedSearch.BorrowEnd | integration/profiler_rebind.py:59-66 | the reader count drops and a finished retired catalog is handed over for closing |
| CatalogBinding.ManagedSearch.HealthStart | integration/profiler_rebind.py:178-190 | a health read pins the current catalog unless paused or closed |
| CatalogBinding.ManagedSearch.Submit | integration/profiler_rebind.py:129-138 | a refused or unqueued job leaves no trace |
| CatalogBinding.ManagedSearch.RunEnd | integration/profiler_rebind.py:147-156 | a finished job leaves both counters and may retire the last catalog |
| CatalogBinding.ManagedSearch.RefreshStart | integration/profiler_rebind.py:219-224 | a refresh starts exactly when the manager is not shutting down, and pauses admission |
| CatalogBinding.ManagedSearch.Swap | integration/profiler_rebind.py:254-260 | the candidate becomes current and the old catalog is retired, unless shutting down |
| CatalogBinding.ManagedSearch.Close | integration/profiler_rebind.py:285-292 | the last catalog is retired when nothing runs |
| RebindRuns.StepKeepsInv | integration/profiler_rebind.py:47-292 | every block of every thread keeps the counters, bindings and closings in agreement |
| RebindRuns.ClosedCatalogsAreUnused | integration/profiler_rebind.py:51-83 | no catalog is closed while a read or job uses it, none is closed twice, no read starts on a closed one |
| RebindRuns.NothingRetiredWithoutReads | integration/profiler_rebind.py:78-83 | with no read in progress nothing is waiting to be closed |
| RebindRuns.FinalCatalogIsClosed | integration/profiler_rebind.py:285-292 | after the final close the last catalog is closed exactly once |
| RebindRuns.SwapFindsNoJob | integration/profiler_rebind.py:225-262 | a swap that goes through finds no accepted job unfinished |
| RebindRuns.BindingChangesOnlyWhenDrained | integration/profiler_rebind.py:225-262 | the binding changes only by a swap with no accepted job unfinished |
| RebindRuns.JobStaysOnItsCatalog | integration/profiler_rebind.py:129-156 | an accepted job runs wholly on the catalog that was current at its acceptance |
| RebindRuns.RefreshEndsWell | integration/profiler_rebind.py:215-274 | a successful refresh ends on the snapshot it was asked for; a failed one leaves the binding in place; admission reopens unless shutting down |
| RebindRuns.CandidateClosedExactlyOnce | integration/profiler_rebind.py:268-274 | a candidate of a failed refresh is closed exactly once and never becomes current |
| RebindProgress.RefreshGoesThrough | integration/profiler_rebind.py:215-274 | from every reachable state without jobs, refresh or shutdown, a refresh whose build and checks succeed ends with the new catalog current, the old one retired or handed over for closing, and admission open |
| RebindProgress.UnchangedRefreshGoesThrough | integration/profiler_rebind.py:233-239 | when the snapshot is the expected one and usable, the refresh leaves everything as it was |
| RebindProgress.JobRunsThrough | integration/profiler_rebind.py:129-156 | from every reachable open state a new job is accepted, reads its catalog and ends, leaving the state as it was |
| RebindProgress.WhenAJobIsAccepted | integration/profiler_rebind.py:129-138 | a job is accepted exactly when admission is open and the supervisor takes it |
| RebindProgress.WhenAReadStarts | integration/profiler_rebind.py:51-58 | a read starts exactly for a job, or while the manager is open and not paused for it |
| RebindProgress.WhenAHealthReadStarts | integration/profiler_rebind.py:178-190 | a health read starts exactly while the manager is open, on the current catalog |
| RebindProgress.WhenARefreshStarts | integration/profiler_rebind.py:219-224 | a refresh is refused exactly while shutting down, and then changes nothing under the lock |
| RebindProgress.ShutdownGoesThrough | integration/profiler_rebind.py:276-292 | from every reachable idle state a shutdown goes through and closes the last catalog once |
| KeyDirectory.KeyStore.SyncDirectory | integration/provider_key.py:374-378 | after a sync only the present entries can survive a crash |
| KeyDirectory.KeyStore.UndoMarker | integration/provider_key.py:380-391 | the marker of this attempt is removed and the removal synced, or the save is unconfirmed |
| KeyDirectory.KeyStore.Save | integration/provider_key.py:326-409 | every ending of a save after a failure or death at any file operation, with what may survive on disk |
| KeyRuns.DurableMarkerForever | integration/provider_key.py:368-378 | a synced marker is never lost, so no later snapshot falls back |
| KeyRuns.ConfirmedSaveNeverFallsBack | integration/provider_key.py:326-404 | after a confirmed save no snapshot ever returns the deployment value, even if the record is lost |
| KeyRuns.ReplacedRecordForbidsFallback | integration/provider_key.py:364-397 | after a save that replaced the record, the deployment value can come back exactly when the save found an unsynced marker and its own last sync did not happen |
| KeyRuns.BoundaryDurableUnlessFoundUnsynced | integration/provider_key.py:370-397 | when the marker is durable after a replacing save |
| KeyRuns.FallbackPossibleIffMarkerNotDurable | integration/provider_key.py:232-246 | a snapshot of the deployment value is still reachable exactly while the marker is not durable |
| KeyRuns.UnsyncedMarkerLosesTheBoundary | integration/provider_key.py:364-397 | a concrete run in which a seen record is lost and the deployment value returns |
| KeyRuns.WhenTheMarkerStaysUnsynced | integration/provider_key.py:370-391 | which saves leave an unsynced marker behind |
| KeyRuns.UndoneFirstSaveLeavesNoTrace | integration/provider_key.py:380-391 | a first save that fails and is undone leaves the directory and every later snapshot as before |
| KeyRuns.RecordChangesOnlyWhenPut | integration/provider_key.py:346-404 | refused, changed and failed saves never change the record, now or after a crash |
| KeyRuns.ConfirmedSavesFormOneChain | integration/provider_key.py:346-360 | confirmed saves form one chain of revisions, and no two replace the same revision |
| KeyProgress.WhenASaveIsConfirmed | integration/provider_key.py:326-404 | exactly when a save is confirmed, and that its record and the marker are all that a crash can leave |
| KeyProgress.WhenASaveIsTurnedAway | integration/provider_key.py:338-360 | a save naming another revision, or into a damaged or unmigrated directory, changes nothing and says which |
| KeyProgress.WhatASnapshotAnswers | integration/provider_key.py:232-246 | the stored key, or the deployment value only where neither record nor marker is |
| KeyProgress.ConfirmedKeyIsRead | integration/provider_key.py:326-404 | a confirmed key is read at once and after any crash |
| CatalogGenerations.CatalogStore.ConfirmExport | product-search/catalog_store.py:110-136 | stale, repeated, reused and conflicting receipts; a new receipt buries what disappeared |
| CatalogGenerations.CatalogStore.Bury | product-search/catalog_store.py:135-136 | one tombstone per removed product, an existing one stays |
| CatalogGenerations.CatalogStore.Prepare | product-search/catalog_store.py:138-147 | only valid generations are stored; a stored one never changes |
| CatalogGenerations.CatalogStore.Load | product-search/catalog_store.py:96-103 | a stored generation is validated again when loaded |
| CatalogGenerations.CatalogStore.Propose | product-search/catalog_store.py:149-156 | another pending generation is not replaced; the active one is not proposed again |
| CatalogGenerations.CatalogStore.Activate | product-search/catalog_store.py:158-168 | the pointer moves only from the expected active to the pending generation |
| CatalogGenerations.CatalogStore.Reject | product-search/catalog_store.py:170-173 | only the named pending generation is cleared |
| CatalogGenerations.PreparedLoadsBack | product-search/catalog_store.py:96-147 | what was prepared loads back with the same content under the same id |
| CatalogGenerations.LoadedIsSelfConsistent | product-search/catalog_store.py:34-53 | a loaded generation names itself, matches both digests and lists distinct products in order |
| CatalogProgress.ValidationAcceptsExactlyTheValid | product-search/catalog_store.py:34-53 | the exact condition on a generation |
| CatalogProgress.WhenAnExportIsRecorded | product-search/catalog_store.py:113-136 | an export is recorded exactly when its id is new and it is newer than every one before |
| CatalogProgress.WhenAGenerationIsStored | product-search/catalog_store.py:138-147 | a new generation is stored exactly when it is valid and its export was confirmed |
| CatalogProgress.WhenAGenerationIsStoredAgain | product-search/catalog_store.py:138-147 | a stored id is accepted again exactly with the same content, and then nothing changes |
| CatalogProgress.WhenAGenerationIsProposed | product-search/catalog_store.py:149-156 | a stored generation becomes pending exactly when no other is, and the active one is left as it is |
| CatalogProgress.WhenAGenerationIsActivated | product-search/catalog_store.py:158-168 | the pointer moves exactly from the expected active generation onto the pending one |
| CatalogProgress.RejectionClearsItsGeneration | product-search/catalog_store.py:170-173 | a rejection clears exactly the pending generation it names, marks the failure, and touches nothing else |
| CatalogServing.CatalogRuntime.Claim | product-search/catalog_runtime.py:25-40 | a live connection keeps the serving lock, a broken one is closed before a new attempt |
| CatalogServing.CatalogRuntime.Poll | product-search/catalog_runtime.py:63-91 | one poll: claim, reconcile, reject or activate, and the final readiness |
| CatalogServing.CatalogRuntime.HandlePending | product-search/catalog_runtime.py:72-89 | an unloadable pending generation is rejected, a loadable one activated and swapped in |
| CatalogServing.CatalogRuntime.Check | product-search/catalog_runtime.py:93-104 | true only when ready, outside a transition, with a live lock and the loaded catalog active |
| CatalogServing.UndisturbedPollServesActive | product-search/catalog_runtime.py:63-91 | an uninterrupted poll whose loads succeed ends ready on the active generation with nothing pending |
| CatalogServing.AnyPollIsHonest | product-search/catalog_runtime.py:63-91 | however its operations come out, a poll that ends ready serves the active generation |
| CatalogProgress.BadCandidateMakesRoom | product-search/catalog_runtime.py:72-91 | an otherwise undisturbed poll that cannot load the pending generation clears it, marks the failure, serves what was active, and any other stored generation can be proposed at once |
| CatalogProgress.NewCatalogGoesLive | product-search/catalog_store.py:110-168 | confirming a newer export, preparing a valid generation of it and proposing it is never refused, and one undisturbed poll then serves it |
| CatalogRuns.StepKeepsInv | product-search/catalog_runtime.py:18-104 | every step of every process, check and transaction keeps what the lock holder knows about the pointer |
| ServingTheorems.ReadyServesActive | product-search/catalog_runtime.py:63-104 | one process at most holds the lock; when it is ready it serves the stored active generation |
| ServingTheorems.ActivationNeverConflicts | product-search/catalog_store.py:164-167 | while its session lives, a poll never meets an activation conflict |
| ServingTheorems.PointerMovesOnlyOntoValidated | product-search/catalog_runtime.py:72-89 | the active id moves only in the lock holder's activation, onto a generation it opened and validated while it was pending, pending ever since |
| ServingTheorems.TrueCheckNamesTheActive | product-search/catalog_runtime.py:93-104 | after a true check the catalog loaded at its return is the one the database named active at its read |
| ServingTheorems.StepsMakeAPoll | product-search/catalog_runtime.py:63-91 | the separate steps, uninterrupted, are the poll of the runtime class |
| ServingTheorems.UndisturbedPollRecovers | product-search/catalog_runtime.py:63-91 | from any reachable state one uninterrupted poll makes the process ready on the active generation |
| DeletionTheorems.TombstonesAreExactlyTheDeleted | product-search/catalog_store.py:110-136 | a product has a tombstone exactly when it was in the first catalog or some export and missing from a later one |
| DeletionTheorems.TombstoneNamesFirstLoss | product-search/catalog_store.py:135-136 | the tombstone names the export that first missed the product |
| DeletionTheorems.TombstonesAreForever | product-search/catalog_store.py:110-136 | no step removes or rewrites a tombstone |
| DeletionTheorems.ReconfirmingChangesNothing | product-search/catalog_store.py:118-127 | confirming a known export again changes nothing and is accepted exactly for the latest receipt |
| NativeParsers.NativeValueParser.Value | chat/pc_tests/gemma_runtime.py:34-69 | the value, its end or its fault, as the grammar has it |
| NativeParsers.NativeValueParser.Name | chat/pc_tests/gemma_runtime.py:49-58 | a key in any notation and its colon |
| NativeParsers.NativeValueParser.ScalarValue | chat/pc_tests/gemma_runtime.py:37-43 | strings, literals and numbers, and what is none of them |
| NativeParsers.NativeValueParser.ContainerValue | chat/pc_tests/gemma_runtime.py:44-64 | objects without repeated keys and lists, through the closing bracket |
| NativeParsers.SpanParser.Value | chat/pc_tests/decision_masking.py:23-71 | the same value, end or fault as the native parser, and one span for every path of the value |
| NativeParsers.SpanParser.ContainerValue | chat/pc_tests/decision_masking.py:31-69 | the same members as the native parser, with the spans of all of them |
| NativeParsers.SpaceBeforeMember | chat/pc_tests/decision_masking.py:41 | the extra space skipped before a member changes nothing |
| NativeWindows.WindowParse | chat/pc_tests/gemma_runtime.py:34-69 | a value is read again unchanged from any piece of the text that contains it |
| NativeWindows.ShallowerParse | chat/pc_tests/gemma_runtime.py:35 | what can be read at some depth is read the same at any smaller depth |
| NativeRoundTrip.WrittenValueReadsBack | chat/pc_tests/gemma_runtime.py:34-69 | every value within the depth limit, written in the template's notation, in JSON or in ASCII JSON with any gaps, is read back as it is, up to the end of its text |
| NativeRoundTrip.LiteralsMeanThemselves | chat/pc_tests/gemma_runtime.py:65-66 | `true`, `false` and `null` read as themselves, whatever follows |
| NativeRoundTrip.QuotedReads | chat/pc_tests/gemma_runtime.py:42-43 | a quoted string with its escapes, surrogate pairs included, reads as its characters |
| NativeReading.ReadValueIsWritable | chat/pc_tests/gemma_runtime.py:34-69 | whatever is accepted has JSON numbers, no repeated key and no more than the allowed depth |
| NativeReading.ReadValueReadsBack | chat/pc_tests/gemma_runtime.py:34-69 | the value of any accepted text, written again, reads as the same value |
| SpanTheorems.SpanTextReadsAsItsValue | chat/pc_tests/decision_masking.py:17-71 | the recorded paths are the value's paths, and the text of each span read alone is the value at its path |
| SpanTheorems.SpansNestLikeTheValue | chat/pc_tests/decision_masking.py:17-71 | one span lies inside another exactly when its path extends the other's; spans are apart exactly when the paths branch |
| SpanTheorems.ListSpansAreOrdered | chat/pc_tests/decision_masking.py:62 | in a list the spans stand in the order of the indices |
| DecisionMasking.ReadCalls | chat/pc_tests/gemma_runtime.py:83-88 | the arguments of every call as the native parser reads them, or the fault of the first call that is no object |
| DecisionMasking.OmittedProse | chat/pc_tests/decision_masking.py:86-133 | the two parsers never disagree on a call, prose is always delimited, and each omitted span is the inside of one prose string |
| DecisionMasking.OmittedSpans | chat/pc_tests/decision_masking.py:74-133 | accepted exactly when every call reads as an object of its tool's shape; then the omitted spans of every call where they stand in the target, else the refusal: a fault of any call before a wrong shape of any |
| DecisionMasking.AcceptedExactlyWhenWellShaped | chat/pc_tests/decision_masking.py:86-118 | the shape of the arguments that each registered tool takes, exactly |
| DecisionMasking.OmittedSpansAreTheProseFields | chat/pc_tests/decision_masking.py:91-133 | an accepted call has one omitted span for each prose field and no other: the message of list_gifts and show_gifts, and the reason of every described product |
| WrittenCalls.WrittenCallsAreAccepted | chat/pc_tests/decision_masking.py:80-133 | calls written from well-shaped objects are accepted |
| WrittenCalls.WrittenProseIsFound | chat/pc_tests/decision_masking.py:112-133 | every prose field of the written object has its omitted span |
| DecisionMasking.OnlyStringsAreDelimited | chat/pc_tests/decision_masking.py:119-129 | a value's text has delimiters exactly when the value is a string |
| DecisionMasking.OmittedSpansAreApart | chat/pc_tests/decision_masking.py:119-132 | no character is omitted for two fields, of one call or of two |
| DecisionMasking.MaskLabels | chat/pc_tests/decision_masking.py:160-173 | every label of prompt and completion, the dropped positions in order, and the tokens that cross a boundary |
| DecisionMasking.DroppedPlusSupervised | chat/pc_tests/decision_masking.py:174-179 | dropped plus supervised tokens make up the completion; the prompt is never supervised |
| DecisionMasking.MaskedTokensAreProse | chat/pc_tests/decision_masking.py:166-173 | a token is unsupervised exactly when it is not empty and lies wholly between the delimiters of one prose field of some call |
| ChatAdmissions.AdmissionStore.ChatAdmission | console/admin_auth.py:177-188 | a row is read only by the login and target that made it |
| ChatAdmissions.AdmissionStore.SaveChatAdmission | console/admin_auth.py:190-215 | ownership, frozen body and history limit are enforced; ownership of a conversation stays once recorded |
| ChatAdmissions.AdmissionStore.OwnsChatConversation | console/admin_auth.py:217-223 | rows of another login or target refuse the question |
| ChatAdmissions.AdmissionStore.Purge | console/admin_auth.py:158-175 | an expired login takes its rows with it |
| AdmissionRuns.SendFollowsReadableRow | console/server.py:664-688 | each turn send follows a durable readable row of its own login with the very body that is sent |
| AdmissionRuns.SendsCarryOneFrozenBody | console/server.py:624-688 | while the login lives, all sends for one request id or one turn id carry the same frozen body |
| AdmissionRuns.UnknownTurnIsSentAgainOnlyAfterAbsence | console/server.py:573-607 | a turn send that was not answered with a refusal, because of its reply or because the process died first, is sent again only after a 404 for it that came after that send, with no send between, whatever happened to other sends meanwhile |
| AdmissionRuns.UnknownSendHoldsRow | console/server.py:689-713 | such a send leaves its row readable and under its login |
| AdmissionRuns.ConversationIsNeverTakenOver | console/server.py:635-663 | turns are sent only into conversations that the same login's request created, even after logins expired |
| AdmissionProgress.WhenARowIsSaved | console/admin_auth.py:190-215 | a row is stored exactly when its login lives, no row stands in its way, its body is not another one and there is room; ownership stays |
| AdmissionProgress.SavedRowIsReadBack | console/admin_auth.py:177-188 | a stored row is read back by its login and target, and by no other |
| AdmissionProgress.ExpiredLoginLeavesNothing | console/admin_auth.py:158-175 | an expired login takes exactly its own rows with it |
| AdmissionProgress.NewTurnIsSent | console/server.py:548-688 | a new request with nothing in its way is sent, from a durable readable row of the very body |
| AdmissionProgress.AbsentTurnIsSentAgain | console/server.py:568-688 | after a 404 the turn is sent again with its frozen body, whatever the context is now |
| AdmissionProgress.UnreadTurnIsSentAgain | console/server.py:548-688 | a turn whose row is not readable is sent again without asking, with its frozen body |
| AdmissionProgress.WhatAReplyRecords | console/server.py:689-713 | a refusal gives the row back its earlier readability, any other reply leaves it readable |
| RuntimeProofs.HealthyRuntimeHasNoOrphan | chat/app/runtime.py:201-386 | while the runtime is healthy every open turn of its own has a task that answers for it |
| RuntimeProofs.EndedTaskLeavesClosedTurnOrRecovery | chat/app/runtime.py:299-330 | a task that ends leaves its turn closed, or the runtime unhealthy, by a recovery request of that very step if it was healthy before |
| RuntimeProofs.RecoveryClosesLeftTurns | chat/app/main.py:113-144 | a turn left open is closed by the time the runtime is healthy again |
| RuntimeProofs.RotateKeepsInv | chat/app/main.py:133-142 | an answered rotation installs a token over a store whose turns are all closed |
| RuntimeProofs.ProposalTakesEffect | chat/app/main.py:125-138 | a proposed token was never in the owner column before |
| RuntimeProofs.FinishKeepsInv | chat/app/runtime.py:347-361 | finishing, retried or given up, leaves no orphan |
| RuntimeProofs.CancelHitKeepsInv | chat/app/runtime.py:300-307 | a cancelled task leaves no orphan |
| RuntimeProgress.NewTurnIsStarted | chat/app/runtime.py:201-299 | on a healthy runtime under its own live lease, a new turn with room gets its open row and a running task, and nothing else changes |
| RuntimeProgress.RunningTurnIsFinished | chat/app/runtime.py:347-386 | a running task closes its turn with the status it reached and ends |
| RuntimeProgress.CancelledTurnIsClosed | chat/app/main.py:311-315 | an answered cancellation closes the turn as cancelled and ends its task, and the runtime stays healthy |
| RuntimeProgress.LateStartIsTakenUp | chat/app/runtime.py:251-299 | a start whose answer is lost is tried again, and the turn that its late effect made is run |
| RuntimeProgress.LateFinishIsEnough | chat/app/runtime.py:347-361 | a terminal write whose answer is lost is tried again, and its late effect is enough |
| RuntimeProgress.RecoveryGoesThrough | chat/app/main.py:113-144 | one beat with an answered rotation makes a recovering runtime healthy over closed turns |
| RuntimeProgress.ClaimGoesThrough | chat/app/main.py:113-144 | a runtime that owns nothing claims an expired lease in one answered beat |
| RuntimeProgress.RenewalGoesThrough | chat/app/main.py:113-144 | a healthy holder renews its lease and goes on |
| FilterPatch.BrandResolver.constructor | chat/app/gift_guided.py:86-95 | the indexes hold every catalog name under its label and its bare label |
| FilterPatch.BrandResolver.Resolve | chat/app/gift_guided.py:97-102 | a name resolves to the one catalog name that reads the same, to itself if none does, and not at all if several do |
| FilterPatch.LabelResolves | chat/app/gift_guided.py:97-102 | a name that reads like exactly one catalog label is that label |
| FilterPatch.AliasResolves | chat/app/gift_guided.py:97-102 | a name that is no label and reads like exactly one label without its parentheses is that label |
| FilterPatch.WhatAListResolvesTo | chat/app/gift_guided.py:197-199 | a list resolves exactly when each of its names does, to the brands they name, each once |
| FilterPatch.CatalogBrandResolvesToItself | chat/app/gift_guided.py:97-102 | a catalog brand resolves to itself exactly when no other catalog brand reads the same |
| FilterPatch.ResolvedAllKeepsExactlyStable | chat/app/gift_guided.py:197-199 | resolution keeps a list exactly when its names resolve to themselves and do not repeat |
| FilterPatch.ResolvedAllKeepsExactlyPlain | chat/app/gift_guided.py:197-199 | that is, exactly when each is a catalog name with no other reading or no reading at all, and none repeats |
| FilterPatch.SparsePatchReachesTarget | chat/pc_tests/stable_supervision.py:20-51 | applying the sparse patch, nested or flat, over switches and every budget action, gives the target's public conditions exactly when the changed brand lists hold no repetition and no name with another reading in the catalog, and the categories are known |
| FilterPatch.PatchIsValid | chat/pc_tests/stable_supervision.py:20-51 | the patch is within the argument bounds and the flat form is already complete |
| FilterPatch.PatchChangesWhatItNames | chat/app/gift_guided.py:187-210 | an accepted patch changes the conditions it names and keeps the others; on a switch of recipient there are none to keep |
| FilterPatch.FlatPatchReplacesTheRange | chat/app/gift_dialogue.py:56-66 | a flat patch that names one price clears the other |
| FilterPatch.SearchAppliesExactly | chat/app/gift_adapter.py:42-51 | exactly which categories a search asks for and which it excludes |
| FilterPatch.DislikesAreExcludedPrivately | chat/app/gift_adapter.py:42-51 | private dislikes are excluded down to their children for the current recipient only |
| ToolHistory.BoundedHistory | chat/app/gift_stable.py:159-167 | whole user turns, the last few of them |
| ToolHistory.WindowOfWindow | chat/app/gift_stable.py:159-167 | cutting early loses nothing that a later cut would keep |
| ToolHistory.CommittedIsOneWindow | chat/app/gift_stable.py:187-204 | after any number of committed turns the kept history is the uncut history windowed once |
| ToolHistory.CommittedKeepsTheLastTurns | chat/app/gift_stable.py:187-204 | after any number of committed turns exactly the last four are kept, whole and in order |
| ToolHistory.CommittedHistoryIsPaired | chat/app/gift_stable.py:187-204 | in every kept group each tool result stands right behind the call bearing its id |
| ProviderPackets.ProviderStream.TakeChoice | chat/app/low_latency.py:68-90 | an error exactly when the choice failed, held content is not text or too long, or anything follows a release; held text is kept, calls are passed on |
| ProviderPackets.ProviderStream.TakePacket | chat/app/low_latency.py:61-95 | an error exactly for a packet that does not fit; after a good one text is released exactly by a stop without a call, or was before |
| ProviderPackets.Stream | chat/app/low_latency.py:58-97 | when a response is read to its end; while text is held no packet sequence yields both text and calls; a good stream yields calls, texts, usage records and finish reasons in order; after a good stop all held text is out whatever comes later |
| AnswerStream.StreamedAnswer.TakeItem | chat/app/streaming.py:72-89 | the first delta and a full buffer are committed at once; the last item flushes what is left |
| AnswerStream.StreamedAnswer.Settle | chat/app/streaming.py:89-95 | an answer needs text and a proper finish |
| AnswerStream.TextIsConserved | chat/app/streaming.py:11-98 | committed, collected, queued and not yet queued text are the provider text so far, in order; no empty delta; a bounded queue |
| AnswerStream.EverythingReceivedIsCommitted | chat/app/streaming.py:84-95 | on a normal end and on a provider error all that was received has been committed |
| AnswerStream.FailedCommitLosesItsTextOnly | chat/app/streaming.py:58-69 | after a commit without an answer only the text of that commit is in doubt |
| AnswerStream.EndingDecidesTheResult | chat/app/streaming.py:84-95 | a stream taken to its end is an answer exactly when there was text and a proper finish; else the provider's ending says why not |
| AnswerStream.ShortAnswerGetsThrough | chat/app/streaming.py:72-95 | one delta and a proper finish: committed as soon as it is taken, and an answer |

## Left out

- The lease path without a next owner, the unchecked delete on release, and the quick-check branches of admission.
- The fixture store, the bridge store and authorisation failures of the store service.
- `int()` on anything but a rendered decimal, and a carriage return with its line feed as one line end: both sides' number and JSON routines are one parameter that renders and reads back, and JSON escapes every control character.
- JSON, hashing, UUID, Unicode and tokenizer internals: functions, fresh values or given offsets.
- A NUL character in event texts, which the database cannot store.
- How viewers of one turn are woken: delivery is modelled, latency is not.
- `os.replace`, `unlink` and directory syncs are taken as all-or-nothing when they report a failure; file contents are synced before they are put in place.
- `record_success`, `runtime_status`, the AWS source and the shared legacy layout of provider keys.
- The closing of replaced and refused search catalogs in the serving process, its local published directory, and product bindings.
- The Python limit on converting very long digit strings to integers.
- `parse_generation`: the search for tool-call markers around the arguments; the names, arguments and positions of the calls are given.
- DecisionMasking.MaskLabels: the tokenizer's offsets, the length limit and the audit record are not modelled, because they only refuse or report.
- The console without durable admissions, its demo mode and its own checks of readiness; an upstream conversation is created once and found afterwards.
- AdmissionRuns.UnknownTurnIsSentAgainOnlyAfterAbsence: holds while the login's rows live; after they expire, `ConversationIsNeverTakenOver` is what keeps another login from sending.
- A timed-out start is taken as decided before a later start of the same turn under the same token is answered.
- The generation itself, its metrics, receipts and traces; wall-clock deadlines are free choices of the schedule.
- Catalog search, category availability, product views and the unknown-brand correction of the validated harness.
- Prompts, pages, cookies, assets, redaction, reports and migrations.
