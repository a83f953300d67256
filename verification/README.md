# Cortext plugin: a verified model

The plugin sits between a model client and its provider. It keeps one durable engine, backed by
one file, for each isolation scope, feeds it from requests, responses and stream chunks that are
handled concurrently, and injects what the engine recalls into later prompts. This project models
that logic in Dafny and proves what it promises, and where its guarantees stop.

Check everything with `dafny verify dfyconfig.toml`.

## How the model is laid out

- **Engine lifecycle.** `Lifecycle.dfy` is a state machine: threads with program counters, one step
  for one critical section, lock acquisition, channel wait or engine call. `LifecycleCore.dfy` proves
  the invariants that hold on every schedule, `LifecycleOrder.dfy`, `LifecycleFiles.dfy`,
  `LifecycleReads.dfy` and `LifecycleShutdown.dfy` the safety results with their exact conditions,
  `LifecycleRestore.dfy` and `LifecycleQuiet.dfy` what a caller can do to meet them,
  `LifecycleProgress.dfy` that nobody waits for ever, `LifecycleCalls.dfy` and
  `LifecycleSettings.dfy` that a call ends with an engine of its own scope and of the settings in force
  or with none, and `LifecycleLimits.dfy` gives runs that show why each condition is there.
  `EngineTable.dfy` has the table and its eviction, `StubEngine.dfy` the
  file-backed engine.
- **The store.** `Store.dfy` is the class with the fields of `Store`. The critical sections that
  change them, and the loops in those sections, are methods proved to compute the functions the state
  machines step by; `waitPendingClose`, the re-check of the table under `openMu` and `Prewarm` are
  steps of `Lifecycle.dfy` only. `Claims.dfy`, `Cadence.dfy`, `Consolidation.dfy` and `ScopeKeys.dfy`
  hold those functions and the theorems about whole runs.
- **Streams.** `Streams.dfy` says what a chunk does to one stream key. `StreamConservation.dfy`,
  `StreamLines.dfy`, `StreamPurity.dfy`, `StreamSegments.dfy`, `StreamFates.dfy` and
  `StreamClaims.dfy` prove that text is neither lost nor mixed, where it is cut, what becomes of it,
  and when the whole message is claimed. `StreamHandlers.dfy` has the handlers, which update the
  shared maps in place.
- **Text.** `Whitespace.dfy`, `Bytes.dfy`, `Neutralize.dfy`, `FenceTags.dfy`, `Disguises.dfy`,
  `EntityDisguise.dfy`, `Truncation.dfy`, `TruncatedTags.dfy`, `Lines.dfy`, `FormatMemories.dfy`,
  `MemoryBlock.dfy`, `MergeLaws.dfy`, `BlockSafety.dfy`, `StagedText.dfy` and `PluginBlock.dfy` follow
  recalled text from the engine into the prompt and out of it again.
- **The rest.** `Bus.dfy` is the interrupt bus, `Windowing.dfy` the trimming of conversations,
  `Config.dfy` the settings the code reads.

## Assumptions

- One engine per scope and the waiting results are stated for runs whose installs are clean
  (`CleanInstalls`): at each install section that goes through, no close of the scope is pending. That
  is exactly when no scope is ever both in the table and pending close, for every run
  (`LifecycleOrder.DisjointExactly`). The file results have an exact condition of their own
  (`LifecycleFiles.FilesFollowLogExactly`). A caller meets the first by never bringing back
  settings that an open past its wait has read and that have changed since (`NeverRestores`, in
  `LifecycleRestore.dfy`); of the second, only the part on late closes is then left
  (`LifecycleRestore.DiscardsDecideFiles`).
- File writes succeed. A file is told by the text of its directory and its scope. The code joins the
  two with `filepath.Join`, which also cleans them, so directories are assumed to be spelled in one way
  only: `x` and `x/` would be one file in the code and two here.
- The plugin makes one `DisposeAll` call on a store: `plugin/main.go:133-146` holds `serviceMu` across
  the call and forgets the store after it.
- Stream purity assumes that the chunk handlers of a key run one after another with the plugin
  enabled, each stream sends init, deltas and one terminal chunk, a poisoned buffer decays only when
  no stream is in flight, and no entry of the key is evicted or taken by a response intercept.
- The claim results assume that `ingest_assistant` is on and stays on, and that no mark of the key is
  evicted during the stream. The text of a chunk for which no engine opens never reaches the buffer,
  so it is part of no claimed text either.
- `shortHash` is a function to sixteen hexadecimal digits. Claims are counted by hash, so two texts
  whose hashes collide count as one, and owners are told apart by the hashes of their keys.
- The role-marker and system-fence passes of neutralize are any functions that only delete.
- `ConsolidateEvery` is at least 1, and a conversation is windowed only for a limit of at least 1.
- Times are integers that a caller passes in; the TTL tests on them are those of the code.

## Where the code and its comments differ

The model follows the code.

- A comment in `plugin/formats.go:769-770` says that a user's own literal tag, closed or not, is left
  untouched. An unclosed one that looks like the plugin's is swallowed on the next injection
  (`MergeLaws.UnclosedMarkerIsSwallowed`).
- The comments in `plugin/intercept.go:686-689` say the whole message is claimed only if nothing
  failed. Only failures of the residual are looked at (`StreamClaims.EarlierFailureIsForgotten`), and
  a residual that was never handed on does not count either (`StreamClaims.FailedOpenClaimsLostText`);
  these are the only two ways to lose part of the text that is claimed
  (`StreamClaims.StreamClaimIsSafeExactly`).
- `DisposeAll` is meant to join every close. A single call does
  (`LifecycleShutdown.SingleDisposeClosesAll`), and the plugin's shutdown, under a lock in
  `plugin/main.go:133-146`, makes a single one. A second call on the same store would not join the
  first (`LifecycleLimits.SecondDisposeReturnsEarly`); what is open then is what the other has yet to
  close (`LifecycleShutdown.StillOpenExactly`).
- The comments in `plugin/store.go:281-283` and `plugin/store.go:323-327` say that looking for a pending
  close before the open, under `openMu`, is sufficient. It is not: settings that change and change back
  behind the open let it be installed beside a close that began meanwhile, which can leave two live
  engines of a scope (`LifecycleLimits.RestoredSettingsBreakOneLive`) or hang the store
  (`LifecycleLimits.RestoredSettingsDeadlock`). Neither happens as long as no close of the scope is
  pending at the install section, and that is exactly what keeps a scope from being in the table while a
  close of it is pending (`LifecycleOrder.DisjointExactly`).
- The closing order promised there does not cover a discarded open either
  (`LifecycleLimits.DiscardedOpenLosesRow`), nor an open that outlasts both the close and the change of
  settings (`LifecycleLimits.StaleInstallLosesRow`). The files follow the log exactly as long as every
  open is decided on with rows that are up to date (`LifecycleFiles.FilesFollowLogExactly`), which they
  are while the last rows of the scope stay those it has read
  (`LifecycleReads.UndecidedUpToDateExactly`).
- The comments in `plugin/memory.go:16` and `plugin/memory.go:47-55` say that HTML entities are mapped
  to brackets first, so that disguised tags still match, and that the passes run to a fixpoint. Entities
  are decoded only once, before the passes: a tag inside an entity is cut out and leaves the entity
  whole (`EntityDisguise.EntityReassembled`). An entity is left exactly if the passes put one together
  (`EntityDisguise.EntityLeftExactly`), and then a second round would change the text
  (`EntityDisguise.IdempotentExactly`).
- Truncation after neutralize can leave a bare tag name at the end of a line
  (`TruncatedTags.TruncationLeavesTag`); it cannot leave a whole fence.
- `plugin/store.go:479-483` says that a claim records the hash and that the claim of the winner closes
  the race of identical ingests. A release leaves its place in the order list, so a hash released and
  claimed again much later can be pushed out of the set by its own claim, and the next identical ingest
  wins too (`Claims.ReclaimIsForgotten`); it is in the set after its claim exactly unless it is among
  what that claim pushes out (`Claims.ClaimedExactly`).
- `plugin/bus.go:100` says a material reconfigure clears the bus. It drops the blocks of the scopes
  that had an engine, and no others (`Stores.Store.ReconfigureSection`).

## Model

| member | source | states |
|---|---|---|
| `LifecycleOrder.OneLiveEngine` | plugin/store.go:281-415 | In every run whose installs are clean, a scope has at most one engine that was returned to a caller and is not fully closed, and a scope with an engine in the table has no close pending. |
| `LifecycleOrder.DisjointExactly` | plugin/store.go:323-382 | For every run: no scope is ever both in the table and pending close, if and only if each engine installed had no close of its scope pending at the install section. |
| `LifecycleOrder.StepDisjointExactly` | plugin/store.go:364-380 | One step out of an ordered state leaves no scope in both places exactly if it is not an install beside a pending close. |
| `LifecycleRestore.NeverRestoresIsClean` | plugin/store.go:323-335 | What a caller can do for it: in every run in which no reconfigure brings back settings that an open past its wait has read and that have changed since, the installs are clean. |
| `LifecycleOrder.RunsKeepOrdered` | plugin/store.go:628-679 | Every interleaving whose installs are clean keeps the ordering invariant: each close marker belongs to the one running batch that holds the scope, pending engines are open, and what a ForScope call that waits under openMu believes about its scope stays true. |
| `LifecycleOrder.LivePlace` | plugin/store.go:379-413 | A live engine is the one in the table or is pending in the batch that owns the scope's marker; nothing leaks. |
| `LifecycleOrder.InstalledOrdered` | plugin/store.go:355-413 | Installing an engine and evicting others, as one section, keeps the ordering invariant if no close of the scope is pending. |
| `LifecycleOrder.SignalOrdered` | plugin/store.go:670-678 | Dropping the markers of a finished batch and waking its waiters keeps the ordering invariant. |
| `LifecycleCore.RunsKeepCore` | plugin/store.go:296-440 | Unconditional invariant of every run: the order list is a duplicate-free listing of the engines' keys with at most 64 entries, the WaitGroup counts the tracked goroutines, openMu has the holder it should, and each returned open engine is in the table or in a batch. |
| `LifecycleCore.DisposeAllIsTerminal` | plugin/store.go:611-626 | Once a DisposeAll call has returned, on any schedule and however often it is called, the table is empty, no detached batch or prewarm is left, and each engine ever returned is closed or still to be closed by another running DisposeAll call. |
| `LifecycleShutdown.SingleDisposeClosesAll` | plugin/main.go:133-146 | In every run with one DisposeAll call, which is what the plugin's shutdown makes, once it has returned every engine that ForScope ever returned is closed. |
| `LifecycleShutdown.StillOpenExactly` | plugin/store.go:611-626 | With more calls, the engines still open when one returns are exactly those that another running call has yet to close. |
| `LifecycleShutdown.OneDisposer` | plugin/store.go:611-626 | Nothing but a call starts a thread that disposes of the engines: with one call there is one. |
| `LifecycleCalls.CallsServeTheirScope` | plugin/store.go:296-415 | In every run, the engine a ForScope call opens, installs or returns is one of the scope it was called for. |
| `LifecycleSettings.TableIsCurrent` | plugin/store.go:355-380 | In every run, whatever reconfigures overlap the opens, each engine in the table is on the file that the settings in force give its scope. |
| `LifecycleSettings.CallsGetCurrent` | plugin/store.go:303-415 | The engine a ForScope call ends with is, at that moment, open, in the table under the scope of the call, and on the file that the settings in force give that scope. |
| `LifecycleCalls.RefusedOnceClosed` | plugin/store.go:296-302 | A call that begins after shutdown has begun ends, on any schedule, with no engine. |
| `LifecycleCalls.BatchesBegin` | plugin/store.go:632-651 | A batch of closes that begins in a step begins with its first engine and consolidates exactly if the settings in force say so. |
| `Configs.ImmaterialExactly` | plugin/store.go:97-107 | Engines stay open exactly if the new settings differ from the old in nothing but what is read afresh each time. |
| `LifecycleCore.NothingInstalledOnceClosed` | plugin/store.go:355-363 | After the closed flag is set no later step of any thread installs an engine. |
| `LifecycleProgress.BlockedIsWoken` | plugin/store.go:284-294 | A ForScope call blocked on a close channel is free to go on, or the batch that will close the channel is running, can step whatever locks are held, and closes it after at most a bounded number of its own steps. |
| `LifecycleProgress.BatchFinishes` | plugin/store.go:661-679 | The work left in a batch plus the steps it has taken never exceeds the work it began with, until its channels are closed. |
| `LifecycleProgress.WaitsAtMostOnce` | plugin/store.go:323-327 | waitPendingClose called under openMu blocks at most once, in runs whose installs are clean. |
| `LifecycleProgress.NoDeadlock` | plugin/store.go:318-413 | In runs whose installs are clean, while some thread has not ended some thread can take its next step. |
| `LifecycleFiles.FilesFollowLogExactly` | plugin/engine_stub.go:64-142 | In every run whose installs are clean, with any reconfigures, shutdowns, evictions, detached closes and reopens, each scope's file and each engine in use are all along the last 256 rows of the log of all successful durable writes, if and only if every engine just opened is up to date when it is installed or, if its open is discarded, when its late close rewrites the file. |
| `LifecycleFiles.FilesHoldNewest` | plugin/engine_stub.go:64-142 | So in every such run file and log agree row by row counted from the end, for 256 rows or as far as the log goes, and so do engine and log for each engine in use. |
| `LifecycleFiles.LastRowsAreNewest` | plugin/engine_stub.go:76-79 | What an engine keeps of its rows is the newest 256 and nothing else, row by row from the end. |
| `LifecycleFiles.StoredIsNewest` | plugin/engine_stub.go:64-97 | A row stored through an engine in use is the last of its log, of the engine and of the file. |
| `LifecycleFiles.StepFollowsExactly` | plugin/store.go:318-413 | One step keeps the files and the engines in use in step with the log exactly if it does not decide on an open with rows that are out of date. |
| `LifecycleFiles.InstallFollowsExactly` | plugin/store.go:379-382 | Installing an engine keeps them in step exactly when the engine is up to date. |
| `LifecycleFiles.DiscardFollowsExactly` | plugin/store.go:355-373 | One close of a discarded open keeps the files in step with the log exactly when its engine is up to date. |
| `LifecycleReads.UndecidedUpToDateExactly` | plugin/engine_stub.go:41-55 | For every run whose files follow the log and every engine opened and not yet decided on, or about to be closed late: some step of the run opened it, and it is up to date exactly when the last 256 rows of its scope are those of that step. |
| `LifecycleRestore.DiscardsDecideFiles` | plugin/store.go:355-373 | In every run that never restores settings, each file is all along the last 256 rows of its log if and only if every close of a discarded open finds its engine up to date. |
| `LifecycleQuiet.FilesFollowLog` | plugin/store.go:355-373 | In particular, runs in which no material reconfigure or shutdown overlaps an open in flight discard nothing, and their files and engines in use always follow the log. |
| `LifecycleRestore.NeverRestoresIsFresh` | plugin/store.go:318-413 | In every run that never restores settings and whose late closes are clean, every engine installed is up to date without further ado. |
| `LifecycleFiles.OneWriter` | plugin/store.go:379-413 | Two engines that still accept writes never share a file. |
| `LifecycleRestore.NoOpenBesideWriter` | plugin/store.go:323-335 | While no open past its wait that would be installed has a close of its scope pending, as in runs that never restore settings, none of them has a file that an engine that accepts writes has too. |
| `LifecycleLimits.DiscardedOpenLosesRow` | plugin/store.go:364-373 | A run in which the late close of a discarded open erases a stored row from the file. |
| `LifecycleLimits.SecondDisposeReturnsEarly` | plugin/store.go:611-626 | A run in which a second DisposeAll call returns while an engine is still open. |
| `LifecycleLimits.RestoredSettingsBreakOneLive` | plugin/store.go:364-382 | A run, with settings changed and changed back behind an open, that makes an unclean install and ends with two live engines of one scope. |
| `LifecycleLimits.RestoredSettingsDeadlock` | plugin/store.go:284-294 | A run of the same kind in which a ForScope call waits for ever on a replaced channel while it holds openMu. |
| `LifecycleLimits.StaleInstallLosesRow` | plugin/store.go:379-382 | A run with clean installs and no late close in which settings changed and changed back leave an engine in use that is out of date, and its next write erases a stored row from the file. |
| `EngineTable.BumpKeepsTable` | plugin/store.go:304-314 | A hit leaves the table a duplicate-free listing of the same engines. |
| `EngineTable.HitIsLast` | plugin/store.go:304-314 | After a hit the key is the last of the order, and once only. |
| `EngineTable.HitSurvives` | plugin/store.go:303-399 | A scope just hit is still in the table after any installs of new scopes exactly if they are at most 63. |
| `EngineTable.InstallsKeepNewest` | plugin/store.go:379-399 | After any installs of new scopes the order is the last 64 of the old order followed by the new keys. |
| `EngineTable.EvictionKeepsNewest` | plugin/store.go:381-399 | Eviction keeps exactly the 64 most recently used scopes, in order. |
| `EngineTable.EvictionSplitsTable` | plugin/store.go:381-399 | Each entry either stays as it was or is doomed, once; none is lost. |
| `EngineTable.EvictedKeysAreDoomed` | plugin/store.go:381-395 | The scopes whose bookkeeping goes are exactly those whose engine is doomed. |
| `EngineTable.InsertedSurvives` | plugin/store.go:379-399 | The engine just installed is never the one evicted. |
| `Stores.Store.LookUp` | plugin/store.go:303-317 | A table hit moves the key from its place to the end of the order and leaves the others as they were; a miss changes nothing. |
| `Stores.Store.InstallSection` | plugin/store.go:355-403 | Refused after shutdown, stale after a material change, both without effect; otherwise the table, the doomed engines, the channels, the bookkeeping and the WaitGroup are exactly those of the specification. |
| `Stores.Store.EvictOldest` | plugin/store.go:381-399 | The eviction loop computes the specified table and batch, gives each evicted scope a new open channel and forgets its bookkeeping and staged block. |
| `Stores.Store.DrainEnginesLocked` | plugin/store.go:632-651 | Draining lists every engine once, gives each scope a new channel, drops its staged block and leaves no bookkeeping. |
| `Stores.Store.ReconfigureSection` | plugin/store.go:115-133 | A material change drains everything and forgets the response chains; any other change touches only the settings. |
| `Stores.Store.DisposeSection` | plugin/store.go:613-620 | Shutdown drains everything and clears the bus. |
| `Stores.Store.SignalSection` | plugin/store.go:669-678 | Exactly the pending channels of the batch's scopes are closed, none of them a second time. |
| `Stores.Store.CloseEngines` | plugin/store.go:661-668 | Every engine of the batch is flushed and closed, and with distinct files each file holds what its engine held. |
| `Stores.Store.ClaimSeen` | plugin/store.go:484-508 | The claim is won exactly if the hash is not in the set; then it comes in, and nothing goes out but, beyond 4096, what the first of the order list name. Only this scope is touched. |
| `Stores.Store.HasSeen` | plugin/store.go:465-474 | True exactly if the hash is in the set of the scope. |
| `Stores.Store.UnmarkSeen` | plugin/store.go:511-515 | Releases the claim and leaves the order list. |
| `Stores.Store.NoteDurableIngest` | plugin/store.go:523-541 | Counts the write and reports due with a hint, or once the cadence is reached, and then starts over; one scope only. |
| `Stores.Store.AllowConsolidateAttempt` | plugin/store.go:547-559 | Allows and records the first attempt, and another once enough has been written since the last one allowed. |
| `Stores.Store.ScheduleSection` | plugin/store.go:571-585 | A loop is started exactly for an idle or missing state; a running one is marked pending. |
| `Stores.Store.CheckSection` | plugin/store.go:593-607 | A dropped or replaced state is left alone; a pending due becomes one more run; otherwise the state goes idle. |
| `Stores.Store.RememberResponseScope` | plugin/store.go:243-260 | Recording a response id, with its eviction loop, is the specified operation on the chains. |
| `Stores.Store.ScopeForResponse` | plugin/store.go:268-279 | Resolves an id for the identity that produced it only. |
| `Claims.ClaimStaysBounded` | plugin/store.go:477-515 | The set of hashes stays inside its order list of at most 4096. |
| `Claims.ClaimedExactly` | plugin/store.go:484-508 | What one claim does, by membership: a hash in the set changes nothing, another one comes in and what is pushed out goes; afterwards the claimed hash is in the set exactly unless its own claim pushes it out. |
| `Claims.ReclaimIsForgotten` | plugin/store.go:484-515 | That happens: a claim released, 4095 others, and the same claim again, which wins and is not in the set, so that the next one wins too. |
| `Claims.LedgerMoves` | plugin/store.go:484-515 | An ingest of a hash not in the set puts one claim for it in flight, one of a hash in the set puts none; a claim in flight becomes a row or is gone. |
| `Claims.SeenIsRecentWinners` | plugin/store.go:484-508 | Without releases the set and the order list agree and are exactly the most recent winning claims, never fewer than the last 3072. |
| `Claims.ExactUntilDropped` | plugin/store.go:484-515 | A hash is in the set exactly when one claim for it is in flight, stored or held; every event keeps this except, precisely, an overflow that drops a hash still in the set. |
| `Claims.AtMostOneRow` | plugin/intercept.go:797-816 | Without overflow, concurrent identical ingests store at most one row, and a failed one can be claimed again. |
| `Cadence.AttemptsBounded` | plugin/store.go:523-559 | Whatever the hints and the interleaving, W writes allow at most 1 + (W - 1) / (every / 5) consolidate attempts, a fifth below one counting as one; for a lifetime that begins with a throttle check, whose count fell before a drain, one write more counts. |
| `Cadence.CheckFirstGainsOne` | plugin/store.go:547-559 | Such a lifetime does exceed the smaller bound: a check, a write and a check make two attempts. |
| `Cadence.DuesAreExact` | plugin/store.go:530-541 | Without hints exactly W / every of W writes report due, however throttle checks fall between them. |
| `Cadence.HintRestarts` | plugin/store.go:523-541 | A hinted write always reports due and restarts the cadence: of the W writes after it without a hint exactly W / every report due. |
| `Cadence.ThrottledExactly` | plugin/store.go:547-559 | In every history a check is an attempt exactly if it is the first or enough has been written since the last attempt. |
| `Cadence.NoneThrottled` | plugin/intercept.go:825-834 | Without hints and with each check following its due at once, W writes make W / every attempts. |
| `Cadence.PacedDues` | plugin/intercept.go:825-834 | So none of the dues is throttled. |
| `Consolidation.RunsAreGood` | plugin/store.go:571-609 | In every interleaving of requests, loops, evictions and drains, consolidation is single-flight for each state and loses no due. |
| `Consolidation.CurrentState` | plugin/store.go:562-609 | A current state has exactly one loop while it runs and none while idle, pending implies running, and an idle state had a Consolidate call begin after its last request. |
| `Consolidation.RequestsAreAnswered` | plugin/store.go:562-609 | On the actions alone: whenever a state is found idle after a request made on it, a Consolidate call for it has begun after that request. |
| `Consolidation.NoMoreCallsThanRequests` | plugin/store.go:562-609 | In every interleaving there are no more Consolidate calls, begun or owed, than requests. |
| `Consolidation.DroppedForGood` | plugin/store.go:588-609 | Once no scope has the state of a loop none ever has again, whatever is scheduled, dropped or run since, and the loop begins at most the one call it had come to. |
| `Consolidation.DroppedLoopIsHarmless` | plugin/store.go:593-599 | At whatever moment after that the loop takes a step, the step changes the flags of no state, the state of no scope and no other loop, and a check stops the loop. |
| `ScopeKeys.ParseRender` | plugin/store.go:200-232 | A session-mode key reads back to its owner and bucket uniquely. |
| `ScopeKeys.FreshKeyReadsBack` | plugin/store.go:189-231 | The key a request is given without a chain says its owner and its session, or else its agent, or else the owner alone, and there is none exactly when it has no identity. |
| `ScopeKeys.SessionsApart` | plugin/store.go:189-211 | Requests with explicit sessions share a scope exactly if session and API key agree in their fingerprints, whatever response ids are remembered and presented. |
| `ScopeKeys.ChainsMove` | plugin/store.go:212-279 | A request without a session that presents a remembered response id goes to the scope of that response if it has the API key that produced it, and otherwise where it would go without; one with a session is not moved. |
| `ScopeKeys.ParseRenderAgent` | plugin/store.go:173-188 | An agent-mode key reads back to its owner and bucket uniquely and is no session-mode key. |
| `ScopeKeys.AgentKeyReadsBack` | plugin/store.go:173-188 | The key a request is given in agent mode carries its own owner and agent, and there is none exactly when it has neither agent nor API key. |
| `ScopeKeys.ModesNeverMeet` | plugin/store.go:162-165 | No request is given in agent mode a key that another is given afresh in session mode. |
| `ScopeKeys.ScopesStayWithOwner` | plugin/store.go:166-279 | In every run, with any changes of the scope mode and through any chain of response ids, every scope handed to a request carries that request's key hash, or is the shared one and some request was made in global mode; the chain map stays a bounded duplicate-free list. |
| `ScopeKeys.OwnersNeverShare` | plugin/store.go:155-164 | Requests with different key hashes are never given the same scope, but for the shared one. |
| `ScopeKeys.ResolveOnlyForOwner` | plugin/store.go:262-279 | A remembered id resolves for its producer's identity and for nobody else. |
| `ScopeKeys.DropOldestKeeps` | plugin/store.go:254-259 | The oldest ids are dropped and exactly the newest 4096 are kept. |
| `ScopeKeys.RememberMoves` | plugin/store.go:243-260 | Remembering a new id makes it the newest, an id known already keeps its place; all others keep theirs but for the oldest beyond 4096. |
| `ScopeKeys.TrimCuts` | plugin/store.go:243-246 | Exactly the blanks and tabs around a response id are cut. |
| `StreamPurity.NoTextMixesStreams` | plugin/intercept.go:376-392 | From the first use of a key on, however many byte-identical streams overlap and whatever fails, everything admitted to the current buffer comes from one stream, and what was handed on is the beginning of it. |
| `StreamPurity.EarlyDecayMixes` | plugin/intercept.go:374-383 | If a poisoned buffer decays while one of its streams still sends, one handed-on text mixes two streams. |
| `StreamFates.PoisonLasts` | plugin/intercept.go:376-392 | A second stream poisons the buffer, and it stays poisoned, whoever begins then, until no stream has begun for more than 60 seconds; then it is replaced. |
| `StreamConservation.ChunkConserves` | plugin/intercept.go:498-606 | At every moment of a stream, segments handed on plus the residual equal the admitted deltas of each kind, the whole message equals all its text, and the residual is under 120 bytes with no sentence or line end. |
| `StreamConservation.FinishConserves` | plugin/intercept.go:515-557 | At stream end, with an engine for the residual, everything sent has been handed on, once and in order, tool arguments in one piece. |
| `StreamConservation.StreamConserves` | plugin/intercept.go:430-461 | Of each kind, a whole stream with an engine at its end hands on exactly the text of the chunks for which the engine opened, and nothing of a kind nobody wants. |
| `StreamSegments.StreamIsSegmented` | plugin/intercept.go:430-461 | Of a whole stream, each segment handed on before its end is text or reasoning and ends with the delta that made it 120 bytes long or has a sentence or line end in it; after these come at most the rest of each kind, in the order of the source. |
| `StreamSegments.ChunksCut` | plugin/intercept.go:456-461 | The same at every moment of a stream, of all that has been handed on by then. |
| `StreamFates.StreamIsFated` | plugin/intercept.go:778-834 | Of all that a whole stream hands on, blank text is left out, so is text of a kind that is not remembered, and each other row has the next answer of the store and the engine as its outcome. |
| `StreamLines.ExtractStreamTextDeltas` | plugin/formats.go:327-366 | The line scanner returns one delta for each kind present, with the joined text of that kind. |
| `StreamLines.GroupedText` | plugin/formats.go:355-366 | Grouping by kind loses no text. |
| `StreamLines.GroupedOnce` | plugin/formats.go:355-366 | There is one delta for each kind that occurs, text first and tool arguments last. |
| `StreamLines.LinesAreRead` | plugin/formats.go:332-341 | A data line gives the deltas of what follows, trimmed; the end marker, a blank line, the name of an event and a comment give none. |
| `StreamLines.OtherLinesAreRead` | plugin/formats.go:332-342 | Any other line gives the deltas of all of it, trimmed. |
| `StreamLines.GroupingIsIrrelevant` | plugin/formats.go:327-366 | However whole lines are grouped into chunks, and whatever the parser of a payload gives, the same text of each kind reaches durable ingest. |
| `StreamClaims.FinishClaims` | plugin/intercept.go:515-557 | When exactly the assembled message is claimed at stream end, and by which text, whether or not an engine opens. |
| `StreamClaims.FlushClaims` | plugin/intercept.go:653-694 | With a residual left the message is claimed exactly when something was stored, no part of the residual failed and there is text. |
| `StreamClaims.ClaimIsSafeExactly` | plugin/intercept.go:515-557 | A claimed message is all in memory, handed on and stored or known before, unless and exactly unless a residual was left after text had been lost, or no engine opened for an assistant residual; with no residual the failure mark alone ensures it. |
| `StreamClaims.StreamClaimIsSafeExactly` | plugin/intercept.go:498-559 | The same from the first chunk of a stream to its end, whatever opens and whatever is stored, with the claimed text the resubmitted one exactly if the message has no edge whitespace. |
| `StreamClaims.ClaimMatchesResubmission` | plugin/intercept.go:778-804 | The claimed text is the one durableIngest computes for the resubmitted message exactly when the message has no edge whitespace. |
| `StreamClaims.EarlierFailureIsForgotten` | plugin/intercept.go:686-692 | A failed sentence followed by a stored residual: the message is claimed although the sentence is lost. |
| `StreamClaims.FailedOpenClaimsLostText` | plugin/intercept.go:538-556 | A stored sentence followed by a residual for which no engine opens: the message is claimed although the residual was never handed on. |
| `StreamHandlers.StreamStates.HandleChunk` | plugin/intercept.go:569-606 | The handler of an ordinary chunk does to its key what the specification says, even with full maps if the clock has moved on; if it has not, the same but that entries the handler makes may have to make way at once. It does nothing to any other key but evict it. |
| `StreamHandlers.StreamStates.HandleEnd` | plugin/intercept.go:502-559 | The handler of the terminal chunk does to its key what the specification says, even with full maps if the clock has moved on; if it has not, the same but that entries the handler makes may have to make way at once. It does nothing to any other key but evict it. |
| `StreamHandlers.StreamStates.HandleDeltas` | plugin/intercept.go:584-605 | The loop over a chunk's deltas, opening the engine for the first that is admitted; delta by delta it does what the specification says, but for entries that have to make way. |
| `StreamHandlers.StreamStates.ResetStreamBuf` | plugin/intercept.go:376-392 | Starting a stream makes a fresh buffer, which only a full map can take away again, poisons an existing one, or replaces a decayed one, and leaves other keys alone. |
| `StreamHandlers.StreamStates.AppendStreamDelta` | plugin/intercept.go:430-461 | A missing buffer is made, the delta appended and a segment cut off under the same condition, whether or not the buffer stays in the map. |
| `StreamHandlers.StreamStates.Write` | plugin/intercept.go:443-461 | A delta is appended and a segment cut off exactly if it is no tool argument and the segment has 120 bytes or the delta a sentence or line end, for its key only. |
| `StreamHandlers.StreamStates.FlushStreamBuf` | plugin/intercept.go:653-694 | The residual of every kind is drained and handed on, the message claimed if the conditions hold, and the result noted, in a mark that only a full map can take away again. |
| `StreamHandlers.StreamStates.NoteStreamResult` | plugin/intercept.go:713-739 | A failure sticks to the key's mark, which only a full map can take away again; a stored segment is recorded in the buffer. |
| `StreamHandlers.StreamStates.TakeStreamWhole` | plugin/intercept.go:771-782 | Takes the whole text out and claims it if something was stored and the mark is live. |
| `StreamHandlers.StreamStates.EvictStale` | plugin/intercept.go:413-425 | Beyond 256 entries the oldest buffers are dropped, and only those. |
| `StreamHandlers.StreamStates.EvictMarks` | plugin/intercept.go:730-739 | Beyond 256 marks the oldest are dropped, and only those. |
| `Neutralize.NeutralizedIsSafe` | plugin/memory.go:56-103 | For every text, however nested or disguised, the result has no opening or closing fence tag in any case or spacing, no zero-width character or full-width bracket, no control character or line break, no double space and no edge whitespace. |
| `Neutralize.BackstopSuffices` | plugin/memory.go:91-100 | Whatever the sixteen rounds leave, the backstop leaves no fence. |
| `Neutralize.CollapseKeepsFenceOut` | plugin/memory.go:101 | Collapsing spaces cannot recreate a tag. |
| `Neutralize.TrimKeepsFenceOut` | plugin/memory.go:102 | Trimming cannot recreate a tag. |
| `Neutralize.Neutralize` | plugin/memory.go:56-103 | The loop with its cap and early exit computes the specified text. |
| `EntityDisguise.EntityLeftExactly` | plugin/memory.go:76-101 | The result has a bracket spelled as an HTML entity exactly if the passes put one together: what comes before them leaves none, and what comes after adds and removes none. |
| `EntityDisguise.NoEntityLeft` | plugin/memory.go:76-90 | None is left of a text without an ampersand, nor if the passes find nothing to delete. |
| `EntityDisguise.IdempotentExactly` | plugin/memory.go:47-55 | For every text whose result has nothing for the other passes to find, neutralizing twice is neutralizing once exactly if no entity was left. |
| `EntityDisguise.TagCutOut` | plugin/memory.go:83-84 | A tag between two texts with nothing to neutralize is cut out and whatever they form together stays. |
| `EntityDisguise.EntityReassembled` | plugin/memory.go:76-90 | A tag inside an entity: the result is a fence tag again once its entity is decoded, and a second round would change it. |
| `FenceTags.TagExactly` | plugin/memory.go:19-20 | A tag begins a text exactly if it has the parts of one: a bracket, blanks, perhaps a slash and blanks, the name in any mixture of cases, and no character that continues the name. |
| `FenceTags.FenceExactly` | plugin/memory.go:19-20 | A text has a fence exactly if a tag begins somewhere in it. |
| `Disguises.DisguiseIsSeen` | plugin/memory.go:57-75 | However the characters of a clean text without ampersands are spelled, with invisible characters between them, as full-width brackets, as entities, as other spaces or as control characters, the passes work on that text. |
| `Disguises.ClosedCutOut` | plugin/memory.go:81 | A tag with attributes is cut out up to its first closing bracket, and the text before and after it stays. |
| `Disguises.OpenCutOut` | plugin/memory.go:82 | A tag without a closing bracket is cut out up to the end of its name, and the text before and after it stays. |
| `Disguises.DisguisedTagCutOut` | plugin/memory.go:56-103 | Either kind of tag, in any disguise, is cut out of a text with nothing else to neutralize, and what is around it is the result. |
| `Disguises.SixteenRounds` | plugin/memory.go:76-103 | The early exit makes no difference to sixteen rounds, and after them brackets become spaces exactly if a fence or another pattern is left. |
| `Disguises.ResultIsShown` | plugin/memory.go:57-75 | No character of a result is invisible or a full-width bracket, and none that looks like a space is anything else. |
| `TruncatedTags.NeutralizeKeepsOrdinary` | plugin/memory.go:56-103 | Text with nothing to neutralize is left exactly as it is. |
| `TruncatedTags.CutIsSafeExactly` | plugin/memory.go:321-330 | Cutting safe text is safe unless, and exactly unless, the cut falls inside a word just after a tag's name. |
| `TruncatedTags.TruncationLeavesTag` | plugin/memory.go:124 | At every limit some text that neutralize passes unchanged is truncated to one with a tag at its end. |
| `TruncatedTags.TagIsInWord` | plugin/memory.go:20 | The tag name and one letter more are such a text. |
| `Truncation.HeadTextIsHeadBytes` | plugin/memory.go:321-330 | Truncating the bytes of a text is cutting it between two characters. |
| `Bytes.HeadBytes` | plugin/memory.go:321-330 | The backing-off loop computes the specified cut. |
| `Bytes.HeadKeepsWholeRunes` | plugin/memory.go:321-330 | headBytes keeps the longest prefix of whole runes that fits (section 3 of RFC 3629). |
| `Bytes.TailBytes` | plugin/bus.go:20-32 | The advancing loop computes the specified suffix. |
| `Bytes.TailIsCleanSuffix` | plugin/bus.go:20-32 | tailBytes returns a suffix that fits, the whole if that fits, and valid text of valid text. |
| `Bytes.TailIsLongest` | plugin/bus.go:20-32 | How much is kept: from the first rune start among the bytes that fit, in valid text at most three bytes on, and of that, if a line ends in it after its first byte, what comes after the first line. |
| `Bytes.TailStartsLine` | plugin/bus.go:28-30 | A cut tail with a line break in it starts at the start of a line or with the break itself. |
| `FormatMemories.FormatMemories` | plugin/memory.go:108-134 | The loop with its seen set and early exit computes the specified bullets. |
| `FormatMemories.KeptIsSound` | plugin/memory.go:108-134 | At most limit lines, each from a text item, none empty, no two alike up to case. |
| `FormatMemories.KeptIsComplete` | plugin/memory.go:108-134 | A text item is left out only for an alike line, an empty text or a full block. |
| `FormatMemories.KeptGrows` | plugin/memory.go:108-134 | The lines come in the order of their items, the first of alike ones being kept. |
| `FormatMemories.FormattedLines` | plugin/memory.go:131-134 | The text has one line for each text kept, in their order, a dash and a space before it. |
| `FormatMemories.PluginSnippetsAreLines` | plugin/memory.go:124 | The snippets of the plugin have no line break in them, whatever was recalled. |
| `FormatMemories.PluginSnippetFits` | plugin/memory.go:115-128 | A snippet is the neutralized text, or as many whole characters of it as fit into 2048 bytes; an item counts exactly if its modality is text or not given. |
| `Lines.DedupeLines` | plugin/memory.go:196-212 | The loop with its seen set computes the specified lines. |
| `Lines.KeptAreDistinct` | plugin/memory.go:196-212 | The kept lines are trimmed, not empty and differ up to case. |
| `Lines.EveryLineKept` | plugin/memory.go:196-212 | Every line that is not blank is still there, up to case and edge whitespace. |
| `Lines.KeptExactly` | plugin/memory.go:196-212 | A line is kept exactly if it is the first of those alike, and the kept ones stay in their order. |
| `Lines.DedupeIdempotent` | plugin/memory.go:196-212 | Deduplicating twice is deduplicating once. |
| `BlockSafety.PluginIsCovered` | plugin/memory.go:19-20 | Every literal fence of the plugin is a tag neutralize looks for. |
| `BlockSafety.FormattedIsFenceFree` | plugin/memory.go:108-134 | Whatever was recalled, the body built of it has no fence. |
| `BlockSafety.PluginSnippetsAreSafe` | plugin/memory.go:124 | The snippets formatMemories makes, neutralized and truncated, contain no fence. |
| `BlockSafety.BodyHasOneFenceEach` | plugin/intercept.go:144-145 | The block around the deduplicated lines of any fence-free body has one fence of each kind. |
| `StagedText.KeptIsTail` | plugin/bus.go:20-57 | What the bus keeps of a text, read back from its bytes, is the text from some character on. |
| `StagedText.EncodeInjective` | plugin/bus.go:20-32 | The bytes of a text determine it (section 3 of RFC 3629). |
| `StagedText.StagedBytesAreJoin` | plugin/bus.go:51-57 | Blocks joined by the bus are the lines of the joined text. |
| `PluginBlock.FilterStaged` | plugin/memory.go:216-235 | The loop keeps exactly the staged lines the model cannot see. |
| `PluginBlock.UnseenLineByLine` | plugin/memory.go:216-235 | Each line is kept or left out on its own, and those kept stay in their order. |
| `PluginBlock.PromptBlockKeepsLines` | plugin/intercept.go:115-183 | Every line that is staged and cannot be seen, and every line just recalled, is a line of the block, unless it is blank, up to case and the whitespace around it. |
| `PluginBlock.StagedIsFenceFree` | plugin/bus.go:45-88 | What the bus kept of recalled text, staged once or again and again, has no fence. |
| `PluginBlock.PluginBlockHasOneFenceEach` | plugin/intercept.go:115-183 | With the plugin's own fence, whatever was ever recalled and however often it was staged again after a failed open or injection: the block built of the text the bus kept, less the lines the model can see, and of a fresh recall has exactly one opening fence, at its start, and one closing fence, at its end. |
| `PluginBlock.PluginBlockIsReplacedExactly` | plugin/formats.go:756-791 | Such a block, once injected, is replaced by the next exactly when what is left of the existing text holds no opening tag directly followed by the plugin's header. |
| `MemoryBlock.OneFenceEach` | plugin/memory.go:137-147 | Around any fence-free body the block has exactly one fence of each kind. |
| `MemoryBlock.BlockHoldsBody` | plugin/memory.go:137-147 | Between opening tag with introduction and a last line with the closing tag the block holds the trimmed body; a blank body has none. |
| `MemoryBlock.MergeKeepsBoth` | plugin/formats.go:756-763 | Injecting a block keeps it, and before it, after an empty line, all of the existing text but what is stripped and the whitespace around the rest. |
| `MemoryBlock.PluginFence` | plugin/memory.go:142-146 | The plugin's own tags and header have the shape the laws need. |
| `MemoryBlock.StripMemoryBlock` | plugin/formats.go:765-791 | The loop ends on every text and computes the specified one. |
| `MergeLaws.MergeReplacesExactly` | plugin/formats.go:756-763 | Merging a second block replaces the first exactly when what is left of the existing text holds no opening tag directly followed by the plugin's header. |
| `MergeLaws.MergeReplaces` | plugin/formats.go:756-791 | For existing text without such a tag, a second merge replaces the first block and stripping returns the existing text, trimmed. |
| `MergeLaws.NoMarkerUntouched` | plugin/formats.go:768-771 | Text without such a tag, literal tags of the user's own included, is left untouched. |
| `MergeLaws.UnclosedMarkerIsSwallowed` | plugin/formats.go:768-791 | An unclosed look-alike in the user's text is swallowed with everything up to the block injected after it. |
| `Whitespace.FlattenIdempotent` | plugin/memory.go:184-192 | Flattening whitespace twice is flattening once. |
| `Whitespace.FlattenKeepsWords` | plugin/memory.go:184-192 | Flattened text has the words of the text, in order, with nothing between them but one space each. |
| `Whitespace.FlattenAgreesWithTrimmed` | plugin/memory.go:178-192 | The dedupe text of a message and of the message trimmed agree exactly when it has no edge whitespace. |
| `Whitespace.TrimSpaceCuts` | plugin/memory.go:102 | Trimming cuts exactly the whitespace at both ends. |
| `Bus.InterruptBus.Stage` | plugin/bus.go:45-77 | The block is appended, the newest tail kept, scopes beyond 256 evicted but never the one staged. |
| `Bus.InterruptBus.Take` | plugin/bus.go:79-88 | Returns a suffix of at most 16384 bytes of the newline-join of all blocks staged since the last take or drop, all of it if that fits, valid text if they are. |
| `Bus.InterruptBus.EvictOthers` | plugin/bus.go:58-76 | The eviction loop ends and leaves the remaining blocks as they were. |
| `Bus.InterruptBus.Drop` | plugin/bus.go:91-98 | Only the scope's own block goes. |
| `Bus.InterruptBus.Clear` | plugin/bus.go:101-108 | Nothing is left staged. |
| `Bus.MergeKeeps` | plugin/bus.go:51-57 | Cutting after each append keeps what cutting the whole join once would have to keep. |
| `Bus.DropKeeps` | plugin/bus.go:91-98 | Dropping a scope keeps the bus within its bounds. |
| `Windowing.WindowKeepsSuffix` | plugin/formats.go:947-1060 | A window keeps every pinned message in place and a suffix of at least min(n, count) others that starts at the latest message that may lead, or the first. |
| `Windowing.WindowsCompose` | plugin/formats.go:947-1060 | The window to n of the window to m is the window to n, for all 1 <= n <= m. |
| `Windowing.OpenAIWindowKeeps` | plugin/formats.go:947-995 | By places in the conversation: system and developer messages stay, so does everything from some place on, where n others are left and neither a tool nor a function result leads, or all stay; any later such start is a tool or function result. |
| `Windowing.WindowOpenAI` | plugin/formats.go:947-995 | The loops compute the window with system and developer messages pinned and tool and function results never leading. |
| `Windowing.WindowClaude` | plugin/formats.go:997-1016 | The window is a suffix of at least min(n, count) messages; it is everything or starts with a user turn without a tool result, and any later start that keeps n does not. |
| `Windowing.ClaudeOrphanHead` | plugin/formats.go:1019-1032 | The loop over content blocks finds a tool result exactly if there is one. |
| `Windowing.WindowOpenAIResponse` | plugin/formats.go:1034-1060 | Input that is no list is returned as it is; of a list a suffix of at least min(n, count) items stays, which is everything or does not start with one of the three tool outputs, and any later start that keeps n does. |
| `StubEngines.StubEngine.ProcessText` | plugin/engine_stub.go:64-97 | A closed engine refuses; a durable text, trimmed, becomes the last row of engine and file, and of the older rows the newest stay, 256 in all; an ephemeral one changes nothing. |
| `StubEngines.StubEngine.constructor` | plugin/engine_stub.go:41-62 | An engine opens with the rows of its file. |
| `StubEngines.PathsApart` | plugin/engine_stub.go:57-62 | Two databases never share a file, and exactly a blank or in-memory one has none. |
| `StubEngines.StubEngine.Flush` | plugin/engine_stub.go:130-134 | The whole file is rewritten from the engine's rows, even after a close. |
| `StubEngines.StubEngine.Close` | plugin/engine_stub.go:136-142 | The whole file is rewritten from the engine's rows and the engine refuses from then on. |
| `StubEngines.StubEngine.Consolidate` | plugin/engine_stub.go:120-128 | Counts a consolidation unless closed. |

## Left out

- JSON, the per-provider extraction of fields and re-encoding: messages are records, the parser of one stream line is a parameter, and re-encoding a message is taken to change nothing.
- The C ABI, registration, envelopes, `configure`, YAML parsing and path expansion: wiring and foreign calls.
- The native engine and the quality of retrieval, including the keyword overlap of the stub and `dropQueryEchoes`; an engine here stores rows and refuses when closed.
- The handlers of requests and full responses as wholes. Their parts (scope lookup, windowing, dedupe, block building, claims) are modelled; the response intercept's flush of a stream residual is not composed into the stream runs.
- The interrupt gate's ephemeral calls and when it stages; the staging itself is `Bus.InterruptBus.Stage`.
- The stream-scope cache, which is never invalidated.
- Failing file writes, directory permissions, torn files and the clean-up of the prewarm file; `LifecycleFiles.FilesFollowLogExactly` assumes that writes succeed.
- Text that is not valid UTF-8 where the code works on strings; `Bytes` is stated on bytes and covers it.
- Settings that are not numbers: a NaN knob differs from itself, so every reconfigure would be material. Knobs are reals here, and a data directory is blank only if it is empty.
- Metrics, logging and the benchmarks.
- LifecycleCore.DisposeAllIsTerminal: with two DisposeAll calls on one store an engine may still be closing in the other; with one, as in the plugin, `LifecycleShutdown.SingleDisposeClosesAll` leaves none open.
- Neutralize.Neutralize: the role-marker and system-fence regexes are parameters that only delete, because the backstop takes nothing but angle brackets away; only the fence pattern is promised.
- StubEngines.StubEngine.ProcessText: the recalled rows and the consolidation hint of the result are left out; what a recall finds is arbitrary in `PluginBlock` and the hint is arbitrary in `Cadence`.
- StreamHandlers.StreamStates.HandleChunk: one reading of the clock stands for all that the code takes during a call, and which of several equally old entries goes is left open, as it is in the code. The same holds for the other handlers.
- StreamHandlers.StreamStates.Write: buffers are values in the map, where the code keeps pointers to them, so aliasing of a buffer is not modelled; the two halves of appendStreamDelta, under one lock in the code, are two methods.
- Stores.Store.SignalSection: a channel is a number with a set of those closed, so waking is the state machine's step and not this method's.
- Stores.Store.ScheduleSection: the goroutines themselves are in `Consolidation`; the class has only the sections they run under the lock.
