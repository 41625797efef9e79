# Verified models of the plugin runtime

This project models the lifecycle and transaction machinery of the Tessivum plugin runtime and the two
wire protocols around it, and proves properties of the models with Dafny 4.11. `dafny verify dfyconfig.toml`
checks everything.

Code that updates state in place is modelled by classes whose methods are proved equal to functions on their
state; what the runtime promises is proved about those functions, for all inputs and over all runs. Where
threads take part, one step is one access to an atomic or one section under a lock, and the scheduler is free.

| part | files |
|---|---|
| Service registry with staging overlays | `Registry.dfy`, `ServiceRuns.dfy` |
| Scope disposal | `ScopeDisposal.dfy`, `ScopeRaces.dfy` |
| Native plugin instance, managed worker | `NativePlugin.dfy`, `ManagedWorker.dfy`, `WorkerOnHost.dfy` |
| Loader: entry tree, patches, validation, activation, transaction | `EntryTree*.dfy`, `Activation.dfy`, `Loader.dfy` |
| Events and waterfalls | `EventBus.dfy`, `Waterfall.dfy` |
| WASM guest slot and module parser | `GuestSlot.dfy`, `Leb128.dfy`, `Utf8.dfy`, `Wasm*.dfy` |
| Node bridge: request tables, disconnect, framing, JSON scanners | `Bridge*.dfy`, `PendingDrain.dfy`, `FrameDecoding.dfy`, `Json*.dfy` |
| Shared | `Slices.dfy`, `Wrappers.dfy` |

Main results:

- While dependency snapshots arrive in order, a managed worker that shows it is active runs its plugin for the host's
  current providers (`WorkerOnHost`, on top of `ServiceRuns.StaleHandlesNeverRevive` and `ManagedWorker`).
- A native update is atomic on the host in every interleaving with other writers, and plugin hooks alternate
  (`NativePlugin`, on top of `ServiceRuns.StagingIsAtomic`).
- A managed worker left alone reaches the phase its snapshot asks for within five steps (`ManagedWorker.WorkerSettles`).
- The two bridge ends never reach the fatal unknown-request branch while both are ready, every request ends
  at most once, and no request is stranded by a disconnect (`BridgeRuns`, `PendingDrain`). The proof follows
  one request id at a time: seen alone, each request is a small automaton spread over both ends and both queues.
  Every result has its cause in the run (`BridgeOutcomes`), and a request whose frames are read in turn ends with the
  answer the other end gave (`BridgeProgress`).
- Re-entrant disposal terminates with each effect run exactly once, and a fresh tree is cleaned up in reverse
  registration order with all errors in that order (`ScopeDisposal`).
- The recursive JSON scanner accepts exactly the JSON texts, both scanners find the exact end of every
  well-formed value, and the request id is read exactly when it is the only root-level member of its name.
- The WASM parser accepts exactly the binary forms of modules whose exports resolve.
- A waterfall is the right-nested composition of its listeners; activation reaches the least fixpoint; tree
  patches are edits of the flat list; the loader's transaction keeps every handle accounted for.

Where the code keeps less than one might expect, a lemma gives a concrete run and another the exact condition:

- a failed `unload` leaves disposed handles live, so that a later replacement disposes them again
  (`FailedUnloadDisposesTwice`, `UnloadKeeps`);
- a managed worker that is stopping clears the dirty mark of a change it no longer follows
  (`StoppingWorkerDoesNotConverge`, `WorkerConverges`);
- an update that fails after installing its candidate leaves the worker's record of generations behind. This does
  no harm as long as dependency snapshots arrive in the order in which they were taken (`WorkerFollowsTheHost`); but they
  are delivered outside the host's lock, and when an old one arrives late the worker reports its plugin, which
  runs for the newest providers, as active for the old ones (`LateSnapshotMisleads`, `WorkerConverges`);
- a handle read through an uncommitted overlay can become current again (`OverlayHandleRevives`,
  `OverlayHandlesRevive`);
- a disposal that overtakes the rollback of a failed setup reports a disposed scope whose effects have not run
  (`DisposedTooEarly`, `ClaimDecides`, `DisposedMeansRan`; for re-entrant calls `DisposalOvertakesRollback`,
  `DisposalFindsTheRest`);
- a concatenated patch list can be accepted although its first half alone is not (`ConcatenationMayRepair`,
  `ConcatenationIsSequential`).

The Node end builds its cancel payload with a bigint that `JSON.stringify` rejects, and swallows the failed
write; cancel frames are therefore modelled as frames that may be lost, like every frame of a full queue.

## Model

| member | source | states |
|---|---|---|
| `ServiceRegistry.Generations.Take` | crates/tessivum-core/src/ids.rs:122-124 | a generation is handed out once, and the counter moves on |
| `ServiceRegistry.Registry.Host` | crates/tessivum-core/src/service.rs:182-187 | a host registry starts without providers |
| `ServiceRegistry.Registry.Staged` | crates/tessivum-core/src/service.rs:189-194 | an overlay starts empty on top of its host |
| `ServiceRegistry.Registry.Find` | crates/tessivum-core/src/service.rs:308-319 | a lookup answers the overlay's provider while it is uncommitted, the host's otherwise |
| `ServiceRegistry.Registry.Provide` | crates/tessivum-core/src/service.rs:234-276 | publishing succeeds exactly when visibility and the replace flag agree; the first write of a slot records the host's generation; an error changes nothing; a committed overlay writes to the host |
| `ServiceRegistry.Registry.RemoveIfCurrent` | crates/tessivum-core/src/service.rs:278-306 | a cleanup removes the provider of its own generation and nothing else, in the registry that now holds it |
| `ServiceRegistry.Registry.Commit` | crates/tessivum-core/src/service.rs:196-231 | commit succeeds exactly if every recorded slot still holds its recorded generation; then the host is the old host overridden by the staged providers and the overlay is drained, otherwise neither changes |
| `ServiceRegistry.CommitPreservesLookups` | crates/tessivum-core/src/service.rs:196-231 | after a commit every lookup through the overlay answers what it answered before |
| `ServiceRuns.InvRun` | crates/tessivum-core/src/service.rs:196-306 | every interleaving of publications, cleanups and commits keeps single use, owned host providers and owned staged providers |
| `ServiceRuns.GenerationsAreSingleUse` | crates/tessivum-core/src/service.rs:234-306 | over all runs a generation enters the host at most once, and every host provider has exactly one un-run cleanup |
| `ServiceRuns.StaleHandlesNeverRevive` | crates/tessivum-core/src/service.rs:79-95 | a host handle that went stale is never current again |
| `ServiceRuns.OverlayHandlesRevive` | crates/tessivum-core/src/service.rs:278-319 | a handle that went stale through an overlay can become current there again exactly if the host still holds its provider; a staged provider that was taken back never returns |
| `ServiceRuns.OverlayHandleRevives` | crates/tessivum-core/src/service.rs:278-319 | a concrete run: a host handle goes stale when the overlay replaces its slot and is current again after the overlay's cleanup |
| `ServiceRuns.CleanupRemovesOwnProvider` | crates/tessivum-core/src/context.rs:174-209 | an owner's cleanup removes only the provider its publication installed |
| `ServiceRuns.CleanupsRunOnce` | crates/tessivum-core/src/context.rs:187-200 | a cleanup that has run never waits again, over every run |
| `ServiceRuns.CommitComparesFirstWrite` | crates/tessivum-core/src/service.rs:264-270 | what a commit compares with is what the host held when the slot was first written through the overlay, however often it was written again |
| `ServiceRuns.HostIgnoresUncommitted` | crates/tessivum-core/src/service.rs:234-276 | as long as an overlay does not commit, the host runs exactly as if the overlay had done nothing |
| `ServiceRuns.StagingIsAtomic` | crates/tessivum-core/src/service.rs:196-231 | in every interleaving with other writers the staged providers reach the host all in one step, or not at all |
| `ScopeDisposal.Lifecycle.NewChild` | crates/tessivum-core/src/lifecycle.rs:201-210 | a child is created under an active parent only |
| `ScopeDisposal.Lifecycle.AddEffect` | crates/tessivum-core/src/lifecycle.rs:239-260 | an effect is admitted exactly while the scope is active; otherwise nothing changes |
| `ScopeDisposal.Lifecycle.DisposingScopes` | crates/tessivum-core/src/lifecycle.rs:669-690 | the scopes the running cleanup is inside of |
| `ScopeDisposal.Lifecycle.DisposeScope` | crates/tessivum-core/src/lifecycle.rs:271-297 | claim, cleanup, stored result and joining, as one call |
| `ScopeDisposal.Lifecycle.RunResources` | crates/tessivum-core/src/lifecycle.rs:352-372 | children, then effects, with all errors collected |
| `ScopeDisposal.Lifecycle.RunChildren` | crates/tessivum-core/src/lifecycle.rs:352-359 | children last to first, none skipped after an error |
| `ScopeDisposal.Lifecycle.RunAllEffects` | crates/tessivum-core/src/lifecycle.rs:360-366 | effects last to first, none skipped after an error |
| `ScopeDisposal.Lifecycle.RunEffectDisposer` | crates/tessivum-core/src/lifecycle.rs:360-366 | one disposer, which may dispose any scope again |
| `ScopeDisposal.Lifecycle.RollbackFailedSetup` | crates/tessivum-core/src/lifecycle.rs:336-350 | a failed setup is rolled back once, and only from the active state |
| `ScopeDisposal.ClaimKeeps` | crates/tessivum-core/src/lifecycle.rs:299-334 | the claim moves the scope onto the active chain and its effects from pending to running |
| `ScopeDisposal.ClaimInforms` | crates/tessivum-core/src/lifecycle.rs:308-315 | the children of a claimed scope know it and everything it is disposed inside of |
| `ScopeDisposal.SettleKeeps` | crates/tessivum-core/src/lifecycle.rs:589-593 | a completed scope leaves the chain with its result |
| `ScopeDisposal.JoinKeeps` | crates/tessivum-core/src/lifecycle.rs:275-290 | a second disposal returns at once if the caller is being disposed inside of the scope, and otherwise with the stored result, which hands its ancestors on |
| `ScopeDisposal.DisposeKeeps` | crates/tessivum-core/src/lifecycle.rs:271-334 | whatever cleanups dispose again: nobody waits for ever, claimed scopes end disposed, effects run plus pending effects are conserved |
| `ScopeDisposal.DisposerRunsItsProgram` | crates/tessivum-core/src/lifecycle.rs:360-366 | a disposer runs its program to the end, and every scope it disposes is disposed or in the active chain |
| `ScopeDisposal.UnfinishedScopeIsWaitedFor` | crates/tessivum-core/src/lifecycle.rs:277-290 | a caller waits for a claimed scope without a result exactly if it is not being disposed inside of it |
| `ScopeDisposal.DisposalRunsEffectsOnce` | crates/tessivum-core/src/lifecycle.rs:271-372 | from one initiating disposal every claimed scope ends disposed and each of its effects has run exactly once |
| `ScopeDisposal.DisposalFollowsRegistration` | crates/tessivum-core/src/lifecycle.rs:352-372 | a fresh tree is cleaned up in reverse registration order, children first; every effect runs despite failures, and the errors are the failures in that order |
| `ScopeDisposal.RegistrationCounts` | crates/tessivum-core/src/lifecycle.rs:239-260 | a registration adds exactly one effect to the ledger of pending and run effects |
| `ScopeDisposal.RollbackKeeps` | crates/tessivum-core/src/lifecycle.rs:336-350 | the rollback of a failed setup runs the effects it took and keeps the ledger balanced |
| `ScopeDisposal.DisposalFindsTheRest` | crates/tessivum-core/src/lifecycle.rs:299-350 | a disposal called while a rollback of the scope holds effects completes, and all effects registered or held then have run exactly if the rollback held none |
| `ScopeDisposal.DisposalOvertakesRollback` | crates/tessivum-core/src/lifecycle.rs:336-350 | a disposal racing the rollback of a failed setup reports Disposed, without an error, although an effect the rollback took has not run |
| `ScopeRaces.InvRun` | crates/tessivum-core/src/lifecycle.rs:239-350 | in every interleaving of registrations, failed setups, disposals and returning disposers, every admitted effect is in one place and resources are taken once |
| `ScopeRaces.DisposedMeansRan` | crates/tessivum-core/src/lifecycle.rs:299-350 | in every interleaving the effects of a disposed scope have all run, once for each registration and the last ones first, exactly if no rollback of it still holds any |
| `ScopeRaces.ClaimDecides` | crates/tessivum-core/src/lifecycle.rs:299-350 | whatever happens afterwards, the scope never reads Disposed before its effects have run exactly if no rollback of it holds effects at the claim, as is so when it is claimed while active |
| `ScopeRaces.RollbackCatchesUp` | crates/tessivum-core/src/lifecycle.rs:336-350 | no effect is lost either way: the rollback of a disposed scope can always be finished, and then all effects have run once |
| `ScopeRaces.DisposedTooEarly` | crates/tessivum-core/src/lifecycle.rs:336-350 | a concrete run ends with a disposed scope whose one effect has not run |
| `GuestSlot.Instance.InvokeEnter` | crates/tessivum-extism/src/lib.rs:1115-1118 | the first look at accepting rejects a stopped instance |
| `GuestSlot.Instance.InvokeTake` | crates/tessivum-extism/src/lib.rs:1120-1132 | the guest is taken under the lock, only while the instance accepts calls |
| `GuestSlot.Instance.InvokeArm` | crates/tessivum-extism/src/lib.rs:1133-1134 | the call publishes its cancellation handle |
| `GuestSlot.Instance.InvokeRecheck` | crates/tessivum-extism/src/lib.rs:1135-1142 | a call that sees the stop returns the guest unused |
| `GuestSlot.Instance.InvokeBegin` | crates/tessivum-extism/src/lib.rs:1142-1144 | the guest call begins once the lock is released |
| `GuestSlot.Instance.InvokeReturn` | crates/tessivum-extism/src/lib.rs:1144 | the guest call ends, cancelled if its flag was set |
| `GuestSlot.Instance.InvokeClear` | crates/tessivum-extism/src/lib.rs:1145 | the cancellation handle is withdrawn |
| `GuestSlot.Instance.InvokePutBack` | crates/tessivum-extism/src/lib.rs:1146-1150 | the guest goes back into the slot |
| `GuestSlot.Instance.Claim` | crates/tessivum-extism/src/lib.rs:1077-1083 | one stop wins |
| `GuestSlot.Instance.FetchActive` | crates/tessivum-extism/src/lib.rs:1084 | the stop reads which call is active |
| `GuestSlot.Instance.CancelFetched` | crates/tessivum-extism/src/lib.rs:1187-1197 | the fetched call is marked cancelled once |
| `GuestSlot.Instance.TakeForStop` | crates/tessivum-extism/src/lib.rs:1086-1101 | the stop takes the guest for good |
| `GuestSlot.Instance.FinishStop` | crates/tessivum-extism/src/lib.rs:1103-1108 | the guest is dropped after its stop |
| `GuestSlot.Instance.CancelActive` | crates/tessivum-extism/src/lib.rs:1068-1072 | of all who cancel the active call exactly the first is told that it won |
| `GuestSlot.InvRun` | crates/tessivum-extism/src/lib.rs:1068-1151 | every interleaving keeps one owner of the guest, consistent flags and a serial log |
| `GuestSlot.GuestUseIsSerial` | crates/tessivum-extism/src/lib.rs:1115-1151 | at most one guest call runs, and none beside or after the stop |
| `GuestSlot.SerialLogMeans` | crates/tessivum-extism/src/lib.rs:1076-1109 | the stop runs at most once, after every earlier call has returned, and no call starts after it |
| `GuestSlot.NoCallStartsAfterClaim` | crates/tessivum-extism/src/lib.rs:1135-1142 | a call that has not passed its last look at accepting when the stop claims the instance never reaches the guest; one that has may still begin |
| `GuestSlot.StopCancelsAdmittedCall` | crates/tessivum-extism/src/lib.rs:1084-1084 | a call that is in the guest, or let through to it, when the stop has cancelled current work ends as cancelled |
| `GuestSlot.CallEndsAsItCameBack` | crates/tessivum-extism/src/lib.rs:1144-1151 | a call that comes back from the guest ends as cancelled exactly if it was cancelled before, and keeps that outcome |
| `GuestSlot.RunningCallCanBeCancelled` | crates/tessivum-extism/src/lib.rs:1068-1072 | a call in the guest, or let through to it, can be cancelled at any time |
| `GuestSlot.RejectedMeansClaimed` | crates/tessivum-extism/src/lib.rs:1115-1142 | a call is rejected only after a stop has claimed the instance |
| `GuestSlot.StopRejectsCalls` | crates/tessivum-extism/src/lib.rs:1115-1142 | a call is admitted exactly while the instance accepts calls, and rejected at each of its looks once it does not |
| `GuestSlot.UndisturbedCallFinishes` | crates/tessivum-extism/src/lib.rs:1115-1151 | a call left alone gets the guest, finishes and gives the guest back |
| `GuestSlot.StopComesToWait` | crates/tessivum-extism/src/lib.rs:1077-1085 | nothing keeps a stop from claiming the instance and cancelling exactly the call that is active |
| `GuestSlot.StopComesToAnEnd` | crates/tessivum-extism/src/lib.rs:1086-1109 | with the guest in its slot the stop runs and drops the guest |
| `GuestSlot.WaitersAreServed` | crates/tessivum-extism/src/lib.rs:1087-1092 | whoever holds the guest can always move on, so no waiter waits for a guest that is not coming back |
| `FrameDecoding.FrameDecoder.FillHeader` | node/compat-host/src/protocol.ts:240-255 | up to four header bytes are buffered, the size is checked before a body is allocated |
| `FrameDecoding.FrameDecoder.FillBody` | node/compat-host/src/protocol.ts:256-270 | the body is filled up to its announced size |
| `FrameDecoding.FrameDecoder.Push` | node/compat-host/src/protocol.ts:236-273 | one push does what feeding its bytes one at a time does; afterwards fewer than four header bytes are buffered and an allocated body is within the limit |
| `FrameDecoding.Encode` | node/compat-host/src/protocol.ts:214-221 | a frame that fits is written as its length and its body |
| `FrameDecoding.FeedJoins` | node/compat-host/src/protocol.ts:236-273 | feeding two byte strings one after the other is feeding their concatenation |
| `FrameDecoding.ChunksDoNotMatter` | node/compat-host/src/protocol.ts:236-273 | up to the first error, any split of the same bytes decodes the same frames and leaves the same buffer; the error is the same |
| `FrameDecoding.CallersReceive` | node/compat-host/src/protocol.ts:236-273 | what callers of push get: the same error for every split, all frames if there is none, and otherwise the frames decoded before the error but for those of the chunk that throws |
| `FrameDecoding.DecoderIsChunkIndependent` | node/compat-host/src/protocol.ts:236-273 | the encoded frames come out of any split of their bytes, and nothing stays buffered |
| `FrameDecoding.DecodeStream` | node/compat-host/src/protocol.ts:236-273 | a fresh decoder driven over any chunks returns exactly the frames |
| `FrameDecoding.CodecsAgree` | crates/tessivum-node-bridge/src/protocol.rs:468-500 | the whole-buffer codec accepts exactly what the chunked decoder turns into one frame with nothing left over |
| `FrameDecoding.CodecRoundTrip` | crates/tessivum-node-bridge/src/protocol.rs:457-483 | every encoded frame decodes to itself at the other end |
| `FrameDecoding.WholeFrameErrors` | crates/tessivum-node-bridge/src/protocol.rs:468-483 | a frame is refused for its announced size first, then for its length; otherwise its body decides |
| `JsonText.Whitespace` | node/compat-host/src/protocol.ts:94-97 | the loop stops behind the white space |
| `JsonText.SpaceStops` | examples/wasm-python/plugin.py:16-19 | white space is skipped up to the first other character |
| `JsonStackScan.ScanString` | node/compat-host/src/protocol.ts:99-106 | the string loop refines its recursive form |
| `JsonStackScan.ScanNested` | node/compat-host/src/protocol.ts:112-125 | the bracket-stack loop refines its recursive form |
| `JsonStackScan.ScanValue` | node/compat-host/src/protocol.ts:108-128 | the value scanner refines its recursive form |
| `JsonStackScan.NestedBody` | node/compat-host/src/protocol.ts:112-125 | a well-formed array or object brings the bracket stack back to where it was, whatever strings and brackets it holds |
| `JsonStackScan.ValueEndIsExact` | node/compat-host/src/protocol.ts:108-128 | for every well-formed value followed by a delimiter the scanner stops exactly behind it |
| `JsonRootField.RootInteger` | node/compat-host/src/protocol.ts:131-159 | the loop refines its recursive form |
| `JsonRootField.MembersAreRead` | node/compat-host/src/protocol.ts:135-158 | the loop reads every root-level member once |
| `JsonRootField.RootReadsTheMember` | node/compat-host/src/protocol.ts:131-159 | for every well-formed object the result is the only root-level value of that name, absent without one, an error with two; nested keys do not count |
| `JsonRootField.PrintsBack` | node/compat-host/src/protocol.ts:166-168 | digits without a leading zero are the decimal text of their value |
| `JsonRootField.U64AcceptsCanonicalDecimals` | node/compat-host/src/protocol.ts:161-170 | exactly the canonical decimals below 2^64 are accepted, with their value |
| `JsonRootField.RootU64IsTheField` | node/compat-host/src/protocol.ts:186-192 | a request id or generation is read exactly when the frame has one root-level member with that decimal text |
| `JsonRecursiveScan.ScanString` | examples/wasm-python/plugin.py:22-40 | the string loop refines its recursive form |
| `JsonRecursiveScan.ScanNumber` | examples/wasm-python/plugin.py:43-71 | the number scanner refines its parts |
| `JsonRecursiveScan.ScanMembers` | examples/wasm-python/plugin.py:85-96 | the member loop refines its recursive form |
| `JsonRecursiveScan.ScanItems` | examples/wasm-python/plugin.py:101-107 | the element loop refines its recursive form |
| `JsonRecursiveScan.ScanValue` | examples/wasm-python/plugin.py:74-113 | the recursive scanner refines its recursive form and terminates |
| `JsonRecursiveScan.ValueEndIsExact` | examples/wasm-python/plugin.py:74-113 | for every well-formed value followed by a delimiter the scanner stops exactly behind it |
| `JsonRecursiveScan.ScannersAgree` | examples/wasm-python/plugin.py:74-113 | on well-formed texts this scanner and the stack scanner find the same end |
| `JsonAcceptance.ScannedValue` | examples/wasm-python/plugin.py:74-113 | whatever the scanner walks over is white space and a well-formed value |
| `JsonAcceptance.AcceptsExactlyJson` | examples/wasm-python/plugin.py:116-118 | a text is let through exactly if it is a JSON text of RFC 8259, section 2 |
| `JsonScanSoundness.StringIsExact` | node/compat-host/src/protocol.ts:99-106 | on any text a string ends exactly at the first quote that no backslash takes away |
| `JsonScanSoundness.BracketsAreExact` | node/compat-host/src/protocol.ts:108-128 | on any text the stack scanner stops exactly behind the bracket that balances the first one |
| `JsonScanSoundness.AcceptedRootHasMembers` | node/compat-host/src/protocol.ts:131-159 | whatever text a root-level field is read from has a brace, members between commas and a closing brace, and the field is the only one of that name |
| `JsonScanSoundness.WholePartIsExact` | examples/wasm-python/plugin.py:49-56 | the whole part of a number is the longest run of digits, and begins with a zero only if that is all of it |
| `Leb128.U32ReadsTheGrammar` | crates/tessivum-extism/src/lib.rs:1793-1807 | the loop accepts exactly the u32 forms of section 5.2.2 of the WebAssembly Core Specification, with their value |
| `Leb128.LebFits` | crates/tessivum-extism/src/lib.rs:1793-1807 | a decoded integer is below 2^32, so the accumulator never overflows |
| `WasmModule.WasmReader.Byte` | crates/tessivum-extism/src/lib.rs:1773-1780 | one byte, or an error at the end of the section |
| `WasmModule.WasmReader.Bytes` | crates/tessivum-extism/src/lib.rs:1782-1791 | a slice inside the section, or an error |
| `WasmModule.WasmReader.Integer` | crates/tessivum-extism/src/lib.rs:1793-1807 | the five-turn loop refines the integer form |
| `WasmModule.WasmReader.Name` | crates/tessivum-extism/src/lib.rs:1809-1813 | a length-prefixed UTF-8 name |
| `WasmModule.WasmReader.TypeEntry` | crates/tessivum-extism/src/lib.rs:1847-1854 | a function type with its two vectors |
| `WasmModule.WasmReader.ImportEntry` | crates/tessivum-extism/src/lib.rs:1859-1864 | a function import; any other kind is an error |
| `WasmModule.WasmReader.FunctionEntry` | crates/tessivum-extism/src/lib.rs:1868-1870 | a type index |
| `WasmModule.WasmReader.ExportEntry` | crates/tessivum-extism/src/lib.rs:1874-1879 | name, kind and index of an export |
| `WasmModule.WasmReader.ReadBody` | crates/tessivum-extism/src/lib.rs:1844-1886 | a whole section body; the cursor stays inside it and must end at its end |
| `WasmModule.WasmFunctionExports` | crates/tessivum-extism/src/lib.rs:1818-1902 | the section loop refines the parser function, makes progress and ends on any input |
| `WasmModule.ValidateWasmExports` | crates/tessivum-extism/src/lib.rs:1742-1764 | accepted exactly if the module is small enough, readable, and has the five exports of type () -> i32; otherwise the first offending export decides the error |
| `WasmSyntax.FoldFillsTables` | crates/tessivum-extism/src/lib.rs:1831-1888 | the tables are the concatenated declarations; it fails exactly if two function exports share a name |
| `WasmSyntax.TablesResolve` | crates/tessivum-extism/src/lib.rs:1890-1902 | the final lookup succeeds exactly if every exported function and its type exist, and lists declared signatures |
| `WasmRoundTrip.PrintedModuleIsParsed` | crates/tessivum-extism/src/lib.rs:1818-1902 | every printed module parses exactly if its exports resolve, and each function export comes back with its declared signature, nothing else |
| `WasmRoundTrip.ParsedModuleIsPrinted` | crates/tessivum-extism/src/lib.rs:1818-1902 | every accepted byte string is the binary form of a resolved module |
| `WasmRoundTrip.AcceptedGuestDeclaresItsExports` | crates/tessivum-extism/src/lib.rs:1742-1764 | an accepted guest declares each required export as () -> i32 |
| `Utf8Encoding.Utf8IsExact` | crates/tessivum-extism/src/lib.rs:1809-1813 | the test for names accepts exactly the UTF-8 encodings of Unicode scalar values |
| `EntryTree.Position` | crates/tessivum-core/src/loader.rs:1282-1287 | the first entry of an id |
| `EntryTree.EditGroups` | crates/tessivum-core/src/loader.rs:1264-1335 | the walk over nested groups edits the first vector, in document order, that holds the id |
| `EntryTree.Candidate.EditEntry` | crates/tessivum-core/src/loader.rs:1256-1299 | finding, removing and replacing, with nothing changed on a miss |
| `EntryTree.Candidate.InsertEntry` | crates/tessivum-core/src/loader.rs:1301-1318 | insertion before an entry, or at the end of the root vector |
| `EntryTree.Candidate.Apply` | crates/tessivum-core/src/loader.rs:313-345 | each patch, with its error cases in order |
| `EntryTreeEdits.GroupsAreEdited` | crates/tessivum-core/src/loader.rs:1264-1335 | an edit changes exactly one vector and keeps group ids, flags and nesting |
| `EntryTreeEdits.EditActsOnTheList` | crates/tessivum-core/src/loader.rs:1224-1230 | under entries() an edit acts at the first entry of the id, and hands that entry back |
| `EntryTreeValidation.CheckEntries` | crates/tessivum-core/src/loader.rs:242-253 | the entry loop refines its recursive form |
| `EntryTreeValidation.CheckGroups` | crates/tessivum-core/src/loader.rs:255-283 | the group walk refines its recursive form |
| `EntryTreeValidation.CheckTree` | crates/tessivum-core/src/loader.rs:196-204 | validation of the whole tree |
| `EntryTreeValidation.ValidTrees` | crates/tessivum-core/src/loader.rs:196-283 | accepted exactly if all entries and group ids are valid, entry ids are distinct over the whole tree and so are qualified group names |
| `EntryTreeValidation.QualifiesOnce` | crates/tessivum-core/src/loader.rs:268-272 | a nested group is known under its parent's name and a dot, put in front exactly if they are not there yet |
| `EntryTreePatches.PatchActsOnTheList` | crates/tessivum-core/src/loader.rs:313-345 | every patch fails exactly for the reasons on the flat list, and otherwise replaces, deletes or inserts immediately before there; groups stay as they are |
| `EntryTreePatches.MoveConservesEntries` | crates/tessivum-core/src/loader.rs:336-343 | a move neither loses nor duplicates an entry |
| `EntryTreePatches.MoveKeepsValidity` | crates/tessivum-core/src/loader.rs:220-225 | on an accepted tree a move is accepted unless its ids are wrong |
| `EntryTreePatches.ApplyPatches` | crates/tessivum-core/src/loader.rs:229-236 | patches in order on a clone, then one validation |
| `EntryTreePatches.ApplyIsAListOfOne` | crates/tessivum-core/src/loader.rs:220-225 | applying one patch is applying a list of one |
| `EntryTreePatches.ConcatenationIsSequential` | crates/tessivum-core/src/loader.rs:229-236 | applying two lists in turn gives what their concatenation gives exactly if the tree between them is accepted, the first list fails by itself, or the concatenation is not accepted either |
| `EntryTreePatches.ConcatenationMayRepair` | crates/tessivum-core/src/loader.rs:229-236 | without that condition they differ: for any acceptable entry, a concatenation is accepted whose first half is not |
| `EntryTreePatches.ActiveEntriesAreSelected` | crates/tessivum-core/src/loader.rs:1232-1254 | the active entries are entries() without the disabled ones and those inside disabled groups, in order |
| `Activation.AllSettle` | crates/tessivum-core/src/loader.rs:1111-1142 | every result, at the position of its future, in whatever order futures settle |
| `Activation.Ask` | crates/tessivum-core/src/loader.rs:1047-1058 | the waiting handles are asked in entry order |
| `Activation.Count` | crates/tessivum-core/src/loader.rs:1063-1069 | results are sorted by the index they belong to |
| `Activation.ActivateAll` | crates/tessivum-core/src/loader.rs:1042-1079 | the errors are, in entry order, the handles that failed in the last round among those asked in it, and a handle that waits is none; without one the handles left active are exactly the least fixpoint of the dependencies, in at most as many rounds as there are handles |
| `LoaderTransaction.Loader.DisposeAll` | crates/tessivum-core/src/loader.rs:1081-1089 | every handle is disposed once, last first, errors or not |
| `LoaderTransaction.Loader.ImportCandidates` | crates/tessivum-core/src/loader.rs:817-855 | all active entries are imported in order, or those that were are disposed again |
| `LoaderTransaction.Loader.RestoreCommittedTree` | crates/tessivum-core/src/loader.rs:862-885 | the committed tree imported and started anew, or nothing live |
| `LoaderTransaction.Loader.ReplaceTree` | crates/tessivum-core/src/loader.rs:760-800 | the exchange with all its failure branches |
| `LoaderTransaction.Loader.Run` | crates/tessivum-core/src/loader.rs:744-811 | load, update, replace and unload |
| `LoaderTransaction.ReplaceIsATransaction` | crates/tessivum-core/src/loader.rs:760-800 | a replacement succeeds exactly if the tree is accepted, its entries are imported, the old handles are disposed and the new ones start, and reports the first that fails; it commits the new tree with its active entries live in order, or keeps the old tree: with its handles untouched if the new one is not accepted or imported, and otherwise restored exactly if it can be imported and started again; every handle stays accounted for |
| `LoaderTransaction.ReplacementDisposesInReverse` | crates/tessivum-core/src/loader.rs:760-800 | a replacement disposes the old handles last first and, if the exchange fails, then the new ones last first; a failed import disposes what it made, last first, and nothing else |
| `LoaderTransaction.RestoreKeeps` | crates/tessivum-core/src/loader.rs:862-885 | a restoration ends with the committed tree's active entries live exactly if they can be imported and started again, and with nothing live otherwise |
| `LoaderTransaction.CommandKeeps` | crates/tessivum-core/src/loader.rs:744-811 | how a command ends, read off the world's answers: a load is refused while something is live, an update if a patch fails, and a replacement for the first that fails of acceptance, imports, disposals and starts |
| `LoaderTransaction.UnloadKeeps` | crates/tessivum-core/src/loader.rs:802-811 | an unload keeps the account of handles exactly if no disposal fails |
| `LoaderTransaction.UnloadDisposesInReverse` | crates/tessivum-core/src/loader.rs:802-811 | an unload disposes every live handle, last first, whether one of them fails or not |
| `LoaderTransaction.FailedUnloadDisposesTwice` | crates/tessivum-core/src/loader.rs:802-811 | a run of a load, a failed unload and a replacement disposes its one handle twice |
| `LoaderTransaction.RunsKeepTheAccount` | crates/tessivum-core/src/loader.rs:744-885 | over all runs with successful unloads the tree is the last committed one, live handles are its active entries in order, or none exactly after a restoration that could not be made, and every handle is live and undisposed or was disposed exactly once |
| `BridgeEndpoints.ClientInner.ResolvePending` | crates/tessivum-node-bridge/src/supervisor.rs:324-332 | the first terminal event takes the request out of the table |
| `BridgeEndpoints.ClientInner.BeginRequest` | crates/tessivum-node-bridge/src/supervisor.rs:652-679 | ids are drawn in steps of two up to the limit; a full table refuses |
| `BridgeEndpoints.ClientInner.TransmitRequest` | crates/tessivum-node-bridge/src/supervisor.rs:680-690 | a request whose frame cannot be queued is resolved at once |
| `BridgeEndpoints.ClientInner.CancelRequest` | crates/tessivum-node-bridge/src/supervisor.rs:707-717 | only a pending request is cancelled, and only then a cancel frame is sent |
| `BridgeEndpoints.ClientInner.DispatchFrame` | crates/tessivum-node-bridge/src/supervisor.rs:367-451 | replies and cancels resolve; requests are served, or refused when too many are cancellable |
| `BridgeEndpoints.ClientInner.RespondRequest` | crates/tessivum-node-bridge/src/supervisor.rs:467-480 | a served request is answered once |
| `BridgeEndpoints.ClientInner.DropPermit` | crates/tessivum-node-bridge/src/supervisor.rs:241-245 | the permit is given back |
| `BridgeEndpoints.ClientInner.DisconnectClient` | crates/tessivum-node-bridge/src/supervisor.rs:270-291 | the first disconnect drains the whole table with its error |
| `BridgeEndpoints.CompatHost.BeginRemoteRequest` | node/compat-host/src/host.ts:1687-1702 | even ids up to the limit; a failed write ends the request |
| `BridgeEndpoints.CompatHost.CancelRemoteRequest` | node/compat-host/src/host.ts:1704-1716 | a cancelled request is remembered so that its late reply can be absorbed |
| `BridgeEndpoints.CompatHost.ShutdownHost` | node/compat-host/src/host.ts:1722-1729 | outstanding requests end, and the tables are cleared |
| `BridgeEndpoints.CompatHost.Resolve` | node/compat-host/src/host.ts:1327-1338 | a reply resolves, is absorbed, or is fatal |
| `BridgeEndpoints.CompatHost.CancelFrame` | node/compat-host/src/host.ts:1339-1357 | a request from the other side is settled and answered once |
| `BridgeEndpoints.CompatHost.AcceptRequest` | node/compat-host/src/host.ts:1209-1220 | duplicate ids are faults, too many requests are refused |
| `BridgeEndpoints.CompatHost.ReceiveFrame` | node/compat-host/src/host.ts:1241-1263 | one incoming frame |
| `BridgeEndpoints.CompatHost.StartOperation` | node/compat-host/src/host.ts:1299-1307 | a queued operation starts, unless it was settled while it waited |
| `BridgeEndpoints.CompatHost.FinishOperation` | node/compat-host/src/host.ts:1308-1324 | an unsettled operation is answered, and leaves the table |
| `BridgeRuns.HeadIsExpected` | node/compat-host/src/host.ts:1327-1338 | while the host is ready every reply is for a request it still knows, and every request id is new |
| `BridgeRuns.StepKeeps` | crates/tessivum-node-bridge/src/supervisor.rs:324-480 | every step of either end keeps the per-request invariant |
| `BridgeRuns.RunsAreSafe` | node/compat-host/src/host.ts:1327-1357 | over all runs, frames lost and cancels at any time, the host never faults, and every request is pending or has ended at its origin |
| `BridgeRuns.EveryRequestIsAccounted` | crates/tessivum-node-bridge/src/supervisor.rs:652-690 | exactly the ids drawn are pending or ended, never both |
| `BridgeRuns.ResultsStayForever` | crates/tessivum-node-bridge/src/supervisor.rs:324-332 | a terminal result is never replaced, so each request ends at most once |
| `BridgeRuns.CancelsStayOnTheirSide` | crates/tessivum-node-bridge/src/supervisor.rs:415-422 | a cancel never resolves a request of the other side |
| `BridgeRuns.LateReplyIsAbsorbed` | node/compat-host/src/host.ts:1330-1334 | the late reply to a cancelled host request changes no result |
| `BridgeOutcomes.ClientResultsHaveCauses` | crates/tessivum-node-bridge/src/supervisor.rs:324-451 | a request of the client ends answered as the host finished it, or with an error the host sent because it was full or told to cancel; cancelled, refused or disconnected only by an event that does so |
| `BridgeOutcomes.HostResultsHaveCauses` | node/compat-host/src/host.ts:1327-1337 | a request of the host ends answered as the client responded, or refused by a full client; cancelled, unwritten or closed only by an event that does so |
| `BridgeProgress.ReplyReachesClient` | crates/tessivum-node-bridge/src/supervisor.rs:401-414 | a reply under way to a pending request ends it with the reply's own answer once it has been read |
| `BridgeProgress.ReplyReachesHost` | node/compat-host/src/host.ts:1327-1337 | a reply under way to an outgoing request ends it with the reply's own answer once it has been read |
| `BridgeProgress.RequestIsAnswered` | crates/tessivum-node-bridge/src/supervisor.rs:652-690 | the whole way of a client's request: sent, read, started, finished and answered, it ends with the host's answer, or with an error exactly if the host was full |
| `BridgeProgress.HostRequestIsAnswered` | node/compat-host/src/host.ts:1687-1716 | the whole way of a host's request: it ends with the client's answer, or with an error exactly if the client was full |
| `BridgeProgress.PendingIsHeld` | node/compat-host/src/host.ts:1339-1357 | as long as the client waits for a request, the host holds it unsettled if it has it |
| `BridgeProgress.CancelArrives` | node/compat-host/src/host.ts:1339-1357 | a cancel frame settles the request at the host, which answers it then unless it was settled before |
| `BridgeProgress.CancelRaisesFlag` | crates/tessivum-node-bridge/src/supervisor.rs:346-424 | a cancel frame raises the flag of a served request and does nothing else |
| `BridgeProgress.CancelsAreSent` | crates/tessivum-node-bridge/src/supervisor.rs:707-720 | whoever cancels a pending request ends it and sends a cancel frame |
| `BridgeProgress.ClosedClientIsSilent` | crates/tessivum-node-bridge/src/supervisor.rs:248-268 | a client that has lost its connection sends nothing more |
| `BridgeProgress.BeginsAreAdmitted` | crates/tessivum-node-bridge/src/supervisor.rs:652-676 | an end that is closed or out of ids begins nothing; a client with room has a new request |
| `BridgeProgress.TablesAreBounded` | crates/tessivum-node-bridge/src/supervisor.rs:652-676 | over every run pending and cancellable requests, route invocations and ids stay within their limits |
| `BridgeProgress.PermitsAreGivenBack` | crates/tessivum-node-bridge/src/supervisor.rs:236-246 | the permit of a cancellable request is given back after its response and not before |
| `BridgeProgress.LimitOfPending` | crates/tessivum-node-bridge/src/supervisor.rs:668-671 | the limit of pending requests: sixty-four for each place in the queue, at least one place, and never more than the maximum |
| `PendingDrain.RunsKeep` | crates/tessivum-node-bridge/src/supervisor.rs:255-291 | every interleaving of requests, replies, timeouts and disconnects keeps the per-request invariant |
| `PendingDrain.DrainLeavesOnlyObservers` | crates/tessivum-node-bridge/src/supervisor.rs:270-291 | after the drain the table holds only requesters that have still to see the disconnect; everyone waiting has a message on its way |
| `PendingDrain.TableIsBounded` | crates/tessivum-node-bridge/src/supervisor.rs:669-679 | the table never exceeds its bound |
| `PendingDrain.NoRequestIsStranded` | crates/tessivum-node-bridge/src/supervisor.rs:680-690 | after the drain at most three more steps finish any requester, without the peer and without a timeout, with what was sent to it before, its own error, or disconnected |
| `PendingDrain.ResultsHaveCauses` | crates/tessivum-node-bridge/src/supervisor.rs:255-291 | every result, error and message of a request has its cause in the run |
| `PendingDrain.ArrivedMessageWins` | crates/tessivum-node-bridge/src/supervisor.rs:755-778 | a message that has arrived is what the requester gets, even if its time runs out before it looks |
| `PendingDrain.RequestIsSent` | crates/tessivum-node-bridge/src/supervisor.rs:652-690 | with the connection up and room in the table a request is drawn, inserted and sent |
| `PendingDrain.SentRequestEnds` | crates/tessivum-node-bridge/src/supervisor.rs:755-778 | a request that has been sent ends with what is sent back, or cancelled if its time runs out before |
| `PendingDrain.DrawsAreFresh` | crates/tessivum-node-bridge/src/supervisor.rs:657-666 | ids are drawn once, in steps of two up to the limit, while the connection is up |
| `PendingDrain.DisconnectDrains` | crates/tessivum-node-bridge/src/supervisor.rs:255-291 | both ways to lose the connection close it, and the drain turns every entry of the table into a message |
| `EventBus.EventBusInner.RemoveListener` | crates/tessivum-core/src/events.rs:990-1005 | the listener is gone, and an event without listeners leaves the map |
| `EventBus.EventBusInner.Register` | crates/tessivum-core/src/events.rs:562-619 | prepended or appended under a new token; taken back when the owner is gone |
| `EventBus.EventBusInner.Snapshot` | crates/tessivum-core/src/events.rs:621-632 | the eligible listeners, in order, with no token twice |
| `EventBus.EventBusInner.ClaimOnce` | crates/tessivum-core/src/events.rs:979-988 | a one-shot listener is claimed by one dispatch, which removes it |
| `EventBus.SnapshotOrder` | crates/tessivum-core/src/events.rs:585-593 | prepended listeners newest first, then the others in registration order, whatever was removed in between |
| `EventBus.EligibleSelects` | crates/tessivum-core/src/events.rs:896-903 | a snapshot takes a listener exactly if its owner is active and it is global or of the same context and realm, and keeps the order |
| `EventBus.ChangesStayInTheirEvent` | crates/tessivum-core/src/events.rs:585-593 | a change of one event's listeners leaves the others alone |
| `WaterfallDispatch.ErasedNext.Take` | crates/tessivum-core/src/events.rs:924-929 | a continuation can be taken once |
| `WaterfallDispatch.RunWaterfall` | crates/tessivum-core/src/events.rs:948-977 | the dispatch loop refines the recursive form and terminates |
| `WaterfallDispatch.Invoke` | crates/tessivum-core/src/events.rs:967-973 | a listener runs with one usable continuation |
| `WaterfallDispatch.WaterfallComposes` | crates/tessivum-core/src/events.rs:948-977 | a waterfall is the right-nested composition of the listeners it can claim |
| `WaterfallDispatch.InvokedInOrder` | crates/tessivum-core/src/events.rs:948-977 | listeners are invoked in strictly increasing position, so none twice |
| `WaterfallDispatch.SecondNextIsRefused` | crates/tessivum-core/src/events.rs:924-929 | of all its calls of next a listener gets one answer; every other is the used-continuation error |
| `WaterfallDispatch.ListenersDecide` | crates/tessivum-core/src/events.rs:948-977 | the first claimable listener answers by itself, or gets the answer of what comes behind it for its next; listeners are invoked as far as each of them calls next |
| `WaterfallDispatch.ClaimsGrow` | crates/tessivum-core/src/events.rs:979-988 | a waterfall claims exactly one-shot listeners from its start on, among them all it invoked |
| `WaterfallDispatch.DispatchWaterfall` | crates/tessivum-core/src/events.rs:827-842 | a waterfall on the bus answers the composition of the listeners that are eligible and claimable when it starts |
| `WaterfallDispatch.DispatchSync` | crates/tessivum-core/src/events.rs:634-722 | the first listener that stops an emit or a bail decides, nobody behind it is called, and exactly the one-shot listeners reached are claimed |
| `NativePlugin.NativePluginInstance.StopHook` | crates/tessivum-core/src/native.rs:899-906 | stop is called at most once after an attempt |
| `NativePlugin.NativePluginInstance.StopInstance` | crates/tessivum-core/src/native.rs:884-897 | the stop hook, then the fiber, with either error reported |
| `NativePlugin.NativePluginInstance.Attempt` | crates/tessivum-core/src/native.rs:799-835 | dependencies, configuration, then the hooks; a failed start is stopped |
| `NativePlugin.NativePluginInstance.StartInstance` | crates/tessivum-core/src/native.rs:706-739 | only a pending fiber is started |
| `NativePlugin.NativePluginInstance.SuspendInstance` | crates/tessivum-core/src/native.rs:860-870 | after a clean stop the instance gets a new fiber |
| `NativePlugin.NativePluginInstance.UpdateInstance` | crates/tessivum-core/src/native.rs:750-797 | candidate, commit, retirement of the old instance, with every failure branch |
| `NativePlugin.HooksAlternate` | crates/tessivum-core/src/native.rs:706-906 | over all runs attempts and stops alternate on every plugin object, beginning with an attempt; every object no longer in place is balanced |
| `NativePlugin.StopCloses` | crates/tessivum-core/src/native.rs:872-906 | stopping closes the plugin, calling stop once exactly if it was open, and reports either failure |
| `NativePlugin.StartAttemptsOnce` | crates/tessivum-core/src/native.rs:706-739 | a start attempts the plugin exactly if the fiber is pending, the dependencies arrive and the configuration is valid; it reports the first that fails, leaves the plugin open on success and closed otherwise |
| `NativePlugin.SuspendCloses` | crates/tessivum-core/src/native.rs:860-870 | a suspend without an error leaves the plugin closed, stopped once if it was open, and the fiber pending; it fails exactly if the hook, the disposal or the new fiber does |
| `NativePlugin.FailedUpdateLeavesNoTrace` | crates/tessivum-core/src/native.rs:782-793 | a failure up to and including the commit keeps the old instance and leaves the host to the other writers alone, in every interleaving |
| `NativePlugin.SuccessfulUpdateCommitsAtOnce` | crates/tessivum-core/src/native.rs:788-797 | on success all staged services appear in one step on top of the others' writes, and the candidate takes the instance's place even if stopping the old one fails |
| `NativePlugin.UpdateInstallsOrKeeps` | crates/tessivum-core/src/native.rs:750-797 | the candidate is installed exactly if it starts and no slot it staged has changed; otherwise the instance is unchanged |
| `NativePlugin.UpdateCallsHooks` | crates/tessivum-core/src/native.rs:750-797 | which error an update reports, and which hooks it calls: the candidate attempted once and stopped again unless it is installed, the old plugin stopped if it was open and only then |
| `NativePlugin.RetiringSparesTheCandidate` | crates/tessivum-core/src/native.rs:794-796 | cleanups of the retired instance spare the candidate's providers |
| `ManagedWorker.ManagedControl.Notify` | crates/tessivum-core/src/native.rs:1173-1190 | a new snapshot marks the state dirty and wakes the waiter |
| `ManagedWorker.ManagedControl.Request` | crates/tessivum-core/src/native.rs:1206-1224 | only the first request schedules work |
| `ManagedWorker.ManagedControl.Enter` | crates/tessivum-core/src/native.rs:1240-1253 | phase and error together |
| `ManagedWorker.ManagedControl.NextSnapshot` | crates/tessivum-core/src/native.rs:1255-1273 | taking the snapshot clears the mark and, unless stopping, enters the starting phase |
| `ManagedWorker.ManagedControl.Stop` | crates/tessivum-core/src/native.rs:1314-1330 | stopping schedules the worker a last time |
| `ManagedWorker.ManagedControl.PollActivation` | crates/tessivum-core/src/native.rs:1275-1312 | one poll of the activation future |
| `ManagedWorker.RequiredGenerations` | crates/tessivum-core/src/native.rs:1372-1381 | the generations of the required dependencies, in order |
| `ManagedWorker.RunsKeep` | crates/tessivum-core/src/native.rs:1383-1490 | every interleaving of notifications, requests, stops and worker steps keeps the invariant |
| `ManagedWorker.WorkerSettles` | crates/tessivum-core/src/native.rs:1411-1490 | a parked worker with work, left alone, is parked again within five steps: failed exactly if a suspend, start or update failed, otherwise at rest with a pending fiber if dependencies are missing, and active for exactly the required providers if not |
| `ManagedWorker.StoppingWorkerExits` | crates/tessivum-core/src/native.rs:1413-1428 | a worker told to stop finishes its turn, whatever comes of it, and exits |
| `ManagedWorker.PendingWorkerRests` | crates/tessivum-core/src/native.rs:1433-1444 | with a pending fiber and missing dependencies it rests without asking anything of its instance |
| `ManagedWorker.FailureLeavesFiber` | crates/tessivum-core/src/native.rs:1433-1482 | what a failure leaves of the fiber and the record |
| `ManagedWorker.BootParksOrBreaks` | crates/tessivum-core/src/native.rs:1383-1410 | booting ends parked, or for good with an error every poll reports |
| `ManagedWorker.UnrequestedWorkerWaits` | crates/tessivum-core/src/native.rs:1255-1265 | until its activation is requested a worker takes no snapshot |
| `ManagedWorker.OutsideEvents` | crates/tessivum-core/src/native.rs:1173-1224 | what notifications, requests and stops change, and that each wakes whoever waits |
| `ManagedWorker.PollMeans` | crates/tessivum-core/src/native.rs:1275-1312 | each answer of a poll is given exactly in its own situation |
| `ManagedWorker.WorkerConverges` | crates/tessivum-core/src/native.rs:1255-1273 | an active phase belongs to the snapshot last taken: the recorded generations are those of the current snapshot exactly if both require the same, as they do while the worker is neither stopping nor dirty; and the plugin was started for them exactly if no update failed after installing its candidate |
| `ManagedWorker.ParkedWorkerIsSettled` | crates/tessivum-core/src/native.rs:1433-1444 | a parked worker is never starting; at rest it has no active generations and a pending fiber, unless its scope was disposed from outside |
| `ManagedWorker.ActivationIsAnswered` | crates/tessivum-core/src/native.rs:1275-1312 | no activated caller waits on a parked worker without work, and a stored waker has no answer yet |
| `ManagedWorker.StoppingWorkerDoesNotConverge` | crates/tessivum-core/src/native.rs:1255-1273 | a concrete run in which stopping clears the mark of a change without following it |
| `WorkerOnHost.SnapshotOf` | crates/tessivum-core/src/service.rs:447-460 | a dependency snapshot is ready exactly if every required dependency has a generation in it |
| `WorkerOnHost.HistoricStep` | crates/tessivum-core/src/service.rs:398-430 | in every run of the host a snapshot shows only providers that had entered it, and what two snapshots show of a dependency holds of all between them |
| `WorkerOnHost.MissedIsNoticed` | crates/tessivum-core/src/native.rs:1468-1485 | as long as snapshots arrive in order, a worker that missed an update never takes its outdated record for the current providers |
| `WorkerOnHost.OrderedRun` | crates/tessivum-core/src/native.rs:1383-1490 | with delivery in order the worker's snapshots, record and running plugin stand in the order in which the host was observed |
| `WorkerOnHost.WorkerFollowsTheHost` | crates/tessivum-core/src/native.rs:1383-1490 | with delivery in order an active phase, neither dirty nor stopping, means that record and active plugin belong to the shown snapshot, and to the host's current providers once every change has been observed and delivered |
| `WorkerOnHost.LateSnapshotMisleads` | crates/tessivum-core/src/service.rs:398-430 | a concrete run in which a snapshot is delivered after a newer one: after a failed update the worker reports as active a plugin that runs for the new provider, for the replaced one |

## Left out

- LoaderTransaction: handles are numbers; importing, starting and disposing return arbitrary answers given as functions, and contexts, traces and error texts are not modelled.
- LoaderTransaction.Loader.ImportCandidates: imports one entry after the other where the source polls them together; that results keep their positions is `Activation.AllSettle`.
- Activation.ActivateAll: a handle's future is a number of polls and an answer; the schedule, who becomes active when and who is asked when are functions of the world that may depend on everything so far.
- EntryTree.EditGroups: the entry vectors are values that are replaced, not vectors edited in place; a tree has no aliases in the source.
- EntryTree: configuration and options of an entry are opaque texts; `Entry::validate` is a parameter.
- EntryTreeValidation.CheckTree: identifiers are strings of characters, where the source looks at bytes.
- ScopeDisposal.DisposalRunsEffectsOnce: one initiating disposal; disposals started independently on several threads are not claimed free of deadlock, because ancestors are copied once when a disposal joins another.
- ScopeRaces: the children of a scope and the results of joined disposals are not part of the concurrent steps; they are in `ScopeDisposal`.
- ScopeDisposal: wakers, tasks and the thread-local stack are the set of scopes the running cleanup is inside of; a disposer is a program that makes at most a given number of disposals, any number.
- GuestSlot.WaitersAreServed: condition variables are steps that are enabled when their condition holds; a guest call returns any outcome, at any time.
- ServiceRegistry: listeners and notifications are not part of the registry's state; `WorkerOnHost` follows the snapshots one listener is given. Values of services, intercepts and event realms are left out.
- WorkerOnHost: a snapshot may be taken at any time; that one is taken after every change of a watched slot is not part of the model.
- ServiceRegistry.Generations.Take: the panic after 2^64 generations is not modelled.
- NativePlugin.NativePluginInstance.UpdateInstance: hooks are arbitrary interleaved steps on the services with an arbitrary outcome; the cancellation token of the candidate, configuration expressions and dependency gates are outcomes too.
- NativePlugin.NativePluginInstance.Attempt: the hook of a failed start and the rollback of its scope are part of the steps taken while it runs.
- ManagedWorker: the worker's runtime, threads and cancellation tokens are outcomes of its steps; `pc` and the generations for which the plugin was started are recorded beside the source's fields.
- WaterfallDispatch.Invoke: a listener calls `next` at most a given number of times, any number, and waits for each answer before it goes on; continuations that are dropped unpolled or run beside their listener are not modelled.
- WaterfallDispatch.DispatchSync: emit and bail are one method with a flag; parallel and serial dispatch, diagnostics and payload types are left out.
- EventBus.EventBusInner.Snapshot: taken and used without listeners that change the registry while they run.
- BridgeEndpoints: frames carry an id and a flag, not their payload, kind and generation; the handshake, heartbeats, logs, output frames and the extension set are left out.
- BridgeEndpoints.CompatHost.ReceiveFrame: what a host that is shutting down answers is not modelled; it takes frames and does nothing.
- BridgeEndpoints.CompatHost.StartOperation: any queued operation may start, where the source starts them one at a time in order.
- BridgeEndpoints.ClientInner.DispatchFrame: requests of the serial kinds are served beside each other, where the source's dispatcher waits; the handler's own cancel notification is left out.
- PendingDrain: `set_disconnect_handler` is left out, because its prior-error check and its store are not atomic.
- FrameDecoding: printing and parsing of a frame body are parameters; streams are followed up to the first push that throws.
- JsonStackScan: strings are sequences of characters, not UTF-16 code units.
- JsonRootField.RootReadsTheMember: `JSON.parse` of a key is a parameter that reads every well-formed string.
- JsonAcceptance.AcceptsExactlyJson: the normalisation of surrogate pairs behind the check, and decoding into values, are left out.
- WasmModule.WasmReader.Name: error texts are left out; every malformed module is the one error MODULE_INVALID.
- Everything else of the host and the runtime: routes, sessions, process supervision, file watching, persistence, configuration expressions, manifest and schema validators, the engine behind a guest. They are plumbing around the modelled parts, or would only add easy members.
