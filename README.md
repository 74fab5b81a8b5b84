# Web shell client core, modelled in Dafny

This project models the core of a browser web-shell client:

- The **connection manager**, in both generations. It multiplexes named services over one WebSocket. Pending requests sit in a correlation table keyed `service:action:id`, inbound frames settle them or go to the service, and a dropped socket is reconnected. The newer generation has a single-flight reconnect and a send queue. The older one starts a reconnect per send.
- The **`CacheMap`** behind the correlation table: a map whose keys each carry one expiry timer, restarted by every `set`.
- The **upload pipeline**, in both generations. A session lists what a dropped or picked file or directory contains, asks the server to start, and optionally asks the user for a duplicate policy. It then creates empty directories and streams each file chunk by chunk, with progress, cancellation, skipping and completion requests.
- The **file-tree service**: a tree of nodes with breadth-first lookup by path, and child lists edited in place after the server acknowledges.
- The **shell-integration addons**. These cover the OSC payload parsers (OSC 7 `file://` URLs, FinalTerm 133, iTerm 1337 and the VS Code 633 format), the prompt/command zone tracker and the semantic-zone service.
- The **upload-list housekeeping** filter `clearIdleSessions`.

Stateful parts are classes whose methods are proved against specification functions, for example `ensures State() == old(State()).Set(key, value)`. The specification functions carry the properties as lemmas. Time is a logical clock. The network, the server's answers, the user's choices, SHA-256 and path joining are parameters.

Files and modules:

- `wrappers.dfy` (`Wrappers`): `Option`.
- `js_strings.dfy` (`JsStrings`) and `js_arrays.dfy` (`JsArrays`): the JavaScript string and array operations the source relies on (`split(';')[0]`, `split('=', 2)`, `slice`, `indexOf`, `indexOf` + `splice`).
- `cache_map.dfy` (`CacheMaps`): `CacheMap`.
- `wire.dfy` (`Wire`): messages, correlation keys, promise settlement.
- `routing.dfy` (`Routing`): the correlation table, the service registry and inbound dispatch, shared by both managers.
- `ws_manager.dfy` (`SocketManager`): the newer manager.
- `ws_manager_legacy.dfy` (`LegacySocketManager`): the older manager.
- `upload_spec.dfy` (`Uploads`): one run of `doStartUpload`, both generations, as functions.
- `upload_walk.dfy` (`UploadWalk`): the `setup*` walkers.
- `upload_service.dfy` (`Uploading`): the `UploadService` and `UploadSession` classes.
- `upload_store.dfy` (`UploadStore`): `clearIdleSessions`.
- `fs_service.dfy` (`FileTree`): `FSService` and `FSTreeNode`.
- `osc_payloads.dfy` (`OscPayloads`): the OSC payload parsers.
- `shell_integration.dfy` (`ShellIntegration`): the zone-tracking addon.
- `shell_integration_cwd.dfy` (`CwdShellIntegration`): the cwd-only addon.
- `semantic_zone.dfy` (`SemanticZones`): `SemanticZoneService`.

Where the newer and older files differ, the model follows each file's code. The older upload session's extra `doneSize += file.size` at the end of a stream is modelled as written. `Uploads.HonestProgress` states what it does to the progress counter.

## Model

| member | source | states |
|---|---|---|
| CacheMaps.Empty | src/utils/cacheMap.ts:1-6 | a new map is well formed and empty |
| CacheMaps.Cache.Without | src/utils/cacheMap.ts:29-36 | deleting a set of keys removes exactly those keys and keeps the timers consistent |
| CacheMaps.StoredUntilTtl | src/utils/__tests__/cacheMap.test.ts:16-27 | after `set`, `get` returns the value while less than `ttl` has elapsed and nothing once `ttl` has elapsed |
| CacheMaps.ResetRestartsTtl | src/utils/__tests__/cacheMap.test.ts:29-35 | a second `set` restarts the full `ttl`: the new value survives another period shorter than `ttl` |
| CacheMaps.DeleteTwice | src/utils/__tests__/cacheMap.test.ts:37-42 | `delete` returns true iff the key was present; afterwards the key is absent and a second `delete` returns false |
| CacheMaps.KeysExpireIndependently | src/utils/__tests__/cacheMap.test.ts:53-62 | after time passes, a key is present iff its own deadline is still ahead; other keys' timers play no part |
| CacheMaps.StepKeepsWf | src/utils/cacheMap.ts:8-42 | every operation keeps one timer per key, each due within `ttl` |
| CacheMaps.RunKeepsInvariant | src/utils/cacheMap.ts:8-42 | along any sequence of operations, every present key was set with its present value and not touched since, and every such live key is present |
| CacheMaps.GetAfterRun | src/utils/cacheMap.ts:8-27 | after any run from empty, `get(k)` is `v` iff some `set(k, v)` was followed by no `set`/`delete`/`clear` of `k` and by less than `ttl` of elapsed time |
| CacheMaps.CacheMap.constructor | src/utils/cacheMap.ts:4 | a new map is empty, with the given `ttl` |
| CacheMaps.CacheMap.Set | src/utils/cacheMap.ts:8-27 | stores the value and restarts the key's timer |
| CacheMaps.CacheMap.Delete | src/utils/cacheMap.ts:29-36 | removes the key and its timer and returns whether it was present |
| CacheMaps.CacheMap.Clear | src/utils/cacheMap.ts:38-42 | removes every key and timer; size becomes 0 |
| CacheMaps.CacheMap.Elapse | src/utils/cacheMap.ts:18-24 | the timers that fall due remove their keys |
| Wire.SettleFirstWins | src/service/websocketBase/websocketManager.ts:62-69 | after a first settlement, any later one changes nothing |
| Wire.KeyInjective | src/service/websocketBase/websocketManager.ts:59 | two keys `service:action:id` are equal iff service, action and id are equal (for names without `:`) |
| Wire.KeyPrefix | src/service/websocketBase/websocketManager.ts:167-176 | a key starts with `name:` iff its service is `name` |
| Wire.PrefixBeforeColon | src/service/websocketBase/websocketManager.ts:59 | starting with `n:` is the same as having `n` before the first colon |
| Routing.SettledAllStep | src/service/websocketBase/websocketManager.ts:82-84 | settling one more waiter extends the set of settled waiters by it |
| Routing.WithoutStep | src/service/websocketBase/websocketManager.ts:170-173 | deleting keys one at a time equals deleting the set at once |
| Routing.Router.NewPromise | src/service/websocketBase/websocketManager.ts:209-229 | a new promise is appended, nothing else changes |
| Routing.Router.SettlePromise | src/service/websocketBase/websocketManager.ts:62-69 | only that promise is settled, first settlement wins |
| Routing.Router.Expect | src/service/websocketBase/websocketManager.ts:218-222 | the promise is stored under its key |
| Routing.Router.OnMessage | src/service/websocketBase/websocketManager.ts:57-79 | a pending key is deleted once and its promise settled by the reply; otherwise the message goes to its registered service or is dropped |
| Routing.Router.OnClose | src/service/websocketBase/websocketManager.ts:81-85 | every waiter in the table is rejected with `WebSocket closed`; the table itself is kept |
| Routing.Router.UnregisterService | src/service/websocketBase/websocketManager.ts:167-176 | exactly the `name:` entries are deleted and their waiters rejected; returns whether the service was registered |
| Routing.Router.DropPrefix | src/service/websocketBase/websocketManager.ts:169-174 | the loop over the table deletes and rejects exactly the matching entries |
| Routing.Router.DropIfMatching | src/service/websocketBase/websocketManager.ts:170-173 | one iteration of that loop keeps its invariant |
| Routing.Router.Elapse | src/service/websocketBase/websocketManager.ts:13-16 | the table's timers advance; expired keys disappear |
| SocketManager.Link.SendWithReconnect | src/service/websocketBase/websocketManager.ts:117-149 | a send never changes the socket or its state directly |
| SocketManager.Initial | src/service/websocketBase/websocketManager.ts:51-54 | a fresh manager is connecting and not reconnecting |
| SocketManager.StepKeepsWf | src/service/websocketBase/websocketManager.ts:90-149 | every event keeps the reconnect flag, phase and socket state consistent, with `reconnect-start`/`reconnect-end` alternating |
| SocketManager.RunKeepsWf | src/service/websocketBase/websocketManager.ts:90-112 | along any run, each `reconnect-start` is followed by exactly one `reconnect-end`, and `isReconnecting` holds iff one is open |
| SocketManager.SingleFlight | src/service/websocketBase/websocketManager.ts:133-135 | while a reconnect runs, a send only queues the message |
| SocketManager.QueueDrainedInOrder | src/service/websocketBase/websocketManager.ts:98-144 | when the reconnect's socket opens, `reconnect-end(true)` is emitted and the whole queue goes out in FIFO order on that socket before the sends that suspended on it; queue and suspended sends end empty |
| SocketManager.FailedReconnectKeepsQueue | src/service/websocketBase/websocketManager.ts:108-147 | a failed reconnect keeps the queue, sends nothing, clears `isReconnecting` and emits `reconnect-end(false)` |
| SocketManager.WebSocketManager.constructor | src/service/websocketBase/websocketManager.ts:51-54 | a new manager has an empty table and registry and a connecting socket |
| SocketManager.WebSocketManager.RegisterService | src/service/websocketBase/websocketManager.ts:155-161 | a duplicate name throws and changes nothing; otherwise `register` is called and the service added |
| SocketManager.WebSocketManager.UnregisterService | src/service/websocketBase/websocketManager.ts:167-176 | deletes and rejects exactly the `name:` entries; returns whether it was registered |
| SocketManager.WebSocketManager.OnClose | src/service/websocketBase/websocketManager.ts:81-85 | every pending waiter is rejected; the current socket becomes closed |
| SocketManager.WebSocketManager.OnClosing | src/service/websocketBase/websocketManager.ts:132-133 | the socket starts closing |
| SocketManager.WebSocketManager.ResumeWaiting | src/service/websocketBase/websocketManager.ts:123-129 | the sends suspended while connecting put their frames on the socket, in the order they were suspended, after the given frames |
| SocketManager.WebSocketManager.DrainQueue | src/service/websocketBase/websocketManager.ts:139-144 | the queued messages go out after the frames already sent, oldest first, and nothing else is sent |
| SocketManager.WebSocketManager.OnOpen | src/service/websocketBase/websocketManager.ts:98-144 | performs `Link.Opened`: the reconnect's listener runs first, so the reconnect ends and the queue drains before the suspended sends resume |
| SocketManager.WebSocketManager.OnError | src/service/websocketBase/websocketManager.ts:103-126 | a connection error fails the waiting sends or the reconnect, as `Link.Errored` |
| SocketManager.WebSocketManager.OnUrlFetched | src/service/websocketBase/websocketManager.ts:94-110 | the fetched URL opens a new socket; a failed fetch ends the reconnect unsuccessfully |
| SocketManager.WebSocketManager.SendWithReconnect | src/service/websocketBase/websocketManager.ts:117-149 | performs `Link.SendWithReconnect` |
| SocketManager.WebSocketManager.Send | src/service/websocketBase/websocketManager.ts:209-228 | throws iff the socket is connecting; otherwise performs `Link.Send` |
| SocketManager.WebSocketManager.Request | src/service/websocketBase/websocketManager.ts:196-233 | an unregistered service throws before anything is stored or sent; `response` stores a pending entry under the key before sending; otherwise the promise resolves at once |
| LegacySocketManager.WakeAll | src/services/base/webSocketManager.ts:99-120 | an open or error event wakes every send waiting on that socket |
| LegacySocketManager.WakeAllTally | src/services/base/webSocketManager.ts:87-110 | waking a socket ends every reconnect that opened it and no other |
| LegacySocketManager.Initial | src/services/base/webSocketManager.ts:45-49 | a fresh manager has one connecting socket |
| LegacySocketManager.Link.SendWithReconnect | src/services/base/webSocketManager.ts:112-129 | each send adds its own job; earlier jobs are untouched |
| LegacySocketManager.StepKeepsWf | src/services/base/webSocketManager.ts:87-129 | every event keeps each job consistent and at most one reconnect per socket |
| LegacySocketManager.EachStartHasOneEnd | src/services/base/webSocketManager.ts:87-110 | along any run, `reconnect-start`s equal `reconnect-end`s plus the reconnects still in flight |
| LegacySocketManager.NoSingleFlight | src/services/base/webSocketManager.ts:112-129 | two sends while closed start two reconnects and send nothing yet |
| LegacySocketManager.ResumedSendOnNewerSocketFails | src/services/base/webSocketManager.ts:112-129 | a send waiting on an older socket fails once a newer socket has replaced it |
| LegacySocketManager.WebSocketManager.constructor | src/services/base/webSocketManager.ts:45-49 | a new manager has an empty table and registry |
| LegacySocketManager.WebSocketManager.RegisterService | src/services/base/webSocketManager.ts:135-140 | throws iff the name is registered; only inserts the name, with no `register` call |
| LegacySocketManager.WebSocketManager.UnregisterService | src/services/base/webSocketManager.ts:146-155 | deletes and rejects exactly the `name:` entries; returns whether it was registered |
| LegacySocketManager.WebSocketManager.OnClose | src/services/base/webSocketManager.ts:78-82 | every pending waiter is rejected; the table is kept |
| LegacySocketManager.WebSocketManager.OnClosing | src/services/base/webSocketManager.ts:126-127 | the socket starts closing |
| LegacySocketManager.WebSocketManager.OnUrlFetched | src/services/base/webSocketManager.ts:91-108 | the fetched URL opens a new socket; a failed fetch ends that reconnect |
| LegacySocketManager.WebSocketManager.WakeJobs | src/services/base/webSocketManager.ts:99-120 | the loop wakes every job waiting on the socket and collects the messages to send |
| LegacySocketManager.WebSocketManager.OnOpen | src/services/base/webSocketManager.ts:99-128 | performs `Link.Opened`: the opener's frame, then the frames of the jobs suspended on the socket |
| LegacySocketManager.OpenerWritesFirst | src/services/base/webSocketManager.ts:95-128 | when the newest socket opens, its reconnect reports success and the job that started it writes its frame before the jobs suspended on the socket, which follow in order |
| LegacySocketManager.WebSocketManager.OnError | src/services/base/webSocketManager.ts:100-120 | performs `Link.Errored` |
| LegacySocketManager.WebSocketManager.SendWithReconnect | src/services/base/webSocketManager.ts:112-129 | performs `Link.SendWithReconnect` |
| LegacySocketManager.WebSocketManager.Request | src/services/base/webSocketManager.ts:161-187 | an unregistered service gives a rejected promise; `noResponse` awaits the send and stores nothing; otherwise the entry is stored under its key before sending |
| JsStrings.IndexOf | src/xterm/shellIntegrationAddon/index.ts:345 | the first index of the character, or -1 iff absent |
| JsStrings.BeforeFirst | src/xterm/shellIntegrationAddon.ts:179 | `split(c)[0]`: the longest prefix without `c` |
| JsStrings.SplitTwo | src/xterm/shellIntegrationAddon.ts:277 | `split(c, 2)`: the text before the first `c` and, iff there is one, the text up to the next `c` |
| JsStrings.SliceFrom | src/service/websocketBase/uploadService.ts:240 | `slice(start)`, including a start past the end and a negative start |
| JsArrays.RemoveFirstRemovesOne | src/service/websocketBase/uploadService.ts:251-254 | `indexOf` + `splice(idx, 1)`: removes the first occurrence only, keeps order, and leaves the list unchanged if absent |
| Uploads.Check | src/service/websocketBase/uploadService.ts:265 | a status check changes only the status, which reads `cancelled` iff it already was or the user has pressed cancel since the session became `uploading` |
| Uploads.StartUpload | src/service/websocketBase/uploadService.ts:197-202 | a thrown error leaves the session `error` |
| Uploads.DeclinedConfirmation | src/service/websocketBase/uploadService.ts:207-216 | a dismissed dialog returns after the first `start_session`, with the list and status untouched |
| Uploads.ListedAfterStart | src/service/websocketBase/uploadService.ts:207-221 | the session joins the list as `uploading` only after `start_session` and the policy resend |
| Uploads.DirectoryEntryMakesDir | src/service/websocketBase/uploadService.ts:235-238 | an empty directory issues one `mkdir` and changes no counter |
| Uploads.SkippedFile | src/service/websocketBase/uploadService.ts:242-257 | a skipped file sends no chunk; a directory session credits it, a file session leaves the list |
| Uploads.StreamExtends | src/service/websocketBase/uploadService.ts:264-288 | streaming issues requests and leaves the list and every status but `cancelled` alone |
| Uploads.StreamSendsWholeFile | src/service/websocketBase/uploadService.ts:264-288 | a finished stream writes exactly the file's chunks and ends with `complete_file` carrying the digest of the whole file; `doneFilesCount` +1 |
| Uploads.StreamRequests | src/service/websocketBase/uploadService.ts:264-288 | a finished stream sends one `chunk` per chunk and exactly one `complete_file` |
| Uploads.StreamKeepsSessionOpen | src/service/websocketBase/uploadService.ts:264-288 | streaming never sends `complete_session` |
| Uploads.CancelledStreamStops | src/service/websocketBase/uploadService.ts:265-269 | a cancelled stream ends with exactly one `cancel_session` and status `cancelled` |
| Uploads.HonestProgress | src/service/websocketBase/uploadService.ts:279-287 | with a server that acknowledges the bytes received, the newer session ends a file with `doneSize` grown by its size, the older by twice its size |
| Uploads.FileCountCons | src/service/websocketBase/uploadService.ts:428-432 | the number of file entries of a list |
| Uploads.EntryFacts | src/service/websocketBase/uploadService.ts:232-288 | one entry never sends `complete_session`; on success no `cancel_session`, and a directory session counts one more file per file entry |
| Uploads.StreamAfterStartFile | src/service/websocketBase/uploadService.ts:242-288 | the stream after `start_file` has the same properties |
| Uploads.EntriesFacts | src/service/websocketBase/uploadService.ts:232-289 | the loop over the entries never sends `complete_session`; a directory session's `doneFilesCount` grows by the number of file entries |
| Uploads.CompletedRun | src/service/websocketBase/uploadService.ts:204-293 | a normal finish ends with exactly one `complete_session` (id `path`, or `dest` in the older generation), no `cancel_session`, and `completed` in the newer generation |
| Uploads.StoppedRunNeverCompletes | src/service/websocketBase/uploadService.ts:207-269 | a quiet return is a dismissed dialog or a cancel ending in `cancel_session`, never after `complete_session` |
| Uploads.RedoListing | src/service/websocketBase/uploadService.ts:361-366 | after `redo` the session is listed once in the newer generation and twice in the older |
| Uploads.StreamIgnoresEarlyCancel | src/service/websocketBase/uploadService.ts:264-288 | a stream whose cancel was pressed before the session became `uploading` runs exactly as one the user never cancelled |
| Uploads.EntryIgnoresEarlyCancel | src/service/websocketBase/uploadService.ts:232-288 | the same for one entry, which leaves the moment the session became `uploading` alone |
| Uploads.EntriesIgnoreEarlyCancel | src/service/websocketBase/uploadService.ts:227-289 | the same for the loop over the entries |
| Uploads.EarlyCancelIsOverwritten | src/service/websocketBase/uploadService.ts:204-293 | `setStatus('uploading')` overwrites a cancel pressed before it: such a run is exactly the run without a cancel |
| UploadWalk.WalkCounts | src/service/websocketBase/uploadService.ts:455-492 | a full walk lists one file entry per file and one directory entry per empty directory |
| UploadWalk.WalkAllCounts | src/service/websocketBase/uploadService.ts:499-522 | the same for a list of children |
| UploadWalk.VisitIsPrefix | src/service/websocketBase/uploadService.ts:455-492 | the walker lists a prefix of the full walk, and stops short only when checking and `cancelled` |
| UploadWalk.VisitAllIsPrefix | src/service/websocketBase/uploadService.ts:499-522 | the same for a list of children |
| UploadWalk.UncancelledVisitIsComplete | src/service/websocketBase/uploadService.ts:455-522 | without a cancel the walker lists the full walk |
| UploadWalk.ListIsPrefix | src/service/websocketBase/uploadService.ts:439-448 | `setupFileList` lists a prefix of the files, whole unless cancelled in the newer generation |
| UploadWalk.ListCons | src/service/websocketBase/uploadService.ts:441-446 | each listed file is joined to the destination |
| UploadWalk.ListingIsPrefix | src/service/websocketBase/uploadService.ts:388-426 | `setup` lists a prefix of the source's contents, the whole of it unless cancelled in the newer generation |
| Uploading.UploadService.constructor | src/service/websocketBase/uploadService.ts:57-66 | a new service holds the given list and has sent nothing |
| Uploading.UploadService.Register | src/service/websocketBase/uploadService.ts:69-71 | the manager is attached |
| Uploading.UploadService.Dispose | src/service/websocketBase/uploadService.ts:90-92 | the session list is emptied |
| Uploading.UploadService.Ask | src/service/websocketBase/uploadService.ts:73-86 | performs `Uploads.Ask` |
| Uploading.UploadService.StreamFile | src/service/websocketBase/uploadService.ts:264-288 | the streaming loop performs `Uploads.Stream` |
| Uploading.UploadService.FinishFile | src/service/websocketBase/uploadService.ts:271-277 | at the end of the file the stream performs its last step of `Uploads.Stream`: `doneFilesCount` +1 and `complete_file` with the digest of the bytes read |
| Uploading.UploadService.SendChunk | src/service/websocketBase/uploadService.ts:279-287 | one chunk performs one step of `Uploads.Stream`: the `chunk` request with the current progress, the raw bytes, and `doneSize` set to the server's count; a failed request ends the stream |
| Uploading.UploadService.StreamStep | src/service/websocketBase/uploadService.ts:265-287 | one iteration applies a cancel pressed since the session became `uploading`, then either ends the stream as `Uploads.Stream` does or leaves the rest of the stream unchanged from the next chunk |
| Uploading.UploadService.UploadOne | src/service/websocketBase/uploadService.ts:232-288 | one entry performs `Uploads.UploadEntry` |
| Uploading.UploadService.UploadFile | src/service/websocketBase/uploadService.ts:240-288 | a file entry performs `Uploads.UploadEntry` |
| Uploading.UploadService.StartFileAnswered | src/service/websocketBase/uploadService.ts:245-288 | after `start_file` the session performs `Uploads.StartFileAnswered`: a skipped file is credited (directory) or leaves the list (file), any other is streamed |
| Uploading.UploadService.UploadAll | src/service/websocketBase/uploadService.ts:227-289 | the loop over the session's entries performs `Uploads.UploadEntries` from the first entry: it stops at the first entry whose outcome is not normal and leaves entries, totals and registration unchanged |
| Uploading.UploadService.DoStartUpload | src/service/websocketBase/uploadService.ts:204-293 | performs `Uploads.DoStartUpload`, recording when the session became `uploading` |
| Uploading.UploadService.StartUpload | src/service/websocketBase/uploadService.ts:197-202 | performs `Uploads.StartUpload` |
| Uploading.UploadService.DropUpload | src/service/websocketBase/uploadService.ts:94-114 | a file or directory entry gives a session of that kind at `join(dest, name)`, listed and set up, which then runs `Uploads.StartUpload` from the listing's status, zero counters, and the trace and list as they were; anything else throws in the newer generation and is ignored in the older one |
| Uploading.UploadSession.constructor | src/service/websocketBase/uploadService.ts:315-331 | a new session has no entries, no status and zero counters |
| Uploading.UploadSession.SetStatus | src/service/websocketBase/uploadService.ts:353 | sets only the status |
| Uploading.UploadSession.Cancel | src/service/websocketBase/uploadService.ts:357 | the status becomes `cancelled`; nothing else changes |
| Uploading.UploadSession.RemoveFromList | src/service/websocketBase/uploadService.ts:368-374 | removes the first occurrence of this session, if any |
| Uploading.UploadSession.Redo | src/service/websocketBase/uploadService.ts:361-366 | zeroes both counters, leaves the list (newer generation only) and runs `startUpload` again |
| Uploading.UploadSession.CountFile | src/service/websocketBase/uploadService.ts:428-432 | appends one file entry; `totalSize` grows by its size and `totalFiles` by 1, so the totals keep matching the entries |
| Uploading.UploadSession.PushEmptyDir | src/service/websocketBase/uploadService.ts:475-511 | appends one directory entry; the totals are unchanged |
| Uploading.UploadSession.SetupNode | src/service/websocketBase/uploadService.ts:455-522 | the recursive walker performs `UploadWalk.Visit` |
| Uploading.UploadSession.SetupFileList | src/service/websocketBase/uploadService.ts:439-448 | the loop over a file list performs `UploadWalk.ListFrom` |
| Uploading.UploadSession.Setup | src/service/websocketBase/uploadService.ts:388-426 | status `preparing`, then the listing; `setupFinished` either way, and `error` iff the source is of no known kind |
| UploadStore.BusyStatuses | src/stores/webShellUpload.ts:9 | a status is kept iff it is `preparing`, `pending` or `uploading` |
| UploadStore.ClearIdleKeepsExactlyBusy | src/stores/webShellUpload.ts:11-13 | each busy session is kept as often as it occurs, and every other session is dropped |
| UploadStore.ClearIdleIsSubsequence | src/stores/webShellUpload.ts:12 | the result is an order-preserving subsequence of the list |
| UploadStore.ClearIdleIdempotent | src/stores/webShellUpload.ts:9-12 | filtering twice equals filtering once |
| FileTree.FSTreeNode.constructor | src/services/base/fsService.ts:148-155 | a node has its entry and parent and no children yet |
| FileTree.FirstWithPath | src/services/base/fsService.ts:126-138 | the first node of a sequence with the path, or nothing iff none has it |
| FileTree.FirstWithPathSkips | src/services/base/fsService.ts:126-138 | nodes without the path can be skipped |
| FileTree.FSService.constructor | src/services/base/fsService.ts:58-59 | no nodes, hidden files not shown, nothing sent |
| FileTree.FSService.OrderVisitsAllBelow | src/services/base/fsService.ts:126-138 | the breadth-first order visits exactly the nodes reachable from the queue |
| FileTree.FSService.GetNodeByPathBFS | src/services/base/fsService.ts:126-138 | the loop returns the first node in breadth-first order from `nodes` with the path |
| FileTree.FSService.LookupFindsReachable | src/services/base/fsService.ts:126-138 | the lookup finds nothing iff no reachable node has the path, and otherwise a reachable node with it |
| FileTree.FSService.Dispose | src/services/base/fsService.ts:83-85 | `nodes` becomes empty; `showHidden` is unchanged |
| FileTree.FSService.MoveNode | src/services/base/fsService.ts:87-89 | sends `move` with id `node.path` and `{dest}`; `showHidden` is unchanged |
| FileTree.FSService.CopyNode | src/services/base/fsService.ts:91-93 | sends `copy` with id `node.path` and `{dest}`; `showHidden` is unchanged |
| FileTree.FSService.DeleteNode | src/services/base/fsService.ts:95-101 | sends `delete`, then removes exactly that node's first occurrence from its parent's children, keeping the siblings' order; `showHidden` is unchanged |
| FileTree.FSService.GetChildren | src/services/base/fsService.ts:114-119 | sends `list`, then replaces the children by fresh nodes, one per entry, in order, each with this parent |
| FileTree.FSService.GetRootNode | src/services/base/fsService.ts:121-124 | sends `getRoot`; `nodes` becomes one fresh root node; `showHidden` is unchanged |
| FileTree.FSService.CreateNode | src/services/base/fsService.ts:103-119 | sends `create` with id `join(parent.path, name)` and `{name, isDir}`; once acknowledged, lists the parent and replaces its children by fresh nodes, one per entry of the listing, in order, each with this parent; otherwise the children stay as they were; `showHidden` is unchanged |
| FileTree.FSService.RenameNode | src/services/base/fsService.ts:108-119 | sends `rename`; once acknowledged, throws iff the node has no parent, and otherwise lists the parent and replaces its children by fresh nodes, one per entry, in order, each with this parent; unacknowledged, the children stay as they were; `showHidden` is unchanged |
| OscPayloads.CwdFromFileUrlSpec | src/xterm/shellIntegrationAddon.ts:178-190 | the text before the first `;` gives a directory iff it matches `^file://.*/`, and then the directory is the suffix from the first `/` at index 7 or later |
| OscPayloads.FileUrlRoundTrip | src/xterm/shellIntegrationAddon.ts:178-190 | `file://host/dir` followed by any `;`-fields gives back `/dir` |
| OscPayloads.SetCwdAcceptsFileUrl | src/xterm/__tests__/shenllIntegrationAddon.test.ts:106-114 | `file:///home/user/projects` gives `/home/user/projects` |
| OscPayloads.SetCwdRejectsOtherScheme | src/xterm/__tests__/shenllIntegrationAddon.test.ts:116-124 | `invalid://path` gives nothing |
| OscPayloads.ParseITerm | src/xterm/shellIntegrationAddon.ts:266-288 | a key without `=` other than `SetMark` is a bare key; `CurrentDir=v` gives the text between the first and second `=` |
| OscPayloads.CurrentDirRoundTrip | src/xterm/shellIntegrationAddon.ts:277-281 | `CurrentDir=dir` followed by `;`-fields or by a second `=` gives back `dir` |
| OscPayloads.SplitVscode | src/xterm/shellIntegrationAddon/index.ts:343-345 | the command is the text before the first `;`, and the params, present iff there is a `;`, are the rest |
| OscPayloads.VscodeRoundTrip | src/xterm/shellIntegrationAddon/index.ts:343-345 | joining a command and params with `;` and splitting gives them back |
| OscPayloads.VscPropertyCwd | src/xterm/shellIntegrationAddon/index.ts:365-379 | a cwd comes only from params `Cwd=v` |
| OscPayloads.VscPropertyCwdSpec | src/xterm/shellIntegrationAddon/index.ts:365-379 | `Cwd=v` gives `v`; any other key, a missing `=` and missing params give nothing |
| ShellIntegration.KindOf | src/xterm/shellIntegrationAddon.ts:200-256 | only `A`, `B`, `C` and `D` are FinalTerm commands |
| ShellIntegration.FinalTermStep | src/xterm/shellIntegrationAddon.ts:193-258 | a known command appends one open zone at the cursor line and closes at most the current zone; an unknown command changes nothing; zones stay chained |
| ShellIntegration.MarksOnlyAppend | src/xterm/shellIntegrationAddon.ts:212-299 | any run of FinalTerm marks only appends zones and never changes an earlier zone's kind or start |
| ShellIntegration.FindZoneByLine | src/xterm/shellIntegrationAddon.ts:167-172 | the first zone in push order covering the line, or nothing iff none covers it |
| ShellIntegration.ShellIntegrationAddon.constructor | src/xterm/shellIntegrationAddon.ts:103-110 | no cwd, not activated, no zones |
| ShellIntegration.ShellIntegrationAddon.Activate | src/xterm/shellIntegrationAddon.ts:112-134 | registers handlers for Ps 133, 1337 and 7 |
| ShellIntegration.ShellIntegrationAddon.HandleSetCwd | src/xterm/shellIntegrationAddon.ts:174-191 | true iff activated and the payload is a `file://` URL; then `cwd` is its directory, otherwise unchanged |
| ShellIntegration.ShellIntegrationAddon.HandleFinalTermSequence | src/xterm/shellIntegrationAddon.ts:193-259 | true iff activated and the command is `A`-`D`; the zones follow `FinalTermZones` and stay chained |
| ShellIntegration.ShellIntegrationAddon.HandleITermSequence | src/xterm/shellIntegrationAddon.ts:261-291 | true iff activated and the key is `SetMark`, bare or `CurrentDir`; `CurrentDir` sets `cwd` |
| ShellIntegration.ShellIntegrationAddon.GetZoneAt | src/xterm/shellIntegrationAddon.ts:293-295 | the first zone covering the line, or nothing iff none does |
| ShellIntegration.ShellIntegrationAddon.Dispose | src/xterm/shellIntegrationAddon.ts:301-304 | every registered handler is disposed |
| CwdShellIntegration.ShellIntegrationAddon.constructor | src/xterm/shellIntegrationAddon/index.ts:245-250 | no cwd, not activated |
| CwdShellIntegration.ShellIntegrationAddon.Activate | src/xterm/shellIntegrationAddon/index.ts:252-276 | registers handlers for Ps 133, 1337 and 7 only |
| CwdShellIntegration.ShellIntegrationAddon.HandleSetCwd | src/xterm/shellIntegrationAddon/index.ts:278-295 | true iff activated and the payload is a `file://` URL; then `cwd` is its directory |
| CwdShellIntegration.ShellIntegrationAddon.HandleFinalTermSequence | src/xterm/shellIntegrationAddon/index.ts:297-308 | always false, no state change |
| CwdShellIntegration.ShellIntegrationAddon.HandleITermSequence | src/xterm/shellIntegrationAddon/index.ts:310-336 | true iff activated and the key is bare or `CurrentDir` (`SetMark` gives false); `CurrentDir` sets `cwd` |
| CwdShellIntegration.ShellIntegrationAddon.HandleVscodeSequence | src/xterm/shellIntegrationAddon/index.ts:338-363 | true iff activated and the command is `P`; a `Cwd` property sets `cwd` |
| CwdShellIntegration.ShellIntegrationAddon.HandleVscProperty | src/xterm/shellIntegrationAddon/index.ts:365-379 | sets `cwd` only for `Cwd=v` |
| CwdShellIntegration.ShellIntegrationAddon.Dispose | src/xterm/shellIntegrationAddon/index.ts:381-383 | every registered handler is disposed |
| SemanticZones.StringLessIrreflexive | src/xterm/shellIntegrationAddon/semanticZone.ts:29 | no string is less than itself |
| SemanticZones.MarkerComparisonAlwaysHolds | src/xterm/shellIntegrationAddon/semanticZone.ts:29 | `end <= start` on two marker objects holds for all markers |
| SemanticZones.SemanticZoneService.constructor | src/xterm/shellIntegrationAddon/semanticZone.ts:12-14 | no cwd, start or output start |
| SemanticZones.SemanticZoneService.OpenSemanticZone | src/xterm/shellIntegrationAddon/semanticZone.ts:16-18 | sets only the start |
| SemanticZones.SemanticZoneService.SetCwd | src/xterm/shellIntegrationAddon/semanticZone.ts:20-22 | sets only the cwd |
| SemanticZones.SemanticZoneService.SetOutputStart | src/xterm/shellIntegrationAddon/semanticZone.ts:24-26 | sets only the output start |
| SemanticZones.SemanticZoneService.Reset | src/xterm/shellIntegrationAddon/semanticZone.ts:39-43 | clears all three fields |
| SemanticZones.SemanticZoneService.CloseSemanticZoneAsWritten | src/xterm/shellIntegrationAddon/semanticZone.ts:28-37 | as written, every close returns nothing and resets |
| SemanticZones.SemanticZoneService.CloseSemanticZone | src/xterm/shellIntegrationAddon/semanticZone.ts:28-37 | a zone is returned iff a start is open and lies before the end; it keeps cwd and output start and clears only the start; otherwise everything resets |

## Left out

- The WebSocket transport, `JSON.parse`/`JSON.stringify` and DOM events. The socket is an abstract state with a log of sent frames. Its open, error, close and closing events, and the outcome of fetching a new URL, are methods the environment calls.
- The request-timeout `setTimeout` (src/service/websocketBase/websocketManager.ts:230, src/services/base/webSocketManager.ts:184). The table's own expiry is modelled by `Routing.Router.Elapse`.
- Concurrency beyond the modelled suspension points. Each await is an event the environment delivers; `Promise.all` across sessions, and listing a session while it uploads, are not modelled.
- The 100 ms and 500 ms upload waits: they only delay, so `entries` is fixed for a run. The server's answers, the user's duplicate policy and the moment of a cancel are parameters of a run. A cancel is seen at the status checks, and one pressed before the session becomes `uploading` is overwritten by `setStatus('uploading')`.
- Uploads.Stream: the raw chunk write is always delivered in the model. The source writes with a bare `ws.send(value)` (src/service/websocketBase/uploadService.ts:283, src/services/base/uploadService.ts:273). That call throws `InvalidStateError` while the socket is connecting, so the run rejects and the session becomes `error`. Once the socket is closing or closed, it discards the bytes silently. The socket's state is not part of the upload model.
- Uploading.UploadService.SendChunk: the same; the raw write is modelled as delivered whatever the socket's state.
- Uploads.Check: the user's cancel takes effect at the status checks only. A cancel pressed after a run's last check leaves the source's status `cancelled` in the older generation, which never sets `completed`. The model's status stays `uploading` there.
- Strings are sequences of Unicode scalar values, and JavaScript's are UTF-16 code units. Lengths, slices and comparisons agree for text within the Basic Multilingual Plane only.
- SHA-256 is an uninterpreted `digest` parameter. `pathe.join` is an uninterpreted `join` parameter.
- Browser file APIs (`File.stream`, `readEntries` batching, handle iterators, `file()`/`getFile()` rejections) become a finite tree and each file's sequence of chunks.
- `dialogUpload`, the pickers, the hidden `<input>` elements and the confirmation dialogs are UI. The dialog's answer is an input.
- The triple-click handler and mouse-down listener (src/xterm/shellIntegrationAddon.ts:136-165), which use float row-height arithmetic.
- xterm's marker objects: `registerMarker` is modelled by the cursor line it records, and the cursor line is a parameter.
- `nodeFactory` is the `FSTreeNode` constructor.
- Console warnings and error logging.
- Shell/PTY services, heartbeats, registries, resource classes, Vue adapters and the API client are outside this model.

## Findings

| source | as written | input that shows it | evidently intended | confidence | as-written member | corrected member |
|---|---|---|---|---|---|---|
| src/xterm/shellIntegrationAddon/semanticZone.ts:29 | `end <= this._start` compares two marker objects; both convert to the string `[object Object]`, so the test always holds | open a zone at a marker on line 1, close it at a marker on line 5: `closeSemanticZone` returns `undefined` and resets the state | compare the lines, `end.line <= start.line`, so a close after the start returns the zone | not executed | SemanticZones.SemanticZoneService.CloseSemanticZoneAsWritten | SemanticZones.SemanticZoneService.CloseSemanticZone |
