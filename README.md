# McIntosh DAP: offline cache worker and launch coordinator

This project models the two pieces of the McIntosh DAP audio player that hold
the player's logic outside its UI, and proves properties of those models in Dafny.

- **The offline cache worker** (`sw.js`) is the web player's service worker.
  - On *install* it opens the cache generation `McIntosh-DAP` and stores a fixed
    manifest of 23 static assets with one all-or-nothing `addAll`. Only when
    that succeeds does it call `skipWaiting`.
  - On *activate* it deletes every other cache generation, then claims its clients.
  - On *fetch* it does nothing for blob URLs and for URLs containing
    `audio-upload`. Every other request is answered cache first: a stored entry
    from any cache wins. On a miss it goes to the network, stores a status-200
    `basic` response in `McIntosh-DAP` and returns that response. A network error
    resolves with no response at all.
- **The launch coordinator** (`main.js`) is the desktop shell's main process.
  - It takes the file paths from its command line (minus `--` flags).
  - It holds them in a pending list until the window exists and the page has
    loaded.
  - It forwards files opened through the operating system or through a second
    launch.
  - It maps the three media keys and the three taskbar buttons to the commands
    `play-pause`, `next` and `prev`.

Dafny modules:

| module | what it holds |
|---|---|
| `Wrappers` | `Option` |
| `Strings` | `startsWith` and `includes` on `seq<char>` |
| `CacheStorage` | The browser's cache storage as a value: `Storage` holds the creation-ordered name list and the name-to-entries map. It has `caches.open`, `caches.delete`, `caches.match`, `cache.put` and `cache.addAll`, following sections 5.4 and 5.5 of the W3C Service Workers specification. |
| `Manifest` | the install manifest literal and its shape |
| `ServiceWorker` | The step functions `InstallStep`, `Pruned` and `FetchStep`. The `Worker` class has the cache storage and the lifecycle flags as fields. Its methods `Install`, `Activate` and `HandleFetch` are proved equal to the step functions. |
| `ServiceWorkerProperties` | what the three handlers guarantee |
| `Launch` | The coordinator state (`LaunchState`), the argv filter, the handler step functions and the event dispatch. The `Coordinator` class has the module's variables as fields and one method per handler. Each method is proved equal to its step function. |
| `LaunchProperties` | what the coordinator guarantees, and the pending-list finding |

Each class method is specified by an `ensures` that ties the new state to a
pure step function of the old state. These are the `Store() == …` and
`State() == …` clauses. The properties are then proved as lemmas over the step
functions.

Things the model makes explicit:

- `caches.match` searches every cache of the origin in creation order, not only
  `McIntosh-DAP`. So a leftover generation still answers requests until
  activation has deleted it.
- `caches.open(CACHE_NAME)` creates the cache even when the `addAll` or `put`
  that follows is refused.

## Model

| member | source | states |
|---|---|---|
| Strings.Includes | sw.js:81 | `url.includes(t)` holds exactly when `t` occurs in `url` at some index. |
| CacheStorage.Open | sw.js:40 | `caches.open` keeps storage valid and adds the named cache, empty, if it was absent. Existing caches are unchanged. |
| CacheStorage.Put | sw.js:108 | `cache.put` stores the response under the request URL exactly when the request is an http(s) `GET` and the status is not 206. No other cache or entry changes. |
| CacheStorage.FirstMatch | sw.js:86 | The result is the entry of the first cache, in creation order, holding the URL. It is `None` exactly when no cache holds the URL. |
| CacheStorage.Match | sw.js:86 | `caches.match` finds a response exactly when the request is a `GET` and some cache holds its URL. The response is that cache's stored entry. |
| CacheStorage.Without | sw.js:66 | The name list after a delete has exactly the other names and stays duplicate-free. It is unchanged when the name is absent. |
| CacheStorage.WithoutOnce | sw.js:66 | Deleting a name that occurs once keeps the other names in their creation order. That order is the one `caches.match` searches. |
| CacheStorage.Deleted | sw.js:66 | `caches.delete` keeps storage valid and removes exactly the named cache. The remaining caches keep their contents. |
| CacheStorage.AddedAll | sw.js:43 | The accepted `addAll` batch stores each fetched response under its URL and keeps every other entry. |
| CacheStorage.KeepOnly | sw.js:62-67 | The names surviving activation are exactly the occurrences of CACHE_NAME: at most one, duplicate-free. |
| Manifest.ManifestShape | sw.js:5-33 | The manifest has 23 entries, all distinct. |
| Manifest.ManifestPathsRooted | sw.js:5-33 | Every manifest entry starts with "/". |
| ServiceWorker.ManifestUrls | sw.js:43 | The URLs `addAll` fetches are the origin followed by each manifest path, in manifest order. They are distinct, so `addAll` never refuses the batch as a repeat. They are http(s) URLs whenever the origin is. |
| ServiceWorkerProperties.InstallStoresManifest | sw.js:36-53 | `skipWaiting` is called exactly when `addAll` accepts the whole manifest. Every manifest URL then holds its fetched response. The other caches, and the entries CACHE_NAME already held outside the manifest, are unchanged. |
| ServiceWorkerProperties.InstallSucceedsOnGoodFetches | sw.js:40-47 | From an http(s) origin, install reaches `skipWaiting` when every manifest fetch produced an ok status other than 206. |
| ServiceWorkerProperties.InstallAllOrNothing | sw.js:43-51 | One failed or non-ok fetch means no `skipWaiting` and nothing of the batch stored. CACHE_NAME is left as before, or empty when it was just created. |
| ServiceWorkerProperties.ActivateKeepsOnlyCurrent | sw.js:56-75 | After activation only CACHE_NAME can remain, with its contents, and it remains exactly when it existed. |
| ServiceWorkerProperties.ActivateIdempotent | sw.js:56-75 | A second activation changes nothing. |
| ServiceWorkerProperties.MatchAfterActivate | sw.js:86 | After activation, `caches.match` answers from CACHE_NAME alone. |
| ServiceWorkerProperties.BypassedRequestsUntouched | sw.js:80-83 | The handler stays out of the way exactly for blob URLs and URLs containing `audio-upload`, whatever the storage and the network hold. Such a request leaves the storage alone. |
| ServiceWorkerProperties.CacheHitServesStored | sw.js:86-92 | A hit returns the stored entry. The network is not consulted and the storage is unchanged. |
| ServiceWorkerProperties.InvalidResponseNotCached | sw.js:99-101 | A miss with a non-200 or non-`basic` response returns that response and stores nothing. |
| ServiceWorkerProperties.NetworkErrorNoResponse | sw.js:113-116 | A miss with a network error resolves with no response and stores nothing. |
| ServiceWorkerProperties.ValidResponseCached | sw.js:103-111 | A miss with a status-200 `basic` response to an http(s) `GET` returns it. That same response is stored under the URL in CACHE_NAME, and no other entry changes. |
| ServiceWorkerProperties.RefusedPutStoresNothing | sw.js:106-111 | When `cache.put` refuses the request, the page still gets the response. The only change to storage is the opened CACHE_NAME. |
| ServiceWorkerProperties.StoredResponseServedNext | sw.js:86-111 | Cache first: once a response has been stored, the same request is answered from the cache with that response, whatever the network does. |
| ServiceWorkerProperties.FetchWritesOnlyCacheable | sw.js:78-119 | A fetch writes at most one new entry: the request's own URL in CACHE_NAME, holding the status-200 `basic` response it returned. It never writes for a bypassed URL. |
| ServiceWorker.IsBypassed | sw.js:80-81 | No contract of its own. It is specified by BypassedRequestsUntouched and FetchWritesOnlyCacheable. |
| ServiceWorker.IsCacheable | sw.js:99 | No contract of its own. It is specified by InvalidResponseNotCached, ValidResponseCached and FetchWritesOnlyCacheable. |
| ServiceWorker.InstallStep | sw.js:36-53 | No contract of its own. It is specified by InstallStoresManifest, InstallAllOrNothing and InstallSucceedsOnGoodFetches, and performed by Worker.Install. |
| ServiceWorker.Pruned | sw.js:56-75 | No contract of its own. It is specified by ActivateKeepsOnlyCurrent, ActivateIdempotent and MatchAfterActivate, and performed by Worker.Activate. |
| ServiceWorker.DeleteStale | sw.js:60-69 | No contract of its own. It is the state after the activate loop has visited a prefix of the names. DeleteStaleIsPruned proves that visiting all of them gives Pruned. |
| ServiceWorker.DeleteStaleIsPruned | sw.js:60-69 | Deleting every name other than CACHE_NAME, one at a time in name order, leaves exactly Pruned of the starting storage. |
| ServiceWorker.FetchStep | sw.js:78-119 | No contract of its own. It is specified by BypassedRequestsUntouched, CacheHitServesStored, InvalidResponseNotCached, NetworkErrorNoResponse, ValidResponseCached, RefusedPutStoresNothing, StoredResponseServedNext and FetchWritesOnlyCacheable, and performed by Worker.HandleFetch. |
| ServiceWorker.Worker.constructor | sw.js:1-33 | The worker starts over a valid storage with no lifecycle call made. |
| ServiceWorker.Worker.OpenCache | sw.js:40 | The worker's storage becomes `Open` of the old storage. |
| ServiceWorker.Worker.DeleteCache | sw.js:66 | Returns whether the cache existed. The storage becomes `Deleted` of the old storage. |
| ServiceWorker.Worker.Install | sw.js:36-53 | The storage and the `skipWaiting` flag are those of `InstallStep`. |
| ServiceWorker.Worker.DeleteIfStale | sw.js:64-67 | One loop step deletes the named cache unless it is CACHE_NAME. |
| ServiceWorker.Worker.DeleteOldGenerations | sw.js:60-69 | The loop over `caches.keys()` leaves the storage equal to `DeleteStale` of the old storage over the old name list. |
| ServiceWorker.Worker.Activate | sw.js:56-75 | Activation leaves the storage equal to `Pruned` of the old storage, then claims the clients. |
| ServiceWorker.Worker.HandleFetch | sw.js:78-119 | The outcome and the new storage are those of `FetchStep`. |
| Launch.KeepFiles | main.js:16 | The filter keeps, in order, every argument not starting with `--` and drops every argument that does. |
| LaunchProperties.KeepFilesUnique | main.js:16 | `KeepFiles` is the only in-order selection with that property. |
| LaunchProperties.FileArgsDropsFlags | main.js:16 | A path is a file argument exactly when it is not a flag and occurs after the first two arguments. |
| LaunchProperties.ShortCommandLineNamesNoFile | main.js:16 | A command line of at most two arguments names no file. |
| LaunchProperties.StartupPendsFileArgs | main.js:4-5 | At start there is no window, nothing has been sent, and the pending list is the command line's file arguments. |
| LaunchProperties.SendFilesRoutes | main.js:7-13 | With a window a batch becomes exactly one `open-files` message and the pending list is untouched. Without one nothing is sent and the batch becomes the pending list. |
| LaunchProperties.DidFinishLoadDelivers | main.js:48-53 | Page load sends the whole pending list as one batch and empties it. A reload sends nothing. |
| LaunchProperties.SecondInstanceWithoutFiles | main.js:26-30 | A relaunch without files sends no file message and leaves the pending list. It only restores the window (if minimized) and focuses it. |
| LaunchProperties.SecondInstanceWithWindow | main.js:26-30 | With a window, a relaunch's files are sent before the restore and the focus. |
| LaunchProperties.OpenFileBeforeLoadIsSentDirectly | main.js:20-23 | A file opened after the window exists but before the page loads is sent at once. The command-line files follow on load. |
| LaunchProperties.ThumbarNeedsWindow | main.js:78-79 | Without a window `setThumbar` changes nothing. |
| LaunchProperties.ThumbarLayout | main.js:80-96 | There are three buttons: "Précédent", play/pause and "Suivant", sending prev, play-pause and next. Only the middle one depends on the flag. It shows "Pause" with the pause icon when playing, and "Play" with the play icon otherwise. |
| LaunchProperties.ControlNamesDistinct | main.js:65-75 | The three command names sent on `media-control` are distinct. |
| LaunchProperties.EachControlHasOneKey | main.js:65-75 | Each command is bound to exactly one media key. |
| LaunchProperties.ButtonFor | main.js:80-96 | For each media key, there is a taskbar button that sends the same command. |
| LaunchProperties.ButtonsAgreeWithKeys | main.js:65-96 | Clicking a taskbar button sends the page the same message as pressing the matching media key. |
| LaunchProperties.StartupConsistent | main.js:4-17 | At start nothing has been sent and no taskbar button exists. |
| LaunchProperties.HandleKeepsConsistent | main.js:7-97 | No handler sends anything or installs buttons before the window exists, and no handler takes the window away. |
| LaunchProperties.PendingStaysEmpty | main.js:48-53 | Once the page has taken the pending list, no later handler fills it again. |
| LaunchProperties.OpenEachKeepsLast | main.js:11 | As written, of several files opened before the window only the last stays pending. |
| LaunchProperties.OpenEachQueuedKeepsAll | main.js:11 | With queueing, every file opened before the window is kept, in arrival order. |
| LaunchProperties.OpenEachWithWindow | main.js:7-9 | Once the window exists, each opened file is sent at once, with or without queueing. |
| LaunchProperties.EarlierFileIsLost | main.js:11 | Concrete run: "/a.mp3" and "/b.mp3" are opened before the window, then "/c.mp3" after load. Only "/b.mp3" and "/c.mp3" reach the page. |
| LaunchProperties.QueuedFilesAllDelivered | main.js:11 | The same run with queueing delivers "/a.mp3" and "/b.mp3" as one batch, then "/c.mp3". |
| Launch.FileArgs | main.js:16 | No contract of its own. It is specified through KeepFiles, KeepFilesUnique, FileArgsDropsFlags and ShortCommandLineNamesNoFile. The same filter is used at main.js:27. |
| Launch.Startup | main.js:4-5 | No contract of its own. It is specified by StartupPendsFileArgs and StartupConsistent (main.js:16-17). |
| Launch.SendFiles | main.js:7-13 | No contract of its own. It is specified by SendFilesRoutes, OpenEachKeepsLast and OpenEachWithWindow. |
| Launch.OpenFile | main.js:20-23 | No contract of its own. It is specified by OpenFileBeforeLoadIsSentDirectly, OpenEachKeepsLast and EarlierFileIsLost. |
| Launch.SecondInstance | main.js:26-30 | No contract of its own. It is specified by SecondInstanceWithoutFiles and SecondInstanceWithWindow. |
| Launch.WindowCreated | main.js:35-36 | No contract of its own. It is specified by HandleKeepsConsistent and OpenFileBeforeLoadIsSentDirectly. |
| Launch.DidFinishLoad | main.js:48-53 | No contract of its own. It is specified by DidFinishLoadDelivers and PendingStaysEmpty. |
| Launch.SetThumbar | main.js:78-97 | No contract of its own. It is specified by ThumbarNeedsWindow, ThumbarLayout and ButtonsAgreeWithKeys. |
| Launch.ThumbarButtons | main.js:80-96 | No contract of its own. It is specified by ThumbarLayout and ButtonFor. |
| Launch.KeyControl | main.js:65-75 | No contract of its own. It is specified by EachControlHasOneKey, ControlNamesDistinct and ButtonFor. |
| Launch.MediaKeyPressed | main.js:65-75 | No contract of its own. It is specified by ButtonsAgreeWithKeys and HandleKeepsConsistent. |
| Launch.ThumbarClicked | main.js:84-94 | No contract of its own. It is specified by ButtonsAgreeWithKeys and HandleKeepsConsistent. |
| Launch.SendFilesQueued | main.js:7-13 | No contract of its own. It is the corrected hand-off, which appends before the window exists. It is specified by OpenEachQueuedKeepsAll, OpenEachWithWindow and QueuedFilesAllDelivered. |
| Launch.Handle | main.js:20-97 | No contract of its own. It dispatches each event to its handler step. It is specified by HandleKeepsConsistent and PendingStaysEmpty. |
| Launch.Coordinator.constructor | main.js:4-17 | The coordinator starts in the state `Startup(argv)`. |
| Launch.Coordinator.SendFilesToRenderer | main.js:7-13 | The new state is `SendFiles` of the old state. |
| Launch.Coordinator.OnOpenFile | main.js:20-23 | The new state is `OpenFile` of the old state. |
| Launch.Coordinator.OnSecondInstance | main.js:26-30 | The new state is `SecondInstance` of the old state. |
| Launch.Coordinator.CreateWindow | main.js:35-36 | The new state is `WindowCreated` of the old state. |
| Launch.Coordinator.OnDidFinishLoad | main.js:48-53 | The new state is `DidFinishLoad` of the old state. |
| Launch.Coordinator.SetThumbarButtons | main.js:78-97 | The new state is `SetThumbar` of the old state. |
| Launch.Coordinator.OnMediaKey | main.js:65-75 | The new state is `MediaKeyPressed` of the old state. |
| Launch.Coordinator.OnThumbarClick | main.js:84-94 | The new state is `ThumbarClicked` of the old state. |

## Left out

- Asynchrony is not modelled. Each handler is one atomic step, including the un-awaited `cache.put` in the fetch handler (sw.js:106-109). A put that is still in flight when the next request arrives is not modelled.
- The service worker lifecycle is not modelled. That covers the installing/waiting/active states, when `skipWaiting` and `clients.claim` take effect, and the browser serialising activations. Only the calls the handlers make are recorded, as flags.
- Request matching is by URL string only. URL normalisation, fragments, `Vary` headers, `HEAD` requests and match options are not modelled.
- Response bodies are plain byte sequences. Streams, and `clone()` failing on a body that was already read, are not modelled. The stored copy equals the returned response.
- Console logging in both files is left out, because it has no effect on state.
- ServiceWorker.InstallStep: `fetched` stands for the network's answers to the 23 manifest requests. The network itself is a parameter, as is the fetch handler's `network` argument.
- The single-instance lock and the quit of a second instance (main.js:32-33) are not modelled: the model is of the primary instance. The `will-quit` and `window-all-closed` handlers (main.js:101-107) are also left out, because they only tear the application down.
- `BrowserWindow` options, `loadFile`, and `path.join(__dirname, …)` are left out. Icons are kept as paths relative to the application directory.
- `win.webContents` is taken to exist whenever `win` does. `isMinimized()` is a parameter of the second-instance step.
- Launch.SetThumbar: the `update-thumbar` argument is a boolean. JavaScript truthiness of other values is not modelled.
- Event ordering is governed by Electron. The model requires only that the window is created once, and that page loads, key presses and button clicks happen once it exists (`Launch.Enabled`).

## Findings

| source | as written | input that shows it | evidently intended | confidence | as-written member | corrected member |
|---|---|---|---|---|---|---|
| main.js:11 | Before the window exists, `sendFilesToRenderer` replaces `pendingFiles` with the new paths. An `open-file` arriving before the window therefore discards the command-line files and every earlier `open-file`. | Two files are opened: `open-file("/a.mp3")`, then `open-file("/b.mp3")`, both before the window. Then the window is created and the page loads. Only `["/b.mp3"]` is delivered. | Append to the pending list, preserving arrival order. The comment at main.js:5 describes the list as the files received before the window was ready. | not executed; high | LaunchProperties.EarlierFileIsLost | LaunchProperties.OpenEachQueuedKeepsAll |

The as-written half is `Launch.SendFiles` together with `LaunchProperties.OpenEachKeepsLast`. The corrected half is `Launch.SendFilesQueued` together with `LaunchProperties.OpenEachQueuedKeepsAll` and `LaunchProperties.QueuedFilesAllDelivered`. `Launch.Coordinator` and `Launch.Handle` keep the behaviour of the code as written. The corrected step is stated and proved beside them.
