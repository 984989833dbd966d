# GGTorrents core in Dafny

GGTorrents is an Electron desktop client for the WebTorrent engine. This project
models its core:

- the main process's `TorrentApp`: the settings store, the IPC command handlers,
  the `getTorrentInfo` projection and the guarded broadcast;
- the statistics the renderer computes over the pushed torrent list;
- the small decision rules of the React components: selection reconciliation,
  add routing, form updates, the encoding of bandwidth limits, file-toggle
  priorities, row classification and the magnet input guard.

Modules follow the source files:

| module | file |
|---|---|
| `Types` | `src/renderer/types.ts`: the records, plus `Partial<Settings>` and object spread |
| `JsText` | the JavaScript built-ins the components use: `trim`, `parseInt`, `String(n)` |
| `Engine` | the WebTorrent client, seen as an ordered sequence of handles |
| `MainProcess` | `src/main/main.ts` |
| `StatsPanel` | `src/renderer/components/StatsPanel.tsx` |
| `AppComponent` | `src/renderer/App.tsx` |
| `SettingsDialog` | `src/renderer/components/SettingsDialog.tsx` |
| `TorrentDetails` | `src/renderer/components/TorrentDetails.tsx` |
| `TorrentList` | `src/renderer/components/TorrentList.tsx` |
| `AddTorrentDialog` | `src/renderer/components/AddTorrentDialog.tsx` |
| `SystemProperties` | properties that span the main process and the renderer |

How the model represents the outside world:

- The WebTorrent client is a `seq<EngineTorrent>` in client order. Each handle
  carries the counters the projection copies, and each file carries a `selected`
  flag.
- The filesystem has two parts. The settings file is absent, unreadable, or a
  stored object holding some settings keys. Separately, there is a set of paths
  that exist.
- The caller supplies several values as parameters:
  - the engine's answer to an add (a handle it lists at once, or a throw) and, later, the handle its ready callback passes;
  - the result of a native dialog;
  - how a settings write ends: it completes, it throws before the file is opened, or it throws after truncating the file;
  - the state of the main window.
- An IPC call seen from the renderer is represented by its settlement.
- `TorrentApp`, the `App` component's state cells and the add dialog's input
  cell are classes. Their methods state their whole new state.
- Shell calls, engine add requests and torrents removed with `destroyStore` are
  recorded in sequences, so contracts can state what was requested.
- Numbers that the code only copies or displays (speeds, progress, ratio,
  time remaining) are `real`.
- Byte counts and peer counts are `nat`.
- Settings numbers are `int`, because `-1` means unlimited.

`loadSettings` creates the download directory only when it falls back to the
defaults. A directory named in a stored file is not created until the next
`update-settings`. `MainProcess.LoadSettings` and
`MainProcess.TorrentApp.UpdateSettings` state both halves.

The engine keeps one handle per infoHash. `MainProcess.TorrentApp.Valid` holds
this as `UniqueHashes`, so after a successful `remove-torrent` the infoHash can no
longer be found.

Besides checking each handler against its specification, the model proves the
following:

- An unfinished torrent's file click always sends priority 0, because the
  details pane shows every file of an unfinished torrent as selected.
- That click then changes nothing the renderer can see, because the projection
  does not carry the selection flag. See
  `SystemProperties.UnfinishedClickIsInvisible` and
  `TorrentDetails.UnfinishedClicksOnlyDeselect`.

## Model

| member | source | states |
|---|---|---|
| Types.Get | src/renderer/types.ts:28-37 | property access on a settings object yields a value of that key's JSON kind |
| Types.SettingsExtensional | src/renderer/types.ts:28-37 | a settings object is determined by its eight keys |
| Types.AllFieldsCovered | src/renderer/types.ts:28-37 | the eight keys are every key of a settings object |
| Types.Full | src/main/main.ts:71-77 | the object viewed as a partial holds every key with the object's value, well typed |
| Types.Merge | src/main/main.ts:57 | `{ ...s, ...p }`: each key present in `p` takes `p`'s value, every other key keeps `s`'s |
| Types.MergeIdempotent | src/main/main.ts:211 | applying the same partial twice equals applying it once |
| Types.MergeFull | src/renderer/components/SettingsDialog.tsx:14-17 | spreading a complete object over any settings gives exactly that object |
| Types.MergeEmpty | src/main/main.ts:211 | spreading an empty partial changes nothing |
| Types.MergeCompose | src/main/main.ts:211 | two successive updates equal one update with their union, the later partial winning |
| JsText.TrimStart | src/renderer/components/AddTorrentDialog.tsx:14-15 | the result is a suffix of the input with only whitespace removed, and it starts with non-whitespace unless empty |
| JsText.TrimEnd | src/renderer/components/AddTorrentDialog.tsx:14-15 | the result is a prefix of the input with only whitespace removed, and it ends with non-whitespace unless empty |
| JsText.Trim | src/renderer/components/AddTorrentDialog.tsx:14-15 | the trimmed text has no whitespace at either end, and what was removed was whitespace |
| JsText.TrimSlice | src/renderer/components/AddTorrentDialog.tsx:15 | the trimmed text is a contiguous slice of the input |
| JsText.TrimEmptyIff | src/renderer/components/AddTorrentDialog.tsx:14 | trimming gives the empty string exactly when the input is all whitespace |
| JsText.TrimIdempotent | src/renderer/components/AddTorrentDialog.tsx:15 | trimming trimmed text changes nothing |
| JsText.DigitChar | src/renderer/components/SettingsDialog.tsx:99 | each digit 0-9 is rendered as the character with that digit value |
| JsText.DigitPrefix | src/renderer/components/SettingsDialog.tsx:101 | the longest run of leading decimal digits, followed by a non-digit or the end |
| JsText.ParseInt | src/renderer/components/SettingsDialog.tsx:101 | `parseInt` of blank text is NaN, and a number is read only from text that holds a digit |
| JsText.IntToString | src/renderer/components/SettingsDialog.tsx:99 | `String(x)` is non-empty, starts with `-` iff x is negative, and is digits otherwise |
| JsText.NatToString | src/renderer/components/SettingsDialog.tsx:99 | a number's rendering is a non-empty string of digits |
| JsText.NatToStringValue | src/renderer/components/SettingsDialog.tsx:99 | the rendered digits of `n` read back as `n` |
| JsText.DigitPrefixOfDigits | src/renderer/components/SettingsDialog.tsx:101 | on a string of digits, the digit prefix is the whole string |
| JsText.TrimStartNoop | src/renderer/components/SettingsDialog.tsx:101 | text that does not start with whitespace is not changed by the leading-whitespace skip `parseInt` performs |
| JsText.ParseIntOfDigits | src/renderer/components/SettingsDialog.tsx:101 | `parseInt` of a digit string is its decimal value |
| JsText.ParseIntOfNegative | src/renderer/components/SettingsDialog.tsx:101 | `parseInt` of `-` plus digits is the negated value |
| JsText.ParseIntToString | src/renderer/components/SettingsDialog.tsx:99-101 | `parseInt(String(x)) == x` for every integer |
| Engine.IndexOf | src/main/main.ts:195 | `client.get`: finds the first handle with the infoHash, or reports that none has it |
| Engine.RemoveAt | src/main/main.ts:197 | `client.remove`: drops exactly the i-th handle and keeps the order of the rest |
| Engine.WithFileSelected | src/main/main.ts:249-253 | `select`/`deselect` sets that file's flag and changes no other file and no other part of the handle |
| Engine.RemoveForgetsOnlyThatTorrent | src/main/main.ts:194-202 | with distinct infoHashes, after a removal that infoHash is gone, every other one is still found, and the hashes stay distinct |
| MainProcess.LoadSettings | src/main/main.ts:42-69 | a stored object overrides the defaults key by key and creates nothing; otherwise the defaults are returned (-1/-1 limits, port 6881, 55 connections, DHT and PEX on, autoStart off) and their directory then exists |
| MainProcess.LoadAfterSave | src/main/main.ts:42-77 | a start after a successful save loads exactly the saved settings |
| MainProcess.TorrentInfo | src/main/main.ts:283-308 | copies infoHash, name, magnetURI, downloaded, uploaded, both speeds, progress, ratio, numPeers, path, timeRemaining and done; sets size to length; reports paused false; keeps the files' length and order |
| MainProcess.FileInfo | src/main/main.ts:300-306 | the file record copies name, length as size, downloaded, progress and path |
| MainProcess.FileInfos | src/main/main.ts:300-306 | one record per file, in order |
| MainProcess.Snapshot | src/main/main.ts:190 | one record per handle, in engine order |
| MainProcess.InfoIgnoresSelection | src/main/main.ts:283-308 | selecting or deselecting a file leaves the projected record unchanged |
| MainProcess.Broadcast | src/main/main.ts:310-323 | without a live window nothing is sent; otherwise the torrent list is sent, then the counters |
| MainProcess.ChosenPath | src/main/main.ts:173 | a dialog answer yields its first path unless it was cancelled or empty |
| MainProcess.LocationCall | src/main/main.ts:261-275 | reveals the torrent's folder exactly when the torrent is known, has a name, and `downloadPath/name` exists; otherwise opens the download directory |
| MainProcess.TorrentApp.constructor | src/main/main.ts:31-37 | the settings are the loaded ones, the engine receives only maxConnections and enableDHT, and it starts empty |
| MainProcess.JoinPath | src/main/main.ts:44 | the joined path is the directory, a `/`, then the name |
| MainProcess.DefaultDownloadPath | src/main/main.ts:44 | the default download folder is `Downloads/GGTorrents` under the home directory |
| MainProcess.DefaultSettings | src/main/main.ts:43-52 | the defaults: that folder, -1 for both limits, port 6881, 55 connections, DHT and PEX on, autoStart off |
| MainProcess.TorrentApp.SetWindow | src/main/main.ts:116-118 | the window state becomes the given one |
| MainProcess.TorrentApp.SaveSettings | src/main/main.ts:71-77 | a completed write stores every key of the in-memory settings; a write that throws before opening leaves the old file; one that throws after truncating leaves a file that no longer parses; no failure raises |
| MainProcess.TorrentApp.SendTorrentUpdate | src/main/main.ts:310-323 | appends exactly the broadcast of the current list and counters |
| MainProcess.TorrentApp.Tick | src/main/main.ts:278-280 | one interval firing is one broadcast |
| MainProcess.TorrentApp.UpdateSettings | src/main/main.ts:210-220 | the settings become the merge of old settings and partial; the return value is the stored settings; a completed save writes them, one that fails before opening keeps the old file, one that fails after truncating leaves an unreadable file; the download directory exists afterwards |
| MainProcess.TorrentApp.RemoveTorrent | src/main/main.ts:194-202 | returns true iff the infoHash is known; then removes exactly that handle, records file deletion iff asked, and broadcasts; otherwise it changes nothing; afterwards the infoHash is not found, and handles stay one per infoHash |
| MainProcess.TorrentApp.SetFilePriority | src/main/main.ts:246-258 | returns true iff the torrent exists and the index names a file; then only that file's flag changes (off for 0, on otherwise) and a broadcast follows; otherwise it changes nothing |
| MainProcess.TorrentApp.AddTorrent | src/main/main.ts:153-164 | asks the engine to add into the current download path and records the request in order; a throw rejects and leaves the list; an accepted handle (new to the client) is listed at once while the promise stays pending; handles stay one per infoHash |
| MainProcess.TorrentApp.OnAddReady | src/main/main.ts:155-158 | the ready callback replaces the listed handle with that infoHash in place, resolves the pending promise with its projection and broadcasts; handles stay one per infoHash |
| MainProcess.TorrentApp.AddTorrentFile | src/main/main.ts:167-186 | resolves null without touching the engine on cancel or an empty selection; otherwise adds the first chosen path as `add-torrent` does: rejected on a throw, else listed at once and pending until the ready callback |
| MainProcess.TorrentApp.GetTorrents | src/main/main.ts:189-191 | one projected record per handle, in order |
| MainProcess.TorrentApp.GetSettings | src/main/main.ts:205-207 | the in-memory settings |
| MainProcess.TorrentApp.GetStats | src/main/main.ts:236-243 | the client-wide counters |
| MainProcess.TorrentApp.SelectDirectory | src/main/main.ts:223-233 | the first chosen directory, or null when cancelled or empty |
| MainProcess.TorrentApp.OpenFileLocation | src/main/main.ts:261-275 | always returns true and makes exactly the one shell call `LocationCall` describes |
| StatsPanel.OverallRatio | src/renderer/components/StatsPanel.tsx:106 | uploaded over downloaded when something was downloaded, zero otherwise, never negative |
| StatsPanel.TotalSize | src/renderer/components/StatsPanel.tsx:11 | the sum of the listed sizes: it adds over a split of the list (TotalsAppend), is zero iff every size is zero and is zero for an empty list (TotalsZeroIff) |
| StatsPanel.TotalDownloaded | src/renderer/components/StatsPanel.tsx:12 | the sum of the downloaded counts, with the same split and zero facts (TotalsAppend, TotalsZeroIff) |
| StatsPanel.TotalUploaded | src/renderer/components/StatsPanel.tsx:13 | the sum of the uploaded counts, with the same split and zero facts (TotalsAppend, TotalsZeroIff) |
| StatsPanel.TotalsAppend | src/renderer/components/StatsPanel.tsx:11-13 | the three sums add over a split of the list |
| StatsPanel.CountsAppend | src/renderer/components/StatsPanel.tsx:14-15 | the active and completed counts add over a split of the list |
| StatsPanel.ActiveCompletedPartition | src/renderer/components/StatsPanel.tsx:14-15 | active plus completed plus paused-unfinished is the list length, so active plus completed is at most the length, with equality when none is paused |
| StatsPanel.NoPausedNoPending | src/renderer/components/StatsPanel.tsx:14 | without paused torrents nothing is paused and unfinished |
| StatsPanel.ActiveTorrents | src/renderer/components/StatsPanel.tsx:14 | the active count is at most the list length |
| StatsPanel.CompletedTorrents | src/renderer/components/StatsPanel.tsx:15 | the completed count is at most the list length |
| StatsPanel.TotalsZeroIff | src/renderer/components/StatsPanel.tsx:11-13 | each of totalSize, totalDownloaded and totalUploaded is zero iff every torrent contributes zero to it, so all are zero for an empty list |
| StatsPanel.CountsExtremes | src/renderer/components/StatsPanel.tsx:14-15 | each count is zero iff no torrent qualifies, and the whole length iff every torrent does |
| AppComponent.FindByHash | src/renderer/App.tsx:43 | `find`: the first element with the infoHash, or none iff no element has it |
| AppComponent.Reconcile | src/renderer/App.tsx:41-49 | no selection stays none; a selection becomes the first updated element with its infoHash, or none iff no such element |
| AppComponent.ListenersAsWritten | src/renderer/App.tsx:32-53 | the selection after one push when every effect run has left a listener holding the selection it captured (src/main/preload.ts:26) |
| AppComponent.IdleListenersKeep | src/renderer/App.tsx:42 | listeners that captured no selection leave the selection alone |
| AppComponent.StaleListenerWins | src/renderer/App.tsx:42-48 | the last listener that captured a torrent decides the selection: it becomes that torrent's first listed entry, or none, whatever the current selection is |
| AppComponent.ClosedPaneReopens | src/renderer/App.tsx:179 | after selecting a torrent and closing its pane, the next push that lists it selects it again, while reconciling the current selection alone keeps the pane closed |
| AppComponent.RouteAdd | src/renderer/App.tsx:57-61 | exactly the string `file` goes to the file dialog; every other string goes to `addTorrent` unchanged |
| AppComponent.AppState.constructor | src/renderer/App.tsx:19-29 | the initial state cells: no torrents, zero stats, no settings, no selection, both dialogs closed |
| AppComponent.AppState.OnTorrentsUpdate | src/renderer/App.tsx:39-50 | the list becomes the pushed list and the selection is reconciled against it |
| AppComponent.AppState.OnStatsUpdate | src/renderer/App.tsx:36-52 | the stats become the pushed or initially fetched ones |
| AppComponent.AppState.OnTorrentsLoaded | src/renderer/App.tsx:34 | the initial fetch replaces the list and leaves the selection |
| AppComponent.AppState.OnSettingsLoaded | src/renderer/App.tsx:35 | the initial fetch stores the settings, after which the settings dialog shows exactly when its flag is set (App.tsx:198) |
| AppComponent.AppState.SettingsDialogShown | src/renderer/App.tsx:198 | the settings dialog is rendered exactly when its flag is set and the settings have loaded |
| AppComponent.AppState.SetSelected | src/renderer/App.tsx:172-179 | a row click or the close button sets the selection |
| AppComponent.AppState.SetShowAddDialog | src/renderer/App.tsx:114 | the add dialog flag becomes the given value |
| AppComponent.AppState.SetShowSettings | src/renderer/App.tsx:122 | the settings dialog flag becomes the given value |
| AppComponent.AppState.HandleAddTorrent | src/renderer/App.tsx:55-67 | routes the argument; the dialog closes iff the call settles normally; a throw raises "Failed to add torrent" and leaves the flag |
| AppComponent.AppState.HandleUpdateSettings | src/renderer/App.tsx:69-78 | passes the partial to `updateSettings`; a success stores the returned settings and closes the dialog; a throw raises "Failed to update settings" and leaves both |
| SettingsDialog.HandleChange | src/renderer/components/SettingsDialog.tsx:26-28 | the named field takes the value and every other field is unchanged |
| SettingsDialog.HandleSelectDirectory | src/renderer/components/SettingsDialog.tsx:19-24 | a null or empty answer leaves the form captured at the click; any other answer changes only its download path |
| SettingsDialog.SubmitPayload | src/renderer/components/SettingsDialog.tsx:14-17 | the payload holds the whole form: merged over any settings it yields the form |
| SettingsDialog.DisplayLimit | src/renderer/components/SettingsDialog.tsx:99 | a limit is displayed as the empty string iff it is -1 |
| SettingsDialog.ParseLimit | src/renderer/components/SettingsDialog.tsx:100-101 | empty text reads as -1; other text goes through `parseInt`, and a digit string reads as its value |
| SettingsDialog.LimitRoundTrip | src/renderer/components/SettingsDialog.tsx:99-101 | displaying a limit and reading the text back gives the same limit, for every integer |
| TorrentDetails.ToggledPriority | src/renderer/components/TorrentDetails.tsx:11-13 | the new priority is 1 iff the current one is 0, and 0 otherwise |
| TorrentDetails.IsSelected | src/renderer/components/TorrentDetails.tsx:73 | every file of an unfinished torrent is shown selected; a file of a done torrent iff its progress is positive |
| TorrentDetails.ShowsProgress | src/renderer/components/TorrentDetails.tsx:98 | progress is shown only below 1; for an unfinished torrent iff progress is below 1; for a done one iff it is strictly between 0 and 1 |
| TorrentDetails.ClickCall | src/renderer/components/TorrentDetails.tsx:78 | a click on a file shown as selected sends 0, on one shown unselected sends 1, with that file's index |
| TorrentDetails.FileRows | src/renderer/components/TorrentDetails.tsx:72-98 | one row per file, in order, with its index, selection, progress visibility and click |
| TorrentDetails.UnfinishedClicksOnlyDeselect | src/renderer/components/TorrentDetails.tsx:73-78 | every file of an unfinished torrent is shown as selected, so its click sends 0 |
| TorrentDetails.FinishedClicksFollowProgress | src/renderer/components/TorrentDetails.tsx:73-98 | for a done torrent a click sends 0 iff the file has progress, and progress is shown iff it is strictly between 0 and 1 |
| TorrentList.Status | src/renderer/components/TorrentList.tsx:72-78 | done shows the done icon; else paused shows the paused icon; else the downloading icon |
| TorrentList.ShowsEta | src/renderer/components/TorrentList.tsx:125-126 | the ETA is shown iff the row shows the downloading icon, and then the button is Pause |
| TorrentList.IsHighlighted | src/renderer/components/TorrentList.tsx:63 | nothing is highlighted without a selection; with one, a row iff it has the selection's infoHash |
| TorrentList.RowFor | src/renderer/components/TorrentList.tsx:58-103 | a row is keyed by infoHash, shows the ETA iff it shows the downloading icon, Resume iff paused, and a singular label iff one file |
| TorrentList.FileCountSuffix | src/renderer/components/TorrentList.tsx:82 | the label is singular iff there is exactly one file |
| TorrentList.Action | src/renderer/components/TorrentList.tsx:87-103 | Resume iff paused, otherwise Pause |
| TorrentList.HandleRemove | src/renderer/components/TorrentList.tsx:31-37 | `removeTorrent` is always called, with `deleteFiles` equal to the confirm answer |
| TorrentList.Render | src/renderer/components/TorrentList.tsx:44-66 | the empty state iff the list is empty; otherwise one row per torrent, in order |
| TorrentList.HighlightMatchesSelection | src/renderer/components/TorrentList.tsx:63 | a row is highlighted iff a torrent is selected and it has that infoHash |
| AddTorrentDialog.AddDialog.constructor | src/renderer/components/AddTorrentDialog.tsx:10 | the input starts empty |
| AddTorrentDialog.AddDialog.SubmitDisabled | src/renderer/components/AddTorrentDialog.tsx:55 | the submit button is disabled iff the input is all whitespace |
| AddTorrentDialog.AddDialog.OnChange | src/renderer/components/AddTorrentDialog.tsx:48 | the input cell becomes the typed text |
| AddTorrentDialog.AddDialog.HandleSubmit | src/renderer/components/AddTorrentDialog.tsx:12-18 | `onAdd` is called iff the input is not blank, with the trimmed text, and the input is then cleared; a blank input is left alone |
| AddTorrentDialog.AddDialog.HandleFileSelect | src/renderer/components/AddTorrentDialog.tsx:20-22 | the file button passes the sentinel `file` |
| AddTorrentDialog.SubmittedTextIsTrimmed | src/renderer/components/AddTorrentDialog.tsx:14-15 | what a submit passes on is non-empty and already trimmed |
| SystemProperties.SnapshotAppend | src/main/main.ts:312 | the projection of a concatenation is the concatenation of projections |
| SystemProperties.PushedTorrentsNeverPaused | src/main/main.ts:299 | no pushed record is paused, so no row shows the paused icon or a Resume button |
| SystemProperties.PushedCountsFillList | src/renderer/components/StatsPanel.tsx:14-15 | over a pushed list, active plus completed is the whole list |
| SystemProperties.AddRaisesTotals | src/renderer/components/StatsPanel.tsx:11-13 | adding a handle raises the three totals by exactly its length, downloaded and uploaded |
| SystemProperties.SelectionFollowsEngine | src/renderer/App.tsx:42-45 | while the engine still has the selected infoHash, the new selection is the projection of its first handle with that hash |
| SystemProperties.SelectionClearedWhenRemoved | src/renderer/App.tsx:46-47 | once the engine no longer has the selected infoHash, the selection is cleared |
| SystemProperties.UnfinishedClickIsInvisible | src/renderer/components/TorrentDetails.tsx:73-78 | a click on an unfinished torrent's file sends 0, and the record pushed afterwards is unchanged |
| SystemProperties.TypedFileOpensDialog | src/renderer/App.tsx:57 | any text that trims to `file` is not blank, so the add dialog submits it, and it opens the file dialog instead of reaching the engine |
| SystemProperties.ListInRequestOrder | src/main/main.ts:153-164 | from an empty engine, two adds are recorded and listed in request order even when the second becomes ready first |
| SystemProperties.RemoveFirstOfTwo | src/main/main.ts:193-202 | removing the first of two listed torrents, pending or ready, leaves the second, and a second removal returns false |
| SystemProperties.UpdateDownloadLimit | src/main/main.ts:210-220 | setting the download limit to 500 changes only that field; after a completed save a restart reads it back, after a truncating failure a restart loads the defaults (main.ts:51-68) |

## Left out

- Electron windows, the tray, the menu and the application lifecycle are not modelled (src/main/main.ts:79-149 and 365-384). The window only shows up as the `Window` value.
- Magnet protocol registration and the `open-url`/argv forwarding with `setTimeout` delays are not modelled. They are OS integration and timing.
- The preload bridge is not modelled: it only forwards each IPC call and message, so each call to the bridge is one method call.
- AppComponent.AppState.OnTorrentsUpdate: models one listener reconciling the current selection. The code registers a new listener on every run of the effect at src/renderer/App.tsx:32-53 and never removes one (src/main/preload.ts:26); that behaviour is `AppComponent.ListenersAsWritten`, listed under Findings. The repeated initial fetches of each effect run are not modelled.
- WebTorrent internals are opaque values. This covers the wire protocol, duplicate adds, asynchronous `error` events after `client.add` returns, and the live counters. An add's outcome and its ready handle are parameters.
- MainProcess.TorrentApp.AddTorrent: the fields a handle shows before its metadata arrives are whatever the engine's handle holds; the model gives an accepted handle its infoHash at once, while for a `.torrent` path WebTorrent learns it only once the file is read. A handle that never gets metadata stays listed with its promise pending, and the renderer's `await` then never returns.
- MainProcess.TorrentApp.AddTorrentFile: the same pending-handle timing as `add-torrent`, through the same two steps.
- Engine: `client.get` also accepts a magnet URI or a torrent buffer. The model looks handles up by infoHash only, as the code's callers do.
- The real filesystem, `JSON.parse` and `JSON.stringify` are not modelled. A stored file is assumed to hold well-typed known keys.
- `mkdirSync` failures, and the creation of parent directories, are not modelled.
- MainProcess.JoinPath: `path.join` is plain concatenation with `/`, without normalisation; Node joins with the platform separator, which is `\` on Windows, a platform the program does handle (src/main/main.ts:356).
- The `destroyStore` deletion of files is recorded only as the infoHash in `purged`.
- MainProcess.TorrentApp: the set of existing paths changes only through directory creation. The engine writing a torrent's files, and `destroyStore` deleting them, are not reflected, so `open-file-location` reveals a folder only when its path was already known to exist.
- MainProcess.TorrentApp.AddTorrent: requires an accepted handle to be new to the client, as WebTorrent keeps one handle per infoHash; what the engine does with a duplicate add is not modelled.
- Native dialogs and `shell` calls are not performed. A dialog's answer is a parameter, and shell calls are recorded in `shellCalls`.
- File selection is a boolean per file. WebTorrent's piece priorities are not modelled.
- Pause and resume are not modelled. They are declared and called by the list, but main.ts has no handler for them, so `paused` is always false.
- The session counters' `|| 0` fallback (src/renderer/components/StatsPanel.tsx:118, 122) is not modelled: the model's counters are always-present reals with no NaN, so the fallback would be the identity.
- Floating-point display math is not modelled: `toFixed`, `progress * 100`, `timeRemaining / 1000` and the `format*` helpers. Counters are `real` and are only copied.
- The HTML `min`/`max` attributes of the port and connection inputs are not modelled. No code path enforces them.
- The port and maxConnections inputs are not modelled. They are read with a bare `parseInt` (src/renderer/components/SettingsDialog.tsx:140, 152), so an emptied field stores NaN in the form and submits it; `Settings` numbers are integers here.
- JsText.ParseInt: does not model `parseInt`'s precision loss on very long digit strings, since JavaScript numbers are doubles. No radix is passed (src/renderer/components/SettingsDialog.tsx:101, 117), so a `0x` prefix would switch to base 16; that case is not modelled, since a number input clears such text to the empty string.
- JsText.NatToString: renders every number as plain digits; JavaScript's `String` switches to exponent form (`1e+21`) at 10^21 and above.
- JsText.IntToString: the same exponent form for magnitudes of 10^21 and above is not modelled.
- JsText.ParseIntToString: holds for every integer in the model, but in JavaScript `parseInt(String(x))` is 1 for x = 10^21, because of the exponent form.
- SettingsDialog.LimitRoundTrip: likewise fails in JavaScript for limits of magnitude 10^21 or more, which the model's integers do not capture.
- SettingsDialog.HandleSelectDirectory: edits made while the directory dialog is open are lost, since the result is spread over the form captured at the click (src/main/main.ts:224 opens the dialog without a parent window, so it is not modal); the model takes that captured form as its argument.
- SettingsDialog.ParseLimit: the NaN that `parseInt` gives for non-numeric text is `None`. A form field holding NaN is not modelled, because `Settings` numbers are integers.
- JSX layout, CSS classes and the active-tab switch are not modelled.

## Findings

| source | as written | input that shows it | evidently intended | confidence | as-written member | corrected member |
|---|---|---|---|---|---|---|
| src/renderer/App.tsx:32-53 | the torrents-update effect registers a listener on every change of the selection and never removes one (src/main/preload.ts:26); each listener reconciles the selection it captured | select a torrent, close its pane with the close button (App.tsx:179), then receive a push that still lists it: the older listener selects it again and the pane reopens | one listener reconciling the current selection, so a closed pane stays closed | high, not executed | AppComponent.ClosedPaneReopens | AppComponent.Reconcile |
