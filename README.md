# Drift job queue, modelled in Dafny

Drift is an Electron application. It watches a folder and transcodes each new
video file there with HandBrakeCLI. This project models the main process's job
queue:

- **store** (`store.ts`): the persisted settings record and the queue array.
  Every operation reads the whole array and writes it back.
- **dispatcher** (`queue.ts`): `processQueue` admits up to
  `maxParallel − activeCount` pending items, in queue order. Each is marked
  `encoding` before its encode starts.
  - The completion and error callbacks write a terminal state and dispatch again.
  - `recoverFromCrash` puts items left `encoding` back to `pending`.
  - Retry, remove, clear-completed and pause are the other entry points.
- **encode supervisor** (`encoder.ts`): the `activeJobs` and `tempFiles` maps and
  how start, complete, error and cancel change them. It also owns the output
  path and the merge of custom preset files.
- **watcher** (`watcher.ts`): extension normalisation, the `add` handler's
  admission test, the item it builds, and the start/stop state.
- **IPC handlers** (`ipc.ts`): the `--preset-list` parser, the `settings:save`
  decision logic, and the thin `queue:*` handlers.

The modules follow the files:

| module | file | contents |
|---|---|---|
| `Wrappers` | `wrappers.dfy` | `Option` |
| `NodePath` | `node_path.dfy` | the posix `basename`, `extname` and `join` that the core calls, and ASCII `toLowerCase` |
| `Store` | `store.dfy` | `QueueItem`, `ItemUpdate` (a `Partial<QueueItem>`), `AppSettings` over `StoredSettings`, and class `QueueStore` |
| `Encoder` | `encoder.dfy` | preset merge, output path, and class `Supervisor` |
| `Queue` | `queue.dfy` | the dispatcher as methods over a `QueueStore` and a `Supervisor` |
| `Watcher` | `watcher.dfy` | the admission rule, and class `FolderWatcher` |
| `Ipc` | `ipc.dfy` | parser, save decision, handlers |

The store and the supervisor are classes with `seq` and `map` fields. Their
methods state the new state through specification functions such as `Updated`,
`Removed`, `Admitted` and `Spawns`, and lemmas prove the promised properties of
those functions.

The dispatcher's invariant is `Queue.Consistent`:

- item ids are unique;
- every item marked `encoding` has a registered job.

Every event method keeps `Consistent`. `ProcessQueue` never registers more jobs
than `max(before, maxParallel)`. With `EncodingWithinActive`, this bounds the
number of encoding items by the limit.

The start-up order of `src/main/index.ts:56,74` runs `recoverFromCrash` before
the first `processQueue`. It appears as `ProcessQueue`'s precondition
`Consistent`:

- `EncodingBeforeRecoveryInconsistent`: a persisted queue with an item still
  `encoding` does not satisfy `Consistent` for a fresh supervisor.
- `RecoveredConsistent`: the recovered queue does.

External effects are parameters of the model:

- The files' contents are a `PresetFiles` map.
- `os.tmpdir()` and `crypto.randomUUID()` are the `tmpDir` and `uuid` arguments.
- `Date.now()` is `now`.
- A new item's id is an argument that is assumed fresh.
- HandBrakeCLI's `complete` and `error` events are the methods `EncodeCompleted`
  and `EncodeErrored`, which may be called for any id at any time.

## Model

| member | source | states |
|---|---|---|
| `NodePath.BaseName` | src/main/watcher.ts:38 | the base name contains no `/` and is no longer than the path |
| `NodePath.BaseNameIsSuffix` | src/main/watcher.ts:38 | the base name is the path's suffix after its last `/` |
| `NodePath.ExtName` | src/main/watcher.ts:29 | the extension is empty, or a dot followed by no further dot; it holds no `/` and is shorter than the base name |
| `NodePath.ToLower` | src/main/watcher.ts:29 | the result has the input's length and no upper-case ASCII letter; each upper-case letter becomes its lower-case counterpart and every other character is kept |
| `NodePath.ToLowerIdempotent` | src/main/watcher.ts:29 | lower-casing an already lower-cased string changes nothing |
| `NodePath.ToLowerEqualIffEqualIgnoringCase` | src/main/watcher.ts:29 | two strings lower-case to the same string exactly when they differ at most in the case of their letters (`EqualIgnoringCase`, defined position by position) |
| `NodePath.Stem` | src/main/encoder.ts:46 | definition of `path.basename(p, path.extname(p))`: the base name without its extension; its properties are `StemAndExtension` and `JoinWithExtension` |
| `NodePath.Join` | src/main/encoder.ts:47 | definition of `path.join(dir, name)` for one name; its properties are `BaseNameOfJoin` and `JoinWithExtension` |
| `NodePath.StemAndExtension` | src/main/encoder.ts:46 | `basename(p, extname(p))` followed by `extname(p)` is the base name; a non-empty base name has a non-empty stem |
| `NodePath.BaseNameOfJoin` | src/main/encoder.ts:47 | the base name of `join(dir, name)` is `name`, for a name without a separator |
| `NodePath.JoinWithExtension` | src/main/encoder.ts:46-47 | `join(dir, stem + "." + ext)` has base name `stem.ext`, extension `.ext` and stem `stem` |
| `Store.ApplyUpdateIdempotent` | src/main/store.ts:69 | spreading the same partial update twice is spreading it once; an empty update changes nothing |
| `Store.ApplyUpdate` | src/main/store.ts:69 | definition of `{ ...item, ...updates }`: each field the update gives wins, every other field is kept; its properties are `ApplyUpdateIdempotent` and `UpdatedAt` |
| `Store.FormatName` | src/main/store.ts:13 | each output container name is non-empty and has no dot or separator |
| `Store.SavedSettingsReadBack` | src/main/store.ts:53-59 | `getSettings()` after `saveSettings(s)` is exactly `s` |
| `Store.MergeOverDefaults` | src/main/store.ts:53-55 | definition of `{ ...defaults.settings, ...stored }`, field by field; its properties are `SavedSettingsReadBack`, `DefaultsWhenNothingStored` and `StoredFieldsWin` |
| `Store.QueueStore.GetSettings` | src/main/store.ts:53-55 | `getSettings()`: the stored record merged over the defaults; it depends only on the settings field, so queue writes leave it unchanged |
| `Store.DefaultsWhenNothingStored` | src/main/store.ts:35-55 | with nothing stored every field is its default: `maxParallel` 1, `m4v`, not paused, no custom presets, no watch folder, preset `Fast 1080p30` |
| `Store.StoredFieldsWin` | src/main/store.ts:53-55 | a stored `maxParallel`, `paused` or `watchDir` wins over its default; an absent `maxParallel`, `paused`, `outputFormat` or `customPresetPaths` takes its default |
| `Store.Filter` | src/main/store.ts:81 | a filtered queue is no longer than the queue |
| `Store.FilterMembers` | src/main/store.ts:81 | `filter` keeps exactly the elements that pass the test |
| `Store.FilterConcat` | src/main/store.ts:81 | `filter` distributes over concatenation, so relative order is kept |
| `Store.FilterIdempotent` | src/main/store.ts:81 | filtering twice with one test is filtering once |
| `Store.FilterAll` | src/main/store.ts:81 | a filter that every element passes changes nothing |
| `Store.Updated` | src/main/store.ts:65-72 | an update keeps the queue's length |
| `Store.IndexOf` | src/main/store.ts:67 | `findIndex` gives the first position holding the id, or -1 when no item has it |
| `Store.FindIndex` | src/main/store.ts:67 | the loop returns that first position, or -1 exactly when the id is absent |
| `Store.UpdatedAt` | src/main/store.ts:65-72 | `updateQueueItem` replaces the first item with the id by that item spread with the update and keeps every other item; with no such item the queue is unchanged |
| `Store.UpdatedAbsent` | src/main/store.ts:67-68 | an update for an absent id is a no-op |
| `Store.UpdatedUnique` | src/main/store.ts:65-72 | with unique ids, the update changes the one item with the id and no other |
| `Store.Removed` | src/main/store.ts:81 | definition of `filter((item) => item.id !== id)`; its properties are `RemovedSpec` and `FilterKeepsUniqueIds` |
| `Store.RemovedSpec` | src/main/store.ts:80-83 | removal keeps exactly the items with another id, in order; it is idempotent, distributes over concatenation, and removing an absent id changes nothing |
| `Store.WithoutCompleted` | src/main/store.ts:86 | definition of `filter((item) => item.status !== 'complete')`; its properties are `WithoutCompletedSpec` and `FilterKeepsUniqueIds` |
| `Store.WithoutCompletedSpec` | src/main/store.ts:85-88 | clearing keeps exactly the items that are not `complete`, in order; it is idempotent, and a queue with no complete item is unchanged |
| `Store.FilterKeepsUniqueIds` | src/main/store.ts:80-88 | filtering a queue with unique ids keeps them unique and adds no id |
| `Store.QueueStore.constructor` | src/main/store.ts:51 | the store holds the persisted settings and queue |
| `Store.QueueStore.SaveSettings` | src/main/store.ts:57-59 | every field is persisted; the queue is untouched |
| `Store.QueueStore.GetQueue` | src/main/store.ts:61-63 | returns the persisted queue |
| `Store.QueueStore.UpdateQueueItem` | src/main/store.ts:65-72 | the new queue is `Updated(old queue, id, updates)`; the settings are untouched |
| `Store.QueueStore.AddQueueItem` | src/main/store.ts:74-78 | the item is appended after the old queue, without a duplicate check |
| `Store.QueueStore.RemoveQueueItem` | src/main/store.ts:80-83 | the new queue is the old one without the items with that id |
| `Store.QueueStore.ClearCompletedItems` | src/main/store.ts:85-88 | the new queue is the old one without its complete items |
| `Encoder.MergedConcat` | src/main/encoder.ts:17-28 | the merge follows input order: merging `a + b` is merging `a`, then `b` |
| `Encoder.Contribution` | src/main/encoder.ts:20-27 | definition of one file's share of the merge: its `PresetList` array, or nothing for an unreadable or malformed file |
| `Encoder.MergedPresets` | src/main/encoder.ts:17-28 | definition of `allPresets` after the loop; its properties are `MergedConcat`, `UnusableFileSkipped` and `MergeExample` |
| `Encoder.UnusableFileSkipped` | src/main/encoder.ts:20-27 | an unreadable or malformed file, or one without a `PresetList` array, adds nothing and does not stop the merge |
| `Encoder.MergeExample` | src/main/encoder.ts:17-28 | two good files and an unreadable one give the good files' lists, in order |
| `Encoder.TempPresetPath` | src/main/encoder.ts:31 | the temporary file's path is never empty |
| `Encoder.BuildMergedPresetFile` | src/main/encoder.ts:17-34 | no file (`null`) exactly when the merged list is empty; otherwise a file whose `PresetList` is exactly that list |
| `Encoder.OutputPathShape` | src/main/encoder.ts:46-47 | the output lies directly in the output directory; its name is the input's stem plus `.` and the format; its extension is the format's |
| `Encoder.OutputPath` | src/main/encoder.ts:46-47 | definition of the output path; its properties are `OutputPathShape` |
| `Encoder.SpawnFor` | src/main/encoder.ts:46-64 | definition of the spawn options: input, output path, preset, the CLI path only when it is set and non-empty (`CliOption`), and the import file; its properties for dispatched jobs are `Queue.DispatchSpawnOptions` |
| `Encoder.ErrorMessage` | src/main/encoder.ts:95 | the error's message when it is present and non-empty, otherwise `Unknown encoding error`; never empty |
| `Encoder.ImportFile` | src/main/encoder.ts:58-64 | a preset import file is used exactly when custom paths are given and the merge is non-empty; it is the fresh temporary path |
| `Encoder.Supervisor.constructor` | src/main/encoder.ts:14-15 | both maps start empty |
| `Encoder.Supervisor.StartEncode` | src/main/encoder.ts:36-80 | `id` is registered with the spawn options built from the inputs; a temp-file entry is recorded exactly when an import file was made |
| `Encoder.Supervisor.CleanupTemp` | src/main/encoder.ts:66-76 | the id's temp-file entry is gone and nothing else changes, so a second call does nothing |
| `Encoder.Supervisor.EncodeFinished` | src/main/encoder.ts:86-90 | on `complete`, the id leaves `activeJobs` and `tempFiles` before `onComplete` runs |
| `Encoder.Supervisor.EncodeFailed` | src/main/encoder.ts:92-96 | on `error`, the same, and the message passed on is `ErrorMessage` of the error |
| `Encoder.Supervisor.CancelEncode` | src/main/encoder.ts:99-105 | the id leaves `activeJobs` if present; `tempFiles` is untouched |
| `Encoder.Supervisor.GetActiveJobCount` | src/main/encoder.ts:107-109 | the number of registered ids |
| `Queue.DispatchCases` | src/main/queue.ts:30-41 | while paused, or with `maxParallel − activeCount ≤ 0`, nothing starts and the queue is unchanged; otherwise the first `available` pending items start |
| `Queue.ToStart` | src/main/queue.ts:40-41 | `pending.slice(0, available)`: at most `available` items and at most the pending ones, and exactly one of those two numbers of items |
| `Queue.Admitted` | src/main/queue.ts:40-44 | definition of the queue after the first `k` pending items are marked encoding; its properties are `AdmittedKeepsIds`, `AdmittedMarksToStart`, `AdmittedPendingCount` and `DispatchStep` |
| `Queue.DispatchedQueue` | src/main/queue.ts:30-44 | definition of the queue after `processQueue`; its properties are `DispatchCases` and `DispatchOutcome` |
| `Queue.Started` | src/main/queue.ts:30-41 | definition of the items `processQueue` starts; its properties are `DispatchCases` and `DispatchBound` |
| `Queue.DispatchSpawn` | src/main/queue.ts:47-78 | definition of the options `processQueue` starts an item with; its properties are `DispatchSpawnOptions` |
| `Queue.DispatchSpawnOptions` | src/main/queue.ts:47-78 | a dispatched job gets the item's file as input, an output of the same stem in the `m4v` container, the configured preset, the CLI path exactly when one is configured (`settings.handbrakeCliPath \|\| undefined`, then the check at src/main/encoder.ts:54), and never a preset import file |
| `Queue.Spawns` | src/main/queue.ts:43-80 | definition of the jobs registered by the loop, one per started item; its properties are `SpawnsKeys` and `SpawnsAt` |
| `Queue.AdmittedKeepsIds` | src/main/queue.ts:40-44 | admission keeps the length, every id and path, and every item that is not pending |
| `Queue.AdmittedSaturates` | src/main/queue.ts:41 | asking for more items than are pending starts all pending items |
| `Queue.AdmittedMarksToStart` | src/main/queue.ts:40-44 | exactly the items of `pending.slice(0, k)` become `encoding` with progress 0 and no ETA; every other item is unchanged |
| `Queue.AdmittedPendingCount` | src/main/queue.ts:40-44 | exactly `min(k, #pending)` items leave the pending state |
| `Queue.AdmittedConsistent` | src/main/queue.ts:43-47 | after admission, ids are still unique and the encoding items are the old ones plus the started ones |
| `Queue.DispatchBound` | src/main/queue.ts:35-47 | dispatch never brings the job count above `max(count before, maxParallel)` |
| `Queue.DispatchOutcome` | src/main/queue.ts:30-80 | after one `processQueue`: ids are unique, every encoding item has a job, and the job count is within that bound |
| `Queue.UpdateLeavesEncoding` | src/main/queue.ts:56-75 | writing `complete`, `failed` or `pending` by id keeps the ids and takes that id out of the encoding set |
| `Queue.EncodingWithinActive` | src/main/queue.ts:35-47 | under the invariant, no more items are encoding than jobs are registered, hence no more than the limit |
| `Queue.Recovered` | src/main/queue.ts:82-89 | every `encoding` item becomes `pending` with progress 0 and no ETA; other items and the queue order are unchanged; no item is left encoding |
| `Queue.RecoveredConsistent` | src/main/queue.ts:82-89 | the recovered queue has no encoding item, so it is consistent with an empty supervisor |
| `Queue.EncodingBeforeRecoveryInconsistent` | src/main/queue.ts:82-89 | a queue with an item left encoding is not consistent with an empty supervisor |
| `Queue.DispatchStep` | src/main/queue.ts:43-44 | updating the i-th started item by id admits exactly one more pending item |
| `Queue.SpawnsKeys` | src/main/queue.ts:43-47 | one job is registered per started item |
| `Queue.SpawnsAt` | src/main/queue.ts:47-78 | each started item's job carries that item's spawn options |
| `Queue.StartItem` | src/main/queue.ts:44-78 | the item is marked `encoding` (progress 0, no ETA) before its encode is registered with the dispatch options |
| `Queue.StartAll` | src/main/queue.ts:43-79 | the loop marks the first pending items in queue order and registers one job for each, in order |
| `Queue.ProcessQueue` | src/main/queue.ts:30-80 | the queue becomes `DispatchedQueue` and the jobs the old ones plus one per started item; the invariant is kept; the job count is at most `max(before, maxParallel)` |
| `Queue.EncodeCompleted` | src/main/queue.ts:56-65 | the job and its temp entry are dropped; the item becomes `complete` with progress 100, no ETA and `completedAt` the given time; then dispatch runs; the invariant is kept |
| `Queue.EncodeErrored` | src/main/queue.ts:66-75 | the job and its temp entry are dropped; the item becomes `failed` with progress 0, no ETA and the message; then dispatch runs; the invariant is kept |
| `Queue.RecoverFromCrash` | src/main/queue.ts:82-89 | the store's queue becomes `Recovered` of the old one |
| `Queue.HandleRemoveItem` | src/main/queue.ts:91-96 | the live job is cancelled, the item removed, then dispatch runs; the invariant is kept |
| `Queue.HandleRetryItem` | src/main/queue.ts:98-102 | the item becomes pending with progress 0, no ETA and no error, whatever its status was; then dispatch runs |
| `Queue.HandleClearCompleted` | src/main/queue.ts:104-107 | the complete items are dropped; nothing is dispatched; the invariant is kept |
| `Queue.SetPaused` | src/main/queue.ts:24-28 | the flag is stored with the other settings kept; pausing leaves the queue and jobs as they are; resuming makes the queue `DispatchedQueue` and adds one job per started item; `tempFiles` is untouched; the invariant is kept |
| `Watcher.NormaliseExtension` | src/main/watcher.ts:18 | the result starts with a dot; it is the extension itself exactly when that already started with one, otherwise the extension with a dot in front |
| `Watcher.NormaliseExtensionIdempotent` | src/main/watcher.ts:18 | normalising twice is normalising once |
| `Watcher.NormaliseExtensions` | src/main/watcher.ts:18 | every entry of the matched list starts with a dot and is its configured entry normalised |
| `Watcher.NormalisedListIsFixed` | src/main/watcher.ts:18 | a list whose entries all start with a dot is matched as written |
| `Watcher.DefaultExtensionsNormalised` | src/main/watcher.ts:18 | the default extensions already start with a dot and are lower-case |
| `Watcher.FileExtension` | src/main/watcher.ts:29 | a file's extension as compared is empty or starts with a dot, and holds no upper-case letter |
| `Watcher.FileExtensionIgnoresCase` | src/main/watcher.ts:29 | two files get the same compared extension exactly when their extensions differ at most in letter case |
| `Watcher.UpperCaseExtensionNeverMatches` | src/main/watcher.ts:18-30 | a configured extension holding an upper-case letter matches no file |
| `Watcher.DuplicateRefused` | src/main/watcher.ts:32-33 | a file whose path is already queued is refused |
| `Watcher.NoExtensionRefused` | src/main/watcher.ts:29-30 | a file without an extension is refused |
| `Watcher.Admits` | src/main/watcher.ts:29-33 | definition of the handler's two tests; its properties are `DuplicateRefused`, `NoExtensionRefused`, `AdmitsWhenNew` and `UpperCaseExtensionNeverMatches` |
| `Watcher.AdmitsWhenNew` | src/main/watcher.ts:29-33 | a file with a configured extension is admitted exactly when no item has its path |
| `Watcher.NewItemName` | src/main/watcher.ts:35-43 | the new item is pending with progress 0, no ETA and the given path; its name is the path's last component: a `/`-free suffix that is the whole path or follows a `/` |
| `Watcher.NewItem` | src/main/watcher.ts:35-43 | definition of the item the handler builds; its properties are `NewItemName` |
| `Watcher.AfterAdd` | src/main/watcher.ts:28-45 | definition of the queue after one `add` event; its properties are `AfterAddKeepsUniquePaths`, `AfterAddKeepsIds` and `AfterAddGrows` |
| `Watcher.AfterAddKeepsUniquePaths` | src/main/watcher.ts:32-45 | one `add` event keeps all file paths distinct |
| `Watcher.AfterAddKeepsIds` | src/main/watcher.ts:35-45 | with a fresh id, one `add` event keeps ids unique and the encoding set unchanged |
| `Watcher.AfterAddsKeepsUniquePaths` | src/main/watcher.ts:28-50 | after any run of `add` events, no two items share a path, if none did before |
| `Watcher.AfterAddGrows` | src/main/watcher.ts:45 | one event appends at most one item and keeps the queue before it |
| `Watcher.AfterAddsGrows` | src/main/watcher.ts:28-50 | a run of events only appends, at most one item per event |
| `Watcher.WatcherFor` | src/main/watcher.ts:15-26 | no watcher exactly when the watch folder is empty; otherwise one on that folder, with `ignoreInitial` the negation of `queueExistingFiles`, matching normalised extensions |
| `Watcher.WatchesFolderOf` | src/main/watcher.ts:15-26 | definition of an installed watcher agreeing with the settings on the folder and on `ignoreInitial`, the extension list being captured at start; `StartWatcher` establishes it and `SettingsSave` keeps it |
| `Watcher.AnyWithPath` | src/main/watcher.ts:33 | the scan reports exactly whether some item has the path |
| `Watcher.FolderWatcher.constructor` | src/main/watcher.ts:5-6 | no watcher and no callback at load time |
| `Watcher.FolderWatcher.SetOnFileAdded` | src/main/watcher.ts:8-10 | the callback is set; the watcher state is untouched |
| `Watcher.FolderWatcher.StopWatcher` | src/main/watcher.ts:53-58 | afterwards no watcher is installed; the previous one, if any, was closed |
| `Watcher.FolderWatcher.StartWatcher` | src/main/watcher.ts:12-26 | the previous watcher is always closed first; the new one is `WatcherFor` the current settings, so none for an empty folder, and it satisfies `WatchesFolderOf` them |
| `Watcher.FolderWatcher.OnAdd` | src/main/watcher.ts:28-50 | the queue gains the new pending item exactly when the file is admitted, and is unchanged otherwise; the callback runs exactly when an item was added and a callback is set; ids and paths stay unique |
| `Ipc.Split` | src/main/ipc.ts:22 | `split('\n')` gives at least one piece, none holding a newline |
| `Ipc.SplitJoin` | src/main/ipc.ts:22 | joining the pieces with newlines gives back the text |
| `Ipc.JoinSplit` | src/main/ipc.ts:22 | splitting newline-free lines joined with newlines gives back the lines |
| `Ipc.TrimStart` | src/main/ipc.ts:24-27 | the result does not start with white space |
| `Ipc.TrimEnd` | src/main/ipc.ts:24-27 | the result does not end with white space |
| `Ipc.TrimStartSuffix` | src/main/ipc.ts:24-27 | `trimStart` keeps a suffix and cuts only white space |
| `Ipc.TrimEndPrefix` | src/main/ipc.ts:24-27 | `trimEnd` keeps a prefix and cuts only white space |
| `Ipc.Trim` | src/main/ipc.ts:24-27 | `trim()` leaves no white space at either end |
| `Ipc.TrimIdempotent` | src/main/ipc.ts:24-27 | trimming twice is trimming once |
| `Ipc.CategoryName` | src/main/ipc.ts:25 | the category is the trimmed line without its trailing `/` |
| `Ipc.IsCategoryLine` | src/main/ipc.ts:24 | definition of a heading: a non-space first character and a trimmed text ending in `/`; its properties are `Classify` and `LineKindsDisjoint` |
| `Ipc.IsPresetLine` | src/main/ipc.ts:26 | definition of a preset line: exactly four spaces, then a non-space; its properties are `Classify`, `LineKindsDisjoint` and `TrimOfIndented` |
| `Ipc.LineKindsDisjoint` | src/main/ipc.ts:24-26 | no line is both a category line and a preset line |
| `Ipc.TrimOfIndented` | src/main/ipc.ts:26-27 | the four leading spaces do not change a preset line's trimmed text |
| `Ipc.Classify` | src/main/ipc.ts:24-27 | a line is a heading exactly when it starts with non-space and trims to `…/`; it is a preset line exactly when it is four spaces then non-space; a preset name is the trimmed line, non-empty, with no white space at either end |
| `Ipc.ParsePresetList` | src/main/ipc.ts:18-32 | the loop returns `PresetList(output)`, the left fold of its line steps over `output.split('\n')` |
| `Ipc.Step` | src/main/ipc.ts:24-28 | definition of one turn of the loop; its properties are `IgnoredLine`, `PresetLineEmits`, `HeadingOpensCategory` and `StepExtends` |
| `Ipc.Scan` | src/main/ipc.ts:19-29 | definition of the loop's state after some lines, as a left fold; its properties are `ScanCategory`, `NoHeadingNoEntries`, `EntriesFromPresetLines` and `EntriesInLineOrder` |
| `Ipc.PresetList` | src/main/ipc.ts:18-32 | definition of the parser's result; its properties are `ParsedEntriesWellFormed` and `NoHeadingNoPresets` |
| `Ipc.LastHeading` | src/main/ipc.ts:24-25 | the position of the last heading, or -1 when there is none |
| `Ipc.ScanCategory` | src/main/ipc.ts:20-25 | the open category is the last heading's name, or empty when no heading has been seen |
| `Ipc.NoHeadingNoEntries` | src/main/ipc.ts:20-27 | lines before any heading emit nothing |
| `Ipc.EntriesFromPresetLines` | src/main/ipc.ts:26-27 | every entry has a non-empty category and the name of some preset line |
| `Ipc.StepExtends` | src/main/ipc.ts:22-29 | a turn of the loop never drops an entry |
| `Ipc.EntriesInLineOrder` | src/main/ipc.ts:22-31 | the entries of the first lines are a prefix of all the entries, so entries keep the order of their lines |
| `Ipc.IgnoredLine` | src/main/ipc.ts:22-29 | a line that is neither a heading nor a preset line changes nothing |
| `Ipc.PresetLineEmits` | src/main/ipc.ts:26-27 | a preset line under an open category appends exactly `{category, name}`; with none open it adds nothing |
| `Ipc.HeadingOpensCategory` | src/main/ipc.ts:24-25 | a heading sets the category and emits no entry |
| `Ipc.ParsedEntriesWellFormed` | src/main/ipc.ts:18-32 | every parsed entry has a non-empty category and a non-empty trimmed name taken from a four-space-indented line of the output |
| `Ipc.NoHeadingNoPresets` | src/main/ipc.ts:18-32 | an output with no heading line gives no entries |
| `Ipc.SaveDecision` | src/main/ipc.ts:43-52 | definition of the two tests of the handler (a new `watchDir` or `queueExistingFiles` restarts the watcher, a new `maxParallel` re-dispatches) that `SettingsSave` follows; what skipping each effect means is `KeptWatcherMatchesNewSettings` and `SkippedDispatchChangesNothing` |
| `Ipc.KeptWatcherMatchesNewSettings` | src/main/ipc.ts:43-48 | when the watcher is not restarted, `WatcherFor` the old settings equals `WatcherFor` the new ones except for the extension list |
| `Ipc.KeptWatcherStillWatchesFolder` | src/main/ipc.ts:43-48 | when the watcher is not restarted, a watcher that watched the folder (with its `ignoreInitial` flag) of the old settings watches that of the new ones (`WatchesFolderOf`) |
| `Ipc.SkippedDispatchChangesNothing` | src/main/ipc.ts:50-52 | when there is no re-dispatch and the pause flag is unchanged, `processQueue` would start the same items under the new settings as under the old |
| `Ipc.ResumeBySaveDoesNotDispatch` | src/main/ipc.ts:39-55 | a save that only lifts the pause neither re-dispatches nor restarts the watcher |
| `Ipc.ResumeWithNewLimitDispatches` | src/main/ipc.ts:39-55 | a save that lifts the pause and changes `maxParallel` re-dispatches, and with a free slot and a pending item at least one item starts |
| `Ipc.SaveUnchangedDoesNothing` | src/main/ipc.ts:43-52 | saving the settings in force triggers neither |
| `Ipc.ExtensionsAloneKeepWatcher` | src/main/ipc.ts:43-48 | a new extension list alone neither restarts the watcher nor re-dispatches |
| `Ipc.SettingsGet` | src/main/ipc.ts:35-37 | returns the merged settings |
| `Ipc.SettingsSave` | src/main/ipc.ts:39-55 | always stores the settings and returns true; restarts the watcher and re-dispatches exactly as `SaveDecision` says, and leaves the watcher or the queue and jobs unchanged otherwise; the invariant is kept, and so is `WatchesFolderOf`: if the installed watcher watched the folder of the old settings, it watches that of the new ones |
| `Ipc.QueueGet` | src/main/ipc.ts:85-87 | returns the queue |
| `Ipc.QueueRemove` | src/main/ipc.ts:89-92 | returns true; the job of `id` is dropped, the item removed and the queue re-dispatched, with the new queue and jobs given as `HandleRemoveItem` gives them; settings and `tempFiles` are untouched; if the jobs were within `maxParallel`, the jobs and encoding items stay within it |
| `Ipc.QueueRetry` | src/main/ipc.ts:94-97 | returns true; the item is reset to pending and the queue re-dispatched, with the new queue and jobs given as `HandleRetryItem` gives them; settings and `tempFiles` are untouched; if the jobs were within `maxParallel`, the jobs and encoding items stay within it |
| `Ipc.QueueGetPaused` | src/main/ipc.ts:99-101 | returns the stored pause flag |
| `Ipc.QueueSetPaused` | src/main/ipc.ts:103-106 | returns the flag; the settings gain it; pausing leaves the queue and jobs unchanged, resuming dispatches with the new queue and jobs given as `SetPaused` gives them; `tempFiles` is untouched; if the jobs were within `maxParallel`, the jobs and encoding items stay within it |
| `Ipc.QueueClearCompleted` | src/main/ipc.ts:108-111 | returns true; the complete items are dropped and the settings untouched; the invariant is kept |

## Behaviour worth noting

The model follows the code in each case below.

- **Extension case.** Only the file's extension is lower-cased
  (src/main/watcher.ts:29). The configured extensions are only given a dot
  (src/main/watcher.ts:18).
  - With the lower-case defaults, matching ignores case
    (`FileExtensionIgnoresCase`, `DefaultExtensionsNormalised`).
  - A configured `.MKV` matches no file (`UpperCaseExtensionNeverMatches`).
- **`maxParallel` is not clamped in the main process.** Only the settings form
  clamps it to 1..8 (src/renderer/src/components/SettingsView.tsx:112).
  `ProcessQueue` takes any integer.
- **Dispatch arguments.** `processQueue` passes neither `customPresetPaths` nor
  `outputFormat` to `startEncode` (src/main/queue.ts:47-78). So every
  dispatched encode writes `.m4v` and merges no custom presets
  (`DispatchSpawnOptions`). `startEncode` itself is modelled with both
  parameters.
- **Preset lines.** A preset line is exactly four spaces followed by a
  non-space character (src/main/ipc.ts:26).
- **Retry.** `handleRetryItem` does not check the item's status. The model
  follows that as written (`HandleRetryItem`).
  - Retrying an item that is still `encoding` sets it pending. Its first
    process keeps its `activeJobs` entry, so it still takes a slot in
    `available = maxParallel - activeCount` (src/main/queue.ts:35-38).
  - A dispatch starts the item again only when a slot is free besides that one
    and no earlier pending item takes it. With `maxParallel` 1, for example,
    nothing is started. The first process's `complete` event can then mark the
    item `complete`, and it does not run again.
  - When it is started again, `activeJobs.set(id, …)`
    (src/main/encoder.ts:80) overwrites the first process's entry. That process
    is no longer tracked but keeps running.
  - When it finishes, its `complete` or `error` event deletes the second job's
    entry and marks the item done while the second process still runs.
  - So, when there is spare capacity, more HandBrakeCLI processes can run than
    `maxParallel` allows, although `|activeJobs|` and the number of encoding
    items stay within it.
  - The renderer offers retry only for `failed` and `cancelled` items
    (src/renderer/src/components/QueueItem.tsx:161).
- **Watcher restart.** `settings:save` restarts the watcher only for a new
  folder or a new `queueExistingFiles` flag. A changed extension list takes
  effect at the next restart (`ExtensionsAloneKeepWatcher`).
- **Resuming through a save.** A save that changes only `paused`, from true
  to false, starts nothing (`ResumeBySaveDoesNotDispatch`). Such a save
  dispatches only when it also changes `maxParallel` (src/main/ipc.ts:50-52).
  Then, with a free slot, pending items start (`ResumeWithNewLimitDispatches`).
  Otherwise, only `queue:setPaused` dispatches on resume.

## Left out

- I/O and foreign calls are abstract:
  - the electron-store file;
  - chokidar's events, its `awaitWriteFinish` debounce and `depth`, which are
    only recorded in `WatchConfig`;
  - the HandBrakeCLI child process (`hbjs.spawn`, `kill`);
  - `fs` reads, writes and unlinks;
  - JSON parsing, which is a `PresetDoc` per path.
- `os.tmpdir()`, `crypto.randomUUID()`, `Date.now()` and `Math.random()` are
  parameters. Ids built from the clock and a random suffix are taken as fresh:
  `OnAdd` requires that the id is not already queued.
- Progress events (`onProgress`) and `sendToRenderer` carry no state of the core.
- `presets:get` (the `execFile` call) and the two dialog handlers in `ipc.ts`
  are foreign calls. Only the parser the first one uses is modelled.
- `src/main/index.ts` is not part of this model. The callback that
  `setOnFileAdded` installs runs `processQueue`. `OnAdd` only reports whether
  that callback would run.
- `Encoder.Supervisor.CleanupTemp`: deleting the file is not modelled, only
  forgetting the entry. An unlink failure is swallowed either way.
- `NodePath.ToLower`: lower-cases ASCII letters only. JavaScript's full Unicode
  case mapping is not modelled.
- `NodePath`: models posix paths only. `join` does no normalisation: it
  neither resolves `.`/`..` nor collapses repeated separators (Node's
  `join("a//", "b")` is `a/b`, the model's is `a//b`), and paths are assumed to have no trailing separator.
- JavaScript `number` fields (`maxParallel`, `progress`, `addedAt`,
  `completedAt`) are modelled as `int`. No behaviour is lost:
  - The settings form parses the limit with `parseInt`
    (src/renderer/src/components/SettingsView.tsx:112).
  - The main process stores only the progress values 0 and 100; fractional
    percentages go only to the renderer.
  - The times come from `Date.now()`, which is an integer.
- `Queue.Consistent` includes unique item ids. The code does not check ids for
  uniqueness; the model relies on the fresh-id assumption above.
- The renderer's `cancelled` status is never written by the main process. No
  IPC handler cancels an item without removing it, so the model's `Status`
  has no such value.
- `Encoder.BuildMergedPresetFile`: the model assumes that writing the merged
  file succeeds. In the code, `fs.writeFileSync` (src/main/encoder.ts:32) is
  outside any `try`, so a failed write throws out of `startEncode`.
  `processQueue` passes no custom preset paths, so the dispatcher never
  reaches this write.
