/**
 * The folder watcher (src/main/watcher.ts): which files it admits into the
 * queue, the item it builds for each, and the module-level `watcher` and
 * `onFileAdded` state that startWatcher/stopWatcher manage.  chokidar itself
 * is abstract: an installed watcher is the configuration it was opened with,
 * and an `add` event is a call of `OnAdd`.
 */
module Watcher {
  import opened Wrappers
  import opened NodePath
  import opened Store
  import opened Queue

  // ------------------------------------------------------------ extensions

  predicate StartsWithDot(s: string) { |s| > 0 && s[0] == '.' }

  /** One configured extension, with a dot put in front when it has none. */
  function NormaliseExtension(ext: string): (r: string)
    ensures StartsWithDot(r)
    ensures r == ext || r == "." + ext
    ensures StartsWithDot(ext) <==> r == ext
  {
    if StartsWithDot(ext) then ext else "." + ext
  }

  /** Normalising twice gives what normalising once gave. */
  lemma NormaliseExtensionIdempotent(ext: string)
    ensures NormaliseExtension(NormaliseExtension(ext)) == NormaliseExtension(ext)
  {
  }

  /** `videoExtensions.map(...)`: the list startWatcher matches against. */
  function NormaliseExtensions(exts: seq<string>): (r: seq<string>)
    ensures |r| == |exts|
    ensures forall i :: 0 <= i < |r| ==> StartsWithDot(r[i])
    ensures forall i :: 0 <= i < |r| ==> r[i] == NormaliseExtension(exts[i])
  {
    seq(|exts|, i requires 0 <= i < |exts| => NormaliseExtension(exts[i]))
  }

  /** A list whose entries already begin with a dot is its own normal form. */
  lemma NormalisedListIsFixed(exts: seq<string>)
    requires forall i :: 0 <= i < |exts| ==> StartsWithDot(exts[i])
    ensures NormaliseExtensions(exts) == exts
  {
  }

  /** The shipped defaults all carry their dot already, are lower-case, and so match as written. */
  lemma DefaultExtensionsNormalised()
    ensures NormaliseExtensions(DefaultSettings.videoExtensions) == DefaultSettings.videoExtensions
    ensures forall i :: 0 <= i < |DefaultSettings.videoExtensions| ==>
      ToLower(DefaultSettings.videoExtensions[i]) == DefaultSettings.videoExtensions[i]
  {
    NormalisedListIsFixed(DefaultSettings.videoExtensions);
  }

  predicate HasUpper(s: string)
  {
    exists k :: 0 <= k < |s| && 'A' <= s[k] <= 'Z'
  }

  /** `path.extname(filePath).toLowerCase()` */
  function FileExtension(filePath: string): (r: string)
    ensures r == "" || StartsWithDot(r)
    ensures !HasUpper(r)
  {
    ToLower(ExtName(filePath))
  }

  /**
   * The file's side of the comparison ignores case: two files get the same
   * extension exactly when their extensions differ at most in letter case.
   */
  lemma FileExtensionIgnoresCase(p1: string, p2: string)
    ensures FileExtension(p1) == FileExtension(p2) <==> EqualIgnoringCase(ExtName(p1), ExtName(p2))
  {
    ToLowerEqualIffEqualIgnoringCase(ExtName(p1), ExtName(p2));
  }

  /**
   * Only the file's side is lower-cased: a configured extension holding an
   * upper-case letter is never equal to any file's extension.
   */
  lemma UpperCaseExtensionNeverMatches(ext: string, filePath: string)
    requires HasUpper(ext)
    ensures FileExtension(filePath) != NormaliseExtension(ext)
  {
    var k :| 0 <= k < |ext| && 'A' <= ext[k] <= 'Z';
    var n := NormaliseExtension(ext);
    if n == ext {
      assert 'A' <= n[k] <= 'Z';
    } else {
      assert n[k + 1] == ext[k];
    }
  }

  // ------------------------------------------------------------- admission

  /** `queue.some((item) => item.filePath === filePath)` */
  predicate IsQueued(queue: seq<QueueItem>, filePath: string)
  {
    exists i :: 0 <= i < |queue| && queue[i].filePath == filePath
  }

  /** The two tests the `add` handler makes before it enqueues a file. */
  predicate Admits(extensions: seq<string>, queue: seq<QueueItem>, filePath: string)
  {
    FileExtension(filePath) in extensions && !IsQueued(queue, filePath)
  }

  /** A file whose path is already queued is refused, whatever its extension. */
  lemma DuplicateRefused(extensions: seq<string>, queue: seq<QueueItem>, filePath: string, i: int)
    requires 0 <= i < |queue| && queue[i].filePath == filePath
    ensures !Admits(extensions, queue, filePath)
  {
  }

  /** A file without an extension is refused by every normalised list. */
  lemma NoExtensionRefused(exts: seq<string>, queue: seq<QueueItem>, filePath: string)
    requires ExtName(filePath) == ""
    ensures !Admits(NormaliseExtensions(exts), queue, filePath)
  {
    var extensions := NormaliseExtensions(exts);
    assert FileExtension(filePath) == "";
    assert forall i :: 0 <= i < |extensions| ==> extensions[i] != "";
  }

  /** A new file with a configured extension is admitted exactly when its path is not queued. */
  lemma AdmitsWhenNew(extensions: seq<string>, queue: seq<QueueItem>, filePath: string)
    requires FileExtension(filePath) in extensions
    ensures Admits(extensions, queue, filePath) <==> forall i :: 0 <= i < |queue| ==> queue[i].filePath != filePath
  {
  }

  /** The item the `add` handler builds: pending, no progress, no ETA, named after the file. */
  function NewItem(id: string, filePath: string, now: int): QueueItem
  {
    QueueItem(id, filePath, BaseName(filePath), Pending, 0, "", None, now, None)
  }

  /** The new item's name is the last component of its path. */
  lemma NewItemName(id: string, filePath: string, now: int)
    ensures var item := NewItem(id, filePath, now);
      && item.status == Pending && item.progress == 0 && item.eta == ""
      && item.filePath == filePath && '/' !in item.fileName
      && filePath[|filePath| - |item.fileName|..] == item.fileName
      && (|item.fileName| == |filePath| || filePath[|filePath| - |item.fileName| - 1] == '/')
  {
    BaseNameIsSuffix(filePath);
  }

  /** The queue after one `add` event for `filePath`. */
  function AfterAdd(extensions: seq<string>, queue: seq<QueueItem>, filePath: string, id: string, now: int): seq<QueueItem>
  {
    if Admits(extensions, queue, filePath) then queue + [NewItem(id, filePath, now)] else queue
  }

  ghost predicate UniquePaths(q: seq<QueueItem>)
  {
    forall i, j :: 0 <= i < j < |q| ==> q[i].filePath != q[j].filePath
  }

  /** One `add` event keeps the file paths distinct. */
  lemma AfterAddKeepsUniquePaths(extensions: seq<string>, queue: seq<QueueItem>, filePath: string, id: string, now: int)
    requires UniquePaths(queue)
    ensures UniquePaths(AfterAdd(extensions, queue, filePath, id, now))
  {
    if Admits(extensions, queue, filePath) {
      var r := queue + [NewItem(id, filePath, now)];
      forall i, j | 0 <= i < j < |r| ensures r[i].filePath != r[j].filePath {
        if j == |queue| {
          assert r[i] == queue[i];
        } else {
          assert r[i] == queue[i] && r[j] == queue[j];
        }
      }
    }
  }

  /** One `add` event with a fresh id keeps the dispatcher's invariant: the new item is pending. */
  lemma AfterAddKeepsIds(extensions: seq<string>, queue: seq<QueueItem>, filePath: string, id: string, now: int)
    requires UniqueIds(queue) && id !in Ids(queue)
    ensures var r := AfterAdd(extensions, queue, filePath, id, now);
      UniqueIds(r) && EncodingIds(r) == EncodingIds(queue)
  {
    if Admits(extensions, queue, filePath) {
      var x := NewItem(id, filePath, now);
      var r := queue + [x];
      forall i, j | 0 <= i < j < |r| ensures r[i].id != r[j].id {
        assert r[i] == queue[i];
        if j == |queue| {
          assert queue[i].id in Ids(queue);
        } else {
          assert r[j] == queue[j];
        }
      }
      EncodingIdsSnoc(queue, x);
    }
  }

  /** An `add` event: the file, and the id and clock reading the handler draws for it. */
  datatype AddEvent = AddEvent(filePath: string, id: string, now: int)

  /** The queue after a run of `add` events, in arrival order. */
  function AfterAdds(extensions: seq<string>, queue: seq<QueueItem>, events: seq<AddEvent>): seq<QueueItem>
    decreases |events|
  {
    if events == [] then queue
    else AfterAdds(extensions, AfterAdd(extensions, queue, events[0].filePath, events[0].id, events[0].now), events[1..])
  }

  /** Whatever files arrive, when only the watcher adds items no two items ever share a path. */
  lemma {:induction false} AfterAddsKeepsUniquePaths(extensions: seq<string>, queue: seq<QueueItem>, events: seq<AddEvent>)
    requires UniquePaths(queue)
    ensures UniquePaths(AfterAdds(extensions, queue, events))
    decreases |events|
  {
    if events != [] {
      var e := events[0];
      AfterAddKeepsUniquePaths(extensions, queue, e.filePath, e.id, e.now);
      AfterAddsKeepsUniquePaths(extensions, AfterAdd(extensions, queue, e.filePath, e.id, e.now), events[1..]);
    }
  }

  /** One `add` event appends at most one item and keeps the queue before it. */
  lemma AfterAddGrows(extensions: seq<string>, queue: seq<QueueItem>, filePath: string, id: string, now: int)
    ensures var r := AfterAdd(extensions, queue, filePath, id, now);
      |queue| <= |r| <= |queue| + 1 && r[..|queue|] == queue
  {
    var r := AfterAdd(extensions, queue, filePath, id, now);
    assert r[..|queue|] == queue;
  }

  /** The queue only grows at its end, by at most one item per event. */
  lemma {:induction false} AfterAddsGrows(extensions: seq<string>, queue: seq<QueueItem>, events: seq<AddEvent>)
    ensures |queue| <= |AfterAdds(extensions, queue, events)| <= |queue| + |events|
    ensures AfterAdds(extensions, queue, events)[..|queue|] == queue
    decreases |events|
  {
    if events != [] {
      var e := events[0];
      var q1 := AfterAdd(extensions, queue, e.filePath, e.id, e.now);
      AfterAddGrows(extensions, queue, e.filePath, e.id, e.now);
      AfterAddsGrows(extensions, q1, events[1..]);
      var r := AfterAdds(extensions, q1, events[1..]);
      assert AfterAdds(extensions, queue, events) == r;
      assert r[..|queue|] == r[..|q1|][..|queue|];
    }
  }

  // ----------------------------------------------------------- the watcher

  /** What `watch(watchDir, options)` was opened with, and the extensions its handler captured. */
  datatype WatchConfig = WatchConfig(
    dir: string,
    ignoreInitial: bool,
    depth: nat,
    stabilityThreshold: nat,
    extensions: seq<string>)

  /** The watcher startWatcher installs for the given settings, or none for an empty watch folder. */
  function WatcherFor(s: AppSettings): (r: Option<WatchConfig>)
    ensures r.None? <==> s.watchDir == ""
    ensures r.Some? ==> r.value.dir == s.watchDir && r.value.ignoreInitial == !s.queueExistingFiles
    ensures r.Some? ==> forall i :: 0 <= i < |r.value.extensions| ==> StartsWithDot(r.value.extensions[i])
  {
    if s.watchDir == "" then None
    else Some(WatchConfig(s.watchDir, !s.queueExistingFiles, 0, 2000, NormaliseExtensions(s.videoExtensions)))
  }

  /**
   * The installed watcher watches the folder, with the `ignoreInitial` flag,
   * that `s` asks for; only its extension list, captured when it started, may
   * differ from what `s` would give.
   */
  predicate WatchesFolderOf(installed: Option<WatchConfig>, s: AppSettings)
  {
    match WatcherFor(s)
    case None => installed.None?
    case Some(w) => installed.Some? && installed.value.(extensions := w.extensions) == w
  }

  /**
   * `queue.some(...)` over the queue read by the handler: scans in order and
   * stops at the first item with the path.
   */
  method AnyWithPath(queue: seq<QueueItem>, filePath: string) returns (found: bool)
    ensures found <==> IsQueued(queue, filePath)
  {
    var i := 0;
    while i < |queue|
      invariant 0 <= i <= |queue|
      invariant forall k :: 0 <= k < i ==> queue[k].filePath != filePath
    {
      if queue[i].filePath == filePath {
        return true;
      }
      i := i + 1;
    }
    return false;
  }

  /**
   * The module-level state of watcher.ts: the installed watcher (`null` is
   * `None`), whether an `onFileAdded` callback is set, and, as history, the
   * watchers closed so far, oldest first.
   */
  class FolderWatcher {
    var installed: Option<WatchConfig>
    var hasCallback: bool
    var closed: seq<WatchConfig>

    constructor ()
      ensures installed == None && !hasCallback && closed == []
    {
      installed := None;
      hasCallback := false;
      closed := [];
    }

    /** `setOnFileAdded(callback)` */
    method SetOnFileAdded()
      modifies this
      ensures hasCallback
      ensures installed == old(installed) && closed == old(closed)
    {
      hasCallback := true;
    }

    /** `stopWatcher()`: closes the watcher if there is one; a second call does nothing. */
    method StopWatcher()
      modifies this
      ensures installed == None
      ensures closed == old(closed) + (if old(installed).Some? then [old(installed).value] else [])
      ensures hasCallback == old(hasCallback)
    {
      if installed.Some? {
        closed := closed + [installed.value];
        installed := None;
      }
    }

    /**
     * `startWatcher()`: the previous watcher is always closed first; then,
     * unless the watch folder is empty, a new one is opened.
     */
    method StartWatcher(store: QueueStore)
      modifies this
      ensures closed == old(closed) + (if old(installed).Some? then [old(installed).value] else [])
      ensures installed == WatcherFor(store.GetSettings())
      ensures WatchesFolderOf(installed, store.GetSettings())
      ensures hasCallback == old(hasCallback)
    {
      StopWatcher();
      var settings := store.GetSettings();
      if settings.watchDir == "" {
        return;
      }
      var extensions := NormaliseExtensions(settings.videoExtensions);
      installed := Some(WatchConfig(settings.watchDir, !settings.queueExistingFiles, 0, 2000, extensions));
    }

    /**
     * The `add` handler of the installed watcher.  `id` and `now` stand for
     * the id drawn from the clock and `Math.random`, assumed not to collide
     * with an id already queued.  `notify` is whether `onFileAdded` runs.
     */
    method OnAdd(store: QueueStore, filePath: string, id: string, now: int) returns (notify: bool)
      requires installed.Some?
      requires id !in Ids(store.queue)
      modifies store
      ensures store.queue == AfterAdd(installed.value.extensions, old(store.queue), filePath, id, now)
      ensures notify <==> Admits(installed.value.extensions, old(store.queue), filePath) && hasCallback
      ensures store.settings == old(store.settings)
      ensures UniqueIds(old(store.queue)) ==> UniqueIds(store.queue)
      ensures EncodingIds(store.queue) == EncodingIds(old(store.queue))
      ensures UniquePaths(old(store.queue)) ==> UniquePaths(store.queue)
    {
      var extensions := installed.value.extensions;
      ghost var q0 := store.queue;
      if UniquePaths(q0) {
        AfterAddKeepsUniquePaths(extensions, q0, filePath, id, now);
      }
      EncodingIdsSnoc(q0, NewItem(id, filePath, now));
      if UniqueIds(q0) {
        AfterAddKeepsIds(extensions, q0, filePath, id, now);
      }
      var ext := FileExtension(filePath);
      if ext !in extensions {
        return false;
      }
      var queue := store.GetQueue();
      var duplicate := AnyWithPath(queue, filePath);
      if duplicate {
        return false;
      }
      store.AddQueueItem(NewItem(id, filePath, now));
      notify := hasCallback;
    }
  }
}
