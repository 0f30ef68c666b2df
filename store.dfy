/**
 * The persisted store (src/main/store.ts): one settings record and one queue
 * array, both held by electron-store and only ever read and written whole.
 */
module Store {
  import opened Wrappers

  datatype Status = Pending | Encoding | Complete | Failed

  /** One file that was ever enqueued. */
  datatype QueueItem = QueueItem(
    id: string,
    filePath: string,
    fileName: string,
    status: Status,
    progress: int,
    eta: string,
    error: Option<string>,
    addedAt: int,
    completedAt: Option<int>)

  /**
   * A `Partial<QueueItem>`: `None` leaves the field as it is; for the two
   * optional fields `Some(None)` writes `undefined` into them.
   */
  datatype ItemUpdate = ItemUpdate(
    id: Option<string>,
    filePath: Option<string>,
    fileName: Option<string>,
    status: Option<Status>,
    progress: Option<int>,
    eta: Option<string>,
    error: Option<Option<string>>,
    addedAt: Option<int>,
    completedAt: Option<Option<int>>)

  const NoUpdate := ItemUpdate(None, None, None, None, None, None, None, None, None)

  /** `{ ...item, ...updates }` */
  function ApplyUpdate(item: QueueItem, u: ItemUpdate): QueueItem
  {
    QueueItem(
      u.id.GetOr(item.id),
      u.filePath.GetOr(item.filePath),
      u.fileName.GetOr(item.fileName),
      u.status.GetOr(item.status),
      u.progress.GetOr(item.progress),
      u.eta.GetOr(item.eta),
      u.error.GetOr(item.error),
      u.addedAt.GetOr(item.addedAt),
      u.completedAt.GetOr(item.completedAt))
  }

  /** Spreading the same updates twice changes nothing more; an empty update changes nothing. */
  lemma ApplyUpdateIdempotent(item: QueueItem, u: ItemUpdate)
    ensures ApplyUpdate(ApplyUpdate(item, u), u) == ApplyUpdate(item, u)
    ensures ApplyUpdate(item, NoUpdate) == item
  {
  }

  // ---------------------------------------------------------------- settings

  datatype OutputFormat = M4v | Mp4 | Mkv | Webm

  /** The container name as it appears in settings and in file extensions. */
  function FormatName(f: OutputFormat): (r: string)
    ensures r != "" && '.' !in r && '/' !in r
  {
    match f
    case M4v => "m4v"
    case Mp4 => "mp4"
    case Mkv => "mkv"
    case Webm => "webm"
  }

  datatype AppSettings = AppSettings(
    watchDir: string,
    outputDir: string,
    preset: string,
    maxParallel: int,
    videoExtensions: seq<string>,
    queueExistingFiles: bool,
    handbrakeCliPath: string,
    paused: bool,
    customPresetPaths: seq<string>,
    outputFormat: OutputFormat)

  /**
   * The settings object as persisted: a record written by an older version
   * of the application may lack fields, so each one may be absent.
   */
  datatype StoredSettings = StoredSettings(
    watchDir: Option<string>,
    outputDir: Option<string>,
    preset: Option<string>,
    maxParallel: Option<int>,
    videoExtensions: Option<seq<string>>,
    queueExistingFiles: Option<bool>,
    handbrakeCliPath: Option<string>,
    paused: Option<bool>,
    customPresetPaths: Option<seq<string>>,
    outputFormat: Option<OutputFormat>)

  const NothingStored := StoredSettings(None, None, None, None, None, None, None, None, None, None)

  const DefaultSettings := AppSettings(
    "", "", "Fast 1080p30", 1,
    [".mp4", ".mkv", ".avi", ".mov", ".wmv", ".flv", ".webm", ".m4v", ".ts"],
    false, "", false, [], M4v)

  /** `{ ...defaults.settings, ...store.get('settings') }` */
  function MergeOverDefaults(s: StoredSettings): AppSettings
  {
    var d := DefaultSettings;
    AppSettings(
      s.watchDir.GetOr(d.watchDir),
      s.outputDir.GetOr(d.outputDir),
      s.preset.GetOr(d.preset),
      s.maxParallel.GetOr(d.maxParallel),
      s.videoExtensions.GetOr(d.videoExtensions),
      s.queueExistingFiles.GetOr(d.queueExistingFiles),
      s.handbrakeCliPath.GetOr(d.handbrakeCliPath),
      s.paused.GetOr(d.paused),
      s.customPresetPaths.GetOr(d.customPresetPaths),
      s.outputFormat.GetOr(d.outputFormat))
  }

  /** What `store.set('settings', s)` persists: every field present. */
  function Persisted(s: AppSettings): StoredSettings
  {
    StoredSettings(
      Some(s.watchDir), Some(s.outputDir), Some(s.preset), Some(s.maxParallel),
      Some(s.videoExtensions), Some(s.queueExistingFiles), Some(s.handbrakeCliPath),
      Some(s.paused), Some(s.customPresetPaths), Some(s.outputFormat))
  }

  /** Settings read back after a save are exactly the saved settings. */
  lemma SavedSettingsReadBack(s: AppSettings)
    ensures MergeOverDefaults(Persisted(s)) == s
  {
  }

  /** With nothing stored every field takes its default. */
  lemma DefaultsWhenNothingStored()
    ensures var s := MergeOverDefaults(NothingStored);
      s == DefaultSettings && s.maxParallel == 1 && s.outputFormat == M4v && !s.paused &&
      s.customPresetPaths == [] && s.watchDir == "" && s.preset == "Fast 1080p30"
  {
  }

  /** A field that is stored wins over its default; a missing one falls back to it. */
  lemma StoredFieldsWin(s: StoredSettings)
    ensures s.maxParallel.Some? ==> MergeOverDefaults(s).maxParallel == s.maxParallel.value
    ensures s.maxParallel.None? ==> MergeOverDefaults(s).maxParallel == 1
    ensures s.paused.Some? ==> MergeOverDefaults(s).paused == s.paused.value
    ensures s.paused.None? ==> !MergeOverDefaults(s).paused
    ensures s.outputFormat.None? ==> MergeOverDefaults(s).outputFormat == M4v
    ensures s.customPresetPaths.None? ==> MergeOverDefaults(s).customPresetPaths == []
    ensures s.watchDir.Some? ==> MergeOverDefaults(s).watchDir == s.watchDir.value
  {
  }

  // ------------------------------------------------------------------- queue

  /** `Array.prototype.filter`. */
  function Filter<T>(s: seq<T>, keep: T -> bool): (r: seq<T>)
    ensures |r| <= |s|
  {
    if s == [] then []
    else (if keep(s[0]) then [s[0]] else []) + Filter(s[1..], keep)
  }

  /** What `filter` keeps: exactly the elements that pass the test. */
  lemma {:induction false} FilterMembers<T>(s: seq<T>, keep: T -> bool)
    ensures forall k :: 0 <= k < |Filter(s, keep)| ==> Filter(s, keep)[k] in s && keep(Filter(s, keep)[k])
    ensures forall k :: 0 <= k < |s| && keep(s[k]) ==> s[k] in Filter(s, keep)
  {
    if s != [] {
      FilterMembers(s[1..], keep);
      var r := Filter(s, keep);
      var h := if keep(s[0]) then [s[0]] else [];
      assert r == h + Filter(s[1..], keep);
      forall k | 0 <= k < |r| ensures r[k] in s && keep(r[k]) {
        if k >= |h| {
          assert r[k] == Filter(s[1..], keep)[k - |h|];
          assert r[k] in s[1..];
        }
      }
      forall k | 0 <= k < |s| && keep(s[k]) ensures s[k] in r {
        if k > 0 {
          assert s[k] == s[1..][k - 1];
        }
      }
    }
  }

  /** Filtering keeps relative order: it distributes over concatenation. */
  lemma {:induction false} FilterConcat<T>(a: seq<T>, b: seq<T>, keep: T -> bool)
    ensures Filter(a + b, keep) == Filter(a, keep) + Filter(b, keep)
  {
    if a != [] {
      assert (a + b)[1..] == a[1..] + b;
      FilterConcat(a[1..], b, keep);
    } else {
      assert a + b == b;
    }
  }

  /** Filtering twice with the same test is filtering once. */
  lemma {:induction false} FilterIdempotent<T>(s: seq<T>, keep: T -> bool)
    ensures Filter(Filter(s, keep), keep) == Filter(s, keep)
  {
    if s != [] {
      FilterIdempotent(s[1..], keep);
      var f := Filter(s, keep);
      if keep(s[0]) {
        assert f == [s[0]] + Filter(s[1..], keep);
        assert f != [] && f[0] == s[0] && f[1..] == Filter(s[1..], keep);
      } else {
        assert f == Filter(s[1..], keep);
      }
    }
  }

  /** A filter that keeps every element is the identity. */
  lemma {:induction false} FilterAll<T>(s: seq<T>, keep: T -> bool)
    requires forall k :: 0 <= k < |s| ==> keep(s[k])
    ensures Filter(s, keep) == s
  {
    if s != [] {
      FilterAll(s[1..], keep);
    }
  }

  ghost predicate UniqueIds(q: seq<QueueItem>)
  {
    forall i, j :: 0 <= i < j < |q| ==> q[i].id != q[j].id
  }

  function Ids(q: seq<QueueItem>): set<string>
  {
    set k | 0 <= k < |q| :: q[k].id
  }

  /** The queue after `updateQueueItem(id, u)`. */
  function Updated(q: seq<QueueItem>, id: string, u: ItemUpdate): (r: seq<QueueItem>)
    ensures |r| == |q|
  {
    if q == [] then []
    else if q[0].id == id then [ApplyUpdate(q[0], u)] + q[1..]
    else [q[0]] + Updated(q[1..], id, u)
  }

  /** `queue.findIndex((item) => item.id === id)`: the first position with the id, or -1. */
  function IndexOf(q: seq<QueueItem>, id: string): (r: int)
    ensures -1 <= r < |q|
    ensures r >= 0 ==> q[r].id == id
    ensures forall k :: 0 <= k < |q| && (r < 0 || k < r) ==> q[k].id != id
  {
    if q == [] then -1
    else if q[0].id == id then 0
    else
      var r := IndexOf(q[1..], id);
      assert forall k :: 1 <= k < |q| ==> q[k] == q[1..][k - 1];
      if r < 0 then -1 else r + 1
  }

  /** The update reaches only the first item with the id, as `findIndex` finds it; every other item is kept. */
  lemma {:induction false} UpdatedAt(q: seq<QueueItem>, id: string, u: ItemUpdate)
    ensures Updated(q, id, u) == if IndexOf(q, id) < 0 then q else q[IndexOf(q, id) := ApplyUpdate(q[IndexOf(q, id)], u)]
  {
    if q != [] {
      if q[0].id == id {
        assert [ApplyUpdate(q[0], u)] + q[1..] == q[0 := ApplyUpdate(q[0], u)];
      } else {
        UpdatedAt(q[1..], id, u);
        var p := IndexOf(q[1..], id);
        if p < 0 {
          assert [q[0]] + q[1..] == q;
        } else {
          assert [q[0]] + q[1..][p := ApplyUpdate(q[1..][p], u)] == q[p + 1 := ApplyUpdate(q[p + 1], u)];
        }
      }
    }
  }

  /** An update for an id no item has is a no-op, not an error. */
  lemma UpdatedAbsent(q: seq<QueueItem>, id: string, u: ItemUpdate)
    requires id !in Ids(q)
    ensures Updated(q, id, u) == q
  {
    UpdatedAt(q, id, u);
    assert forall k :: 0 <= k < |q| ==> q[k].id in Ids(q);
  }

  /** With unique ids an update touches the one item with that id and nothing else. */
  lemma UpdatedUnique(q: seq<QueueItem>, p: int, u: ItemUpdate)
    requires UniqueIds(q) && 0 <= p < |q|
    ensures Updated(q, q[p].id, u) == q[p := ApplyUpdate(q[p], u)]
  {
    UpdatedAt(q, q[p].id, u);
    assert IndexOf(q, q[p].id) == p;
  }

  function HasOtherId(id: string): QueueItem -> bool
  {
    (x: QueueItem) => x.id != id
  }

  /** The queue after `removeQueueItem(id)`. */
  function Removed(q: seq<QueueItem>, id: string): seq<QueueItem>
  {
    Filter(q, HasOtherId(id))
  }

  /** Removal keeps exactly the items with a different id, in their order, and is idempotent. */
  lemma RemovedSpec(q: seq<QueueItem>, id: string, rest: seq<QueueItem>)
    ensures forall x :: x in Removed(q, id) <==> x in q && x.id != id
    ensures id !in Ids(Removed(q, id))
    ensures Removed(Removed(q, id), id) == Removed(q, id)
    ensures Removed(q + rest, id) == Removed(q, id) + Removed(rest, id)
    ensures id !in Ids(q) ==> Removed(q, id) == q
  {
    var r := Removed(q, id);
    FilterMembers(q, HasOtherId(id));
    assert forall k :: 0 <= k < |r| ==> r[k] in r;
    FilterIdempotent(q, HasOtherId(id));
    FilterConcat(q, rest, HasOtherId(id));
    if id !in Ids(q) {
      assert forall k :: 0 <= k < |q| ==> q[k].id in Ids(q);
      FilterAll(q, HasOtherId(id));
    }
  }

  function IsNotComplete(x: QueueItem): bool
  {
    x.status != Complete
  }

  /** The queue after `clearCompletedItems()`. */
  function WithoutCompleted(q: seq<QueueItem>): seq<QueueItem>
  {
    Filter(q, IsNotComplete)
  }

  /** Clearing removes all and only the complete items, keeps order, and is idempotent. */
  lemma WithoutCompletedSpec(q: seq<QueueItem>, rest: seq<QueueItem>)
    ensures forall x :: x in WithoutCompleted(q) <==> x in q && x.status != Complete
    ensures WithoutCompleted(WithoutCompleted(q)) == WithoutCompleted(q)
    ensures WithoutCompleted(q + rest) == WithoutCompleted(q) + WithoutCompleted(rest)
    ensures (forall k :: 0 <= k < |q| ==> q[k].status != Complete) ==> WithoutCompleted(q) == q
  {
    FilterMembers(q, IsNotComplete);
    FilterIdempotent(q, IsNotComplete);
    FilterConcat(q, rest, IsNotComplete);
    if forall k :: 0 <= k < |q| ==> q[k].status != Complete {
      FilterAll(q, IsNotComplete);
    }
  }

  /** Filtering keeps every id unique that was unique before. */
  lemma {:induction false} FilterKeepsUniqueIds(q: seq<QueueItem>, keep: QueueItem -> bool)
    requires UniqueIds(q)
    ensures UniqueIds(Filter(q, keep))
    ensures Ids(Filter(q, keep)) <= Ids(q)
  {
    var r := Filter(q, keep);
    FilterMembers(q, keep);
    forall k | 0 <= k < |r| ensures r[k].id in Ids(q) {
      assert r[k] in r;
      var j :| 0 <= j < |q| && q[j] == r[k];
    }
    if q != [] {
      FilterKeepsUniqueIds(q[1..], keep);
      FilterMembers(q[1..], keep);
      var tail := Filter(q[1..], keep);
      forall k | 0 <= k < |tail| ensures tail[k].id != q[0].id {
        assert tail[k] in tail;
        var j :| 0 <= j < |q[1..]| && q[1..][j] == tail[k];
        assert q[j + 1] == tail[k];
      }
    }
  }

  /** `queue.findIndex((item) => item.id === id)` */
  method FindIndex(q: seq<QueueItem>, id: string) returns (index: int)
    ensures -1 <= index < |q|
    ensures index == -1 ==> id !in Ids(q)
    ensures index >= 0 ==> q[index].id == id && forall k :: 0 <= k < index ==> q[k].id != id
  {
    var i := 0;
    while i < |q|
      invariant 0 <= i <= |q|
      invariant forall k :: 0 <= k < i ==> q[k].id != id
    {
      if q[i].id == id {
        return i;
      }
      i := i + 1;
    }
    return -1;
  }

  /** The electron-store instance; `settings` is the raw persisted record. */
  class QueueStore {
    var settings: StoredSettings
    var queue: seq<QueueItem>

    /** The store as found on disk at start-up. */
    constructor (persistedSettings: StoredSettings, persistedQueue: seq<QueueItem>)
      ensures settings == persistedSettings && queue == persistedQueue
    {
      settings := persistedSettings;
      queue := persistedQueue;
    }

    /** `getSettings()` */
    function GetSettings(): AppSettings
      reads this`settings
    {
      MergeOverDefaults(settings)
    }

    /** `saveSettings(s)`: after it, `GetSettings()` is `s` (see SavedSettingsReadBack). */
    method SaveSettings(s: AppSettings)
      modifies this
      ensures settings == Persisted(s) && queue == old(queue)
    {
      settings := Persisted(s);
    }

    /** `getQueue()` */
    method GetQueue() returns (q: seq<QueueItem>)
      ensures q == queue
    {
      q := queue;
    }

    /** `updateQueueItem(id, updates)` */
    method UpdateQueueItem(id: string, u: ItemUpdate)
      modifies this
      ensures queue == Updated(old(queue), id, u)
      ensures settings == old(settings)
    {
      var q := queue;
      var index := FindIndex(q, id);
      if index != -1 {
        UpdatedAt(q, id, u);
        q := q[index := ApplyUpdate(q[index], u)];
        queue := q;
      } else {
        UpdatedAbsent(q, id, u);
      }
    }

    /** `addQueueItem(item)`: appends, without a duplicate check of its own. */
    method AddQueueItem(item: QueueItem)
      modifies this
      ensures queue == old(queue) + [item]
      ensures settings == old(settings)
    {
      var q := queue;
      q := q + [item];
      queue := q;
    }

    /** `removeQueueItem(id)` */
    method RemoveQueueItem(id: string)
      modifies this
      ensures queue == Removed(old(queue), id)
      ensures settings == old(settings)
    {
      queue := Removed(queue, id);
    }

    /** `clearCompletedItems()` */
    method ClearCompletedItems()
      modifies this
      ensures queue == WithoutCompleted(old(queue))
      ensures settings == old(settings)
    {
      queue := WithoutCompleted(queue);
    }
  }
}
