/**
 * The dispatcher (src/main/queue.ts): admission of pending items up to the
 * parallelism limit, the completion and error callbacks, crash recovery and
 * the remove / retry / clear-completed / pause entry points.
 *
 * The encoder's process events reach the model as calls of EncodeCompleted
 * and EncodeErrored for an arbitrary id: a killed or superseded process can
 * still report, so nothing ties an event to a live job.
 */
module Queue {
  import opened Wrappers
  import opened Store
  import opened Encoder
  import opened NodePath

  function Min(a: int, b: int): int { if a <= b then a else b }
  function Max(a: int, b: int): int { if a <= b then b else a }

  function IsPending(x: QueueItem): bool { x.status == Pending }
  function IsEncoding(x: QueueItem): bool { x.status == Encoding }

  /** `queue.filter((item) => item.status === 'pending')` */
  function PendingItems(q: seq<QueueItem>): seq<QueueItem> { Filter(q, IsPending) }

  /** The number of items currently marked `encoding`. */
  function CountEncoding(q: seq<QueueItem>): nat { |Filter(q, IsEncoding)| }

  function EncodingIds(q: seq<QueueItem>): set<string>
  {
    set k | 0 <= k < |q| && q[k].status == Encoding :: q[k].id
  }

  /** `{ status: 'encoding', progress: 0, eta: '' }`, written before an encode starts. */
  const StartUpdate := NoUpdate.(status := Some(Encoding), progress := Some(0), eta := Some(""))

  /** What onComplete writes. */
  function CompleteUpdate(now: int): ItemUpdate
  {
    NoUpdate.(status := Some(Complete), progress := Some(100), eta := Some(""), completedAt := Some(Some(now)))
  }

  /** What onError writes. */
  function FailUpdate(message: string): ItemUpdate
  {
    NoUpdate.(status := Some(Failed), progress := Some(0), eta := Some(""), error := Some(Some(message)))
  }

  /** What recoverFromCrash writes into each item found encoding. */
  const RecoverUpdate := NoUpdate.(status := Some(Pending), progress := Some(0), eta := Some(""))

  /** What handleRetryItem writes: pending again, and `error: undefined`. */
  const RetryUpdate := RecoverUpdate.(error := Some(None))

  /** `pending.slice(0, available)` */
  function ToStart(q: seq<QueueItem>, available: int): (r: seq<QueueItem>)
    requires available >= 0
    ensures |r| <= available && |r| <= |PendingItems(q)|
    ensures |r| == available || |r| == |PendingItems(q)|
  {
    PendingItems(q)[..Min(available, |PendingItems(q)|)]
  }

  /**
   * The queue once the first `k` pending items, in queue order, have been
   * marked encoding: the pending item at position j is started exactly when
   * fewer than k pending items stand before it.
   */
  function Admitted(q: seq<QueueItem>, k: int): seq<QueueItem>
  {
    seq(|q|, j requires 0 <= j < |q| =>
      if q[j].status == Pending && |PendingItems(q[..j])| < k then ApplyUpdate(q[j], StartUpdate) else q[j])
  }

  /** processQueue goes past its two early returns. */
  predicate Dispatches(s: AppSettings, activeCount: int)
  {
    !s.paused && s.maxParallel - activeCount > 0
  }

  /** The queue after processQueue, given the settings and `getActiveJobCount()`. */
  function DispatchedQueue(q: seq<QueueItem>, s: AppSettings, activeCount: int): seq<QueueItem>
  {
    if Dispatches(s, activeCount) then Admitted(q, s.maxParallel - activeCount) else q
  }

  /** The items processQueue starts. */
  function Started(q: seq<QueueItem>, s: AppSettings, activeCount: int): seq<QueueItem>
  {
    if Dispatches(s, activeCount) then ToStart(q, s.maxParallel - activeCount) else []
  }

  /**
   * The two early returns: while paused, or with no room left, processQueue
   * starts nothing and leaves the queue as it is; otherwise it starts the first
   * `maxParallel - activeCount` pending items.
   */
  lemma DispatchCases(q: seq<QueueItem>, s: AppSettings, activeCount: int)
    ensures s.paused ==> DispatchedQueue(q, s, activeCount) == q && Started(q, s, activeCount) == []
    ensures s.maxParallel - activeCount <= 0 ==> DispatchedQueue(q, s, activeCount) == q && Started(q, s, activeCount) == []
    ensures Dispatches(s, activeCount) ==>
      Started(q, s, activeCount) == PendingItems(q)[..Min(s.maxParallel - activeCount, |PendingItems(q)|)]
  {
  }

  /**
   * The spawn options of a job started by processQueue, which passes no custom
   * preset paths and no output format (so the default `m4v` applies), and
   * `settings.handbrakeCliPath || undefined` as the tool path.
   */
  function DispatchSpawn(s: AppSettings): QueueItem -> SpawnOptions
  {
    (item: QueueItem) => SpawnFor(item.filePath, s.outputDir, s.preset, Some(s.handbrakeCliPath), None, M4v)
  }

  /**
   * What a dispatched encode is spawned with: the item's file as input, a file
   * of the same stem in the `m4v` container in the output folder, the
   * configured preset, the CLI path exactly when one is configured, and never
   * a preset import file.
   */
  lemma DispatchSpawnOptions(s: AppSettings, item: QueueItem)
    requires BaseName(item.filePath) != ""
    ensures var o := DispatchSpawn(s)(item);
      && o.input == item.filePath && o.preset == s.preset
      && ExtName(o.output) == "." + FormatName(M4v) && Stem(o.output) == Stem(item.filePath)
      && BaseName(o.output) == Stem(item.filePath) + "." + FormatName(M4v)
      && (o.handbrakeCliPath.Some? <==> s.handbrakeCliPath != "")
      && (o.handbrakeCliPath.Some? ==> o.handbrakeCliPath.value == s.handbrakeCliPath)
      && o.presetImportFile.None?
  {
    OutputPathShape(item.filePath, s.outputDir, M4v);
  }

  /**
   * The jobs registered for `started`, one per item in loop order, keyed by
   * item id, each with the options `spawn` gives it.
   */
  function Spawns<V>(spawn: QueueItem -> V, started: seq<QueueItem>): map<string, V>
    decreases |started|
  {
    if started == [] then map[]
    else Spawns(spawn, started[..|started| - 1])[started[|started| - 1].id := spawn(started[|started| - 1])]
  }

  /**
   * The invariant the dispatcher keeps between events: ids are unique and
   * every item marked encoding has a registered job.
   */
  ghost predicate Consistent(store: QueueStore, sup: Supervisor)
    reads store, sup
  {
    UniqueIds(store.queue) && EncodingIds(store.queue) <= sup.activeJobs.Keys && sup.Valid()
  }

  /** No more jobs are registered than the configured limit allows. */
  ghost predicate WithinLimit(store: QueueStore, sup: Supervisor)
    reads store, sup
  {
    |sup.activeJobs| <= store.GetSettings().maxParallel
  }

  // ------------------------------------------------------- lemmas on Pending

  lemma FilterSingleton<T>(x: T, keep: T -> bool)
    ensures Filter([x], keep) == if keep(x) then [x] else []
  {
    assert [x][1..] == [];
  }

  /** The pending item at position j is the |PendingItems(q[..j])|-th pending item. */
  lemma PendingAt(q: seq<QueueItem>, j: int)
    requires 0 <= j < |q| && q[j].status == Pending
    ensures |PendingItems(q[..j])| < |PendingItems(q)| && PendingItems(q)[|PendingItems(q[..j])|] == q[j]
  {
    assert q == q[..j] + [q[j]] + q[j + 1..];
    FilterConcat(q[..j] + [q[j]], q[j + 1..], IsPending);
    FilterConcat(q[..j], [q[j]], IsPending);
    FilterSingleton(q[j], IsPending);
  }

  /** Every pending item stands somewhere in the queue, with exactly t pending items before it. */
  lemma {:induction false} PendingPosition(q: seq<QueueItem>, t: int) returns (p: int)
    requires 0 <= t < |PendingItems(q)|
    ensures 0 <= p < |q| && q[p] == PendingItems(q)[t] && q[p].status == Pending
    ensures |PendingItems(q[..p])| == t
    decreases |q|
  {
    var n := |q| - 1;
    var init := q[..n];
    assert q == init + [q[n]];
    FilterConcat(init, [q[n]], IsPending);
    FilterSingleton(q[n], IsPending);
    if t < |PendingItems(init)| {
      p := PendingPosition(init, t);
      assert q[..p] == init[..p];
    } else {
      p := n;
    }
  }

  lemma IdsSnoc(s: seq<QueueItem>, x: QueueItem)
    ensures Ids(s + [x]) == Ids(s) + {x.id}
  {
    var t := s + [x];
    assert t[|s|] == x;
    forall y | y in Ids(s) ensures y in Ids(t) {
      var k :| 0 <= k < |s| && s[k].id == y;
      assert t[k] == s[k];
    }
  }

  lemma IdsPrefixStep(s: seq<QueueItem>, i: int)
    requires 0 <= i < |s|
    ensures Ids(s[..i + 1]) == Ids(s[..i]) + {s[i].id}
  {
    assert s[..i + 1] == s[..i] + [s[i]];
    IdsSnoc(s[..i], s[i]);
  }

  lemma {:induction false} IdsCard(s: seq<QueueItem>)
    ensures |Ids(s)| <= |s|
    decreases |s|
  {
    if s != [] {
      var n := |s| - 1;
      assert s == s[..n] + [s[n]];
      IdsSnoc(s[..n], s[n]);
      IdsCard(s[..n]);
    }
  }

  // ------------------------------------------------------ lemmas on Admitted

  /** Admission changes statuses only: ids, paths and everything non-pending stay. */
  lemma AdmittedKeepsIds(q: seq<QueueItem>, k: int)
    ensures |Admitted(q, k)| == |q|
    ensures forall j :: 0 <= j < |q| ==>
      Admitted(q, k)[j].id == q[j].id && Admitted(q, k)[j].filePath == q[j].filePath
    ensures forall j :: 0 <= j < |q| && q[j].status != Pending ==> Admitted(q, k)[j] == q[j]
    ensures Ids(Admitted(q, k)) == Ids(q)
    ensures UniqueIds(q) ==> UniqueIds(Admitted(q, k))
  {
    var a := Admitted(q, k);
    assert forall j :: 0 <= j < |q| ==> a[j].id == q[j].id;
    forall y | y in Ids(q) ensures y in Ids(a) {
      var j :| 0 <= j < |q| && q[j].id == y;
      assert a[j].id == y;
    }
  }

  /** Admitting one more item starts exactly the next pending one. */
  lemma AdmittedStep(q: seq<QueueItem>, i: int, p: int)
    requires UniqueIds(q) && 0 <= i
    requires 0 <= p < |q| && q[p].status == Pending && |PendingItems(q[..p])| == i
    ensures Admitted(q, i + 1) == Admitted(q, i)[p := ApplyUpdate(q[p], StartUpdate)]
  {
    var a, b := Admitted(q, i), Admitted(q, i + 1);
    forall j | 0 <= j < |q| && j != p ensures b[j] == a[j] {
      if q[j].status == Pending && |PendingItems(q[..j])| == i {
        PendingAt(q, j);
        PendingAt(q, p);
        assert false;
      }
    }
  }

  /** With more room than pending items, all of them are started. */
  lemma AdmittedSaturates(q: seq<QueueItem>, k: int)
    requires k >= 0
    ensures Admitted(q, Min(k, |PendingItems(q)|)) == Admitted(q, k)
  {
    forall j | 0 <= j < |q| && q[j].status == Pending {
      PendingAt(q, j);
    }
  }

  /**
   * The items admission starts are exactly those of `pending.slice(0, k)`:
   * every other item is left as it was.
   */
  lemma AdmittedMarksToStart(q: seq<QueueItem>, k: int)
    requires UniqueIds(q) && k >= 0
    ensures |Admitted(q, k)| == |q|
    ensures forall j :: 0 <= j < |q| ==>
      Admitted(q, k)[j] == if q[j].id in Ids(ToStart(q, k)) then ApplyUpdate(q[j], StartUpdate) else q[j]
  {
    var a := Admitted(q, k);
    var T := ToStart(q, k);
    forall j | 0 <= j < |q|
      ensures a[j] == if q[j].id in Ids(T) then ApplyUpdate(q[j], StartUpdate) else q[j]
    {
      var b := |PendingItems(q[..j])|;
      if q[j].status == Pending && b < k {
        PendingAt(q, j);
        assert T[b] == q[j];
      } else {
        forall t | 0 <= t < |T| ensures T[t].id != q[j].id {
          var p := PendingPosition(q, t);
        }
      }
    }
  }

  /** Exactly min(k, #pending) items leave the pending state. */
  lemma {:induction false} AdmittedPendingCount(q: seq<QueueItem>, k: int)
    requires k >= 0
    ensures |PendingItems(Admitted(q, k))| == |PendingItems(q)| - Min(k, |PendingItems(q)|)
    decreases |q|
  {
    if q == [] {
      assert Admitted(q, k) == [];
    } else {
      var n := |q| - 1;
      var init := q[..n];
      var a := Admitted(q, k);
      AdmittedPendingCount(init, k);
      assert q == init + [q[n]];
      assert a == Admitted(init, k) + [a[n]] by {
        forall j | 0 <= j < n ensures a[j] == Admitted(init, k)[j] {
          assert q[..j] == init[..j];
        }
      }
      FilterConcat(Admitted(init, k), [a[n]], IsPending);
      FilterConcat(init, [q[n]], IsPending);
      FilterSingleton(a[n], IsPending);
      FilterSingleton(q[n], IsPending);
    }
  }

  /** Admission keeps the invariant: the newly encoding items are the started ones. */
  lemma AdmittedConsistent(q: seq<QueueItem>, keys: set<string>, k: int)
    requires UniqueIds(q) && EncodingIds(q) <= keys && k >= 0
    ensures UniqueIds(Admitted(q, k))
    ensures EncodingIds(Admitted(q, k)) <= keys + Ids(ToStart(q, k))
  {
    AdmittedKeepsIds(q, k);
    AdmittedMarksToStart(q, k);
    var a := Admitted(q, k);
    forall y | y in EncodingIds(a) ensures y in keys + Ids(ToStart(q, k)) {
      var j :| 0 <= j < |a| && a[j].status == Encoding && a[j].id == y;
      if q[j].id !in Ids(ToStart(q, k)) {
        assert q[j].id in EncodingIds(q);
      }
    }
  }

  /** Dispatch never registers more jobs than the limit, unless there already were more. */
  lemma DispatchBound(q: seq<QueueItem>, keys: set<string>, s: AppSettings)
    ensures |keys + Ids(Started(q, s, |keys|))| <= Max(|keys|, s.maxParallel)
  {
    var started := Started(q, s, |keys|);
    IdsCard(started);
  }

  /**
   * What one run of processQueue leaves behind, on values: the queue keeps
   * unique ids, every encoding item has a job, and the job count stays within
   * the limit (or at what it was, if that was already more).
   */
  lemma DispatchOutcome(q: seq<QueueItem>, jobs0: map<string, SpawnOptions>, jobs: map<string, SpawnOptions>,
                        s: AppSettings)
    requires UniqueIds(q) && EncodingIds(q) <= jobs0.Keys
    requires jobs == jobs0 + Spawns(DispatchSpawn(s), Started(q, s, |jobs0|))
    ensures UniqueIds(DispatchedQueue(q, s, |jobs0|))
    ensures EncodingIds(DispatchedQueue(q, s, |jobs0|)) <= jobs.Keys
    ensures |jobs| <= Max(|jobs0|, s.maxParallel)
  {
    SpawnsKeys(DispatchSpawn(s), Started(q, s, |jobs0|));
    assert jobs.Keys == jobs0.Keys + Ids(Started(q, s, |jobs0|));
    assert |jobs| == |jobs.Keys| && |jobs0| == |jobs0.Keys|;
    if Dispatches(s, |jobs0|) {
      var k := s.maxParallel - |jobs0|;
      AdmittedConsistent(q, jobs0.Keys, k);
      assert DispatchedQueue(q, s, |jobs0|) == Admitted(q, k);
      assert Started(q, s, |jobs0|) == ToStart(q, k);
    } else {
      assert DispatchedQueue(q, s, |jobs0|) == q;
    }
    DispatchBound(q, jobs0.Keys, s);
  }

  // -------------------------------------------- lemmas on the other updates

  /** Forgetting a job never increases the job count. */
  lemma RemoveJobCount(jobs: map<string, SpawnOptions>, id: string)
    ensures |jobs - {id}| <= |jobs|
  {
    assert (jobs - {id}).Keys <= jobs.Keys;
    assert |(jobs - {id}).Keys| <= |jobs.Keys| by {
      var a := (jobs - {id}).Keys;
      var b := jobs.Keys;
      assert b == a + (b - a);
    }
  }

  /** Ids of a filtered queue that are encoding were encoding before. */
  lemma FilterEncodingIds(q: seq<QueueItem>, keep: QueueItem -> bool)
    ensures EncodingIds(Filter(q, keep)) <= EncodingIds(q)
  {
    var r := Filter(q, keep);
    FilterMembers(q, keep);
    forall y | y in EncodingIds(r) ensures y in EncodingIds(q) {
      var j :| 0 <= j < |r| && r[j].status == Encoding && r[j].id == y;
      assert r[j] in q;
      var i :| 0 <= i < |q| && q[i] == r[j];
    }
  }

  /** An update that leaves ids alone and writes a non-encoding status keeps the invariant and clears `id`. */
  lemma UpdateLeavesEncoding(q: seq<QueueItem>, id: string, u: ItemUpdate)
    requires UniqueIds(q) && u.id.None? && u.status.Some? && u.status.value != Encoding
    ensures UniqueIds(Updated(q, id, u)) && Ids(Updated(q, id, u)) == Ids(q)
    ensures EncodingIds(Updated(q, id, u)) <= EncodingIds(q) - {id}
  {
    UpdatedAt(q, id, u);
    var p := IndexOf(q, id);
    if p >= 0 {
      var x := ApplyUpdate(q[p], u);
      assert Updated(q, id, u) == q[p := x];
      ReplaceKeepsIds(q, p, x);
      ReplaceLeavesEncoding(q, p, x);
    } else {
      assert Updated(q, id, u) == q;
      AbsentIdNotEncoding(q, id);
    }
  }

  /** An id no item carries is not among the encoding ids. */
  lemma AbsentIdNotEncoding(q: seq<QueueItem>, id: string)
    requires forall k :: 0 <= k < |q| ==> q[k].id != id
    ensures EncodingIds(q) <= EncodingIds(q) - {id}
  {
    forall y | y in EncodingIds(q) ensures y != id {
      var j :| 0 <= j < |q| && q[j].status == Encoding && q[j].id == y;
    }
  }

  /** Replacing an item by a non-encoding one with the same id takes that id out of the encoding set. */
  lemma ReplaceLeavesEncoding(q: seq<QueueItem>, p: int, x: QueueItem)
    requires UniqueIds(q) && 0 <= p < |q| && x.id == q[p].id && x.status != Encoding
    ensures EncodingIds(q[p := x]) <= EncodingIds(q) - {x.id}
  {
    var r := q[p := x];
    forall y | y in EncodingIds(r) ensures y in EncodingIds(q) - {x.id} {
      var j :| 0 <= j < |r| && r[j].status == Encoding && r[j].id == y;
      assert j != p && r[j] == q[j];
    }
  }

  /** Replacing an item by one with the same id keeps the ids and their uniqueness. */
  lemma ReplaceKeepsIds(q: seq<QueueItem>, p: int, x: QueueItem)
    requires UniqueIds(q) && 0 <= p < |q| && x.id == q[p].id
    ensures UniqueIds(q[p := x]) && Ids(q[p := x]) == Ids(q)
  {
    var r := q[p := x];
    assert forall j :: 0 <= j < |q| ==> r[j].id == q[j].id;
    forall y | y in Ids(q) ensures y in Ids(r) {
      var j :| 0 <= j < |q| && q[j].id == y;
      assert r[j].id == y;
    }
  }

  lemma EncodingIdsSnoc(init: seq<QueueItem>, x: QueueItem)
    ensures EncodingIds(init + [x]) == EncodingIds(init) + (if x.status == Encoding then {x.id} else {})
  {
    var q := init + [x];
    forall y | y in EncodingIds(q) ensures y in EncodingIds(init) + (if x.status == Encoding then {x.id} else {}) {
      var j :| 0 <= j < |q| && q[j].status == Encoding && q[j].id == y;
      if j < |init| { assert init[j] == q[j]; }
    }
    forall y | y in EncodingIds(init) ensures y in EncodingIds(q) {
      var j :| 0 <= j < |init| && init[j].status == Encoding && init[j].id == y;
      assert q[j] == init[j];
    }
    if x.status == Encoding {
      assert q[|init|] == x;
    }
  }

  /** With unique ids, the encoding ids are as many as the encoding items. */
  lemma {:induction false} EncodingIdsCount(q: seq<QueueItem>)
    requires UniqueIds(q)
    ensures |EncodingIds(q)| == CountEncoding(q)
    decreases |q|
  {
    if q == [] {
      assert EncodingIds(q) == {};
    } else {
      var n := |q| - 1;
      var init := q[..n];
      assert q == init + [q[n]];
      EncodingIdsCount(init);
      FilterConcat(init, [q[n]], IsEncoding);
      FilterSingleton(q[n], IsEncoding);
      EncodingIdsSnoc(init, q[n]);
    }
  }

  /**
   * The bound the dispatcher exists for: while the invariant holds, no more
   * items are encoding than jobs are registered, hence no more than the limit.
   */
  lemma EncodingWithinActive(q: seq<QueueItem>, keys: set<string>, maxParallel: int)
    requires UniqueIds(q) && EncodingIds(q) <= keys
    ensures CountEncoding(q) <= |keys|
    ensures |keys| <= maxParallel ==> CountEncoding(q) <= maxParallel
  {
    EncodingIdsCount(q);
    assert |EncodingIds(q)| <= |keys| by {
      assert keys == EncodingIds(q) + (keys - EncodingIds(q));
    }
  }

  // --------------------------------------------------------------- recovery

  /** The queue after recoverFromCrash. */
  function Recovered(q: seq<QueueItem>): (r: seq<QueueItem>)
    ensures |r| == |q|
    ensures forall j :: 0 <= j < |q| ==> r[j].status != Encoding && r[j].id == q[j].id
    ensures forall j :: 0 <= j < |q| && q[j].status != Encoding ==> r[j] == q[j]
    ensures forall j :: 0 <= j < |q| && q[j].status == Encoding ==>
      r[j] == q[j].(status := Pending, progress := 0, eta := "")
  {
    seq(|q|, j requires 0 <= j < |q| =>
      if q[j].status == Encoding then ApplyUpdate(q[j], RecoverUpdate) else q[j])
  }

  /** After recovery no item is encoding, so any supervisor, even an empty one, is consistent with it. */
  lemma RecoveredConsistent(q: seq<QueueItem>)
    requires UniqueIds(q)
    ensures UniqueIds(Recovered(q)) && EncodingIds(Recovered(q)) == {}
    ensures CountEncoding(Recovered(q)) == 0
  {
    var r := Recovered(q);
    assert EncodingIds(r) == {};
    RecoveredNoneEncoding(r);
  }

  lemma {:induction false} RecoveredNoneEncoding(r: seq<QueueItem>)
    requires forall j :: 0 <= j < |r| ==> r[j].status != Encoding
    ensures CountEncoding(r) == 0
    decreases |r|
  {
    if r != [] {
      RecoveredNoneEncoding(r[1..]);
    }
  }

  /** A persisted queue with an item left encoding cannot be dispatched by a fresh supervisor before recovery. */
  lemma EncodingBeforeRecoveryInconsistent(q: seq<QueueItem>, j: int)
    requires 0 <= j < |q| && q[j].status == Encoding
    ensures !(EncodingIds(q) <= {})
  {
    assert q[j].id in EncodingIds(q);
  }

  /** One turn of processQueue's loop: updating the i-th item of `pending.slice` by id admits one more item. */
  lemma DispatchStep(q: seq<QueueItem>, i: int)
    requires UniqueIds(q) && 0 <= i < |PendingItems(q)|
    ensures Updated(Admitted(q, i), PendingItems(q)[i].id, StartUpdate) == Admitted(q, i + 1)
  {
    var p := PendingPosition(q, i);
    AdmittedStep(q, i, p);
    AdmittedKeepsIds(q, i);
    UpdatedUnique(Admitted(q, i), p, StartUpdate);
  }

  /** One job is registered per started item: the jobs' ids are exactly the started ids. */
  lemma {:induction false} SpawnsKeys<V>(spawn: QueueItem -> V, started: seq<QueueItem>)
    ensures Spawns(spawn, started).Keys == Ids(started)
    decreases |started|
  {
    if started != [] {
      var n := |started| - 1;
      SpawnsKeys(spawn, started[..n]);
      IdsPrefixStep(started, n);
      assert started[..n + 1] == started;
    }
  }

  /** With unique ids, each started item's job carries that item's dispatch options. */
  lemma {:induction false} SpawnsAt<V>(spawn: QueueItem -> V, started: seq<QueueItem>, t: int)
    requires UniqueIds(started) && 0 <= t < |started|
    ensures started[t].id in Spawns(spawn, started)
    ensures Spawns(spawn, started)[started[t].id] == spawn(started[t])
    decreases |started|
  {
    var n := |started| - 1;
    if t < n {
      var pre := started[..n];
      assert pre[t] == started[t];
      assert UniqueIds(pre) by {
        forall i, j | 0 <= i < j < |pre| ensures pre[i].id != pre[j].id {
          assert pre[i] == started[i] && pre[j] == started[j];
        }
      }
      SpawnsAt(spawn, pre, t);
    }
  }

  /** Recording the next started item extends the overlaid job map by that one job. */
  lemma SpawnsStep<V>(jobs0: map<string, V>, spawn: QueueItem -> V, toStart: seq<QueueItem>, i: int)
    requires 0 <= i < |toStart|
    ensures jobs0 + Spawns(spawn, toStart[..i + 1])
         == (jobs0 + Spawns(spawn, toStart[..i]))[toStart[i].id := spawn(toStart[i])]
  {
    assert toStart[..i + 1][..i] == toStart[..i];
    var m := Spawns(spawn, toStart[..i]);
    var k := toStart[i].id;
    var v := spawn(toStart[i]);
    assert jobs0 + m[k := v] == (jobs0 + m)[k := v];
  }

  // ---------------------------------------------------------------- methods

  /**
   * One turn of processQueue's loop: the item is marked `encoding` (progress 0,
   * no ETA) and its encode is started with the dispatch options.
   */
  method StartItem(store: QueueStore, sup: Supervisor, settings: AppSettings, item: QueueItem)
    requires sup.Valid()
    modifies store, sup
    ensures sup.Valid()
    ensures store.queue == Updated(old(store.queue), item.id, StartUpdate)
    ensures store.settings == old(store.settings)
    ensures sup.activeJobs == old(sup.activeJobs)[item.id := DispatchSpawn(settings)(item)]
    ensures sup.tempFiles == old(sup.tempFiles)
  {
    assert ImportFile([], map[], "", "") == None;
    store.UpdateQueueItem(item.id, StartUpdate);
    sup.StartEncode(item.id, item.filePath, settings.outputDir, settings.preset,
                    Some(settings.handbrakeCliPath), [], M4v, map[], "", "");
  }

  /** `processQueue()` */
  method ProcessQueue(store: QueueStore, sup: Supervisor)
    requires Consistent(store, sup)
    modifies store, sup
    ensures Consistent(store, sup)
    ensures store.settings == old(store.settings)
    ensures sup.tempFiles == old(sup.tempFiles)
    ensures store.queue == DispatchedQueue(old(store.queue), old(store.GetSettings()), old(|sup.activeJobs|))
    ensures sup.activeJobs == old(sup.activeJobs)
                              + Spawns(DispatchSpawn(old(store.GetSettings())), Started(old(store.queue), old(store.GetSettings()), old(|sup.activeJobs|)))
    ensures |sup.activeJobs| <= Max(old(|sup.activeJobs|), store.GetSettings().maxParallel)
  {
    var settings := store.GetSettings();
    ghost var jobs0 := sup.activeJobs;
    if settings.paused {
      NothingStarted(store.queue, settings, jobs0);
      return;
    }
    var q := store.GetQueue();
    var activeCount := sup.GetActiveJobCount();
    var available := settings.maxParallel - activeCount;
    if available <= 0 {
      NothingStarted(q, settings, jobs0);
      return;
    }
    var pending := PendingItems(q);
    var toStart := pending[..Min(available, |pending|)];
    assert activeCount == |jobs0|;
    assert toStart == Started(q, settings, activeCount);
    StartAll(store, sup, settings, q, toStart);
    AdmittedSaturates(q, available);
    assert store.queue == DispatchedQueue(q, settings, |jobs0|);
    DispatchOutcome(q, jobs0, sup.activeJobs, settings);
    assert UniqueIds(store.queue) && EncodingIds(store.queue) <= sup.activeJobs.Keys && sup.Valid();
  }

  /** Without a dispatch no job is added and the queue stays as it is. */
  lemma NothingStarted(q: seq<QueueItem>, s: AppSettings, jobs: map<string, SpawnOptions>)
    requires !Dispatches(s, |jobs|)
    ensures DispatchedQueue(q, s, |jobs|) == q
    ensures jobs + Spawns(DispatchSpawn(s), Started(q, s, |jobs|)) == jobs
  {
    assert Spawns(DispatchSpawn(s), Started(q, s, |jobs|)) == map[];
  }

  /**
   * The loop `for (const item of toStart)` of processQueue, over a prefix of
   * the pending items: they are marked encoding in queue order and their jobs
   * registered one by one.
   */
  method StartAll(store: QueueStore, sup: Supervisor, settings: AppSettings, q: seq<QueueItem>, toStart: seq<QueueItem>)
    requires sup.Valid() && store.queue == q && UniqueIds(q)
    requires |toStart| <= |PendingItems(q)| && toStart == PendingItems(q)[..|toStart|]
    modifies store, sup
    ensures sup.Valid()
    ensures store.queue == Admitted(q, |toStart|)
    ensures sup.activeJobs == old(sup.activeJobs) + Spawns(DispatchSpawn(settings), toStart)
    ensures store.settings == old(store.settings) && sup.tempFiles == old(sup.tempFiles)
  {
    ghost var jobs0 := sup.activeJobs;
    assert toStart[..0] == [];
    assert store.queue == Admitted(q, 0);
    for i := 0 to |toStart|
      invariant store.queue == Admitted(q, i)
      invariant store.settings == old(store.settings)
      invariant sup.Valid() && sup.tempFiles == old(sup.tempFiles)
      invariant sup.activeJobs == jobs0 + Spawns(DispatchSpawn(settings), toStart[..i])
    {
      SpawnsStep(jobs0, DispatchSpawn(settings), toStart, i);
      DispatchStep(q, i);
      StartItem(store, sup, settings, toStart[i]);
    }
    assert toStart[..|toStart|] == toStart;
  }

  /** The `complete` event of job `id`: the supervisor's bookkeeping, then onComplete. */
  method EncodeCompleted(store: QueueStore, sup: Supervisor, id: string, now: int)
    requires Consistent(store, sup)
    modifies store, sup
    ensures Consistent(store, sup)
    ensures store.settings == old(store.settings)
    ensures sup.tempFiles == old(sup.tempFiles) - {id}
    ensures var q1 := Updated(old(store.queue), id, CompleteUpdate(now));
      var n1 := |old(sup.activeJobs) - {id}|;
      && store.queue == DispatchedQueue(q1, old(store.GetSettings()), n1)
      && sup.activeJobs == (old(sup.activeJobs) - {id}) + Spawns(DispatchSpawn(old(store.GetSettings())), Started(q1, old(store.GetSettings()), n1))
    ensures old(|sup.activeJobs| <= store.GetSettings().maxParallel) ==> WithinLimit(store, sup)
  {
    RemoveJobCount(sup.activeJobs, id);
    sup.EncodeFinished(id);
    UpdateLeavesEncoding(store.queue, id, CompleteUpdate(now));
    store.UpdateQueueItem(id, CompleteUpdate(now));
    ProcessQueue(store, sup);
  }

  /** The `error` event of job `id`: the supervisor's bookkeeping, then onError. */
  method EncodeErrored(store: QueueStore, sup: Supervisor, id: string, errorMessage: Option<string>)
    requires Consistent(store, sup)
    modifies store, sup
    ensures Consistent(store, sup)
    ensures store.settings == old(store.settings)
    ensures sup.tempFiles == old(sup.tempFiles) - {id}
    ensures var q1 := Updated(old(store.queue), id, FailUpdate(ErrorMessage(errorMessage)));
      var n1 := |old(sup.activeJobs) - {id}|;
      && store.queue == DispatchedQueue(q1, old(store.GetSettings()), n1)
      && sup.activeJobs == (old(sup.activeJobs) - {id}) + Spawns(DispatchSpawn(old(store.GetSettings())), Started(q1, old(store.GetSettings()), n1))
    ensures old(|sup.activeJobs| <= store.GetSettings().maxParallel) ==> WithinLimit(store, sup)
  {
    RemoveJobCount(sup.activeJobs, id);
    var message := sup.EncodeFailed(id, errorMessage);
    UpdateLeavesEncoding(store.queue, id, FailUpdate(message));
    store.UpdateQueueItem(id, FailUpdate(message));
    ProcessQueue(store, sup);
  }

  /** `recoverFromCrash()`: every item left encoding goes back to pending. */
  method RecoverFromCrash(store: QueueStore)
    requires UniqueIds(store.queue)
    modifies store
    ensures store.queue == Recovered(old(store.queue))
    ensures store.settings == old(store.settings)
  {
    var q := store.GetQueue();
    for i := 0 to |q|
      invariant store.settings == old(store.settings)
      invariant |store.queue| == |q|
      invariant forall j :: 0 <= j < |q| ==>
        store.queue[j] == if j < i && q[j].status == Encoding then ApplyUpdate(q[j], RecoverUpdate) else q[j]
    {
      var item := q[i];
      if item.status == Encoding {
        assert forall j :: 0 <= j < |q| ==> store.queue[j].id == q[j].id;
        UpdatedUnique(store.queue, i, RecoverUpdate);
        store.UpdateQueueItem(item.id, RecoverUpdate);
      }
    }
  }

  /** `handleRemoveItem(id)`: cancel any live job, drop the item, dispatch. */
  method HandleRemoveItem(store: QueueStore, sup: Supervisor, id: string)
    requires Consistent(store, sup)
    modifies store, sup
    ensures Consistent(store, sup)
    ensures store.settings == old(store.settings)
    ensures sup.tempFiles == old(sup.tempFiles)
    ensures var q1 := Removed(old(store.queue), id);
      var n1 := |old(sup.activeJobs) - {id}|;
      && store.queue == DispatchedQueue(q1, old(store.GetSettings()), n1)
      && sup.activeJobs == (old(sup.activeJobs) - {id}) + Spawns(DispatchSpawn(old(store.GetSettings())), Started(q1, old(store.GetSettings()), n1))
    ensures old(|sup.activeJobs| <= store.GetSettings().maxParallel) ==> WithinLimit(store, sup)
  {
    RemoveJobCount(sup.activeJobs, id);
    sup.CancelEncode(id);
    ghost var q0 := store.queue;
    store.RemoveQueueItem(id);
    FilterKeepsUniqueIds(q0, HasOtherId(id));
    FilterEncodingIds(q0, HasOtherId(id));
    RemovedSpec(q0, id, []);
    assert EncodingIds(store.queue) <= Ids(store.queue);
    ProcessQueue(store, sup);
  }

  /** `handleRetryItem(id)`: pending again whatever the status was, then dispatch. */
  method HandleRetryItem(store: QueueStore, sup: Supervisor, id: string)
    requires Consistent(store, sup)
    modifies store, sup
    ensures Consistent(store, sup)
    ensures store.settings == old(store.settings)
    ensures sup.tempFiles == old(sup.tempFiles)
    ensures var q1 := Updated(old(store.queue), id, RetryUpdate);
      var n1 := |old(sup.activeJobs)|;
      && store.queue == DispatchedQueue(q1, old(store.GetSettings()), n1)
      && sup.activeJobs == old(sup.activeJobs) + Spawns(DispatchSpawn(old(store.GetSettings())), Started(q1, old(store.GetSettings()), n1))
    ensures old(|sup.activeJobs| <= store.GetSettings().maxParallel) ==> WithinLimit(store, sup)
  {
    UpdateLeavesEncoding(store.queue, id, RetryUpdate);
    store.UpdateQueueItem(id, RetryUpdate);
    ProcessQueue(store, sup);
  }

  /** `handleClearCompleted()`: no dispatch follows. */
  method HandleClearCompleted(store: QueueStore, sup: Supervisor)
    requires Consistent(store, sup)
    modifies store
    ensures Consistent(store, sup)
    ensures store.queue == WithoutCompleted(old(store.queue))
    ensures store.settings == old(store.settings)
  {
    ghost var q0 := store.queue;
    store.ClearCompletedItems();
    FilterKeepsUniqueIds(q0, IsNotComplete);
    FilterEncodingIds(q0, IsNotComplete);
  }

  /** `setPaused(paused)`: stores the flag (with the merged settings) and dispatches when resuming. */
  method SetPaused(store: QueueStore, sup: Supervisor, paused: bool)
    requires Consistent(store, sup)
    modifies store, sup
    ensures Consistent(store, sup)
    ensures store.settings == Persisted(old(store.GetSettings()).(paused := paused))
    ensures store.GetSettings() == old(store.GetSettings()).(paused := paused)
    ensures sup.tempFiles == old(sup.tempFiles)
    ensures paused ==> store.queue == old(store.queue) && sup.activeJobs == old(sup.activeJobs)
    ensures !paused ==>
      && store.queue == DispatchedQueue(old(store.queue), store.GetSettings(), old(|sup.activeJobs|))
      && sup.activeJobs == old(sup.activeJobs) + Spawns(DispatchSpawn(store.GetSettings()), Started(old(store.queue), store.GetSettings(), old(|sup.activeJobs|)))
    ensures old(|sup.activeJobs| <= store.GetSettings().maxParallel) ==> WithinLimit(store, sup)
  {
    var settings := store.GetSettings();
    store.SaveSettings(settings.(paused := paused));
    if !paused {
      ProcessQueue(store, sup);
    }
  }
}
