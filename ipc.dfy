/**
 * The main-process IPC handlers (src/main/ipc.ts): the parser for the
 * `HandBrakeCLI --preset-list` listing, the decision `settings:save` makes
 * about restarting the watcher and re-dispatching, and the `queue:*` and
 * `settings:get` handlers, which only forward to the dispatcher and store.
 */
module Ipc {
  import opened Wrappers
  import opened Store
  import opened Encoder
  import opened Queue
  import opened Watcher

  // ------------------------------------------------------------- lines

  /** JavaScript's white space and line terminators: what `\s` and `trim` treat as space. */
  predicate IsSpace(c: char)
  {
    var n := c as int;
    (9 <= n <= 13) || n == 0x20 || n == 0xA0 || n == 0x1680 || (0x2000 <= n <= 0x200A) ||
    n == 0x2028 || n == 0x2029 || n == 0x202F || n == 0x205F || n == 0x3000 || n == 0xFEFF
  }

  /** Index of the first `'\n'` in `s`, or `|s|` when there is none. */
  function NewlineIndex(s: string): (r: nat)
    ensures r <= |s|
    ensures r < |s| ==> s[r] == '\n'
    ensures '\n' !in s[..r]
  {
    if s == [] || s[0] == '\n' then 0
    else
      var r := 1 + NewlineIndex(s[1..]);
      assert s[..r] == [s[0]] + s[1..][..r - 1];
      r
  }

  /** `s.split('\n')`: the pieces between newlines, so one more piece than there are newlines. */
  function Split(s: string): (r: seq<string>)
    ensures |r| >= 1
    ensures forall k :: 0 <= k < |r| ==> '\n' !in r[k]
    decreases |s|
  {
    var i := NewlineIndex(s);
    if i == |s| then [s] else [s[..i]] + Split(s[i + 1..])
  }

  /** `lines.join('\n')` */
  function JoinLines(lines: seq<string>): string
    requires |lines| >= 1
  {
    if |lines| == 1 then lines[0] else lines[0] + "\n" + JoinLines(lines[1..])
  }

  /** Splitting loses nothing: joining the pieces back with newlines gives the text. */
  lemma {:induction false} SplitJoin(s: string)
    ensures JoinLines(Split(s)) == s
    decreases |s|
  {
    var i := NewlineIndex(s);
    if i < |s| {
      var head, rest := s[..i], s[i + 1..];
      assert Split(s) == [head] + Split(rest);
      SplitJoin(rest);
      JoinCons(head, Split(rest));
      CutAt(s, i);
    }
  }

  /** Cutting a text around one of its characters loses nothing. */
  lemma CutAt(s: string, i: nat)
    requires i < |s| && s[i] == '\n'
    ensures s[..i] + "\n" + s[i + 1..] == s
  {
  }

  /** Joining a first line onto more lines puts one newline between them. */
  lemma JoinCons(h: string, lines: seq<string>)
    requires |lines| >= 1
    ensures JoinLines([h] + lines) == h + "\n" + JoinLines(lines)
  {
    assert ([h] + lines)[1..] == lines;
  }

  /** And the other way round: newline-free lines joined and split again are the same lines. */
  lemma {:induction false} JoinSplit(lines: seq<string>)
    requires |lines| >= 1
    requires forall k :: 0 <= k < |lines| ==> '\n' !in lines[k]
    ensures Split(JoinLines(lines)) == lines
    decreases |lines|
  {
    if |lines| == 1 {
      SplitNewlineFree(lines[0]);
    } else {
      SplitAfterFirst(lines[0], JoinLines(lines[1..]));
      JoinSplit(lines[1..]);
      assert lines == [lines[0]] + lines[1..];
    }
  }

  /** A text without a newline splits into itself alone. */
  lemma SplitNewlineFree(h: string)
    requires '\n' !in h
    ensures Split(h) == [h]
  {
  }

  /** A newline-free first line is split off at the first newline. */
  lemma SplitAfterFirst(h: string, rest: string)
    requires '\n' !in h
    ensures Split(h + "\n" + rest) == [h] + Split(rest)
  {
    var s := h + "\n" + rest;
    assert s[|h|] == '\n';
    assert s[..|h|] == h;
    NewlineIndexAt(s, |h|);
    assert s[|h| + 1..] == rest;
  }

  lemma {:induction false} NewlineIndexAt(s: string, i: nat)
    requires i < |s| && s[i] == '\n'
    requires '\n' !in s[..i]
    ensures NewlineIndex(s) == i
    decreases i
  {
    if i > 0 {
      assert s[..i] == [s[0]] + s[1..][..i - 1];
      NewlineIndexAt(s[1..], i - 1);
    }
  }

  /** `s.trimStart()` */
  function TrimStart(s: string): (r: string)
    ensures |r| <= |s|
    ensures r == [] || !IsSpace(r[0])
  {
    if s != [] && IsSpace(s[0]) then TrimStart(s[1..]) else s
  }

  /** `s.trimEnd()` */
  function TrimEnd(s: string): (r: string)
    ensures |r| <= |s|
    ensures r == [] || !IsSpace(r[|r| - 1])
  {
    if s != [] && IsSpace(s[|s| - 1]) then TrimEnd(s[..|s| - 1]) else s
  }

  /** `s.trim()`: white space cut from both ends, none left at either. */
  function Trim(s: string): (r: string)
    ensures |r| <= |s|
    ensures r == [] || (!IsSpace(r[0]) && !IsSpace(r[|r| - 1]))
  {
    var t := TrimStart(s);
    TrimEndPrefix(t);
    TrimEnd(t)
  }

  /** `trimEnd` keeps a prefix and cuts only white space. */
  lemma {:induction false} TrimEndPrefix(s: string)
    ensures TrimEnd(s) == s[..|TrimEnd(s)|]
    ensures forall k :: |TrimEnd(s)| <= k < |s| ==> IsSpace(s[k])
  {
    if s != [] && IsSpace(s[|s| - 1]) {
      var t := s[..|s| - 1];
      TrimEndPrefix(t);
      assert forall k :: 0 <= k < |t| ==> t[k] == s[k];
    }
  }

  /** `trimStart` keeps a suffix and cuts only white space. */
  lemma {:induction false} TrimStartSuffix(s: string)
    ensures TrimStart(s) == s[|s| - |TrimStart(s)|..]
    ensures forall k :: 0 <= k < |s| - |TrimStart(s)| ==> IsSpace(s[k])
  {
    if s != [] && IsSpace(s[0]) {
      TrimStartSuffix(s[1..]);
      assert forall k :: 1 <= k < |s| ==> s[1..][k - 1] == s[k];
    }
  }

  /** Trimming a line that starts with a non-space character keeps that character first. */
  lemma TrimKeepsFirst(s: string)
    requires s != [] && !IsSpace(s[0])
    ensures Trim(s) != [] && Trim(s)[0] == s[0]
  {
    assert TrimStart(s) == s;
    TrimEndPrefix(s);
  }

  /** Trimming what is already trimmed changes nothing. */
  lemma TrimIdempotent(s: string)
    ensures Trim(Trim(s)) == Trim(s)
  {
    var r := Trim(s);
    if r != [] {
      assert TrimStart(r) == r;
      assert TrimEnd(r) == r;
    }
  }

  // ------------------------------------------------------------ the parser

  /** One `{ category, name }` entry of the preset list. */
  datatype PresetEntry = PresetEntry(category: string, name: string)

  /** A category heading: no leading white space, and a trailing `/` once trimmed. */
  predicate IsCategoryLine(line: string)
  {
    line != [] && !IsSpace(line[0]) && Trim(line) != [] && Trim(line)[|Trim(line)| - 1] == '/'
  }

  /** The heading's name: the trimmed line without its trailing `/`. */
  function CategoryName(line: string): (r: string)
    requires IsCategoryLine(line)
    ensures r + "/" == Trim(line)
  {
    var t := Trim(line);
    assert t[..|t| - 1] + "/" == t;
    t[..|t| - 1]
  }

  /** A preset line: exactly four spaces, then a non-space character. */
  predicate IsPresetLine(line: string)
  {
    |line| > 4 && line[..4] == "    " && !IsSpace(line[4])
  }

  /** The two kinds of line never overlap. */
  lemma LineKindsDisjoint(line: string)
    ensures !(IsCategoryLine(line) && IsPresetLine(line))
  {
    if IsPresetLine(line) {
      assert line[0] == line[..4][0] == ' ';
    }
  }

  /** Leading spaces do not change the trimmed text. */
  lemma TrimOfIndented(line: string)
    requires IsPresetLine(line)
    ensures Trim(line) == Trim(line[4..])
  {
    assert IsSpace(line[0]) && IsSpace(line[1]) && IsSpace(line[2]) && IsSpace(line[3]);
    assert TrimStart(line) == TrimStart(line[1..]);
    assert TrimStart(line[1..]) == TrimStart(line[2..]) by { assert line[1..][1..] == line[2..]; }
    assert TrimStart(line[2..]) == TrimStart(line[3..]) by { assert line[2..][1..] == line[3..]; }
    assert TrimStart(line[3..]) == TrimStart(line[4..]) by { assert line[3..][1..] == line[4..]; }
  }

  /** What one line means to the parser. */
  datatype LineKind = Heading(category: string) | PresetName(name: string) | Ignored

  /**
   * The two tests of the loop body, in their order.  A preset name is the
   * trimmed line: never empty, with no white space at either end.
   */
  function Classify(line: string): (r: LineKind)
    ensures r.Heading? <==> IsCategoryLine(line)
    ensures r.PresetName? <==> IsPresetLine(line)
    ensures r.Heading? ==> r.category + "/" == Trim(line)
    ensures r.PresetName? ==> r.name == Trim(line)
    ensures r.PresetName? ==> r.name != [] && !IsSpace(r.name[0]) && !IsSpace(r.name[|r.name| - 1])
  {
    LineKindsDisjoint(line);
    if IsCategoryLine(line) then Heading(CategoryName(line))
    else if IsPresetLine(line) then
      TrimOfIndented(line);
      TrimKeepsFirst(line[4..]);
      PresetName(Trim(line))
    else Ignored
  }

  /** The meaning of each line of a listing. */
  function Kinds(lines: seq<string>): (r: seq<LineKind>)
    ensures |r| == |lines|
    ensures forall j :: 0 <= j < |lines| ==> r[j] == Classify(lines[j])
  {
    seq(|lines|, j requires 0 <= j < |lines| => Classify(lines[j]))
  }

  /** The loop's state: `currentCategory` and `presets`. */
  datatype ParseState = ParseState(category: string, presets: seq<PresetEntry>)

  /** One turn of the loop: a heading opens its category; a preset line under an open one adds an entry. */
  function Step(st: ParseState, k: LineKind): ParseState
  {
    match k
    case Heading(c) => ParseState(c, st.presets)
    case PresetName(n) =>
      if st.category != "" then ParseState(st.category, st.presets + [PresetEntry(st.category, n)]) else st
    case Ignored => st
  }

  /** The state after the loop has consumed lines of the given kinds, from no category and no entries. */
  function Scan(kinds: seq<LineKind>): ParseState
    decreases |kinds|
  {
    if kinds == [] then ParseState("", [])
    else Step(Scan(kinds[..|kinds| - 1]), kinds[|kinds| - 1])
  }

  /** `parsePresetList(output)` as a value. */
  function PresetList(output: string): seq<PresetEntry>
  {
    Scan(Kinds(Split(output))).presets
  }

  /** `parsePresetList(output)` */
  method ParsePresetList(output: string) returns (presets: seq<PresetEntry>)
    ensures presets == PresetList(output)
  {
    presets := [];
    var currentCategory := "";
    var lines := Split(output);
    ghost var kinds := Kinds(lines);
    for i := 0 to |lines|
      invariant Scan(kinds[..i]) == ParseState(currentCategory, presets)
    {
      var line := lines[i];
      assert kinds[..i + 1][..i] == kinds[..i];
      if IsCategoryLine(line) {
        var t := Trim(line);
        currentCategory := t[..|t| - 1];
      } else if IsPresetLine(line) && currentCategory != "" {
        presets := presets + [PresetEntry(currentCategory, Trim(line))];
      }
    }
    assert kinds[..|lines|] == kinds;
  }

  /** Position of the last heading, or -1 when there is none. */
  function LastHeading(kinds: seq<LineKind>): (r: int)
    ensures -1 <= r < |kinds|
    ensures r >= 0 ==> kinds[r].Heading?
    ensures forall k :: r < k < |kinds| ==> !kinds[k].Heading?
    decreases |kinds|
  {
    if kinds == [] then -1
    else if kinds[|kinds| - 1].Heading? then |kinds| - 1
    else LastHeading(kinds[..|kinds| - 1])
  }

  /** The category open after some lines is the name of the last heading among them, or none. */
  lemma {:induction false} ScanCategory(kinds: seq<LineKind>)
    ensures Scan(kinds).category == if LastHeading(kinds) < 0 then "" else kinds[LastHeading(kinds)].category
    decreases |kinds|
  {
    if kinds != [] {
      var n := |kinds| - 1;
      var init := kinds[..n];
      ScanCategory(init);
      if !kinds[n].Heading? && LastHeading(init) >= 0 {
        assert init[LastHeading(init)] == kinds[LastHeading(init)];
      }
    }
  }

  /** Without a heading there are no entries, whatever the indented lines. */
  lemma {:induction false} NoHeadingNoEntries(kinds: seq<LineKind>)
    requires forall k :: 0 <= k < |kinds| ==> !kinds[k].Heading?
    ensures Scan(kinds) == ParseState("", [])
    decreases |kinds|
  {
    if kinds != [] {
      var n := |kinds| - 1;
      assert forall k :: 0 <= k < n ==> kinds[..n][k] == kinds[k];
      NoHeadingNoEntries(kinds[..n]);
    }
  }

  /** Every entry has a non-empty category and the name of some preset line. */
  lemma {:induction false} EntriesFromPresetLines(kinds: seq<LineKind>)
    ensures forall e :: e in Scan(kinds).presets ==> e.category != ""
    ensures forall e :: e in Scan(kinds).presets ==> exists j :: 0 <= j < |kinds| && kinds[j] == PresetName(e.name)
    decreases |kinds|
  {
    if kinds != [] {
      var n := |kinds| - 1;
      var init := kinds[..n];
      EntriesFromPresetLines(init);
      forall e | e in Scan(kinds).presets
        ensures exists j :: 0 <= j < |kinds| && kinds[j] == PresetName(e.name)
      {
        if e in Scan(init).presets {
          var j :| 0 <= j < |init| && init[j] == PresetName(e.name);
          assert kinds[j] == init[j];
        } else {
          assert kinds[n] == PresetName(e.name);
        }
      }
    }
  }

  /** A turn of the loop keeps the entries found so far. */
  lemma StepExtends(st: ParseState, k: LineKind)
    ensures st.presets <= Step(st, k).presets
  {
  }

  lemma PrefixTransitive<T>(a: seq<T>, b: seq<T>, c: seq<T>)
    requires a <= b && b <= c
    ensures a <= c
  {
    assert c[..|b|][..|a|] == c[..|a|];
  }

  /**
   * Entries come out in the order of their lines: the entries of any first
   * lines are a prefix of the entries of all of them.
   */
  lemma {:induction false} EntriesInLineOrder(kinds: seq<LineKind>, i: nat)
    requires i <= |kinds|
    ensures Scan(kinds[..i]).presets <= Scan(kinds).presets
    decreases |kinds|
  {
    if i == |kinds| {
      assert kinds[..i] == kinds;
    } else {
      var n := |kinds| - 1;
      EntriesInLineOrder(kinds[..n], i);
      assert kinds[..n][..i] == kinds[..i];
      StepExtends(Scan(kinds[..n]), kinds[n]);
      PrefixTransitive(Scan(kinds[..i]).presets, Scan(kinds[..n]).presets, Scan(kinds).presets);
    }
  }

  /** A line that is neither a heading nor a preset line is ignored. */
  lemma IgnoredLine(kinds: seq<LineKind>)
    ensures Scan(kinds + [Ignored]) == Scan(kinds)
  {
    assert (kinds + [Ignored])[..|kinds|] == kinds;
  }

  /** A preset line under an open heading adds exactly its entry, at the end; with none open it adds nothing. */
  lemma PresetLineEmits(kinds: seq<LineKind>, name: string)
    ensures Scan(kinds).category != "" ==>
      Scan(kinds + [PresetName(name)]) == ParseState(Scan(kinds).category, Scan(kinds).presets + [PresetEntry(Scan(kinds).category, name)])
    ensures Scan(kinds).category == "" ==> Scan(kinds + [PresetName(name)]) == Scan(kinds)
  {
    assert (kinds + [PresetName(name)])[..|kinds|] == kinds;
  }

  /** A heading opens its category and adds no entry. */
  lemma HeadingOpensCategory(kinds: seq<LineKind>, category: string)
    ensures Scan(kinds + [Heading(category)]) == ParseState(category, Scan(kinds).presets)
  {
    assert (kinds + [Heading(category)])[..|kinds|] == kinds;
  }

  /**
   * Over a whole listing: every entry has a non-empty category and is the
   * trimmed text of one of its four-space-indented lines.
   */
  lemma ParsedEntriesWellFormed(output: string)
    ensures forall e :: e in PresetList(output) ==>
      e.category != "" && e.name != [] && !IsSpace(e.name[0]) && !IsSpace(e.name[|e.name| - 1])
    ensures forall e :: e in PresetList(output) ==> FromPresetLine(Split(output), e.name)
  {
    var lines := Split(output);
    var kinds := Kinds(lines);
    EntriesFromPresetLines(kinds);
    forall e | e in PresetList(output)
      ensures e.name != [] && !IsSpace(e.name[0]) && !IsSpace(e.name[|e.name| - 1])
      ensures FromPresetLine(lines, e.name)
    {
      var j :| 0 <= j < |kinds| && kinds[j] == PresetName(e.name);
      PresetNameFromLine(lines, j, e.name);
    }
  }

  /** A line classified as a preset name is a preset line, and the name is its trimmed, non-blank text. */
  lemma PresetNameFromLine(lines: seq<string>, j: int, name: string)
    requires 0 <= j < |lines| && Kinds(lines)[j] == PresetName(name)
    ensures name != [] && !IsSpace(name[0]) && !IsSpace(name[|name| - 1])
    ensures FromPresetLine(lines, name)
  {
    assert Classify(lines[j]) == PresetName(name);
    assert IsPresetLine(lines[j]) && name == Trim(lines[j]);
  }

  /** `name` is the trimmed text of one of the four-space-indented lines. */
  ghost predicate FromPresetLine(lines: seq<string>, name: string)
  {
    exists j :: 0 <= j < |lines| && IsPresetLine(lines[j]) && name == Trim(lines[j])
  }

  /** A listing with no heading line yields no entries, whatever its indented lines say. */
  lemma NoHeadingNoPresets(output: string)
    requires forall j :: 0 <= j < |Split(output)| ==> !IsCategoryLine(Split(output)[j])
    ensures PresetList(output) == []
  {
    NoHeadingNoEntries(Kinds(Split(output)));
  }

  // --------------------------------------------------------- settings:save

  /** What `settings:save` does besides storing: restart the watcher, re-dispatch. */
  datatype SaveEffects = SaveEffects(restartWatcher: bool, redispatch: bool)

  function SaveDecision(before: AppSettings, after: AppSettings): (r: SaveEffects)
    ensures r.restartWatcher <==> before.watchDir != after.watchDir || before.queueExistingFiles != after.queueExistingFiles
    ensures r.redispatch <==> before.maxParallel != after.maxParallel
  {
    SaveEffects(
      before.watchDir != after.watchDir || before.queueExistingFiles != after.queueExistingFiles,
      before.maxParallel != after.maxParallel)
  }

  /** Saving the settings already in force triggers nothing. */
  lemma SaveUnchangedDoesNothing(s: AppSettings)
    ensures SaveDecision(s, s) == SaveEffects(false, false)
  {
  }

  /**
   * Only the watch folder and `queueExistingFiles` restart the watcher: a new
   * extension list alone leaves the installed watcher matching the old one.
   */
  lemma ExtensionsAloneKeepWatcher(before: AppSettings, exts: seq<string>)
    ensures !SaveDecision(before, before.(videoExtensions := exts)).restartWatcher
    ensures !SaveDecision(before, before.(videoExtensions := exts)).redispatch
  {
  }

  /**
   * Skipping the restart is safe for everything but the extension list: the
   * watcher the old settings give equals the one the new settings give, up to
   * that list.
   */
  lemma KeptWatcherMatchesNewSettings(before: AppSettings, after: AppSettings)
    requires !SaveDecision(before, after).restartWatcher
    ensures WatcherFor(before).None? <==> WatcherFor(after).None?
    ensures WatcherFor(after).Some? ==>
      WatcherFor(before) == Some(WatcherFor(after).value.(extensions := NormaliseExtensions(before.videoExtensions)))
  {
  }

  /**
   * A watcher kept across a save that does not restart it still watches the
   * folder, with the `ignoreInitial` flag, that the new settings ask for.
   */
  lemma KeptWatcherStillWatchesFolder(installed: Option<WatchConfig>, before: AppSettings, after: AppSettings)
    requires !SaveDecision(before, after).restartWatcher
    requires WatchesFolderOf(installed, before)
    ensures WatchesFolderOf(installed, after)
  {
    KeptWatcherMatchesNewSettings(before, after);
  }

  /**
   * Skipping the re-dispatch is safe while the pause flag stays: under the new
   * settings processQueue would start the same items as under the old ones.
   */
  lemma SkippedDispatchChangesNothing(before: AppSettings, after: AppSettings, q: seq<QueueItem>, activeCount: int)
    requires !SaveDecision(before, after).redispatch && before.paused == after.paused
    ensures Started(q, after, activeCount) == Started(q, before, activeCount)
    ensures DispatchedQueue(q, after, activeCount) == DispatchedQueue(q, before, activeCount)
  {
  }

  /**
   * A save that only lifts the pause starts nothing: the flag is stored, but
   * no dispatch follows until the next event.
   */
  lemma ResumeBySaveDoesNotDispatch(before: AppSettings)
    requires before.paused
    ensures !SaveDecision(before, before.(paused := false)).redispatch
    ensures !SaveDecision(before, before.(paused := false)).restartWatcher
  {
  }

  /**
   * A save that lifts the pause and changes `maxParallel` as well does
   * dispatch: with a free slot and a pending item, something starts.
   */
  lemma ResumeWithNewLimitDispatches(before: AppSettings, maxParallel: int, q: seq<QueueItem>, activeCount: int)
    requires before.paused && maxParallel != before.maxParallel
    requires maxParallel > activeCount && |PendingItems(q)| > 0
    ensures SaveDecision(before, before.(paused := false, maxParallel := maxParallel)).redispatch
    ensures |Started(q, before.(paused := false, maxParallel := maxParallel), activeCount)| >= 1
  {
    var after := before.(paused := false, maxParallel := maxParallel);
    assert Dispatches(after, activeCount);
  }

  /** `settings:get` */
  method SettingsGet(store: QueueStore) returns (s: AppSettings)
    ensures s == store.GetSettings()
  {
    s := store.GetSettings();
  }

  /** The `settings:save` handler. */
  method SettingsSave(store: QueueStore, sup: Supervisor, watcher: FolderWatcher, settings: AppSettings) returns (ok: bool)
    requires Consistent(store, sup)
    modifies store, sup, watcher
    ensures ok
    ensures Consistent(store, sup)
    ensures store.GetSettings() == settings
    ensures var effects := SaveDecision(old(store.GetSettings()), settings);
      && (effects.restartWatcher ==>
            watcher.installed == WatcherFor(settings) &&
            watcher.closed == old(watcher.closed) + (if old(watcher.installed).Some? then [old(watcher.installed).value] else []))
      && (!effects.restartWatcher ==> watcher.installed == old(watcher.installed) && watcher.closed == old(watcher.closed))
      && (effects.redispatch ==>
            store.queue == DispatchedQueue(old(store.queue), settings, old(|sup.activeJobs|)) &&
            sup.activeJobs == old(sup.activeJobs) + Spawns(DispatchSpawn(settings), Started(old(store.queue), settings, old(|sup.activeJobs|))))
      && (!effects.redispatch ==> store.queue == old(store.queue) && sup.activeJobs == old(sup.activeJobs))
    ensures WatchesFolderOf(old(watcher.installed), old(store.GetSettings())) ==> WatchesFolderOf(watcher.installed, settings)
    ensures watcher.hasCallback == old(watcher.hasCallback)
    ensures sup.tempFiles == old(sup.tempFiles)
  {
    var oldSettings := store.GetSettings();
    ghost var installed0 := watcher.installed;
    store.SaveSettings(settings);
    SavedSettingsReadBack(settings);
    if oldSettings.watchDir != settings.watchDir || oldSettings.queueExistingFiles != settings.queueExistingFiles {
      watcher.StartWatcher(store);
    } else if WatchesFolderOf(installed0, oldSettings) {
      KeptWatcherStillWatchesFolder(installed0, oldSettings, settings);
    }
    if oldSettings.maxParallel != settings.maxParallel {
      ProcessQueue(store, sup);
    }
    ok := true;
  }

  // -------------------------------------------------------------- queue:*

  /** `queue:get` */
  method QueueGet(store: QueueStore) returns (q: seq<QueueItem>)
    ensures q == store.queue
  {
    q := store.GetQueue();
  }

  /** `queue:remove`: handleRemoveItem, then `true`. */
  method QueueRemove(store: QueueStore, sup: Supervisor, id: string) returns (ok: bool)
    requires Consistent(store, sup)
    modifies store, sup
    ensures ok && Consistent(store, sup)
    ensures store.settings == old(store.settings)
    ensures sup.tempFiles == old(sup.tempFiles)
    ensures var q1 := Removed(old(store.queue), id);
      var n1 := |old(sup.activeJobs) - {id}|;
      && store.queue == DispatchedQueue(q1, old(store.GetSettings()), n1)
      && sup.activeJobs == (old(sup.activeJobs) - {id}) + Spawns(DispatchSpawn(old(store.GetSettings())), Started(q1, old(store.GetSettings()), n1))
    ensures old(|sup.activeJobs| <= store.GetSettings().maxParallel) ==> WithinLimit(store, sup)
  {
    HandleRemoveItem(store, sup, id);
    ok := true;
  }

  /** `queue:retry`: handleRetryItem, then `true`. */
  method QueueRetry(store: QueueStore, sup: Supervisor, id: string) returns (ok: bool)
    requires Consistent(store, sup)
    modifies store, sup
    ensures ok && Consistent(store, sup)
    ensures store.settings == old(store.settings)
    ensures sup.tempFiles == old(sup.tempFiles)
    ensures var q1 := Updated(old(store.queue), id, RetryUpdate);
      var n1 := |old(sup.activeJobs)|;
      && store.queue == DispatchedQueue(q1, old(store.GetSettings()), n1)
      && sup.activeJobs == old(sup.activeJobs) + Spawns(DispatchSpawn(old(store.GetSettings())), Started(q1, old(store.GetSettings()), n1))
    ensures old(|sup.activeJobs| <= store.GetSettings().maxParallel) ==> WithinLimit(store, sup)
  {
    HandleRetryItem(store, sup, id);
    ok := true;
  }

  /** `queue:getPaused` */
  method QueueGetPaused(store: QueueStore) returns (paused: bool)
    ensures paused == store.GetSettings().paused
  {
    var s := store.GetSettings();
    paused := s.paused;
  }

  /** `queue:setPaused`: setPaused, then the flag back. */
  method QueueSetPaused(store: QueueStore, sup: Supervisor, paused: bool) returns (r: bool)
    requires Consistent(store, sup)
    modifies store, sup
    ensures r == paused && Consistent(store, sup)
    ensures store.GetSettings() == old(store.GetSettings()).(paused := paused)
    ensures sup.tempFiles == old(sup.tempFiles)
    ensures paused ==> store.queue == old(store.queue) && sup.activeJobs == old(sup.activeJobs)
    ensures !paused ==>
      && store.queue == DispatchedQueue(old(store.queue), store.GetSettings(), old(|sup.activeJobs|))
      && sup.activeJobs == old(sup.activeJobs) + Spawns(DispatchSpawn(store.GetSettings()), Started(old(store.queue), store.GetSettings(), old(|sup.activeJobs|)))
    ensures old(|sup.activeJobs| <= store.GetSettings().maxParallel) ==> WithinLimit(store, sup)
  {
    SetPaused(store, sup, paused);
    r := paused;
  }

  /** `queue:clearCompleted`: handleClearCompleted, then `true`. */
  method QueueClearCompleted(store: QueueStore, sup: Supervisor) returns (ok: bool)
    requires Consistent(store, sup)
    modifies store
    ensures ok && Consistent(store, sup)
    ensures store.queue == WithoutCompleted(old(store.queue))
    ensures store.settings == old(store.settings)
  {
    HandleClearCompleted(store, sup);
    ok := true;
  }
}
