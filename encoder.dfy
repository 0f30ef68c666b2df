/**
 * The encode supervisor (src/main/encoder.ts): the merged custom-preset file,
 * the output path, and the two module-level maps `activeJobs` and `tempFiles`
 * that starting, finishing, failing and cancelling an encode update.
 */
module Encoder {
  import opened Wrappers
  import opened NodePath
  import opened Store

  /** One entry of a `PresetList` array, kept as opaque JSON. */
  datatype Preset = Preset(json: string)

  /**
   * The result of reading and parsing one custom preset file: JSON that did
   * not parse, or a parsed document whose `PresetList` is an array (`Some`)
   * or is missing or not an array (`None`).
   */
  datatype PresetDoc = Malformed | Parsed(presetList: Option<seq<Preset>>)

  /** The readable preset files; a path absent from the map cannot be read. */
  type PresetFiles = map<string, PresetDoc>

  /** What one file adds to the merge: its `PresetList`, or nothing. */
  function Contribution(files: PresetFiles, path: string): seq<Preset>
  {
    if path in files && files[path].Parsed? && files[path].presetList.Some?
    then files[path].presetList.value
    else []
  }

  /** `allPresets` at the end of the loop in `buildMergedPresetFile`. */
  function MergedPresets(paths: seq<string>, files: PresetFiles): seq<Preset>
  {
    if paths == [] then [] else Contribution(files, paths[0]) + MergedPresets(paths[1..], files)
  }

  /** The merge follows input-path order: merging a + b is merging a, then b. */
  lemma {:induction false} MergedConcat(a: seq<string>, b: seq<string>, files: PresetFiles)
    ensures MergedPresets(a + b, files) == MergedPresets(a, files) + MergedPresets(b, files)
  {
    if a == [] {
      assert a + b == b;
    } else {
      assert (a + b)[1..] == a[1..] + b;
      MergedConcat(a[1..], b, files);
    }
  }

  /** An unreadable or malformed file, or one without a `PresetList` array, does not abort the merge and adds nothing. */
  lemma UnusableFileSkipped(before: seq<string>, path: string, after: seq<string>, files: PresetFiles)
    requires path !in files || files[path].Malformed? || files[path].presetList.None?
    ensures MergedPresets(before + [path] + after, files) == MergedPresets(before + after, files)
  {
    MergedConcat(before + [path], after, files);
    MergedConcat(before, [path], files);
    MergedConcat(before, after, files);
  }

  /** Two good files and an unreadable one: the lists of the good ones, in order. */
  lemma MergeExample(a1: Preset, a2: Preset, b1: Preset)
    ensures MergedPresets(["A.json", "B.json", "C.json"],
                          map["A.json" := Parsed(Some([a1, a2])), "B.json" := Parsed(Some([b1]))])
            == [a1, a2, b1]
  {
    var files := map["A.json" := Parsed(Some([a1, a2])), "B.json" := Parsed(Some([b1]))];
    assert ["A.json", "B.json", "C.json"][1..] == ["B.json", "C.json"];
    assert ["B.json", "C.json"][1..] == ["C.json"];
    assert ["C.json"][1..] == [];
    assert MergedPresets(["C.json"], files) == [] by {
      assert "C.json" !in files;
    }
    assert MergedPresets(["B.json", "C.json"], files) == [b1];
  }

  /** The temporary file `{ PresetList: allPresets }` written under a fresh name. */
  datatype TempPresetFile = TempPresetFile(path: string, presetList: seq<Preset>)

  /** `path.join(os.tmpdir(), 'drift-presets-' + uuid + '.json')`; never empty. */
  function TempPresetPath(tmpDir: string, uuid: string): (r: string)
    ensures r != ""
  {
    Join(tmpDir, "drift-presets-" + uuid + ".json")
  }

  /**
   * `buildMergedPresetFile(paths)`: no file at all (`null`) when nothing was
   * merged, otherwise a file holding exactly the merged list.  The temporary
   * directory and the random UUID come in as parameters.
   */
  function BuildMergedPresetFile(paths: seq<string>, files: PresetFiles, tmpDir: string, uuid: string)
    : (r: Option<TempPresetFile>)
    ensures r.None? <==> MergedPresets(paths, files) == []
    ensures r.Some? ==> r.value.presetList == MergedPresets(paths, files) && r.value.path != ""
  {
    var all := MergedPresets(paths, files);
    if all == [] then None else Some(TempPresetFile(TempPresetPath(tmpDir, uuid), all))
  }

  /** `path.join(outputDir, basename(input, extname(input)) + '.' + outputFormat)` */
  function OutputPath(inputPath: string, outputDir: string, format: OutputFormat): string
  {
    Join(outputDir, Stem(inputPath) + "." + FormatName(format))
  }

  /**
   * The output file keeps the input's name, swaps its extension for the
   * container's, and lies directly in the output directory.
   */
  lemma OutputPathShape(inputPath: string, outputDir: string, format: OutputFormat)
    requires BaseName(inputPath) != ""
    ensures BaseName(OutputPath(inputPath, outputDir, format)) == Stem(inputPath) + "." + FormatName(format)
    ensures ExtName(OutputPath(inputPath, outputDir, format)) == "." + FormatName(format)
    ensures Stem(inputPath) + ExtName(inputPath) == BaseName(inputPath)
    ensures Stem(OutputPath(inputPath, outputDir, format)) == Stem(inputPath)
  {
    StemAndExtension(inputPath);
    JoinWithExtension(outputDir, Stem(inputPath), FormatName(format));
  }

  /** `err?.message || 'Unknown encoding error'` */
  function ErrorMessage(message: Option<string>): (r: string)
    ensures r != ""
    ensures message.Some? && message.value != "" ==> r == message.value
    ensures message.None? || message.value == "" ==> r == "Unknown encoding error"
  {
    if message.Some? && message.value != "" then message.value else "Unknown encoding error"
  }

  /** The options of `hbjs.spawn`; a live process is identified by them. */
  datatype SpawnOptions = SpawnOptions(
    input: string,
    output: string,
    preset: string,
    handbrakeCliPath: Option<string>,
    presetImportFile: Option<string>)

  /** The `handbrakeCliPath` option is passed only when it is a non-empty string. */
  function CliOption(handbrakeCliPath: Option<string>): (r: Option<string>)
    ensures r.Some? <==> handbrakeCliPath.Some? && handbrakeCliPath.value != ""
    ensures r.Some? ==> r == handbrakeCliPath
  {
    if handbrakeCliPath.Some? && handbrakeCliPath.value != "" then handbrakeCliPath else None
  }

  /**
   * The `preset-import-file` option of startEncode: the merged file, made only
   * when custom paths are given and the merge produced something.
   */
  function ImportFile(customPresetPaths: seq<string>, files: PresetFiles, tmpDir: string, uuid: string)
    : (r: Option<string>)
    ensures r.Some? <==> |customPresetPaths| > 0 && MergedPresets(customPresetPaths, files) != []
    ensures r.Some? ==> r.value == TempPresetPath(tmpDir, uuid)
  {
    if |customPresetPaths| > 0 then
      match BuildMergedPresetFile(customPresetPaths, files, tmpDir, uuid)
      case Some(f) => Some(f.path)
      case None => None
    else None
  }

  /** The options startEncode spawns HandBrakeCLI with. */
  function SpawnFor(inputPath: string, outputDir: string, preset: string, handbrakeCliPath: Option<string>,
                    importFile: Option<string>, outputFormat: OutputFormat): SpawnOptions
  {
    SpawnOptions(inputPath, OutputPath(inputPath, outputDir, outputFormat), preset, CliOption(handbrakeCliPath), importFile)
  }

  /** The module-level state of encoder.ts, owned by one object. */
  class Supervisor {
    var activeJobs: map<string, SpawnOptions>
    var tempFiles: map<string, string>

    /** Every recorded temporary file has a real (non-empty) path. */
    ghost predicate Valid()
      reads this
    {
      forall id | id in tempFiles :: tempFiles[id] != ""
    }

    constructor ()
      ensures Valid() && activeJobs == map[] && tempFiles == map[]
    {
      activeJobs := map[];
      tempFiles := map[];
    }

    /**
     * `startEncode`: builds the spawn options, merges the custom presets when
     * there are any, spawns the process and registers it under `id`.
     */
    method StartEncode(id: string, inputPath: string, outputDir: string, preset: string,
                       handbrakeCliPath: Option<string>, customPresetPaths: seq<string>,
                       outputFormat: OutputFormat, files: PresetFiles, tmpDir: string, uuid: string)
      requires Valid()
      modifies this
      ensures Valid()
      ensures activeJobs == old(activeJobs)[id := SpawnFor(inputPath, outputDir, preset, handbrakeCliPath,
                                                             ImportFile(customPresetPaths, files, tmpDir, uuid), outputFormat)]
      ensures var importFile := ImportFile(customPresetPaths, files, tmpDir, uuid);
        tempFiles == if importFile.Some? then old(tempFiles)[id := importFile.value] else old(tempFiles)
    {
      var importFile: Option<string> := None;
      if |customPresetPaths| > 0 {
        var tmp := BuildMergedPresetFile(customPresetPaths, files, tmpDir, uuid);
        if tmp.Some? {
          importFile := Some(tmp.value.path);
          tempFiles := tempFiles[id := tmp.value.path];
        }
      }
      assert importFile == ImportFile(customPresetPaths, files, tmpDir, uuid);
      activeJobs := activeJobs[id := SpawnFor(inputPath, outputDir, preset, handbrakeCliPath, importFile, outputFormat)];
    }

    /** `cleanupTemp` for `id`: forgets its temporary file (deleting it, failures ignored). */
    method CleanupTemp(id: string)
      requires Valid()
      modifies this
      ensures Valid()
      ensures tempFiles == old(tempFiles) - {id}
      ensures activeJobs == old(activeJobs)
    {
      if id in tempFiles && tempFiles[id] != "" {
        tempFiles := tempFiles - {id};
      }
    }

    /** The supervisor's part of the process's `complete` event, run before `onComplete`. */
    method EncodeFinished(id: string)
      requires Valid()
      modifies this
      ensures Valid()
      ensures activeJobs == old(activeJobs) - {id}
      ensures tempFiles == old(tempFiles) - {id}
    {
      activeJobs := activeJobs - {id};
      CleanupTemp(id);
    }

    /** The supervisor's part of the process's `error` event; returns the message for `onError`. */
    method EncodeFailed(id: string, errorMessage: Option<string>) returns (message: string)
      requires Valid()
      modifies this
      ensures Valid()
      ensures activeJobs == old(activeJobs) - {id}
      ensures tempFiles == old(tempFiles) - {id}
      ensures message == ErrorMessage(errorMessage)
    {
      activeJobs := activeJobs - {id};
      CleanupTemp(id);
      message := ErrorMessage(errorMessage);
    }

    /** `cancelEncode(id)`: kills and forgets a live job; its temporary file stays recorded. */
    method CancelEncode(id: string)
      modifies this
      ensures activeJobs == old(activeJobs) - {id}
      ensures tempFiles == old(tempFiles)
    {
      if id in activeJobs {
        activeJobs := activeJobs - {id};
      }
    }

    /** `getActiveJobCount()` */
    method GetActiveJobCount() returns (n: nat)
      ensures n == |activeJobs.Keys|
    {
      n := |activeJobs|;
    }
  }
}
