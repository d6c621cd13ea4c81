/**
 * The Linux process manager of the desktop backend: checking that a VIAME
 * install can initialise `kwiver`, launching a pipeline run (working
 * directory, output paths, image manifest, command words, job record),
 * registering a training job, splitting process output into log lines, and
 * supervising a running pipeline through its data and exit events.
 *
 * The file system, the `common` helpers and the child process are given by a
 * `Host`; what the code does to the outside world is returned as a log of
 * `Effect`s, in the order it happens.
 */
module LinuxPlatform {
  import opened Wrappers
  import opened Text
  import opened Paths

  /** Script to source before `kwiver` is available. */
  const SetupScriptName := "setup_viame.sh"
  /** Where the included pipelines live under the install. */
  const PreTrainedPipelinesPath := "configs/pipelines"
  const DetectorOutputName := "detector_output.csv"
  const TrackOutputName := "track_output.csv"
  const JobLogName := "runlog.txt"
  const ManifestName := "image-manifest.txt"
  const NoDatasetsMessage := "Must have at least 1 dataset to train on"
  const KwiverFailedMessage := "kwiver failed to initialize"

  /** Clock readings, opaque. */
  type Tick = nat

  datatype Settings = Settings(viamePath: string, dataPath: string)

  /** The install and data locations used when the user has set none. */
  const DefaultSettings := Settings("/opt/noaa/viame", "~/viamedata")

  /** What `common.getDatasetBase` reports about a dataset. */
  datatype DatasetInfo = DatasetInfo(name: string, basePath: string, datasetType: string, imageFiles: seq<string>)

  /**
   * The platform as the code sees it: `fs.pathExists`, the exit code of the
   * `kwiver` probe (None when it ends on a signal), the `common` helpers, and
   * the pid the spawned pipeline process gets.
   */
  datatype Host = Host(
    pathExists: string -> bool,
    probeExit: Option<int>,
    datasetBase: string -> DatasetInfo,
    auxFolder: string -> string,
    createWorkingDir: (string, string, string) -> string,
    sanitize: string -> string,
    pid: nat)

  /** What the code does to the outside world. */
  datatype Effect =
    | ProbeSpawned(commandLine: string)
    | WorkDirCreated(dir: string)
    | ManifestWritten(path: string, text: string)
    | ProcessSpawned(commandLine: string, cwd: string)

  datatype Validation = Valid | Invalid(message: string)

  datatype ValidationRun = ValidationRun(outcome: Validation, effects: seq<Effect>)

  datatype JobType = Pipeline | Training

  datatype DesktopJob = DesktopJob(
    key: string,
    jobType: JobType,
    pid: nat,
    pipelineName: string,
    workingDir: string,
    datasetIds: seq<string>,
    exitCode: Option<int>,
    startTime: Tick,
    endTime: Option<Tick>)

  /** A message to the updater: the job record plus the log lines it carries. */
  datatype JobUpdate = JobUpdate(job: DesktopJob, body: seq<string>)

  function SetupScriptPath(settings: Settings): string
  {
    Join(settings.viamePath, SetupScriptName)
  }

  function ProbeCommand(setupScriptPath: string): string
  {
    "source " + setupScriptPath + " && which kwiver"
  }

  /**
   * `validateViamePath`: a missing setup script is reported without starting
   * anything; otherwise one probe is spawned and the install is valid exactly
   * when the probe exits with code 0.
   */
  function ValidateViamePath(settings: Settings, host: Host): (run: ValidationRun)
    ensures !host.pathExists(SetupScriptPath(settings)) ==>
      run == ValidationRun(Invalid(SetupScriptPath(settings) + " does not exist"), [])
    ensures host.pathExists(SetupScriptPath(settings)) ==>
      && run.effects == [ProbeSpawned(ProbeCommand(SetupScriptPath(settings)))]
      && (run.outcome.Valid? <==> host.probeExit == Some(0))
      && (run.outcome.Invalid? ==> run.outcome.message == KwiverFailedMessage)
  {
    var setupScriptPath := SetupScriptPath(settings);
    if !host.pathExists(setupScriptPath) then
      ValidationRun(Invalid(setupScriptPath + " does not exist"), [])
    else
      var outcome := if host.probeExit == Some(0) then Valid else Invalid(KwiverFailedMessage);
      ValidationRun(outcome, [ProbeSpawned(ProbeCommand(setupScriptPath))])
  }

  /** The manifest lists each image of the dataset by its full path, one per line, with no newline at the end. */
  function ManifestPaths(basePath: string, imageFiles: seq<string>): (paths: seq<string>)
    ensures |paths| == |imageFiles|
  {
    seq(|imageFiles|, k requires 0 <= k < |imageFiles| => Join(basePath, imageFiles[k]))
  }

  function ManifestText(basePath: string, imageFiles: seq<string>): string
  {
    JoinWith(ManifestPaths(basePath, imageFiles), '\n')
  }

  /** Without newlines in the names, the manifest's lines are exactly the image paths, one per image. */
  lemma {:induction false} ManifestLines(basePath: string, imageFiles: seq<string>)
    requires |imageFiles| >= 1
    requires '\n' !in basePath
    requires forall k :: 0 <= k < |imageFiles| ==> '\n' !in imageFiles[k]
    ensures Split(ManifestText(basePath, imageFiles), '\n') == ManifestPaths(basePath, imageFiles)
    ensures |Split(ManifestText(basePath, imageFiles), '\n')| == |imageFiles|
  {
    var paths := ManifestPaths(basePath, imageFiles);
    forall k | 0 <= k < |paths|
      ensures '\n' !in paths[k]
    {
      assert paths[k] == basePath + "/" + imageFiles[k];
    }
    SplitJoin(paths, '\n');
  }

  /** The manifest never ends with a newline; an empty image list gives an empty manifest. */
  lemma {:induction false} ManifestHasNoTrailingNewline(basePath: string, imageFiles: seq<string>)
    requires forall k :: 0 <= k < |imageFiles| ==> '\n' !in imageFiles[k]
    ensures imageFiles == [] ==> ManifestText(basePath, imageFiles) == ""
    ensures imageFiles != [] ==>
      var text := ManifestText(basePath, imageFiles);
      text != "" && text[|text| - 1] != '\n'
  {
    if imageFiles != [] {
      var paths := ManifestPaths(basePath, imageFiles);
      var file := imageFiles[|imageFiles| - 1];
      var last := paths[|paths| - 1];
      assert last == basePath + "/" + file;
      assert last[|last| - 1] != '\n' by {
        if file == "" {
          assert last[|last| - 1] == '/';
        } else {
          assert last[|last| - 1] == file[|file| - 1];
        }
      }
      JoinWithEndsWithLast(paths, '\n');
      var text := ManifestText(basePath, imageFiles);
      assert text[|text| - 1] == last[|last| - 1];
    }
  }

  /** `processChunk`: the chunk's lines, in order, without the empty ones. */
  function ProcessChunk(chunk: string): (lines: seq<string>)
    ensures forall k :: 0 <= k < |lines| ==> lines[k] != "" && '\n' !in lines[k]
  {
    NonEmptyPieces(Split(chunk, '\n'))
  }

  /** No text is lost or reordered: the lines laid end to end are the chunk without its newlines. */
  lemma ProcessChunkKeepsText(chunk: string)
    ensures Concat(ProcessChunk(chunk)) == Without(chunk, '\n')
  {
    ConcatOfNonEmpty(Split(chunk, '\n'));
    ConcatOfSplit(chunk, '\n');
  }

  /**
   * Any chunk is its pieces between newlines joined back together, empty pieces
   * included; the lines are exactly the non-empty ones among them, in order.
   */
  lemma ProcessChunkOfPieces(pieces: seq<string>)
    requires |pieces| >= 1
    requires forall k :: 0 <= k < |pieces| ==> '\n' !in pieces[k]
    ensures ProcessChunk(JoinWith(pieces, '\n')) == NonEmptyPieces(pieces)
  {
    SplitJoin(pieces, '\n');
  }

  /** Non-empty lines joined with newlines come back unchanged. */
  lemma ProcessChunkOfLines(lines: seq<string>)
    requires |lines| >= 1
    requires forall k :: 0 <= k < |lines| ==> lines[k] != "" && '\n' !in lines[k]
    ensures ProcessChunk(JoinWith(lines, '\n')) == lines
  {
    ProcessChunkOfPieces(lines);
    NonEmptyKeepsAll(lines);
  }

  /** Output that ends each line with a newline, the usual shape, gives its lines back. */
  lemma ProcessChunkOfTerminatedLines(lines: seq<string>)
    requires |lines| >= 1
    requires forall k :: 0 <= k < |lines| ==> lines[k] != "" && '\n' !in lines[k]
    ensures ProcessChunk(JoinWith(lines, '\n') + "\n") == lines
  {
    JoinWithTrailingEmpty(lines, '\n');
    ProcessChunkOfPieces(lines + [""]);
    NonEmptyPiecesAppend(lines, [""]);
    NonEmptyKeepsAll(lines);
  }

  /** Blank lines between output lines are dropped. */
  lemma ProcessChunkDropsBlankLine(a: string, b: string)
    requires a != "" && '\n' !in a && b != "" && '\n' !in b
    ensures ProcessChunk(a + "\n\n" + b) == [a, b]
  {
    var pieces := [a, "", b];
    assert pieces[1..][1..] == [b];
    assert JoinWith(pieces[1..], '\n') == "" + "\n" + b;
    assert JoinWith(pieces, '\n') == a + "\n\n" + b;
    ProcessChunkOfPieces(pieces);
    assert NonEmptyPieces(pieces[1..][1..]) == [b];
    assert NonEmptyPieces(pieces[1..]) == [b];
  }

  function PipelineKey(pid: nat, workDir: string): string
  {
    "pipeline_" + DecimalText(pid) + "_" + workDir
  }

  function TrainingKey(workDir: string): string
  {
    "training_" + workDir
  }

  /** A digit run ends at the first underscore, so the split point is fixed. */
  lemma DigitsThenUnderscore(a: string, x: string, b: string, y: string)
    requires forall k :: 0 <= k < |a| ==> '0' <= a[k] <= '9'
    requires forall k :: 0 <= k < |b| ==> '0' <= b[k] <= '9'
    requires a + "_" + x == b + "_" + y
    ensures a == b && x == y
  {
    var s := a + "_" + x;
    assert s == b + "_" + y;
    assert s[|a|] == '_' && forall k :: 0 <= k < |a| ==> s[k] == a[k];
    assert s[|b|] == '_' && forall k :: 0 <= k < |b| ==> s[k] == b[k];
    assert |a| == |b|;
    assert a == s[..|a|] == b;
    assert x == s[|a| + 1..] == y;
  }

  /** Two pipeline jobs share a key only if they share the pid and the working directory. */
  lemma PipelineKeyInjective(pid1: nat, workDir1: string, pid2: nat, workDir2: string)
    requires PipelineKey(pid1, workDir1) == PipelineKey(pid2, workDir2)
    ensures pid1 == pid2 && workDir1 == workDir2
  {
    var k := PipelineKey(pid1, workDir1);
    assert k[9..] == DecimalText(pid1) + "_" + workDir1;
    assert k[9..] == DecimalText(pid2) + "_" + workDir2;
    DigitsThenUnderscore(DecimalText(pid1), workDir1, DecimalText(pid2), workDir2);
    DecimalTextInjective(pid1, pid2);
  }

  /** Two training jobs share a key only if they share the working directory. */
  lemma TrainingKeyInjective(workDir1: string, workDir2: string)
    requires TrainingKey(workDir1) == TrainingKey(workDir2)
    ensures workDir1 == workDir2
  {
    assert workDir1 == TrainingKey(workDir1)[9..];
  }

  /** A pipeline key never equals a training key. */
  lemma PipelineAndTrainingKeysDiffer(pid: nat, workDir: string, trainingDir: string)
    ensures PipelineKey(pid, workDir) != TrainingKey(trainingDir)
  {
    assert PipelineKey(pid, workDir)[0] == 'p';
    assert TrainingKey(trainingDir)[0] == 't';
  }

  datatype RunPipelineArgs = RunPipelineArgs(settings: Settings, datasetId: string, pipelineName: string)

  /** What a started pipeline run consists of: the job record and where its outputs go. */
  datatype PipelineLaunch = PipelineLaunch(
    job: DesktopJob,
    datasetId: string,
    detectorOutput: string,
    trackOutput: string,
    joblog: string,
    command: seq<string>)

  function PipelinePath(settings: Settings, pipelineName: string): string
  {
    Join(Join(settings.viamePath, PreTrainedPipelinesPath), pipelineName)
  }

  /** The working directory `common.createKwiverRunWorkingDir` makes for a run of `pipelineName` on `datasetId`. */
  function RunWorkDir(host: Host, datasetId: string, pipelineName: string): string
  {
    var info := host.datasetBase(datasetId);
    host.createWorkingDir(info.name, host.auxFolder(info.basePath), pipelineName)
  }

  /** The files a run writes: the detector output, the track output, the log and the manifest. */
  const RunFileNames: seq<string> := [DetectorOutputName, TrackOutputName, JobLogName, ManifestName]

  /** Each file a run writes sits directly in the working directory under its own name. */
  lemma {:induction false} RunFileInWorkDir(workDir: string, k: nat)
    requires workDir != "" && k < |RunFileNames|
    ensures Dirname(Join(workDir, RunFileNames[k])) == workDir
    ensures Basename(Join(workDir, RunFileNames[k])) == RunFileNames[k]
  {
    var name := RunFileNames[k];
    assert '/' !in name by {
      assert forall j :: 0 <= j < |RunFileNames| ==> '/' !in RunFileNames[j];
    }
    JoinSplitsBack(workDir, name);
  }

  /** The four files a run writes are four different paths. */
  lemma RunFilesDistinct(workDir: string)
    ensures forall i, j :: 0 <= i < j < |RunFileNames| ==> Join(workDir, RunFileNames[i]) != Join(workDir, RunFileNames[j])
  {
    forall i, j | 0 <= i < j < |RunFileNames|
      ensures Join(workDir, RunFileNames[i]) != Join(workDir, RunFileNames[j])
    {
      var a := Join(workDir, RunFileNames[i]);
      var b := Join(workDir, RunFileNames[j]);
      assert a[|workDir| + 1..] == RunFileNames[i];
      assert b[|workDir| + 1..] == RunFileNames[j];
    }
  }

  /** The command words for a video dataset: the file is read directly. */
  function VideoCommand(setup: string, pipeline: string, video: string, detector: string, track: string, joblog: string): seq<string>
  {
    [ "source " + setup + " &&",
      "kwiver runner",
      "-s input:video_reader:type=vidl_ffmpeg",
      "-p " + pipeline,
      "-s input:video_filename=" + video,
      "-s detector_writer:file_name=" + detector,
      "-s track_writer:file_name=" + track,
      "| tee " + joblog ]
  }

  /** The command words for an image sequence: the manifest is the input, paths are quoted. */
  function ImageSequenceCommand(setup: string, pipeline: string, manifest: string, detector: string, track: string, joblog: string): seq<string>
  {
    [ "source " + setup + " &&",
      "kwiver runner",
      "-p \"" + pipeline + "\"",
      "-s input:video_filename=\"" + manifest + "\"",
      "-s detector_writer:file_name=\"" + detector + "\"",
      "-s track_writer:file_name=\"" + track + "\"",
      "| tee \"" + joblog + "\"" ]
  }

  /**
   * `runPipeline`: a failed validation is thrown before any directory is
   * made or process started; otherwise the working directory is made, the
   * manifest written for an image sequence, and the command spawned there.
   * The command is the video word list for "video", the manifest word list
   * for "image-sequence" and empty for any other type.
   */
  method RunPipeline(args: RunPipelineArgs, host: Host, now: Tick)
    returns (result: Result<PipelineLaunch>, effects: seq<Effect>)
    ensures var validation := ValidateViamePath(args.settings, host);
      validation.outcome.Invalid? ==>
        && result == Failure(validation.outcome.message)
        && effects == validation.effects
        && forall e :: e in effects ==> e.ProbeSpawned?
    ensures var validation := ValidateViamePath(args.settings, host);
      validation.outcome.Valid? ==>
        var info := host.datasetBase(args.datasetId);
        var workDir := RunWorkDir(host, args.datasetId, args.pipelineName);
        var setup := SetupScriptPath(args.settings);
        var pipeline := PipelinePath(args.settings, args.pipelineName);
        var detector := Join(workDir, DetectorOutputName);
        var track := Join(workDir, TrackOutputName);
        var joblog := Join(workDir, JobLogName);
        var manifest := Join(workDir, ManifestName);
        var command :=
          if info.datasetType == "video" then VideoCommand(setup, pipeline, args.datasetId, detector, track, joblog)
          else if info.datasetType == "image-sequence" then ImageSequenceCommand(setup, pipeline, manifest, detector, track, joblog)
          else [];
        && result == Success(PipelineLaunch(
             DesktopJob(PipelineKey(host.pid, workDir), Pipeline, host.pid, args.pipelineName, workDir,
                        [args.datasetId], None, now, None),
             args.datasetId, detector, track, joblog, command))
        && effects ==
             validation.effects + [WorkDirCreated(workDir)]
             + (if info.datasetType == "image-sequence"
                then [ManifestWritten(manifest, ManifestText(info.basePath, info.imageFiles))]
                else [])
             + [ProcessSpawned(JoinWith(command, ' '), workDir)]
  {
    var validation := ValidateViamePath(args.settings, host);
    effects := validation.effects;
    if validation.outcome.Invalid? {
      return Failure(validation.outcome.message), effects;
    }

    var setupScriptPath := SetupScriptPath(args.settings);
    var pipelinePath := PipelinePath(args.settings, args.pipelineName);
    var datasetInfo := host.datasetBase(args.datasetId);
    var auxPath := host.auxFolder(datasetInfo.basePath);
    var jobWorkDir := host.createWorkingDir(datasetInfo.name, auxPath, args.pipelineName);
    effects := effects + [WorkDirCreated(jobWorkDir)];

    var detectorOutput := Join(jobWorkDir, DetectorOutputName);
    var trackOutput := Join(jobWorkDir, TrackOutputName);
    var joblog := Join(jobWorkDir, JobLogName);

    var command: seq<string> := [];
    if datasetInfo.datasetType == "video" {
      command := VideoCommand(setupScriptPath, pipelinePath, args.datasetId, detectorOutput, trackOutput, joblog);
    } else if datasetInfo.datasetType == "image-sequence" {
      var manifestFile := Join(jobWorkDir, ManifestName);
      var fileData := ManifestText(datasetInfo.basePath, datasetInfo.imageFiles);
      effects := effects + [ManifestWritten(manifestFile, fileData)];
      command := ImageSequenceCommand(setupScriptPath, pipelinePath, manifestFile, detectorOutput, trackOutput, joblog);
    }

    effects := effects + [ProcessSpawned(JoinWith(command, ' '), jobWorkDir)];
    var jobBase := DesktopJob(
      PipelineKey(host.pid, jobWorkDir), Pipeline, host.pid, args.pipelineName, jobWorkDir,
      [args.datasetId], None, now, None);
    result := Success(PipelineLaunch(jobBase, args.datasetId, detectorOutput, trackOutput, joblog, command));
  }

  datatype TrainPipelineArgs = TrainPipelineArgs(settings: Settings, datasetIds: seq<string>, newPipelineName: string)

  datatype TrainingRun = TrainingRun(result: Result<DesktopJob>, effects: seq<Effect>)

  /**
   * `runTraining`: an empty dataset list is refused before validation or any
   * directory is made; a failed validation is thrown; otherwise a working
   * directory is made under the first dataset and a job record with pid 0
   * and no exit code is returned. Only the validation probe is spawned: no
   * pipeline or training process.
   */
  function RunTraining(args: TrainPipelineArgs, host: Host, now: Tick): (run: TrainingRun)
    ensures |args.datasetIds| == 0 ==> run == TrainingRun(Failure(NoDatasetsMessage), [])
    ensures |args.datasetIds| > 0 && ValidateViamePath(args.settings, host).outcome.Invalid? ==>
      var validation := ValidateViamePath(args.settings, host);
      run == TrainingRun(Failure(validation.outcome.message), validation.effects)
    ensures |args.datasetIds| > 0 && ValidateViamePath(args.settings, host).outcome.Valid? ==>
      var name := host.sanitize(args.newPipelineName);
      var workDir := RunWorkDir(host, args.datasetIds[0], name);
      && run.result == Success(DesktopJob(TrainingKey(workDir), Training, 0, name, workDir, args.datasetIds, None, now, None))
      && run.effects == ValidateViamePath(args.settings, host).effects + [WorkDirCreated(workDir)]
    ensures forall e :: e in run.effects ==> !e.ProcessSpawned? && !e.ManifestWritten?
  {
    var newPipelineName := host.sanitize(args.newPipelineName);
    if |args.datasetIds| == 0 then
      TrainingRun(Failure(NoDatasetsMessage), [])
    else
      var validation := ValidateViamePath(args.settings, host);
      if validation.outcome.Invalid? then
        TrainingRun(Failure(validation.outcome.message), validation.effects)
      else
        var datasetInfo0 := host.datasetBase(args.datasetIds[0]);
        var auxPath0 := host.auxFolder(datasetInfo0.basePath);
        var jobWorkDir0 := host.createWorkingDir(datasetInfo0.name, auxPath0, newPipelineName);
        var jobBase := DesktopJob(
          TrainingKey(jobWorkDir0), Training, 0, newPipelineName, jobWorkDir0, args.datasetIds, None, now, None);
        TrainingRun(Success(jobBase), validation.effects + [WorkDirCreated(jobWorkDir0)])
  }

  datatype Phase = Running | Exited(code: Option<int>, endTime: Tick)

  datatype PostprocessCall = PostprocessCall(paths: seq<string>, datasetId: string)

  /** The update sent when the process exits: the job record closed with the exit code and time, and one empty line. */
  function TerminalUpdate(base: DesktopJob, code: Option<int>, endTime: Tick): (u: JobUpdate)
    ensures u.job != base || base.endTime.Some?
  {
    JobUpdate(base.(exitCode := code, endTime := Some(endTime)), [""])
  }

  /** How many of `updates` carry a job record other than `base`. */
  function TerminalCount(updates: seq<JobUpdate>, base: DesktopJob): nat
  {
    if |updates| == 0 then 0
    else TerminalCount(updates[..|updates| - 1], base) + (if updates[|updates| - 1].job != base then 1 else 0)
  }

  /**
   * A pipeline process being supervised: each output chunk becomes an update
   * with the unchanged job record, and the exit event postprocesses the
   * outputs when the code is 0 and then sends one terminal update.
   */
  class PipelineJob {
    const base: DesktopJob
    const datasetId: string
    const trackOutput: string
    const detectorOutput: string
    var phase: Phase
    /** Every message given to the updater, in order. */
    var updates: seq<JobUpdate>
    /** Every call of `common.postprocess`, in order. */
    var postprocessCalls: seq<PostprocessCall>

    /**
     * Before exit every update is a data update; after it exactly one update
     * is the terminal one, and postprocessing was requested once, on both
     * outputs, exactly when the code was 0.
     */
    ghost predicate Valid()
      reads this
    {
      && base.endTime.None?
      && (forall k :: 0 <= k < |updates| ==>
            updates[k].job == base ||
            (phase.Exited? && updates[k] == TerminalUpdate(base, phase.code, phase.endTime)))
      && TerminalCount(updates, base) == (if phase.Exited? then 1 else 0)
      && postprocessCalls ==
           (if phase.Exited? && phase.code == Some(0)
            then [PostprocessCall([trackOutput, detectorOutput], datasetId)]
            else [])
    }

    constructor (launch: PipelineLaunch)
      requires launch.job.endTime.None?
      ensures base == launch.job && datasetId == launch.datasetId
      ensures trackOutput == launch.trackOutput && detectorOutput == launch.detectorOutput
      ensures phase == Running && updates == [] && postprocessCalls == []
      ensures Valid()
    {
      base := launch.job;
      datasetId := launch.datasetId;
      trackOutput := launch.trackOutput;
      detectorOutput := launch.detectorOutput;
      phase := Running;
      updates := [];
      postprocessCalls := [];
    }

    /** A chunk on stdout or stderr: one update with the job record and the chunk's lines. */
    method OnData(chunk: string)
      requires Valid()
      modifies this
      ensures Valid()
      ensures updates == old(updates) + [JobUpdate(base, ProcessChunk(chunk))]
      ensures phase == old(phase) && postprocessCalls == old(postprocessCalls)
    {
      var u := JobUpdate(base, ProcessChunk(chunk));
      assert (updates + [u])[..|updates|] == updates;
      updates := updates + [u];
    }

    /**
     * The exit event: postprocessing is requested when the code is 0 (its
     * failure, `postprocessSucceeds` false, is caught and changes nothing
     * here), then the terminal update is sent.
     */
    method OnExit(code: Option<int>, postprocessSucceeds: bool, endTime: Tick)
      requires Valid() && phase.Running?
      modifies this
      ensures Valid()
      ensures phase == Exited(code, endTime)
      ensures postprocessCalls ==
        (if code == Some(0) then [PostprocessCall([trackOutput, detectorOutput], datasetId)] else [])
      ensures updates == old(updates) + [TerminalUpdate(base, code, endTime)]
    {
      if code == Some(0) {
        postprocessCalls := postprocessCalls + [PostprocessCall([trackOutput, detectorOutput], datasetId)];
      }
      var u := TerminalUpdate(base, code, endTime);
      assert (updates + [u])[..|updates|] == updates;
      updates := updates + [u];
      phase := Exited(code, endTime);
    }
  }
}
