/**
 * Dataset loading of the desktop client (`loadMetadata` and its inner
 * `processFile` in client/platform/desktop/api/main.ts).
 *
 * Every member of the opened path (each directory entry in listing order,
 * or the single file) is classified by its MIME type and its extension.
 * The classification updates the variables `datasetType`, `basePath`,
 * `videoPath`, `videoUrl` and `imageData` shared by all members, and yields
 * one conversion record per member. Platform calls (`mime.lookup`,
 * `ffprobe`, `fs.stat`, `fs.readdir`, the media server port) are inputs.
 *
 * The members are processed concurrently with `Promise.all`, but each call's
 * synchronous part runs in listing order before any `ffprobe` await resumes,
 * so the classification is a left-to-right fold. A record built after the
 * `ffprobe` await reads `basePath` only once every member has been
 * classified, and so carries the final `basePath`.
 */
module DesktopApi {
  import opened Wrappers
  import opened Text
  import opened Paths

  datatype DatasetType = Video | ImageSequence

  /** One entry of the `streams` list of an `ffprobe` result. */
  datatype Stream = Stream(codecName: string, codecType: string)

  /** An image of an image-sequence dataset: its media-server URL and its file name. */
  datatype FrameImage = FrameImage(url: string, filename: string)

  /** The `convert` field of a `ConvertFFMPEG` record: `false`, `'video'` or `'image'`. */
  datatype Convert =
    | NoConvert
    | VideoConvert(source: string, dest: string)
    | ImageConvert(source: string, dest: string)

  datatype ConvertRecord = ConvertRecord(convert: Convert, datasetId: string, basePath: string)

  datatype DatasetMeta = DatasetMeta(
    datasetType: DatasetType,
    fps: nat,
    imageData: seq<FrameImage>,
    videoUrl: Option<string>)

  datatype DesktopDataset = DesktopDataset(name: string, basePath: string, videoPath: string, meta: DatasetMeta)

  /**
   * The platform as `loadMetadata` sees it: the media server's port, the
   * constant type lists, `mime.lookup` (which yields `false`, here `None`, for
   * an unknown extension) and `ffprobe` (`None` when the result or its
   * `streams` is missing).
   */
  datatype MediaEnv = MediaEnv(
    port: nat,
    websafeVideoTypes: set<string>,
    websafeImageTypes: set<string>,
    validVideoFormats: set<string>,
    mimeLookup: string -> Option<string>,
    ffprobe: string -> Option<seq<Stream>>)

  const FramesPerSecond: nat := 10
  const ConvertedSuffix: string := "_converted.mp4"

  function MediaUrl(env: MediaEnv, abspath: string): string
  {
    "http://localhost:" + DecimalText(env.port) + "/api/media?path=" + abspath
  }

  predicate IsWebsafeVideo(env: MediaEnv, abspath: string)
  {
    var mimetype := env.mimeLookup(abspath);
    mimetype.Some? && mimetype.value in env.websafeVideoTypes
  }

  predicate IsWebsafeImage(env: MediaEnv, abspath: string)
  {
    var mimetype := env.mimeLookup(abspath);
    mimetype.Some? && mimetype.value in env.websafeImageTypes
  }

  /** The extension with its dot removed, as `path.extname(p).replace('.', '')` computes it. */
  function ExtensionWithoutDot(abspath: string): string
  {
    ReplaceFirst(Extname(abspath), ".", "")
  }

  predicate HasVideoFormat(env: MediaEnv, abspath: string)
  {
    ExtensionWithoutDot(abspath) in env.validVideoFormats
  }

  predicate IsH264Video(s: Stream)
  {
    s.codecName == "h264" && s.codecType == "video"
  }

  /** The `websafe` filter of `processFile`: the h264 video streams, in order. */
  function H264Streams(streams: seq<Stream>): (found: seq<Stream>)
    ensures forall k :: 0 <= k < |found| ==> found[k] in streams && IsH264Video(found[k])
    ensures |found| > 0 <==> exists k :: 0 <= k < |streams| && IsH264Video(streams[k])
  {
    if |streams| == 0 then []
    else (if IsH264Video(streams[0]) then [streams[0]] else []) + H264Streams(streams[1..])
  }

  predicate ProbeFindsH264(env: MediaEnv, abspath: string)
  {
    var probe := env.ffprobe(abspath);
    probe.Some? && |H264Streams(probe.value)| > 0
  }

  /** The `dest` of a video conversion: the first occurrence of the extension text replaced. */
  function ConvertDest(abspath: string): string
  {
    ReplaceFirst(abspath, Extname(abspath), ConvertedSuffix)
  }

  /**
   * What `processFile` learns about one path from the platform, before it
   * touches the shared variables: the path's media URL and file name, which
   * of the three rules it matches, whether `ffprobe` would find an h264 video
   * stream in it, and where a conversion of it would be written.
   */
  datatype MemberInfo = MemberInfo(
    abspath: string,
    url: string,
    basename: string,
    websafeVideo: bool,
    websafeImage: bool,
    videoFormat: bool,
    probeFindsH264: bool,
    convertDest: string)

  function Inspect(env: MediaEnv, abspath: string): MemberInfo
  {
    MemberInfo(
      abspath, MediaUrl(env, abspath), Basename(abspath),
      IsWebsafeVideo(env, abspath), IsWebsafeImage(env, abspath), HasVideoFormat(env, abspath),
      ProbeFindsH264(env, abspath), ConvertDest(abspath))
  }

  function InspectAll(env: MediaEnv, members: seq<string>): (infos: seq<MemberInfo>)
    ensures |infos| == |members|
  {
    seq(|members|, k requires 0 <= k < |members| => Inspect(env, members[k]))
  }

  /** The type a member sets, if it matches any of the three rules. */
  function Kind(info: MemberInfo): Option<DatasetType>
  {
    if info.websafeImage then Some(ImageSequence)
    else if info.websafeVideo || info.videoFormat then Some(Video)
    else None
  }

  function Frame(info: MemberInfo): FrameImage
  {
    FrameImage(info.url, info.basename)
  }

  /** The closure variables of `loadMetadata`. */
  datatype Scan = Scan(
    datasetType: Option<DatasetType>,
    basePath: string,
    videoPath: string,
    videoUrl: string,
    imageData: seq<FrameImage>)

  function InitialScan(datasetId: string): Scan
  {
    Scan(None, datasetId, "", "", [])
  }

  /**
   * What a `processFile` call has produced once its synchronous part is done:
   * a finished record, or a record still waiting for `ffprobe` whose
   * `basePath` is read when the await resumes.
   */
  datatype Pending = Settled(record: ConvertRecord) | AwaitingProbe(convert: Convert)

  datatype Step = Step(state: Scan, pending: Pending)

  /** One `processFile` call on the member `info` describes, up to its `ffprobe` await. */
  function ProcessFile(datasetId: string, st: Scan, info: MemberInfo): (step: Step)
    ensures step.state.datasetType == if Kind(info).Some? then Kind(info) else st.datasetType
    ensures step.state.imageData == if info.websafeImage then st.imageData + [Frame(info)] else st.imageData
    ensures info.websafeVideo ==>
      step.state.basePath == Dirname(datasetId) && step.state.videoPath == info.abspath &&
      step.state.videoUrl == info.url
    ensures !info.websafeVideo ==>
      step.state.basePath == st.basePath && step.state.videoPath == st.videoPath &&
      step.state.videoUrl == st.videoUrl
    ensures step.pending.AwaitingProbe? <==> !info.websafeImage && step.state.datasetType == Some(Video)
    ensures step.pending.AwaitingProbe? ==>
      step.pending.convert ==
        if info.probeFindsH264 then VideoConvert(info.abspath, info.convertDest) else NoConvert
    ensures step.pending.Settled? ==>
      step.pending.record == ConvertRecord(NoConvert, datasetId, step.state.basePath)
  {
    var afterVideo :=
      if info.websafeVideo
      then st.(datasetType := Some(Video), basePath := Dirname(datasetId), videoPath := info.abspath, videoUrl := info.url)
      else st;
    if info.websafeImage then
      var afterImage := afterVideo.(datasetType := Some(ImageSequence), imageData := afterVideo.imageData + [Frame(info)]);
      Step(afterImage, Settled(ConvertRecord(NoConvert, datasetId, afterImage.basePath)))
    else
      var afterFormat := if info.videoFormat then afterVideo.(datasetType := Some(Video)) else afterVideo;
      if afterFormat.datasetType == Some(Video) then
        var convert := if info.probeFindsH264 then VideoConvert(info.abspath, info.convertDest) else NoConvert;
        Step(afterFormat, AwaitingProbe(convert))
      else
        Step(afterFormat, Settled(ConvertRecord(NoConvert, datasetId, afterFormat.basePath)))
  }

  datatype ScanResult = ScanResult(state: Scan, pending: seq<Pending>)

  /** The synchronous parts of `processFile` over the members, left to right. */
  function ScanMembers(datasetId: string, infos: seq<MemberInfo>): (r: ScanResult)
    ensures |r.pending| == |infos|
  {
    if |infos| == 0 then ScanResult(InitialScan(datasetId), [])
    else
      var prior := ScanMembers(datasetId, infos[..|infos| - 1]);
      var step := ProcessFile(datasetId, prior.state, infos[|infos| - 1]);
      ScanResult(step.state, prior.pending + [step.pending])
  }

  function Resolve(p: Pending, datasetId: string, finalBasePath: string): ConvertRecord
  {
    match p
    case Settled(record) => record
    case AwaitingProbe(convert) => ConvertRecord(convert, datasetId, finalBasePath)
  }

  /** The list `Promise.all` resolves to: every waiting record reads the final `basePath`. */
  function PossibleConverts(datasetId: string, infos: seq<MemberInfo>): (records: seq<ConvertRecord>)
    ensures |records| == |infos|
  {
    var scan := ScanMembers(datasetId, infos);
    seq(|infos|, k requires 0 <= k < |infos| => Resolve(scan.pending[k], datasetId, scan.state.basePath))
  }

  /** `possibleConverts.filter((item) => item.convert === 'video')`. */
  function VideoConverts(records: seq<ConvertRecord>): (picked: seq<ConvertRecord>)
    ensures forall r :: r in picked <==> r in records && r.convert.VideoConvert?
  {
    if |records| == 0 then []
    else (if records[0].convert.VideoConvert? then [records[0]] else []) + VideoConverts(records[1..])
  }

  /** `possibleConverts.filter((item) => item.convert === 'image')`. */
  function ImageConverts(records: seq<ConvertRecord>): (picked: seq<ConvertRecord>)
    ensures forall r :: r in picked <==> r in records && r.convert.ImageConvert?
  {
    if |records| == 0 then []
    else (if records[0].convert.ImageConvert? then [records[0]] else []) + ImageConverts(records[1..])
  }

  /** The paths handed to `processFile`: each listed entry under the directory, or the file itself. */
  function FileList(datasetId: string, isDirectory: bool, contents: seq<string>): (members: seq<string>)
    ensures isDirectory ==> |members| == |contents|
    ensures !isDirectory ==> members == [datasetId]
  {
    if isDirectory then seq(|contents|, k requires 0 <= k < |contents| => Join(datasetId, contents[k]))
    else [datasetId]
  }

  function NoMediaMessage(datasetId: string): string
  {
    "Cannot open dataset " + datasetId + ": No images or video found"
  }

  /** The end of `loadMetadata`: throw when no member set a type, else build the dataset. */
  function Assemble(datasetId: string, st: Scan): (r: Result<DesktopDataset>)
    ensures r.Failure? <==> st.datasetType.None?
    ensures r.Failure? ==> r.error == NoMediaMessage(datasetId)
    ensures r.Success? ==>
      && r.value.name == Basename(datasetId)
      && r.value.basePath == st.basePath
      && r.value.videoPath == st.videoPath
      && r.value.meta.datasetType == st.datasetType.value
      && r.value.meta.fps == 10
      && r.value.meta.imageData == (if st.datasetType == Some(ImageSequence) then st.imageData else [])
      && (r.value.meta.videoUrl.Some? <==> st.datasetType == Some(Video))
      && (r.value.meta.videoUrl.Some? ==> r.value.meta.videoUrl.value == st.videoUrl)
  {
    match st.datasetType
    case None => Failure(NoMediaMessage(datasetId))
    case Some(t) =>
      Success(DesktopDataset(
        Basename(datasetId), st.basePath, st.videoPath,
        DatasetMeta(
          t, FramesPerSecond,
          if t == ImageSequence then st.imageData else [],
          if t == Video then Some(st.videoUrl) else None)))
  }

  /** What `loadMetadata` ends with: its dataset or error, and the conversion batches it dispatched. */
  datatype LoadOutcome = LoadOutcome(
    result: Result<DesktopDataset>,
    videoFiles: seq<ConvertRecord>,
    imageFiles: seq<ConvertRecord>)

  function LoadMetadataSpec(env: MediaEnv, datasetId: string, isDirectory: bool, contents: seq<string>): LoadOutcome
  {
    var infos := InspectAll(env, FileList(datasetId, isDirectory, contents));
    var converts := PossibleConverts(datasetId, infos);
    LoadOutcome(Assemble(datasetId, ScanMembers(datasetId, infos).state), VideoConverts(converts), ImageConverts(converts))
  }

  /**
   * `loadMetadata(datasetId)`: `isDirectory` is what `fs.stat` reports and
   * `contents` what `fs.readdir` lists. Besides the dataset (or the error it
   * throws) it returns the video and image conversion batches it dispatches
   * before that point.
   */
  method LoadMetadata(env: MediaEnv, datasetId: string, isDirectory: bool, contents: seq<string>)
    returns (result: Result<DesktopDataset>, videoFiles: seq<ConvertRecord>, imageFiles: seq<ConvertRecord>)
    ensures LoadOutcome(result, videoFiles, imageFiles) == LoadMetadataSpec(env, datasetId, isDirectory, contents)
    ensures imageFiles == []
  {
    var fileList: seq<string>;
    if isDirectory {
      fileList := DirectoryFileList(datasetId, contents);
    } else {
      fileList := [datasetId];
    }
    ghost var infos := InspectAll(env, fileList);
    var datasetType, basePath, videoPath, videoUrl, imageData, pending := ProcessFiles(env, datasetId, fileList);

    var possibleConverts := seq(|pending|, k requires 0 <= k < |pending| => Resolve(pending[k], datasetId, basePath));
    imageFiles := ImageConverts(possibleConverts);
    videoFiles := VideoConverts(possibleConverts);
    NoImageConverts(datasetId, infos);

    if datasetType == None {
      result := Failure(NoMediaMessage(datasetId));
    } else {
      var t := datasetType.value;
      result := Success(DesktopDataset(
        Basename(datasetId), basePath, videoPath,
        DatasetMeta(
          t, FramesPerSecond,
          if t == ImageSequence then imageData else [],
          if t == Video then Some(videoUrl) else None)));
    }
  }

  /** The counting loop that joins each listed entry under the directory. */
  method DirectoryFileList(datasetId: string, contents: seq<string>) returns (fileList: seq<string>)
    ensures fileList == FileList(datasetId, true, contents)
  {
    fileList := [];
    var i := 0;
    while i < |contents|
      invariant 0 <= i <= |contents|
      invariant |fileList| == i
      invariant forall k :: 0 <= k < i ==> fileList[k] == Join(datasetId, contents[k])
    {
      fileList := fileList + [Join(datasetId, contents[i])];
      i := i + 1;
    }
  }

  /**
   * Every `processFile` call up to its `ffprobe` await, in enumeration order,
   * from the initial closure variables: the variables end as the fold leaves
   * them, with one pending record per member.
   */
  method ProcessFiles(env: MediaEnv, datasetId: string, fileList: seq<string>)
    returns (datasetType: Option<DatasetType>, basePath: string, videoPath: string, videoUrl: string,
             imageData: seq<FrameImage>, pending: seq<Pending>)
    ensures ScanMembers(datasetId, InspectAll(env, fileList)) ==
      ScanResult(Scan(datasetType, basePath, videoPath, videoUrl, imageData), pending)
  {
    datasetType, videoUrl, videoPath, basePath, imageData := None, "", "", datasetId, [];
    ghost var infos := InspectAll(env, fileList);
    pending := [];
    var j := 0;
    while j < |fileList|
      invariant 0 <= j <= |fileList|
      invariant ScanMembers(datasetId, infos[..j]) ==
        ScanResult(Scan(datasetType, basePath, videoPath, videoUrl, imageData), pending)
    {
      var next: Pending;
      ScanMembersStep(datasetId, infos, j);
      datasetType, basePath, videoPath, videoUrl, imageData, next :=
        ProcessFileSync(env, datasetId, datasetType, basePath, videoPath, videoUrl, imageData, fileList[j], infos[j]);
      pending := pending + [next];
      j := j + 1;
    }
    assert infos[..j] == infos;
  }

  /**
   * The synchronous part of one `processFile(abspath)` call, on the closure
   * variables it updates; `next` is what the call has produced when it
   * reaches its `ffprobe` await or returns.
   */
  method ProcessFileSync(
    env: MediaEnv, datasetId: string,
    datasetType0: Option<DatasetType>, basePath0: string, videoPath0: string, videoUrl0: string,
    imageData0: seq<FrameImage>, abspath: string, ghost info: MemberInfo)
    returns (datasetType: Option<DatasetType>, basePath: string, videoPath: string, videoUrl: string,
             imageData: seq<FrameImage>, next: Pending)
    requires info == Inspect(env, abspath)
    ensures Step(Scan(datasetType, basePath, videoPath, videoUrl, imageData), next) ==
      ProcessFile(datasetId, Scan(datasetType0, basePath0, videoPath0, videoUrl0, imageData0), info)
  {
    datasetType, basePath, videoPath, videoUrl, imageData := datasetType0, basePath0, videoPath0, videoUrl0, imageData0;
    var basename := Basename(abspath);
    var abspathUri := MediaUrl(env, abspath);
    var mimetype := env.mimeLookup(abspath);
    if mimetype.Some? && mimetype.value in env.websafeVideoTypes {
      datasetType := Some(Video);
      basePath := Dirname(datasetId);
      videoPath := abspath;
      videoUrl := abspathUri;
    }
    if mimetype.Some? && mimetype.value in env.websafeImageTypes {
      datasetType := Some(ImageSequence);
      imageData := imageData + [FrameImage(abspathUri, basename)];
      next := Settled(ConvertRecord(NoConvert, datasetId, basePath));
      return;
    }
    if ReplaceFirst(Extname(abspath), ".", "") in env.validVideoFormats {
      datasetType := Some(Video);
    }
    next := Settled(ConvertRecord(NoConvert, datasetId, basePath));
    if datasetType == Some(Video) {
      var ffprobeJson := env.ffprobe(abspath);
      next := AwaitingProbe(NoConvert);
      if ffprobeJson.Some? {
        var websafe := H264Streams(ffprobeJson.value);
        if |websafe| > 0 {
          next := AwaitingProbe(VideoConvert(abspath, ReplaceFirst(abspath, Extname(abspath), ConvertedSuffix)));
        }
      }
    }
  }

  /** The fold over one more member is one more `processFile` step. */
  lemma ScanMembersStep(datasetId: string, infos: seq<MemberInfo>, j: nat)
    requires j < |infos|
    ensures var prior := ScanMembers(datasetId, infos[..j]);
      var step := ProcessFile(datasetId, prior.state, infos[j]);
      ScanMembers(datasetId, infos[..j + 1]) == ScanResult(step.state, prior.pending + [step.pending])
  {
    assert infos[..j + 1][..j] == infos[..j];
  }

  /** The record pending for member `k` is fixed once member `k` has been processed. */
  lemma {:induction false} PendingIsPrefixStable(datasetId: string, infos: seq<MemberInfo>, k: nat)
    requires k < |infos|
    ensures ScanMembers(datasetId, infos).pending[k] == ScanMembers(datasetId, infos[..k + 1]).pending[k]
    decreases |infos|
  {
    if k + 1 < |infos| {
      var prefix := infos[..|infos| - 1];
      PendingIsPrefixStable(datasetId, prefix, k);
      assert prefix[..k + 1] == infos[..k + 1];
    } else {
      assert infos[..k + 1] == infos;
    }
  }

  /**
   * The record `processFile` yields for member `k`. It waits for `ffprobe`
   * exactly when the member is not a web-safe image and the running type,
   * after this member's rules, is video; it is a video conversion exactly when
   * the probe also finds an h264 video stream. A record that waited carries the
   * final `basePath`, any other the `basePath` of its moment.
   */
  lemma {:induction false} ConvertRecordOfMember(datasetId: string, infos: seq<MemberInfo>, k: nat)
    requires k < |infos|
    ensures var running := ScanMembers(datasetId, infos[..k + 1]).state;
      var final := ScanMembers(datasetId, infos).state;
      var awaited := !infos[k].websafeImage && running.datasetType == Some(Video);
      var r := PossibleConverts(datasetId, infos)[k];
      && r.datasetId == datasetId
      && r.convert ==
        (if awaited && infos[k].probeFindsH264 then VideoConvert(infos[k].abspath, infos[k].convertDest) else NoConvert)
      && r.basePath == (if awaited then final.basePath else running.basePath)
  {
    PendingIsPrefixStable(datasetId, infos, k);
    assert infos[..k + 1][..k] == infos[..k];
    assert infos[..k + 1][k] == infos[k];
  }

  /** The video filter works record by record, so the batch keeps the records' order. */
  lemma {:induction false} VideoConvertsAppend(a: seq<ConvertRecord>, b: seq<ConvertRecord>)
    ensures VideoConverts(a + b) == VideoConverts(a) + VideoConverts(b)
  {
    if |a| > 0 {
      assert (a + b)[1..] == a[1..] + b;
      VideoConvertsAppend(a[1..], b);
    } else {
      assert a + b == b;
    }
  }

  /** The image filter works record by record, so the batch keeps the records' order. */
  lemma {:induction false} ImageConvertsAppend(a: seq<ConvertRecord>, b: seq<ConvertRecord>)
    ensures ImageConverts(a + b) == ImageConverts(a) + ImageConverts(b)
  {
    if |a| > 0 {
      assert (a + b)[1..] == a[1..] + b;
      ImageConvertsAppend(a[1..], b);
    } else {
      assert a + b == b;
    }
  }

  /** A single record is kept by the video filter exactly when it is a video conversion. */
  lemma VideoConvertsOne(r: ConvertRecord)
    ensures VideoConverts([r]) == (if r.convert.VideoConvert? then [r] else [])
  {
  }

  /** A single record is kept by the image filter exactly when it is an image conversion. */
  lemma ImageConvertsOne(r: ConvertRecord)
    ensures ImageConverts([r]) == (if r.convert.ImageConvert? then [r] else [])
  {
  }

  /** The positions of the video conversions among the records, in increasing order. */
  function VideoPositions(records: seq<ConvertRecord>): (ks: seq<nat>)
    ensures forall i :: 0 <= i < |ks| ==> ks[i] < |records| && records[ks[i]].convert.VideoConvert?
    ensures forall i, j :: 0 <= i < j < |ks| ==> ks[i] < ks[j]
    ensures forall k :: 0 <= k < |records| && records[k].convert.VideoConvert? ==> k in ks
  {
    if |records| == 0 then []
    else
      var rest := VideoPositions(records[..|records| - 1]);
      if records[|records| - 1].convert.VideoConvert? then rest + [|records| - 1] else rest
  }

  /** The positions of the image conversions among the records, in increasing order. */
  function ImagePositions(records: seq<ConvertRecord>): (ks: seq<nat>)
    ensures forall i :: 0 <= i < |ks| ==> ks[i] < |records| && records[ks[i]].convert.ImageConvert?
    ensures forall i, j :: 0 <= i < j < |ks| ==> ks[i] < ks[j]
    ensures forall k :: 0 <= k < |records| && records[k].convert.ImageConvert? ==> k in ks
  {
    if |records| == 0 then []
    else
      var rest := ImagePositions(records[..|records| - 1]);
      if records[|records| - 1].convert.ImageConvert? then rest + [|records| - 1] else rest
  }

  /** The video batch is the video conversions, one entry each, in the records' order. */
  lemma {:induction false} VideoConvertsInOrder(records: seq<ConvertRecord>)
    ensures var picked := VideoConverts(records);
      var ks := VideoPositions(records);
      |picked| == |ks| && forall i :: 0 <= i < |ks| ==> picked[i] == records[ks[i]]
  {
    if |records| > 0 {
      var n := |records| - 1;
      VideoConvertsInOrder(records[..n]);
      assert records[..n] + [records[n]] == records;
      VideoConvertsAppend(records[..n], [records[n]]);
      VideoConvertsOne(records[n]);
    }
  }

  /** The image batch is the image conversions, one entry each, in the records' order. */
  lemma {:induction false} ImageConvertsInOrder(records: seq<ConvertRecord>)
    ensures var picked := ImageConverts(records);
      var ks := ImagePositions(records);
      |picked| == |ks| && forall i :: 0 <= i < |ks| ==> picked[i] == records[ks[i]]
  {
    if |records| > 0 {
      var n := |records| - 1;
      ImageConvertsInOrder(records[..n]);
      assert records[..n] + [records[n]] == records;
      ImageConvertsAppend(records[..n], [records[n]]);
      ImageConvertsOne(records[n]);
    }
  }

  lemma {:induction false} NoImageConvertsPicked(records: seq<ConvertRecord>)
    requires forall r :: r in records ==> !r.convert.ImageConvert?
    ensures ImageConverts(records) == []
  {
    if |records| > 0 {
      assert records[0] in records;
      NoImageConvertsPicked(records[1..]);
    }
  }

  lemma {:induction false} NoVideoConvertsPicked(records: seq<ConvertRecord>)
    requires forall r :: r in records ==> !r.convert.VideoConvert?
    ensures VideoConverts(records) == []
  {
    if |records| > 0 {
      assert records[0] in records;
      NoVideoConvertsPicked(records[1..]);
    }
  }

  /** No member yields an `'image'` conversion, so the image batch is always empty. */
  lemma {:induction false} NoImageConverts(datasetId: string, infos: seq<MemberInfo>)
    ensures forall r :: r in PossibleConverts(datasetId, infos) ==> !r.convert.ImageConvert?
    ensures ImageConverts(PossibleConverts(datasetId, infos)) == []
  {
    var records := PossibleConverts(datasetId, infos);
    forall r | r in records
      ensures !r.convert.ImageConvert?
    {
      var k :| 0 <= k < |records| && records[k] == r;
      ConvertRecordOfMember(datasetId, infos, k);
    }
    NoImageConvertsPicked(records);
  }

  /**
   * Every dispatched video conversion converts some member to that member's
   * conversion destination, and carries the final `basePath`.
   */
  lemma {:induction false} VideoConvertRecords(datasetId: string, infos: seq<MemberInfo>)
    ensures var final := ScanMembers(datasetId, infos).state;
      forall r :: r in VideoConverts(PossibleConverts(datasetId, infos)) ==>
        && r.datasetId == datasetId
        && r.basePath == final.basePath
        && exists k :: 0 <= k < |infos| && r.convert == VideoConvert(infos[k].abspath, infos[k].convertDest)
  {
    var records := PossibleConverts(datasetId, infos);
    forall r | r in VideoConverts(records)
      ensures r.datasetId == datasetId && r.basePath == ScanMembers(datasetId, infos).state.basePath
      ensures exists k :: 0 <= k < |infos| && r.convert == VideoConvert(infos[k].abspath, infos[k].convertDest)
    {
      var k :| 0 <= k < |records| && records[k] == r;
      ConvertRecordOfMember(datasetId, infos, k);
    }
  }

  /** Member `k` is the last one that matches any rule. */
  predicate IsLastMatch(infos: seq<MemberInfo>, k: int)
  {
    0 <= k < |infos| && Kind(infos[k]).Some? &&
    forall j :: k < j < |infos| ==> Kind(infos[j]).None?
  }

  /** Member `k` is the last one with a web-safe video MIME type. */
  predicate IsLastWebsafeVideo(infos: seq<MemberInfo>, k: int)
  {
    0 <= k < |infos| && infos[k].websafeVideo &&
    forall j :: k < j < |infos| ==> !infos[j].websafeVideo
  }

  /** The last member's rule, if it has one, decides the type; otherwise the type before it stays. */
  lemma LastStepType(datasetId: string, infos: seq<MemberInfo>)
    requires |infos| > 0
    ensures var last := infos[|infos| - 1];
      ScanMembers(datasetId, infos).state.datasetType ==
        if Kind(last).Some? then Kind(last) else ScanMembers(datasetId, infos[..|infos| - 1]).state.datasetType
  {
  }

  /** The final type is the one set by the last member that matched a rule; none when no member matched. */
  lemma {:induction false} TypeIsLastMatch(datasetId: string, infos: seq<MemberInfo>)
    ensures ScanMembers(datasetId, infos).state.datasetType.None? <==>
      forall k :: 0 <= k < |infos| ==> Kind(infos[k]).None?
    ensures forall k :: IsLastMatch(infos, k) ==> ScanMembers(datasetId, infos).state.datasetType == Kind(infos[k])
    decreases |infos|
  {
    if |infos| > 0 {
      var n := |infos| - 1;
      var prefix := infos[..n];
      TypeIsLastMatch(datasetId, prefix);
      LastStepType(datasetId, infos);
      assert forall k :: 0 <= k < n ==> prefix[k] == infos[k];
      forall k | IsLastMatch(infos, k) && k < n
        ensures IsLastMatch(prefix, k)
      {
        assert Kind(infos[n]).None?;
      }
    }
  }

  /** Without a web-safe video member, `basePath`, `videoPath` and `videoUrl` keep their initial values. */
  lemma {:induction false} NoVideoKeepsDefaults(datasetId: string, infos: seq<MemberInfo>)
    requires forall k :: 0 <= k < |infos| ==> !infos[k].websafeVideo
    ensures var st := ScanMembers(datasetId, infos).state;
      st.basePath == datasetId && st.videoPath == "" && st.videoUrl == ""
    decreases |infos|
  {
    if |infos| > 0 {
      var n := |infos| - 1;
      assert forall k :: 0 <= k < n ==> infos[..n][k] == infos[k];
      NoVideoKeepsDefaults(datasetId, infos[..n]);
    }
  }

  /**
   * `basePath` is the parent of the dataset path, and `videoPath` and
   * `videoUrl` are those of the last member with a web-safe video MIME type.
   */
  lemma {:induction false} VideoFieldsFromLastVideo(datasetId: string, infos: seq<MemberInfo>, k: nat)
    requires IsLastWebsafeVideo(infos, k)
    ensures var st := ScanMembers(datasetId, infos).state;
      st.basePath == Dirname(datasetId) && st.videoPath == infos[k].abspath && st.videoUrl == infos[k].url
    decreases |infos|
  {
    var n := |infos| - 1;
    if k < n {
      var prefix := infos[..n];
      assert forall j :: 0 <= j < n ==> prefix[j] == infos[j];
      assert !infos[n].websafeVideo;
      VideoFieldsFromLastVideo(datasetId, prefix, k);
    }
  }

  /** The frames of the members with a web-safe image MIME type, in listing order. */
  function ImageFrames(infos: seq<MemberInfo>): seq<FrameImage>
  {
    if |infos| == 0 then []
    else (if infos[0].websafeImage then [Frame(infos[0])] else []) + ImageFrames(infos[1..])
  }

  lemma {:induction false} ImageFramesOfLast(infos: seq<MemberInfo>)
    requires |infos| > 0
    ensures var last := infos[|infos| - 1];
      ImageFrames(infos) == ImageFrames(infos[..|infos| - 1]) + (if last.websafeImage then [Frame(last)] else [])
  {
    if |infos| > 1 {
      ImageFramesOfLast(infos[1..]);
      assert infos[1..][..|infos| - 2] == infos[..|infos| - 1][1..];
    }
  }

  /** `imageData` holds exactly the web-safe image members, in listing order. */
  lemma {:induction false} ImageDataIsImageMembers(datasetId: string, infos: seq<MemberInfo>)
    ensures ScanMembers(datasetId, infos).state.imageData == ImageFrames(infos)
    decreases |infos|
  {
    if |infos| > 0 {
      ImageDataIsImageMembers(datasetId, infos[..|infos| - 1]);
      ImageFramesOfLast(infos);
    }
  }

  lemma {:induction false} ImageFramesOfImages(infos: seq<MemberInfo>)
    requires forall k :: 0 <= k < |infos| ==> infos[k].websafeImage
    ensures |ImageFrames(infos)| == |infos|
    ensures forall k :: 0 <= k < |infos| ==> ImageFrames(infos)[k] == Frame(infos[k])
  {
    if |infos| > 0 {
      ImageFramesOfImages(infos[1..]);
      assert forall k :: 1 <= k < |infos| ==> infos[1..][k - 1] == infos[k];
    }
  }


  /** Neither MIME rule nor the extension rule matches the path. */
  predicate MatchesNoRule(env: MediaEnv, abspath: string)
  {
    !IsWebsafeImage(env, abspath) && !IsWebsafeVideo(env, abspath) && !HasVideoFormat(env, abspath)
  }

  /** A member's kind is decided by its MIME type first and its extension last. */
  lemma KindOfPath(env: MediaEnv, abspath: string)
    ensures Kind(Inspect(env, abspath)) ==
      if IsWebsafeImage(env, abspath) then Some(ImageSequence)
      else if IsWebsafeVideo(env, abspath) || HasVideoFormat(env, abspath) then Some(Video)
      else None
    ensures Kind(Inspect(env, abspath)).None? <==> MatchesNoRule(env, abspath)
  {
  }

  /** Over the inspected members: the load fails, naming the dataset, exactly when no member has a kind. */
  lemma {:induction false} NoKindFails(env: MediaEnv, datasetId: string, isDirectory: bool, contents: seq<string>)
    ensures var infos := InspectAll(env, FileList(datasetId, isDirectory, contents));
      var out := LoadMetadataSpec(env, datasetId, isDirectory, contents);
      && (out.result.Failure? <==> forall k :: 0 <= k < |infos| ==> Kind(infos[k]).None?)
      && (out.result.Failure? ==> out.result.error == NoMediaMessage(datasetId))
  {
    var infos := InspectAll(env, FileList(datasetId, isDirectory, contents));
    TypeIsLastMatch(datasetId, infos);
    assert LoadMetadataSpec(env, datasetId, isDirectory, contents).result ==
      Assemble(datasetId, ScanMembers(datasetId, infos).state);
  }

  /** `loadMetadata` throws, naming the dataset, exactly when no member matched any rule. */
  lemma {:induction false} NoMediaFails(env: MediaEnv, datasetId: string, isDirectory: bool, contents: seq<string>)
    ensures var members := FileList(datasetId, isDirectory, contents);
      var out := LoadMetadataSpec(env, datasetId, isDirectory, contents);
      && (out.result.Failure? <==> forall k :: 0 <= k < |members| ==> MatchesNoRule(env, members[k]))
      && (out.result.Failure? ==> out.result.error == NoMediaMessage(datasetId))
  {
    var members := FileList(datasetId, isDirectory, contents);
    var infos := InspectAll(env, members);
    NoKindFails(env, datasetId, isDirectory, contents);
    forall k | 0 <= k < |members|
      ensures MatchesNoRule(env, members[k]) <==> Kind(infos[k]).None?
    {
      KindOfPath(env, members[k]);
    }
  }
  /**
   * Every dispatched video conversion converts a member of the dataset to
   * that member's `ConvertDest`, and carries the final `basePath`: the one
   * the returned dataset has. The batch lists the video conversions of the
   * members' records, one each, in member order.
   */
  lemma {:induction false} DispatchedVideoConversions(env: MediaEnv, datasetId: string, isDirectory: bool, contents: seq<string>)
    ensures var members := FileList(datasetId, isDirectory, contents);
      var out := LoadMetadataSpec(env, datasetId, isDirectory, contents);
      var final := ScanMembers(datasetId, InspectAll(env, members)).state;
      && (out.result.Success? ==> out.result.value.basePath == final.basePath)
      && forall r :: r in out.videoFiles ==>
        && r.datasetId == datasetId
        && r.basePath == final.basePath
        && r.convert.VideoConvert?
        && r.convert.source in members
        && r.convert.dest == ConvertDest(r.convert.source)
    ensures var members := FileList(datasetId, isDirectory, contents);
      var out := LoadMetadataSpec(env, datasetId, isDirectory, contents);
      var records := PossibleConverts(datasetId, InspectAll(env, members));
      var ks := VideoPositions(records);
      && |out.videoFiles| == |ks|
      && forall i :: 0 <= i < |ks| ==>
        out.videoFiles[i] == records[ks[i]] && out.videoFiles[i].convert.source == members[ks[i]]
  {
    var members := FileList(datasetId, isDirectory, contents);
    var infos := InspectAll(env, members);
    var records := PossibleConverts(datasetId, infos);
    var ks := VideoPositions(records);
    VideoConvertsInOrder(records);
    forall i | 0 <= i < |ks|
      ensures records[ks[i]].convert.source == members[ks[i]]
    {
      ConvertRecordOfMember(datasetId, infos, ks[i]);
    }
    VideoConvertRecords(datasetId, infos);
    forall r | r in LoadMetadataSpec(env, datasetId, isDirectory, contents).videoFiles
      ensures r.convert.VideoConvert? && r.convert.source in members && r.convert.dest == ConvertDest(r.convert.source)
    {
      var k :| 0 <= k < |infos| && r.convert == VideoConvert(infos[k].abspath, infos[k].convertDest);
      assert infos[k] == Inspect(env, members[k]);
    }
  }

  /**
   * Members that are all web-safe images, and none a web-safe video, leave an
   * image sequence based at the dataset path, with one frame per member in
   * order, and yield no video conversion.
   */
  lemma {:induction false} AllImagesScan(datasetId: string, infos: seq<MemberInfo>)
    requires |infos| > 0
    requires forall k :: 0 <= k < |infos| ==> infos[k].websafeImage && !infos[k].websafeVideo
    ensures var st := ScanMembers(datasetId, infos).state;
      && st.datasetType == Some(ImageSequence)
      && st.basePath == datasetId
      && |st.imageData| == |infos|
      && (forall k :: 0 <= k < |infos| ==> st.imageData[k] == Frame(infos[k]))
    ensures VideoConverts(PossibleConverts(datasetId, infos)) == []
  {
    assert IsLastMatch(infos, |infos| - 1);
    TypeIsLastMatch(datasetId, infos);
    NoVideoKeepsDefaults(datasetId, infos);
    ImageDataIsImageMembers(datasetId, infos);
    ImageFramesOfImages(infos);
    var records := PossibleConverts(datasetId, infos);
    forall r | r in records
      ensures !r.convert.VideoConvert?
    {
      var k :| 0 <= k < |records| && records[k] == r;
      ConvertRecordOfMember(datasetId, infos, k);
    }
    NoVideoConvertsPicked(records);
  }

  /**
   * A directory of web-safe images only gives an image sequence with one
   * frame per entry, in listing order, named after the entry, based at the
   * directory, and dispatches no conversion.
   */
  lemma {:induction false} AllImagesDirectory(env: MediaEnv, datasetId: string, contents: seq<string>)
    requires |contents| > 0
    requires forall k :: 0 <= k < |contents| ==>
      '/' !in contents[k] &&
      IsWebsafeImage(env, Join(datasetId, contents[k])) && !IsWebsafeVideo(env, Join(datasetId, contents[k]))
    ensures var out := LoadMetadataSpec(env, datasetId, true, contents);
      && out.result.Success?
      && out.result.value.meta.datasetType == ImageSequence
      && out.result.value.basePath == datasetId
      && out.result.value.meta.videoUrl.None?
      && |out.result.value.meta.imageData| == |contents|
      && (forall k :: 0 <= k < |contents| ==>
            out.result.value.meta.imageData[k] == FrameImage(MediaUrl(env, Join(datasetId, contents[k])), contents[k]))
      && out.videoFiles == []
      && out.imageFiles == []
  {
    var infos := InspectAll(env, FileList(datasetId, true, contents));
    forall k | 0 <= k < |infos|
      ensures infos[k].websafeImage && !infos[k].websafeVideo
      ensures Frame(infos[k]) == FrameImage(MediaUrl(env, Join(datasetId, contents[k])), contents[k])
    {
      JoinSplitsBack(datasetId, contents[k]);
    }
    AllImagesScan(datasetId, infos);
    NoImageConverts(datasetId, infos);
  }

  /**
   * A single web-safe video file gives a video dataset based at its parent
   * directory, playing that file, and dispatches its conversion exactly when
   * `ffprobe` finds an h264 video stream in it.
   */
  lemma {:induction false} SingleVideoFile(env: MediaEnv, datasetId: string)
    requires IsWebsafeVideo(env, datasetId) && !IsWebsafeImage(env, datasetId)
    ensures var out := LoadMetadataSpec(env, datasetId, false, []);
      && out.result == Success(DesktopDataset(
           Basename(datasetId), Dirname(datasetId), datasetId,
           DatasetMeta(Video, 10, [], Some(MediaUrl(env, datasetId)))))
      && out.videoFiles ==
           (if ProbeFindsH264(env, datasetId)
            then [ConvertRecord(VideoConvert(datasetId, ConvertDest(datasetId)), datasetId, Dirname(datasetId))]
            else [])
      && out.imageFiles == []
  {
    var info := Inspect(env, datasetId);
    assert info.websafeVideo && !info.websafeImage && info.abspath == datasetId;
    assert InspectAll(env, FileList(datasetId, false, [])) == [info];
    SingleVideoMember(datasetId, info);
    NoImageConverts(datasetId, [info]);
    var records := PossibleConverts(datasetId, [info]);
    assert LoadMetadataSpec(env, datasetId, false, []) ==
      LoadOutcome(Assemble(datasetId, ScanMembers(datasetId, [info]).state), VideoConverts(records), ImageConverts(records));
  }

  /**
   * One web-safe video member alone: the fold ends on a video based at the
   * dataset's parent, and the record converts it exactly when the probe finds h264.
   */
  lemma SingleVideoMember(datasetId: string, info: MemberInfo)
    requires info.websafeVideo && !info.websafeImage
    ensures ScanMembers(datasetId, [info]).state == Scan(Some(Video), Dirname(datasetId), info.abspath, info.url, [])
    ensures VideoConverts(PossibleConverts(datasetId, [info])) ==
      if info.probeFindsH264
      then [ConvertRecord(VideoConvert(info.abspath, info.convertDest), datasetId, Dirname(datasetId))]
      else []
  {
    assert [info][..0] == [];
    var records := PossibleConverts(datasetId, [info]);
    assert records[1..] == [];
  }

  /** The video-format rule compares the extension without its leading dot. */
  lemma ExtensionWithoutDotDropsDot(abspath: string)
    ensures ExtensionWithoutDot(abspath) == if Extname(abspath) == "" then "" else Extname(abspath)[1..]
  {
    var ext := Extname(abspath);
    if ext != "" {
      assert ext[0..1] == ".";
      FindFromIs(ext, ".", 0);
    }
  }

  /**
   * When the extension text first occurs at the end of the path, the
   * conversion destination is the path with its extension swapped for
   * `_converted.mp4`.
   */
  lemma ConvertDestReplacesExtension(abspath: string)
    requires forall j :: 0 <= j < |abspath| - |Extname(abspath)| ==> !OccursAt(abspath, Extname(abspath), j)
    ensures ConvertDest(abspath) == abspath[..|abspath| - |Extname(abspath)|] + ConvertedSuffix
  {
    var ext := Extname(abspath);
    ExtnameIsSuffix(abspath);
    FindFromIs(abspath, ext, |abspath| - |ext|);
    assert abspath[|abspath| - |ext| + |ext|..] == [];
  }

  /**
   * Only the first occurrence of the extension text is replaced, so for
   * `/v/a.mp4/b.mp4` the span replaced is the `.mp4` of the folder `a.mp4`,
   * which lies before the last separator: the destination renames the folder
   * and keeps the file name.
   */
  lemma ConvertDestCanRenameFolder()
    ensures Basename("/v/a.mp4/b.mp4") == "b.mp4"
    ensures Extname("/v/a.mp4/b.mp4") == ".mp4"
    ensures ConvertDest("/v/a.mp4/b.mp4") == "/v/a.mp4/b.mp4"[..4] + ConvertedSuffix + "/v/a.mp4/b.mp4"[8..]
  {
    ExtnameOfSample();
    FirstExtensionOfSample();
    ConvertDestAtFirstMatch("/v/a.mp4/b.mp4", 4);
  }

  /** The destination replaces the first occurrence of the extension text. */
  lemma ConvertDestAtFirstMatch(abspath: string, i: nat)
    requires FindFrom(abspath, Extname(abspath), 0) == Some(i)
    ensures ConvertDest(abspath) == abspath[..i] + ConvertedSuffix + abspath[i + |Extname(abspath)|..]
  {
  }

  lemma ExtnameOfSample()
    ensures Basename("/v/a.mp4/b.mp4") == "b.mp4"
    ensures Extname("/v/a.mp4/b.mp4") == ".mp4"
  {
    var p := "/v/a.mp4/b.mp4";
    LastIndexOfIs(p, '/', 8);
    assert p[9..] == "b.mp4";
    LastIndexOfIs("b.mp4", '.', 1);
  }

  lemma FirstExtensionOfSample()
    ensures FindFrom("/v/a.mp4/b.mp4", ".mp4", 0) == Some(4)
  {
    var p := "/v/a.mp4/b.mp4";
    forall j | 0 <= j < 4
      ensures !OccursAt(p, ".mp4", j)
    {
      assert p[j] != '.';
      assert p[j..j + 4][0] == p[j];
    }
    assert p[4..8] == ".mp4";
    FindFromIs(p, ".mp4", 4);
  }
}
