# DIVE desktop: dataset loading and VIAME pipeline jobs

This project models two pieces of the DIVE desktop client in Dafny and proves properties of them.

**Opening a dataset.** `loadMetadata` in `client/platform/desktop/api/main.ts` opens a dataset.
- It walks the dataset's members: each entry of a directory in listing order, or the single file.
- `processFile` classifies each member by its MIME type, falling back to its extension. A web-safe image goes into `imageData`. A web-safe video sets `basePath`, `videoPath` and `videoUrl`. A known video extension sets the type to video.
- While the type is video, a member that is not an image is probed with `ffprobe`, and a conversion record is produced for it.
- `loadMetadata` then dispatches the video and image conversion batches. It either throws when nothing matched or assembles the `DesktopDataset`.

**Running pipelines.** The Linux process manager in `client/platform/desktop/backend/platforms/linux.ts` does the following:
- It checks that a VIAME install can initialise `kwiver` (`validateViamePath`).
- It launches a pipeline run (`runPipeline`): working directory, output paths, image manifest, the command words chosen by dataset type, and the job record.
- It registers a training job (`runTraining`).
- It supervises a running pipeline. Every output chunk becomes an update carrying its non-empty lines. The exit event requests postprocessing when the code is 0, then sends exactly one terminal update.

## How the model is built

**Modules.** There are five:
- `Wrappers`: `Option` and `Result`.
- `Text`: JavaScript `split`, `join`, `filter((a) => a)`, first-occurrence `replace`, and decimal text.
- `Paths`: `path.join`, `basename`, `dirname` and `extname` on `/`-separated paths.
- `DesktopApi`: `main.ts`.
- `LinuxPlatform`: `linux.ts`.

**Platform inputs.** Everything the code asks of the platform is an input:
- `DesktopApi.MediaEnv` holds the media-server port, the web-safe MIME lists, the video-format list, `mime.lookup` and `ffprobe`.
- `LinuxPlatform.Host` holds `fs.pathExists`, the probe's exit code, the `common` helpers and the spawned pid.
- `fs.stat` and `fs.readdir` become the `isDirectory` and `contents` arguments.
- What `linux.ts` does to the outside world is returned as a log of `Effect`s, in order: the probe spawned, the working directory made, the manifest written, the process spawned.

**`loadMetadata`.** It is the method `DesktopApi.LoadMetadata`. It has the source's two loops, each in a method of its own:
- `DirectoryFileList` holds the counting loop that builds `fileList`.
- `ProcessFiles` holds the loop that runs each `processFile` up to its `ffprobe` await. The body of one call is the imperative method `ProcessFileSync`.

The method is proved equal to `LoadMetadataSpec`, a fold over the members (`ScanMembers` / `ProcessFile`). The properties of the fold are proved as lemmas. Modelling `Promise.all(fileList.map(processFile))` as a fold is exact:
- Every `processFile` call runs its synchronous part, up to the `ffprobe` await, in enumeration order before any await resumes. This includes the test `datasetType === 'video'`.
- So a record that waited for `ffprobe` reads `basePath` after every member has been seen, and carries the final `basePath`.
- A record returned without waiting carries the `basePath` of its moment.

The model follows the code as written, including behaviour that looks unintended:
- **Fall-through between the rules.** The rules follow `} if`, not `} else if`. A web-safe video member still goes through the extension rule and the probe.
- **The running type decides the probe.** The probe test reads the running type, not the member's own. While the running type is video, every non-image member is probed, whatever it is. A later web-safe image sets the type back to image sequence, and the members after it are not probed until a video sets it again.
- **Last writer wins.** The final type is the one set by the last member that matched a rule.
- **The h264 test.** A member is marked for conversion when the probe *does* find an h264 video stream.
- **The destination replaces the first occurrence.** The destination replaces the first occurrence of the extension text, not the extension itself. `ConvertDestCanRenameFolder` shows a folder named `a.mp4` being renamed instead of the file.
- **The image batch is always empty.** No member ever yields an `'image'` conversion.

**Supervision.** It is the class `LinuxPlatform.PipelineJob`:
- `OnData` and `OnExit` append to its `updates` and `postprocessCalls` logs.
- Its invariant `Valid()` says:
  - before exit, every update carries the unchanged job record;
  - after exit, exactly one update is the terminal one;
  - postprocessing was requested once, on the track and detector outputs, exactly when the exit code was 0.

## Model

| member | source | states |
|---|---|---|
| DesktopApi.H264Streams | client/platform/desktop/api/main.ts:123-124 | the filtered streams are h264 video streams of the probe, and there is one exactly when the probe has one |
| DesktopApi.ProcessFile | client/platform/desktop/api/main.ts:100-137 | the member's type (image before video MIME before extension) replaces the running type, else it is unchanged; an image appends its frame; a web-safe video sets basePath to the dataset's parent, videoPath and videoUrl, else they are unchanged; the record waits for ffprobe exactly when the member is not an image and the running type is video, converts exactly when the probe finds h264, and otherwise carries the current basePath |
| DesktopApi.ProcessFileSync | client/platform/desktop/api/main.ts:101-136 | the imperative synchronous part of processFile leaves the closure variables and the pending record exactly as ProcessFile describes |
| DesktopApi.DirectoryFileList | client/platform/desktop/api/main.ts:144-147 | the counting loop builds one path per listed entry, the entry joined under the directory, in listing order |
| DesktopApi.ProcessFiles | client/platform/desktop/api/main.ts:148 | running every processFile up to its await, in enumeration order, leaves the closure variables and pending records that the fold over the members describes |
| DesktopApi.ScanMembers | client/platform/desktop/api/main.ts:142-152 | one pending record per member |
| DesktopApi.PossibleConverts | client/platform/desktop/api/main.ts:148-151 | one resolved record per member, in member order |
| DesktopApi.VideoConverts | client/platform/desktop/api/main.ts:157 | a record is picked exactly when it is one of the records and is a video conversion |
| DesktopApi.VideoConvertsAppend | client/platform/desktop/api/main.ts:157 | filtering a concatenation is filtering each part and concatenating, so the video batch keeps the records' order |
| DesktopApi.VideoConvertsOne | client/platform/desktop/api/main.ts:157 | one record is kept exactly when it is a video conversion |
| DesktopApi.VideoPositions | client/platform/desktop/api/main.ts:157 | the positions of the video conversions among the records: all of them, each once, increasing |
| DesktopApi.VideoConvertsInOrder | client/platform/desktop/api/main.ts:157 | entry i of the video batch is the record at the i-th video position: every video conversion, once each, in order |
| DesktopApi.ImageConverts | client/platform/desktop/api/main.ts:156 | a record is picked exactly when it is one of the records and is an image conversion |
| DesktopApi.ImageConvertsAppend | client/platform/desktop/api/main.ts:156 | filtering a concatenation is filtering each part and concatenating, so the image batch keeps the records' order |
| DesktopApi.ImageConvertsOne | client/platform/desktop/api/main.ts:156 | one record is kept exactly when it is an image conversion |
| DesktopApi.ImagePositions | client/platform/desktop/api/main.ts:156 | the positions of the image conversions among the records: all of them, each once, increasing |
| DesktopApi.ImageConvertsInOrder | client/platform/desktop/api/main.ts:156 | entry i of the image batch is the record at the i-th image position: every image conversion, once each, in order |
| DesktopApi.FileList | client/platform/desktop/api/main.ts:142-150 | a directory gives one member per listed entry; a file gives itself |
| DesktopApi.Assemble | client/platform/desktop/api/main.ts:168-182 | fails with "Cannot open dataset <id>: No images or video found" exactly when no type was set; otherwise name is the basename, fps 10, imageData only for an image sequence, videoUrl present exactly for a video |
| DesktopApi.LoadMetadata | client/platform/desktop/api/main.ts:91-183 | the dataset or error and the dispatched batches are those of the fold over the members, and the image batch is empty |
| DesktopApi.ScanMembersStep | client/platform/desktop/api/main.ts:148 | folding one more member is one more processFile step on the state the earlier members left |
| DesktopApi.PendingIsPrefixStable | client/platform/desktop/api/main.ts:148 | a member's pending record depends only on the members enumerated up to it |
| DesktopApi.ConvertRecordOfMember | client/platform/desktop/api/main.ts:120-136 | member k's record names the dataset, is a video conversion of the member to its destination exactly when it waited and the probe found h264, and carries the final basePath if it waited, else the basePath of its moment |
| DesktopApi.NoImageConvertsPicked | client/platform/desktop/api/main.ts:156 | records without image conversions give an empty image batch |
| DesktopApi.NoVideoConvertsPicked | client/platform/desktop/api/main.ts:157 | records without video conversions give an empty video batch |
| DesktopApi.NoImageConverts | client/platform/desktop/api/main.ts:156 | no member's record is an image conversion, so the image batch is always empty |
| DesktopApi.VideoConvertRecords | client/platform/desktop/api/main.ts:126-132 | every record in the video batch names the dataset, carries the final basePath and converts some member to that member's destination |
| DesktopApi.LastStepType | client/platform/desktop/api/main.ts:104-119 | the last member's kind, if it has one, replaces the type, else the type before it stays |
| DesktopApi.TypeIsLastMatch | client/platform/desktop/api/main.ts:104-119 | no type is set exactly when no member matches a rule; otherwise the type is the one of the last member that matched |
| DesktopApi.NoVideoKeepsDefaults | client/platform/desktop/api/main.ts:93-95 | without a web-safe video member, basePath stays the dataset path and videoPath and videoUrl stay empty |
| DesktopApi.VideoFieldsFromLastVideo | client/platform/desktop/api/main.ts:104-108 | with a web-safe video member, basePath is the dataset's parent, and videoPath and videoUrl are those of the last such member |
| DesktopApi.ImageDataIsImageMembers | client/platform/desktop/api/main.ts:109-114 | imageData is the frames of the image members, in enumeration order |
| DesktopApi.ImageFramesOfImages | client/platform/desktop/api/main.ts:111-114 | when every member is an image, frame k is member k's url and basename |
| DesktopApi.KindOfPath | client/platform/desktop/api/main.ts:104-119 | a path's kind is image sequence for a web-safe image MIME type, else video for a web-safe video MIME type or a video extension, else none |
| DesktopApi.NoKindFails | client/platform/desktop/api/main.ts:168-170 | over the inspected members, loading fails with the message naming the dataset exactly when no member has a kind |
| DesktopApi.NoMediaFails | client/platform/desktop/api/main.ts:168-170 | loading fails, with the message naming the dataset, exactly when no member has a web-safe image or video MIME type or a video extension |
| DesktopApi.DispatchedVideoConversions | client/platform/desktop/api/main.ts:157-161 | each dispatched video conversion converts a member of the dataset to its destination and carries the returned dataset's basePath; the batch is the members' video conversion records, one each, in member order |
| DesktopApi.AllImagesScan | client/platform/desktop/api/main.ts:109-115 | members that are all web-safe images leave an image sequence based at the dataset path, one frame per member in order, and no video conversion |
| DesktopApi.AllImagesDirectory | client/platform/desktop/api/main.ts:109-115 | a directory of web-safe images gives an image sequence based at the directory, one frame per entry in listing order named after the entry, and no conversions |
| DesktopApi.SingleVideoMember | client/platform/desktop/api/main.ts:104-133 | one web-safe video member leaves a video based at the dataset's parent that plays it, and a conversion exactly when the probe finds h264 |
| DesktopApi.SingleVideoFile | client/platform/desktop/api/main.ts:149-151 | a single web-safe video file gives a video dataset based at its parent directory that plays the file, and is converted exactly when ffprobe finds h264 |
| DesktopApi.ExtensionWithoutDotDropsDot | client/platform/desktop/api/main.ts:116 | the extension compared with the video formats is the extension without its leading dot |
| DesktopApi.ConvertDestReplacesExtension | client/platform/desktop/api/main.ts:131 | when the extension text first occurs at the end of the path, the destination is the path with its extension swapped for `_converted.mp4` |
| DesktopApi.ConvertDestAtFirstMatch | client/platform/desktop/api/main.ts:131 | the destination replaces the first occurrence of the extension text with `_converted.mp4` |
| DesktopApi.ConvertDestCanRenameFolder | client/platform/desktop/api/main.ts:131 | for `/v/a.mp4/b.mp4` (file `b.mp4`, extension `.mp4`) the replaced span is characters 4-7, the `.mp4` of the folder name, so the folder is renamed and the file keeps its name |
| LinuxPlatform.ValidateViamePath | client/platform/desktop/backend/platforms/linux.ts:36-56 | a missing setup script gives "<script> does not exist" and spawns nothing; otherwise one probe is spawned, and the install is valid exactly when it exits with 0, else "kwiver failed to initialize" |
| LinuxPlatform.ManifestPaths | client/platform/desktop/backend/platforms/linux.ts:103-104 | one path per image file |
| LinuxPlatform.ManifestLines | client/platform/desktop/backend/platforms/linux.ts:100-106 | the manifest's lines are the images' full paths in dataset order, as many as there are images |
| LinuxPlatform.ManifestHasNoTrailingNewline | client/platform/desktop/backend/platforms/linux.ts:103-105 | the manifest does not end with a newline, and is empty for no images |
| LinuxPlatform.ProcessChunk | client/platform/desktop/backend/platforms/linux.ts:134-137 | no returned line is empty or contains a newline |
| LinuxPlatform.ProcessChunkKeepsText | client/platform/desktop/backend/platforms/linux.ts:134-137 | the lines laid end to end are the chunk without its newlines: nothing is lost or reordered |
| LinuxPlatform.ProcessChunkOfPieces | client/platform/desktop/backend/platforms/linux.ts:134-137 | any chunk's lines are the non-empty pieces between its newlines, in order, whether or not pieces are empty |
| LinuxPlatform.ProcessChunkOfLines | client/platform/desktop/backend/platforms/linux.ts:134-137 | non-empty lines joined by newlines are split back into the same lines |
| LinuxPlatform.ProcessChunkOfTerminatedLines | client/platform/desktop/backend/platforms/linux.ts:134-137 | non-empty lines each ended by a newline are split back into the same lines: the trailing newline adds none |
| LinuxPlatform.ProcessChunkDropsBlankLine | client/platform/desktop/backend/platforms/linux.ts:134-137 | a blank line between two lines is dropped |
| LinuxPlatform.PipelineKeyInjective | client/platform/desktop/backend/platforms/linux.ts:124 | two pipeline keys are equal only for the same pid and working directory |
| LinuxPlatform.TrainingKeyInjective | client/platform/desktop/backend/platforms/linux.ts:215 | two training keys are equal only for the same working directory |
| LinuxPlatform.PipelineAndTrainingKeysDiffer | client/platform/desktop/backend/platforms/linux.ts:124 | a pipeline key never equals a training key |
| LinuxPlatform.RunFileInWorkDir | client/platform/desktop/backend/platforms/linux.ts:83-85 | the detector output, track output, log and manifest each lie directly in the working directory under their own name |
| LinuxPlatform.RunFilesDistinct | client/platform/desktop/backend/platforms/linux.ts:83-85 | the four files a run writes are four different paths |
| LinuxPlatform.RunPipeline | client/platform/desktop/backend/platforms/linux.ts:65-175 | a failed validation is thrown with only the probe started; otherwise the job has key `pipeline_<pid>_<workDir>`, datasetIds [datasetId] and no exit code, the outputs are in the working directory, the command is the video words for "video", the manifest words for "image-sequence" and empty otherwise, and the effects are: probe, working directory, manifest (image sequences only), spawn in the working directory |
| LinuxPlatform.RunTraining | client/platform/desktop/backend/platforms/linux.ts:188-226 | no datasets gives "Must have at least 1 dataset to train on" with no effects; a failed validation is thrown; otherwise the job has key `training_<workDir>`, pid 0, no exit code, the given datasetIds and the sanitised name; only the validation probe is spawned, never a pipeline or training process |
| LinuxPlatform.TerminalUpdate | client/platform/desktop/backend/platforms/linux.ts:166-171 | the terminal update differs from a data update's job record |
| LinuxPlatform.PipelineJob.constructor | client/platform/desktop/backend/platforms/linux.ts:123-132 | a new job is running with no updates and no postprocessing |
| LinuxPlatform.PipelineJob.OnData | client/platform/desktop/backend/platforms/linux.ts:139-155 | one update with the unchanged job record and the chunk's lines is appended, and the invariant is kept |
| LinuxPlatform.PipelineJob.OnExit | client/platform/desktop/backend/platforms/linux.ts:157-172 | postprocessing of [track, detector] for the dataset is requested exactly when the code is 0; exactly one terminal update with the exit code and body [""] is appended, whether postprocessing succeeds or not |
| Text.Split | client/platform/desktop/backend/platforms/linux.ts:136 | at least one piece, and no piece contains the separator |
| Text.SplitJoin | client/platform/desktop/backend/platforms/linux.ts:136 | splitting a join of separator-free pieces gives the pieces back |
| Text.JoinSplit | client/platform/desktop/backend/platforms/linux.ts:136 | joining the pieces of a split gives the text back |
| Text.ConcatOfSplit | client/platform/desktop/backend/platforms/linux.ts:136 | the pieces of a split, laid end to end, are the text without separators |
| Text.NonEmptyPieces | client/platform/desktop/backend/platforms/linux.ts:137 | every kept piece is non-empty and comes from the input |
| Text.NonEmptyPiecesAppend | client/platform/desktop/backend/platforms/linux.ts:137 | the filter works piece by piece: the kept pieces of a concatenation are those of each part, in order |
| Text.NonEmptyPiecesOne | client/platform/desktop/backend/platforms/linux.ts:137 | a single piece is kept exactly when it is not empty |
| Text.ConcatOfNonEmpty | client/platform/desktop/backend/platforms/linux.ts:137 | dropping empty pieces does not change the text they make up |
| Text.NonEmptyKeepsAll | client/platform/desktop/backend/platforms/linux.ts:137 | with no empty pieces, nothing is dropped |
| Text.JoinWithEndsWithLast | client/platform/desktop/backend/platforms/linux.ts:105 | a join ends with its last piece |
| Text.FindFrom | client/platform/desktop/api/main.ts:131 | the position found is the first occurrence at or after the start; none means there is no occurrence |
| Text.DecimalText | client/platform/desktop/backend/platforms/linux.ts:124 | a pid prints as a non-empty run of digits |
| Text.DecimalRoundTrip | client/platform/desktop/backend/platforms/linux.ts:124 | reading the printed pid back gives the pid |
| Text.DecimalTextInjective | client/platform/desktop/backend/platforms/linux.ts:124 | different pids print differently |
| Paths.Extname | client/platform/desktop/api/main.ts:116 | a non-empty extension starts with a dot |
| Paths.JoinSplitsBack | client/platform/desktop/api/main.ts:146 | an entry joined under a directory has the entry as basename and the directory as dirname |
| Paths.ExtnameIsSuffix | client/platform/desktop/api/main.ts:131 | the extension is a suffix of the path |

## Left out

- The platform is not modelled, only its answers: MIME lookup, `ffprobe`, `fs`, the `common` helpers (`getDatasetBase`, `getAuxFolder`, `createKwiverRunWorkingDir`, `sanitizeUserInput`, `postprocess`) and the child process. Whatever they create beyond the effects listed above (an auxiliary folder, say) is not modelled, and neither is whether working directories are unique.
- Rejections of `fs.stat`, `fs.readdir`, `ffprobe`, `getDatasetBase` and the other helpers are not modelled; each is taken to answer.
- A probe that never reports its exit is not modelled: `ValidateViamePath` always has an outcome.
- Node's `path` normalisation is not modelled: `.` and `..` segments, and repeated or trailing separators. `Paths` joins with one `/` and works on the text as it is.
- UTF-8 decoding of output chunks is not modelled: a chunk is a string.
- Console logging is not modelled.
- Shell quoting, the `/bin/bash` shell, `tee` and the spawned process itself are not modelled. The command is kept as its words and spawned as their space-joined line.
- Timestamps are opaque ticks supplied by the caller.
- A pid that `spawn` leaves undefined is not modelled: the pid is a number.
- LinuxPlatform.PipelineJob.OnExit: the exit handler awaits postprocessing before sending the terminal update, and data updates that arrive during that await are not interleaved in the model; the exit event is handled as one step.
- The interleaving of stdout and stderr is not modelled: both are `OnData`.
- The settings schema version in the default settings is defined outside these files and is not modelled.
- The training executable and configuration paths are declared but unused by the code, so they are not modelled.
- The IPC and Electron wrappers in `main.ts` are not modelled: `mediaServerInfo`, `nvidiaSmi`, `openLink`, `openFromDisk`, `getPipelineList`, `ffmpegConvert`, the `runPipeline` forwarder, the attribute and training stubs, and `saveMetadata`.
- The dispatch of the conversion batches over IPC (`main.ts`:160-165) is not modelled. The batches are returned instead, so the misspelt channel name for image batches does not appear. That batch is always empty anyway.
- `client/platform/web-girder/store/Location.ts` is a one-line store setter, and `client/platform/web-girder/plugins/girder.ts` is a REST client wrapper. Neither is part of this model.
