# nessty-transcoding-api: a Dafny model of the transcoding job

This project models the decision and bookkeeping logic of the video
transcoding service. It covers:

- the request-level admission of a job;
- the fixed HLS rendition ladder and the filter that picks rungs for a source;
- the per-rung output geometry;
- the progress-timemark parser;
- the HLS master-playlist text;
- the bounded per-file upload retry, in both of its copies;
- the bounded-window upload scheduler (`manageConcurrency`), in both of its copies;
- the directory upload and its failure cleanup;
- the ffmpeg event handlers of `processVideo`, with the cancellation poll beside them;
- the flattening of a speech-to-text response.

Everything outside the process is modelled as inputs or effects, never as
calls: ffmpeg, the bucket, the database, the file system, timers and the
Speech API.

- An upload attempt is an oracle `attempt: nat -> Attempt`.
- A task settling is an event of the scheduler.
- The record lookup and ffprobe are inputs of `Admission.Admit`.
- Every database write, signal, file operation and bucket call a handler
  issues is an `Effect` appended to a log, in issue order.

| file | module | models |
|---|---|---|
| Wrappers.dfy | Wrappers | `Option`, `Result` |
| Strings.dfy | Strings | JavaScript `split` on one character, `parseInt`, decimal rendering |
| Timemark.dfy | Timemark | `timeToSeconds`, in exact hundredths of a second |
| Ladder.dfy | Ladder | the `streams` ladder, `handleExtension`, the rung filter, `Math.round(h * aspect)` |
| Admission.dfy | Admission | the checks of `transcoderVideo` up to the record update |
| Playlist.dfy | Playlist | `createMasterPlaylist`'s text, built by a loop as in the source |
| Outputs.dfy | Outputs | the output loop of `processVideo` (renditions and thumbnail) |
| Retry.dfy | Retry | both `uploadFileWithRetry` functions |
| Scheduler.dfy | Scheduler | `manageConcurrency` as the class `UploadWindow`; tasks, failure filter and cleanup of `helpers/uploadDirToGCS.js` |
| Session.dfy | Session | the `start`/`progress`/`end`/`error` handlers and the poll, as pure steps and as the class `EncodeSession` |
| Speech.dfy | Speech | `processSpeechToTextResponse` |

Where the model follows the code rather than its evident intent, the behaviour is stated as a lemma:

- `timeToSeconds` adds a one-digit fraction as hundredths.
- A status string of `"canceled"` passes the early cancel check.
- `end` marks a job complete after its upload failed.
- The two "failed" updates are never awaited, so they are never sent (see "## Findings").
- A rejected upload task stays in the in-flight set.
- The cleanup prefixes have no trailing `/`.
- The cleanups delete only the `.mp4` and `.png` raw objects, so a QuickTime job's raw `.mov` stays in the bucket.

## Model

| member | source | states |
|---|---|---|
| Strings.ParseInt | controllers/transcoder.js:30-33 | `parseInt` is NaN exactly when no digit follows the optional sign; without a minus sign the value is not negative |
| Strings.ParseIntStopsAtNonDigit | controllers/transcoder.js:30-33 | `parseInt` reads the leading digits and ignores whatever follows the first non-digit |
| Strings.ParseIntSigned | controllers/transcoder.js:30-33 | a leading `-` negates the value of the digits after it and a leading `+` keeps it, whatever follows the first non-digit |
| Strings.SplitJoin | controllers/transcoder.js:27-28 | `split` on a character recovers the separator-free pieces that were joined with it |
| Strings.JoinSplit | controllers/transcoder.js:27-28 | joining the pieces of a `split` gives back the original string |
| Timemark.TimeToSeconds | controllers/transcoder.js:25-37 | throws a TypeError exactly when the timemark has fewer than three `:`-fields; it is a number only when the seconds field has a `.` part |
| Timemark.RenderParses | controllers/transcoder.js:25-37 | `HH:MM:SS.cc` is HH·3600 + MM·60 + SS + cc/100 seconds, exactly |
| Timemark.BeforeIffSmaller | controllers/transcoder.js:25-37 | for MM, SS < 60 and cc < 100 the field-by-field order of timemarks and the order of their values agree, in both directions |
| Timemark.TimeToSecondsIncreasing | controllers/transcoder.js:25-37 | on well-formed timemarks the result is strictly increasing |
| Timemark.NegativeHoursOnly | controllers/transcoder.js:30-36 | a minus sign applies to the hours field only: `-01:00:00.50` is -3600 + 0.5 seconds |
| Timemark.NoFractionIsNaN | controllers/transcoder.js:33-36 | a timemark without a fraction gives NaN, not whole seconds |
| Timemark.OneDigitFraction | controllers/transcoder.js:33-36 | the fraction is read as hundredths whatever its length: `00:00:01.5` is 1.05 s |
| Ladder.HandleExtension | controllers/transcoder.js:211-222 | `video/mp4` gives `mp4`, `video/quicktime` gives `mov`, and every other or missing type is the BadRequest message |
| Ladder.StreamsHeights | controllers/transcoder.js:39-130 | the vertical parts of the ladder's resolutions are 240, 360, 720, 1080, 1440, 2160 |
| Ladder.StreamsIncreasing | controllers/transcoder.js:39-130 | the ladder's heights strictly increase |
| Ladder.SelectMembership | controllers/transcoder.js:239-241 | a rung is kept iff it is on the ladder and the source height is at least its vertical resolution (NaN keeps nothing) |
| Ladder.SelectIsPrefix | controllers/transcoder.js:239-241 | on a ladder with increasing heights the filter keeps a prefix: every rung before the cut is kept, every rung after it is not |
| Ladder.SelectStreams | controllers/transcoder.js:239-241 | the selection is `streams[..RungsFor(h)]`, and rung i is kept iff its nominal height is at most h |
| Ladder.ShortSourceSelectsNothing | controllers/transcoder.js:231-241 | a source 144–239 px tall passes the size check but selects no rung |
| Ladder.Resolutions | controllers/transcoder.js:251 | the record's `streams` field lists the selected resolutions, one per rung, in order |
| Ladder.TargetWidth | controllers/transcoder.js:326-327 | the width is the integer nearest to h·W/H, with halves rounded up |
| Ladder.TargetWidthUnique | controllers/transcoder.js:326-327 | exactly one integer meets the half-up rounding bound, so the width is determined by it |
| Ladder.TargetSize | controllers/transcoder.js:326-333 | the output height is the rung's height and the width is the rounded aspect-ratio width |
| Ladder.NominalWidthIgnored | controllers/transcoder.js:326-327 | the ladder's nominal widths play no part: 16:9 at 240p is 427 px wide, portrait 1080x1920 at 720p is 405 px |
| Admission.Admit | controllers/transcoder.js:205-251 | each rejection comes from the first failing check, in the source's order: a missing record or a set `status.canceled` is NotFound, an unsupported type is the type BadRequest, a download or probe error is passed on as a Failure, then the height BadRequest, then the width BadRequest. The job is admitted iff every check passes. An admitted job has the extension `handleExtension` gives for the record's type, the raw object path built from it, the filtered rungs, their resolutions and the audio flag |
| Admission.AdmittedLadder | controllers/transcoder.js:239-251 | an admitted job encodes the first `RungsFor(h)` rungs; its `streams` field lists those resolutions in ladder order |
| Admission.ShortSourceAdmittedEmpty | controllers/transcoder.js:231-241 | a 144–239 px tall source is admitted with no rendition and an empty `streams` field |
| Admission.CanceledStatusStillAdmitted | controllers/transcoder.js:208-210 | a record whose status string is `"canceled"` is not stopped by the early cancel check |
| Admission.TypeCheckedBeforeDownload | controllers/transcoder.js:211-226 | an unsupported type is refused whatever the download and probe would give |
| Admission.HeightBeforeWidth | controllers/transcoder.js:231-236 | a too-small height is reported before the width is looked at |
| Playlist.CreateMasterPlaylist | controllers/transcoder.js:534-541 | the `+=` loop builds exactly `#EXTM3U\n`, then per rung, in order, its `#EXT-X-STREAM-INF:BANDWIDTH=…,RESOLUTION=…` line and its URI line |
| Playlist.EntriesAppend | controllers/transcoder.js:538-541 | the entries of a concatenation are the entries of each part, one after the other |
| Playlist.PlaylistAppend | controllers/transcoder.js:536-541 | the playlist of a ++ b is the playlist of a followed by b's lines |
| Playlist.PlaylistLines | controllers/transcoder.js:536-541 | read back by lines the playlist is the header, then tag and URI per rung, then the empty remainder: 2n + 2 pieces |
| Playlist.LadderPlaylistLines | controllers/transcoder.js:536-541 | for any source, the playlist of the selected rungs has 2·RungsFor(h) + 2 pieces |
| Playlist.TwoRungPlaylist | controllers/transcoder.js:536-541 | the playlist of the two lowest rungs, character for character |
| Playlist.EmptyPlaylist | controllers/transcoder.js:536 | with no rung selected the playlist is the header line alone |
| Outputs.RenditionFor | controllers/transcoder.js:325-347 | a rendition has the rung's height, the rung's playlist file and the rung's options followed by the fixed HLS options |
| Outputs.RenditionWidth | controllers/transcoder.js:328-333 | a rendition's width is the rung height times the source's aspect ratio, rounded to the nearest integer with halves up |
| Outputs.BuildOutputs | controllers/transcoder.js:324-355 | the loop adds one rendition per selected rung in order, then the one-frame thumbnail at 00:00:03 |
| Outputs.LadderOutputs | controllers/transcoder.js:324-333 | every kept rung can be measured; rendition i of a source is `NominalHeights[i]` tall with the half-up rounded width |
| Retry.RemotePath | controllers/transcoder.js:465 | every file of job f is uploaded under `video/transcoded/f/`, and the object name after that prefix is the file name |
| Retry.UploadFileWithRetryInController | controllers/transcoder.js:427-455 | returns at the first successful attempt (all earlier ones failed), making at most `maxRetries` attempts. It throws only when attempt `maxRetries` fails, with the "after N attempts" message. With `maxRetries < 1` it returns without uploading |
| Retry.UploadFileWithRetry | helpers/uploadDirToGCS.js:54-85 | returns at the first success within `maxRetries` attempts. After `maxRetries` failures it throws the message carrying the last attempt's error. With `maxRetries < 1` reading `lastError.message` throws a TypeError |
| Retry.ControllerUpload | controllers/transcoder.js:463-471 | a controller task calls `uploadFileWithRetry` with the default five attempts: it returns iff one of attempts 1..5 uploads, and otherwise throws the "after 5 attempts" message; never a TypeError |
| Retry.HelperUpload | helpers/uploadDirToGCS.js:21-26 | a helper task calls `uploadFileWithRetry` with the default five attempts: it returns iff one of attempts 1..5 uploads, and otherwise throws the message carrying attempt 5's error; never a TypeError |
| Retry.TaskFailure | controllers/transcoder.js:468-474 | a controller task rethrows under `Failed to upload <file>: `, followed by the original error message unchanged |
| Scheduler.UploadWindow.constructor | helpers/uploadDirToGCS.js:89-92 | the in-flight set and the results start empty; with no task the loop is already over |
| Scheduler.UploadWindow.Launch | helpers/uploadDirToGCS.js:93-101 | the next task in list order joins the in-flight set. Below 5 it is pushed to the results at once. At 5 the loop waits, and the wait throws at once if a rejected task is still counted. The in-flight set never exceeds 5 |
| Scheduler.UploadWindow.Settle | helpers/uploadDirToGCS.js:94-99 | only a fulfilled task leaves the in-flight set. During a wait, a fulfilment resumes the loop and pushes the awaited task; a rejection aborts the loop |
| Scheduler.UploadWindow.Status | helpers/uploadDirToGCS.js:104 | the call rejects iff the loop aborted or, for the controller's `Promise.all`, some task rejected. Otherwise, once every task of the drained loop has settled, `allSettled` yields one entry per task in task order; until then the call is still running |
| Scheduler.RejectedTaskAbortsLaterWait | helpers/uploadDirToGCS.js:94-99 | of six tasks, task 1 wins the fifth launch's wait and task 0 rejects before the loop resumes; the still-counted rejection makes the sixth launch's wait throw, though four uploads are running |
| Scheduler.ResultsInTaskOrder | helpers/uploadDirToGCS.js:101-104 | two tasks settling out of order, one rejected, are listed by `allSettled` in task order |
| Scheduler.FailFastRejects | controllers/transcoder.js:480-495 | the same rejection makes the controller copy's `Promise.all` reject the call |
| Scheduler.HelperSettlement | helpers/uploadDirToGCS.js:82-85 | a helper task fulfils iff its upload returned, and rejects with the thrown message |
| Scheduler.ControllerSettlement | controllers/transcoder.js:468-474 | a controller task rejects iff its upload threw, with the file-named message |
| Scheduler.FailedUploadsIff | helpers/uploadDirToGCS.js:28-36 | the failure list is non-empty iff some entry is rejected |
| Scheduler.UploadTasks | helpers/uploadDirToGCS.js:21-26 | one task per directory entry, in order, from `path.join(dir, file)` to `video/transcoded/<fileId>/<file>` |
| Scheduler.UploadDirToGCS | helpers/uploadDirToGCS.js:19-47 | the cleanup runs iff `readdir` failed, the scheduler threw, or an entry was rejected. It removes the local directory and calls `errorCleanup` only when given. Nothing is rethrown, and zero entries means no cleanup |
| Scheduler.EmptyDirectoryNoCleanup | helpers/uploadDirToGCS.js:19-47 | for an empty directory, a fresh window of zero tasks reports `Settled([])`, and with it no cleanup happens, whether or not `errorCleanup` is given |
| Session.PrefixOverreach | controllers/transcoder.js:409-411 | the transcoded prefix has no trailing `/`, so the cleanup of job n also matches the outputs of a job whose name extends n |
| Session.UploadsLand | controllers/transcoder.js:463-466 | the directory uploads put exactly one object per file, at `video/transcoded/<fileId>/<file>`, and change nothing else |
| Session.PurgeRemoves | controllers/transcoder.js:519-526 | after the three prefix deletions no object is left under `video/transcoded/<name>`, `video/raw/<name>.mp4` or `video/raw/<name>.png`, and every other object remains |
| Session.MovSourceSurvives | controllers/transcoder.js:383-388 | the raw object `video/raw/<name>.mov` of a QuickTime job survives the cleanup's three deletions and the tail of `end`, which delete only the `.mp4` and `.png` raw objects |
| Session.StepLog | controllers/transcoder.js:357-418 | every event appends exactly its handler's effects to the log; only a firing poll sets the latch |
| Session.StartThenResolve | controllers/transcoder.js:358-366 | `start` writes `processing` with the start time and then resolves `processVideo`, so the request returns after start, not after end; nothing else changes |
| Session.ProgressWrites | controllers/transcoder.js:367-373 | `progress` writes `processing` with the parsed timemark. A timemark with fewer than three fields writes nothing |
| Session.PollCancels | controllers/transcoder.js:305-322 | the poll sends SIGTERM, clears the interval and sets `canceled` iff the record is missing or its status is `"canceled"`; otherwise nothing changes |
| Session.ErrorCleansUp | controllers/transcoder.js:397-418 | `error` builds the un-awaited `failed` query iff not canceled but leaves the record unchanged; it removes the local directory and deletes every object under the three prefixes, keeping all others |
| Session.ErrorLeavesProcessing | controllers/transcoder.js:397-405 | a job that was `processing` when ffmpeg failed still reads `processing` after the `error` handler |
| Session.AwaitedErrorMarksFailed | controllers/transcoder.js:397-418 | with the `failed` update awaited, `error` marks a job that was not canceled `failed` with its end time, keeps a canceled one's record, and cleans up the same way |
| Session.EndCompletes | controllers/transcoder.js:374-396 | `end` runs in order: master playlist, upload, directory removal, raw .mp4/.png deletion, `complete`. It writes `complete` even after the directory upload failed; then only the late files remain under the transcoded prefix. The latch and the poll are untouched |
| Session.FailedUploadLeavesLate | controllers/transcoder.js:504-528 | the controller's `uploadDirToGCS` catch builds the un-awaited `failed` query, so the record is untouched; it removes the directory and deletes the outputs; uploads still running land afterwards and are the only objects left under the transcoded prefix |
| Session.AwaitedUploadFailureMarksFailed | controllers/transcoder.js:510-528 | with the `failed` update awaited, the catch marks the job `failed` with its end time, and still only the late uploads remain under the transcoded prefix |
| Session.EndIgnoresLatch | controllers/transcoder.js:374-396 | `end` does not look at `canceled`: its outcome is the same whether the job was canceled or not |
| Session.MasterUploadFailureStopsEnd | controllers/transcoder.js:543-555 | a failed master-playlist upload stops `end` after the local write: nothing is uploaded, cleaned or marked |
| Session.LatchHolds | controllers/transcoder.js:304-321 | once `canceled` is set it stays set over any sequence of events |
| Session.ResolveOnlyAtStart | controllers/transcoder.js:357-366 | `processVideo`'s promise is resolved only by a `start` event |
| Session.ErrorBeforeStartNeverResolves | controllers/transcoder.js:397-418 | an ffmpeg error before `start` never resolves the promise, so the request gets no response |
| Session.ProgressMasksCancel | controllers/transcoder.js:367-373 | a cancel written between two polls is overwritten by the next `progress`, and the following poll does not stop the job |
| Session.CancelThenError | controllers/transcoder.js:316-321 | a cancel seen by the poll kills ffmpeg; the `error` that follows keeps the `"canceled"` status and cleans up the local directory and all three prefixes |
| Session.DeletionStopsJob | controllers/transcoder.js:316-321 | deleting the record stops the job at the next poll |
| Session.EncodeSession.constructor | controllers/transcoder.js:294-305 | a new session has its directory, an active poll and a cleared latch |
| Session.EncodeSession.OnStart | controllers/transcoder.js:358-366 | the `start` handler performs the `Start` step |
| Session.EncodeSession.OnProgress | controllers/transcoder.js:367-373 | the `progress` handler performs the `Progress` step |
| Session.EncodeSession.OnPoll | controllers/transcoder.js:305-322 | one interval tick performs the `Poll` step |
| Session.EncodeSession.OnEnd | controllers/transcoder.js:374-396 | the `end` handler performs the `End` step, one awaited call after another |
| Session.EncodeSession.CatchUploadFailure | controllers/transcoder.js:510-527 | the catch block, followed by the uploads still running, performs the as-written failure effects in order |
| Session.EncodeSession.Complete | controllers/transcoder.js:381-395 | the tail of `end` removes the directory, deletes the raw .mp4 and .png, and writes `complete`, in that order |
| Session.EncodeSession.OnError | controllers/transcoder.js:397-418 | the `error` handler performs the `Error` step |
| Session.EncodeSession.UploadFiles | controllers/transcoder.js:463-477 | uploading the listed files one by one performs their upload effects in order |
| Session.EncodeSession.DeleteOutputs | controllers/transcoder.js:519-526 | the prefix loop deletes the three prefixes in order |
| Speech.Flatten | controllers/transcoder.js:709-723 | the transcription is absent exactly when some result has no alternative |
| Speech.FlattenAppend | controllers/transcoder.js:712-720 | the transcription of a response split in two is the two transcriptions in sequence |
| Speech.TranscriptAppend | controllers/transcoder.js:712-720 | a response whose every result has an alternative keeps that property when two such responses are joined, and its words are the two word lists in sequence |
| Speech.FlattenNone | controllers/transcoder.js:712-713 | once a prefix of the response has a result without alternatives the whole call throws, whatever follows |
| Speech.ProcessSpeechToTextResponse | controllers/transcoder.js:709-723 | the nested `forEach` pushes exactly the words of each result's first alternative, in order, or throws when an alternative is missing |

## Findings

| source | as written | input that shows it | evidently intended | confidence | as-written member | corrected member |
|---|---|---|---|---|---|---|
| controllers/transcoder.js:400-404 | the `error` handler calls `video.updateOne({status: "failed", …})` with no `await`, callback or `exec()`; Mongoose's document `updateOne` returns a query that is only sent once executed, so nothing is written | an ffmpeg error on a job whose record reads `processing` and that was not canceled: the record still reads `processing` afterwards | the job is marked `failed` with its end time | medium, not executed (rests on Mongoose's lazy queries) | Session.ErrorLeavesProcessing | Session.AwaitedErrorMarksFailed |
| controllers/transcoder.js:511-515 | the catch block of the controller's `uploadDirToGCS` calls `video.updateOne({status: "failed", …})` the same way, so nothing is written and `end` goes on to write `complete` | a directory upload that rejects with late files `late`: the record is untouched by the catch, and only `Landed(late)` remains under the transcoded prefix | the job is marked `failed` before the cleanup | medium, not executed (rests on Mongoose's lazy queries) | Session.FailedUploadLeavesLate | Session.AwaitedUploadFailureMarksFailed |

The handlers (`Session.Step`, `Session.EncodeSession`) follow the code as written, because the missing write is the observable behaviour. The awaited versions, `Session.AwaitedErrorEffects` and `Session.AwaitedUploadDirFailure`, differ only in that one effect. They share `Session.ErrorPath` and `Session.FailedUploadPath` with the as-written versions.

## Left out

- The external calls are not modelled as code. This covers ffmpeg and ffprobe, bucket downloads, uploads, `createWriteStream` and `deleteFiles`, the crc32c stream `pipeline`, `fs.mkdirSync`/`rmSync`/`readdir`/`writeFileSync`, Mongo `findOne`/`updateOne`, and the `moment` timestamps. They are oracles, event parameters (`now`) or logged effects.
- Timers and promise scheduling are left out. Each handler and each poll runs to completion as one event, and a task may settle at any time after its launch. The awaits inside one handler are not interleaved with other events.
- Floating point is left out. The aspect ratio is the exact fraction width/height, so a double rounding at a half-point may differ. `timeToSeconds` is exact hundredths. `parseTime` and its `/1e9` are not converted: words keep the raw time values.
- Ladder.Keeps: JavaScript compares the source height with the string `split("x")[1]`, which it converts with `Number`. The model uses `parseInt`. The two agree on every rung of the ladder. They differ on an empty vertical part (`Number("")` is 0) and on trailing text (`Number("240p")` is NaN).
- Session: only the master upload and the directory upload can fail in the model. Every other awaited external call is taken to succeed. A rejection of any of them would end its handler there, as an unhandled rejection (see the next line):
  - the `updateOne` of `start` (controllers/transcoder.js:360), before `resolve`;
  - the `updateOne` of `progress` (:368);
  - the two raw `deleteFiles` of `end` (:383, :386) and its `complete` update (:390), before the job is marked `complete`;
  - the three `deleteFiles` of `error` (:409-417), before the later prefixes are deleted;
  - the three `deleteFiles` in the catch of the controller's `uploadDirToGCS` (:524-526), which would rethrow out of it into `end`;
  - the poll's `findOne` (:308-314), in that tick.
- Session: a handler or poll tick that throws is modelled as stopping at that point, and later events still arrive. The `start`, `progress`, `end` and `error` listeners and the poll callback (controllers/transcoder.js:305, 358, 367, 374, 397) are `async` functions. The event emitter and `setInterval` ignore the promises they return, and the server installs no `unhandledRejection` handler. So each throw is an unhandled rejection:
  - the TypeError of `timeToSeconds` in `progress`;
  - the master upload's rejection (:553-555) and `writeFileSync` into a removed directory (:544) in `end`;
  - a failed `deleteFiles`, `updateOne` or `findOne` above.
  On a Node.js that exits on unhandled rejections (the default since version 15), the process exits there instead. That ends every session in flight and the HTTP server. The model does not capture this exit.
- Console output (`console.log`, `console.info`, `console.error` throughout both files) is not modelled.
- Strings.ParseInt: leading whitespace, which JavaScript skips, and `0x` prefixes, which it reads as hexadecimal, are not modelled: such a field reads as NaN here. The encoder's timemarks and the ladder's resolutions contain neither.
- Retry.LocalPath: `path.join` normalisation (`..`, duplicate `/`) is not modelled.
- Session: Mongoose's casting of a NaN progress value is not modelled; the record field keeps the NaN.
- Session: the thumbnail and the audio extraction that `transcoderVideo` uploads before `processVideo` are not modelled; the bucket's initial contents are a constructor argument.
- Session: which files the directory upload reaches before it fails is not modelled, since the cleanup deletes them; only those landing after the cleanup (`late`) are.
- Session: the `end` event takes the directory upload's outcome and the `readdir` listing as inputs, not from a `Scheduler.UploadWindow` run.
- Admission: the bearer-secret check, the environment choice, and the `createError` reference at controllers/transcoder.js:190 are not modelled.
- Admission: the download, thumbnail and probe are one input, `probe`; their failures become one `Failure` rejection.
- Admission: the fields copied from ffprobe into the record besides width, height and audio are not modelled (duration, bitrate, codec, frame rate).
- `transcribeAudio` is not modelled: the Speech API call, the status check and the transcription upload. Only the flattening of the response is.
- Not part of this model: authorization (middleware/authorize.js, helpers/authorization/), the preview-image helpers, routing, server set-up, multer configuration, Mongo initialisation, and models/video.js.
