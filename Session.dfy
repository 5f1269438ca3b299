/**
 * The ffmpeg event handlers of `processVideo` (controllers/transcoder.js) and
 * the cancellation poll beside them. The job record, the local output
 * directory and the bucket become state; every database write, signal, file
 * operation and bucket call becomes an `Effect` appended to a log in the order
 * the handler issues it. Each event is a pure step on a `SessionState`, and
 * `EncodeSession` is the object with those same fields whose per-event
 * methods are proved to perform the step.
 */
module Session {
  import opened Wrappers
  import opened Strings
  import opened Timemark
  import opened Retry

  /** The fields one `updateOne` call sets; `updated` is set by every call. */
  datatype Update = Update(status: string, progress: Option<Seconds>, start: Option<int>, end: Option<int>, updated: int)

  /** The job record's fields that the handlers touch. */
  datatype Job = Job(status: string, progress: Option<Seconds>, start: Option<int>, end: Option<int>, updated: Option<int>)

  /** What a handler does outside its own variables. */
  datatype Effect =
    | WriteRecord(update: Update)   // await video.updateOne(...)
      /** `video.updateOne(...)` with no await, callback or `exec()`: the query is built and never sent. */
    | BuildQuery(update: Update)
    | Resolve                       // resolve() of processVideo's promise
    | Kill                          // command.kill("SIGTERM")
    | ClearInterval                 // clearInterval(intervalId)
    | WriteLocal(file: string)      // fs.writeFileSync into the output directory
    | UploadObject(path: string)    // an object lands in the bucket
    | RemoveLocalDir                // fs.rmSync(uniqueDir, { recursive, force })
    | DeletePrefix(prefix: string)  // bucket.deleteFiles({ prefix })

  datatype SessionState = SessionState(
    record: Option<Job>,   // None once the record is gone
    canceled: bool,        // the `canceled` latch
    intervalActive: bool,  // the cancellation poll is still scheduled
    localDir: bool,        // the output directory exists
    remote: set<string>,   // object paths in the bucket
    log: seq<Effect>)

  /** How the directory upload in the `end` handler went. */
  datatype UploadOutcome =
    | AllUploaded
      /** It failed; `late` are files whose uploads still land after the cleanup deleted the prefix. */
    | UploadFailed(late: seq<string>)

  datatype Event =
    | Start(now: int)
    | Progress(timemark: string, now: int)
    | Poll
      /** Another writer (the cancel or delete endpoint) replaces the record. */
    | Overwrite(record: Option<Job>)
      /** `entries` is what `readdir` lists; `masterUploaded` whether the master playlist upload succeeded. */
    | End(entries: seq<string>, masterUploaded: bool, upload: UploadOutcome, now: int)
    | Error(now: int)

  const MasterFile: string := "master.m3u8"

  function TranscodedPrefix(name: string): string { "video/transcoded/" + name }
  function RawMp4(name: string): string { "video/raw/" + name + ".mp4" }
  function RawPng(name: string): string { "video/raw/" + name + ".png" }
  /** The raw object of a QuickTime job; no cleanup path names it. */
  function RawMov(name: string): string { "video/raw/" + name + ".mov" }

  /** The session right after `processVideo` made the directory and scheduled the poll. */
  function Initial(record: Option<Job>, remote: set<string>): SessionState
  {
    SessionState(record, false, true, true, remote, [])
  }

  /** `updateOne` sets the given fields and keeps the others; on a missing record it matches nothing. */
  function Merge(j: Job, u: Update): Job
  {
    Job(u.status,
        if u.progress.Some? then u.progress else j.progress,
        if u.start.Some? then u.start else j.start,
        if u.end.Some? then u.end else j.end,
        Some(u.updated))
  }

  function Written(record: Option<Job>, u: Update): Option<Job>
  {
    if record.Some? then Some(Merge(record.value, u)) else None
  }

  /** The objects that survive `deleteFiles({ prefix })`. */
  function Without(objects: set<string>, prefix: string): (r: set<string>)
    ensures forall o :: o in r <==> o in objects && !(prefix <= o)
  {
    set o | o in objects && !(prefix <= o)
  }

  function Apply(s: SessionState, e: Effect): SessionState
  {
    var t := s.(log := s.log + [e]);
    match e
    case WriteRecord(u) => t.(record := Written(s.record, u))
    case UploadObject(p) => t.(remote := s.remote + {p})
    case DeletePrefix(p) => t.(remote := Without(s.remote, p))
    case RemoveLocalDir => t.(localDir := false)
    case ClearInterval => t.(intervalActive := false)
    case _ => t
  }

  function ApplyAll(s: SessionState, effects: seq<Effect>): SessionState
    decreases effects
  {
    if effects == [] then s else ApplyAll(Apply(s, effects[0]), effects[1..])
  }

  function MarkFailed(now: int): Update { Update("failed", None, None, Some(now), now) }
  function MarkComplete(now: int): Update { Update("complete", None, None, Some(now), now) }
  function MarkProcessing(progress: Option<Seconds>, start: Option<int>, now: int): Update
  {
    Update("processing", progress, start, None, now)
  }

  /** The three prefix deletions of the cleanup paths, in order. */
  function Purge(name: string): seq<Effect>
  {
    [DeletePrefix(TranscodedPrefix(name)), DeletePrefix(RawMp4(name)), DeletePrefix(RawPng(name))]
  }

  /** One upload per file, in order. */
  function Uploads(name: string, files: seq<string>): (r: seq<Effect>)
    ensures |r| == |files|
    ensures forall k :: 0 <= k < |files| ==> r[k] == UploadObject(RemotePath(name, files[k]))
  {
    if files == [] then [] else Uploads(name, files[..|files| - 1]) + [UploadObject(RemotePath(name, files[|files| - 1]))]
  }

  /** The "failed" update of the two failure paths: sent to the store, or only built. */
  function FailedWrite(sent: bool, now: int): (e: Effect)
    ensures e.WriteRecord? <==> sent
    ensures (e.WriteRecord? || e.BuildQuery?) && e.update == MarkFailed(now)
  {
    if sent then WriteRecord(MarkFailed(now)) else BuildQuery(MarkFailed(now))
  }

  /** The catch block of the controller's `uploadDirToGCS`: the "failed" update, the directory removal, the purge. */
  function UploadDirFailureWith(name: string, sent: bool, now: int): seq<Effect>
  {
    [FailedWrite(sent, now), RemoveLocalDir] + Purge(name)
  }

  /** The catch block as written: its `updateOne` is never awaited, so the "failed" query is not sent. */
  function UploadDirFailure(name: string, now: int): seq<Effect>
  {
    UploadDirFailureWith(name, false, now)
  }

  /** The catch block as evidently intended: the "failed" update is awaited and reaches the store. */
  function AwaitedUploadDirFailure(name: string, now: int): seq<Effect>
  {
    UploadDirFailureWith(name, true, now)
  }

  function DirUpload(name: string, entries: seq<string>, upload: UploadOutcome, now: int): seq<Effect>
  {
    match upload
    case AllUploaded => Uploads(name, entries)
    case UploadFailed(late) => UploadDirFailure(name, now) + Uploads(name, late)
  }

  /**
   * The `end` handler: write and upload the master playlist, upload the
   * directory, remove it, delete the raw .mp4 and .png, mark the job complete.
   * Writing the master into a directory that is gone, or a failed master
   * upload, rejects the handler at that point.
   */
  function EndEffects(name: string, localDir: bool, entries: seq<string>, masterUploaded: bool,
                      upload: UploadOutcome, now: int): seq<Effect>
  {
    if !localDir then []
    else if !masterUploaded then [WriteLocal(MasterFile)]
    else MasterEffects(name) + DirUpload(name, entries, upload, now) + CompletionEffects(name, now)
  }

  function MasterEffects(name: string): seq<Effect>
  {
    [WriteLocal(MasterFile), UploadObject(RemotePath(name, MasterFile))]
  }

  function CompletionEffects(name: string, now: int): seq<Effect>
  {
    [RemoveLocalDir, DeletePrefix(RawMp4(name)), DeletePrefix(RawPng(name)), WriteRecord(MarkComplete(now))]
  }

  /** The `error` handler: the "failed" update unless the job was canceled, then the cleanup. */
  function ErrorEffectsWith(name: string, canceled: bool, sent: bool, now: int): seq<Effect>
  {
    (if canceled then [] else [FailedWrite(sent, now)]) + [RemoveLocalDir] + Purge(name)
  }

  /** The `error` handler as written: its `updateOne` is never awaited, so the "failed" query is not sent. */
  function ErrorEffects(name: string, canceled: bool, now: int): seq<Effect>
  {
    ErrorEffectsWith(name, canceled, false, now)
  }

  /** The `error` handler as evidently intended: the "failed" update reaches the store. */
  function AwaitedErrorEffects(name: string, canceled: bool, now: int): seq<Effect>
  {
    ErrorEffectsWith(name, canceled, true, now)
  }

  /** The poll fires when the record is gone or its status is the string "canceled". */
  predicate PollFires(s: SessionState)
  {
    s.intervalActive && (s.record.None? || s.record.value.status == "canceled")
  }

  /** What the session itself does on an event, in order. */
  function Effects(name: string, s: SessionState, e: Event): seq<Effect>
  {
    match e
    case Start(now) => [WriteRecord(MarkProcessing(None, Some(now), now)), Resolve]
    case Progress(timemark, now) =>
      var p := TimeToSeconds(timemark);
      // a TypeError in timeToSeconds rejects the handler (an unhandled rejection) before it writes
      if p.TypeError? then [] else [WriteRecord(MarkProcessing(Some(p), None, now))]
    case Poll => if PollFires(s) then [Kill, ClearInterval] else []
    case Overwrite(_) => []
    case End(entries, masterUploaded, upload, now) => EndEffects(name, s.localDir, entries, masterUploaded, upload, now)
    case Error(now) => ErrorEffects(name, s.canceled, now)
  }

  function Step(name: string, s: SessionState, e: Event): SessionState
  {
    match e
    case Overwrite(r) => s.(record := r)
    case Poll => if PollFires(s) then ApplyAll(s, [Kill, ClearInterval]).(canceled := true) else s
    case _ => ApplyAll(s, Effects(name, s, e))
  }

  function Run(name: string, s: SessionState, events: seq<Event>): SessionState
    decreases events
  {
    if events == [] then s else Run(name, Step(name, s, events[0]), events[1..])
  }

  // ---------------------------------------------------------------- effects

  lemma ApplyAllFacts(s: SessionState, effects: seq<Effect>)
    ensures ApplyAll(s, effects).log == s.log + effects
    ensures ApplyAll(s, effects).canceled == s.canceled
    ensures ClearInterval !in effects ==> ApplyAll(s, effects).intervalActive == s.intervalActive
  {
    ApplyAllLog(s, effects);
    ApplyAllCanceled(s, effects);
    if ClearInterval !in effects {
      ApplyAllInterval(s, effects);
    }
  }

  /** The log grows by exactly the effects, in order. */
  lemma {:induction false} ApplyAllLog(s: SessionState, effects: seq<Effect>)
    ensures ApplyAll(s, effects).log == s.log + effects
    decreases effects
  {
    if effects != [] {
      ApplyAllLog(Apply(s, effects[0]), effects[1..]);
      assert s.log + [effects[0]] + effects[1..] == s.log + effects;
    }
  }

  /** No effect sets the latch: only the poll handler does. */
  lemma {:induction false} ApplyAllCanceled(s: SessionState, effects: seq<Effect>)
    ensures ApplyAll(s, effects).canceled == s.canceled
    decreases effects
  {
    if effects != [] {
      ApplyAllCanceled(Apply(s, effects[0]), effects[1..]);
    }
  }

  /** Only a ClearInterval effect stops the poll. */
  lemma {:induction false} ApplyAllInterval(s: SessionState, effects: seq<Effect>)
    requires ClearInterval !in effects
    ensures ApplyAll(s, effects).intervalActive == s.intervalActive
    decreases effects
  {
    if effects != [] {
      assert effects == [effects[0]] + effects[1..];
      ApplyAllInterval(Apply(s, effects[0]), effects[1..]);
    }
  }

  lemma {:induction false} ApplyAllAppend(s: SessionState, a: seq<Effect>, b: seq<Effect>)
    ensures ApplyAll(s, a + b) == ApplyAll(ApplyAll(s, a), b)
    decreases a
  {
    if a == [] {
      assert a + b == b;
    } else {
      assert (a + b)[0] == a[0] && (a + b)[1..] == a[1..] + b;
      ApplyAllAppend(Apply(s, a[0]), a[1..], b);
    }
  }

  lemma ApplyAllSnoc(s: SessionState, a: seq<Effect>, e: Effect)
    ensures ApplyAll(s, a + [e]) == Apply(ApplyAll(s, a), e)
  {
    ApplyAllAppend(s, a, [e]);
  }

  lemma ApplyOne(s: SessionState, e: Effect)
    ensures ApplyAll(s, [e]) == Apply(s, e)
  {
    assert [e][1..] == [];
  }

  lemma ApplyTwo(s: SessionState, a: Effect, b: Effect)
    ensures ApplyAll(s, [a, b]) == Apply(Apply(s, a), b)
  {
    ApplyAllSnoc(s, [a], b);
    assert [a] + [b] == [a, b];
    ApplyOne(s, a);
  }

  /** The effects never read the latch, so flipping it commutes with them. */
  lemma {:induction false} ApplyAllIgnoresLatch(s: SessionState, effects: seq<Effect>, c: bool)
    ensures ApplyAll(s.(canceled := c), effects) == ApplyAll(s, effects).(canceled := c)
    decreases effects
  {
    if effects != [] {
      assert Apply(s.(canceled := c), effects[0]) == Apply(s, effects[0]).(canceled := c);
      ApplyAllIgnoresLatch(Apply(s, effects[0]), effects[1..], c);
    }
  }

  /** The objects a list of uploads puts in the bucket. */
  function Landed(name: string, files: seq<string>): (r: set<string>)
    ensures forall k :: 0 <= k < |files| ==> RemotePath(name, files[k]) in r
    ensures forall o :: o in r ==> "video/transcoded/" + name + "/" <= o
  {
    if files == [] then {} else Landed(name, files[..|files| - 1]) + {RemotePath(name, files[|files| - 1])}
  }

  /** Uploads only add objects, each at its file's path. */
  lemma {:induction false} UploadsLand(s: SessionState, name: string, files: seq<string>)
    ensures ApplyAll(s, Uploads(name, files)).remote == s.remote + Landed(name, files)
    ensures ApplyAll(s, Uploads(name, files)).record == s.record
    ensures ApplyAll(s, Uploads(name, files)).localDir == s.localDir
    decreases |files|
  {
    if files != [] {
      var init := files[..|files| - 1];
      var e := UploadObject(RemotePath(name, files[|files| - 1]));
      UploadsLand(s, name, init);
      assert Uploads(name, files) == Uploads(name, init) + [e];
      ApplyAllSnoc(s, Uploads(name, init), e);
    }
  }

  /** After the purge no object is left under the job's three prefixes, and every other object is kept. */
  lemma PurgeRemoves(s: SessionState, name: string)
    ensures var t := ApplyAll(s, Purge(name));
      && (forall o :: o in t.remote <==>
            o in s.remote && !(TranscodedPrefix(name) <= o) && !(RawMp4(name) <= o) && !(RawPng(name) <= o))
      && t.record == s.record && t.localDir == s.localDir
  {
    var p := Purge(name);
    var s1 := Apply(s, p[0]);
    var s2 := Apply(s1, p[1]);
    var s3 := Apply(s2, p[2]);
    assert ApplyAll(s2, p[2..]) == s3 by {
      assert p[2..][1..] == [];
    }
    assert ApplyAll(s, p) == s3 by {
      assert p[1..][1..] == p[2..];
    }
  }

  /** The raw `.mov` object is outside every prefix the cleanups delete. */
  lemma MovOutsidePrefixes(name: string)
    ensures !(TranscodedPrefix(name) <= RawMov(name))
    ensures !(RawMp4(name) <= RawMov(name)) && !(RawPng(name) <= RawMov(name))
  {
    var n := |name|;
    assert RawMov(name)[6] == 'r' && TranscodedPrefix(name)[6] == 't';
    assert RawMov(name)[n + 12] == 'o' && RawMp4(name)[n + 12] == 'p';
    assert RawMov(name)[n + 11] == 'm' && RawPng(name)[n + 11] == 'p';
  }

  /**
   * The raw object of a `video/quicktime` job survives both cleanups and
   * the tail of `end`: they delete only the `.mp4` and `.png` raw objects.
   */
  lemma MovSourceSurvives(name: string, s: SessionState, now: int)
    requires RawMov(name) in s.remote
    ensures RawMov(name) in ApplyAll(s, Purge(name)).remote
    ensures RawMov(name) in ApplyAll(s, CompletionEffects(name, now)).remote
  {
    MovOutsidePrefixes(name);
    PurgeRemoves(s, name);
    CompletionTail(s, name, now);
  }

  /** A raw-file prefix never covers a transcoded object. */
  lemma RawIsNotTranscoded(name: string, x: string, o: string)
    requires "video/transcoded/" + x <= o
    ensures !(RawMp4(name) <= o) && !(RawPng(name) <= o)
  {
    assert o[6] == ("video/transcoded/" + x)[6] == 't';
    assert RawMp4(name)[6] == 'r' && RawPng(name)[6] == 'r';
  }

  /**
   * The prefixes have no trailing "/": the cleanup of job `name` also matches
   * the outputs of any job whose name extends it.
   */
  lemma PrefixOverreach(name: string, suffix: string, file: string)
    ensures TranscodedPrefix(name) <= RemotePath(name + suffix, file)
  {
    assert RemotePath(name + suffix, file) == TranscodedPrefix(name) + (suffix + "/" + file);
  }

  // ---------------------------------------------------------------- handlers

  lemma StepLog(name: string, s: SessionState, e: Event)
    ensures Step(name, s, e).log == s.log + Effects(name, s, e)
    ensures e.Poll? && PollFires(s) ==> Step(name, s, e).canceled
    ensures !(e.Poll? && PollFires(s)) ==> Step(name, s, e).canceled == s.canceled
  {
    ApplyAllFacts(s, Effects(name, s, e));
    if e.Poll? && PollFires(s) {
      ApplyAllFacts(s, [Kill, ClearInterval]);
    }
  }

  /** `start` writes "processing" with the start time and then resolves `processVideo`'s promise. */
  lemma StartThenResolve(name: string, s: SessionState, now: int)
    ensures var t := Step(name, s, Start(now));
      && t.log == s.log + [WriteRecord(MarkProcessing(None, Some(now), now)), Resolve]
      && t.record == Written(s.record, MarkProcessing(None, Some(now), now))
      && (t.record.Some? ==> t.record.value.status == "processing" && t.record.value.start == Some(now))
      && t.canceled == s.canceled && t.intervalActive == s.intervalActive
      && t.localDir == s.localDir && t.remote == s.remote
  {
    ApplyTwo(s, WriteRecord(MarkProcessing(None, Some(now), now)), Resolve);
  }

  /**
   * `progress` writes "processing" and the parsed timemark; a timemark with
   * fewer than three ':'-fields makes `timeToSeconds` throw, and nothing is written.
   */
  lemma ProgressWrites(name: string, s: SessionState, timemark: string, now: int)
    ensures |Split(timemark, ':')| < 3 ==> Step(name, s, Progress(timemark, now)) == s
    ensures |Split(timemark, ':')| >= 3 ==>
      var p := TimeToSeconds(timemark);
      var t := Step(name, s, Progress(timemark, now));
      && t.log == s.log + [WriteRecord(MarkProcessing(Some(p), None, now))]
      && t.record == Written(s.record, MarkProcessing(Some(p), None, now))
      && t.canceled == s.canceled && t.intervalActive == s.intervalActive
  {
    ApplyAllFacts(s, Effects(name, s, Progress(timemark, now)));
  }

  /**
   * The poll kills ffmpeg, stops itself and sets the latch exactly when the
   * record is gone or its status is "canceled"; otherwise it changes nothing.
   */
  lemma PollCancels(name: string, s: SessionState)
    ensures PollFires(s) ==>
      var t := Step(name, s, Poll);
      && t.canceled && !t.intervalActive
      && t.log == s.log + [Kill, ClearInterval]
      && t.record == s.record && t.localDir == s.localDir && t.remote == s.remote
    ensures !PollFires(s) ==> Step(name, s, Poll) == s
  {
    if PollFires(s) {
      ApplyAllFacts(s, [Kill, ClearInterval]);
      assert [Kill, ClearInterval][1..][1..] == [];
    }
  }

  /** Either version of the `error` handler's effects, as a state change. */
  lemma ErrorPath(name: string, s: SessionState, sent: bool, now: int)
    ensures var t := ApplyAll(s, ErrorEffectsWith(name, s.canceled, sent, now));
      && t.log == s.log + ErrorEffectsWith(name, s.canceled, sent, now)
      && t.record == (if s.canceled || !sent then s.record else Written(s.record, MarkFailed(now)))
      && !t.localDir
      && (forall o :: o in t.remote <==>
            o in s.remote && !(TranscodedPrefix(name) <= o) && !(RawMp4(name) <= o) && !(RawPng(name) <= o))
      && t.canceled == s.canceled && t.intervalActive == s.intervalActive
  {
    var head: seq<Effect> := (if s.canceled then [] else [FailedWrite(sent, now)]) + [RemoveLocalDir];
    assert ErrorEffectsWith(name, s.canceled, sent, now) == head + Purge(name);
    ApplyAllFacts(s, ErrorEffectsWith(name, s.canceled, sent, now));
    ApplyAllAppend(s, head, Purge(name));
    var h := ApplyAll(s, head);
    if s.canceled {
      assert head == [RemoveLocalDir];
      ApplyOne(s, RemoveLocalDir);
    } else {
      assert head == [FailedWrite(sent, now), RemoveLocalDir];
      ApplyTwo(s, FailedWrite(sent, now), RemoveLocalDir);
    }
    PurgeRemoves(h, name);
  }

  /**
   * `error` as written: unless the job was canceled it builds the "failed"
   * query, but never sends it, so the record is left as it was; it removes
   * the output directory and deletes every object under the job's three prefixes.
   */
  lemma ErrorCleansUp(name: string, s: SessionState, now: int)
    ensures var t := Step(name, s, Error(now));
      && t.log == s.log + ErrorEffects(name, s.canceled, now)
      && (BuildQuery(MarkFailed(now)) in ErrorEffects(name, s.canceled, now) <==> !s.canceled)
      && t.record == s.record
      && !t.localDir
      && (forall o :: o in t.remote <==>
            o in s.remote && !(TranscodedPrefix(name) <= o) && !(RawMp4(name) <= o) && !(RawPng(name) <= o))
      && t.canceled == s.canceled && t.intervalActive == s.intervalActive
  {
    ErrorPath(name, s, false, now);
    if !s.canceled {
      assert ErrorEffects(name, s.canceled, now)[0] == BuildQuery(MarkFailed(now));
    }
  }

  /** A job that was processing when ffmpeg failed still reads "processing" after the `error` handler. */
  lemma ErrorLeavesProcessing(name: string, s: SessionState, j: Job, now: int)
    requires s.record == Some(j) && j.status == "processing" && !s.canceled
    ensures Step(name, s, Error(now)).record == Some(j)
    ensures Step(name, s, Error(now)).record.value.status == "processing"
  {
    ErrorCleansUp(name, s, now);
  }

  /**
   * `error` as evidently intended: a job that was not canceled is marked
   * "failed" with its end time; a canceled one keeps its record. The cleanup is the same.
   */
  lemma AwaitedErrorMarksFailed(name: string, s: SessionState, now: int)
    ensures var t := ApplyAll(s, AwaitedErrorEffects(name, s.canceled, now));
      && (s.record.Some? <==> t.record.Some?)
      && (s.canceled ==> t.record == s.record)
      && (!s.canceled && t.record.Some? ==> t.record.value.status == "failed" && t.record.value.end == Some(now))
      && !t.localDir
      && (forall o :: o in t.remote <==>
            o in s.remote && !(TranscodedPrefix(name) <= o) && !(RawMp4(name) <= o) && !(RawPng(name) <= o))
  {
    ErrorPath(name, s, true, now);
  }

  lemma CompletionTail(s: SessionState, name: string, now: int)
    ensures var t := ApplyAll(s, CompletionEffects(name, now));
      && t.record == Written(s.record, MarkComplete(now))
      && !t.localDir
      && t.remote == Without(Without(s.remote, RawMp4(name)), RawPng(name))
  {
    var a := [RemoveLocalDir, DeletePrefix(RawMp4(name))];
    var b := [DeletePrefix(RawPng(name)), WriteRecord(MarkComplete(now))];
    assert a + b == CompletionEffects(name, now);
    ApplyAllAppend(s, a, b);
    ApplyTwo(s, a[0], a[1]);
    ApplyTwo(ApplyAll(s, a), b[0], b[1]);
  }

  /**
   * `end`, once the master playlist is written and uploaded: it uploads the
   * directory, removes it, deletes the raw .mp4 and .png and marks the job
   * "complete", even when the directory upload failed and its catch block
   * deleted the outputs (its "failed" query is never sent); then the only
   * transcoded objects left are the late ones. The latch is never consulted,
   * and neither handler stops the poll.
   */
  lemma EndCompletes(name: string, s: SessionState, entries: seq<string>, upload: UploadOutcome, now: int)
    requires s.localDir
    ensures var t := Step(name, s, End(entries, true, upload, now));
      && t.log == s.log + MasterEffects(name) + DirUpload(name, entries, upload, now) + CompletionEffects(name, now)
      && (s.record.Some? <==> t.record.Some?)
      && (t.record.Some? ==> t.record.value.status == "complete" && t.record.value.end == Some(now))
      && !t.localDir
      && t.canceled == s.canceled && t.intervalActive == s.intervalActive
      && (upload.AllUploaded? ==>
            RemotePath(name, MasterFile) in t.remote
            && forall k :: 0 <= k < |entries| ==> RemotePath(name, entries[k]) in t.remote)
      && (upload.UploadFailed? ==>
            (forall k :: 0 <= k < |upload.late| ==> RemotePath(name, upload.late[k]) in t.remote)
            && forall o :: o in t.remote && TranscodedPrefix(name) <= o ==> o in Landed(name, upload.late))
  {
    EndLog(name, s, entries, upload, now);
    EndRecord(name, s, entries, upload, now);
    match upload {
      case AllUploaded => EndAllUploaded(name, s, entries, now);
      case UploadFailed(late) => EndUploadFailed(name, s, entries, late, now);
    }
  }

  /** The master upload, the directory upload and the completion tail, as states. */
  lemma EndStates(name: string, s: SessionState, entries: seq<string>, upload: UploadOutcome, now: int)
    requires s.localDir
    ensures var s1 := ApplyAll(s, MasterEffects(name));
      && s1.record == s.record
      && s1.remote == s.remote + {RemotePath(name, MasterFile)}
      && Step(name, s, End(entries, true, upload, now))
         == ApplyAll(ApplyAll(s1, DirUpload(name, entries, upload, now)), CompletionEffects(name, now))
  {
    EndSplits(name, s, entries, upload, now);
    ApplyTwo(s, WriteLocal(MasterFile), UploadObject(RemotePath(name, MasterFile)));
  }

  lemma EndRecord(name: string, s: SessionState, entries: seq<string>, upload: UploadOutcome, now: int)
    requires s.localDir
    ensures var t := Step(name, s, End(entries, true, upload, now));
      && (s.record.Some? <==> t.record.Some?)
      && (t.record.Some? ==> t.record.value.status == "complete" && t.record.value.end == Some(now))
      && !t.localDir
  {
    EndStates(name, s, entries, upload, now);
    var s2 := ApplyAll(ApplyAll(s, MasterEffects(name)), DirUpload(name, entries, upload, now));
    CompletionTail(s2, name, now);
    DirUploadKeepsPresence(ApplyAll(s, MasterEffects(name)), name, entries, upload, now);
  }

  /** Either outcome of the directory upload keeps the record present or absent. */
  lemma DirUploadKeepsPresence(s: SessionState, name: string, entries: seq<string>, upload: UploadOutcome, now: int)
    ensures ApplyAll(s, DirUpload(name, entries, upload, now)).record.Some? <==> s.record.Some?
  {
    match upload {
      case AllUploaded => UploadsLand(s, name, entries);
      case UploadFailed(late) => FailedUploadLeavesLate(name, s, late, now);
    }
  }

  lemma EndAllUploaded(name: string, s: SessionState, entries: seq<string>, now: int)
    requires s.localDir
    ensures var t := Step(name, s, End(entries, true, AllUploaded, now));
      && RemotePath(name, MasterFile) in t.remote
      && forall k :: 0 <= k < |entries| ==> RemotePath(name, entries[k]) in t.remote
  {
    EndStates(name, s, entries, AllUploaded, now);
    var s1 := ApplyAll(s, MasterEffects(name));
    var s2 := ApplyAll(s1, DirUpload(name, entries, AllUploaded, now));
    CompletionTail(s2, name, now);
    UploadsLand(s1, name, entries);
    RawIsNotTranscoded(name, name + "/", RemotePath(name, MasterFile));
    forall k | 0 <= k < |entries| ensures RemotePath(name, entries[k]) in ApplyAll(s2, CompletionEffects(name, now)).remote {
      RawIsNotTranscoded(name, name + "/", RemotePath(name, entries[k]));
    }
  }

  lemma EndUploadFailed(name: string, s: SessionState, entries: seq<string>, late: seq<string>, now: int)
    requires s.localDir
    ensures var t := Step(name, s, End(entries, true, UploadFailed(late), now));
      && (forall k :: 0 <= k < |late| ==> RemotePath(name, late[k]) in t.remote)
      && forall o :: o in t.remote && TranscodedPrefix(name) <= o ==> o in Landed(name, late)
  {
    EndStates(name, s, entries, UploadFailed(late), now);
    var s1 := ApplyAll(s, MasterEffects(name));
    var s2 := ApplyAll(s1, DirUpload(name, entries, UploadFailed(late), now));
    CompletionTail(s2, name, now);
    FailedUploadLeavesLate(name, s1, late, now);
    forall o | o in Landed(name, late) ensures !(RawMp4(name) <= o) && !(RawPng(name) <= o) {
      RawIsNotTranscoded(name, name + "/", o);
    }
  }


  lemma EndSplits(name: string, s: SessionState, entries: seq<string>, upload: UploadOutcome, now: int)
    requires s.localDir
    ensures Step(name, s, End(entries, true, upload, now))
         == ApplyAll(ApplyAll(ApplyAll(s, MasterEffects(name)), DirUpload(name, entries, upload, now)), CompletionEffects(name, now))
  {
    var m := MasterEffects(name);
    var d := DirUpload(name, entries, upload, now);
    ApplyAllAppend(s, m + d, CompletionEffects(name, now));
    ApplyAllAppend(s, m, d);
  }

  lemma EndLog(name: string, s: SessionState, entries: seq<string>, upload: UploadOutcome, now: int)
    requires s.localDir
    ensures var t := Step(name, s, End(entries, true, upload, now));
      && t.log == s.log + MasterEffects(name) + DirUpload(name, entries, upload, now) + CompletionEffects(name, now)
      && t.canceled == s.canceled && t.intervalActive == s.intervalActive
  {
    var m, d, c := MasterEffects(name), DirUpload(name, entries, upload, now), CompletionEffects(name, now);
    EndSplits(name, s, entries, upload, now);
    var t0 := ApplyAll(s, m);
    var t1 := ApplyAll(t0, d);
    ApplyAllFacts(s, m);
    ApplyAllFacts(t0, d);
    ApplyAllFacts(t1, c);
    NoClearInDirUpload(name, entries, upload, now);
    assert ClearInterval !in m && ClearInterval !in c;
  }

  lemma NoClearInDirUpload(name: string, entries: seq<string>, upload: UploadOutcome, now: int)
    ensures ClearInterval !in DirUpload(name, entries, upload, now)
  {
    match upload {
      case AllUploaded =>
        assert ClearInterval !in Uploads(name, entries);
      case UploadFailed(late) =>
        assert ClearInterval !in Uploads(name, late);
        assert DirUpload(name, entries, upload, now) == UploadDirFailure(name, now) + Uploads(name, late);
    }
  }

  /**
   * Either version of the controller's directory-upload catch block,
   * followed by the uploads that were still running: only the late files
   * remain under the job's transcoded prefix.
   */
  lemma FailedUploadPath(name: string, s: SessionState, sent: bool, late: seq<string>, now: int)
    ensures var h := ApplyAll(s, UploadDirFailureWith(name, sent, now) + Uploads(name, late));
      && h.record == (if sent then Written(s.record, MarkFailed(now)) else s.record)
      && !h.localDir
      && Landed(name, late) <= h.remote
      && forall o :: o in h.remote && TranscodedPrefix(name) <= o ==> o in Landed(name, late)
  {
    var failure := UploadDirFailureWith(name, sent, now);
    ApplyAllAppend(s, failure, Uploads(name, late));
    ApplyAllAppend(s, [FailedWrite(sent, now), RemoveLocalDir], Purge(name));
    ApplyTwo(s, FailedWrite(sent, now), RemoveLocalDir);
    var h := ApplyAll(s, [FailedWrite(sent, now), RemoveLocalDir]);
    PurgeRemoves(h, name);
    UploadsLand(ApplyAll(s, failure), name, late);
  }

  /**
   * The catch block as written, followed by the uploads that were still
   * running: the "failed" query is never sent, so the record is untouched;
   * the directory is removed and only the late files remain under the
   * job's transcoded prefix.
   */
  lemma FailedUploadLeavesLate(name: string, s: SessionState, late: seq<string>, now: int)
    ensures var h := ApplyAll(s, UploadDirFailure(name, now) + Uploads(name, late));
      && h.record == s.record
      && !h.localDir
      && Landed(name, late) <= h.remote
      && forall o :: o in h.remote && TranscodedPrefix(name) <= o ==> o in Landed(name, late)
  {
    FailedUploadPath(name, s, false, late, now);
  }

  /** The catch block as evidently intended marks the job "failed" with its end time. */
  lemma AwaitedUploadFailureMarksFailed(name: string, s: SessionState, late: seq<string>, now: int)
    ensures var h := ApplyAll(s, AwaitedUploadDirFailure(name, now) + Uploads(name, late));
      && (s.record.Some? <==> h.record.Some?)
      && (h.record.Some? ==> h.record.value.status == "failed" && h.record.value.end == Some(now))
      && !h.localDir
      && forall o :: o in h.remote && TranscodedPrefix(name) <= o ==> o in Landed(name, late)
  {
    FailedUploadPath(name, s, true, late, now);
  }

  /** `end` does not look at the latch: a canceled session completes like any other. */
  lemma EndIgnoresLatch(name: string, s: SessionState, entries: seq<string>, masterUploaded: bool,
                        upload: UploadOutcome, now: int, c: bool)
    ensures Step(name, s.(canceled := c), End(entries, masterUploaded, upload, now))
         == Step(name, s, End(entries, masterUploaded, upload, now)).(canceled := c)
  {
    ApplyAllIgnoresLatch(s, EndEffects(name, s.localDir, entries, masterUploaded, upload, now), c);
  }

  /** A failed master upload stops `end` right after the local write: nothing is uploaded, cleaned or marked. */
  lemma MasterUploadFailureStopsEnd(name: string, s: SessionState, entries: seq<string>, upload: UploadOutcome, now: int)
    requires s.localDir
    ensures Step(name, s, End(entries, false, upload, now)) == s.(log := s.log + [WriteLocal(MasterFile)])
  {
    ApplyOne(s, WriteLocal(MasterFile));
  }

  // ---------------------------------------------------------------- traces

  /** Once set, the latch stays set whatever happens next. */
  lemma {:induction false} LatchHolds(name: string, s: SessionState, events: seq<Event>)
    requires s.canceled
    ensures Run(name, s, events).canceled
    decreases events
  {
    if events != [] {
      StepLog(name, s, events[0]);
      LatchHolds(name, Step(name, s, events[0]), events[1..]);
    }
  }

  lemma NoResolveOutsideStart(name: string, s: SessionState, e: Event)
    requires !e.Start?
    ensures Resolve !in Effects(name, s, e)
  {
    if e.End? && s.localDir && e.masterUploaded {
      var middle := DirUpload(name, e.entries, e.upload, e.now);
      if e.upload.UploadFailed? {
        assert middle == UploadDirFailure(name, e.now) + Uploads(name, e.upload.late);
      }
      assert Resolve !in middle;
    }
  }

  /** `processVideo`'s promise is resolved by a `start` event and by nothing else. */
  lemma {:induction false} ResolveOnlyAtStart(name: string, s: SessionState, events: seq<Event>)
    requires Resolve !in s.log
    requires Resolve in Run(name, s, events).log
    ensures exists k :: 0 <= k < |events| && events[k].Start?
    decreases events
  {
    if events != [] {
      var e := events[0];
      StepLog(name, s, e);
      if e.Start? {
        assert events[0].Start?;
      } else {
        NoResolveOutsideStart(name, s, e);
        ResolveOnlyAtStart(name, Step(name, s, e), events[1..]);
        var k :| 0 <= k < |events[1..]| && events[1..][k].Start?;
        assert events[k + 1].Start?;
      }
    }
  }

  /** An ffmpeg error before `start` leaves the promise pending: the request never gets its response. */
  lemma ErrorBeforeStartNeverResolves(name: string, record: Option<Job>, remote: set<string>, now: int)
    ensures Resolve !in Run(name, Initial(record, remote), [Error(now)]).log
  {
    if Resolve in Run(name, Initial(record, remote), [Error(now)]).log {
      ResolveOnlyAtStart(name, Initial(record, remote), [Error(now)]);
    }
  }

  /**
   * A cancel that lands between two polls can be masked: the next `progress`
   * writes "processing" over it, and the poll after that finds nothing to stop.
   */
  lemma ProgressMasksCancel(name: string, s: SessionState, j: Job, timemark: string, now: int)
    requires s.intervalActive && !s.canceled
    requires |Split(timemark, ':')| >= 3
    ensures var t := Run(name, s, [Overwrite(Some(j.(status := "canceled"))), Progress(timemark, now), Poll]);
      && !t.canceled && t.intervalActive
      && t.record.Some? && t.record.value.status == "processing"
  {
    var s1 := Step(name, s, Overwrite(Some(j.(status := "canceled"))));
    ProgressWrites(name, s1, timemark, now);
    var s2 := Step(name, s1, Progress(timemark, now));
    PollCancels(name, s2);
    var events := [Overwrite(Some(j.(status := "canceled"))), Progress(timemark, now), Poll];
    assert events[1..] == [Progress(timemark, now), Poll] && events[1..][1..] == [Poll];
    assert Run(name, s2, [Poll]) == Step(name, s2, Poll);
  }

  /**
   * A cancel seen by the poll: ffmpeg is killed, its `error` event does not
   * overwrite the "canceled" status, and the outputs are cleaned up.
   */
  lemma CancelThenError(name: string, s: SessionState, j: Job, now: int)
    requires s.intervalActive && !s.canceled
    ensures var t := Run(name, s, [Overwrite(Some(j.(status := "canceled"))), Poll, Error(now)]);
      && t.canceled && !t.intervalActive && !t.localDir
      && t.record == Some(j.(status := "canceled"))
      && t.log == s.log + [Kill, ClearInterval, RemoveLocalDir] + Purge(name)
      && forall o :: o in t.remote ==> !(TranscodedPrefix(name) <= o) && !(RawMp4(name) <= o) && !(RawPng(name) <= o)
  {
    var s1 := Step(name, s, Overwrite(Some(j.(status := "canceled"))));
    PollCancels(name, s1);
    var s2 := Step(name, s1, Poll);
    ErrorCleansUp(name, s2, now);
    var events := [Overwrite(Some(j.(status := "canceled"))), Poll, Error(now)];
    assert events[1..] == [Poll, Error(now)] && events[1..][1..] == [Error(now)];
    assert Run(name, s2, [Error(now)]) == Step(name, s2, Error(now));
    assert ErrorEffects(name, true, now) == [RemoveLocalDir] + Purge(name);
  }

  /** Deleting the record stops the job at the next poll. */
  lemma DeletionStopsJob(name: string, s: SessionState)
    requires s.intervalActive
    ensures var t := Run(name, s, [Overwrite(None), Poll]);
      t.canceled && !t.intervalActive && t.log == s.log + [Kill, ClearInterval]
  {
    var s1 := Step(name, s, Overwrite(None));
    PollCancels(name, s1);
    assert [Overwrite(None), Poll][1..] == [Poll];
    assert Run(name, Step(name, s1, Poll), []) == Step(name, s1, Poll);
  }

  // ---------------------------------------------------------------- the handlers' object

  /**
   * The closure state of one `processVideo` call together with the parts of
   * the outside world its handlers act on. Each `On…` method is one handler
   * and performs exactly the step of the same event.
   */
  class EncodeSession {
    /** `video.name`, which is also the `fileId` of the upload paths. */
    const name: string
    var record: Option<Job>
    var canceled: bool
    var intervalActive: bool
    var localDir: bool
    var remote: set<string>
    var log: seq<Effect>

    function State(): SessionState
      reads this
    {
      SessionState(record, canceled, intervalActive, localDir, remote, log)
    }

    /** `mkdirSync(uniqueDir)` and `setInterval(...)`; the latch starts cleared. */
    constructor (name: string, record: Option<Job>, remote: set<string>)
      ensures this.name == name
      ensures State() == Initial(record, remote)
    {
      this.name := name;
      this.record := record;
      canceled := false;
      intervalActive := true;
      localDir := true;
      this.remote := remote;
      log := [];
    }

    method Perform(e: Effect)
      modifies this
      ensures State() == Apply(old(State()), e)
    {
      log := log + [e];
      match e {
        case WriteRecord(u) =>
          if record.Some? {
            record := Some(Merge(record.value, u));
          }
        case UploadObject(p) => remote := remote + {p};
        case DeletePrefix(p) => remote := Without(remote, p);
        case RemoveLocalDir => localDir := false;
        case ClearInterval => intervalActive := false;
        case _ =>
      }
    }

    /** The cleanup's three `deleteFiles` calls, awaited one after the other. */
    method DeleteOutputs()
      modifies this
      ensures State() == ApplyAll(old(State()), Purge(name))
    {
      ghost var s0 := State();
      var prefixes := [TranscodedPrefix(name), RawMp4(name), RawPng(name)];
      ghost var done: seq<Effect> := [];
      for i := 0 to |prefixes|
        invariant done == Purge(name)[..i]
        invariant State() == ApplyAll(s0, done)
      {
        Perform(DeletePrefix(prefixes[i]));
        ApplyAllSnoc(s0, done, DeletePrefix(prefixes[i]));
        done := done + [DeletePrefix(prefixes[i])];
      }
      assert done == Purge(name);
    }

    /** Uploads each listed file in turn. */
    method UploadFiles(files: seq<string>)
      modifies this
      ensures State() == ApplyAll(old(State()), Uploads(name, files))
    {
      ghost var s0 := State();
      for i := 0 to |files|
        invariant State() == ApplyAll(s0, Uploads(name, files[..i]))
      {
        var e := UploadObject(RemotePath(name, files[i]));
        Perform(e);
        assert files[..i + 1][..i] == files[..i];
        assert Uploads(name, files[..i + 1]) == Uploads(name, files[..i]) + [e];
        ApplyAllSnoc(s0, Uploads(name, files[..i]), e);
      }
      assert files[..|files|] == files;
    }

    method OnStart(now: int)
      modifies this
      ensures State() == Step(name, old(State()), Start(now))
    {
      ghost var s0 := State();
      Perform(WriteRecord(MarkProcessing(None, Some(now), now)));
      Perform(Resolve);
      ApplyTwo(s0, WriteRecord(MarkProcessing(None, Some(now), now)), Resolve);
    }

    method OnProgress(timemark: string, now: int)
      modifies this
      ensures State() == Step(name, old(State()), Progress(timemark, now))
    {
      ghost var s0 := State();
      var p := TimeToSeconds(timemark);
      if !p.TypeError? {
        Perform(WriteRecord(MarkProcessing(Some(p), None, now)));
        ApplyOne(s0, WriteRecord(MarkProcessing(Some(p), None, now)));
      }
    }

    /** One tick of the cancellation interval, once `findOne` has returned `record`. */
    method OnPoll()
      modifies this
      ensures State() == Step(name, old(State()), Poll)
    {
      ghost var s0 := State();
      if intervalActive && (record.None? || record.value.status == "canceled") {
        Perform(Kill);
        Perform(ClearInterval);
        canceled := true;
        ApplyTwo(s0, Kill, ClearInterval);
      }
    }

    /** Another writer replaces the record. */
    method OnOverwrite(r: Option<Job>)
      modifies this
      ensures State() == Step(name, old(State()), Overwrite(r))
    {
      record := r;
    }

    /** The controller's `uploadDirToGCS` catch block, then the uploads still running when it finished. */
    method CatchUploadFailure(late: seq<string>, now: int)
      modifies this
      ensures State() == ApplyAll(old(State()), UploadDirFailure(name, now) + Uploads(name, late))
    {
      ghost var s1 := State();
      Perform(BuildQuery(MarkFailed(now)));
      Perform(RemoveLocalDir);
      ApplyTwo(s1, BuildQuery(MarkFailed(now)), RemoveLocalDir);
      DeleteOutputs();
      ApplyAllAppend(s1, [BuildQuery(MarkFailed(now)), RemoveLocalDir], Purge(name));
      UploadFiles(late);
      ApplyAllAppend(s1, UploadDirFailure(name, now), Uploads(name, late));
    }

    /** The tail of `end`: remove the directory, delete the raw files, mark the job complete. */
    method Complete(now: int)
      modifies this
      ensures State() == ApplyAll(old(State()), CompletionEffects(name, now))
    {
      ghost var s2 := State();
      Perform(RemoveLocalDir);
      Perform(DeletePrefix(RawMp4(name)));
      Perform(DeletePrefix(RawPng(name)));
      Perform(WriteRecord(MarkComplete(now)));
      var a := [RemoveLocalDir, DeletePrefix(RawMp4(name))];
      var b := [DeletePrefix(RawPng(name)), WriteRecord(MarkComplete(now))];
      assert a + b == CompletionEffects(name, now);
      ApplyAllAppend(s2, a, b);
      ApplyTwo(s2, a[0], a[1]);
      ApplyTwo(ApplyAll(s2, a), b[0], b[1]);
    }

    method OnEnd(entries: seq<string>, masterUploaded: bool, upload: UploadOutcome, now: int)
      modifies this
      ensures State() == Step(name, old(State()), End(entries, masterUploaded, upload, now))
    {
      ghost var s0 := State();
      if !localDir {
        return;
      }
      Perform(WriteLocal(MasterFile));
      if !masterUploaded {
        ApplyOne(s0, WriteLocal(MasterFile));
        return;
      }
      Perform(UploadObject(RemotePath(name, MasterFile)));
      ApplyTwo(s0, WriteLocal(MasterFile), UploadObject(RemotePath(name, MasterFile)));
      match upload {
        case AllUploaded => UploadFiles(entries);
        case UploadFailed(late) => CatchUploadFailure(late, now);
      }
      Complete(now);
      EndSplits(name, s0, entries, upload, now);
    }

    method OnError(now: int)
      modifies this
      ensures State() == Step(name, old(State()), Error(now))
    {
      ghost var s0 := State();
      ghost var head: seq<Effect> := [];
      if !canceled {
        Perform(BuildQuery(MarkFailed(now)));
        ApplyOne(s0, BuildQuery(MarkFailed(now)));
        head := [BuildQuery(MarkFailed(now))];
      }
      Perform(RemoveLocalDir);
      ApplyAllSnoc(s0, head, RemoveLocalDir);
      head := head + [RemoveLocalDir];
      DeleteOutputs();
      ApplyAllAppend(s0, head, Purge(name));
      assert head + Purge(name) == ErrorEffects(name, s0.canceled, now);
    }
  }
}
