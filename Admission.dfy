/**
 * The request-level checks of `transcoderVideo` (controllers/transcoder.js),
 * from the record lookup to the record update that sets `pending_processing`.
 * The download of the raw object, the thumbnail and the ffprobe call are one
 * oracle, `probe`; the bearer-secret check before the lookup is not part of
 * this model. Checks run in the source's order and the first failing one
 * decides the HTTP error.
 */
module Admission {
  import opened Wrappers
  import opened Ladder

  /** The record's `status` field as JavaScript sees it. */
  datatype StatusField = Absent | Text(text: string) | Object(canceled: bool)

  /** The job record found by `findOne`. `mimetype` is its `type` field. */
  datatype VideoDoc = VideoDoc(name: string, mimetype: Option<string>, status: StatusField)

  /** What ffprobe reports; `None` is an undefined dimension. */
  datatype Probe = Probe(height: Option<int>, width: Option<int>, audio: bool)

  datatype Rejection =
    | NotFound(message: string)
    | BadRequest(message: string)
      /** A download, thumbnail or probe failure, passed on to the error handler. */
    | Failure(message: string)

  /** What the record update and the encode session are given. */
  datatype Admitted = Admitted(
    extension: string,
    rawObject: string,
    selected: seq<Rung>,
    streamsField: seq<string>,
    width: int,
    height: int,
    transcribe: bool)

  /**
   * `video?.status?.canceled`: only an object-valued status has that property;
   * on a string it is `undefined`, so a status of "canceled" does not trip it.
   */
  predicate CanceledFlag(status: StatusField)
  {
    status.Object? && status.canceled
  }

  /** `!x || x < 144`: an undefined or zero dimension counts as too small. */
  predicate TooSmall(dimension: Option<int>)
  {
    dimension.None? || dimension.value == 0 || dimension.value < MinDimension
  }

  /** The record exists and the early cancel check lets it through. */
  predicate Found(video: Option<VideoDoc>)
  {
    video.Some? && !CanceledFlag(video.value.status)
  }

  /** Found, with an accepted type, so the download and the probe happen. */
  predicate Probed(video: Option<VideoDoc>)
  {
    Found(video) && HandleExtension(video.value.mimetype).Ok?
  }

  /**
   * The checks in the source's order; each error case names the first check
   * that fails, and an admitted job carries the filtered ladder.
   */
  function Admit(video: Option<VideoDoc>, probe: Result<Probe, string>): (r: Result<Admitted, Rejection>)
    ensures video.None? ==> r == Err(NotFound("video not found"))
    ensures video.Some? && CanceledFlag(video.value.status) ==> r == Err(NotFound("video not found"))
    ensures Found(video) && !Probed(video) ==> r == Err(BadRequest("Only .mp4 and .mov videos are accepted"))
    ensures Probed(video) && probe.Err? ==> r == Err(Failure(probe.error))
    ensures Probed(video) && probe.Ok? && TooSmall(probe.value.height) ==>
      r == Err(BadRequest("Minimum height for a video is 144p"))
    ensures Probed(video) && probe.Ok? && !TooSmall(probe.value.height) && TooSmall(probe.value.width) ==>
      r == Err(BadRequest("Minimum width for a video is 144p"))
    ensures r.Ok? <==>
      && video.Some?
      && !CanceledFlag(video.value.status)
      && HandleExtension(video.value.mimetype).Ok?
      && probe.Ok?
      && !TooSmall(probe.value.height)
      && !TooSmall(probe.value.width)
    ensures r.Err? && r.error.BadRequest? ==>
      r.error.message in {"Only .mp4 and .mov videos are accepted",
                          "Minimum height for a video is 144p",
                          "Minimum width for a video is 144p"}
    ensures r.Ok? ==>
      var h := probe.value.height.value;
      && r.value.height == h >= MinDimension
      && r.value.width == probe.value.width.value >= MinDimension
      && r.value.extension in {"mp4", "mov"}
      && r.value.extension == HandleExtension(video.value.mimetype).value
      && r.value.rawObject == "video/raw/" + video.value.name + "." + r.value.extension
      && r.value.selected == Select(h, Streams)
      && r.value.streamsField == Resolutions(r.value.selected)
      && r.value.transcribe == probe.value.audio
  {
    if video.None? then Err(NotFound("video not found"))
    else if CanceledFlag(video.value.status) then Err(NotFound("video not found"))
    else
      var extension := HandleExtension(video.value.mimetype);
      if extension.Err? then Err(BadRequest(extension.error))
      else if probe.Err? then Err(Failure(probe.error))
      else if TooSmall(probe.value.height) then Err(BadRequest("Minimum height for a video is 144p"))
      else if TooSmall(probe.value.width) then Err(BadRequest("Minimum width for a video is 144p"))
      else
        var h := probe.value.height.value;
        var selected := Select(h, Streams);
        Ok(Admitted(extension.value, "video/raw/" + video.value.name + "." + extension.value,
                    selected, Resolutions(selected), probe.value.width.value, h, probe.value.audio))
  }

  /**
   * An admitted job encodes the first `RungsFor(h)` rungs of the ladder, and
   * its record's `streams` field lists exactly their resolutions in order.
   */
  lemma AdmittedLadder(video: Option<VideoDoc>, probe: Result<Probe, string>)
    requires Probed(video) && probe.Ok? && !TooSmall(probe.value.height) && !TooSmall(probe.value.width)
    ensures var a := Admit(video, probe).value;
      && a.selected == Streams[..RungsFor(a.height)]
      && |a.streamsField| == |a.selected|
      && forall i :: 0 <= i < |a.selected| ==>
           a.streamsField[i] == Streams[i].resolution && NominalHeights[i] <= a.height
  {
    var a := Admit(video, probe).value;
    SelectStreams(a.height);
    forall i | 0 <= i < |a.selected|
      ensures NominalHeights[i] <= a.height
    {
      assert Streams[i] in a.selected;
    }
  }

  /** A 144..239 px tall source passes every check but gets no rendition at all. */
  lemma ShortSourceAdmittedEmpty(name: string, width: int, height: int, audio: bool)
    requires MinDimension <= height < 240 && width >= MinDimension
    ensures var r := Admit(Some(VideoDoc(name, Some("video/mp4"), Absent)), Ok(Probe(Some(height), Some(width), audio)));
      r.Ok? && r.value.selected == [] && r.value.streamsField == []
  {
    ShortSourceSelectsNothing(height);
  }

  /**
   * A record whose status string is "canceled" is not stopped by the early
   * cancel check: it is admitted like any other.
   */
  lemma CanceledStatusStillAdmitted(doc: VideoDoc, probe: Probe)
    requires doc.status == Text("canceled") && doc.mimetype == Some("video/quicktime")
    requires !TooSmall(probe.height) && !TooSmall(probe.width)
    ensures Admit(Some(doc), Ok(probe)).Ok?
    ensures Admit(Some(doc), Ok(probe)).value.rawObject == "video/raw/" + doc.name + ".mov"
  {
  }

  /** An unsupported type is refused before the source is even downloaded. */
  lemma TypeCheckedBeforeDownload(doc: VideoDoc, probe: Result<Probe, string>)
    requires !CanceledFlag(doc.status)
    requires doc.mimetype != Some("video/mp4") && doc.mimetype != Some("video/quicktime")
    ensures Admit(Some(doc), probe) == Err(BadRequest("Only .mp4 and .mov videos are accepted"))
  {
  }

  /** The height is checked before the width. */
  lemma HeightBeforeWidth(doc: VideoDoc, probe: Probe)
    requires !CanceledFlag(doc.status) && HandleExtension(doc.mimetype).Ok?
    requires TooSmall(probe.height)
    ensures Admit(Some(doc), Ok(probe)) == Err(BadRequest("Minimum height for a video is 144p"))
  {
  }
}
