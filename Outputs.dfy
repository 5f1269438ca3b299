/**
 * The output list `processVideo` puts on the ffmpeg command
 * (controllers/transcoder.js): one HLS rendition per selected rung, at the
 * rung's own height and a width from the source's aspect ratio, then a
 * one-frame thumbnail.
 */
module Outputs {
  import opened Wrappers
  import opened Ladder

  /** The HLS settings every rendition gets after the rung's own options. */
  const HlsOptions: seq<string> := [
    "-hls_list_size", "0", "-hls_time", "2", "-r", "30",
    "-force_key_frames", "expr:gte(t,n_forced*2)", "-sc_threshold", "0"]

  datatype Output =
    | Rendition(file: string, videoCodec: string, audioCodec: string, size: Size, options: seq<string>)
    | Thumbnail(file: string, frames: nat, audio: bool, seek: string)

  const ThumbnailOutput: Output := Thumbnail("thumbnail.png", 1, false, "00:00:03")

  /** The heights of the rungs parse as non-negative numbers, as they do on the ladder. */
  predicate Measurable(rungs: seq<Rung>)
  {
    forall i :: 0 <= i < |rungs| ==> RungHeight(rungs[i]).Some? && RungHeight(rungs[i]).value >= 0
  }

  /** The rendition for one rung: `parseInt` of its vertical part, `Math.round(h * aspect)` wide. */
  function RenditionFor(r: Rung, width: nat, height: nat): (o: Output)
    requires height > 0
    requires RungHeight(r).Some? && RungHeight(r).value >= 0
    ensures o.Rendition? && o.size.height == RungHeight(r).value
    ensures o.options == r.outputOptions + HlsOptions && o.file == r.playlistFile
  {
    Rendition(r.playlistFile, "libx264", "aac", TargetSize(RungHeight(r).value, width, height), r.outputOptions + HlsOptions)
  }

  /** The rendition's width is the rung height times the source's aspect ratio, rounded half up. */
  lemma RenditionWidth(r: Rung, width: nat, height: nat)
    requires height > 0
    requires RungHeight(r).Some? && RungHeight(r).value >= 0
    ensures var o := RenditionFor(r, width, height);
      -(height as int) < 2 * (o.size.width * height - RungHeight(r).value * width) <= height
  {
    var t := TargetSize(RungHeight(r).value, width, height);
  }

  function OutputsFor(rungs: seq<Rung>, width: nat, height: nat): (os: seq<Output>)
    requires height > 0 && Measurable(rungs)
    ensures |os| == |rungs| + 1 && os[|rungs|] == ThumbnailOutput
    ensures forall i :: 0 <= i < |rungs| ==> os[i] == RenditionFor(rungs[i], width, height)
  {
    if rungs == [] then [ThumbnailOutput]
    else [RenditionFor(rungs[0], width, height)] + OutputsFor(rungs[1..], width, height)
  }

  /** The `for` loop over the selected rungs, then the thumbnail. */
  method BuildOutputs(rungs: seq<Rung>, width: nat, height: nat) returns (outputs: seq<Output>)
    requires height > 0 && Measurable(rungs)
    ensures outputs == OutputsFor(rungs, width, height)
  {
    outputs := [];
    for i := 0 to |rungs|
      invariant |outputs| == i
      invariant forall k :: 0 <= k < i ==> outputs[k] == RenditionFor(rungs[k], width, height)
    {
      var config := rungs[i];
      outputs := outputs + [RenditionFor(config, width, height)];
    }
    RenditionsThenThumbnail(rungs, width, height, outputs);
    outputs := outputs + [ThumbnailOutput];
  }

  /** The renditions of the rungs, in order, followed by the thumbnail are the output list. */
  lemma RenditionsThenThumbnail(rungs: seq<Rung>, width: nat, height: nat, renditions: seq<Output>)
    requires height > 0 && Measurable(rungs)
    requires |renditions| == |rungs|
    requires forall k :: 0 <= k < |rungs| ==> renditions[k] == RenditionFor(rungs[k], width, height)
    ensures renditions + [ThumbnailOutput] == OutputsFor(rungs, width, height)
  {
    var os := OutputsFor(rungs, width, height);
    var xs := renditions + [ThumbnailOutput];
    forall k | 0 <= k < |xs| ensures xs[k] == os[k] {
      if k < |rungs| {
        assert xs[k] == renditions[k];
      }
    }
  }

  /** The rungs a source keeps have the ladder's nominal heights, in order. */
  lemma SelectedHeights(sourceHeight: int)
    ensures var sel := Select(sourceHeight, Streams);
      && |sel| == RungsFor(sourceHeight)
      && Measurable(sel)
      && forall i :: 0 <= i < |sel| ==> RungHeight(sel[i]) == Some(NominalHeights[i])
  {
    SelectStreams(sourceHeight);
    StreamsHeights();
    var sel := Select(sourceHeight, Streams);
    assert forall i :: 0 <= i < |sel| ==> sel[i] == Streams[i];
  }

  /**
   * Every rung the filter keeps is measurable, and rendition i of a source of
   * height h is exactly `NominalHeights[i]` tall, with the width the source's
   * aspect ratio gives, rounded half up.
   */
  lemma LadderOutputs(sourceHeight: int, width: nat, height: nat)
    requires height > 0
    ensures Measurable(Select(sourceHeight, Streams))
    ensures var os := OutputsFor(Select(sourceHeight, Streams), width, height);
      && |os| == RungsFor(sourceHeight) + 1
      && forall i :: 0 <= i < RungsFor(sourceHeight) ==>
           os[i].Rendition? && os[i].size.height == NominalHeights[i]
           && -(height as int) < 2 * (os[i].size.width * height - NominalHeights[i] * width) <= height
  {
    var sel := Select(sourceHeight, Streams);
    SelectedHeights(sourceHeight);
    var os := OutputsFor(sel, width, height);
    forall i | 0 <= i < RungsFor(sourceHeight)
      ensures os[i].Rendition? && os[i].size.height == NominalHeights[i]
      ensures -(height as int) < 2 * (os[i].size.width * height - NominalHeights[i] * width) <= height
    {
      RenditionWidth(sel[i], width, height);
    }
  }
}
