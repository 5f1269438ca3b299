/**
 * The rendition ladder of controllers/transcoder.js: the fixed `streams`
 * table, the container allow-list (`handleExtension`), the filter that keeps
 * the rungs a source is tall enough for, and the per-rung target size.
 */
module Ladder {
  import opened Wrappers
  import opened Strings

  /** One entry of `streams`. */
  datatype Rung = Rung(bandwidth: string, resolution: string, playlistFile: string, outputOptions: seq<string>)

  const Rung240 := Rung("500000", "426x240", "240p.m3u8",
                        ["-b:v", "400k", "-maxrate", "500k", "-bufsize", "1000k", "-b:a", "64k"])
  const Rung360 := Rung("1000000", "640x360", "360p.m3u8",
                        ["-b:v", "800k", "-maxrate", "1000k", "-bufsize", "2000k", "-b:a", "96k"])
  const Rung720 := Rung("3000000", "1280x720", "720p.m3u8",
                        ["-b:v", "2500k", "-maxrate", "3000k", "-bufsize", "6000k", "-b:a", "128k"])
  const Rung1080 := Rung("6000000", "1920x1080", "1080p.m3u8",
                         ["-b:v", "5000k", "-maxrate", "6000k", "-bufsize", "12000k", "-b:a", "192k"])
  const Rung1440 := Rung("12000000", "2560x1440", "1440p.m3u8",
                         ["-b:v", "10000k", "-maxrate", "12000k", "-bufsize", "24000k", "-b:a", "192k"])
  const Rung4k := Rung("30000000", "3840x2160", "4k.m3u8",
                       ["-b:v", "25000k", "-maxrate", "30000k", "-bufsize", "60000k", "-b:a", "192k"])

  /** The ladder, from 240p to 4K, in the order the source lists it. */
  const Streams: seq<Rung> := [Rung240, Rung360, Rung720, Rung1080, Rung1440, Rung4k]

  /** The vertical part of each rung's `resolution`, in ladder order. */
  const NominalHeights: seq<nat> := [240, 360, 720, 1080, 1440, 2160]

  /** The smallest source side `transcoderVideo` accepts. */
  const MinDimension: nat := 144

  /**
   * `handleExtension(video.type)`: the file extension of an accepted container,
   * or the BadRequest message. `None` is an undefined `type`.
   */
  function HandleExtension(mimetype: Option<string>): (r: Result<string, string>)
    ensures r.Ok? <==> mimetype == Some("video/mp4") || mimetype == Some("video/quicktime")
    ensures mimetype == Some("video/mp4") ==> r == Ok("mp4")
    ensures mimetype == Some("video/quicktime") ==> r == Ok("mov")
    ensures r.Err? ==> r.error == "Only .mp4 and .mov videos are accepted"
  {
    if mimetype == Some("video/mp4") then Ok("mp4")
    else if mimetype == Some("video/quicktime") then Ok("mov")
    else Err("Only .mp4 and .mov videos are accepted")
  }

  /**
   * The vertical part of a `resolution` such as "1280x720": the number after
   * the first "x" (`resolution.split("x")[1]`), or NaN when there is none.
   */
  function RungHeight(r: Rung): Option<int>
  {
    VerticalPart(r.resolution)
  }

  function VerticalPart(resolution: string): Option<int>
  {
    var parts := Split(resolution, 'x');
    if |parts| < 2 then None else ParseInt(parts[1])
  }

  /**
   * `sourceHeight >= resolution.split("x")[1]`; a comparison with NaN is false.
   * JavaScript converts the string with `Number`, not `parseInt`: the two agree
   * on every rung of the ladder, but not on an empty vertical part (`Number("")`
   * is 0) or one with trailing text (`Number("240p")` is NaN).
   */
  predicate Keeps(sourceHeight: int, r: Rung)
  {
    RungHeight(r).Some? && sourceHeight >= RungHeight(r).value
  }

  /** `streams.filter(x => sourceHeight >= x.resolution.split("x")[1])`. */
  function Select(sourceHeight: int, ladder: seq<Rung>): seq<Rung>
  {
    if ladder == [] then []
    else (if Keeps(sourceHeight, ladder[0]) then [ladder[0]] else []) + Select(sourceHeight, ladder[1..])
  }

  /** `filteredStreams.map(x => x.resolution)`: the `streams` field of the job record. */
  function Resolutions(rungs: seq<Rung>): (r: seq<string>)
    ensures |r| == |rungs|
    ensures forall i :: 0 <= i < |rungs| ==> r[i] == rungs[i].resolution
  {
    if rungs == [] then [] else [rungs[0].resolution] + Resolutions(rungs[1..])
  }

  /** A rung is selected iff it is on the ladder and the source is at least as tall. */
  lemma {:induction false} SelectMembership(sourceHeight: int, ladder: seq<Rung>, r: Rung)
    ensures r in Select(sourceHeight, ladder) <==> r in ladder && Keeps(sourceHeight, r)
  {
    if ladder != [] {
      SelectMembership(sourceHeight, ladder[1..], r);
      assert ladder == [ladder[0]] + ladder[1..];
    }
  }

  /** Heights that parse and strictly increase along the ladder. */
  predicate Increasing(ladder: seq<Rung>)
  {
    (forall i :: 0 <= i < |ladder| ==> RungHeight(ladder[i]).Some?)
    && forall i, j :: 0 <= i < j < |ladder| ==> RungHeight(ladder[i]).value < RungHeight(ladder[j]).value
  }

  lemma {:induction false} NoneKept(sourceHeight: int, ladder: seq<Rung>)
    requires forall i :: 0 <= i < |ladder| ==> !Keeps(sourceHeight, ladder[i])
    ensures Select(sourceHeight, ladder) == []
  {
    if ladder != [] {
      NoneKept(sourceHeight, ladder[1..]);
    }
  }

  lemma IncreasingTail(ladder: seq<Rung>)
    requires Increasing(ladder) && ladder != []
    ensures Increasing(ladder[1..])
  {
    var tail := ladder[1..];
    forall i, j | 0 <= i < j < |tail|
      ensures RungHeight(tail[i]).value < RungHeight(tail[j]).value
    {
      assert tail[i] == ladder[i + 1] && tail[j] == ladder[j + 1];
    }
  }

  /** The filter result and its split point, as the prefix lemma states them. */
  predicate PrefixSplit(sourceHeight: int, ladder: seq<Rung>)
  {
    var k := |Select(sourceHeight, ladder)|;
    k <= |ladder| && Select(sourceHeight, ladder) == ladder[..k]
    && (forall i :: 0 <= i < k ==> Keeps(sourceHeight, ladder[i]))
    && (forall i :: k <= i < |ladder| ==> !Keeps(sourceHeight, ladder[i]))
  }

  /**
   * On a ladder with increasing heights the filter keeps a prefix: exactly the
   * rungs the source is tall enough for, in ladder order.
   */
  lemma {:induction false} SelectIsPrefix(sourceHeight: int, ladder: seq<Rung>)
    requires Increasing(ladder)
    ensures var k := |Select(sourceHeight, ladder)|;
      k <= |ladder| && Select(sourceHeight, ladder) == ladder[..k]
      && (forall i :: 0 <= i < k ==> Keeps(sourceHeight, ladder[i]))
      && (forall i :: k <= i < |ladder| ==> !Keeps(sourceHeight, ladder[i]))
  {
    if ladder != [] {
      var tail := ladder[1..];
      IncreasingTail(ladder);
      if Keeps(sourceHeight, ladder[0]) {
        SelectIsPrefix(sourceHeight, tail);
        KeptHead(sourceHeight, ladder);
      } else {
        forall i | 0 <= i < |tail| ensures !Keeps(sourceHeight, tail[i]) {
          assert tail[i] == ladder[i + 1];
        }
        NoneKept(sourceHeight, tail);
      }
    }
  }

  /** A kept first rung extends the prefix the filter keeps of the rest. */
  lemma KeptHead(sourceHeight: int, ladder: seq<Rung>)
    requires ladder != [] && Keeps(sourceHeight, ladder[0]) && PrefixSplit(sourceHeight, ladder[1..])
    ensures PrefixSplit(sourceHeight, ladder)
  {
    var k := |Select(sourceHeight, ladder[1..])|;
    assert Select(sourceHeight, ladder) == [ladder[0]] + Select(sourceHeight, ladder[1..]);
    ConsPrefix(ladder, k);
    KeptShift(sourceHeight, ladder, k);
    DroppedShift(sourceHeight, ladder, k);
  }

  lemma ConsPrefix(ladder: seq<Rung>, k: nat)
    requires k < |ladder|
    ensures ladder[..k + 1] == [ladder[0]] + ladder[1..][..k]
  {
  }

  lemma KeptShift(sourceHeight: int, ladder: seq<Rung>, k: nat)
    requires k < |ladder| && Keeps(sourceHeight, ladder[0])
    requires forall i :: 0 <= i < k ==> Keeps(sourceHeight, ladder[1..][i])
    ensures forall i :: 0 <= i < k + 1 ==> Keeps(sourceHeight, ladder[i])
  {
    forall i | 0 < i < k + 1 ensures Keeps(sourceHeight, ladder[i]) {
      assert ladder[i] == ladder[1..][i - 1];
    }
  }

  lemma DroppedShift(sourceHeight: int, ladder: seq<Rung>, k: nat)
    requires k < |ladder|
    requires forall i :: k <= i < |ladder| - 1 ==> !Keeps(sourceHeight, ladder[1..][i])
    ensures forall i :: k + 1 <= i < |ladder| ==> !Keeps(sourceHeight, ladder[i])
  {
    forall i | k + 1 <= i < |ladder| ensures !Keeps(sourceHeight, ladder[i]) {
      assert ladder[i] == ladder[1..][i - 1];
    }
  }

  /** The height of a `WxH` resolution whose two parts are digit strings. */
  lemma ResolutionHeight(w: string, h: string)
    requires w != [] && h != [] && AllDigits(w) && AllDigits(h)
    ensures VerticalPart(w + ['x'] + h) == Some(DigitsValue(h))
  {
    assert 'x' !in w && 'x' !in h by {
      assert !IsDigit('x');
    }
    SplitAtSeparator(w, 'x', h);
    SplitNoSeparator(h, 'x');
    ParseIntDigits(h);
  }

  lemma RungVertical(r: Rung, w: string, h: string, v: nat)
    requires w != [] && h != [] && AllDigits(w) && AllDigits(h)
    requires r.resolution == w + ['x'] + h && DigitsValue(h) == v
    ensures RungHeight(r) == Some(v)
  {
    ResolutionHeight(w, h);
  }

  lemma Digits3(s: string)
    requires |s| == 3 && AllDigits(s)
    ensures DigitsValue(s) == 100 * DigitValue(s[0]) + 10 * DigitValue(s[1]) + DigitValue(s[2])
  {
    assert s[..2][..1] == s[..1] && s[..1][..0] == [];
    assert DigitsValue(s[..1]) == DigitValue(s[0]);
    assert DigitsValue(s[..2]) == 10 * DigitValue(s[0]) + DigitValue(s[1]);
  }

  lemma Digits4(s: string)
    requires |s| == 4 && AllDigits(s)
    ensures DigitsValue(s) == 1000 * DigitValue(s[0]) + 100 * DigitValue(s[1]) + 10 * DigitValue(s[2]) + DigitValue(s[3])
  {
    Digits3(s[..3]);
    assert s[..3][0] == s[0] && s[..3][1] == s[1] && s[..3][2] == s[2];
  }

  lemma Height0() ensures RungHeight(Streams[0]) == Some(240)
  {
    Digits3("240");
    RungVertical(Streams[0], "426", "240", 240);
  }

  lemma Height1() ensures RungHeight(Streams[1]) == Some(360)
  {
    Digits3("360");
    RungVertical(Streams[1], "640", "360", 360);
  }

  lemma Height2() ensures RungHeight(Streams[2]) == Some(720)
  {
    Digits3("720");
    RungVertical(Streams[2], "1280", "720", 720);
  }

  lemma Height3() ensures RungHeight(Streams[3]) == Some(1080)
  {
    Digits4("1080");
    RungVertical(Streams[3], "1920", "1080", 1080);
  }

  lemma Height4() ensures RungHeight(Streams[4]) == Some(1440)
  {
    Digits4("1440");
    RungVertical(Streams[4], "2560", "1440", 1440);
  }

  lemma Height5() ensures RungHeight(Streams[5]) == Some(2160)
  {
    Digits4("2160");
    RungVertical(Streams[5], "3840", "2160", 2160);
  }

  /** The vertical parts of the ladder's resolutions are 240, 360, 720, 1080, 1440 and 2160. */
  lemma StreamsHeights()
    ensures forall i :: 0 <= i < |Streams| ==> RungHeight(Streams[i]) == Some(NominalHeights[i])
  {
    forall i | 0 <= i < |Streams| ensures RungHeight(Streams[i]) == Some(NominalHeights[i]) {
      if i == 0 { Height0(); }
      else if i == 1 { Height1(); }
      else if i == 2 { Height2(); }
      else if i == 3 { Height3(); }
      else if i == 4 { Height4(); }
      else { Height5(); }
    }
  }

  /** The ladder's heights strictly increase. */
  lemma StreamsIncreasing()
    ensures Increasing(Streams)
  {
    StreamsHeights();
    assert forall i, j :: 0 <= i < j < |NominalHeights| ==> NominalHeights[i] < NominalHeights[j];
  }

  /** How many rungs a source of the given height is tall enough for. */
  function RungsFor(sourceHeight: int): nat
  {
    if sourceHeight < 240 then 0
    else if sourceHeight < 360 then 1
    else if sourceHeight < 720 then 2
    else if sourceHeight < 1080 then 3
    else if sourceHeight < 1440 then 4
    else if sourceHeight < 2160 then 5
    else 6
  }

  /**
   * The selected rungs are the first `RungsFor(h)` entries of `streams`: every
   * rung whose vertical resolution is at most the source height, in ladder order.
   */
  lemma SelectStreams(sourceHeight: int)
    ensures Select(sourceHeight, Streams) == Streams[..RungsFor(sourceHeight)]
    ensures forall i :: 0 <= i < |Streams| ==> (Streams[i] in Select(sourceHeight, Streams) <==> NominalHeights[i] <= sourceHeight)
  {
    StreamsIncreasing();
    SelectIsPrefix(sourceHeight, Streams);
    var k := |Select(sourceHeight, Streams)|;
    KeepsStreams(sourceHeight);
    PrefixLength(sourceHeight, k);
    forall i | 0 <= i < |Streams|
      ensures Streams[i] in Select(sourceHeight, Streams) <==> NominalHeights[i] <= sourceHeight
    {
      SelectMembership(sourceHeight, Streams, Streams[i]);
    }
  }

  lemma PrefixLength(sourceHeight: int, k: nat)
    requires k <= |NominalHeights|
    requires forall i :: 0 <= i < k ==> NominalHeights[i] <= sourceHeight
    requires forall i :: k <= i < |NominalHeights| ==> NominalHeights[i] > sourceHeight
    ensures k == RungsFor(sourceHeight)
  {
    var r := RungsFor(sourceHeight);
    if r < |NominalHeights| {
      assert NominalHeights[r] > sourceHeight;
    }
    if r > 0 {
      assert NominalHeights[r - 1] <= sourceHeight;
    }
    assert forall i, j :: 0 <= i < j < |NominalHeights| ==> NominalHeights[i] < NominalHeights[j];
  }

  lemma KeepsStreams(sourceHeight: int)
    ensures forall i :: 0 <= i < |Streams| ==> (Keeps(sourceHeight, Streams[i]) <==> NominalHeights[i] <= sourceHeight)
  {
    StreamsHeights();
  }

  /** A source between 144 and 239 pixels tall passes the size check yet selects no rung. */
  lemma ShortSourceSelectsNothing(sourceHeight: int)
    requires MinDimension <= sourceHeight < 240
    ensures Select(sourceHeight, Streams) == []
  {
    SelectStreams(sourceHeight);
  }

  /**
   * `Math.round(targetHeight * (width / height))` with the aspect ratio kept as
   * the exact fraction width/height: the nearest integer, halves rounded up.
   */
  function TargetWidth(targetHeight: nat, width: nat, height: nat): (w: int)
    requires height > 0
    ensures -(height as int) < 2 * (w * height - targetHeight * width) <= height
  {
    var n := targetHeight * width;
    var q := (2 * n + height) / (2 * height);
    assert 2 * height * q <= 2 * n + height < 2 * height * q + 2 * height;
    q
  }

  /** Exactly one integer is within half a pixel of the ideal width with halves going up. */
  lemma TargetWidthUnique(targetHeight: nat, width: nat, height: nat, w: int)
    requires height > 0
    requires -(height as int) < 2 * (w * height - targetHeight * width) <= height
    ensures w == TargetWidth(targetHeight, width, height)
  {
    var t := TargetWidth(targetHeight, width, height);
    // both w * height and t * height lie within half a height of targetHeight * width
    if w < t {
      StepApart(w, t, height);
    } else if w > t {
      StepApart(t, w, height);
    }
  }

  lemma StepApart(a: int, b: int, h: nat)
    requires a < b
    ensures a * h + h <= b * h
  {
    var d := b - a;
    assert d * h >= h by {
      assert d >= 1;
    }
    assert b * h == a * h + d * h;
  }

  /** The size one selected rung is encoded at: its own height and a width from the source's aspect ratio. */
  datatype Size = Size(width: int, height: int)

  function TargetSize(targetHeight: nat, width: nat, height: nat): (s: Size)
    requires height > 0
    ensures s.height == targetHeight
    ensures -(height as int) < 2 * (s.width * height - targetHeight * width) <= height
  {
    Size(TargetWidth(targetHeight, width, height), targetHeight)
  }

  /**
   * The ladder's nominal widths play no part: a 16:9 source gets 427 px at
   * 240p (not 426), a portrait 1080x1920 source gets 405 px at 720p.
   */
  lemma NominalWidthIgnored()
    ensures TargetSize(240, 1920, 1080) == Size(427, 240)
    ensures TargetSize(720, 1920, 1080) == Size(1280, 720)
    ensures TargetSize(720, 1080, 1920) == Size(405, 720)
  {
    TargetWidthUnique(240, 1920, 1080, 427);
    TargetWidthUnique(720, 1920, 1080, 1280);
    TargetWidthUnique(720, 1080, 1920, 405);
  }
}
