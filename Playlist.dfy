/**
 * The HLS master playlist written by `createMasterPlaylist`
 * (controllers/transcoder.js): the `#EXTM3U` header tag (section 4.3.1.1 of
 * RFC 8216), then per selected rung an `#EXT-X-STREAM-INF` tag with the
 * BANDWIDTH and RESOLUTION attributes (section 4.3.4.2 of RFC 8216) followed by
 * the URI line of that rung's media playlist.
 */
module Playlist {
  import opened Strings
  import opened Ladder

  /** The `#EXT-X-STREAM-INF` tag line of one rung, without its line feed. */
  function StreamInf(r: Rung): string
  {
    "#EXT-X-STREAM-INF:BANDWIDTH=" + r.bandwidth + ",RESOLUTION=" + r.resolution
  }

  /** The two lines one rung contributes: its tag, then its playlist URI. */
  function Entry(r: Rung): string
  {
    StreamInf(r) + "\n" + r.playlistFile + "\n"
  }

  function Entries(rungs: seq<Rung>): string
  {
    if rungs == [] then "" else Entry(rungs[0]) + Entries(rungs[1..])
  }

  /** The specification of the playlist text. */
  function MasterPlaylist(rungs: seq<Rung>): string
  {
    "#EXTM3U\n" + Entries(rungs)
  }

  /** The lines of the entries, in order: tag, URI, tag, URI, ... */
  function EntryLines(rungs: seq<Rung>): (lines: seq<string>)
    ensures |lines| == 2 * |rungs|
    ensures forall i :: 0 <= i < |rungs| ==> lines[2 * i] == StreamInf(rungs[i]) && lines[2 * i + 1] == rungs[i].playlistFile
  {
    if rungs == [] then []
    else
      var rest := EntryLines(rungs[1..]);
      assert forall i :: 1 <= i < |rungs| ==> rest[2 * (i - 1)] == StreamInf(rungs[i]);
      [StreamInf(rungs[0]), rungs[0].playlistFile] + rest
  }

  /** No attribute value or URI of the rungs holds a line feed. */
  predicate SingleLine(rungs: seq<Rung>)
  {
    forall i :: 0 <= i < |rungs| ==>
      '\n' !in rungs[i].bandwidth && '\n' !in rungs[i].resolution && '\n' !in rungs[i].playlistFile
  }

  /** Playlists of concatenated rung lists concatenate their entries. */
  lemma {:induction false} EntriesAppend(a: seq<Rung>, b: seq<Rung>)
    ensures Entries(a + b) == Entries(a) + Entries(b)
  {
    if a != [] {
      assert (a + b)[0] == a[0] && (a + b)[1..] == a[1..] + b;
      EntriesAppend(a[1..], b);
    } else {
      assert a + b == b;
    }
  }

  /** build(a ++ b) is build(a) followed by b's lines. */
  lemma PlaylistAppend(a: seq<Rung>, b: seq<Rung>)
    ensures MasterPlaylist(a + b) == MasterPlaylist(a) + Entries(b)
  {
    EntriesAppend(a, b);
  }

  lemma {:induction false} SplitEntries(rungs: seq<Rung>)
    requires SingleLine(rungs)
    ensures Split(Entries(rungs), '\n') == EntryLines(rungs) + [""]
  {
    if rungs != [] {
      var r := rungs[0];
      assert SingleLine(rungs[1..]) by {
        forall i | 0 <= i < |rungs[1..]| ensures '\n' !in rungs[1..][i].playlistFile {
          assert rungs[1..][i] == rungs[i + 1];
        }
      }
      SplitEntries(rungs[1..]);
      SplitEntry(r, Entries(rungs[1..]));
    }
  }

  /** One entry reads back as its tag line and its URI line. */
  lemma SplitEntry(r: Rung, rest: string)
    requires '\n' !in r.bandwidth && '\n' !in r.resolution && '\n' !in r.playlistFile
    ensures Split(Entry(r) + rest, '\n') == [StreamInf(r), r.playlistFile] + Split(rest, '\n')
  {
    assert '\n' !in StreamInf(r) by {
      assert '\n' !in "#EXT-X-STREAM-INF:BANDWIDTH=" && '\n' !in ",RESOLUTION=";
    }
    assert Entry(r) + rest == StreamInf(r) + ['\n'] + (r.playlistFile + ['\n'] + rest);
    SplitAtSeparator(StreamInf(r), '\n', r.playlistFile + ['\n'] + rest);
    SplitAtSeparator(r.playlistFile, '\n', rest);
  }

  /**
   * Read back line by line, the playlist is the header, then tag and URI per
   * rung in order, then the empty remainder after the final line feed: 1 + 2n
   * terminated lines.
   */
  lemma PlaylistLines(rungs: seq<Rung>)
    requires SingleLine(rungs)
    ensures Split(MasterPlaylist(rungs), '\n') == ["#EXTM3U"] + EntryLines(rungs) + [""]
    ensures |Split(MasterPlaylist(rungs), '\n')| == 2 * |rungs| + 2
  {
    SplitEntries(rungs);
    assert MasterPlaylist(rungs) == "#EXTM3U" + ['\n'] + Entries(rungs);
    SplitAtSeparator("#EXTM3U", '\n', Entries(rungs));
  }

  lemma OneLine240()
    ensures '\n' !in Rung240.bandwidth && '\n' !in Rung240.resolution && '\n' !in Rung240.playlistFile
  {
  }

  lemma OneLine360()
    ensures '\n' !in Rung360.bandwidth && '\n' !in Rung360.resolution && '\n' !in Rung360.playlistFile
  {
  }

  lemma OneLine720()
    ensures '\n' !in Rung720.bandwidth && '\n' !in Rung720.resolution && '\n' !in Rung720.playlistFile
  {
  }

  lemma OneLine1080()
    ensures '\n' !in Rung1080.bandwidth && '\n' !in Rung1080.resolution && '\n' !in Rung1080.playlistFile
  {
  }

  lemma OneLine1440()
    ensures '\n' !in Rung1440.bandwidth && '\n' !in Rung1440.resolution && '\n' !in Rung1440.playlistFile
  {
  }

  lemma OneLine4k()
    ensures '\n' !in Rung4k.bandwidth && '\n' !in Rung4k.resolution && '\n' !in Rung4k.playlistFile
  {
  }

  /** No field of the ladder holds a line feed. */
  lemma StreamsSingleLine()
    ensures SingleLine(Streams)
  {
    forall i | 0 <= i < |Streams|
      ensures '\n' !in Streams[i].bandwidth && '\n' !in Streams[i].resolution && '\n' !in Streams[i].playlistFile
    {
      if i == 0 { OneLine240(); }
      else if i == 1 { OneLine360(); }
      else if i == 2 { OneLine720(); }
      else if i == 3 { OneLine1080(); }
      else if i == 4 { OneLine1440(); }
      else { OneLine4k(); }
    }
  }

  /** The playlist of any source has 2 lines per selected rung, plus the header and the empty remainder. */
  lemma LadderPlaylistLines(sourceHeight: int)
    ensures |Split(MasterPlaylist(Select(sourceHeight, Streams)), '\n')| == 2 * RungsFor(sourceHeight) + 2
  {
    SelectStreams(sourceHeight);
    StreamsSingleLine();
    var sel := Select(sourceHeight, Streams);
    assert SingleLine(sel) by {
      forall i | 0 <= i < |sel|
        ensures '\n' !in sel[i].bandwidth && '\n' !in sel[i].resolution && '\n' !in sel[i].playlistFile
      {
        assert sel[i] == Streams[i];
      }
    }
    PlaylistLines(sel);
  }

  lemma PlaylistOfTwo(a: Rung, b: Rung)
    ensures MasterPlaylist([a, b]) == "#EXTM3U\n" + Entry(a) + Entry(b)
  {
    assert [a, b][1..] == [b] && [b][1..] == [];
    assert Entries([b]) == Entry(b) + Entries([]);
  }

  lemma StreamInf240()
    ensures StreamInf(Rung240) == "#EXT-X-STREAM-INF:BANDWIDTH=500000,RESOLUTION=426x240"
  {
  }

  lemma Entry240()
    ensures Entry(Streams[0]) == "#EXT-X-STREAM-INF:BANDWIDTH=500000,RESOLUTION=426x240\n240p.m3u8\n"
  {
    StreamInf240();
    assert Entry(Streams[0]) == "#EXT-X-STREAM-INF:BANDWIDTH=500000,RESOLUTION=426x240" + "\n" + "240p.m3u8" + "\n";
  }

  lemma StreamInf360()
    ensures StreamInf(Rung360) == "#EXT-X-STREAM-INF:BANDWIDTH=1000000,RESOLUTION=640x360"
  {
  }

  lemma Entry360()
    ensures Entry(Streams[1]) == "#EXT-X-STREAM-INF:BANDWIDTH=1000000,RESOLUTION=640x360\n360p.m3u8\n"
  {
    StreamInf360();
    assert Entry(Streams[1]) == "#EXT-X-STREAM-INF:BANDWIDTH=1000000,RESOLUTION=640x360" + "\n" + "360p.m3u8" + "\n";
  }

  /** The playlist of the two lowest rungs, as bytes. */
  lemma TwoRungPlaylist()
    ensures MasterPlaylist(Streams[..2]) ==
      "#EXTM3U\n"
      + "#EXT-X-STREAM-INF:BANDWIDTH=500000,RESOLUTION=426x240\n240p.m3u8\n"
      + "#EXT-X-STREAM-INF:BANDWIDTH=1000000,RESOLUTION=640x360\n360p.m3u8\n"
  {
    assert Streams[..2] == [Streams[0], Streams[1]];
    PlaylistOfTwo(Streams[0], Streams[1]);
    Entry240();
    Entry360();
  }

  /** With no selected rung the playlist is the header alone. */
  lemma EmptyPlaylist()
    ensures MasterPlaylist([]) == "#EXTM3U\n"
  {
  }

  /**
   * `createMasterPlaylist`'s text: starts from the header and appends, with
   * `+=` per rung, the rung's tag line and its URI line.
   */
  method CreateMasterPlaylist(filteredStreams: seq<Rung>) returns (content: string)
    ensures content == MasterPlaylist(filteredStreams)
  {
    content := "#EXTM3U\n";
    for i := 0 to |filteredStreams|
      invariant content == MasterPlaylist(filteredStreams[..i])
    {
      var stream := filteredStreams[i];
      content := content + "#EXT-X-STREAM-INF:BANDWIDTH=" + stream.bandwidth + ",RESOLUTION=" + stream.resolution + "\n";
      content := content + stream.playlistFile + "\n";
      assert filteredStreams[..i + 1] == filteredStreams[..i] + [stream];
      PlaylistAppend(filteredStreams[..i], [stream]);
    }
    assert filteredStreams[..|filteredStreams|] == filteredStreams;
  }
}
