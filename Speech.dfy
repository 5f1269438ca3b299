/**
 * `processSpeechToTextResponse` (controllers/transcoder.js): the words of each
 * result's first alternative, in order. A result without alternatives makes
 * `alternatives[0].words` throw a TypeError.
 */
module Speech {
  import opened Wrappers

  /** A time as the Speech API sends it; `parseTime`'s float conversion is not modelled. */
  datatype TimeValue = TimeText(text: string) | Duration(seconds: string, nanos: int) | OtherTime

  datatype WordInfo = WordInfo(word: string, startTime: TimeValue, endTime: TimeValue)
  datatype Alternative = Alternative(words: seq<WordInfo>)
  datatype SpeechResult = SpeechResult(alternatives: seq<Alternative>)

  /** One entry of the transcription file. */
  datatype TimedWord = TimedWord(word: string, startTime: TimeValue, endTime: TimeValue)

  function Timed(w: WordInfo): TimedWord
  {
    TimedWord(w.word, w.startTime, w.endTime)
  }

  function TimedAll(words: seq<WordInfo>): (r: seq<TimedWord>)
    ensures |r| == |words| && forall k :: 0 <= k < |words| ==> r[k] == Timed(words[k])
  {
    if words == [] then [] else TimedAll(words[..|words| - 1]) + [Timed(words[|words| - 1])]
  }

  /** Every result has a first alternative, so reading its words cannot throw. */
  predicate Transcribable(results: seq<SpeechResult>)
  {
    forall i :: 0 <= i < |results| ==> results[i].alternatives != []
  }

  /** The words of each result's first alternative, in response order. */
  function Transcript(results: seq<SpeechResult>): seq<TimedWord>
    requires Transcribable(results)
  {
    if results == [] then []
    else
      var last := results[|results| - 1];
      Transcript(results[..|results| - 1]) + TimedAll(last.alternatives[0].words)
  }

  /** The transcription, or None when reading a missing alternative throws. */
  function Flatten(results: seq<SpeechResult>): (r: Option<seq<TimedWord>>)
    ensures r.None? <==> exists i :: 0 <= i < |results| && results[i].alternatives == []
  {
    if Transcribable(results) then Some(Transcript(results)) else None
  }

  /** A response split in two transcribes to the two transcriptions one after the other. */
  lemma {:induction false} TranscriptAppend(a: seq<SpeechResult>, b: seq<SpeechResult>)
    requires Transcribable(a) && Transcribable(b)
    ensures Transcribable(a + b) && Transcript(a + b) == Transcript(a) + Transcript(b)
    decreases |b|
  {
    if b == [] {
      assert a + b == a;
    } else {
      var init, last := b[..|b| - 1], b[|b| - 1];
      assert Transcribable(init) by {
        forall i | 0 <= i < |init| ensures init[i].alternatives != [] {
          assert init[i] == b[i];
        }
      }
      TranscriptAppend(a, init);
      assert (a + b)[..|a + b| - 1] == a + init && (a + b)[|a + b| - 1] == last;
      AppendAssoc(Transcript(a), Transcript(init), TimedAll(last.alternatives[0].words));
    }
  }

  /** A response split in two transcribes to the two transcriptions one after the other. */
  lemma FlattenAppend(a: seq<SpeechResult>, b: seq<SpeechResult>)
    requires Flatten(a).Some? && Flatten(b).Some?
    ensures Flatten(a + b) == Some(Flatten(a).value + Flatten(b).value)
  {
    TranscriptAppend(a, b);
  }

  lemma AppendAssoc<T>(x: seq<T>, y: seq<T>, z: seq<T>)
    ensures x + (y + z) == (x + y) + z
  {
  }

  /** The nested `forEach` that pushes one entry per word of each first alternative. */
  method ProcessSpeechToTextResponse(results: seq<SpeechResult>) returns (r: Option<seq<TimedWord>>)
    ensures r == Flatten(results)
  {
    var wordsWithTimestamps: seq<TimedWord> := [];
    for i := 0 to |results|
      invariant Transcribable(results[..i]) && Transcript(results[..i]) == wordsWithTimestamps
    {
      if results[i].alternatives == [] {
        // reading `words` of the undefined first alternative throws
        return None;
      }
      var words := results[i].alternatives[0].words;
      ghost var before := wordsWithTimestamps;
      for k := 0 to |words|
        invariant wordsWithTimestamps == before + TimedAll(words[..k])
      {
        var wordInfo := words[k];
        TimedAllSnoc(words, k);
        AppendAssoc(before, TimedAll(words[..k]), [Timed(wordInfo)]);
        wordsWithTimestamps := wordsWithTimestamps + [TimedWord(wordInfo.word, wordInfo.startTime, wordInfo.endTime)];
      }
      assert words[..|words|] == words;
      TranscriptSnoc(results, i);
    }
    assert results[..|results|] == results;
    r := Some(wordsWithTimestamps);
  }

  lemma TimedAllSnoc(words: seq<WordInfo>, k: nat)
    requires k < |words|
    ensures TimedAll(words[..k + 1]) == TimedAll(words[..k]) + [Timed(words[k])]
  {
    assert words[..k + 1][..k] == words[..k];
  }

  /** The transcription of one more result is the old one followed by that result's words. */
  lemma TranscriptSnoc(results: seq<SpeechResult>, i: nat)
    requires i < |results| && results[i].alternatives != [] && Transcribable(results[..i])
    ensures Transcribable(results[..i + 1])
    ensures Transcript(results[..i + 1]) == Transcript(results[..i]) + TimedAll(results[i].alternatives[0].words)
  {
    var p := results[..i + 1];
    assert p[..i] == results[..i] && p[i] == results[i];
  }

  /** Once a prefix has a result without alternatives, so has the whole response. */
  lemma FlattenNone(a: seq<SpeechResult>, b: seq<SpeechResult>)
    requires Flatten(a).None?
    ensures Flatten(a + b).None?
  {
    var i :| 0 <= i < |a| && a[i].alternatives == [];
    assert (a + b)[i] == a[i];
  }
}
