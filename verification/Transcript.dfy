// Transcripts: words with rising identifiers, each over an interval of samples.
module Transcript {
  import opened Options
  import opened TimeMap

  datatype Word = Word(
    id: u64,
    text: string,
    display: string,
    interval: SampleInterval,
    confidence: real,
    timingUnreliable: bool)
  {
    predicate Valid() {
      0.0 <= confidence <= 1.0
    }

    function DisplayText(): string {
      if display == "" then text else display
    }
  }

  // Inverted timing or a confidence outside [0, 1] is refused.
  function NewWord(
    id: u64, text: string, display: string, start: u64, end: u64, confidence: real, unreliable: bool)
    : (r: Option<Word>)
    ensures r.Some? <==> start <= end && 0.0 <= confidence <= 1.0
    ensures r.Some? ==> r.value.Valid()
  {
    if start <= end && 0.0 <= confidence <= 1.0 then
      Some(Word(id, text, display, RawInterval(start, end), confidence, unreliable))
    else None
  }

  datatype RemovalAction = DropSentence | DropWords

  // Category and detection source do not influence any cut.
  datatype SensitiveSpan = SensitiveSpan(startWordId: u64, endWordIdExclusive: u64, action: RemovalAction)

  predicate IncreasingIds(words: seq<Word>) {
    forall i, j :: 0 <= i < j < |words| ==> words[i].id < words[j].id
  }

  datatype FrozenTranscript = FrozenTranscript(
    sessionId: string,
    revision: nat,
    words: seq<Word>,
    sampleRate: nat,
    totalSamples: u64,
    language: string)
  {
    predicate Valid() {
      sampleRate > 0 && IncreasingIds(words) && forall w :: w in words ==> w.Valid()
    }

    function Span(): SampleInterval {
      var lastWordEnd := if words == [] then 0 else words[|words| - 1].interval.end;
      RawInterval(0, Max(totalSamples, lastWordEnd))
    }
  }

  // Freezing checks the sample rate and adjacent identifiers only.
  function NewTranscript(
    sessionId: string, revision: nat, words: seq<Word>, sampleRate: nat, totalSamples: u64, language: string)
    : Option<FrozenTranscript>
  {
    if sampleRate == 0 then None
    else if exists k :: 0 < k < |words| && words[k].id <= words[k - 1].id then None
    else Some(FrozenTranscript(sessionId, revision, words, sampleRate, totalSamples, language))
  }

  lemma {:induction false} AdjacentIncreasing(words: seq<Word>, i: nat, j: nat)
    requires forall k :: 0 < k < |words| ==> words[k - 1].id < words[k].id
    requires i < j < |words|
    ensures words[i].id < words[j].id
  {
    if i + 1 < j {
      AdjacentIncreasing(words, i, j - 1);
    }
    assert words[j - 1].id < words[j].id;
  }

  // The adjacent check establishes strictly increasing identifiers everywhere.
  lemma NewTranscriptDecides(
    sessionId: string, revision: nat, words: seq<Word>, sampleRate: nat, totalSamples: u64, language: string)
    ensures var r := NewTranscript(sessionId, revision, words, sampleRate, totalSamples, language);
      && (r.Some? <==> sampleRate > 0 && IncreasingIds(words))
      && (r.Some? ==>
            r.value == FrozenTranscript(sessionId, revision, words, sampleRate, totalSamples, language))
  {
    if forall k :: 0 < k < |words| ==> words[k - 1].id < words[k].id {
      forall i, j | 0 <= i < j < |words| ensures words[i].id < words[j].id {
        AdjacentIncreasing(words, i, j);
      }
    }
  }

  function Ids(words: seq<Word>): set<u64> {
    set k | 0 <= k < |words| :: words[k].id
  }

  lemma {:induction false} IdsBounded(words: seq<Word>)
    ensures |Ids(words)| <= |words|
  {
    if words != [] {
      var front := words[..|words| - 1];
      IdsBounded(front);
      assert forall k :: 0 <= k < |front| ==> front[k] == words[k];
      assert Ids(words) == Ids(front) + {words[|words| - 1].id};
    }
  }
}
