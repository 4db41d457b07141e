// Alignment checks, classifier windows, and the union of rules and model.
module Privacy {
  import opened TimeMap
  import opened Transcript
  import opened Removal
  import Text

  // ----- alignment -----------------------------------------------------------

  datatype AlignmentProblem =
    | EmptyWordText
    | ZeroLengthWord
    | OverlappingOrNonmonotonic
    | WordOutsideAudio
    | LowConfidenceWord
    | UnreliableTiming

  const SESSION_FATAL_ALIGNMENT: set<AlignmentProblem> :=
    {OverlappingOrNonmonotonic, WordOutsideAudio, ZeroLengthWord, EmptyWordText}

  function PreviousEnd(words: seq<Word>, bound: SampleInterval, k: nat): u64
    requires k <= |words|
  {
    if k == 0 then bound.start else words[k - 1].interval.end
  }

  predicate HasProblem(words: seq<Word>, bound: SampleInterval, minConfidence: real, k: nat, problem: AlignmentProblem)
    requires k < |words|
  {
    var word := words[k];
    match problem
    case EmptyWordText => Text.Trim(word.text) == ""
    case ZeroLengthWord => word.interval.IsEmpty() && !word.timingUnreliable
    case OverlappingOrNonmonotonic => word.interval.start < PreviousEnd(words, bound, k)
    case WordOutsideAudio => word.interval.start < bound.start || word.interval.end > bound.end
    case LowConfidenceWord => word.confidence < minConfidence
    case UnreliableTiming => word.timingUnreliable
  }

  method ValidateAlignment(words: seq<Word>, bound: SampleInterval, minConfidence: real)
    returns (problems: set<AlignmentProblem>)
    ensures forall p :: p in problems <==>
      exists k :: 0 <= k < |words| && HasProblem(words, bound, minConfidence, k, p)
  {
    problems := {};
    var previousEnd := bound.start;
    for k := 0 to |words|
      invariant previousEnd == PreviousEnd(words, bound, k)
      invariant forall p :: p in problems <==>
        exists j :: 0 <= j < k && HasProblem(words, bound, minConfidence, j, p)
    {
      var word := words[k];
      var found: set<AlignmentProblem> := {};
      if Text.Trim(word.text) == "" {
        found := found + {EmptyWordText};
      }
      if word.interval.IsEmpty() && !word.timingUnreliable {
        found := found + {ZeroLengthWord};
      }
      if word.interval.start < previousEnd {
        found := found + {OverlappingOrNonmonotonic};
      }
      if word.interval.start < bound.start || word.interval.end > bound.end {
        found := found + {WordOutsideAudio};
      }
      if word.confidence < minConfidence {
        found := found + {LowConfidenceWord};
      }
      if word.timingUnreliable {
        found := found + {UnreliableTiming};
      }
      assert forall p :: p in found <==> HasProblem(words, bound, minConfidence, k, p);
      problems := problems + found;
      previousEnd := word.interval.end;
    }
  }

  // No session-fatal problem: words are ordered, inside the audio, and either
  // have a length or are flagged.
  ghost predicate SoundlyAligned(words: seq<Word>, bound: SampleInterval) {
    && (forall i, j :: 0 <= i < j < |words| ==> words[i].interval.end <= words[j].interval.start)
    && (forall k :: 0 <= k < |words| ==>
          && bound.start <= words[k].interval.start && words[k].interval.end <= bound.end
          && (words[k].interval.IsEmpty() ==> words[k].timingUnreliable)
          && Text.Trim(words[k].text) != "")
  }

  ghost predicate FatalAt(words: seq<Word>, bound: SampleInterval, k: nat)
    requires k < |words|
  {
    exists p :: p in SESSION_FATAL_ALIGNMENT && HasProblem(words, bound, 0.0, k, p)
  }

  lemma {:induction false} OrderedFromAdjacent(words: seq<Word>, bound: SampleInterval, i: nat, j: nat)
    requires forall k :: 0 <= k < |words| ==> !FatalAt(words, bound, k)
    requires i < j < |words|
    ensures words[i].interval.end <= words[j].interval.start
  {
    assert !FatalAt(words, bound, j);
    assert !HasProblem(words, bound, 0.0, j, OverlappingOrNonmonotonic);
    if i + 1 < j {
      OrderedFromAdjacent(words, bound, i, j - 1);
    }
  }

  lemma SoundMeansNothingFatal(words: seq<Word>, bound: SampleInterval)
    ensures SoundlyAligned(words, bound) <==> forall k :: 0 <= k < |words| ==> !FatalAt(words, bound, k)
  {
    if forall k :: 0 <= k < |words| ==> !FatalAt(words, bound, k) {
      forall i, j | 0 <= i < j < |words| ensures words[i].interval.end <= words[j].interval.start {
        OrderedFromAdjacent(words, bound, i, j);
      }
      forall k | 0 <= k < |words|
        ensures bound.start <= words[k].interval.start && words[k].interval.end <= bound.end
        ensures words[k].interval.IsEmpty() ==> words[k].timingUnreliable
        ensures Text.Trim(words[k].text) != ""
      {
        assert !FatalAt(words, bound, k);
        assert !HasProblem(words, bound, 0.0, k, WordOutsideAudio);
        assert !HasProblem(words, bound, 0.0, k, ZeroLengthWord);
        assert !HasProblem(words, bound, 0.0, k, EmptyWordText);
      }
    }
  }

  // The reported problems include a session-fatal one exactly when the words
  // are not soundly aligned, whatever the confidence threshold.
  lemma FatalProblemsDecideSoundness(
    words: seq<Word>, bound: SampleInterval, minConfidence: real, problems: set<AlignmentProblem>)
    requires forall p :: p in problems <==>
      exists k :: 0 <= k < |words| && HasProblem(words, bound, minConfidence, k, p)
    ensures problems !! SESSION_FATAL_ALIGNMENT <==> SoundlyAligned(words, bound)
  {
    SoundMeansNothingFatal(words, bound);
    if p :| p in problems && p in SESSION_FATAL_ALIGNMENT {
      var k :| 0 <= k < |words| && HasProblem(words, bound, minConfidence, k, p);
      assert HasProblem(words, bound, 0.0, k, p);
      assert FatalAt(words, bound, k);
    }
    if k: nat :| k < |words| && FatalAt(words, bound, k) {
      var p :| p in SESSION_FATAL_ALIGNMENT && HasProblem(words, bound, 0.0, k, p);
      assert HasProblem(words, bound, minConfidence, k, p);
      assert p in problems;
    }
  }

  lemma SoundIsTimedInOrder(words: seq<Word>, bound: SampleInterval)
    requires SoundlyAligned(words, bound)
    ensures TimedInOrder(words)
  {
    forall i, j | 0 <= i <= j < |words| ensures words[i].interval.start <= words[j].interval.end {
      assert i < j ==> words[i].interval.end <= words[j].interval.start;
    }
  }

  predicate Unusable(word: Word, minConfidence: real) {
    word.confidence < minConfidence || word.timingUnreliable
  }

  function SentencesWithUnusableWords(words: seq<Word>, sentences: seq<Sentence>, minConfidence: real): set<int> {
    set k, i | 0 <= k < |words| && Unusable(words[k], minConfidence)
      && 0 <= i < |sentences| && sentences[i].ContainsWord(words[k].id) :: sentences[i].index
  }
}
