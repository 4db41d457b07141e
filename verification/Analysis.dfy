// What the rules and the classifier find in a transcript, put together.
//
// Rule hits and classifier answers are inputs: the classifier may answer
// anything, including nothing. Every failure rejects the analysis.
module Analysis {
  import opened Options
  import opened TimeMap
  import opened Transcript
  import opened Removal
  import opened Windows

  datatype ClassifierFailure = Timeout | Unavailable | WorkerError | ContextExceeded | Truncated

  datatype Rejection =
    | EmptyTranscript
    | WindowCoverageGap
    | ClassifierFailed(failure: ClassifierFailure)
    | SchemaViolation

  datatype Answer =
    | Failed(failure: ClassifierFailure)
    | Malformed
    | Labelled(spans: seq<SensitiveSpan>, uncertain: bool)

  datatype PrivacySettings = PrivacySettings(
    windowWords: nat, windowOverlapWords: nat, minWordConfidence: real, sentencePauseMs: u64)

  datatype PrivacyAnalysis = PrivacyAnalysis(
    sentences: seq<Sentence>,
    spans: seq<SensitiveSpan>,
    uncertain: bool,
    windowCount: nat,
    rejectedReason: Option<Rejection>)

  // A span is in the union when a rule or one of the first `n` windows names it.
  ghost predicate InUnion(
    rules: seq<SensitiveSpan>, classify: ClassifierWindow -> Answer, windows: seq<ClassifierWindow>, n: nat,
    span: SensitiveSpan)
    requires n <= |windows|
  {
    span in rules
    || exists i :: 0 <= i < n && classify(windows[i]).Labelled? && span in classify(windows[i]).spans
  }

  function Distinct(spans: seq<SensitiveSpan>): (r: seq<SensitiveSpan>)
    ensures forall span :: span in r <==> span in spans
    ensures forall i, j :: 0 <= i < j < |r| ==> r[i] != r[j]
  {
    if spans == [] then []
    else
      var rest := Distinct(spans[1..]);
      if spans[0] in rest then rest else [spans[0]] + rest
  }

  function CoveredIds(windows: seq<ClassifierWindow>): (r: set<u64>)
    ensures forall i, w :: 0 <= i < |windows| && w in windows[i].words ==> w.id in r
  {
    if windows == [] then {} else CoveredIds(windows[..|windows| - 1]) + Ids(windows[|windows| - 1].words)
  }

  ghost predicate AnyUncertain(classify: ClassifierWindow -> Answer, windows: seq<ClassifierWindow>, n: nat)
    requires n <= |windows|
  {
    exists i :: 0 <= i < n && classify(windows[i]).Labelled? && classify(windows[i]).uncertain
  }

  ghost predicate AllLabelled(classify: ClassifierWindow -> Answer, windows: seq<ClassifierWindow>, n: nat)
    requires n <= |windows|
  {
    forall i :: 0 <= i < n ==> classify(windows[i]).Labelled?
  }

  // The spans collected over the first `n` windows, all of them labelled.
  ghost predicate Collected(
    rules: seq<SensitiveSpan>, classify: ClassifierWindow -> Answer, windows: seq<ClassifierWindow>, n: nat,
    spans: seq<SensitiveSpan>)
    requires n <= |windows|
  {
    AllLabelled(classify, windows, n) && forall span :: span in spans <==> InUnion(rules, classify, windows, n, span)
  }

  // Asking stopped at window `i`, the first that failed or was malformed.
  ghost predicate StoppedAt(
    rules: seq<SensitiveSpan>, classify: ClassifierWindow -> Answer, windows: seq<ClassifierWindow>, i: nat,
    spans: seq<SensitiveSpan>, rejection: Rejection)
    requires i < |windows|
  {
    && Collected(rules, classify, windows, i, spans)
    && match classify(windows[i])
       case Failed(failure) => rejection == ClassifierFailed(failure)
       case Malformed => rejection == SchemaViolation
       case Labelled(_, _) => false
  }

  ghost predicate Stopped(
    rules: seq<SensitiveSpan>, classify: ClassifierWindow -> Answer, windows: seq<ClassifierWindow>,
    spans: seq<SensitiveSpan>, rejection: Rejection)
  {
    exists i :: 0 <= i < |windows| && StoppedAt(rules, classify, windows, i, spans, rejection)
  }

  // What an analysis of a transcript with words says about the windows it
  // asked: every answer counted, or the first bad one named.
  ghost predicate Asked(
    words: seq<Word>, settings: PrivacySettings, rules: seq<SensitiveSpan>, injectionSuspected: bool,
    classify: ClassifierWindow -> Answer, a: PrivacyAnalysis, windows: seq<ClassifierWindow>)
  {
    && (exists starts :: WindowedAt(words, a.sentences, settings.windowWords, settings.windowOverlapWords, windows, starts))
    && a.windowCount == |windows|
    && match a.rejectedReason
       case None =>
         && Collected(rules, classify, windows, |windows|, a.spans)
         && (a.uncertain <==> injectionSuspected || AnyUncertain(classify, windows, |windows|))
       case Some(rejection) => a.uncertain && Stopped(rules, classify, windows, a.spans, rejection)
  }

  method AskWindows(
    windows: seq<ClassifierWindow>, rules: seq<SensitiveSpan>, classify: ClassifierWindow -> Answer)
    returns (spans: seq<SensitiveSpan>, uncertain: bool, rejected: Option<Rejection>)
    ensures rejected.None? <==> AllLabelled(classify, windows, |windows|)
    ensures rejected.None? ==>
      Collected(rules, classify, windows, |windows|, spans) && (uncertain <==> AnyUncertain(classify, windows, |windows|))
    ensures rejected.Some? ==> uncertain && Stopped(rules, classify, windows, spans, rejected.value)
  {
    spans, uncertain := rules, false;
    for i := 0 to |windows|
      invariant Collected(rules, classify, windows, i, spans)
      invariant uncertain <==> AnyUncertain(classify, windows, i)
    {
      match classify(windows[i])
      case Failed(failure) =>
        assert StoppedAt(rules, classify, windows, i, spans, ClassifierFailed(failure));
        return spans, true, Some(ClassifierFailed(failure));
      case Malformed =>
        assert StoppedAt(rules, classify, windows, i, spans, SchemaViolation);
        return spans, true, Some(SchemaViolation);
      case Labelled(more, unsure) =>
        uncertain := uncertain || unsure;
        spans := spans + more;
    }
    rejected := None;
  }

  lemma NoCoverageGap(
    words: seq<Word>, sentences: seq<Sentence>, settings: PrivacySettings, windows: seq<ClassifierWindow>)
    requires exists starts ::
      WindowedAt(words, sentences, settings.windowWords, settings.windowOverlapWords, windows, starts)
    ensures forall k :: 0 <= k < |words| ==> words[k].id in CoveredIds(windows)
  {
    var starts :|
      WindowedAt(words, sentences, settings.windowWords, settings.windowOverlapWords, windows, starts);
    forall k | 0 <= k < |words| ensures words[k].id in CoveredIds(windows) {
      EveryWordWindowed(words, sentences, settings.windowWords, settings.windowOverlapWords, windows, starts, k);
    }
  }

  method Analyze(
    transcript: FrozenTranscript, rules: seq<SensitiveSpan>, injectionSuspected: bool,
    classify: ClassifierWindow -> Answer, settings: PrivacySettings)
    returns (a: PrivacyAnalysis)
    requires NoSentenceInverted(
      transcript.words, MillisecondsToSamples(settings.sentencePauseMs, transcript.sampleRate))
    ensures IsSegmentation(transcript.words, MillisecondsToSamples(settings.sentencePauseMs, transcript.sampleRate), a.sentences)
    ensures transcript.words == [] ==>
      a == PrivacyAnalysis(a.sentences, rules, injectionSuspected, 0, Some(EmptyTranscript))
    ensures transcript.words != [] ==>
      exists windows :: Asked(transcript.words, settings, rules, injectionSuspected, classify, a, windows)
  {
    var words := transcript.words;
    var sentences := SentencesFromWords(words, transcript.sampleRate, settings.sentencePauseMs);
    if words == [] {
      return PrivacyAnalysis(sentences, rules, injectionSuspected, 0, Some(EmptyTranscript));
    }
    var windows := BuildWindows(words, sentences, settings.windowWords, settings.windowOverlapWords);
    var covered := CoveredIds(windows);
    NoCoverageGap(words, sentences, settings, windows);
    if exists k | 0 <= k < |words| :: words[k].id !in covered {
      // Would reject with WindowCoverageGap.
      assert false;
    }
    var spans, unsure, rejected := AskWindows(windows, rules, classify);
    a := if rejected.Some? then PrivacyAnalysis(sentences, spans, true, |windows|, rejected)
      else PrivacyAnalysis(sentences, Distinct(spans), injectionSuspected || unsure, |windows|, None);
    assert Asked(words, settings, rules, injectionSuspected, classify, a, windows);
  }

  // An analysis of a transcript with words is rejected exactly when some window
  // gets no valid answer, never for a gap, and keeps every span of the rules.
  lemma RejectedIffUnanswered(
    words: seq<Word>, settings: PrivacySettings, rules: seq<SensitiveSpan>, injectionSuspected: bool,
    classify: ClassifierWindow -> Answer, a: PrivacyAnalysis, windows: seq<ClassifierWindow>)
    requires Asked(words, settings, rules, injectionSuspected, classify, a, windows)
    ensures a.rejectedReason.Some? <==> !AllLabelled(classify, windows, |windows|)
    ensures a.rejectedReason !in {Some(WindowCoverageGap), Some(EmptyTranscript)}
    ensures forall span :: span in rules ==> span in a.spans
  {
    if a.rejectedReason.Some? {
      var i :| 0 <= i < |windows| && StoppedAt(rules, classify, windows, i, a.spans, a.rejectedReason.value);
    }
  }

  // Whatever the model answers, everything the rules remove stays removed.
  lemma ModelOnlyAdds(p: Problem, q: Problem, byRules: set<u64>, byUnion: set<u64>)
    requires q == p.(spans := q.spans) && forall span :: span in p.spans ==> span in q.spans
    requires p.LeastClosed(byRules) && q.LeastClosed(byUnion)
    ensures byRules <= byUnion
    ensures forall x :: Covered(p.Cover(byRules), x) ==> Covered(q.Cover(byUnion), x)
  {
    MoreSpansAskForMore(p, q);
    RemovalMonotone(p, q, byRules, byUnion);
  }
}
