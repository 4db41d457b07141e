// What a clip and a session must measure up to, and how speech is measured.
module Quality {
  import opened Options
  import opened TimeMap
  import Text

  datatype GateReason =
    | LanguageNotValidated
    | ClipTooShort
    | ClipTooLong
    | ClipTooFewWords
    | ClipEmptyText
    | ClipLowConfidence
    | ClipMostlySilence
    | NoRetainedClips
    | RetainedAudioTooShort
    | RetainedAudioTooLong
    | EmptyTranscript
    | NoAudio
    | DuplicateExample
    | ClipNoSpeechDetected
    | UnexplainedSpeechInClip

  datatype QualitySettings = QualitySettings(
    minClipMs: nat, maxClipMs: nat, minClipWords: nat, minTotalMs: nat, maxTotalMs: u64,
    minClipMeanConfidence: real, minClipSpeechRatio: real)

  function CheckClip(
    durationMs: nat, wordCount: nat, text: string, meanConfidence: real, speechRatio: real, settings: QualitySettings)
    : Option<GateReason>
  {
    if durationMs < settings.minClipMs then Some(ClipTooShort)
    else if durationMs > settings.maxClipMs then Some(ClipTooLong)
    else if wordCount < settings.minClipWords then Some(ClipTooFewWords)
    else if Text.Trim(text) == "" then Some(ClipEmptyText)
    else if meanConfidence < settings.minClipMeanConfidence then Some(ClipLowConfidence)
    else if speechRatio < settings.minClipSpeechRatio then Some(ClipMostlySilence)
    else None
  }

  function Sum(values: seq<nat>): nat {
    if values == [] then 0 else Sum(values[..|values| - 1]) + values[|values| - 1]
  }

  function CheckSession(durationsMs: seq<nat>, settings: QualitySettings): Option<GateReason> {
    var total := Min(Sum(durationsMs), U64_MAX);
    if durationsMs == [] then Some(NoRetainedClips)
    else if total < settings.minTotalMs then Some(RetainedAudioTooShort)
    else if total > settings.maxTotalMs then Some(RetainedAudioTooLong)
    else None
  }

  function CheckConsistency(aligned: nat, detected: nat, speechRatio: real, minimumRatio: real): Option<GateReason> {
    if speechRatio < minimumRatio then Some(ClipNoSpeechDetected)
    else if detected > 0 && aligned * 100 < detected * 45 then Some(UnexplainedSpeechInClip)
    else None
  }

  // Which frames of a session hold speech.
  datatype SessionActivity = SessionActivity(frameSamples: nat, totalSamples: u64, flags: seq<bool>) {
    function SpeechIn(interval: SampleInterval, frames: nat): nat
      requires frames <= |flags|
    {
      if frames == 0 then 0
      else
        var before := SpeechIn(interval, frames - 1);
        var start := (frames - 1) * frameSamples;
        var end := Min(start + frameSamples, totalSamples);
        before + (if flags[frames - 1] then Max(0, Min(end, interval.end) - Max(start, interval.start)) else 0)
    }

    function SpeechSamples(interval: SampleInterval): nat {
      SpeechIn(interval, |flags|)
    }

    function SpeechRatio(interval: SampleInterval): real {
      if interval.IsEmpty() then 0.0 else SpeechSamples(interval) as real / interval.Len() as real
    }

    // Frames are disjoint, so an interval never holds more speech than samples.
    lemma {:induction false} SpeechBounded(interval: SampleInterval, frames: nat)
      requires frames <= |flags|
      ensures SpeechIn(interval, frames)
        <= Max(0, Min(frames * frameSamples, interval.end) - interval.start)
    {
      if frames > 0 {
        SpeechBounded(interval, frames - 1);
        assert frames * frameSamples == (frames - 1) * frameSamples + frameSamples;
      }
    }

    lemma SpeechRatioIsRatio(interval: SampleInterval)
      ensures 0.0 <= SpeechRatio(interval) <= 1.0
    {
      SpeechBounded(interval, |flags|);
      if !interval.IsEmpty() {
        QuotientWithin(SpeechSamples(interval), interval.Len());
      }
    }
  }

  lemma QuotientWithin(part: nat, whole: nat)
    requires part <= whole && 0 < whole
    ensures 0.0 <= part as real / whole as real <= 1.0
  {
    var w := whole as real;
    assert part as real / w * w == part as real;
  }

  // Weighted mean; zero when nothing weighs anything.
  function WeightedSum(values: seq<(real, real)>): real {
    if values == [] then 0.0
    else WeightedSum(values[..|values| - 1]) + values[|values| - 1].0 * values[|values| - 1].1
  }

  function Weight(values: seq<(real, real)>): real {
    if values == [] then 0.0 else Weight(values[..|values| - 1]) + values[|values| - 1].1
  }

  function Mean(values: seq<(real, real)>): real {
    if Weight(values) <= 0.0 then 0.0 else WeightedSum(values) / Weight(values)
  }

  ghost predicate Ratios(values: seq<(real, real)>) {
    forall i :: 0 <= i < |values| ==> 0.0 <= values[i].0 <= 1.0 && 0.0 <= values[i].1
  }

  lemma {:induction false} WeightedSumWithin(values: seq<(real, real)>)
    requires Ratios(values)
    ensures 0.0 <= WeightedSum(values) <= Weight(values)
  {
    if values != [] {
      var front, last := values[..|values| - 1], values[|values| - 1];
      WeightedSumWithin(front);
      AddShare(WeightedSum(front), Weight(front), last.0, last.1);
    }
  }

  lemma AddShare(sum: real, weight: real, ratio: real, more: real)
    requires 0.0 <= sum <= weight && 0.0 <= ratio <= 1.0 && 0.0 <= more
    ensures 0.0 <= sum + ratio * more <= weight + more
  {
    ShareWithin(ratio, more);
  }

  lemma ShareWithin(ratio: real, weight: real)
    requires 0.0 <= ratio <= 1.0 && 0.0 <= weight
    ensures 0.0 <= ratio * weight <= weight
  {
    assert 0.0 <= (1.0 - ratio) * weight;
  }

  // A mean of ratios is a ratio.
  lemma MeanIsRatio(values: seq<(real, real)>)
    requires Ratios(values)
    ensures 0.0 <= Mean(values) <= 1.0
  {
    WeightedSumWithin(values);
    var weight := Weight(values);
    if weight > 0.0 {
      assert WeightedSum(values) / weight * weight == WeightedSum(values);
    }
  }
}
