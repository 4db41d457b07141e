// From a recorded session to what may be contributed of it: clips cut from the
// retained audio, or the reason why there are none.
//
// The source re-checks its own geometry at run time and rejects when a check
// fires. Each of those guards appears below as a branch proved unreachable.
module Dataset {
  import opened Options
  import opened Samples
  import opened TimeMap
  import opened Transcript
  import opened Removal
  import opened Privacy
  import opened Quality
  import opened Cuts
  import Analysis
  import Text

  datatype RetainedClip = RetainedClip(
    index: nat,
    source: SampleInterval,
    destination: SampleInterval,
    words: seq<Word>,
    text: string,
    durationMs: nat,
    meanConfidence: real,
    speechRatio: real,
    pcm: seq<i16>)
  {
    function WordCount(): nat {
      Text.CountWords(text)
    }
  }

  datatype DatasetMetrics = DatasetMetrics(
    durationMs: nat, wordCount: nat, meanConfidence: real, speechRatio: real,
    removedIntervalCount: nat, removedDurationMs: nat, clipCount: nat)

  datatype Boundary = Boundary(source: SampleInterval, destination: SampleInterval)

  // A retained interval, by position, that a gate kept out.
  datatype GateRefusal = GateRefusal(position: nat, reason: GateReason)

  datatype CutFault = RemovedAudioInOutput | ClipLengthMismatch | WordOutsideClip

  datatype Rejection =
    | AnalysisRejected(reason: Analysis.Rejection)
    | UncertainAnalysis
    | Gate(gate: GateReason)
    | SessionSilent
    | AlignmentUnusable
    | FullyRedacted
    | RecheckFailed(code: string)

  datatype BuildResult =
    | Rejected(rejection: Rejection)
    | Eligible(
        clips: seq<RetainedClip>,
        removed: seq<SampleInterval>,
        boundaries: seq<Boundary>,
        metrics: DatasetMetrics,
        contentHash: string,
        clipRejections: seq<GateRefusal>)

  // The first clip fault, re-checked on the object about to be stored.
  function FaultOf(clip: RetainedClip, removed: seq<SampleInterval>): Option<CutFault> {
    if TouchedBy(clip.source, removed) then Some(RemovedAudioInOutput)
    else if |clip.pcm| != clip.source.Len() then Some(ClipLengthMismatch)
    else if exists w | w in clip.words ::
        w.interval.start < clip.source.start || w.interval.end > clip.source.end then Some(WordOutsideClip)
    else None
  }

  method AssertNoRemovedAudio(clips: seq<RetainedClip>, removed: seq<SampleInterval>)
    returns (fault: Option<CutFault>)
    ensures fault.None? <==> forall i :: 0 <= i < |clips| ==> FaultOf(clips[i], removed).None?
  {
    for i := 0 to |clips|
      invariant forall j :: 0 <= j < i ==> FaultOf(clips[j], removed).None?
    {
      fault := FaultOf(clips[i], removed);
      if fault.Some? {
        return;
      }
    }
    fault := None;
  }

  function DurationMs(samples: nat, sampleRate: nat): nat
    requires sampleRate > 0
  {
    Min(Min(samples * 1000, U64_MAX) + sampleRate / 2, U64_MAX) / sampleRate
  }

  function DisplayText(words: seq<Word>): string {
    Text.Join(seq(|words|, i requires 0 <= i < |words| => words[i].DisplayText()), " ")
  }

  function Confidences(words: seq<Word>): (r: seq<(real, real)>)
    ensures |r| == |words| && forall i :: 0 <= i < |r| ==> r[i] == (words[i].confidence, 1.0)
  {
    seq(|words|, i requires 0 <= i < |words| => (words[i].confidence, 1.0))
  }

  function MeanConfidence(words: seq<Word>): real {
    Mean(Confidences(words))
  }

  function AlignedSamples(words: seq<Word>): nat {
    if words == [] then 0 else words[0].interval.Len() + AlignedSamples(words[1..])
  }

  datatype DatasetSettings = DatasetSettings(
    quality: QualitySettings, privacy: Analysis.PrivacySettings, removal: RemovalSettings)

  datatype Session = Session(
    transcript: FrozenTranscript, pcm: seq<i16>, activity: SessionActivity, settings: DatasetSettings)
  {
    predicate Valid() {
      transcript.Valid() && |transcript.words| <= U64_MAX && |pcm| <= U64_MAX
    }

    function Bound(): SampleInterval
      requires Valid()
    {
      RawInterval(0, |pcm|)
    }

    // The removal this session asks for under `analysis`.
    function RemovalProblem(analysis: Analysis.PrivacyAnalysis): Problem
      requires Valid()
    {
      ProblemOf(transcript, analysis.spans, analysis.sentences, settings.removal,
                SentencesWithUnusableWords(transcript.words, analysis.sentences, settings.privacy.minWordConfidence),
                Some(Bound()))
    }

    // The clip cut from one retained interval.
    function ClipAt(index: nat, interval: SampleInterval, removedIds: set<u64>): RetainedClip
      requires Valid() && interval.end <= |pcm|
    {
      var words := WordsFullyInside(transcript.words, interval, removedIds);
      RetainedClip(index, interval, interval, words, DisplayText(words),
                   DurationMs(interval.Len(), transcript.sampleRate),
                   MeanConfidence(words), activity.SpeechRatio(interval),
                   pcm[interval.start..interval.end])
    }

    function GateOf(clip: RetainedClip): Option<GateReason> {
      var gate := CheckClip(clip.durationMs, |clip.words|, clip.text, clip.meanConfidence, clip.speechRatio, settings.quality);
      if gate.Some? then gate
      else CheckConsistency(AlignedSamples(clip.words), activity.SpeechSamples(clip.source), clip.speechRatio,
                            settings.quality.minClipSpeechRatio)
    }
  }

  // Retained intervals that lie in the session's audio.
  ghost predicate InAudio(session: Session, retained: seq<SampleInterval>) {
    forall j :: 0 <= j < |retained| ==> retained[j].end <= |session.pcm|
  }

  // What one retained interval would give: its clip, numbered zero, and the
  // gate that refuses it, if any.
  datatype Candidate = Candidate(clip: RetainedClip, gate: Option<GateReason>)

  function CandidateOf(session: Session, interval: SampleInterval, removedIds: set<u64>): Candidate
    requires session.Valid() && interval.end <= |session.pcm|
  {
    var clip := session.ClipAt(0, interval, removedIds);
    Candidate(clip, session.GateOf(clip))
  }

  ghost function Candidates(session: Session, retained: seq<SampleInterval>, removedIds: set<u64>): (r: seq<Candidate>)
    requires session.Valid() && InAudio(session, retained)
    ensures |r| == |retained| && forall j :: 0 <= j < |r| ==> r[j] == CandidateOf(session, retained[j], removedIds)
  {
    seq(|retained|, j requires 0 <= j < |retained| && InAudio(session, retained) =>
      CandidateOf(session, retained[j], removedIds))
  }

  // The clips of the first `n` candidates that pass every gate, numbered on.
  function PassedClips(candidates: seq<Candidate>, n: nat): seq<RetainedClip>
    requires n <= |candidates|
  {
    if n == 0 then []
    else
      var before, last := PassedClips(candidates, n - 1), candidates[n - 1];
      if last.gate.None? then before + [last.clip.(index := |before|)] else before
  }

  // The positions of the others, each with the gate that refused it.
  function GatedOut(candidates: seq<Candidate>, n: nat): seq<GateRefusal>
    requires n <= |candidates|
  {
    if n == 0 then []
    else
      var before, last := GatedOut(candidates, n - 1), candidates[n - 1];
      if last.gate.Some? then before + [GateRefusal(n - 1, last.gate.value)] else before
  }

  // The candidate's clip is among `clips`, or its refusal among `refusals`, as
  // the gates decide.
  ghost predicate Judged(candidate: Candidate, clips: seq<RetainedClip>, refusals: seq<GateRefusal>, j: nat) {
    match candidate.gate
    case None => exists i :: 0 <= i < |clips| && clips[i] == candidate.clip.(index := i)
    case Some(reason) => GateRefusal(j, reason) in refusals
  }

  // No retained interval is lost: each becomes a clip or is refused with its
  // reason, and nothing else is either.
  lemma {:induction false} EveryIntervalJudged(candidates: seq<Candidate>, n: nat, j: nat)
    requires j < n <= |candidates|
    ensures Judged(candidates[j], PassedClips(candidates, n), GatedOut(candidates, n), j)
    ensures |PassedClips(candidates, n)| + |GatedOut(candidates, n)| == n
  {
    var clips, more := PassedClips(candidates, n - 1), PassedClips(candidates, n);
    if n > 1 {
      EveryIntervalJudged(candidates, n - 1, if j < n - 1 then j else 0);
    }
    if j < n - 1 {
      if i :| 0 <= i < |clips| && clips[i] == candidates[j].clip.(index := i) {
        assert more[i] == candidates[j].clip.(index := i);
      }
    } else if candidates[j].gate.None? {
      assert more[|clips|] == candidates[j].clip.(index := |clips|);
    }
  }

  lemma {:induction false} PassedComesFrom(candidates: seq<Candidate>, n: nat, i: nat) returns (j: nat)
    requires n <= |candidates| && i < |PassedClips(candidates, n)|
    ensures j < n && candidates[j].gate.None? && PassedClips(candidates, n)[i] == candidates[j].clip.(index := i)
  {
    if i < |PassedClips(candidates, n - 1)| {
      j := PassedComesFrom(candidates, n - 1, i);
    } else {
      j := n - 1;
    }
  }

  lemma GateIgnoresIndex(session: Session, interval: SampleInterval, removedIds: set<u64>, index: nat)
    requires session.Valid() && interval.end <= |session.pcm|
    ensures session.ClipAt(index, interval, removedIds) == session.ClipAt(0, interval, removedIds).(index := index)
    ensures session.GateOf(session.ClipAt(index, interval, removedIds)) == session.GateOf(session.ClipAt(0, interval, removedIds))
  {
  }

  lemma RetainedApart(removed: seq<SampleInterval>, bound: SampleInterval, j: nat)
    requires Canonical(removed) && j < |Complement(removed, bound)|
    ensures !TouchedBy(Complement(removed, bound)[j], removed)
  {
    var kept := Complement(removed, bound)[j];
    if k :| 0 <= k < |removed| && kept.Intersects(removed[k]) {
      var x := Max(kept.start, removed[k].start);
      assert kept.Contains(x);
      assert removed[k].Contains(x);
      assert Covered(Complement(removed, bound), x);
      assert Covered(removed, x);
    }
  }

  // Cuts the clip of one retained interval, with its gate.
  method CutClip(
    session: Session, removed: seq<SampleInterval>, removedIds: set<u64>, retained: seq<SampleInterval>,
    ghost candidates: seq<Candidate>, position: nat, index: nat)
    returns (clip: RetainedClip, gate: Option<GateReason>)
    requires session.Valid() && Canonical(removed) && retained == Complement(removed, session.Bound())
    requires position < |retained| && InAudio(session, retained)
    requires candidates == Candidates(session, retained, removedIds)
    ensures clip == candidates[position].clip.(index := index) && gate == candidates[position].gate
  {
    var interval := retained[position];
    RetainedApart(removed, session.Bound(), position);
    if TouchedBy(interval, removed) {
      // Would reject with "retained_interval_overlaps_removal".
      assert false;
    }
    if interval.end > |session.pcm| {
      // Would reject with "clip_outside_audio".
      assert false;
    }
    clip := session.ClipAt(index, interval, removedIds);
    gate := session.GateOf(clip);
    GateIgnoresIndex(session, interval, removedIds, index);
    assert candidates[position] == CandidateOf(session, interval, removedIds);
  }

  method BuildClips(session: Session, removed: seq<SampleInterval>, removedIds: set<u64>, retained: seq<SampleInterval>)
    returns (clips: seq<RetainedClip>, rejections: seq<GateRefusal>)
    requires session.Valid() && Canonical(removed) && retained == Complement(removed, session.Bound())
    ensures InAudio(session, retained)
    ensures clips == PassedClips(Candidates(session, retained, removedIds), |retained|)
    ensures rejections == GatedOut(Candidates(session, retained, removedIds), |retained|)
  {
    EndsWithin(retained, session.Bound());
    clips, rejections := JudgeClips(session, removed, removedIds, retained, Candidates(session, retained, removedIds));
  }

  // The first `n` candidates are filed: kept, or refused with their gates.
  ghost predicate Filed(candidates: seq<Candidate>, clips: seq<RetainedClip>, rejections: seq<GateRefusal>, n: nat)
    requires n <= |candidates|
  {
    clips == PassedClips(candidates, n) && rejections == GatedOut(candidates, n)
  }

  method JudgeClips(
    session: Session, removed: seq<SampleInterval>, removedIds: set<u64>, retained: seq<SampleInterval>,
    ghost candidates: seq<Candidate>)
    returns (clips: seq<RetainedClip>, rejections: seq<GateRefusal>)
    requires session.Valid() && Canonical(removed) && retained == Complement(removed, session.Bound())
    requires InAudio(session, retained) && candidates == Candidates(session, retained, removedIds)
    ensures Filed(candidates, clips, rejections, |retained|)
  {
    clips, rejections := [], [];
    for position := 0 to |retained|
      invariant Filed(candidates, clips, rejections, position)
    {
      clips, rejections := JudgeClip(session, removed, removedIds, retained, candidates, position, clips, rejections);
    }
  }

  method JudgeClip(
    session: Session, removed: seq<SampleInterval>, removedIds: set<u64>, retained: seq<SampleInterval>,
    ghost candidates: seq<Candidate>, position: nat, clips: seq<RetainedClip>, rejections: seq<GateRefusal>)
    returns (kept: seq<RetainedClip>, refused: seq<GateRefusal>)
    requires session.Valid() && Canonical(removed) && retained == Complement(removed, session.Bound())
    requires InAudio(session, retained) && candidates == Candidates(session, retained, removedIds)
    requires position < |retained| && Filed(candidates, clips, rejections, position)
    ensures Filed(candidates, kept, refused, position + 1)
  {
    var clip, gate := CutClip(session, removed, removedIds, retained, candidates, position, |clips|);
    OneMoreCandidate(candidates, position);
    match gate {
      case Some(reason) => kept, refused := clips, rejections + [GateRefusal(position, reason)];
      case None => kept, refused := clips + [clip], rejections;
    }
  }

  lemma OneMoreCandidate(candidates: seq<Candidate>, n: nat)
    requires n < |candidates|
    ensures var clips, refusals := PassedClips(candidates, n), GatedOut(candidates, n);
      match candidates[n].gate
      case None =>
        PassedClips(candidates, n + 1) == clips + [candidates[n].clip.(index := |clips|)]
        && GatedOut(candidates, n + 1) == refusals
      case Some(reason) =>
        PassedClips(candidates, n + 1) == clips && GatedOut(candidates, n + 1) == refusals + [GateRefusal(n, reason)]
  {
  }

  // ----- the spliced timeline ------------------------------------------------

  ghost predicate SourcesAre(clips: seq<RetainedClip>, sources: seq<SampleInterval>) {
    |sources| == |clips| && forall i :: 0 <= i < |clips| ==> sources[i] == clips[i].source
  }

  method SourcesOf(clips: seq<RetainedClip>) returns (sources: seq<SampleInterval>)
    ensures SourcesAre(clips, sources)
  {
    sources := seq(|clips|, i requires 0 <= i < |clips| => clips[i].source);
  }

  // The clips' audio, one after the other and nothing else.
  function SplicedPcm(clips: seq<RetainedClip>, n: nat): seq<i16>
    requires n <= |clips|
  {
    if n == 0 then [] else SplicedPcm(clips, n - 1) + clips[n - 1].pcm
  }

  ghost predicate PlacedClip(clip: RetainedClip, pcm: seq<i16>) {
    && clip.source.end <= |pcm|
    && clip.pcm == pcm[clip.source.start..clip.source.end]
    && clip.destination.Len() == clip.source.Len()
  }

  // Clips are non-empty and strictly separated source intervals, in order.
  ghost predicate Apart(clips: seq<RetainedClip>) {
    && (forall i :: 0 <= i < |clips| ==> clips[i].source.start < clips[i].source.end)
    && (forall i, j :: 0 <= i < j < |clips| ==> clips[i].source.end < clips[j].source.start)
  }

  // Destinations follow each other from zero without a gap.
  ghost predicate Tiled(clips: seq<RetainedClip>) {
    && (clips != [] ==> clips[0].destination.start == 0)
    && (forall i, j {:trigger clips[i], clips[j]} :: 0 <= i && j == i + 1 && j < |clips| ==>
          clips[j].destination.start == clips[i].destination.end)
  }

  // Clips are separate, in order, carry the session's own samples, and tile
  // the spliced timeline.
  ghost predicate Placed(clips: seq<RetainedClip>, pcm: seq<i16>) {
    && Apart(clips)
    && Tiled(clips)
    && (forall i :: 0 <= i < |clips| ==> PlacedClip(clips[i], pcm))
  }

  // Destinations of the right lengths for the first `n` clips, one after the
  // other from zero.
  ghost predicate DestinationsFit(clips: seq<RetainedClip>, destinations: seq<SampleInterval>, n: nat) {
    && |destinations| == n <= |clips|
    && (n > 0 ==> destinations[0].start == 0)
    && (forall i {:trigger destinations[i]} :: 0 <= i < n ==> destinations[i].Len() == clips[i].source.Len())
    && (forall i, j {:trigger destinations[i], destinations[j]} :: 0 <= i && j == i + 1 && j < n ==>
          destinations[j].start == destinations[i].end)
  }

  method LookUpDestinations(map_: DestinationMap, count: nat) returns (destinations: seq<SampleInterval>)
    requires map_.Valid() && count == |map_.retained|
    ensures OffsetsFit(map_.retained, destinations, count)
  {
    destinations := [];
    for i := 0 to count
      invariant OffsetsFit(map_.retained, destinations, i)
    {
      DestinationExists(map_, i);
      var destination := map_.DestinationOf(i);
      if destination.None? {
        // Would reject with "destination_map_failed".
        assert false;
      }
      destinations := destinations + [destination.value];
    }
  }

  // Clips keep their order on the destination timeline, as the gaps between
  // them are strict, so every destination exists.
  method DestinationsOf(clips: seq<RetainedClip>) returns (destinations: seq<SampleInterval>)
    requires Apart(clips)
    ensures DestinationsFit(clips, destinations, |clips|)
  {
    var sources := SourcesOf(clips);
    var map_ := BuildDestinationMap(sources);
    NormalFixpoint(sources);
    destinations := LookUpDestinations(map_, |clips|);
    FitByOffsets(clips, sources, destinations);
  }

  ghost predicate OffsetsFit(sources: seq<SampleInterval>, destinations: seq<SampleInterval>, n: nat) {
    && |destinations| == n <= |sources|
    && forall i {:trigger destinations[i]} :: 0 <= i < n ==>
      destinations[i].start == Offset(sources, i) && destinations[i].end == Offset(sources, i + 1)
  }

  lemma FitByOffsets(clips: seq<RetainedClip>, sources: seq<SampleInterval>, destinations: seq<SampleInterval>)
    requires SourcesAre(clips, sources) && OffsetsFit(sources, destinations, |clips|)
    ensures DestinationsFit(clips, destinations, |clips|)
  {
    forall i | 0 <= i < |clips| ensures destinations[i].Len() == clips[i].source.Len() {
      assert sources[i] == clips[i].source;
    }
  }

  function PlaceAll(clips: seq<RetainedClip>, destinations: seq<SampleInterval>): (r: seq<RetainedClip>)
    requires |clips| == |destinations|
    ensures |r| == |clips|
    ensures forall i :: 0 <= i < |r| ==> r[i] == clips[i].(destination := destinations[i])
  {
    seq(|clips|, i requires 0 <= i < |clips| => clips[i].(destination := destinations[i]))
  }

  lemma PlacedByDestinations(clips: seq<RetainedClip>, destinations: seq<SampleInterval>, pcm: seq<i16>)
    requires Apart(clips) && DestinationsFit(clips, destinations, |clips|)
    requires forall i :: 0 <= i < |clips| ==>
      clips[i].source.end <= |pcm| && clips[i].pcm == pcm[clips[i].source.start..clips[i].source.end]
    ensures Placed(PlaceAll(clips, destinations), pcm)
  {
    var placed := PlaceAll(clips, destinations);
    forall i | 0 <= i < |placed| ensures PlacedClip(placed[i], pcm) {
      assert clips[i].source.end <= |pcm|;
    }
    forall i, j | 0 <= i && j == i + 1 && j < |placed|
      ensures placed[j].destination.start == placed[i].destination.end
    {
      assert destinations[j].start == destinations[i].end;
    }
  }

  lemma {:induction false} SplicedLength(clips: seq<RetainedClip>, pcm: seq<i16>, n: nat)
    requires Placed(clips, pcm) && n <= |clips|
    ensures |SplicedPcm(clips, n)| == if n == 0 then 0 else clips[n - 1].destination.end
  {
    if n > 0 {
      SplicedLength(clips, pcm, n - 1);
      assert PlacedClip(clips[n - 1], pcm);
      if n > 1 {
        var before := clips[n - 2];
        assert before.destination.end == clips[n - 1].destination.start;
      }
    }
  }

  // The last clip's audio follows what was spliced before it.
  lemma SplicedLast(clips: seq<RetainedClip>, pcm: seq<i16>, n: nat)
    requires Placed(clips, pcm) && 0 < n <= |clips|
    ensures clips[n - 1].source.end <= |pcm| && clips[n - 1].pcm == pcm[clips[n - 1].source.start..clips[n - 1].source.end]
    ensures clips[n - 1].destination.start == |SplicedPcm(clips, n - 1)|
    ensures |clips[n - 1].pcm| == clips[n - 1].source.Len()
  {
    SplicedLength(clips, pcm, n - 1);
    assert PlacedClip(clips[n - 1], pcm);
    if n > 1 {
      var previous := clips[n - 2];
      assert previous.destination.end == clips[n - 1].destination.start;
    }
  }

  // Sample `d` of clip `i` sits at its destination in the spliced audio.
  lemma {:induction false} SplicedAt(clips: seq<RetainedClip>, pcm: seq<i16>, n: nat, i: nat, d: nat)
    requires Placed(clips, pcm) && i < n <= |clips| && d < clips[i].source.Len()
    ensures clips[i].source.start + d < |pcm|
    ensures clips[i].destination.start + d < |SplicedPcm(clips, n)|
    ensures SplicedPcm(clips, n)[clips[i].destination.start + d] == pcm[clips[i].source.start + d]
  {
    var before, at := SplicedPcm(clips, n - 1), clips[i].destination.start + d;
    if i < n - 1 {
      SplicedAt(clips, pcm, n - 1, i, d);
      ConcatAt(before, clips[n - 1].pcm, at);
    } else {
      SplicedLast(clips, pcm, n);
      ConcatAt(before, clips[i].pcm, at);
    }
  }

  lemma ConcatAt<T>(a: seq<T>, b: seq<T>, k: nat)
    requires k < |a| + |b|
    ensures (a + b)[k] == if k < |a| then a[k] else b[k - |a|]
  {
  }

  lemma {:induction false} DestinationIsOffset(clips: seq<RetainedClip>, pcm: seq<i16>, sources: seq<SampleInterval>, i: nat)
    requires Placed(clips, pcm) && SourcesAre(clips, sources) && i < |clips|
    ensures clips[i].destination.start == Offset(sources, i)
  {
    if i > 0 {
      DestinationIsOffset(clips, pcm, sources, i - 1);
      assert PlacedClip(clips[i - 1], pcm);
    }
  }

  lemma MappedInto(clips: seq<RetainedClip>, pcm: seq<i16>, d: DestinationMap, x: u64) returns (i: nat)
    requires Placed(clips, pcm) && d.Valid() && SourcesAre(clips, d.retained) && Covered(d.retained, x)
    ensures i < |clips| && clips[i].source.Contains(x)
    ensures d.MapSample(x) == Some(clips[i].destination.start + (x - clips[i].source.start))
  {
    i :| 0 <= i < |d.retained| && d.retained[i].Contains(x);
    MapSampleAt(d, i, x);
    DestinationIsOffset(clips, pcm, d.retained, i);
  }

  // The spliced audio is exactly the retained samples moved by the destination
  // map: position MapSample(x) holds source sample x.
  lemma SplicedFollowsMap(clips: seq<RetainedClip>, pcm: seq<i16>, d: DestinationMap, x: u64)
    requires Placed(clips, pcm) && d.Valid() && SourcesAre(clips, d.retained) && Covered(d.retained, x)
    ensures d.MapSample(x).Some? && x < |pcm|
    ensures d.MapSample(x).value < |SplicedPcm(clips, |clips|)|
    ensures SplicedPcm(clips, |clips|)[d.MapSample(x).value] == pcm[x]
  {
    var i := MappedInto(clips, pcm, d, x);
    SplicedAt(clips, pcm, |clips|, i, x - clips[i].source.start);
  }

  // Slicing the spliced audio at a clip's destination yields that clip's audio.
  lemma SplicedSlice(clips: seq<RetainedClip>, pcm: seq<i16>, i: nat)
    requires Placed(clips, pcm) && i < |clips|
    ensures clips[i].destination.end <= |SplicedPcm(clips, |clips|)|
    ensures SplicedPcm(clips, |clips|)[clips[i].destination.start..clips[i].destination.end] == clips[i].pcm
  {
    var whole, clip := SplicedPcm(clips, |clips|), clips[i];
    assert PlacedClip(clip, pcm);
    SplicedClipAt(clips, pcm, i, clip.source.Len() - 1);
    forall k | 0 <= k < |clip.pcm|
      ensures clip.destination.start + k < |whole| && whole[clip.destination.start + k] == clip.pcm[k]
    {
      SplicedClipAt(clips, pcm, i, k);
    }
    SliceIs(whole, clip.pcm, clip.destination.start);
  }

  lemma SplicedClipAt(clips: seq<RetainedClip>, pcm: seq<i16>, i: nat, k: nat)
    requires Placed(clips, pcm) && i < |clips| && k < clips[i].source.Len()
    ensures var whole, at := SplicedPcm(clips, |clips|), clips[i].destination.start + k;
      at < |whole| && k < |clips[i].pcm| && whole[at] == clips[i].pcm[k]
  {
    assert PlacedClip(clips[i], pcm);
    SplicedAt(clips, pcm, |clips|, i, k);
  }

  lemma SliceIs(whole: seq<i16>, part: seq<i16>, start: nat)
    requires start + |part| <= |whole|
    requires forall k :: 0 <= k < |part| ==> whole[start + k] == part[k]
    ensures whole[start..start + |part|] == part
  {
  }

  // ----- the retained transcript ---------------------------------------------

  function WordTotal(clips: seq<RetainedClip>, n: nat): nat
    requires n <= |clips|
  {
    if n == 0 then 0 else WordTotal(clips, n - 1) + |clips[n - 1].words|
  }

  // The clip's words lie inside its audio, in order.
  ghost predicate HoldsWords(clip: RetainedClip) {
    && InOrder(clip.words)
    && forall k :: 0 <= k < |clip.words| ==>
      && clip.words[k].Valid()
      && clip.source.start <= clip.words[k].interval.start
      && clip.words[k].interval.end <= clip.source.end
  }

  // Words renumbered from zero, in order, none ending after `limit`.
  ghost predicate Renumbered(words: seq<Word>, limit: int) {
    && InOrder(words)
    && forall k :: 0 <= k < |words| ==>
      words[k].id == k && words[k].Valid() && words[k].interval.end <= limit
  }

  // Every clip holds its words and keeps its length on the spliced timeline.
  ghost predicate Movable(clips: seq<RetainedClip>) {
    forall i :: 0 <= i < |clips| ==> MovableClip(clips[i])
  }

  ghost predicate MovableClip(clip: RetainedClip) {
    HoldsWords(clip) && clip.destination.Len() == clip.source.Len()
  }

  // A retained word under a new number: everything it says, and its place
  // within its clip, stays.
  ghost function Moved(word: Word, clip: RetainedClip, id: u64): Word
    requires clip.source.start <= word.interval.start && word.interval.end <= clip.source.end
    requires clip.destination.Len() == clip.source.Len()
  {
    var offset := clip.destination.start - clip.source.start;
    Word(id, word.text, word.DisplayText(), RawInterval(word.interval.start + offset, word.interval.end + offset),
         word.confidence, word.timingUnreliable)
  }

  ghost function MovedWords(words: seq<Word>, clip: RetainedClip, n: nat): (r: seq<Word>)
    requires MovableClip(clip) && n <= |clip.words| && |words| + n <= U64_MAX
    ensures |r| == |words| + n
  {
    if n == 0 then words
    else
      var before := MovedWords(words, clip, n - 1);
      before + [Moved(clip.words[n - 1], clip, |before|)]
  }

  ghost function RetainedWords(clips: seq<RetainedClip>, n: nat): (r: seq<Word>)
    requires n <= |clips| && Movable(clips) && WordTotal(clips, n) <= U64_MAX
    ensures |r| == WordTotal(clips, n)
  {
    if n == 0 then [] else MovedWords(RetainedWords(clips, n - 1), clips[n - 1], |clips[n - 1].words|)
  }

  ghost function RetainedTranscript(original: FrozenTranscript, clips: seq<RetainedClip>): FrozenTranscript
    requires Movable(clips) && WordTotal(clips, |clips|) <= U64_MAX
  {
    FrozenTranscript(
      original.sessionId + "-retained", 1, RetainedWords(clips, |clips|), original.sampleRate,
      EndBefore(clips, |clips|), original.language)
  }

  lemma RenumberedNext(words: seq<Word>, limit: int, word: Word)
    requires Renumbered(words, limit) && limit <= word.interval.start && word.id == |words| && word.Valid()
    ensures Renumbered(words + [word], word.interval.end)
  {
  }

  // Retained words move with their clip onto the spliced timeline.
  method ShiftWords(words: seq<Word>, clip: RetainedClip) returns (shifted: Option<seq<Word>>)
    requires HoldsWords(clip) && clip.destination.Len() == clip.source.Len()
    requires Renumbered(words, clip.destination.start) && |words| + |clip.words| <= U64_MAX
    ensures shifted.Some?
    ensures |shifted.value| == |words| + |clip.words| && Renumbered(shifted.value, clip.destination.end)
    ensures shifted.value == MovedWords(words, clip, |clip.words|)
  {
    var result := words;
    for k := 0 to |clip.words|
      invariant result == MovedWords(words, clip, k)
      invariant Renumbered(result, if k == 0 then clip.destination.start
        else clip.words[k - 1].interval.end - clip.source.start + clip.destination.start)
    {
      var word := clip.words[k];
      var start := word.interval.start - clip.source.start + clip.destination.start;
      var end := word.interval.end - clip.source.start + clip.destination.start;
      var renumbered := NewWord(|result|, word.text, word.DisplayText(), start, end, word.confidence, word.timingUnreliable);
      if renumbered.None? {
        // Would reject with "recheck_transcript_invalid".
        assert false;
      }
      RenumberedNext(result, if k == 0 then clip.destination.start
        else clip.words[k - 1].interval.end - clip.source.start + clip.destination.start, renumbered.value);
      result := result + [renumbered.value];
    }
    shifted := Some(result);
  }

  // Where the first `n` clips end on the spliced timeline.
  function EndBefore(clips: seq<RetainedClip>, n: nat): u64
    requires n <= |clips|
  {
    if n == 0 then 0 else clips[n - 1].destination.end
  }

  lemma ClipStartsAt(clips: seq<RetainedClip>, i: nat)
    requires Tiled(clips) && i < |clips|
    ensures clips[i].destination.start == EndBefore(clips, i)
  {
    if i > 0 {
      var previous := clips[i - 1];
      assert previous.destination.end == clips[i].destination.start;
    }
  }

  method RenumberedTranscript(original: FrozenTranscript, clips: seq<RetainedClip>, ghost pcm: seq<i16>)
    returns (retained: Option<FrozenTranscript>)
    requires original.Valid() && Placed(clips, pcm) && WordTotal(clips, |clips|) <= U64_MAX
    requires forall i :: 0 <= i < |clips| ==> HoldsWords(clips[i])
    ensures Movable(clips) && retained == Some(RetainedTranscript(original, clips))
    ensures |retained.value.words| == WordTotal(clips, |clips|)
    ensures Renumbered(retained.value.words, retained.value.totalSamples)
    ensures retained.value.totalSamples == |SplicedPcm(clips, |clips|)|
  {
    var words: seq<Word> := [];
    var total := 0;
    PlacedMovable(clips, pcm);
    WordTotalGrows(clips, 0, |clips|);
    for i := 0 to |clips|
      invariant WordTotal(clips, i) <= U64_MAX && words == RetainedWords(clips, i)
      invariant total == EndBefore(clips, i)
      invariant Renumbered(words, total)
    {
      assert PlacedClip(clips[i], pcm);
      ClipStartsAt(clips, i);
      WordTotalGrows(clips, i + 1, |clips|);
      var shifted := ShiftWords(words, clips[i]);
      if shifted.None? {
        // Would reject with "recheck_transcript_invalid".
        assert false;
      }
      words := shifted.value;
      total := total + clips[i].source.Len();
    }
    SplicedLength(clips, pcm, |clips|);
    retained := NewTranscript(original.sessionId + "-retained", 1, words, original.sampleRate, total, original.language);
    NewTranscriptDecides(original.sessionId + "-retained", 1, words, original.sampleRate, total, original.language);
  }

  lemma PlacedMovable(clips: seq<RetainedClip>, pcm: seq<i16>)
    requires Placed(clips, pcm) && forall i :: 0 <= i < |clips| ==> HoldsWords(clips[i])
    ensures Movable(clips)
  {
    assert forall i :: 0 <= i < |clips| ==> PlacedClip(clips[i], pcm);
  }

  lemma {:induction false} WordTotalGrows(clips: seq<RetainedClip>, i: nat, j: nat)
    requires i <= j <= |clips|
    ensures WordTotal(clips, i) <= WordTotal(clips, j)
  {
    if i < j {
      WordTotalGrows(clips, i, j - 1);
    }
  }

  // ----- building the training copy ------------------------------------------

  // Content hashing, the duplicate set, and the optional recheck of retained
  // text are supplied by the caller.
  datatype Audit = Audit(
    hash: seq<string> -> string,
    seen: set<string>,
    silent: bool,
    recheck: Option<FrozenTranscript -> Option<string>>)

  // What an eligible result is made of: `removedIds` is the least closed
  // removal, and every clip is one retained interval with exactly its samples
  // and the words wholly inside it.
  ghost predicate WellBuilt(session: Session, analysis: Analysis.PrivacyAnalysis, r: BuildResult, removedIds: set<u64>)
    requires session.Valid() && r.Eligible?
  {
    var p := session.RemovalProblem(analysis);
    var retained := Complement(r.removed, session.Bound());
    && p.LeastClosed(removedIds)
    && r.removed == p.Cover(removedIds)
    && SoundlyAligned(session.transcript.words, session.Bound())
    && Placed(r.clips, session.pcm)
    && (forall i :: 0 <= i < |r.clips| ==> WellCutFrom(session, r.clips[i], removedIds, retained))
    && (forall i :: 0 <= i < |r.clips| ==> FaultOf(r.clips[i], r.removed).None?)
  }

  ghost predicate WellCut(session: Session, clip: RetainedClip, removedIds: set<u64>)
    requires session.Valid()
  {
    && clip.source.end <= |session.pcm|
    && clip == session.ClipAt(clip.index, clip.source, removedIds).(destination := clip.destination)
    && session.GateOf(clip).None?
  }

  ghost predicate Measured(session: Session, r: BuildResult)
    requires session.Valid() && r.Eligible?
  {
    && |r.clips| > 0
    && r.metrics == MetricsOf(r.clips, r.removed, session.transcript.sampleRate)
    && CheckSession(Durations(r.clips), session.settings.quality).None?
    && |r.boundaries| == |r.clips|
    && forall i :: 0 <= i < |r.clips| ==> r.boundaries[i] == Boundary(r.clips[i].source, r.clips[i].destination)
  }

  function Durations(clips: seq<RetainedClip>): (r: seq<nat>)
    ensures |r| == |clips| && forall i :: 0 <= i < |r| ==> r[i] == clips[i].durationMs
  {
    seq(|clips|, i requires 0 <= i < |clips| => clips[i].durationMs)
  }

  function WordCounts(clips: seq<RetainedClip>): (r: seq<nat>)
    ensures |r| == |clips| && forall i :: 0 <= i < |r| ==> r[i] == clips[i].WordCount()
  {
    seq(|clips|, i requires 0 <= i < |clips| => clips[i].WordCount())
  }

  // Weighted by the number of words, and by the duration.
  function ClipConfidences(clips: seq<RetainedClip>): (r: seq<(real, real)>)
    ensures |r| == |clips|
    ensures forall i :: 0 <= i < |r| ==> r[i] == (clips[i].meanConfidence, |clips[i].words| as real)
  {
    seq(|clips|, i requires 0 <= i < |clips| => (clips[i].meanConfidence, |clips[i].words| as real))
  }

  function ClipSpeechRatios(clips: seq<RetainedClip>): (r: seq<(real, real)>)
    ensures |r| == |clips|
    ensures forall i :: 0 <= i < |r| ==> r[i] == (clips[i].speechRatio, clips[i].durationMs as real)
  {
    seq(|clips|, i requires 0 <= i < |clips| => (clips[i].speechRatio, clips[i].durationMs as real))
  }

  function MetricsOf(clips: seq<RetainedClip>, removed: seq<SampleInterval>, sampleRate: nat): DatasetMetrics
    requires sampleRate > 0
  {
    DatasetMetrics(
      Sum(Durations(clips)), Sum(WordCounts(clips)),
      Mean(ClipConfidences(clips)), Mean(ClipSpeechRatios(clips)),
      |removed|, DurationMs(TotalLen(removed), sampleRate), |clips|)
  }

  function Texts(clips: seq<RetainedClip>): seq<string> {
    seq(|clips|, i requires 0 <= i < |clips| => clips[i].text)
  }

  // The words of a well cut clip lie inside it, in order.
  lemma WellCutHoldsWords(session: Session, clip: RetainedClip, removedIds: set<u64>)
    requires session.Valid() && InOrder(session.transcript.words) && WellCut(session, clip, removedIds)
    ensures HoldsWords(clip)
  {
    InsideStaysInOrder(session.transcript.words, clip.source, removedIds);
    WordsInsideHold(session.transcript.words, clip.source, removedIds);
    assert clip.words == WordsFullyInside(session.transcript.words, clip.source, removedIds);
  }

  lemma WordsInsideHold(words: seq<Word>, source: SampleInterval, removedIds: set<u64>)
    requires forall w :: w in words ==> w.Valid()
    ensures var inside := WordsFullyInside(words, source, removedIds);
      forall k :: 0 <= k < |inside| ==>
        inside[k].Valid() && source.start <= inside[k].interval.start && inside[k].interval.end <= source.end
  {
    WordsInsideAre(words, source, removedIds);
    var inside := WordsFullyInside(words, source, removedIds);
    assert forall k :: 0 <= k < |inside| ==> inside[k] in inside;
  }

  // A well cut clip from a retained interval passes the final re-check.
  lemma WellCutHasNoFault(session: Session, clip: RetainedClip, removed: seq<SampleInterval>, removedIds: set<u64>)
    requires session.Valid() && Canonical(removed) && WellCut(session, clip, removedIds)
    requires clip.source in Complement(removed, session.Bound())
    ensures FaultOf(clip, removed).None?
  {
    var retained := Complement(removed, session.Bound());
    var j :| 0 <= j < |retained| && retained[j] == clip.source;
    RetainedApart(removed, session.Bound(), j);
    WordsInsideAre(session.transcript.words, clip.source, removedIds);
  }

  ghost predicate HasWordsInside(clip: RetainedClip, words: seq<Word>, removedIds: set<u64>) {
    clip.words == WordsFullyInside(words, clip.source, removedIds)
  }

  lemma {:induction false} WordTotalIsTotalInside(
    words: seq<Word>, clips: seq<RetainedClip>, sources: seq<SampleInterval>, removedIds: set<u64>, n: nat)
    requires n <= |clips| && SourcesAre(clips, sources)
    requires forall i :: 0 <= i < |clips| ==> HasWordsInside(clips[i], words, removedIds)
    ensures WordTotal(clips, n) == TotalInside(words, sources, removedIds, n)
  {
    if n > 0 {
      WordTotalIsTotalInside(words, clips, sources, removedIds, n - 1);
      assert HasWordsInside(clips[n - 1], words, removedIds);
    }
  }

  lemma WordTotalFits(words: seq<Word>, clips: seq<RetainedClip>, removedIds: set<u64>)
    requires Apart(clips)
    requires forall i :: 0 <= i < |clips| ==> HasWordsInside(clips[i], words, removedIds)
    ensures WordTotal(clips, |clips|) <= |words|
  {
    var sources: seq<SampleInterval> := seq(|clips|, i requires 0 <= i < |clips| => clips[i].source);
    WordTotalIsTotalInside(words, clips, sources, removedIds, |clips|);
    InsideAtMostOnce(words, sources, removedIds, |clips|);
  }

  // Apart, and not reaching past the first `n` retained intervals.
  ghost predicate ApartWithin(clips: seq<RetainedClip>, retained: seq<SampleInterval>, n: nat)
    requires n <= |retained|
  {
    Apart(clips) && forall i :: 0 <= i < |clips| ==> n > 0 && clips[i].source.end <= retained[n - 1].end
  }

  lemma ApartNext(
    clips: seq<RetainedClip>, after: seq<RetainedClip>, clip: RetainedClip, retained: seq<SampleInterval>, n: nat)
    requires n < |retained| && Canonical(retained) && ApartWithin(clips, retained, n)
    requires clip.source == retained[n] && (after == clips || after == clips + [clip])
    ensures ApartWithin(after, retained, n + 1)
  {
    assert n > 0 ==> retained[n - 1].end < retained[n].start;
    assert forall i :: 0 <= i < |after| ==> after[i] == (if i < |clips| then clips[i] else clip);
  }

  ghost predicate SourcesMatch(candidates: seq<Candidate>, retained: seq<SampleInterval>) {
    |candidates| == |retained| && forall j :: 0 <= j < |retained| ==> candidates[j].clip.source == retained[j]
  }

  lemma {:induction false} PassedApart(candidates: seq<Candidate>, retained: seq<SampleInterval>, n: nat)
    requires SourcesMatch(candidates, retained) && n <= |retained| && Canonical(retained)
    ensures ApartWithin(PassedClips(candidates, n), retained, n)
  {
    if n > 0 {
      PassedApart(candidates, retained, n - 1);
      var before := PassedClips(candidates, n - 1);
      ApartNext(before, PassedClips(candidates, n), candidates[n - 1].clip.(index := |before|), retained, n - 1);
    }
  }

  lemma {:induction false} PassedWellCut(session: Session, retained: seq<SampleInterval>, removedIds: set<u64>, clips: seq<RetainedClip>, i: nat)
    requires session.Valid() && InAudio(session, retained)
    requires clips == PassedClips(Candidates(session, retained, removedIds), |retained|) && i < |clips|
    ensures WellCutFrom(session, clips[i], removedIds, retained)
  {
    var j := PassedComesFrom(Candidates(session, retained, removedIds), |retained|, i);
    GateIgnoresIndex(session, retained[j], removedIds, i);
    assert clips[i] == session.ClipAt(i, retained[j], removedIds);
  }

  // `clips` are the clips of `cut`, given destinations.
  ghost predicate MovedFrom(clips: seq<RetainedClip>, cut: seq<RetainedClip>) {
    |clips| == |cut| && forall i :: 0 <= i < |clips| ==> clips[i] == cut[i].(destination := clips[i].destination)
  }

  // Clips cut from the plan, gated, and placed on the spliced timeline.
  method CutClips(session: Session, removed: seq<SampleInterval>, removedIds: set<u64>, retained: seq<SampleInterval>)
    returns (clips: seq<RetainedClip>, rejections: seq<GateRefusal>)
    requires session.Valid() && Canonical(removed) && retained == Complement(removed, session.Bound())
    ensures Placed(clips, session.pcm)
    ensures forall i :: 0 <= i < |clips| ==> WellCutFrom(session, clips[i], removedIds, retained)
    ensures InAudio(session, retained) && MovedFrom(clips, PassedClips(Candidates(session, retained, removedIds), |retained|))
    ensures rejections == GatedOut(Candidates(session, retained, removedIds), |retained|)
  {
    var cut;
    cut, rejections := BuildClips(session, removed, removedIds, retained);
    PassedApart(Candidates(session, retained, removedIds), retained, |retained|);
    forall i | 0 <= i < |cut| ensures WellCutFrom(session, cut[i], removedIds, retained) {
      PassedWellCut(session, retained, removedIds, cut, i);
    }
    var destinations := DestinationsOf(cut);
    clips := PlaceAll(cut, destinations);
    PlaceWellCut(session, cut, destinations, removedIds, retained);
  }

  ghost predicate WellCutFrom(session: Session, clip: RetainedClip, removedIds: set<u64>, retained: seq<SampleInterval>)
    requires session.Valid()
  {
    WellCut(session, clip, removedIds) && clip.source in retained
  }

  lemma PlaceWellCut(
    session: Session, cut: seq<RetainedClip>, destinations: seq<SampleInterval>, removedIds: set<u64>,
    retained: seq<SampleInterval>)
    requires session.Valid() && Apart(cut) && DestinationsFit(cut, destinations, |cut|)
    requires forall i :: 0 <= i < |cut| ==> WellCutFrom(session, cut[i], removedIds, retained)
    ensures Placed(PlaceAll(cut, destinations), session.pcm)
    ensures forall i :: 0 <= i < |cut| ==> WellCutFrom(session, PlaceAll(cut, destinations)[i], removedIds, retained)
  {
    var clips := PlaceAll(cut, destinations);
    forall i | 0 <= i < |cut|
      ensures WellCutFrom(session, clips[i], removedIds, retained)
      ensures cut[i].source.end <= |session.pcm| && cut[i].pcm == session.pcm[cut[i].source.start..cut[i].source.end]
    {
      assert WellCutFrom(session, cut[i], removedIds, retained);
    }
    PlacedByDestinations(cut, destinations, session.pcm);
  }

  // Everything the later stages need to know about the clips.
  lemma CutFacts(
    session: Session, clips: seq<RetainedClip>, removed: seq<SampleInterval>, removedIds: set<u64>,
    retained: seq<SampleInterval>)
    requires session.Valid() && Canonical(removed) && retained == Complement(removed, session.Bound())
    requires InOrder(session.transcript.words) && Apart(clips)
    requires forall i :: 0 <= i < |clips| ==> WellCutFrom(session, clips[i], removedIds, retained)
    ensures forall i :: 0 <= i < |clips| ==> HoldsWords(clips[i]) && FaultOf(clips[i], removed).None?
    ensures WordTotal(clips, |clips|) <= U64_MAX
  {
    forall i | 0 <= i < |clips|
      ensures HoldsWords(clips[i]) && FaultOf(clips[i], removed).None?
      ensures HasWordsInside(clips[i], session.transcript.words, removedIds)
    {
      assert WellCutFrom(session, clips[i], removedIds, retained);
      WellCutHoldsWords(session, clips[i], removedIds);
      WellCutHasNoFault(session, clips[i], removed, removedIds);
    }
    WordTotalFits(session.transcript.words, clips, removedIds);
  }

  // Rules and model once more, over the retained text alone.
  method Recheck(session: Session, clips: seq<RetainedClip>, audit: Audit) returns (rejection: Option<Rejection>)
    requires session.Valid() && Placed(clips, session.pcm) && WordTotal(clips, |clips|) <= U64_MAX
    requires forall i :: 0 <= i < |clips| ==> HoldsWords(clips[i])
    ensures Movable(clips)
    ensures rejection ==
      match Verdict(session, clips, audit) case Some(code) => Some(RecheckFailed(code)) case None => None
    ensures rejection.None? ==> RecheckPassed(session, clips, audit)
  {
    PlacedMovable(clips, session.pcm);
    match audit.recheck
    case None => rejection := None;
    case Some(verify) =>
      var retained := RenumberedTranscript(session.transcript, clips, session.pcm);
      if retained.None? {
        // Would reject with "recheck_transcript_invalid".
        assert false;
      }
      match verify(retained.value)
      case Some(code) => rejection := Some(RecheckFailed(code));
      case None => rejection := None;
  }

  // What the recheck, if there is one, says about the retained transcript.
  ghost function Verdict(session: Session, clips: seq<RetainedClip>, audit: Audit): Option<string>
    requires Movable(clips) && WordTotal(clips, |clips|) <= U64_MAX
  {
    match audit.recheck
    case Some(verify) => verify(RetainedTranscript(session.transcript, clips))
    case None => None
  }

  ghost predicate RecheckPassed(session: Session, clips: seq<RetainedClip>, audit: Audit) {
    audit.recheck.Some? ==>
      exists retained :: audit.recheck.value(retained).None? && Renumbered(retained.words, retained.totalSamples)
        && |retained.words| == WordTotal(clips, |clips|) && retained.totalSamples == |SplicedPcm(clips, |clips|)|
  }

  // The checks made before anything is cut.
  function Screen(session: Session, analysis: Analysis.PrivacyAnalysis, audit: Audit): Option<Rejection> {
    if analysis.rejectedReason.Some? then Some(AnalysisRejected(analysis.rejectedReason.value))
    else if analysis.uncertain then Some(UncertainAnalysis)
    else if session.transcript.words == [] then Some(Gate(EmptyTranscript))
    else if session.transcript.Span().IsEmpty() then Some(Gate(NoAudio))
    else if session.transcript.language != "en" then Some(Gate(LanguageNotValidated))
    else if session.pcm == [] then Some(Gate(NoAudio))
    else if audit.silent then Some(SessionSilent)
    else None
  }

  function Boundaries(clips: seq<RetainedClip>): seq<Boundary> {
    seq(|clips|, i requires 0 <= i < |clips| => Boundary(clips[i].source, clips[i].destination))
  }

  // What the session gate, the recheck and the duplicate set make of the clips.
  ghost function Outcome(
    session: Session, audit: Audit, clips: seq<RetainedClip>, rejections: seq<GateRefusal>,
    removed: seq<SampleInterval>): BuildResult
    requires session.Valid() && Movable(clips) && WordTotal(clips, |clips|) <= U64_MAX
  {
    var gate := CheckSession(Durations(clips), session.settings.quality);
    if gate.Some? then Rejected(Gate(gate.value))
    else if Verdict(session, clips, audit).Some? then Rejected(RecheckFailed(Verdict(session, clips, audit).value))
    else if audit.hash(Texts(clips)) in audit.seen then Rejected(Gate(DuplicateExample))
    else
      Eligible(clips, removed, Boundaries(clips), MetricsOf(clips, removed, session.transcript.sampleRate),
               audit.hash(Texts(clips)), rejections)
  }

  // Gates, rechecks, and measures the clips.
  method Assemble(
    session: Session, audit: Audit, clips: seq<RetainedClip>, rejections: seq<GateRefusal>,
    removed: seq<SampleInterval>)
    returns (r: BuildResult)
    requires session.Valid() && Placed(clips, session.pcm) && WordTotal(clips, |clips|) <= U64_MAX
    requires forall i :: 0 <= i < |clips| ==> HoldsWords(clips[i]) && FaultOf(clips[i], removed).None?
    ensures Movable(clips) && r == Outcome(session, audit, clips, rejections, removed)
    ensures r != Rejected(AlignmentUnusable) && (r.Eligible? ==> r.clips == clips && r.removed == removed)
    ensures r.Eligible? ==> Measured(session, r) && RecheckPassed(session, r.clips, audit)
  {
    PlacedMovable(clips, session.pcm);
    var gate := CheckSession(Durations(clips), session.settings.quality);
    if gate.Some? {
      return Rejected(Gate(gate.value));
    }
    var refused := Recheck(session, clips, audit);
    if refused.Some? {
      return Rejected(refused.value);
    }
    var digest := audit.hash(Texts(clips));
    if digest in audit.seen {
      return Rejected(Gate(DuplicateExample));
    }
    var fault := AssertNoRemovedAudio(clips, removed);
    if fault.Some? {
      // Would reject with "removed_audio_in_output", "clip_length_mismatch" or "word_outside_clip".
      assert false;
    }
    r := Eligible(clips, removed, Boundaries(clips), MetricsOf(clips, removed, session.transcript.sampleRate), digest, rejections);
  }

  // The result follows from the clips of the retained intervals, placed.
  ghost predicate Concluded(
    session: Session, audit: Audit, r: BuildResult, clips: seq<RetainedClip>, removed: seq<SampleInterval>,
    retained: seq<SampleInterval>, removedIds: set<u64>)
    requires session.Valid() && InAudio(session, retained)
  {
    && MovedFrom(clips, PassedClips(Candidates(session, retained, removedIds), |retained|))
    && Placed(clips, session.pcm) && Movable(clips) && WordTotal(clips, |clips|) <= U64_MAX
    && r == Outcome(session, audit, clips, GatedOut(Candidates(session, retained, removedIds), |retained|), removed)
  }

  // The whole decision about a soundly aligned session. The least closed
  // removal is unique, and so are the clips and their places.
  ghost predicate Decided(
    session: Session, analysis: Analysis.PrivacyAnalysis, audit: Audit, r: BuildResult, removedIds: set<u64>)
    requires session.Valid()
  {
    var p := session.RemovalProblem(analysis);
    var removed := p.Cover(removedIds);
    var retained := Complement(removed, session.Bound());
    && SoundlyAligned(session.transcript.words, session.Bound())
    && p.LeastClosed(removedIds)
    && InAudio(session, retained)
    && if retained == [] then r == Rejected(FullyRedacted)
       else exists clips :: Concluded(session, audit, r, clips, removed, retained, removedIds)
  }

  // Cuts, places and judges the clips of a removal that leaves something.
  method BuildRetained(
    session: Session, audit: Audit, removed: seq<SampleInterval>, removedIds: set<u64>, retained: seq<SampleInterval>)
    returns (r: BuildResult)
    requires session.Valid() && SoundlyAligned(session.transcript.words, session.Bound())
    requires Canonical(removed) && retained == Complement(removed, session.Bound())
    ensures InAudio(session, retained)
    ensures exists clips :: Concluded(session, audit, r, clips, removed, retained, removedIds)
    ensures r != Rejected(AlignmentUnusable)
    ensures r.Eligible? ==> CutAs(session, r, removed, removedIds, retained)
    ensures r.Eligible? ==> Measured(session, r) && RecheckPassed(session, r.clips, audit)
  {
    var clips, rejections := CutClips(session, removed, removedIds, retained);
    CutFacts(session, clips, removed, removedIds, retained);
    r := Assemble(session, audit, clips, rejections, removed);
    assert Concluded(session, audit, r, clips, removed, retained, removedIds);
  }

  ghost predicate CutAs(
    session: Session, r: BuildResult, removed: seq<SampleInterval>, removedIds: set<u64>, retained: seq<SampleInterval>)
    requires session.Valid() && r.Eligible?
  {
    && r.removed == removed && Placed(r.clips, session.pcm)
    && (forall i :: 0 <= i < |r.clips| ==> WellCutFrom(session, r.clips[i], removedIds, retained))
    && (forall i :: 0 <= i < |r.clips| ==> FaultOf(r.clips[i], r.removed).None?)
  }

  // Cuts a soundly aligned session.
  method BuildAligned(session: Session, analysis: Analysis.PrivacyAnalysis, audit: Audit)
    returns (r: BuildResult, ghost removedIds: set<u64>)
    requires session.Valid() && SoundlyAligned(session.transcript.words, session.Bound())
    ensures Decided(session, analysis, audit, r, removedIds)
    ensures r != Rejected(AlignmentUnusable)
    ensures r.Eligible? ==> WellBuilt(session, analysis, r, removedIds)
    ensures r.Eligible? ==> Measured(session, r) && RecheckPassed(session, r.clips, audit)
  {
    var words, bound := session.transcript.words, session.Bound();
    var extra := SentencesWithUnusableWords(words, analysis.sentences, session.settings.privacy.minWordConfidence);
    var plan := PlanRemovals(session.transcript, analysis.spans, analysis.sentences, session.settings.removal, extra, Some(bound));
    removedIds := plan.removedWordIds;
    var retained := ComputeComplement(plan.intervals, bound);
    if retained == [] {
      return Rejected(FullyRedacted), removedIds;
    }
    r := BuildRetained(session, audit, plan.intervals, plan.removedWordIds, retained);
  }

  method BuildDataset(session: Session, analysis: Analysis.PrivacyAnalysis, audit: Audit) returns (r: BuildResult)
    requires session.Valid()
    ensures Screen(session, analysis, audit).Some? ==> r == Rejected(Screen(session, analysis, audit).value)
    ensures Screen(session, analysis, audit).None? ==>
      if SoundlyAligned(session.transcript.words, session.Bound())
      then r != Rejected(AlignmentUnusable) && exists removedIds :: Decided(session, analysis, audit, r, removedIds)
      else r == Rejected(AlignmentUnusable)
    ensures r.Eligible? ==> exists removedIds :: WellBuilt(session, analysis, r, removedIds)
    ensures r.Eligible? ==> Measured(session, r) && RecheckPassed(session, r.clips, audit)
  {
    var screened := Screen(session, analysis, audit);
    if screened.Some? {
      return Rejected(screened.value);
    }
    var words, bound := session.transcript.words, session.Bound();
    var problems := ValidateAlignment(words, bound, session.settings.privacy.minWordConfidence);
    FatalProblemsDecideSoundness(words, bound, session.settings.privacy.minWordConfidence, problems);
    if exists p | p in SESSION_FATAL_ALIGNMENT :: p in problems {
      return Rejected(AlignmentUnusable);
    }
    assert problems !! SESSION_FATAL_ALIGNMENT;
    ghost var removedIds;
    r, removedIds := BuildAligned(session, analysis, audit);
  }

  // ----- what an eligible result guarantees ----------------------------------

  lemma {:induction false} SplicedSampleSource(clips: seq<RetainedClip>, pcm: seq<i16>, n: nat, d: nat)
    returns (i: nat, k: nat)
    requires Placed(clips, pcm) && n <= |clips| && d < |SplicedPcm(clips, n)|
    ensures i < n && k < clips[i].source.Len() && d == clips[i].destination.start + k
  {
    SplicedLength(clips, pcm, n);
    SplicedLength(clips, pcm, n - 1);
    assert PlacedClip(clips[n - 1], pcm);
    if d < |SplicedPcm(clips, n - 1)| {
      i, k := SplicedSampleSource(clips, pcm, n - 1, d);
    } else {
      i, k := n - 1, d - |SplicedPcm(clips, n - 1)|;
      if n > 1 {
        var previous := clips[n - 2];
        assert previous.destination.end == clips[n - 1].destination.start;
      }
    }
  }

  ghost predicate AwayFrom(word: Word, removedIds: set<u64>, padding: u64, x: int) {
    word.id in removedIds && !word.interval.IsEmpty() ==>
      x < word.interval.start - padding || word.interval.end + padding <= x
  }

  ghost predicate AwayFromRemoved(p: Problem, removedIds: set<u64>, x: int) {
    forall k :: 0 <= k < |p.words| ==> AwayFrom(p.words[k], removedIds, p.padding, x)
  }

  lemma UncoveredIsAway(p: Problem, removedIds: set<u64>, x: int)
    requires p.bound.Contains(x) && !Covered(p.Cover(removedIds), x)
    ensures AwayFromRemoved(p, removedIds, x)
  {
    forall k | 0 <= k < |p.words| ensures AwayFrom(p.words[k], removedIds, p.padding, x) {
      if p.words[k].id in removedIds && !p.words[k].interval.IsEmpty() {
        SafetyMargin(p, removedIds, k, x);
      }
    }
  }

  // Each position of the spliced audio holds a sample of some clip's source.
  lemma SplicedSampleIs(clips: seq<RetainedClip>, pcm: seq<i16>, d: nat) returns (i: nat, x: nat)
    requires Placed(clips, pcm) && d < |SplicedPcm(clips, |clips|)|
    ensures i < |clips| && clips[i].source.Contains(x)
    ensures x < |pcm| && SplicedPcm(clips, |clips|)[d] == pcm[x]
  {
    var k;
    i, k := SplicedSampleSource(clips, pcm, |clips|, d);
    SplicedAt(clips, pcm, |clips|, i, k);
    x := clips[i].source.start + k;
  }

  // Every exported sample is a session sample that no removal covers and that
  // keeps the padding away from every removed word that has a length.
  lemma NoRemovedSampleExported(
    session: Session, analysis: Analysis.PrivacyAnalysis, r: BuildResult, removedIds: set<u64>, d: nat) returns (x: nat)
    requires session.Valid() && r.Eligible? && WellBuilt(session, analysis, r, removedIds)
    requires d < |SplicedPcm(r.clips, |r.clips|)|
    ensures x < |session.pcm| && SplicedPcm(r.clips, |r.clips|)[d] == session.pcm[x]
    ensures !Covered(r.removed, x)
    ensures AwayFromRemoved(session.RemovalProblem(analysis), removedIds, x)
  {
    var i;
    i, x := SplicedSampleIs(r.clips, session.pcm, d);
    SourceIsSafe(session, analysis, r, removedIds, i, x);
  }

  lemma SourceIsSafe(
    session: Session, analysis: Analysis.PrivacyAnalysis, r: BuildResult, removedIds: set<u64>, i: nat, x: nat)
    requires session.Valid() && r.Eligible? && WellBuilt(session, analysis, r, removedIds)
    requires i < |r.clips| && r.clips[i].source.Contains(x)
    ensures !Covered(r.removed, x) && AwayFromRemoved(session.RemovalProblem(analysis), removedIds, x)
  {
    assert WellCutFrom(session, r.clips[i], removedIds, Complement(r.removed, session.Bound()));
    RetainedUncovered(r.removed, session.Bound(), r.clips[i].source, x);
    UncoveredIsAway(session.RemovalProblem(analysis), removedIds, x);
  }

  lemma RetainedUncovered(removed: seq<SampleInterval>, bound: SampleInterval, source: SampleInterval, x: int)
    requires source in Complement(removed, bound) && source.Contains(x)
    ensures bound.Contains(x) && !Covered(removed, x)
  {
    var retained := Complement(removed, bound);
    var j :| 0 <= j < |retained| && retained[j] == source;
    assert Covered(retained, x);
  }

  // The word is among a clip's words, or its interval was refused by a gate.
  ghost predicate Accounted(r: BuildResult, word: Word, j: nat)
    requires r.Eligible?
  {
    || (exists i :: 0 <= i < |r.clips| && word in r.clips[i].words)
    || (exists i :: 0 <= i < |r.clipRejections| && r.clipRejections[i].position == j)
  }

  // The removal of a soundly aligned session is a session problem.
  lemma RemovalIsSessionProblem(session: Session, analysis: Analysis.PrivacyAnalysis, pauseSamples: u64)
    requires session.Valid() && SoundlyAligned(session.transcript.words, session.Bound())
    requires IsSegmentation(session.transcript.words, pauseSamples, analysis.sentences)
    ensures SessionProblem(session.RemovalProblem(analysis), pauseSamples, session.settings.privacy.minWordConfidence)
  {
  }

  // Every exported word is usable: confident enough and reliably timed. The one
  // word that may not be bears the largest identifier.
  lemma {:induction false} ExportedWordUsable(
    session: Session, analysis: Analysis.PrivacyAnalysis, r: BuildResult, removedIds: set<u64>, pauseSamples: u64,
    i: nat, k: nat)
    requires session.Valid() && r.Eligible? && WellBuilt(session, analysis, r, removedIds)
    requires IsSegmentation(session.transcript.words, pauseSamples, analysis.sentences)
    requires i < |r.clips| && k < |r.clips[i].words|
    ensures r.clips[i].words[k].id < U64_MAX ==>
      !Unusable(r.clips[i].words[k], session.settings.privacy.minWordConfidence)
  {
    var words, clip := session.transcript.words, r.clips[i];
    assert WellCutFrom(session, clip, removedIds, Complement(r.removed, session.Bound()));
    assert HasWordsInside(clip, words, removedIds);
    WordsInsideAre(words, clip.source, removedIds);
    assert clip.words[k] in words && clip.words[k].id !in removedIds;
    RemovalIsSessionProblem(session, analysis, pauseSamples);
    var at :| 0 <= at < |words| && words[at] == clip.words[k];
    KeptIsUsable(session.RemovalProblem(analysis), pauseSamples, session.settings.privacy.minWordConfidence, removedIds, at);
  }

  lemma KeptIsUsable(p: Problem, pauseSamples: u64, minConfidence: real, removed: set<u64>, k: nat)
    requires SessionProblem(p, pauseSamples, minConfidence) && p.Closed(removed)
    requires k < |p.words| && p.words[k].id !in removed
    ensures p.words[k].id < U64_MAX ==> !Unusable(p.words[k], minConfidence)
  {
    if Unusable(p.words[k], minConfidence) && p.words[k].id < U64_MAX {
      UnusableWordRemoved(p, pauseSamples, minConfidence, removed, k);
    }
  }

  ghost predicate InsideOnly(interval: SampleInterval, retained: seq<SampleInterval>, j: nat) {
    && j < |retained| && retained[j].start <= interval.start && interval.end <= retained[j].end
    && forall i :: 0 <= i < |retained| && i != j ==> !interval.Intersects(retained[i])
  }

  // No kept word with a length is lost or half cut: it lies wholly inside
  // exactly one retained interval, and is exported with it unless a gate refused
  // that interval.
  lemma {:induction false} KeptWordAccounted(
    session: Session, analysis: Analysis.PrivacyAnalysis, audit: Audit, r: BuildResult, removedIds: set<u64>, k: nat)
    returns (j: nat)
    requires session.Valid() && Decided(session, analysis, audit, r, removedIds) && r.Eligible?
    requires k < |session.transcript.words| && session.transcript.words[k].id !in removedIds
    requires !session.transcript.words[k].interval.IsEmpty()
    ensures InsideOnly(session.transcript.words[k].interval, Complement(r.removed, session.Bound()), j)
    ensures Accounted(r, session.transcript.words[k], j)
  {
    var p := session.RemovalProblem(analysis);
    j := KeptWordInOneClip(p, removedIds, k);
    var retained := Complement(p.Cover(removedIds), session.Bound());
    assert InsideOnly(session.transcript.words[k].interval, retained, j);
    DecisionAccounts(session, analysis, audit, r, removedIds, retained, session.transcript.words[k], j);
  }

  lemma {:induction false} DecisionAccounts(
    session: Session, analysis: Analysis.PrivacyAnalysis, audit: Audit, r: BuildResult, removedIds: set<u64>,
    retained: seq<SampleInterval>, word: Word, j: nat)
    requires session.Valid() && Decided(session, analysis, audit, r, removedIds) && r.Eligible?
    requires retained == Complement(session.RemovalProblem(analysis).Cover(removedIds), session.Bound())
    requires word in session.transcript.words && word.id !in removedIds && InsideOnly(word.interval, retained, j)
    ensures r.removed == session.RemovalProblem(analysis).Cover(removedIds) && Accounted(r, word, j)
  {
    var removed := session.RemovalProblem(analysis).Cover(removedIds);
    var clips :| Concluded(session, audit, r, clips, removed, retained, removedIds);
    var candidates := Candidates(session, retained, removedIds);
    EligibleOutcome(session, audit, r, clips, GatedOut(candidates, |retained|), removed);
    CandidateHolds(session, retained, removedIds, candidates, word, j);
    EveryIntervalJudged(candidates, |retained|, j);
    JudgedIsAccounted(candidates, r, word, j);
  }

  lemma EligibleOutcome(
    session: Session, audit: Audit, r: BuildResult, clips: seq<RetainedClip>, rejections: seq<GateRefusal>,
    removed: seq<SampleInterval>)
    requires session.Valid() && Movable(clips) && WordTotal(clips, |clips|) <= U64_MAX
    requires r == Outcome(session, audit, clips, rejections, removed) && r.Eligible?
    ensures r.clips == clips && r.removed == removed && r.clipRejections == rejections
  {
  }

  lemma {:induction false} CandidateHolds(
    session: Session, retained: seq<SampleInterval>, removedIds: set<u64>, candidates: seq<Candidate>, word: Word, j: nat)
    requires session.Valid() && InAudio(session, retained) && candidates == Candidates(session, retained, removedIds)
    requires word in session.transcript.words && word.id !in removedIds && InsideOnly(word.interval, retained, j)
    ensures word in candidates[j].clip.words
  {
    assert candidates[j] == CandidateOf(session, retained[j], removedIds);
    WordsInsideAre(session.transcript.words, retained[j], removedIds);
  }

  lemma JudgedIsAccounted(candidates: seq<Candidate>, r: BuildResult, word: Word, j: nat)
    requires r.Eligible? && j < |candidates| && word in candidates[j].clip.words
    requires MovedFrom(r.clips, PassedClips(candidates, |candidates|))
    requires r.clipRejections == GatedOut(candidates, |candidates|)
    requires Judged(candidates[j], PassedClips(candidates, |candidates|), GatedOut(candidates, |candidates|), j)
    ensures Accounted(r, word, j)
  {
    var passed := PassedClips(candidates, |candidates|);
    if candidates[j].gate.None? {
      var i :| 0 <= i < |passed| && passed[i] == candidates[j].clip.(index := i);
      assert word in r.clips[i].words;
    } else {
      var i :| 0 <= i < |r.clipRejections| && r.clipRejections[i] == GateRefusal(j, candidates[j].gate.value);
      assert r.clipRejections[i].position == j;
    }
  }
}
