# Dictation: privacy cuts, contribution, control

A Dafny model of the logic of a local dictation program, with proofs.

A user dictates; the program records, recognizes, and delivers text. With consent, a finished
session may be contributed for training: sensitive words are cut out of text and audio, the rest
is packed, uploaded once, and can be withdrawn at any time. Five parts are modelled.

- **Privacy cuts.** `TimeMap` is the theory of sample intervals: a canonical form, padding,
  complement, and the spliced timeline. `Removal` turns sensitive word spans into cut samples by
  a loop that runs to a fixed point. `Privacy`, `Windows` and `Analysis` are the alignment checks,
  the classifier windows, and the union of rules and model. `Cuts` and `Dataset` build the
  training copy. The source re-checks its own geometry at run time; here each of those guards
  is a branch proved dead. `Alignment` is the path from recognizer tokens to frozen words, which
  supplies the ordering the cuts rely on.
- **Contribution.** `Jobs`, `Queue`, `Pipeline` and `Upload` are the client, and `RawSessions` the
  recordings it keeps until a job is built or dropped; `Lineage`, `Server` and `Retention` are the
  training server, and `Isolation` what its operations leave alone. `Protocol` puts both sides into
  one state with a network that loses, delays and repeats messages. `ProtocolSafety` holds the
  invariant, `Contribution` the theorems over every run, and `Erasure` carries withdrawal through
  to the server: what a confirmed deletion request means for the sample and all built from it.
- **Recording control.** `Recording` is the state machine, `Control` (in `Controller.dfy`) the
  event loop around it, `Sessions` what an orderly trace of happenings guarantees, `ControlRuns`
  the invariants and the theorems over every run.
- **Packages.** `Wav`, `Names`, `Package`, `Acceptance`: the upload format, its validation, and
  exactly when a built package passes that validation.
- **Algorithms.** `Captions` (live captions and a client's replica of them), `EditDistance`,
  `RateConverter`, `Quality`.

Code that updates state step by step is a method or a class here, proved equal to a
specification function; the theorems are about those functions. Clocks, random identifiers, the
network and library functions are parameters.

## What is proved false, and exactly when it holds

- "Every word lies in some sentence" holds for a word if and only if its id is below the 64-bit
  maximum, where the exclusive end of the sentence saturates (`Removal.SentenceHolding`).
  Transcripts with that id are accepted (`crates/dictation-core/src/transcript.rs:254-280`,
  `crates/dictation-engine/src/training.rs:105-124`).
- "Every unusable word is removed" fails for that reason: `Cuts.MaxWordSurvives` is a transcript of
  one hopeless word from which nothing is cut. It holds if and only if the last word is usable, or
  its id is below the maximum, or the padded cuts made for the other words touch it
  (`Cuts.UnusableWordsRemoved`); kept words all have a length under the same condition with "has a
  length" for "is usable" (`Cuts.KeptWordsHaveLength`). What needs such words is stated for words
  with a length, whatever their ids.
- "Every word of a segment is emitted" holds if and only if no pending text is blank
  (`Alignment.BlankWordsDropped`); then the words tile the segment (`Alignment.WordsTile`).
- Deleting samples keeps live and deleted sample ids apart if and only if no id belongs to
  another tenant's live sample (`Retention.DisjointIffOwn`); `Retention.ForeignSampleBreaks` is a
  store where one does. The single-sample deletion request passes its id on as it is
  (`crates/dictation-server/src/http.rs:247-250`), and the tombstone is by id alone.
- A deletion leaves every other tenant's samples, nodes, receipts, consents, deliveries and objects
  alone if and only if it names no live node of another tenant (`Isolation.DeletionIsolated`).
- A written WAV file validates if and only if its size fits the 32-bit RIFF field; past that, the
  writer saturates and its own validator refuses the file (`Wav.EncodedValidates`).
  `Wav.TooLongIsRefused` is the shortest such file.

## Model

| member | source | states |
|---|---|---|
| `TimeMap.Clamp` | crates/dictation-core/src/time_map.rs:87-91 | clamping keeps exactly the samples that lie in both intervals |
| `TimeMap.CanonicalUnique` | crates/dictation-core/src/time_map.rs:109-127 | two lists of non-empty, strictly separated intervals that cover the same samples are the same list |
| `TimeMap.Normal` | crates/dictation-core/src/time_map.rs:109-127 | the reference normal form is canonical and covers the same samples as its input |
| `TimeMap.Normalize` | crates/dictation-core/src/time_map.rs:109-127 | sorting and merging the last interval in place computes that normal form |
| `TimeMap.NormalDecidesCover` | crates/dictation-core/src/time_map.rs:109-127 | two lists normalize to the same list if and only if they cover the same samples |
| `TimeMap.Pad` | crates/dictation-core/src/time_map.rs:130-145 | a padded interval holds exactly the samples of the bound within the padding of the interval, saturation included |
| `TimeMap.PadAllCovers` | crates/dictation-core/src/time_map.rs:148-158 | normalizing before padding loses nothing: the result covers exactly the bound's samples near some non-empty interval |
| `TimeMap.Complement` | crates/dictation-core/src/time_map.rs:161-184 | the complement is canonical and covers exactly the samples of the bound that are not covered |
| `TimeMap.SweepGaps` | crates/dictation-core/src/time_map.rs:161-184 | the moving cursor collects exactly the gaps |
| `TimeMap.ComputeComplement` | crates/dictation-core/src/time_map.rs:161-184 | the imperative complement is the complement |
| `TimeMap.ComplementTwice` | crates/dictation-core/src/time_map.rs:161-184 | the complement of the complement is the normal form of the clamped input |
| `TimeMap.TotalLenCounts` | crates/dictation-core/src/time_map.rs:192-206 | the lengths of a canonical list add up to the number of samples it covers |
| `TimeMap.ComplementConserves` | crates/dictation-core/src/time_map.rs:161-184 | retained and removed lengths add up to the length of the bound |
| `TimeMap.OffsetBounded` | crates/dictation-core/src/time_map.rs:192-206 | the running offset never passes the interval's own start, so it cannot saturate |
| `TimeMap.BuildDestinationMap` | crates/dictation-core/src/time_map.rs:192-206 | the offsets stored are the running totals of the normalized intervals |
| `TimeMap.DestinationExists` | crates/dictation-core/src/time_map.rs:219-226 | every retained interval has a destination, and destinations follow each other from zero |
| `TimeMap.MapSampleIsRank` | crates/dictation-core/src/time_map.rs:229-235 | a retained sample maps to the number of retained samples before it; a removed one maps nowhere |
| `TimeMap.MapSampleInRange` | crates/dictation-core/src/time_map.rs:229-235 | the map is defined exactly on retained samples and stays below the total |
| `TimeMap.MapSampleIncreases` | crates/dictation-core/src/time_map.rs:229-235 | the map is strictly increasing |
| `TimeMap.MapSampleOnto` | crates/dictation-core/src/time_map.rs:229-235 | every destination position below the total is the image of a retained sample |
| `Transcript.NewTranscriptDecides` | crates/dictation-core/src/transcript.rs:254-280 | comparing adjacent ids accepts exactly the transcripts with a sample rate and strictly increasing ids, unchanged |
| `Removal.SentencesFromWords` | crates/dictation-core/src/removal.rs:69-107 | sentences partition the words: each ends at terminal punctuation, a long pause, or the last word, and nowhere earlier; all that is asked is that none of them ends before it starts |
| `Removal.SegmentedIsNotInverted` | crates/dictation-core/src/removal.rs:104-107 | that demand is exact: where a sentence would end before it starts, no list of sentences splits the words so |
| `Removal.SentenceHolding` | crates/dictation-core/src/removal.rs:69-107 | a word lies in some sentence, carrying its own position as index, if and only if its id is below the 64-bit maximum |
| `Removal.SentencesDisjoint` | crates/dictation-core/src/removal.rs:69-107 | no id lies in two sentences |
| `Removal.ExpandSpan` | crates/dictation-core/src/removal.rs:110-136 | one span covers the words of every sentence it overlaps when sentences are to be dropped, else its own words |
| `Removal.ExpandToSentences` | crates/dictation-core/src/removal.rs:110-136 | the expanded ids and sentence indices are exactly those some span asks for |
| `Removal.CoverGrows` | crates/dictation-core/src/removal.rs:235-256 | removing more words, or being asked for more, never cuts fewer samples |
| `Removal.PullIn` | crates/dictation-core/src/removal.rs:190-202 | one pass adds exactly the words that meet the padded intervals |
| `Removal.PullInToFixedPoint` | crates/dictation-core/src/removal.rs:181-214 | the loop ends within one iteration per word, with the least set that holds what was asked for and is closed under its own padded cover |
| `Removal.MarkSentences` | crates/dictation-core/src/removal.rs:216-224 | the sentences reported removed are those cut whole and those that lost a word |
| `Removal.PlanRemovals` | crates/dictation-core/src/removal.rs:140-233 | the plan's word ids are the least closed set, its intervals their padded cover, its sentences exactly those touched |
| `Removal.MoreSpansAskForMore` | crates/dictation-core/src/privacy.rs:262-293 | a superset of spans and of unusable sentences asks for at least as much |
| `Removal.RemovalMonotone` | crates/dictation-core/src/removal.rs:140-233 | asking for more never shrinks the removed words or the removed samples |
| `Removal.SafetyMargin` | crates/dictation-core/src/removal.rs:235-256 | no kept sample of the bound lies within the padding of a removed word that has a length |
| `Privacy.ValidateAlignment` | crates/dictation-core/src/privacy.rs:306-336 | a problem is reported if and only if some word shows it |
| `Privacy.FatalProblemsDecideSoundness` | crates/dictation-core/src/privacy.rs:296-336 | a session-fatal problem is reported exactly when the words are not ordered, inside the audio, visible, and timed or flagged |
| `Privacy.SoundIsTimedInOrder` | crates/dictation-core/src/removal.rs:104-105 | words without a fatal problem have the ordering that sentence construction needs |
| `Windows.SentenceBoundaries` | crates/dictation-core/src/privacy.rs:93-129 | the collected positions are exactly those just after a sentence |
| `Windows.WindowEnd` | crates/dictation-core/src/privacy.rs:93-129 | a window is never empty or too long, and ends at the last sentence boundary that fits, if one does |
| `Windows.BuildWindows` | crates/dictation-core/src/privacy.rs:93-129 | terminates with contiguous windows from the first word to the last, each starting the overlap before the end of the one before |
| `Windows.EveryWordWindowed` | crates/dictation-core/src/privacy.rs:255-261 | every word is in some window |
| `Windows.OverlapShared` | crates/dictation-core/src/privacy.rs:93-129 | with short sentences consecutive windows share exactly the overlap |
| `Windows.RunsStayWhole` | crates/dictation-core/src/privacy.rs:93-129 | if no sentence exceeds the window less the overlap, every run of up to overlap + 1 words lies whole in one window |
| `Analysis.AskWindows` | crates/dictation-core/src/privacy.rs:262-290 | rejected if and only if some window gets no valid answer, with the reason of the first; spans are exactly the union of rules and the answers before it |
| `Analysis.NoCoverageGap` | crates/dictation-core/src/privacy.rs:255-261 | the ids of the windows hold every word id, so the coverage gap cannot occur |
| `Analysis.Analyze` | crates/dictation-core/src/privacy.rs:224-294 | an empty transcript is refused with the rule spans only; otherwise the windows cover the words, all are counted, and the result is that of asking them |
| `Analysis.RejectedIffUnanswered` | crates/dictation-core/src/privacy.rs:255-293 | an analysis with words is rejected exactly when some window gets no valid answer, never for a gap, and keeps every rule span |
| `Analysis.ModelOnlyAdds` | crates/dictation-core/src/privacy.rs:262-293 | whatever the model answers, every word and sample removed by the rules alone stays removed |
| `Quality.SessionActivity.SpeechBounded` | crates/dictation-core/src/vad.rs:117-130 | frames being disjoint, no interval holds more speech than samples |
| `Quality.SessionActivity.SpeechRatioIsRatio` | crates/dictation-core/src/vad.rs:133-142 | the speech ratio lies in [0, 1] |
| `Quality.MeanIsRatio` | crates/dictation-core/src/dataset.rs:215-224 | a weighted mean of ratios is a ratio, also when nothing weighs anything |
| `Cuts.WordsInsideAre` | crates/dictation-core/src/removal.rs:259-274 | the words collected are exactly the kept words that lie wholly inside the interval |
| `Cuts.LastGoesIffTouched` | crates/dictation-core/src/removal.rs:181-214 | a last word with the largest id is removed if and only if the padded cuts made for the other words touch it |
| `Cuts.UnusableWordsRemoved` | crates/dictation-core/src/privacy.rs:340-355 | every low-confidence or badly timed word is removed if and only if the last word is usable, has a smaller id, or is touched by the cuts for the others |
| `Cuts.KeptWordsHaveLength` | crates/dictation-core/src/dataset.rs:256-300 | every kept word has a length if and only if an empty last word does not slip through in that way |
| `Cuts.MaxWordSurvives` | crates/dictation-core/src/privacy.rs:340-355 | a transcript whose one unusable word bears the largest id: no sentence is found for it and nothing is removed |
| `Cuts.KeptWordInOneClip` | crates/dictation-core/src/dataset.rs:256-300 | each kept word with a length lies wholly inside exactly one retained interval and meets no other, whatever its id |
| `Cuts.ClipWordsAreKeptWords` | crates/dictation-core/src/dataset.rs:256-300 | reading the retained intervals in order gives exactly the kept words, in transcript order |
| `Cuts.InsideAtMostOnce` | crates/dictation-core/src/dataset.rs:256-300 | separate clips never hold a word twice, so their words never outnumber the transcript's |
| `Dataset.AssertNoRemovedAudio` | crates/dictation-core/src/dataset.rs:143-163 | the final check passes if and only if no clip meets a cut, has the wrong length, or holds a word it does not contain |
| `Dataset.RetainedApart` | crates/dictation-core/src/dataset.rs:288-295 | a retained interval never meets a removed one |
| `Dataset.CutClip` | crates/dictation-core/src/dataset.rs:286-338 | the overlap and out-of-audio guards cannot fire; a clip has exactly its interval, samples and words |
| `Dataset.BuildClips` | crates/dictation-core/src/dataset.rs:286-350 | the clips are exactly the retained intervals that pass every gate, in order, and every other is refused with its reason |
| `Dataset.EveryIntervalJudged` | crates/dictation-core/src/dataset.rs:286-350 | no retained interval is lost: each is a clip or refused, as its gates decide, and nothing else is either |
| `Dataset.DestinationsOf` | crates/dictation-core/src/dataset.rs:355-368 | clips keep their order on the spliced timeline and every destination exists |
| `Dataset.SplicedFollowsMap` | crates/dictation-core/src/dataset.rs:120-125 | the spliced audio holds at the mapped position exactly the source sample |
| `Dataset.SplicedSlice` | crates/dictation-core/src/dataset.rs:120-125 | slicing the spliced audio at a clip's destination gives that clip's audio |
| `Dataset.ShiftWords` | crates/dictation-core/src/dataset.rs:425-438 | moving a clip's words onto the timeline cannot fail, numbers them on, and keeps what they say and their place within the clip |
| `Dataset.RenumberedTranscript` | crates/dictation-core/src/dataset.rs:419-448 | the retained transcript is always valid and is exactly the clips' words, renumbered, in order and inside the spliced audio |
| `Dataset.WellCutHasNoFault` | crates/dictation-core/src/dataset.rs:143-163 | a clip cut from a retained interval passes the final check |
| `Dataset.CutFacts` | crates/dictation-core/src/dataset.rs:369-380 | the clips hold their own words in order, without fault, and few enough to number |
| `Dataset.Recheck` | crates/dictation-core/src/dataset.rs:369-380 | the recheck is asked about the renumbered transcript of exactly the retained audio, and its verdict stands; the invalid-transcript guard cannot fire |
| `Dataset.Assemble` | crates/dictation-core/src/dataset.rs:351-415 | session gate, recheck and duplicate set decide in that order; totals and content hash are taken over exactly the clips, and the final check cannot fire |
| `Dataset.BuildDataset` | crates/dictation-core/src/dataset.rs:229-415 | the whole decision: early rejections exactly on their conditions, unusable alignment exactly on unsound words, full redaction exactly when nothing is left, otherwise the outcome of the clips of the least closed removal |
| `Dataset.KeptWordAccounted` | crates/dictation-core/src/dataset.rs:5-11 | for an eligible result: every word with a length that was not removed lies wholly inside exactly one retained interval, and is exported with it unless a gate refused that interval; soundness of the words is concluded, not assumed |
| `Dataset.ExportedWordUsable` | crates/dictation-core/src/dataset.rs:256-300 | every exported word with an id below the maximum is confident enough and reliably timed |
| `Dataset.NoRemovedSampleExported` | crates/dictation-core/src/dataset.rs:5-11 | every exported sample is a session sample that no cut covers and that keeps the padding from every removed word with a length |
| `Alignment.Gather` | workers/asr/src/words.rs:43-80 | tokens are grouped without loss or reordering; only a token that opens a word starts a group, and each word summarizes its group |
| `Alignment.TileWords` | workers/asr/src/words.rs:81-110 | the loop that carries the previous start produces the tiled words |
| `Alignment.GroupWords` | workers/asr/src/words.rs:43-110 | the words of a segment are its token groups, tiled over the segment clipped to the audio |
| `Alignment.WordsTile` | workers/asr/src/words.rs:81-110 | if no pending text is blank the emitted words are as many as the pending ones, each ends exactly where the next starts, the first starts at its onset and the last ends with the segment; otherwise words are missing |
| `Alignment.BlankWordsDropped` | workers/asr/src/words.rs:100-107 | a word is missing from the emitted ones if and only if some pending text is blank |
| `Alignment.WordsAligned` | workers/asr/src/words.rs:81-110 | words are in order, inside the segment, with a probability in [0, 1], and flagged when they have no length |
| `Alignment.RecognizeSegments` | workers/asr/src/main.rs:140-173 | each segment holds its own grouped words over its own clipped interval, whatever the order of the segments |
| `Alignment.RecognizedAligned` | workers/asr/src/main.rs:140-173 | ordered, non-overlapping segments give words aligned within each |
| `Alignment.Freeze` | crates/dictation-core/src/asr.rs:79-117 | freezing succeeds exactly with a sample rate, gives a valid transcript, and aligned segments give soundly aligned words from which no sentence comes out inverted |
| `Alignment.FrozenIdsIncrease` | crates/dictation-core/src/asr.rs:86-117 | frozen ids are 0, 1, 2, ... whatever was dropped |
| `Alignment.FrozenWordsSound` | crates/dictation-core/src/asr.rs:86-117 | words frozen with the recognizer's audio length never show a session-fatal alignment problem |
| `Captions.LiveReconciler.ApplyPass` | crates/dictation-core/src/asr.rs:185-254 | one pass commits every stable or forced leading segment and then revises the tail, with one update for each change |
| `Captions.LiveReconciler.CommitStable` | crates/dictation-core/src/asr.rs:185-254 | the commit loop never takes the last segment and stops at the first that is not stable |
| `Captions.PassKeeps` | crates/dictation-core/src/asr.rs:185-254 | a pass keeps ids dense, revisions per id rising, and the snapshot newest; committed segments only grow and the commit point never falls |
| `Captions.SessionConsistent` | crates/dictation-core/src/asr.rs:185-282 | over a whole session the snapshot holds, for each id, the newest update sent |
| `Captions.CommittedIsFinal` | crates/dictation-core/src/asr.rs:185-254 | a segment committed by any prefix of the passes is never changed later |
| `Captions.ReplayShowsHighest` | crates/dictation-api/examples/caption_client.rs:108-114 | a client shows a delivered update of highest revision for each segment |
| `Captions.ReplicaConverges` | crates/dictation-api/examples/caption_client.rs:108-114 | receiving all updates, in any order and with any repetition, leaves the client with exactly the snapshot |
| `EditDistance.FillRow` | crates/dictation-core/src/wer.rs:16-30 | each entry of the current row follows from the row above and the entry to its left |
| `EditDistance.ComputedRow` | crates/dictation-core/src/wer.rs:16-30 | such a row holds the distances of one more reference word to every hypothesis prefix |
| `EditDistance.Distance` | crates/dictation-core/src/wer.rs:16-30 | the two swapped rows compute the recursive edit distance, empty inputs included |
| `EditDistance.Shortest` | crates/dictation-core/src/wer.rs:16-30 | there is an edit script of exactly that cost |
| `EditDistance.NoScriptIsShorter` | crates/dictation-core/src/wer.rs:16-30 | no edit script between the same words costs less |
| `EditDistance.ZeroIffEqual` | crates/dictation-core/src/wer.rs:16-30 | the distance is zero if and only if the words are equal |
| `EditDistance.Symmetric` | crates/dictation-core/src/wer.rs:16-30 | the distance is symmetric |
| `EditDistance.Triangle` | crates/dictation-core/src/wer.rs:16-30 | the distance satisfies the triangle inequality |
| `EditDistance.Bounds` | crates/dictation-core/src/wer.rs:16-30 | the distance lies between the difference of the lengths and the longer length |
| `EditDistance.CorpusErrorRate` | crates/dictation-core/src/wer.rs:34-43 | the corpus rate is all edits over all reference words, and undefined without reference words |
| `EditDistance.NoErrorsIffSameWords` | crates/dictation-core/src/wer.rs:34-43 | a corpus has no errors if and only if every pair reads the same once normalized |
| `RateConverter.Converter.constructor` | crates/dictation-platform/src/microphone.rs:346-359 | a fresh converter starts in silence with nothing accumulated, filtering only when the rate falls |
| `RateConverter.Converter.Convert` | crates/dictation-platform/src/microphone.rs:361-388 | one call advances the stream by its input; equal rates pass it through untouched |
| `RateConverter.Converter.Push` | crates/dictation-platform/src/microphone.rs:371-386 | one sample shifts the window and emits the filtered value once for every source period that has passed |
| `RateConverter.StreamSplits` | crates/dictation-platform/src/microphone.rs:361-388 | feeding a then b gives the output and the state of feeding a + b |
| `RateConverter.ConvertSplits` | crates/dictation-platform/src/microphone.rs:361-388 | the same for the converter at any pair of rates |
| `RateConverter.TicksConserved` | crates/dictation-platform/src/microphone.rs:361-388 | emitted samples times the source rate, plus what is accumulated, is inputs times the target rate |
| `RateConverter.EmitsExactly` | crates/dictation-platform/src/microphone.rs:361-388 | after n inputs exactly floor(n * target / source) samples have come out |
| `RateConverter.HistoryIsWindow` | crates/dictation-platform/src/microphone.rs:361-388 | the filter history is the last samples fed, with silence before the first |
| `RateConverter.SampleIsFilteredWindow` | crates/dictation-platform/src/microphone.rs:361-388 | output sample k is the filter applied at the first input by which k + 1 target periods have passed |
| `Recording.RecordingStateMachine.constructor` | crates/dictation-core/src/recording.rs:161-171 | a new machine is idle with an empty history |
| `Recording.RecordingStateMachine.Handle` | crates/dictation-core/src/recording.rs:213-243 | an accepted event moves the machine and is written to the history; any other changes nothing there |
| `Recording.RecordingStateMachine.Tick` | crates/dictation-core/src/recording.rs:251-272 | a tick warns once before the limit and ends the recording at it |
| `Recording.RecordingStateMachine.CancelSession` | crates/dictation-core/src/recording.rs:367-382 | cancelling tears down every busy state and is a no-op in idle and cancelled |
| `Recording.RecordingStateMachine.ConfirmCapture` | crates/dictation-core/src/recording.rs:384-398 | a confirmed start honours a lock or a stop that came before it |
| `Recording.ReactKeepsSteady` | crates/dictation-core/src/recording.rs:213-475 | an event that is not accepted leaves the machine as it was; session name and start time are set exactly while busy |
| `Recording.HandleKeepsSound` | crates/dictation-core/src/recording.rs:213-243 | the history stays an unbroken path from idle to the current state |
| `Recording.TickEnforcesLimit` | crates/dictation-core/src/recording.rs:251-272 | a tick ends a recording if and only if the limit has been reached |
| `Recording.RunsAreSound` | crates/dictation-core/src/recording.rs:213-475 | both hold after any sequence of events |
| `Recording.NothingDeliveredAfterTeardown` | crates/dictation-core/src/recording.rs:412-451 | after a cancellation or failure nothing authorizes delivery until a new session starts, late finalizations included |
| `Recording.DeliveryIffFinalizing` | crates/dictation-core/src/recording.rs:412-422 | on every run delivery is authorized exactly by a finalization in the finalizing state |
| `Control.StepIsLighter` | src-tauri/src/controller.rs:242-305 | the follow-ups of an event weigh strictly less than the event |
| `Control.QueueShrinks` | src-tauri/src/controller.rs:242-254 | so one turn of the loop makes the queue lighter, and the loop terminates |
| `Control.Controller.ApplyEvent` | src-tauri/src/controller.rs:242-254 | handling a command drains the queue of the event and all it causes |
| `Control.Controller.HandleNext` | src-tauri/src/controller.rs:242-254 | one queued event goes through the machine and its effects are performed only if it is accepted |
| `Control.Controller.PerformAll` | src-tauri/src/controller.rs:258-305 | effects run in order and their follow-up events are collected in order |
| `Control.Controller.StartCapture` | src-tauri/src/controller.rs:307-348 | starting counts a new epoch and preempts background work; the slot is filled only if the microphone opens |
| `Control.Controller.StopCapture` | src-tauri/src/controller.rs:263-277 | stopping keeps the captured audio, and fails the session if it is lost while finalizing |
| `Control.Controller.FinalizeTranscript` | src-tauri/src/controller.rs:403-418 | silence finalizes to empty text at once; otherwise one request leaves under the session's epoch |
| `Control.Controller.Deliver` | src-tauri/src/controller.rs:449-460 | only non-empty text is delivered |
| `Control.Controller.Discard` | src-tauri/src/controller.rs:283-290 | discarding forgets audio and text and makes every later answer stale |
| `Control.Controller.Release` | src-tauri/src/controller.rs:293-301 | the slot and the preemption flag are freed, and only a session that ended idle with text is offered for contribution |
| `Control.Controller.Announce` | src-tauri/src/controller.rs:465-501 | the published event is that of the last transition, errors get their time, and a cancelled machine is reset |
| `Control.Controller.HearPartial` | src-tauri/src/controller.rs:370-401 | a partial answer counts only while recording under its own epoch |
| `Control.Controller.HearFinal` | src-tauri/src/controller.rs:420-447 | a final answer counts only while finalizing under its own epoch, and fails the session when it is an error |
| `Control.Controller.TickOnce` | src-tauri/src/controller.rs:197-236 | limit, failed stream and error display are handled in that order |
| `Control.Controller.Serve` | src-tauri/src/controller.rs:164-195 | the control API answers as the machine ends up |
| `Control.Controller.RunTurns` | src-tauri/src/controller.rs:116-162 | the command loop over any inputs reaches the state the specification reaches |
| `Sessions.SpokenOnce` | src-tauri/src/controller.rs:449-460 | in an orderly trace text is delivered at most once per session |
| `Sessions.NothingAfterTeardown` | src-tauri/src/controller.rs:465-501 | after a published cancellation or failure the session is never delivered, stopped or offered |
| `Sessions.NeverStoppedAndCancelled` | src-tauri/src/controller.rs:465-501 | no session is published both as stopped and as cancelled or failed |
| `Sessions.SpokenWasHeard` | src-tauri/src/controller.rs:420-460 | delivered text is non-empty and was an answer under the session's own epoch, after it began |
| `Sessions.OfferedWasDelivered` | src-tauri/src/controller.rs:293-301 | only a stopped session is offered, with exactly the text that was delivered |
| `ControlRuns.QueuedKeeps` | src-tauri/src/controller.rs:242-305 | every queued event keeps the invariant of machine, slot, trace and remaining queue |
| `ControlRuns.DrainSettles` | src-tauri/src/controller.rs:242-254 | draining a queue that fits the state ends settled |
| `ControlRuns.ApplySettles` | src-tauri/src/controller.rs:242-254 | every command leads from a settled controller to a settled one |
| `ControlRuns.PartialSettles` | src-tauri/src/controller.rs:370-401 | so does every partial answer |
| `ControlRuns.FinalSettles` | src-tauri/src/controller.rs:420-447 | so does every final answer, late, repeated or reordered |
| `ControlRuns.TickSettles` | src-tauri/src/controller.rs:197-236 | so does every tick |
| `ControlRuns.ErrorClears` | src-tauri/src/controller.rs:197-236 | a tick returns an error to idle if and only if 2500 ms have passed since it was shown |
| `ControlRuns.RunsSettle` | src-tauri/src/controller.rs:116-162 | every allowed run ends settled |
| `ControlRuns.RestingStates` | src-tauri/src/controller.rs:116-162 | between commands the machine rests in five states, slot and preemption are set exactly in three, errors are timed, and finalizing awaits an answer |
| `ControlRuns.RunsAreSafe` | src-tauri/src/controller.rs:258-501 | over every run: one delivery per session, only from its own answer, only delivered sessions offered, epochs never shared |
| `ControlRuns.CancellationIsFinal` | src-tauri/src/controller.rs:465-501 | over every run a cancelled or failed session is never stopped, and never delivered or offered afterwards |
| `ControlRuns.StartAnswer` | src-tauri/src/controller.rs:164-195 | a start is granted exactly when the machine is idle and the microphone opens; a shown error refuses it as unavailable |
| `ControlRuns.CancelTwice` | src-tauri/src/controller.rs:164-195 | cancelling frees the session at once, and repeating the request is granted and changes nothing |
| `Wav.EncodeWav` | crates/dictation-core/src/package.rs:620-639 | the writer produces header and samples byte for byte |
| `Wav.ValidateWav` | crates/dictation-core/src/package.rs:429-472 | the chunk loop terminates and gives the first error or the sample count |
| `Wav.EncodedValidates` | crates/dictation-core/src/package.rs:429-472 | a written file validates with its own sample count if and only if its size fits the size field |
| `Wav.TooLongIsRefused` | crates/dictation-core/src/package.rs:429-472 | the shortest sample sequence whose written file is refused |
| `Wav.SampleReadsBack` | crates/dictation-core/src/package.rs:620-639 | every sample can be read back from its place in the file |
| `Wav.AcceptedHoldsSamples` | crates/dictation-core/src/package.rs:429-472 | any accepted file is large enough for its headers and every sample it claims |
| `Names.NamesDistinct` | crates/dictation-core/src/package.rs:651-719 | generated file names of a package never coincide |
| `Names.NamesAreSafe` | crates/dictation-core/src/package.rs:570-577 | generated file names are always safe archive entries |
| `Package.ValidatePackage` | crates/dictation-core/src/package.rs:140-189 | validation reports the first failing condition, in the source's order |
| `Package.ValidatePayloadBounds` | crates/dictation-core/src/package.rs:351-370 | the loop finds the first unsafe or oversized file, and then judges the saturating total |
| `Package.ValidateClips` | crates/dictation-core/src/package.rs:255-289 | the loop finds the first bad clip, or the totals and the names of all |
| `Package.BuildPackage` | crates/dictation-core/src/package.rs:651-719 | nothing is built from an ineligible or empty result, or over a cut fault; otherwise the outcome is that of validating what was built |
| `Package.CollectFiles` | crates/dictation-core/src/package.rs:663-683 | the loop collects each clip's two files, its entry, and the checksum of every file |
| `Acceptance.CoverageHolds` | crates/dictation-core/src/package.rs:372-395 | the checksums of a built package always cover exactly its files, and match |
| `Acceptance.BoundsDecide` | crates/dictation-core/src/package.rs:351-370 | the bounds hold if and only if each file and the total fit |
| `Acceptance.BuiltClip` | crates/dictation-core/src/package.rs:291-349 | an exportable clip's entry validates if and only if its audio fits the WAV size field and its text the text limit |
| `Acceptance.BuiltTotals` | crates/dictation-core/src/package.rs:255-289 | validated totals are exactly the sums over the clips, and all files are referred to |
| `Acceptance.PacksExactly` | crates/dictation-core/src/package.rs:651-719 | a correctly reported result packs into a valid package if and only if header and sizes meet the limits |
| `Acceptance.EligiblePacks` | crates/dictation-core/src/package.rs:651-719 | every eligible dataset result has no cut fault and packs exactly under those conditions |
| `Jobs.ContributionNeedsEverything` | crates/dictation-core/src/contribution.rs:139-188 | a session may be contributed if and only if every condition of consent, target, time and language holds |
| `Jobs.PredecessorsAreExact` | crates/dictation-core/src/contribution.rs:303-326 | the states a guarded update accepts are exactly those from which the move is allowed |
| `Jobs.TerminalIsFinal` | crates/dictation-core/src/contribution.rs:289-317 | along any path a terminal job only moves to deleted, and deleted is final |
| `Jobs.AcknowledgedWasUploading` | crates/dictation-core/src/contribution.rs:303-317 | acknowledgement is only reached from uploading, and uploading only from eligible |
| `Jobs.BackoffIsBounded` | crates/dictation-core/src/contribution.rs:349-360 | retries end with the allowed attempts, wait no shorter each time, and never longer than the ceiling |
| `Queue.EncryptedStore.Transition` | crates/dictation-storage/src/contribution.rs:335-384 | one row moves if and only if the table allows it, with exactly the named columns written |
| `Queue.EncryptedStore.CancelAll` | crates/dictation-storage/src/contribution.rs:547-566 | every active job is deleted with its package, every other row is untouched, and the cancelled jobs are returned |
| `Queue.EncryptedStore.Grant` | crates/dictation-storage/src/contribution.rs:178-199 | a new consent ends every earlier one at its own time |
| `Queue.GrantKeepsOneActive` | crates/dictation-storage/src/contribution.rs:178-199 | after a grant at most one consent is unrevoked |
| `Queue.ConsentStepsKeepOneActive` | crates/dictation-storage/src/contribution.rs:250-265 | pausing and revoking keep that |
| `Queue.EndedConsentRefuses` | crates/dictation-storage/src/contribution.rs:178-265 | no job under a replaced or revoked consent passes the recheck, at any time |
| `Upload.BeginUpload` | crates/dictation-engine/src/upload.rs:268-297 | consent, daily cap and package are checked in that order; only a claimed eligible job is sent |
| `Upload.FinishUpload` | crates/dictation-engine/src/upload.rs:299-369 | each reply ends, retries or acknowledges the job; an accepted one for a job no longer uploading is late |
| `Upload.CancelUpload` | crates/dictation-engine/src/upload.rs:208-223 | the job, if it may be, is deleted, and its package always |
| `Upload.RejectUpload` | crates/dictation-engine/src/upload.rs:225-237 | the job, if it may be, is rejected, and its package always dropped |
| `Upload.UploadJob` | crates/dictation-engine/src/upload.rs:261-369 | one undisturbed transfer is its two halves in sequence |
| `Upload.UploadReady` | crates/dictation-engine/src/upload.rs:376-393 | a round takes exactly the eligible jobs whose next attempt is due, as they stood at its start, in order, and ends at the first conflict |
| `Upload.SendDeletionRequests` | crates/dictation-engine/src/upload.rs:395-430 | of the open requests exactly those the server reported done are completed and counted; scopes that are not understood are skipped |
| `Pipeline.ProcessJob` | crates/dictation-engine/src/training.rs:289-417 | one job goes from claim to package, or ends, at the point its course says, and its recording goes exactly when it is dropped or its package exists |
| `Pipeline.PublishPackage` | crates/dictation-engine/src/training.rs:352-417 | consent is rechecked before the package is stored, and a withdrawn job leaves neither package nor recording |
| `Pipeline.RejectJob` | crates/dictation-engine/src/training.rs:251-273 | a rejected job loses its recording and its package with the decision |
| `Pipeline.ProcessEnds` | crates/dictation-engine/src/training.rs:289-417 | with consent, a job ends where it started with its recording, dropped without a package, or eligible with exactly the built one; the recording is kept only where it started |
| `Pipeline.WithoutConsentDropped` | crates/dictation-engine/src/training.rs:289-417 | without consent, a job is rejected and neither package nor recording exists |
| `RawSessions.EnqueueSession` | crates/dictation-engine/src/training.rs:159-206 | a session is stored and queued if and only if consent and store allow it; where its job cannot be stored, its recording is removed again |
| `RawSessions.EnqueueAgrees` | crates/dictation-engine/src/training.rs:159-206 | a stored recording implies a queued job, so queueing changes the rows as if recordings were not there |
| `RawSessions.CancelEverything` | src-tauri/src/commands.rs:347-358 | every active job is deleted, and the recordings of exactly those go |
| `RawSessions.CleanUp` | src-tauri/src/background.rs:79-106 | expired recordings go, jobs expire with them, and exactly the old finished ones are forgotten |
| `RawSessions.ProcessOneRow` | crates/dictation-engine/src/training.rs:289-417 | processing changes one row only, and a recording outlives it only if its job is still in the pipeline |
| `RawSessions.StepKeepsTidy` | crates/dictation-engine/src/training.rs:159-417 | every step of the client keeps each recording tied to a job in the pipeline that expires with it |
| `RawSessions.RecordingsStayInPipeline` | crates/dictation-engine/src/training.rs:251-417 | over every run a recording exists only while the one job of its session waits, is analyzed or is built, and it expires with that job |
| `RawSessions.WithdrawalLeavesNoRecording` | src-tauri/src/commands.rs:347-358 | withdrawing at any point of any run leaves no recording at all |
| `Lineage.Descendants` | crates/dictation-server/src/store.rs:615-630 | terminates on any graph, cycles included, with exactly the nodes reached from the roots by one or more edges |
| `Lineage.AddChildren` | crates/dictation-server/src/store.rs:618-628 | every child is found, and just the new ones join the worklist |
| `Lineage.ClosedHoldsDerived` | crates/dictation-server/src/store.rs:615-630 | any set closed under the edges out of the roots and itself holds everything derived |
| `Server.ServerStore.Usage` | crates/dictation-server/src/store.rs:472-479 | counts and sizes are those of the tenant's own samples |
| `Server.ServerStore.Screen` | crates/dictation-server/src/admission.rs:65-103 | the first refusal, in the order of the checks |
| `Server.ServerStore.AdmitArchive` | crates/dictation-server/src/admission.rs:39-115 | a known key gets its old receipt, a refusal is recorded, and a sample appears with its receipt, node and object or not at all |
| `Server.ServerStore.Delete` | crates/dictation-server/src/store.rs:661-711 | the tenant's samples and objects go, tombstones stay, and every derived node and delivery is ended |
| `Server.ServerStore.DeleteAll` | crates/dictation-server/src/store.rs:744-776 | all samples, deliveries and consents of the tenant end |
| `Server.ServerStore.SweepExpired` | crates/dictation-server/src/store.rs:796-825 | sweeping row by row removes all expired samples with what derives from them, and stray objects |
| `Server.SweepOne` | crates/dictation-server/src/store.rs:796-825 | one more row swept is one more expired sample gone, whatever the order |
| `Retention.TombstonedStaysGone` | crates/dictation-server/src/admission.rs:93-99 | a deleted sample never becomes live under any later uploads, deletions, sweeps, trainings or restored backups |
| `Retention.SweptObjectsAreLive` | crates/dictation-server/src/store.rs:796-825 | after a sweep every stored object has a live, unexpired sample |
| `Retention.DeletionRevokes` | crates/dictation-server/src/store.rs:661-711 | every delivery derived from a deleted sample is revoked |
| `Retention.DisjointIffOwn` | crates/dictation-server/src/store.rs:676-688 | live and deleted ids stay apart if and only if no deleted id is another tenant's live sample |
| `Retention.ForeignSampleBreaks` | crates/dictation-server/src/http.rs:247-250 | a store in which naming another tenant's sample leaves it both live and deleted |
| `Retention.DoKeepsRevoked` | crates/dictation-server/src/store.rs:661-711 | a revoked delivery stays revoked |
| `Retention.EverythingIsGone` | crates/dictation-server/src/store.rs:744-776 | after deleting everything the tenant has no sample, no usable delivery, no active consent, and a tombstone for each sample |
| `Retention.ReceiptsAreFinal` | crates/dictation-server/src/store.rs:409-443 | a stored receipt never changes |
| `Retention.UploadIsIdempotent` | crates/dictation-server/src/admission.rs:55-58 | once answered, a key is answered the same ever after, as a duplicate and without any change, whatever is uploaded |
| `Retention.TrainingKeepsLive` | crates/dictation-server/src/training.rs:261-427 | a training run derives its delivery only from samples that exist |
| `Retention.DoKeepsConsistent` | crates/dictation-server/src/store.rs:487-825 | every operation keeps live and deleted apart, receipts naming samples of their own, and usable deliveries derived from live samples only |
| `Retention.RunsAreConsistent` | crates/dictation-server/src/store.rs:487-825 | and so does every allowed run from an empty store |
| `Isolation.DeletionIsolated` | crates/dictation-server/src/store.rs:661-711 | a deletion leaves every other tenant's share of the store alone if and only if it names no live node of another tenant |
| `Isolation.OperationIsolated` | crates/dictation-server/src/store.rs:487-776 | an allowed operation for one tenant changes no other tenant's samples, nodes, receipts, consents, deliveries or objects |
| `Isolation.RunsStayApart` | crates/dictation-server/src/store.rs:487-825 | every allowed run keeps edges within tenants and whatever derives from a deleted node deleted and revoked |
| `Isolation.TenantsAreIsolated` | crates/dictation-server/src/store.rs:487-825 | after any run, whatever other tenants do over any number of operations leaves a tenant's share exactly as it was |
| `ProtocolSafety.PublishKeeps` | crates/dictation-engine/src/training.rs:352-417 | publishing a package keeps the protocol's invariant |
| `ProtocolSafety.WithdrawKeeps` | crates/dictation-storage/src/contribution.rs:547-566 | withdrawing at any point keeps it |
| `ProtocolSafety.StartKeeps` | crates/dictation-engine/src/upload.rs:268-297 | starting a transfer keeps it, attempts being counted as transfers |
| `ProtocolSafety.ArriveKeeps` | crates/dictation-server/src/admission.rs:39-115 | a request reaching the server, however late or often, keeps it |
| `ProtocolSafety.EndKeepsAll` | crates/dictation-engine/src/upload.rs:299-369 | ending a transfer, acknowledged, retried, given up or late, keeps it |
| `ProtocolSafety.ServerDoesKeeps` | crates/dictation-server/src/store.rs:487-825 | any server operation in between keeps it |
| `ProtocolSafety.ServeKeeps` | crates/dictation-server/src/http.rs:231-262 | the server carrying out a deletion request, however often, keeps it |
| `Contribution.NextKeeps` | crates/dictation-engine/src/upload.rs:261-369 | every allowed step of client, network and server keeps the invariant |
| `Contribution.RunKeeps` | crates/dictation-engine/src/upload.rs:261-369 | and so does every allowed run |
| `Contribution.ExactlyOnce` | crates/dictation-engine/src/upload.rs:261-369 | over every run: one key per job, one sample per key, a bounded number of transfers, and an acknowledged job holds the receipt the server stored as accepted |
| `Contribution.WithdrawnIsOver` | crates/dictation-storage/src/contribution.rs:547-566 | a job active at withdrawal is deleted, without package or accepted receipt |
| `Contribution.NextStaysOver` | crates/dictation-storage/src/contribution.rs:335-384 | no step brings such a job back, sends it or acknowledges it |
| `Contribution.WithdrawalWins` | crates/dictation-storage/src/contribution.rs:547-566 | withdrawing anywhere in any run: the job is never active, sent or acknowledged again, and any receipt of it is not accepted and has its deletion requested |
| `Contribution.LateReplyIsRecorded` | crates/dictation-engine/src/upload.rs:240-254 | an accepted reply to a withdrawn transfer is stored as not accepted together with a pending deletion request naming it |
| `Erasure.ServedIsErased` | crates/dictation-server/src/http.rs:240-258 | carrying out a request, by receipt or by sample, deletes every sample it names and leaves its tombstone |
| `Erasure.NextErases` | crates/dictation-engine/src/upload.rs:395-430 | every step keeps completed requests carried out, and what was carried out stays done |
| `Erasure.RunErases` | crates/dictation-engine/src/upload.rs:395-430 | and so does every allowed run |
| `Erasure.ConfirmedIsErased` | crates/dictation-engine/src/upload.rs:395-430 | over every run: once a receipt's deletion is confirmed, its sample is gone and tombstoned on every later run, and no delivery derived from it can be fetched |
| `Erasure.WithdrawalErases` | src-tauri/src/commands.rs:363-388 | withdrawing anywhere in any run: every receipt that still arrives for the job has its deletion asked for, and once that is confirmed neither the sample nor anything built from it is left |

## Left out

Around the model:

- Character classes are those of ASCII; case folding and whitespace beyond it are not modelled.
- `f32` and `f64` are reals: rounding errors of means, ratios and filter sums are not captured.
- `ResampleMap`, the mapping between capture and canonical timelines, is not modelled.
- Detection rules, the classifier and its answer format: spans and answers are inputs. Categories, sources and the order of spans influence no cut and are left out.
- Unstable sorts are modelled as an insertion into order; equal intervals are indistinguishable.
- Voice activity levels, the hallucination filter and the filter coefficients: flags, filtered segments and taps are inputs.
- The microphone buffer's capacity hint and the audio callbacks around the converter.
- JSON parsing, forbidden and unknown manifest keys, tar archives, HTTP, SQL, encryption, keys, files and clocks. Manifests, archives and requests arrive parsed; times are parameters.
- Storage errors, other than the conflict of a lineage node that already exists.
- Tauri shell, tray, overlays, text insertion, focus, shortcuts, settings, pairing: case splits and foreign interfaces.
- The deletion log, tenants' authentication, training thresholds and processes; a training run is one atomic step that adds lineage and, if it passes, a delivery.

Assumptions and weaker points, by member:

- Removal.SentencesFromWords: requires that no sentence ends before it starts, where the source panics; `Removal.SegmentedIsNotInverted` shows the demand to be exact, and `Alignment.Freeze` supplies it.
- Removal.SafetyMargin: says nothing about removed words without a length, because the source drops empty intervals before padding.
- Windows.BuildWindows: the position after the largest id is computed modulo 2^64, as in a release build; a build with overflow checks panics there.
- Dataset.ExportedWordUsable: the word with the largest 64-bit id is excepted; `Cuts.UnusableWordsRemoved` says exactly when it is removed too.
- Cuts.ClipWordsAreKeptWords: for kept words that have a length; `Cuts.KeptWordsHaveLength` says exactly when all do.
- Alignment.GroupWords: onsets times 160 fit in 64 bits; the source does not check this product.
- Alignment.RecognizeSegments: a segment with neither text nor words, which the worker skips, is kept, and freezes to nothing.
- Captions.ReplicaConverges: the client's display order by start time is left out; it only arranges what the replica holds.
- Control.Controller.HearPartial: when partial requests are scheduled, and how much audio they carry, is left out.
- Control.Controller.Announce: status notices and bus sequence numbers are left out.
- Control.Controller.ApplyEvent: one reading of the clock and one answer of the microphone per command.
- Wav.EncodeWav: requires that doubling the rate does not overflow, as the source does.
- Package.ValidatePackage: manifests arrive parsed, so unknown and forbidden keys and the JSON shape, which the source refuses before these checks, are not modelled; header strings are measured in characters, and error codes that differ only in the offending field are one code.
- Acceptance.PacksExactly: text encoding and digest are arbitrary functions of which only decoding what was encoded, and the form of a digest, are used; the sums in the metrics are not limited to 64 bits.
- Acceptance.EligiblePacks: requires that doubling the session's rate does not overflow, as the WAV writer does.
- Queue.EncryptedStore.Transition: rows are maps and each call is one transaction; columns that nothing reads are left out.
- Pipeline.ProcessJob: one reading of the clock per job; whether a stored recording can be decoded is an input.
- RawSessions.EnqueueSession: at most one consent is unrevoked, which `Queue.GrantKeepsOneActive` and `Queue.ConsentStepsKeepOneActive` supply; a recording is its session's name and expiry.
- RawSessions.WithdrawalLeavesNoRecording: steps of the client are atomic, as both stores are locked around each; the moment between deleting the jobs and their recordings is not a state.
- Server.ServerStore.AdmitArchive: the archive's decoding and package validation are one given outcome.
- Retention.RunsAreConsistent: deletions that name another tenant's live sample are excluded; `Retention.DisjointIffOwn` says exactly what they break.
- Isolation.TenantsAreIsolated: operations are for one tenant and name no live node of another; sweeps and restored backups concern every tenant and are not among them.
- Contribution.ExactlyOnce: one worker builds packages, one worker uploads, random identifiers never repeat, and the allowed attempts fit in 32 bits. Every reply acted on was given by the server to a request under the job's key.
- Contribution.WithdrawalWins: a request already on the wire may still create a sample on the server; its receipt, if it arrives, is recorded for deletion, and `Erasure.WithdrawalErases` says what comes of that.
- Erasure.ConfirmedIsErased: the server's random receipt ids never repeat, requests by sample name the tenant's own samples, and a request is confirmed only after the server has carried it out.
- Contribution.RunKeeps: background expiry deletes a job and leaves its package to its own expiry, as the source does, so a package alone does not imply an active job.
