// Which words and which samples are cut for the spans that must go.
//
// Spans expand to sentences, sentences to sample intervals, intervals are
// padded outward, and every word the padding touches is pulled in, until
// nothing changes. The result is characterized as the least closed set.
module Removal {
  import opened Options
  import opened TimeMap
  import opened Transcript
  import Text

  datatype Sentence = Sentence(
    index: nat,
    startWordId: u64,
    endWordIdExclusive: u64,
    interval: SampleInterval)
  {
    predicate ContainsWord(wordId: u64) {
      startWordId <= wordId < endWordIdExclusive
    }

    predicate OverlapsSpan(span: SensitiveSpan) {
      startWordId < span.endWordIdExclusive && span.startWordId < endWordIdExclusive
    }
  }

  // ----- splitting words into sentences --------------------------------------

  predicate Terminal(word: Word) {
    var shown := Text.TrimEnd(word.DisplayText());
    shown != "" && shown[|shown| - 1] in {'.', '!', '?'}
  }

  predicate EndsSentence(words: seq<Word>, k: nat, pauseSamples: u64)
    requires k < |words|
  {
    || Terminal(words[k])
    || (k + 1 < |words|
        && SaturatingSub(words[k + 1].interval.start, words[k].interval.end) >= pauseSamples)
  }

  // No word ends before an earlier word starts.
  ghost predicate TimedInOrder(words: seq<Word>) {
    forall i, j :: 0 <= i <= j < |words| ==> words[i].interval.start <= words[j].interval.end
  }

  // The sentence `s` spans the words of [lo, hi).
  predicate SpansRun(s: Sentence, words: seq<Word>, lo: nat, hi: nat)
    requires lo < hi <= |words|
  {
    && s.startWordId == words[lo].id && s.endWordIdExclusive == SaturatingAdd(words[hi - 1].id, 1)
    && s.interval.start == words[lo].interval.start && s.interval.end == words[hi - 1].interval.end
  }

  ghost predicate CutsInto(words: seq<Word>, cuts: seq<nat>, n: nat) {
    && n <= |words|
    && |cuts| > 0 && cuts[0] == 0 && cuts[|cuts| - 1] == n
    && (forall i, j :: 0 <= i < j < |cuts| ==> cuts[i] < cuts[j])
  }

  // No word of [lo, hi) ends a sentence.
  ghost predicate NoneEnds(words: seq<Word>, pauseSamples: u64, lo: nat, hi: nat)
    requires hi <= |words|
  {
    forall k :: lo <= k < hi ==> !EndsSentence(words, k, pauseSamples)
  }

  // The words of [lo, hi) make one sentence: only the last of them ends it.
  ghost predicate OneSentence(words: seq<Word>, pauseSamples: u64, lo: nat, hi: nat)
    requires lo < hi <= |words|
  {
    && NoneEnds(words, pauseSamples, lo, hi - 1)
    && (EndsSentence(words, hi - 1, pauseSamples) || hi == |words|)
  }

  // Sentence `i` is made of the words between cut `i` and cut `i + 1`, and the
  // cuts fall exactly after the words that end a sentence and after the last word.
  ghost predicate SegmentedAt(
    words: seq<Word>, pauseSamples: u64, sentences: seq<Sentence>, cuts: seq<nat>, n: nat)
  {
    && CutsInto(words, cuts, n)
    && |sentences| == |cuts| - 1
    && (forall i {:trigger sentences[i]} :: 0 <= i < |sentences| ==>
          && sentences[i].index == i && SpansRun(sentences[i], words, cuts[i], cuts[i + 1])
          && OneSentence(words, pauseSamples, cuts[i], cuts[i + 1]))
  }

  ghost predicate IsSegmentation(words: seq<Word>, pauseSamples: u64, sentences: seq<Sentence>) {
    exists cuts :: SegmentedAt(words, pauseSamples, sentences, cuts, |words|)
  }

  // Nothing before `lo` belongs to the sentence that begins there.
  predicate Begins(words: seq<Word>, pauseSamples: u64, lo: nat)
    requires lo <= |words|
  {
    lo == 0 || EndsSentence(words, lo - 1, pauseSamples)
  }

  // No sentence ends before it starts. Its interval could not be built, and
  // the source gives up with a panic.
  ghost predicate NoSentenceInverted(words: seq<Word>, pauseSamples: u64) {
    forall lo, hi {:trigger Begins(words, pauseSamples, lo), OneSentence(words, pauseSamples, lo, hi)} ::
      0 <= lo < hi <= |words| && Begins(words, pauseSamples, lo) && OneSentence(words, pauseSamples, lo, hi) ==>
        words[lo].interval.start <= words[hi - 1].interval.end
  }

  lemma TimedIsNotInverted(words: seq<Word>, pauseSamples: u64)
    requires TimedInOrder(words)
    ensures NoSentenceInverted(words, pauseSamples)
  {
  }

  method SentencesFromWords(words: seq<Word>, sampleRate: nat, pauseMs: u64)
    returns (sentences: seq<Sentence>)
    requires NoSentenceInverted(words, MillisecondsToSamples(pauseMs, sampleRate))
    ensures IsSegmentation(words, MillisecondsToSamples(pauseMs, sampleRate), sentences)
  {
    sentences := SplitAtPauses(words, MillisecondsToSamples(pauseMs, sampleRate));
  }

  // The sentences before `start` are found, and none ends from there to `index`.
  ghost predicate Scanned(
    words: seq<Word>, pauseSamples: u64, sentences: seq<Sentence>, cuts: seq<nat>, start: nat, index: nat)
    requires index <= |words|
  {
    && start <= index && Begins(words, pauseSamples, start) && SegmentedAt(words, pauseSamples, sentences, cuts, start)
    && NoneEnds(words, pauseSamples, start, index)
  }

  method SplitAtPauses(words: seq<Word>, pauseSamples: u64) returns (sentences: seq<Sentence>)
    requires NoSentenceInverted(words, pauseSamples)
    ensures IsSegmentation(words, pauseSamples, sentences)
  {
    sentences := [];
    ghost var cuts: seq<nat> := [0];
    var sentenceStart: nat := 0;
    for index := 0 to |words|
      invariant Scanned(words, pauseSamples, sentences, cuts, sentenceStart, index)
    {
      sentences, cuts, sentenceStart := TakeWord(words, pauseSamples, sentences, cuts, sentenceStart, index);
    }
    if sentenceStart < |words| {
      LastSentence(words, pauseSamples, sentences, cuts, sentenceStart);
      sentences, cuts := PushSentence(words, pauseSamples, sentences, cuts, sentenceStart, |words|);
    }
  }

  lemma LastSentence(
    words: seq<Word>, pauseSamples: u64, sentences: seq<Sentence>, cuts: seq<nat>, start: nat)
    requires Scanned(words, pauseSamples, sentences, cuts, start, |words|) && start < |words|
    ensures OneSentence(words, pauseSamples, start, |words|)
  {
  }

  method TakeWord(
    words: seq<Word>, pauseSamples: u64, sentences: seq<Sentence>, ghost cuts: seq<nat>, start: nat, index: nat)
    returns (longer: seq<Sentence>, ghost more: seq<nat>, next: nat)
    requires index < |words| && NoSentenceInverted(words, pauseSamples)
    requires Scanned(words, pauseSamples, sentences, cuts, start, index)
    ensures Scanned(words, pauseSamples, longer, more, next, index + 1)
  {
    NextWord(words, pauseSamples, start, index);
    longer, more, next := sentences, cuts, start;
    if EndsSentence(words, index, pauseSamples) {
      longer, more := PushSentence(words, pauseSamples, sentences, cuts, start, index + 1);
      next := index + 1;
    }
  }

  // One more word ends the sentence begun at `lo`, or goes on with it.
  lemma NextWord(words: seq<Word>, pauseSamples: u64, lo: nat, index: nat)
    requires lo <= index < |words| && NoneEnds(words, pauseSamples, lo, index)
    ensures if EndsSentence(words, index, pauseSamples)
      then OneSentence(words, pauseSamples, lo, index + 1) && Begins(words, pauseSamples, index + 1)
        && NoneEnds(words, pauseSamples, index + 1, index + 1)
      else NoneEnds(words, pauseSamples, lo, index + 1)
  {
  }

  method PushSentence(
    words: seq<Word>, ghost pauseSamples: u64, sentences: seq<Sentence>, ghost cuts: seq<nat>, lo: nat, hi: nat)
    returns (longer: seq<Sentence>, ghost more: seq<nat>)
    requires lo < hi <= |words| && NoSentenceInverted(words, pauseSamples)
    requires Begins(words, pauseSamples, lo) && OneSentence(words, pauseSamples, lo, hi)
    requires SegmentedAt(words, pauseSamples, sentences, cuts, lo)
    ensures SegmentedAt(words, pauseSamples, longer, more, hi) && sentences <= longer && more == cuts + [hi]
  {
    var sentence := Sentence(|sentences|, words[lo].id, SaturatingAdd(words[hi - 1].id, 1),
                             RawInterval(words[lo].interval.start, words[hi - 1].interval.end));
    SegmentOneMore(words, pauseSamples, sentences, cuts, lo, hi, sentence);
    longer, more := sentences + [sentence], cuts + [hi];
  }

  lemma SegmentOneMore(
    words: seq<Word>, pauseSamples: u64, sentences: seq<Sentence>, cuts: seq<nat>, lo: nat, hi: nat, sentence: Sentence)
    requires lo < hi <= |words|
    requires SegmentedAt(words, pauseSamples, sentences, cuts, lo)
    requires OneSentence(words, pauseSamples, lo, hi)
    requires sentence.index == |sentences| && SpansRun(sentence, words, lo, hi)
    ensures SegmentedAt(words, pauseSamples, sentences + [sentence], cuts + [hi], hi)
  {
    var more, longer := cuts + [hi], sentences + [sentence];
    forall i | 0 <= i < |longer|
      ensures longer[i].index == i && SpansRun(longer[i], words, more[i], more[i + 1])
      ensures OneSentence(words, pauseSamples, more[i], more[i + 1])
    {
      if i < |sentences| {
        assert longer[i] == sentences[i];
      }
    }
  }

  lemma {:induction false} CutHolding(cuts: seq<nat>, m: nat, k: nat) returns (i: nat)
    requires m < |cuts| && cuts[0] <= k < cuts[m]
    ensures i < m && cuts[i] <= k < cuts[i + 1]
  {
    if cuts[m - 1] <= k {
      i := m - 1;
    } else {
      i := CutHolding(cuts, m - 1, k);
    }
  }

  // Words split into sentences at all only when no sentence is inverted.
  lemma SegmentedIsNotInverted(words: seq<Word>, pauseSamples: u64, sentences: seq<Sentence>)
    requires IsSegmentation(words, pauseSamples, sentences)
    ensures NoSentenceInverted(words, pauseSamples)
  {
    var cuts :| SegmentedAt(words, pauseSamples, sentences, cuts, |words|);
    forall lo, hi | 0 <= lo < hi <= |words| && Begins(words, pauseSamples, lo) && OneSentence(words, pauseSamples, lo, hi)
      ensures words[lo].interval.start <= words[hi - 1].interval.end
    {
      SentenceIsRun(words, pauseSamples, sentences, cuts, lo, hi);
    }
  }

  lemma SentenceIsRun(words: seq<Word>, pauseSamples: u64, sentences: seq<Sentence>, cuts: seq<nat>, lo: nat, hi: nat)
    requires SegmentedAt(words, pauseSamples, sentences, cuts, |words|)
    requires lo < hi <= |words| && Begins(words, pauseSamples, lo) && OneSentence(words, pauseSamples, lo, hi)
    ensures exists i :: 0 <= i < |sentences| && SpansRun(sentences[i], words, lo, hi)
  {
    var i := CutHolding(cuts, |cuts| - 1, lo);
    assert SpansRun(sentences[i], words, cuts[i], cuts[i + 1]);
    SameRun(words, pauseSamples, cuts[i], cuts[i + 1], lo, hi);
  }

  // The sentence that begins at a place is the only one around it.
  lemma SameRun(words: seq<Word>, pauseSamples: u64, a: nat, b: nat, lo: nat, hi: nat)
    requires a <= lo < b <= |words| && lo < hi <= |words|
    requires OneSentence(words, pauseSamples, a, b) && OneSentence(words, pauseSamples, lo, hi)
    requires Begins(words, pauseSamples, lo)
    ensures a == lo && b == hi
  {
  }

  // A sentence holds each word of its run, but never the largest identifier:
  // its exclusive end saturates.
  lemma SpanHolds(words: seq<Word>, s: Sentence, lo: nat, hi: nat, k: nat)
    requires IncreasingIds(words) && lo <= k < hi <= |words| && SpansRun(s, words, lo, hi)
    ensures s.ContainsWord(words[k].id) <==> words[k].id < U64_MAX
  {
    assert words[lo].id <= words[k].id <= words[hi - 1].id;
  }

  // The sentence whose run holds word `k`.
  lemma SentenceAround(words: seq<Word>, pauseSamples: u64, sentences: seq<Sentence>, k: nat)
    returns (at: nat, lo: nat, hi: nat)
    requires IsSegmentation(words, pauseSamples, sentences) && k < |words|
    ensures at < |sentences| && sentences[at].index == at
    ensures lo <= k < hi <= |words| && SpansRun(sentences[at], words, lo, hi)
  {
    var cuts :| SegmentedAt(words, pauseSamples, sentences, cuts, |words|);
    at := CutHolding(cuts, |cuts| - 1, k);
    assert SpansRun(sentences[at], words, cuts[at], cuts[at + 1]);
    lo, hi := cuts[at], cuts[at + 1];
  }

  // A word lies in a sentence if and only if its identifier is not the largest.
  lemma SentenceHolding(words: seq<Word>, pauseSamples: u64, sentences: seq<Sentence>, k: nat)
    requires IncreasingIds(words) && IsSegmentation(words, pauseSamples, sentences) && k < |words|
    ensures (exists at :: 0 <= at < |sentences| && sentences[at].index == at && sentences[at].ContainsWord(words[k].id))
      <==> words[k].id < U64_MAX
    ensures (exists at :: 0 <= at < |sentences| && sentences[at].ContainsWord(words[k].id)) <==> words[k].id < U64_MAX
  {
    var at, lo, hi := SentenceAround(words, pauseSamples, sentences, k);
    SpanHolds(words, sentences[at], lo, hi, k);
  }

  // No word lies in two sentences.
  lemma SentencesDisjoint(words: seq<Word>, pauseSamples: u64, sentences: seq<Sentence>, i: nat, j: nat, id: u64)
    requires IncreasingIds(words) && IsSegmentation(words, pauseSamples, sentences)
    requires i < j < |sentences|
    ensures !(sentences[i].ContainsWord(id) && sentences[j].ContainsWord(id))
  {
    var lo, hi, lo', hi' := RunsInOrder(words, pauseSamples, sentences, i, j);
    RunsDisjoint(words, sentences[i], sentences[j], lo, hi, lo', hi', id);
  }

  lemma RunsInOrder(words: seq<Word>, pauseSamples: u64, sentences: seq<Sentence>, i: nat, j: nat)
    returns (lo: nat, hi: nat, lo': nat, hi': nat)
    requires IsSegmentation(words, pauseSamples, sentences) && i < j < |sentences|
    ensures lo < hi <= lo' < hi' <= |words|
    ensures SpansRun(sentences[i], words, lo, hi) && SpansRun(sentences[j], words, lo', hi')
  {
    var cuts :| SegmentedAt(words, pauseSamples, sentences, cuts, |words|);
    RunBetweenCuts(words, pauseSamples, sentences, cuts, i);
    RunBetweenCuts(words, pauseSamples, sentences, cuts, j);
    lo, hi, lo', hi' := cuts[i], cuts[i + 1], cuts[j], cuts[j + 1];
  }

  lemma RunBetweenCuts(words: seq<Word>, pauseSamples: u64, sentences: seq<Sentence>, cuts: seq<nat>, i: nat)
    requires SegmentedAt(words, pauseSamples, sentences, cuts, |words|) && i < |sentences|
    ensures cuts[i] < cuts[i + 1] <= |words| && SpansRun(sentences[i], words, cuts[i], cuts[i + 1])
  {
    assert sentences[i].index == i;
  }

  lemma RunsDisjoint(words: seq<Word>, a: Sentence, b: Sentence, lo: nat, hi: nat, lo': nat, hi': nat, id: u64)
    requires IncreasingIds(words) && lo < hi <= lo' < hi' <= |words|
    requires SpansRun(a, words, lo, hi) && SpansRun(b, words, lo', hi')
    ensures !(a.ContainsWord(id) && b.ContainsWord(id))
  {
    assert words[hi - 1].id < words[lo'].id;
  }

  // ----- expanding spans to sentences ----------------------------------------

  predicate SentenceScope(span: SensitiveSpan, expandAll: bool) {
    expandAll || span.action == DropSentence
  }

  // Sentence `i` is dropped whole on behalf of `span`.
  predicate DropsSentence(span: SensitiveSpan, sentences: seq<Sentence>, expandAll: bool, i: int)
    requires 0 <= i < |sentences|
  {
    SentenceScope(span, expandAll) && sentences[i].OverlapsSpan(span)
  }

  ghost predicate SpanCovers(span: SensitiveSpan, sentences: seq<Sentence>, expandAll: bool, id: u64) {
    if exists i :: 0 <= i < |sentences| && DropsSentence(span, sentences, expandAll, i) then
      exists i :: 0 <= i < |sentences| && DropsSentence(span, sentences, expandAll, i) && sentences[i].ContainsWord(id)
    else
      span.startWordId <= id < span.endWordIdExclusive
  }

  ghost predicate Candidate(spans: seq<SensitiveSpan>, sentences: seq<Sentence>, expandAll: bool, id: u64) {
    exists s :: 0 <= s < |spans| && SpanCovers(spans[s], sentences, expandAll, id)
  }

  ghost predicate Dropped(spans: seq<SensitiveSpan>, sentences: seq<Sentence>, expandAll: bool, i: int)
    requires 0 <= i < |sentences|
  {
    exists s :: 0 <= s < |spans| && DropsSentence(spans[s], sentences, expandAll, i)
  }

  ghost function DroppedIndices(spans: seq<SensitiveSpan>, sentences: seq<Sentence>, expandAll: bool): set<int> {
    set i | 0 <= i < |sentences| && Dropped(spans, sentences, expandAll, i) :: sentences[i].index
  }

  function IdRange(lo: u64, hi: u64): (r: set<u64>)
    ensures forall id: u64 :: id in r <==> lo <= id < hi
    decreases hi - lo
  {
    if lo >= hi then {} else IdRange(lo, hi - 1) + {hi - 1}
  }

  method ExpandSpan(span: SensitiveSpan, sentences: seq<Sentence>, expandAll: bool)
    returns (wordIds: set<u64>, indices: set<int>)
    ensures forall id: u64 :: id in wordIds <==> SpanCovers(span, sentences, expandAll, id)
    ensures forall x :: x in indices <==>
      exists i :: 0 <= i < |sentences| && DropsSentence(span, sentences, expandAll, i) && sentences[i].index == x
  {
    wordIds, indices := {}, {};
    var touched := false;
    if SentenceScope(span, expandAll) {
      for i := 0 to |sentences|
        invariant touched <==> exists j :: 0 <= j < i && DropsSentence(span, sentences, expandAll, j)
        invariant forall id: u64 :: id in wordIds <==>
          exists j :: 0 <= j < i && DropsSentence(span, sentences, expandAll, j) && sentences[j].ContainsWord(id)
        invariant forall x :: x in indices <==>
          exists j :: 0 <= j < i && DropsSentence(span, sentences, expandAll, j) && sentences[j].index == x
      {
        assert DropsSentence(span, sentences, expandAll, i) <==> sentences[i].OverlapsSpan(span);
        if sentences[i].OverlapsSpan(span) {
          touched := true;
          indices := indices + {sentences[i].index};
          wordIds := wordIds + IdRange(sentences[i].startWordId, sentences[i].endWordIdExclusive);
        }
      }
    }
    if !touched {
      wordIds := wordIds + IdRange(span.startWordId, span.endWordIdExclusive);
    }
  }

  method ExpandToSentences(spans: seq<SensitiveSpan>, sentences: seq<Sentence>, expandAll: bool)
    returns (wordIds: set<u64>, indices: set<int>)
    ensures forall id: u64 :: id in wordIds <==> Candidate(spans, sentences, expandAll, id)
    ensures indices == DroppedIndices(spans, sentences, expandAll)
  {
    wordIds, indices := {}, {};
    for s := 0 to |spans|
      invariant forall id: u64 :: id in wordIds <==> Candidate(spans[..s], sentences, expandAll, id)
      invariant indices == DroppedIndices(spans[..s], sentences, expandAll)
    {
      var ids, dropped := ExpandSpan(spans[s], sentences, expandAll);
      OneMoreSpan(spans, sentences, expandAll, s);
      assert forall x :: x in indices + dropped <==> x in DroppedIndices(spans[..s + 1], sentences, expandAll);
      wordIds, indices := wordIds + ids, indices + dropped;
    }
    assert spans[..|spans|] == spans;
  }

  lemma OneMoreSpan(spans: seq<SensitiveSpan>, sentences: seq<Sentence>, expandAll: bool, s: nat)
    requires s < |spans|
    ensures forall id: u64 :: Candidate(spans[..s + 1], sentences, expandAll, id) <==>
      Candidate(spans[..s], sentences, expandAll, id) || SpanCovers(spans[s], sentences, expandAll, id)
    ensures forall i :: 0 <= i < |sentences| ==>
      (Dropped(spans[..s + 1], sentences, expandAll, i) <==>
       Dropped(spans[..s], sentences, expandAll, i) || DropsSentence(spans[s], sentences, expandAll, i))
    ensures forall x :: x in DroppedIndices(spans[..s + 1], sentences, expandAll) <==>
      (x in DroppedIndices(spans[..s], sentences, expandAll)
       || exists i :: 0 <= i < |sentences| && DropsSentence(spans[s], sentences, expandAll, i) && sentences[i].index == x)
  {
    var before, after := spans[..s], spans[..s + 1];
    assert forall t :: 0 <= t < s ==> before[t] == after[t];
    assert after[s] == spans[s];
    forall i | 0 <= i < |sentences|
      ensures Dropped(after, sentences, expandAll, i) <==>
        Dropped(before, sentences, expandAll, i) || DropsSentence(spans[s], sentences, expandAll, i)
    {
      if t :| 0 <= t < |after| && DropsSentence(after[t], sentences, expandAll, i) {
        assert t < s ==> DropsSentence(before[t], sentences, expandAll, i);
      }
      if t :| 0 <= t < |before| && DropsSentence(before[t], sentences, expandAll, i) {
        assert DropsSentence(after[t], sentences, expandAll, i);
      }
      if DropsSentence(spans[s], sentences, expandAll, i) {
        assert DropsSentence(after[s], sentences, expandAll, i);
      }
    }
  }

  // ----- the fixed point -----------------------------------------------------

  function SelectedIntervals(words: seq<Word>, selected: set<u64>): (r: seq<SampleInterval>)
    ensures forall i :: i in r <==> exists k :: 0 <= k < |words| && words[k].id in selected && words[k].interval == i
  {
    if words == [] then []
    else
      var rest := SelectedIntervals(words[1..], selected);
      if words[0].id in selected then [words[0].interval] + rest else rest
  }

  function WholeIntervals(sentences: seq<Sentence>, whole: set<int>, k: nat): (r: seq<SampleInterval>)
    requires k <= |sentences|
    ensures forall i :: i in r <==> exists j :: 0 <= j < k && j in whole && sentences[j].interval == i
  {
    if k == 0 then []
    else
      var rest := WholeIntervals(sentences, whole, k - 1);
      if k - 1 in whole then rest + [sentences[k - 1].interval] else rest
  }

  function CutIntervals(words: seq<Word>, selected: set<u64>, sentences: seq<Sentence>, whole: set<int>)
    : seq<SampleInterval>
  {
    SelectedIntervals(words, selected) + WholeIntervals(sentences, whole, |sentences|)
  }

  function PaddedIntervals(
    words: seq<Word>, selected: set<u64>, sentences: seq<Sentence>, whole: set<int>,
    padding: u64, bound: SampleInterval): (r: seq<SampleInterval>)
    ensures Canonical(r)
  {
    PadAll(Normal(CutIntervals(words, selected, sentences, whole)), padding, bound)
  }

  predicate TouchedBy(i: SampleInterval, intervals: seq<SampleInterval>) {
    exists k :: 0 <= k < |intervals| && i.Intersects(intervals[k])
  }

  function Touched(words: seq<Word>, intervals: seq<SampleInterval>): set<u64> {
    set k | 0 <= k < |words| && TouchedBy(words[k].interval, intervals) :: words[k].id
  }

  // Everything that decides one removal.
  datatype Problem = Problem(
    words: seq<Word>,
    spans: seq<SensitiveSpan>,
    sentences: seq<Sentence>,
    expandAll: bool,
    extra: set<int>,
    padding: u64,
    bound: SampleInterval)
  {
    ghost predicate IsSeed(id: u64) {
      || Candidate(spans, sentences, expandAll, id)
      || exists e :: 0 <= e < |sentences| && e in extra && sentences[e].ContainsWord(id)
    }

    // Words whose removal was asked for.
    ghost function Seeds(): set<u64> {
      set id | id in Ids(words) && IsSeed(id)
    }

    // Sentences cut whole, pauses included.
    ghost function Whole(): set<int> {
      DroppedIndices(spans, sentences, expandAll) + extra
    }

    // The padded samples cut when exactly the words `removed` are removed.
    ghost function Cover(removed: set<u64>): (r: seq<SampleInterval>)
      ensures Canonical(r)
    {
      if removed == {} then [] else PaddedIntervals(words, removed, sentences, Whole(), padding, bound)
    }

    // Contains what was asked for, and every word its own padded cover touches.
    ghost predicate Closed(removed: set<u64>) {
      && removed <= Ids(words)
      && Seeds() <= removed
      && Touched(words, Cover(removed)) <= removed
    }

    ghost predicate LeastClosed(removed: set<u64>) {
      && Closed(removed)
      && forall other :: Closed(other) ==> removed <= other
    }
  }

  // Asks for at least as much as `p`, over the same words and sentences.
  ghost predicate AsksForMore(p: Problem, q: Problem) {
    && q == p.(spans := q.spans, extra := q.extra)
    && p.Seeds() <= q.Seeds()
    && p.Whole() <= q.Whole()
  }

  lemma NearByElements(a: seq<SampleInterval>, b: seq<SampleInterval>, padding: u64, bound: SampleInterval, x: int)
    requires forall i :: i in a ==> i in b
    requires Near(a, padding, bound, x)
    ensures Near(b, padding, bound, x)
  {
    var k :| 0 <= k < |a| && !a[k].IsEmpty() && a[k].start - padding <= x < a[k].end + padding;
    assert a[k] in b;
  }

  lemma CutIntervalsGrow(words: seq<Word>, sentences: seq<Sentence>, s: set<u64>, t: set<u64>, v: set<int>, w: set<int>)
    requires s <= t && v <= w
    ensures forall i :: i in CutIntervals(words, s, sentences, v) ==> i in CutIntervals(words, t, sentences, w)
  {
  }

  // Removing more words, or being asked for more, never cuts fewer samples.
  lemma CoverGrows(p: Problem, q: Problem, s: set<u64>, t: set<u64>)
    requires AsksForMore(p, q) && s <= t
    ensures forall x :: Covered(p.Cover(s), x) ==> Covered(q.Cover(t), x)
  {
    if s != {} {
      var a := CutIntervals(p.words, s, p.sentences, p.Whole());
      var b := CutIntervals(p.words, t, p.sentences, q.Whole());
      CutIntervalsGrow(p.words, p.sentences, s, t, p.Whole(), q.Whole());
      PadAllCovers(a, p.padding, p.bound);
      PadAllCovers(b, p.padding, p.bound);
      forall x | Covered(p.Cover(s), x) ensures Covered(q.Cover(t), x) {
        NearByElements(a, b, p.padding, p.bound, x);
      }
    }
  }

  // A covered non-empty interval lies inside one interval of a canonical list.
  lemma InsideOne(i: SampleInterval, m: seq<SampleInterval>) returns (k: nat)
    requires !i.IsEmpty() && Canonical(m)
    requires forall x :: i.Contains(x) ==> Covered(m, x)
    ensures k < |m| && m[k].start <= i.start && i.end <= m[k].end
  {
    assert i.Contains(i.start);
    k :| 0 <= k < |m| && m[k].Contains(i.start);
    var edge: int := m[k].end;
    assert !Covered(m, edge);
    assert !i.Contains(edge);
  }

  // Whatever touches a covered stretch touches a canonical list that covers more.
  lemma TouchedStays(i: SampleInterval, a: seq<SampleInterval>, b: seq<SampleInterval>)
    requires Canonical(a) && Canonical(b) && TouchedBy(i, a)
    requires forall x :: Covered(a, x) ==> Covered(b, x)
    ensures TouchedBy(i, b)
  {
    var k :| 0 <= k < |a| && i.Intersects(a[k]);
    assert forall x :: a[k].Contains(x) ==> Covered(a, x);
    var m := InsideOne(a[k], b);
  }

  lemma TouchedGrows(words: seq<Word>, a: seq<SampleInterval>, b: seq<SampleInterval>)
    requires Canonical(a) && Canonical(b)
    requires forall x :: Covered(a, x) ==> Covered(b, x)
    ensures Touched(words, a) <= Touched(words, b)
  {
    forall k | 0 <= k < |words| && TouchedBy(words[k].interval, a) ensures TouchedBy(words[k].interval, b) {
      TouchedStays(words[k].interval, a, b);
    }
  }

  // Growing a set inside a closed set by the words it touches stays inside.
  lemma StaysBelowClosed(p: Problem, selected: set<u64>, other: set<u64>)
    requires selected <= other && p.Closed(other)
    ensures selected + Touched(p.words, p.Cover(selected)) <= other
  {
    CoverGrows(p, p, selected, other);
    TouchedGrows(p.words, p.Cover(selected), p.Cover(other));
  }

  // Model answers can only add: more spans or more unusable sentences never
  // shrink the removed words or the removed samples.
  lemma RemovalMonotone(p: Problem, q: Problem, s: set<u64>, t: set<u64>)
    requires AsksForMore(p, q) && p.LeastClosed(s) && q.Closed(t)
    ensures s <= t
    ensures forall x :: Covered(p.Cover(s), x) ==> Covered(q.Cover(t), x)
  {
    CoverGrows(p, q, t, t);
    TouchedGrows(p.words, p.Cover(t), q.Cover(t));
    assert p.Closed(t);
    CoverGrows(p, q, s, t);
  }

  // A superset of the spans and of the unusable sentences asks for more.
  lemma MoreSpansAskForMore(p: Problem, q: Problem)
    requires q == p.(spans := q.spans, extra := q.extra)
    requires (forall span :: span in p.spans ==> span in q.spans) && p.extra <= q.extra
    ensures AsksForMore(p, q)
  {
    forall id | id in p.Seeds() ensures id in q.Seeds() {
      if Candidate(p.spans, p.sentences, p.expandAll, id) {
        var s :| 0 <= s < |p.spans| && SpanCovers(p.spans[s], p.sentences, p.expandAll, id);
        assert p.spans[s] in q.spans;
      }
    }
    forall i | 0 <= i < |p.sentences| && Dropped(p.spans, p.sentences, p.expandAll, i)
      ensures Dropped(q.spans, q.sentences, q.expandAll, i)
    {
      var s :| 0 <= s < |p.spans| && DropsSentence(p.spans[s], p.sentences, p.expandAll, i);
      assert p.spans[s] in q.spans;
    }
  }

  // No sample of the bound within the padding of a removed non-empty word survives.
  lemma SafetyMargin(p: Problem, removed: set<u64>, k: nat, x: int)
    requires k < |p.words| && p.words[k].id in removed && !p.words[k].interval.IsEmpty()
    requires p.bound.Contains(x) && !Covered(p.Cover(removed), x)
    ensures x < p.words[k].interval.start - p.padding || p.words[k].interval.end + p.padding <= x
  {
    var cut := CutIntervals(p.words, removed, p.sentences, p.Whole());
    PadAllCovers(cut, p.padding, p.bound);
    assert p.words[k].interval in cut;
    assert !Near(cut, p.padding, p.bound, x);
  }

  datatype RemovalSettings = RemovalSettings(paddingMs: u64, expandToSentence: bool)

  datatype RemovalPlan = RemovalPlan(
    intervals: seq<SampleInterval>,
    removedWordIds: set<u64>,
    removedSentenceIndices: set<int>,
    paddingSamples: u64,
    iterations: nat)

  function ProblemOf(
    transcript: FrozenTranscript, spans: seq<SensitiveSpan>, sentences: seq<Sentence>,
    settings: RemovalSettings, extra: set<int>, bound: Option<SampleInterval>): Problem
  {
    Problem(transcript.words, spans, sentences, settings.expandToSentence, extra,
            MillisecondsToSamples(settings.paddingMs, transcript.sampleRate),
            match bound case Some(b) => b case None => transcript.Span())
  }

  method SelectSeeds(
    words: seq<Word>, sentences: seq<Sentence>, candidates: set<u64>, extra: set<int>)
    returns (selected: set<u64>)
    ensures forall id: u64 :: id in selected <==>
      id in Ids(words)
      && (id in candidates || exists e :: 0 <= e < |sentences| && e in extra && sentences[e].ContainsWord(id))
  {
    selected := candidates * Ids(words);
    for e := 0 to |sentences|
      invariant forall id: u64 :: id in selected <==>
        id in Ids(words)
        && (id in candidates || exists d :: 0 <= d < e && d in extra && sentences[d].ContainsWord(id))
    {
      if e in extra {
        selected := selected + set id | id in Ids(words) && sentences[e].ContainsWord(id);
      }
    }
  }

  // One pass over the words: adds every word the intervals touch.
  method PullIn(words: seq<Word>, selected: set<u64>, intervals: seq<SampleInterval>) returns (grown: set<u64>)
    ensures grown == selected + Touched(words, intervals)
  {
    grown := selected;
    for k := 0 to |words|
      invariant forall id: u64 :: id in grown <==>
        id in selected || exists j :: 0 <= j < k && TouchedBy(words[j].interval, intervals) && words[j].id == id
    {
      if words[k].id !in selected && TouchedBy(words[k].interval, intervals) {
        grown := grown + {words[k].id};
      }
    }
  }

  // Grows the selection until the padded cover touches nothing new. Every
  // pass but the last adds a word, so there are at most as many passes as words.
  method PullInToFixedPoint(ghost p: Problem, words: seq<Word>, seeds: set<u64>, sentences: seq<Sentence>,
                            whole: set<int>, padding: u64, bound: SampleInterval)
    returns (selected: set<u64>, intervals: seq<SampleInterval>, iterations: nat)
    requires words == p.words && sentences == p.sentences && whole == p.Whole()
    requires padding == p.padding && bound == p.bound
    requires seeds == p.Seeds() && seeds != {}
    ensures p.LeastClosed(selected) && intervals == p.Cover(selected)
    ensures iterations <= |words|
  {
    iterations, selected := 0, seeds;
    intervals := PaddedIntervals(words, selected, sentences, whole, padding, bound);
    while true
      invariant selected != {} && seeds <= selected <= Ids(words)
      invariant intervals == p.Cover(selected)
      invariant forall other :: p.Closed(other) ==> selected <= other
      invariant iterations < |selected|
      decreases Ids(words) - selected
    {
      iterations := iterations + 1;
      var grown := PullIn(words, selected, intervals);
      if grown == selected {
        break;
      }
      forall other | p.Closed(other) ensures grown <= other {
        StaysBelowClosed(p, selected, other);
      }
      SubsetSizes(selected, grown);
      selected := grown;
      intervals := PaddedIntervals(words, selected, sentences, whole, padding, bound);
    }
    SubsetSizes(selected, Ids(words));
    IdsBounded(words);
  }

  ghost predicate HasRemovedWord(sentence: Sentence, removed: set<u64>) {
    exists id :: id in removed && sentence.ContainsWord(id)
  }

  method MarkSentences(words: seq<Word>, sentences: seq<Sentence>, whole: set<int>, removed: set<u64>)
    returns (indices: set<int>)
    requires removed <= Ids(words)
    ensures forall x :: x in indices <==>
      x in whole
      || (exists i :: 0 <= i < |sentences| && HasRemovedWord(sentences[i], removed) && sentences[i].index == x)
  {
    indices := whole;
    for i := 0 to |sentences|
      invariant forall x :: x in indices <==>
        x in whole
        || (exists j :: 0 <= j < i && HasRemovedWord(sentences[j], removed) && sentences[j].index == x)
    {
      var marked := exists k | 0 <= k < |words| :: words[k].id in removed && sentences[i].ContainsWord(words[k].id);
      assert marked <==> HasRemovedWord(sentences[i], removed);
      if marked {
        indices := indices + {sentences[i].index};
      }
    }
  }

  method PlanRemovals(
    transcript: FrozenTranscript, spans: seq<SensitiveSpan>, sentences: seq<Sentence>,
    settings: RemovalSettings, extra: set<int>, bound: Option<SampleInterval>)
    returns (plan: RemovalPlan)
    ensures var p := ProblemOf(transcript, spans, sentences, settings, extra, bound);
      && p.LeastClosed(plan.removedWordIds)
      && plan.intervals == p.Cover(plan.removedWordIds)
      && plan.paddingSamples == p.padding
      && plan.iterations <= |transcript.words|
    ensures var p := ProblemOf(transcript, spans, sentences, settings, extra, bound);
      forall x :: x in plan.removedSentenceIndices <==>
        (x in p.Whole()
         || exists i :: 0 <= i < |sentences| && HasRemovedWord(sentences[i], plan.removedWordIds) && sentences[i].index == x)
  {
    ghost var p := ProblemOf(transcript, spans, sentences, settings, extra, bound);
    var words := transcript.words;
    var audioBound := match bound case Some(b) => b case None => transcript.Span();
    var padding := MillisecondsToSamples(settings.paddingMs, transcript.sampleRate);
    var candidates, dropped := ExpandToSentences(spans, sentences, settings.expandToSentence);
    var whole := dropped + extra;
    var seeds := SelectSeeds(words, sentences, candidates, extra);
    assert seeds == p.Seeds();
    if seeds == {} {
      return RemovalPlan([], seeds, whole, padding, 0);
    }
    var selected, intervals, iterations :=
      PullInToFixedPoint(p, words, seeds, sentences, whole, padding, audioBound);
    var removedSentences := MarkSentences(words, sentences, whole, selected);
    plan := RemovalPlan(intervals, selected, removedSentences, padding, iterations);
  }

  lemma SubsetSizes(a: set<u64>, b: set<u64>)
    requires a <= b
    ensures |a| <= |b|
    ensures a != b ==> |a| < |b|
  {
    assert b == a + (b - a);
  }
}
