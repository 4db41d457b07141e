// No word is ever half cut: what a least closed removal leaves behind.
module Cuts {
  import opened TimeMap
  import opened Transcript
  import opened Removal
  import opened Privacy

  // Words that are not excluded and lie wholly inside the interval, in order.
  function WordsFullyInside(words: seq<Word>, interval: SampleInterval, excluded: set<u64>): seq<Word> {
    if words == [] then []
    else
      var rest := WordsFullyInside(words[1..], interval, excluded);
      if words[0].id !in excluded && interval.start <= words[0].interval.start && words[0].interval.end <= interval.end
      then [words[0]] + rest
      else rest
  }

  lemma {:induction false} WordsInsideAre(words: seq<Word>, interval: SampleInterval, excluded: set<u64>)
    ensures forall w :: w in WordsFullyInside(words, interval, excluded) <==>
      w in words && w.id !in excluded && interval.start <= w.interval.start && w.interval.end <= interval.end
  {
    if words != [] {
      WordsInsideAre(words[1..], interval, excluded);
    }
  }

  function Kept(words: seq<Word>, removed: set<u64>): seq<Word> {
    if words == [] then []
    else if words[0].id !in removed then [words[0]] + Kept(words[1..], removed)
    else Kept(words[1..], removed)
  }

  // The removal problem of one session: every sentence holding an unusable
  // word is cut whole.
  ghost predicate SessionProblem(p: Problem, pauseSamples: u64, minConfidence: real) {
    && IncreasingIds(p.words)
    && SoundlyAligned(p.words, p.bound)
    && IsSegmentation(p.words, pauseSamples, p.sentences)
    && SentencesWithUnusableWords(p.words, p.sentences, minConfidence) <= p.extra
  }

  // An unusable word is removed together with its sentence.
  lemma UnusableWordRemoved(p: Problem, pauseSamples: u64, minConfidence: real, removed: set<u64>, k: nat)
    requires SessionProblem(p, pauseSamples, minConfidence) && p.Closed(removed)
    requires k < |p.words| && Unusable(p.words[k], minConfidence) && p.words[k].id < U64_MAX
    ensures p.words[k].id in removed
  {
    var i, lo, hi := SentenceAround(p.words, pauseSamples, p.sentences, k);
    SpanHolds(p.words, p.sentences[i], lo, hi, k);
    assert i in SentencesWithUnusableWords(p.words, p.sentences, minConfidence);
    ExtraIsSeed(p, i, k);
  }

  lemma ExtraIsSeed(p: Problem, i: nat, k: nat)
    requires i < |p.sentences| && i in p.extra && k < |p.words| && p.sentences[i].ContainsWord(p.words[k].id)
    ensures p.words[k].id in p.Seeds()
  {
  }

  // ----- the largest identifier -------------------------------------------------

  // Only the last word can carry the largest identifier, which no sentence and
  // no span ever names.
  ghost predicate EndsAtMax(words: seq<Word>) {
    words != [] && words[|words| - 1].id == U64_MAX
  }

  lemma MaxIsNoSeed(p: Problem)
    ensures !p.IsSeed(U64_MAX)
  {
  }

  // The same removal without the last word.
  function Others(p: Problem): Problem {
    if p.words == [] then p else p.(words := p.words[..|p.words| - 1])
  }

  lemma OthersCoverAlike(p: Problem, removed: set<u64>)
    requires IncreasingIds(p.words) && EndsAtMax(p.words) && U64_MAX !in removed
    ensures p.Seeds() == Others(p).Seeds() && p.Cover(removed) == Others(p).Cover(removed)
  {
    var n := |p.words| - 1;
    assert p.words == p.words[..n] + [p.words[n]];
    MaxIsNoSeed(p);
    FrontIds(p.words);
    SelectedFront(p.words, removed);
  }

  lemma FrontIds(words: seq<Word>)
    requires IncreasingIds(words) && EndsAtMax(words)
    ensures Ids(words) == Ids(words[..|words| - 1]) + {U64_MAX} && U64_MAX !in Ids(words[..|words| - 1])
  {
    var n := |words| - 1;
    forall id | id in Ids(words) ensures id in Ids(words[..n]) + {U64_MAX} {
      var k :| 0 <= k < |words| && words[k].id == id;
      assert k < n ==> words[..n][k].id == id;
    }
    forall id | id in Ids(words[..n]) ensures id in Ids(words) && id != U64_MAX {
      var k :| 0 <= k < n && words[..n][k].id == id;
      assert words[k].id < words[n].id;
    }
  }

  lemma {:induction false} SelectedFront(words: seq<Word>, removed: set<u64>)
    requires words != [] && words[|words| - 1].id !in removed
    ensures SelectedIntervals(words, removed) == SelectedIntervals(words[..|words| - 1], removed)
  {
    if |words| > 1 {
      assert words[1..][..|words| - 2] == words[..|words| - 1][1..];
      SelectedFront(words[1..], removed);
    }
  }

  lemma TouchedFront(words: seq<Word>, intervals: seq<SampleInterval>)
    requires EndsAtMax(words)
    ensures var n := |words| - 1;
      Touched(words, intervals)
        == Touched(words[..n], intervals) + if TouchedBy(words[n].interval, intervals) then {U64_MAX} else {}
  {
    var n := |words| - 1;
    var front := words[..n];
    forall id | id in Touched(words, intervals) && !(id == U64_MAX && TouchedBy(words[n].interval, intervals))
      ensures id in Touched(front, intervals)
    {
      var k :| 0 <= k < |words| && TouchedBy(words[k].interval, intervals) && words[k].id == id;
      assert front[k] == words[k];
    }
    forall id | id in Touched(front, intervals) ensures id in Touched(words, intervals) {
      var k :| 0 <= k < n && TouchedBy(front[k].interval, intervals) && front[k].id == id;
      assert front[k] == words[k];
    }
  }

  // Closed sets without the largest identifier are the closed sets of the other
  // words that do not touch the last one.
  lemma ClosedWithoutLast(p: Problem, removed: set<u64>)
    requires IncreasingIds(p.words) && EndsAtMax(p.words) && U64_MAX !in removed
    ensures p.Closed(removed) <==>
      Others(p).Closed(removed) && !TouchedBy(p.words[|p.words| - 1].interval, Others(p).Cover(removed))
  {
    FrontIds(p.words);
    OthersCoverAlike(p, removed);
    TouchedFront(p.words, p.Cover(removed));
  }

  lemma ClosedLessLast(p: Problem, removed: set<u64>)
    requires IncreasingIds(p.words) && EndsAtMax(p.words) && p.Closed(removed)
    ensures Others(p).Closed(removed - {U64_MAX})
  {
    var rest := removed - {U64_MAX};
    FrontIds(p.words);
    OthersCoverAlike(p, rest);
    MaxIsNoSeed(p);
    assert AsksForMore(p, p);
    CoverGrows(p, p, rest, removed);
    TouchedGrows(p.words, p.Cover(rest), p.Cover(removed));
    TouchedFront(p.words, p.Cover(rest));
  }

  // A word with the largest identifier goes exactly when the padded cuts made
  // for the other words touch it.
  lemma LastGoesIffTouched(p: Problem, removed: set<u64>, rest: set<u64>)
    requires IncreasingIds(p.words) && EndsAtMax(p.words)
    requires p.LeastClosed(removed) && Others(p).LeastClosed(rest)
    ensures U64_MAX in removed <==> TouchedBy(p.words[|p.words| - 1].interval, Others(p).Cover(rest))
  {
    FrontIds(p.words);
    ClosedWithoutLast(p, rest);
    ClosedLessLast(p, removed);
    if U64_MAX !in removed {
      LastUntouched(p, removed, rest);
    }
  }

  lemma LastUntouched(p: Problem, removed: set<u64>, rest: set<u64>)
    requires IncreasingIds(p.words) && EndsAtMax(p.words) && U64_MAX !in removed
    requires p.Closed(removed) && rest <= removed
    ensures !TouchedBy(p.words[|p.words| - 1].interval, Others(p).Cover(rest))
  {
    var others, last := Others(p), p.words[|p.words| - 1].interval;
    ClosedWithoutLast(p, removed);
    assert AsksForMore(others, others);
    CoverGrows(others, others, rest, removed);
    if TouchedBy(last, others.Cover(rest)) {
      TouchedStays(last, others.Cover(rest), others.Cover(removed));
    }
  }

  // When the cuts for the other words are made, the last word stays if it bears
  // the largest identifier and none of them touches it.
  ghost predicate SlipsThrough(p: Problem, rest: set<u64>) {
    EndsAtMax(p.words) && !TouchedBy(p.words[|p.words| - 1].interval, Others(p).Cover(rest))
  }

  ghost predicate AllUnusableRemoved(words: seq<Word>, minConfidence: real, removed: set<u64>) {
    forall k :: 0 <= k < |words| && Unusable(words[k], minConfidence) ==> words[k].id in removed
  }

  lemma SlipsIffKept(p: Problem, removed: set<u64>, rest: set<u64>)
    requires IncreasingIds(p.words) && p.LeastClosed(removed) && Others(p).LeastClosed(rest)
    ensures SlipsThrough(p, rest) <==> EndsAtMax(p.words) && p.words[|p.words| - 1].id !in removed
  {
    if EndsAtMax(p.words) {
      LastGoesIffTouched(p, removed, rest);
    }
  }

  // Every unusable word is removed, unless the last one is unusable and slips
  // through: it bears the largest identifier and no other cut touches it.
  lemma UnusableWordsRemoved(p: Problem, pauseSamples: u64, minConfidence: real, removed: set<u64>, rest: set<u64>)
    requires SessionProblem(p, pauseSamples, minConfidence)
    requires p.LeastClosed(removed) && Others(p).LeastClosed(rest)
    ensures AllUnusableRemoved(p.words, minConfidence, removed) <==>
      !(SlipsThrough(p, rest) && Unusable(p.words[|p.words| - 1], minConfidence))
  {
    SlipsIffKept(p, removed, rest);
    if !AllUnusableRemoved(p.words, minConfidence, removed) {
      var k :| 0 <= k < |p.words| && Unusable(p.words[k], minConfidence) && p.words[k].id !in removed;
      OthersUnusableRemoved(p, pauseSamples, minConfidence, removed);
    }
  }

  // Only the last word may stay behind.
  lemma OthersUnusableRemoved(p: Problem, pauseSamples: u64, minConfidence: real, removed: set<u64>)
    requires SessionProblem(p, pauseSamples, minConfidence) && p.Closed(removed)
    ensures forall k :: 0 <= k < |p.words| && Unusable(p.words[k], minConfidence) && p.words[k].id !in removed ==>
      EndsAtMax(p.words) && k == |p.words| - 1
  {
    forall k | 0 <= k < |p.words| && Unusable(p.words[k], minConfidence) && p.words[k].id !in removed
      ensures EndsAtMax(p.words) && k == |p.words| - 1
    {
      if p.words[k].id < U64_MAX {
        UnusableWordRemoved(p, pauseSamples, minConfidence, removed, k);
      }
      assert k < |p.words| - 1 ==> p.words[k].id < p.words[|p.words| - 1].id;
    }
  }

  ghost predicate KeptHaveLength(words: seq<Word>, removed: set<u64>) {
    forall k :: 0 <= k < |words| && words[k].id !in removed ==> !words[k].interval.IsEmpty()
  }

  // Every kept word has a length, unless an empty last one slips through.
  lemma KeptWordsHaveLength(p: Problem, pauseSamples: u64, minConfidence: real, removed: set<u64>, rest: set<u64>)
    requires SessionProblem(p, pauseSamples, minConfidence)
    requires p.LeastClosed(removed) && Others(p).LeastClosed(rest)
    ensures KeptHaveLength(p.words, removed) <==>
      !(SlipsThrough(p, rest) && p.words[|p.words| - 1].interval.IsEmpty())
  {
    SlipsIffKept(p, removed, rest);
    if !KeptHaveLength(p.words, removed) {
      var k :| 0 <= k < |p.words| && p.words[k].id !in removed && p.words[k].interval.IsEmpty();
      EmptyKeptIsLast(p, pauseSamples, minConfidence, removed, k);
    }
  }

  lemma EmptyKeptIsLast(p: Problem, pauseSamples: u64, minConfidence: real, removed: set<u64>, k: nat)
    requires SessionProblem(p, pauseSamples, minConfidence) && p.Closed(removed)
    requires k < |p.words| && p.words[k].id !in removed && p.words[k].interval.IsEmpty()
    ensures EndsAtMax(p.words) && k == |p.words| - 1
  {
    assert Unusable(p.words[k], minConfidence);
    OthersUnusableRemoved(p, pauseSamples, minConfidence, removed);
  }

  // One hopeless word with the largest identifier: no sentence is found
  // unusable for it, and nothing at all is removed.
  lemma MaxWordSurvives(text: string, padding: u64) returns (p: Problem)
    ensures var word := Word(U64_MAX, text, "", RawInterval(0, 10), 0.0, false);
      && p == Problem([word], [], [Sentence(0, U64_MAX, U64_MAX, RawInterval(0, 10))], true, {}, padding, RawInterval(0, 10))
      && IsSegmentation(p.words, 0, p.sentences) && Unusable(word, 0.5)
      && SentencesWithUnusableWords(p.words, p.sentences, 0.5) == {} && p.LeastClosed({})
  {
    var word := Word(U64_MAX, text, "", RawInterval(0, 10), 0.0, false);
    p := Problem([word], [], [Sentence(0, U64_MAX, U64_MAX, RawInterval(0, 10))], true, {}, padding, RawInterval(0, 10));
    var cuts: seq<nat> := [0, 1];
    assert cuts[0] == 0 && cuts[1] == 1 && CutsInto(p.words, cuts, 1);
    assert SpansRun(p.sentences[0], p.words, 0, 1) && OneSentence(p.words, 0, 0, 1);
    assert SegmentedAt(p.words, 0, p.sentences, cuts, 1);
    assert EndsAtMax(p.words);
    MaxIsNoSeed(p);
    assert p.Seeds() <= Ids(p.words) <= {U64_MAX};
    assert p.Seeds() == {} && p.Cover({}) == [];
  }

  // ----- kept words and clips ------------------------------------------------------

  // A kept word with a length lies wholly inside one retained interval and meets
  // no other.
  lemma KeptWordInOneClip(p: Problem, removed: set<u64>, k: nat) returns (j: nat)
    requires SoundlyAligned(p.words, p.bound) && p.Closed(removed)
    requires k < |p.words| && p.words[k].id !in removed && !p.words[k].interval.IsEmpty()
    ensures var retained := Complement(p.Cover(removed), p.bound);
      && j < |retained|
      && retained[j].start <= p.words[k].interval.start && p.words[k].interval.end <= retained[j].end
      && forall i :: 0 <= i < |retained| && i != j ==> !p.words[k].interval.Intersects(retained[i])
  {
    var cover := p.Cover(removed);
    UntouchedIsUncovered(p.words, cover, k);
    j := InsideOne(p.words[k].interval, Complement(cover, p.bound));
  }

  lemma UntouchedIsUncovered(words: seq<Word>, cover: seq<SampleInterval>, k: nat)
    requires k < |words| && !TouchedBy(words[k].interval, cover)
    ensures forall x :: words[k].interval.Contains(x) ==> !Covered(cover, x)
  {
    forall x | words[k].interval.Contains(x) ensures !Covered(cover, x) {
      if i :| 0 <= i < |cover| && cover[i].Contains(x) {
        assert words[k].interval.Intersects(cover[i]);
      }
    }
  }

  // ----- concatenating the clips' words --------------------------------------

  function ConcatWords(words: seq<Word>, retained: seq<SampleInterval>, removed: set<u64>, n: nat): seq<Word>
    requires n <= |retained|
  {
    if n == 0 then []
    else ConcatWords(words, retained, removed, n - 1) + WordsFullyInside(words, retained[n - 1], removed)
  }

  // Ordered words of which the kept ones have a length.
  ghost predicate OrderedKept(words: seq<Word>, removed: set<u64>) {
    && (forall i, j :: 0 <= i < j < |words| ==> words[i].interval.end <= words[j].interval.start)
    && KeptHaveLength(words, removed)
  }

  // Every kept word ends by `c` or lies at or after `next.start`, unless it
  // ends after `next`.
  ghost predicate SplitAt(words: seq<Word>, removed: set<u64>, c: u64, next: SampleInterval) {
    forall k :: 0 <= k < |words| && words[k].id !in removed && words[k].interval.end <= next.end ==>
      words[k].interval.end <= c || next.start <= words[k].interval.start
  }

  // Words inside [0, next.end) split at the gap before `next`.
  lemma {:induction false} InsideSplits(words: seq<Word>, removed: set<u64>, c: u64, next: SampleInterval)
    requires c <= next.start && OrderedKept(words, removed) && SplitAt(words, removed, c, next)
    ensures WordsFullyInside(words, RawInterval(0, next.end), removed)
      == WordsFullyInside(words, RawInterval(0, c), removed) + WordsFullyInside(words, next, removed)
  {
    if words != [] {
      InsideSplits(words[1..], removed, c, next);
      if words[0].id !in removed && next.start <= words[0].interval.start {
        NothingBefore(words[1..], removed, c);
      }
    }
  }

  lemma {:induction false} NothingBefore(words: seq<Word>, removed: set<u64>, c: u64)
    requires forall k :: 0 <= k < |words| && words[k].id !in removed ==> c < words[k].interval.end
    ensures WordsFullyInside(words, RawInterval(0, c), removed) == []
  {
    if words != [] {
      NothingBefore(words[1..], removed, c);
    }
  }

  lemma {:induction false} KeptAreInside(words: seq<Word>, removed: set<u64>, c: u64)
    requires forall k :: 0 <= k < |words| && words[k].id !in removed ==> words[k].interval.end <= c
    ensures WordsFullyInside(words, RawInterval(0, c), removed) == Kept(words, removed)
  {
    if words != [] {
      KeptAreInside(words[1..], removed, c);
    }
  }

  // The samples from the start of the bound to the end of the last of `n` clips.
  function UpTo(retained: seq<SampleInterval>, n: nat): SampleInterval
    requires n <= |retained|
  {
    RawInterval(0, if n == 0 then 0 else retained[n - 1].end)
  }

  ghost predicate InSome(interval: SampleInterval, retained: seq<SampleInterval>) {
    exists j :: 0 <= j < |retained| && retained[j].start <= interval.start && interval.end <= retained[j].end
  }

  ghost predicate EachInSome(words: seq<Word>, retained: seq<SampleInterval>, removed: set<u64>) {
    forall k :: 0 <= k < |words| && words[k].id !in removed ==> InSome(words[k].interval, retained)
  }

  lemma ClipsSplit(words: seq<Word>, retained: seq<SampleInterval>, removed: set<u64>, n: nat)
    requires Canonical(retained) && 0 < n <= |retained| && EachInSome(words, retained, removed)
    ensures UpTo(retained, n - 1).end <= retained[n - 1].start
    ensures SplitAt(words, removed, UpTo(retained, n - 1).end, retained[n - 1])
  {
    var c, next := UpTo(retained, n - 1).end, retained[n - 1];
    forall k | 0 <= k < |words| && words[k].id !in removed && words[k].interval.end <= next.end
      ensures words[k].interval.end <= c || next.start <= words[k].interval.start
    {
      assert InSome(words[k].interval, retained);
    }
  }

  lemma {:induction false} ConcatIsPrefix(words: seq<Word>, retained: seq<SampleInterval>, removed: set<u64>, n: nat)
    requires Canonical(retained) && n <= |retained|
    requires OrderedKept(words, removed) && EachInSome(words, retained, removed)
    ensures ConcatWords(words, retained, removed, n) == WordsFullyInside(words, UpTo(retained, n), removed)
  {
    if n == 0 {
      NothingBefore(words, removed, 0);
    } else {
      ConcatIsPrefix(words, retained, removed, n - 1);
      ClipsSplit(words, retained, removed, n);
      InsideSplits(words, removed, UpTo(retained, n - 1).end, retained[n - 1]);
    }
  }

  lemma KeptWordsPlaced(p: Problem, removed: set<u64>, retained: seq<SampleInterval>)
    requires SoundlyAligned(p.words, p.bound) && p.Closed(removed) && KeptHaveLength(p.words, removed)
    requires retained == Complement(p.Cover(removed), p.bound)
    ensures OrderedKept(p.words, removed) && EachInSome(p.words, retained, removed)
  {
    forall k | 0 <= k < |p.words| && p.words[k].id !in removed
      ensures InSome(p.words[k].interval, retained)
    {
      var j := KeptWordInOneClip(p, removed, k);
    }
  }

  lemma InsideLastEnd(words: seq<Word>, retained: seq<SampleInterval>, removed: set<u64>)
    requires Canonical(retained) && EachInSome(words, retained, removed)
    ensures forall k :: 0 <= k < |words| && words[k].id !in removed ==>
      words[k].interval.end <= UpTo(retained, |retained|).end
  {
    forall k | 0 <= k < |words| && words[k].id !in removed
      ensures words[k].interval.end <= UpTo(retained, |retained|).end
    {
      assert InSome(words[k].interval, retained);
    }
  }

  // When the kept words have a length, reading the clips in order gives exactly
  // the words that were not removed, in transcript order.
  lemma ClipWordsAreKeptWords(p: Problem, removed: set<u64>)
    requires SoundlyAligned(p.words, p.bound) && p.Closed(removed) && KeptHaveLength(p.words, removed)
    ensures var retained := Complement(p.Cover(removed), p.bound);
      ConcatWords(p.words, retained, removed, |retained|) == Kept(p.words, removed)
  {
    var retained := Complement(p.Cover(removed), p.bound);
    KeptWordsPlaced(p, removed, retained);
    InsideLastEnd(p.words, retained, removed);
    ConcatIsPrefix(p.words, retained, removed, |retained|);
    KeptAreInside(p.words, removed, UpTo(retained, |retained|).end);
  }

  // ----- counting ------------------------------------------------------------

  function TotalInside(words: seq<Word>, sources: seq<SampleInterval>, removed: set<u64>, n: nat): nat
    requires n <= |sources|
  {
    if n == 0 then 0 else TotalInside(words, sources, removed, n - 1) + |WordsFullyInside(words, sources[n - 1], removed)|
  }

  lemma {:induction false} OneWordOnce(words: seq<Word>, sources: seq<SampleInterval>, removed: set<u64>, n: nat)
    requires Canonical(sources) && n <= |sources| && words != []
    ensures TotalInside(words, sources, removed, n) <= TotalInside(words[1..], sources, removed, n) + 1
    ensures (forall j :: 0 <= j < n ==>
        words[0].interval.start < sources[j].start || sources[j].end < words[0].interval.end) ==>
      TotalInside(words, sources, removed, n) == TotalInside(words[1..], sources, removed, n)
  {
    if n > 0 {
      OneWordOnce(words, sources, removed, n - 1);
    }
  }

  // Separate clips never hold the same word twice.
  lemma {:induction false} InsideAtMostOnce(words: seq<Word>, sources: seq<SampleInterval>, removed: set<u64>, n: nat)
    requires Canonical(sources) && n <= |sources|
    ensures TotalInside(words, sources, removed, n) <= |words|
    decreases |words|
  {
    if words == [] {
      NothingInsideNothing(sources, removed, n);
    } else {
      InsideAtMostOnce(words[1..], sources, removed, n);
      OneWordOnce(words, sources, removed, n);
    }
  }

  lemma {:induction false} NothingInsideNothing(sources: seq<SampleInterval>, removed: set<u64>, n: nat)
    requires n <= |sources|
    ensures TotalInside([], sources, removed, n) == 0
  {
    if n > 0 {
      NothingInsideNothing(sources, removed, n - 1);
    }
  }

  ghost predicate InOrder(words: seq<Word>) {
    forall i, j :: 0 <= i < j < |words| ==> words[i].interval.end <= words[j].interval.start
  }

  lemma {:induction false} InsideStaysInOrder(words: seq<Word>, interval: SampleInterval, excluded: set<u64>)
    requires InOrder(words)
    ensures InOrder(WordsFullyInside(words, interval, excluded))
  {
    if words != [] {
      InsideStaysInOrder(words[1..], interval, excluded);
      WordsInsideAre(words[1..], interval, excluded);
      var rest := WordsFullyInside(words[1..], interval, excluded);
      assert forall k :: 0 <= k < |rest| ==> rest[k] in words[1..];
    }
  }
}
