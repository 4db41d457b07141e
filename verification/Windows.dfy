// Overlapping classifier windows and the fail-closed analysis over them.
module Windows {
  import opened Options
  import opened TimeMap
  import opened Transcript
  import opened Removal

  datatype ClassifierWindow = ClassifierWindow(index: nat, words: seq<Word>)

  // Positions just after the last word of a sentence.
  ghost predicate Boundary(words: seq<Word>, sentences: seq<Sentence>, b: int) {
    && 0 < b <= |words|
    && exists i :: 0 <= i < |sentences| && words[b - 1].id + 1 == sentences[i].endWordIdExclusive
  }

  method SentenceBoundaries(words: seq<Word>, sentences: seq<Sentence>) returns (boundaries: set<int>)
    ensures forall b :: b in boundaries <==> Boundary(words, sentences, b)
  {
    boundaries := {};
    for i := 0 to |sentences|
      invariant forall b :: b in boundaries <==>
        0 < b <= |words|
        && exists j :: 0 <= j < i && words[b - 1].id + 1 == sentences[j].endWordIdExclusive
    {
      // With increasing identifiers at most one word ends here.
      var matching := set k | 0 <= k < |words| && words[k].id + 1 == sentences[i].endWordIdExclusive :: k + 1;
      boundaries := boundaries + matching;
    }
  }

  function LargestIn(boundaries: set<int>, low: nat, high: nat): (r: Option<nat>)
    ensures r.Some? ==> low < r.value <= high && r.value in boundaries
    ensures r.Some? ==> forall b :: r.value < b <= high ==> b !in boundaries
    ensures r.None? ==> forall b :: low < b <= high ==> b !in boundaries
    decreases high
  {
    if high <= low then None
    else if high in boundaries then Some(high)
    else LargestIn(boundaries, low, high - 1)
  }

  // Window `i` holds the words from `start`, at most `limit` of them, up to the
  // last sentence boundary that fits, or as many as fit when there is none.
  ghost predicate WindowAt(
    words: seq<Word>, sentences: seq<Sentence>, window: ClassifierWindow, start: nat, limit: nat)
  {
    var end := start + |window.words|;
    && start < end <= |words| && end <= start + limit
    && window.words == words[start..end]
    && (start + limit >= |words| ==> end == |words|)
    && (start + limit < |words| ==>
          && (end == start + limit || Boundary(words, sentences, end))
          && (forall b :: end < b <= start + limit ==> !Boundary(words, sentences, b)))
  }

  function NextStart(start: nat, length: nat, overlap: nat): nat {
    Max(start + length - overlap, start + 1)
  }

  ghost predicate WindowedUpTo(
    words: seq<Word>, sentences: seq<Sentence>, limit: nat, overlap: nat,
    windows: seq<ClassifierWindow>, starts: seq<nat>)
  {
    && |starts| == |windows|
    && (|starts| > 0 ==> starts[0] == 0)
    && (forall i {:trigger windows[i]} :: 0 <= i < |windows| ==>
          windows[i].index == i && WindowAt(words, sentences, windows[i], starts[i], limit))
    && (forall i, j {:trigger starts[i], starts[j]} :: 0 <= i && j == i + 1 && j < |windows| ==>
          starts[j] == NextStart(starts[i], |windows[i].words|, overlap))
  }

  ghost predicate LastReaches(words: seq<Word>, windows: seq<ClassifierWindow>, starts: seq<nat>) {
    |starts| == |windows|
    && (words == [] || (windows != [] && starts[|starts| - 1] + |windows[|windows| - 1].words| == |words|))
  }

  ghost predicate WindowedAt(
    words: seq<Word>, sentences: seq<Sentence>, windowWords: nat, overlapWords: nat,
    windows: seq<ClassifierWindow>, starts: seq<nat>)
  {
    var limit := Max(windowWords, 1);
    && WindowedUpTo(words, sentences, limit, Min(overlapWords, limit - 1), windows, starts)
    && LastReaches(words, windows, starts)
  }

  // The start the loop has reached after cutting `windows`.
  ghost function Reached(windows: seq<ClassifierWindow>, starts: seq<nat>, overlap: nat): nat
    requires |starts| == |windows|
  {
    if windows == [] then 0
    else NextStart(starts[|starts| - 1], |windows[|windows| - 1].words|, overlap)
  }

  lemma OneMoreWindow(
    words: seq<Word>, sentences: seq<Sentence>, limit: nat, overlap: nat,
    windows: seq<ClassifierWindow>, starts: seq<nat>, window: ClassifierWindow, start: nat)
    requires WindowedUpTo(words, sentences, limit, overlap, windows, starts)
    requires window.index == |windows| && WindowAt(words, sentences, window, start, limit)
    requires start == Reached(windows, starts, overlap)
    ensures WindowedUpTo(words, sentences, limit, overlap, windows + [window], starts + [start])
  {
    var more, later := windows + [window], starts + [start];
    forall i | 0 <= i < |more|
      ensures more[i].index == i && WindowAt(words, sentences, more[i], later[i], limit)
    {
      assert i < |windows| ==> more[i] == windows[i] && later[i] == starts[i];
    }
  }

  // Where the window starting at `start` ends.
  method WindowEnd(words: seq<Word>, sentences: seq<Sentence>, boundaries: set<int>, start: nat, limit: nat)
    returns (end: nat)
    requires forall b :: b in boundaries <==> Boundary(words, sentences, b)
    requires start < |words| && 0 < limit
    ensures start < end <= |words|
    ensures forall index :: WindowAt(words, sentences, ClassifierWindow(index, words[start..end]), start, limit)
  {
    end := Min(start + limit, |words|);
    if end < |words| {
      var snapped := LargestIn(boundaries, start, end);
      if snapped.Some? {
        end := snapped.value;
      }
    }
  }

  method BuildWindows(words: seq<Word>, sentences: seq<Sentence>, windowWords: nat, overlapWords: nat)
    returns (windows: seq<ClassifierWindow>)
    ensures exists starts :: WindowedAt(words, sentences, windowWords, overlapWords, windows, starts)
  {
    var limit := Max(windowWords, 1);
    var overlap := Min(overlapWords, limit - 1);
    var boundaries := SentenceBoundaries(words, sentences);
    windows := [];
    ghost var starts: seq<nat> := [];
    var start := 0;
    while start < |words|
      invariant WindowedUpTo(words, sentences, limit, overlap, windows, starts)
      invariant start == Reached(windows, starts, overlap)
      invariant windows != [] ==> starts[|starts| - 1] + |windows[|windows| - 1].words| < |words|
      invariant windows != [] ==> 0 < |windows[|windows| - 1].words|
      decreases |words| - start
    {
      var end := WindowEnd(words, sentences, boundaries, start, limit);
      var window := ClassifierWindow(|windows|, words[start..end]);
      OneMoreWindow(words, sentences, limit, overlap, windows, starts, window, start);
      windows := windows + [window];
      starts := starts + [start];
      if end >= |words| {
        break;
      }
      start := Max(if end <= overlap then 0 else end - overlap, start + 1);
    }
    assert WindowedAt(words, sentences, windowWords, overlapWords, windows, starts);
  }

  lemma {:induction false} StartHolding(
    words: seq<Word>, sentences: seq<Sentence>, limit: nat, overlap: nat,
    windows: seq<ClassifierWindow>, starts: seq<nat>, m: nat, k: nat) returns (i: nat)
    requires WindowedUpTo(words, sentences, limit, overlap, windows, starts)
    requires m < |windows| && starts[0] <= k
    ensures i <= m && starts[i] <= k && (i < m ==> k < starts[i + 1])
  {
    if starts[m] <= k {
      i := m;
    } else {
      i := StartHolding(words, sentences, limit, overlap, windows, starts, m - 1, k);
    }
  }

  // No word is outside every window, so a coverage gap cannot occur.
  lemma EveryWordWindowed(
    words: seq<Word>, sentences: seq<Sentence>, windowWords: nat, overlapWords: nat,
    windows: seq<ClassifierWindow>, starts: seq<nat>, k: nat)
    requires WindowedAt(words, sentences, windowWords, overlapWords, windows, starts) && k < |words|
    ensures exists i :: 0 <= i < |windows| && words[k] in windows[i].words
  {
    var limit := Max(windowWords, 1);
    var overlap := Min(overlapWords, limit - 1);
    var last := |windows| - 1;
    var i := StartHolding(words, sentences, limit, overlap, windows, starts, last, k);
    assert WindowAt(words, sentences, windows[i], starts[i], limit);
    assert i < last ==> starts[i + 1] == NextStart(starts[i], |windows[i].words|, overlap);
    assert windows[i].words[k - starts[i]] == words[k];
  }

  ghost predicate ShortCuts(cuts: seq<nat>, most: int) {
    forall i, j {:trigger cuts[i], cuts[j]} :: 0 <= i && j == i + 1 && j < |cuts| ==> cuts[j] - cuts[i] <= most
  }

  // No sentence has more than `most` words.
  ghost predicate ShortSentences(words: seq<Word>, pauseSamples: u64, sentences: seq<Sentence>, most: int) {
    exists cuts :: SegmentedAt(words, pauseSamples, sentences, cuts, |words|) && ShortCuts(cuts, most)
  }

  // Only the last word can have the largest identifier, which makes no boundary.
  lemma CutIsBoundary(words: seq<Word>, pauseSamples: u64, sentences: seq<Sentence>, cuts: seq<nat>, i: nat)
    requires IncreasingIds(words) && SegmentedAt(words, pauseSamples, sentences, cuts, |words|) && i < |sentences|
    ensures cuts[i + 1] <= |words| && (cuts[i + 1] < |words| ==> Boundary(words, sentences, cuts[i + 1]))
  {
    var b := cuts[i + 1];
    assert SpansRun(sentences[i], words, cuts[i], b);
    if b < |words| {
      assert words[b - 1].id < words[b].id;
    }
  }

  // Past any word position a sentence boundary, or the end, follows within
  // `most` words.
  lemma BoundaryFollows(words: seq<Word>, pauseSamples: u64, sentences: seq<Sentence>, most: int, k: nat)
    returns (b: nat)
    requires IncreasingIds(words) && ShortSentences(words, pauseSamples, sentences, most) && k < |words|
    ensures k < b <= k + most && b <= |words| && (b < |words| ==> Boundary(words, sentences, b))
  {
    var cuts :| SegmentedAt(words, pauseSamples, sentences, cuts, |words|) && ShortCuts(cuts, most);
    var i := CutHolding(cuts, |cuts| - 1, k);
    CutIsBoundary(words, pauseSamples, sentences, cuts, i);
    b := cuts[i + 1];
  }

  // So a window that is not the last holds more words than the overlap repeats.
  lemma WindowOutgrowsOverlap(
    words: seq<Word>, pauseSamples: u64, sentences: seq<Sentence>, limit: nat, overlap: nat,
    window: ClassifierWindow, start: nat)
    requires IncreasingIds(words) && overlap < limit
    requires ShortSentences(words, pauseSamples, sentences, limit - overlap)
    requires WindowAt(words, sentences, window, start, limit) && start + |window.words| < |words|
    ensures overlap < |window.words|
  {
    var b := BoundaryFollows(words, pauseSamples, sentences, limit - overlap, start + overlap);
  }

  // Consecutive windows share exactly the overlap.
  lemma OverlapShared(
    words: seq<Word>, pauseSamples: u64, sentences: seq<Sentence>, limit: nat, overlap: nat,
    windows: seq<ClassifierWindow>, starts: seq<nat>, i: nat)
    requires WindowedUpTo(words, sentences, limit, overlap, windows, starts) && i + 1 < |windows|
    requires IncreasingIds(words) && overlap < limit
    requires ShortSentences(words, pauseSamples, sentences, limit - overlap)
    ensures starts[i] + |windows[i].words| == |words| || starts[i + 1] + overlap == starts[i] + |windows[i].words|
  {
    assert windows[i].index == i;
    var next := starts[i + 1];
    assert next == NextStart(starts[i], |windows[i].words|, overlap);
    if starts[i] + |windows[i].words| < |words| {
      WindowOutgrowsOverlap(words, pauseSamples, sentences, limit, overlap, windows[i], starts[i]);
    }
  }

  // The words from `first` on lie whole inside a window whose first word is at `start`.
  ghost predicate HoldsRun(words: seq<Word>, window: ClassifierWindow, start: nat, first: nat, length: nat) {
    && start <= first && first + length <= start + |window.words| && first + length <= |words|
    && forall k :: first <= k < first + length ==> window.words[k - start] == words[k]
  }

  lemma WindowHoldsRun(
    words: seq<Word>, sentences: seq<Sentence>, window: ClassifierWindow, start: nat, limit: nat, first: nat, length: nat)
    requires WindowAt(words, sentences, window, start, limit)
    requires start <= first && first + length <= start + |window.words|
    ensures HoldsRun(words, window, start, first, length)
  {
  }

  // When no sentence is longer than the window less its overlap, every run of
  // up to overlap + 1 consecutive words lies whole inside one window.
  lemma RunsStayWhole(
    words: seq<Word>, pauseSamples: u64, sentences: seq<Sentence>, windowWords: nat, overlapWords: nat,
    windows: seq<ClassifierWindow>, starts: seq<nat>, first: nat, length: nat) returns (i: nat)
    requires WindowedAt(words, sentences, windowWords, overlapWords, windows, starts)
    requires IncreasingIds(words)
    requires var limit := Max(windowWords, 1);
      var overlap := Min(overlapWords, limit - 1);
      ShortSentences(words, pauseSamples, sentences, limit - overlap) && length <= overlap + 1
    requires 0 < length && first + length <= |words|
    ensures i < |windows| && HoldsRun(words, windows[i], starts[i], first, length)
  {
    var limit := Max(windowWords, 1);
    var overlap := Min(overlapWords, limit - 1);
    i := StartHolding(words, sentences, limit, overlap, windows, starts, |windows| - 1, first);
    if i < |windows| - 1 {
      OverlapShared(words, pauseSamples, sentences, limit, overlap, windows, starts, i);
    }
    assert windows[i].index == i;
    WindowHoldsRun(words, sentences, windows[i], starts[i], limit, first, length);
  }
}
