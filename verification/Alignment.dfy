// From recognizer tokens to frozen words: timing that never becomes fatal.
module Alignment {
  import opened Options
  import opened TimeMap
  import opened Transcript
  import opened Removal
  import opened Privacy
  import Text

  const SAMPLES_PER_CENTISECOND: nat := 160

  // Centiseconds may be negative; a negative onset means it is unavailable.
  datatype Token = Token(text: string, t0: int, tDtw: int, probability: real)

  datatype Pending = Pending(text: string, onset: u64, probability: real, unreliable: bool)

  datatype AsrWord = AsrWord(
    text: string, startSample: u64, endSample: u64, probability: real, timingUnreliable: bool)

  function ToSamples(centiseconds: int): nat {
    Max(centiseconds, 0) * SAMPLES_PER_CENTISECOND
  }

  // The product is taken in 64 bits.
  predicate OnsetFits(token: Token) {
    ToSamples(token.tDtw) <= U64_MAX && ToSamples(token.t0) <= U64_MAX
  }

  predicate NoAlphanumeric(s: string) {
    forall c :: c in s ==> !Text.IsAlphanumeric(c)
  }

  predicate PunctuationOnly(text: string) {
    Text.Trim(text) != "" && NoAlphanumeric(Text.Trim(text))
  }

  function Ratio(probability: real): (r: real)
    ensures 0.0 <= r <= 1.0
  {
    if probability < 0.0 then 0.0 else if probability > 1.0 then 1.0 else probability
  }

  function Onset(token: Token): u64
    requires OnsetFits(token)
  {
    if token.tDtw >= 0 then ToSamples(token.tDtw) else ToSamples(token.t0)
  }

  // ----- tokens to words ------------------------------------------------------

  // The token opens a new word unless nothing precedes it anyway.
  predicate Opens(token: Token) {
    token.text != "" && Text.IsWhitespace(token.text[0]) && !PunctuationOnly(token.text)
  }

  function Spelling(group: seq<Token>): string {
    if |group| == 0 then ""
    else if |group| == 1 then Text.TrimStart(group[0].text)
    else Spelling(group[..|group| - 1]) + group[|group| - 1].text
  }

  // One word made of one group of consecutive tokens: their joined text, the
  // first onset, the least probability, and any missing DTW onset.
  ghost predicate Summarizes(word: Pending, group: seq<Token>) {
    && group != [] && OnsetFits(group[0])
    && word.text == Spelling(group)
    && word.onset == Onset(group[0])
    && (word.unreliable <==> exists t :: t in group && t.tDtw < 0)
    && (forall t :: t in group ==> word.probability <= t.probability)
    && (exists t :: t in group && word.probability == t.probability)
    && (forall k :: 1 <= k < |group| ==> !Opens(group[k]))
  }

  function Flatten(groups: seq<seq<Token>>): seq<Token> {
    if groups == [] then [] else Flatten(groups[..|groups| - 1]) + groups[|groups| - 1]
  }

  function NonEmpty(tokens: seq<Token>): seq<Token> {
    if tokens == [] then []
    else
      var last := tokens[|tokens| - 1];
      NonEmpty(tokens[..|tokens| - 1]) + (if last.text == "" then [] else [last])
  }

  ghost predicate GroupedBy(tokens: seq<Token>, pending: seq<Pending>, groups: seq<seq<Token>>) {
    && |groups| == |pending|
    && Flatten(groups) == NonEmpty(tokens)
    && (forall i :: 0 <= i < |pending| ==> Summarizes(pending[i], groups[i]))
    && (forall i :: 0 < i < |groups| ==> groups[i] != [] && Opens(groups[i][0]))
  }

  lemma OpensGroup(tokens: seq<Token>, pending: seq<Pending>, groups: seq<seq<Token>>, n: nat, word: Pending)
    requires n < |tokens| && GroupedBy(tokens[..n], pending, groups)
    requires tokens[n].text != "" && OnsetFits(tokens[n]) && (pending != [] ==> Opens(tokens[n]))
    requires word == Pending(Text.TrimStart(tokens[n].text), Onset(tokens[n]), tokens[n].probability, tokens[n].tDtw < 0)
    ensures GroupedBy(tokens[..n + 1], pending + [word], groups + [[tokens[n]]])
  {
    assert tokens[..n + 1][..n] == tokens[..n];
    var more := groups + [[tokens[n]]];
    assert more[..|groups|] == groups;
    assert Summarizes(word, [tokens[n]]);
  }

  // `last` with one more token attached.
  function Attach(last: Pending, token: Token): Pending {
    Pending(last.text + token.text, last.onset,
            if token.probability < last.probability then token.probability else last.probability,
            last.unreliable || token.tDtw < 0)
  }

  lemma SummaryGrows(last: Pending, group: seq<Token>, token: Token)
    requires Summarizes(last, group) && !Opens(token)
    ensures Summarizes(Attach(last, token), group + [token])
  {
    var longer := group + [token];
    assert longer[..|longer| - 1] == group;
    assert token in longer;
    assert forall t :: t in group ==> t in longer;
    assert forall t :: t in longer ==> t in group || t == token;
  }

  lemma FlattenGrows(groups: seq<seq<Token>>, token: Token)
    requires groups != []
    ensures Flatten(groups[..|groups| - 1] + [groups[|groups| - 1] + [token]]) == Flatten(groups) + [token]
  {
    var last := |groups| - 1;
    var more := groups[..last] + [groups[last] + [token]];
    assert more[..last] == groups[..last];
  }

  lemma JoinsGroup(tokens: seq<Token>, pending: seq<Pending>, groups: seq<seq<Token>>, n: nat)
    requires n < |tokens| && GroupedBy(tokens[..n], pending, groups)
    requires tokens[n].text != "" && !Opens(tokens[n]) && pending != []
    ensures GroupedBy(tokens[..n + 1], pending[..|pending| - 1] + [Attach(pending[|pending| - 1], tokens[n])],
                      groups[..|groups| - 1] + [groups[|groups| - 1] + [tokens[n]]])
  {
    var last := |groups| - 1;
    assert tokens[..n + 1][..n] == tokens[..n];
    FlattenGrows(groups, tokens[n]);
    GroupsGrow(pending, groups, tokens[n]);
  }

  lemma GroupsGrow(pending: seq<Pending>, groups: seq<seq<Token>>, token: Token)
    requires |groups| == |pending| && pending != [] && !Opens(token)
    requires forall i :: 0 <= i < |pending| ==> Summarizes(pending[i], groups[i])
    requires forall i :: 0 < i < |groups| ==> groups[i] != [] && Opens(groups[i][0])
    ensures var last := |groups| - 1;
      var words, more := pending[..last] + [Attach(pending[last], token)], groups[..last] + [groups[last] + [token]];
      && (forall i :: 0 <= i < |words| ==> Summarizes(words[i], more[i]))
      && (forall i :: 0 < i < |more| ==> more[i] != [] && Opens(more[i][0]))
  {
    var last := |groups| - 1;
    SummaryGrows(pending[last], groups[last], token);
    var words, more := pending[..last] + [Attach(pending[last], token)], groups[..last] + [groups[last] + [token]];
    forall i | 0 <= i < |words| ensures Summarizes(words[i], more[i]) {
      assert i < last ==> words[i] == pending[i] && more[i] == groups[i];
    }
  }

  // Tokens that begin with whitespace start a word; punctuation attaches to
  // the word before it.
  method Gather(tokens: seq<Token>) returns (pending: seq<Pending>)
    requires forall t :: t in tokens ==> OnsetFits(t)
    ensures exists groups :: GroupedBy(tokens, pending, groups)
  {
    pending := [];
    ghost var groups: seq<seq<Token>> := [];
    for i := 0 to |tokens|
      invariant GroupedBy(tokens[..i], pending, groups)
    {
      var token := tokens[i];
      if token.text != "" {
        var startsWord := Text.IsWhitespace(token.text[0]) || pending == [];
        var attaches := PunctuationOnly(token.text) && pending != [];
        var hasDtw := token.tDtw >= 0;
        assert OnsetFits(token);
        var onset := if hasDtw then ToSamples(token.tDtw) else ToSamples(token.t0);
        if startsWord && !attaches {
          var word := Pending(Text.TrimStart(token.text), onset, token.probability, !hasDtw);
          OpensGroup(tokens, pending, groups, i, word);
          pending := pending + [word];
          groups := groups + [[token]];
        } else {
          var last := pending[|pending| - 1];
          var word := last.(
            text := last.text + token.text,
            probability := if token.probability < last.probability then token.probability else last.probability,
            unreliable := last.unreliable || !hasDtw);
          JoinsGroup(tokens, pending, groups, i);
          pending := pending[..|pending| - 1] + [word];
          groups := groups[..|groups| - 1] + [groups[|groups| - 1] + [token]];
        }
      } else {
        assert tokens[..i + 1][..i] == tokens[..i];
      }
    }
    assert tokens[..|tokens|] == tokens;
  }

  // ----- tiling the segment ---------------------------------------------------

  // Where the `i`th word starts: its onset, never before the word before it.
  function StartOf(pending: seq<Pending>, lower: u64, upper: u64, i: nat): (r: u64)
    requires lower <= upper && i < |pending|
    ensures lower <= r <= upper
  {
    ClampTo(pending[i].onset, if i == 0 then lower else StartOf(pending, lower, upper, i - 1), upper)
  }

  // Each word lasts until the next begins; the last one until the segment ends.
  function EndOf(pending: seq<Pending>, lower: u64, upper: u64, i: nat): (r: u64)
    requires lower <= upper && i < |pending|
    ensures StartOf(pending, lower, upper, i) <= r <= upper
  {
    if i + 1 < |pending| then StartOf(pending, lower, upper, i + 1) else upper
  }

  function WordOf(pending: seq<Pending>, lower: u64, upper: u64, i: nat): AsrWord
    requires lower <= upper && i < |pending|
  {
    var start, end := StartOf(pending, lower, upper, i), EndOf(pending, lower, upper, i);
    var previous := if i == 0 then lower else StartOf(pending, lower, upper, i - 1);
    AsrWord(Text.Trim(pending[i].text), start, end, Ratio(pending[i].probability),
            pending[i].unreliable || end == start || pending[i].onset < previous)
  }

  function WordsOf(pending: seq<Pending>, lower: u64, upper: u64, n: nat): seq<AsrWord>
    requires lower <= upper && n <= |pending|
  {
    if n == 0 then []
    else
      WordsOf(pending, lower, upper, n - 1)
      + (if Text.Trim(pending[n - 1].text) == "" then [] else [WordOf(pending, lower, upper, n - 1)])
  }

  // The word the loop builds is the tiled one.
  lemma BuiltWord(pending: seq<Pending>, lower: u64, upper: u64, i: nat, previous: u64)
    requires lower <= upper && i < |pending|
    requires previous == if i == 0 then lower else StartOf(pending, lower, upper, i - 1)
    ensures var start := ClampTo(pending[i].onset, previous, upper);
      var end := Max(if i + 1 < |pending| then ClampTo(pending[i + 1].onset, start, upper) else upper, start);
      && start == StartOf(pending, lower, upper, i)
      && WordOf(pending, lower, upper, i)
        == AsrWord(Text.Trim(pending[i].text), start, end, Ratio(pending[i].probability),
                   pending[i].unreliable || end == start || pending[i].onset < previous)
  {
  }

  method TileWords(pending: seq<Pending>, lower: u64, upper: u64) returns (words: seq<AsrWord>)
    requires lower <= upper
    ensures words == WordsOf(pending, lower, upper, |pending|)
  {
    var previousStart := lower;
    words := [];
    for i := 0 to |pending|
      invariant previousStart == if i == 0 then lower else StartOf(pending, lower, upper, i - 1)
      invariant words == WordsOf(pending, lower, upper, i)
    {
      var word := pending[i];
      var start := ClampTo(word.onset, previousStart, upper);
      var nextOnset := if i + 1 < |pending| then ClampTo(pending[i + 1].onset, start, upper) else upper;
      var end := Max(nextOnset, start);
      var unreliable := word.unreliable || end == start || word.onset < previousStart;
      BuiltWord(pending, lower, upper, i, previousStart);
      previousStart := start;
      var text := Text.Trim(word.text);
      if text != "" {
        words := words + [AsrWord(text, start, end, Ratio(word.probability), unreliable)];
      }
    }
  }

  // The words are the token groups, tiled over the segment clipped to the audio.
  ghost predicate Grouped(tokens: seq<Token>, segmentStart: u64, segmentEnd: u64, audioSamples: u64, words: seq<AsrWord>) {
    var upper := Min(segmentEnd, audioSamples);
    exists pending, groups ::
      GroupedBy(tokens, pending, groups) && words == WordsOf(pending, Min(segmentStart, upper), upper, |pending|)
  }

  method GroupWords(tokens: seq<Token>, segmentStart: u64, segmentEnd: u64, audioSamples: u64)
    returns (words: seq<AsrWord>)
    requires forall t :: t in tokens ==> OnsetFits(t)
    ensures Grouped(tokens, segmentStart, segmentEnd, audioSamples, words)
  {
    var pending := Gather(tokens);
    var upper := Min(segmentEnd, audioSamples);
    words := TileWords(pending, Min(segmentStart, upper), upper);
  }

  // Words inside [lower, upper], in order, each with a length or a flag.
  ghost predicate AlignedWithin(words: seq<AsrWord>, lower: int, upper: int) {
    && (forall k :: 0 <= k < |words| ==>
          && lower <= words[k].startSample <= words[k].endSample <= upper
          && 0.0 <= words[k].probability <= 1.0
          && (words[k].startSample == words[k].endSample ==> words[k].timingUnreliable))
    && (forall i, j :: 0 <= i < j < |words| ==> words[i].endSample <= words[j].startSample)
  }

  ghost predicate NoneBlank(pending: seq<Pending>, n: nat)
    requires n <= |pending|
  {
    forall i :: 0 <= i < n ==> Text.Trim(pending[i].text) != ""
  }

  // A word is missing exactly when some pending text is blank.
  lemma {:induction false} BlankWordsDropped(pending: seq<Pending>, lower: u64, upper: u64, n: nat)
    requires lower <= upper && n <= |pending|
    ensures |WordsOf(pending, lower, upper, n)| <= n
    ensures |WordsOf(pending, lower, upper, n)| == n <==> NoneBlank(pending, n)
  {
    if n > 0 {
      BlankWordsDropped(pending, lower, upper, n - 1);
      assert NoneBlank(pending, n) <==> NoneBlank(pending, n - 1) && Text.Trim(pending[n - 1].text) != "";
    }
  }

  lemma {:induction false} OtherwiseEach(pending: seq<Pending>, lower: u64, upper: u64, n: nat, i: nat)
    requires lower <= upper && i < n <= |pending| && NoneBlank(pending, n)
    ensures |WordsOf(pending, lower, upper, n)| == n
    ensures WordsOf(pending, lower, upper, n)[i] == WordOf(pending, lower, upper, i)
  {
    BlankWordsDropped(pending, lower, upper, n);
    if i < n - 1 {
      OtherwiseEach(pending, lower, upper, n - 1, i);
    } else {
      BlankWordsDropped(pending, lower, upper, n - 1);
    }
  }

  // Each word ends where the next one starts.
  ghost predicate Contiguous(words: seq<AsrWord>) {
    forall i, j {:trigger words[i], words[j]} :: 0 <= i && j == i + 1 && j < |words| ==>
      words[i].endSample == words[j].startSample
  }

  // Unless a blank word is dropped, the words of a segment tile it, from the
  // first onset to the end.
  lemma WordsTile(pending: seq<Pending>, lower: u64, upper: u64)
    requires lower <= upper && pending != []
    ensures var words := WordsOf(pending, lower, upper, |pending|);
      if NoneBlank(pending, |pending|)
      then |words| == |pending| && Contiguous(words)
        && words[0].startSample == Max(lower, Min(pending[0].onset, upper)) && words[|words| - 1].endSample == upper
      else |words| < |pending|
  {
    var n, words := |pending|, WordsOf(pending, lower, upper, |pending|);
    BlankWordsDropped(pending, lower, upper, n);
    if NoneBlank(pending, n) {
      forall i | 0 <= i < n ensures words[i] == WordOf(pending, lower, upper, i) {
        OtherwiseEach(pending, lower, upper, n, i);
      }
    }
  }

  lemma {:induction false} WordsAligned(pending: seq<Pending>, lower: u64, upper: u64, n: nat)
    requires lower <= upper && n <= |pending|
    ensures AlignedWithin(WordsOf(pending, lower, upper, n), lower, TiledTo(pending, lower, upper, n))
  {
    if n > 0 {
      WordsAligned(pending, lower, upper, n - 1);
      var word := WordOf(pending, lower, upper, n - 1);
      AlignedAppend(WordsOf(pending, lower, upper, n - 1), word, lower, word.startSample);
    }
  }

  function TiledTo(pending: seq<Pending>, lower: u64, upper: u64, n: nat): (r: u64)
    requires lower <= upper && n <= |pending|
    ensures lower <= r <= upper
  {
    if n == 0 then lower else EndOf(pending, lower, upper, n - 1)
  }

  lemma AlignedAppend(words: seq<AsrWord>, word: AsrWord, lower: int, middle: int)
    requires AlignedWithin(words, lower, middle) && lower <= middle <= word.startSample <= word.endSample
    requires 0.0 <= word.probability <= 1.0
    requires word.startSample == word.endSample ==> word.timingUnreliable
    ensures AlignedWithin(words, lower, word.endSample) && AlignedWithin(words + [word], lower, word.endSample)
  {
  }

  // ----- freezing -------------------------------------------------------------

  datatype Segment = Segment(startSample: u64, endSample: u64, words: seq<AsrWord>)

  // Segments in order and apart, each with its words inside its own bounds.
  ghost predicate AlignedSegments(segments: seq<Segment>, audioSamples: u64) {
    && (forall i :: 0 <= i < |segments| ==>
          segments[i].startSample <= segments[i].endSample
          && AlignedWithin(segments[i].words, Min(segments[i].startSample, audioSamples),
                        Min(segments[i].endSample, audioSamples)))
    && (forall i, j :: 0 <= i < j < |segments| ==> segments[i].endSample <= segments[j].startSample)
  }

  // One frozen word, clamped to the audio.
  function FrozenWord(id: u64, word: AsrWord, total: u64): (r: Word)
    ensures r.Valid() && r.interval.end <= total
  {
    var end := Min(word.endSample, total);
    Word(id, Text.NormalizeSpoken(word.text), Text.Trim(word.text),
         RawInterval(Min(word.startSample, end), end), Ratio(word.probability), word.timingUnreliable)
  }

  // The first `n` recognized words appended to `words`: numbered on, with
  // punctuation-only words dropped.
  function FrozenFrom(words: seq<Word>, recognized: seq<AsrWord>, n: nat, total: u64): (r: seq<Word>)
    requires n <= |recognized| && |words| + n <= U64_MAX
    ensures |words| <= |r| <= |words| + n
  {
    if n == 0 then words
    else FrozenNext(FrozenFrom(words, recognized, n - 1, total), recognized[n - 1], total)
  }

  function FrozenNext(words: seq<Word>, word: AsrWord, total: u64): (r: seq<Word>)
    requires |words| <= U64_MAX
    ensures |words| <= |r| <= |words| + 1
  {
    if Text.NormalizeSpoken(word.text) == "" then words else words + [FrozenWord(|words|, word, total)]
  }

  function WordCount(segments: seq<Segment>, n: nat): nat
    requires n <= |segments|
  {
    if n == 0 then 0 else WordCount(segments, n - 1) + |segments[n - 1].words|
  }

  function FrozenWords(segments: seq<Segment>, n: nat, total: u64): (r: seq<Word>)
    requires n <= |segments| && WordCount(segments, n) <= U64_MAX
    ensures |r| <= WordCount(segments, n)
  {
    if n == 0 then []
    else FrozenFrom(FrozenWords(segments, n - 1, total), segments[n - 1].words, |segments[n - 1].words|, total)
  }

  method FreezeWord(id: u64, word: AsrWord, spoken: string, total: u64) returns (frozen: Word)
    requires spoken == Text.NormalizeSpoken(word.text)
    ensures frozen == FrozenWord(id, word, total)
  {
    var end := Min(word.endSample, total);
    var next := NewWord(id, spoken, Text.Trim(word.text), Min(word.startSample, end), end,
                        Ratio(word.probability), word.timingUnreliable);
    if next.None? {
      // Freezing would fail on this word.
      assert false;
    }
    frozen := next.value;
  }

  method FreezeSegment(words: seq<Word>, recognized: seq<AsrWord>, total: u64) returns (frozen: seq<Word>)
    requires |words| + |recognized| <= U64_MAX
    ensures frozen == FrozenFrom(words, recognized, |recognized|, total)
  {
    frozen := words;
    for k := 0 to |recognized|
      invariant frozen == FrozenFrom(words, recognized, k, total)
    {
      var spoken := Text.NormalizeSpoken(recognized[k].text);
      if spoken != "" {
        var next := FreezeWord(|frozen|, recognized[k], spoken, total);
        frozen := frozen + [next];
      }
    }
  }

  method FreezeWords(segments: seq<Segment>, total: u64) returns (words: seq<Word>)
    requires WordCount(segments, |segments|) <= U64_MAX
    ensures words == FrozenWords(segments, |segments|, total)
  {
    words := [];
    WordCountGrows(segments, 0, |segments|);
    for i := 0 to |segments|
      invariant WordCount(segments, i) <= U64_MAX
      invariant words == FrozenWords(segments, i, total)
    {
      WordCountGrows(segments, i + 1, |segments|);
      words := FreezeSegment(words, segments[i].words, total);
    }
  }

  // Soundly aligned words can always be split into sentences.
  lemma SoundSplits(words: seq<Word>, total: u64)
    requires SoundlyAligned(words, RawInterval(0, total))
    ensures forall pauseSamples: u64 :: NoSentenceInverted(words, pauseSamples)
  {
    SoundIsTimedInOrder(words, RawInterval(0, total));
    forall pauseSamples: u64 ensures NoSentenceInverted(words, pauseSamples) {
      TimedIsNotInverted(words, pauseSamples);
    }
  }

  method Freeze(sessionId: string, revision: nat, segments: seq<Segment>, sampleRate: nat, total: u64, language: string)
    returns (frozen: Option<FrozenTranscript>)
    requires WordCount(segments, |segments|) <= U64_MAX
    ensures frozen.Some? <==> sampleRate > 0
    ensures frozen.Some? ==>
      frozen.value == FrozenTranscript(sessionId, revision, FrozenWords(segments, |segments|, total), sampleRate, total, language)
    ensures frozen.Some? ==> frozen.value.Valid()
    ensures frozen.Some? && AlignedSegments(segments, total) ==>
      SoundlyAligned(frozen.value.words, RawInterval(0, total))
      && forall pauseSamples: u64 :: NoSentenceInverted(frozen.value.words, pauseSamples)
  {
    if AlignedSegments(segments, total) {
      FrozenWordsSound(segments, |segments|, total);
      SoundSplits(FrozenWords(segments, |segments|, total), total);
    }
    var words := FreezeWords(segments, total);
    FrozenIdsIncrease(segments, |segments|, total);
    NewTranscriptDecides(sessionId, revision, words, sampleRate, total, language);
    frozen := NewTranscript(sessionId, revision, words, sampleRate, total, language);
  }

  lemma {:induction false} WordCountGrows(segments: seq<Segment>, i: nat, j: nat)
    requires i <= j <= |segments|
    ensures WordCount(segments, i) <= WordCount(segments, j)
  {
    if i < j {
      WordCountGrows(segments, i, j - 1);
    }
  }

  ghost predicate Numbered(words: seq<Word>) {
    forall k :: 0 <= k < |words| ==> words[k].id == k && words[k].Valid()
  }

  lemma NumberedNext(words: seq<Word>, word: AsrWord, total: u64)
    requires |words| <= U64_MAX && Numbered(words)
    ensures Numbered(FrozenNext(words, word, total))
  {
  }

  lemma {:induction false} FrozenFromNumbers(words: seq<Word>, recognized: seq<AsrWord>, n: nat, total: u64)
    requires n <= |recognized| && |words| + n <= U64_MAX && Numbered(words)
    ensures Numbered(FrozenFrom(words, recognized, n, total))
  {
    if n > 0 {
      FrozenFromNumbers(words, recognized, n - 1, total);
      NumberedNext(FrozenFrom(words, recognized, n - 1, total), recognized[n - 1], total);
    }
  }

  lemma {:induction false} FrozenIdsIncrease(segments: seq<Segment>, n: nat, total: u64)
    requires n <= |segments| && WordCount(segments, n) <= U64_MAX
    ensures Numbered(FrozenWords(segments, n, total))
    ensures IncreasingIds(FrozenWords(segments, n, total))
  {
    if n > 0 {
      FrozenIdsIncrease(segments, n - 1, total);
      FrozenFromNumbers(FrozenWords(segments, n - 1, total), segments[n - 1].words, |segments[n - 1].words|, total);
    }
  }

  ghost predicate EndsBy(words: seq<Word>, limit: int) {
    forall k :: 0 <= k < |words| ==> words[k].interval.end <= limit
  }

  // A recognized word that is flagged when it has no length.
  ghost predicate Flagged(word: AsrWord) {
    word.startSample <= word.endSample && (word.startSample == word.endSample ==> word.timingUnreliable)
  }

  lemma SoundAppend(words: seq<Word>, word: Word, total: u64, limit: int)
    requires SoundlyAligned(words, RawInterval(0, total)) && EndsBy(words, limit)
    requires limit <= word.interval.start && word.interval.end <= total
    requires (word.interval.IsEmpty() ==> word.timingUnreliable) && Text.Trim(word.text) != ""
    ensures SoundlyAligned(words + [word], RawInterval(0, total)) && EndsBy(words + [word], word.interval.end)
  {
  }

  lemma SoundNext(words: seq<Word>, word: AsrWord, total: u64, limit: int, after: seq<Word>)
    requires |words| <= U64_MAX && after == FrozenNext(words, word, total)
    requires SoundlyAligned(words, RawInterval(0, total)) && EndsBy(words, limit)
    requires Flagged(word) && limit <= word.startSample && word.endSample <= total
    ensures SoundlyAligned(after, RawInterval(0, total)) && EndsBy(after, word.endSample)
  {
    if Text.NormalizeSpoken(word.text) != "" {
      Text.VisibleStart(Text.NormalizeSpoken(word.text));
      SoundAppend(words, FrozenWord(|words|, word, total), total, limit);
    }
  }

  function EndBefore(recognized: seq<AsrWord>, n: nat, lower: int): int
    requires n <= |recognized|
  {
    if n == 0 then lower else recognized[n - 1].endSample
  }

  lemma AlignedStep(recognized: seq<AsrWord>, n: nat, lower: int, upper: int)
    requires AlignedWithin(recognized, lower, upper) && n < |recognized|
    ensures Flagged(recognized[n]) && EndBefore(recognized, n, lower) <= recognized[n].startSample
    ensures recognized[n].endSample <= upper
  {
  }

  lemma {:induction false} FrozenFromSound(
    words: seq<Word>, recognized: seq<AsrWord>, n: nat, total: u64, lower: int, upper: int)
    requires n <= |recognized| && |words| + n <= U64_MAX
    requires SoundlyAligned(words, RawInterval(0, total)) && EndsBy(words, lower)
    requires AlignedWithin(recognized, lower, upper) && lower <= upper <= total
    ensures SoundlyAligned(FrozenFrom(words, recognized, n, total), RawInterval(0, total))
    ensures EndsBy(FrozenFrom(words, recognized, n, total), EndBefore(recognized, n, lower))
  {
    if n > 0 {
      FrozenFromSound(words, recognized, n - 1, total, lower, upper);
      AlignedStep(recognized, n - 1, lower, upper);
      var before, after := FrozenFrom(words, recognized, n - 1, total), FrozenFrom(words, recognized, n, total);
      assert after == FrozenNext(before, recognized[n - 1], total);
      SoundNext(before, recognized[n - 1], total, EndBefore(recognized, n - 1, lower), after);
    }
  }

  lemma SegmentSound(words: seq<Word>, segment: Segment, total: u64, lower: int, upper: int)
    requires |words| + |segment.words| <= U64_MAX
    requires SoundlyAligned(words, RawInterval(0, total)) && EndsBy(words, lower)
    requires AlignedWithin(segment.words, lower, upper) && lower <= upper <= total
    ensures var more := FrozenFrom(words, segment.words, |segment.words|, total);
      SoundlyAligned(more, RawInterval(0, total)) && EndsBy(more, upper)
  {
    FrozenFromSound(words, segment.words, |segment.words|, total, lower, upper);
    if segment.words != [] {
      AlignedStep(segment.words, |segment.words| - 1, lower, upper);
    }
  }

  // Where the segments before the `n`th end, within the audio.
  function EndOfSegments(segments: seq<Segment>, n: nat, total: u64): int
    requires n <= |segments|
  {
    if n == 0 then 0 else Min(segments[n - 1].endSample, total)
  }

  // Frozen with the audio length the recognizer saw, words never show a
  // session-fatal alignment problem.
  lemma {:induction false} FrozenWordsSound(segments: seq<Segment>, n: nat, total: u64)
    requires n <= |segments| && WordCount(segments, n) <= U64_MAX && AlignedSegments(segments, total)
    ensures SoundlyAligned(FrozenWords(segments, n, total), RawInterval(0, total))
    ensures EndsBy(FrozenWords(segments, n, total), EndOfSegments(segments, n, total))
  {
    if n > 0 {
      var segment := segments[n - 1];
      FrozenWordsSound(segments, n - 1, total);
      var lower, upper := Min(segment.startSample, total), Min(segment.endSample, total);
      SegmentsMeet(segments, n, total);
      EndsLater(FrozenWords(segments, n - 1, total), EndOfSegments(segments, n - 1, total), lower);
      SegmentSound(FrozenWords(segments, n - 1, total), segment, total, lower, upper);
    }
  }

  lemma SegmentsMeet(segments: seq<Segment>, n: nat, total: u64)
    requires 0 < n <= |segments| && AlignedSegments(segments, total)
    ensures EndOfSegments(segments, n - 1, total) <= Min(segments[n - 1].startSample, total)
    ensures Min(segments[n - 1].startSample, total) <= Min(segments[n - 1].endSample, total)
    ensures AlignedWithin(
      segments[n - 1].words, Min(segments[n - 1].startSample, total), Min(segments[n - 1].endSample, total))
  {
    if n > 1 {
      assert segments[n - 2].endSample <= segments[n - 1].startSample;
    }
  }

  lemma EndsLater(words: seq<Word>, limit: int, later: int)
    requires EndsBy(words, limit) && limit <= later
    ensures EndsBy(words, later)
  {
  }

  // ----- the recognizer's segments --------------------------------------------

  datatype TokenSegment = TokenSegment(startSample: u64, endSample: u64, tokens: seq<Token>)

  // Segments in order and apart, running forward.
  ghost predicate OrderedInput(inputs: seq<TokenSegment>) {
    && (forall i :: 0 <= i < |inputs| ==> inputs[i].startSample <= inputs[i].endSample)
    && (forall i, j :: 0 <= i < j < |inputs| ==> inputs[i].endSample <= inputs[j].startSample)
  }

  ghost predicate Recognized(input: TokenSegment, audioSamples: u64, segment: Segment) {
    && segment.startSample == input.startSample && segment.endSample == Max(input.endSample, input.startSample)
    && Grouped(input.tokens, input.startSample, input.endSample, audioSamples, segment.words)
  }

  // Grouped words stay in order inside their clipped segment.
  lemma GroupedAligned(input: TokenSegment, audioSamples: u64, words: seq<AsrWord>)
    requires input.startSample <= input.endSample
    requires Grouped(input.tokens, input.startSample, input.endSample, audioSamples, words)
    ensures AlignedWithin(words, Min(input.startSample, audioSamples), Min(input.endSample, audioSamples))
  {
    var upper := Min(input.endSample, audioSamples);
    var lower := Min(input.startSample, upper);
    var pending, groups :| GroupedBy(input.tokens, pending, groups) && words == WordsOf(pending, lower, upper, |pending|);
    WordsAligned(pending, lower, upper, |pending|);
  }

  // Whatever order the recognizer reports its segments in.
  method RecognizeSegments(inputs: seq<TokenSegment>, audioSamples: u64) returns (segments: seq<Segment>)
    requires forall i, t :: 0 <= i < |inputs| && t in inputs[i].tokens ==> OnsetFits(t)
    ensures |segments| == |inputs|
    ensures forall i :: 0 <= i < |inputs| ==> Recognized(inputs[i], audioSamples, segments[i])
  {
    segments := [];
    for i := 0 to |inputs|
      invariant |segments| == i
      invariant forall j :: 0 <= j < i ==> Recognized(inputs[j], audioSamples, segments[j])
    {
      var input := inputs[i];
      var words := GroupWords(input.tokens, input.startSample, input.endSample, audioSamples);
      segments := segments + [Segment(input.startSample, Max(input.endSample, input.startSample), words)];
    }
  }

  // Segments in order and apart give words aligned within each.
  lemma RecognizedAligned(inputs: seq<TokenSegment>, audioSamples: u64, segments: seq<Segment>)
    requires OrderedInput(inputs) && |segments| == |inputs|
    requires forall i :: 0 <= i < |inputs| ==> Recognized(inputs[i], audioSamples, segments[i])
    ensures AlignedSegments(segments, audioSamples)
  {
    forall i | 0 <= i < |segments|
      ensures segments[i].startSample == inputs[i].startSample && segments[i].endSample == inputs[i].endSample
      ensures AlignedWithin(
        segments[i].words, Min(segments[i].startSample, audioSamples), Min(segments[i].endSample, audioSamples))
    {
      assert Recognized(inputs[i], audioSamples, segments[i]);
      GroupedAligned(inputs[i], audioSamples, segments[i].words);
    }
  }
}
