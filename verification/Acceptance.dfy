// When a built package passes its own validation.
module Acceptance {
  import opened Options
  import opened Samples
  import opened TimeMap
  import opened Wav
  import opened Names
  import opened Quality
  import opened Cuts
  import opened Dataset
  import opened Package
  import Analysis
  import Text

  // ----- the files of a package ---------------------------------------------------------

  lemma FindGrows(files: seq<Payload>, file: Payload, name: string)
    ensures Find(files + [file], name) == if file.name == name then Some(file.bytes) else Find(files, name)
  {
    assert (files + [file])[..|files|] == files;
  }

  ghost predicate DistinctParts(parts: seq<Part>) {
    && (forall i, j :: 0 <= i < |parts| && 0 <= j < |parts| ==> parts[i].audio.name != parts[j].text.name)
    && (forall i, j :: 0 <= i < j < |parts| ==>
          parts[i].audio.name != parts[j].audio.name && parts[i].text.name != parts[j].text.name)
  }

  lemma PartsAreDistinct(codec: Codec, clips: seq<RetainedClip>, rate: u32)
    requires 2 * rate <= U32_MAX
    ensures DistinctParts(Parts(codec, clips, rate))
  {
    var parts := Parts(codec, clips, rate);
    forall i, j | 0 <= i < |parts| && 0 <= j < |parts|
      ensures parts[i].audio.name != parts[j].text.name
      ensures i < j ==> parts[i].audio.name != parts[j].audio.name && parts[i].text.name != parts[j].text.name
    {
      NamesDistinct(i, j);
    }
  }

  // Each clip's files are found under its own names.
  lemma {:induction false} FilesAreFound(parts: seq<Part>, i: nat)
    requires DistinctParts(parts) && i < |parts|
    ensures Find(Flat(parts), parts[i].audio.name) == Some(parts[i].audio.bytes)
    ensures Find(Flat(parts), parts[i].text.name) == Some(parts[i].text.bytes)
  {
    var before, last := parts[..|parts| - 1], parts[|parts| - 1];
    FindGrows(Flat(before), last.audio, parts[i].audio.name);
    FindGrows(Flat(before), last.audio, parts[i].text.name);
    FindGrows(Flat(before) + [last.audio], last.text, parts[i].audio.name);
    FindGrows(Flat(before) + [last.audio], last.text, parts[i].text.name);
    if i < |before| {
      FilesAreFound(before, i);
    }
  }

  function Referred(parts: seq<Part>): set<string> {
    if parts == [] then {}
    else Referred(parts[..|parts| - 1]) + {parts[|parts| - 1].audio.name, parts[|parts| - 1].text.name}
  }

  lemma NamesGrow(files: seq<Payload>, file: Payload)
    ensures NamesOf(files + [file]) == NamesOf(files) + {file.name}
  {
    var longer := files + [file];
    assert longer[|files|] == file;
    forall k | 0 <= k < |files| ensures files[k].name in NamesOf(longer) {
      assert longer[k] == files[k];
    }
  }

  lemma {:induction false} NamesAreReferred(parts: seq<Part>)
    ensures NamesOf(Flat(parts)) == Referred(parts)
  {
    if parts != [] {
      var before, last := parts[..|parts| - 1], parts[|parts| - 1];
      NamesAreReferred(before);
      NamesGrow(Flat(before), last.audio);
      NamesGrow(Flat(before) + [last.audio], last.text);
    }
  }

  lemma {:induction false} LaterNamesAreNew(parts: seq<Part>, m: nat, n: nat)
    requires DistinctParts(parts) && m <= n < |parts|
    ensures parts[n].audio.name !in Referred(parts[..m]) && parts[n].text.name !in Referred(parts[..m])
  {
    if m > 0 {
      LaterNamesAreNew(parts, m - 1, n);
      assert parts[..m][..m - 1] == parts[..m - 1];
    }
  }

  // ----- checksums ------------------------------------------------------------------------

  ghost predicate ChecksumsRight(codec: Codec, files: seq<Payload>) {
    && Checksums(codec, files).Keys == NamesOf(files)
    && forall k :: 0 <= k < |files| ==> Sealed(codec, Checksums(codec, files), files[k])
  }

  ghost predicate Sealed(codec: Codec, checksums: map<string, string>, file: Payload) {
    file.name in checksums && checksums[file.name] == codec.digest(file.bytes)
  }

  lemma ChecksumsStayRight(codec: Codec, files: seq<Payload>, file: Payload)
    requires ChecksumsRight(codec, files) && file.name !in NamesOf(files)
    ensures ChecksumsRight(codec, files + [file])
  {
    ChecksumsGrow(codec, files, file);
    NamesGrow(files, file);
    var longer := files + [file];
    forall k | 0 <= k < |longer| ensures Sealed(codec, Checksums(codec, longer), longer[k]) {
      if k < |files| {
        assert Sealed(codec, Checksums(codec, files), files[k]) && files[k].name in NamesOf(files);
      }
    }
  }

  lemma {:induction false} FilesAreSealed(codec: Codec, parts: seq<Part>)
    requires DistinctParts(parts)
    ensures ChecksumsRight(codec, Flat(parts))
  {
    if parts != [] {
      var n := |parts| - 1;
      var before, last := parts[..n], parts[n];
      FilesAreSealed(codec, before);
      NamesAreReferred(before);
      LaterNamesAreNew(parts, n, n);
      ChecksumsStayRight(codec, Flat(before), last.audio);
      NamesGrow(Flat(before), last.audio);
      ChecksumsStayRight(codec, Flat(before) + [last.audio], last.text);
    }
  }

  lemma CoverageHolds(codec: Codec, parts: seq<Part>)
    requires codec.Faithful() && DistinctParts(parts)
    ensures CoverageFault(codec, Checksums(codec, Flat(parts)), Flat(parts)).None?
  {
    var files := Flat(parts);
    FilesAreSealed(codec, parts);
    forall k | 0 <= k < |files| ensures Checked(codec, Checksums(codec, files), files[k]) {
      assert Sealed(codec, Checksums(codec, files), files[k]);
    }
  }

  // ----- sizes ------------------------------------------------------------------------------

  predicate FileFits(file: Payload, limits: PackageLimits) {
    SafeEntryName(file.name) && |file.bytes| <= limits.maxClipBytes
  }

  ghost predicate AllFit(files: seq<Payload>, limits: PackageLimits) {
    forall k :: 0 <= k < |files| ==> FileFits(files[k], limits)
  }

  lemma FitsGrows(files: seq<Payload>, file: Payload, limits: PackageLimits)
    ensures AllFit(files + [file], limits) <==> AllFit(files, limits) && FileFits(file, limits)
  {
    var longer := files + [file];
    assert longer[|files|] == file;
    assert forall k :: 0 <= k < |files| ==> longer[k] == files[k];
  }

  lemma {:induction false} MeasureDecides(files: seq<Payload>, limits: PackageLimits)
    ensures Measure(files, limits).Ok? <==> AllFit(files, limits)
    ensures Measure(files, limits).Ok? ==> Measure(files, limits).value == Min(SizeOf(files), U64_MAX)
  {
    if files != [] {
      var before, last := files[..|files| - 1], files[|files| - 1];
      MeasureDecides(before, limits);
      FitsGrows(before, last, limits);
      assert files == before + [last];
    }
  }

  predicate PartFits(part: Part, limits: PackageLimits) {
    |part.audio.bytes| <= limits.maxClipBytes && |part.text.bytes| <= limits.maxClipBytes
  }

  ghost predicate SafeParts(parts: seq<Part>) {
    forall i :: 0 <= i < |parts| ==> SafeEntryName(parts[i].audio.name) && SafeEntryName(parts[i].text.name)
  }

  lemma {:induction false} FilesFit(parts: seq<Part>, limits: PackageLimits)
    requires SafeParts(parts)
    ensures AllFit(Flat(parts), limits) <==> AllPartsFit(parts, limits)
  {
    if parts != [] {
      var before, last := parts[..|parts| - 1], parts[|parts| - 1];
      FilesFit(before, limits);
      FitsGrows(Flat(before), last.audio, limits);
      FitsGrows(Flat(before) + [last.audio], last.text, limits);
      assert forall i :: 0 <= i < |parts| ==> parts[i] == if i < |before| then before[i] else last;
    }
  }

  lemma SizeGrows(files: seq<Payload>, file: Payload)
    ensures SizeOf(files + [file]) == SizeOf(files) + |file.bytes|
  {
    assert (files + [file])[..|files|] == files;
  }

  lemma {:induction false} FewWords(s: string)
    ensures Text.CountWords(s) <= |s|
  {
    if s != "" {
      FewWords(s[..|s| - 1]);
    }
  }

  lemma ShortDuration(samples: nat)
    ensures DurationMs(samples, CANONICAL_RATE) <= samples
  {
  }

  lemma SumGrows(values: seq<nat>, n: nat)
    requires 0 < n <= |values|
    ensures Sum(values[..n]) == Sum(values[..n - 1]) + values[n - 1]
  {
    assert values[..n][..n - 1] == values[..n - 1];
  }

  // When every file is at least as large as its clip's duration and word count,
  // so are the totals.
  lemma {:induction false} TotalsFitInBytes(parts: seq<Part>, durations: seq<nat>, words: seq<nat>)
    requires |parts| == |durations| == |words|
    requires forall i :: 0 <= i < |parts| ==> durations[i] <= |parts[i].audio.bytes| && words[i] <= |parts[i].text.bytes|
    ensures Sum(durations) + Sum(words) <= SizeOf(Flat(parts))
  {
    if parts != [] {
      var n := |parts| - 1;
      TotalsFitInBytes(parts[..n], durations[..n], words[..n]);
      SizeGrows(Flat(parts[..n]), parts[n].audio);
      SizeGrows(Flat(parts[..n]) + [parts[n].audio], parts[n].text);
    }
  }

  // ----- clips ----------------------------------------------------------------------------------

  predicate Exportable(clip: RetainedClip) {
    Text.Trim(clip.text) != "" && clip.durationMs == DurationMs(|clip.pcm|, CANONICAL_RATE)
  }

  predicate Sendable(codec: Codec, clip: RetainedClip, limits: PackageLimits) {
    FitsRiff(clip.pcm) && |codec.encode(clip.text)| <= limits.maxTextBytes
  }

  // The entry and the files of clip `i` describe that clip.
  ghost predicate Describes(codec: Codec, entry: ClipEntry, part: Part, clip: RetainedClip, i: nat) {
    && entry.audio == part.audio.name == AudioName(i) && entry.text == part.text.name == TextName(i)
    && entry.durationMs == clip.durationMs && entry.wordCount == clip.WordCount()
    && entry.sha256 == codec.digest(part.audio.bytes)
    && Validated(part.audio.bytes, CANONICAL_RATE)
        == (if FitsRiff(clip.pcm) then Counted(|clip.pcm|) else Refused(InvalidWav("RIFF size mismatch")))
    && part.text.bytes == codec.encode(clip.text)
  }

  lemma {:induction false} BuiltClip(
    codec: Codec, entry: ClipEntry, parts: seq<Part>, clip: RetainedClip, limits: PackageLimits, i: nat)
    requires codec.Faithful() && DistinctParts(parts) && i < |parts|
    requires Describes(codec, entry, parts[i], clip, i) && Exportable(clip)
    ensures var checked := ValidateClip(codec, entry, i, Flat(parts), CANONICAL_RATE, limits);
      && (checked.Ok? <==> Sendable(codec, clip, limits))
      && (checked.Ok? ==> checked.value == Figures(clip.durationMs, clip.WordCount(), {entry.audio, entry.text}))
  {
    FilesAreFound(parts, i);
    assert codec.decode(codec.encode(clip.text)) == Some(clip.text);
  }

  // Entries, files and clips go together, and every clip can be exported.
  ghost predicate AllDescribed(codec: Codec, entries: seq<ClipEntry>, parts: seq<Part>, clips: seq<RetainedClip>) {
    && |entries| == |parts| == |clips|
    && forall i :: 0 <= i < |clips| ==> Describes(codec, entries[i], parts[i], clips[i], i) && Exportable(clips[i])
  }

  predicate AllOk(outcomes: seq<Result<Figures>>, n: nat)
    requires n <= |outcomes|
  {
    forall i :: 0 <= i < n ==> outcomes[i].Ok?
  }

  // Each outcome, when good, is the clip's duration, word count and files.
  ghost predicate Reports(outcomes: seq<Result<Figures>>, durations: seq<nat>, words: seq<nat>, parts: seq<Part>) {
    && |outcomes| == |durations| == |words| == |parts|
    && forall i :: 0 <= i < |outcomes| && outcomes[i].Ok? ==>
        outcomes[i].value == Figures(durations[i], words[i], {parts[i].audio.name, parts[i].text.name})
  }

  lemma {:induction false} TotalsOk(outcomes: seq<Result<Figures>>, n: nat)
    requires n <= |outcomes|
    ensures Totals(outcomes, n).Ok? <==> AllOk(outcomes, n)
  {
    if n > 0 {
      TotalsOk(outcomes, n - 1);
    }
  }

  // The figures of the first `n` clips together, capped.
  function Capped(durations: seq<nat>, words: seq<nat>, parts: seq<Part>, n: nat): Figures
    requires n <= |durations| && n <= |words| && n <= |parts|
  {
    Figures(Min(Sum(durations[..n]), U64_MAX), Min(Sum(words[..n]), U64_MAX), Referred(parts[..n]))
  }

  lemma OneMoreCapped(durations: seq<nat>, words: seq<nat>, parts: seq<Part>, n: nat)
    requires 0 < n <= |durations| && n <= |words| && n <= |parts|
    ensures Capped(durations, words, parts, n) ==
      Plus(Capped(durations, words, parts, n - 1),
           Figures(durations[n - 1], words[n - 1], {parts[n - 1].audio.name, parts[n - 1].text.name}))
  {
    SumGrows(durations, n);
    SumGrows(words, n);
    assert parts[..n][..n - 1] == parts[..n - 1];
    MinTwice(Sum(durations[..n - 1]), durations[n - 1]);
    MinTwice(Sum(words[..n - 1]), words[n - 1]);
  }

  lemma {:induction false} TotalsAre(
    outcomes: seq<Result<Figures>>, durations: seq<nat>, words: seq<nat>, parts: seq<Part>, n: nat)
    requires Reports(outcomes, durations, words, parts) && n <= |outcomes| && AllOk(outcomes, n)
    ensures Totals(outcomes, n) == Ok(Capped(durations, words, parts, n))
  {
    TotalsOk(outcomes, n);
    if n > 0 {
      TotalsAre(outcomes, durations, words, parts, n - 1);
      OneMoreCapped(durations, words, parts, n);
    }
  }

  ghost predicate AllSendable(codec: Codec, clips: seq<RetainedClip>, limits: PackageLimits) {
    forall i :: 0 <= i < |clips| ==> Sendable(codec, clips[i], limits)
  }

  lemma BuiltTotals(
    codec: Codec, entries: seq<ClipEntry>, parts: seq<Part>, clips: seq<RetainedClip>, limits: PackageLimits)
    requires codec.Faithful() && DistinctParts(parts) && AllDescribed(codec, entries, parts, clips)
    ensures var totals := ClipTotals(codec, entries, Flat(parts), CANONICAL_RATE, limits);
      && (totals.Ok? <==> AllSendable(codec, clips, limits))
      && (totals.Ok? ==>
            totals.value ==
            Figures(Min(Sum(Durations(clips)), U64_MAX), Min(Sum(WordCounts(clips)), U64_MAX), Referred(parts)))
  {
    var outcomes := Outcomes(codec, entries, Flat(parts), CANONICAL_RATE, limits);
    forall i | 0 <= i < |clips|
      ensures outcomes[i].Ok? <==> Sendable(codec, clips[i], limits)
      ensures outcomes[i].Ok? ==> (outcomes[i].value ==
        Figures(Durations(clips)[i], WordCounts(clips)[i], {parts[i].audio.name, parts[i].text.name}))
    {
      BuiltClip(codec, entries[i], parts, clips[i], limits, i);
    }
    WholeTotals(outcomes, Durations(clips), WordCounts(clips), parts);
  }

  lemma WholeTotals(outcomes: seq<Result<Figures>>, durations: seq<nat>, words: seq<nat>, parts: seq<Part>)
    requires Reports(outcomes, durations, words, parts)
    ensures Totals(outcomes, |outcomes|).Ok? <==> AllOk(outcomes, |outcomes|)
    ensures AllOk(outcomes, |outcomes|) ==> (Totals(outcomes, |outcomes|).value ==
      Figures(Min(Sum(durations), U64_MAX), Min(Sum(words), U64_MAX), Referred(parts)))
  {
    var n := |outcomes|;
    TotalsOk(outcomes, n);
    if AllOk(outcomes, n) {
      TotalsAre(outcomes, durations, words, parts, n);
    }
    assert durations[..n] == durations && words[..n] == words && parts[..n] == parts;
  }

  // Saturating step by step saturates the total.
  lemma MinTwice(sum: nat, more: nat)
    ensures Min(Min(sum, U64_MAX) + more, U64_MAX) == Min(sum + more, U64_MAX)
  {
  }

  // ----- the whole package -------------------------------------------------------------------------

  predicate HeaderFormed(header: PackageHeader, rate: u32) {
    ValidSampleId(header.sampleId) && rate == CANONICAL_RATE && header.language == "en" && ProvenanceFormed(header.provenance)
  }

  ghost predicate WithinLimits(codec: Codec, clips: seq<RetainedClip>, limits: PackageLimits) {
    && |clips| <= limits.maxClips
    && AllSendable(codec, clips, limits) && AllFitOne(codec, clips, limits)
    && TotalFits(codec, clips, limits)
  }

  // The running totals saturate. So the largest limit is never passed, and only
  // clips whose durations and words can still be added up pass under it.
  ghost predicate TotalFits(codec: Codec, clips: seq<RetainedClip>, limits: PackageLimits) {
    TotalBytes(codec, clips) <= limits.maxPayloadBytes || (limits.maxPayloadBytes == U64_MAX && Addable(clips))
  }

  ghost predicate Addable(clips: seq<RetainedClip>) {
    Sum(Durations(clips)) <= U64_MAX && Sum(WordCounts(clips)) <= U64_MAX
  }

  predicate ClipFits(codec: Codec, clip: RetainedClip, limits: PackageLimits) {
    HEADER_BYTES + 2 * |clip.pcm| <= limits.maxClipBytes && |codec.encode(clip.text)| <= limits.maxClipBytes
  }

  ghost predicate AllFitOne(codec: Codec, clips: seq<RetainedClip>, limits: PackageLimits) {
    forall i :: 0 <= i < |clips| ==> ClipFits(codec, clips[i], limits)
  }

  function TotalBytes(codec: Codec, clips: seq<RetainedClip>): nat {
    if clips == [] then 0
    else
      var last := clips[|clips| - 1];
      TotalBytes(codec, clips[..|clips| - 1]) + (HEADER_BYTES + 2 * |last.pcm|) + |codec.encode(last.text)|
  }

  // The metrics are those of the clips, and ratios.
  ghost predicate Reported(clips: seq<RetainedClip>, metrics: DatasetMetrics) {
    && metrics.durationMs == Sum(Durations(clips)) && metrics.wordCount == Sum(WordCounts(clips))
    && metrics.clipCount == |clips|
    && 0.0 <= metrics.meanConfidence <= 1.0 && 0.0 <= metrics.speechRatio <= 1.0
  }

  lemma PartsDescribe(codec: Codec, clips: seq<RetainedClip>)
    requires forall i :: 0 <= i < |clips| ==> Exportable(clips[i])
    ensures AllDescribed(codec, Entries(codec, clips, CANONICAL_RATE, |clips|), Parts(codec, clips, CANONICAL_RATE), clips)
  {
    forall i | 0 <= i < |clips|
      ensures Describes(codec, EntryOf(codec, clips, CANONICAL_RATE, i), PartOf(codec, clips, CANONICAL_RATE, i), clips[i], i)
    {
      EncodedValidates(clips[i].pcm, CANONICAL_RATE);
    }
  }

  lemma PartsAreSafe(codec: Codec, clips: seq<RetainedClip>, rate: u32)
    requires 2 * rate <= U32_MAX && |clips| <= U64_MAX
    ensures SafeParts(Parts(codec, clips, rate))
  {
    forall i: nat | i < |clips| ensures SafeEntryName(AudioName(i)) && SafeEntryName(TextName(i)) {
      NamesAreSafe(i);
    }
  }

  ghost predicate PartsAreSized(codec: Codec, parts: seq<Part>, clips: seq<RetainedClip>) {
    && |parts| == |clips|
    && forall i :: 0 <= i < |clips| ==>
        && |parts[i].audio.bytes| == HEADER_BYTES + 2 * |clips[i].pcm|
        && parts[i].text.bytes == codec.encode(clips[i].text)
  }

  lemma PartSizes(codec: Codec, clips: seq<RetainedClip>, rate: u32)
    requires 2 * rate <= U32_MAX
    ensures PartsAreSized(codec, Parts(codec, clips, rate), clips)
  {
  }

  lemma {:induction false} TotalIsSize(codec: Codec, parts: seq<Part>, clips: seq<RetainedClip>)
    requires PartsAreSized(codec, parts, clips)
    ensures SizeOf(Flat(parts)) == TotalBytes(codec, clips)
  {
    if parts != [] {
      var n := |parts| - 1;
      TotalIsSize(codec, parts[..n], clips[..n]);
      SizeGrows(Flat(parts[..n]), parts[n].audio);
      SizeGrows(Flat(parts[..n]) + [parts[n].audio], parts[n].text);
    }
  }

  ghost predicate AllPartsFit(parts: seq<Part>, limits: PackageLimits) {
    forall i :: 0 <= i < |parts| ==> PartFits(parts[i], limits)
  }

  lemma PartsFitAsClips(codec: Codec, parts: seq<Part>, clips: seq<RetainedClip>, limits: PackageLimits)
    requires PartsAreSized(codec, parts, clips)
    ensures AllPartsFit(parts, limits) <==> AllFitOne(codec, clips, limits)
  {
    assert forall i :: 0 <= i < |parts| ==> (PartFits(parts[i], limits) <==> ClipFits(codec, clips[i], limits));
  }

  // The payload bounds hold exactly when every file and the total fit.
  lemma BoundsDecide(codec: Codec, parts: seq<Part>, clips: seq<RetainedClip>, limits: PackageLimits)
    requires PartsAreSized(codec, parts, clips) && SafeParts(parts)
    ensures BoundsFault(Flat(parts), limits).None? <==>
      AllFitOne(codec, clips, limits)
      && (TotalBytes(codec, clips) <= limits.maxPayloadBytes || limits.maxPayloadBytes == U64_MAX)
  {
    FilesFit(parts, limits);
    PartsFitAsClips(codec, parts, clips, limits);
    TotalIsSize(codec, parts, clips);
    BoundsAre(Flat(parts), limits);
  }

  lemma BoundsAre(files: seq<Payload>, limits: PackageLimits)
    ensures BoundsFault(files, limits).None? <==>
      AllFit(files, limits) && (SizeOf(files) <= limits.maxPayloadBytes || limits.maxPayloadBytes == U64_MAX)
  {
    MeasureDecides(files, limits);
  }

  lemma {:induction false} TotalsBelowBytes(codec: Codec, clips: seq<RetainedClip>, parts: seq<Part>)
    requires codec.Faithful() && PartsAreSized(codec, parts, clips)
    requires forall i :: 0 <= i < |clips| ==> Exportable(clips[i])
    ensures Sum(Durations(clips)) + Sum(WordCounts(clips)) <= TotalBytes(codec, clips)
  {
    TotalIsSize(codec, parts, clips);
    forall i | 0 <= i < |clips|
      ensures clips[i].durationMs <= |parts[i].audio.bytes| && clips[i].WordCount() <= |parts[i].text.bytes|
    {
      ShortDuration(|clips[i].pcm|);
      FewWords(clips[i].text);
    }
    TotalsFitInBytes(parts, Durations(clips), WordCounts(clips));
  }

  lemma RoundedRatio(x: real)
    requires 0.0 <= x <= 1.0
    ensures 0.0 <= Rounded(x) <= 1.0
  {
    var rounded := Round(x * 10000.0);
    assert 0 <= rounded <= 10000;
    assert rounded as real / 10000.0 * 10000.0 == rounded as real;
  }

  ghost predicate TotalsMatch(m: Manifest, totals: Result<Figures>, names: set<string>) {
    && totals.Ok? && totals.value.names == names && m.durationMs == totals.value.durationMs
    && QualityFault(m.quality, totals.value.durationMs, totals.value.words, m.clipCount).None?
  }

  lemma ValidateDecides(codec: Codec, m: Manifest, files: seq<Payload>, known: set<nat>, limits: PackageLimits)
    ensures Validate(codec, m, files, known, limits).Ok? <==>
      && HeaderFault(m, known, limits).None? && BoundsFault(files, limits).None?
      && CoverageFault(codec, m.checksums, files).None? && |m.clips| == m.clipCount
      && TotalsMatch(m, ClipTotals(codec, m.clips, files, CANONICAL_RATE, limits), NamesOf(files))
  {
  }

  // An exportable, correctly reported result packs into a valid package exactly
  // when its header is well formed and its files are within the limits.
  lemma PacksExactly(
    codec: Codec, clips: seq<RetainedClip>, metrics: DatasetMetrics, header: PackageHeader, rate: u32, limits: PackageLimits)
    requires codec.Faithful() && clips != [] && 2 * rate <= U32_MAX
    requires (forall i :: 0 <= i < |clips| ==> Exportable(clips[i])) && Reported(clips, metrics)
    ensures Packed(codec, clips, metrics, header, rate, limits).Ok? <==>
      HeaderFormed(header, rate) && WithinLimits(codec, clips, limits)
  {
    var m, files := ManifestOf(codec, clips, metrics, header, rate), Files(codec, clips, rate);
    ValidateDecides(codec, m, files, {header.eligibilityVersion}, limits);
    HeaderDecides(codec, clips, metrics, header, rate, limits);
    if rate == CANONICAL_RATE && |clips| <= limits.maxClips {
      BodyDecides(codec, m, clips, metrics, limits);
    }
  }

  lemma HeaderDecides(
    codec: Codec, clips: seq<RetainedClip>, metrics: DatasetMetrics, header: PackageHeader, rate: u32, limits: PackageLimits)
    requires clips != [] && 2 * rate <= U32_MAX
    ensures HeaderFault(ManifestOf(codec, clips, metrics, header, rate), {header.eligibilityVersion}, limits).None? <==>
      HeaderFormed(header, rate) && |clips| <= limits.maxClips
  {
  }

  // The manifest states the entries, counts, ratios and totals of its clips.
  ghost predicate States(codec: Codec, m: Manifest, clips: seq<RetainedClip>, metrics: DatasetMetrics) {
    && m.clips == Entries(codec, clips, CANONICAL_RATE, |clips|)
    && m.checksums == Checksums(codec, Files(codec, clips, CANONICAL_RATE))
    && m.clipCount == m.quality.clipCount == |clips|
    && m.durationMs == m.quality.durationMs == metrics.durationMs && m.quality.wordCount == metrics.wordCount
    && m.quality.meanConfidence == Rounded(metrics.meanConfidence) && m.quality.speechRatio == Rounded(metrics.speechRatio)
  }

  lemma BodyDecides(codec: Codec, m: Manifest, clips: seq<RetainedClip>, metrics: DatasetMetrics, limits: PackageLimits)
    requires codec.Faithful() && |clips| <= limits.maxClips
    requires (forall i :: 0 <= i < |clips| ==> Exportable(clips[i])) && Reported(clips, metrics)
    requires States(codec, m, clips, metrics)
    ensures var files := Files(codec, clips, CANONICAL_RATE);
      (&& BoundsFault(files, limits).None? && CoverageFault(codec, m.checksums, files).None? && |m.clips| == m.clipCount
       && TotalsMatch(m, ClipTotals(codec, m.clips, files, CANONICAL_RATE, limits), NamesOf(files)))
      <==> WithinLimits(codec, clips, limits)
  {
    var parts := Parts(codec, clips, CANONICAL_RATE);
    var maxClips: u64 := limits.maxClips;
    PartsAreSafe(codec, clips, CANONICAL_RATE);
    PartSizes(codec, clips, CANONICAL_RATE);
    BoundsDecide(codec, parts, clips, limits);
    BodyTotals(codec, m, parts, clips, metrics, limits);
  }

  lemma BodyTotals(
    codec: Codec, m: Manifest, parts: seq<Part>, clips: seq<RetainedClip>, metrics: DatasetMetrics, limits: PackageLimits)
    requires codec.Faithful() && parts == Parts(codec, clips, CANONICAL_RATE)
    requires (forall i :: 0 <= i < |clips| ==> Exportable(clips[i])) && Reported(clips, metrics)
    requires States(codec, m, clips, metrics)
    ensures CoverageFault(codec, Checksums(codec, Flat(parts)), Flat(parts)).None?
    ensures TotalBytes(codec, clips) <= U64_MAX ==> Addable(clips)
    ensures TotalsMatch(m, ClipTotals(codec, m.clips, Flat(parts), CANONICAL_RATE, limits), NamesOf(Flat(parts)))
      <==> AllSendable(codec, clips, limits) && Addable(clips)
  {
    PartSizes(codec, clips, CANONICAL_RATE);
    PartsAreDistinct(codec, clips, CANONICAL_RATE);
    CoverageHolds(codec, parts);
    TotalsBelowBytes(codec, clips, parts);
    PartsDescribe(codec, clips);
    TotalsDecide(codec, m, parts, clips, metrics, limits);
  }

  lemma TotalsDecide(
    codec: Codec, m: Manifest, parts: seq<Part>, clips: seq<RetainedClip>, metrics: DatasetMetrics, limits: PackageLimits)
    requires codec.Faithful() && DistinctParts(parts) && PartsAreSized(codec, parts, clips)
    requires AllDescribed(codec, m.clips, parts, clips) && Reported(clips, metrics)
    requires States(codec, m, clips, metrics)
    ensures TotalsMatch(m, ClipTotals(codec, m.clips, Flat(parts), CANONICAL_RATE, limits), NamesOf(Flat(parts)))
      <==> AllSendable(codec, clips, limits) && Addable(clips)
  {
    BuiltTotals(codec, m.clips, parts, clips, limits);
    FiguresMatch(codec, m, parts, clips, metrics);
  }

  lemma FiguresMatch(codec: Codec, m: Manifest, parts: seq<Part>, clips: seq<RetainedClip>, metrics: DatasetMetrics)
    requires Reported(clips, metrics) && States(codec, m, clips, metrics)
    ensures
      var totals := Figures(Min(Sum(Durations(clips)), U64_MAX), Min(Sum(WordCounts(clips)), U64_MAX), Referred(parts));
      TotalsMatch(m, Ok(totals), NamesOf(Flat(parts))) <==> Addable(clips)
  {
    NamesAreReferred(parts);
    RoundedRatio(metrics.meanConfidence);
    RoundedRatio(metrics.speechRatio);
  }

  // ----- eligible results ------------------------------------------------------------------------------

  ghost predicate Ratioed(clip: RetainedClip) {
    0.0 <= clip.meanConfidence <= 1.0 && 0.0 <= clip.speechRatio <= 1.0
  }

  lemma ClipIsRatioed(session: Session, clip: RetainedClip, removedIds: set<u64>)
    requires session.Valid() && WellCut(session, clip, removedIds)
    ensures Ratioed(clip)
  {
    session.activity.SpeechRatioIsRatio(clip.source);
    WordsInsideAre(session.transcript.words, clip.source, removedIds);
    forall i | 0 <= i < |clip.words| ensures clip.words[i].Valid() {
      assert clip.words[i] in clip.words;
    }
    MeanIsRatio(Confidences(clip.words));
  }

  lemma ClipIsExportable(session: Session, clip: RetainedClip, removedIds: set<u64>)
    requires session.Valid() && session.transcript.sampleRate == CANONICAL_RATE && WellCut(session, clip, removedIds)
    ensures Exportable(clip)
  {
    assert |clip.pcm| == clip.source.Len();
  }

  lemma MetricsAreReported(session: Session, r: BuildResult)
    requires session.Valid() && r.Eligible? && Measured(session, r)
    requires forall i :: 0 <= i < |r.clips| ==> Ratioed(r.clips[i])
    ensures Reported(r.clips, r.metrics)
  {
    MeanIsRatio(ClipConfidences(r.clips));
    MeanIsRatio(ClipSpeechRatios(r.clips));
  }

  // An eligible result builds a package, at the session's own rate, that passes
  // the server's validation exactly when the header is well formed and the files
  // are within the limits.
  lemma EligiblePacks(
    session: Session, analysis: Analysis.PrivacyAnalysis, r: BuildResult, removedIds: set<u64>, codec: Codec,
    header: PackageHeader, limits: PackageLimits)
    requires session.Valid() && 2 * session.transcript.sampleRate <= U32_MAX
    requires r.Eligible? && WellBuilt(session, analysis, r, removedIds) && Measured(session, r)
    requires codec.Faithful()
    ensures r.clips != [] && forall i :: 0 <= i < |r.clips| ==> FaultOf(r.clips[i], r.removed).None?
    ensures Packed(codec, r.clips, r.metrics, header, session.transcript.sampleRate, limits).Ok? <==>
      HeaderFormed(header, session.transcript.sampleRate) && WithinLimits(codec, r.clips, limits)
  {
    if session.transcript.sampleRate == CANONICAL_RATE {
      forall i | 0 <= i < |r.clips| ensures Exportable(r.clips[i]) && Ratioed(r.clips[i]) {
        assert WellCutFrom(session, r.clips[i], removedIds, Complement(r.removed, session.Bound()));
        ClipIsExportable(session, r.clips[i], removedIds);
        ClipIsRatioed(session, r.clips[i], removedIds);
      }
      MetricsAreReported(session, r);
      PacksExactly(codec, r.clips, r.metrics, header, session.transcript.sampleRate, limits);
    } else {
      OtherRateFails(codec, r.clips, r.metrics, header, session.transcript.sampleRate, limits);
    }
  }

  lemma OtherRateFails(
    codec: Codec, clips: seq<RetainedClip>, metrics: DatasetMetrics, header: PackageHeader, rate: u32, limits: PackageLimits)
    requires clips != [] && 2 * rate <= U32_MAX && rate != CANONICAL_RATE
    ensures Packed(codec, clips, metrics, header, rate, limits).Err? && !HeaderFormed(header, rate)
  {
    HeaderDecides(codec, clips, metrics, header, rate, limits);
  }
}
