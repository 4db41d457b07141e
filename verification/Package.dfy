// Upload packages: building one from an eligible result, and the validation
// the server repeats on arrival.
module Package {
  import opened Options
  import opened Samples
  import opened TimeMap
  import opened Wav
  import opened Names
  import opened Dataset
  import Text

  datatype Result<+T> = Ok(value: T) | Err(code: string)

  const CANONICAL_RATE: u32 := 16_000

  // Text encoding and the digest are library functions.
  datatype Codec = Codec(
    encode: string -> seq<byte>, decode: seq<byte> -> Option<string>, digest: seq<byte> -> string)
  {
    ghost predicate Faithful() {
      && (forall text :: decode(encode(text)) == Some(text) && |text| <= |encode(text)|)
      && (forall bytes :: ValidDigest(digest(bytes)))
    }
  }

  predicate IsHex(c: char) { '0' <= c <= '9' || 'a' <= c <= 'f' || 'A' <= c <= 'F' }

  predicate ValidDigest(s: string) {
    |s| == 64 && forall k :: 0 <= k < |s| ==> IsHex(s[k])
  }

  predicate ValidSampleId(s: string) {
    && "sample-" <= s
    && (|s| == 23 || |s| == 39)
    && forall k :: 7 <= k < |s| ==> IsHex(s[k])
  }

  datatype PackageLimits = PackageLimits(
    maxPayloadBytes: u64, maxClipBytes: u64, maxClips: u64, maxTextBytes: u64)

  datatype ClipEntry = ClipEntry(audio: string, text: string, durationMs: nat, wordCount: nat, sha256: string)

  datatype QualityEntry = QualityEntry(
    durationMs: nat, wordCount: nat, meanConfidence: real, speechRatio: real,
    removedIntervalCount: nat, removedDurationMs: nat, clipCount: nat)

  // Identity and provenance; never tenant, device or session.
  datatype PackageHeader = PackageHeader(
    eligibilityVersion: nat, sampleId: string, language: string, provenance: seq<string>)

  datatype Manifest = Manifest(
    header: PackageHeader, sampleRate: nat, durationMs: nat, clipCount: nat, quality: QualityEntry,
    clips: seq<ClipEntry>, checksums: map<string, string>)

  // What clips amount to, and the files they refer to.
  datatype Figures = Figures(durationMs: nat, words: nat, names: set<string>)

  // Files of a package, in archive order.
  datatype Payload = Payload(name: string, bytes: seq<byte>)

  datatype ValidatedPackage = ValidatedPackage(
    sampleId: string, eligibilityVersion: nat, sampleRate: nat, language: string, durationMs: nat, clipCount: nat)

  datatype BuiltPackage = BuiltPackage(manifest: Manifest, payloads: seq<Payload>)

  function NamesOf(payloads: seq<Payload>): set<string> {
    set k | 0 <= k < |payloads| :: payloads[k].name
  }

  function Find(payloads: seq<Payload>, name: string): Option<seq<byte>> {
    if payloads == [] then None
    else if payloads[|payloads| - 1].name == name then Some(payloads[|payloads| - 1].bytes)
    else Find(payloads[..|payloads| - 1], name)
  }

  // ----- validation ------------------------------------------------------------------

  predicate ProvenanceFormed(provenance: seq<string>) {
    |provenance| == 7 && forall k :: 0 <= k < 7 ==> 0 < |provenance[k]| <= 256
  }

  function HeaderFault(m: Manifest, known: set<nat>, limits: PackageLimits): Option<string> {
    if m.header.eligibilityVersion !in known then Some("unknown_eligibility_version")
    else if !ValidSampleId(m.header.sampleId) then Some("invalid_sample_id")
    else if m.sampleRate != CANONICAL_RATE then Some("invalid_sample_rate")
    else if m.header.language != "en" then Some("language_not_validated")
    else if m.clipCount == 0 || m.clipCount > limits.maxClips then Some("invalid_clip_count")
    else if !ProvenanceFormed(m.header.provenance) then Some("invalid_manifest_string")
    else None
  }

  function SizeOf(payloads: seq<Payload>): nat {
    if payloads == [] then 0 else SizeOf(payloads[..|payloads| - 1]) + |payloads[|payloads| - 1].bytes|
  }

  // Names are safe and sizes bounded; the total saturates.
  function Measure(payloads: seq<Payload>, limits: PackageLimits): Result<u64> {
    if payloads == [] then Ok(0)
    else
      var before, last := Measure(payloads[..|payloads| - 1], limits), payloads[|payloads| - 1];
      if before.Err? then before
      else if !SafeEntryName(last.name) then Err("unsafe_archive_entry")
      else if |last.bytes| > limits.maxClipBytes then Err("package_file_too_large")
      else Ok(Min(before.value + |last.bytes|, U64_MAX))
  }

  function BoundsFault(payloads: seq<Payload>, limits: PackageLimits): Option<string> {
    match Measure(payloads, limits)
    case Err(code) => Some(code)
    case Ok(total) => if total > limits.maxPayloadBytes then Some("package_too_large") else None
  }

  predicate Checked(codec: Codec, checksums: map<string, string>, payload: Payload)
    requires payload.name in checksums
  {
    ValidDigest(checksums[payload.name]) && codec.digest(payload.bytes) == checksums[payload.name]
  }

  // Checksums cover exactly the payloads, and match.
  function CoverageFault(codec: Codec, checksums: map<string, string>, payloads: seq<Payload>): Option<string> {
    if checksums.Keys != NamesOf(payloads) then Some("package_checksum_coverage_mismatch")
    else if exists k :: 0 <= k < |payloads| && !Checked(codec, checksums, payloads[k]) then Some("invalid_checksum")
    else None
  }

  function ValidateClip(
    codec: Codec, clip: ClipEntry, index: nat, payloads: seq<Payload>, rate: u32, limits: PackageLimits)
    : Result<Figures>
    requires rate > 0
  {
    if clip.audio != AudioName(index) || clip.text != TextName(index) then Err("unsafe_clip_filename")
    else
      var audio, text := Find(payloads, clip.audio), Find(payloads, clip.text);
      if audio.None? || text.None? then Err("package_missing_file")
      else if clip.sha256 != codec.digest(audio.value) then Err("package_checksum_mismatch")
      else
        var wav := Validated(audio.value, rate);
        if wav.Refused? then Err("invalid_wav")
        else if clip.durationMs != DurationMs(wav.count, rate) then Err("clip_duration_mismatch")
        else
          var decoded := codec.decode(text.value);
          if decoded.None? then Err("clip_text_not_utf8")
          else if Text.Trim(decoded.value) == "" || |text.value| > limits.maxTextBytes then Err("invalid_clip_text")
          else if clip.wordCount != Text.CountWords(decoded.value) then Err("clip_word_count_mismatch")
          else Ok(Figures(clip.durationMs, clip.wordCount, {clip.audio, clip.text}))
  }

  function Outcomes(
    codec: Codec, clips: seq<ClipEntry>, payloads: seq<Payload>, rate: u32, limits: PackageLimits)
    : (outcomes: seq<Result<Figures>>)
    requires rate > 0
    ensures |outcomes| == |clips|
    ensures forall i :: 0 <= i < |clips| ==> outcomes[i] == ValidateClip(codec, clips[i], i, payloads, rate, limits)
  {
    seq(|clips|, i requires 0 <= i < |clips| => ValidateClip(codec, clips[i], i, payloads, rate, limits))
  }

  function Plus(a: Figures, b: Figures): Figures {
    Figures(Min(a.durationMs + b.durationMs, U64_MAX), Min(a.words + b.words, U64_MAX), a.names + b.names)
  }

  // The first `n` clips together; totals saturate and the first fault wins.
  function Totals(outcomes: seq<Result<Figures>>, n: nat): Result<Figures>
    requires n <= |outcomes|
  {
    if n == 0 then Ok(Figures(0, 0, {}))
    else
      var before := Totals(outcomes, n - 1);
      if before.Err? then before
      else if outcomes[n - 1].Err? then outcomes[n - 1]
      else Ok(Plus(before.value, outcomes[n - 1].value))
  }

  function ClipTotals(codec: Codec, clips: seq<ClipEntry>, payloads: seq<Payload>, rate: u32, limits: PackageLimits)
    : Result<Figures>
    requires rate > 0
  {
    Totals(Outcomes(codec, clips, payloads, rate, limits), |clips|)
  }

  function QualityFault(quality: QualityEntry, durationMs: nat, words: nat, clipCount: nat): Option<string> {
    if quality.durationMs != durationMs || quality.wordCount != words || quality.clipCount != clipCount then
      Some("quality_metrics_mismatch")
    else if !(0.0 <= quality.meanConfidence <= 1.0) || !(0.0 <= quality.speechRatio <= 1.0) then
      Some("invalid_quality_metric")
    else None
  }

  function Validate(codec: Codec, m: Manifest, payloads: seq<Payload>, known: set<nat>, limits: PackageLimits)
    : Result<ValidatedPackage>
  {
    var header, bounds, coverage :=
      HeaderFault(m, known, limits), BoundsFault(payloads, limits), CoverageFault(codec, m.checksums, payloads);
    if header.Some? then Err(header.value)
    else if bounds.Some? then Err(bounds.value)
    else if coverage.Some? then Err(coverage.value)
    else if |m.clips| != m.clipCount then Err("clip_count_mismatch")
    else
      match ClipTotals(codec, m.clips, payloads, CANONICAL_RATE, limits)
      case Err(code) => Err(code)
      case Ok(totals) =>
        if totals.names != NamesOf(payloads) then Err("package_unreferenced_payload")
        else if m.durationMs != totals.durationMs then Err("package_duration_mismatch")
        else
          var quality := QualityFault(m.quality, totals.durationMs, totals.words, m.clipCount);
          if quality.Some? then Err(quality.value)
          else
            Ok(ValidatedPackage(m.header.sampleId, m.header.eligibilityVersion, m.sampleRate,
                                m.header.language, m.durationMs, m.clipCount))
  }

  method ValidatePackage(codec: Codec, m: Manifest, payloads: seq<Payload>, known: set<nat>, limits: PackageLimits)
    returns (r: Result<ValidatedPackage>)
    ensures r == Validate(codec, m, payloads, known, limits)
  {
    var fault := HeaderFault(m, known, limits);
    if fault.Some? {
      return Err(fault.value);
    }
    fault := ValidatePayloadBounds(payloads, limits);
    if fault.Some? {
      return Err(fault.value);
    }
    fault := CoverageFault(codec, m.checksums, payloads);
    if fault.Some? {
      return Err(fault.value);
    }
    if |m.clips| != m.clipCount {
      return Err("clip_count_mismatch");
    }
    var clips := ValidateClips(codec, m.clips, payloads, CANONICAL_RATE, limits);
    if clips.Err? {
      return Err(clips.code);
    }
    var totals := clips.value;
    if totals.names != NamesOf(payloads) {
      return Err("package_unreferenced_payload");
    }
    if m.durationMs != totals.durationMs {
      return Err("package_duration_mismatch");
    }
    fault := QualityFault(m.quality, totals.durationMs, totals.words, m.clipCount);
    if fault.Some? {
      return Err(fault.value);
    }
    r := Ok(ValidatedPackage(m.header.sampleId, m.header.eligibilityVersion, m.sampleRate,
                             m.header.language, m.durationMs, m.clipCount));
  }

  method ValidatePayloadBounds(payloads: seq<Payload>, limits: PackageLimits) returns (fault: Option<string>)
    ensures fault == BoundsFault(payloads, limits)
  {
    var total: u64 := 0;
    for k := 0 to |payloads|
      invariant Measure(payloads[..k], limits) == Ok(total)
    {
      assert payloads[..k + 1][..k] == payloads[..k];
      if !SafeEntryName(payloads[k].name) {
        FirstErrorStays(payloads, limits, k + 1);
        return Some("unsafe_archive_entry");
      }
      if |payloads[k].bytes| > limits.maxClipBytes {
        FirstErrorStays(payloads, limits, k + 1);
        return Some("package_file_too_large");
      }
      total := Min(total + |payloads[k].bytes|, U64_MAX);
    }
    assert payloads[..|payloads|] == payloads;
    fault := if total > limits.maxPayloadBytes then Some("package_too_large") else None;
  }

  lemma {:induction false} FirstErrorStays(payloads: seq<Payload>, limits: PackageLimits, k: nat)
    requires k <= |payloads| && Measure(payloads[..k], limits).Err?
    ensures Measure(payloads, limits) == Measure(payloads[..k], limits)
  {
    if k == |payloads| {
      assert payloads[..k] == payloads;
    } else {
      var before := payloads[..|payloads| - 1];
      assert before[..k] == payloads[..k];
      FirstErrorStays(before, limits, k);
    }
  }

  method ValidateClips(codec: Codec, clips: seq<ClipEntry>, payloads: seq<Payload>, rate: u32, limits: PackageLimits)
    returns (r: Result<Figures>)
    requires rate > 0
    ensures r == ClipTotals(codec, clips, payloads, rate, limits)
  {
    ghost var outcomes := Outcomes(codec, clips, payloads, rate, limits);
    var totals := Figures(0, 0, {});
    for n := 0 to |clips|
      invariant Totals(outcomes, n) == Ok(totals)
    {
      var checked := ValidateClip(codec, clips[n], n, payloads, rate, limits);
      assert checked == outcomes[n];
      if checked.Err? {
        ClipErrorStays(outcomes, n + 1, |clips|);
        return checked;
      }
      totals := Plus(totals, checked.value);
    }
    r := Ok(totals);
  }

  lemma {:induction false} ClipErrorStays(outcomes: seq<Result<Figures>>, k: nat, n: nat)
    requires k <= n <= |outcomes| && Totals(outcomes, k).Err?
    ensures Totals(outcomes, n) == Totals(outcomes, k)
  {
    if k < n {
      ClipErrorStays(outcomes, k, n - 1);
    }
  }

  // ----- building ---------------------------------------------------------------------

  // The two files of one clip.
  datatype Part = Part(audio: Payload, text: Payload)

  function PartOf(codec: Codec, clips: seq<RetainedClip>, rate: u32, i: nat): Part
    requires i < |clips| && 2 * rate <= U32_MAX
  {
    Part(Payload(AudioName(i), Encoded(clips[i].pcm, rate)), Payload(TextName(i), codec.encode(clips[i].text)))
  }

  function Parts(codec: Codec, clips: seq<RetainedClip>, rate: u32): (parts: seq<Part>)
    requires 2 * rate <= U32_MAX
    ensures |parts| == |clips| && forall i :: 0 <= i < |clips| ==> parts[i] == PartOf(codec, clips, rate, i)
  {
    seq(|clips|, i requires 0 <= i < |clips| => PartOf(codec, clips, rate, i))
  }

  // Each clip's audio, then its text.
  function Flat(parts: seq<Part>): (files: seq<Payload>)
    ensures |files| == 2 * |parts|
  {
    if parts == [] then []
    else
      var last := parts[|parts| - 1];
      Flat(parts[..|parts| - 1]) + [last.audio] + [last.text]
  }

  function Files(codec: Codec, clips: seq<RetainedClip>, rate: u32): seq<Payload>
    requires 2 * rate <= U32_MAX
  {
    Flat(Parts(codec, clips, rate))
  }

  function EntryOf(codec: Codec, clips: seq<RetainedClip>, rate: u32, i: nat): ClipEntry
    requires i < |clips| && 2 * rate <= U32_MAX
  {
    ClipEntry(AudioName(i), TextName(i), clips[i].durationMs, clips[i].WordCount(),
              codec.digest(Encoded(clips[i].pcm, rate)))
  }

  function Entries(codec: Codec, clips: seq<RetainedClip>, rate: u32, n: nat): (entries: seq<ClipEntry>)
    requires n <= |clips| && 2 * rate <= U32_MAX
    ensures |entries| == n && forall i :: 0 <= i < n ==> entries[i] == EntryOf(codec, clips, rate, i)
  {
    if n == 0 then [] else Entries(codec, clips, rate, n - 1) + [EntryOf(codec, clips, rate, n - 1)]
  }

  function Checksums(codec: Codec, files: seq<Payload>): map<string, string> {
    if files == [] then map[]
    else
      var last := files[|files| - 1];
      Checksums(codec, files[..|files| - 1])[last.name := codec.digest(last.bytes)]
  }

  // Four decimals.
  function Rounded(x: real): real {
    Round(x * 10000.0) as real / 10000.0
  }

  function ManifestOf(codec: Codec, clips: seq<RetainedClip>, metrics: DatasetMetrics, header: PackageHeader, rate: u32)
    : Manifest
    requires 2 * rate <= U32_MAX
  {
    var quality := QualityEntry(
      metrics.durationMs, metrics.wordCount, Rounded(metrics.meanConfidence), Rounded(metrics.speechRatio),
      metrics.removedIntervalCount, metrics.removedDurationMs, metrics.clipCount);
    Manifest(header, rate, metrics.durationMs, |clips|, quality, Entries(codec, clips, rate, |clips|),
             Checksums(codec, Files(codec, clips, rate)))
  }

  method BuildPackage(codec: Codec, r: BuildResult, header: PackageHeader, rate: u32, limits: PackageLimits)
    returns (built: Result<BuiltPackage>)
    requires 2 * rate <= U32_MAX
    ensures !r.Eligible? || r.clips == [] ==> built == Err("not_eligible")
    ensures r.Eligible? && r.clips != [] && (exists i :: 0 <= i < |r.clips| && FaultOf(r.clips[i], r.removed).Some?) ==>
      built == Err("removed_audio_in_output")
    ensures r.Eligible? && r.clips != [] && (forall i :: 0 <= i < |r.clips| ==> FaultOf(r.clips[i], r.removed).None?) ==>
      built == Packed(codec, r.clips, r.metrics, header, rate, limits)
  {
    if !r.Eligible? || r.clips == [] {
      return Err("not_eligible");
    }
    var fault := AssertNoRemovedAudio(r.clips, r.removed);
    if fault.Some? {
      return Err("removed_audio_in_output");
    }
    var payloads, clips, checksums := CollectFiles(codec, r.clips, rate);
    var quality := QualityEntry(
      r.metrics.durationMs, r.metrics.wordCount, Rounded(r.metrics.meanConfidence), Rounded(r.metrics.speechRatio),
      r.metrics.removedIntervalCount, r.metrics.removedDurationMs, r.metrics.clipCount);
    var manifest := Manifest(header, rate, r.metrics.durationMs, |r.clips|, quality, clips, checksums);
    var checked := ValidatePackage(codec, manifest, payloads, {header.eligibilityVersion}, limits);
    built := if checked.Err? then Err(checked.code) else Ok(BuiltPackage(manifest, payloads));
  }

  method CollectFiles(codec: Codec, clips: seq<RetainedClip>, rate: u32)
    returns (payloads: seq<Payload>, entries: seq<ClipEntry>, checksums: map<string, string>)
    requires 2 * rate <= U32_MAX
    ensures payloads == Files(codec, clips, rate) && entries == Entries(codec, clips, rate, |clips|)
    ensures checksums == Checksums(codec, payloads)
  {
    ghost var parts := Parts(codec, clips, rate);
    payloads, entries, checksums := [], [], map[];
    for index := 0 to |clips|
      invariant payloads == Flat(parts[..index]) && checksums == Checksums(codec, payloads)
      invariant entries == Entries(codec, clips, rate, index)
    {
      var part, entry := EncodeClip(codec, clips, rate, index);
      FlatGrows(codec, parts, index);
      checksums := checksums[part.audio.name := entry.sha256][part.text.name := codec.digest(part.text.bytes)];
      entries := entries + [entry];
      payloads := payloads + [part.audio] + [part.text];
    }
    assert parts[..|clips|] == parts;
  }

  method EncodeClip(codec: Codec, clips: seq<RetainedClip>, rate: u32, index: nat)
    returns (part: Part, entry: ClipEntry)
    requires 2 * rate <= U32_MAX && index < |clips|
    ensures part == PartOf(codec, clips, rate, index) && entry == EntryOf(codec, clips, rate, index)
    ensures entry.sha256 == codec.digest(part.audio.bytes)
  {
    var audio := EncodeWav(clips[index].pcm, rate);
    part := Part(Payload(AudioName(index), audio), Payload(TextName(index), codec.encode(clips[index].text)));
    entry := ClipEntry(part.audio.name, part.text.name, clips[index].durationMs, clips[index].WordCount(),
                       codec.digest(audio));
  }

  lemma FlatGrows(codec: Codec, parts: seq<Part>, i: nat)
    requires i < |parts|
    ensures Flat(parts[..i + 1]) == Flat(parts[..i]) + [parts[i].audio] + [parts[i].text]
    ensures Checksums(codec, Flat(parts[..i + 1])) == Checksums(codec, Flat(parts[..i]))
      [parts[i].audio.name := codec.digest(parts[i].audio.bytes)][parts[i].text.name := codec.digest(parts[i].text.bytes)]
  {
    assert parts[..i + 1][..i] == parts[..i];
    ChecksumsGrow(codec, Flat(parts[..i]), parts[i].audio);
    ChecksumsGrow(codec, Flat(parts[..i]) + [parts[i].audio], parts[i].text);
  }

  lemma ChecksumsGrow(codec: Codec, files: seq<Payload>, file: Payload)
    ensures Checksums(codec, files + [file]) == Checksums(codec, files)[file.name := codec.digest(file.bytes)]
  {
    assert (files + [file])[..|files|] == files;
  }

  // The package, if it passes the validation the server applies.
  function Packed(
    codec: Codec, clips: seq<RetainedClip>, metrics: DatasetMetrics, header: PackageHeader, rate: u32, limits: PackageLimits)
    : Result<BuiltPackage>
    requires 2 * rate <= U32_MAX
  {
    var manifest, payloads := ManifestOf(codec, clips, metrics, header, rate), Files(codec, clips, rate);
    match Validate(codec, manifest, payloads, {header.eligibilityVersion}, limits)
    case Err(code) => Err(code)
    case Ok(_) => Ok(BuiltPackage(manifest, payloads))
  }
}
