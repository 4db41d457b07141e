// WAV files with one 16-bit channel: writing one, and validating one.
module Wav {
  import opened Options
  import opened Samples

  type byte = x: int | 0 <= x < 256

  const RIFF: seq<byte> := [82, 73, 70, 70]
  const WAVE: seq<byte> := [87, 65, 86, 69]
  const FMT: seq<byte> := [102, 109, 116, 32]
  const DATA: seq<byte> := [100, 97, 116, 97]
  const HEADER_BYTES: nat := 44

  datatype WavError = InvalidWav(detail: string) | InvalidWavFormat

  datatype WavResult = Counted(count: nat) | Refused(error: WavError)

  // ----- little-endian numbers -----------------------------------------------------

  function Le16(x: int): seq<byte>
    requires 0 <= x < 0x1_0000
  {
    [x % 256, x / 256]
  }

  function Le32(x: u32): seq<byte> {
    Le16(x % 0x1_0000) + Le16(x / 0x1_0000)
  }

  function ReadU16(bytes: seq<byte>, offset: nat): (x: int)
    requires offset + 2 <= |bytes|
    ensures 0 <= x < 0x1_0000
  {
    var low: int, high: int := bytes[offset], bytes[offset + 1];
    low + 256 * high
  }

  function ReadU32(bytes: seq<byte>, offset: nat): (x: u32)
    requires offset + 4 <= |bytes|
  {
    ReadU16(bytes, offset) + 0x1_0000 * ReadU16(bytes, offset + 2)
  }

  // Two's complement.
  function Unsigned(sample: i16): (x: int)
    ensures 0 <= x < 0x1_0000
  {
    if sample < 0 then sample + 0x1_0000 else sample
  }

  function Signed(x: int): i16
    requires 0 <= x < 0x1_0000
  {
    if x >= 0x8000 then x - 0x1_0000 else x
  }

  // ----- writing ---------------------------------------------------------------------

  function SaturatingU32(x: nat): u32 {
    if x <= U32_MAX then x else U32_MAX
  }

  function DataSize(samples: seq<i16>): u32 {
    SaturatingU32(2 * |samples|)
  }

  function Riff(samples: seq<i16>): (h: seq<byte>)
    ensures |h| == 12
  {
    RIFF + Le32(SaturatingU32(DataSize(samples) + 36)) + WAVE
  }

  function Format(rate: u32): (h: seq<byte>)
    requires 2 * rate <= U32_MAX
    ensures |h| == 24
  {
    FMT + Le32(16) + Le16(1) + Le16(1) + Le32(rate) + Le32(2 * rate) + Le16(2) + Le16(16)
  }

  function Header(samples: seq<i16>, rate: u32): (h: seq<byte>)
    requires 2 * rate <= U32_MAX
    ensures |h| == HEADER_BYTES
  {
    Riff(samples) + Format(rate) + DATA + Le32(DataSize(samples))
  }

  function Pcm(samples: seq<i16>): (bytes: seq<byte>)
    ensures |bytes| == 2 * |samples|
  {
    if samples == [] then [] else Pcm(samples[..|samples| - 1]) + Le16(Unsigned(samples[|samples| - 1]))
  }

  function Encoded(samples: seq<i16>, rate: u32): seq<byte>
    requires 2 * rate <= U32_MAX
  {
    Header(samples, rate) + Pcm(samples)
  }

  // Doubling the rate must not overflow.
  method EncodeWav(samples: seq<i16>, rate: u32) returns (output: seq<byte>)
    requires 2 * rate <= U32_MAX
    ensures output == Encoded(samples, rate)
  {
    var dataSize := if 2 * |samples| <= U32_MAX then 2 * |samples| else U32_MAX;
    output := RIFF + Le32(SaturatingU32(dataSize + 36)) + WAVE;
    output := output + (FMT + Le32(16) + Le16(1) + Le16(1) + Le32(rate) + Le32(2 * rate) + Le16(2) + Le16(16));
    output := output + DATA + Le32(dataSize);
    assert output == Header(samples, rate) + Pcm(samples[..0]);
    for k := 0 to |samples|
      invariant output == Header(samples, rate) + Pcm(samples[..k])
    {
      assert samples[..k + 1][..k] == samples[..k];
      output := output + Le16(Unsigned(samples[k]));
    }
    assert samples[..|samples|] == samples;
  }

  // ----- validating --------------------------------------------------------------------

  // The chunk at `start`, of 16 bytes or more, describes mono PCM16 at `rate`.
  predicate CanonicalFormat(bytes: seq<byte>, start: nat, rate: u32)
    requires start + 16 <= |bytes|
  {
    && ReadU16(bytes, start) == 1
    && ReadU16(bytes, start + 2) == 1
    && ReadU32(bytes, start + 4) == rate
    && ReadU16(bytes, start + 12) == 2
    && ReadU16(bytes, start + 14) == 16
  }

  // Chunks from `offset` on; chunks of odd size are padded.
  function Chunks(bytes: seq<byte>, rate: u32, offset: nat, formatOk: bool, data: Option<nat>): WavResult
    decreases |bytes| - offset
  {
    if offset + 8 > |bytes| then
      if !formatOk then Refused(InvalidWavFormat)
      else if data.None? then Refused(InvalidWav("missing data chunk"))
      else Counted(data.value)
    else
      var id, size, start := bytes[offset..offset + 4], ReadU32(bytes, offset + 4), offset + 8;
      if start + size > |bytes| then Refused(InvalidWav("chunk exceeds payload"))
      else
        var next := start + size + size % 2;
        if id == FMT then
          if size < 16 then Refused(InvalidWav("short format chunk"))
          else Chunks(bytes, rate, next, CanonicalFormat(bytes, start, rate), data)
        else if id == DATA then
          if size % 2 != 0 then Refused(InvalidWav("unaligned PCM data"))
          else Chunks(bytes, rate, next, formatOk, Some(size / 2))
        else Chunks(bytes, rate, next, formatOk, data)
  }

  function Validated(bytes: seq<byte>, rate: u32): WavResult {
    if |bytes| < 12 || bytes[0..4] != RIFF || bytes[8..12] != WAVE then
      Refused(InvalidWav("missing RIFF/WAVE header"))
    else if ReadU32(bytes, 4) + 8 != |bytes| then Refused(InvalidWav("RIFF size mismatch"))
    else Chunks(bytes, rate, 12, false, None)
  }

  method ValidateWav(bytes: seq<byte>, rate: u32) returns (r: WavResult)
    ensures r == Validated(bytes, rate)
  {
    if |bytes| < 12 || bytes[0..4] != RIFF || bytes[8..12] != WAVE {
      return Refused(InvalidWav("missing RIFF/WAVE header"));
    }
    if ReadU32(bytes, 4) + 8 != |bytes| {
      return Refused(InvalidWav("RIFF size mismatch"));
    }
    r := ReadChunks(bytes, rate);
  }

  method ReadChunks(bytes: seq<byte>, rate: u32) returns (r: WavResult)
    ensures r == Chunks(bytes, rate, 12, false, None)
  {
    var offset, formatOk := 12, false;
    var data: Option<nat> := None;
    while offset + 8 <= |bytes|
      invariant Chunks(bytes, rate, 12, false, None) == Chunks(bytes, rate, offset, formatOk, data)
      decreases |bytes| - offset
    {
      var id, size, start := bytes[offset..offset + 4], ReadU32(bytes, offset + 4), offset + 8;
      if start + size > |bytes| {
        return Refused(InvalidWav("chunk exceeds payload"));
      }
      if id == FMT {
        if size < 16 {
          return Refused(InvalidWav("short format chunk"));
        }
        formatOk := CanonicalFormat(bytes, start, rate);
      } else if id == DATA {
        if size % 2 != 0 {
          return Refused(InvalidWav("unaligned PCM data"));
        }
        data := Some(size / 2);
      }
      offset := start + size + size % 2;
    }
    if !formatOk {
      return Refused(InvalidWavFormat);
    }
    r := if data.Some? then Counted(data.value) else Refused(InvalidWav("missing data chunk"));
  }

  // ----- what was written is what is read ----------------------------------------------

  lemma ReadsLe16(bytes: seq<byte>, offset: nat, x: int)
    requires 0 <= x < 0x1_0000 && offset + 2 <= |bytes| && bytes[offset..offset + 2] == Le16(x)
    ensures ReadU16(bytes, offset) == x
  {
    assert bytes[offset] == bytes[offset..offset + 2][0];
    assert bytes[offset + 1] == bytes[offset..offset + 2][1];
  }

  lemma ReadsLe32(bytes: seq<byte>, offset: nat, x: u32)
    requires offset + 4 <= |bytes| && bytes[offset..offset + 4] == Le32(x)
    ensures ReadU32(bytes, offset) == x
  {
    assert bytes[offset..offset + 2] == bytes[offset..offset + 4][..2] == Le16(x % 0x1_0000);
    assert bytes[offset + 2..offset + 4] == bytes[offset..offset + 4][2..] == Le16(x / 0x1_0000);
    ReadsLe16(bytes, offset, x % 0x1_0000);
    ReadsLe16(bytes, offset + 2, x / 0x1_0000);
  }

  // Where each part of the file lies.
  lemma FileParts(samples: seq<i16>, rate: u32)
    requires 2 * rate <= U32_MAX
    ensures var file := Encoded(samples, rate);
      && file[0..12] == Riff(samples) && file[12..36] == Format(rate)
      && file[36..40] == DATA && file[40..44] == Le32(DataSize(samples))
  {
  }

  lemma Within<T>(s: seq<T>, part: seq<T>, lo: nat, from: nat, to: nat)
    requires lo + |part| <= |s| && part == s[lo..lo + |part|] && from <= to <= |part|
    ensures s[lo + from..lo + to] == part[from..to]
  {
    forall k | 0 <= k < to - from ensures s[lo + from..lo + to][k] == part[from..to][k] {
      assert part[from + k] == s[lo + (from + k)];
    }
  }

  lemma RiffFields(a: seq<byte>, b: seq<byte>, c: seq<byte>)
    requires |a| == |b| == |c| == 4
    ensures var s := a + b + c; s[0..4] == a && s[4..8] == b && s[8..12] == c
  {
  }

  lemma FormatFields(
    a: seq<byte>, b: seq<byte>, c: seq<byte>, d: seq<byte>, e: seq<byte>, f: seq<byte>, g: seq<byte>, h: seq<byte>)
    requires |a| == |b| == |e| == |f| == 4 && |c| == |d| == |g| == |h| == 2
    ensures var s := a + b + c + d + e + f + g + h;
      && s[0..4] == a && s[4..8] == b && s[8..10] == c && s[10..12] == d && s[12..16] == e
      && s[20..22] == g && s[22..24] == h
  {
  }

  lemma FileHeader(samples: seq<i16>, rate: u32)
    requires 2 * rate <= U32_MAX
    ensures var file := Encoded(samples, rate);
      && |file| == HEADER_BYTES + 2 * |samples|
      && file[0..4] == RIFF && file[8..12] == WAVE && file[12..16] == FMT && file[36..40] == DATA
      && ReadU32(file, 4) == SaturatingU32(DataSize(samples) + 36)
      && ReadU32(file, 16) == 16 && ReadU32(file, 40) == DataSize(samples)
  {
    var file, riff, format := Encoded(samples, rate), Riff(samples), Format(rate);
    FileParts(samples, rate);
    Within(file, riff, 0, 0, 4);
    Within(file, riff, 0, 4, 8);
    Within(file, riff, 0, 8, 12);
    Within(file, format, 12, 0, 4);
    Within(file, format, 12, 4, 8);
    RiffFields(RIFF, Le32(SaturatingU32(DataSize(samples) + 36)), WAVE);
    FormatFields(FMT, Le32(16), Le16(1), Le16(1), Le32(rate), Le32(2 * rate), Le16(2), Le16(16));
    ReadsLe32(file, 4, SaturatingU32(DataSize(samples) + 36));
    ReadsLe32(file, 16, 16);
    ReadsLe32(file, 40, DataSize(samples));
  }

  lemma FileFormat(samples: seq<i16>, rate: u32)
    requires 2 * rate <= U32_MAX
    ensures CanonicalFormat(Encoded(samples, rate), 20, rate)
  {
    var file, format := Encoded(samples, rate), Format(rate);
    FileParts(samples, rate);
    Within(file, format, 12, 8, 10);
    Within(file, format, 12, 10, 12);
    Within(file, format, 12, 12, 16);
    Within(file, format, 12, 20, 22);
    Within(file, format, 12, 22, 24);
    FormatFields(FMT, Le32(16), Le16(1), Le16(1), Le32(rate), Le32(2 * rate), Le16(2), Le16(16));
    ReadsLe16(file, 20, 1);
    ReadsLe16(file, 22, 1);
    ReadsLe32(file, 24, rate);
    ReadsLe16(file, 32, 2);
    ReadsLe16(file, 34, 16);
  }

  // Whether the RIFF size field can hold the file.
  predicate FitsRiff(samples: seq<i16>) {
    2 * |samples| + 36 <= U32_MAX
  }

  // A written file validates, with its sample count, exactly when the size
  // fields can describe it; past that the writer saturates and it is refused.
  lemma EncodedValidates(samples: seq<i16>, rate: u32)
    requires 2 * rate <= U32_MAX
    ensures Validated(Encoded(samples, rate), rate) ==
      if FitsRiff(samples) then Counted(|samples|) else Refused(InvalidWav("RIFF size mismatch"))
  {
    var file := Encoded(samples, rate);
    FileHeader(samples, rate);
    FileFormat(samples, rate);
    if FitsRiff(samples) {
      FormatChunk(file, rate, 12);
      DataChunk(file, rate, 36, |samples|);
    }
  }

  // The shortest file the writer produces and the validator refuses.
  lemma TooLongIsRefused(rate: u32) returns (samples: seq<i16>)
    requires 2 * rate <= U32_MAX
    ensures samples == seq(0x7FFF_FFEE, _ => 0)
    ensures Validated(Encoded(samples, rate), rate) == Refused(InvalidWav("RIFF size mismatch"))
    ensures FitsRiff(samples[1..])
  {
    samples := seq(0x7FFF_FFEE, _ => 0);
    EncodedValidates(samples, rate);
  }

  lemma FormatChunk(file: seq<byte>, rate: u32, offset: nat)
    requires offset + 24 <= |file| && file[offset..offset + 4] == FMT && ReadU32(file, offset + 4) == 16
    requires CanonicalFormat(file, offset + 8, rate)
    ensures Chunks(file, rate, offset, false, None) == Chunks(file, rate, offset + 24, true, None)
  {
  }

  lemma DataChunk(file: seq<byte>, rate: u32, offset: nat, count: nat)
    requires offset + 8 + 2 * count == |file| && file[offset..offset + 4] == DATA
    requires ReadU32(file, offset + 4) == 2 * count
    ensures Chunks(file, rate, offset, true, None) == Counted(count)
  {
    assert file[offset..offset + 4] != FMT;
    assert Chunks(file, rate, |file|, true, Some(count)) == Counted(count);
  }

  // Every sample can be read back from its place in the file.
  lemma SampleReadsBack(samples: seq<i16>, rate: u32, k: nat)
    requires 2 * rate <= U32_MAX && k < |samples|
    ensures var file := Encoded(samples, rate);
      && HEADER_BYTES + 2 * k + 2 <= |file|
      && var x := ReadU16(file, HEADER_BYTES + 2 * k);
        Signed(x) == samples[k]
  {
    var file := Encoded(samples, rate);
    PcmAt(samples, k);
    assert file[HEADER_BYTES + 2 * k..HEADER_BYTES + 2 * k + 2] == Pcm(samples)[2 * k..2 * k + 2];
    ReadsLe16(file, HEADER_BYTES + 2 * k, Unsigned(samples[k]));
  }

  lemma {:induction false} PcmAt(samples: seq<i16>, k: nat)
    requires k < |samples|
    ensures Pcm(samples)[2 * k..2 * k + 2] == Le16(Unsigned(samples[k]))
  {
    var n := |samples| - 1;
    if k < n {
      PcmAt(samples[..n], k);
      assert Pcm(samples)[2 * k..2 * k + 2] == Pcm(samples[..n])[2 * k..2 * k + 2];
    }
  }

  // ----- what any accepted file holds ----------------------------------------------------

  // An accepted file has room for its headers, a format chunk and every sample
  // it claims.
  lemma AcceptedHoldsSamples(bytes: seq<byte>, rate: u32)
    requires Validated(bytes, rate).Counted?
    ensures HEADER_BYTES + 2 * Validated(bytes, rate).count <= |bytes|
  {
    ChunksHoldSamples(bytes, rate, 12, false, None, false);
  }

  lemma {:induction false} ChunksHoldSamples(
    bytes: seq<byte>, rate: u32, offset: nat, formatOk: bool, data: Option<nat>, formatSeen: bool)
    requires formatOk ==> formatSeen
    requires Needed(formatSeen, data) <= offset && Needed(formatSeen, data) <= |bytes|
    requires Chunks(bytes, rate, offset, formatOk, data).Counted?
    ensures HEADER_BYTES + 2 * Chunks(bytes, rate, offset, formatOk, data).count <= |bytes|
    decreases |bytes| - offset
  {
    if offset + 8 <= |bytes| {
      var id, size, start := bytes[offset..offset + 4], ReadU32(bytes, offset + 4), offset + 8;
      var next := start + size + size % 2;
      if id == FMT {
        ChunksHoldSamples(bytes, rate, next, CanonicalFormat(bytes, start, rate), data, true);
      } else if id == DATA {
        ChunksHoldSamples(bytes, rate, next, formatOk, Some(size / 2), formatSeen);
      } else {
        ChunksHoldSamples(bytes, rate, next, formatOk, data, formatSeen);
      }
    }
  }

  // Bytes taken by the file header and the chunks seen so far, at least.
  function Needed(formatSeen: bool, data: Option<nat>): nat {
    12 + (if formatSeen then 24 else 0) + (if data.Some? then 8 + 2 * data.value else 0)
  }
}
