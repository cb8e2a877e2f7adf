/**
 * The placeholder-audio generator: a silent 16-bit mono PCM file in the RIFF
 * WAVE format, written into a zeroed byte buffer as a 44-byte header of
 * little-endian fields followed by the sample data. A field too large for its
 * unsigned 32-bit slot raises a range error instead of producing a buffer.
 */
module SilentWav {
  import opened Wrappers

  type Byte = b: int | 0 <= b < 256

  const U16Limit: int := 0x1_0000
  const U32Limit: int := 0x1_0000_0000

  const NumChannels: nat := 1
  const BitsPerSample: nat := 16
  const BytesPerSample: nat := 2
  const HeaderSize: nat := 44

  function LE16(v: int): (bs: seq<Byte>)
    requires 0 <= v < U16Limit
    ensures |bs| == 2
  {
    [v % 256, v / 256]
  }

  function LE32(v: int): (bs: seq<Byte>)
    requires 0 <= v < U32Limit
    ensures |bs| == 4
  {
    [v % 256, (v / 256) % 256, (v / 0x1_0000) % 256, v / 0x100_0000]
  }

  function DecodeLE16(bs: seq<Byte>): (v: nat)
    requires |bs| == 2
    ensures v < U16Limit
  {
    bs[0] as int + 256 * bs[1] as int
  }

  function DecodeLE32(bs: seq<Byte>): (v: nat)
    requires |bs| == 4
    ensures v < U32Limit
  {
    bs[0] as int + 256 * bs[1] as int + 0x1_0000 * bs[2] as int + 0x100_0000 * bs[3] as int
  }

  /** Reading a 16-bit field back gives the value written. */
  lemma LE16RoundTrip(v: int)
    requires 0 <= v < U16Limit
    ensures DecodeLE16(LE16(v)) == v
  {
  }

  /** Reading a 32-bit field back gives the value written. */
  lemma LE32RoundTrip(v: int)
    requires 0 <= v < U32Limit
    ensures DecodeLE32(LE32(v)) == v
  {
    var b0, q0 := v % 256, v / 256;
    var b1, q1 := q0 % 256, q0 / 256;
    var b2, b3 := q1 % 256, q1 / 256;
    assert v / 0x1_0000 == q1;
    assert v / 0x100_0000 == b3;
  }

  /** Every two bytes are the encoding of the value they decode to. */
  lemma LE16Canonical(bs: seq<Byte>)
    requires |bs| == 2
    ensures LE16(DecodeLE16(bs)) == bs
  {
  }

  /** Splitting a number into a low part below `k` and a multiple of `k`, for the field widths. */
  lemma SplitAt(lo: int, q: int, k: int)
    requires k == 256 || k == 0x1_0000 || k == 0x100_0000
    requires 0 <= lo < k
    ensures (lo + k * q) / k == q && (lo + k * q) % k == lo
  {
  }

  /** Every four bytes are the encoding of the value they decode to. */
  lemma LE32Canonical(bs: seq<Byte>)
    requires |bs| == 4
    ensures LE32(DecodeLE32(bs)) == bs
  {
    var b0, b1, b2, b3 := bs[0] as int, bs[1] as int, bs[2] as int, bs[3] as int;
    var v := DecodeLE32(bs);
    var q0 := b1 + 256 * b2 + 0x1_0000 * b3;
    assert v == b0 + 256 * q0;
    SplitAt(b0, q0, 256);
    assert q0 == b1 + 256 * (b2 + 256 * b3);
    SplitAt(b1, b2 + 256 * b3, 256);
    assert v == (b0 + 256 * b1) + 0x1_0000 * (b2 + 256 * b3);
    SplitAt(b0 + 256 * b1, b2 + 256 * b3, 0x1_0000);
    SplitAt(b2, b3, 256);
    assert v == (b0 + 256 * b1 + 0x1_0000 * b2) + 0x100_0000 * b3;
    SplitAt(b0 + 256 * b1 + 0x1_0000 * b2, b3, 0x100_0000);
  }

  /** The bytes of a four-letter ASCII chunk tag. */
  function Tag(c0: char, c1: char, c2: char, c3: char): (bs: seq<Byte>)
    requires c0 < 128 as char && c1 < 128 as char && c2 < 128 as char && c3 < 128 as char
    ensures |bs| == 4 && bs[0] == c0 as int && bs[3] == c3 as int
  {
    [c0 as int, c1 as int, c2 as int, c3 as int]
  }

  const RiffTag: seq<Byte> := Tag('R', 'I', 'F', 'F')
  const WaveTag: seq<Byte> := Tag('W', 'A', 'V', 'E')
  const FmtTag: seq<Byte> := Tag('f', 'm', 't', ' ')
  const DataTag: seq<Byte> := Tag('d', 'a', 't', 'a')

  /** The sample data size of a mono 16-bit file of `numSamples` samples. */
  function DataSize(numSamples: nat): nat {
    numSamples * NumChannels * BytesPerSample
  }

  /** Every 32-bit field fits its slot, so no write raises a range error. */
  predicate FieldsFit(numSamples: nat, sampleRate: int) {
    36 + DataSize(numSamples) < U32Limit &&
    FmtFits(sampleRate)
  }

  /** The RIFF chunk header: tag, the size of everything after these 8 bytes, the form type. */
  function RiffHeader(fileSize: int): (h: seq<Byte>)
    requires 0 <= fileSize < U32Limit
    ensures |h| == 12
  {
    RiffTag + LE32(fileSize) + WaveTag
  }

  /** The byte rate of a mono 16-bit stream. */
  function ByteRate(sampleRate: int): int {
    sampleRate * NumChannels * BytesPerSample
  }

  predicate FmtFits(sampleRate: int) {
    0 <= sampleRate < U32Limit && ByteRate(sampleRate) < U32Limit
  }

  /** The PCM `fmt ` chunk: tag, size 16, format 1, channels, rate, byte rate, block align, bits. */
  function FmtChunk(sampleRate: int): (c: seq<Byte>)
    requires FmtFits(sampleRate)
    ensures |c| == 24
  {
    FmtTag + LE32(16) + LE16(1) + LE16(NumChannels) + LE32(sampleRate) +
    LE32(ByteRate(sampleRate)) + LE16(NumChannels * BytesPerSample) + LE16(BitsPerSample)
  }

  /** The `data` chunk header: tag and the size of the samples. */
  function DataHeader(dataSize: int): (h: seq<Byte>)
    requires 0 <= dataSize < U32Limit
    ensures |h| == 8
  {
    DataTag + LE32(dataSize)
  }

  /** The 44-byte header. */
  function Header(numSamples: nat, sampleRate: int): (h: seq<Byte>)
    requires FieldsFit(numSamples, sampleRate)
    ensures |h| == HeaderSize
  {
    RiffHeader(36 + DataSize(numSamples)) + FmtChunk(sampleRate) + DataHeader(DataSize(numSamples))
  }

  function Zeros(n: nat): (z: seq<Byte>)
    ensures |z| == n && forall i :: 0 <= i < n ==> z[i] == 0
  {
    seq(n, _ => 0)
  }

  /** The whole file: the header, then silence. */
  function Wav(numSamples: nat, sampleRate: int): seq<Byte>
    requires FieldsFit(numSamples, sampleRate)
  {
    Header(numSamples, sampleRate) + Zeros(DataSize(numSamples))
  }

  /** The fields of the RIFF chunk header, read back. */
  lemma RiffHeaderFields(fileSize: int)
    requires 0 <= fileSize < U32Limit
    ensures var h := RiffHeader(fileSize);
            h[0..4] == RiffTag && DecodeLE32(h[4..8]) == fileSize && h[8..12] == WaveTag
  {
    var h := RiffHeader(fileSize);
    assert h[4..8] == LE32(fileSize);
    LE32RoundTrip(fileSize);
  }

  /** The fields of the `fmt ` chunk, read back. */
  lemma FmtChunkFields(sampleRate: int)
    requires FmtFits(sampleRate)
    ensures var c := FmtChunk(sampleRate);
            c[0..4] == FmtTag && DecodeLE32(c[4..8]) == 16 &&
            DecodeLE16(c[8..10]) == 1 && DecodeLE16(c[10..12]) == 1 &&
            DecodeLE32(c[12..16]) == sampleRate && DecodeLE32(c[16..20]) == 2 * sampleRate &&
            DecodeLE16(c[20..22]) == 2 && DecodeLE16(c[22..24]) == 16
  {
    var c := FmtChunk(sampleRate);
    assert c[4..8] == LE32(16);
    assert c[8..10] == LE16(1) && c[10..12] == LE16(1);
    assert c[12..16] == LE32(sampleRate);
    assert c[16..20] == LE32(ByteRate(sampleRate));
    assert c[20..22] == LE16(2) && c[22..24] == LE16(16);
    LE32RoundTrip(16);
    LE16RoundTrip(1);
    LE32RoundTrip(sampleRate);
    LE32RoundTrip(ByteRate(sampleRate));
    LE16RoundTrip(2);
    LE16RoundTrip(16);
  }

  /** The fields of the `data` chunk header, read back. */
  lemma DataHeaderFields(dataSize: int)
    requires 0 <= dataSize < U32Limit
    ensures var h := DataHeader(dataSize);
            h[0..4] == DataTag && DecodeLE32(h[4..8]) == dataSize
  {
    var h := DataHeader(dataSize);
    assert h[4..8] == LE32(dataSize);
    LE32RoundTrip(dataSize);
  }

  /** The RIFF layout, field by field, read back from the file. */
  lemma WavLayout(numSamples: nat, sampleRate: int)
    requires FieldsFit(numSamples, sampleRate)
    ensures var w := Wav(numSamples, sampleRate);
            |w| == HeaderSize + 2 * numSamples &&
            w[0..4] == RiffTag && DecodeLE32(w[4..8]) == 36 + 2 * numSamples == |w| - 8 &&
            w[8..12] == WaveTag && w[12..16] == FmtTag &&
            DecodeLE32(w[16..20]) == 16 && DecodeLE16(w[20..22]) == 1 && DecodeLE16(w[22..24]) == 1 &&
            DecodeLE32(w[24..28]) == sampleRate && DecodeLE32(w[28..32]) == 2 * sampleRate &&
            DecodeLE16(w[32..34]) == 2 && DecodeLE16(w[34..36]) == 16 &&
            w[36..40] == DataTag && DecodeLE32(w[40..44]) == 2 * numSamples &&
            forall i :: HeaderSize <= i < |w| ==> w[i] == 0
  {
    var ds := DataSize(numSamples);
    var r, f, d := RiffHeader(36 + ds), FmtChunk(sampleRate), DataHeader(ds);
    var w := Wav(numSamples, sampleRate);
    assert w == r + f + d + Zeros(ds);
    RiffHeaderFields(36 + ds);
    FmtChunkFields(sampleRate);
    DataHeaderFields(ds);
    assert w[0..4] == r[0..4] && w[4..8] == r[4..8] && w[8..12] == r[8..12];
    assert w[12..16] == f[0..4] && w[16..20] == f[4..8] && w[20..22] == f[8..10] && w[22..24] == f[10..12];
    assert w[24..28] == f[12..16] && w[28..32] == f[16..20] && w[32..34] == f[20..22] && w[34..36] == f[22..24];
    assert w[36..40] == d[0..4] && w[40..44] == d[4..8];
  }

  /** The flap placeholder: 0.1 s at 44100 Hz is 4410 samples, an 8864-byte file. */
  lemma FlapPlaceholderSizes()
    ensures FieldsFit(4410, 44100)
    ensures var w := Wav(4410, 44100);
            |w| == 8864 && DecodeLE32(w[4..8]) == 8856 && DecodeLE32(w[28..32]) == 88200 &&
            DecodeLE32(w[40..44]) == 8820
  {
    WavLayout(4410, 44100);
  }

  /** Copies `bytes` into `buffer` at `offset`. */
  method WriteBytes(buffer: array<Byte>, offset: nat, bytes: seq<Byte>)
    requires offset + |bytes| <= buffer.Length
    modifies buffer
    ensures buffer[..] == old(buffer[..offset]) + bytes + old(buffer[offset + |bytes|..])
  {
    var k := 0;
    while k < |bytes|
      invariant 0 <= k <= |bytes|
      invariant buffer[..] == old(buffer[..offset]) + bytes[..k] + old(buffer[offset + k..])
    {
      buffer[offset + k] := bytes[k];
      assert bytes[..k + 1] == bytes[..k] + [bytes[k]];
      k := k + 1;
    }
  }

  /** Writes a little-endian 16-bit value, or reports a range error when it does not fit. */
  method WriteU16LE(buffer: array<Byte>, value: int, offset: nat) returns (ok: bool)
    requires offset + 2 <= buffer.Length
    modifies buffer
    ensures ok <==> 0 <= value < U16Limit
    ensures ok ==> buffer[..] == old(buffer[..offset]) + LE16(value) + old(buffer[offset + 2..])
  {
    if value < 0 || value >= U16Limit {
      return false;
    }
    WriteBytes(buffer, offset, LE16(value));
    return true;
  }

  /** Writes a little-endian 32-bit value, or reports a range error when it does not fit. */
  method WriteU32LE(buffer: array<Byte>, value: int, offset: nat) returns (ok: bool)
    requires offset + 4 <= buffer.Length
    modifies buffer
    ensures ok <==> 0 <= value < U32Limit
    ensures ok ==> buffer[..] == old(buffer[..offset]) + LE32(value) + old(buffer[offset + 4..])
  {
    if value < 0 || value >= U32Limit {
      return false;
    }
    WriteBytes(buffer, offset, LE32(value));
    return true;
  }

  /** Writing the next field after the written prefix of a zeroed buffer extends the prefix. */
  lemma AppendWrite(written: seq<Byte>, bytes: seq<Byte>, len: nat)
    requires |written| + |bytes| <= len
    ensures var current := written + Zeros(len - |written|);
            current[..|written|] + bytes + current[|written| + |bytes|..] ==
            (written + bytes) + Zeros(len - |written| - |bytes|)
  {
    var current := written + Zeros(len - |written|);
    assert current[..|written|] == written;
    assert current[|written| + |bytes|..] == Zeros(len - |written| - |bytes|);
  }

  /** The buffer holds `written`, then zeros to its end. */
  ghost predicate WrittenUpTo(buffer: array<Byte>, written: seq<Byte>)
    reads buffer
  {
    |written| <= buffer.Length && buffer[..] == written + Zeros(buffer.Length - |written|)
  }

  /** Writes an ASCII tag right after what has been written so far. */
  method WriteNextTag(buffer: array<Byte>, ghost written: seq<Byte>, offset: nat, tag: seq<Byte>)
    requires WrittenUpTo(buffer, written) && offset == |written| && offset + |tag| <= buffer.Length
    modifies buffer
    ensures WrittenUpTo(buffer, written + tag)
  {
    AppendWrite(written, tag, buffer.Length);
    WriteBytes(buffer, offset, tag);
  }

  /** Writes a 16-bit field right after what has been written so far, or reports a range error. */
  method WriteNextU16(buffer: array<Byte>, ghost written: seq<Byte>, offset: nat, value: int) returns (ok: bool)
    requires WrittenUpTo(buffer, written) && offset == |written| && offset + 2 <= buffer.Length
    modifies buffer
    ensures ok <==> 0 <= value < U16Limit
    ensures ok ==> WrittenUpTo(buffer, written + LE16(value))
  {
    ok := WriteU16LE(buffer, value, offset);
    if ok {
      AppendWrite(written, LE16(value), buffer.Length);
    }
  }

  /** Writes a 32-bit field right after what has been written so far, or reports a range error. */
  method WriteNextU32(buffer: array<Byte>, ghost written: seq<Byte>, offset: nat, value: int) returns (ok: bool)
    requires WrittenUpTo(buffer, written) && offset == |written| && offset + 4 <= buffer.Length
    modifies buffer
    ensures ok <==> 0 <= value < U32Limit
    ensures ok ==> WrittenUpTo(buffer, written + LE32(value))
  {
    ok := WriteU32LE(buffer, value, offset);
    if ok {
      AppendWrite(written, LE32(value), buffer.Length);
    }
  }

  /** Writes the RIFF chunk header at the start of a zeroed buffer, unless the file size does not fit. */
  method WriteRiffHeader(buffer: array<Byte>, fileSize: int) returns (ok: bool)
    requires buffer.Length >= HeaderSize && WrittenUpTo(buffer, [])
    modifies buffer
    ensures ok <==> 0 <= fileSize < U32Limit
    ensures ok ==> WrittenUpTo(buffer, RiffHeader(fileSize))
  {
    WriteNextTag(buffer, [], 0, RiffTag);
    ok := WriteNextU32(buffer, RiffTag, 4, fileSize);
    if !ok {
      return;
    }
    WriteNextTag(buffer, RiffTag + LE32(fileSize), 8, WaveTag);
  }

  /** Writes the `fmt ` chunk after the RIFF header, unless the rate or byte rate does not fit. */
  method WriteFmtChunk(buffer: array<Byte>, ghost riff: seq<Byte>, sampleRate: int) returns (ok: bool)
    requires buffer.Length >= HeaderSize && |riff| == 12 && WrittenUpTo(buffer, riff)
    modifies buffer
    ensures ok <==> FmtFits(sampleRate)
    ensures ok ==> WrittenUpTo(buffer, riff + FmtChunk(sampleRate))
  {
    ghost var written := riff;
    WriteNextTag(buffer, written, 12, FmtTag);
    written := written + FmtTag;
    ok := WriteNextU32(buffer, written, 16, 16);
    written := written + LE32(16);
    ok := WriteNextU16(buffer, written, 20, 1);
    written := written + LE16(1);
    ok := WriteNextU16(buffer, written, 22, NumChannels);
    written := written + LE16(NumChannels);
    ok := WriteNextU32(buffer, written, 24, sampleRate);
    if !ok {
      return;
    }
    written := written + LE32(sampleRate);
    var byteRate := sampleRate * NumChannels * BytesPerSample;
    ok := WriteNextU32(buffer, written, 28, byteRate);
    if !ok {
      return;
    }
    written := written + LE32(byteRate);
    ok := WriteNextU16(buffer, written, 32, NumChannels * BytesPerSample);
    written := written + LE16(NumChannels * BytesPerSample);
    ok := WriteNextU16(buffer, written, 34, BitsPerSample);
    written := written + LE16(BitsPerSample);
    assert written == riff + FmtChunk(sampleRate);
  }

  /** Writes the `data` chunk header after the `fmt ` chunk, unless the data size does not fit. */
  method WriteDataHeader(buffer: array<Byte>, ghost front: seq<Byte>, dataSize: int) returns (ok: bool)
    requires buffer.Length >= HeaderSize && |front| == 36 && WrittenUpTo(buffer, front)
    modifies buffer
    ensures ok <==> 0 <= dataSize < U32Limit
    ensures ok ==> WrittenUpTo(buffer, front + DataHeader(dataSize))
  {
    WriteNextTag(buffer, front, 36, DataTag);
    ok := WriteNextU32(buffer, front + DataTag, 40, dataSize);
  }

  /**
   * Builds the file for `numSamples` samples at `sampleRate`, or `None` where the
   * generator raises a range error because a 32-bit field does not fit.
   */
  method CreateSilentWav(numSamples: nat, sampleRate: int) returns (result: Option<array<Byte>>)
    ensures result.Some? <==> FieldsFit(numSamples, sampleRate)
    ensures result.Some? ==> result.value[..] == Wav(numSamples, sampleRate)
  {
    var dataSize := numSamples * NumChannels * BytesPerSample;
    var fileSize := 36 + dataSize;
    var buffer := new Byte[HeaderSize + dataSize](_ => 0);
    assert WrittenUpTo(buffer, []);

    var ok := WriteRiffHeader(buffer, fileSize);
    if !ok {
      return None;
    }
    ok := WriteFmtChunk(buffer, RiffHeader(fileSize), sampleRate);
    if !ok {
      return None;
    }
    ok := WriteDataHeader(buffer, RiffHeader(fileSize) + FmtChunk(sampleRate), dataSize);
    assert buffer[..] == Wav(numSamples, sampleRate);

    // silent audio data
    for i := HeaderSize to buffer.Length
      invariant buffer[..] == Wav(numSamples, sampleRate)
    {
      buffer[i] := 0;
    }
    return Some(buffer);
  }
}
