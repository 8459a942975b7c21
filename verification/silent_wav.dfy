/** `createSilentWAVData`: a canonical 44-byte RIFF/WAVE header for mono
    16-bit PCM followed by an all-zero payload, and a header reader that
    recovers every field the writer put down. */
module SilentWav {
  import opened Results
  import opened Bytes

  const HEADER_SIZE: nat := 44
  const NUM_CHANNELS: nat := 1
  const BITS_PER_SAMPLE: nat := 16
  const FMT_CHUNK_SIZE: nat := 16
  const PCM_FORMAT: nat := 1

  /** The fields of the header, in file order. */
  datatype WavHeader = WavHeader(
    fileSize: int,
    fmtChunkSize: int,
    audioFormat: int,
    numChannels: int,
    sampleRate: int,
    byteRate: int,
    blockAlign: int,
    bitsPerSample: int,
    dataSize: int)

  predicate Fits(h: WavHeader) {
    && 0 <= h.fileSize < UINT32_LIMIT
    && 0 <= h.fmtChunkSize < UINT32_LIMIT
    && 0 <= h.audioFormat < UINT16_LIMIT
    && 0 <= h.numChannels < UINT16_LIMIT
    && 0 <= h.sampleRate < UINT32_LIMIT
    && 0 <= h.byteRate < UINT32_LIMIT
    && 0 <= h.blockAlign < UINT16_LIMIT
    && 0 <= h.bitsPerSample < UINT16_LIMIT
    && 0 <= h.dataSize < UINT32_LIMIT
  }

  /** "RIFF", the size of the rest of the file, "WAVE". */
  function RiffChunk(h: WavHeader): (r: seq<Byte>)
    requires Fits(h)
    ensures |r| == 12
  {
    Ascii("RIFF") + LE32(h.fileSize) + Ascii("WAVE")
  }

  /** The `fmt ` chunk: its tag and size with the stream layout, then the rates and sample width. */
  function FmtChunk(h: WavHeader): (r: seq<Byte>)
    requires Fits(h)
    ensures |r| == 24
  {
    FmtLayout(h) + FmtRates(h)
  }

  function FmtLayout(h: WavHeader): (r: seq<Byte>)
    requires Fits(h)
    ensures |r| == 12
  {
    Ascii("fmt ") + LE32(h.fmtChunkSize) + LE16(h.audioFormat) + LE16(h.numChannels)
  }

  function FmtRates(h: WavHeader): (r: seq<Byte>)
    requires Fits(h)
    ensures |r| == 12
  {
    LE32(h.sampleRate) + LE32(h.byteRate) + LE16(h.blockAlign) + LE16(h.bitsPerSample)
  }

  /** "data" and the payload size. */
  function DataChunkHeader(h: WavHeader): (r: seq<Byte>)
    requires Fits(h)
    ensures |r| == 8
  {
    Ascii("data") + LE32(h.dataSize)
  }

  function SerializeHeader(h: WavHeader): (r: seq<Byte>)
    requires Fits(h)
    ensures |r| == HEADER_SIZE
  {
    RiffChunk(h) + FmtChunk(h) + DataChunkHeader(h)
  }

  /** The header `createSilentWAVData` computes. Each `UInt32(...)` and the
      `UInt32` addition `36 + dataSize` trap outside the 32-bit range, so the
      caller must keep the values in range. */
  function SilentHeader(sampleRate: int, frameCount: int): (h: WavHeader)
    requires 0 <= sampleRate && 2 * sampleRate < UINT32_LIMIT
    requires 0 <= frameCount && 36 + 2 * frameCount < UINT32_LIMIT
    ensures Fits(h)
    ensures h == WavHeader(36 + 2 * frameCount, 16, 1, 1, sampleRate, 2 * sampleRate, 2, 16, 2 * frameCount)
  {
    var byteRate := sampleRate * NUM_CHANNELS * BITS_PER_SAMPLE / 8;
    var blockAlign := NUM_CHANNELS * BITS_PER_SAMPLE / 8;
    var dataSize := frameCount * blockAlign;
    WavHeader(36 + dataSize, FMT_CHUNK_SIZE, PCM_FORMAT, NUM_CHANNELS, sampleRate, byteRate,
              blockAlign, BITS_PER_SAMPLE, dataSize)
  }

  /** `createSilentWAVData(sampleRate:frameCount:)`. */
  function CreateSilentWavData(sampleRate: int, frameCount: int): (r: seq<Byte>)
    requires 0 <= sampleRate && 2 * sampleRate < UINT32_LIMIT
    requires 0 <= frameCount && 36 + 2 * frameCount < UINT32_LIMIT
    ensures |r| == HEADER_SIZE + 2 * frameCount
    ensures (|r| - HEADER_SIZE) % 2 == 0
    ensures forall i :: HEADER_SIZE <= i < |r| ==> r[i] == 0
  {
    assert (2 * frameCount) % 2 == 0;
    var h := SilentHeader(sampleRate, frameCount);
    var header, payload := SerializeHeader(h), seq(2 * frameCount, _ => 0);
    assert forall i :: HEADER_SIZE <= i < |header + payload| ==> (header + payload)[i] == payload[i - HEADER_SIZE];
    header + payload
  }

  /** Reads the 44-byte header back; `None` when the buffer is shorter or a
      chunk tag is not where the layout puts it. */
  function ParseWavHeader(b: seq<Byte>): (r: Option<WavHeader>)
    ensures r.Some? ==> |b| >= HEADER_SIZE && Fits(r.value)
  {
    if |b| < HEADER_SIZE then None
    else if b[0..4] != Ascii("RIFF") || b[8..12] != Ascii("WAVE")
         || b[12..16] != Ascii("fmt ") || b[36..40] != Ascii("data") then None
    else
      Some(WavHeader(ReadLE32(b[4..8]), ReadLE32(b[16..20]), ReadLE16(b[20..22]), ReadLE16(b[22..24]),
                     ReadLE32(b[24..28]), ReadLE32(b[28..32]), ReadLE16(b[32..34]), ReadLE16(b[34..36]),
                     ReadLE32(b[40..44])))
  }

  lemma RiffChunkFields(h: WavHeader)
    requires Fits(h)
    ensures RiffChunk(h)[0..4] == Ascii("RIFF")
    ensures ReadLE32(RiffChunk(h)[4..8]) == h.fileSize
    ensures RiffChunk(h)[8..12] == Ascii("WAVE")
  {
    var r := RiffChunk(h);
    assert r[4..8] == LE32(h.fileSize);
    LE32RoundTrip(h.fileSize);
  }

  lemma FmtLayoutFields(h: WavHeader)
    requires Fits(h)
    ensures var c := FmtLayout(h);
            && c[0..4] == Ascii("fmt ")
            && ReadLE32(c[4..8]) == h.fmtChunkSize
            && ReadLE16(c[8..10]) == h.audioFormat
            && ReadLE16(c[10..12]) == h.numChannels
  {
    FourFields(Ascii("fmt "), LE32(h.fmtChunkSize), LE16(h.audioFormat), LE16(h.numChannels));
    LE32RoundTrip(h.fmtChunkSize);
  }

  lemma FmtRatesFields(h: WavHeader)
    requires Fits(h)
    ensures var c := FmtRates(h);
            && ReadLE32(c[0..4]) == h.sampleRate
            && ReadLE32(c[4..8]) == h.byteRate
            && ReadLE16(c[8..10]) == h.blockAlign
            && ReadLE16(c[10..12]) == h.bitsPerSample
  {
    FourFields(LE32(h.sampleRate), LE32(h.byteRate), LE16(h.blockAlign), LE16(h.bitsPerSample));
    LE32RoundTrip(h.sampleRate);
    LE32RoundTrip(h.byteRate);
  }

  lemma FmtChunkFields(h: WavHeader)
    requires Fits(h)
    ensures var c := FmtChunk(h);
            && c[0..4] == Ascii("fmt ")
            && ReadLE32(c[4..8]) == h.fmtChunkSize
            && ReadLE16(c[8..10]) == h.audioFormat
            && ReadLE16(c[10..12]) == h.numChannels
            && ReadLE32(c[12..16]) == h.sampleRate
            && ReadLE32(c[16..20]) == h.byteRate
            && ReadLE16(c[20..22]) == h.blockAlign
            && ReadLE16(c[22..24]) == h.bitsPerSample
  {
    var c, layout, rates := FmtChunk(h), FmtLayout(h), FmtRates(h);
    FmtLayoutFields(h);
    FmtRatesFields(h);
    assert c[0..4] == layout[0..4] && c[4..8] == layout[4..8];
    assert c[8..10] == layout[8..10] && c[10..12] == layout[10..12];
    assert c[12..16] == rates[0..4] && c[16..20] == rates[4..8];
    assert c[20..22] == rates[8..10] && c[22..24] == rates[10..12];
  }

  lemma DataChunkHeaderFields(h: WavHeader)
    requires Fits(h)
    ensures DataChunkHeader(h)[0..4] == Ascii("data")
    ensures ReadLE32(DataChunkHeader(h)[4..8]) == h.dataSize
  {
    assert DataChunkHeader(h)[4..8] == LE32(h.dataSize);
    LE32RoundTrip(h.dataSize);
  }

  /** Every header field survives writing and reading. */
  lemma SerializedHeaderFields(h: WavHeader)
    requires Fits(h)
    ensures ParseWavHeader(SerializeHeader(h)) == Some(h)
  {
    var b := SerializeHeader(h);
    var riff, fmt, data := RiffChunk(h), FmtChunk(h), DataChunkHeader(h);
    assert b[0..12] == riff;
    assert b[12..36] == fmt;
    assert b[36..44] == data;
    RiffChunkFields(h);
    FmtChunkFields(h);
    DataChunkHeaderFields(h);
    assert b[0..4] == riff[0..4] && b[4..8] == riff[4..8] && b[8..12] == riff[8..12];
    assert b[12..16] == fmt[0..4] && b[16..20] == fmt[4..8] && b[20..22] == fmt[8..10];
    assert b[22..24] == fmt[10..12] && b[24..28] == fmt[12..16] && b[28..32] == fmt[16..20];
    assert b[32..34] == fmt[20..22] && b[34..36] == fmt[22..24];
    assert b[36..40] == data[0..4] && b[40..44] == data[4..8];
  }

  /** The reader looks at the first 44 bytes only. */
  lemma ParseIgnoresPayload(header: seq<Byte>, payload: seq<Byte>)
    requires |header| == HEADER_SIZE
    ensures ParseWavHeader(header + payload) == ParseWavHeader(header)
  {
    var b := header + payload;
    assert b[0..4] == header[0..4] && b[4..8] == header[4..8] && b[8..12] == header[8..12];
    assert b[12..16] == header[12..16] && b[16..20] == header[16..20] && b[20..22] == header[20..22];
    assert b[22..24] == header[22..24] && b[24..28] == header[24..28] && b[28..32] == header[28..32];
    assert b[32..34] == header[32..34] && b[34..36] == header[34..36];
    assert b[36..40] == header[36..40] && b[40..44] == header[40..44];
  }

  /** Every header field survives writing and reading, whatever follows the header. */
  lemma HeaderRoundTrip(h: WavHeader, payload: seq<Byte>)
    requires Fits(h)
    ensures ParseWavHeader(SerializeHeader(h) + payload) == Some(h)
  {
    SerializedHeaderFields(h);
    ParseIgnoresPayload(SerializeHeader(h), payload);
  }

  /** The silent file declares a mono 16-bit PCM stream at `sampleRate`,
      a data chunk of `2 * frameCount` bytes and a RIFF size of 36 more. */
  lemma SilentWavHeader(sampleRate: int, frameCount: int)
    requires 0 <= sampleRate && 2 * sampleRate < UINT32_LIMIT
    requires 0 <= frameCount && 36 + 2 * frameCount < UINT32_LIMIT
    ensures ParseWavHeader(CreateSilentWavData(sampleRate, frameCount))
            == Some(WavHeader(36 + 2 * frameCount, 16, 1, 1, sampleRate, 2 * sampleRate, 2, 16, 2 * frameCount))
  {
    var h := SilentHeader(sampleRate, frameCount);
    HeaderRoundTrip(h, seq(h.dataSize, _ => 0));
  }
}
