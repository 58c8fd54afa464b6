/**
 * The WAV header synthesiser of exportSound: the format gate that decides the
 * sample width, the header field arithmetic (with the wrap-around of the C
 * unsigned types written out) and the 44-byte packed little-endian layout of
 * the canonical RIFF/WAVE PCM header, with a parser for the same layout.
 */
module WavHeader {
  import opened Wrappers
  import opened Bytes

  /** Sample encodings an embedded wave may declare. */
  datatype WaveFormat = Pcm8 | Pcm16 | DspAdpcm | OtherFormat(code: u32)

  /** The part of an embedded wave's metadata that exportSound reads. */
  datatype WaveInfo = WaveInfo(
    format: WaveFormat,
    sampleRate: u32,
    sampleCount: u32,   // samples per channel
    channelCount: u32)  // entries of the channel info table

  /** The fields of the packed WAVHeader struct, tags left out (they are constants). */
  datatype Header = Header(
    fileSize: u32,
    fmtSize: u32,
    audioFormat: u16,
    numChannels: u16,
    sampleRate: u32,
    byteRate: u32,
    blockAlign: u16,
    bitsPerSample: u16,
    dataSize: u32)

  /** sizeof(WAVHeader): 4 tags of 4 bytes, 5 u32 fields and 4 u16 fields, no padding. */
  const HEADER_SIZE: nat := 4 * 4 + 5 * 4 + 4 * 2

  const RIFF_TAG: seq<byte> := [0x52, 0x49, 0x46, 0x46]  // "RIFF"
  const WAVE_TAG: seq<byte> := [0x57, 0x41, 0x56, 0x45]  // "WAVE"
  const FMT_TAG: seq<byte> := [0x66, 0x6d, 0x74, 0x20]   // "fmt "
  const DATA_TAG: seq<byte> := [0x64, 0x61, 0x74, 0x61]  // "data"

  // Byte offsets of the fields in the canonical header.
  const OFS_RIFF: nat := 0
  const OFS_FILE_SIZE: nat := 4
  const OFS_WAVE: nat := 8
  const OFS_FMT: nat := 12
  const OFS_FMT_SIZE: nat := 16
  const OFS_AUDIO_FORMAT: nat := 20
  const OFS_NUM_CHANNELS: nat := 22
  const OFS_SAMPLE_RATE: nat := 24
  const OFS_BYTE_RATE: nat := 28
  const OFS_BLOCK_ALIGN: nat := 32
  const OFS_BITS_PER_SAMPLE: nat := 34
  const OFS_DATA: nat := 36
  const OFS_DATA_SIZE: nat := 40

  /** The format gate: DSP-ADPCM is refused, PCM-16 is 16 bits wide, every other format is taken as 8 bits. */
  function BitsPerSample(format: WaveFormat): (r: Option<u16>)
    ensures r.None? <==> format == DspAdpcm
    ensures r.Some? ==> (r.value == 16 <==> format == Pcm16)
    ensures r.Some? ==> (r.value == 8 <==> format != Pcm16)
  {
    match format
    case DspAdpcm => None
    case Pcm16 => Some(16)
    case _ => Some(8)
  }

  /** The channel count as the u16 local numChannels holds it: truncated modulo 2^16. */
  function NumChannels(info: WaveInfo): (r: u16)
    ensures info.channelCount < U16_LIMIT ==> r == info.channelCount
    ensures (r - info.channelCount) % U16_LIMIT == 0
  {
    ToU16(info.channelCount)
  }

  /** Bytes read for each channel: the u32 product sampleCount * bytesPerSample, truncated modulo 2^32. */
  function ChannelDataSize(info: WaveInfo, bits: u16): (r: u32)
    ensures info.sampleCount * (bits / 8) < U32_LIMIT ==> r == info.sampleCount * (bits / 8)
    ensures (r - info.sampleCount * (bits / 8)) % U32_LIMIT == 0
  {
    ToU32(info.sampleCount * (bits / 8))
  }

  /** The header exportSound fills in, or None when the gate refuses the format. */
  function MakeHeader(info: WaveInfo): (r: Option<Header>)
    ensures r.None? <==> info.format == DspAdpcm
    ensures r.Some? ==> r.value.bitsPerSample == (if info.format == Pcm16 then 16 else 8)
    ensures r.Some? ==> r.value.numChannels == NumChannels(info) && r.value.sampleRate == info.sampleRate
  {
    match BitsPerSample(info.format)
    case None => None
    case Some(bits) =>
      var bytesPerSample := bits / 8;
      var channels := NumChannels(info);
      var dataSize := ToU32(info.sampleCount * channels * bytesPerSample);
      Some(Header(
        fileSize := ToU32(dataSize + HEADER_SIZE - 8),
        fmtSize := 16,
        audioFormat := 1,
        numChannels := channels,
        sampleRate := info.sampleRate,
        byteRate := ToU32(info.sampleRate * channels * bytesPerSample),
        blockAlign := ToU16(channels * bytesPerSample),
        bitsPerSample := bits,
        dataSize := dataSize))
  }

  /**
   * The arithmetic of the header needs no wrap-around: the channel count fits
   * in u16 and every product and sum fits in its field.
   */
  predicate Fits(info: WaveInfo) {
    var bytesPerSample := if info.format == Pcm16 then 2 else 1;
    && info.channelCount < U16_LIMIT
    && info.channelCount * bytesPerSample < U16_LIMIT
    && info.sampleCount * info.channelCount * bytesPerSample + HEADER_SIZE - 8 < U32_LIMIT
    && info.sampleRate * info.channelCount * bytesPerSample < U32_LIMIT
  }

  /** What the RIFF/WAVE format requires of a PCM header that describes n channels of samples. */
  predicate IsCanonicalPcm(h: Header) {
    && h.fmtSize == 16
    && h.audioFormat == 1
    && (h.bitsPerSample == 8 || h.bitsPerSample == 16)
    && h.blockAlign == h.numChannels * (h.bitsPerSample / 8)
    && h.byteRate == h.sampleRate * h.blockAlign
    && h.fileSize == h.dataSize + HEADER_SIZE - 8
  }

  /**
   * Without wrap-around the header is canonical and declares exactly
   * sampleCount frames of numChannels samples: dataSize = sampleCount *
   * channels * bytesPerSample and byteRate = sampleRate * blockAlign.
   */
  lemma MakeHeaderCanonical(info: WaveInfo)
    requires info.format != DspAdpcm && Fits(info)
    ensures MakeHeader(info).Some?
    ensures IsCanonicalPcm(MakeHeader(info).value)
    ensures MakeHeader(info).value.numChannels == info.channelCount
    ensures MakeHeader(info).value.dataSize
         == info.sampleCount * MakeHeader(info).value.blockAlign
         == info.sampleCount * info.channelCount * (MakeHeader(info).value.bitsPerSample / 8)
    ensures MakeHeader(info).value.fileSize == MakeHeader(info).value.dataSize + 36
  {
    var h := MakeHeader(info).value;
    var bps := h.bitsPerSample / 8;
    assert bps == (if info.format == Pcm16 then 2 else 1);
    assert NumChannels(info) == info.channelCount;
    assert info.sampleCount * info.channelCount * bps < U32_LIMIT;
    assert h.dataSize == info.sampleCount * info.channelCount * bps;
    assert h.blockAlign == info.channelCount * bps;
    assert h.byteRate == info.sampleRate * info.channelCount * bps;
    assert h.sampleRate * h.blockAlign == info.sampleRate * (info.channelCount * bps);
  }

  /** The packed struct as fwrite puts it in the file. */
  function Serialize(h: Header): (r: seq<byte>)
    ensures |r| == HEADER_SIZE
  {
    RIFF_TAG + EncodeU32(h.fileSize) + WAVE_TAG
    + FMT_TAG + EncodeU32(h.fmtSize) + EncodeU16(h.audioFormat) + EncodeU16(h.numChannels)
    + EncodeU32(h.sampleRate) + EncodeU32(h.byteRate) + EncodeU16(h.blockAlign) + EncodeU16(h.bitsPerSample)
    + DATA_TAG + EncodeU32(h.dataSize)
  }

  function U16At(b: seq<byte>, ofs: nat): u16
    requires ofs + 2 <= |b|
  {
    DecodeU16(b[ofs..ofs + 2])
  }

  function U32At(b: seq<byte>, ofs: nat): u32
    requires ofs + 4 <= |b|
  {
    DecodeU32(b[ofs..ofs + 4])
  }

  /** Reads a canonical 44-byte header at the start of b, field by field at its fixed offset. */
  function Parse(b: seq<byte>): (r: Option<Header>)
    ensures r.Some? ==> |b| >= HEADER_SIZE
    ensures r.Some? ==> b[OFS_RIFF..OFS_RIFF + 4] == RIFF_TAG && b[OFS_WAVE..OFS_WAVE + 4] == WAVE_TAG
    ensures r.Some? ==> b[OFS_FMT..OFS_FMT + 4] == FMT_TAG && b[OFS_DATA..OFS_DATA + 4] == DATA_TAG
  {
    if |b| < HEADER_SIZE
       || b[OFS_RIFF..OFS_RIFF + 4] != RIFF_TAG || b[OFS_WAVE..OFS_WAVE + 4] != WAVE_TAG
       || b[OFS_FMT..OFS_FMT + 4] != FMT_TAG || b[OFS_DATA..OFS_DATA + 4] != DATA_TAG
    then None
    else Some(Header(
      fileSize := U32At(b, OFS_FILE_SIZE),
      fmtSize := U32At(b, OFS_FMT_SIZE),
      audioFormat := U16At(b, OFS_AUDIO_FORMAT),
      numChannels := U16At(b, OFS_NUM_CHANNELS),
      sampleRate := U32At(b, OFS_SAMPLE_RATE),
      byteRate := U32At(b, OFS_BYTE_RATE),
      blockAlign := U16At(b, OFS_BLOCK_ALIGN),
      bitsPerSample := U16At(b, OFS_BITS_PER_SAMPLE),
      dataSize := U32At(b, OFS_DATA_SIZE)))
  }

  /** Every field of the serialised header lies at its canonical offset. */
  lemma SerializeLayout(h: Header)
    ensures var b := Serialize(h);
      && b[OFS_RIFF..OFS_RIFF + 4] == RIFF_TAG
      && b[OFS_FILE_SIZE..OFS_FILE_SIZE + 4] == EncodeU32(h.fileSize)
      && b[OFS_WAVE..OFS_WAVE + 4] == WAVE_TAG
      && b[OFS_FMT..OFS_FMT + 4] == FMT_TAG
      && b[OFS_FMT_SIZE..OFS_FMT_SIZE + 4] == EncodeU32(h.fmtSize)
      && b[OFS_AUDIO_FORMAT..OFS_AUDIO_FORMAT + 2] == EncodeU16(h.audioFormat)
      && b[OFS_NUM_CHANNELS..OFS_NUM_CHANNELS + 2] == EncodeU16(h.numChannels)
      && b[OFS_SAMPLE_RATE..OFS_SAMPLE_RATE + 4] == EncodeU32(h.sampleRate)
      && b[OFS_BYTE_RATE..OFS_BYTE_RATE + 4] == EncodeU32(h.byteRate)
      && b[OFS_BLOCK_ALIGN..OFS_BLOCK_ALIGN + 2] == EncodeU16(h.blockAlign)
      && b[OFS_BITS_PER_SAMPLE..OFS_BITS_PER_SAMPLE + 2] == EncodeU16(h.bitsPerSample)
      && b[OFS_DATA..OFS_DATA + 4] == DATA_TAG
      && b[OFS_DATA_SIZE..OFS_DATA_SIZE + 4] == EncodeU32(h.dataSize)
  {
    var b := Serialize(h);
    assert b[0..4] == RIFF_TAG;
  }

  /** Parsing what was serialised gives back every field. */
  lemma ParseSerialize(h: Header)
    ensures Parse(Serialize(h)) == Some(h)
  {
    var b := Serialize(h);
    SerializeLayout(h);
    DecodeEncodeU32(h.fileSize);
    DecodeEncodeU32(h.fmtSize);
    DecodeEncodeU16(h.audioFormat);
    DecodeEncodeU16(h.numChannels);
    DecodeEncodeU32(h.sampleRate);
    DecodeEncodeU32(h.byteRate);
    DecodeEncodeU16(h.blockAlign);
    DecodeEncodeU16(h.bitsPerSample);
    DecodeEncodeU32(h.dataSize);
  }

  /** Conversely, any byte string that parses starts with the serialisation of what it parses to. */
  lemma SerializeParse(b: seq<byte>)
    requires Parse(b).Some?
    ensures Serialize(Parse(b).value) == b[..HEADER_SIZE]
  {
    var h := Parse(b).value;
    EncodeDecodeU32(b[OFS_FILE_SIZE..OFS_FILE_SIZE + 4]);
    EncodeDecodeU32(b[OFS_FMT_SIZE..OFS_FMT_SIZE + 4]);
    EncodeDecodeU16(b[OFS_AUDIO_FORMAT..OFS_AUDIO_FORMAT + 2]);
    EncodeDecodeU16(b[OFS_NUM_CHANNELS..OFS_NUM_CHANNELS + 2]);
    EncodeDecodeU32(b[OFS_SAMPLE_RATE..OFS_SAMPLE_RATE + 4]);
    EncodeDecodeU32(b[OFS_BYTE_RATE..OFS_BYTE_RATE + 4]);
    EncodeDecodeU16(b[OFS_BLOCK_ALIGN..OFS_BLOCK_ALIGN + 2]);
    EncodeDecodeU16(b[OFS_BITS_PER_SAMPLE..OFS_BITS_PER_SAMPLE + 2]);
    EncodeDecodeU32(b[OFS_DATA_SIZE..OFS_DATA_SIZE + 4]);
    SerializeLayout(h);
    var s := Serialize(h);
    forall i | 0 <= i < HEADER_SIZE ensures s[i] == b[i] {
      if i < 4 { assert s[i] == s[OFS_RIFF..OFS_RIFF + 4][i]; }
      else if i < 8 { assert s[i] == s[4..8][i - 4]; assert b[i] == b[4..8][i - 4]; }
      else if i < 12 { assert s[i] == s[8..12][i - 8]; assert b[i] == b[8..12][i - 8]; }
      else if i < 16 { assert s[i] == s[12..16][i - 12]; assert b[i] == b[12..16][i - 12]; }
      else if i < 20 { assert s[i] == s[16..20][i - 16]; assert b[i] == b[16..20][i - 16]; }
      else if i < 22 { assert s[i] == s[20..22][i - 20]; assert b[i] == b[20..22][i - 20]; }
      else if i < 24 { assert s[i] == s[22..24][i - 22]; assert b[i] == b[22..24][i - 22]; }
      else if i < 28 { assert s[i] == s[24..28][i - 24]; assert b[i] == b[24..28][i - 24]; }
      else if i < 32 { assert s[i] == s[28..32][i - 28]; assert b[i] == b[28..32][i - 28]; }
      else if i < 34 { assert s[i] == s[32..34][i - 32]; assert b[i] == b[32..34][i - 32]; }
      else if i < 36 { assert s[i] == s[34..36][i - 34]; assert b[i] == b[34..36][i - 34]; }
      else if i < 40 { assert s[i] == s[36..40][i - 36]; assert b[i] == b[36..40][i - 36]; }
      else { assert s[i] == s[40..44][i - 40]; assert b[i] == b[40..44][i - 40]; }
    }
  }

  /**
   * Reading back the header exportSound writes recovers the channel count,
   * sample rate and sample width of the wave, and a data size of exactly
   * sampleCount * channels * bytesPerSample, as long as nothing wrapped.
   */
  lemma HeaderRecoversWave(info: WaveInfo)
    requires info.format != DspAdpcm && Fits(info)
    ensures var p := Parse(Serialize(MakeHeader(info).value));
      && p.Some?
      && p.value.numChannels == info.channelCount
      && p.value.sampleRate == info.sampleRate
      && p.value.bitsPerSample == (if info.format == Pcm16 then 16 else 8)
      && p.value.dataSize == info.sampleCount * info.channelCount * (p.value.bitsPerSample / 8)
  {
    MakeHeaderCanonical(info);
    ParseSerialize(MakeHeader(info).value);
  }

  /** Parse looks at the first 44 bytes only: what follows the header does not change it. */
  lemma ParsePrefix(b: seq<byte>, rest: seq<byte>)
    requires |b| >= HEADER_SIZE
    ensures Parse(b + rest) == Parse(b)
  {
    var t := b + rest;
    forall i, j | 0 <= i <= j <= HEADER_SIZE ensures t[i..j] == b[i..j] {
      assert forall k :: i <= k < j ==> t[k] == b[k];
    }
  }
}
