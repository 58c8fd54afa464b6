/**
 * The two export jobs for one sound: exportSound, which writes a WAV file
 * (synthesised header, then the channels' sample bytes one channel after the
 * other), and exportRawBFWAV, which copies the embedded wave's bytes verbatim.
 * Each job is specified by a function giving the file it writes or the error
 * that stops it; the methods write the file step by step as the source does.
 */
module Export {
  import opened Wrappers
  import opened Bytes
  import opened WavHeader
  import opened Pulsar
  import opened Storage

  /** Why an export returned -1. */
  datatype ExportError =
    | NotWave
    | WaveArchiveMissing
    | WaveArchiveOpenFailed
    | FileGetFailed
    | WavOpenFailed
    | InfoReadFailed
    | AdpcmUnsupported
    | AllocFailed
    | ReadFailed
    | FileCreateFailed

  function WavPath(name: string): string {
    "sdmc:/wav/" + name + ".wav"
  }

  function RawPath(name: string): string {
    "sdmc:/bfwav/" + name + ".bfwav"
  }

  /**
   * The look-up both jobs start with: only Wave entries are exported, and
   * their wave is looked up in wave archive 0.
   */
  function Locate(bank: Bank, sound: SoundInfo): (r: Result<(Bfwar, FileInfo), ExportError>)
    ensures sound.soundType != Wave ==> r == Failure(NotWave)
    ensures r.Success? <==>
      sound.soundType == Wave && bank.archive0.Archive? && sound.waveIndex in bank.archive0.bfwar.files
    ensures r.Success? ==> r.value == (bank.archive0.bfwar, bank.archive0.bfwar.files[sound.waveIndex])
  {
    if sound.soundType != Wave then Failure(NotWave)
    else
      match bank.archive0
      case NoArchive => Failure(WaveArchiveMissing)
      case UnopenableArchive => Failure(WaveArchiveOpenFailed)
      case Archive(bfwar) =>
        match FileGet(bfwar, sound.waveIndex)
        case None => Failure(FileGetFailed)
        case Some(fileInfo) => Success((bfwar, fileInfo))
  }

  /** The embedded wave of a located sound, opened and with its metadata read. */
  function OpenWave(bank: Bank, sound: SoundInfo): (r: Result<(Bfwav, WaveInfo), ExportError>)
    ensures Locate(bank, sound).Failure? ==> r == Failure(Locate(bank, sound).error)
    ensures r.Success? <==>
      && Locate(bank, sound).Success?
      && var (bfwar, fileInfo) := Locate(bank, sound).value;
         WavOpenInside(bfwar, fileInfo.offset).Some? && WavOpenInside(bfwar, fileInfo.offset).value.info.Some?
    ensures r.Success? ==>
      var (bfwar, fileInfo) := Locate(bank, sound).value;
      var wav := WavOpenInside(bfwar, fileInfo.offset).value;
      r.value == (wav, wav.info.value)
  {
    match Locate(bank, sound)
    case Failure(e) => Failure(e)
    case Success((bfwar, fileInfo)) =>
      match WavOpenInside(bfwar, fileInfo.offset)
      case None => Failure(WavOpenFailed)
      case Some(wav) =>
        match wav.info
        case None => Failure(InfoReadFailed)
        case Some(info) => Success((wav, info))
  }

  /** Channel c's block can be read: its info is there, its buffer is allocated, its range is in bounds. */
  predicate ChannelReadable(wav: Bfwav, index: nat, c: u32, blockSize: u32, mem: Allocator) {
    && c in wav.channelOffsets
    && Allocates(mem, ChannelBuffer(index, c))
    && wav.channelOffsets[c] + blockSize <= |wav.bytes|
  }

  /** The bytes one iteration of the channel loop appends: the channel's block, or nothing if a step fails. */
  function ChannelBlock(wav: Bfwav, index: nat, c: u32, blockSize: u32, mem: Allocator): (r: seq<byte>)
    ensures |r| == if ChannelReadable(wav, index, c, blockSize, mem) then blockSize else 0
  {
    if ChannelReadable(wav, index, c, blockSize, mem)
    then wav.bytes[wav.channelOffsets[c]..wav.channelOffsets[c] + blockSize]
    else []
  }

  /** The payload after n iterations of the channel loop: the blocks of channels 0..n-1, in that order. */
  function Planar(wav: Bfwav, index: nat, n: nat, blockSize: u32, mem: Allocator): (r: seq<byte>)
    requires n <= U16_LIMIT
    ensures |r| <= n * blockSize
  {
    if n == 0 then []
    else
      assert n * blockSize == (n - 1) * blockSize + blockSize;
      Planar(wav, index, n - 1, blockSize, mem) + ChannelBlock(wav, index, n - 1, blockSize, mem)
  }

  /** The file exportSound leaves behind, or the error it returns -1 for. */
  function DecodedFile(bank: Bank, index: nat, sound: SoundInfo, mem: Allocator, canCreate: bool)
    : (r: Result<seq<byte>, ExportError>)
    ensures OpenWave(bank, sound).Failure? ==> r == Failure(OpenWave(bank, sound).error)
    ensures r.Success? <==>
      OpenWave(bank, sound).Success? && OpenWave(bank, sound).value.1.format != DspAdpcm && canCreate
    ensures r == Failure(AdpcmUnsupported) <==>
      OpenWave(bank, sound).Success? && OpenWave(bank, sound).value.1.format == DspAdpcm
    ensures r.Success? ==> |r.value| >= HEADER_SIZE
  {
    match OpenWave(bank, sound)
    case Failure(e) => Failure(e)
    case Success((wav, info)) =>
      match MakeHeader(info)
      case None => Failure(AdpcmUnsupported)
      case Some(h) =>
        if !canCreate then Failure(FileCreateFailed)
        else Success(Serialize(h) + Planar(wav, index, h.numChannels, ChannelDataSize(info, h.bitsPerSample), mem))
  }

  /** The file exportRawBFWAV leaves behind, or the error it returns -1 for. */
  function RawFile(bank: Bank, index: nat, sound: SoundInfo, mem: Allocator, canCreate: bool)
    : (r: Result<seq<byte>, ExportError>)
    ensures Locate(bank, sound).Failure? ==> r == Failure(Locate(bank, sound).error)
    ensures r.Success? || r == Failure(FileCreateFailed) ==>
      && Locate(bank, sound).Success?
      && Allocates(mem, RawBuffer(index))
      && var (bfwar, fileInfo) := Locate(bank, sound).value;
         fileInfo.offset + fileInfo.size <= |bfwar.bytes|
    ensures r.Success? ==> canCreate && |r.value| == Locate(bank, sound).value.1.size
  {
    match Locate(bank, sound)
    case Failure(e) => Failure(e)
    case Success((bfwar, fileInfo)) =>
      if !Allocates(mem, RawBuffer(index)) then Failure(AllocFailed)
      else
        match ReadAt(bfwar.bytes, fileInfo.offset, fileInfo.size)
        case None => Failure(ReadFailed)
        case Some(data) => if !canCreate then Failure(FileCreateFailed) else Success(data)
  }

  /** One iteration of the channel loop: appends channel ch's block to the open file, or nothing if a step fails. */
  method WriteChannel(wav: Bfwav, index: nat, ch: u32, blockSize: u32, mem: Allocator, card: SdCard, path: string)
    requires path in card.files
    modifies card
    ensures card.files == old(card.files)[path := old(card.files)[path] + ChannelBlock(wav, index, ch, blockSize, mem)]
  {
    var chInfo := ReadChannelInfo(wav, ch);
    if chInfo.None? {
      assert old(card.files)[path] + [] == old(card.files)[path];
      return;
    }
    if Allocates(mem, ChannelBuffer(index, ch)) {
      var channelData := ReadAt(wav.bytes, chInfo.value, blockSize);
      if channelData.Some? {
        card.Write(path, channelData.value);
        return;
      }
    }
    assert old(card.files)[path] + [] == old(card.files)[path];
  }

  /** The channel loop of exportSound: appends each channel's block to the open file, in ascending channel order. */
  method WriteChannels(wav: Bfwav, index: nat, numChannels: u16, blockSize: u32, mem: Allocator,
                       card: SdCard, path: string)
    requires path in card.files
    modifies card
    ensures card.files == old(card.files)[path := old(card.files)[path] + Planar(wav, index, numChannels, blockSize, mem)]
  {
    ghost var start := card.files[path];
    var ch: u32 := 0;
    assert start + Planar(wav, index, 0, blockSize, mem) == start;
    while ch < numChannels
      invariant ch <= numChannels
      invariant path in card.files && card.files[path] == start + Planar(wav, index, ch, blockSize, mem)
      invariant card.files == old(card.files)[path := card.files[path]]
    {
      WriteChannel(wav, index, ch, blockSize, mem, card, path);
      PlanarStep(wav, index, ch, blockSize, mem, start);
      ch := ch + 1;
    }
  }

  lemma PlanarStep(wav: Bfwav, index: nat, n: nat, blockSize: u32, mem: Allocator, start: seq<byte>)
    requires n < U16_LIMIT
    ensures start + Planar(wav, index, n, blockSize, mem) + ChannelBlock(wav, index, n, blockSize, mem)
         == start + Planar(wav, index, n + 1, blockSize, mem)
  {
    assert Planar(wav, index, n + 1, blockSize, mem)
        == Planar(wav, index, n, blockSize, mem) + ChannelBlock(wav, index, n, blockSize, mem);
  }

  /** exportSound: returns 0 having written the WAV file, or -1 having written nothing. */
  method ExportSound(bank: Bank, index: u32, name: string, sound: SoundInfo, mem: Allocator, card: SdCard)
    returns (rc: int)
    modifies card
    ensures rc == 0 || rc == -1
    ensures var r := DecodedFile(bank, index, sound, mem, WavPath(name) !in card.unwritable);
      && (rc == 0 <==> r.Success?)
      && card.files == if r.Success? then old(card.files)[WavPath(name) := r.value] else old(card.files)
  {
    var located := Locate(bank, sound);
    if located.Failure? {
      return -1;
    }
    var (bfwar, fileInfo) := located.value;
    var bfwav := WavOpenInside(bfwar, fileInfo.offset);
    if bfwav.None? {
      return -1;
    }
    var info := bfwav.value.info;
    if info.None? {
      return -1;
    }
    var header := MakeHeader(info.value);
    if header.None? {
      return -1;
    }
    var path := WavPath(name);
    var created := card.Create(path);
    if !created {
      return -1;
    }
    card.Write(path, Serialize(header.value));
    WriteChannels(bfwav.value, index, header.value.numChannels,
                  ChannelDataSize(info.value, header.value.bitsPerSample), mem, card, path);
    ghost var body := Planar(bfwav.value, index, header.value.numChannels,
                             ChannelDataSize(info.value, header.value.bitsPerSample), mem);
    assert [] + Serialize(header.value) + body == Serialize(header.value) + body;
    assert DecodedFile(bank, index, sound, mem, true) == Success(Serialize(header.value) + body);
    return 0;
  }

  /** exportRawBFWAV: returns 0 having copied the wave's bytes to a file, or -1 having written nothing. */
  method ExportRawBfwav(bank: Bank, index: u32, name: string, sound: SoundInfo, mem: Allocator, card: SdCard)
    returns (rc: int)
    modifies card
    ensures rc == 0 || rc == -1
    ensures var r := RawFile(bank, index, sound, mem, RawPath(name) !in card.unwritable);
      && (rc == 0 <==> r.Success?)
      && card.files == if r.Success? then old(card.files)[RawPath(name) := r.value] else old(card.files)
  {
    var located := Locate(bank, sound);
    if located.Failure? {
      return -1;
    }
    var (bfwar, fileInfo) := located.value;
    if !Allocates(mem, RawBuffer(index)) {
      return -1;
    }
    var bfwavData := ReadAt(bfwar.bytes, fileInfo.offset, fileInfo.size);
    if bfwavData.None? {
      return -1;
    }
    var path := RawPath(name);
    var created := card.Create(path);
    if !created {
      return -1;
    }
    card.Write(path, bfwavData.value);
    assert [] + bfwavData.value == bfwavData.value;
    return 0;
  }
}

/** What the two export jobs promise, stated on their specifying functions. */
module ExportProperties {
  import opened Wrappers
  import opened Bytes
  import opened WavHeader
  import opened Pulsar
  import opened Storage
  import opened Export

  /** The sample width exportSound picks for an accepted format. */
  function BitsOf(info: WaveInfo): u16
    requires info.format != DspAdpcm
  {
    BitsPerSample(info.format).value
  }

  /** Every channel of the wave is read in full by the channel loop. */
  predicate EveryChannelRead(wav: Bfwav, info: WaveInfo, index: nat, mem: Allocator)
    requires info.format != DspAdpcm
  {
    forall c: u32 :: c < NumChannels(info) ==> ChannelReadable(wav, index, c, ChannelDataSize(info, BitsOf(info)), mem)
  }

  /**
   * The payload holds at most one block per channel; exactly one per channel
   * when every channel is read, and (for non-empty blocks) only then.
   */
  lemma {:induction false} PlanarLength(wav: Bfwav, index: nat, n: nat, blockSize: u32, mem: Allocator)
    requires n <= U16_LIMIT
    ensures |Planar(wav, index, n, blockSize, mem)| <= n * blockSize
    ensures (forall c: u32 :: c < n ==> ChannelReadable(wav, index, c, blockSize, mem))
      ==> |Planar(wav, index, n, blockSize, mem)| == n * blockSize
    ensures 0 < blockSize && |Planar(wav, index, n, blockSize, mem)| == n * blockSize
      ==> forall c: u32 :: c < n ==> ChannelReadable(wav, index, c, blockSize, mem)
  {
    if n > 0 {
      PlanarLength(wav, index, n - 1, blockSize, mem);
      var block := ChannelBlock(wav, index, n - 1, blockSize, mem);
      assert |block| == if ChannelReadable(wav, index, n - 1, blockSize, mem) then blockSize else 0;
      assert n * blockSize == (n - 1) * blockSize + blockSize;
    }
  }

  /** The channel loop only appends: the payload after m channels is a prefix of the payload after n >= m. */
  lemma {:induction false} PlanarPrefix(wav: Bfwav, index: nat, m: nat, n: nat, blockSize: u32, mem: Allocator)
    requires m <= n <= U16_LIMIT
    ensures Planar(wav, index, m, blockSize, mem) <= Planar(wav, index, n, blockSize, mem)
  {
    if m < n {
      PlanarPrefix(wav, index, m, n - 1, blockSize, mem);
    }
  }

  /**
   * Channel c's block sits in the payload right after the blocks of channels
   * 0..c-1 and is exactly what the loop read for channel c: the payload is
   * planar, in ascending channel order.
   */
  lemma {:induction false} PlanarBlock(wav: Bfwav, index: nat, n: nat, blockSize: u32, mem: Allocator, c: u32)
    requires n <= U16_LIMIT && c < n
    ensures |Planar(wav, index, c, blockSize, mem)| + |ChannelBlock(wav, index, c, blockSize, mem)|
         <= |Planar(wav, index, n, blockSize, mem)|
    ensures Planar(wav, index, n, blockSize, mem)
              [|Planar(wav, index, c, blockSize, mem)|..|Planar(wav, index, c, blockSize, mem)| + |ChannelBlock(wav, index, c, blockSize, mem)|]
         == ChannelBlock(wav, index, c, blockSize, mem)
  {
    var before := Planar(wav, index, c, blockSize, mem);
    var block := ChannelBlock(wav, index, c, blockSize, mem);
    if n == c + 1 {
      assert Planar(wav, index, n, blockSize, mem) == before + block;
      SliceOfConcatRight(before, block);
    } else {
      PlanarBlock(wav, index, n - 1, blockSize, mem, c);
      var rest := Planar(wav, index, n - 1, blockSize, mem);
      assert Planar(wav, index, n, blockSize, mem) == rest + ChannelBlock(wav, index, n - 1, blockSize, mem);
      SliceOfConcatLeft(rest, ChannelBlock(wav, index, n - 1, blockSize, mem), |before|, |before| + |block|);
    }
  }

  lemma SliceOfConcatLeft<T>(s: seq<T>, t: seq<T>, i: nat, j: nat)
    requires i <= j <= |s|
    ensures (s + t)[i..j] == s[i..j]
  {
  }

  /**
   * When every channel is read, bytes c*blockSize .. (c+1)*blockSize of the
   * payload are channel c's samples, read at the channel's data offset.
   */
  lemma PlanarBlockAt(wav: Bfwav, index: nat, n: nat, blockSize: u32, mem: Allocator, c: u32)
    requires n <= U16_LIMIT && c < n
    requires forall k: u32 :: k < n ==> ChannelReadable(wav, index, k, blockSize, mem)
    ensures ChannelReadable(wav, index, c, blockSize, mem)
    ensures (c + 1) * blockSize <= |Planar(wav, index, n, blockSize, mem)|
    ensures Planar(wav, index, n, blockSize, mem)[c * blockSize..(c + 1) * blockSize]
         == wav.bytes[wav.channelOffsets[c]..wav.channelOffsets[c] + blockSize]
  {
    PlanarBlock(wav, index, n, blockSize, mem, c);
    PlanarLength(wav, index, c, blockSize, mem);
    MulStep(c, blockSize);
  }

  lemma MulStep(a: nat, b: nat)
    ensures (a + 1) * b == a * b + b
  {
  }

  lemma SliceOfConcatRight<T>(s: seq<T>, t: seq<T>)
    ensures (s + t)[|s|..|s| + |t|] == t
  {
  }

  /**
   * A successful decoded export came from a Wave entry in a format the gate
   * accepts, to a file that could be created; the file is the synthesised
   * header followed by at most numChannels blocks, and parses back to that header.
   */
  lemma DecodedFileShape(bank: Bank, index: nat, sound: SoundInfo, mem: Allocator, canCreate: bool)
    requires DecodedFile(bank, index, sound, mem, canCreate).Success?
    ensures sound.soundType == Wave && canCreate
    ensures OpenWave(bank, sound).Success? && OpenWave(bank, sound).value.1.format != DspAdpcm
    ensures var info := OpenWave(bank, sound).value.1;
      var h := MakeHeader(info).value;
      var file := DecodedFile(bank, index, sound, mem, canCreate).value;
      && |file| >= HEADER_SIZE
      && file[..HEADER_SIZE] == Serialize(h)
      && Parse(file) == Some(h)
      && file[HEADER_SIZE..] == Planar(OpenWave(bank, sound).value.0, index, h.numChannels, ChannelDataSize(info, h.bitsPerSample), mem)
      && |file| == HEADER_SIZE + |Planar(OpenWave(bank, sound).value.0, index, h.numChannels, ChannelDataSize(info, h.bitsPerSample), mem)|
      && |file| <= HEADER_SIZE + h.numChannels * ChannelDataSize(info, h.bitsPerSample)
  {
    var (wav, info) := OpenWave(bank, sound).value;
    var h := MakeHeader(info).value;
    var body := Planar(wav, index, h.numChannels, ChannelDataSize(info, h.bitsPerSample), mem);
    assert (Serialize(h) + body)[..HEADER_SIZE] == Serialize(h);
    ParseSerialize(h);
    ParsePrefix(Serialize(h), body);
    PlanarLength(wav, index, h.numChannels, ChannelDataSize(info, h.bitsPerSample), mem);
  }

  /**
   * When nothing wraps, the header read back from the WAV file declares
   * dataSize = sampleCount * channels * bytesPerSample and a RIFF size of
   * dataSize + 36, that is, 44 - 8 bytes of header after the size field.
   */
  lemma DecodedFileHeader(bank: Bank, index: nat, sound: SoundInfo, mem: Allocator)
    requires DecodedFile(bank, index, sound, mem, true).Success?
    requires Fits(OpenWave(bank, sound).value.1)
    ensures var info := OpenWave(bank, sound).value.1;
      var file := DecodedFile(bank, index, sound, mem, true).value;
      && Parse(file).Some?
      && Parse(file).value.dataSize == info.sampleCount * info.channelCount * (BitsOf(info) / 8)
      && Parse(file).value.fileSize == Parse(file).value.dataSize + HEADER_SIZE - 8
  {
    var info := OpenWave(bank, sound).value.1;
    DecodedFileShape(bank, index, sound, mem, true);
    MakeHeaderCanonical(info);
  }

  /**
   * When nothing wraps, the body is never longer than the declared data size,
   * and has exactly that size when every channel is read: only a failed
   * channel read leaves the file shorter than its header says.
   */
  lemma DecodedFileBodySize(bank: Bank, index: nat, sound: SoundInfo, mem: Allocator)
    requires DecodedFile(bank, index, sound, mem, true).Success?
    requires Fits(OpenWave(bank, sound).value.1)
    ensures var (wav, info) := OpenWave(bank, sound).value;
      var file := DecodedFile(bank, index, sound, mem, true).value;
      var dataSize := MakeHeader(info).value.dataSize;
      && |file| <= HEADER_SIZE + dataSize
      && (EveryChannelRead(wav, info, index, mem) ==> |file| == HEADER_SIZE + dataSize)
  {
    var (wav, info) := OpenWave(bank, sound).value;
    DecodedFileShape(bank, index, sound, mem, true);
    var h := MakeHeader(info).value;
    HeaderBlockSize(info);
    var blockSize := ChannelDataSize(info, BitsOf(info));
    assert h.bitsPerSample == BitsOf(info) && h.numChannels == NumChannels(info);
    PlanarLength(wav, index, h.numChannels, blockSize, mem);
  }

  /** Without wrap-around the declared data size is one channel block per channel. */
  lemma HeaderBlockSize(info: WaveInfo)
    requires info.format != DspAdpcm && Fits(info)
    ensures MakeHeader(info).Some?
    ensures MakeHeader(info).value.dataSize == NumChannels(info) * ChannelDataSize(info, BitsOf(info))
  {
    MakeHeaderCanonical(info);
    var bps := BitsOf(info) / 8;
    var samples, channels := info.sampleCount, info.channelCount;
    assert MakeHeader(info).value.dataSize == samples * channels * bps;
    ProductRegroup(samples, channels, bps);
    if channels > 0 {
      ProductBound(samples * bps, channels);
      assert ChannelDataSize(info, BitsOf(info)) == samples * bps;
    }
  }

  lemma ProductRegroup(a: nat, b: nat, c: nat)
    ensures a * b * c == b * (a * c)
  {
  }

  lemma ProductBound(a: nat, b: nat)
    requires b >= 1
    ensures a <= b * a
  {
  }

  /** A mono PCM-16 wave of N samples whose one channel is read becomes a 44 + 2N byte file declaring 2N data bytes. */
  lemma MonoPcm16File(bank: Bank, index: nat, sound: SoundInfo, mem: Allocator)
    requires OpenWave(bank, sound).Success?
    requires var info := OpenWave(bank, sound).value.1;
      info.format == Pcm16 && info.channelCount == 1 && 2 * info.sampleCount < U32_LIMIT
    requires ChannelReadable(OpenWave(bank, sound).value.0, index, 0, 2 * OpenWave(bank, sound).value.1.sampleCount, mem)
    ensures DecodedFile(bank, index, sound, mem, true).Success?
    ensures var n := OpenWave(bank, sound).value.1.sampleCount;
      var file := DecodedFile(bank, index, sound, mem, true).value;
      && |file| == HEADER_SIZE + 2 * n
      && Parse(file).Some? && Parse(file).value.dataSize == 2 * n && Parse(file).value.numChannels == 1
  {
    var (wav, info) := OpenWave(bank, sound).value;
    var h := MakeHeader(info).value;
    assert h.numChannels == 1 && h.bitsPerSample == 16;
    assert h.dataSize == 2 * info.sampleCount by {
      assert info.sampleCount * 1 * 2 == 2 * info.sampleCount;
    }
    var blockSize := ChannelDataSize(info, h.bitsPerSample);
    assert blockSize == 2 * info.sampleCount;
    assert |Planar(wav, index, 1, blockSize, mem)| == blockSize by {
      assert Planar(wav, index, 1, blockSize, mem)
          == Planar(wav, index, 0, blockSize, mem) + ChannelBlock(wav, index, 0, blockSize, mem);
    }
    DecodedFileShape(bank, index, sound, mem, true);
  }

  /** The decoded export of a DSP-ADPCM wave always fails, before any file is created. */
  lemma AdpcmNeverDecoded(bank: Bank, index: nat, sound: SoundInfo, mem: Allocator, canCreate: bool)
    requires OpenWave(bank, sound).Success? && OpenWave(bank, sound).value.1.format == DspAdpcm
    ensures DecodedFile(bank, index, sound, mem, canCreate) == Failure(AdpcmUnsupported)
  {
  }

  /** The byte range a raw export copies can be read. */
  predicate RawReadable(bank: Bank, sound: SoundInfo, index: nat, mem: Allocator)
    requires Locate(bank, sound).Success?
  {
    var (bfwar, fileInfo) := Locate(bank, sound).value;
    Allocates(mem, RawBuffer(index)) && fileInfo.offset + fileInfo.size <= |bfwar.bytes|
  }

  /**
   * A raw export succeeds exactly when the wave is located, its buffer is
   * allocated, its byte range can be read and the file can be created; the
   * file is then exactly the fileInfo.size bytes at fileInfo.offset of the
   * wave archive, whatever the wave's format.
   */
  lemma RawFileIsByteRange(bank: Bank, index: nat, sound: SoundInfo, mem: Allocator, canCreate: bool)
    ensures RawFile(bank, index, sound, mem, canCreate).Success?
       <==> Locate(bank, sound).Success? && RawReadable(bank, sound, index, mem) && canCreate
    ensures RawFile(bank, index, sound, mem, canCreate).Success? ==>
      var (bfwar, fileInfo) := Locate(bank, sound).value;
      var file := RawFile(bank, index, sound, mem, canCreate).value;
      |file| == fileInfo.size && file == bfwar.bytes[fileInfo.offset..fileInfo.offset + fileInfo.size]
  {
  }

  /** A DSP-ADPCM wave cannot be decoded, but its raw export still succeeds when its bytes can be copied. */
  lemma AdpcmStillExportsRaw(bank: Bank, index: nat, sound: SoundInfo, mem: Allocator)
    requires OpenWave(bank, sound).Success? && OpenWave(bank, sound).value.1.format == DspAdpcm
    requires RawReadable(bank, sound, index, mem)
    ensures DecodedFile(bank, index, sound, mem, true).Failure?
    ensures RawFile(bank, index, sound, mem, true).Success?
    ensures |RawFile(bank, index, sound, mem, true).value| == Locate(bank, sound).value.1.size
  {
    RawFileIsByteRange(bank, index, sound, mem, true);
  }

  /** Both jobs refuse every entry that is not a Wave, before any archive is opened. */
  lemma NonWaveRefused(bank: Bank, index: nat, sound: SoundInfo, mem: Allocator, canCreate: bool)
    requires sound.soundType != Wave
    ensures DecodedFile(bank, index, sound, mem, canCreate) == Failure(NotWave)
    ensures RawFile(bank, index, sound, mem, canCreate) == Failure(NotWave)
  {
  }

  /** A bank without a wave archive fails every Wave entry in both jobs. */
  lemma NoArchiveRefused(bank: Bank, index: nat, sound: SoundInfo, mem: Allocator, canCreate: bool)
    requires bank.archive0 == NoArchive && sound.soundType == Wave
    ensures DecodedFile(bank, index, sound, mem, canCreate) == Failure(WaveArchiveMissing)
    ensures RawFile(bank, index, sound, mem, canCreate) == Failure(WaveArchiveMissing)
  {
  }
}
