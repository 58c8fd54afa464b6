/**
 * The pulsar archive library as seen by the exporter: each library call is a
 * look-up in oracle data that says what the call returns for that argument
 * (None for a call that fails). The parsers behind the calls are not modelled.
 */
module Pulsar {
  import opened Wrappers
  import opened Bytes
  import opened WavHeader

  /** The kind of a sound entry of the bank. */
  datatype SoundType = Wave | Stream | Sequence | UnknownType(code: u32)

  /** One row of the bank's sound table. */
  datatype SoundInfo = SoundInfo(
    soundType: SoundType,
    hasStringIndex: bool,
    stringIndex: u32,
    waveIndex: u32)  // meaningful for Wave entries only

  /** Where one embedded wave lies inside the wave archive's byte space. */
  datatype FileInfo = FileInfo(offset: u32, size: u32)

  /** An opened embedded wave: its own byte space, its metadata and its channel table. */
  datatype Bfwav = Bfwav(
    bytes: seq<byte>,
    info: Option<WaveInfo>,        // what reading the metadata gives
    channelOffsets: map<u32, u32>) // channel -> data offset; a missing channel fails to read

  /** An opened wave archive. */
  datatype Bfwar = Bfwar(
    bytes: seq<byte>,
    files: map<u32, FileInfo>,     // wave index -> location; a missing index fails
    waves: map<u32, Bfwav>)        // offset -> embedded wave opened there; a missing offset fails

  /** What becomes of the bank's wave archive 0 when the exporter asks for it. */
  datatype ArchiveSlot = NoArchive | UnopenableArchive | Archive(bfwar: Bfwar)

  /** The opened sound bank. */
  datatype Bank = Bank(
    sounds: seq<Option<SoundInfo>>,  // one entry per sound; None when its info cannot be read
    strings: map<u32, string>,       // string index -> name; a missing index fails
    archive0: ArchiveSlot)

  /** plsrBFSARSoundCount */
  function SoundCount(bank: Bank): nat {
    |bank.sounds|
  }

  /** plsrBFSARSoundGet */
  function SoundGet(bank: Bank, i: nat): Option<SoundInfo>
    requires i < SoundCount(bank)
  {
    bank.sounds[i]
  }

  /** plsrBFSARStringGet */
  function StringGet(bank: Bank, key: u32): Option<string> {
    if key in bank.strings then Some(bank.strings[key]) else None
  }

  /** plsrBFWARFileGet */
  function FileGet(bfwar: Bfwar, waveIndex: u32): Option<FileInfo> {
    if waveIndex in bfwar.files then Some(bfwar.files[waveIndex]) else None
  }

  /** plsrBFWAVOpenInside on the wave archive's byte space */
  function WavOpenInside(bfwar: Bfwar, offset: u32): Option<Bfwav> {
    if offset in bfwar.waves then Some(bfwar.waves[offset]) else None
  }

  /** plsrBFWAVReadChannelInfo, giving the channel's data offset */
  function ReadChannelInfo(wav: Bfwav, channel: u32): Option<u32> {
    if channel in wav.channelOffsets then Some(wav.channelOffsets[channel]) else None
  }

  /** plsrArchiveReadAt: succeeds exactly when the whole range lies inside the byte space. */
  function ReadAt(bytes: seq<byte>, offset: nat, size: nat): (r: Option<seq<byte>>)
    ensures r.Some? <==> offset + size <= |bytes|
    ensures r.Some? ==> |r.value| == size
    ensures r.Some? ==> r.value == bytes[offset..offset + size]
  {
    if offset + size <= |bytes| then Some(bytes[offset..offset + size]) else None
  }
}
