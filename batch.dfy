/**
 * The batch drivers exportAll (decoded WAV files) and exportAllRaw (raw
 * copies): one pass over the sounds of the bank in index order, each sound
 * counted as exported, skipped or failed.
 */
module Batch {
  import opened Wrappers
  import opened Bytes
  import opened Pulsar
  import opened Storage
  import opened Naming
  import opened Export

  /** Which export job the batch runs for each Wave entry. */
  datatype Mode = Decoded | Raw

  /** What the batch makes of one sound. */
  datatype Outcome = Exported | Skipped | Failed

  /** The three counters of the batch. */
  datatype Tally = Tally(exported: nat, skipped: nat, failed: nat)

  function OutputPath(mode: Mode, name: string): string {
    match mode
    case Decoded => WavPath(name)
    case Raw => RawPath(name)
  }

  /** The directory the batch writes to. */
  function ExportDir(mode: Mode): string {
    match mode
    case Decoded => "sdmc:/wav/"
    case Raw => "sdmc:/bfwav/"
  }

  /** The file the job of this mode writes for a Wave entry, or its error. */
  function ExportFile(bank: Bank, mode: Mode, index: nat, sound: SoundInfo, mem: Allocator, canCreate: bool)
    : Result<seq<byte>, ExportError>
  {
    match mode
    case Decoded => DecodedFile(bank, index, sound, mem, canCreate)
    case Raw => RawFile(bank, index, sound, mem, canCreate)
  }

  /** The batch's verdict on sound i. */
  function ItemOutcome(bank: Bank, mode: Mode, mem: Allocator, unwritable: set<string>, i: nat): (o: Outcome)
    requires i < |bank.sounds| < U32_LIMIT
    ensures bank.sounds[i].None? ==> o == Failed
    ensures o == Skipped <==> bank.sounds[i].Some? && bank.sounds[i].value.soundType != Wave
    ensures o == Exported <==>
      && bank.sounds[i].Some? && bank.sounds[i].value.soundType == Wave
      && var sound := bank.sounds[i].value;
         ExportFile(bank, mode, i, sound, mem, OutputPath(mode, ResolveName(bank, i, sound)) !in unwritable).Success?
  {
    match SoundGet(bank, i)
    case None => Failed
    case Some(sound) =>
      if sound.soundType == Wave then
        var path := OutputPath(mode, ResolveName(bank, i, sound));
        if ExportFile(bank, mode, i, sound, mem, path !in unwritable).Success? then Exported else Failed
      else Skipped
  }

  /** One counter step. */
  function Count(t: Tally, o: Outcome): Tally {
    match o
    case Exported => t.(exported := t.exported + 1)
    case Skipped => t.(skipped := t.skipped + 1)
    case Failed => t.(failed := t.failed + 1)
  }

  /** The counters after the first n sounds. */
  function TallyOf(bank: Bank, mode: Mode, mem: Allocator, unwritable: set<string>, n: nat): (t: Tally)
    requires n <= |bank.sounds| < U32_LIMIT
    ensures t.exported + t.skipped + t.failed == n
  {
    if n == 0 then Tally(0, 0, 0)
    else Count(TallyOf(bank, mode, mem, unwritable, n - 1), ItemOutcome(bank, mode, mem, unwritable, n - 1))
  }

  /** The path and contents of the file the batch writes for sound i, if it writes one. */
  function ItemWrite(bank: Bank, mode: Mode, mem: Allocator, unwritable: set<string>, i: nat)
    : (w: Option<(string, seq<byte>)>)
    requires i < |bank.sounds| < U32_LIMIT
    ensures w.Some? <==> ItemOutcome(bank, mode, mem, unwritable, i) == Exported
    ensures w.Some? ==> |ExportDir(mode)| <= |w.value.0| && w.value.0[..|ExportDir(mode)|] == ExportDir(mode)
  {
    match SoundGet(bank, i)
    case None => None
    case Some(sound) =>
      if sound.soundType != Wave then None
      else
        var path := OutputPath(mode, ResolveName(bank, i, sound));
        assert path[..|ExportDir(mode)|] == ExportDir(mode);
        match ExportFile(bank, mode, i, sound, mem, path !in unwritable)
        case Failure(_) => None
        case Success(file) => Some((path, file))
  }

  /** The card's files after an optional write. */
  function Applied(files: map<string, seq<byte>>, w: Option<(string, seq<byte>)>): map<string, seq<byte>> {
    match w
    case None => files
    case Some((path, file)) => files[path := file]
  }

  /** The SD card's files after the first n sounds: each exported sound's file written over what was there. */
  function FilesAfter(files: map<string, seq<byte>>, bank: Bank, mode: Mode, mem: Allocator,
                      unwritable: set<string>, n: nat): (r: map<string, seq<byte>>)
    requires n <= |bank.sounds| < U32_LIMIT
    ensures files.Keys <= r.Keys
  {
    if n == 0 then files
    else Applied(FilesAfter(files, bank, mode, mem, unwritable, n - 1), ItemWrite(bank, mode, mem, unwritable, n - 1))
  }

  /** One iteration of the batch loop: exports sound i if it is a Wave and says how it was counted. */
  method ExportOne(bank: Bank, mode: Mode, mem: Allocator, card: SdCard, i: u32) returns (o: Outcome)
    requires i < |bank.sounds| < U32_LIMIT
    modifies card
    ensures o == ItemOutcome(bank, mode, mem, card.unwritable, i)
    ensures card.files == Applied(old(card.files), ItemWrite(bank, mode, mem, card.unwritable, i))
  {
    var soundInfo := SoundGet(bank, i);
    if soundInfo.None? {
      return Failed;
    }
    var sound := soundInfo.value;
    var name := ResolveName(bank, i, sound);
    match sound.soundType {
      case Wave =>
        var rc;
        if mode == Decoded {
          rc := ExportSound(bank, i, name, sound, mem, card);
        } else {
          rc := ExportRawBfwav(bank, i, name, sound, mem, card);
        }
        o := if rc == 0 then Exported else Failed;
      case Stream =>
        o := Skipped;
      case Sequence =>
        o := Skipped;
      case UnknownType(_) =>
        o := Skipped;
    }
  }

  /** exportAll (mode Decoded) and exportAllRaw (mode Raw). */
  method ExportBatch(bank: Bank, mode: Mode, mem: Allocator, card: SdCard)
    returns (exported: nat, skipped: nat, failed: nat)
    requires |bank.sounds| < U32_LIMIT
    modifies card
    ensures Tally(exported, skipped, failed) == TallyOf(bank, mode, mem, card.unwritable, |bank.sounds|)
    ensures card.files == FilesAfter(old(card.files), bank, mode, mem, card.unwritable, |bank.sounds|)
  {
    var total := SoundCount(bank);
    exported, skipped, failed := 0, 0, 0;
    var i: u32 := 0;
    while i < total
      invariant i <= total
      invariant Tally(exported, skipped, failed) == TallyOf(bank, mode, mem, card.unwritable, i)
      invariant card.files == FilesAfter(old(card.files), bank, mode, mem, card.unwritable, i)
    {
      var o := ExportOne(bank, mode, mem, card, i);
      match o {
        case Exported => exported := exported + 1;
        case Skipped => skipped := skipped + 1;
        case Failed => failed := failed + 1;
      }
      i := i + 1;
    }
  }
}
/** What the batch drivers promise, stated on TallyOf and FilesAfter. */
module BatchProperties {
  import opened Wrappers
  import opened Bytes
  import opened WavHeader
  import opened Pulsar
  import opened Storage
  import opened Export
  import opened ExportProperties
  import opened Batch

  /** Sounds whose info can be read and whose type is not Wave (Stream, Sequence or unknown). */
  function NonWaveCount(sounds: seq<Option<SoundInfo>>): nat {
    if sounds == [] then 0
    else
      var last := sounds[|sounds| - 1];
      NonWaveCount(sounds[..|sounds| - 1]) + (if last.Some? && last.value.soundType != Wave then 1 else 0)
  }

  /** Sounds whose info cannot be read. */
  function LookupFailureCount(sounds: seq<Option<SoundInfo>>): nat {
    if sounds == [] then 0
    else LookupFailureCount(sounds[..|sounds| - 1]) + (if sounds[|sounds| - 1].None? then 1 else 0)
  }

  /** The counters after the whole batch add up to the sound count and so never wrap in u32. */
  lemma BatchTotals(bank: Bank, mode: Mode, mem: Allocator, unwritable: set<string>)
    requires |bank.sounds| < U32_LIMIT
    ensures var t := TallyOf(bank, mode, mem, unwritable, |bank.sounds|);
      && t.exported + t.skipped + t.failed == SoundCount(bank)
      && t.exported < U32_LIMIT && t.skipped < U32_LIMIT && t.failed < U32_LIMIT
  {
  }

  /** skipped counts exactly the readable entries that are Stream, Sequence or of unknown type. */
  lemma {:induction false} SkippedAreNonWave(bank: Bank, mode: Mode, mem: Allocator, unwritable: set<string>, n: nat)
    requires n <= |bank.sounds| < U32_LIMIT
    ensures TallyOf(bank, mode, mem, unwritable, n).skipped == NonWaveCount(bank.sounds[..n])
  {
    if n > 0 {
      SkippedAreNonWave(bank, mode, mem, unwritable, n - 1);
      assert bank.sounds[..n][..n - 1] == bank.sounds[..n - 1];
    }
  }

  /** Every sound whose info cannot be read is counted as failed, never skipped. */
  lemma {:induction false} LookupFailuresFail(bank: Bank, mode: Mode, mem: Allocator, unwritable: set<string>, n: nat)
    requires n <= |bank.sounds| < U32_LIMIT
    ensures TallyOf(bank, mode, mem, unwritable, n).failed >= LookupFailureCount(bank.sounds[..n])
  {
    if n > 0 {
      LookupFailuresFail(bank, mode, mem, unwritable, n - 1);
      assert bank.sounds[..n][..n - 1] == bank.sounds[..n - 1];
    }
  }

  /** With no wave archive nothing is exported: every entry that is not skipped fails. */
  lemma {:induction false} NoArchiveNothingExported(bank: Bank, mode: Mode, mem: Allocator, unwritable: set<string>, n: nat)
    requires n <= |bank.sounds| < U32_LIMIT
    requires bank.archive0 == NoArchive
    ensures var t := TallyOf(bank, mode, mem, unwritable, n);
      t.exported == 0 && t.failed == n - t.skipped
  {
    if n > 0 {
      NoArchiveNothingExported(bank, mode, mem, unwritable, n - 1);
      match SoundGet(bank, n - 1)
      case None =>
      case Some(sound) =>
        if sound.soundType == Wave {
          NoArchiveRefused(bank, n - 1, sound, mem, true);
          NoArchiveRefused(bank, n - 1, sound, mem, false);
        }
    }
  }

  /** In a decoded batch a DSP-ADPCM wave counts as failed, not as skipped. */
  lemma AdpcmCountsAsFailed(bank: Bank, mem: Allocator, unwritable: set<string>, i: nat)
    requires i < |bank.sounds| < U32_LIMIT
    requires bank.sounds[i].Some? && OpenWave(bank, bank.sounds[i].value).Success?
    requires OpenWave(bank, bank.sounds[i].value).value.1.format == DspAdpcm
    ensures ItemOutcome(bank, Decoded, mem, unwritable, i) == Failed
  {
    AdpcmNeverDecoded(bank, i, bank.sounds[i].value, mem, true);
    AdpcmNeverDecoded(bank, i, bank.sounds[i].value, mem, false);
  }

  /** Every file the batch writes is in its export directory: files elsewhere on the card are untouched. */
  lemma {:induction false} BatchWritesOnlyExportDir(files: map<string, seq<byte>>, bank: Bank, mode: Mode,
                                                    mem: Allocator, unwritable: set<string>, n: nat, p: string)
    requires n <= |bank.sounds| < U32_LIMIT
    requires !(|ExportDir(mode)| <= |p| && p[..|ExportDir(mode)|] == ExportDir(mode))
    ensures p in FilesAfter(files, bank, mode, mem, unwritable, n) <==> p in files
    ensures p in files ==> FilesAfter(files, bank, mode, mem, unwritable, n)[p] == files[p]
  {
    if n > 0 {
      BatchWritesOnlyExportDir(files, bank, mode, mem, unwritable, n - 1, p);
    }
  }
}
