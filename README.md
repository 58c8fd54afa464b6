# Switch audio extractor: export pipeline model

This project models the export pipeline of the Switch BFSAR audio extractor (`source/main.c`).
It proves properties of that model in Dafny. The tool opens the `qlaunch` sound bank (BFSAR).
It then walks the bank's sound table and exports every Wave entry in one of two ways:

- **Decoded** (`exportAll` → `exportSound`): writes a `.wav` file. A 44-byte canonical RIFF/WAVE
  PCM header is synthesised from the embedded wave's metadata. The channels' sample bytes follow,
  one whole channel after another (planar).
- **Raw** (`exportAllRaw` → `exportRawBFWAV`): writes a `.bfwav` file. It is a verbatim copy of
  the embedded wave's byte range inside the wave archive.

Each batch counts every sound as exported, skipped or failed. A sound's file name is its
string-table name or, failing that, `sound_%03u`.

Modules:

- `Bytes`: byte, `u16`, `u32`, C truncation (`ToU16`, `ToU32`) and little-endian encoding.
- `WavHeader`: the format gate, the header arithmetic (C wrap-around written out), the packed
  44-byte layout, and a parser for it.
- `Pulsar`: the pulsar archive library as oracles. Each call is a look-up in data that says what
  the call returns, or `None` when it fails.
- `Storage`: the SD card as a class whose `files` map is changed by `fopen`/`fwrite`, and the set
  of allocations `malloc` refuses.
- `Naming`: `sound_%03u` and the name fallback.
- `Export`: specification functions `DecodedFile` and `RawFile`, and the imperative methods
  `ExportSound`, `WriteChannels` and `ExportRawBfwav` proved against them.
- `ExportProperties`: lemmas about the export jobs.
- `Batch`: `ExportBatch` with `TallyOf`/`FilesAfter` specifying it.
- `BatchProperties`: lemmas about the batch.

Three behaviours of `main.c` are modelled as written:

- An ADPCM wave in a decoded batch is counted as **failed**, not skipped. `exportSound` returns
  -1 and the loop increments `failed` (`AdpcmCountsAsFailed`).
- A name is resolved only after the sound's info was read. A sound whose info cannot be read is
  counted as failed before any name is built.
- The payload is planar (channel 0's block, then channel 1's, ...) even though WAVE players expect
  interleaved samples. A channel whose info, buffer or read fails adds nothing, so the body can be
  shorter than the header's `dataSize`. Both are reproduced as written, not corrected.

## Model

| member | source | states |
|---|---|---|
| `Bytes.ToU16` | Switch-Audio-Extractor/source/main.c:94 | assigning to a u16 keeps the value modulo 2^16, unchanged when it fits |
| `Bytes.ToU32` | Switch-Audio-Extractor/source/main.c:99 | unsigned 32-bit arithmetic keeps the value modulo 2^32, unchanged when it fits |
| `WavHeader.BitsPerSample` | Switch-Audio-Extractor/source/main.c:85-93 | the gate refuses exactly DSP-ADPCM; PCM-16 gives 16 bits and every other accepted format 8 |
| `WavHeader.NumChannels` | Switch-Audio-Extractor/source/main.c:94 | the channel count stored in the u16 local: equal to it modulo 2^16, unchanged when it fits |
| `WavHeader.ChannelDataSize` | Switch-Audio-Extractor/source/main.c:138 | the per-channel read size sampleCount x bytesPerSample, modulo 2^32, unchanged when it fits |
| `WavHeader.MakeHeader` | Switch-Audio-Extractor/source/main.c:93-115 | no header exactly for DSP-ADPCM; otherwise bits per the gate, channel count truncated to u16, the wave's sample rate |
| `WavHeader.MakeHeaderCanonical` | Switch-Audio-Extractor/source/main.c:97-115 | without wrap-around: fmtSize 16, format 1, blockAlign = channels x bytesPerSample, byteRate = sampleRate x blockAlign, dataSize = sampleCount x channels x bytesPerSample, fileSize = dataSize + 36 |
| `WavHeader.Serialize` | Switch-Audio-Extractor/source/main.c:25-39 | the packed header is exactly 44 bytes |
| `WavHeader.SerializeLayout` | Switch-Audio-Extractor/source/main.c:25-39 | tags and little-endian fields sit at the canonical RIFF/WAVE offsets 0, 4, 8, 12, 16, 20, 22, 24, 28, 32, 34, 36, 40 |
| `WavHeader.ParseSerialize` | Switch-Audio-Extractor/source/main.c:102-115 | parsing a serialised header gives back every field |
| `WavHeader.SerializeParse` | Switch-Audio-Extractor/source/main.c:25-39 | any bytes that parse begin with the serialisation of the parsed header |
| `WavHeader.HeaderRecoversWave` | Switch-Audio-Extractor/source/main.c:93-115 | reading back the written header recovers channels, sample rate, bits and dataSize = sampleCount x channels x bytesPerSample, when nothing wraps |
| `Naming.Digits` | Switch-Audio-Extractor/source/main.c:396 | decimal digits of the index: one digit exactly below 10, at most two exactly below 100 |
| `Naming.ZeroPadded` | Switch-Audio-Extractor/source/main.c:396 | `%03u`: digits only, length max(3, number of digits) |
| `Naming.FallbackNameRoundTrip` | Switch-Audio-Extractor/source/main.c:394-400 | the fallback name is `sound_` and at least 3 digits (exactly 3 below 1000) that decode back to the index |
| `Naming.FallbackNameInjective` | Switch-Audio-Extractor/source/main.c:329-335 | two sounds never get the same fallback name |
| `Naming.FallbackNameSeven` | Switch-Audio-Extractor/source/main.c:399 | sound 7 without a name becomes `sound_007` |
| `Naming.ResolveName` | Switch-Audio-Extractor/source/main.c:394-400 | the string-table name when there is a string index and the look-up succeeds, the fallback name otherwise |
| `Export.Locate` | Switch-Audio-Extractor/source/main.c:41-66 | non-Wave entries fail first; success exactly when wave archive 0 opens and has the wave index |
| `Export.OpenWave` | Switch-Audio-Extractor/source/main.c:68-83 | a look-up failure is passed on; success exactly when the look-up, opening the wave at the file's offset and reading its info all succeed, giving that wave and its info |
| `Export.DecodedFile` | Switch-Audio-Extractor/source/main.c:41-146 | errors of the look-up and wave opening are passed on; DSP-ADPCM is refused exactly when the wave opened with that format; success exactly when the wave opened in an accepted format and the file could be created; a written file is at least 44 bytes |
| `Export.RawFile` | Switch-Audio-Extractor/source/main.c:245-299 | a look-up error is passed on; creation is attempted only after look-up, allocation and an in-bounds read succeeded; a written file is `size` bytes long |
| `Export.ChannelBlock` | Switch-Audio-Extractor/source/main.c:133-145 | a channel contributes exactly its block size in bytes when its info, buffer and read all succeed, and nothing otherwise |
| `Export.Planar` | Switch-Audio-Extractor/source/main.c:131-146 | the body after n channel iterations holds at most n blocks' worth of bytes |
| `Export.WriteChannel` | Switch-Audio-Extractor/source/main.c:133-145 | one loop iteration appends `ChannelBlock` to the open file and changes nothing else |
| `Export.WriteChannels` | Switch-Audio-Extractor/source/main.c:131-146 | the loop appends `Planar(...)` (the channel blocks in ascending order) to the open file and changes nothing else |
| `Export.ExportSound` | Switch-Audio-Extractor/source/main.c:41-153 | returns 0 or -1; 0 exactly when `DecodedFile` succeeds, and then the `.wav` file holds that content; on -1 no file changes |
| `Export.ExportRawBfwav` | Switch-Audio-Extractor/source/main.c:245-305 | returns 0 or -1; 0 exactly when `RawFile` succeeds, and then the `.bfwav` file holds that content; on -1 no file changes |
| `ExportProperties.PlanarLength` | Switch-Audio-Extractor/source/main.c:132-146 | the body has at most one block per channel, exactly one per channel when every channel is read, and (non-empty blocks) only then |
| `ExportProperties.PlanarPrefix` | Switch-Audio-Extractor/source/main.c:131-146 | the loop only appends: the body after m channels is a prefix of the body after n >= m channels |
| `ExportProperties.PlanarBlock` | Switch-Audio-Extractor/source/main.c:131-146 | channel c's block sits in the body right after the blocks of channels 0..c-1 |
| `ExportProperties.PlanarBlockAt` | Switch-Audio-Extractor/source/main.c:138-142 | with every channel read, bytes c x size .. (c+1) x size of the body are channel c's samples read at its data offset: planar, ascending |
| `ExportProperties.DecodedFileShape` | Switch-Audio-Extractor/source/main.c:117-146 | a decoded file exists only for a Wave entry in an accepted format; it is the header, which parses back, followed by exactly the planar body `Planar(...)` of at most channels x blockSize bytes |
| `ExportProperties.DecodedFileHeader` | Switch-Audio-Extractor/source/main.c:98-115 | without wrap-around the written header declares dataSize = sampleCount x channels x bytesPerSample and fileSize = dataSize + 36 |
| `ExportProperties.DecodedFileBodySize` | Switch-Audio-Extractor/source/main.c:131-146 | without wrap-around the file is at most 44 + dataSize bytes, exactly that when every channel is read |
| `ExportProperties.HeaderBlockSize` | Switch-Audio-Extractor/source/main.c:99-138 | without wrap-around dataSize = channels x channelDataSize |
| `ExportProperties.MonoPcm16File` | Switch-Audio-Extractor/source/main.c:93-146 | a mono PCM-16 wave of N samples whose channel is read, when 2N fits in u32, gives a 44 + 2N byte file declaring 2N data bytes |
| `ExportProperties.AdpcmNeverDecoded` | Switch-Audio-Extractor/source/main.c:85-91 | a DSP-ADPCM wave always fails the decoded export, whether or not its file could be created |
| `ExportProperties.RawFileIsByteRange` | Switch-Audio-Extractor/source/main.c:266-299 | raw export succeeds exactly when look-up, allocation, read and creation succeed; the file is exactly `size` bytes from `offset` of the wave archive |
| `ExportProperties.AdpcmStillExportsRaw` | Switch-Audio-Extractor/source/main.c:245-305 | a DSP-ADPCM wave that cannot be decoded is still copied raw when its bytes can be read |
| `ExportProperties.NonWaveRefused` | Switch-Audio-Extractor/source/main.c:42-44 | both jobs refuse every non-Wave entry before any archive is opened |
| `ExportProperties.NoArchiveRefused` | Switch-Audio-Extractor/source/main.c:47-51 | without wave archive 0 every Wave entry fails in both jobs |
| `Batch.ItemOutcome` | Switch-Audio-Extractor/source/main.c:385-427 | a sound whose info cannot be read is failed; skipped exactly for readable non-Wave entries; exported exactly for a readable Wave entry whose export job succeeds |
| `Batch.ItemWrite` | Switch-Audio-Extractor/source/main.c:402-410 | a sound writes a file exactly when it is counted as exported, and every written path begins with the export directory's prefix |
| `Batch.FilesAfter` | Switch-Audio-Extractor/source/main.c:384-428 | the batch never removes a file from the card |
| `Batch.ExportOne` | Switch-Audio-Extractor/source/main.c:385-427 | one loop iteration counts the sound as `ItemOutcome` says and writes only the file `ItemWrite` names |
| `Batch.ExportBatch` | Switch-Audio-Extractor/source/main.c:373-435 | the counters equal `TallyOf` over all sounds and the card holds `FilesAfter` (each exported sound's file, later writes winning) |
| `Batch.TallyOf` | Switch-Audio-Extractor/source/main.c:384-428 | each sound moves exactly one counter: exported + skipped + failed = number of sounds processed |
| `BatchProperties.BatchTotals` | Switch-Audio-Extractor/source/main.c:308-370 | after the batch the counters add up to the sound count, so none wraps |
| `BatchProperties.SkippedAreNonWave` | Switch-Audio-Extractor/source/main.c:402-427 | skipped counts exactly the readable Stream, Sequence and unknown-type entries |
| `BatchProperties.LookupFailuresFail` | Switch-Audio-Extractor/source/main.c:388-392 | failed is at least the number of sounds whose info cannot be read (each such sound is counted as failed by `ItemOutcome`) |
| `BatchProperties.NoArchiveNothingExported` | Switch-Audio-Extractor/source/main.c:338-346 | with no wave archive nothing is exported and every non-skipped sound fails |
| `BatchProperties.AdpcmCountsAsFailed` | Switch-Audio-Extractor/source/main.c:404-410 | in a decoded batch a DSP-ADPCM wave counts as failed |
| `BatchProperties.BatchWritesOnlyExportDir` | Switch-Audio-Extractor/source/main.c:118-120 | paths that do not begin with the export directory's prefix are neither created nor changed by the batch |
| `Storage.SdCard.Create` | Switch-Audio-Extractor/source/main.c:120 | `fopen(..., "wb")` creates or truncates the file unless the path is refused |
| `Storage.SdCard.Write` | Switch-Audio-Extractor/source/main.c:129 | `fwrite` appends the bytes to the file |

## Left out

- `main` (console, pad input, applet loop, ROMFS mount, opening and closing the BFSAR) is user-interface and platform lifecycle code. The bank is a parameter instead of the global `g_bfsar`.
- `detectFormat` only prints diagnostics about the first wave. Its switch calls format codes other than PCM-8, PCM-16 and DSP-ADPCM "Unknown", while the gate in `BitsPerSample` exports such codes as 8-bit PCM.
- The pulsar library's parsers are not modelled. Each call it makes is an oracle: `plsrBFSARSoundGet`, `plsrBFSARStringGet`, `plsrBFSARWaveArchiveGet`/`Open`, `plsrBFWARFileGet`, `plsrBFWAVOpenInside`, `plsrBFWAVReadInfo`, `plsrBFWAVReadChannelInfo`.
- `plsrArchiveReadAt` is modelled as succeeding exactly when the range lies inside the archive's bytes; other I/O failures of the library are not modelled.
- `printf` logging, `mkdir` (a no-op here), `fclose`, `free` and the `plsr*Close` calls have no effect on the modelled state.
- `malloc` failure is an input (`Allocator`): the set of allocation sites that fail.
- `fopen` failure is an input: the set of paths the card refuses.
- `snprintf` truncation of names and paths to 255 characters is not modelled.
- The `looping` flag of the wave metadata is not used by the export and is not modelled.
- ExportSound: `fwrite`'s return value is ignored at lines 129 and 142. The model's `SdCard.Write` always appends every byte, so a short write on a full card is not modelled. The source would still return 0 for it, and the batch would count the sound as exported.
- ExportRawBfwav: the same holds for the `fwrite` at line 299.
- ItemWrite: "in the export directory" means the path begins with the directory's text. `..` and `/` inside a string-table name are not resolved, so a name such as `../x` passes, yet a real file system places that file outside the directory.
- BatchWritesOnlyExportDir: it protects only paths that do not begin with the export directory's text, for the same reason as `ItemWrite`.
- The header is serialised little-endian, the byte order of the Switch's CPU; other hosts are not considered.
