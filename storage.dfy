/**
 * The exporter's environment: the SD card it writes files to, and which heap
 * allocations fail. Both are inputs; neither is under the exporter's control.
 */
module Storage {
  import opened Bytes

  /** The SD card: the contents of every file, and the paths fopen refuses to create. */
  class SdCard {
    var files: map<string, seq<byte>>
    const unwritable: set<string>

    constructor (files0: map<string, seq<byte>>, unwritable0: set<string>)
      ensures files == files0 && unwritable == unwritable0
    {
      files := files0;
      unwritable := unwritable0;
    }

    /** fopen(path, "wb"): creates the file or truncates it, unless the path is refused. */
    method Create(path: string) returns (ok: bool)
      modifies this
      ensures ok == (path !in unwritable)
      ensures files == if ok then old(files)[path := []] else old(files)
    {
      ok := path !in unwritable;
      if ok {
        files := files[path := []];
      }
    }

    /** fwrite to a file created by Create: appends the bytes. */
    method Write(path: string, bytes: seq<byte>)
      requires path in files
      modifies this
      ensures files == old(files)[path := old(files)[path] + bytes]
    {
      files := files[path := files[path] + bytes];
    }
  }

  /** The buffers the exporter allocates: one per raw export, one per channel of a decoded export. */
  datatype AllocSite = RawBuffer(sound: nat) | ChannelBuffer(sound: nat, channel: nat)

  /** Which allocations malloc refuses. */
  datatype Allocator = Allocator(failing: set<AllocSite>)

  /** malloc succeeds (returns a non-null buffer) at this site. */
  predicate Allocates(mem: Allocator, site: AllocSite) {
    site !in mem.failing
  }
}
