/**
 The storage that the file system works on: a partition seen as a flat array of bytes.
 */
module Fs {
  import opened Bytes
  import opened Storage

  const BLOCK_COUNT: nat := 131_072

  datatype IoResult = Done(len: nat) | Io | Panic

  datatype MountResult = Mounted(storage: LfsStorage) | NoSpace | NotAvailable(error: MbrError)

  // ---- Blocks and bytes -----------------------------------------------------------------------------------------

  function Flat(blocks: seq<Block>): (bytes: seq<Byte>)
    ensures |bytes| == 512 * |blocks|
  {
    seq(512 * |blocks|, i requires 0 <= i < 512 * |blocks| => blocks[i / 512][i % 512])
  }

  lemma FlatNext(blocks: seq<Block>, b: nat, from: nat)
    requires b < |blocks| && from <= 512 * b
    ensures Flat(blocks)[from..512 * b + 512] == Flat(blocks)[from..512 * b] + blocks[b]
  {
  }

  function Chunk(data: seq<Byte>, k: nat): Block
    requires 512 * k + 512 <= |data|
  {
    data[512 * k..512 * k + 512]
  }

  function OverwrittenAt(blocks: seq<Block>, at: nat, data: seq<Byte>, k: nat, i: nat): Block
    requires 512 * k <= |data| && i < |blocks|
  {
    if at <= i < at + k then Chunk(data, i - at) else blocks[i]
  }

  /** The first `k` blocks of `data` in place of the blocks from `at` on. */
  function Overwrite(blocks: seq<Block>, at: nat, data: seq<Byte>, k: nat): (r: seq<Block>)
    requires 512 * k <= |data|
    ensures |r| == |blocks|
  {
    seq(|blocks|, i requires 0 <= i < |blocks| => OverwrittenAt(blocks, at, data, k, i))
  }

  predicate PrefixWritten(before: seq<Block>, after: seq<Block>, at: nat, data: seq<Byte>, k: nat) {
    512 * k <= |data| && after == Overwrite(before, at, data, k)
  }

  /** Bytes of an array replaced by others. */
  function Splice(bytes: seq<Byte>, off: nat, data: seq<Byte>): (r: seq<Byte>)
    requires off + |data| <= |bytes|
    ensures |r| == |bytes|
  {
    bytes[..off] + data + bytes[off + |data|..]
  }

  lemma OverwriteNext(blocks: seq<Block>, at: nat, data: seq<Byte>, k: nat)
    requires 512 * k + 512 <= |data| && at + k < |blocks|
    ensures Overwrite(blocks, at, data, k)[at + k := Chunk(data, k)] == Overwrite(blocks, at, data, k + 1)
  {
  }

  lemma FlatAt(blocks: seq<Block>, b: nat, o: nat)
    requires b < |blocks| && o < 512
    ensures Flat(blocks)[512 * b + o] == blocks[b][o]
  {
    assert (512 * b + o) / 512 == b && (512 * b + o) % 512 == o;
  }

  lemma SpliceAt(bytes: seq<Byte>, off: nat, data: seq<Byte>, i: nat)
    requires off + |data| <= |bytes| && i < |bytes|
    ensures Splice(bytes, off, data)[i] == if off <= i < off + |data| then data[i - off] else bytes[i]
  {
  }

  lemma OverwrittenByte(blocks: seq<Block>, at: nat, data: seq<Byte>, n: nat, i: nat, o: nat)
    requires |data| == 512 * n && i < |blocks| && o < 512
    ensures OverwrittenAt(blocks, at, data, n, i)[o]
            == if at <= i < at + n then data[512 * (i - at) + o] else blocks[i][o]
  {
  }

  /** Overwriting blocks of an extent splices the data into its bytes. */
  lemma OverwriteIsSplice(blocks: seq<Block>, start: nat, sectors: nat, lba: nat, data: seq<Byte>)
    requires start + sectors <= |blocks| && |data| % 512 == 0 && 512 * lba + |data| <= 512 * sectors
    ensures Flat(Extent(Overwrite(blocks, start + lba, data, |data| / 512), start, sectors))
            == Splice(Flat(Extent(blocks, start, sectors)), 512 * lba, data)
  {
    var n := |data| / 512;
    var after := Overwrite(blocks, start + lba, data, n);
    var was, now := Flat(Extent(blocks, start, sectors)), Flat(Extent(after, start, sectors));
    forall i | 0 <= i < 512 * sectors ensures now[i] == Splice(was, 512 * lba, data)[i] {
      var b, o := i / 512, i % 512;
      FlatAt(Extent(blocks, start, sectors), b, o);
      FlatAt(Extent(after, start, sectors), b, o);
      OverwrittenByte(blocks, start + lba, data, n, start + b, o);
      SpliceAt(was, 512 * lba, data, i);
    }
  }

  /** What a later read of the spliced bytes finds. */
  lemma SpliceReads(bytes: seq<Byte>, off: nat, data: seq<Byte>, at: nat, len: nat)
    requires off + |data| <= |bytes| && at + len <= |bytes|
    ensures at == off && len == |data| ==> Splice(bytes, off, data)[at..at + len] == data
    ensures at + len <= off || off + |data| <= at ==> Splice(bytes, off, data)[at..at + len] == bytes[at..at + len]
  {
  }

  method CopyFromSlice(buf: array<Byte>, at: nat, block: Block)
    requires at + 512 <= buf.Length
    modifies buf
    ensures buf[..at + 512] == old(buf[..at]) + block
  {
    forall i | 0 <= i < 512 {
      buf[at + i] := block[i];
    }
  }

  // ---- The storage ----------------------------------------------------------------------------------------------

  class LfsStorage {
    const part: PartitionRef

    constructor (part: PartitionRef)
      ensures this.part == part
    {
      this.part := part;
    }

    /** The extent lies inside the device. */
    predicate Inside()
      reads part.raw
    {
      part.start + part.sectors <= |part.raw.blocks|
    }

    function View(): (bytes: seq<Byte>)
      requires Inside()
      reads part.raw
      ensures |bytes| == 512 * part.sectors
    {
      Flat(Extent(part.raw.blocks, part.start, part.sectors))
    }

    /**
     Fills the buffer chunk by chunk from a block of the extent. Copying into a last chunk shorter than a block panics.
     */
    method ReadChunks(first: nat, buf: array<Byte>) returns (r: IoResult)
      requires Inside()
      modifies buf
      ensures r.Done? ==> r.len == buf.Length && buf.Length % 512 == 0
      ensures r.Done? && buf.Length > 0 ==>
                512 * first + buf.Length <= |View()| && buf[..] == View()[512 * first..512 * first + buf.Length]
      ensures part.raw.healthy ==>
                (r.Done? <==> buf.Length % 512 == 0 && (buf.Length == 0 || 512 * first + buf.Length <= |View()|))
    {
      var lba, at := first, 0;
      ghost var extent := Extent(part.raw.blocks, part.start, part.sectors);
      while at < buf.Length
        invariant 0 <= at <= buf.Length && at == 512 * (lba - first)
        invariant at > 0 ==> lba <= |extent| && buf[..at] == Flat(extent)[512 * first..512 * lba]
      {
        var block := part.ReadBlock(lba);
        if block.Err? {
          return Io;
        }
        if buf.Length - at < 512 {
          return Panic;
        }
        CopyFromSlice(buf, at, block.value);
        FlatNext(extent, lba, 512 * first);
        lba, at := lba + 1, at + 512;
      }
      r := Done(buf.Length);
    }

    /** Reads from the block that holds offset `off`. */
    method Read(off: nat, buf: array<Byte>) returns (r: IoResult)
      requires Inside()
      modifies buf
      ensures r.Done? ==> r.len == buf.Length && buf.Length % 512 == 0
      ensures r.Done? && buf.Length > 0 ==>
                var base := 512 * (off / 512);
                base + buf.Length <= |View()| && buf[..] == View()[base..base + buf.Length]
      ensures part.raw.healthy ==>
                (r.Done? <==> buf.Length % 512 == 0 && (buf.Length == 0 || 512 * (off / 512) + buf.Length <= |View()|))
    {
      r := ReadChunks(off / 512, buf);
    }

    /**
     Writes chunk by chunk from the block that holds offset `off`. Copying from a last chunk shorter than a block
     panics.
     */
    method WriteChunks(off: nat, data: seq<Byte>) returns (r: IoResult, ghost written: nat)
      requires Inside()
      modifies part.raw
      ensures Inside() && (r.Done? || r.Io? || r.Panic?)
      ensures PrefixWritten(old(part.raw.blocks), part.raw.blocks, part.start + off / 512, data, written)
      ensures written > 0 ==> off / 512 + written <= part.sectors
      ensures !r.Io? ==> written == |data| / 512 && (r.Done? <==> |data| % 512 == 0)
      ensures part.raw.healthy && r.Io? ==> data != [] && 512 * (off / 512) + |data| > 512 * part.sectors
    {
      ghost var before := part.raw.blocks;
      ghost var first := part.start + off / 512;
      var lba, at := off / 512, 0;
      written := 0;
      while at < |data|
        invariant 0 <= at <= |data| && at == 512 * written && lba == off / 512 + written
        invariant written > 0 ==> lba <= part.sectors
        invariant PrefixWritten(before, part.raw.blocks, first, data, written)
        decreases |data| - at
      {
        if |data| - at < 512 {
          r := Panic;
          return;
        }
        assert Chunk(data, written) == data[at..at + 512];
        var w := part.WriteBlock(data[at..at + 512], lba);
        if lba < part.sectors {
          OverwriteNext(before, first, data, written);
          if !PrefixWritten(before, part.raw.blocks, first, data, written) || w.Ok? {
            written := written + 1;
          }
        }
        if w.Err? {
          r := Io;
          return;
        }
        lba, at := lba + 1, at + 512;
      }
      r := Done(|data|);
    }

    method Write(off: nat, data: seq<Byte>) returns (r: IoResult, ghost written: nat)
      requires Inside()
      modifies part.raw
      ensures Inside()
      ensures r.Done? ==> r.len == |data| && |data| % 512 == 0
      ensures r.Done? && data != [] ==>
                512 * (off / 512) + |data| <= |View()| && View() == Splice(old(View()), 512 * (off / 512), data)
      ensures PrefixWritten(old(part.raw.blocks), part.raw.blocks, part.start + off / 512, data, written)
      ensures !r.Io? ==> written == |data| / 512
      ensures forall i :: 0 <= i < |old(part.raw.blocks)| && !(part.start <= i < part.start + part.sectors) ==>
                part.raw.blocks[i] == old(part.raw.blocks)[i]
      ensures part.raw.healthy ==>
                (r.Done? <==> |data| % 512 == 0 && (data == [] || 512 * (off / 512) + |data| <= |View()|))
    {
      r, written := WriteChunks(off, data);
      if !r.Done? {
        return;
      }
      if data != [] {
        OverwriteIsSplice(old(part.raw.blocks), part.start, part.sectors, off / 512, data);
      }
      var f := part.Flush();
      r := if f.Err? then Io else Done(|data|);
    }
  }

  /** `mount` refuses a partition smaller than the hardcoded file system size. */
  method Mount(part: PartitionRef) returns (r: MountResult)
    ensures r.Mounted? <==> part.sectors >= BLOCK_COUNT
    ensures r.Mounted? ==> r.storage.part == part
    ensures !r.Mounted? ==> r == NoSpace
  {
    if part.sectors < BLOCK_COUNT {
      return NoSpace;
    }
    var s := new LfsStorage(part);
    r := Mounted(s);
  }

  /**
   Opening a device, taking a partition and mounting it gives a storage on which no access below the file system's size
   can leave the extent or the device, and whose extent keeps clear of block 0.
   */
  method OpenAndMount(raw: Device, part: nat) returns (r: MountResult)
    ensures r.Mounted? ==>
              var p := r.storage.part;
              p.raw == raw && 0 < p.start && BLOCK_COUNT <= p.sectors && p.start + p.sectors < |raw.blocks|
    ensures r.NoSpace? ==>
              |raw.blocks| > 0 && part < ENTRIES && ParseMbr(raw.blocks[0], |raw.blocks|).Ok?
              && ParseMbr(raw.blocks[0], |raw.blocks|).value[part].sectors < BLOCK_COUNT
  {
    var device := MbrDevice.Open(raw);
    if device.Err? {
      return NotAvailable(device.error);
    }
    var p := device.value.Partition(part);
    if p.Err? {
      return NotAvailable(p.error);
    }
    assert device.value.table[part] in device.value.table;
    r := Mount(p.value);
  }
}
