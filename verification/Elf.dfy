/**
 From an ELF file to the application bytes of a boot image: which sections and segments are taken, and where they go.
 */
module Elf {
  import opened Bytes
  import opened Wrappers
  import Dcd
  import Image

  const OCRAM_START: int := 0x0090_0000
  const OCRAM_SIZE: int := 128 * 1024
  const DRAM_SIZE: int := 512 * 1024 * 1024

  /**
   The code goes over the sections and then over the segments; here they may come in any order. `named` is for ".text",
   ".rodata" and ".start"; `plain` is for a segment whose data can be read and has no structure of its own.
   */
  datatype Part =
    | Section(named: bool, address: nat, size: nat, data: seq<Byte>)
    | Segment(load: bool, virt: nat, address: nat, size: nat, plain: bool, data: seq<Byte>)

  /** The section ".symtab": absent, not readable, of another kind, or symbols, some of them named "_start". */
  datatype Symtab = Missing | Unreadable | Other | Table(symbols: seq<(bool, Word32)>)

  datatype Outcome = Made(image: Image.Image) | NoSymtab | BadSymtab | NoStart | Panic

  predicate InDram(a: Word32) {
    Image.DRAM_START <= a < Image.DRAM_START + DRAM_SIZE
  }

  predicate InOcram(a: Word32) {
    OCRAM_START <= a < OCRAM_START + OCRAM_SIZE
  }

  /** `as u32` */
  function Truncated(x: nat): (w: Word32)
    ensures x < U32 ==> w == x
    ensures w <= x
  {
    x % U32
  }

  /** Where a part goes. */
  function Address(p: Part): Word32 {
    Truncated(p.address)
  }

  predicate Selected(p: Part) {
    && InDram(Address(p))
    && match p
       case Section(named, _, _, _) => named
       case Segment(load, virt, _, _, _, _) => load && InOcram(Truncated(virt))
  }

  /** Where it ends, its size in full. */
  function Limit(p: Part): int {
    Address(p) + p.size
  }

  predicate Covers(p: Part, a: int) {
    Selected(p) && Address(p) <= a < Limit(p)
  }

  // ---- What the result should hold ------------------------------------------------------------------------------

  /** The byte at an address: that of the last part that covers it, or zero. */
  function ByteAt(parts: seq<Part>, a: int): Byte
    requires forall p <- parts :: Selected(p) ==> |p.data| == p.size
  {
    if parts == [] then 0
    else
      var n := |parts| - 1;
      if Covers(parts[n], a) then parts[n].data[a - Address(parts[n])] else ByteAt(parts[..n], a)
  }

  /** A part that can be copied whole. */
  predicate Readable(p: Part) {
    |p.data| == p.size && (p.Segment? ==> p.plain)
  }

  predicate Usable(p: Part) {
    Selected(p) ==> Limit(p) < U32 && Readable(p)
  }

  /** `start` is the lowest address and `end` the highest end of the selected parts. */
  predicate IsSpan(parts: seq<Part>, start: int, end: int) {
    && (exists p <- parts :: Selected(p) && Address(p) == start)
    && (exists p <- parts :: Selected(p) && Limit(p) == end)
    && (forall p <- parts :: Selected(p) ==> start <= Address(p) && Limit(p) <= end)
  }

  /** Where no other part overlaps it, a part's bytes are at their addresses. */
  lemma {:induction false} DisjointByteAt(parts: seq<Part>, i: nat, a: int)
    requires i < |parts| && Covers(parts[i], a)
    requires forall p <- parts :: Selected(p) ==> |p.data| == p.size
    requires forall j :: 0 <= j < |parts| && j != i ==> !Covers(parts[j], a)
    ensures ByteAt(parts, a) == parts[i].data[a - Address(parts[i])]
  {
    var n := |parts| - 1;
    if i < n {
      DisjointByteAt(parts[..n], i, a);
    }
  }

  lemma {:induction false} GapIsZero(parts: seq<Part>, a: int)
    requires forall p <- parts :: Selected(p) ==> |p.data| == p.size && !Covers(p, a)
    ensures ByteAt(parts, a) == 0
  {
    if parts != [] {
      GapIsZero(parts[..|parts| - 1], a);
    }
  }

  // ---- The two passes -------------------------------------------------------------------------------------------

  /** The end of a part in 32 bits. */
  function WrappedLimit(p: Part): Word32 {
    WrappingAdd(Address(p), Truncated(p.size))
  }

  /** The first pass: the span of the selected parts, or a panic when there are none or an end overflows. */
  method FirstPass(mode: Dcd.Overflow, parts: seq<Part>) returns (ok: bool, start: Word32, end: Word32)
    ensures ok ==> exists p <- parts :: Selected(p)
    ensures ok ==> forall p <- parts :: Selected(p) ==> start <= Address(p) && WrappedLimit(p) <= end
    ensures ok && (forall p <- parts :: Usable(p)) ==> IsSpan(parts, start, end)
    ensures !ok ==> (forall p <- parts :: !Selected(p)) || exists p <- parts :: !Usable(p)
  {
    var none := true;
    start, end := 0, 0;
    for i := 0 to |parts|
      invariant none ==> forall p <- parts[..i] :: !Selected(p)
      invariant !none ==> forall p <- parts[..i] :: Selected(p) ==> start <= Address(p) && WrappedLimit(p) <= end
      invariant !none ==> exists p <- parts[..i] :: Selected(p) && Address(p) == start
      invariant !none ==> exists p <- parts[..i] :: Selected(p) && WrappedLimit(p) == end
    {
      var p := parts[i];
      assert parts[..i + 1] == parts[..i] + [p];
      if Selected(p) {
        if mode.Traps? && Address(p) + Truncated(p.size) >= U32 {
          assert p in parts && !Usable(p);
          return false, start, end;
        }
        if none || Address(p) < start {
          start := Address(p);
        }
        if none || end < WrappedLimit(p) {
          end := WrappedLimit(p);
        }
        none := false;
      }
    }
    assert parts[..|parts|] == parts;
    ok := !none;
  }

  /** The second pass fills the buffer, and panics when a part does not fit it or is longer or shorter than its data. */
  method SecondPass(parts: seq<Part>, start: Word32, app: array<Byte>) returns (ok: bool)
    requires forall p <- parts :: Selected(p) ==> start <= Address(p)
    requires forall k :: 0 <= k < app.Length ==> app[k] == 0
    modifies app
    ensures ok <==> forall p <- parts :: Selected(p) ==> Limit(p) - start <= app.Length && Readable(p)
    ensures ok ==> forall k :: 0 <= k < app.Length ==> app[k] == ByteAt(parts, start + k)
  {
    for i := 0 to |parts|
      invariant forall p <- parts[..i] :: Selected(p) ==> Limit(p) - start <= app.Length && Readable(p)
      invariant forall k :: 0 <= k < app.Length ==> app[k] == ByteAt(parts[..i], start + k)
    {
      var p := parts[i];
      assert parts[..i + 1] == parts[..i] + [p] && parts[..i + 1][..i] == parts[..i];
      if Selected(p) {
        var off := Address(p) - start;
        if off + p.size > app.Length || !Readable(p) {
          assert p in parts;
          return false;
        }
        forall k | off <= k < off + p.size {
          app[k] := p.data[k - off];
        }
      }
    }
    assert parts[..|parts|] == parts;
    ok := true;
  }

  /**
   The application bytes: they span the selected parts and hold at each address the byte of the part there. It panics
   exactly when nothing is selected or a selected part is not usable.
   */
  method Application(mode: Dcd.Overflow, parts: seq<Part>) returns (r: Option<seq<Byte>>, start: Word32)
    ensures r.Some? <==> (exists p <- parts :: Selected(p)) && forall p <- parts :: Usable(p)
    ensures r.Some? ==> IsSpan(parts, start, start + |r.value|)
    ensures r.Some? ==> forall a :: start <= a < start + |r.value| ==> r.value[a - start] == ByteAt(parts, a)
  {
    var ok, end;
    ok, start, end := FirstPass(mode, parts);
    if !ok || end < start {
      return None, start;
    }
    var app := new Byte[end - start](_ => 0);
    ok := SecondPass(parts, start, app);
    if !ok {
      return None, start;
    }
    forall p <- parts ensures Usable(p) {
    }
    r := Some(app[..]);
  }

  // ---- The entry point ------------------------------------------------------------------------------------------

  /** The value of the last symbol with the name. */
  ghost predicate IsEntry(symbols: seq<(bool, Word32)>, entry: Word32) {
    exists i :: 0 <= i < |symbols| && symbols[i] == (true, entry) && forall j :: i < j < |symbols| ==> !symbols[j].0
  }

  lemma EntryStays(symbols: seq<(bool, Word32)>, s: (bool, Word32), entry: Word32)
    requires IsEntry(symbols, entry) && !s.0
    ensures IsEntry(symbols + [s], entry)
  {
    var i :| 0 <= i < |symbols| && symbols[i] == (true, entry) && forall j :: i < j < |symbols| ==> !symbols[j].0;
    assert (symbols + [s])[i] == (true, entry);
  }

  method FindEntry(symbols: seq<(bool, Word32)>) returns (r: Option<Word32>)
    ensures r.None? <==> forall s <- symbols :: !s.0
    ensures r.Some? ==> IsEntry(symbols, r.value)
  {
    r := None;
    for i := 0 to |symbols|
      invariant r.None? <==> forall s <- symbols[..i] :: !s.0
      invariant r.Some? ==> IsEntry(symbols[..i], r.value)
    {
      assert symbols[..i + 1] == symbols[..i] + [symbols[i]];
      if symbols[i].0 {
        r := Some(symbols[i].1);
        assert symbols[..i + 1][i] == (true, r.value);
      } else if r.Some? {
        EntryStays(symbols[..i], symbols[i], r.value);
      }
    }
    assert symbols[..|symbols|] == symbols;
  }

  // ---- The image ------------------------------------------------------------------------------------------------

  /** The number of writes that initialize the external memory. */
  const DDR_WRITES: nat := 42

  /**
   The image of an ELF file. It panics for its parts alone, and before it looks at the symbols; it is an error if no
   table has the entry point, which is the last symbol of the name.
   */
  method FromElf(mode: Dcd.Overflow, parts: seq<Part>, symtab: Symtab, ddr: Option<seq<Dcd.AddressValue>>)
    returns (r: Outcome, start: Word32)
    ensures r.Panic? <==> (forall p <- parts :: !Selected(p)) || exists p <- parts :: !Usable(p)
    ensures !r.Panic? ==> (r.NoSymtab? <==> symtab.Missing?) && (r.BadSymtab? <==> symtab.Unreadable?)
    ensures !r.Panic? ==> (r.NoStart? <==> symtab.Other? || (symtab.Table? && forall s <- symtab.symbols :: !s.0))
    ensures r.Made? ==> symtab.Table? && IsEntry(symtab.symbols, r.image.entry) && r.image.dcd == ddr
    ensures r.Made? ==> IsSpan(parts, start, start + |r.image.app|)
    ensures r.Made? ==> forall a :: start <= a < start + |r.image.app| ==> r.image.app[a - start] == ByteAt(parts, a)
  {
    var app;
    app, start := Application(mode, parts);
    if app.None? {
      return Panic, start;
    }
    match symtab
    case Missing => return NoSymtab, start;
    case Unreadable => return BadSymtab, start;
    case Other => return NoStart, start;
    case Table(symbols) =>
      var entry := FindEntry(symbols);
      r := if entry.Some? then Made(Image.Image(app.value, ddr, entry.value)) else NoStart;
  }

  // ---- The loaded image -----------------------------------------------------------------------------------------

  /** The byte at an address once the ROM has put the image where its table says. */
  function Loaded(image: Image.Image, out: seq<Byte>, a: int): Byte
    requires 0 <= a - Image.MakeIvt(image).self < |out|
  {
    out[a - Image.MakeIvt(image).self]
  }

  /** The writes leave room, so such an image is written exactly when its length field passes. */
  lemma MadeIsWritable(mode: Dcd.Overflow, image: Image.Image)
    requires image.dcd.Some? ==> |image.dcd.value| == DDR_WRITES
    ensures Image.Writable(mode, image) <==> Image.FitsRom(mode, |image.app|)
  {
    Image.WritableIff(mode, image);
  }

  /** An application that starts 2048 bytes into the memory is loaded with every byte at its own address. */
  lemma {:induction false} LoadedInPlace(mode: Dcd.Overflow, image: Image.Image, parts: seq<Part>, start: int, a: int)
    requires Image.Writable(mode, image) && (image.dcd.Some? ==> |image.dcd.value| <= 8190)
    requires forall p <- parts :: Selected(p) ==> |p.data| == p.size
    requires forall b :: start <= b < start + |image.app| ==> image.app[b - start] == ByteAt(parts, b)
    requires start == 0x8000_0800 && start <= a < start + |image.app|
    ensures |Image.Encode(mode, image)| == 1024 + |image.app|
    ensures Loaded(image, Image.Encode(mode, image), a) == ByteAt(parts, a)
  {
    Image.AppFollows(mode, image);
    assert Image.Encode(mode, image)[1024..][a - start] == image.app[a - start];
  }
}
