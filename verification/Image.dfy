/**
 The boot image: image vector table, boot data and DCD in the first 1024 bytes, then the application.
 */
module Image {
  import opened Bytes
  import opened Wrappers
  import opened Parsing
  import Dcd

  const MAX_IMAGE_SIZE: int := 32 * 1024 * 1024
  const DRAM_START: int := 0x8000_0000
  const PADDING: int := 1024
  const RESERVED: int := 1024
  const ZEROS: seq<Byte> := [0, 0, 0, 0]

  datatype Ivt = Ivt(version: Byte, entry: Word32, dcd: Word32, boot: Word32, self: Word32, csf: Word32)

  datatype BootData = BootData(start: Word32, len: Word32, plugin: Word32)

  datatype Image = Image(app: seq<Byte>, dcd: Option<seq<Dcd.AddressValue>>, entry: Word32)

  datatype Read = Read(ivt: Ivt, boot: BootData, dcd: Option<Dcd.Parse>) | ParseError | Panicked

  // ---- Image vector table ---------------------------------------------------------------------------------------

  function IvtHead(ivt: Ivt): (s: seq<Byte>)
    ensures |s| == 16
  {
    [0xD1] + Be16(32) + [ivt.version] + Le32(ivt.entry) + ZEROS + Le32(ivt.dcd)
  }

  function IvtTail(ivt: Ivt): (s: seq<Byte>)
    ensures |s| == 16
  {
    Le32(ivt.boot) + Le32(ivt.self) + Le32(ivt.csf) + ZEROS
  }

  function ParseIvtHeader(s: seq<Byte>): Parsed<Byte> {
    if !Tag(s, 0, 0xD1) then Fail
    else match TakeBe16(s, 1)
         case Ok(pos, length) =>
           if length != 32 then Panic
           else if Tag(s, pos, 0x40) then Ok(pos + 1, 0x40)
           else if Tag(s, pos, 0x41) then Ok(pos + 1, 0x41)
           else Fail
         case _ => Fail
  }

  function Le32At(s: seq<Byte>, pos: nat): Word32
    requires pos + 4 <= |s|
  {
    FromLe32(s[pos..pos + 4])
  }

  function ParseIvt(s: seq<Byte>): Parsed<Ivt> {
    match ParseIvtHeader(s)
    case Ok(_, version) =>
      if !At(s, 28, ZEROS) || !At(s, 8, ZEROS) then Fail
      else Ok(32, Ivt(version, Le32At(s, 4), Le32At(s, 12), Le32At(s, 16), Le32At(s, 20), Le32At(s, 24)))
    case p => Failed(p)
  }

  lemma Le32RoundTrip(s: seq<Byte>, pos: nat, x: Word32)
    requires At(s, pos, Le32(x))
    ensures Le32At(s, pos) == x
  {
  }

  lemma IvtHeadRoundTrip(s: seq<Byte>, ivt: Ivt)
    requires At(s, 0, IvtHead(ivt)) && (ivt.version == 0x40 || ivt.version == 0x41)
    ensures ParseIvtHeader(s) == Ok(4, ivt.version)
    ensures Le32At(s, 4) == ivt.entry && At(s, 8, ZEROS) && Le32At(s, 12) == ivt.dcd
  {
    AtSplit(s, 0, [0xD1] + Be16(32) + [ivt.version] + Le32(ivt.entry) + ZEROS, Le32(ivt.dcd));
    AtSplit(s, 0, [0xD1] + Be16(32) + [ivt.version] + Le32(ivt.entry), ZEROS);
    AtSplit(s, 0, [0xD1] + Be16(32) + [ivt.version], Le32(ivt.entry));
    AtSplit(s, 0, [0xD1] + Be16(32), [ivt.version]);
    AtSplit(s, 0, [0xD1], Be16(32));
    AtFirst(s, 0, 0xD1);
    AtFirst(s, 3, ivt.version);
    Le32RoundTrip(s, 4, ivt.entry);
    Le32RoundTrip(s, 12, ivt.dcd);
  }

  lemma IvtTailRoundTrip(s: seq<Byte>, ivt: Ivt)
    requires At(s, 16, IvtTail(ivt))
    ensures Le32At(s, 16) == ivt.boot && Le32At(s, 20) == ivt.self && Le32At(s, 24) == ivt.csf && At(s, 28, ZEROS)
  {
    AtSplit(s, 16, Le32(ivt.boot) + Le32(ivt.self) + Le32(ivt.csf), ZEROS);
    AtSplit(s, 16, Le32(ivt.boot) + Le32(ivt.self), Le32(ivt.csf));
    AtSplit(s, 16, Le32(ivt.boot), Le32(ivt.self));
    Le32RoundTrip(s, 16, ivt.boot);
    Le32RoundTrip(s, 20, ivt.self);
    Le32RoundTrip(s, 24, ivt.csf);
  }

  lemma IvtRoundTrip(s: seq<Byte>, ivt: Ivt)
    requires At(s, 0, IvtHead(ivt)) && At(s, 16, IvtTail(ivt)) && (ivt.version == 0x40 || ivt.version == 0x41)
    ensures ParseIvt(s) == Ok(32, ivt)
  {
    IvtHeadRoundTrip(s, ivt);
    IvtTailRoundTrip(s, ivt);
  }

  // ---- Boot data ------------------------------------------------------------------------------------------------

  function BootBytes(b: BootData): (s: seq<Byte>)
    ensures |s| == 12
  {
    Le32(b.start) + Le32(b.len) + Le32(b.plugin)
  }

  function ParseBoot(s: seq<Byte>, pos: nat): BootData
    requires pos + 12 <= |s|
  {
    BootData(Le32At(s, pos), Le32At(s, pos + 4), Le32At(s, pos + 8))
  }

  lemma BootRoundTrip(s: seq<Byte>, pos: nat, b: BootData)
    requires At(s, pos, BootBytes(b))
    ensures ParseBoot(s, pos) == b
  {
    AtSplit(s, pos, Le32(b.start) + Le32(b.len), Le32(b.plugin));
    AtSplit(s, pos, Le32(b.start), Le32(b.len));
    Le32RoundTrip(s, pos, b.start);
    Le32RoundTrip(s, pos + 4, b.len);
    Le32RoundTrip(s, pos + 8, b.plugin);
  }

  // ---- Writing an image -----------------------------------------------------------------------------------------

  function MakeIvt(image: Image): Ivt {
    Ivt(0x40, image.entry, if image.dcd.Some? then DRAM_START + PADDING + 44 else 0, DRAM_START + PADDING + 32,
        DRAM_START + PADDING, 0)
  }

  /** The length field: the length of the application is truncated to 32 bits first. */
  function LengthField(mode: Dcd.Overflow, app: nat): Option<Word32> {
    var sum := PADDING + RESERVED + app % U32;
    if sum < U32 then Some(sum) else if mode.Traps? then None else Some(sum - U32)
  }

  predicate FitsRom(mode: Dcd.Overflow, app: nat) {
    LengthField(mode, app).Some? && LengthField(mode, app).value <= MAX_IMAGE_SIZE
  }

  function MakeBoot(mode: Dcd.Overflow, image: Image): BootData
    requires FitsRom(mode, |image.app|)
  {
    BootData(DRAM_START, LengthField(mode, |image.app|).value, 0)
  }

  /** What the DCD counts for in the reserved space. */
  function DcdSize(mode: Dcd.Overflow, image: Image): Option<nat> {
    if image.dcd.None? then Some(0)
    else match Dcd.Size(mode, |image.dcd.value|) case Some(n) => Some(n) case None => None
  }

  function DcdBytes(mode: Dcd.Overflow, image: Image): Option<seq<Byte>> {
    if image.dcd.None? then Some([]) else Dcd.Encode(mode, image.dcd.value)
  }

  function Zeros(n: nat): (s: seq<Byte>)
    ensures |s| == n
  {
    seq(n, _ => 0)
  }

  predicate Writable(mode: Dcd.Overflow, image: Image) {
    && FitsRom(mode, |image.app|) && DcdBytes(mode, image).Some?
    && DcdSize(mode, image).Some? && 44 + DcdSize(mode, image).value <= RESERVED
  }

  function Head(mode: Dcd.Overflow, image: Image): (s: seq<Byte>)
    requires FitsRom(mode, |image.app|)
    ensures |s| == 44
  {
    IvtHead(MakeIvt(image)) + IvtTail(MakeIvt(image)) + BootBytes(MakeBoot(mode, image))
  }

  function Encode(mode: Dcd.Overflow, image: Image): seq<Byte>
    requires Writable(mode, image)
  {
    Head(mode, image) + DcdBytes(mode, image).value + Zeros(RESERVED - 44 - DcdSize(mode, image).value) + image.app
  }

  /** The DCD, if there is one, and the position after it. */
  method WriteDcd(mode: Dcd.Overflow, image: Image, w: Dcd.Writer, pos: nat) returns (ok: bool, end: nat)
    modifies w
    ensures ok <==> DcdBytes(mode, image).Some? && DcdSize(mode, image).Some?
    ensures ok ==> w.bytes == old(w.bytes) + DcdBytes(mode, image).value && end == pos + DcdSize(mode, image).value
  {
    ok, end := true, pos;
    if image.dcd.Some? {
      var size := Dcd.Size(mode, |image.dcd.value|);
      if size.None? {
        ok := false;
        return;
      }
      end := pos + size.value;
      ok := Dcd.Write(mode, image.dcd.value, w);
    } else {
      assert w.bytes + [] == w.bytes;
    }
  }

  lemma Regroup(a: seq<Byte>, b: seq<Byte>, c: seq<Byte>, d: seq<Byte>, e: seq<Byte>)
    ensures a + b + c + d + e == a + (b + c + d + e)
  {
  }

  method WriteHead(mode: Dcd.Overflow, image: Image, w: Dcd.Writer) returns (pos: nat)
    requires FitsRom(mode, |image.app|)
    modifies w
    ensures w.bytes == old(w.bytes) + Head(mode, image) && pos == 44
  {
    w.WriteAll(IvtHead(MakeIvt(image)) + IvtTail(MakeIvt(image)));
    pos := 32;
    w.WriteAll(BootBytes(MakeBoot(mode, image)));
    pos := pos + 12;
  }

  method Write(mode: Dcd.Overflow, image: Image, w: Dcd.Writer) returns (ok: bool)
    modifies w
    ensures ok <==> Writable(mode, image)
    ensures ok ==> w.bytes == old(w.bytes) + Encode(mode, image)
  {
    if !FitsRom(mode, |image.app|) {
      return false;
    }
    var pos := WriteHead(mode, image, w);
    ok, pos := WriteDcd(mode, image, w, pos);
    if !ok || pos > RESERVED {
      return false;
    }
    w.WriteAll(Zeros(RESERVED - pos));
    w.WriteAll(image.app);
    Regroup(old(w.bytes), Head(mode, image), DcdBytes(mode, image).value, Zeros(RESERVED - pos), image.app);
  }

  lemma DcdFits(mode: Dcd.Overflow, image: Image)
    ensures DcdBytes(mode, image).Some? && DcdSize(mode, image).Some? && 44 + DcdSize(mode, image).value <= RESERVED
            <==> image.dcd.None? || |image.dcd.value| <= 121 || (|image.dcd.value| == 8191 && mode.Wraps?)
  {
    if image.dcd.Some? {
      Dcd.SizeOf(mode, |image.dcd.value|);
      Dcd.EncodeSome(mode, image.dcd.value);
    }
  }

  /**
   An image is written exactly when the length field passes the limit and the DCD leaves room in the reserved space: at
   most 121 writes, or 8191 of them when their size wraps to zero.
   */
  lemma WritableIff(mode: Dcd.Overflow, image: Image)
    ensures Writable(mode, image)
            <==> && FitsRom(mode, |image.app|)
                 && (image.dcd.None? || |image.dcd.value| <= 121 || (|image.dcd.value| == 8191 && mode.Wraps?))
  {
    DcdFits(mode, image);
  }

  lemma SmallMod(app: nat)
    requires app < U32
    ensures app % U32 == app
  {
  }

  /**
   The limit is on a field to which the length of the application is truncated. It is the limit on the image below the
   size at which 32 bits overflow; of larger images it lets through those whose truncated length is small enough, or so
   large that the sum wraps.
   */
  lemma FitsRomIff(mode: Dcd.Overflow, app: nat)
    ensures FitsRom(mode, app) <==>
              || app % U32 <= MAX_IMAGE_SIZE - PADDING - RESERVED
              || (mode.Wraps? && app % U32 >= U32 - PADDING - RESERVED)
    ensures (FitsRom(mode, app) <==> PADDING + RESERVED + app <= MAX_IMAGE_SIZE) <==>
              var high := if mode.Wraps? then U32 - PADDING - RESERVED else U32;
              app < high || MAX_IMAGE_SIZE - PADDING - RESERVED < app % U32 < high
  {
    if app < U32 {
      SmallMod(app);
    }
  }

  lemma SmallFits(mode: Dcd.Overflow, app: nat)
    requires PADDING + RESERVED + app <= MAX_IMAGE_SIZE
    ensures FitsRom(mode, app)
  {
    FitsRomIff(mode, app);
  }

  /** An application of 4 GiB passes for none at all, and all of it is written. */
  lemma FourGigabytesPass(mode: Dcd.Overflow, image: Image)
    requires |image.app| == U32 && image.dcd.None?
    ensures Writable(mode, image) && |Encode(mode, image)| == RESERVED + U32 > MAX_IMAGE_SIZE
    ensures MakeBoot(mode, image).len == PADDING + RESERVED
  {
    FitsRomIff(mode, U32);
    WritableIff(mode, image);
  }

  // ---- Reading an image -----------------------------------------------------------------------------------------

  function Parse(mode: Dcd.Overflow, s: seq<Byte>): Read {
    match ParseIvt(s)
    case Ok(_, ivt) =>
      if ivt.boot < ivt.self || ivt.boot - ivt.self + 12 > |s| then Panicked
      else
        var boot := ParseBoot(s, ivt.boot - ivt.self);
        if ivt.dcd == 0 then Read(ivt, boot, None)
        else if ivt.dcd < ivt.self || ivt.dcd - ivt.self > |s| then Panicked
        else (match Dcd.ParseDcd(mode, s, ivt.dcd - ivt.self)
              case Ok(_, dcd) => Read(ivt, boot, Some(dcd))
              case Fail => ParseError
              case Panic => Panicked)
    case Fail => ParseError
    case Panic => Panicked
  }

  /** Where the parts of a written image are. */
  lemma Layout(mode: Dcd.Overflow, image: Image)
    requires Writable(mode, image)
    ensures var out, d := Encode(mode, image), DcdBytes(mode, image).value;
            && At(out, 0, IvtHead(MakeIvt(image))) && At(out, 16, IvtTail(MakeIvt(image)))
            && At(out, 32, BootBytes(MakeBoot(mode, image))) && At(out, 44, d)
            && |out| == RESERVED + |d| - DcdSize(mode, image).value + |image.app|
            && out[|out| - |image.app|..] == image.app
  {
    var out := Encode(mode, image);
    var a, b, c, d := IvtHead(MakeIvt(image)), IvtTail(MakeIvt(image)), BootBytes(MakeBoot(mode, image)),
        DcdBytes(mode, image).value;
    var z := Zeros(RESERVED - 44 - DcdSize(mode, image).value);
    assert out == a + b + c + d + z + image.app;
    assert out[..] == out;
    AtSplit(out, 0, a + b + c + d + z, image.app);
    AtSplit(out, 0, a + b + c + d, z);
    AtSplit(out, 0, a + b + c, d);
    AtSplit(out, 0, a + b, c);
    AtSplit(out, 0, a, b);
  }

  lemma ParseIs(mode: Dcd.Overflow, s: seq<Byte>, image: Image)
    requires At(s, 0, IvtHead(MakeIvt(image))) && At(s, 16, IvtTail(MakeIvt(image))) && |s| >= RESERVED
    ensures image.dcd.None? ==> Parse(mode, s) == Read(MakeIvt(image), ParseBoot(s, 32), None)
    ensures image.dcd.Some? ==>
              Parse(mode, s) == match Dcd.ParseDcd(mode, s, 44)
                                case Ok(_, dcd) => Read(MakeIvt(image), ParseBoot(s, 32), Some(dcd))
                                case Fail => ParseError
                                case Panic => Panicked
  {
    IvtRoundTrip(s, MakeIvt(image));
  }

  /** What parsing an image recovers of its DCD. */
  function ParsedDcd(image: Image): Option<Dcd.Parse>
    requires image.dcd.Some? ==> |image.dcd.value| <= 121
  {
    if image.dcd.None? then None
    else
      var n := |image.dcd.value|;
      Some(Dcd.Parse(44, 8 + 8 * n, [Dcd.WriteData(Dcd.WritesHeader(n).value, image.dcd.value)]))
  }

  lemma SameEncoding(mode: Dcd.Overflow, reader: Dcd.Overflow, writes: seq<Dcd.AddressValue>)
    requires |writes| <= 8190
    ensures Dcd.Size(mode, |writes|) == Some(8 + 8 * |writes|)
    ensures Dcd.Encode(mode, writes) == Dcd.Encode(reader, writes) && Dcd.Encode(mode, writes).Some?
    ensures |Dcd.Encode(mode, writes).value| == 8 + 8 * |writes|
  {
    Dcd.SizeOf(mode, |writes|);
    Dcd.SizeOf(reader, |writes|);
    Dcd.EncodeSome(mode, writes);
  }

  lemma DcdReadBack(mode: Dcd.Overflow, s: seq<Byte>, writes: seq<Dcd.AddressValue>,
                                       reader: Dcd.Overflow, bytes: seq<Byte>)
    requires |writes| <= 121 && Dcd.Encode(mode, writes) == Some(bytes) && At(s, 44, bytes)
    ensures var n := 8 + 8 * |writes|;
            Dcd.ParseDcd(reader, s, 44)
            == Ok(44 + n, Dcd.Parse(44, n, [Dcd.WriteData(Dcd.WritesHeader(|writes|).value, writes)]))
  {
    SameEncoding(mode, reader, writes);
    Dcd.DcdRoundTrip(reader, s, 44, writes, bytes);
  }

  /** Unless the size of its DCD wraps, a written image is 1024 bytes and the application. */
  lemma AppFollows(mode: Dcd.Overflow, image: Image)
    requires Writable(mode, image) && (image.dcd.Some? ==> |image.dcd.value| <= 8190)
    ensures |Encode(mode, image)| == RESERVED + |image.app| && Encode(mode, image)[RESERVED..] == image.app
  {
    Layout(mode, image);
    if image.dcd.Some? {
      SameEncoding(mode, mode, image.dcd.value);
    }
  }

  /** Parsing what starts like a written image recovers its table and its boot data, and its DCD if that is parsed. */
  lemma ReadBack(mode: Dcd.Overflow, image: Image, reader: Dcd.Overflow, out: seq<Byte>,
                                    parse: Dcd.Parse)
    requires FitsRom(mode, |image.app|)
    requires At(out, 0, IvtHead(MakeIvt(image))) && At(out, 16, IvtTail(MakeIvt(image))) && |out| >= RESERVED
    requires At(out, 32, BootBytes(MakeBoot(mode, image)))
    requires image.dcd.Some? ==> Dcd.ParseDcd(reader, out, 44).Ok? && Dcd.ParseDcd(reader, out, 44).value == parse
    ensures Parse(reader, out)
            == Read(MakeIvt(image), MakeBoot(mode, image), if image.dcd.Some? then Some(parse) else None)
  {
    ParseIs(reader, out, image);
    BootRoundTrip(out, 32, MakeBoot(mode, image));
  }

  /**
   For every application within the size limit and every DCD of up to 8190 writes: the image is written exactly when
   there are at most 121 writes. It then has 1024 bytes and the application after them, and parsing it recovers the
   table, the boot data, the DCD with its writes, and the bytes of the DCD.
   */
  lemma ImageRoundTrip(mode: Dcd.Overflow, image: Image, reader: Dcd.Overflow)
    requires PADDING + RESERVED + |image.app| <= MAX_IMAGE_SIZE
    requires image.dcd.Some? ==> |image.dcd.value| <= 8190
    ensures Writable(mode, image) <==> image.dcd.None? || |image.dcd.value| <= 121
    ensures Writable(mode, image) ==>
              var out := Encode(mode, image);
              && |out| == RESERVED + |image.app| && out[RESERVED..] == image.app
              && Parse(reader, out) == Read(MakeIvt(image), MakeBoot(mode, image), ParsedDcd(image))
              && (image.dcd.Some? ==> At(out, 44, Dcd.Encode(mode, image.dcd.value).value))
  {
    SmallFits(mode, |image.app|);
    WritableIff(mode, image);
    if Writable(mode, image) {
      Layout(mode, image);
      AppFollows(mode, image);
      var out := Encode(mode, image);
      if image.dcd.Some? {
        DcdReadBack(mode, out, image.dcd.value, reader, DcdBytes(mode, image).value);
        ReadBack(mode, image, reader, out, ParsedDcd(image).value);
      } else {
        ReadBack(mode, image, reader, out, Dcd.Parse(0, 0, []));
      }
    }
  }

  /** With 8191 writes and wrapping arithmetic the image is written with its application displaced, and not parsed. */
  lemma WrappedImage(image: Image, reader: Dcd.Overflow)
    requires FitsRom(Dcd.Wraps, |image.app|) && image.dcd.Some? && |image.dcd.value| == 8191
    ensures Writable(Dcd.Wraps, image)
    ensures |Encode(Dcd.Wraps, image)| == RESERVED + 0x1_0000 + |image.app|
    ensures Parse(reader, Encode(Dcd.Wraps, image)) == Panicked
  {
    WritableIff(Dcd.Wraps, image);
    Dcd.SizeOf(Dcd.Wraps, 8191);
    Dcd.EncodeSome(Dcd.Wraps, image.dcd.value);
    var out := Encode(Dcd.Wraps, image);
    Layout(Dcd.Wraps, image);
    var h := Dcd.WritesHeader(8191).value;
    AtSplit(out, 44, Dcd.HeaderBytes(0), Dcd.CommandHeaderBytes(h) + Dcd.PairBytes(image.dcd.value));
    Dcd.HeaderRoundTrip(out, 44, 0);
    ParseIs(reader, out, image);
  }
}
