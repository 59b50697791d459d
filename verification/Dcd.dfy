/**
 Device Configuration Data of a boot image: the writer, the parser, and how they fit together.
 */
module Dcd {
  import opened Bytes
  import opened Parsing
  import opened Wrappers

  /** Whether arithmetic that overflows panics, as in a debug build, or wraps, as in a release build. */
  datatype Overflow = Traps | Wraps

  datatype AddressValue = AddressValue(address: Word32, value: Word32)

  datatype Width = B1 | B2 | B4

  datatype Flags = WriteValue | ClearBitmask | SetBitmask

  datatype Parameter = Parameter(width: Width, flags: Flags)

  datatype CommandHeader = CommandHeader(length: Word16, parameter: Parameter)

  datatype Command = WriteData(header: CommandHeader, pairs: seq<AddressValue>)

  /** A parsed DCD: where it starts in the input, the length in its header, and its commands. */
  datatype Parse = Parse(start: nat, length: Word16, commands: seq<Command>)

  // ---- Command parameters ---------------------------------------------------------------------------------------

  function WidthValue(w: Width): (v: nat)
    ensures v == 1 || v == 2 || v == 4
  {
    match w
    case B1 => 1
    case B2 => 2
    case B4 => 4
  }

  function FlagBits(f: Flags): nat {
    match f
    case WriteValue => 0
    case ClearBitmask => 2
    case SetBitmask => 3
  }

  function ParameterByte(p: Parameter): Byte {
    WidthValue(p.width) + 8 * FlagBits(p.flags)
  }

  /** Three zero bits, two flag bits of which the lower one decides whether there is a mask at all, then the width. */
  function ParseParameter(s: seq<Byte>, pos: nat): Parsed<Parameter> {
    if pos >= |s| || s[pos] >= 32 then Fail
    else
      var b := s[pos];
      var flags := match b / 8 case 1 => ClearBitmask case 3 => SetBitmask case _ => WriteValue;
      match b % 8
      case 1 => Ok(pos + 1, Parameter(B1, flags))
      case 2 => Ok(pos + 1, Parameter(B2, flags))
      case 4 => Ok(pos + 1, Parameter(B4, flags))
      case _ => Panic
  }

  /** The parser reads a written parameter back, except that it takes "clear" for a plain write. */
  lemma ParameterReadBack(s: seq<Byte>, pos: nat, p: Parameter)
    requires At(s, pos, [ParameterByte(p)])
    ensures ParseParameter(s, pos)
            == Ok(pos + 1, p.(flags := if p.flags == ClearBitmask then WriteValue else p.flags))
  {
  }

  lemma ParameterRoundTripIff(s: seq<Byte>, pos: nat, p: Parameter)
    requires At(s, pos, [ParameterByte(p)])
    ensures ParseParameter(s, pos) == Ok(pos + 1, p) <==> p.flags != ClearBitmask
  {
  }

  // ---- The writer -----------------------------------------------------------------------------------------------

  /** A vector of bytes that is written to. */
  class Writer {
    var bytes: seq<Byte>

    constructor ()
      ensures bytes == []
    {
      bytes := [];
    }

    method WriteAll(s: seq<Byte>)
      modifies this
      ensures bytes == old(bytes) + s
    {
      bytes := bytes + s;
    }
  }

  function HeaderBytes(length: Word16): seq<Byte> {
    [0xD2] + Be16(length) + [0x40]
  }

  function CommandHeaderBytes(h: CommandHeader): seq<Byte> {
    [0xCC] + Be16(h.length) + [ParameterByte(h.parameter)]
  }

  function PairBytes(pairs: seq<AddressValue>): (s: seq<Byte>)
    ensures |s| == 8 * |pairs|
  {
    if pairs == [] then []
    else PairBytes(pairs[..|pairs| - 1]) + Be32(pairs[|pairs| - 1].address) + Be32(pairs[|pairs| - 1].value)
  }

  /** `Dcd::size`, on sixteen bits. */
  function Size(mode: Overflow, n: nat): Option<Word16> {
    var product := 8 * (n % U16);
    var sum := 8 + product % U16;
    if mode.Traps? && (product >= U16 || sum >= U16) then None else Some(sum % U16)
  }

  /** The header of a command with `n` writes, unless their length exceeds sixteen bits. */
  function WritesHeader(n: nat): Option<CommandHeader> {
    if 8 * n >= U16 then None else Some(CommandHeader(4 + 8 * n, Parameter(B4, WriteValue)))
  }

  function Encode(mode: Overflow, writes: seq<AddressValue>): Option<seq<Byte>> {
    if Size(mode, |writes|).None? || WritesHeader(|writes|).None? then None
    else Some(HeaderBytes(Size(mode, |writes|).value)
              + (CommandHeaderBytes(WritesHeader(|writes|).value) + PairBytes(writes)))
  }

  method WriteCommand(header: CommandHeader, pairs: seq<AddressValue>, w: Writer)
    modifies w
    ensures w.bytes == old(w.bytes) + (CommandHeaderBytes(header) + PairBytes(pairs))
  {
    w.WriteAll(CommandHeaderBytes(header));
    ghost var start := w.bytes;
    for i := 0 to |pairs|
      invariant w.bytes == start + PairBytes(pairs[..i])
    {
      assert pairs[..i + 1][..i] == pairs[..i];
      w.WriteAll(Be32(pairs[i].address));
      w.WriteAll(Be32(pairs[i].value));
    }
    assert pairs[..|pairs|] == pairs;
  }

  method Write(mode: Overflow, writes: seq<AddressValue>, w: Writer) returns (ok: bool)
    modifies w
    ensures ok <==> Encode(mode, writes).Some?
    ensures ok ==> w.bytes == old(w.bytes) + Encode(mode, writes).value
  {
    var length := Size(mode, |writes|);
    if length.None? {
      return false;
    }
    w.WriteAll(HeaderBytes(length.value));
    var header := WritesHeader(|writes|);
    if header.None? {
      return false;
    }
    WriteCommand(header.value, writes, w);
    ok := true;
  }

  /** Up to 8190 writes the length is right; one more overflows. */
  lemma SizeOf(mode: Overflow, n: nat)
    ensures n <= 8190 ==> Size(mode, n) == Some(8 + 8 * n)
    ensures n == 8191 ==> Size(mode, n) == if mode.Wraps? then Some(0) else None
    ensures WritesHeader(n).Some? <==> n <= 8191
  {
  }

  lemma EncodeSome(mode: Overflow, writes: seq<AddressValue>)
    ensures Encode(mode, writes).Some? <==> |writes| <= 8190 || (|writes| == 8191 && mode.Wraps?)
    ensures Encode(mode, writes).Some? ==> |Encode(mode, writes).value| == 8 + 8 * |writes|
  {
  }

  // ---- The parser -----------------------------------------------------------------------------------------------

  function Prepend<T>(list: seq<T>, p: Parsed<seq<T>>): Parsed<seq<T>> {
    if p.Ok? then Ok(p.pos, list + p.value) else p
  }

  function ParseHeader(s: seq<Byte>, pos: nat): Parsed<Word16> {
    if !Tag(s, pos, 0xD2) then Fail
    else match TakeBe16(s, pos + 1)
         case Ok(pos, length) =>
           if length > 1768 then Panic else if !Tag(s, pos, 0x40) then Fail else Ok(pos + 1, length)
         case _ => Fail
  }

  function ParseCommandHeader(s: seq<Byte>, pos: nat): (p: Parsed<CommandHeader>)
    ensures p.Ok? ==> pos < p.pos <= |s|
  {
    if !Tag(s, pos, 0xCC) then Fail
    else match TakeBe16(s, pos + 1)
         case Ok(pos, length) =>
           (match ParseParameter(s, pos)
            case Ok(pos, parameter) => Ok(pos, CommandHeader(length, parameter))
            case p => Failed(p))
         case _ => Fail
  }

  function TakeValue(s: seq<Byte>, pos: nat, width: Width): (p: Parsed<Word32>)
    ensures p.Ok? ==> pos <= p.pos <= |s|
  {
    match width
    case B1 => if pos < |s| then Ok(pos + 1, s[pos]) else Fail
    case B2 => (match TakeBe16(s, pos) case Ok(pos, v) => Ok(pos, v) case _ => Fail)
    case B4 => TakeBe32(s, pos)
  }

  function ParsePair(s: seq<Byte>, pos: nat, width: Width): (p: Parsed<AddressValue>)
    ensures p.Ok? ==> pos <= p.pos <= |s|
  {
    match TakeBe32(s, pos)
    case Ok(pos, address) =>
      (match TakeValue(s, pos, width) case Ok(pos, value) => Ok(pos, AddressValue(address, value)) case _ => Fail)
    case _ => Fail
  }

  function ParsePairs(s: seq<Byte>, pos: nat, n: nat, width: Width): (p: Parsed<seq<AddressValue>>)
    ensures p.Ok? ==> |p.value| == n && pos <= p.pos && (pos <= |s| ==> p.pos <= |s|)
    decreases n
  {
    if n == 0 then Ok(pos, [])
    else match ParsePair(s, pos, width)
         case Ok(pos, pair) => Prepend([pair], ParsePairs(s, pos, n - 1, width))
         case _ => Fail
  }

  /** How many pairs a command of that length has room for. */
  function Count(header: CommandHeader): nat
    requires header.length >= 4
  {
    match header.parameter.width
    case B1 => (header.length - 4) / 5
    case B2 => (header.length - 4) / 6
    case B4 => (header.length - 4) / 8
  }

  lemma CountOf(n: nat)
    ensures WritesHeader(n).Some? ==> Count(WritesHeader(n).value) == n
  {
  }

  function WrappingSub(a: Word16, b: Word16): Word16 {
    if a >= b then a - b else a - b + 0x1_0000
  }

  /** One command, and what is left of `length` after it. */
  function ParseCommand(mode: Overflow, s: seq<Byte>, pos: nat, length: Word16): (p: Parsed<(Command, Word16)>)
    ensures p.Ok? ==> pos < p.pos <= |s|
  {
    match ParseCommandHeader(s, pos)
    case Ok(pos, header) =>
      if (header.length > length && mode.Traps?) || header.length < 4 then Panic
      else (match ParsePairs(s, pos, Count(header), header.parameter.width)
            case Ok(pos, pairs) => Ok(pos, (WriteData(header, pairs), WrappingSub(length, header.length)))
            case p => Failed(p))
    case p => Failed(p)
  }

  function ParseCommands(mode: Overflow, s: seq<Byte>, pos: nat, length: Word16): Parsed<seq<Command>>
    decreases |s| - pos
  {
    if length == 0 then Ok(pos, [])
    else match ParseCommand(mode, s, pos, length)
         case Ok(pos, next) => Prepend([next.0], ParseCommands(mode, s, pos, next.1))
         case p => Failed(p)
  }

  function ParseDcd(mode: Overflow, s: seq<Byte>, start: nat): Parsed<Parse> {
    match ParseHeader(s, start)
    case Ok(pos, length) =>
      if length < 4 then Panic
      else (match ParseCommands(mode, s, pos, length - 4)
            case Ok(pos, commands) =>
              if start + length > |s| then Panic else Ok(pos, Parse(start, length, commands))
            case p => Failed(p))
    case p => Failed(p)
  }

  function AsBytes(s: seq<Byte>, p: Parse): seq<Byte>
    requires p.start + p.length <= |s|
  {
    s[p.start..p.start + p.length]
  }

  // The loops of the parser.

  lemma PrependNext<T>(list: seq<T>, x: T, p: Parsed<seq<T>>)
    ensures Prepend(list, Prepend([x], p)) == Prepend(list + [x], p)
  {
    if p.Ok? {
      assert list + ([x] + p.value) == list + [x] + p.value;
    }
  }

  lemma PrependNone<T>(p: Parsed<seq<T>>)
    ensures Prepend([], p) == p
  {
    if p.Ok? {
      assert [] + p.value == p.value;
    }
  }

  lemma PairsNext(s: seq<Byte>, pos: nat, n: nat, width: Width)
    requires n > 0
    ensures var next := ParsePair(s, pos, width);
            ParsePairs(s, pos, n, width)
            == if next.Ok? then Prepend([next.value], ParsePairs(s, next.pos, n - 1, width)) else Fail
  {
  }

  lemma {:induction false} CommandsNext(mode: Overflow, s: seq<Byte>, pos: nat, length: Word16)
    requires length != 0
    ensures var next := ParseCommand(mode, s, pos, length);
            ParseCommands(mode, s, pos, length)
            == if next.Ok? then Prepend([next.value.0], ParseCommands(mode, s, next.pos, next.value.1))
               else Failed(next)
  {
  }

  method ParsePairsLoop(s: seq<Byte>, pos: nat, n: nat, width: Width) returns (p: Parsed<seq<AddressValue>>)
    ensures p == ParsePairs(s, pos, n, width)
  {
    var list, rest, left := [], pos, n;
    ghost var goal := ParsePairs(s, pos, n, width);
    PrependNone(goal);
    while left > 0
      invariant goal == Prepend(list, ParsePairs(s, rest, left, width))
    {
      var pair := ParsePair(s, rest, width);
      PairsNext(s, rest, left, width);
      if !pair.Ok? {
        return Fail;
      }
      PrependNext(list, pair.value, ParsePairs(s, pair.pos, left - 1, width));
      list, rest, left := list + [pair.value], pair.pos, left - 1;
    }
    assert list + [] == list;
    p := Ok(rest, list);
  }

  method ParseCommandsLoop(mode: Overflow, s: seq<Byte>, pos: nat, length: Word16) returns (p: Parsed<seq<Command>>)
    ensures p == ParseCommands(mode, s, pos, length)
  {
    var list, rest, left := [], pos, length;
    ghost var goal := ParseCommands(mode, s, pos, length);
    PrependNone(goal);
    while left != 0
      invariant goal == Prepend(list, ParseCommands(mode, s, rest, left))
      decreases |s| - rest
    {
      var next := ParseCommand(mode, s, rest, left);
      CommandsNext(mode, s, rest, left);
      if !next.Ok? {
        return Failed(next);
      }
      PrependNext(list, next.value.0, ParseCommands(mode, s, next.pos, next.value.1));
      list, rest, left := list + [next.value.0], next.pos, next.value.1;
    }
    assert list + [] == list;
    p := Ok(rest, list);
  }

  // ---- Round trips ----------------------------------------------------------------------------------------------

  lemma HeaderRoundTrip(s: seq<Byte>, pos: nat, length: Word16)
    requires length <= 1768 && At(s, pos, HeaderBytes(length))
    ensures ParseHeader(s, pos) == Ok(pos + 4, length)
  {
    AtSplit(s, pos, [0xD2] + Be16(length), [0x40]);
    AtSplit(s, pos, [0xD2], Be16(length));
    AtFirst(s, pos, 0xD2);
    AtFirst(s, pos + 3, 0x40);
  }

  lemma CommandHeaderRoundTrip(s: seq<Byte>, pos: nat, h: CommandHeader)
    requires h.parameter.flags != ClearBitmask && At(s, pos, CommandHeaderBytes(h))
    ensures ParseCommandHeader(s, pos) == Ok(pos + 4, h)
  {
    AtSplit(s, pos, [0xCC] + Be16(h.length), [ParameterByte(h.parameter)]);
    AtSplit(s, pos, [0xCC], Be16(h.length));
    AtFirst(s, pos, 0xCC);
    ParameterReadBack(s, pos + 3, h.parameter);
  }

  lemma PairRoundTrip(s: seq<Byte>, pos: nat, a: AddressValue)
    requires At(s, pos, Be32(a.address) + Be32(a.value))
    ensures ParsePair(s, pos, B4) == Ok(pos + 8, a)
  {
    AtSplit(s, pos, Be32(a.address), Be32(a.value));
  }

  lemma {:induction false} PairBytesFirst(pairs: seq<AddressValue>)
    requires pairs != []
    ensures PairBytes(pairs) == Be32(pairs[0].address) + Be32(pairs[0].value) + PairBytes(pairs[1..])
  {
    var n := |pairs| - 1;
    if n > 0 {
      PairBytesFirst(pairs[..n]);
      assert pairs[..n][1..] == pairs[1..][..n - 1];
    }
  }

  lemma {:induction false} PairsRoundTrip(s: seq<Byte>, pos: nat, pairs: seq<AddressValue>)
    requires At(s, pos, PairBytes(pairs))
    ensures ParsePairs(s, pos, |pairs|, B4) == Ok(pos + 8 * |pairs|, pairs)
    decreases |pairs|
  {
    if pairs != [] {
      var a := pairs[0];
      PairBytesFirst(pairs);
      AtSplit(s, pos, Be32(a.address) + Be32(a.value), PairBytes(pairs[1..]));
      PairRoundTrip(s, pos, a);
      PairsRoundTrip(s, pos + 8, pairs[1..]);
      PairsNext(s, pos, |pairs|, B4);
      assert [a] + pairs[1..] == pairs;
    }
  }

  lemma {:induction false} CommandRoundTrip(mode: Overflow, s: seq<Byte>, pos: nat, pairs: seq<AddressValue>)
    requires |pairs| <= 8190 && At(s, pos, CommandHeaderBytes(WritesHeader(|pairs|).value) + PairBytes(pairs))
    ensures ParseCommand(mode, s, pos, 4 + 8 * |pairs|)
            == Ok(pos + 4 + 8 * |pairs|, (WriteData(WritesHeader(|pairs|).value, pairs), 0))
  {
    var h := WritesHeader(|pairs|).value;
    AtSplit(s, pos, CommandHeaderBytes(h), PairBytes(pairs));
    CommandHeaderRoundTrip(s, pos, h);
    CountOf(|pairs|);
    PairsRoundTrip(s, pos + 4, pairs);
  }

  lemma BodyRoundTrip(mode: Overflow, s: seq<Byte>, pos: nat, pairs: seq<AddressValue>)
    requires |pairs| <= 8190 && At(s, pos, CommandHeaderBytes(WritesHeader(|pairs|).value) + PairBytes(pairs))
    ensures ParseCommands(mode, s, pos, 4 + 8 * |pairs|)
            == Ok(pos + 4 + 8 * |pairs|, [WriteData(WritesHeader(|pairs|).value, pairs)])
  {
    var c := WriteData(WritesHeader(|pairs|).value, pairs);
    CommandRoundTrip(mode, s, pos, pairs);
    CommandsNext(mode, s, pos, 4 + 8 * |pairs|);
    assert [c] + [] == [c];
  }

  lemma {:induction false} ParseDcdIs(mode: Overflow, s: seq<Byte>, pos: nat, length: Word16, commands: seq<Command>)
    requires ParseHeader(s, pos) == Ok(pos + 4, length) && 4 <= length && pos + length <= |s|
    requires ParseCommands(mode, s, pos + 4, length - 4) == Ok(pos + length, commands)
    ensures ParseDcd(mode, s, pos) == Ok(pos + length, Parse(pos, length, commands))
  {
  }

  lemma {:induction false} PartsRoundTrip(mode: Overflow, s: seq<Byte>, pos: nat, writes: seq<AddressValue>)
    requires |writes| <= 220 && At(s, pos, HeaderBytes(8 + 8 * |writes|))
    requires At(s, pos + 4, CommandHeaderBytes(WritesHeader(|writes|).value) + PairBytes(writes))
    ensures var n := 8 + 8 * |writes|;
            ParseDcd(mode, s, pos) == Ok(pos + n, Parse(pos, n, [WriteData(WritesHeader(|writes|).value, writes)]))
  {
    HeaderRoundTrip(s, pos, 8 + 8 * |writes|);
    BodyRoundTrip(mode, s, pos + 4, writes);
    ParseDcdIs(mode, s, pos, 8 + 8 * |writes|, [WriteData(WritesHeader(|writes|).value, writes)]);
  }

  /** A DCD that keeps to the maximum length is parsed back, and as its own bytes, wherever it is. */
  lemma DcdRoundTrip(mode: Overflow, s: seq<Byte>, pos: nat, writes: seq<AddressValue>,
                                        bytes: seq<Byte>)
    requires |writes| <= 220 && Encode(mode, writes) == Some(bytes) && At(s, pos, bytes)
    ensures ParseDcd(mode, s, pos)
            == Ok(pos + |bytes|, Parse(pos, |bytes|, [WriteData(WritesHeader(|writes|).value, writes)]))
    ensures AsBytes(s, ParseDcd(mode, s, pos).value) == bytes
  {
    EncodeSome(mode, writes);
    SizeOf(mode, |writes|);
    AtSplit(s, pos, HeaderBytes(|bytes|), CommandHeaderBytes(WritesHeader(|writes|).value) + PairBytes(writes));
    PartsRoundTrip(mode, s, pos, writes);
  }
}
