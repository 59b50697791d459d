/**
 Block devices, the MBR partition table in block 0 and the partitions it describes.
 */
module Storage {
  import opened Bytes
  import Parsing

  const ENTRIES: nat := 4

  type Block = b: seq<Byte> | |b| == 512 witness seq(512, _ => 0)

  datatype MbrError = DeviceError | InvalidMagic | InvalidPartExtent | NoPartition | OutOfRangeAccess

  datatype Result<+T> = Ok(value: T) | Err(error: MbrError)

  // ---- Partition entries ----------------------------------------------------------------------------------------

  datatype Entry = Entry(
    status: Byte, startChs: seq<Byte>, ptype: Byte, endChs: seq<Byte>, start: Word32, sectors: Word32)

  predicate EntryOk(e: Entry) {
    |e.startChs| == 3 && |e.endChs| == 3
  }

  const ZEROED := Entry(0, [0, 0, 0], 0, [0, 0, 0], 0, 0)

  /** `PartitionEntry::new` */
  function NewEntry(start: Word32, sectors: Word32): Entry {
    Entry(0, [0, 0, 0], 0x83, [0, 0, 0], start, sectors)
  }

  function EntryBytes(e: Entry): (s: seq<Byte>)
    requires EntryOk(e)
    ensures |s| == 16
  {
    [e.status] + e.startChs + [e.ptype] + e.endChs + Le32(e.start) + Le32(e.sectors)
  }

  function ParseEntry(s: seq<Byte>): (e: Entry)
    requires |s| == 16
    ensures EntryOk(e)
  {
    Entry(s[0], s[1..4], s[4], s[5..8], FromLe32(s[8..12]), FromLe32(s[12..16]))
  }

  lemma EntryParts(s: seq<Byte>, st: Byte, sc: seq<Byte>, pt: Byte, ec: seq<Byte>, start: seq<Byte>,
                                      sectors: seq<Byte>)
    requires |sc| == |ec| == 3 && |start| == |sectors| == 4
    requires s == [st] + sc + [pt] + ec + start + sectors
    ensures |s| == 16 && s[0] == st && s[1..4] == sc && s[4] == pt && s[5..8] == ec
    ensures s[8..12] == start && s[12..16] == sectors
  {
    assert s[..] == s;
    Parsing.AtSplit(s, 0, [st] + sc + [pt] + ec + start, sectors);
    Parsing.AtSplit(s, 0, [st] + sc + [pt] + ec, start);
    Parsing.AtSplit(s, 0, [st] + sc + [pt], ec);
    Parsing.AtSplit(s, 0, [st] + sc, [pt]);
    Parsing.AtSplit(s, 0, [st], sc);
    Parsing.AtFirst(s, 0, st);
    Parsing.AtFirst(s, 4, pt);
  }

  lemma EntryRoundTrip(e: Entry)
    requires EntryOk(e)
    ensures ParseEntry(EntryBytes(e)) == e
  {
    EntryParts(EntryBytes(e), e.status, e.startChs, e.ptype, e.endChs, Le32(e.start), Le32(e.sectors));
  }

  lemma EntryBytesRoundTrip(s: seq<Byte>)
    requires |s| == 16
    ensures EntryBytes(ParseEntry(s)) == s
  {
    Le32Unique(s[8..12]);
    Le32Unique(s[12..16]);
    assert s == [s[0]] + s[1..4] + [s[4]] + s[5..8] + s[8..12] + s[12..16];
  }

  // ---- Partition tables -----------------------------------------------------------------------------------------

  datatype Table = Table(entries: seq<Entry>, index: nat)

  predicate TableOk(t: Table) {
    && |t.entries| == ENTRIES && t.index <= ENTRIES
    && forall e <- t.entries :: EntryOk(e)
  }

  const EMPTY := Table([ZEROED, ZEROED, ZEROED, ZEROED], 0)

  function End(e: Entry): int {
    e.start + e.sectors
  }

  /** The end of an entry in 32-bit arithmetic. */
  function WrappedEnd(e: Entry): Word32 {
    WrappingAdd(e.start, e.sectors)
  }

  /** The end of the last entry in use. */
  function LastEnd(t: Table): Word32
    requires TableOk(t)
  {
    if t.index == 0 then 0 else WrappedEnd(t.entries[t.index - 1])
  }

  datatype Added = Accepted(table: Table) | PartitionCollision | TooManyPartitions

  /** `add` leaves `index` alone; `advance` says whether it should have moved on. */
  function AddEntry(advance: bool, t: Table, e: Entry): Added
    requires TableOk(t)
  {
    if e.start < LastEnd(t) then PartitionCollision
    else if t.index < ENTRIES then
      Accepted(Table(t.entries[t.index := e], if advance then t.index + 1 else t.index))
    else TooManyPartitions
  }

  /** Adding one entry after the other, all of which have to be accepted. */
  function AddAll(advance: bool, es: seq<Entry>): (a: Added)
    requires forall e <- es :: EntryOk(e)
    ensures a.Accepted? ==> TableOk(a.table)
  {
    if es == [] then Accepted(EMPTY)
    else match AddAll(advance, es[..|es| - 1])
         case Accepted(t) => AddEntry(advance, t, es[|es| - 1])
         case e => e
  }

  /** The table lists exactly these entries. */
  predicate Lists(t: Table, es: seq<Entry>) {
    && |t.entries| == ENTRIES && |es| <= ENTRIES
    && t.entries == es + seq(ENTRIES - |es|, _ => ZEROED)
  }

  lemma ListsAt(t: Table, es: seq<Entry>, i: nat)
    requires i < |es|
    ensures Lists(t, es) ==> t.entries[i] == es[i]
  {
  }

  predicate Fits(e: Entry) {
    End(e) < U32
  }

  /** Entries in order that do not overlap. */
  predicate Sorted(es: seq<Entry>) {
    forall i, j :: 0 <= i < j < |es| ==> End(es[i]) <= es[j].start
  }

  /** Entries that each start after the end of the one before, as 32 bits have it. */
  predicate Ascending(es: seq<Entry>) {
    forall i :: 0 <= i < |es| - 1 ==> WrappedEnd(es[i]) <= es[i + 1].start
  }

  /** As written, every entry is accepted and replaces the one before. */
  lemma {:induction false} AddKeepsOnlyLast(es: seq<Entry>)
    requires forall e <- es :: EntryOk(e)
    ensures AddAll(false, es)
            == Accepted(Table(if es == [] then EMPTY.entries else [es[|es| - 1], ZEROED, ZEROED, ZEROED], 0))
  {
    if es != [] {
      AddKeepsOnlyLast(es[..|es| - 1]);
    }
  }

  /** So a table built from new entries lists them exactly when there is at most one. */
  lemma {:induction false} AddWorksIff(es: seq<Entry>)
    requires forall e <- es :: EntryOk(e) && e == NewEntry(e.start, e.sectors)
    ensures (AddAll(false, es).Accepted? && Lists(AddAll(false, es).table, es)) <==> |es| <= 1
  {
    AddKeepsOnlyLast(es);
    if |es| >= 2 {
      assert es[1] in es && es[1] != ZEROED;
      ListsAt(AddAll(false, es).table, es, 1);
    }
  }

  /** What the table of accepted entries holds when `index` moves on. */
  function Listing(es: seq<Entry>): (t: Table)
    requires |es| <= ENTRIES && forall e <- es :: EntryOk(e)
    ensures TableOk(t) && Lists(t, es)
  {
    Table(es + seq(ENTRIES - |es|, _ => ZEROED), |es|)
  }

  lemma AddToListing(es: seq<Entry>, e: Entry)
    requires |es| <= ENTRIES && EntryOk(e) && forall x <- es :: EntryOk(x)
    ensures AddEntry(true, Listing(es), e)
            == if es != [] && e.start < WrappedEnd(es[|es| - 1]) then PartitionCollision
               else if |es| == ENTRIES then TooManyPartitions else Accepted(Listing(es + [e]))
  {
    if |es| < ENTRIES {
      assert Listing(es).entries[|es| := e] == Listing(es + [e]).entries;
    }
  }

  lemma AscendingAppend(es: seq<Entry>, e: Entry)
    ensures Ascending(es + [e]) <==> Ascending(es) && (es == [] || WrappedEnd(es[|es| - 1]) <= e.start)
  {
    var all := es + [e];
    if Ascending(all) {
      forall i | 0 <= i < |es| - 1 ensures WrappedEnd(es[i]) <= es[i + 1].start {
        assert all[i] == es[i] && all[i + 1] == es[i + 1];
      }
      if es != [] {
        assert all[|es| - 1] == es[|es| - 1] && all[|es| - 1 + 1] == e;
      }
    }
  }

  /** With `index` moving on: four entries at most, each after the wrapped end of the one before, and none is lost. */
  lemma {:induction false} AdvancingAddOrders(es: seq<Entry>)
    requires forall e <- es :: EntryOk(e)
    ensures AddAll(true, es).Accepted? <==> |es| <= ENTRIES && Ascending(es)
    ensures AddAll(true, es).Accepted? ==> AddAll(true, es).table == Listing(es)
  {
    if es == [] {
      assert Listing(es) == EMPTY;
    } else {
      var n := |es| - 1;
      var init := es[..n];
      AdvancingAddOrders(init);
      assert es == init + [es[n]];
      AscendingAppend(init, es[n]);
      if |init| <= ENTRIES {
        AddToListing(init, es[n]);
      }
    }
  }

  lemma StartsGrow(es: seq<Entry>, i: nat, j: nat)
    requires Ascending(es) && (forall k :: 0 <= k < |es| - 1 ==> Fits(es[k])) && i < j < |es|
    ensures End(es[i]) <= es[j].start
  {
    if i + 1 < j {
      StartsGrow(es, i, j - 1);
    }
    assert WrappedEnd(es[j - 1]) <= es[j - 1 + 1].start;
  }

  /** Such entries do not overlap exactly when only the last may end beyond the range of 32 bits. */
  lemma SortedIff(es: seq<Entry>)
    ensures Sorted(es) <==> Ascending(es) && forall i :: 0 <= i < |es| - 1 ==> Fits(es[i])
  {
    if Sorted(es) {
      forall i | 0 <= i < |es| - 1 ensures Fits(es[i]) && WrappedEnd(es[i]) <= es[i + 1].start {
        assert End(es[i]) <= es[i + 1].start;
      }
    } else if Ascending(es) && forall i :: 0 <= i < |es| - 1 ==> Fits(es[i]) {
      forall i, j | 0 <= i < j < |es| ensures End(es[i]) <= es[j].start {
        StartsGrow(es, i, j);
      }
    }
  }

  /** So adding accepts exactly the sorted tables of up to four entries, if all but the last end within 32 bits. */
  lemma {:induction false} AdvancingAddSorts(es: seq<Entry>)
    requires forall e <- es :: EntryOk(e)
    ensures (AddAll(true, es).Accepted? <==> |es| <= ENTRIES && Sorted(es))
            <==> |es| > ENTRIES || !Ascending(es) || forall i :: 0 <= i < |es| - 1 ==> Fits(es[i])
  {
    AdvancingAddOrders(es);
    SortedIff(es);
  }

  /** An entry whose end wraps lets the next one in that overlaps it. */
  lemma OverlapAccepted()
    ensures var es := [NewEntry(10, 0xFFFF_FFFF), NewEntry(10, 5)]; AddAll(true, es).Accepted? && !Sorted(es)
  {
    var es := [NewEntry(10, 0xFFFF_FFFF), NewEntry(10, 5)];
    AdvancingAddOrders(es);
    assert !Fits(es[0]);
    SortedIff(es);
  }

  // ---- The block that holds the table ---------------------------------------------------------------------------

  function AllBytes(es: seq<Entry>): (s: seq<Byte>)
    requires forall e <- es :: EntryOk(e)
    ensures |s| == 16 * |es|
  {
    if es == [] then [] else AllBytes(es[..|es| - 1]) + EntryBytes(es[|es| - 1])
  }

  lemma {:induction false} AllBytesAt(es: seq<Entry>, i: nat)
    requires i < |es| && forall e <- es :: EntryOk(e)
    ensures AllBytes(es)[16 * i..16 * i + 16] == EntryBytes(es[i])
  {
    var n := |es| - 1;
    if i < n {
      AllBytesAt(es[..n], i);
      assert AllBytes(es)[16 * i..16 * i + 16] == AllBytes(es[..n])[16 * i..16 * i + 16];
    }
  }

  function ToBlock(entries: seq<Entry>): Block
    requires |entries| == ENTRIES && forall e <- entries :: EntryOk(e)
  {
    seq(446, _ => 0) + AllBytes(entries) + [0x55, 0xAA]
  }

  function BlockEntries(b: Block): (entries: seq<Entry>)
    ensures |entries| == ENTRIES && forall e <- entries :: EntryOk(e)
  {
    seq(ENTRIES, i requires 0 <= i < ENTRIES => ParseEntry(b[446 + 16 * i..446 + 16 * i + 16]))
  }

  /** The checks of `open` on an allocated entry. */
  predicate ExtentOk(e: Entry, total: nat) {
    e.ptype == 0 ||
    var end := e.start + e.sectors;
    e.start != 0 && e.start < total && end != 0 && end < total && end <= 0xFFFF_FFFF
  }

  function ParseMbr(b: Block, total: nat): Result<seq<Entry>> {
    if b[510..] != [0x55, 0xAA] then Err(InvalidMagic)
    else if forall e <- BlockEntries(b) :: ExtentOk(e, total) then Ok(BlockEntries(b))
    else Err(InvalidPartExtent)
  }

  /** The reader undoes the writer, byte for byte. */
  lemma BlockRoundTrip(entries: seq<Entry>)
    requires |entries| == ENTRIES && forall e <- entries :: EntryOk(e)
    ensures BlockEntries(ToBlock(entries)) == entries && ToBlock(entries)[510..] == [0x55, 0xAA]
  {
    var b := ToBlock(entries);
    forall i | 0 <= i < ENTRIES ensures BlockEntries(b)[i] == entries[i] {
      AllBytesAt(entries, i);
      assert b[446 + 16 * i..446 + 16 * i + 16] == AllBytes(entries)[16 * i..16 * i + 16];
      EntryRoundTrip(entries[i]);
    }
  }

  /** `create` compares the end of the last entry with the size of the device. */
  predicate CreateAccepts(t: Table, total: nat)
    requires TableOk(t)
  {
    LastEnd(t) <= total
  }

  /** As `add` is written no entry is ever in use, so `create` has nothing to compare and accepts any device. */
  lemma {:induction false} WrittenCreateNeverRefuses(es: seq<Entry>, total: nat)
    requires forall e <- es :: EntryOk(e)
    ensures AddAll(false, es).Accepted? && CreateAccepts(AddAll(false, es).table, total)
  {
    AddKeepsOnlyLast(es);
  }

  /** A table written by `create` is read back by `open` exactly when every allocated entry passes its checks. */
  lemma CreateThenOpen(t: Table, total: nat)
    requires TableOk(t)
    ensures ParseMbr(ToBlock(t.entries), total)
            == if forall e <- t.entries :: ExtentOk(e, total) then Ok(t.entries) else Err(InvalidPartExtent)
  {
    BlockRoundTrip(t.entries);
  }

  lemma ListingExtents(es: seq<Entry>, total: nat)
    requires |es| <= ENTRIES && forall e <- es :: EntryOk(e)
    ensures (forall e <- Listing(es).entries :: ExtentOk(e, total)) <==> forall e <- es :: ExtentOk(e, total)
  {
    var all := Listing(es).entries;
    if forall e <- es :: ExtentOk(e, total) {
      forall i | 0 <= i < ENTRIES ensures ExtentOk(all[i], total) {
        if i < |es| {
          assert all[i] == es[i] && es[i] in es;
        }
      }
    }
    forall e | e in es ensures e in all {
    }
  }

  lemma SortedExtents(es: seq<Entry>, total: nat)
    requires es != [] && Sorted(es) && forall e <- es :: e.ptype != 0
    ensures (forall e <- es :: ExtentOk(e, total))
            <==> es[0].start != 0 && End(es[|es| - 1]) < total && Fits(es[|es| - 1])
  {
    var last := es[|es| - 1];
    assert es[0] in es && last in es;
    if es[0].start != 0 && End(last) < total && Fits(last) {
      forall i | 0 <= i < |es| ensures ExtentOk(es[i], total) {
        assert i == 0 || End(es[0]) <= es[i].start;
        assert i == |es| - 1 || End(es[i]) <= last.start;
      }
    }
  }

  lemma ExtentsSort(es: seq<Entry>, total: nat)
    requires Ascending(es) && forall e <- es :: e.ptype != 0 && ExtentOk(e, total)
    ensures Sorted(es)
  {
    forall i | 0 <= i < |es| - 1 ensures Fits(es[i]) {
      assert es[i] in es;
    }
    SortedIff(es);
  }

  /**
   Of a table as `add` is meant to build it, `create` compares the wrapped end of the last entry with the size of the
   device and accepts an end that is equal. `open` accepts it exactly when the entries are apart, start above block 0,
   and end below the size and the range of 32 bits.
   */
  lemma OpenIsStricter(es: seq<Entry>, total: nat)
    requires 0 < |es| <= ENTRIES && Ascending(es) && forall e <- es :: EntryOk(e) && e.ptype != 0
    ensures CreateAccepts(Listing(es), total) <==> WrappedEnd(es[|es| - 1]) <= total
    ensures var last := es[|es| - 1];
            ParseMbr(ToBlock(Listing(es).entries), total) == Ok(Listing(es).entries)
            <==> Sorted(es) && es[0].start != 0 && End(last) < total && Fits(last)
  {
    CreateThenOpen(Listing(es), total);
    ListingExtents(es, total);
    if forall e <- es :: ExtentOk(e, total) {
      ExtentsSort(es, total);
    }
    if Sorted(es) {
      SortedExtents(es, total);
    }
  }

  /** A partition that ends with the device is created and not opened. */
  lemma EndOfDevice(total: nat)
    requires 1 < total < U32
    ensures var t := Listing([NewEntry(1, total - 1)]);
            CreateAccepts(t, total) && ParseMbr(ToBlock(t.entries), total) == Err(InvalidPartExtent)
  {
    var es := [NewEntry(1, total - 1)];
    OpenIsStricter(es, total);
    CreateThenOpen(Listing(es), total);
  }

  // ---- Devices --------------------------------------------------------------------------------------------------

  /**
   A managed block device. Unless it is healthy an access may fail at any time; a write that fails may or may not have
   reached the medium.
   */
  class Device {
    var blocks: seq<Block>
    const healthy: bool

    constructor (blocks: seq<Block>, healthy: bool)
      ensures this.blocks == blocks && this.healthy == healthy
    {
      this.blocks, this.healthy := blocks, healthy;
    }

    method ReadBlock(lba: nat) returns (r: Result<Block>)
      ensures r.Ok? ==> lba < |blocks| && r.value == blocks[lba]
      ensures r.Err? ==> r.error == DeviceError && (healthy ==> lba >= |blocks|)
    {
      if lba >= |blocks| {
        return Err(DeviceError);
      }
      var failed := *;
      r := if failed && !healthy then Err(DeviceError) else Ok(blocks[lba]);
    }

    method WriteBlock(block: Block, lba: nat) returns (r: Result<()>)
      modifies this
      ensures r.Ok? ==> lba < |old(blocks)| && blocks == old(blocks)[lba := block]
      ensures r.Err? ==> r.error == DeviceError && (healthy ==> lba >= |blocks|)
                         && (blocks == old(blocks) || (lba < |old(blocks)| && blocks == old(blocks)[lba := block]))
    {
      if lba >= |blocks| {
        return Err(DeviceError);
      }
      var reached, failed := *, *;
      if healthy || reached || !failed {
        blocks := blocks[lba := block];
      }
      r := if failed && !healthy then Err(DeviceError) else Ok(());
    }

    method Flush() returns (r: Result<()>)
      ensures r.Err? ==> r.error == DeviceError && !healthy
    {
      var failed := *;
      r := if failed && !healthy then Err(DeviceError) else Ok(());
    }
  }

  /** The partition table as the object that `add` updates in place. */
  class PartitionTable {
    const entries: array<Entry>
    var index: nat

    ghost function Contents(): Table
      reads this, entries
    {
      Table(entries[..], index)
    }

    constructor ()
      ensures Contents() == EMPTY && fresh(entries)
    {
      entries := new Entry[4](_ => ZEROED);
      index := 0;
    }

    method Add(entry: Entry) returns (r: Added)
      requires TableOk(Contents()) && EntryOk(entry)
      modifies this, entries
      ensures r == AddEntry(false, old(Contents()), entry)
      ensures Contents() == if r.Accepted? then r.table else old(Contents())
      ensures TableOk(Contents())
    {
      var end := 0;
      if index > 0 {
        end := WrappedEnd(entries[index - 1]);
      }
      if entry.start < end {
        return PartitionCollision;
      }
      if index < entries.Length {
        ghost var before := entries[..];
        entries[index] := entry;
        assert entries[..] == before[index := entry];
        return Accepted(Table(entries[..], index));
      }
      r := TooManyPartitions;
    }

    /** Fills a zeroed block, one entry after the other. */
    method WriteTo() returns (block: Block)
      requires TableOk(Contents())
      ensures block == ToBlock(entries[..])
    {
      var bytes: seq<Byte> := seq(446, _ => 0);
      for i := 0 to entries.Length
        invariant bytes == seq(446, _ => 0) + AllBytes(entries[..i])
      {
        assert entries[..i + 1][..i] == entries[..i];
        bytes := bytes + EntryBytes(entries[i]);
      }
      assert entries[..entries.Length] == entries[..];
      block := bytes + [0x55, 0xAA];
    }
  }

  /** Access to one partition. */
  class PartitionRef {
    const raw: Device
    const start: nat
    const sectors: nat

    constructor (raw: Device, start: nat, sectors: nat)
      ensures this.raw == raw && this.start == start && this.sectors == sectors
    {
      this.raw, this.start, this.sectors := raw, start, sectors;
    }

    method ReadBlock(lba: nat) returns (r: Result<Block>)
      ensures r == Err(OutOfRangeAccess) <==> lba >= sectors
      ensures r.Ok? ==> start + lba < |raw.blocks| && r.value == raw.blocks[start + lba]
      ensures r.Err? && raw.healthy ==> lba >= sectors || start + lba >= |raw.blocks|
    {
      if lba >= sectors {
        return Err(OutOfRangeAccess);
      }
      r := raw.ReadBlock(lba + start);
    }

    method WriteBlock(block: Block, lba: nat) returns (r: Result<()>)
      modifies raw
      ensures r == Err(OutOfRangeAccess) <==> lba >= sectors
      ensures lba >= sectors ==> raw.blocks == old(raw.blocks)
      ensures r.Ok? ==> start + lba < |old(raw.blocks)| && raw.blocks == old(raw.blocks)[start + lba := block]
      ensures r.Err? && raw.healthy ==> lba >= sectors || start + lba >= |raw.blocks|
      ensures raw.blocks == old(raw.blocks)
              || (start + lba < |old(raw.blocks)| && raw.blocks == old(raw.blocks)[start + lba := block])
    {
      if lba >= sectors {
        return Err(OutOfRangeAccess);
      }
      r := raw.WriteBlock(block, lba + start);
    }

    method Flush() returns (r: Result<()>)
      ensures r.Err? ==> !raw.healthy
    {
      r := raw.Flush();
    }
  }

  class MbrDevice {
    const raw: Device
    const table: seq<Entry>

    constructor (raw: Device, table: seq<Entry>)
      ensures this.raw == raw && this.table == table
    {
      this.raw, this.table := raw, table;
    }

    static method Create(raw: Device, part: PartitionTable) returns (r: Result<MbrDevice>)
      requires TableOk(part.Contents())
      modifies raw
      ensures !CreateAccepts(part.Contents(), |old(raw.blocks)|) ==>
                r == Err(InvalidPartExtent) && raw.blocks == old(raw.blocks)
      ensures r.Ok? ==>
                && |old(raw.blocks)| > 0 && r.value.raw == raw && r.value.table == part.entries[..]
                && raw.blocks == old(raw.blocks)[0 := ToBlock(part.entries[..])]
      ensures r.Err? && CreateAccepts(part.Contents(), |old(raw.blocks)|) ==>
                && r.error == DeviceError
                && (|| raw.blocks == old(raw.blocks)
                    || (|old(raw.blocks)| > 0 && raw.blocks == old(raw.blocks)[0 := ToBlock(part.entries[..])]))
    {
      var end := if part.index == 0 then 0 else WrappedEnd(part.entries[part.index - 1]);
      if end > |raw.blocks| {
        return Err(InvalidPartExtent);
      }
      var mbr := part.WriteTo();
      var w := raw.WriteBlock(mbr, 0);
      if w.Err? {
        return Err(w.error);
      }
      var d := new MbrDevice(raw, part.entries[..]);
      r := Ok(d);
    }

    static method Open(raw: Device) returns (r: Result<MbrDevice>)
      ensures r.Ok? ==> |raw.blocks| > 0 && r.value.raw == raw
                        && ParseMbr(raw.blocks[0], |raw.blocks|) == Ok(r.value.table)
      ensures r.Err? && r.error != DeviceError ==>
                |raw.blocks| > 0 && ParseMbr(raw.blocks[0], |raw.blocks|) == Err(r.error)
    {
      var b := raw.ReadBlock(0);
      if b.Err? {
        return Err(b.error);
      }
      var mbr := b.value;
      if mbr[510..] != [0x55, 0xAA] {
        return Err(InvalidMagic);
      }
      var parts := BlockEntries(mbr);
      for i := 0 to 4
        invariant forall j :: 0 <= j < i ==> ExtentOk(parts[j], |raw.blocks|)
      {
        var e := parts[i];
        if e.ptype != 0 {
          var start, end := e.start, e.start + e.sectors;
          if start == 0 || start >= |raw.blocks| || end == 0 || end >= |raw.blocks| || end > 0xFFFF_FFFF {
            assert e in parts && !ExtentOk(e, |raw.blocks|);
            return Err(InvalidPartExtent);
          }
        }
      }
      assert forall e <- parts :: ExtentOk(e, |raw.blocks|);
      var d := new MbrDevice(raw, parts);
      r := Ok(d);
    }

    method Partition(part: nat) returns (r: Result<PartitionRef>)
      requires |table| == ENTRIES
      ensures part >= 4 || table[part].ptype == 0 <==> r == Err(NoPartition)
      ensures part < 4 && table[part].ptype != 0 ==>
                && r.Ok? && r.value.raw == raw
                && r.value.start == table[part].start && r.value.sectors == table[part].sectors
    {
      if part >= 4 {
        return Err(NoPartition);
      }
      var e := table[part];
      if e.ptype == 0 {
        return Err(NoPartition);
      }
      var p := new PartitionRef(raw, e.start, e.sectors);
      r := Ok(p);
    }
  }

  /** The blocks of an extent. */
  function Extent(blocks: seq<Block>, start: nat, sectors: nat): seq<Block>
    requires start + sectors <= |blocks|
  {
    blocks[start..start + sectors]
  }

  /** Writing a block through one partition of a sorted table changes that block of its extent and no other extent. */
  lemma PartitionsAreSeparate(es: seq<Entry>, blocks: seq<Block>, block: Block, i: nat, j: nat,
                                                 lba: nat)
    requires Sorted(es) && i < |es| && j < |es| && lba < es[i].sectors
    requires forall e <- es :: e.start + e.sectors <= |blocks|
    ensures i != j ==> Extent(blocks[es[i].start + lba := block], es[j].start, es[j].sectors)
                       == Extent(blocks, es[j].start, es[j].sectors)
    ensures Extent(blocks[es[i].start + lba := block], es[i].start, es[i].sectors)
            == Extent(blocks, es[i].start, es[i].sectors)[lba := block]
  {
  }

  /** An access through a partition that `open` accepted stays inside the device and away from block 0. */
  lemma OpenedAccessInRange(b: Block, total: nat, part: nat, lba: nat)
    requires ParseMbr(b, total).Ok? && part < ENTRIES
    requires var e := ParseMbr(b, total).value[part]; e.ptype != 0 && lba < e.sectors
    ensures 0 < ParseMbr(b, total).value[part].start + lba < total - 1
  {
    assert BlockEntries(b)[part] in BlockEntries(b);
  }

  /** The range check of the eMMC driver. */
  predicate EmmcAccepts(lba: nat, total: nat) {
    !(lba > total)
  }

  /** It lets exactly one address too many through. */
  lemma EmmcCheckOffByOne(total: nat, raw: nat)
    ensures (EmmcAccepts(raw, total) <==> raw < total) <==> raw != total
  {
  }

  /** No access through an opened partition has that address. */
  lemma EmmcCheckSuffices(b: Block, total: nat, part: nat, lba: nat)
    requires ParseMbr(b, total).Ok? && part < ENTRIES
    requires var e := ParseMbr(b, total).value[part]; e.ptype != 0 && lba < e.sectors
    ensures var raw := ParseMbr(b, total).value[part].start + lba; EmmcAccepts(raw, total) && raw < total
  {
    OpenedAccessInRange(b, total, part, lba);
  }
}
