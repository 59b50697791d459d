/**
 Who owns which transfer descriptor and buffer of the USB device driver, and what the buffers hold. Masks of endpoints
 are sets of their bit positions.
 */
module UsbMemory {
  import opened Bytes
  import opened Sequences
  import opened Sets
  import opened Wrappers

  /** Queue heads, two for each endpoint number. */
  const ENDPOINTS: nat := 4

  // ---- Endpoint addresses and queue heads -----------------------------------------------------------------------

  datatype EpAddr = EpAddr(index: nat, isOut: bool)

  function ToDqhIdx(ep: EpAddr): nat {
    2 * ep.index + if ep.isOut then 0 else 1
  }

  function FromDqhIdx(idx: nat): EpAddr {
    EpAddr(idx / 2, idx % 2 == 0)
  }

  /** The position in the 32-bit endpoint masks: IN endpoints in the upper half. */
  function MaskBit(ep: EpAddr): nat {
    if ep.isOut then ep.index else 16 + ep.index
  }

  lemma IndexMapsInverse(ep: EpAddr, idx: nat)
    ensures FromDqhIdx(ToDqhIdx(ep)) == ep && ToDqhIdx(FromDqhIdx(idx)) == idx
    ensures ep.index < 16 ==> (MaskBit(ep) < 16 <==> ep.isOut)
  {
  }

  /** The queue heads of transfers to the host. */
  predicate IsIn(k: nat) {
    k == 1 || k == 3
  }

  // ---- Ownership ------------------------------------------------------------------------------------------------

  /** The static buffers of the driver, and the one that the caller of a read lends to a control queue head. */
  datatype Buffer = B64(slot: nat) | B512(slot: nat) | Lent(head: nat)

  /** With the tokens: the length of the transfer, and how much of it was left when it was completed. */
  datatype Dqh = Dqh(
    maxPacket: nat, current: Option<nat>, next: Option<nat>, addr: Option<Buffer>, total: nat, left: nat)

  const UNUSED := Dqh(0, None, None, None, 0, 0)

  /** The descriptor of a queue head: the hardware has loaded it, or it is next. */
  function Installed(q: Dqh): Option<nat> {
    if q.current.Some? then q.current else q.next
  }

  /** The pools of the driver and the queue heads in use; the queue heads and buffers, shared with the hardware. */
  datatype Memory = Memory(
    dtds: seq<nat>, b64s: seq<Buffer>, b512s: seq<Buffer>, used: set<nat>,
    dqhs: seq<Dqh>, ram: map<Buffer, seq<Byte>>)

  ghost predicate IsInstalled(qs: seq<Dqh>, d: nat) {
    exists k :: 0 <= k < |qs| && Installed(qs[k]) == Some(d)
  }

  /** Every descriptor is in the pool or installed in one queue head, and in one place only. */
  ghost predicate DescriptorsOk(pool: seq<nat>, qs: seq<Dqh>) {
    && Distinct(pool)
    && (forall d: nat :: d in pool || IsInstalled(qs, d) <==> d < 4)
    && (forall k :: 0 <= k < |qs| && Installed(qs[k]).Some? ==> Installed(qs[k]).value !in pool)
    && (forall k, l :: 0 <= k < l < |qs| && Installed(qs[k]).Some? ==> Installed(qs[k]) != Installed(qs[l]))
  }

  /** The queue heads that have a descriptor are those in use; the OUT one beside the control endpoint has a buffer. */
  ghost predicate HeadsOk(pool: seq<nat>, qs: seq<Dqh>, used: set<nat>) {
    && |qs| == ENDPOINTS && used <= {0, 1, 2, 3} && |pool| + |used| == 4
    && (forall k :: 0 <= k < |qs| ==> (qs[k].current.None? || qs[k].next.None?))
    && (forall k :: 0 <= k < |qs| ==> if k in used then Installed(qs[k]).Some? else qs[k] == UNUSED)
    && (2 in used ==> qs[2].addr.Some?)
  }

  predicate Owns(q: Dqh, b: Buffer) {
    q.addr == Some(b)
  }

  ghost predicate Apart(qs: seq<Dqh>) {
    forall k, l, b :: 0 <= k < l < |qs| && Owns(qs[k], b) ==> !Owns(qs[l], b)
  }

  /** No buffer is in a pool and in use, or used twice. */
  ghost predicate BuffersOk(b64s: seq<Buffer>, b512s: seq<Buffer>, qs: seq<Dqh>) {
    && Distinct(b64s) && Distinct(b512s) && (forall b <- b64s :: b.B64?) && (forall b <- b512s :: b.B512?)
    && (forall k, b :: 0 <= k < |qs| && Owns(qs[k], b) ==> b !in b64s && b !in b512s && (b.Lent? ==> b.head == k < 2))
    && Apart(qs)
  }

  predicate Sized(b: Buffer, content: seq<Byte>) {
    (b.B64? ==> |content| == 64) && (b.B512? ==> |content| == 512)
  }

  predicate InRam(ram: map<Buffer, seq<Byte>>, b: Buffer) {
    b in ram && Sized(b, ram[b])
  }

  /** A transfer stays in the buffer of its queue head, and so does every packet of the endpoint. */
  predicate Fits(q: Dqh, ram: map<Buffer, seq<Byte>>) {
    if q.addr.None? then q.total == 0
    else
      && InRam(ram, q.addr.value) && q.total <= |ram[q.addr.value]|
      && (q.addr.value.Lent? || q.total <= q.maxPacket <= |ram[q.addr.value]|)
  }

  ghost predicate RamOk(b64s: seq<Buffer>, b512s: seq<Buffer>, qs: seq<Dqh>, ram: map<Buffer, seq<Byte>>) {
    && (forall b <- b64s :: InRam(ram, b)) && (forall b <- b512s :: InRam(ram, b))
    && forall k :: 0 <= k < |qs| ==> Fits(qs[k], ram)
  }

  ghost predicate MemoryOk(m: Memory) {
    && DescriptorsOk(m.dtds, m.dqhs) && HeadsOk(m.dtds, m.dqhs, m.used)
    && BuffersOk(m.b64s, m.b512s, m.dqhs) && RamOk(m.b64s, m.b512s, m.dqhs, m.ram)
  }

  const INITIAL := Memory(
    [0, 1, 2, 3], [B64(0), B64(1)], [B512(0), B512(1)], {}, [UNUSED, UNUSED, UNUSED, UNUSED],
    map[B64(0) := seq(64, _ => 0), B64(1) := seq(64, _ => 0),
        B512(0) := seq(512, _ => 0), B512(1) := seq(512, _ => 0)])

  lemma InitialDescriptors(qs: seq<Dqh>)
    requires |qs| == ENDPOINTS && forall k :: 0 <= k < 4 ==> qs[k] == UNUSED
    ensures DescriptorsOk([0, 1, 2, 3], qs) && HeadsOk([0, 1, 2, 3], qs, {})
  {
  }

  lemma InitialBuffers(qs: seq<Dqh>)
    requires |qs| == ENDPOINTS && forall k :: 0 <= k < 4 ==> qs[k] == UNUSED
    ensures BuffersOk(INITIAL.b64s, INITIAL.b512s, qs) && RamOk(INITIAL.b64s, INITIAL.b512s, qs, INITIAL.ram)
  {
  }

  lemma InitialOk()
    ensures MemoryOk(INITIAL)
  {
    InitialDescriptors(INITIAL.dqhs);
    InitialBuffers(INITIAL.dqhs);
  }

  /** What the buffer of a queue head holds. */
  function Content(m: Memory, k: nat): seq<Byte> {
    if k < |m.dqhs| && m.dqhs[k].addr.Some? && m.dqhs[k].addr.value in m.ram then m.ram[m.dqhs[k].addr.value] else []
  }

  /** The bytes of the transfer of a queue head. */
  function Shown(m: Memory, k: nat): seq<Byte> {
    if k < |m.dqhs| && m.dqhs[k].total <= |Content(m, k)| then Content(m, k)[..m.dqhs[k].total] else []
  }

  // ---- Changes of ownership -------------------------------------------------------------------------------------

  /** The other queue heads and their buffers are as before. */
  ghost predicate Others(m: Memory, n: Memory, k: nat) {
    && |n.dqhs| == |m.dqhs|
    && forall j :: 0 <= j < |m.dqhs| && j != k ==> n.dqhs[j] == m.dqhs[j] && Content(n, j) == Content(m, j)
  }

  /** The buffers for packets of that size. */
  function PoolFor(maxPacket: nat, m: Memory): seq<Buffer> {
    if maxPacket <= 64 then m.b64s else if maxPacket <= 512 then m.b512s else []
  }

  function TakeBuffer(m: Memory, maxPacket: nat): Memory
    requires PoolFor(maxPacket, m) != []
  {
    if maxPacket <= 64 then m.(b64s := Front(m.b64s)) else m.(b512s := Front(m.b512s))
  }

  /** A queue head is changed, but not which descriptor and buffer are its own. */
  function Changed(m: Memory, i: nat, q: Dqh): Memory
    requires i < |m.dqhs|
  {
    m.(dqhs := m.dqhs[i := q])
  }

  /** A queue head is changed, and its buffer is written. */
  function Put(m: Memory, i: nat, q: Dqh, content: seq<Byte>): Memory
    requires i < |m.dqhs| && q.addr.Some?
  {
    m.(dqhs := m.dqhs[i := q], ram := m.ram[q.addr.value := content])
  }

  /** A buffer is taken from its pool for a queue head. */
  function WithBuffer(m: Memory, i: nat): Memory
    requires i < |m.dqhs| && PoolFor(m.dqhs[i].maxPacket, m) != []
  {
    var q := m.dqhs[i].(addr := Some(Last(PoolFor(m.dqhs[i].maxPacket, m))));
    Changed(TakeBuffer(m, q.maxPacket), i, q)
  }

  /** A free queue head gets its packet size, a descriptor, and a buffer if it is the OUT one beside the control one. */
  function Installation(m: Memory, k: nat, maxPacket: nat): Memory
    requires k < |m.dqhs| && m.dtds != [] && (k == 2 ==> PoolFor(maxPacket, m) != [])
  {
    var q := Dqh(maxPacket, None, Some(Last(m.dtds)), None, 0, 0);
    if k == 2 then
      Changed(TakeBuffer(m, maxPacket), k, q.(addr := Some(Last(PoolFor(maxPacket, m))), total := maxPacket))
        .(dtds := Front(m.dtds), used := m.used + {k})
    else
      Changed(m, k, q).(dtds := Front(m.dtds), used := m.used + {k})
  }

  // ---- Descriptors ----------------------------------------------------------------------------------------------

  lemma InstalledChanged(qs: seq<Dqh>, i: nat, q: Dqh, d: nat)
    requires i < |qs| && Installed(q) == Installed(qs[i])
    ensures IsInstalled(qs[i := q], d) <==> IsInstalled(qs, d)
  {
    if IsInstalled(qs, d) {
      var k :| 0 <= k < |qs| && Installed(qs[k]) == Some(d);
      assert Installed(qs[i := q][k]) == Some(d);
    }
    if IsInstalled(qs[i := q], d) {
      var k :| 0 <= k < |qs| && Installed(qs[i := q][k]) == Some(d);
      assert Installed(qs[k]) == Some(d);
    }
  }

  lemma DescriptorsChanged(pool: seq<nat>, qs: seq<Dqh>, i: nat, q: Dqh)
    requires DescriptorsOk(pool, qs) && i < |qs| && Installed(q) == Installed(qs[i])
    ensures DescriptorsOk(pool, qs[i := q])
  {
    forall d: nat ensures IsInstalled(qs[i := q], d) == IsInstalled(qs, d) {
      InstalledChanged(qs, i, q, d);
    }
  }

  lemma HeadsChanged(pool: seq<nat>, qs: seq<Dqh>, used: set<nat>, i: nat, q: Dqh)
    requires HeadsOk(pool, qs, used) && i < |qs| && i in used && Installed(q) == Installed(qs[i])
    requires (q.current.None? || q.next.None?) && (i == 2 ==> q.addr.Some?)
    ensures HeadsOk(pool, qs[i := q], used)
  {
  }

  /** While a queue head is unused there is a descriptor left for it. */
  lemma PoolSuffices(m: Memory, k: nat)
    requires MemoryOk(m) && k < ENDPOINTS && k !in m.used
    ensures m.dtds != []
  {
    SubsetSize(m.used, {0, 1, 2, 3} - {k});
  }

  lemma InstalledNow(qs: seq<Dqh>, i: nat, q: Dqh, e: nat)
    requires i < |qs| && Installed(qs[i]).None? && Installed(q).Some?
    ensures IsInstalled(qs[i := q], e) <==> IsInstalled(qs, e) || Installed(q) == Some(e)
  {
    var now := qs[i := q];
    assert Installed(now[i]) == Installed(q);
    if IsInstalled(qs, e) {
      var k :| 0 <= k < |qs| && Installed(qs[k]) == Some(e);
      assert Installed(now[k]) == Some(e);
    }
    if IsInstalled(now, e) {
      var k :| 0 <= k < |qs| && Installed(now[k]) == Some(e);
      assert k == i || Installed(qs[k]) == Some(e);
    }
  }

  lemma TakeDescriptor(pool: seq<nat>, qs: seq<Dqh>, i: nat, q: Dqh)
    requires DescriptorsOk(pool, qs) && i < |qs| && Installed(qs[i]).None? && pool != []
    requires Installed(q) == Some(Last(pool))
    ensures DescriptorsOk(Front(pool), qs[i := q])
  {
    var now := qs[i := q];
    DistinctFront(pool);
    forall e: nat ensures e in Front(pool) || IsInstalled(now, e) <==> e < 4 {
      InstalledNow(qs, i, q, e);
    }
    forall k, l | 0 <= k < l < |now| && Installed(now[k]).Some? ensures Installed(now[k]) != Installed(now[l]) {
      assert k != i ==> now[k] == qs[k];
      assert l != i ==> now[l] == qs[l];
    }
  }

  lemma TakeHead(pool: seq<nat>, qs: seq<Dqh>, used: set<nat>, i: nat, q: Dqh)
    requires HeadsOk(pool, qs, used) && i < |qs| && i !in used && pool != []
    requires q.current.None? && q.next.Some? && (i == 2 ==> q.addr.Some?)
    ensures HeadsOk(Front(pool), qs[i := q], used + {i})
  {
  }

  // ---- Buffers --------------------------------------------------------------------------------------------------

  lemma BuffersChanged(b64s: seq<Buffer>, b512s: seq<Buffer>, qs: seq<Dqh>, i: nat, q: Dqh)
    requires BuffersOk(b64s, b512s, qs) && i < |qs| && (q.addr == qs[i].addr || (i < 2 && q.addr == Some(Lent(i))))
    ensures BuffersOk(b64s, b512s, qs[i := q])
  {
    assert forall b :: Owns(q, b) ==> Owns(qs[i], b) || b == Lent(i);
  }

  lemma TakeAddr(pool: seq<Buffer>, qs: seq<Dqh>, i: nat, q: Dqh)
    requires i < |qs| && q.addr.Some? && q.addr.value in pool
    requires forall k, b :: 0 <= k < |qs| && Owns(qs[k], b) ==> b !in pool
    requires Apart(qs)
    ensures Apart(qs[i := q])
  {
  }

  lemma TakeB64(b64s: seq<Buffer>, b512s: seq<Buffer>, qs: seq<Dqh>, i: nat, q: Dqh)
    requires BuffersOk(b64s, b512s, qs) && i < |qs| && b64s != [] && q.addr == Some(Last(b64s))
    ensures BuffersOk(Front(b64s), b512s, qs[i := q])
  {
    DistinctFront(b64s);
    assert Last(b64s) in b64s;
    TakeAddr(b64s, qs, i, q);
  }

  lemma TakeB512(b64s: seq<Buffer>, b512s: seq<Buffer>, qs: seq<Dqh>, i: nat, q: Dqh)
    requires BuffersOk(b64s, b512s, qs) && i < |qs| && b512s != [] && q.addr == Some(Last(b512s))
    ensures BuffersOk(b64s, Front(b512s), qs[i := q])
  {
    DistinctFront(b512s);
    assert Last(b512s) in b512s;
    TakeAddr(b512s, qs, i, q);
  }

  /** A buffer of the right pool is taken for a queue head. */
  lemma TakenOk(m: Memory, i: nat, q: Dqh)
    requires BuffersOk(m.b64s, m.b512s, m.dqhs) && RamOk(m.b64s, m.b512s, m.dqhs, m.ram) && i < |m.dqhs|
    requires PoolFor(q.maxPacket, m) != [] && q.addr == Some(Last(PoolFor(q.maxPacket, m))) && q.total <= q.maxPacket
    ensures var n := Changed(TakeBuffer(m, q.maxPacket), i, q);
            BuffersOk(n.b64s, n.b512s, n.dqhs) && RamOk(n.b64s, n.b512s, n.dqhs, n.ram)
  {
    if q.maxPacket <= 64 {
      TakeB64(m.b64s, m.b512s, m.dqhs, i, q);
    } else {
      TakeB512(m.b64s, m.b512s, m.dqhs, i, q);
    }
    assert q.addr.value in PoolFor(q.maxPacket, m);
  }

  // ---- What the changes keep ------------------------------------------------------------------------------------

  /** Loading or unloading a descriptor keeps everything in its place. */
  lemma ChangedOk(m: Memory, i: nat, q: Dqh)
    requires MemoryOk(m) && i in m.used && i < |m.dqhs|
    requires Installed(q) == Installed(m.dqhs[i]) && (q.current.None? || q.next.None?)
    requires q.addr == m.dqhs[i].addr && Fits(q, m.ram)
    ensures MemoryOk(Changed(m, i, q)) && Others(m, Changed(m, i, q), i)
  {
    DescriptorsChanged(m.dtds, m.dqhs, i, q);
    HeadsChanged(m.dtds, m.dqhs, m.used, i, q);
    BuffersChanged(m.b64s, m.b512s, m.dqhs, i, q);
  }

  lemma NotOwned(m: Memory, i: nat, b: Buffer, j: nat)
    requires BuffersOk(m.b64s, m.b512s, m.dqhs) && i < |m.dqhs| && j < |m.dqhs| && j != i
    requires Owns(m.dqhs[i], b) || b == Lent(i)
    ensures !Owns(m.dqhs[j], b)
  {
    assert Apart(m.dqhs);
  }

  lemma PutElsewhere(m: Memory, i: nat, q: Dqh, content: seq<Byte>)
    requires i < |m.dqhs| && q.addr.Some? && RamOk(m.b64s, m.b512s, m.dqhs, m.ram)
    requires BuffersOk(m.b64s, m.b512s, m.dqhs[i := q])
    requires forall j: nat :: j < |m.dqhs| && j != i ==> !Owns(m.dqhs[j], q.addr.value)
    requires Fits(q, m.ram[q.addr.value := content])
    ensures RamOk(m.b64s, m.b512s, m.dqhs[i := q], m.ram[q.addr.value := content])
    ensures Others(m, Put(m, i, q, content), i)
  {
    var ram := m.ram[q.addr.value := content];
    forall j | 0 <= j < |m.dqhs| && j != i ensures Fits(m.dqhs[j], ram) {
      assert Fits(m.dqhs[j], m.ram) && !Owns(m.dqhs[j], q.addr.value);
    }
    assert Owns(m.dqhs[i := q][i], q.addr.value);
  }

  /** A buffer is written for its owner; a control queue head may change to the buffer of the caller. */
  lemma PutOk(m: Memory, i: nat, q: Dqh, content: seq<Byte>)
    requires MemoryOk(m) && i in m.used && i < |m.dqhs| && q.addr.Some?
    requires Installed(q) == Installed(m.dqhs[i]) && (q.current.None? || q.next.None?)
    requires q.addr == m.dqhs[i].addr || (i < 2 && q.addr == Some(Lent(i)))
    requires Fits(q, m.ram[q.addr.value := content])
    ensures MemoryOk(Put(m, i, q, content)) && Others(m, Put(m, i, q, content), i)
  {
    DescriptorsChanged(m.dtds, m.dqhs, i, q);
    HeadsChanged(m.dtds, m.dqhs, m.used, i, q);
    BuffersChanged(m.b64s, m.b512s, m.dqhs, i, q);
    forall j: nat | j < |m.dqhs| && j != i ensures !Owns(m.dqhs[j], q.addr.value) {
      NotOwned(m, i, q.addr.value, j);
    }
    PutElsewhere(m, i, q, content);
  }

  /** A queue head takes a buffer the first time. */
  lemma WithBufferOk(m: Memory, i: nat)
    requires MemoryOk(m) && i in m.used && i < |m.dqhs| && m.dqhs[i].addr.None?
    requires PoolFor(m.dqhs[i].maxPacket, m) != []
    ensures MemoryOk(WithBuffer(m, i)) && Others(m, WithBuffer(m, i), i)
  {
    var q := m.dqhs[i].(addr := Some(Last(PoolFor(m.dqhs[i].maxPacket, m))));
    assert Fits(m.dqhs[i], m.ram);
    DescriptorsChanged(m.dtds, m.dqhs, i, q);
    TakenOk(m, i, q);
    assert q.addr.value in PoolFor(q.maxPacket, m);
    HeadsChanged(m.dtds, m.dqhs, m.used, i, q);
  }

  lemma InstalledBuffers(m: Memory, k: nat, maxPacket: nat)
    requires MemoryOk(m) && k < |m.dqhs| && m.dtds != [] && k !in m.used && (k == 2 ==> PoolFor(maxPacket, m) != [])
    ensures var n := Installation(m, k, maxPacket);
            BuffersOk(n.b64s, n.b512s, n.dqhs) && RamOk(n.b64s, n.b512s, n.dqhs, n.ram) && Others(m, n, k)
  {
    var q := Installation(m, k, maxPacket).dqhs[k];
    if k == 2 {
      TakenOk(m, k, q);
    } else {
      BuffersChanged(m.b64s, m.b512s, m.dqhs, k, q);
    }
  }

  /** A free queue head is allocated. */
  lemma InstalledOk(m: Memory, k: nat, maxPacket: nat)
    requires MemoryOk(m) && k < ENDPOINTS && k !in m.used && (k == 2 ==> PoolFor(maxPacket, m) != [])
    ensures m.dtds != []
    ensures MemoryOk(Installation(m, k, maxPacket)) && Others(m, Installation(m, k, maxPacket), k)
  {
    PoolSuffices(m, k);
    InstalledBuffers(m, k, maxPacket);
    var q := Installation(m, k, maxPacket).dqhs[k];
    TakeDescriptor(m.dtds, m.dqhs, k, q);
    TakeHead(m.dtds, m.dqhs, m.used, k, q);
  }
}
