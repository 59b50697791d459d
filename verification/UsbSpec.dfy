/** What holds at every step of the USB device driver and of the hardware, and what each step keeps. */
module UsbSpec {
  import opened Bytes
  import opened Sequences
  import opened UsbMemory
  import opened UsbTrace
  import opened Wrappers

  /** Queue heads that the driver has primed, whose loaded descriptor is active, and whose transfer is complete. */
  datatype Regs = Regs(primed: set<nat>, active: set<nat>, complete: set<nat>)

  /** The endpoints whose queue heads, in that direction, are in the set. */
  function Ins(complete: set<nat>): set<nat> {
    (if 1 in complete then {0} else {}) + (if 3 in complete then {1} else {})
  }

  function Outs(complete: set<nat>): set<nat> {
    (if 0 in complete then {0} else {}) + (if 2 in complete then {1} else {})
  }

  /** A completed or active transfer has its descriptor loaded; a queue head is primed before it has. */
  ghost predicate TransfersOk(qs: seq<Dqh>, r: Regs) {
    && |qs| == ENDPOINTS
    && (forall k <- r.complete :: k < ENDPOINTS && k !in r.active && qs[k].current.Some?)
    && (forall k <- r.active :: k < ENDPOINTS && qs[k].current.Some?)
    && (forall k <- r.primed :: k < ENDPOINTS && Installed(qs[k]).Some? && (k != 2 ==> qs[k].current.None?))
  }

  /** The bytes of a completed transfer: all that were to be sent, or what has arrived at the start of the buffer. */
  ghost predicate Delivered(m: Memory, k: nat, bytes: seq<Byte>)
    requires k < |m.dqhs|
  {
    if IsIn(k) then m.dqhs[k].left == 0
    else |bytes| + m.dqhs[k].left == m.dqhs[k].total && bytes <= Content(m, k)
  }

  /** The buffer of a queue head and what the history says about it. */
  ghost predicate HeadAgrees(m: Memory, r: Regs, l: Ledger, k: nat)
    requires k < |m.dqhs|
  {
    && ((k in r.primed && m.dqhs[k].current.None?) || k in r.active ==>
          k in l.flying && m.dqhs[k].addr.Some? && (IsIn(k) ==> l.flying[k] == Shown(m, k)))
    && (k in r.complete ==> k in l.open && m.dqhs[k].addr.Some? && Delivered(m, k, l.open[k]))
  }

  /** The transfers of these endpoints have been ended, and the hardware does not use them. */
  ghost predicate Idle(qs: seq<Dqh>, r: Regs, done: set<nat>) {
    done <= {0, 1} && forall k :: 0 <= k < |qs| && k in Heads(done) ==> k !in r.primed && qs[k].current.None?
  }

  /** What is open in the history is complete, or has been handled. */
  ghost predicate KeysOk(r: Regs, l: Ledger, done: set<nat>) {
    forall k: nat :: k in l.open <==> k in r.complete || k in Heads(done)
  }

  ghost predicate HeadsAgree(m: Memory, r: Regs, l: Ledger) {
    forall k :: 0 <= k < |m.dqhs| ==> HeadAgrees(m, r, l, k)
  }

  /**
   The transfers and what has become of them. The endpoints in `done` have been handled and are not used by the
   hardware; their reports are still to come.
   */
  ghost predicate FlightOk(m: Memory, r: Regs, l: Ledger, done: set<nat>) {
    TransfersOk(m.dqhs, r) && Idle(m.dqhs, r, done) && KeysOk(r, l, done) && HeadsAgree(m, r, l)
  }

  /** What holds at every step. */
  ghost predicate RunningOk(m: Memory, r: Regs, l: Ledger, done: set<nat>) {
    MemoryOk(m) && FlightOk(m, r, l, done)
  }

  /** Nothing new is said about a queue head. */
  predicate NoNews(r: Regs, l: Ledger, r': Regs, l': Ledger, k: nat) {
    && (k in r'.primed ==> k in r.primed) && (k in r'.active ==> k in r.active)
    && (k in l.flying && (k in r'.primed || k in r'.active) ==> k in l'.flying && l'.flying[k] == l.flying[k])
    && (k in r'.complete ==> k in r.complete && (k in l.open ==> k in l'.open && l'.open[k] == l.open[k]))
  }

  lemma HeadKept(m: Memory, n: Memory, r: Regs, l: Ledger, r': Regs, l': Ledger, k: nat)
    requires k < |m.dqhs| == |n.dqhs| && HeadAgrees(m, r, l, k) && NoNews(r, l, r', l', k)
    requires n.dqhs[k] == m.dqhs[k] && Content(n, k) == Content(m, k)
    ensures HeadAgrees(n, r', l', k)
  {
  }

  lemma HeadsKept(m: Memory, n: Memory, r: Regs, l: Ledger, r': Regs, l': Ledger, i: nat)
    requires HeadsAgree(m, r, l) && Others(m, n, i)
    requires forall k :: 0 <= k < |m.dqhs| && k != i ==> NoNews(r, l, r', l', k)
    requires i < |n.dqhs| ==> HeadAgrees(n, r', l', i)
    ensures HeadsAgree(n, r', l')
  {
    forall k | 0 <= k < |m.dqhs| && k != i ensures HeadAgrees(n, r', l', k) {
      HeadKept(m, n, r, l, r', l', k);
    }
  }

  /** What loading and completing leave alone: owners, sizes, addresses, and what is loaded already. */
  ghost predicate SameOwners(before: Memory, after: Memory) {
    && after == before.(dqhs := after.dqhs, ram := after.ram) && |after.dqhs| == |before.dqhs| == ENDPOINTS
    && (forall k :: 0 <= k < ENDPOINTS ==>
          && Installed(after.dqhs[k]) == Installed(before.dqhs[k])
          && after.dqhs[k] == before.dqhs[k].(current := after.dqhs[k].current, next := after.dqhs[k].next,
                                              left := after.dqhs[k].left)
          && (before.dqhs[k].current.Some? ==> after.dqhs[k].current == before.dqhs[k].current))
  }

  /** The hardware goes on: it loads what is primed, and completes what is loaded. */
  ghost predicate Progress(m: Memory, r: Regs, n: Memory, r': Regs) {
    && SameOwners(m, n) && r.complete <= r'.complete && r'.primed <= r.primed
    && (forall k <- r'.active :: k in r.active || k in r.primed)
    && (forall k <- r'.complete :: k in r.complete || k in r.active || k in r.primed)
    && (forall k :: 0 <= k < ENDPOINTS ==>
          n.dqhs[k].current == if k in r.primed && k !in r'.primed then Installed(m.dqhs[k]) else m.dqhs[k].current)
  }

  /** A queue head with no descriptor loaded, and none to be. */
  predicate AtRest(m: Memory, r: Regs, k: nat) {
    k < |m.dqhs| && m.dqhs[k].current.None? && k !in r.primed
  }

  /** Once nothing is primed any more, a queue head is at rest exactly if it was. */
  lemma RestStays(m: Memory, r: Regs, n: Memory, r': Regs, k: nat)
    requires TransfersOk(m.dqhs, r) && Progress(m, r, n, r') && k !in r'.primed
    ensures AtRest(n, r', k) <==> AtRest(m, r, k)
  {
  }

  lemma MoreProgress(m: Memory, r: Regs, n: Memory, r': Regs, o: Memory, r'': Regs)
    requires Progress(m, r, n, r') && Progress(n, r', o, r'')
    ensures Progress(m, r, o, r'')
  {
  }

  /** A descriptor is loaded whose transfer is neither active nor complete: nobody will end it. */
  predicate Stuck(m: Memory, r: Regs, k: nat) {
    k < |m.dqhs| && m.dqhs[k].current.Some? && k !in r.active && k !in r.complete
  }

  /** After a bus reset an IN endpoint is at rest exactly if it was, and what was complete is never ended. */
  ghost predicate Cancelled(m: Memory, r: Regs, n: Memory, r': Regs) {
    && (AtRest(n, r', 1) <==> AtRest(m, r, 1)) && (1 in r.complete ==> Stuck(n, r', 1))
    && (AtRest(n, r', 3) <==> AtRest(m, r, 3)) && (3 in r.complete ==> Stuck(n, r', 3))
    && forall k <- r'.complete :: k in r.active || k in r.primed
  }

  lemma CancelledFrom(m: Memory, r: Regs, n: Memory, r': Regs)
    requires TransfersOk(m.dqhs, r) && Cancelled(m, r.(complete := {}), n, r')
    requires Stuck(m, r.(complete := {}), 1) ==> Stuck(n, r', 1)
    requires Stuck(m, r.(complete := {}), 3) ==> Stuck(n, r', 3)
    ensures Cancelled(m, r, n, r')
  {
  }

  lemma IsUsed(m: Memory, k: nat)
    requires MemoryOk(m) && k < |m.dqhs| && Installed(m.dqhs[k]).Some?
    ensures k in m.used
  {
  }

  // ---- The hardware ---------------------------------------------------------------------------------------------

  function Loading(q: Dqh): Dqh {
    q.(current := q.next, next := None)
  }

  function LoadedRegs(r: Regs, k: nat): Regs {
    r.(primed := r.primed - {k}, active := r.active + {k})
  }

  lemma LoadedProgress(m: Memory, r: Regs, k: nat)
    requires |m.dqhs| == ENDPOINTS && k < ENDPOINTS && k in r.primed
    requires m.dqhs[k].current.None? && m.dqhs[k].next.Some?
    ensures Progress(m, r, Changed(m, k, Loading(m.dqhs[k])), LoadedRegs(r, k))
  {
  }

  /** Nothing is loaded over what is loaded already. */
  function UnprimedRegs(r: Regs, k: nat): Regs {
    r.(primed := r.primed - {k})
  }

  lemma UnprimedKeeps(m: Memory, r: Regs, l: Ledger, done: set<nat>, k: nat)
    requires FlightOk(m, r, l, done)
    requires k < |m.dqhs| ==> m.dqhs[k].current.Some?
    ensures FlightOk(m, UnprimedRegs(r, k), l, done)
  {
    HeadsKept(m, m, r, l, UnprimedRegs(r, k), l, |m.dqhs|);
  }

  lemma UnprimedProgress(m: Memory, r: Regs, k: nat)
    requires |m.dqhs| == ENDPOINTS && (k < ENDPOINTS ==> m.dqhs[k].current.Some?)
    ensures Progress(m, r, m, UnprimedRegs(r, k))
  {
  }

  function CompleteRegs(r: Regs, k: nat): Regs {
    r.(active := r.active - {k}, complete := r.complete + {k})
  }

  lemma LoadedFlight(m: Memory, n: Memory, r: Regs, l: Ledger, done: set<nat>, k: nat)
    requires FlightOk(m, r, l, done) && k < ENDPOINTS && k in r.primed
    requires m.dqhs[k].next.Some? && m.dqhs[k].current.None?
    requires n == Changed(m, k, Loading(m.dqhs[k])) && Others(m, n, k)
    ensures FlightOk(n, LoadedRegs(r, k), l, done)
  {
    assert HeadAgrees(m, r, l, k);
    HeadsKept(m, n, r, l, LoadedRegs(r, k), l, k);
  }

  lemma LoadedKeeps(m: Memory, r: Regs, l: Ledger, done: set<nat>, k: nat)
    requires RunningOk(m, r, l, done) && k < ENDPOINTS && k in r.primed && m.dqhs[k].next.Some?
    ensures RunningOk(Changed(m, k, Loading(m.dqhs[k])), LoadedRegs(r, k), l, done)
  {
    IsUsed(m, k);
    ChangedOk(m, k, Loading(m.dqhs[k]));
    LoadedFlight(m, Changed(m, k, Loading(m.dqhs[k])), r, l, done, k);
  }

  lemma CompleteProgress(m: Memory, r: Regs, n: Memory, k: nat, left: nat)
    requires |m.dqhs| == ENDPOINTS && k < ENDPOINTS && k in r.active
    requires n == m.(dqhs := m.dqhs[k := m.dqhs[k].(left := left)], ram := n.ram)
    ensures Progress(m, r, n, CompleteRegs(r, k))
  {
  }

  lemma CompleteFlight(m: Memory, n: Memory, r: Regs, l: Ledger, done: set<nat>, k: nat,
                                          bytes: seq<Byte>)
    requires FlightOk(m, r, l, done) && k in r.active && Others(m, n, k)
    requires n.dqhs[k] == m.dqhs[k].(left := n.dqhs[k].left) && Delivered(n, k, bytes)
    requires IsIn(k) ==> bytes == Shown(m, k)
    ensures Allowed(l, Completed(k, bytes))
    ensures FlightOk(n, CompleteRegs(r, k), Next(l, Completed(k, bytes)), done)
  {
    assert HeadAgrees(m, r, l, k);
    HeadsKept(m, n, r, l, CompleteRegs(r, k), Next(l, Completed(k, bytes)), k);
  }

  /** The hardware has sent the bytes of a transfer. */
  lemma SentKeeps(m: Memory, r: Regs, l: Ledger, done: set<nat>, k: nat)
    requires RunningOk(m, r, l, done) && k in r.active && IsIn(k)
    ensures var e := Completed(k, Shown(m, k));
            && Allowed(l, e)
            && RunningOk(Changed(m, k, m.dqhs[k].(left := 0)), CompleteRegs(r, k), Next(l, e), done)
  {
    IsUsed(m, k);
    ChangedOk(m, k, m.dqhs[k].(left := 0));
    CompleteFlight(m, Changed(m, k, m.dqhs[k].(left := 0)), r, l, done, k, Shown(m, k));
  }

  /** A packet is written at the start of a buffer. */
  function Overlay(packet: seq<Byte>, below: seq<Byte>): (r: seq<Byte>)
    ensures |packet| <= |below| ==> |r| == |below| && packet <= r
  {
    if |packet| <= |below| then packet + below[|packet|..] else packet
  }

  /** The buffer of a queue head is overwritten. */
  lemma OverwriteOk(m: Memory, k: nat, q: Dqh, content: seq<Byte>)
    requires MemoryOk(m) && k < ENDPOINTS && k in m.used && m.dqhs[k].addr.Some? && |content| == |Content(m, k)|
    requires q == m.dqhs[k].(total := q.total, left := q.left) && q.total <= m.dqhs[k].total
    ensures MemoryOk(Put(m, k, q, content)) && Others(m, Put(m, k, q, content), k)
  {
    assert Fits(m.dqhs[k], m.ram);
    PutOk(m, k, q, content);
  }

  /** A packet arrives at the start of the buffer. */
  function Received(q: Dqh, packet: seq<Byte>): Dqh {
    q.(left := if |packet| <= q.total then q.total - |packet| else 0)
  }

  lemma ArrivalOk(m: Memory, k: nat, packet: seq<Byte>, content: seq<Byte>)
    requires MemoryOk(m) && k < ENDPOINTS && k in m.used && m.dqhs[k].addr.Some? && |packet| <= m.dqhs[k].total
    requires content == Overlay(packet, Content(m, k)) && !IsIn(k)
    ensures var n := Put(m, k, Received(m.dqhs[k], packet), content);
            MemoryOk(n) && Others(m, n, k) && Delivered(n, k, packet)
  {
    assert Fits(m.dqhs[k], m.ram);
    OverwriteOk(m, k, Received(m.dqhs[k], packet), content);
  }

  lemma ArrivedKeeps(m: Memory, r: Regs, l: Ledger, done: set<nat>, k: nat, packet: seq<Byte>)
    requires RunningOk(m, r, l, done) && k in r.active && !IsIn(k) && |packet| <= m.dqhs[k].total
    ensures m.dqhs[k].addr.Some? && Allowed(l, Completed(k, packet))
    ensures RunningOk(Put(m, k, Received(m.dqhs[k], packet), Overlay(packet, Content(m, k))), CompleteRegs(r, k),
                      Next(l, Completed(k, packet)), done)
  {
    IsUsed(m, k);
    assert HeadAgrees(m, r, l, k);
    var content := Overlay(packet, Content(m, k));
    ArrivalOk(m, k, packet, content);
    CompleteFlight(m, Put(m, k, Received(m.dqhs[k], packet), content), r, l, done, k, packet);
  }

  // ---- The driver -----------------------------------------------------------------------------------------------

  lemma InstallationFlight(m: Memory, n: Memory, r: Regs, l: Ledger, done: set<nat>, k: nat)
    requires FlightOk(m, r, l, done) && k < ENDPOINTS && Installed(m.dqhs[k]).None? && m.dqhs[k].addr.None?
    requires Others(m, n, k) && n.dqhs[k].current.None?
    ensures FlightOk(n, r, l, done)
  {
    assert HeadAgrees(m, r, l, k);
    HeadsKept(m, n, r, l, r, l, k);
  }

  lemma InstallationKeeps(m: Memory, r: Regs, l: Ledger, done: set<nat>, k: nat, maxPacket: nat)
    requires RunningOk(m, r, l, done) && k < ENDPOINTS && k !in m.used && (k == 2 ==> PoolFor(maxPacket, m) != [])
    ensures m.dtds != [] && RunningOk(Installation(m, k, maxPacket), r, l, done)
  {
    InstalledOk(m, k, maxPacket);
    InstallationFlight(m, Installation(m, k, maxPacket), r, l, done, k);
  }

  lemma NotOpen(m: Memory, r: Regs, l: Ledger, k: nat)
    requires FlightOk(m, r, l, {}) && k < ENDPOINTS && m.dqhs[k].current.None?
    ensures k !in l.open
  {
  }

  /** A queue head is primed, with its buffer as it is now. */
  lemma PrimedFlight(m: Memory, n: Memory, r: Regs, l: Ledger, k: nat)
    requires FlightOk(m, r, l, {}) && Others(m, n, k) && k < ENDPOINTS && n.dqhs[k].addr.Some?
    requires n.dqhs[k].current == m.dqhs[k].current && Installed(n.dqhs[k]).Some?
    requires m.dqhs[k].current.None? || (k == 2 && n == m)
    ensures FlightOk(n, r.(primed := r.primed + {k}), Next(l, Started(k, Shown(n, k))), {})
  {
    assert HeadAgrees(m, r, l, k);
    HeadsKept(m, n, r, l, r.(primed := r.primed + {k}), Next(l, Started(k, Shown(n, k))), k);
  }

  /** Bytes are put into the buffer of the queue head, taken from a pool the first time. */
  function Filled(m: Memory, k: nat, bytes: seq<Byte>): Memory
    requires k < |m.dqhs| && (m.dqhs[k].addr.Some? || PoolFor(m.dqhs[k].maxPacket, m) != [])
  {
    var n := if m.dqhs[k].addr.Some? then m else WithBuffer(m, k);
    Put(n, k, n.dqhs[k].(total := |bytes|), Overlay(bytes, Content(n, k)))
  }

  lemma BufferedOk(m: Memory, k: nat)
    requires MemoryOk(m) && k < ENDPOINTS && k in m.used && (m.dqhs[k].addr.Some? ==> !m.dqhs[k].addr.value.Lent?)
    requires m.dqhs[k].addr.Some? || PoolFor(m.dqhs[k].maxPacket, m) != []
    ensures var n := if m.dqhs[k].addr.Some? then m else WithBuffer(m, k);
            && MemoryOk(n) && Others(m, n, k) && k in n.used && n.dqhs[k] == m.dqhs[k].(addr := n.dqhs[k].addr)
            && n.dqhs[k].addr.Some? && !n.dqhs[k].addr.value.Lent?
  {
    if m.dqhs[k].addr.None? {
      WithBufferOk(m, k);
      assert Last(PoolFor(m.dqhs[k].maxPacket, m)) in PoolFor(m.dqhs[k].maxPacket, m);
    }
  }

  lemma FilledOk(m: Memory, k: nat, bytes: seq<Byte>)
    requires MemoryOk(m) && k < ENDPOINTS && k in m.used && (m.dqhs[k].addr.Some? ==> !m.dqhs[k].addr.value.Lent?)
    requires m.dqhs[k].addr.Some? || PoolFor(m.dqhs[k].maxPacket, m) != []
    requires |bytes| <= m.dqhs[k].maxPacket
    ensures var n := Filled(m, k, bytes);
            && MemoryOk(n) && Others(m, n, k) && Shown(n, k) == bytes
            && n.dqhs[k] == m.dqhs[k].(addr := n.dqhs[k].addr, total := |bytes|)
            && n.dqhs[k].addr.Some? && !n.dqhs[k].addr.value.Lent?
  {
    BufferedOk(m, k);
    var n := if m.dqhs[k].addr.Some? then m else WithBuffer(m, k);
    assert Fits(n.dqhs[k], n.ram);
    PutOk(n, k, n.dqhs[k].(total := |bytes|), Overlay(bytes, Content(n, k)));
  }

  /** A transfer to the host is started. */
  lemma StartedKeeps(m: Memory, r: Regs, l: Ledger, k: nat, bytes: seq<Byte>)
    requires RunningOk(m, r, l, {}) && k < ENDPOINTS && m.dqhs[k].current.None? && m.dqhs[k].next.Some?
    requires if m.dqhs[k].addr.Some? then !m.dqhs[k].addr.value.Lent? else PoolFor(m.dqhs[k].maxPacket, m) != []
    requires |bytes| <= m.dqhs[k].maxPacket
    ensures RunningOk(Filled(m, k, bytes), r.(primed := r.primed + {k}), Next(l, Started(k, bytes)), {})
    ensures Others(m, Filled(m, k, bytes), k) && Shown(Filled(m, k, bytes), k) == bytes
    ensures var q := Filled(m, k, bytes).dqhs[k]; q == m.dqhs[k].(addr := q.addr, total := |bytes|)
  {
    IsUsed(m, k);
    FilledOk(m, k, bytes);
    PrimedFlight(m, Filled(m, k, bytes), r, l, k);
  }

  /** The buffer of the caller is lent to a control queue head. */
  function Lending(m: Memory, k: nat, content: seq<Byte>): Memory
    requires k < |m.dqhs|
  {
    Put(m, k, m.dqhs[k].(addr := Some(Lent(k)), total := |content|), content)
  }

  lemma LentKeeps(m: Memory, r: Regs, l: Ledger, k: nat, content: seq<Byte>)
    requires RunningOk(m, r, l, {}) && k < 2 && m.dqhs[k].current.None? && m.dqhs[k].next.Some?
    ensures RunningOk(Lending(m, k, content), r.(primed := r.primed + {k}), Next(l, Started(k, content)), {})
  {
    IsUsed(m, k);
    var n := Lending(m, k, content);
    PutOk(m, k, n.dqhs[k], content);
    assert Shown(n, k) == content;
    PrimedFlight(m, n, r, l, k);
  }

  /** A descriptor stays with its queue head for the next transfer. */
  function Unloading(q: Dqh): Dqh {
    q.(current := None, next := q.current)
  }

  function EndedRegs(r: Regs, k: nat): Regs {
    r.(complete := r.complete - {k})
  }

  lemma UnloadedOk(m: Memory, k: nat)
    requires MemoryOk(m) && k < ENDPOINTS && m.dqhs[k].current.Some?
    ensures var n := Changed(m, k, Unloading(m.dqhs[k])); MemoryOk(n) && Others(m, n, k)
  {
    IsUsed(m, k);
    ChangedOk(m, k, Unloading(m.dqhs[k]));
  }

  lemma EndedFlight(m: Memory, n: Memory, r: Regs, l: Ledger, done: set<nat>, i: nat)
    requires FlightOk(m, r, l, done) && i in Ins(r.complete)
    requires Others(m, n, 2 * i + 1) && n.dqhs == m.dqhs[2 * i + 1 := Unloading(m.dqhs[2 * i + 1])]
    ensures FlightOk(n, EndedRegs(r, 2 * i + 1), l, done + {i})
  {
    assert HeadAgrees(m, r, l, 2 * i + 1);
    HeadsKept(m, n, r, l, EndedRegs(r, 2 * i + 1), l, 2 * i + 1);
  }

  /** The end of a completed transfer to the host: its descriptor is unloaded. */
  lemma EndedKeeps(m: Memory, r: Regs, l: Ledger, done: set<nat>, i: nat)
    requires RunningOk(m, r, l, done) && i in Ins(r.complete)
    ensures var k := 2 * i + 1; RunningOk(Changed(m, k, Unloading(m.dqhs[k])), EndedRegs(r, k), l, done + {i})
  {
    var k := 2 * i + 1;
    UnloadedOk(m, k);
    EndedFlight(m, Changed(m, k, Unloading(m.dqhs[k])), r, l, done, i);
  }

  lemma TakenFlight(m: Memory, n: Memory, r: Regs, l: Ledger, k: nat)
    requires FlightOk(m, r, l, {}) && k in r.complete && k !in r.primed
    requires Others(m, n, k) && n.dqhs == m.dqhs[k := Unloading(m.dqhs[k])]
    ensures Allowed(l, Taken(k)) && FlightOk(n, EndedRegs(r, k), Next(l, Taken(k)), {})
  {
    assert HeadAgrees(m, r, l, k);
    HeadsKept(m, n, r, l, EndedRegs(r, k), Next(l, Taken(k)), k);
  }

  /** The end of a transfer that the control endpoint has read. */
  lemma TakenKeeps(m: Memory, r: Regs, l: Ledger, k: nat)
    requires RunningOk(m, r, l, {}) && k in r.complete && k != 2
    ensures Allowed(l, Taken(k))
    ensures RunningOk(Changed(m, k, Unloading(m.dqhs[k])), EndedRegs(r, k), Next(l, Taken(k)), {})
  {
    UnloadedOk(m, k);
    TakenFlight(m, Changed(m, k, Unloading(m.dqhs[k])), r, l, k);
  }

  /** A queue head is given its descriptor and buffer again, for a whole packet. */
  function Repriming(q: Dqh): Dqh {
    Unloading(q).(total := q.maxPacket)
  }

  function Again(r: Regs, k: nat): Regs {
    Regs(r.primed + {k}, r.active, r.complete - {k})
  }

  lemma AgainOk(m: Memory, k: nat)
    requires MemoryOk(m) && 2 <= k < ENDPOINTS && m.dqhs[k].current.Some? && m.dqhs[k].addr.Some?
    ensures var n := Changed(m, k, Repriming(m.dqhs[k])); MemoryOk(n) && Others(m, n, k)
    ensures m.dqhs[k].maxPacket <= |Content(m, k)|
  {
    IsUsed(m, k);
    assert Owns(m.dqhs[k], m.dqhs[k].addr.value) && Fits(m.dqhs[k], m.ram);
    ChangedOk(m, k, Repriming(m.dqhs[k]));
  }

  lemma AgainFlight(m: Memory, n: Memory, r: Regs, l: Ledger, k: nat)
    requires FlightOk(m, r, l, {}) && k in r.complete && Others(m, n, k) && n.dqhs[k] == Repriming(m.dqhs[k])
    ensures Allowed(l, Taken(k))
    ensures FlightOk(n, Again(r, k), Next(Next(l, Taken(k)), Started(k, Shown(n, k))), {})
  {
    assert HeadAgrees(m, r, l, k);
    HeadsKept(m, n, r, l, Again(r, k), Next(Next(l, Taken(k)), Started(k, Shown(n, k))), k);
  }

  /** The end of a transfer that a read has copied, after which the queue head is primed again. */
  lemma AgainKeeps(m: Memory, r: Regs, l: Ledger, k: nat)
    requires RunningOk(m, r, l, {}) && k in r.complete && 2 <= k
    ensures Allowed(l, Taken(k)) && m.dqhs[k].maxPacket <= |Content(m, k)|
    ensures var n := Changed(m, k, Repriming(m.dqhs[k]));
            RunningOk(n, Again(r, k), Next(Next(l, Taken(k)), Started(k, Content(m, k)[..m.dqhs[k].maxPacket])), {})
  {
    assert HeadAgrees(m, r, l, k);
    AgainOk(m, k);
    AgainFlight(m, Changed(m, k, Repriming(m.dqhs[k])), r, l, k);
  }

  lemma ReportedKeeps(m: Memory, r: Regs, l: Ledger, done: set<nat>, status: bool)
    requires FlightOk(m, r, l, done) && (status ==> done == {} && l.due)
    ensures Allowed(l, Reported(done, status)) && FlightOk(m, r, Next(l, Reported(done, status)), {})
  {
    HeadsKept(m, m, r, l, r, Next(l, Reported(done, status)), |m.dqhs|);
  }

  lemma RequestKeeps(m: Memory, r: Regs, l: Ledger, descriptor: bool)
    requires FlightOk(m, r, l, {})
    ensures FlightOk(m, r, Next(l, Request(descriptor)), {})
  {
    HeadsKept(m, m, r, l, r, Next(l, Request(descriptor)), |m.dqhs|);
  }

  /** What is known of a completed transfer. */
  lemma CompleteIs(m: Memory, r: Regs, l: Ledger, k: nat)
    requires RunningOk(m, r, l, {}) && k in r.complete
    ensures k < ENDPOINTS && m.dqhs[k].current.Some? && m.dqhs[k].addr.Some? && k in l.open
    ensures m.dqhs[k].total <= |Content(m, k)| && m.dqhs[k].left <= m.dqhs[k].total
    ensures |Shown(m, k)| == m.dqhs[k].total && |Shown(m, k)| <= |Content(m, k)|
    ensures k < 2 || m.dqhs[k].total <= m.dqhs[k].maxPacket <= |Content(m, k)|
    ensures IsIn(k) ==> m.dqhs[k].left == 0
    ensures !IsIn(k) ==> var n := m.dqhs[k].total - m.dqhs[k].left;
                         l.open[k] == Shown(m, k)[..n] == Content(m, k)[..n]
  {
    assert HeadAgrees(m, r, l, k);
    assert Delivered(m, k, l.open[k]);
    assert Fits(m.dqhs[k], m.ram) && Owns(m.dqhs[k], m.dqhs[k].addr.value);
  }

  lemma DroppedKeeps(m: Memory, r: Regs, l: Ledger)
    requires FlightOk(m, r, l, {})
    ensures Allowed(l, BusReset(r.complete)) && FlightOk(m, r.(complete := {}), Next(l, BusReset(r.complete)), {})
  {
    assert l.open.Keys == r.complete;
    HeadsKept(m, m, r, l, r.(complete := {}), Next(l, BusReset(r.complete)), |m.dqhs|);
  }

  lemma FlushedKeeps(m: Memory, r: Regs, l: Ledger)
    requires FlightOk(m, r, l, {})
    ensures FlightOk(m, Regs({}, {}, r.complete), Next(l, Flushed), {})
  {
    HeadsKept(m, m, r, l, Regs({}, {}, r.complete), Next(l, Flushed), |m.dqhs|);
  }
}
