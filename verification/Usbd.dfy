/**
 The USB device driver, as the object that its methods update, and the hardware that acts between their steps.
 */
module Usbd {
  import opened Bytes
  import opened Sequences
  import opened UsbMemory
  import opened UsbSpec
  import opened UsbTrace
  import opened Wrappers

  // ---- Set-up packets -------------------------------------------------------------------------------------------

  /** The set-up buffer of the control endpoint. A packet is written as a whole and clears the tripwire. */
  class SetupPort {
    var bytes: seq<Byte>
    var tripwire: bool
    var arriving: seq<seq<Byte>>
    /** All packets written so far. */
    ghost var log: seq<seq<Byte>>

    ghost predicate Valid()
      reads this
    {
      && |bytes| == 8 && (forall p <- arriving :: |p| == 8)
      && log != [] && bytes == log[|log| - 1]
    }

    /** The bytes are a packet that has arrived since the log had this length, or the last one before. */
    ghost predicate Arrived(before: nat, packet: seq<Byte>)
      reads this
    {
      exists k :: before - 1 <= k < |log| && 0 <= k && packet == log[k]
    }

    constructor (arriving: seq<seq<Byte>>)
      requires forall p <- arriving :: |p| == 8
      ensures Valid() && this.arriving == arriving
    {
      bytes, tripwire, this.arriving, log := seq(8, _ => 0), false, arriving, [seq(8, _ => 0)];
    }

    /** Any number of packets arrive. */
    method Hardware()
      requires Valid()
      modifies this
      ensures Valid() && old(log) <= log && |log| + |arriving| == old(|log| + |arriving|)
      ensures if log == old(log) then bytes == old(bytes) && tripwire == old(tripwire) && arriving == old(arriving)
              else !tripwire
    {
      var n: nat := *;
      while n > 0 && arriving != []
        invariant Valid() && old(log) <= log && |log| + |arriving| == old(|log| + |arriving|)
        invariant if log == old(log) then bytes == old(bytes) && tripwire == old(tripwire) && arriving == old(arriving)
                  else !tripwire
        decreases n
      {
        bytes, tripwire, log := arriving[0], false, log + [arriving[0]];
        arriving := arriving[1..];
        n := n - 1;
      }
    }

    /**
     Copies the bytes while packets arrive, or the zeros of another queue head. The tripwire, if it is still set, says
     that no packet has.
     */
    method CopyBytes(buf: array<Byte>, own: bool)
      requires Valid() && buf.Length >= 8
      modifies this, buf
      ensures Valid() && old(log) <= log && |log| + |arriving| == old(|log| + |arriving|) && buf[8..] == old(buf[8..])
      ensures if tripwire then own ==> buf[..8] == bytes else |log| > old(|log|)
      ensures !own ==> buf[..8] == seq(8, _ => 0)
    {
      ghost var mark, rest := log, buf[8..];
      tripwire := true;
      for i := 0 to 8
        invariant Valid() && mark <= log && buf[8..] == rest && |log| + |arriving| == old(|log| + |arriving|)
        invariant tripwire <==> log == mark
        invariant tripwire && own ==> buf[..i] == bytes[..i]
        invariant !own ==> buf[..i] == seq(i, _ => 0)
      {
        Hardware();
        buf[i] := if own then bytes[i] else 0;
      }
      Hardware();
    }

    /**
     However packets arrive while the bytes are copied, what is returned is one packet, the latest when it is. At
     another queue head, whose set-up bytes nobody writes, it is zeros.
     */
    method ReadPacket(buf: array<Byte>, own: bool)
      requires Valid() && buf.Length >= 8
      modifies this, buf
      ensures Valid() && old(log) <= log
      ensures if own then Arrived(old(|log|), buf[..8]) else buf[..8] == seq(8, _ => 0)
      ensures buf[8..] == old(buf[8..])
    {
      ghost var rest := buf[8..];
      while true
        invariant Valid() && old(log) <= log && |log| + |arriving| == old(|log| + |arriving|) && buf[8..] == rest
        decreases |arriving|
      {
        Hardware();
        CopyBytes(buf, own);
        if tripwire {
          assert own ==> buf[..8] == log[|log| - 1];
          break;
        }
      }
      tripwire := false;
    }
  }

  // ---- The driver -----------------------------------------------------------------------------------------------

  datatype PollResult = Reset | NoEvent | Data(ins: set<nat>, setup: set<nat>, outs: set<nat>)

  datatype Allocated = Allocated(ep: EpAddr) | Overflow | InUse | AllocPanic

  /** `WriteWild` is a copy to memory that the caller of an earlier read has lent. */
  datatype Written = Accepted(n: nat) | NoEndpoint | TooLong | Busy | WritePanic | WriteWild

  datatype ReadOutcome = Got(n: nat) | WouldBlock | InvalidEndpoint | ReadPanic | BoardReset

  /** The endpoint that is allocated, or why there is none. */
  function WhichEp(isOut: bool, addr: Option<EpAddr>, used: set<nat>): Allocated {
    if addr.None? then if ToDqhIdx(EpAddr(1, isOut)) in used then Overflow else Allocated(EpAddr(1, isOut))
    else if ToDqhIdx(addr.value) >= ENDPOINTS then Overflow
    else if ToDqhIdx(addr.value) in used then InUse
    else Allocated(addr.value)
  }

  function Reporting(setup: set<nat>, ins: set<nat>, outs: set<nat>, statusOut: set<nat>): PollResult {
    if setup == {} && ins == {} && outs == {} && statusOut == {} then NoEvent
    else Data(ins, setup, if statusOut != {} && ins == {} then statusOut else outs)
  }

  /**
   What `poll` reports, unless there is a bus reset: each completed transfer to the host, and a deferred STATUS OUT
   instead of the OUT endpoints when there is none.
   */
  function Polled(setup: set<nat>, complete: set<nat>, statusOut: set<nat>): PollResult {
    Reporting(setup, Ins(complete), Outs(complete), statusOut)
  }

  /** A STATUS OUT that becomes due while a completed transfer is reported does not show yet. */
  lemma SameReport(setup: set<nat>, ins: set<nat>, outs: set<nat>, before: set<nat>, now: set<nat>)
    requires ins == {} ==> now == before
    ensures Reporting(setup, ins, outs, now) == Reporting(setup, ins, outs, before)
  {
  }

  method CopyOut(buf: array<Byte>, content: seq<Byte>, n: nat)
    requires n <= buf.Length && n <= |content|
    modifies buf
    ensures forall m :: 0 <= m <= n ==> buf[..m] == content[..m]
  {
    forall i | 0 <= i < n {
      buf[i] := content[i];
    }
  }

  /** Whether the end of the data phase has moved the control endpoint from the pending to the due STATUS OUT phases. */
  predicate Moved(pre: set<nat>, status: set<nat>, pre': set<nat>, status': set<nat>, ended: bool) {
    pre' == (if ended then {} else pre) && status' == (if ended && 0 in pre then {0} else status)
  }

  function Value(mask: Option<set<nat>>): set<nat> {
    if mask.Some? then mask.value else {}
  }

  /** Every allocated direction is enabled. */
  predicate Enabled(used: set<nat>, rxe: bool, txe: bool) {
    (0 in used || 2 in used ==> rxe) && (1 in used || 3 in used ==> txe)
  }

  predicate Reconfigures(request: (Byte, Byte)) {
    request == (0, 9) || request == (1, 11)
  }

  lemma SamePair(a: set<nat>, b: set<nat>)
    requires a <= {0, 1} && b <= {0, 1} && (0 in a <==> 0 in b) && (1 in a <==> 1 in b)
    ensures a == b
  {
  }

  /** The phases of a STATUS OUT before the report, when the driver has or has not ended the data phase. */
  predicate Ahead(l: Ledger, pre: set<nat>, status: set<nat>, ended: bool) {
    && pre <= {0} && status <= {0}
    && if ended then pre == {} && (l.armed || l.due <==> 0 in status)
       else l.armed == (0 in pre) && l.due == (0 in status)
  }

  lemma MovedAhead(l: Ledger, pre: set<nat>, status: set<nat>, pre': set<nat>, status': set<nat>,
                                      ended: bool)
    requires Ahead(l, pre, status, false) && Moved(pre, status, pre', status', ended)
    ensures Ahead(l, pre', status', ended)
  {
  }

  /** Of the transfers in a snapshot, those in `bits` are still complete, and the others have been handled. */
  ghost predicate Snapshot(txs: set<nat>, bits: set<nat>, complete: set<nat>, done: set<nat>) {
    && bits <= txs <= {0, 1} && (0 in bits ==> 1 in complete) && (1 in bits ==> 3 in complete)
    && (0 in done <==> 0 in txs && 0 !in bits) && (1 in done <==> 1 in txs && 1 !in bits)
  }

  lemma SnapshotNext(txs: set<nat>, bits: set<nat>, complete: set<nat>, done: set<nat>, bit: nat)
    requires Snapshot(txs, bits, complete, done) && bit in bits
    ensures Snapshot(txs, bits - {bit}, complete - {2 * bit + 1}, done + {bit}) && bits - {bit} != txs
  {
  }

  class Inner {
    var mem: Memory
    var setupstat: Option<set<nat>>
    var epInComplete: Option<set<nat>>
    var preStatusOut: set<nat>
    var statusOut: set<nat>

    // The registers, as sets of queue heads or of control endpoints, and the enable bits of the endpoints.
    var regs: Regs
    var setupReg: set<nat>
    var uri: bool
    var rxe: bool
    var txe: bool

    const port: SetupPort

    ghost var trace: seq<Event>

    /** The endpoints in `done` have been handled and are not used by the hardware; their reports are still to come. */
    ghost predicate Running(done: set<nat>)
      reads this`mem, this`regs, this`trace
    {
      InOrder(trace) && RunningOk(mem, regs, After(trace), done)
    }

    ghost predicate Phases()
      reads this`trace, this`preStatusOut, this`statusOut
    {
      && After(trace).armed == (0 in preStatusOut) && After(trace).due == (0 in statusOut)
      && preStatusOut <= {0} && statusOut <= {0}
    }

    ghost predicate Valid()
      reads this`mem, this`regs, this`trace, this`epInComplete, this`preStatusOut, this`statusOut
    {
      Running({}) && epInComplete.None? && Phases()
    }

    constructor (port: SetupPort)
      ensures Valid() && this.port == port && mem == INITIAL && trace == [] && regs == Regs({}, {}, {})
      ensures preStatusOut == statusOut == setupReg == {} && setupstat == None && !uri
    {
      this.port := port;
      mem, setupstat, epInComplete, preStatusOut, statusOut := INITIAL, None, None, {}, {};
      regs, setupReg, uri, rxe, txe, trace := Regs({}, {}, {}), {}, false, false, false, [];
      new;
      InitialOk();
    }

    /** Once nobody will end the transfer of an IN endpoint, it stays so. */
    twostate predicate StuckStays()
      reads this`mem, this`regs
    {
      (old(Stuck(mem, regs, 1)) ==> Stuck(mem, regs, 1)) && (old(Stuck(mem, regs, 3)) ==> Stuck(mem, regs, 3))
    }

    /** The history goes on, and a STATUS OUT to come is still to come. */
    twostate predicate PhaseStays()
      reads this`trace
    {
      && old(trace) <= trace
      && After(trace).armed == old(After(trace).armed) && After(trace).due == old(After(trace).due)
    }

    // The hardware.

    /** With nothing in flight, nothing comes. */
    twostate predicate Quiet()
      reads this`regs
    {
      old(regs.primed) == {} && old(regs.active) == {} ==>
        regs.primed == {} && regs.active == {} && regs.complete <= old(regs.complete)
    }

    /** With nothing in flight, no transfer to the host is left. */
    twostate predicate Clear()
      reads this`regs
    {
      old(regs.primed) == {} && old(regs.active) == {} ==>
        regs.primed == {} && regs.active == {} && Ins(regs.complete) == {}
    }

    /** What hardware steps leave alone. */
    twostate predicate HardwareKeeps()
      reads this`mem, this`regs, this`trace
    {
      Progress(old(mem), old(regs), mem, regs) && PhaseStays() && StuckStays()
    }

    /** A primed queue head loads its next descriptor, unless it has one loaded. */
    method HardwareLoad(k: nat, ghost done: set<nat>)
      requires Running(done)
      modifies this`mem, this`regs
      ensures Running(done) && HardwareKeeps()
      ensures k in old(regs.primed) && old(mem).dqhs[k].next.Some? ==>
                && mem == Changed(old(mem), k, Loading(old(mem).dqhs[k])) && regs == LoadedRegs(old(regs), k)
    {
      if k in regs.primed && mem.dqhs[k].next.Some? {
        LoadedKeeps(mem, regs, After(trace), done, k);
        LoadedProgress(mem, regs, k);
        mem, regs := Changed(mem, k, Loading(mem.dqhs[k])), LoadedRegs(regs, k);
      } else if k in regs.primed {
        UnprimedKeeps(mem, regs, After(trace), done, k);
        UnprimedProgress(mem, regs, k);
        regs := UnprimedRegs(regs, k);
      }
    }

    /** The bytes of a loaded transfer are sent. */
    method HardwareSend(k: nat, ghost done: set<nat>)
      requires Running(done) && k in regs.active && IsIn(k)
      modifies this`mem, this`regs, this`trace
      ensures Running(done) && HardwareKeeps()
      ensures mem == Changed(old(mem), k, old(mem).dqhs[k].(left := 0)) && regs == CompleteRegs(old(regs), k)
      ensures trace == old(trace) + [Completed(k, Shown(old(mem), k))]
    {
      SentKeeps(mem, regs, After(trace), done, k);
      EventNext(trace, Completed(k, Shown(mem, k)));
      CompleteProgress(mem, regs, Changed(mem, k, mem.dqhs[k].(left := 0)), k, 0);
      trace := trace + [Completed(k, Shown(mem, k))];
      mem, regs := Changed(mem, k, mem.dqhs[k].(left := 0)), CompleteRegs(regs, k);
    }

    /** A packet arrives for a loaded transfer. */
    method HardwareReceive(k: nat, packet: seq<Byte>, ghost done: set<nat>)
      requires Running(done) && k in regs.active && !IsIn(k) && |packet| <= mem.dqhs[k].total
      modifies this`mem, this`regs, this`trace
      ensures Running(done) && HardwareKeeps()
      ensures regs == CompleteRegs(old(regs), k) && trace == old(trace) + [Completed(k, packet)]
    {
      ArrivedKeeps(mem, regs, After(trace), done, k, packet);
      EventNext(trace, Completed(k, packet));
      var now := Put(mem, k, Received(mem.dqhs[k], packet), Overlay(packet, Content(mem, k)));
      CompleteProgress(mem, regs, now, k, Received(mem.dqhs[k], packet).left);
      mem, regs, trace := now, CompleteRegs(regs, k), trace + [Completed(k, packet)];
    }

    method HardwareStep(k: nat, packet: seq<Byte>, ghost done: set<nat>)
      requires Running(done)
      modifies this`mem, this`regs, this`trace
      ensures Running(done) && HardwareKeeps()
    {
      if k in regs.primed {
        HardwareLoad(k, done);
      } else if k in regs.active && IsIn(k) {
        HardwareSend(k, done);
      } else if k in regs.active && |packet| <= mem.dqhs[k].total {
        HardwareReceive(k, packet, done);
      }
    }

    method Hardware(ghost done: set<nat>)
      requires Running(done)
      modifies this`mem, this`regs, this`trace
      ensures Running(done) && HardwareKeeps()
    {
      var n: nat := *;
      while n > 0
        invariant Running(done) && HardwareKeeps()
      {
        ghost var m, r := mem, regs;
        var k: nat, packet: seq<Byte> := *, *;
        HardwareStep(k, packet, done);
        MoreProgress(old(mem), old(regs), m, r, mem, regs);
        n := n - 1;
      }
    }

    /** A bus reset or a set-up packet is signalled. */
    method HardwareSignal()
      modifies this`uri, this`setupReg, this`rxe, this`txe
    {
      uri := *;
      if uri {
        rxe, txe := *, *;
      }
      var setup := *;
      if setup {
        setupReg := {0};
      }
    }

    // The driver.

    /** The endpoint at the address, or else the lowest free one that is not the control endpoint. */
    method FindEp(isOut: bool, addr: Option<EpAddr>) returns (r: Allocated)
      ensures r == WhichEp(isOut, addr, mem.used)
    {
      if addr.Some? {
        if ToDqhIdx(addr.value) >= ENDPOINTS {
          return Overflow;
        }
        if ToDqhIdx(addr.value) in mem.used {
          return InUse;
        }
        return Allocated(addr.value);
      }
      var i := 1;
      while true
        invariant 1 <= i <= 2 && (i == 2 ==> ToDqhIdx(EpAddr(1, isOut)) in mem.used)
        decreases 2 - i
      {
        if ToDqhIdx(EpAddr(i, isOut)) >= ENDPOINTS {
          return Overflow;
        }
        if ToDqhIdx(EpAddr(i, isOut)) !in mem.used {
          return Allocated(EpAddr(i, isOut));
        }
        i := i + 1;
      }
    }

    /**
     Installs a descriptor in a free queue head, and a buffer if it needs one. It panics when the packet size is not
     supported or the buffers of that size are used up. The descriptors never are.
     */
    method Install(k: nat, maxPacket: nat) returns (ok: bool)
      requires Valid() && k < ENDPOINTS && k !in mem.used
      modifies this`mem
      ensures ok <==> maxPacket <= 0x400 && (k == 2 ==> PoolFor(maxPacket, old(mem)) != [])
      ensures old(mem).dtds != []
      ensures ok ==> Valid() && mem == Installation(old(mem), k, maxPacket) && StuckStays()
    {
      PoolSuffices(mem, k);
      if maxPacket > 0x400 || (k == 2 && PoolFor(maxPacket, mem) == []) {
        return false;
      }
      InstallationKeeps(mem, regs, After(trace), {}, k, maxPacket);
      mem := Installation(mem, k, maxPacket);
      ok := true;
    }

    method AllocEp(isOut: bool, addr: Option<EpAddr>, isochronous: bool, maxPacket: nat) returns (r: Allocated)
      requires Valid()
      modifies this`mem
      ensures !r.AllocPanic? ==> Valid() && r == WhichEp(isOut, addr, old(mem.used)) && StuckStays()
      ensures r.AllocPanic? <==>
                || isochronous
                || (var w := WhichEp(isOut, addr, old(mem.used));
                    w.Allocated? && (maxPacket > 0x400 || (ToDqhIdx(w.ep) == 2 && PoolFor(maxPacket, old(mem)) == [])))
      ensures r.Allocated? ==> old(mem).dtds != [] && mem == Installation(old(mem), ToDqhIdx(r.ep), maxPacket)
      ensures r.Overflow? || r.InUse? ==> mem == old(mem)
    {
      if isochronous {
        return AllocPanic;
      }
      r := FindEp(isOut, addr);
      if r.Allocated? {
        var ok := Install(ToDqhIdx(r.ep), maxPacket);
        if !ok {
          return AllocPanic;
        }
      }
    }

    /** Fills the buffer of a queue head, taken from a pool the first time. */
    method Fill(k: nat, bytes: seq<Byte>) returns (now: Memory)
      requires Valid() && k < ENDPOINTS && mem.dqhs[k].current.None? && mem.dqhs[k].next.Some?
      requires if mem.dqhs[k].addr.Some? then !mem.dqhs[k].addr.value.Lent?
               else PoolFor(mem.dqhs[k].maxPacket, mem) != []
      requires |bytes| <= mem.dqhs[k].maxPacket
      ensures RunningOk(now, regs.(primed := regs.primed + {k}), Next(After(trace), Started(k, bytes)), {})
      ensures Others(mem, now, k) && Shown(now, k) == bytes && now == Filled(mem, k, bytes)
      ensures now.dqhs[k] == mem.dqhs[k].(addr := now.dqhs[k].addr, total := |bytes|)
    {
      StartedKeeps(mem, regs, After(trace), k, bytes);
      now := Filled(mem, k, bytes);
    }

    /** Primes a queue head whose buffer has been filled. */
    method Prime(k: nat, now: Memory, bytes: seq<Byte>)
      requires Valid() && k < ENDPOINTS && mem.dqhs[k].current.None? && Others(mem, now, k)
      requires RunningOk(now, regs.(primed := regs.primed + {k}), Next(After(trace), Started(k, bytes)), {})
      requires IsIn(k) ==> k !in After(trace).open
      modifies this`mem, this`regs, this`trace
      ensures Valid() && StuckStays() && mem == now
      ensures regs == old(regs).(primed := old(regs).primed + {k}) && trace == old(trace) + [Started(k, bytes)]
    {
      EventNext(trace, Started(k, bytes));
      mem, regs, trace := now, regs.(primed := regs.primed + {k}), trace + [Started(k, bytes)];
    }

    /** Fills the buffer of a queue head and primes it. */
    method Launch(k: nat, bytes: seq<Byte>)
      requires Valid() && k < ENDPOINTS && mem.dqhs[k].current.None? && mem.dqhs[k].next.Some?
      requires if mem.dqhs[k].addr.Some? then !mem.dqhs[k].addr.value.Lent?
               else PoolFor(mem.dqhs[k].maxPacket, mem) != []
      requires |bytes| <= mem.dqhs[k].maxPacket
      modifies this`mem, this`regs, this`trace
      ensures Valid() && StuckStays() && Shown(mem, k) == bytes && mem == Filled(old(mem), k, bytes)
      ensures regs == old(regs).(primed := old(regs).primed + {k}) && trace == old(trace) + [Started(k, bytes)]
      ensures mem.dqhs[k] == old(mem.dqhs)[k].(addr := mem.dqhs[k].addr, total := |bytes|)
    {
      NotOpen(mem, regs, After(trace), k);
      var now := Fill(k, bytes);
      Prime(k, now, bytes);
    }

    /** Starts a transfer to the host. */
    method StartWrite(ep: EpAddr, bytes: seq<Byte>) returns (r: Written)
      requires Valid()
      modifies this`mem, this`regs, this`trace
      ensures !r.WritePanic? && !r.WriteWild? ==> Valid() && StuckStays()
      ensures r.NoEndpoint? <==> ToDqhIdx(ep) >= ENDPOINTS
      ensures !r.NoEndpoint? ==>
                var q := old(mem.dqhs)[ToDqhIdx(ep)];
                var ready := |bytes| <= q.maxPacket && q.current.None?;
                && (r.TooLong? <==> |bytes| > q.maxPacket)
                && (r.Busy? <==> |bytes| <= q.maxPacket && q.current.Some?)
                && (r.WritePanic? <==>
                      ready && (q.next.None? || (q.addr.None? && PoolFor(q.maxPacket, old(mem)) == [])))
                && (r.WriteWild? <==> ready && q.next.Some? && q.addr.Some? && q.addr.value.Lent?)
      ensures if r.Accepted? then
                var k := ToDqhIdx(ep);
                && r.n == |bytes| && Shown(mem, k) == bytes && mem == Filled(old(mem), k, bytes)
                && regs == old(regs).(primed := old(regs).primed + {k}) && trace == old(trace) + [Started(k, bytes)]
                && mem.dqhs[k] == old(mem.dqhs)[k].(addr := mem.dqhs[k].addr, total := |bytes|)
              else mem == old(mem) && regs == old(regs) && trace == old(trace)
    {
      var k := ToDqhIdx(ep);
      if k >= ENDPOINTS {
        return NoEndpoint;
      }
      var q := mem.dqhs[k];
      if |bytes| > q.maxPacket {
        return TooLong;
      }
      if q.current.Some? {
        return Busy;
      }
      if q.next.None? || (q.addr.None? && PoolFor(q.maxPacket, mem) == []) {
        return WritePanic;
      }
      if q.addr.Some? && q.addr.value.Lent? {
        return WriteWild;
      }
      Launch(k, bytes);
      r := Accepted(|bytes|);
    }

    /** Ends a completed transfer to the host, unless it failed: then the board is reset. */
    method EndWrite(i: nat, ghost done: set<nat>) returns (ok: bool)
      requires Running(done) && i in Ins(regs.complete) && preStatusOut <= {0} && statusOut <= {0}
      modifies this`regs, this`epInComplete, this`preStatusOut, this`statusOut, this`mem
      ensures ok ==> Running(done + {i}) && regs == EndedRegs(old(regs), 2 * i + 1) && StuckStays()
      ensures ok ==> epInComplete == Some(Value(old(epInComplete)) + {i})
      ensures ok ==> Moved(old(preStatusOut), old(statusOut), preStatusOut, statusOut, i == 0)
    {
      var k := ToDqhIdx(EpAddr(i, false));
      EndedKeeps(mem, regs, After(trace), done, i);
      ok := *;
      if ok {
        epInComplete := Some(Value(epInComplete) + {i});
        if i in preStatusOut {
          assert preStatusOut - {i} == {} && statusOut + {i} == {0};
          statusOut, preStatusOut := statusOut + {i}, preStatusOut - {i};
        } else {
          assert i == 0 ==> preStatusOut == {};
        }
        mem, regs := Changed(mem, k, Unloading(mem.dqhs[k])), EndedRegs(regs, k);
      }
    }

    /** The index of the lowest bit that is set. */
    method Lowest(bits: set<nat>) returns (i: nat)
      requires bits != {} && bits <= {0, 1}
      ensures i in bits && forall j <- bits :: i <= j
    {
      i := 0;
      while i !in bits
        invariant i <= 1 && forall j <- bits :: i <= j
        decreases 1 - i
      {
        i := i + 1;
      }
    }

    /** The transfers in `bits` are still to be ended, of those in the snapshot `txs` of the register. */
    ghost predicate Closing(txs: set<nat>, bits: set<nat>)
      reads this`mem, this`regs, this`trace, this`epInComplete, this`preStatusOut, this`statusOut
    {
      && Running(Value(epInComplete)) && Snapshot(txs, bits, regs.complete, Value(epInComplete))
      && preStatusOut <= {0} && statusOut <= {0} && (bits == txs ==> epInComplete.None?)
    }

    /** The hardware acts, and the lowest of the transfers is ended. */
    method EndNext(bits: set<nat>, ghost txs: set<nat>) returns (ok: bool, left: set<nat>)
      requires Closing(txs, bits) && bits != {}
      modifies this`regs, this`epInComplete, this`preStatusOut, this`statusOut, this`mem, this`trace
      ensures left < bits
      ensures ok ==> Closing(txs, left) && StuckStays() && Quiet()
      ensures ok ==> Moved(old(preStatusOut), old(statusOut), preStatusOut, statusOut, 0 in bits && 0 !in left)
      ensures PhaseStays()
    {
      var bit := Lowest(bits);
      left := bits - {bit};
      Hardware(Value(epInComplete));
      SnapshotNext(txs, bits, regs.complete, Value(epInComplete), bit);
      ok := EndWrite(bit, Value(epInComplete));
    }

    /** Ends every completed transfer in the snapshot of the register, while the hardware may complete others. */
    method EndWrites(txs: set<nat>) returns (ok: bool)
      requires Closing(txs, txs)
      modifies this`regs, this`epInComplete, this`preStatusOut, this`statusOut, this`mem, this`trace
      ensures ok ==> Running(Value(epInComplete)) && Value(epInComplete) == txs && (txs == {} ==> epInComplete.None?)
      ensures ok ==> Moved(old(preStatusOut), old(statusOut), preStatusOut, statusOut, 0 in txs)
      ensures ok ==> StuckStays() && Quiet()
      ensures PhaseStays()
    {
      var bits := txs;
      while bits != {}
        invariant Closing(txs, bits) && StuckStays() && Quiet()
        invariant Moved(old(preStatusOut), old(statusOut), preStatusOut, statusOut, 0 in txs && 0 !in bits)
        invariant PhaseStays()
      {
        ok, bits := EndNext(bits, txs);
        if !ok {
          return;
        }
      }
      SamePair(Value(epInComplete), txs);
      ok := true;
    }

    /** Ends the transfers of the snapshot, and moves the phases of a STATUS OUT. */
    method EndCompleted(txs: set<nat>) returns (ok: bool)
      requires Valid() && txs == Ins(regs.complete)
      modifies this`regs, this`epInComplete, this`preStatusOut, this`statusOut, this`mem, this`trace
      ensures ok ==> Running(txs) && Value(epInComplete) == txs && (txs == {} ==> epInComplete.None?)
      ensures ok ==> Ahead(After(trace), preStatusOut, statusOut, 0 in txs)
      ensures ok && txs == {} ==> statusOut == old(statusOut)
      ensures ok ==> StuckStays() && Clear()
      ensures PhaseStays()
    {
      ok := EndWrites(txs);
      if ok {
        MovedAhead(old(After(trace)), old(preStatusOut), old(statusOut), preStatusOut, statusOut, 0 in txs);
      }
    }

    /** Makes a report, in which a deferred STATUS OUT stands for the OUT endpoints when no transfer was completed. */
    method Report(setup: set<nat>, outs: set<nat>) returns (r: PollResult)
      requires Running(Value(epInComplete))
      requires Ahead(After(trace), preStatusOut, statusOut, 0 in Value(epInComplete))
      modifies this`epInComplete, this`statusOut, this`trace
      ensures Valid()
      ensures var ins := old(Value(epInComplete));
              var status := old(statusOut) != {} && ins == {};
              && r == Data(ins, setup, if status then old(statusOut) else outs)
              && trace == old(trace) + [Reported(ins, status)] && statusOut == if status then {} else old(statusOut)
    {
      var ins := Value(epInComplete);
      var status := statusOut != {} && ins == {};
      assert status ==> 0 in statusOut;
      ReportedKeeps(mem, regs, After(trace), ins, status);
      EventNext(trace, Reported(ins, status));
      r := Data(ins, setup, if status then statusOut else outs);
      epInComplete, statusOut := None, if status then {} else statusOut;
      trace := trace + [Reported(ins, status)];
    }

    /** A data phase that is reported makes the STATUS OUT due; one that is due is reported when nothing else is. */
    twostate predicate StatusMoves(r: PollResult, ins: set<nat>)
      reads this`trace
    {
      && (0 in ins && old(After(trace)).armed ==> After(trace).due)
      && (ins == {} && old(After(trace)).due ==> r.Data? && r.outs == {0} && !After(trace).due)
    }

    /** Makes a report unless there is nothing to report. */
    method ReportAny(setup: set<nat>, outs: set<nat>) returns (r: PollResult)
      requires Running(Value(epInComplete))
      requires Ahead(After(trace), preStatusOut, statusOut, 0 in Value(epInComplete))
      requires Value(epInComplete) == {} ==> epInComplete.None?
      modifies this`epInComplete, this`statusOut, this`trace
      ensures Valid() && old(trace) <= trace
      ensures r == Reporting(setup, old(Value(epInComplete)), outs, old(statusOut))
      ensures StatusMoves(r, old(Value(epInComplete)))
      ensures r.Data? ==> trace == old(trace) + [Reported(r.ins, old(statusOut) != {} && r.ins == {})]
    {
      if setup != {} || epInComplete.Some? || statusOut != {} || outs != {} {
        r := Report(setup, outs);
      } else {
        r := NoEvent;
      }
    }

    /** Reports what the registers show, which may be nothing, unless a transfer failed. */
    method PollRegisters() returns (r: PollResult, alive: bool, ghost before: seq<Event>)
      requires Valid()
      modifies this`regs, this`epInComplete, this`preStatusOut, this`statusOut, this`mem, this`trace
      ensures alive ==> Valid() && r == Polled(setupReg, old(regs.complete), old(statusOut)) && StuckStays()
      ensures alive && r.Data? ==> trace == before + [Reported(r.ins, old(statusOut) != {} && r.ins == {})]
      ensures alive ==> old(trace) <= before <= trace
      ensures alive ==> StatusMoves(r, Ins(old(regs.complete))) && Clear()
    {
      var setup, txs, outs := setupReg, Ins(regs.complete), Outs(regs.complete);
      alive := EndCompleted(txs);
      before := trace;
      r := NoEvent;
      if alive {
        SameReport(setup, txs, outs, old(statusOut), statusOut);
        r := ReportAny(setup, outs);
      }
    }

    method Poll() returns (r: PollResult, alive: bool, ghost before: seq<Event>)
      requires Valid()
      modifies this`regs, this`epInComplete, this`preStatusOut, this`statusOut, this`mem, this`trace, this`setupstat
      ensures alive ==> Valid() && StuckStays()
      ensures alive ==> r == if uri then Reset else Polled(setupReg, old(regs.complete), old(statusOut))
      ensures alive && r.Data? ==> trace == before + [Reported(r.ins, old(statusOut) != {} && r.ins == {})]
      ensures alive ==> old(trace) <= before <= trace
      ensures alive && !uri ==> StatusMoves(r, Ins(old(regs.complete))) && Clear()
      ensures setupstat == if uri || setupReg == {} then old(setupstat) else Some(setupReg)
    {
      if uri {
        return Reset, true, trace;
      }
      if setupReg != {} {
        setupstat := Some(setupReg);
      }
      r, alive, before := PollRegisters();
    }

    /** Takes the set-up bit of the endpoint out of the cached register. */
    method TakeSetup(i: nat) returns (taken: bool)
      modifies this`setupstat
      ensures taken <==> i in Value(old(setupstat))
      ensures Value(setupstat) == Value(old(setupstat)) - {i}
    {
      taken := i in Value(setupstat);
      if taken {
        setupstat := Some(setupstat.value - {i});
      }
      if setupstat == Some({}) {
        setupstat := None;
      }
    }

    /**
     Which requests the driver accepts. One that configures panics if an allocated direction is not enabled;
     GET_DESCRIPTOR asks for a STATUS OUT after its data phase.
     */
    method Accept(request: (Byte, Byte)) returns (r: ReadOutcome)
      requires Valid()
      modifies this`preStatusOut, this`trace
      ensures r.BoardReset? <==> request !in {(0, 5), (0, 9), (1, 11), (128, 6)}
      ensures r.ReadPanic? <==> Reconfigures(request) && !Enabled(mem.used, rxe, txe)
      ensures r.BoardReset? || r.ReadPanic? || r == Got(8)
      ensures r == Got(8) ==> Valid() && trace == old(trace) + [Request(request == (128, 6))]
                              && preStatusOut == if request == (128, 6) then {0} else old(preStatusOut)
    {
      if Reconfigures(request) && !Enabled(mem.used, rxe, txe) {
        return ReadPanic;
      }
      if request != (0, 5) && !Reconfigures(request) && request != (128, 6) {
        return BoardReset;
      }
      EventNext(trace, Request(request == (128, 6)));
      RequestKeeps(mem, regs, After(trace), request == (128, 6));
      trace := trace + [Request(request == (128, 6))];
      if request == (128, 6) {
        preStatusOut := {0};
      }
      r := Got(8);
    }

    /** Set-up bytes: a packet at the OUT address of the control endpoint. Elsewhere zeros, which reset the board. */
    method ReadSetup(ep: EpAddr, buf: array<Byte>) returns (r: ReadOutcome)
      requires Valid() && port.Valid()
      modifies this`setupReg, this`preStatusOut, this`trace, port, buf
      ensures r.BoardReset? || r.ReadPanic? || r == Got(8)
      ensures r.ReadPanic? <==> buf.Length < 8 || (Reconfigures((buf[0], buf[1])) && !Enabled(mem.used, rxe, txe))
      ensures !r.ReadPanic? ==> (r.BoardReset? <==> (buf[0], buf[1]) !in {(0, 5), (0, 9), (1, 11), (128, 6)})
      ensures buf.Length >= 8 && ep == EpAddr(0, true) ==> port.Arrived(old(|port.log|), buf[..8])
      ensures buf.Length >= 8 && ep != EpAddr(0, true) ==> r.BoardReset?
      ensures r == Got(8) ==>
                && Valid() && port.Valid() && setupReg == old(setupReg) - {ep.index}
                && trace == old(trace) + [Request((buf[0], buf[1]) == (128, 6))]
                && preStatusOut == (if (buf[0], buf[1]) == (128, 6) then {0} else old(preStatusOut))
    {
      setupReg := setupReg - {ep.index};
      if buf.Length < 8 {
        return ReadPanic;
      }
      port.ReadPacket(buf, ep == EpAddr(0, true));
      assert ep != EpAddr(0, true) ==> buf[..8][0] == 0 && buf[..8][1] == 0;
      r := Accept((buf[0], buf[1]));
    }

    /** Lends the buffer of the caller to a control queue head and primes it. */
    method Lend(k: nat, content: seq<Byte>)
      requires Valid() && k < 2 && mem.dqhs[k].current.None? && mem.dqhs[k].next.Some?
      modifies this`mem, this`regs, this`trace
      ensures Valid() && StuckStays() && mem == Lending(old(mem), k, content)
      ensures regs == old(regs).(primed := old(regs).primed + {k}) && trace == old(trace) + [Started(k, content)]
    {
      LentKeeps(mem, regs, After(trace), k, content);
      EventNext(trace, Started(k, content));
      mem, regs, trace := Lending(mem, k, content), regs.(primed := regs.primed + {k}), trace + [Started(k, content)];
    }

    /** Leaves the descriptor of a transfer that was read in place for the next one. */
    method EndRead(k: nat)
      requires Valid() && k in regs.complete && k != 2
      modifies this`mem, this`regs, this`trace
      ensures Valid() && StuckStays() && k < ENDPOINTS && regs == EndedRegs(old(regs), k)
      ensures mem == Changed(old(mem), k, Unloading(old(mem.dqhs)[k])) && trace == old(trace) + [Taken(k)]
    {
      TakenKeeps(mem, regs, After(trace), k);
      EventNext(trace, Taken(k));
      mem, regs := Changed(mem, k, Unloading(mem.dqhs[k])), EndedRegs(regs, k);
      trace := trace + [Taken(k)];
    }

    /** The hardware acts while the driver is not in the middle of something. */
    method HardwareActs()
      requires Valid()
      modifies this`mem, this`regs, this`trace
      ensures Valid() && HardwareKeeps()
    {
      Hardware({});
    }

    /** Lends the buffer of the caller and waits for the hardware. */
    method LendAndWait(k: nat, content: seq<Byte>)
      requires Valid() && k < 2 && mem.dqhs[k].current.None? && mem.dqhs[k].next.Some?
      modifies this`mem, this`regs, this`trace
      ensures Valid() && StuckStays() && old(trace) + [Started(k, content)] <= trace
      ensures mem.dqhs[k].total == |content| && Installed(mem.dqhs[k]) == Installed(old(mem.dqhs)[k])
    {
      Lend(k, content);
      HardwareActs();
    }

    /** What a completed transfer has left in the buffer, and how much of it was left over. */
    method Inspect(k: nat) returns (now: seq<Byte>, left: nat)
      requires Valid() && k in regs.complete
      ensures k < ENDPOINTS && mem.dqhs[k].current.Some? && k in After(trace).open && now == Shown(mem, k)
      ensures k < 2 || mem.dqhs[k].total <= mem.dqhs[k].maxPacket <= |Content(mem, k)|
      ensures IsIn(k) ==> left == 0
      ensures left == mem.dqhs[k].left <= |now| == mem.dqhs[k].total
      ensures !IsIn(k) ==> After(trace).open[k] == now[..|now| - left] == Content(mem, k)[..|now| - left]
    {
      CompleteIs(mem, regs, After(trace), k);
      now, left := Shown(mem, k), mem.dqhs[k].left;
    }

    /** A transfer of the control endpoint: what is in the buffer when it is complete, and how much was left over. */
    method Transfer(k: nat, content: seq<Byte>)
      returns (ok: bool, now: seq<Byte>, left: nat, ghost before: seq<Event>)
      requires Valid() && k < 2 && mem.dqhs[k].current.None? && mem.dqhs[k].next.Some?
      modifies this`mem, this`regs, this`trace
      ensures Valid() && StuckStays()
      ensures ok ==> |now| == |content| && left <= |now| && (k == 1 ==> left == 0)
      ensures ok ==> old(trace) + [Started(k, content)] <= before && trace == before + [Taken(k)]
      ensures ok ==> k in After(before).open && (k == 0 ==> now[..|now| - left] == After(before).open[k])
      ensures ok ==> Installed(mem.dqhs[k]) == Installed(old(mem.dqhs)[k]) && mem.dqhs[k].current.None?
    {
      LendAndWait(k, content);
      var failed: bool := *;
      ok, now, left, before := k in regs.complete && !failed, [], 0, trace;
      if ok {
        now, left := Inspect(k);
        EndRead(k);
      }
    }

    /**
     Data for the control endpoint: the driver waits for the hardware to complete the transfer, to or from the buffer of
     the caller.
     */
    method ReadControl(k: nat, buf: array<Byte>) returns (r: ReadOutcome, ghost before: seq<Event>)
      requires Valid() && k < 2
      modifies this`mem, this`regs, this`trace, buf
      ensures r.ReadPanic? || r.BoardReset? || r.Got?
      ensures r.ReadPanic? <==> old(mem.dqhs)[k].current.Some? || old(mem.dqhs)[k].next.None? || buf.Length >= 0x5000
      ensures r.Got? ==> Valid() && StuckStays() && r.n <= buf.Length && (k == 1 ==> r.n == buf.Length)
      ensures r.Got? ==> old(trace) + [Started(k, old(buf[..]))] <= before && trace == before + [Taken(k)]
      ensures r.Got? ==> k in After(before).open && (k == 0 ==> buf[..r.n] == After(before).open[k])
      ensures r.Got? ==> Installed(mem.dqhs[k]) == Installed(old(mem.dqhs)[k]) && mem.dqhs[k].current.None?
    {
      before := trace;
      if mem.dqhs[k].current.Some? || mem.dqhs[k].next.None? || buf.Length >= 0x5000 {
        return ReadPanic, before;
      }
      var ok, now, left;
      ok, now, left, before := Transfer(k, buf[..]);
      r := BoardReset;
      if ok {
        CopyOut(buf, now, buf.Length);
        r := Got(buf.Length - left);
      }
    }

    /** Gives a queue head its descriptor and buffer again and primes it. */
    method Reprime(k: nat)
      requires Valid() && 2 <= k && k in regs.complete
      modifies this`mem, this`regs, this`trace
      ensures Valid() && StuckStays() && k < ENDPOINTS && regs == Again(old(regs), k)
      ensures mem == Changed(old(mem), k, Repriming(old(mem.dqhs)[k]))
      ensures old(trace) + [Taken(k)] <= trace
    {
      AgainKeeps(mem, regs, After(trace), k);
      ghost var shown := Content(mem, k)[..mem.dqhs[k].maxPacket];
      EventNext(trace, Taken(k));
      EventNext(trace + [Taken(k)], Started(k, shown));
      trace := trace + [Taken(k)] + [Started(k, shown)];
      mem, regs := Changed(mem, k, Repriming(mem.dqhs[k])), Again(regs, k);
    }

    /** Copies what a completed transfer has left in the buffer, if there is room for it. */
    method CopyFrom(k: nat, buf: array<Byte>) returns (ok: bool, n: nat)
      requires Valid() && 2 <= k && k in regs.complete
      modifies buf
      ensures k < ENDPOINTS && n + mem.dqhs[k].left == mem.dqhs[k].maxPacket && (ok <==> n <= buf.Length)
      ensures ok ==> n <= |Content(mem, k)| && buf[..n] == Content(mem, k)[..n]
      ensures k == 3 ==> n == mem.dqhs[k].maxPacket
      ensures ok ==> k in After(trace).open
      ensures ok && k == 2 ==>
                var q, packet := mem.dqhs[k], After(trace).open[k];
                |packet| + q.left == q.total && (q.total == q.maxPacket ==> buf[..n] == packet)
    {
      var now, left := Inspect(k);
      n := mem.dqhs[k].maxPacket - left;
      ok := n <= buf.Length;
      if ok {
        CopyOut(buf, Content(mem, k), n);
      }
    }

    /** Data of another endpoint, which is primed again: its descriptor and its buffer are there. */
    method ReadData(k: nat, buf: array<Byte>) returns (r: ReadOutcome)
      requires Valid() && 2 <= k < ENDPOINTS
      modifies this`mem, this`regs, this`trace, buf
      ensures !r.InvalidEndpoint?
      ensures r.WouldBlock? <==> k !in old(regs.complete)
      ensures r.WouldBlock? ==> Valid() && mem == old(mem) && regs == old(regs) && trace == old(trace)
      ensures r.ReadPanic? ==> buf.Length + old(mem.dqhs)[k].left < old(mem.dqhs)[k].maxPacket
      ensures r.Got? ==> Valid() && StuckStays() && regs == Again(old(regs), k) && old(trace) + [Taken(k)] <= trace
                         && mem == Changed(old(mem), k, Repriming(old(mem.dqhs)[k]))
      ensures r.Got? ==>
                var q := old(mem.dqhs)[k];
                && k in old(After(trace).open)
                && r.n + q.left == q.maxPacket && r.n <= buf.Length && r.n <= |Content(old(mem), k)|
                && buf[..r.n] == Content(old(mem), k)[..r.n]
      ensures r.Got? && k == 3 ==> r.n == old(mem.dqhs)[k].maxPacket
      ensures r.Got? && k == 2 ==>
                var q, packet := old(mem.dqhs)[k], old(After(trace).open)[k];
                |packet| + q.left == q.total && (q.total == q.maxPacket ==> buf[..r.n] == packet)
    {
      if k !in regs.complete {
        return WouldBlock;
      }
      var failed: bool := *;
      if failed {
        return BoardReset;
      }
      var ok, n := CopyFrom(k, buf);
      if !ok {
        return ReadPanic;
      }
      Reprime(k);
      r := Got(n);
    }

    /** Data of any endpoint, in either direction. */
    method ReadTransfer(ep: EpAddr, buf: array<Byte>) returns (r: ReadOutcome, ghost before: seq<Event>)
      requires Valid() && ep.index < 2
      modifies this`mem, this`regs, this`trace, buf
      ensures r.Got? || r.WouldBlock? ==> Valid() && StuckStays()
      ensures !r.InvalidEndpoint?
      ensures r.WouldBlock? ==> ep.index == 1 && mem == old(mem) && regs == old(regs) && trace == old(trace)
      ensures r.Got? ==> r.n <= buf.Length && old(trace) <= before && before + [Taken(ToDqhIdx(ep))] <= trace
    {
      var k := ToDqhIdx(ep);
      before := trace;
      if ep.index == 0 {
        r, before := ReadControl(k, buf);
      } else {
        r := ReadData(k, buf);
      }
    }

    /** Set-up bytes, when some are announced, or data. */
    method ReadBytes(ep: EpAddr, buf: array<Byte>, setup: bool) returns (r: ReadOutcome, ghost before: seq<Event>)
      requires Valid() && port.Valid() && ep.index < 2
      modifies this`setupReg, this`preStatusOut, this`mem, this`regs, this`trace, port, buf
      ensures !r.InvalidEndpoint? && (r.Got? || r.WouldBlock? ==> Valid() && port.Valid() && StuckStays())
      ensures r.Got? && setup ==>
                ep == EpAddr(0, true) && r.n == 8 <= buf.Length && port.Arrived(old(|port.log|), buf[..8])
      ensures r.Got? && !setup ==>
                r.n <= buf.Length && old(trace) <= before && before + [Taken(ToDqhIdx(ep))] <= trace
    {
      before := trace;
      if setup {
        r := ReadSetup(ep, buf);
      } else {
        r, before := ReadTransfer(ep, buf);
      }
    }

    method Read(ep: EpAddr, buf: array<Byte>) returns (r: ReadOutcome, ghost before: seq<Event>)
      requires Valid() && port.Valid()
      modifies this`setupstat, this`setupReg, this`preStatusOut, this`mem, this`regs, this`trace, port, buf
      ensures r.Got? || r.WouldBlock? || r.InvalidEndpoint? ==> Valid() && port.Valid() && StuckStays()
      ensures Value(setupstat) == Value(old(setupstat)) - {ep.index}
      ensures r.InvalidEndpoint? <==> ep.index >= 2
      ensures r.Got? && ep.index in Value(old(setupstat)) ==>
                ep == EpAddr(0, true) && r.n == 8 <= buf.Length && port.Arrived(old(|port.log|), buf[..8])
      ensures r.Got? && ep.index !in Value(old(setupstat)) ==>
                r.n <= buf.Length && old(trace) <= before && before + [Taken(ToDqhIdx(ep))] <= trace
    {
      before := trace;
      var setup := TakeSetup(ep.index);
      if ep.index >= 2 {
        return InvalidEndpoint, before;
      }
      r, before := ReadBytes(ep, buf, setup);
    }

    /** Primes the OUT endpoint beside the control endpoint. */
    method PrimeOut()
      requires Valid() && 2 in mem.used
      modifies this`regs, this`trace
      ensures Valid() && StuckStays() && regs == old(regs).(primed := old(regs).primed + {2})
      ensures trace == old(trace) + [Started(2, Shown(mem, 2))]
    {
      PrimedFlight(mem, mem, regs, After(trace), 2);
      EventNext(trace, Started(2, Shown(mem, 2)));
      regs, trace := regs.(primed := regs.primed + {2}), trace + [Started(2, Shown(mem, 2))];
    }

    /** `set_device_address` enables what is allocated, and primes the OUT endpoint beside the control endpoint. */
    method SetDeviceAddress()
      requires Valid()
      modifies this`regs, this`trace, this`rxe, this`txe
      ensures Valid() && StuckStays() && Enabled(mem.used, rxe, txe)
      ensures regs == if 2 in mem.used then old(regs).(primed := old(regs).primed + {2}) else old(regs)
      ensures trace == if 2 in mem.used then old(trace) + [Started(2, Shown(mem, 2))] else old(trace)
    {
      rxe := rxe || 0 in mem.used || 2 in mem.used;
      txe := txe || 1 in mem.used || 3 in mem.used;
      if 2 in mem.used {
        PrimeOut();
      }
    }

    /** Clears the completed transfers, reported or not. */
    method ClearComplete()
      requires Valid()
      modifies this`regs, this`trace
      ensures Valid() && regs == old(regs).(complete := {})
      ensures trace == old(trace) + [Event.BusReset(old(regs.complete))]
      ensures PhaseStays() && StuckStays()
    {
      DroppedKeeps(mem, regs, After(trace));
      EventNext(trace, Event.BusReset(regs.complete));
      trace := trace + [Event.BusReset(regs.complete)];
      regs := regs.(complete := {});
    }

    /** Waits for the hardware to load what is primed, and cancels every transfer that is not complete. */
    method Flush() returns (ok: bool)
      requires Valid()
      modifies this`mem, this`regs, this`trace
      ensures old(regs.primed) == {} ==> ok
      ensures ok ==> Valid() && regs == Regs({}, {}, regs.complete) && trace != [] && Last(trace) == Flushed
      ensures ok ==> PhaseStays() && StuckStays() && SameOwners(old(mem), mem)
      ensures ok && old(regs.complete) == {} ==> Cancelled(old(mem), old(regs), mem, regs)
    {
      HardwareActs();
      ok := regs.primed == {};
      if ok {
        RestStays(old(mem), old(regs), mem, regs, 1);
        RestStays(old(mem), old(regs), mem, regs, 3);
        FlushedKeeps(mem, regs, After(trace));
        EventNext(trace, Flushed);
        regs, trace := Regs({}, {}, regs.complete), trace + [Flushed];
      }
    }

    /** Clears the completed transfers and cancels the others. */
    method Cancel() returns (ok: bool)
      requires Valid()
      modifies this`mem, this`regs, this`trace
      ensures old(regs.primed) == {} ==> ok
      ensures ok ==> Valid() && regs == Regs({}, {}, regs.complete)
      ensures ok ==> old(trace) + [Event.BusReset(old(regs.complete))] <= trace && Last(trace) == Flushed
      ensures ok ==> PhaseStays() && StuckStays() && SameOwners(old(mem), mem)
      ensures ok ==> Cancelled(old(mem), old(regs), mem, regs)
    {
      ClearComplete();
      ok := Flush();
      if ok {
        CancelledFrom(old(mem), old(regs), mem, regs);
      }
    }

    /**
     `reset` clears the registers: the completed transfers that have not been reported or read are forgotten, and their
     descriptors, like those of the transfers it cancels, stay loaded. It leaves a STATUS OUT to come as it is.
     */
    method BusReset() returns (alive: bool)
      requires Valid()
      modifies this`mem, this`regs, this`trace, this`setupReg, this`uri
      ensures old(regs.primed) == {} ==> alive
      ensures alive ==> Valid() && setupReg == {} && regs == Regs({}, {}, regs.complete) && !uri
      ensures alive ==> old(trace) + [Event.BusReset(old(regs.complete))] <= trace && Last(trace) == Flushed
      ensures alive ==> PhaseStays() && StuckStays() && SameOwners(old(mem), mem)
      ensures alive ==> Cancelled(old(mem), old(regs), mem, regs)
    {
      setupReg := {};
      alive := Cancel();
      if alive {
        uri := false;
      }
    }
  }

  // ---- Whole runs -----------------------------------------------------------------------------------------------

  datatype Call =
    | Alloc(isOut: bool, addr: Option<EpAddr>, isochronous: bool, maxPacket: nat)
    | WriteTo(ep: EpAddr, bytes: seq<Byte>)
    | ReadFrom(ep: EpAddr, len: nat)
    | DoPoll
    | DoSetAddress
    | DoReset

  method Step(usbd: Inner, call: Call) returns (alive: bool)
    requires usbd.Valid() && usbd.port.Valid()
    modifies usbd, usbd.port
    ensures alive ==> usbd.Valid() && usbd.port.Valid() && usbd.StuckStays()
  {
    usbd.HardwareActs();
    usbd.HardwareSignal();
    match call
    case Alloc(isOut, addr, isochronous, maxPacket) =>
      var a := usbd.AllocEp(isOut, addr, isochronous, maxPacket);
      alive := !a.AllocPanic?;
    case WriteTo(ep, bytes) =>
      var w := usbd.StartWrite(ep, bytes);
      alive := !w.WritePanic? && !w.WriteWild?;
    case ReadFrom(ep, len) =>
      var buf := new Byte[len](_ => 0);
      var r, _ := usbd.Read(ep, buf);
      alive := r.Got? || r.WouldBlock? || r.InvalidEndpoint?;
    case DoPoll =>
      var _, lives, _ := usbd.Poll();
      alive := lives;
    case DoSetAddress =>
      usbd.SetDeviceAddress();
      alive := true;
    case DoReset =>
      alive := usbd.BusReset();
  }

  /**
   Whatever the calls and whatever the hardware does before each of them and in their midst, until a panic or a reset of
   the board ends the run: descriptors and buffers have one owner, the history is in order, what is open in it is what
   is complete, and an IN endpoint that is stuck stays so.
   */
  method Run(usbd: Inner, calls: seq<Call>) returns (alive: bool)
    requires usbd.Valid() && usbd.port.Valid()
    modifies usbd, usbd.port
    ensures alive ==> MemoryOk(usbd.mem) && InOrder(usbd.trace) && usbd.StuckStays()
    ensures alive ==> forall k: nat :: k in After(usbd.trace).open <==> k in usbd.regs.complete
  {
    for i := 0 to |calls|
      invariant usbd.Valid() && usbd.port.Valid() && usbd.StuckStays()
    {
      alive := Step(usbd, calls[i]);
      if !alive {
        return;
      }
    }
    alive := true;
  }

  // ---- Where a bus reset goes wrong -----------------------------------------------------------------------------

  lemma FirstInstallation()
    ensures var m := Installation(INITIAL, 1, 64); m.dqhs[1] == Dqh(64, None, Some(3), None, 0, 0) && m.b64s != []
  {
  }

  /** The control endpoint can send a packet of 64 bytes. */
  predicate CanSend(m: Memory) {
    && |m.dqhs| == ENDPOINTS && m.dqhs[1].maxPacket == 64 && m.dqhs[1].current.None? && m.dqhs[1].next.Some?
    && m.dqhs[1].addr.None? && m.b64s != []
  }

  method AllocControl(usbd: Inner)
    requires usbd.Valid() && usbd.mem == INITIAL
    modifies usbd`mem
    ensures usbd.Valid() && CanSend(usbd.mem)
  {
    FirstInstallation();
    var a := usbd.AllocEp(false, Some(EpAddr(0, false)), false, 64);
  }

  /** The control endpoint starts to send a byte. */
  method StartByte(usbd: Inner, ghost armed: bool)
    requires usbd.Valid() && (armed ==> After(usbd.trace).armed) && CanSend(usbd.mem) && usbd.regs == Regs({}, {}, {})
    modifies usbd`mem, usbd`regs, usbd`trace
    ensures usbd.Valid() && usbd.regs == Regs({1}, {}, {})
    ensures old(usbd.trace) <= usbd.trace && (armed ==> After(usbd.trace).armed)
    ensures usbd.mem.dqhs[1].maxPacket == 64 && usbd.mem.dqhs[1].next.Some?
  {
    var w := usbd.StartWrite(EpAddr(0, false), [7]);
    EventKeeps(old(usbd.trace), Started(1, [7]));
  }

  /** The hardware loads the transfer. */
  method LoadStarted(usbd: Inner, ghost armed: bool)
    requires usbd.Valid() && (armed ==> After(usbd.trace).armed)
    requires usbd.regs == Regs({1}, {}, {}) && usbd.mem.dqhs[1].next.Some?
    modifies usbd`mem, usbd`regs
    ensures usbd.Valid() && usbd.regs == Regs({}, {1}, {})
    ensures old(usbd.trace) <= usbd.trace && (armed ==> After(usbd.trace).armed)
    ensures usbd.mem.dqhs[1].maxPacket == old(usbd.mem).dqhs[1].maxPacket
  {
    usbd.HardwareLoad(1, {});
    assert usbd.regs == LoadedRegs(Regs({1}, {}, {}), 1) == Regs({}, {1}, {});
  }

  /** The byte is sent. */
  method SendLoaded(usbd: Inner, ghost armed: bool)
    requires usbd.Valid() && (armed ==> After(usbd.trace).armed) && usbd.regs == Regs({}, {1}, {})
    modifies usbd`mem, usbd`regs, usbd`trace
    ensures usbd.Valid() && usbd.regs == Regs({}, {}, {1})
    ensures old(usbd.trace) <= usbd.trace && (armed ==> After(usbd.trace).armed)
    ensures usbd.mem.dqhs[1].maxPacket == old(usbd.mem).dqhs[1].maxPacket
  {
    usbd.HardwareSend(1, {});
    assert usbd.regs == CompleteRegs(Regs({}, {1}, {}), 1) == Regs({}, {}, {1});
  }

  method SendByte(usbd: Inner, ghost armed: bool)
    requires usbd.Valid() && (armed ==> After(usbd.trace).armed) && CanSend(usbd.mem) && usbd.regs == Regs({}, {}, {})
    modifies usbd`mem, usbd`regs, usbd`trace
    ensures usbd.Valid() && usbd.regs == Regs({}, {}, {1}) && usbd.mem.dqhs[1].maxPacket == 64
    ensures old(usbd.trace) <= usbd.trace && (armed ==> After(usbd.trace).armed)
  {
    StartByte(usbd, armed);
    LoadStarted(usbd, armed);
    SendLoaded(usbd, armed);
  }

  /** What a write finds after a live reset. */
  method ResetThenLook(usbd: Inner, k: nat) returns (alive: bool)
    requires usbd.Valid() && IsIn(k)
    modifies usbd
    ensures alive ==> usbd.Valid() && usbd.mem.dqhs[k].maxPacket == old(usbd.mem).dqhs[k].maxPacket
    ensures alive ==> (usbd.mem.dqhs[k].current.None? <==> AtRest(old(usbd.mem), old(usbd.regs), k))
  {
    alive := usbd.BusReset();
  }

  /** An endpoint that was not at rest refuses every write after a live reset, and one that was refuses none. */
  method WriteAfterReset(usbd: Inner, i: nat, bytes: seq<Byte>) returns (alive: bool, w: Written)
    requires usbd.Valid() && i < 2 && |bytes| <= usbd.mem.dqhs[2 * i + 1].maxPacket
    modifies usbd
    ensures alive ==> (w.Busy? <==> !AtRest(old(usbd.mem), old(usbd.regs), 2 * i + 1))
  {
    w := Busy;
    alive := ResetThenLook(usbd, 2 * i + 1);
    if alive {
      w := usbd.StartWrite(EpAddr(i, false), bytes);
    }
  }

  /** A bus reset before the next `poll` drops a transfer, and no further write to the endpoint is accepted. */
  method ResetLosesTransfer(usbd: Inner) returns (w: Written)
    requires usbd.Valid() && usbd.mem == INITIAL && usbd.regs == Regs({}, {}, {})
    modifies usbd
    ensures usbd.Valid() && w == Busy && Stuck(usbd.mem, usbd.regs, 1)
    ensures exists j :: 0 <= j < |usbd.trace| && usbd.trace[j] == Event.BusReset({1})
  {
    AllocControl(usbd);
    SendByte(usbd, false);
    ghost var n := |usbd.trace|;
    var alive := usbd.BusReset();
    assert usbd.trace[n] == Event.BusReset({1});
    w := usbd.StartWrite(EpAddr(0, false), [8]);
  }

  // ---- Where a STATUS OUT answers no request --------------------------------------------------------------------

  /** The history goes on with this event. */
  predicate Follows(before: seq<Event>, e: Event, trace: seq<Event>) {
    before <= trace && |before| < |trace| && trace[|before|] == e
  }

  predicate EndsInStatus(trace: seq<Event>) {
    trace != [] && IsStatus(Last(trace))
  }

  /** The data phase is reported, and then the STATUS OUT. */
  method PollTwice(usbd: Inner) returns (r: PollResult, alive: bool)
    requires usbd.Valid() && usbd.regs == Regs({}, {}, {1}) && After(usbd.trace).armed && !usbd.uri
    modifies usbd
    ensures alive ==> usbd.Valid() && r.Data? && r.ins == {} && r.outs == {0}
    ensures alive ==> old(usbd.trace) <= usbd.trace && EndsInStatus(usbd.trace)
  {
    ghost var before;
    r, alive, before := usbd.Poll();
    if alive {
      r, alive, before := usbd.Poll();
    }
  }

  /** GET_DESCRIPTOR is read. */
  method ReadRequest(usbd: Inner)
    requires usbd.Valid()
    modifies usbd`preStatusOut, usbd`trace
    ensures usbd.Valid() && After(usbd.trace).armed && Follows(old(usbd.trace), Request(true), usbd.trace)
  {
    var a := usbd.Accept((128, 6));
  }

  method ResetIdle(usbd: Inner)
    requires usbd.Valid() && CanSend(usbd.mem) && usbd.regs == Regs({}, {}, {}) && After(usbd.trace).armed
    modifies usbd
    ensures usbd.Valid() && CanSend(usbd.mem) && usbd.regs == Regs({}, {}, {}) && !usbd.uri
    ensures After(usbd.trace).armed && Follows(old(usbd.trace), Event.BusReset({}), usbd.trace)
  {
    var alive := usbd.BusReset();
  }

  method SendAndPoll(usbd: Inner) returns (r: PollResult, alive: bool)
    requires usbd.Valid() && CanSend(usbd.mem) && usbd.regs == Regs({}, {}, {}) && After(usbd.trace).armed && !usbd.uri
    modifies usbd
    ensures alive ==> r.Data? && r.outs == {0} && EndsInStatus(usbd.trace) && old(usbd.trace) <= usbd.trace
  {
    SendByte(usbd, true);
    r, alive := PollTwice(usbd);
  }

  method ResetAndPoll(usbd: Inner) returns (r: PollResult, alive: bool)
    requires usbd.Valid() && CanSend(usbd.mem) && usbd.regs == Regs({}, {}, {}) && After(usbd.trace).armed
    modifies usbd
    ensures alive ==> r.Data? && r.outs == {0} && EndsInStatus(usbd.trace)
    ensures alive ==> Follows(old(usbd.trace), Event.BusReset({}), usbd.trace)
  {
    ResetIdle(usbd);
    r, alive := SendAndPoll(usbd);
  }

  /** A request is read, the bus is reset, something else is sent, and the STATUS OUT comes. */
  method StatusAfterReset(usbd: Inner) returns (r: PollResult, alive: bool)
    requires usbd.Valid() && CanSend(usbd.mem) && usbd.regs == Regs({}, {}, {})
    modifies usbd
    ensures alive ==> r.Data? && r.outs == {0} && EndsInStatus(usbd.trace)
    ensures alive ==> Follows(old(usbd.trace), Request(true), usbd.trace)
    ensures alive ==> exists n: nat :: |old(usbd.trace)| < n < |usbd.trace| && usbd.trace[n] == Event.BusReset({})
  {
    ReadRequest(usbd);
    ghost var n := |usbd.trace|;
    r, alive := ResetAndPoll(usbd);
    assert alive ==> usbd.trace[n] == Event.BusReset({});
  }

  /** A request is read after the transfer that is reported for its data phase has been completed. */
  method StatusWithoutDataPhase(usbd: Inner) returns (r: PollResult, alive: bool)
    requires usbd.Valid() && CanSend(usbd.mem) && usbd.regs == Regs({}, {}, {}) && !usbd.uri
    modifies usbd
    ensures alive ==> r.Data? && r.outs == {0} && EndsInStatus(usbd.trace)
  {
    SendByte(usbd, false);
    ReadRequest(usbd);
    r, alive := PollTwice(usbd);
  }

  method FinishAndPoll(usbd: Inner) returns (r: PollResult, alive: bool)
    requires usbd.Valid() && usbd.regs == Regs({}, {1}, {}) && After(usbd.trace).armed && !usbd.uri
    modifies usbd
    ensures alive ==> r.Data? && r.outs == {0} && EndsInStatus(usbd.trace)
  {
    SendLoaded(usbd, true);
    r, alive := PollTwice(usbd);
  }

  method LoadByte(usbd: Inner)
    requires usbd.Valid() && CanSend(usbd.mem) && usbd.regs == Regs({}, {}, {})
    modifies usbd`mem, usbd`regs, usbd`trace
    ensures usbd.Valid() && usbd.regs == Regs({}, {1}, {})
  {
    StartByte(usbd, false);
    LoadStarted(usbd, false);
  }

  /** A request is read while that transfer is under way. */
  method StatusOfEarlierTransfer(usbd: Inner) returns (r: PollResult, alive: bool)
    requires usbd.Valid() && CanSend(usbd.mem) && usbd.regs == Regs({}, {}, {}) && !usbd.uri
    modifies usbd
    ensures alive ==> r.Data? && r.outs == {0} && EndsInStatus(usbd.trace)
  {
    LoadByte(usbd);
    ReadRequest(usbd);
    r, alive := FinishAndPoll(usbd);
  }
}
