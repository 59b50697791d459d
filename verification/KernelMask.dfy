/**
 The priority ceiling protocol: what every step keeps of the priority mask, the active interrupts and the stack of
 contexts.
 */
module KernelMask {
  import opened Wrappers
  import opened Kernel

  // ---- One context ----------------------------------------------------------------------------------------------

  /** The priority that the lock code of a context has already been granted. */
  function Cur(u: User): int {
    if u.lk == Settled then u.cell else u.lk.saved
  }

  predicate HasUser(f: Frame) {
    f.stage.Boot? || f.stage.Running?
  }

  /** No interrupt of this priority or below may pre-empt the context. */
  function Threshold(f: Frame): int {
    if HasUser(f) then Cur(f.stage.u) else f.prio
  }

  /** The open locks of a context of priority `prio`, innermost first, when its cell reads `cur`. */
  ghost predicate HeldOk(app: App, held: List<Held>, cur: int, prio: int) {
    match held
    case Nil => cur == prio
    case Cons(h, rest) =>
      && prio <= app.ceil(h.l)
      && if h.raised then cur == app.ceil(h.l) && h.saved < cur && HeldOk(app, rest, h.saved, prio)
         else cur == h.saved && app.ceil(h.l) <= cur && HeldOk(app, rest, cur, prio)
  }

  ghost predicate Holds(held: List<Held>, l: Lockable) {
    held.Cons? && (held.head.l == l || Holds(held.tail, l))
  }

  lemma {:induction false} HeldBounds(app: App, held: List<Held>, cur: int, prio: int, l: Lockable)
    requires HeldOk(app, held, cur, prio)
    ensures prio <= cur
    ensures Holds(held, l) ==> prio <= app.ceil(l) <= cur
  {
    if held.Cons? {
      HeldBounds(app, held.tail, held.head.saved, prio, l);
    }
  }

  /** Inside the spawn code a context that reads or stages a queue element is inside that queue's lock. */
  ghost predicate SpawnOk(app: App, u: User, boot: bool) {
    && (u.sp.Take? || u.sp.Read? || u.sp.Full? || u.sp.Got? || u.sp.Written? || u.sp.Staged? || u.sp.Sent? ==>
          u.sp.t < app.tasks && app.spawns(u.prog, u.sp.t))
    && (u.sp.Read? ==> u.lk == Settled && (boot || HeadIs(u, FreeQ(u.sp.t))))
    && (u.sp.Staged? ==> u.lk == Settled && (boot || HeadIs(u, ReadyQ(app.level(u.sp.t)))))
  }

  ghost predicate UserOk(app: App, u: User, prio: int, boot: bool) {
    && ProgPrio(app, u.prog) == prio
    && HeldOk(app, u.held, Cur(u), prio)
    && SpawnOk(app, u, boot)
    && (boot ==> u.lk == Settled && u.held == Nil && u.prog == Init)
    && (u.lk.CellRaised? || u.lk.MaskRaised? || u.lk.Closing? ==> u.lk.saved < u.cell == app.ceil(u.lk.l))
  }

  /** A message of a level names a task of that level. */
  ghost predicate Typed(app: App, level: int, t: nat) {
    t < app.tasks && app.level(t) == level
  }

  ghost predicate TypedChan(app: App, level: int, q: Chan<(nat, nat)>) {
    && (forall slot <- q.items :: Typed(app, level, slot.0))
    && (q.staged.Some? ==> Typed(app, level, q.staged.value.0))
  }

  ghost predicate TypedMem(app: App, m: Mem) {
    forall level <- m.rq :: TypedChan(app, level, m.rq[level])
  }

  ghost predicate FrameOk(app: App, f: Frame) {
    match f.origin
    case Main =>
      && f.prio == IDLE_PRIORITY && f.entryPmr == Logical2Hw(IDLE_PRIORITY)
      && ((f.stage.Boot? && UserOk(app, f.stage.u, f.prio, true))
          || (f.stage.Running? && f.stage.u.prog == Idle && UserOk(app, f.stage.u, f.prio, false)))
    case Exception => f.stage == Entered
    case Handler(irq) =>
      && IrqOk(app, irq) && f.prio == IrqPrio(app, irq) && 1 <= f.prio
      && Logical2Hw(f.prio) < f.entryPmr
      && !f.stage.Boot? && !f.stage.Entered?
      && (IsDispatch(f.stage) ==> irq.Sgi?)
      && (IsDispatch(f.stage) && !f.stage.Poll? ==> Typed(app, f.prio, f.stage.t))
      && (f.stage.Running? ==>
            && UserOk(app, f.stage.u, f.prio, false)
            && f.stage.u.prog == (if irq.Spi? then Hw(irq.n) else if f.stage.u.prog.Sw? then f.stage.u.prog else Idle))
      && (!f.stage.Acked? && !f.stage.Unmasked? && f.prio != 1 ==> f.initial == f.entryPmr)
  }

  /** The mask while the cell reads `cur`: raised to it by a lock, or else untouched or left at the own priority. */
  ghost predicate MaskOk(pmr: int, cur: int, f: Frame) {
    if cur == f.prio then pmr == f.entryPmr || pmr == Logical2Hw(f.prio) else pmr == Logical2Hw(cur)
  }

  /** What the mask register holds when `f` is the innermost context that has touched it. */
  ghost predicate PmrOk(app: App, f: Frame, pmr: int) {
    match f.stage
    case Boot(u) => MaskOk(pmr, Cur(u), f)
    case Running(u) =>
      (match u.lk
       case MaskRaised(l, _) => pmr == Logical2Hw(app.ceil(l))
       case Closing(l, _) => pmr == Logical2Hw(app.ceil(l))
       case MaskLowered(saved) => pmr == Logical2Hw(saved)
       case _ => MaskOk(pmr, Cur(u), f))
    case _ =>
      || pmr == f.entryPmr
      || ((IsDispatch(f.stage) || f.stage.Epilogue?) && pmr == Logical2Hw(f.prio))
  }

  // ---- The stack ------------------------------------------------------------------------------------------------

  predicate MaskedStage(f: Frame) {
    f.stage.Boot? || f.stage.Entered? || f.stage.Acked? || f.stage.EndMasked? || f.stage.Ended?
  }

  function ActiveOf(frames: List<Frame>): set<Irq> {
    match frames
    case Nil => {}
    case Cons(f, rest) =>
      (if f.origin.Handler? && f.stage != Ended then {f.origin.irq} else {}) + ActiveOf(rest)
  }

  /** How a context stands on the ones it interrupted. */
  ghost predicate SitsOn(app: App, f: Frame, rest: List<Frame>) {
    match rest
    case Nil => f.origin == Main
    case Cons(g, _) =>
      && f.origin != Main
      && !MaskedStage(g)
      && PmrOk(app, g, f.entryPmr)
      && (f.origin.Handler? ==> Threshold(g) < f.prio)
  }

  ghost predicate StackOk(app: App, frames: List<Frame>) {
    match frames
    case Nil => true
    case Cons(f, rest) => FrameOk(app, f) && SitsOn(app, f, rest) && StackOk(app, rest)
  }

  ghost predicate MaskInv(app: App, s: State) {
    && s.frames.Cons?
    && StackOk(app, s.frames)
    && PmrOk(app, s.frames.head, s.pmr)
    && s.masked == MaskedStage(s.frames.head)
    && s.active == ActiveOf(s.frames)
    && (forall irq <- s.pending :: IrqOk(app, irq))
    && TypedMem(app, s.mem)
  }

  lemma ThresholdAbovePrio(app: App, f: Frame)
    requires FrameOk(app, f)
    ensures f.prio <= Threshold(f)
  {
  }

  /** Every active interrupt of a stack is at or below the priority of its top context. */
  lemma {:induction false} ActiveBelow(app: App, frames: List<Frame>)
    requires frames.Cons? && StackOk(app, frames) && !MaskedStage(frames.head)
    ensures forall a <- ActiveOf(frames) :: IrqPrio(app, a) <= frames.head.prio
    ensures frames.head.origin.Handler? ==> frames.head.origin.irq in ActiveOf(frames)
  {
    var rest := frames.tail;
    if rest.Cons? {
      ActiveBelow(app, rest);
      ThresholdAbovePrio(app, rest.head);
    }
  }

  // ---- Preservation ---------------------------------------------------------------------------------------------

  lemma AcquireKeeps(app: App, u: User, l: Lockable, f: Frame, pmr: int)
    requires UserOk(app, u, f.prio, false) && u.lk == Settled && f.prio <= app.ceil(l)
    requires SpawnOk(app, u, false) && !u.sp.Read? && !u.sp.Staged?
    requires MaskOk(pmr, u.cell, f)
    ensures var v := Acquire(app, u, l);
            UserOk(app, v, f.prio, false) && MaskOk(pmr, Cur(v), f) && (v.lk == Settled || v.lk.CellRaised?)
  {
  }

  lemma ReleaseKeeps(app: App, u: User, f: Frame, pmr: int)
    requires UserOk(app, u, f.prio, false) && u.lk == Settled && u.held.Cons?
    requires !u.sp.Read? && !u.sp.Staged?
    requires MaskOk(pmr, u.cell, f)
    ensures var v := Release(u);
            && UserOk(app, v, f.prio, false)
            && PmrOk(app, f.(stage := Running(v)), pmr)
  {
  }

  lemma LockStepKeeps(app: App, u: User, f: Frame, pmr: int)
    requires UserOk(app, u, f.prio, false) && u.lk != Settled
    requires PmrOk(app, f.(stage := Running(u)), pmr)
    ensures UserOk(app, LockStep(u), f.prio, false)
    ensures PmrOk(app, f.(stage := Running(LockStep(u))), LockMask(app, u, pmr))
  {
  }

  lemma BootSpawnKeeps(app: App, m: Mem, u: User, f: Frame, pmr: int)
    requires UserOk(app, u, f.prio, true) && u.sp != NoSpawn && MaskOk(pmr, u.cell, f)
    ensures var v := SpawnUser(app, m, u, true);
            && UserOk(app, v, f.prio, true) && v.prog == u.prog && PmrOk(app, f.(stage := Boot(v)), pmr)
  {
  }

  lemma TaskSpawnKeeps(app: App, m: Mem, u: User, f: Frame, pmr: int)
    requires WellFormed(app) && u.prog != Init
    requires UserOk(app, u, f.prio, false) && u.lk == Settled && u.sp != NoSpawn && MaskOk(pmr, u.cell, f)
    ensures var v := SpawnUser(app, m, u, false);
            && UserOk(app, v, f.prio, false) && v.prog == u.prog && PmrOk(app, f.(stage := Running(v)), pmr)
  {
    assert app.spawns(u.prog, u.sp.t);
    match u.sp
    case Take(t, v) => if !HeadIs(u, FreeQ(t)) { AcquireKeeps(app, u, FreeQ(t), f, pmr); }
    case Written(t, v, i) =>
      if !HeadIs(u, ReadyQ(app.level(t))) { AcquireKeeps(app, u, ReadyQ(app.level(t)), f, pmr); }
    case Full(t) => if HeadIs(u, FreeQ(t)) { ReleaseKeeps(app, u, f, pmr); }
    case Got(t, v, i) => if HeadIs(u, FreeQ(t)) { ReleaseKeeps(app, u, f, pmr); }
    case Sent(t) => if HeadIs(u, ReadyQ(app.level(t))) { ReleaseKeeps(app, u, f, pmr); }
    case _ =>
  }

  lemma SpawnStepKeeps(app: App, m: Mem, u: User, f: Frame, pmr: int, boot: bool)
    requires WellFormed(app)
    requires UserOk(app, u, f.prio, boot) && u.lk == Settled && u.sp != NoSpawn
    requires !boot ==> u.prog != Init
    requires MaskOk(pmr, u.cell, f)
    ensures var v := SpawnUser(app, m, u, boot);
            && UserOk(app, v, f.prio, boot) && v.prog == u.prog
            && PmrOk(app, f.(stage := if boot then Boot(v) else Running(v)), pmr)
  {
    if boot {
      BootSpawnKeeps(app, m, u, f, pmr);
    } else {
      TaskSpawnKeeps(app, m, u, f, pmr);
    }
  }

  /** A step that changes only the top context, its view of the mask and the queues. */
  lemma ReplaceTop(app: App, s: State, f: Frame, s': State)
    requires MaskInv(app, s) && s'.frames == Cons(f, s.frames.tail)
    requires f.origin == s.frames.head.origin && f.prio == s.frames.head.prio && f.entryPmr == s.frames.head.entryPmr
    requires f.stage.Ended? == s.frames.head.stage.Ended?
    requires FrameOk(app, f) && PmrOk(app, f, s'.pmr)
    requires s'.masked == MaskedStage(f) && s'.active == s.active
    requires (forall irq <- s'.pending :: IrqOk(app, irq)) && TypedMem(app, s'.mem)
    ensures MaskInv(app, s')
  {
  }

  lemma SpawnKeepsTypes(app: App, m: Mem, u: User, boot: bool)
    requires TypedMem(app, m) && SpawnOk(app, u, boot) && u.sp != NoSpawn
    ensures TypedMem(app, SpawnMem(app, m, u, boot))
  {
  }

  lemma DispatchKeepsTypes(app: App, m: Mem, level: int, st: Stage)
    requires TypedMem(app, m)
    ensures TypedMem(app, DispatchMem(m, level, st))
  {
  }

  lemma UserStepKeeps(app: App, s: State, boot: bool)
    requires WellFormed(app) && MaskInv(app, s)
    requires if boot then s.frames.head.stage.Boot? else s.frames.head.stage.Running?
    ensures var r := UserStep(app, s, s.frames.head.stage.u, boot);
            r.Some? ==>
              && UserOk(app, r.value.0, s.frames.head.prio, boot) && r.value.0.prog == s.frames.head.stage.u.prog
              && PmrOk(app, s.frames.head.(stage := if boot then Boot(r.value.0) else Running(r.value.0)),
                       r.value.1.pmr)
              && (forall irq <- r.value.1.pending :: IrqOk(app, irq)) && TypedMem(app, r.value.1.mem)
  {
    var f := s.frames.head;
    var u := f.stage.u;
    if u.lk != Settled {
      LockStepKeeps(app, u, f, s.pmr);
    } else if u.sp != NoSpawn {
      SpawnStepKeeps(app, s.mem, u, f, s.pmr, boot);
      SpawnKeepsTypes(app, s.mem, u, boot);
    }
  }

  lemma UserTickKeeps(app: App, s: State)
    requires WellFormed(app) && MaskInv(app, s) && HasUser(s.frames.head)
    ensures Prescribed(app, s).Some? ==> MaskInv(app, Prescribed(app, s).value)
  {
    UserStepKeeps(app, s, s.frames.head.stage.Boot?);
    if Prescribed(app, s).Some? {
      ReplaceTop(app, s, Prescribed(app, s).value.frames.head, Prescribed(app, s).value);
    }
  }

  /** The interrupt that the controller hands out beats the threshold of the context it interrupts. */
  lemma AckBeatsThreshold(app: App, s: State, irq: Irq)
    requires WellFormed(app) && MaskInv(app, s) && s.frames.head.stage == Entered
    requires irq in s.pending && Deliverable(app, s, irq)
    ensures s.frames.tail.Cons? && Threshold(s.frames.tail.head) < IrqPrio(app, irq)
    ensures Logical2Hw(IrqPrio(app, irq)) < s.frames.head.entryPmr
  {
    var g := s.frames.tail.head;
    ActiveBelow(app, s.frames.tail);
    assert s.active == ActiveOf(s.frames.tail);
    if g.origin.Handler? {
      assert Logical2Hw(IrqPrio(app, irq)) < Logical2Hw(IrqPrio(app, g.origin.irq));
    }
    if HasUser(g) {
      HeldBounds(app, g.stage.u.held, Cur(g.stage.u), g.prio, Res(0));
    }
  }

  lemma AckKeeps(app: App, s: State, irq: Irq)
    requires WellFormed(app) && MaskInv(app, s)
    ensures Next(app, s, Ack(irq)).Some? ==> MaskInv(app, Next(app, s, Ack(irq)).value)
  {
    if Next(app, s, Ack(irq)).Some? {
      AckBeatsThreshold(app, s, irq);
      var f' := s.frames.head.(origin := Handler(irq), prio := IrqPrio(app, irq), stage := Acked);
      assert FrameOk(app, f') && SitsOn(app, f', s.frames.tail);
      assert Next(app, s, Ack(irq)).value.active == ActiveOf(Cons(f', s.frames.tail));
    }
  }

  /** A handler of priority 1 can only have interrupted a context that left the mask idle. */
  lemma {:induction false} PriorityOneMeansIdleMask(app: App, frames: List<Frame>)
    requires frames.Cons? && StackOk(app, frames) && frames.head.origin.Handler? && frames.head.prio == 1
    ensures frames.head.entryPmr == Logical2Hw(IDLE_PRIORITY)
    ensures frames.tail.Cons? && frames.tail.head.origin == Main
  {
  }

  lemma EndMaskedKeeps(app: App, s: State)
    requires MaskInv(app, s) && s.frames.head.stage.EndMasked?
    ensures Prescribed(app, s).Some? && MaskInv(app, Prescribed(app, s).value)
  {
    var f := s.frames.head;
    var rest := s.frames.tail;
    ActiveBelow(app, rest);
    ThresholdAbovePrio(app, rest.head);
    assert f.origin.irq !in ActiveOf(rest);
    assert ActiveOf(s.frames) - {f.origin.irq} == ActiveOf(rest);
  }

  lemma EpilogueKeeps(app: App, s: State)
    requires MaskInv(app, s) && s.frames.head.stage.Epilogue?
    ensures Prescribed(app, s).Some? && MaskInv(app, Prescribed(app, s).value)
  {
    if s.frames.head.prio == 1 {
      PriorityOneMeansIdleMask(app, s.frames);
    }
    ReplaceTop(app, s, Prescribed(app, s).value.frames.head, Prescribed(app, s).value);
  }

  lemma DispatchTickKeeps(app: App, s: State)
    requires MaskInv(app, s) && IsDispatch(s.frames.head.stage)
    ensures Prescribed(app, s).Some? && MaskInv(app, Prescribed(app, s).value)
  {
    var f := s.frames.head;
    DispatchKeepsTypes(app, s.mem, f.prio, f.stage);
    assert TypedChan(app, f.prio, Rq(s.mem, f.prio));
    ReplaceTop(app, s, f.(stage := DispatchStage(s.mem, f.prio, f.stage)), Prescribed(app, s).value);
  }

  lemma UnmaskKeeps(app: App, s: State)
    requires MaskInv(app, s) && s.frames.head.stage.Acked?
    ensures Prescribed(app, s).Some? && MaskInv(app, Prescribed(app, s).value)
  {
    ReplaceTop(app, s, s.frames.head.(stage := Unmasked), Prescribed(app, s).value);
  }

  lemma RemaskKeeps(app: App, s: State)
    requires MaskInv(app, s) && s.frames.head.stage.Restored?
    ensures Prescribed(app, s).Some? && MaskInv(app, Prescribed(app, s).value)
  {
    ReplaceTop(app, s, s.frames.head.(stage := EndMasked), Prescribed(app, s).value);
  }

  lemma ReadMaskKeeps(app: App, s: State)
    requires MaskInv(app, s) && s.frames.head.stage.Unmasked?
    ensures Prescribed(app, s).Some? && MaskInv(app, Prescribed(app, s).value)
  {
    ReplaceTop(app, s, Prescribed(app, s).value.frames.head, Prescribed(app, s).value);
  }

  lemma BeginKeeps(app: App, s: State)
    requires MaskInv(app, s) && s.frames.head.stage.Begin?
    ensures Prescribed(app, s).Some? && MaskInv(app, Prescribed(app, s).value)
  {
    ReplaceTop(app, s, Prescribed(app, s).value.frames.head, Prescribed(app, s).value);
  }

  lemma TickKeeps(app: App, s: State)
    requires WellFormed(app) && MaskInv(app, s)
    ensures Prescribed(app, s).Some? ==> MaskInv(app, Prescribed(app, s).value)
  {
    match s.frames.head.stage
    case Boot(_) => UserTickKeeps(app, s);
    case Running(_) => UserTickKeeps(app, s);
    case Entered =>
    case EndMasked => EndMaskedKeeps(app, s);
    case Epilogue => EpilogueKeeps(app, s);
    case Ended =>
    case Acked => UnmaskKeeps(app, s);
    case Unmasked => ReadMaskKeeps(app, s);
    case Begin => BeginKeeps(app, s);
    case Restored => RemaskKeeps(app, s);
    case _ => DispatchTickKeeps(app, s);
  }

  lemma LockResKeeps(app: App, s: State, r: nat)
    requires WellFormed(app) && MaskInv(app, s)
    ensures Next(app, s, LockRes(r)).Some? ==> MaskInv(app, Next(app, s, LockRes(r)).value)
  {
    var n := Next(app, s, LockRes(r));
    if n.Some? {
      AcquireKeeps(app, s.frames.head.stage.u, Res(r), s.frames.head, s.pmr);
      ReplaceTop(app, s, n.value.frames.head, n.value);
    }
  }

  lemma UnlockKeeps(app: App, s: State)
    requires MaskInv(app, s)
    ensures Next(app, s, Unlock).Some? ==> MaskInv(app, Next(app, s, Unlock).value)
  {
    var n := Next(app, s, Unlock);
    if n.Some? {
      ReleaseKeeps(app, s.frames.head.stage.u, s.frames.head, s.pmr);
      ReplaceTop(app, s, n.value.frames.head, n.value);
    }
  }

  /** User code that is about to spawn is otherwise as it was. */
  lemma AboutToSpawn(app: App, f: Frame, u: User, boot: bool, t: nat, v: int, pmr: int)
    requires f.stage == (if boot then Boot(u) else Running(u)) && Free(u) && app.spawns(u.prog, t) && t < app.tasks
    requires FrameOk(app, f) && PmrOk(app, f, pmr)
    ensures var u' := u.(sp := Take(t, v));
            var f' := f.(stage := if boot then Boot(u') else Running(u')); FrameOk(app, f') && PmrOk(app, f', pmr)
  {
  }

  lemma SpawnKeeps(app: App, s: State, t: nat, v: int)
    requires WellFormed(app) && MaskInv(app, s)
    ensures Next(app, s, Spawn(t, v)).Some? ==> MaskInv(app, Next(app, s, Spawn(t, v)).value)
  {
    var n := Next(app, s, Spawn(t, v));
    if n.Some? {
      var f := s.frames.head;
      AboutToSpawn(app, f, f.stage.u, f.stage.Boot?, t, v, s.pmr);
      ReplaceTop(app, s, n.value.frames.head, n.value);
    }
  }

  lemma ReturnKeeps(app: App, s: State)
    requires MaskInv(app, s)
    ensures Next(app, s, Return).Some? ==> MaskInv(app, Next(app, s, Return).value)
  {
    var n := Next(app, s, Return);
    if n.Some? {
      ReplaceTop(app, s, n.value.frames.head, n.value);
    }
  }

  /** Every step of every context, of the environment and of user code keeps the ceiling invariant. */
  lemma MaskPreserved(app: App, s: State, a: Action)
    requires WellFormed(app) && MaskInv(app, s)
    ensures Next(app, s, a).Some? ==> MaskInv(app, Next(app, s, a).value)
  {
    match a
    case Tick => TickKeeps(app, s);
    case Ack(irq) => AckKeeps(app, s, irq);
    case LockRes(r) => LockResKeeps(app, s, r);
    case Unlock => UnlockKeeps(app, s);
    case Spawn(t, v) => SpawnKeeps(app, s, t, v);
    case Return => ReturnKeeps(app, s);
    case _ =>
  }
}
