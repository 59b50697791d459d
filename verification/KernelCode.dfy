/**
 The kernel code as it updates the mask register, the cell of a context and the queues, tied to the steps of the
 machine.
 */
module KernelCode {
  import opened Wrappers
  import opened Kernel
  import opened KernelMask
  import opened KernelRuns

  /** `pre_init` fills the free queue of each task with all its slot indices, in order. */
  method FillFreeQueues(app: App) returns (fq: map<nat, Chan<nat>>)
    ensures fq == Start(app).mem.fq
  {
    fq := map[];
    for t := 0 to app.tasks
      invariant fq == map a: nat | a < t :: Chan(seq(app.cap(a), i => i), None)
    {
      var items: seq<nat> := [];
      for i := 0 to app.cap(t)
        invariant items == seq(i, k => k)
      {
        items := items + [i];
      }
      fq := fq[t := Chan(items, None)];
    }
  }

  /** The machine steps from before a lock to its closure, without the interrupts in between. */
  function Opened(app: App, u: User, l: Lockable, pmr: int): (User, int)
    requires u.lk == Settled
  {
    var v := Acquire(app, u, l);
    if v.lk == Settled then (v, pmr) else (LockStep(LockStep(v)), LockMask(app, v, pmr))
  }

  /** The machine steps from the end of the closure to the end of the lock. */
  function Closed(app: App, u: User, pmr: int): (User, int)
    requires u.held.Cons? && u.lk == Settled
  {
    var v := Release(u);
    if v.lk == Settled then (v, pmr) else (LockStep(LockStep(v)), LockMask(app, v, pmr))
  }

  /** The local variable of `run` is that of the machine, and holds the mask at exception entry if it holds one. */
  predicate Enters(f: Frame, initial: int) {
    f.prio != 1 ==> initial == f.initial == f.entryPmr
  }

  lemma {:induction false} OneMore(app: App, s: State, acts: seq<Action>, a: Action, s': State)
    requires Exec(app, s, acts) == Some(s')
    ensures Exec(app, s, acts + [a]) == Next(app, s', a)
  {
    assert (acts + [a])[..|acts|] == acts;
  }

  lemma {:induction false} ThreeSteps(app: App, s: State, a: Action, b: Action, c: Action)
    requires Next(app, s, a).Some?
    requires var s1 := Next(app, s, a).value;
             Next(app, s1, b).Some? && Next(app, Next(app, s1, b).value, c).Some?
    ensures Exec(app, s, [a, b, c]) == Next(app, Next(app, Next(app, s, a).value, b).value, c)
  {
    var s1 := Next(app, s, a).value;
    OneMore(app, s, [], a, s);
    OneMore(app, s, [a], b, s1);
    OneMore(app, s, [a, b], c, Next(app, s1, b).value);
    assert [] + [a] == [a] && [a] + [b] == [a, b] && [a, b] + [c] == [a, b, c];
  }

  function EnterSteps(app: App, s: State, irq: Irq): State
    requires Next(app, s, Ack(irq)).Some?
  {
    var s1 := Next(app, s, Ack(irq)).value;
    var s2 := Prescribed(app, s1).value;
    Prescribed(app, s2).value
  }

  lemma EnterShape(app: App, s: State, irq: Irq)
    requires Next(app, s, Ack(irq)).Some?
    ensures var f := s.frames.head;
            && EnterSteps(app, s, irq) == s.(
                 masked := false, pending := s.pending - {irq}, active := s.active + {irq},
                 frames := Cons(Frame(Handler(irq), IrqPrio(app, irq), f.entryPmr,
                                      if IrqPrio(app, irq) == 1 then f.initial else s.pmr, Begin), s.frames.tail))
  {
  }

  lemma EnterKeeps(app: App, s: State, irq: Irq)
    requires WellFormed(app) && MaskInv(app, s) && Next(app, s, Ack(irq)).Some?
    ensures MaskInv(app, EnterSteps(app, s, irq)) && s.pmr == s.frames.head.entryPmr
  {
    var s1 := Next(app, s, Ack(irq)).value;
    LeavesMask(app, s);
    AckKeeps(app, s, irq);
    TickKeeps(app, s1);
    TickKeeps(app, Prescribed(app, s1).value);
  }

  lemma {:induction false} EnterIsRun(app: App, s: State, irq: Irq)
    requires Next(app, s, Ack(irq)).Some?
    ensures Exec(app, s, [Ack(irq), Tick, Tick]) == Some(EnterSteps(app, s, irq))
  {
    ThreeSteps(app, s, Ack(irq), Tick, Tick);
  }

  function ExitSteps(app: App, s: State): State
    requires s.frames.Cons? && s.frames.head.stage == Epilogue
  {
    var s1 := Prescribed(app, s).value;
    var s2 := Prescribed(app, s1).value;
    Prescribed(app, s2).value
  }

  /** The three steps written out. */
  lemma ExitShape(app: App, s: State)
    requires s.frames.Cons? && s.frames.head.stage == Epilogue && s.frames.head.origin.Handler?
    ensures var f := s.frames.head;
            ExitSteps(app, s) == s.(pmr := if f.prio == 1 then Logical2Hw(IDLE_PRIORITY) else f.initial,
                                    masked := true, active := s.active - {f.origin.irq},
                                    frames := Cons(f.(stage := Ended), s.frames.tail))
  {
  }

  lemma ExitKeepsMask(app: App, s: State)
    requires WellFormed(app) && MaskInv(app, s) && s.frames.head.stage == Epilogue
    ensures MaskInv(app, ExitSteps(app, s))
  {
    var s1 := Prescribed(app, s).value;
    TickKeeps(app, s);
    TickKeeps(app, s1);
    TickKeeps(app, Prescribed(app, s1).value);
  }

  lemma ExitKeeps(app: App, s: State)
    requires WellFormed(app) && MaskInv(app, s) && s.frames.head.stage == Epilogue && s.frames.head.origin.Handler?
    ensures MaskInv(app, ExitSteps(app, s)) && ExitSteps(app, s).pmr == s.frames.head.entryPmr
  {
    ExitKeepsMask(app, s);
    ExitShape(app, s);
    LeavesMask(app, ExitSteps(app, s));
  }

  lemma {:induction false} ExitIsRun(app: App, s: State)
    requires s.frames.Cons? && s.frames.head.stage == Epilogue
    ensures Exec(app, s, [Tick, Tick, Tick]) == Some(ExitSteps(app, s))
  {
    ThreeSteps(app, s, Tick, Tick, Tick);
  }

  /**
   One context on the core: its priority cell, and the controller. The handlers that interrupt it between two statements
   leave all of this as they found it; the step machine is where that is shown.
   */
  class Core {
    var pmr: int
    var cell: int
    var masked: bool
    var active: set<Irq>

    /** The part of `lock` before the closure. */
    method LockOpen(app: App, l: Lockable, ghost u: User) returns (saved: int)
      requires u.cell == cell && u.lk == Settled
      modifies this`pmr, this`cell
      ensures var (v, p) := Opened(app, u, l, old(pmr));
              && pmr == p && cell == v.cell && v.lk == Settled
              && v.held == Cons(Held(l, saved, saved < app.ceil(l)), u.held)
    {
      saved := cell;
      if saved < app.ceil(l) {
        cell := app.ceil(l);
        pmr := Logical2Hw(app.ceil(l));
      }
    }

    /** The part of `lock` after the closure. */
    method LockClose(app: App, l: Lockable, saved: int, ghost u: User)
      requires u.cell == cell && u.lk == Settled
      requires u.held.Cons? && u.held.head == Held(l, saved, saved < app.ceil(l))
      modifies this`pmr, this`cell
      ensures var (v, p) := Closed(app, u, old(pmr));
              pmr == p && cell == v.cell && v.held == u.held.tail && v.lk == Settled
    {
      if saved < app.ceil(l) {
        pmr := Logical2Hw(saved);
        cell := saved;
      }
    }

    /** The registers are those of a state of the machine. */
    predicate Matches(s: State)
      reads this`pmr, this`masked, this`active
    {
      pmr == s.pmr && masked == s.masked && active == s.active
    }

    /** `IRQ` and `run` up to the handler, from a state in which the controller hands out `irq`. */
    method RunEnter(app: App, irq: Irq, ghost s: State) returns (initial: int, ghost s': State)
      requires WellFormed(app) && MaskInv(app, s) && Matches(s) && Next(app, s, Ack(irq)).Some?
      modifies this`active, this`masked
      ensures Exec(app, s, [Ack(irq), Tick, Tick]) == Some(s') && MaskInv(app, s') && Matches(s')
      ensures s'.frames.Cons? && s'.frames.tail == s.frames.tail
      ensures var f := s'.frames.head;
              && f.origin == Handler(irq) && f.stage == Begin
              && Enters(f, initial) && f.entryPmr == s.frames.head.entryPmr
    {
      s' := EnterSteps(app, s, irq);
      EnterKeeps(app, s, irq);
      EnterIsRun(app, s, irq);
      EnterShape(app, s, irq);
      active := active + {irq};
      masked := false;
      initial := if IrqPrio(app, irq) == 1 then 0 else pmr;
    }

    /** `run` and `IRQ` after the handler, wherever the handler left the mask. */
    method RunExit(app: App, irq: Irq, initial: int, ghost s: State) returns (ghost s': State)
      requires WellFormed(app) && MaskInv(app, s) && Matches(s)
      requires s.frames.head.origin == Handler(irq) && s.frames.head.stage == Epilogue && Enters(s.frames.head, initial)
      modifies this`pmr, this`active, this`masked
      ensures Exec(app, s, [Tick, Tick, Tick]) == Some(s') && MaskInv(app, s') && Matches(s')
      ensures s'.frames == Cons(s.frames.head.(stage := Ended), s.frames.tail)
      ensures pmr == s.frames.head.entryPmr && active == ActiveOf(s.frames.tail)
    {
      s' := ExitSteps(app, s);
      ExitKeeps(app, s);
      ExitIsRun(app, s);
      ExitShape(app, s);
      pmr := if IrqPrio(app, irq) == 1 then Logical2Hw(IDLE_PRIORITY) else initial;
      masked := true;
      active := active - {irq};
    }
  }

  /** Opening a lock and closing it again is no change, to the context or, when the mask was its own, to the mask. */
  lemma OpenThenClose(app: App, u: User, l: Lockable, pmr: int)
    requires u.lk == Settled
    ensures var (v, p) := Opened(app, u, l, pmr);
            && v.lk == Settled && v.cell == (if u.cell < app.ceil(l) then app.ceil(l) else u.cell) && HeadIs(v, l)
            && Closed(app, v, p).0 == u
            && (Closed(app, v, p).1 == pmr <==> u.cell >= app.ceil(l) || pmr == Logical2Hw(u.cell))
  {
  }
}
