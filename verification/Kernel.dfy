/**
 The run-time kernel that the application macro emits around `lock`, `run`, `IRQ`, spawn and dispatch, as a step
 machine on one core with its interrupt controller.

 A state holds the controller (priority mask, pending and active interrupts), the processor's IRQ mask bit, the stack
 of execution contexts and the queues. Only the context on top of the stack executes; between any two of its steps an
 IRQ exception may be taken. The choices of user code (which resource to lock, what to spawn, when to return) and of
 the environment (which interrupt to raise) are the labels of the steps.
 */
module Kernel {
  import opened Wrappers

  datatype List<T> = Nil | Cons(head: T, tail: List<T>)

  const IDLE_PRIORITY: int := 0
  const MAX_PRIORITY: int := 31
  const NSGIS: nat := 16

  /** The controller orders priorities the other way round and keeps them in the top bits of a byte. */
  function Logical2Hw(logical: int): int {
    (MAX_PRIORITY + 1 - logical - 1) * 8
  }

  function Sgi2Prio(sgi: nat): nat {
    sgi + 1
  }

  function Prio2Sgi(logical: int): int {
    logical - 1
  }

  // ---- The application ------------------------------------------------------------------------------------------

  /** Software generated interrupts dispatch software tasks; shared peripheral interrupts are hardware tasks. */
  datatype Irq = Sgi(n: nat) | Spi(n: nat)

  /** Whose code runs in a context. */
  datatype Prog = Init | Idle | Hw(spi: nat) | Sw(task: nat)

  /** What `lock` protects: a resource, the consumer end of a task's free queue, the producer end of a ready queue. */
  datatype Lockable = Res(r: nat) | FreeQ(task: nat) | ReadyQ(level: int)

  datatype App = App(
    tasks: nat,                      // software tasks are 0..tasks
    level: nat -> int,               // their priority, which is also the level of their dispatcher
    cap: nat -> nat,                 // how many messages each can hold
    isHw: nat -> bool,               // peripheral interrupts bound to a hardware task
    hwPrio: nat -> int,
    uses: (Prog, nat) -> bool,       // exclusive access to a resource
    spawns: (Prog, nat) -> bool,
    ceil: Lockable -> int,
    chanCap: int -> nat)             // capacity of the ready queue of a level

  function ProgPrio(app: App, p: Prog): int {
    match p
    case Init => IDLE_PRIORITY
    case Idle => IDLE_PRIORITY
    case Hw(k) => app.hwPrio(k)
    case Sw(t) => app.level(t)
  }

  /** The levels of the dispatchers. */
  function Levels(app: App): set<int> {
    set t: nat | t < app.tasks :: app.level(t)
  }

  /** `pre_init` gives a priority to as many SGIs as there are levels, from the first on. */
  function SgisInUse(app: App): nat {
    |Levels(app)|
  }

  /** The priority that the controller has for an interrupt. An SGI that is not given one keeps the highest. */
  function GicPrio(app: App, irq: Irq): int {
    match irq
    case Sgi(n) => if n < SgisInUse(app) then Sgi2Prio(n) else MAX_PRIORITY
    case Spi(k) => app.hwPrio(k)
  }

  /** The priority at which the handler of an interrupt is written to run. */
  function IrqPrio(app: App, irq: Irq): int {
    match irq
    case Sgi(n) => Sgi2Prio(n)
    case Spi(k) => app.hwPrio(k)
  }

  predicate IrqOk(app: App, irq: Irq) {
    match irq
    case Sgi(n) => n < NSGIS && n < SgisInUse(app)
    case Spi(k) => app.isHw(k) && 1 <= app.hwPrio(k) <= MAX_PRIORITY
  }

  ghost function Slots(app: App, level: int): set<(nat, nat)> {
    set t: nat, i: nat | t < app.tasks && app.level(t) == level && i < app.cap(t) :: (t, i)
  }

  /** What the kernel asks of the levels besides: they are 1 to some `n`, as `KernelPriorities` shows. */
  predicate LevelsPacked(app: App) {
    SgisInUse(app) <= NSGIS && forall t: nat :: t < app.tasks ==> app.level(t) <= SgisInUse(app)
  }

  /**
   What the analysis of the syntax crate guarantees: priorities in range, ceilings no lower than the priority of any
   accessor, and ready queues with room for every message of their level.
   */
  ghost predicate Analysed(app: App) {
    && (forall k: nat :: app.isHw(k) ==> 1 <= app.hwPrio(k) <= MAX_PRIORITY)
    && (forall t: nat :: t < app.tasks ==> 1 <= app.level(t) <= MAX_PRIORITY)
    && (forall l :: app.ceil(l) <= MAX_PRIORITY)
    && (forall p, r: nat :: app.uses(p, r) ==> ProgPrio(app, p) <= app.ceil(Res(r)))
    && (forall p, t: nat :: app.spawns(p, t) ==> t < app.tasks)
    && (forall p, t: nat :: app.spawns(p, t) && p != Init ==>
          ProgPrio(app, p) <= app.ceil(FreeQ(t)) && ProgPrio(app, p) <= app.ceil(ReadyQ(app.level(t))))
    && (forall level :: |Slots(app, level)| <= app.chanCap(level))
  }

  ghost predicate WellFormed(app: App) {
    Analysed(app) && LevelsPacked(app)
  }

  // ---- Contexts -------------------------------------------------------------------------------------------------

  /** An open `lock`: the priority it found in the cell and whether it had to raise the mask. */
  datatype Held = Held(l: Lockable, saved: int, raised: bool)

  /** Where a context is inside `lock` when it is neither before it, nor in the closure, nor after it. */
  datatype LockPc =
    | Settled
    | CellRaised(l: Lockable, saved: int)    // `priority.set(ceiling)` done
    | MaskRaised(l: Lockable, saved: int)    // PMR written, `isb` to come
    | Closing(l: Lockable, saved: int)       // closure returned, PMR to be written back
    | MaskLowered(saved: int)                // PMR written back, cell to be written back

  /** Where a context is inside the emitted spawn code. */
  datatype SpawnPc =
    | NoSpawn
    | Take(t: nat, v: int)                   // about to dequeue a slot
    | Read(t: nat, v: int, i: nat)           // slot index read, head not advanced
    | Full(t: nat)                           // free queue found empty
    | Got(t: nat, v: int, i: nat)            // slot owned, input to be written
    | Written(t: nat, v: int, i: nat)        // input written, message to be enqueued
    | Staged(t: nat, v: int, i: nat)         // ring slot written, tail not advanced
    | Sent(t: nat)                           // message visible, SGI to be pended

  datatype User = User(prog: Prog, cell: int, held: List<Held>, lk: LockPc, sp: SpawnPc)

  datatype Stage =
    | Boot(u: User)                          // `main` up to `enable_irq`
    | Running(u: User)                       // code of idle or of a task
    | Entered                                // IRQ exception taken, IAR not read
    | Acked                                  // IAR read
    | Unmasked                               // IRQs enabled, `run` has not read PMR
    | Begin                                  // PMR read, closure to start
    | Poll                                   // dispatcher about to dequeue
    | Peeked(t: nat, i: nat)                 // message read, head not advanced
    | Taken(t: nat, i: nat)                  // message owned, input to be read
    | Loaded(t: nat, i: nat, v: int)         // input read, slot to be returned
    | Freeing(t: nat, i: nat, v: int)        // free ring slot written, tail not advanced
    | Call(t: nat, v: int)                   // slot returned, task to be called
    | Epilogue                               // closure returned, PMR to be restored
    | Restored                               // PMR restored, IRQs to be disabled
    | EndMasked                              // IRQs disabled, EOIR to be written
    | Ended                                  // EOIR written, exception return to come

  datatype Origin = Main | Exception | Handler(irq: Irq)

  /** `entryPmr` remembers the mask at exception entry; `initial` is the local variable of `run`. */
  datatype Frame = Frame(origin: Origin, prio: int, entryPmr: int, initial: int, stage: Stage)

  /** An SPSC queue: what the consumer can see, and the element written but not yet published. */
  datatype Chan<T> = Chan(items: seq<T>, staged: Option<T>)

  datatype Mem = Mem(fq: map<nat, Chan<nat>>, rq: map<int, Chan<(nat, nat)>>, inputs: map<(nat, nat), int>)

  /** `sent` and `called` are histories: messages published at a level and task calls made by its dispatcher. */
  datatype State = State(
    pmr: int, masked: bool, pending: set<Irq>, active: set<Irq>, frames: List<Frame>, mem: Mem,
    sent: map<int, seq<(nat, int)>>, called: map<int, seq<(nat, int)>>)

  function Fq(m: Mem, t: nat): Chan<nat> {
    if t in m.fq then m.fq[t] else Chan([], None)
  }

  function Rq(m: Mem, level: int): Chan<(nat, nat)> {
    if level in m.rq then m.rq[level] else Chan([], None)
  }

  function Input(m: Mem, t: nat, i: nat): int {
    if (t, i) in m.inputs then m.inputs[(t, i)] else 0
  }

  function Log(h: map<int, seq<(nat, int)>>, level: int): seq<(nat, int)> {
    if level in h then h[level] else []
  }

  function Publish<T>(c: Chan<T>): Chan<T> {
    Chan(if c.staged.Some? then c.items + [c.staged.value] else c.items, None)
  }

  // ---- lock -----------------------------------------------------------------------------------------------------

  function Acquire(app: App, u: User, l: Lockable): User {
    if u.cell < app.ceil(l) then
      u.(cell := app.ceil(l), lk := CellRaised(l, u.cell))
    else
      u.(held := Cons(Held(l, u.cell, false), u.held))
  }

  function Release(u: User): User
    requires u.held.Cons?
  {
    var h := u.held.head;
    if h.raised then u.(held := u.held.tail, lk := Closing(h.l, h.saved)) else u.(held := u.held.tail)
  }

  function LockStep(u: User): User
    requires u.lk != Settled
  {
    match u.lk
    case CellRaised(l, saved) => u.(lk := MaskRaised(l, saved))
    case MaskRaised(l, saved) => u.(lk := Settled, held := Cons(Held(l, saved, true), u.held))
    case Closing(l, saved) => u.(lk := MaskLowered(saved))
    case MaskLowered(saved) => u.(lk := Settled, cell := saved)
  }

  function LockMask(app: App, u: User, pmr: int): int
    requires u.lk != Settled
  {
    match u.lk
    case CellRaised(l, _) => Logical2Hw(app.ceil(l))
    case Closing(_, saved) => Logical2Hw(saved)
    case _ => pmr
  }

  predicate HeadIs(u: User, l: Lockable) {
    u.held.Cons? && u.held.head.l == l
  }

  // ---- spawn ----------------------------------------------------------------------------------------------------

  /** One step of the spawn code; `init` runs it with IRQs masked and without the locks. */
  function SpawnUser(app: App, m: Mem, u: User, boot: bool): User
    requires u.sp != NoSpawn
  {
    match u.sp
    case Take(t, v) =>
      if !boot && !HeadIs(u, FreeQ(t)) then Acquire(app, u, FreeQ(t))
      else if Fq(m, t).items == [] then u.(sp := Full(t))
      else u.(sp := Read(t, v, Fq(m, t).items[0]))
    case Read(t, v, i) => u.(sp := Got(t, v, i))
    case Full(t) => if HeadIs(u, FreeQ(t)) then Release(u) else u.(sp := NoSpawn)
    case Got(t, v, i) => if HeadIs(u, FreeQ(t)) then Release(u) else u.(sp := Written(t, v, i))
    case Written(t, v, i) =>
      if !boot && !HeadIs(u, ReadyQ(app.level(t))) then Acquire(app, u, ReadyQ(app.level(t)))
      else u.(sp := Staged(t, v, i))
    case Staged(t, v, i) => u.(sp := Sent(t))
    case Sent(t) => if HeadIs(u, ReadyQ(app.level(t))) then Release(u) else u.(sp := NoSpawn)
  }

  function SpawnMem(app: App, m: Mem, u: User, boot: bool): Mem
    requires u.sp != NoSpawn
  {
    match u.sp
    case Read(t, _, _) =>
      var q := Fq(m, t);
      if q.items == [] then m else m.(fq := m.fq[t := q.(items := q.items[1..])])
    case Got(t, v, i) =>
      if HeadIs(u, FreeQ(t)) then m else m.(inputs := m.inputs[(t, i) := v])
    case Written(t, _, i) =>
      var level := app.level(t);
      if !boot && !HeadIs(u, ReadyQ(level)) then m
      else m.(rq := m.rq[level := Rq(m, level).(staged := Some((t, i)))])
    case Staged(t, _, _) =>
      m.(rq := m.rq[app.level(t) := Publish(Rq(m, app.level(t)))])
    case _ => m
  }

  function SpawnLog(app: App, u: User, sent: map<int, seq<(nat, int)>>): map<int, seq<(nat, int)>> {
    match u.sp
    case Staged(t, v, _) => sent[app.level(t) := Log(sent, app.level(t)) + [(t, v)]]
    case _ => sent
  }

  /** `pend_sgi` keeps the low four bits of the SGI number. */
  function SpawnPend(app: App, u: User, pending: set<Irq>): set<Irq> {
    match u.sp
    case Sent(t) =>
      if HeadIs(u, ReadyQ(app.level(t))) then pending else pending + {Sgi(Prio2Sgi(app.level(t)) % 16)}
    case _ => pending
  }

  // ---- Steps ----------------------------------------------------------------------------------------------------

  function NewUser(p: Prog, prio: int): User {
    User(p, prio, Nil, Settled, NoSpawn)
  }

  /** The mask lets an interrupt through that beats both PMR and every active interrupt. */
  predicate Deliverable(app: App, s: State, irq: Irq) {
    && Logical2Hw(GicPrio(app, irq)) < s.pmr
    && forall a <- s.active :: Logical2Hw(GicPrio(app, irq)) < Logical2Hw(GicPrio(app, a))
  }

  /** One step of user code or of the lock and spawn code it is inside; None when user code has a choice to make. */
  function UserStep(app: App, s: State, u: User, boot: bool): Option<(User, State)> {
    if u.lk != Settled then
      Some((LockStep(u), s.(pmr := LockMask(app, u, s.pmr))))
    else if u.sp != NoSpawn then
      Some((SpawnUser(app, s.mem, u, boot),
            s.(mem := SpawnMem(app, s.mem, u, boot), sent := SpawnLog(app, u, s.sent),
               pending := SpawnPend(app, u, s.pending))))
    else
      None
  }

  /** One step of the dispatcher loop of level `f.prio`. */
  function DispatchStage(m: Mem, level: int, st: Stage): Stage {
    match st
    case Poll => if Rq(m, level).items == [] then Epilogue else Peeked(Rq(m, level).items[0].0, Rq(m, level).items[0].1)
    case Peeked(t, i) => Taken(t, i)
    case Taken(t, i) => Loaded(t, i, Input(m, t, i))
    case Loaded(t, i, v) => Freeing(t, i, v)
    case Freeing(t, _, v) => Call(t, v)
    case Call(t, _) => Running(NewUser(Sw(t), level))
    case _ => st
  }

  function DispatchMem(m: Mem, level: int, st: Stage): Mem {
    match st
    case Peeked(_, _) =>
      var q := Rq(m, level);
      if q.items == [] then m else m.(rq := m.rq[level := q.(items := q.items[1..])])
    case Loaded(t, i, _) => m.(fq := m.fq[t := Fq(m, t).(staged := Some(i))])
    case Freeing(t, _, _) => m.(fq := m.fq[t := Publish(Fq(m, t))])
    case _ => m
  }

  function DispatchLog(level: int, st: Stage, called: map<int, seq<(nat, int)>>): map<int, seq<(nat, int)>> {
    match st
    case Call(t, v) => called[level := Log(called, level) + [(t, v)]]
    case _ => called
  }

  predicate IsDispatch(st: Stage) {
    st.Poll? || st.Peeked? || st.Taken? || st.Loaded? || st.Freeing? || st.Call?
  }

  /** The step that the code of the top context prescribes, when it prescribes one. */
  function Prescribed(app: App, s: State): Option<State> {
    if s.frames.Nil? then None else
    var f := s.frames.head;
    var rest := s.frames.tail;
    match f.stage
    case Boot(u) =>
      (match UserStep(app, s, u, true)
       case None => None
       case Some((u', s')) => Some(s'.(frames := Cons(f.(stage := Boot(u')), rest))))
    case Running(u) =>
      (match UserStep(app, s, u, false)
       case None => None
       case Some((u', s')) => Some(s'.(frames := Cons(f.(stage := Running(u')), rest))))
    case Entered => None
    case Acked => Some(s.(masked := false, frames := Cons(f.(stage := Unmasked), rest)))
    case Unmasked =>
      Some(s.(frames := Cons(f.(stage := Begin, initial := if f.prio == 1 then f.initial else s.pmr), rest)))
    case Begin =>
      Some(s.(frames := Cons(f.(stage :=
        if f.origin.Handler? && f.origin.irq.Spi? then Running(NewUser(Hw(f.origin.irq.n), f.prio)) else Poll), rest)))
    case Epilogue =>
      Some(s.(pmr := if f.prio == 1 then Logical2Hw(IDLE_PRIORITY) else f.initial,
              frames := Cons(f.(stage := Restored), rest)))
    case Restored => Some(s.(masked := true, frames := Cons(f.(stage := EndMasked), rest)))
    case EndMasked =>
      Some(s.(active := if f.origin.Handler? then s.active - {f.origin.irq} else s.active,
              frames := Cons(f.(stage := Ended), rest)))
    case Ended => Some(s.(masked := false, frames := rest))
    case _ =>
      Some(s.(mem := DispatchMem(s.mem, f.prio, f.stage), called := DispatchLog(f.prio, f.stage, s.called),
              frames := Cons(f.(stage := DispatchStage(s.mem, f.prio, f.stage)), rest)))
  }

  /** Labels: the prescribed step, the environment's choices and the choices of user code. */
  datatype Action =
    | Tick
    | Raise(spi: nat)
    | TakeIrq
    | Ack(irq: Irq)
    | Spurious
    | LockRes(r: nat)
    | Unlock
    | Spawn(t: nat, v: int)
    | Return

  /** User code proper is executing: no lock or spawn code in progress. */
  predicate Free(u: User) {
    u.lk == Settled && u.sp == NoSpawn
  }

  /** A resource proxy exists only where the access rules ask for a lock. */
  predicate NeedsLock(app: App, u: User, r: nat) {
    app.uses(u.prog, r) && ProgPrio(app, u.prog) < app.ceil(Res(r))
  }

  function Next(app: App, s: State, a: Action): Option<State> {
    if s.frames.Nil? then None else
    var f := s.frames.head;
    var rest := s.frames.tail;
    match a
    case Tick => Prescribed(app, s)
    case Raise(k) => if app.isHw(k) then Some(s.(pending := s.pending + {Spi(k)})) else None
    case TakeIrq =>
      if s.masked then None
      else Some(s.(masked := true, frames := Cons(Frame(Exception, 0, s.pmr, 0, Entered), s.frames)))
    case Ack(irq) =>
      if && f.stage == Entered && irq in s.pending && Deliverable(app, s, irq)
         && (forall j <- s.pending :: Deliverable(app, s, j) ==> GicPrio(app, j) <= GicPrio(app, irq))
      then Some(s.(pending := s.pending - {irq}, active := s.active + {irq},
                   frames := Cons(f.(origin := Handler(irq), prio := IrqPrio(app, irq), stage := Acked), rest)))
      else None
    case Spurious =>
      if f.stage == Entered && (forall j <- s.pending :: !Deliverable(app, s, j))
      then Some(s.(masked := false, frames := rest))
      else None
    case LockRes(r) =>
      if f.stage.Running? && Free(f.stage.u) && NeedsLock(app, f.stage.u, r)
      then Some(s.(frames := Cons(f.(stage := Running(Acquire(app, f.stage.u, Res(r)))), rest)))
      else None
    case Unlock =>
      if f.stage.Running? && Free(f.stage.u) && f.stage.u.held.Cons?
      then Some(s.(frames := Cons(f.(stage := Running(Release(f.stage.u))), rest)))
      else None
    case Spawn(t, v) =>
      if f.stage.Running? && Free(f.stage.u) && app.spawns(f.stage.u.prog, t)
      then Some(s.(frames := Cons(f.(stage := Running(f.stage.u.(sp := Take(t, v)))), rest)))
      else if f.stage.Boot? && Free(f.stage.u) && app.spawns(f.stage.u.prog, t)
      then Some(s.(frames := Cons(f.(stage := Boot(f.stage.u.(sp := Take(t, v)))), rest)))
      else None
    case Return =>
      if f.stage.Boot? && Free(f.stage.u)
      then Some(s.(masked := false, frames := Cons(f.(stage := Running(NewUser(Idle, IDLE_PRIORITY))), rest)))
      else if f.stage.Running? && Free(f.stage.u) && f.stage.u.held.Nil? && f.stage.u.prog.Sw?
      then Some(s.(frames := Cons(f.(stage := Poll), rest)))
      else if f.stage.Running? && Free(f.stage.u) && f.stage.u.held.Nil? && f.stage.u.prog.Hw?
      then Some(s.(frames := Cons(f.(stage := Epilogue), rest)))
      else None
  }

  /** `main` after `pre_init`: free queues filled, mask idle, IRQs still masked. */
  function Start(app: App): State {
    State(
      Logical2Hw(IDLE_PRIORITY), true, {}, {},
      Cons(Frame(Main, IDLE_PRIORITY, Logical2Hw(IDLE_PRIORITY), 0, Boot(NewUser(Init, IDLE_PRIORITY))), Nil),
      Mem(map t: nat | t < app.tasks :: Chan(seq(app.cap(t), i => i), None), map[], map[]),
      map[], map[])
  }

  function Exec(app: App, s: State, acts: seq<Action>): Option<State>
    decreases |acts|
  {
    if acts == [] then Some(s)
    else match Exec(app, s, acts[..|acts| - 1])
         case None => None
         case Some(s') => Next(app, s', acts[|acts| - 1])
  }
}
