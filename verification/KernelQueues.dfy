/**
 The message queues under pre-emption: exclusive access, slot conservation, first-in first-out delivery and wake-ups.
 */
module KernelQueues {
  import opened Wrappers
  import opened Kernel
  import opened KernelMask

  // ---- Exclusive access -----------------------------------------------------------------------------------------

  /**
   A context has exclusive access to what it has locked, to resources its access rules hand out directly, and, while
   interrupts are still masked in `init`, to everything.
   */
  ghost predicate Accesses(app: App, f: Frame, l: Lockable) {
    HasUser(f) &&
    (|| f.stage.Boot?
     || Holds(f.stage.u.held, l)
     || (l.Res? && app.uses(f.stage.u.prog, l.r) && app.ceil(l) <= ProgPrio(app, f.stage.u.prog)))
  }

  ghost predicate NoneAccesses(app: App, frames: List<Frame>, l: Lockable) {
    frames.Cons? ==> !Accesses(app, frames.head, l) && NoneAccesses(app, frames.tail, l)
  }

  ghost predicate NoLevel(frames: List<Frame>, level: int) {
    frames.Cons? ==> frames.head.prio != level && NoLevel(frames.tail, level)
  }

  lemma AccessBounds(app: App, f: Frame, l: Lockable)
    requires WellFormed(app) && FrameOk(app, f) && Accesses(app, f, l) && !f.stage.Boot?
    ensures f.prio <= app.ceil(l) <= Threshold(f)
  {
    HeldBounds(app, f.stage.u.held, Cur(f.stage.u), f.prio, l);
  }

  /** Below a context of priority `prio` nobody accesses what it may access, and nobody shares its priority. */
  lemma {:induction false} AloneAt(app: App, frames: List<Frame>, prio: int, l: Lockable)
    requires WellFormed(app) && StackOk(app, frames) && prio <= app.ceil(l)
    requires frames.Cons? ==> !MaskedStage(frames.head) && Threshold(frames.head) < prio
    ensures NoneAccesses(app, frames, l) && NoLevel(frames, prio)
  {
    if frames.Cons? {
      ThresholdAbovePrio(app, frames.head);
      if Accesses(app, frames.head, l) {
        AccessBounds(app, frames.head, l);
      }
      AloneAt(app, frames.tail, prio, l);
    }
  }

  lemma {:induction false} AloneBelow(app: App, frames: List<Frame>, l: Lockable)
    requires WellFormed(app) && StackOk(app, frames) && frames.Cons? && Accesses(app, frames.head, l)
    ensures NoneAccesses(app, frames.tail, l)
  {
    var f := frames.head;
    if frames.tail.Cons? {
      AccessBounds(app, f, l);
      AloneAt(app, frames.tail, f.prio, l);
    }
  }

  lemma {:induction false} LevelAlone(app: App, frames: List<Frame>, prio: int)
    requires StackOk(app, frames)
    requires frames.Cons? ==> !MaskedStage(frames.head) && Threshold(frames.head) < prio
    ensures NoLevel(frames, prio)
  {
    if frames.Cons? {
      ThresholdAbovePrio(app, frames.head);
      LevelAlone(app, frames.tail, prio);
    }
  }

  // ---- Slots ----------------------------------------------------------------------------------------------------

  function UserHand(u: User): Option<(nat, nat)> {
    match u.sp
    case Got(t, _, i) => Some((t, i))
    case Written(t, _, i) => Some((t, i))
    case Staged(t, _, i) => Some((t, i))
    case _ => None
  }

  /** The message slot that a context owns: taken from one queue and not yet published to the other. */
  function HandOf(f: Frame): Option<(nat, nat)> {
    match f.stage
    case Taken(t, i) => Some((t, i))
    case Loaded(t, i, _) => Some((t, i))
    case Freeing(t, i, _) => Some((t, i))
    case Boot(u) => UserHand(u)
    case Running(u) => UserHand(u)
    case _ => None
  }

  function One(o: Option<(nat, nat)>, t: nat): multiset<nat> {
    if o.Some? && o.value.0 == t then multiset{o.value.1} else multiset{}
  }

  function Hands(frames: List<Frame>, t: nat): multiset<nat> {
    match frames
    case Nil => multiset{}
    case Cons(f, rest) => One(HandOf(f), t) + Hands(rest, t)
  }

  function Queued(items: seq<(nat, nat)>, t: nat): multiset<nat> {
    if items == [] then multiset{} else One(Some(items[0]), t) + Queued(items[1..], t)
  }

  function All(n: nat): multiset<nat> {
    multiset(seq(n, i => i))
  }

  /** The free slots of a task, those owned by a context and those queued. */
  function Everywhere(app: App, m: Mem, frames: List<Frame>, t: nat): multiset<nat> {
    multiset(Fq(m, t).items) + (Hands(frames, t) + Queued(Rq(m, app.level(t)).items, t))
  }

  /** Together they are each slot of the task exactly once. */
  ghost predicate Conserved(app: App, s: State, t: nat) {
    t < app.tasks ==> Everywhere(app, s.mem, s.frames, t) == All(app.cap(t))
  }

  lemma {:induction false} QueuedAppend(items: seq<(nat, nat)>, slot: (nat, nat), t: nat)
    ensures Queued(items + [slot], t) == Queued(items, t) + One(Some(slot), t)
  {
    if items != [] {
      assert (items + [slot])[1..] == items[1..] + [slot];
      QueuedAppend(items[1..], slot, t);
    }
  }

  lemma {:induction false} QueuedHas(items: seq<(nat, nat)>, k: nat)
    requires k < |items|
    ensures items[k].1 in Queued(items, items[k].0)
  {
    if k > 0 {
      QueuedHas(items[1..], k - 1);
    }
  }

  lemma AllOnce(n: nat, i: nat)
    ensures All(n)[i] == if i < n then 1 else 0
  {
    if n > 0 {
      AllOnce(n - 1, i);
      assert seq(n, k => k) == seq(n - 1, k => k) + [n - 1];
    }
  }

  // ---- What each context relies on ------------------------------------------------------------------------------

  /** The queue ends and the input that a context in the middle of an operation has already looked at or written. */
  ghost predicate UserLinked(app: App, m: Mem, u: User) {
    match u.sp
    case Read(t, _, i) => Fq(m, t).items != [] && Fq(m, t).items[0] == i
    case Written(t, v, i) => Input(m, t, i) == v
    case Staged(t, v, i) => Input(m, t, i) == v && Rq(m, app.level(t)).staged == Some((t, i))
    case _ => true
  }

  ghost predicate Linked(app: App, m: Mem, f: Frame) {
    match f.stage
    case Boot(u) => UserLinked(app, m, u)
    case Running(u) => UserLinked(app, m, u)
    case Peeked(t, i) => Rq(m, f.prio).items != [] && Rq(m, f.prio).items[0] == (t, i)
    case Freeing(t, i, _) => Fq(m, t).staged == Some(i)
    case _ => true
  }

  ghost predicate AllLinked(app: App, m: Mem, frames: List<Frame>) {
    frames.Cons? ==> Linked(app, m, frames.head) && AllLinked(app, m, frames.tail)
  }

  // ---- Delivery -------------------------------------------------------------------------------------------------

  function Payloads(m: Mem, items: seq<(nat, nat)>): seq<(nat, int)> {
    seq(|items|, k requires 0 <= k < |items| => (items[k].0, Input(m, items[k].0, items[k].1)))
  }

  /** The message a dispatcher has taken from its queue and not yet called the task with. */
  function FlightOf(m: Mem, f: Frame, level: int): seq<(nat, int)> {
    if f.prio != level then [] else
    match f.stage
    case Taken(t, i) => [(t, Input(m, t, i))]
    case Loaded(t, _, v) => [(t, v)]
    case Freeing(t, _, v) => [(t, v)]
    case Call(t, v) => [(t, v)]
    case _ => []
  }

  function Flight(m: Mem, frames: List<Frame>, level: int): seq<(nat, int)> {
    match frames
    case Nil => []
    case Cons(f, rest) => FlightOf(m, f, level) + Flight(m, rest, level)
  }

  /** What was sent at a level is what was called, then what is in flight, then what is queued, in that order. */
  ghost predicate Fifo(s: State, level: int) {
    Log(s.sent, level)
    == Log(s.called, level) + (Flight(s.mem, s.frames, level) + Payloads(s.mem, Rq(s.mem, level).items))
  }

  // ---- Wake-ups -------------------------------------------------------------------------------------------------

  /** The context will look at the ready queue of the level again, or is about to pend its dispatcher. */
  ghost predicate LiveOne(app: App, f: Frame, level: int) {
    || (HasUser(f) && f.stage.u.sp.Sent? && app.level(f.stage.u.sp.t) == level)
    || (&& f.origin.Handler? && f.origin.irq.Sgi? && Sgi2Prio(f.origin.irq.n) == level
        && !f.stage.Epilogue? && !f.stage.Restored? && !f.stage.EndMasked? && !f.stage.Ended?)
  }

  ghost predicate Live(app: App, frames: List<Frame>, level: int) {
    frames.Cons? && (LiveOne(app, frames.head, level) || Live(app, frames.tail, level))
  }

  predicate Pends(pending: set<Irq>, level: int) {
    1 <= level && Sgi(level - 1) in pending
  }

  /** A level with queued messages has its interrupt pending or a context that will see to it. */
  ghost predicate Awake(app: App, s: State, level: int) {
    Rq(s.mem, level).items != [] ==> Pends(s.pending, level) || Live(app, s.frames, level)
  }

  ghost predicate QueueInv(app: App, s: State) {
    && s.frames.Cons?
    && AllLinked(app, s.mem, s.frames)
    && (forall t: nat :: Conserved(app, s, t))
    && (forall level: int :: Fifo(s, level))
    && (forall level: int :: Awake(app, s, level))
  }

  /** The invariant at one task and one level; each step is shown to keep it there. */
  ghost predicate InvAt(app: App, s: State, t: nat, level: int) {
    s.frames.Cons? && AllLinked(app, s.mem, s.frames) && Conserved(app, s, t) && Fifo(s, level) && Awake(app, s, level)
  }

  // ---- Small moves ----------------------------------------------------------------------------------------------

  lemma {:induction false} HandToQueue(f: Frame, g: Frame, rest: List<Frame>, items: seq<(nat, nat)>, t: nat, i: nat,
                                       u: nat)
    requires HandOf(f) == Some((t, i)) && HandOf(g) == None
    ensures Hands(Cons(f, rest), u) + Queued(items, u) == Hands(Cons(g, rest), u) + Queued(items + [(t, i)], u)
  {
    QueuedAppend(items, (t, i), u);
  }

  lemma {:induction false} QueueToHand(f: Frame, g: Frame, rest: List<Frame>, items: seq<(nat, nat)>, t: nat, i: nat,
                                       u: nat)
    requires HandOf(f) == None && HandOf(g) == Some((t, i)) && items != [] && items[0] == (t, i)
    ensures Hands(Cons(f, rest), u) + Queued(items, u) == Hands(Cons(g, rest), u) + Queued(items[1..], u)
  {
  }

  lemma {:induction false} FreeToHand(f: Frame, g: Frame, rest: List<Frame>, free: seq<nat>, t: nat, i: nat,
                                      q: multiset<nat>)
    requires HandOf(f) == None && HandOf(g) == Some((t, i)) && free != [] && free[0] == i
    ensures multiset(free) + (Hands(Cons(f, rest), t) + q) == multiset(free[1..]) + (Hands(Cons(g, rest), t) + q)
  {
    assert free == [i] + free[1..];
  }

  lemma {:induction false} HandToFree(f: Frame, g: Frame, rest: List<Frame>, free: seq<nat>, t: nat, i: nat,
                                      q: multiset<nat>)
    requires HandOf(f) == Some((t, i)) && HandOf(g) == None
    ensures multiset(free) + (Hands(Cons(f, rest), t) + q) == multiset(free + [i]) + (Hands(Cons(g, rest), t) + q)
  {
  }

  lemma PayloadsSplit(m: Mem, m': Mem, items: seq<(nat, nat)>)
    requires items != [] && m'.inputs == m.inputs
    ensures Payloads(m, items) == [(items[0].0, Input(m, items[0].0, items[0].1))] + Payloads(m', items[1..])
  {
  }

  lemma PayloadsAppend(m: Mem, m': Mem, items: seq<(nat, nat)>, t: nat, i: nat)
    requires m'.inputs == m.inputs
    ensures Payloads(m', items + [(t, i)]) == Payloads(m, items) + [(t, Input(m, t, i))]
  {
  }

  lemma PayloadsSame(m: Mem, m': Mem, items: seq<(nat, nat)>)
    requires m'.inputs == m.inputs
    ensures Payloads(m', items) == Payloads(m, items)
  {
  }

  /** A slot in a context's hand is nowhere else. */
  lemma {:induction false} HandIsUnique(app: App, s: State, t: nat, i: nat)
    requires s.frames.Cons? && Conserved(app, s, t) && HandOf(s.frames.head) == Some((t, i)) && t < app.tasks
    ensures i < app.cap(t) && i !in Fq(s.mem, t).items && i !in Hands(s.frames.tail, t)
    ensures i !in Queued(Rq(s.mem, app.level(t)).items, t)
  {
    AllOnce(app.cap(t), i);
    assert Everywhere(app, s.mem, s.frames, t)[i]
        == multiset(Fq(s.mem, t).items)[i]
           + ((1 + Hands(s.frames.tail, t)[i]) + Queued(Rq(s.mem, app.level(t)).items, t)[i]);
  }

  // ---- What a queue step leaves to the other contexts -----------------------------------------------------------

  /** What the other contexts' places in the spawn code and the dispatcher loop say about their locks and levels. */
  ghost predicate Orderly(app: App, frames: List<Frame>) {
    frames.Cons? ==>
      && !frames.head.stage.Boot?
      && (frames.head.stage.Running? ==> SpawnOk(app, frames.head.stage.u, false))
      && (IsDispatch(frames.head.stage) && !frames.head.stage.Poll? ==>
            Typed(app, frames.head.prio, frames.head.stage.t))
      && Orderly(app, frames.tail)
  }

  lemma {:induction false} StackIsOrderly(app: App, frames: List<Frame>)
    requires StackOk(app, frames) && (frames.Cons? ==> !MaskedStage(frames.head))
    ensures Orderly(app, frames)
  {
    if frames.Cons? {
      StackIsOrderly(app, frames.tail);
    }
  }

  lemma {:induction false} OthersKeepFreeHead(app: App, m: Mem, m': Mem, frames: List<Frame>, t: nat, q: Chan<nat>)
    requires Orderly(app, frames) && AllLinked(app, m, frames) && NoneAccesses(app, frames, FreeQ(t))
    requires m' == m.(fq := m.fq[t := q]) && q.staged == Fq(m, t).staged
    ensures AllLinked(app, m', frames)
  {
    if frames.Cons? {
      OthersKeepFreeHead(app, m, m', frames.tail, t, q);
    }
  }

  lemma {:induction false} OthersKeepFreeTail(app: App, m: Mem, m': Mem, frames: List<Frame>, t: nat, q: Chan<nat>)
    requires Orderly(app, frames) && AllLinked(app, m, frames) && NoLevel(frames, app.level(t))
    requires m' == m.(fq := m.fq[t := q]) && Fq(m, t).items <= q.items
    ensures AllLinked(app, m', frames)
  {
    if frames.Cons? {
      OthersKeepFreeTail(app, m, m', frames.tail, t, q);
    }
  }

  lemma {:induction false} OthersKeepReadyHead(
      app: App, m: Mem, m': Mem, frames: List<Frame>, level: int, q: Chan<(nat, nat)>)
    requires Orderly(app, frames) && AllLinked(app, m, frames) && NoLevel(frames, level)
    requires m' == m.(rq := m.rq[level := q]) && q.staged == Rq(m, level).staged
    ensures AllLinked(app, m', frames)
  {
    if frames.Cons? {
      OthersKeepReadyHead(app, m, m', frames.tail, level, q);
    }
  }

  lemma {:induction false} OthersKeepReadyTail(
      app: App, m: Mem, m': Mem, frames: List<Frame>, level: int, q: Chan<(nat, nat)>)
    requires Orderly(app, frames) && AllLinked(app, m, frames) && NoneAccesses(app, frames, ReadyQ(level))
    requires m' == m.(rq := m.rq[level := q]) && Rq(m, level).items <= q.items
    ensures AllLinked(app, m', frames)
  {
    if frames.Cons? {
      OthersKeepReadyTail(app, m, m', frames.tail, level, q);
    }
  }

  lemma {:induction false} NotInHand(frames: List<Frame>, t: nat, i: nat)
    requires frames.Cons? && i !in Hands(frames, t)
    ensures HandOf(frames.head) != Some((t, i)) && i !in Hands(frames.tail, t)
  {
  }

  lemma {:induction false} OthersKeepInput(app: App, m: Mem, m': Mem, frames: List<Frame>, t: nat, i: nat, v: int)
    requires AllLinked(app, m, frames) && i !in Hands(frames, t) && m' == m.(inputs := m.inputs[(t, i) := v])
    ensures AllLinked(app, m', frames)
  {
    if frames.Cons? {
      NotInHand(frames, t, i);
      assert Linked(app, m', frames.head);
      OthersKeepInput(app, m, m', frames.tail, t, i, v);
    }
  }

  lemma {:induction false} OthersKeepFlight(m: Mem, m': Mem, frames: List<Frame>, t: nat, i: nat, v: int, level: int)
    requires i !in Hands(frames, t) && m' == m.(inputs := m.inputs[(t, i) := v])
    ensures Flight(m', frames, level) == Flight(m, frames, level)
  {
    if frames.Cons? {
      NotInHand(frames, t, i);
      OthersKeepFlight(m, m', frames.tail, t, i, v, level);
    }
  }

  lemma {:induction false} OthersFlight(m: Mem, m': Mem, frames: List<Frame>, level: int)
    requires m'.inputs == m.inputs
    ensures Flight(m', frames, level) == Flight(m, frames, level)
  {
    if frames.Cons? {
      OthersFlight(m, m', frames.tail, level);
    }
  }

  lemma {:induction false} NoFlight(m: Mem, frames: List<Frame>, level: int)
    requires NoLevel(frames, level)
    ensures Flight(m, frames, level) == []
  {
    if frames.Cons? {
      NoFlight(m, frames.tail, level);
    }
  }

  // ---- Steps of the top context ---------------------------------------------------------------------------------

  /** Only the top context has moved. */
  predicate TopMoved(s: State, s': State) {
    s.frames.Cons? && s'.frames.Cons? && s'.frames.tail == s.frames.tail && s.pending <= s'.pending
  }

  lemma KeepConserved(app: App, s: State, s': State, t: nat)
    requires Conserved(app, s, t) && TopMoved(s, s') && HandOf(s.frames.head) == HandOf(s'.frames.head)
    requires Fq(s'.mem, t).items == Fq(s.mem, t).items
    requires Rq(s'.mem, app.level(t)).items == Rq(s.mem, app.level(t)).items
    ensures Conserved(app, s', t)
  {
  }

  lemma KeepFifo(s: State, s': State, level: int)
    requires Fifo(s, level) && TopMoved(s, s') && s'.mem.inputs == s.mem.inputs
    requires Log(s'.sent, level) == Log(s.sent, level) && Log(s'.called, level) == Log(s.called, level)
    requires Rq(s'.mem, level).items == Rq(s.mem, level).items
    requires FlightOf(s'.mem, s'.frames.head, level) == FlightOf(s.mem, s.frames.head, level)
    ensures Fifo(s', level)
  {
    OthersFlight(s.mem, s'.mem, s.frames.tail, level);
    PayloadsSame(s.mem, s'.mem, Rq(s.mem, level).items);
  }

  lemma KeepAwake(app: App, s: State, s': State, level: int)
    requires Awake(app, s, level) && TopMoved(s, s')
    requires LiveOne(app, s.frames.head, level) && Rq(s.mem, level).items != [] ==>
               LiveOne(app, s'.frames.head, level) || Pends(s'.pending, level)
    requires Rq(s'.mem, level).items != [] ==> Rq(s.mem, level).items != [] || LiveOne(app, s'.frames.head, level)
    ensures Awake(app, s', level)
  {
  }

  lemma Quiet(app: App, s: State, s': State, t: nat, level: int)
    requires InvAt(app, s, t, level) && TopMoved(s, s')
    requires s'.mem == s.mem && s'.sent == s.sent && s'.called == s.called
    requires HandOf(s'.frames.head) == HandOf(s.frames.head) && Linked(app, s.mem, s'.frames.head)
    requires FlightOf(s.mem, s'.frames.head, level) == FlightOf(s.mem, s.frames.head, level)
    requires LiveOne(app, s.frames.head, level) && Rq(s.mem, level).items != [] ==>
               LiveOne(app, s'.frames.head, level) || Pends(s'.pending, level)
    ensures InvAt(app, s', t, level)
  {
  }

  // ---- Spawn steps ----------------------------------------------------------------------------------------------

  ghost predicate AtUser(s: State, sp: SpawnPc) {
    s.frames.Cons? && HasUser(s.frames.head) && s.frames.head.stage.u.sp == sp && s.frames.head.stage.u.lk == Settled
  }

  function WithUser(f: Frame, u: User): Frame
    requires HasUser(f)
  {
    if f.stage.Boot? then f.(stage := Boot(u)) else f.(stage := Running(u))
  }

  /** The top context's spawn code moves on and leaves memory `m` and history `sent`. */
  function Spawned(s: State, sp: SpawnPc, m: Mem, sent: map<int, seq<(nat, int)>>): State
    requires s.frames.Cons? && HasUser(s.frames.head)
  {
    var u := s.frames.head.stage.u.(sp := sp);
    s.(frames := Cons(WithUser(s.frames.head, u), s.frames.tail), mem := m, sent := sent)
  }

  lemma TakeConserves(app: App, s: State, s': State, t: nat, i: nat, t': nat)
    requires Conserved(app, s, t') && TopMoved(s, s') && Fq(s.mem, t).items != [] && Fq(s.mem, t).items[0] == i
    requires HandOf(s.frames.head) == None && HandOf(s'.frames.head) == Some((t, i))
    requires s'.mem == s.mem.(fq := s.mem.fq[t := Fq(s.mem, t).(items := Fq(s.mem, t).items[1..])])
    ensures Conserved(app, s', t')
  {
    FreeToHand(s.frames.head, s'.frames.head, s.frames.tail, Fq(s.mem, t).items, t, i,
               Queued(Rq(s.mem, app.level(t)).items, t));
  }

  lemma {:induction false} SlotTakenKeepsSlots(app: App, s: State, t: nat, v: int, i: nat, s': State, t': nat)
    requires s.frames.Cons? && AllLinked(app, s.mem, s.frames) && Conserved(app, s, t') && AtUser(s, Read(t, v, i))
    requires Orderly(app, s.frames.tail) && NoneAccesses(app, s.frames.tail, FreeQ(t))
    requires var q := Fq(s.mem, t);
             q.items != [] ==>
               s' == Spawned(s, Got(t, v, i), s.mem.(fq := s.mem.fq[t := q.(items := q.items[1..])]), s.sent)
    ensures AllLinked(app, s'.mem, s'.frames) && Conserved(app, s', t')
  {
    var q := Fq(s.mem, t);
    assert Linked(app, s.mem, s.frames.head);
    OthersKeepFreeHead(app, s.mem, s'.mem, s.frames.tail, t, q.(items := q.items[1..]));
    TakeConserves(app, s, s', t, i, t');
  }

  lemma {:induction false} SlotTakenKeepsOrder(app: App, s: State, t: nat, v: int, i: nat, s': State, level: int)
    requires s.frames.Cons? && AllLinked(app, s.mem, s.frames)
    requires Fifo(s, level) && Awake(app, s, level) && AtUser(s, Read(t, v, i))
    requires Orderly(app, s.frames.tail) && NoneAccesses(app, s.frames.tail, FreeQ(t))
    requires var q := Fq(s.mem, t);
             q.items != [] ==>
               s' == Spawned(s, Got(t, v, i), s.mem.(fq := s.mem.fq[t := q.(items := q.items[1..])]), s.sent)
    ensures Fifo(s', level) && Awake(app, s', level)
  {
    var q := Fq(s.mem, t);
    assert Linked(app, s.mem, s.frames.head);
    KeepFifo(s, s', level);
    KeepAwake(app, s, s', level);
  }

  /** Writing the input of a slot in hand changes no message that is queued. */
  lemma InputKeepsPayloads(app: App, s: State, t: nat, i: nat, v: int, m': Mem, level: int)
    requires s.frames.Cons? && Conserved(app, s, t) && TypedMem(app, s.mem) && t < app.tasks
    requires HandOf(s.frames.head) == Some((t, i)) && m' == s.mem.(inputs := s.mem.inputs[(t, i) := v])
    ensures Payloads(m', Rq(s.mem, level).items) == Payloads(s.mem, Rq(s.mem, level).items)
  {
    HandIsUnique(app, s, t, i);
    var items := Rq(s.mem, level).items;
    forall k | 0 <= k < |items| ensures items[k] != (t, i) {
      assert items[k] in items && TypedChan(app, level, Rq(s.mem, level));
      QueuedHas(items, k);
    }
  }

  lemma InputKeepsFifo(app: App, s: State, t: nat, i: nat, v: int, s': State, level: int)
    requires Fifo(s, level) && TopMoved(s, s') && Conserved(app, s, t) && TypedMem(app, s.mem) && t < app.tasks
    requires HandOf(s.frames.head) == Some((t, i)) && HasUser(s.frames.head) && HasUser(s'.frames.head)
    requires s'.sent == s.sent && s'.called == s.called && s'.mem == s.mem.(inputs := s.mem.inputs[(t, i) := v])
    ensures Fifo(s', level)
  {
    HandIsUnique(app, s, t, i);
    OthersKeepFlight(s.mem, s'.mem, s.frames.tail, t, i, v, level);
    InputKeepsPayloads(app, s, t, i, v, s'.mem, level);
  }

  lemma {:induction false} InputLinked(app: App, s: State, t: nat, v: int, i: nat, s': State)
    requires s.frames.Cons? && AllLinked(app, s.mem, s.frames) && AtUser(s, Got(t, v, i)) && t < app.tasks
    requires i !in Hands(s.frames.tail, t)
    requires s' == Spawned(s, Written(t, v, i), s.mem.(inputs := s.mem.inputs[(t, i) := v]), s.sent)
    ensures AllLinked(app, s'.mem, s'.frames)
  {
    OthersKeepInput(app, s.mem, s'.mem, s.frames.tail, t, i, v);
    assert Linked(app, s'.mem, s'.frames.head);
  }

  lemma {:induction false} InputWrittenKeepsSlots(app: App, s: State, t: nat, v: int, i: nat, s': State, t': nat)
    requires s.frames.Cons? && AllLinked(app, s.mem, s.frames)
    requires Conserved(app, s, t') && Conserved(app, s, t) && TypedMem(app, s.mem)
    requires AtUser(s, Got(t, v, i)) && t < app.tasks
    requires s' == Spawned(s, Written(t, v, i), s.mem.(inputs := s.mem.inputs[(t, i) := v]), s.sent)
    ensures AllLinked(app, s'.mem, s'.frames) && Conserved(app, s', t')
  {
    HandIsUnique(app, s, t, i);
    InputLinked(app, s, t, v, i, s');
    KeepConserved(app, s, s', t');
  }

  lemma {:induction false} InputWrittenKeepsOrder(app: App, s: State, t: nat, v: int, i: nat, s': State, level: int)
    requires s.frames.Cons? && AllLinked(app, s.mem, s.frames)
    requires Fifo(s, level) && Awake(app, s, level) && Conserved(app, s, t) && TypedMem(app, s.mem)
    requires AtUser(s, Got(t, v, i)) && t < app.tasks
    requires s' == Spawned(s, Written(t, v, i), s.mem.(inputs := s.mem.inputs[(t, i) := v]), s.sent)
    ensures Fifo(s', level) && Awake(app, s', level)
  {
    InputKeepsFifo(app, s, t, i, v, s', level);
    KeepAwake(app, s, s', level);
  }

  lemma {:induction false} StagedLinked(app: App, s: State, t: nat, v: int, i: nat, s': State, q: Chan<(nat, nat)>)
    requires s.frames.Cons? && AllLinked(app, s.mem, s.frames) && AtUser(s, Written(t, v, i))
    requires Orderly(app, s.frames.tail) && NoneAccesses(app, s.frames.tail, ReadyQ(app.level(t)))
    requires q == Rq(s.mem, app.level(t)).(staged := Some((t, i)))
    requires s' == Spawned(s, Staged(t, v, i), s.mem.(rq := s.mem.rq[app.level(t) := q]), s.sent)
    ensures AllLinked(app, s'.mem, s'.frames)
  {
    OthersKeepReadyTail(app, s.mem, s'.mem, s.frames.tail, app.level(t), q);
    assert Linked(app, s.mem, s.frames.head) && Linked(app, s'.mem, s'.frames.head);
  }

  lemma {:induction false} MessageStagedKeepsSlots(app: App, s: State, t: nat, v: int, i: nat, s': State, t': nat)
    requires s.frames.Cons? && AllLinked(app, s.mem, s.frames) && Conserved(app, s, t') && AtUser(s, Written(t, v, i))
    requires Orderly(app, s.frames.tail) && NoneAccesses(app, s.frames.tail, ReadyQ(app.level(t)))
    requires var q := Rq(s.mem, app.level(t)).(staged := Some((t, i)));
             s' == Spawned(s, Staged(t, v, i), s.mem.(rq := s.mem.rq[app.level(t) := q]), s.sent)
    ensures AllLinked(app, s'.mem, s'.frames) && Conserved(app, s', t')
  {
    StagedLinked(app, s, t, v, i, s', Rq(s.mem, app.level(t)).(staged := Some((t, i))));
    KeepConserved(app, s, s', t');
  }

  lemma {:induction false} MessageStagedKeepsOrder(app: App, s: State, t: nat, v: int, i: nat, s': State, level: int)
    requires s.frames.Cons? && AllLinked(app, s.mem, s.frames)
    requires Fifo(s, level) && Awake(app, s, level) && AtUser(s, Written(t, v, i))
    requires Orderly(app, s.frames.tail) && NoneAccesses(app, s.frames.tail, ReadyQ(app.level(t)))
    requires var q := Rq(s.mem, app.level(t)).(staged := Some((t, i)));
             s' == Spawned(s, Staged(t, v, i), s.mem.(rq := s.mem.rq[app.level(t) := q]), s.sent)
    ensures Fifo(s', level) && Awake(app, s', level)
  {
    KeepFifo(s, s', level);
    KeepAwake(app, s, s', level);
  }

  lemma SendConserves(app: App, s: State, s': State, t: nat, i: nat, q: Chan<(nat, nat)>, t': nat)
    requires Conserved(app, s, t') && TopMoved(s, s')
    requires HandOf(s.frames.head) == Some((t, i)) && HandOf(s'.frames.head) == None
    requires s'.mem == s.mem.(rq := s.mem.rq[app.level(t) := q])
    requires q.items == Rq(s.mem, app.level(t)).items + [(t, i)]
    ensures Conserved(app, s', t')
  {
    if t' < app.tasks && app.level(t') == app.level(t) {
      HandToQueue(s.frames.head, s'.frames.head, s.frames.tail, Rq(s.mem, app.level(t)).items, t, i, t');
    }
  }

  lemma SendKeepsFifo(app: App, s: State, s': State, t: nat, v: int, i: nat, q: Chan<(nat, nat)>,
                                         level: int)
    requires Fifo(s, level) && TopMoved(s, s') && HasUser(s.frames.head) && HasUser(s'.frames.head)
    requires s'.called == s.called && s'.sent == s.sent[app.level(t) := Log(s.sent, app.level(t)) + [(t, v)]]
    requires s'.mem == s.mem.(rq := s.mem.rq[app.level(t) := q]) && Input(s.mem, t, i) == v
    requires q.items == Rq(s.mem, app.level(t)).items + [(t, i)]
    ensures Fifo(s', level)
  {
    OthersFlight(s.mem, s'.mem, s.frames.tail, level);
    PayloadsSame(s.mem, s'.mem, Rq(s.mem, level).items);
    PayloadsAppend(s.mem, s'.mem, Rq(s.mem, app.level(t)).items, t, i);
  }

  lemma {:induction false} MessageSentKeepsSlots(app: App, s: State, t: nat, v: int, i: nat, s': State, t': nat)
    requires s.frames.Cons? && AllLinked(app, s.mem, s.frames) && Conserved(app, s, t') && AtUser(s, Staged(t, v, i))
    requires Orderly(app, s.frames.tail) && NoneAccesses(app, s.frames.tail, ReadyQ(app.level(t)))
    requires s' == Spawned(s, Sent(t), s.mem.(rq := s.mem.rq[app.level(t) := Publish(Rq(s.mem, app.level(t)))]),
                           s.sent[app.level(t) := Log(s.sent, app.level(t)) + [(t, v)]])
    ensures AllLinked(app, s'.mem, s'.frames) && Conserved(app, s', t')
  {
    var q := Publish(Rq(s.mem, app.level(t)));
    assert Linked(app, s.mem, s.frames.head);
    OthersKeepReadyTail(app, s.mem, s'.mem, s.frames.tail, app.level(t), q);
    SendConserves(app, s, s', t, i, q, t');
  }

  lemma {:induction false} MessageSentKeepsOrder(app: App, s: State, t: nat, v: int, i: nat, s': State, level: int)
    requires s.frames.Cons? && AllLinked(app, s.mem, s.frames)
    requires Fifo(s, level) && Awake(app, s, level) && AtUser(s, Staged(t, v, i))
    requires Orderly(app, s.frames.tail) && NoneAccesses(app, s.frames.tail, ReadyQ(app.level(t)))
    requires s' == Spawned(s, Sent(t), s.mem.(rq := s.mem.rq[app.level(t) := Publish(Rq(s.mem, app.level(t)))]),
                           s.sent[app.level(t) := Log(s.sent, app.level(t)) + [(t, v)]])
    ensures Fifo(s', level) && Awake(app, s', level)
  {
    var q := Publish(Rq(s.mem, app.level(t)));
    assert Linked(app, s.mem, s.frames.head);
    SendKeepsFifo(app, s, s', t, v, i, q, level);
    KeepAwake(app, s, s', level);
  }

  // ---- Dispatcher steps -----------------------------------------------------------------------------------------

  function Dispatched(s: State, st: Stage, m: Mem): State
    requires s.frames.Cons?
  {
    s.(frames := Cons(s.frames.head.(stage := st), s.frames.tail), mem := m)
  }

  ghost predicate AtDispatch(app: App, s: State, st: Stage) {
    && s.frames.Cons? && s.frames.head.stage == st && IsDispatch(st)
    && Orderly(app, s.frames.tail) && NoLevel(s.frames.tail, s.frames.head.prio)
  }

  lemma ReceiveConserves(app: App, s: State, s': State, t: nat, i: nat, q: Chan<(nat, nat)>, t': nat)
    requires Conserved(app, s, t') && TopMoved(s, s')
    requires HandOf(s.frames.head) == None && HandOf(s'.frames.head) == Some((t, i))
    requires s'.mem == s.mem.(rq := s.mem.rq[app.level(t) := q])
    requires Rq(s.mem, app.level(t)).items == [(t, i)] + q.items
    ensures Conserved(app, s', t')
  {
    if t' < app.tasks && app.level(t') == app.level(t) {
      QueueToHand(s.frames.head, s'.frames.head, s.frames.tail, Rq(s.mem, app.level(t)).items, t, i, t');
    }
  }

  lemma ReceiveKeepsFifo(s: State, s': State, t: nat, i: nat, q: Chan<(nat, nat)>, level: int)
    requires Fifo(s, level) && TopMoved(s, s') && s'.sent == s.sent && s'.called == s.called
    requires s.frames.head.stage == Peeked(t, i) && s'.frames.head == s.frames.head.(stage := Taken(t, i))
    requires NoLevel(s.frames.tail, s.frames.head.prio)
    requires s'.mem == s.mem.(rq := s.mem.rq[s.frames.head.prio := q])
    requires Rq(s.mem, s.frames.head.prio).items == [(t, i)] + q.items
    ensures Fifo(s', level)
  {
    if level == s.frames.head.prio {
      NoFlight(s.mem, s.frames.tail, level);
      NoFlight(s'.mem, s.frames.tail, level);
      assert Flight(s.mem, s.frames, level) == [];
      assert Flight(s'.mem, s'.frames, level) == [(t, Input(s.mem, t, i))];
      PayloadsSplit(s.mem, s'.mem, Rq(s.mem, level).items);
    } else {
      KeepFifo(s, s', level);
    }
  }

  lemma {:induction false} MessageTakenKeepsSlots(app: App, s: State, t: nat, i: nat, s': State, t': nat)
    requires s.frames.Cons? && AllLinked(app, s.mem, s.frames)
    requires Conserved(app, s, t') && AtDispatch(app, s, Peeked(t, i)) && Typed(app, s.frames.head.prio, t)
    requires var q := Rq(s.mem, s.frames.head.prio);
             q.items != [] ==>
               s' == Dispatched(s, Taken(t, i), s.mem.(rq := s.mem.rq[s.frames.head.prio := q.(items := q.items[1..])]))
    ensures AllLinked(app, s'.mem, s'.frames) && Conserved(app, s', t')
  {
    var f := s.frames.head;
    var q := Rq(s.mem, f.prio).(items := Rq(s.mem, f.prio).items[1..]);
    assert Linked(app, s.mem, f);
    OthersKeepReadyHead(app, s.mem, s'.mem, s.frames.tail, f.prio, q);
    ReceiveConserves(app, s, s', t, i, q, t');
  }

  lemma {:induction false} MessageTakenKeepsOrder(app: App, s: State, t: nat, i: nat, s': State, level: int)
    requires s.frames.Cons? && AllLinked(app, s.mem, s.frames)
    requires Fifo(s, level) && Awake(app, s, level)
    requires AtDispatch(app, s, Peeked(t, i)) && Typed(app, s.frames.head.prio, t)
    requires var q := Rq(s.mem, s.frames.head.prio);
             q.items != [] ==>
               s' == Dispatched(s, Taken(t, i), s.mem.(rq := s.mem.rq[s.frames.head.prio := q.(items := q.items[1..])]))
    ensures Fifo(s', level) && Awake(app, s', level)
  {
    var f := s.frames.head;
    var q := Rq(s.mem, f.prio).(items := Rq(s.mem, f.prio).items[1..]);
    assert Linked(app, s.mem, f);
    ReceiveKeepsFifo(s, s', t, i, q, level);
    KeepAwake(app, s, s', level);
  }

  lemma {:induction false} FreeTailLinked(app: App, s: State, t: nat, s': State, st: Stage, st': Stage, q: Chan<nat>)
    requires s.frames.Cons? && AllLinked(app, s.mem, s.frames)
    requires AtDispatch(app, s, st) && app.level(t) == s.frames.head.prio
    requires Fq(s.mem, t).items <= q.items && s' == Dispatched(s, st', s.mem.(fq := s.mem.fq[t := q]))
    requires st'.Call? || (st'.Freeing? && st'.t == t && q.staged == Some(st'.i))
    ensures AllLinked(app, s'.mem, s'.frames)
  {
    OthersKeepFreeTail(app, s.mem, s'.mem, s.frames.tail, t, q);
    assert Linked(app, s'.mem, s'.frames.head);
  }

  lemma {:induction false} SlotStagedKeepsSlots(app: App, s: State, t: nat, i: nat, v: int, s': State, t': nat)
    requires s.frames.Cons? && AllLinked(app, s.mem, s.frames)
    requires Conserved(app, s, t') && AtDispatch(app, s, Loaded(t, i, v)) && Typed(app, s.frames.head.prio, t)
    requires s' == Dispatched(s, Freeing(t, i, v), s.mem.(fq := s.mem.fq[t := Fq(s.mem, t).(staged := Some(i))]))
    ensures AllLinked(app, s'.mem, s'.frames) && Conserved(app, s', t')
  {
    FreeTailLinked(app, s, t, s', Loaded(t, i, v), Freeing(t, i, v), Fq(s.mem, t).(staged := Some(i)));
    KeepConserved(app, s, s', t');
  }

  lemma {:induction false} SlotStagedKeepsOrder(app: App, s: State, t: nat, i: nat, v: int, s': State, level: int)
    requires s.frames.Cons? && AllLinked(app, s.mem, s.frames)
    requires Fifo(s, level) && Awake(app, s, level)
    requires AtDispatch(app, s, Loaded(t, i, v)) && Typed(app, s.frames.head.prio, t)
    requires s' == Dispatched(s, Freeing(t, i, v), s.mem.(fq := s.mem.fq[t := Fq(s.mem, t).(staged := Some(i))]))
    ensures Fifo(s', level) && Awake(app, s', level)
  {
    KeepFifo(s, s', level);
    KeepAwake(app, s, s', level);
  }

  lemma FreeConserves(app: App, s: State, s': State, t: nat, i: nat, q: Chan<nat>, t': nat)
    requires Conserved(app, s, t') && TopMoved(s, s')
    requires HandOf(s.frames.head) == Some((t, i)) && HandOf(s'.frames.head) == None
    requires s'.mem == s.mem.(fq := s.mem.fq[t := q]) && q.items == Fq(s.mem, t).items + [i]
    ensures Conserved(app, s', t')
  {
    HandToFree(s.frames.head, s'.frames.head, s.frames.tail, Fq(s.mem, t).items, t, i,
               Queued(Rq(s.mem, app.level(t)).items, t));
  }

  lemma {:induction false} SlotFreedKeepsSlots(app: App, s: State, t: nat, i: nat, v: int, s': State, t': nat)
    requires s.frames.Cons? && AllLinked(app, s.mem, s.frames)
    requires Conserved(app, s, t') && AtDispatch(app, s, Freeing(t, i, v)) && Typed(app, s.frames.head.prio, t)
    requires s' == Dispatched(s, Call(t, v), s.mem.(fq := s.mem.fq[t := Publish(Fq(s.mem, t))]))
    ensures AllLinked(app, s'.mem, s'.frames) && Conserved(app, s', t')
  {
    assert Linked(app, s.mem, s.frames.head);
    FreeTailLinked(app, s, t, s', Freeing(t, i, v), Call(t, v), Publish(Fq(s.mem, t)));
    FreeConserves(app, s, s', t, i, Publish(Fq(s.mem, t)), t');
  }

  lemma {:induction false} SlotFreedKeepsOrder(app: App, s: State, t: nat, i: nat, v: int, s': State, level: int)
    requires s.frames.Cons? && AllLinked(app, s.mem, s.frames)
    requires Fifo(s, level) && Awake(app, s, level)
    requires AtDispatch(app, s, Freeing(t, i, v)) && Typed(app, s.frames.head.prio, t)
    requires s' == Dispatched(s, Call(t, v), s.mem.(fq := s.mem.fq[t := Publish(Fq(s.mem, t))]))
    ensures Fifo(s', level) && Awake(app, s', level)
  {
    KeepFifo(s, s', level);
    KeepAwake(app, s, s', level);
  }

  lemma Reassociate<T>(a: seq<T>, b: seq<T>, c: seq<T>, d: seq<T>)
    ensures a + ((b + c) + d) == (a + b) + (([] + c) + d)
  {
  }

  lemma CallKeepsFifo(s: State, s': State, t: nat, v: int, level: int)
    requires Fifo(s, level) && TopMoved(s, s') && s'.sent == s.sent && s'.mem == s.mem
    requires s.frames.head.stage == Call(t, v) && HasUser(s'.frames.head)
    requires s'.called == s.called[s.frames.head.prio := Log(s.called, s.frames.head.prio) + [(t, v)]]
    ensures Fifo(s', level)
  {
    if level == s.frames.head.prio {
      Reassociate(Log(s.called, level), [(t, v)], Flight(s.mem, s.frames.tail, level),
                  Payloads(s.mem, Rq(s.mem, level).items));
    }
  }

  lemma {:induction false} TaskCalledKeepsSlots(app: App, s: State, t: nat, v: int, s': State, t': nat)
    requires s.frames.Cons? && AllLinked(app, s.mem, s.frames)
    requires Conserved(app, s, t') && AtDispatch(app, s, Call(t, v))
    requires var l := s.frames.head.prio;
             s' == Dispatched(s, Running(NewUser(Sw(t), l)), s.mem)
                   .(called := s.called[l := Log(s.called, l) + [(t, v)]])
    ensures AllLinked(app, s'.mem, s'.frames) && Conserved(app, s', t')
  {
    KeepConserved(app, s, s', t');
  }

  lemma {:induction false} TaskCalledKeepsOrder(app: App, s: State, t: nat, v: int, s': State, level: int)
    requires s.frames.Cons? && AllLinked(app, s.mem, s.frames)
    requires Fifo(s, level) && Awake(app, s, level) && AtDispatch(app, s, Call(t, v))
    requires var l := s.frames.head.prio;
             s' == Dispatched(s, Running(NewUser(Sw(t), l)), s.mem)
                   .(called := s.called[l := Log(s.called, l) + [(t, v)]])
    ensures Fifo(s', level) && Awake(app, s', level)
  {
    CallKeepsFifo(s, s', t, v, level);
    KeepAwake(app, s, s', level);
  }

  // ---- Every step -----------------------------------------------------------------------------------------------

  /** The spawner's context is alone with the queue end it has locked. */
  lemma {:induction false} SpawnerAlone(app: App, s: State, l: Lockable)
    requires WellFormed(app) && MaskInv(app, s) && HasUser(s.frames.head)
    requires s.frames.head.stage.Boot? || HeadIs(s.frames.head.stage.u, l)
    ensures Orderly(app, s.frames.tail) && NoneAccesses(app, s.frames.tail, l)
  {
    assert Accesses(app, s.frames.head, l);
    AloneBelow(app, s.frames, l);
    StackIsOrderly(app, s.frames.tail);
  }

  /** The dispatcher's context is the only one of its level. */
  lemma DispatcherAlone(app: App, s: State)
    requires WellFormed(app) && MaskInv(app, s) && IsDispatch(s.frames.head.stage)
    ensures AtDispatch(app, s, s.frames.head.stage)
    ensures !s.frames.head.stage.Poll? ==> Typed(app, s.frames.head.prio, s.frames.head.stage.t)
  {
    StackIsOrderly(app, s.frames.tail);
    LevelAlone(app, s.frames.tail, s.frames.head.prio);
  }

  /** Lock steps, and spawn steps that only look: nothing that the queues depend on changes. */
  lemma QuietUser(app: App, s: State, u: User, s': State, t: nat, level: int)
    requires InvAt(app, s, t, level) && HasUser(s.frames.head)
    requires s'.frames == Cons(WithUser(s.frames.head, u), s.frames.tail) && s'.mem == s.mem
    requires s'.sent == s.sent && s'.called == s.called && s.pending <= s'.pending
    requires UserHand(u) == UserHand(s.frames.head.stage.u) && UserLinked(app, s.mem, u)
    requires s.frames.head.stage.u.sp.Sent? ==> u.sp == s.frames.head.stage.u.sp
    ensures InvAt(app, s', t, level)
  {
    Quiet(app, s, s', t, level);
  }

  /** The state after one step of the spawn code of the top context. */
  function AfterSpawn(app: App, s: State): State
    requires s.frames.Cons? && HasUser(s.frames.head) && s.frames.head.stage.u.sp != NoSpawn
  {
    var f := s.frames.head;
    var u := f.stage.u;
    s.(frames := Cons(WithUser(f, SpawnUser(app, s.mem, u, f.stage.Boot?)), s.frames.tail),
       mem := SpawnMem(app, s.mem, u, f.stage.Boot?), sent := SpawnLog(app, u, s.sent),
       pending := SpawnPend(app, u, s.pending))
  }

  ghost predicate Spawning(app: App, s: State, t: nat, level: int) {
    && InvAt(app, s, t, level) && HasUser(s.frames.head)
    && s.frames.head.stage.u.lk == Settled && s.frames.head.stage.u.sp != NoSpawn
  }

  lemma LookTick(app: App, s: State, t: nat, level: int)
    requires Spawning(app, s, t, level)
    requires var f := s.frames.head; var u := f.stage.u;
             || u.sp.Take? || u.sp.Full? || (u.sp.Got? && HeadIs(u, FreeQ(u.sp.t)))
             || (u.sp.Written? && !f.stage.Boot? && !HeadIs(u, ReadyQ(app.level(u.sp.t))))
             || (u.sp.Sent? && HeadIs(u, ReadyQ(app.level(u.sp.t))))
    ensures InvAt(app, AfterSpawn(app, s), t, level)
  {
    QuietUser(app, s, SpawnUser(app, s.mem, s.frames.head.stage.u, s.frames.head.stage.Boot?), AfterSpawn(app, s),
              t, level);
  }

  lemma ReadTick(app: App, s: State, t: nat, level: int)
    requires WellFormed(app) && MaskInv(app, s) && Spawning(app, s, t, level) && s.frames.head.stage.u.sp.Read?
    requires s.frames.head.stage.Boot? || HeadIs(s.frames.head.stage.u, FreeQ(s.frames.head.stage.u.sp.t))
    ensures InvAt(app, AfterSpawn(app, s), t, level)
  {
    var sp := s.frames.head.stage.u.sp;
    SpawnerAlone(app, s, FreeQ(sp.t));
    assert Linked(app, s.mem, s.frames.head);
    SlotTakenKeepsSlots(app, s, sp.t, sp.v, sp.i, AfterSpawn(app, s), t);
    SlotTakenKeepsOrder(app, s, sp.t, sp.v, sp.i, AfterSpawn(app, s), level);
  }

  lemma GotTick(app: App, s: State, t: nat, level: int)
    requires Spawning(app, s, t, level) && s.frames.head.stage.u.sp.Got? && TypedMem(app, s.mem)
    requires var sp := s.frames.head.stage.u.sp;
             sp.t < app.tasks && Conserved(app, s, sp.t) && !HeadIs(s.frames.head.stage.u, FreeQ(sp.t))
    ensures InvAt(app, AfterSpawn(app, s), t, level)
  {
    var sp := s.frames.head.stage.u.sp;
    InputWrittenKeepsSlots(app, s, sp.t, sp.v, sp.i, AfterSpawn(app, s), t);
    InputWrittenKeepsOrder(app, s, sp.t, sp.v, sp.i, AfterSpawn(app, s), level);
  }

  lemma WrittenTick(app: App, s: State, t: nat, level: int)
    requires WellFormed(app) && MaskInv(app, s) && Spawning(app, s, t, level) && s.frames.head.stage.u.sp.Written?
    requires s.frames.head.stage.Boot?
             || HeadIs(s.frames.head.stage.u, ReadyQ(app.level(s.frames.head.stage.u.sp.t)))
    ensures InvAt(app, AfterSpawn(app, s), t, level)
  {
    var sp := s.frames.head.stage.u.sp;
    SpawnerAlone(app, s, ReadyQ(app.level(sp.t)));
    MessageStagedKeepsSlots(app, s, sp.t, sp.v, sp.i, AfterSpawn(app, s), t);
    MessageStagedKeepsOrder(app, s, sp.t, sp.v, sp.i, AfterSpawn(app, s), level);
  }

  lemma StagedTick(app: App, s: State, t: nat, level: int)
    requires WellFormed(app) && MaskInv(app, s) && Spawning(app, s, t, level) && s.frames.head.stage.u.sp.Staged?
    requires s.frames.head.stage.Boot?
             || HeadIs(s.frames.head.stage.u, ReadyQ(app.level(s.frames.head.stage.u.sp.t)))
    ensures InvAt(app, AfterSpawn(app, s), t, level)
  {
    var sp := s.frames.head.stage.u.sp;
    SpawnerAlone(app, s, ReadyQ(app.level(sp.t)));
    MessageSentKeepsSlots(app, s, sp.t, sp.v, sp.i, AfterSpawn(app, s), t);
    MessageSentKeepsOrder(app, s, sp.t, sp.v, sp.i, AfterSpawn(app, s), level);
  }

  lemma SentTick(app: App, s: State, t: nat, level: int)
    requires Spawning(app, s, t, level) && s.frames.head.stage.u.sp.Sent?
    requires var a := s.frames.head.stage.u.sp.t;
             1 <= app.level(a) <= NSGIS && !HeadIs(s.frames.head.stage.u, ReadyQ(app.level(a)))
    ensures InvAt(app, AfterSpawn(app, s), t, level)
  {
    Quiet(app, s, AfterSpawn(app, s), t, level);
  }

  /** One step of the dispatcher loop at the top of the stack. */
  function AfterDispatch(s: State): State
    requires s.frames.Cons?
  {
    var f := s.frames.head;
    s.(frames := Cons(f.(stage := DispatchStage(s.mem, f.prio, f.stage)), s.frames.tail),
       mem := DispatchMem(s.mem, f.prio, f.stage), called := DispatchLog(f.prio, f.stage, s.called))
  }

  lemma TakenTick(app: App, s: State, t: nat, level: int)
    requires InvAt(app, s, t, level) && s.frames.head.stage.Taken?
    ensures InvAt(app, AfterDispatch(s), t, level)
  {
    Quiet(app, s, AfterDispatch(s), t, level);
  }

  /** Looking for a message holds none, and leaves the loop only if there is none. */
  lemma PollShape(app: App, m: Mem, f: Frame, level: int)
    requires f.stage.Poll? && f.origin.Handler? && f.prio == IrqPrio(app, f.origin.irq)
    ensures var g := f.(stage := DispatchStage(m, f.prio, f.stage));
            && HandOf(g) == HandOf(f) && Linked(app, m, g) && FlightOf(m, g, level) == FlightOf(m, f, level)
            && (LiveOne(app, f, level) && Rq(m, level).items != [] ==> LiveOne(app, g, level))
  {
  }

  lemma PollTick(app: App, s: State, t: nat, level: int)
    requires InvAt(app, s, t, level) && s.frames.head.stage.Poll?
    requires s.frames.head.origin.Handler? && s.frames.head.prio == IrqPrio(app, s.frames.head.origin.irq)
    ensures InvAt(app, AfterDispatch(s), t, level)
  {
    PollShape(app, s.mem, s.frames.head, level);
    Quiet(app, s, AfterDispatch(s), t, level);
  }

  lemma PeekedTick(app: App, s: State, t: nat, level: int)
    requires InvAt(app, s, t, level) && s.frames.head.stage.Peeked? && AtDispatch(app, s, s.frames.head.stage)
    requires Typed(app, s.frames.head.prio, s.frames.head.stage.t)
    ensures InvAt(app, AfterDispatch(s), t, level)
  {
    var st := s.frames.head.stage;
    assert Linked(app, s.mem, s.frames.head);
    MessageTakenKeepsSlots(app, s, st.t, st.i, AfterDispatch(s), t);
    MessageTakenKeepsOrder(app, s, st.t, st.i, AfterDispatch(s), level);
  }

  lemma LoadedTick(app: App, s: State, t: nat, level: int)
    requires InvAt(app, s, t, level) && s.frames.head.stage.Loaded? && AtDispatch(app, s, s.frames.head.stage)
    requires Typed(app, s.frames.head.prio, s.frames.head.stage.t)
    ensures InvAt(app, AfterDispatch(s), t, level)
  {
    var st := s.frames.head.stage;
    SlotStagedKeepsSlots(app, s, st.t, st.i, st.v, AfterDispatch(s), t);
    SlotStagedKeepsOrder(app, s, st.t, st.i, st.v, AfterDispatch(s), level);
  }

  lemma FreeingTick(app: App, s: State, t: nat, level: int)
    requires InvAt(app, s, t, level) && s.frames.head.stage.Freeing? && AtDispatch(app, s, s.frames.head.stage)
    requires Typed(app, s.frames.head.prio, s.frames.head.stage.t)
    ensures InvAt(app, AfterDispatch(s), t, level)
  {
    var st := s.frames.head.stage;
    SlotFreedKeepsSlots(app, s, st.t, st.i, st.v, AfterDispatch(s), t);
    SlotFreedKeepsOrder(app, s, st.t, st.i, st.v, AfterDispatch(s), level);
  }

  lemma CallTick(app: App, s: State, t: nat, level: int)
    requires InvAt(app, s, t, level) && s.frames.head.stage.Call? && AtDispatch(app, s, s.frames.head.stage)
    ensures InvAt(app, AfterDispatch(s), t, level)
  {
    var st := s.frames.head.stage;
    TaskCalledKeepsSlots(app, s, st.t, st.v, AfterDispatch(s), t);
    TaskCalledKeepsOrder(app, s, st.t, st.v, AfterDispatch(s), level);
  }

  lemma DispatchTick(app: App, s: State, t: nat, level: int)
    requires WellFormed(app) && MaskInv(app, s) && InvAt(app, s, t, level) && IsDispatch(s.frames.head.stage)
    ensures InvAt(app, AfterDispatch(s), t, level)
  {
    DispatcherAlone(app, s);
    match s.frames.head.stage
    case Peeked(_, _) => PeekedTick(app, s, t, level);
    case Loaded(_, _, _) => LoadedTick(app, s, t, level);
    case Freeing(_, _, _) => FreeingTick(app, s, t, level);
    case Call(_, _) => CallTick(app, s, t, level);
    case Taken(_, _) => TakenTick(app, s, t, level);
    case _ => PollTick(app, s, t, level);
  }

  lemma SpawnTick(app: App, s: State, t: nat, level: int)
    requires WellFormed(app) && MaskInv(app, s) && Spawning(app, s, t, level)
    requires forall a: nat :: Conserved(app, s, a)
    ensures InvAt(app, AfterSpawn(app, s), t, level)
  {
    var f := s.frames.head;
    var u := f.stage.u;
    assert SpawnOk(app, u, f.stage.Boot?);
    match u.sp
    case Read(_, _, _) => ReadTick(app, s, t, level);
    case Got(a, _, _) => if HeadIs(u, FreeQ(a)) { LookTick(app, s, t, level); } else { GotTick(app, s, t, level); }
    case Written(a, _, _) =>
      if !f.stage.Boot? && !HeadIs(u, ReadyQ(app.level(a))) { LookTick(app, s, t, level); }
      else { WrittenTick(app, s, t, level); }
    case Staged(_, _, _) => StagedTick(app, s, t, level);
    case Sent(a) =>
      if HeadIs(u, ReadyQ(app.level(a))) { LookTick(app, s, t, level); } else { SentTick(app, s, t, level); }
    case _ => LookTick(app, s, t, level);
  }

  // ---- Interrupt entry and exit ---------------------------------------------------------------------------------

  /** A context that has just been entered or is about to leave holds no message. */
  lemma {:induction false} HoldsNothing(app: App, m: Mem, f: Frame, rest: List<Frame>, t: nat, level: int)
    requires f.stage.Ended? || f.stage.Entered?
    ensures Hands(Cons(f, rest), t) == Hands(rest, t) && Flight(m, Cons(f, rest), level) == Flight(m, rest, level)
  {
    assert HandOf(f) == None && FlightOf(m, f, level) == [];
  }

  lemma Entering(app: App, s: State, f: Frame, s': State, t: nat, level: int)
    requires InvAt(app, s, t, level) && s'.frames == Cons(f, s.frames) && f.stage.Entered? && f.origin == Exception
    requires s'.mem == s.mem && s'.sent == s.sent && s'.called == s.called && s'.pending == s.pending
    ensures InvAt(app, s', t, level)
  {
    HoldsNothing(app, s.mem, f, s.frames, t, level);
    assert Everywhere(app, s'.mem, s'.frames, t) == Everywhere(app, s.mem, s.frames, t);
  }

  lemma Leaving(app: App, s: State, s': State, t: nat, level: int)
    requires InvAt(app, s, t, level) && s'.frames == s.frames.tail && s'.frames.Cons?
    requires s.frames.head.stage.Ended? || (s.frames.head.stage.Entered? && s.frames.head.origin == Exception)
    requires s'.mem == s.mem && s'.sent == s.sent && s'.called == s.called && s'.pending == s.pending
    ensures InvAt(app, s', t, level)
  {
    HoldsNothing(app, s.mem, s.frames.head, s.frames.tail, t, level);
    assert Conserved(app, s', t) by {
      assert Everywhere(app, s'.mem, s'.frames, t) == Everywhere(app, s.mem, s.frames, t);
    }
    assert Awake(app, s', level) by {
      assert !LiveOne(app, s.frames.head, level);
    }
  }

  /** Acknowledging an interrupt replaces its pending bit by a dispatcher that has yet to poll. */
  lemma AcknowledgedWakes(app: App, s: State, irq: Irq, g: Frame, s': State, level: int)
    requires s.frames.Cons? && Awake(app, s, level)
    requires s.frames.head.stage == Entered && s.frames.head.origin == Exception
    requires g.origin == Handler(irq) && g.stage == Acked
    requires s'.frames == Cons(g, s.frames.tail) && s'.pending == s.pending - {irq} && s'.mem == s.mem
    ensures Awake(app, s', level)
  {
  }

  lemma {:induction false} AckHolds(app: App, m: Mem, f: Frame, g: Frame, rest: List<Frame>, t: nat, level: int)
    requires f.stage == Entered && g.stage == Acked
    ensures Hands(Cons(f, rest), t) == Hands(Cons(g, rest), t)
    ensures Flight(m, Cons(f, rest), level) == Flight(m, Cons(g, rest), level)
  {
  }

  lemma Acknowledged(app: App, s: State, irq: Irq, g: Frame, s': State, t: nat, level: int)
    requires InvAt(app, s, t, level) && s.frames.head.stage == Entered && s.frames.head.origin == Exception
    requires g.origin == Handler(irq) && g.stage == Acked
    requires s'.frames == Cons(g, s.frames.tail) && s'.pending == s.pending - {irq}
    requires s'.mem == s.mem && s'.sent == s.sent && s'.called == s.called
    ensures InvAt(app, s', t, level)
  {
    AcknowledgedWakes(app, s, irq, g, s', level);
    AckHolds(app, s.mem, s.frames.head, g, s.frames.tail, t, level);
    assert Everywhere(app, s'.mem, s'.frames, t) == Everywhere(app, s.mem, s.frames, t);
  }

  /** The steps of a handler outside its closure touch neither queues nor histories, and hold no message. */
  lemma HandlerShape(app: App, s: State, level: int)
    requires s.frames.Cons? && !HasUser(s.frames.head) && !IsDispatch(s.frames.head.stage)
    requires !s.frames.head.stage.Ended? && Prescribed(app, s).Some?
    ensures var s' := Prescribed(app, s).value;
            && TopMoved(s, s') && s'.mem == s.mem && s'.sent == s.sent && s'.called == s.called
            && !s'.frames.head.stage.Call? && HandOf(s'.frames.head) == None == HandOf(s.frames.head)
            && (LiveOne(app, s.frames.head, level) ==> LiveOne(app, s'.frames.head, level))
  {
  }

  lemma HandlerTick(app: App, s: State, t: nat, level: int)
    requires InvAt(app, s, t, level) && !HasUser(s.frames.head) && !IsDispatch(s.frames.head.stage)
    requires !s.frames.head.stage.Ended?
    ensures Prescribed(app, s).Some? ==> InvAt(app, Prescribed(app, s).value, t, level)
  {
    if Prescribed(app, s).Some? {
      HandlerShape(app, s, level);
      Quiet(app, s, Prescribed(app, s).value, t, level);
    }
  }

  lemma LeaveTick(app: App, s: State, t: nat, level: int)
    requires MaskInv(app, s) && InvAt(app, s, t, level) && s.frames.head.stage.Ended?
    ensures Prescribed(app, s).Some? && InvAt(app, Prescribed(app, s).value, t, level)
  {
    Leaving(app, s, Prescribed(app, s).value, t, level);
  }

  lemma UserTick(app: App, s: State, t: nat, level: int)
    requires WellFormed(app) && MaskInv(app, s) && InvAt(app, s, t, level) && HasUser(s.frames.head)
    requires forall a: nat :: Conserved(app, s, a)
    ensures Prescribed(app, s).Some? ==> InvAt(app, Prescribed(app, s).value, t, level)
  {
    var u := s.frames.head.stage.u;
    if u.lk != Settled {
      assert SpawnOk(app, u, s.frames.head.stage.Boot?);
      QuietUser(app, s, LockStep(u), Prescribed(app, s).value, t, level);
    } else if u.sp != NoSpawn {
      SpawnTick(app, s, t, level);
      assert Prescribed(app, s) == Some(AfterSpawn(app, s));
    }
  }

  lemma DispatchIs(app: App, s: State)
    requires s.frames.Cons? && IsDispatch(s.frames.head.stage)
    ensures Prescribed(app, s) == Some(AfterDispatch(s))
  {
  }

  lemma TickAt(app: App, s: State, t: nat, level: int)
    requires WellFormed(app) && MaskInv(app, s) && InvAt(app, s, t, level)
    requires forall a: nat :: Conserved(app, s, a)
    ensures Prescribed(app, s).Some? ==> InvAt(app, Prescribed(app, s).value, t, level)
  {
    if HasUser(s.frames.head) {
      UserTick(app, s, t, level);
    } else if IsDispatch(s.frames.head.stage) {
      DispatchTick(app, s, t, level);
      DispatchIs(app, s);
    } else if s.frames.head.stage.Ended? {
      LeaveTick(app, s, t, level);
    } else {
      HandlerTick(app, s, t, level);
    }
  }

  lemma ChoiceAt(app: App, s: State, a: Action, t: nat, level: int)
    requires InvAt(app, s, t, level) && (a.LockRes? || a.Unlock? || a.Spawn?)
    ensures Next(app, s, a).Some? ==> InvAt(app, Next(app, s, a).value, t, level)
  {
    if Next(app, s, a).Some? {
      var u := s.frames.head.stage.u;
      var u' := match a
        case LockRes(r) => Acquire(app, u, Res(r))
        case Unlock => Release(u)
        case Spawn(t, v) => u.(sp := Take(t, v));
      QuietUser(app, s, u', Next(app, s, a).value, t, level);
    }
  }

  lemma HwTaskOrigin(app: App, s: State)
    requires MaskInv(app, s) && s.frames.head.stage.Running? && s.frames.head.stage.u.prog.Hw?
    ensures s.frames.head.origin.Handler? && s.frames.head.origin.irq.Spi?
  {
  }

  /** The code that user code returns to holds no message and goes on watching the level of its dispatcher. */
  lemma ReturnShape(app: App, m: Mem, f: Frame, st: Stage, level: int)
    requires HasUser(f) && Free(f.stage.u)
    requires st == Running(NewUser(Idle, IDLE_PRIORITY)) || st == Poll
             || (st == Epilogue && f.origin.Handler? && f.origin.irq.Spi?)
    ensures var g := f.(stage := st);
            && HandOf(g) == None == HandOf(f) && Linked(app, m, g)
            && FlightOf(m, g, level) == [] == FlightOf(m, f, level)
            && (LiveOne(app, f, level) ==> LiveOne(app, g, level))
  {
  }

  lemma Returned(app: App, s: State, st: Stage, s': State, t: nat, level: int)
    requires InvAt(app, s, t, level) && HasUser(s.frames.head) && Free(s.frames.head.stage.u)
    requires st == Running(NewUser(Idle, IDLE_PRIORITY)) || st == Poll
             || (st == Epilogue && s.frames.head.origin.Handler? && s.frames.head.origin.irq.Spi?)
    requires s' == s.(masked := s'.masked, frames := Cons(s.frames.head.(stage := st), s.frames.tail))
    ensures InvAt(app, s', t, level)
  {
    ReturnShape(app, s.mem, s.frames.head, st, level);
    Quiet(app, s, s', t, level);
  }

  lemma ReturnAt(app: App, s: State, t: nat, level: int)
    requires MaskInv(app, s) && InvAt(app, s, t, level)
    ensures Next(app, s, Return).Some? ==> InvAt(app, Next(app, s, Return).value, t, level)
  {
    if Next(app, s, Return).Some? {
      var f := s.frames.head;
      if f.stage.Running? && f.stage.u.prog.Hw? {
        HwTaskOrigin(app, s);
      }
      Returned(app, s, Next(app, s, Return).value.frames.head.stage, Next(app, s, Return).value, t, level);
    }
  }

  lemma ControllerAt(app: App, s: State, a: Action, t: nat, level: int)
    requires MaskInv(app, s) && InvAt(app, s, t, level) && (a.TakeIrq? || a.Ack? || a.Spurious?)
    ensures Next(app, s, a).Some? ==> InvAt(app, Next(app, s, a).value, t, level)
  {
    if Next(app, s, a).Some? {
      var s' := Next(app, s, a).value;
      match a
      case TakeIrq => Entering(app, s, s'.frames.head, s', t, level);
      case Spurious => Leaving(app, s, s', t, level);
      case Ack(irq) => Acknowledged(app, s, irq, s'.frames.head, s', t, level);
    }
  }

  lemma StepAt(app: App, s: State, a: Action, t: nat, level: int)
    requires WellFormed(app) && MaskInv(app, s) && InvAt(app, s, t, level) && forall b: nat :: Conserved(app, s, b)
    ensures Next(app, s, a).Some? ==> InvAt(app, Next(app, s, a).value, t, level)
  {
    match a
    case Tick => TickAt(app, s, t, level);
    case Return => ReturnAt(app, s, t, level);
    case Raise(_) =>
      if Next(app, s, a).Some? {
        Quiet(app, s, Next(app, s, a).value, t, level);
      }
    case TakeIrq => ControllerAt(app, s, a, t, level);
    case Ack(_) => ControllerAt(app, s, a, t, level);
    case Spurious => ControllerAt(app, s, a, t, level);
    case _ => ChoiceAt(app, s, a, t, level);
  }

  /** Every step of every context, of the environment and of user code keeps the queue invariant. */
  lemma QueuePreserved(app: App, s: State, a: Action)
    requires WellFormed(app) && MaskInv(app, s) && QueueInv(app, s)
    ensures Next(app, s, a).Some? ==> QueueInv(app, Next(app, s, a).value)
  {
    if Next(app, s, a).Some? {
      var s' := Next(app, s, a).value;
      forall t: nat, level: int ensures InvAt(app, s', t, level) {
        assert Conserved(app, s, t) && Fifo(s, level) && Awake(app, s, level);
        StepAt(app, s, a, t, level);
      }
      assert InvAt(app, s', 0, 0);
      forall t: nat ensures Conserved(app, s', t) { assert InvAt(app, s', t, 0); }
      forall level: int ensures Fifo(s', level) && Awake(app, s', level) { assert InvAt(app, s', 0, level); }
    }
  }
}
