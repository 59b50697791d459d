/** A run of an application whose levels have a gap, in which the ceiling protocol fails. */
module KernelGap {
  import opened Wrappers
  import opened Kernel
  import opened KernelPriorities
  import opened KernelQueues
  import opened KernelRuns

  /** A hardware task at priority 1, a software task at level 2, and a resource that it shares with idle. */
  const GAP := App(
    1, _ => 2, _ => 1, k => k == 0, _ => 1,
    (p: Prog, r: nat) => r == 0 && (p == Idle || p == Sw(0)),
    (p: Prog, t: nat) => t == 0 && p == Idle,
    (l: Lockable) => if l == Res(0) then 2 else 0,
    _ => 1)

  lemma GapAnalysed()
    ensures Analysed(GAP) && SgisInUse(GAP) <= NSGIS && !LevelsPacked(GAP) && !Ready(GAP, 2)
  {
    assert GAP.level(0) in Levels(GAP);
    assert Levels(GAP) == {2};
    forall level ensures |Slots(GAP, level)| <= 1 {
      assert Slots(GAP, level) <= {(0, 0)};
      if (0, 0) in Slots(GAP, level) { assert Slots(GAP, level) == {(0, 0)}; } else { assert Slots(GAP, level) == {}; }
    }
  }

  lemma ReachNext(app: App, s: State, a: Action, s': State)
    requires Reachable(app, s) && Next(app, s, a) == Some(s')
    ensures Reachable(app, s')
  {
    var acts :| Exec(app, Start(app), acts) == Some(s);
    assert (acts + [a])[..|acts|] == acts;
    assert Exec(app, Start(app), acts + [a]) == Some(s');
  }

  /** Idle is in user code, the mask lets everything through, and no message has been sent. */
  function Idling(u: User, pmr: int, mem: Mem): State {
    State(pmr, false, {}, {}, Cons(Frame(Main, IDLE_PRIORITY, Logical2Hw(IDLE_PRIORITY), 0, Running(u)), Nil),
          mem, map[], map[])
  }

  /** Idle with the resource locked. */
  const HOLDING := User(Idle, 2, Cons(Held(Res(0), 0, true), Nil), Settled, NoSpawn)

  const FULL := Mem(map[0 := Chan([0], None)], map[], map[])

  lemma StartIs()
    ensures Start(GAP).mem == FULL
  {
    assert seq(1, i => i) == [0];
  }

  lemma IdleLocks()
    ensures Reachable(GAP, Idling(HOLDING, Logical2Hw(2), FULL))
  {
    StartIs();
    assert Exec(GAP, Start(GAP), []) == Some(Start(GAP));
    var u := NewUser(Idle, 0);
    var idle := Idling(u, Logical2Hw(0), FULL);
    ReachNext(GAP, Start(GAP), Return, idle);
    var v := u.(cell := 2, lk := CellRaised(Res(0), 0));
    ReachNext(GAP, idle, LockRes(0), Idling(v, Logical2Hw(0), FULL));
    var w := v.(lk := MaskRaised(Res(0), 0));
    ReachNext(GAP, Idling(v, Logical2Hw(0), FULL), Tick, Idling(w, Logical2Hw(2), FULL));
    ReachNext(GAP, Idling(w, Logical2Hw(2), FULL), Tick, Idling(HOLDING, Logical2Hw(2), FULL));
  }

  /** Idle in the spawn code, with the resource locked and besides, perhaps, a queue end. */
  function Spawning(sp: SpawnPc, queue: Option<Lockable>, mem: Mem): State {
    var held := if queue.Some? then Cons(Held(queue.value, 2, false), HOLDING.held) else HOLDING.held;
    Idling(HOLDING.(sp := sp, held := held), Logical2Hw(2), mem)
  }

  const TAKEN_SLOT := FULL.(fq := FULL.fq[0 := Chan([], None)])

  const INPUT := TAKEN_SLOT.(inputs := map[(0, 0) := 7])

  const STAGED := INPUT.(rq := INPUT.rq[2 := Chan([], Some((0, 0)))])

  const SENT := STAGED.(rq := STAGED.rq[2 := Chan([(0, 0)], None)])

  lemma IdleLooks()
    ensures Reachable(GAP, Spawning(Read(0, 7, 0), Some(FreeQ(0)), FULL))
  {
    IdleLocks();
    var fq := Some(FreeQ(0));
    ReachNext(GAP, Idling(HOLDING, Logical2Hw(2), FULL), Spawn(0, 7), Spawning(Take(0, 7), None, FULL));
    ReachNext(GAP, Spawning(Take(0, 7), None, FULL), Tick, Spawning(Take(0, 7), fq, FULL));
    ReachNext(GAP, Spawning(Take(0, 7), fq, FULL), Tick, Spawning(Read(0, 7, 0), fq, FULL));
  }

  lemma IdleTakesSlot()
    ensures Reachable(GAP, Spawning(Written(0, 7, 0), None, INPUT))
  {
    IdleLooks();
    var fq := Some(FreeQ(0));
    assert [0][1..] == [];
    ReachNext(GAP, Spawning(Read(0, 7, 0), fq, FULL), Tick, Spawning(Got(0, 7, 0), fq, TAKEN_SLOT));
    ReachNext(GAP, Spawning(Got(0, 7, 0), fq, TAKEN_SLOT), Tick, Spawning(Got(0, 7, 0), None, TAKEN_SLOT));
    ReachNext(GAP, Spawning(Got(0, 7, 0), None, TAKEN_SLOT), Tick, Spawning(Written(0, 7, 0), None, INPUT));
  }

  /** The message has been sent. */
  function Told(s: State): State {
    s.(sent := s.sent[2 := [(0, 7)]])
  }

  lemma IdleStages()
    ensures Reachable(GAP, Spawning(Staged(0, 7, 0), Some(ReadyQ(2)), STAGED))
  {
    IdleTakesSlot();
    var rq := Some(ReadyQ(2));
    ReachNext(GAP, Spawning(Written(0, 7, 0), None, INPUT), Tick, Spawning(Written(0, 7, 0), rq, INPUT));
    ReachNext(GAP, Spawning(Written(0, 7, 0), rq, INPUT), Tick, Spawning(Staged(0, 7, 0), rq, STAGED));
  }

  const PENDING := Told(Spawning(NoSpawn, None, SENT)).(pending := {Sgi(1)})

  lemma IdleSends()
    ensures Reachable(GAP, PENDING)
  {
    IdleStages();
    var rq := Some(ReadyQ(2));
    assert Publish(Rq(STAGED, 2)) == Rq(SENT, 2) && Log(map[], 2) + [(0, 7)] == [(0, 7)];
    assert PENDING.pending == {} + {Sgi(Prio2Sgi(2) % 16)};
    ReachNext(GAP, Spawning(Staged(0, 7, 0), rq, STAGED), Tick, Told(Spawning(Sent(0), rq, SENT)));
    ReachNext(GAP, Told(Spawning(Sent(0), rq, SENT)), Tick, Told(Spawning(Sent(0), None, SENT)));
    ReachNext(GAP, Told(Spawning(Sent(0), None, SENT)), Tick, PENDING);
  }

  /** The dispatcher on top of idle. */
  function Dispatching(initial: int, st: Stage, mem: Mem): State {
    PENDING.(pending := {}, active := {Sgi(1)}, mem := mem,
             frames := Cons(Frame(Handler(Sgi(1)), 2, Logical2Hw(2), initial, st), PENDING.frames))
  }

  /** The SGI is let through although the mask is at the level of its dispatcher. */
  lemma DispatcherEnters()
    ensures Reachable(GAP, Dispatching(0, Acked, SENT).(masked := true))
  {
    IdleSends();
    GapAnalysed();
    var entered := PENDING.(masked := true,
                            frames := Cons(Frame(Exception, 0, Logical2Hw(2), 0, Entered), PENDING.frames));
    ReachNext(GAP, PENDING, TakeIrq, entered);
    assert GicPrio(GAP, Sgi(1)) == MAX_PRIORITY;
    assert PENDING.pending - {Sgi(1)} == {} && PENDING.active + {Sgi(1)} == {Sgi(1)};
    ReachNext(GAP, entered, Ack(Sgi(1)), Dispatching(0, Acked, SENT).(masked := true));
  }

  lemma DispatcherBegins()
    ensures Reachable(GAP, Dispatching(Logical2Hw(2), Poll, SENT))
  {
    DispatcherEnters();
    ReachNext(GAP, Dispatching(0, Acked, SENT).(masked := true), Tick, Dispatching(0, Unmasked, SENT));
    ReachNext(GAP, Dispatching(0, Unmasked, SENT), Tick, Dispatching(Logical2Hw(2), Begin, SENT));
    ReachNext(GAP, Dispatching(Logical2Hw(2), Begin, SENT), Tick, Dispatching(Logical2Hw(2), Poll, SENT));
  }

  const EMPTIED := SENT.(rq := SENT.rq[2 := Chan([], None)])

  const RETURNING := EMPTIED.(fq := EMPTIED.fq[0 := Chan([], Some(0))])

  const RETURNED := RETURNING.(fq := RETURNING.fq[0 := Chan([0], None)])

  const BOTH := Dispatching(Logical2Hw(2), Running(NewUser(Sw(0), 2)), RETURNED).(called := map[][2 := [(0, 7)]])

  lemma DispatcherLoads()
    ensures Reachable(GAP, Dispatching(Logical2Hw(2), Loaded(0, 0, 7), EMPTIED))
  {
    DispatcherBegins();
    var pmr := Logical2Hw(2);
    assert [(0, 0)][1..] == [];
    ReachNext(GAP, Dispatching(pmr, Poll, SENT), Tick, Dispatching(pmr, Peeked(0, 0), SENT));
    ReachNext(GAP, Dispatching(pmr, Peeked(0, 0), SENT), Tick, Dispatching(pmr, Taken(0, 0), EMPTIED));
    ReachNext(GAP, Dispatching(pmr, Taken(0, 0), EMPTIED), Tick, Dispatching(pmr, Loaded(0, 0, 7), EMPTIED));
  }

  lemma DispatcherFrees()
    ensures Reachable(GAP, Dispatching(Logical2Hw(2), Freeing(0, 0, 7), RETURNING))
  {
    DispatcherLoads();
    var pmr := Logical2Hw(2);
    ReachNext(GAP, Dispatching(pmr, Loaded(0, 0, 7), EMPTIED), Tick, Dispatching(pmr, Freeing(0, 0, 7), RETURNING));
  }

  lemma DispatcherCalls()
    ensures Reachable(GAP, BOTH)
  {
    DispatcherFrees();
    var pmr := Logical2Hw(2);
    assert Publish(Fq(RETURNING, 0)) == Fq(RETURNED, 0) && Log(map[], 2) + [(0, 7)] == [(0, 7)];
    ReachNext(GAP, Dispatching(pmr, Freeing(0, 0, 7), RETURNING), Tick, Dispatching(pmr, Call(0, 7), RETURNED));
    ReachNext(GAP, Dispatching(pmr, Call(0, 7), RETURNED), Tick, BOTH);
  }

  /**
   With a gap in the levels, the dispatcher of level 2 pre-empts idle while that holds a lock of ceiling 2, and two
   contexts have the resource.
   */
  lemma GapBreaksExclusion()
    ensures Analysed(GAP) && SgisInUse(GAP) <= NSGIS && Reachable(GAP, BOTH) && Depth(BOTH.frames) == 2
    ensures Accesses(GAP, At(BOTH.frames, 0), Res(0)) && Accesses(GAP, At(BOTH.frames, 1), Res(0))
  {
    GapAnalysed();
    DispatcherCalls();
    assert Depth(BOTH.frames.tail) == 1;
  }
}
