/**
 What holds over whole runs of the kernel: every state that any sequence of steps reaches from the start of `main`.
 */
module KernelRuns {
  import opened Sequences
  import opened Wrappers
  import opened Kernel
  import opened KernelMask
  import opened KernelQueues

  ghost predicate Reachable(app: App, s: State) {
    exists acts :: Exec(app, Start(app), acts) == Some(s)
  }

  lemma StartInvariant(app: App)
    ensures MaskInv(app, Start(app)) && QueueInv(app, Start(app))
  {
    var s := Start(app);
    assert SpawnOk(app, NewUser(Init, IDLE_PRIORITY), true);
    forall t: nat ensures Conserved(app, s, t) {
      if t < app.tasks {
        assert Fq(s.mem, t).items == seq(app.cap(t), i => i);
        assert HandOf(s.frames.head) == None && Hands(s.frames, t) == multiset{};
        assert Queued(Rq(s.mem, app.level(t)).items, t) == multiset{};
      }
    }
    forall level: int ensures Fifo(s, level) {
      assert Flight(s.mem, s.frames, level) == [];
    }
  }

  lemma {:induction false} RunInvariant(app: App, acts: seq<Action>, s: State)
    requires WellFormed(app) && Exec(app, Start(app), acts) == Some(s)
    ensures MaskInv(app, s) && QueueInv(app, s)
  {
    if acts == [] {
      StartInvariant(app);
    } else {
      var last := |acts| - 1;
      var before := Exec(app, Start(app), acts[..last]).value;
      RunInvariant(app, acts[..last], before);
      MaskPreserved(app, before, acts[last]);
      QueuePreserved(app, before, acts[last]);
    }
  }

  lemma ReachableInvariant(app: App, s: State)
    requires WellFormed(app) && Reachable(app, s)
    ensures MaskInv(app, s) && QueueInv(app, s)
  {
    var acts :| Exec(app, Start(app), acts) == Some(s);
    RunInvariant(app, acts, s);
  }

  // ---- Exclusive access -----------------------------------------------------------------------------------------

  function Depth(frames: List<Frame>): nat {
    if frames.Nil? then 0 else 1 + Depth(frames.tail)
  }

  /** The context `k` places below the top. */
  function At(frames: List<Frame>, k: nat): Frame
    requires k < Depth(frames)
  {
    if k == 0 then frames.head else At(frames.tail, k - 1)
  }

  lemma {:induction false} NoneAccessesAt(app: App, frames: List<Frame>, l: Lockable, k: nat)
    requires NoneAccesses(app, frames, l) && k < Depth(frames)
    ensures !Accesses(app, At(frames, k), l)
  {
    if k > 0 {
      NoneAccessesAt(app, frames.tail, l, k - 1);
    }
  }

  lemma {:induction false} ExclusiveInStack(app: App, frames: List<Frame>, j: nat, k: nat, l: Lockable)
    requires WellFormed(app) && StackOk(app, frames) && j < k < Depth(frames)
    ensures !(Accesses(app, At(frames, j), l) && Accesses(app, At(frames, k), l))
  {
    if j > 0 {
      ExclusiveInStack(app, frames.tail, j - 1, k - 1, l);
    } else if Accesses(app, frames.head, l) {
      AloneBelow(app, frames, l);
      NoneAccessesAt(app, frames.tail, l, k - 1);
    }
  }

  /**
   In every reachable state at most one context has exclusive access to a resource or a queue end, through a lock or
   directly.
   */
  lemma {:induction false} MutualExclusion(app: App, s: State, j: nat, k: nat, l: Lockable)
    requires WellFormed(app) && Reachable(app, s)
    requires j < Depth(s.frames) && k < Depth(s.frames)
    requires Accesses(app, At(s.frames, j), l) && Accesses(app, At(s.frames, k), l)
    ensures j == k
  {
    ReachableInvariant(app, s);
    if j < k {
      ExclusiveInStack(app, s.frames, j, k, l);
    } else if k < j {
      ExclusiveInStack(app, s.frames, k, j, l);
    }
  }

  lemma {:induction false} NoLevelAt(frames: List<Frame>, prio: int, k: nat)
    requires NoLevel(frames, prio) && k < Depth(frames)
    ensures At(frames, k).prio != prio
  {
    if k > 0 {
      NoLevelAt(frames.tail, prio, k - 1);
    }
  }

  lemma {:induction false} PrioritiesInStack(app: App, frames: List<Frame>, j: nat, k: nat)
    requires StackOk(app, frames) && j < k < Depth(frames) && At(frames, j).origin.Handler?
    ensures Threshold(At(frames, k)) < At(frames, j).prio
  {
    if j > 0 {
      PrioritiesInStack(app, frames.tail, j - 1, k - 1);
    } else if k > 1 {
      var g := frames.tail.head;
      assert Depth(frames.tail) == 1 + Depth(frames.tail.tail);
      assert frames.tail.tail.Cons? && g.origin.Handler?;
      ThresholdAbovePrio(app, g);
      PrioritiesInStack(app, frames.tail, 0, k - 1);
    }
  }

  lemma {:induction false} FrameOkAt(app: App, frames: List<Frame>, k: nat)
    requires StackOk(app, frames) && k < Depth(frames)
    ensures FrameOk(app, At(frames, k))
  {
    if k > 0 {
      FrameOkAt(app, frames.tail, k - 1);
    }
  }

  /** A handler outranks every context below it, by more than the ceilings of the locks that context holds. */
  lemma {:induction false} PrioritiesIncrease(app: App, s: State, j: nat, k: nat)
    requires WellFormed(app) && Reachable(app, s) && j < k < Depth(s.frames) && At(s.frames, j).origin.Handler?
    ensures Threshold(At(s.frames, k)) < At(s.frames, j).prio
    ensures At(s.frames, k).prio < At(s.frames, j).prio
  {
    ReachableInvariant(app, s);
    PrioritiesInStack(app, s.frames, j, k);
    FrameOkAt(app, s.frames, k);
    ThresholdAbovePrio(app, At(s.frames, k));
  }

  // ---- Handlers leave no trace ----------------------------------------------------------------------------------

  /** The lowest `n` contexts. */
  function Lowest(frames: List<Frame>, n: nat): List<Frame> {
    if Depth(frames) <= n then frames else Lowest(frames.tail, n)
  }

  /** The context that sits on the lowest `n`. */
  function Above(frames: List<Frame>, n: nat): Frame
    requires n < Depth(frames)
  {
    if Depth(frames) == n + 1 then frames.head else Above(frames.tail, n)
  }

  /** A step changes the top context in place, puts one on top of it, or ends it. */
  ghost predicate StepShape(s: State, s': State)
    requires s.frames.Cons?
  {
    || (s'.frames.Cons? && s'.frames.tail == s.frames.tail && s'.frames.head.entryPmr == s.frames.head.entryPmr)
    || (s'.frames.Cons? && s'.frames.tail == s.frames)
    || (s'.frames == s.frames.tail && s'.pmr == s.pmr && (s.frames.head.stage.Ended? || s.frames.head.stage.Entered?))
  }

  lemma TickShape(app: App, s: State)
    requires Prescribed(app, s).Some?
    ensures StepShape(s, Prescribed(app, s).value)
  {
  }

  lemma ActionShape(app: App, s: State, a: Action)
    requires Next(app, s, a).Some?
    ensures StepShape(s, Next(app, s, a).value)
  {
    if a == Tick {
      TickShape(app, s);
    }
  }

  lemma {:induction false} ShapeKeepsBelow(s: State, s': State, n: nat)
    requires n < Depth(s.frames) && StepShape(s, s')
    ensures n <= Depth(s'.frames) && Lowest(s'.frames, n) == Lowest(s.frames, n)
    ensures n < Depth(s'.frames) ==> Above(s'.frames, n).entryPmr == Above(s.frames, n).entryPmr
    ensures n == Depth(s'.frames) ==>
              && s'.frames == s.frames.tail && s'.pmr == s.pmr && Above(s.frames, n) == s.frames.head
              && (s.frames.head.stage.Ended? || s.frames.head.stage.Entered?)
  {
  }

  /** While a handler is on the stack, the contexts it interrupted and its record of the mask do not change. */
  lemma {:induction false} StepKeepsBelow(app: App, s: State, a: Action, n: nat)
    requires n < Depth(s.frames) && Next(app, s, a).Some?
    ensures var s' := Next(app, s, a).value;
            && n <= Depth(s'.frames) && Lowest(s'.frames, n) == Lowest(s.frames, n)
            && (n < Depth(s'.frames) ==> Above(s'.frames, n).entryPmr == Above(s.frames, n).entryPmr)
            && (n == Depth(s'.frames) ==>
                  && s'.frames == s.frames.tail && s'.pmr == s.pmr && Above(s.frames, n) == s.frames.head
                  && (s.frames.head.stage.Ended? || s.frames.head.stage.Entered?))
  {
    ActionShape(app, s, a);
    ShapeKeepsBelow(s, Next(app, s, a).value, n);
  }

  lemma LeavesMask(app: App, s: State)
    requires MaskInv(app, s) && (s.frames.head.stage.Ended? || s.frames.head.stage.Entered?)
    ensures s.pmr == s.frames.head.entryPmr
  {
  }

  /** The run from the exception entry up to `k` steps, while it stays above the interrupted contexts. */
  lemma {:induction false} AboveBase(app: App, s: State, acts: seq<Action>, k: nat)
    requires WellFormed(app) && MaskInv(app, s)
    requires 1 <= k <= |acts| && acts[0] == TakeIrq && Exec(app, s, acts[..k]).Some?
    requires forall i :: 1 <= i <= k ==>
               Exec(app, s, acts[..i]).Some? && Depth(s.frames) < Depth(Exec(app, s, acts[..i]).value.frames)
    ensures var r := Exec(app, s, acts[..k]).value;
            && MaskInv(app, r) && Lowest(r.frames, Depth(s.frames)) == s.frames
            && Above(r.frames, Depth(s.frames)).entryPmr == s.pmr
  {
    assert acts[..k][..k - 1] == acts[..k - 1];
    if k == 1 {
      assert Exec(app, s, []) == Some(s);
      MaskPreserved(app, s, TakeIrq);
    } else {
      AboveBase(app, s, acts, k - 1);
      var before := Exec(app, s, acts[..k - 1]).value;
      MaskPreserved(app, before, acts[k - 1]);
      StepKeepsBelow(app, before, acts[k - 1], Depth(s.frames));
    }
  }

  /**
   Whatever a handler and the handlers nested in it do, the run from exception entry to the matching return leaves the
   mask, the active interrupts, hence the running priority, and every interrupted context as they were.
   */
  lemma {:induction false} HandlersLeaveNoTrace(app: App, s: State, acts: seq<Action>, s': State)
    requires WellFormed(app) && Reachable(app, s)
    requires |acts| >= 2 && acts[0] == TakeIrq && Exec(app, s, acts) == Some(s')
    requires forall i :: 1 <= i < |acts| ==>
               Exec(app, s, acts[..i]).Some? && Depth(s.frames) < Depth(Exec(app, s, acts[..i]).value.frames)
    requires Depth(s'.frames) <= Depth(s.frames)
    ensures s'.frames == s.frames && s'.pmr == s.pmr && s'.active == s.active && s'.masked == s.masked
  {
    ReachableInvariant(app, s);
    var n := |acts| - 1;
    var last := Exec(app, s, acts[..n]).value;
    AboveBase(app, s, acts, n);
    StepKeepsBelow(app, last, acts[n], Depth(s.frames));
    LeavesMask(app, last);
    MaskPreserved(app, last, acts[n]);
  }

  lemma {:induction false} ShortcutInStack(app: App, frames: List<Frame>, k: nat)
    requires StackOk(app, frames) && k < Depth(frames)
    requires At(frames, k).origin.Handler? && At(frames, k).prio == 1
    ensures At(frames, k).entryPmr == Logical2Hw(IDLE_PRIORITY)
  {
    if k > 0 {
      ShortcutInStack(app, frames.tail, k - 1);
    } else {
      PriorityOneMeansIdleMask(app, frames);
    }
  }

  /** The mask register of a handler of priority 1 may be reset to idle without having been read. */
  lemma {:induction false} ShortcutIsSound(app: App, s: State, k: nat)
    requires WellFormed(app) && Reachable(app, s) && k < Depth(s.frames)
    requires At(s.frames, k).origin.Handler? && At(s.frames, k).prio == 1
    ensures At(s.frames, k).entryPmr == Logical2Hw(IDLE_PRIORITY)
  {
    ReachableInvariant(app, s);
    ShortcutInStack(app, s.frames, k);
  }

  // ---- Messages -------------------------------------------------------------------------------------------------

  /** Task calls at a level are a prefix of the messages sent there, payloads included. */
  lemma DeliveredInOrder(app: App, s: State, level: int)
    requires WellFormed(app) && Reachable(app, s)
    ensures Log(s.called, level) <= Log(s.sent, level)
  {
    ReachableInvariant(app, s);
    assert Fifo(s, level);
  }

  /** With nothing in flight, what has not been called is exactly what is queued, in order, inputs included. */
  lemma {:induction false} BacklogIsQueue(app: App, s: State, level: int)
    requires WellFormed(app) && Reachable(app, s) && NoLevel(s.frames, level)
    ensures Log(s.sent, level) == Log(s.called, level) + Payloads(s.mem, Rq(s.mem, level).items)
  {
    ReachableInvariant(app, s);
    assert Fifo(s, level);
    NoFlight(s.mem, s.frames, level);
  }

  /** A queued message is never forgotten. */
  lemma {:induction false} NoLostWakeUp(app: App, s: State, level: int)
    requires WellFormed(app) && Reachable(app, s) && Rq(s.mem, level).items != []
    ensures Pends(s.pending, level) || Live(app, s.frames, level)
  {
    ReachableInvariant(app, s);
    assert Awake(app, s, level);
  }

  /** When idle runs user code, no handler is on the stack and no dispatcher is pending, every message was called. */
  lemma QuiescentMeansDrained(app: App, s: State, level: int)
    requires WellFormed(app) && Reachable(app, s)
    requires Depth(s.frames) == 1 && HasUser(s.frames.head) && Free(s.frames.head.stage.u)
    requires !Pends(s.pending, level)
    ensures Rq(s.mem, level).items == [] && Log(s.called, level) == Log(s.sent, level)
  {
    ReachableInvariant(app, s);
    assert Awake(app, s, level) && Fifo(s, level);
    assert Depth(s.frames.tail) == 0 && s.frames.tail == Nil;
    assert s.frames.head.origin == Main && !LiveOne(app, s.frames.head, level);
    assert !Live(app, s.frames, level) && Flight(s.mem, s.frames, level) == [];
  }

  /** Each slot of a task is in exactly one place: free, in one context's hand, or queued once. */
  lemma {:induction false} SlotsConserved(app: App, s: State, t: nat, i: nat)
    requires WellFormed(app) && Reachable(app, s) && t < app.tasks
    ensures multiset(Fq(s.mem, t).items)[i] + Hands(s.frames, t)[i] + Queued(Rq(s.mem, app.level(t)).items, t)[i]
            == if i < app.cap(t) then 1 else 0
  {
    ReachableInvariant(app, s);
    assert Conserved(app, s, t);
    AllOnce(app.cap(t), i);
    assert Everywhere(app, s.mem, s.frames, t)[i] == All(app.cap(t))[i];
  }

  /** A spawn is refused only when every slot of the task is in use. */
  lemma {:induction false} RefusedOnlyWhenFull(app: App, s: State, t: nat)
    requires WellFormed(app) && Reachable(app, s) && t < app.tasks && Fq(s.mem, t).items == []
    ensures Hands(s.frames, t) + Queued(Rq(s.mem, app.level(t)).items, t) == All(app.cap(t))
    ensures |Hands(s.frames, t)| + |Queued(Rq(s.mem, app.level(t)).items, t)| == app.cap(t)
  {
    ReachableInvariant(app, s);
    assert Conserved(app, s, t);
    var rest := Hands(s.frames, t) + Queued(Rq(s.mem, app.level(t)).items, t);
    assert multiset(Fq(s.mem, t).items) + rest == rest;
    assert |rest| == |All(app.cap(t))|;
  }

  lemma LoadedIsTyped(app: App, s: State)
    requires MaskInv(app, s) && s.frames.head.stage.Loaded?
    ensures s.frames.head.stage.t < app.tasks
  {
    assert Typed(app, s.frames.head.prio, s.frames.head.stage.t);
  }

  /** A slot in a hand is not in the free queue of its task. */
  lemma HandLeavesRoom(app: App, s: State, t: nat, i: nat)
    requires t < app.tasks && Conserved(app, s, t) && s.frames.Cons? && HandOf(s.frames.head) == Some((t, i))
    ensures |Fq(s.mem, t).items| < app.cap(t)
  {
    assert Hands(s.frames, t) == multiset{i} + Hands(s.frames.tail, t);
    assert |Everywhere(app, s.mem, s.frames, t)| == |All(app.cap(t))|;
  }

  /** A dispatcher about to return a slot finds room in the free queue. */
  lemma FreeQueueNeverOverflows(app: App, s: State)
    requires WellFormed(app) && Reachable(app, s) && s.frames.Cons? && s.frames.head.stage.Loaded?
    ensures |Fq(s.mem, s.frames.head.stage.t).items| < app.cap(s.frames.head.stage.t)
  {
    ReachableInvariant(app, s);
    LoadedIsTyped(app, s);
    HandLeavesRoom(app, s, s.frames.head.stage.t, s.frames.head.stage.i);
  }

  lemma {:induction false} HeadOnce(items: seq<(nat, nat)>, k: nat)
    requires 0 < k < |items| && Queued(items, items[0].0)[items[0].1] <= 1
    ensures items[k] != items[0]
  {
    if items[k] == items[0] {
      assert items[1..][k - 1] == items[k];
      QueuedHas(items[1..], k - 1);
    }
  }

  lemma {:induction false} QueuedOnce(items: seq<(nat, nat)>)
    requires forall t: nat, i: nat :: Queued(items, t)[i] <= 1
    ensures Distinct(items)
  {
    if items != [] {
      var rest := items[1..];
      forall t: nat, i: nat ensures Queued(rest, t)[i] <= 1 {
        assert Queued(items, t)[i] <= 1;
      }
      QueuedOnce(rest);
      forall j, k | 0 <= j < k < |items| ensures items[j] != items[k] {
        if j == 0 {
          HeadOnce(items, k);
        } else {
          assert rest[j - 1] != rest[k - 1];
        }
      }
    }
  }

  lemma DistinctFits(items: seq<(nat, nat)>, room: set<(nat, nat)>)
    requires Distinct(items) && forall slot <- items :: slot in room
    ensures |items| <= |room|
  {
    if items != [] {
      DistinctFits(items[1..], room - {items[0]});
    }
  }

  lemma {:induction false} NoneQueued(items: seq<(nat, nat)>, t: nat)
    requires forall slot <- items :: slot.0 != t
    ensures Queued(items, t) == multiset{}
  {
    if items != [] {
      NoneQueued(items[1..], t);
    }
  }

  lemma LevelDistinct(app: App, s: State, level: int)
    requires WellFormed(app) && Reachable(app, s)
    ensures Distinct(Rq(s.mem, level).items)
    ensures forall slot <- Rq(s.mem, level).items :: slot in Slots(app, level)
  {
    ReachableInvariant(app, s);
    var items := Rq(s.mem, level).items;
    assert TypedChan(app, level, Rq(s.mem, level));
    forall t: nat, i: nat ensures Queued(items, t)[i] <= 1 {
      if t < app.tasks && app.level(t) == level {
        SlotsConserved(app, s, t, i);
      } else {
        NoneQueued(items, t);
      }
    }
    QueuedOnce(items);
    forall k | 0 <= k < |items| ensures items[k] in Slots(app, level) {
      assert items[k] in items;
      QueuedHas(items, k);
      SlotsConserved(app, s, items[k].0, items[k].1);
    }
  }

  lemma SpawnerIsTyped(app: App, s: State)
    requires MaskInv(app, s) && QueueInv(app, s) && HasUser(s.frames.head) && s.frames.head.stage.u.sp.Written?
    ensures s.frames.head.stage.u.sp.t < app.tasks && Conserved(app, s, s.frames.head.stage.u.sp.t)
  {
    assert SpawnOk(app, s.frames.head.stage.u, s.frames.head.stage.Boot?);
  }

  /** The slot in a spawner's hand is not queued. */
  lemma HandIsFresh(app: App, s: State, t: nat, i: nat)
    requires WellFormed(app) && Reachable(app, s) && s.frames.Cons? && HasUser(s.frames.head)
    requires s.frames.head.stage.u.sp.Written? && s.frames.head.stage.u.sp.t == t && s.frames.head.stage.u.sp.i == i
    ensures (t, i) !in Rq(s.mem, app.level(t)).items && (t, i) in Slots(app, app.level(t))
  {
    ReachableInvariant(app, s);
    SpawnerIsTyped(app, s);
    HandIsUnique(app, s, t, i);
    var items := Rq(s.mem, app.level(t)).items;
    forall k | 0 <= k < |items| ensures items[k] != (t, i) {
      QueuedHas(items, k);
    }
  }

  /** A spawner about to enqueue finds room in the ready queue of the level. */
  lemma ReadyQueueNeverOverflows(app: App, s: State)
    requires WellFormed(app) && Reachable(app, s) && s.frames.Cons? && HasUser(s.frames.head)
    requires s.frames.head.stage.u.sp.Written?
    ensures var level := app.level(s.frames.head.stage.u.sp.t); |Rq(s.mem, level).items| < app.chanCap(level)
  {
    var t, i := s.frames.head.stage.u.sp.t, s.frames.head.stage.u.sp.i;
    var level := app.level(t);
    HandIsFresh(app, s, t, i);
    LevelDistinct(app, s, level);
    DistinctFits(Rq(s.mem, level).items, Slots(app, level) - {(t, i)});
  }
}
