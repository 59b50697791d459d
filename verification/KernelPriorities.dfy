/**
 The priorities that `pre_init` gives to the interrupts, and for which applications they are those of the dispatchers.
 */
module KernelPriorities {
  import opened Wrappers
  import opened Kernel
  import opened Sets

  /** `pre_init` on the priority registers of the controller. `hardware` lists the interrupts of the hardware tasks. */
  method SetPriorities(app: App, hardware: seq<nat>) returns (prio: map<Irq, int>)
    requires forall k: nat :: k in hardware <==> app.isHw(k)
    ensures forall n: nat :: (if Sgi(n) in prio then prio[Sgi(n)] else MAX_PRIORITY) == GicPrio(app, Sgi(n))
    ensures forall k: nat :: app.isHw(k) ==> Spi(k) in prio && prio[Spi(k)] == GicPrio(app, Spi(k))
  {
    var levels: set<int> := {};
    for t := 0 to app.tasks
      invariant levels == set a: nat | a < t :: app.level(a)
    {
      levels := levels + {app.level(t)};
    }
    assert levels == Levels(app);
    prio := map[];
    for sgi := 0 to |levels|
      invariant forall n: nat :: Sgi(n) in prio <==> n < sgi
      invariant forall n: nat :: n < sgi ==> prio[Sgi(n)] == Sgi2Prio(n)
    {
      prio := prio[Sgi(sgi) := Sgi2Prio(sgi)];
    }
    for i := 0 to |hardware|
      invariant forall n: nat :: Sgi(n) in prio <==> n < |levels|
      invariant forall n: nat :: n < |levels| ==> prio[Sgi(n)] == Sgi2Prio(n)
      invariant forall k :: 0 <= k < i ==> Spi(hardware[k]) in prio && prio[Spi(hardware[k])] == app.hwPrio(hardware[k])
    {
      prio := prio[Spi(hardware[i]) := app.hwPrio(hardware[i])];
    }
  }

  // ---- Which levels get their priority --------------------------------------------------------------------------

  function UpTo(n: nat): (s: set<int>)
    ensures |s| == n && forall l :: l in s <==> 1 <= l <= n
  {
    if n == 0 then {} else UpTo(n - 1) + {n}
  }

  /** Levels that are no more than their number are all the levels from 1 to it. */
  lemma PackedMeansUpTo(app: App)
    requires forall t: nat :: t < app.tasks ==> 1 <= app.level(t)
    ensures LevelsPacked(app) <==> SgisInUse(app) <= NSGIS && Levels(app) == UpTo(SgisInUse(app))
  {
    var n := SgisInUse(app);
    if LevelsPacked(app) {
      SubsetSize(Levels(app), UpTo(n));
    } else if Levels(app) == UpTo(n) {
      forall t: nat | t < app.tasks ensures app.level(t) <= n {
        assert app.level(t) in Levels(app);
      }
    }
  }

  /** The dispatcher of a level is bound to an SGI that has the priority of the level. */
  predicate Ready(app: App, level: int)
    requires 1 <= level
  {
    Prio2Sgi(level) < NSGIS && GicPrio(app, Sgi(Prio2Sgi(level))) == level
  }

  lemma ReadyLevel(app: App, level: int)
    requires 1 <= level <= MAX_PRIORITY
    ensures Ready(app, level) <==> level <= NSGIS && level <= SgisInUse(app)
  {
  }

  lemma AllReadyMeansPacked(app: App)
    requires forall t: nat :: t < app.tasks ==> 1 <= app.level(t) <= NSGIS && app.level(t) <= SgisInUse(app)
    ensures LevelsPacked(app)
  {
    assert Levels(app) <= UpTo(NSGIS);
    SubsetSize(Levels(app), UpTo(NSGIS));
  }

  /**
   Every dispatcher has an SGI of its level's priority exactly when the levels are 1 to some `n`, with no gap, and the
   SGIs suffice.
   */
  lemma DispatchersReadyIff(app: App)
    requires forall t: nat :: t < app.tasks ==> 1 <= app.level(t) <= MAX_PRIORITY
    ensures (forall t: nat :: t < app.tasks ==> Ready(app, app.level(t)))
            <==> SgisInUse(app) <= NSGIS && Levels(app) == UpTo(SgisInUse(app))
  {
    PackedMeansUpTo(app);
    forall t: nat | t < app.tasks
      ensures Ready(app, app.level(t)) <==> app.level(t) <= NSGIS && app.level(t) <= SgisInUse(app)
    {
      ReadyLevel(app, app.level(t));
    }
    if forall t: nat :: t < app.tasks ==> Ready(app, app.level(t)) {
      AllReadyMeansPacked(app);
    }
  }
}
