/** The wakes that interrupt handlers have deferred, as a context switch performs them. */
module SwitchWakes {
  import opened Types
  import opened K = Kernel
  import opened Steps
  import opened Placement
  import opened Calmness
  import opened TimeoutRuns
  import opened AcquireRuns
  import opened MutexRuns
  import Q = TaskQueues
  import Tm = TaskTimers
  import Ow = OwnedFutexes

  /** `t` waits for a futex that one of the wakes is about, as the first one unless the wake is for all. */
  predicate WokenIn(k: K.Kernel, wakes: seq<(FutexId, bool)>, i: nat, t: TaskId) {
    && i < |wakes|
    && (wakes[i].1 || (k.Waiters(wakes[i].0) != [] && k.Waiters(wakes[i].0)[0] == t))
    && t in k.Waiters(wakes[i].0)
  }

  lemma WakeOneOthers(k: K.Kernel, f: FutexId, g: FutexId)
    requires Sane(k) && f in k.futexes && k.futexes[f].kind.Plain? && k.Waiters(f) != [] && g != f
    ensures WakeOne(k, f).Waiters(g) == k.Waiters(g)
  {
    hide Tm.Good, Ow.Good, K.Kernel.Look;
  }

  lemma {:induction false} WakeOthers(k: K.Kernel, f: FutexId, all: bool, g: FutexId)
    requires Sane(k) && f in k.futexes && k.futexes[f].kind.Plain? && g != f
    ensures WakeLoop(k, f, all).Waiters(g) == k.Waiters(g)
    decreases |k.Waiters(f)|
  {
    hide Sane, WakeOne;
    if k.Waiters(f) != [] {
      WakeOneOthers(k, f, g);
      if all { WakeOthers(WakeOne(k, f), f, all, g); }
    }
  }

  /** One wake: whoever it is about is woken, and whoever it is not about still waits, in the same queue. */
  lemma WakeOf(k: K.Kernel, f: FutexId, all: bool, t: TaskId, d: Option<nat>, g: FutexId)
    requires Placed(k) && IsPlain(k, f) && Waiting(k, t, d) && t in k.Waiters(g)
    ensures Sane(k)
    ensures var r := WakeFutex(k, f, all);
            && (g == f && (all || k.Waiters(f)[0] == t) ==> Over(r, t, 0))
            && (g != f ==> Waiting(r, t, d) && r.Waiters(g) == k.Waiters(g))
            && (Over(r, t, 0) || (Waiting(r, t, d) && t in r.Waiters(g)))
  {
    hide K.Kernel.Look, Sane, Placed, WakeLoop, WakeFutex;
    PlacedSane(k);
    WakePlain(k, f, all);
    WakeLoopStep(k, f, all);
    if g != f { WakeOthers(k, f, all, g); }
    OnQueue(k, Q.WaitersOf(g), t);
    OnQueue(WakeFutex(k, f, all), Q.WaitersOf(g), t);
    OnQueue(k, Q.WaitersOf(f), t);
  }

  lemma {:induction false} DeferredWakes(k: K.Kernel, wakes: seq<(FutexId, bool)>, i: nat, t: TaskId, d: Option<nat>)
    requires Placed(k) && PlainOnly(k, wakes) && Waiting(k, t, d) && WokenIn(k, wakes, i, t)
    ensures Sane(k) && Over(WakeDeferred(k, wakes), t, 0)
    decreases |wakes|
  {
    hide K.Kernel.Look, Sane, Placed, WakeFutex, Waiting, Over;
    PlacedSane(k);
    var f, all := wakes[0].0, wakes[0].1;
    var k1 := WakeFutex(k, f, all);
    WakePlain(k, f, all);
    WakeFutexPlaced(k, f, all);
    WakeOf(k, f, all, t, d, wakes[i].0);
    if Over(k1, t, 0) {
      DeferredOver(k1, wakes[1..], t, 0);
    } else {
      assert wakes[1..][i - 1] == wakes[i];
      DeferredWakes(k1, wakes[1..], i - 1, t, d);
    }
  }

  /** A wait for a futex that no wake is about goes on. */
  lemma {:induction false} DeferredSpares(k: K.Kernel, wakes: seq<(FutexId, bool)>, t: TaskId, d: Option<nat>, g: FutexId)
    requires Placed(k) && PlainOnly(k, wakes) && Waiting(k, t, d) && t in k.Waiters(g)
    requires forall i :: 0 <= i < |wakes| ==> wakes[i].0 != g
    ensures Sane(k) && Waiting(WakeDeferred(k, wakes), t, d)
    decreases |wakes|
  {
    hide K.Kernel.Look, Sane, Placed, WakeFutex, Waiting, Over;
    PlacedSane(k);
    if wakes != [] {
      var f, all := wakes[0].0, wakes[0].1;
      WakePlain(k, f, all);
      WakeFutexPlaced(k, f, all);
      WakeOf(k, f, all, t, d, g);
      DeferredSpares(WakeFutex(k, f, all), wakes[1..], t, d, g);
    }
  }

  /** The switch of a core from the state in which the running task has gone back to the ready queue. */
  lemma RoundWakes(k: K.Kernel, c: CoreId, wakes: seq<(FutexId, bool)>, corrupt: set<TaskId>, started: bool,
                   t: TaskId, d: Option<nat>, g: FutexId)
    requires Placed(k) && PlainOnly(k, wakes) && c !in k.current && c < k.cores && Waiting(k, t, d) && t in k.Waiters(g)
    ensures Sane(k)
    ensures var r := Round(k, c, wakes, corrupt, started).0;
            && ((exists i :: WokenIn(k, wakes, i, t)) ==> Over(r, t, 0) || r.Look(t).None?)
            && ((forall i :: 0 <= i < |wakes| ==> wakes[i].0 != g) ==>
                  if DueBy(d, k.Now()) then Over(r, t, -ETIMEDOUT) || r.Look(t).None? else Waiting(r, t, d))
  {
    hide K.Kernel.Look, Sane, Placed, WakeDeferred, Round, Waiting, Over, DueBy;
    PlacedSane(k);
    if i :| WokenIn(k, wakes, i, t) {
      DeferredWakes(k, wakes, i, t, d);
      RoundOver(k, c, wakes, corrupt, started, t, 0);
    }
    if forall i :: 0 <= i < |wakes| ==> wakes[i].0 != g {
      DeferredSpares(k, wakes, t, d, g);
      RoundExpires(k, c, wakes, corrupt, started, t, d);
    }
  }

  /** Who still waits after the deferred wakes times out if the deadline has passed, and otherwise goes on waiting. */
  lemma RoundExpires(k: K.Kernel, c: CoreId, wakes: seq<(FutexId, bool)>, corrupt: set<TaskId>, started: bool, t: TaskId, d: Option<nat>)
    requires Placed(k) && PlainOnly(k, wakes) && c !in k.current && c < k.cores && Sane(k) && Waiting(WakeDeferred(k, wakes), t, d)
    ensures var r := Round(k, c, wakes, corrupt, started).0;
            if DueBy(d, k.Now()) then Over(r, t, -ETIMEDOUT) || r.Look(t).None? else Waiting(r, t, d)
  {
    hide K.Kernel.Look, Sane, Placed, WakeDeferred, ExpireAll, Dequeue, Dispatch, Evict, Bury;
    WakeDeferredPlaced(k, wakes);
    WakeDeferredKept(k, wakes);
    var k0 := WakeDeferred(k, wakes);
    ExpireAllPlaced(k0);
    ExpireAllStep(k0);
    var k1 := ExpireAll(k0);
    assert k1.Look(t) == ExpireLook(k0, t);
    var i := Q.FirstIn(k1.Ready(), Eligible(k1, c));
    if i < |k1.Ready()| {
      var u := k1.Ready()[i];
      WaiterBlocked(k1, Q.ReadyQueue, u);
      EvictPlaced(k1, u);
      BuryStep(k1, u);
      DispatchStep(k1, c, u);
    }
  }

  lemma RequeueWaiters(k: K.Kernel, c: CoreId)
    requires Calls(k, c)
    ensures forall f :: Requeue(k, c).Waiters(f) == k.Waiters(f)
  {
    hide K.Kernel.Look, Sane;
  }

  lemma SameWakes(k: K.Kernel, r: K.Kernel, wakes: seq<(FutexId, bool)>, t: TaskId)
    requires forall f :: r.Waiters(f) == k.Waiters(f)
    ensures (exists i :: WokenIn(k, wakes, i, t)) <==> exists i :: WokenIn(r, wakes, i, t)
  {
    hide K.Kernel.Waiters;
    forall i: nat ensures WokenIn(k, wakes, i, t) <==> WokenIn(r, wakes, i, t) {}
  }

  /**
   What a switch does about a wait, unless it keeps its task because the scheduler is locked: a deferred wake that is
   about the waiting task ends its wait with success, even if its timeout has passed as well; and while no deferred wake is
   about its futex, it times out if its deadline has passed and goes on waiting otherwise.
   */
  lemma SwitchPerforms(k: K.Kernel, c: CoreId, wakes: seq<(FutexId, bool)>, corrupt: set<TaskId>, started: bool,
                       t: TaskId, d: Option<nat>, g: FutexId)
    requires Placed(k) && PlainOnly(k, wakes) && c < k.cores && Waiting(k, t, d) && t in k.Waiters(g)
    ensures Sane(k) && (c in k.current ==> Calls(k, c))
    ensures var (r, out) := K.Switch(k, c, wakes, corrupt, started);
            && (!out.Kept? && (exists i :: WokenIn(k, wakes, i, t)) ==> Over(r, t, 0) || r.Look(t).None?)
            && (!out.Kept? && (forall i :: 0 <= i < |wakes| ==> wakes[i].0 != g) ==>
                  if DueBy(d, k.Now()) then Over(r, t, -ETIMEDOUT) || r.Look(t).None? else Waiting(r, t, d))
            && (out.Kept? ==> Waiting(r, t, d))
  {
    hide K.Kernel.Look, Sane, Placed, Round, Requeue, DueBy;
    PlacedSane(k);
    if c in k.current {
      CallerReady(k, c);
    }
    var k0 := k.(pending := k.pending - {c});
    Unmoved(k, k0);
    SameLooks(k, k0);
    SameWakes(k, k0, wakes, t);
    KeptExactly(k, c, wakes, corrupt, started);
    if c !in k.current {
      RoundWakes(k0, c, wakes, corrupt, started, t, d, g);
    } else if k.locked >= 0 {
      RequeuePlaced(k0, c);
      RequeueStep(k0, c);
      RequeueWaiters(k0, c);
      RoundWakes(Requeue(k0, c), c, wakes, corrupt, started, t, d, g);
    }
    if c in k.current && k.locked >= 0 {
      SameWakes(k, Requeue(k0, c), wakes, t);
    }
  }
}
