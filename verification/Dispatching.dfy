/** Which task a context switch picks, and which cores it kicks. */
module Dispatching {
  import opened Types
  import opened Sequences
  import opened Kernel
  import opened Steps
  import opened Placement
  import opened Calmness
  import Q = TaskQueues
  import Tm = TaskTimers
  import Ow = OwnedFutexes

  /** The same cores, and no tick in between. */
  predicate SameSetting(k: Kernel, r: Kernel) {
    r.cores == k.cores && r.ticks == k.ticks
  }

  /** `u` is ready and may run on core `c`. */
  predicate Contends(k: Kernel, c: CoreId, u: TaskId) {
    && k.Look(u).Some? && k.Look(u).value.link == Some(Q.ReadyQueue)
    && (k.Look(u).value.task.affinity.None? || k.Look(u).value.task.affinity == Some(c))
  }

  /** The first eligible task of the sorted ready queue goes before every other contender. */
  lemma FirstIsBest(k: Kernel, c: CoreId, u: TaskId)
    requires Sane(k)
    ensures var i := Q.FirstIn(k.Ready(), Eligible(k, c));
            if i < |k.Ready()| then
              && Contends(k, c, k.Ready()[i])
              && (Contends(k, c, u) && u != k.Ready()[i] ==> Q.Before(k.queues.entry, k.Ready()[i], u))
            else !Contends(k, c, u)
  {
    hide Kernel.Look, Sane;
    var i := Q.FirstIn(k.Ready(), Eligible(k, c));
    Seen(k, u);
    OnQueue(k, Q.ReadyQueue, u);
    ReadySorted(k);
    if i < |k.Ready()| {
      Seen(k, k.Ready()[i]);
      OnQueue(k, Q.ReadyQueue, k.Ready()[i]);
    }
    if Contends(k, c, u) {
      var j :| 0 <= j < |k.Ready()| && k.Ready()[j] == u;
      if i < j { assert Q.Before(k.queues.entry, k.Ready()[i], k.Ready()[j]); }
    }
  }

  lemma ReadySorted(k: Kernel)
    requires Sane(k)
    ensures Q.ListSorted(k.queues.entry, k.Ready())
  {
    hide Tm.Good, Ow.Good;
  }

  /** A core is outranked exactly when some contender for it is strictly more urgent than what it runs. */
  lemma OutrankedExactly(k: Kernel, o: CoreId)
    requires Sane(k) && o in k.current && k.current[o] in k.tasks
    ensures Outranked(k, o) <==>
              exists u :: Contends(k, o, u) && k.Look(u).value.prio < k.Prio(k.current[o])
  {
    hide Kernel.Look, Sane;
    ReadyLinked(k);
    var i := Q.FirstIn(k.Ready(), Eligible(k, o));
    if i < |k.Ready()| {
      FirstIsBest(k, o, k.Ready()[i]);
      Seen(k, k.Ready()[i]);
    }
    forall u | Contends(k, o, u) && k.Look(u).value.prio < k.Prio(k.current[o]) ensures Outranked(k, o) {
      FirstIsBest(k, o, u);
      Seen(k, u);
    }
  }

  lemma ReadyLinked(k: Kernel)
    requires Sane(k)
    ensures Q.Linked(k.queues) && Q.ListLinked(k.queues.entry, Q.ReadyQueue, k.Ready())
  {}

  /** `c` is running something that a contender for it outranks. */
  ghost predicate ShouldSwitch(k: Kernel, o: CoreId) {
    o in k.current && exists u :: Contends(k, o, u) && k.Look(u).value.prio < k.Prio(k.current[o])
  }

  /** The kicks of a dispatch. */
  lemma DispatchKicks(k: Kernel, c: CoreId, t: TaskId, o: CoreId)
    requires Sane(k) && t in k.tasks
    requires o in k.current && o != c ==> k.current[o] in k.tasks
    ensures var r := Dispatch(k, c, t);
            o in r.pending <==> o in k.pending || (o != c && ShouldSwitch(r, o))
  {
    hide Q.Good, Tm.Good, Ow.Good;
    var k1 := SetTask(k, t, k.tasks[t].(state := Running, core := c)).(current := k.current[c := t]);
    var r := Dispatch(k, c, t);
    assert Sane(k1) && Eligible(k1, o) == Eligible(r, o);
    if o != c && o in k.current {
      OutrankedExactly(r, o);
    }
  }

  /** `t` has a damaged stack and was dropped on the way from `k` to `r`. */
  predicate Dropped(k: Kernel, r: Kernel, corrupt: set<TaskId>, t: TaskId) {
    t in corrupt && k.Look(t).Some? && r.Look(t).None?
  }

  lemma WasThere(k: Kernel, wakes: seq<(FutexId, bool)>, t: TaskId)
    requires Placed(k) && PlainOnly(k, wakes)
    ensures Sane(k) && (ExpireAll(WakeDeferred(k, wakes)).Look(t).Some? ==> k.Look(t).Some?)
  {
    hide Kernel.Look, Sane, Placed, WakeDeferred, ExpireAll;
    PlacedSane(k);
    WakeDeferredCalm(k, wakes);
    var k0 := WakeDeferred(k, wakes);
    assert CalmFace(k, k.Look(t), k0.Look(t), false, false);
    ExpireAllStep(k0);
  }

  /**
   Switch optimality and exact kicking: the dispatched task goes before everybody who contends for the
   core, more urgent or as urgent and queued earlier, and another core is kicked exactly when a contender
   for it is strictly more urgent than the task it runs. A core that is left without a task has no contender, unless a
   task with a damaged stack has been dropped.
   */
  lemma RoundPicks(k: Kernel, c: CoreId, wakes: seq<(FutexId, bool)>, corrupt: set<TaskId>, started: bool, u: TaskId, o: CoreId)
    requires Placed(k) && PlainOnly(k, wakes) && c !in k.current && c < k.cores
    ensures Sane(k)
    ensures SameSetting(k, Round(k, c, wakes, corrupt, started).0)
    ensures var (r, out) := Round(k, c, wakes, corrupt, started);
            if out.Dispatched? then
              && c in r.current && r.current[c] == out.task && out.task !in corrupt
              && (Contends(r, c, u) ==> Q.Before(r.queues.entry, out.task, u))
              && (o in r.pending <==> o in k.pending || (o != c && ShouldSwitch(r, o)))
            else
              && c !in r.current && r.pending == k.pending && !out.Kept?
              && (Contends(r, c, u) ==> exists t :: Dropped(k, r, corrupt, t))
  {
    hide Kernel.Look, Sane, Placed, WakeDeferred, ExpireAll, Dequeue, Dispatch, Bury, ShouldSwitch, Contends;
    PlacedSane(k);
    WakeDeferredPlaced(k, wakes);
    WakeDeferredKept(k, wakes);
    var k0 := WakeDeferred(k, wakes);
    ExpireAllPlaced(k0);
    ExpireAllStep(k0);
    var k1 := ExpireAll(k0);
    var i := Q.FirstIn(k1.Ready(), Eligible(k1, c));
    FirstIsBest(k1, c, u);
    if i < |k1.Ready()| {
      var t := k1.Ready()[i];
      if t in corrupt {
        EvictPlaced(k1, t);
        BuryStep(k1, t);
        WasThere(k, wakes, t);
        Seen(k1, t);
        assert Dropped(k, Round(k, c, wakes, corrupt, started).0, corrupt, t);
      } else {
        DispatchPicks(k1, c, t, u, o);
      }
    }
  }

  lemma DispatchPicks(k: Kernel, c: CoreId, t: TaskId, u: TaskId, o: CoreId)
    requires Placed(k) && c !in k.current && c < k.cores && t in k.Ready()
    requires Contends(k, c, u) && u != t ==> Q.Before(k.queues.entry, t, u)
    ensures Sane(k) && t in k.tasks
    ensures var r := Dispatch(Dequeue(k, t), c, t);
            && c in r.current && r.current[c] == t && SameSetting(k, r)
            && (Contends(r, c, u) ==> Q.Before(r.queues.entry, t, u))
            && (o in r.pending <==> o in k.pending || (o != c && ShouldSwitch(r, o)))
  {
    hide Kernel.Look, Sane, Placed, Dequeue, Dispatch, ShouldSwitch, Q.Before;
    PlacedSane(k);
    DispatchPlaced(k, c, t);
    DequeueStep(k, t);
    DispatchStep(k, c, t);
    SameOrder(k, t, u);
    var off := Dequeue(k, t);
    if o in k.current {
      CallerReady(k, o);
      Seen(k, k.current[o]);
    }
    DispatchKicks(off, c, t, o);
  }

  lemma SameOrder(k: Kernel, t: TaskId, u: TaskId)
    requires Sane(k) && t in k.tasks
    ensures Q.Before(k.queues.entry, t, u) ==> Q.Before(Dequeue(k, t).queues.entry, t, u)
  {
    hide Sane, Without;
  }

  /**
   The same of a whole switch: a running task keeps its core while the scheduler is locked, and only then; otherwise it
   competes with everybody else, so the one that runs next is the best of all, the former one included.
   */
  lemma SwitchPicks(k: Kernel, c: CoreId, wakes: seq<(FutexId, bool)>, corrupt: set<TaskId>, started: bool, u: TaskId, o: CoreId)
    requires Placed(k) && PlainOnly(k, wakes) && c < k.cores
    ensures Sane(k) && (c in k.current ==> Calls(k, c))
    ensures SameSetting(k, Switch(k, c, wakes, corrupt, started).0)
    ensures var (r, out) := Switch(k, c, wakes, corrupt, started);
            && (out.Kept? <==> c in k.current && k.locked < 0)
            && (out.Kept? ==> r == k.(pending := k.pending - {c}))
            && (out.Dispatched? ==>
                  && c in r.current && r.current[c] == out.task && out.task !in corrupt
                  && (Contends(r, c, u) ==> Q.Before(r.queues.entry, out.task, u))
                  && (o in r.pending <==> o != c && (o in k.pending || ShouldSwitch(r, o))))
            && (!out.Kept? && !out.Dispatched? ==>
                  && c !in r.current && r.pending == k.pending - {c}
                  && (Contends(r, c, u) ==> exists t :: Dropped(k, r, corrupt, t)))
  {
    hide Kernel.Look, Sane, Placed, Round, Requeue, ShouldSwitch, Contends;
    PlacedSane(k);
    if c in k.current {
      CallerReady(k, c);
    }
    var k0 := k.(pending := k.pending - {c});
    Unmoved(k, k0);
    SameLooks(k, k0);
    if c !in k.current {
      RoundPicks(k0, c, wakes, corrupt, started, u, o);
    } else if k.locked >= 0 {
      RequeuePlaced(k0, c);
      RequeueStep(k0, c);
      Seen(k0, k.current[c]);
      RoundPicks(Requeue(k0, c), c, wakes, corrupt, started, u, o);
    }
    SameDrops(k, k0, if c in k.current && k.locked >= 0 then Requeue(k0, c) else k0, Switch(k, c, wakes, corrupt, started).0, corrupt);
  }

  lemma SameDrops(k: Kernel, k0: Kernel, k1: Kernel, r: Kernel, corrupt: set<TaskId>)
    requires forall t :: (k.Look(t).Some? <==> k0.Look(t).Some?) && (k1.Look(t).Some? ==> k0.Look(t).Some?)
    ensures (exists t :: Dropped(k1, r, corrupt, t)) ==> exists t :: Dropped(k, r, corrupt, t)
  {
    hide Kernel.Look;
    if t :| Dropped(k1, r, corrupt, t) {
      assert Dropped(k, r, corrupt, t);
    }
  }

  // ----- the end of the scheduler

  /** Every task that is left is a daemon. */
  ghost predicate OnlyDaemons(k: Kernel) {
    forall t :: k.Look(t).Some? ==> k.Look(t).value.task.daemon
  }

  lemma RoundEnds(k: Kernel, c: CoreId, wakes: seq<(FutexId, bool)>, corrupt: set<TaskId>, started: bool)
    requires Sane(k) && PlainOnly(k, wakes)
    ensures var (r, out) := Round(k, c, wakes, corrupt, started);
            !out.Kept? && (!out.Dispatched? ==> out == if started && OnlyDaemons(r) then Exited else Idling)
  {
    hide Sane, WakeDeferred, ExpireAll, Dequeue, Dispatch, Evict;
    var r := Round(k, c, wakes, corrupt, started).0;
    DaemonsOnly(r);
  }

  lemma DaemonsOnly(k: Kernel)
    ensures OnlyDaemons(k) <==> forall t :: t in k.tasks ==> k.tasks[t].daemon
  {
    hide Kernel.Look;
    forall t { Seen(k, t); }
  }

  /**
   When the scheduler ends: a switch that neither keeps nor finds a task leaves the scheduler exactly if the core can
   return to its starter and every task that is left is a daemon; otherwise it idles and looks again.
   */
  lemma SwitchEnds(k: Kernel, c: CoreId, wakes: seq<(FutexId, bool)>, corrupt: set<TaskId>, started: bool)
    requires Placed(k) && PlainOnly(k, wakes) && c < k.cores
    ensures Sane(k) && (c in k.current ==> Calls(k, c))
    ensures var (r, out) := Switch(k, c, wakes, corrupt, started);
            && (out.Exited? ==> started && OnlyDaemons(r))
            && (!out.Kept? && !out.Dispatched? && started && OnlyDaemons(r) ==> out.Exited?)
            && (!out.Kept? && !out.Dispatched? && !(started && OnlyDaemons(r)) ==> out.Idling?)
  {
    hide Kernel.Look, Sane, Placed, Round, Requeue, OnlyDaemons;
    PlacedSane(k);
    if c in k.current {
      CallerReady(k, c);
    }
    var k0 := k.(pending := k.pending - {c});
    Unmoved(k, k0);
    SameLooks(k, k0);
    PlacedSane(k0);
    if c !in k.current {
      RoundEnds(k0, c, wakes, corrupt, started);
    } else if k.locked >= 0 {
      CallerReady(k0, c);
      RoundEnds(Requeue(k0, c), c, wakes, corrupt, started);
    }
  }
}
