/** Every live task is in exactly one place, the one its state says: kept by every kernel step. */
module Placement {
  import opened Types
  import opened Sequences
  import opened Kernel
  import opened Steps
  import Q = TaskQueues
  import Tm = TaskTimers
  import Ow = OwnedFutexes

  /** The place of a task: the queue it is linked to, the core that runs it, whether a timer may be running. */
  predicate At(k: Kernel, t: TaskId) {
    k.Look(t).Some? ==>
      var w := k.Look(t).value;
      match w.task.state
      case Ready => w.link == Some(Q.ReadyQueue) && w.timer.None?
      case Blocked => w.link.Some? && w.link.value.WaitersOf? && w.link.value.futex in k.futexes && w.task.result == 0
      case Suspended => w.link.None?
      case Running => w.link.None? && w.timer.None? && w.task.core in k.current && k.current[w.task.core] == t
  }

  predicate Occupied(k: Kernel, c: CoreId) {
    && c < k.cores && c in k.current
    && k.Look(k.current[c]).Some?
    && var d := k.Look(k.current[c]).value.task; d.state.Running? && d.core == c
  }

  ghost predicate Placed(k: Kernel) {
    && Sane(k)
    && (forall t :: At(k, t))
    && (forall c :: c in k.current ==> Occupied(k, c))
  }

  /** The current task of a core may call the kernel. */
  lemma CallerReady(k: Kernel, c: CoreId)
    requires Placed(k) && c in k.current
    ensures Calls(k, c) && c < k.cores
    ensures k.Look(k.current[c]).Some?
    ensures var w := k.Look(k.current[c]).value; w.task.state.Running? && w.task.core == c && w.link.None? && w.timer.None?
  {
    assert Occupied(k, c) && At(k, k.current[c]);
    hide Q.Good, Tm.Good, Ow.Good;
  }

  lemma PlacedSane(k: Kernel)
    requires Placed(k)
    ensures Sane(k)
  {}

  /** A task runs on one core at most: the one it names, and only while it is running. */
  lemma OnlyOn(k: Kernel, t: TaskId)
    requires Placed(k)
    ensures forall o :: o in k.current && k.current[o] == t ==>
              k.Look(t).Some? && k.Look(t).value.task.state.Running? && k.Look(t).value.task.core == o
    ensures k.Look(t).Some? && k.Look(t).value.task.state.Running? ==>
              var o := k.Look(t).value.task.core; o in k.current && k.current[o] == t
  {
    hide Sane;
    assert At(k, t);
    forall o | o in k.current ensures Occupied(k, o) {}
  }

  /** What a step must do for the tasks `a` and `b`, given that it leaves all the others and their cores alone. */
  lemma Moved(k: Kernel, k': Kernel, a: TaskId, b: TaskId)
    requires Placed(k) && Sane(k') && k'.cores == k.cores
    requires forall u :: u != a && u != b ==> k'.Look(u) == k.Look(u)
    requires forall f :: f in k.futexes ==> f in k'.futexes
    requires forall o :: o in k'.current && k'.current[o] != a && k'.current[o] != b ==> o in k.current && k'.current[o] == k.current[o]
    requires forall o :: o in k.current && k.current[o] != a && k.current[o] != b ==> o in k'.current && k'.current[o] == k.current[o]
    requires At(k', a) && At(k', b)
    requires forall o :: o in k'.current && (k'.current[o] == a || k'.current[o] == b) ==> Occupied(k', o)
    ensures Placed(k')
  {
    hide Sane, Kernel.Look;
    forall u ensures At(k', u) {
      assert At(k, u);
    }
    forall o | o in k'.current ensures Occupied(k', o) {
      if k'.current[o] != a && k'.current[o] != b { assert Occupied(k, o); }
    }
  }

  /** Once the caller has left core `c`, no core runs it, nor any task that was not running. */
  lemma Left(k: Kernel, current: map<CoreId, TaskId>, c: CoreId, t: TaskId)
    requires Placed(k) && c in k.current && current == k.current - {c}
    requires t == k.current[c] || !k.Look(t).Some? || !k.Look(t).value.task.state.Running?
    ensures forall o :: o in current ==> current[o] != t
  {
    hide Sane, Kernel.Look;
    OnlyOn(k, t);
  }

  lemma SuspendOtherPlaced(k: Kernel, c: CoreId, t: TaskId, delay: nat)
    requires Placed(k) && c in k.current && t in k.tasks && t != k.current[c] && k.cores == 1
    ensures Calls(k, c) && Placed(Suspend(k, c, t, delay).0)
  {
    hide Kernel.Look, Sane, Placed, Suspend, Occupied;
    CallerReady(k, c);
    AloneOnOne(k, c);
    OnlyOn(k, t);
    var r := Suspend(k, c, t, delay).0;
    SuspendStep(k, c, t, delay);
    Seen(k, k.current[c]);
    assert At(r, t) && At(r, k.current[c]);
    Moved(k, r, t, k.current[c]);
  }

  lemma SuspendSelfPlaced(k: Kernel, c: CoreId, delay: nat)
    requires Placed(k) && c in k.current
    ensures Calls(k, c) && Placed(Suspend(k, c, k.current[c], delay).0)
  {
    hide Kernel.Look, Sane, Placed, Suspend, Occupied;
    CallerReady(k, c);
    var t := k.current[c];
    Left(k, k.current - {c}, c, t);
    var r := Suspend(k, c, t, delay).0;
    SuspendStep(k, c, t, delay);
    assert At(r, t);
    Moved(k, r, t, t);
  }

  /** Suspending the caller, or, on a single core, any other task. */
  lemma SuspendPlaced(k: Kernel, c: CoreId, t: TaskId, delay: nat)
    requires Placed(k) && c in k.current
    requires t == k.current[c] || k.cores == 1
    ensures Calls(k, c) && Placed(Suspend(k, c, t, delay).0)
  {
    CallerReady(k, c);
    if t in k.tasks {
      if t == k.current[c] {
        SuspendSelfPlaced(k, c, delay);
      } else {
        SuspendOtherPlaced(k, c, t, delay);
      }
    }
  }

  lemma AloneOnOne(k: Kernel, c: CoreId)
    requires Placed(k) && c in k.current && k.cores == 1
    ensures forall o :: o in k.current ==> o == c
  {
    hide Sane, Kernel.Look;
    forall o | o in k.current ensures o == c {
      assert Occupied(k, o) && Occupied(k, c);
    }
  }

  lemma ResumePlaced(k: Kernel, c: CoreId, t: TaskId)
    requires Placed(k) && c in k.current
    ensures Calls(k, c) && Placed(Resume(k, c, t).0)
  {
    hide Kernel.Look, Sane, Placed, Occupied, Rouse;
    CallerReady(k, c);
    Seen(k, t);
    var r := Resume(k, c, t).0;
    if t in k.tasks && (k.tasks[t].state.Blocked? || k.tasks[t].state.Suspended?) {
      ResumeStep(k, c, t);
      OnlyOn(k, t);
      Moved(k, r, t, t);
    } else {
      Unmoved(k, r);
    }
  }

  /** Only the requests for a switch, the tick counts and the lock depth are different. */
  lemma Unmoved(k: Kernel, k': Kernel)
    requires Placed(k) && k' == k.(pending := k'.pending, ticks := k'.ticks, locked := k'.locked)
    ensures Placed(k')
  {
    hide Q.Good, Tm.Good, Ow.Good;
    forall u ensures At(k', u) {
      assert At(k, u);
    }
    forall o | o in k'.current ensures Occupied(k', o) {
      assert Occupied(k, o);
    }
  }

  // ----- wait

  /** A wait that blocks: the caller joins the waiters, and at most a priority changes besides. */
  lemma BlockedPlaced(k: Kernel, c: CoreId, f: FutexId, expected: int, delay: nat)
    requires Placed(k) && c in k.current && f in k.futexes && ShouldBlock(k.futexes[f], expected)
    requires k.futexes[f].kind == Mutex(true) ==> OwnerLive(k, k.futexes[f].value)
    ensures Calls(k, c) && Placed(Wait(k, c, f, expected, delay))
  {
    hide Kernel.Look, Sane, Placed, Occupied, Wait, Lent, OwnerLive, ShouldBlock;
    CallerReady(k, c);
    var cur := k.current[c];
    Left(k, k.current - {c}, c, cur);
    var r := Wait(k, c, f, expected, delay);
    WaitStep(k, c, f, expected, delay);
    WaitLookPlaces(k, c, f, delay);
    hide WaitLook;
    Regraded(k, r, cur);
  }

  lemma WaitLookPlaces(k: Kernel, c: CoreId, f: FutexId, delay: nat)
    requires Calls(k, c) && f in k.futexes
    ensures forall u :: u != k.current[c] ==> SamePlace(k.Look(u), WaitLook(k, c, f, delay, u))
    ensures var w := WaitLook(k, c, f, delay, k.current[c]);
            w.Some? && w.value.task.state.Blocked? && w.value.link == Some(Q.WaitersOf(f)) && w.value.task.result == 0
  {
    hide Kernel.Look, Sane, Lent, OwnerLive;
    Seen(k, k.current[c]);
  }

  /** Two looks at a task that differ at most in its current priority. */
  predicate SamePlace(a: Option<Face>, b: Option<Face>) {
    (a.Some? <==> b.Some?) && (a.Some? ==> b.value == a.value.(prio := b.value.prio))
  }

  /** `a` is moved, and all the others at most change priority. */
  lemma Regraded(k: Kernel, k': Kernel, a: TaskId)
    requires Placed(k) && Sane(k') && k'.cores == k.cores
    requires forall u :: u != a ==> SamePlace(k.Look(u), k'.Look(u))
    requires forall f :: f in k.futexes ==> f in k'.futexes
    requires forall o :: o in k'.current && k'.current[o] != a ==> o in k.current && k'.current[o] == k.current[o]
    requires forall o :: o in k.current && k.current[o] != a ==> o in k'.current && k'.current[o] == k.current[o]
    requires At(k', a)
    requires forall o :: o in k'.current && k'.current[o] == a ==> Occupied(k', o)
    ensures Placed(k')
  {
    hide Sane, Kernel.Look;
    forall u ensures At(k', u) {
      assert At(k, u);
      if u != a { assert SamePlace(k.Look(u), k'.Look(u)); }
    }
    forall o | o in k'.current ensures Occupied(k', o) {
      if k'.current[o] != a {
        assert Occupied(k, o);
        assert SamePlace(k.Look(k'.current[o]), k'.Look(k'.current[o]));
      }
    }
  }

  lemma WaitPlaced(k: Kernel, c: CoreId, f: FutexId, expected: int, delay: nat)
    requires Placed(k) && c in k.current && f in k.futexes
    requires k.futexes[f].kind == Mutex(true) && ShouldBlock(k.futexes[f], expected) ==> OwnerLive(k, k.futexes[f].value)
    ensures Calls(k, c) && Placed(Wait(k, c, f, expected, delay))
  {
    hide Kernel.Look, Sane, Placed, Occupied, Wait, OwnerLive, ShouldBlock;
    CallerReady(k, c);
    if ShouldBlock(k.futexes[f], expected) {
      BlockedPlaced(k, c, f, expected, delay);
    } else {
      var cur := k.current[c];
      Left(k, k.current - {c}, c, cur);
      WaitReadyStep(k, c, f, expected, delay);
      Moved(k, Wait(k, c, f, expected, delay), cur, cur);
    }
  }

  // ----- wake

  lemma WaiterBlocked(k: Kernel, id: Q.QueueId, t: TaskId)
    requires Placed(k) && t in k.queues.List(id)
    ensures k.Look(t).Some? && k.Look(t).value.link == Some(id) && At(k, t)
    ensures id.WaitersOf? ==> k.Look(t).value.task.state.Blocked? && id.futex in k.futexes
    ensures id.ReadyQueue? ==> k.Look(t).value.task.state.Ready?
  {
    hide Kernel.Look, Sane;
    OnQueue(k, id, t);
    assert At(k, t);
  }

  /** Waking some of the waiters of a futex without tracking. */
  lemma WakeLoopPlaced(k: Kernel, f: FutexId, all: bool)
    requires Placed(k) && f in k.futexes && k.futexes[f].kind.Plain?
    ensures Sane(k) && Placed(WakeLoop(k, f, all))
  {
    hide Kernel.Look, Sane, WakeLoop;
    WakeLoopStep(k, f, all);
    var r := WakeLoop(k, f, all);
    var s := Woken(k, f, all);
    forall u ensures At(r, u) {
      assert At(k, u) && r.Look(u) == RousedLook(k, s, u);
    }
    forall o | o in r.current ensures Occupied(r, o) {
      var u := k.current[o];
      assert Occupied(k, o) && r.Look(u) == RousedLook(k, s, u);
      if u in s { WaiterBlocked(k, Q.WaitersOf(f), u); }
    }
  }

  lemma LoweredPlaced(k: Kernel, f: FutexId)
    requires Placed(k) && f in k.futexes
    requires k.futexes[f].kind == Mutex(true) ==> OwnerLive(k, k.futexes[f].value)
    ensures Placed(Lowered(k, f))
  {
    hide Kernel.Look, Sane, Placed, Deboost, At, Occupied;
    PlacedSane(k);
    if k.futexes[f].kind == Mutex(true) {
      var owner := OwnerOf(k.futexes[f].value);
      DeboostStep(k, f, owner);
      hide MostUrgent;
      Seen(k, owner);
      Graded(k, Lowered(k, f));
    }
  }

  /** Nobody is moved, at most priorities change. */
  lemma Graded(k: Kernel, k': Kernel)
    requires Placed(k) && Sane(k') && k'.cores == k.cores && k'.current == k.current
    requires forall u :: SamePlace(k.Look(u), k'.Look(u))
    requires forall f :: f in k.futexes ==> f in k'.futexes
    ensures Placed(k')
  {
    hide Sane, Kernel.Look;
    forall u ensures At(k', u) {
      assert At(k, u) && SamePlace(k.Look(u), k'.Look(u));
    }
    forall o | o in k'.current ensures Occupied(k', o) {
      assert Occupied(k, o) && SamePlace(k.Look(k.current[o]), k'.Look(k.current[o]));
    }
  }

  lemma WakeWaitersPlaced(k: Kernel, f: FutexId, all: bool)
    requires Placed(k) && f in k.futexes && k.futexes[f].kind.Mutex?
    requires k.futexes[f].kind == Mutex(true) ==> f !in k.owned.link
    ensures Sane(k) && Placed(WakeWaiters(k, f, all))
  {
    hide Kernel.Look, Sane, Placed, WakeWaiters, Occupied;
    PlacedSane(k);
    var r := WakeWaiters(k, f, all);
    if k.Waiters(f) == [] {
      WakeNobodyStep(k, f, all);
      Graded(k, r);
    } else {
      var t := k.Waiters(f)[0];
      WakeMutexStep(k, f, all);
      WaiterBlocked(k, Q.WaitersOf(f), t);
      OnlyOn(k, t);
      Moved(k, r, t, t);
    }
  }

  lemma WakeFutexPlaced(k: Kernel, f: FutexId, all: bool)
    requires Placed(k) && f in k.futexes
    requires k.futexes[f].kind == Mutex(true) ==> OwnerLive(k, k.futexes[f].value)
    ensures Placed(WakeFutex(k, f, all))
  {
    hide Sane, Placed, WakeLoop, Lowered, WakeWaiters;
    PlacedSane(k);
    LoweredPlaced(k, f);
    if k.futexes[f].kind.Mutex? {
      WakeWaitersPlaced(Lowered(k, f), f, all);
    } else {
      WakePlain(k, f, all);
      WakeLoopPlaced(k, f, all);
    }
  }

  lemma WakePlaced(k: Kernel, c: CoreId, f: FutexId, all: bool)
    requires Placed(k) && c in k.current && f in k.futexes
    requires k.futexes[f].kind == Mutex(true) ==> OwnerLive(k, k.futexes[f].value)
    ensures Calls(k, c) && Placed(Wake(k, c, f, all).0)
  {
    hide Sane, Placed, WakeFutex, Kernel.Look;
    CallerReady(k, c);
    WakeFutexPlaced(k, f, all);
    Unmoved(WakeFutex(k, f, all), Wake(k, c, f, all).0);
  }

  // ----- create, terminate, priority, tick

  lemma CreatePlaced(k: Kernel, c: CoreId, t: TaskId, prio: nat, affinity: Option<CoreId>, daemon: bool, suspended: bool)
    requires Placed(k) && c in k.current && t !in k.tasks
    ensures Calls(k, c) && Placed(Create(k, c, t, prio, affinity, daemon, suspended))
  {
    hide Kernel.Look, Sane, Placed, Create, Occupied;
    CallerReady(k, c);
    Seen(k, t);
    OnlyOn(k, t);
    CreateStep(k, c, t, prio, affinity, daemon, suspended);
    Moved(k, Create(k, c, t, prio, affinity, daemon, suspended), t, t);
  }

  /** Terminating the caller, or, on a single core, any other task. */
  lemma TerminatePlaced(k: Kernel, c: CoreId, t: TaskId)
    requires Placed(k) && c in k.current
    requires t == k.current[c] || k.cores == 1
    ensures Calls(k, c) && Placed(Terminate(k, c, t).0)
  {
    hide Kernel.Look, Sane, Placed, Terminate, Occupied;
    CallerReady(k, c);
    Seen(k, t);
    OnlyOn(k, t);
    if t in k.tasks {
      TerminateStep(k, c, t);
      if t != k.current[c] { AloneOnOne(k, c); }
      Moved(k, Terminate(k, c, t).0, t, t);
    } else {
      NoSuchTask(k, c, t);
    }
  }

  lemma NoSuchTask(k: Kernel, c: CoreId, t: TaskId)
    requires Calls(k, c) && t !in k.tasks
    ensures Terminate(k, c, t) == (k, -ESRCH)
    ensures forall p :: SetPriority(k, c, t, p) == (k, -ESRCH)
    ensures forall d :: Suspend(k, c, t, d) == (k, -ESRCH)
  {
    hide Sane;
  }

  lemma SetPriorityPlaced(k: Kernel, c: CoreId, t: TaskId, p: nat)
    requires Placed(k) && c in k.current
    ensures Calls(k, c) && Placed(SetPriority(k, c, t, p).0)
  {
    hide Kernel.Look, Sane, Placed, SetPriority, At, Occupied;
    CallerReady(k, c);
    Seen(k, t);
    if t in k.tasks {
      SetPriorityStep(k, c, t, p);
      SameBut(k, SetPriority(k, c, t, p).0, t);
    } else {
      NoSuchTask(k, c, t);
    }
  }

  /** Only priorities of `t` are different. */
  lemma SameBut(k: Kernel, k': Kernel, t: TaskId)
    requires Placed(k) && Sane(k') && k'.cores == k.cores && k'.current == k.current && k'.futexes == k.futexes
    requires forall u :: u != t ==> k'.Look(u) == k.Look(u)
    requires k.Look(t).Some? && k'.Look(t).Some?
    requires var w, w' := k.Look(t).value, k'.Look(t).value;
             w' == w.(prio := w'.prio, task := w.task.(base := w'.task.base))
    ensures Placed(k')
  {
    hide Sane, Kernel.Look;
    forall u ensures At(k', u) {
      assert At(k, u);
    }
    forall o | o in k'.current ensures Occupied(k', o) {
      assert Occupied(k, o);
    }
  }

  lemma TickPlaced(k: Kernel, c: CoreId, sliced: bool)
    requires Placed(k)
    ensures Placed(Tick(k, c, sliced))
  {
    hide Kernel.Look, Sane, Placed;
    Unmoved(k, Tick(k, c, sliced));
  }

  // ----- the context switch

  lemma RequeuePlaced(k: Kernel, c: CoreId)
    requires Placed(k) && c in k.current
    ensures Calls(k, c) && Placed(Requeue(k, c))
  {
    hide Kernel.Look, Sane, Placed, Requeue, Occupied;
    CallerReady(k, c);
    var t := k.current[c];
    Left(k, k.current - {c}, c, t);
    RequeueStep(k, c);
    Moved(k, Requeue(k, c), t, t);
  }

  lemma {:induction false} WakeDeferredPlaced(k: Kernel, wakes: seq<(FutexId, bool)>)
    requires Placed(k) && PlainOnly(k, wakes)
    ensures Sane(k) && Placed(WakeDeferred(k, wakes))
    decreases |wakes|
  {
    hide Sane, Placed, WakeFutex;
    PlacedSane(k);
    if wakes != [] {
      WakePlain(k, wakes[0].0, wakes[0].1);
      WakeFutexPlaced(k, wakes[0].0, wakes[0].1);
      WakeDeferredPlaced(WakeFutex(k, wakes[0].0, wakes[0].1), wakes[1..]);
    }
  }

  lemma {:induction false} WakeDeferredKept(k: Kernel, wakes: seq<(FutexId, bool)>)
    requires Sane(k) && PlainOnly(k, wakes)
    ensures var r := WakeDeferred(k, wakes); r == k.(queues := r.queues, timers := r.timers, tasks := r.tasks)
    decreases |wakes|
  {
    hide Sane, WakeLoop;
    if wakes != [] {
      WakePlain(k, wakes[0].0, wakes[0].1);
      WakeLoopStep(k, wakes[0].0, wakes[0].1);
      WakeDeferredKept(WakeFutex(k, wakes[0].0, wakes[0].1), wakes[1..]);
    }
  }

  /** Timers run only for blocked and suspended tasks, so expiry never moves a ready or a running one. */
  lemma ExpireAllPlaced(k: Kernel)
    requires Placed(k)
    ensures Sane(k) && Placed(ExpireAll(k))
  {
    hide Kernel.Look, Sane, ExpireAll;
    ExpireAllStep(k);
    var r := ExpireAll(k);
    forall u ensures At(r, u) {
      assert At(k, u) && r.Look(u) == ExpireLook(k, u);
    }
    forall o | o in r.current ensures Occupied(r, o) {
      var u := k.current[o];
      assert Occupied(k, o) && At(k, u) && r.Look(u) == ExpireLook(k, u);
      Seen(k, u);
    }
  }

  /**
   Handing the free core `c` to the ready task `t`: just before, `t` is ready and the core runs nobody,
   which is what the handler asserts about `t` and what would otherwise make it abort.
   */
  lemma DispatchPlaced(k: Kernel, c: CoreId, t: TaskId)
    requires Placed(k) && c !in k.current && c < k.cores && t in k.Ready()
    ensures Sane(k) && t in k.tasks && k.tasks[t].state.Ready? && c !in Dequeue(k, t).current
    ensures Placed(Dispatch(Dequeue(k, t), c, t))
  {
    hide Kernel.Look, Sane, Placed, Dequeue, Dispatch;
    PlacedSane(k);
    WaiterBlocked(k, Q.ReadyQueue, t);
    Seen(k, t);
    OnlyOn(k, t);
    DequeueStep(k, t);
    DispatchStep(k, c, t);
    Moved(k, Dispatch(Dequeue(k, t), c, t), t, t);
  }

  /** Eviction unlinks the timer node without refreshing the cached deadline: harmless, a ready task has no timer. */
  lemma EvictPlaced(k: Kernel, t: TaskId)
    requires Placed(k) && t in k.Ready()
    ensures Sane(k) && t in k.tasks && Evict(k, t) == Bury(k, t) && Placed(Evict(k, t))
  {
    hide Kernel.Look, Sane, Placed, Occupied;
    PlacedSane(k);
    WaiterBlocked(k, Q.ReadyQueue, t);
    Seen(k, t);
    OnlyOn(k, t);
    BuryStep(k, t);
    EvictIsBury(k, t);
    hide Evict, Bury;
    Moved(k, Evict(k, t), t, t);
  }

  lemma EvictIsBury(k: Kernel, t: TaskId)
    requires Sane(k) && t in k.tasks && k.Timer(t).None?
    ensures Evict(k, t) == Bury(k, t)
  {
    hide Q.Good, Ow.Good;
    assert Tm.Remove(k.timers, t) == k.timers.(list := Without(k.timers.list, t));
  }

  lemma RoundPlaced(k: Kernel, c: CoreId, wakes: seq<(FutexId, bool)>, corrupt: set<TaskId>, started: bool)
    requires Placed(k) && PlainOnly(k, wakes) && c !in k.current && c < k.cores
    ensures Sane(k) && Placed(Round(k, c, wakes, corrupt, started).0)
  {
    hide Kernel.Look, Sane, Placed, WakeDeferred, ExpireAll, Dequeue, Dispatch, Evict;
    PlacedSane(k);
    WakeDeferredPlaced(k, wakes);
    WakeDeferredKept(k, wakes);
    var k0 := WakeDeferred(k, wakes);
    ExpireAllPlaced(k0);
    ExpireAllStep(k0);
    var k1 := ExpireAll(k0);
    var i := Q.FirstIn(k1.Ready(), Eligible(k1, c));
    if i < |k1.Ready()| {
      DispatchPlaced(k1, c, k1.Ready()[i]);
      EvictPlaced(k1, k1.Ready()[i]);
    }
  }

  lemma SwitchPlaced(k: Kernel, c: CoreId, wakes: seq<(FutexId, bool)>, corrupt: set<TaskId>, started: bool)
    requires Placed(k) && PlainOnly(k, wakes) && c < k.cores
    ensures Sane(k) && (c in k.current ==> Calls(k, c))
    ensures Placed(Switch(k, c, wakes, corrupt, started).0)
  {
    hide Kernel.Look, Sane, Placed, Round, Requeue;
    PlacedSane(k);
    if c in k.current {
      CallerReady(k, c);
    }
    var k0 := k.(pending := k.pending - {c});
    Unmoved(k, k0);
    if c !in k.current {
      RoundPlaced(k0, c, wakes, corrupt, started);
    } else if k.locked >= 0 {
      RequeuePlaced(k0, c);
      RequeueStep(k0, c);
      RoundPlaced(Requeue(k0, c), c, wakes, corrupt, started);
    }
  }
}
