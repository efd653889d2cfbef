/** What the kernel steps that concern no mutex leave untouched. */
module Calmness {
  import opened Types
  import opened Sequences
  import opened Kernel
  import opened Steps
  import opened Placement
  import Q = TaskQueues
  import Tm = TaskTimers
  import Ow = OwnedFutexes

  predicate IsMutex(k: Kernel, f: FutexId) {
    f in k.futexes && k.futexes[f].kind.Mutex?
  }

  predicate WaitsFor(k: Kernel, f: FutexId, u: TaskId) {
    k.Look(u).Some? && k.Look(u).value.link == Some(Q.WaitersOf(f))
  }

  /** A timer expiry or a cancellation could still rewrite the result of this task. */
  predicate Exposed(w: Face) {
    w.timer.Some? || w.task.state.Blocked?
  }

  /** What a wait returns when it is broken by a timeout or by a cancellation. */
  predicate Broken(result: int) {
    result == -ETIMEDOUT || result == -ECANCELED
  }

  predicate JoinsQueue(a: Face, b: Face) {
    b.link.Some? && b.link.value.WaitersOf? && a.link != b.link
  }

  predicate JoinsMutex(k: Kernel, a: Option<Face>, b: Face) {
    b.link.Some? && b.link.value.WaitersOf? && IsMutex(k, b.link.value.futex) && (a.None? || a.value.link != b.link)
  }

  /**
   From `a` to `b` a task joins no mutex, its priority changes only if it is `rebased`, and then together with
   its base, and, unless `excused`, it starts no wait and its result changes only when its wait is broken.
   */
  predicate CalmFace(k: Kernel, a: Option<Face>, b: Option<Face>, excused: bool, rebased: bool) {
    b.Some? ==>
      && !JoinsMutex(k, a, b.value)
      && (if a.Some? && !rebased then b.value.prio == a.value.prio && b.value.task.base == a.value.task.base
          else b.value.prio == b.value.task.base)
      && (excused || (a.Some? && !JoinsQueue(a.value, b.value) && (Exposed(b.value) ==> Exposed(a.value))
                      && (b.value.task.result == a.value.task.result || (Exposed(a.value) && Broken(b.value.task.result)))))
  }

  /** Mutex words and owner links stay as they are. */
  ghost predicate CalmWords(k: Kernel, k': Kernel) {
    && k'.owned == k.owned
    && (forall f :: f in k'.futexes <==> f in k.futexes)
    && (forall f :: f in k.futexes ==> k'.futexes[f].kind == k.futexes[f].kind)
    && (forall f :: IsMutex(k, f) ==> k'.futexes[f] == k.futexes[f])
  }

  /**
   A step that leaves the mutexes alone; `excused` are the tasks whose own result and exposure it is about,
   `rebased` those that get a new priority.
   */
  ghost predicate Calm(k: Kernel, k': Kernel, excused: set<TaskId>, rebased: set<TaskId> := {}) {
    CalmWords(k, k') && forall u :: CalmFace(k, k.Look(u), k'.Look(u), u in excused, u in rebased)
  }

  lemma CalmTrans(k: Kernel, k': Kernel, k'': Kernel)
    requires Calm(k, k', {}) && Calm(k', k'', {})
    ensures Calm(k, k'', {})
  {
    hide Kernel.Look;
    forall u ensures CalmFace(k, k.Look(u), k''.Look(u), false, false) {
      assert CalmFace(k, k.Look(u), k'.Look(u), false, false) && CalmFace(k', k'.Look(u), k''.Look(u), false, false);
    }
  }

  /** Suspending concerns the caller, and the target's timeout. */
  lemma SuspendCalm(k: Kernel, c: CoreId, t: TaskId, delay: nat)
    requires Placed(k) && c in k.current
    ensures Calls(k, c)
    ensures Calm(k, Suspend(k, c, t, delay).0, if delay < WAIT_FOREVER then {t, k.current[c]} else {k.current[c]})
  {
    hide Kernel.Look, Sane, Placed, Suspend;
    CallerReady(k, c);
    if t in k.tasks {
      SuspendStep(k, c, t, delay);
    } else {
      NoSuchTask(k, c, t);
    }
  }

  lemma ResumeCalm(k: Kernel, c: CoreId, t: TaskId)
    requires Placed(k) && c in k.current
    ensures Calls(k, c) && Calm(k, Resume(k, c, t).0, {})
  {
    hide Kernel.Look, Sane, Placed, Rouse;
    CallerReady(k, c);
    Seen(k, t);
    if t in k.tasks && (k.tasks[t].state.Blocked? || k.tasks[t].state.Suspended?) {
      ResumeStep(k, c, t);
    } else {
      PendingStep(k, c);
    }
  }

  /** A wait on a futex without tracking, or one whose word has moved on, concerns the caller alone. */
  lemma WaitCalm(k: Kernel, c: CoreId, f: FutexId, expected: int, delay: nat)
    requires Placed(k) && c in k.current && f in k.futexes
    requires k.futexes[f].kind.Plain? || !ShouldBlock(k.futexes[f], expected)
    ensures Calls(k, c) && Calm(k, Wait(k, c, f, expected, delay), {k.current[c]})
  {
    hide Kernel.Look, Sane, Placed, Wait, ShouldBlock, Lent;
    CallerReady(k, c);
    if ShouldBlock(k.futexes[f], expected) {
      WaitStep(k, c, f, expected, delay);
    } else {
      WaitReadyStep(k, c, f, expected, delay);
    }
  }

  lemma WakeLoopCalm(k: Kernel, f: FutexId, all: bool)
    requires Placed(k) && f in k.futexes && k.futexes[f].kind.Plain?
    ensures Sane(k) && Calm(k, WakeLoop(k, f, all), {})
  {
    hide Kernel.Look, Sane, Placed, WakeLoop, Woken;
    PlacedSane(k);
    WakeLoopStep(k, f, all);
    forall u ensures CalmFace(k, k.Look(u), WakeLoop(k, f, all).Look(u), false, false) {
      if u in Woken(k, f, all) {
        WokenWaits(k, f, all, u);
      }
    }
  }

  lemma WokenWaits(k: Kernel, f: FutexId, all: bool, u: TaskId)
    requires Placed(k) && u in Woken(k, f, all)
    ensures k.Look(u).Some? && k.Look(u).value.task.state.Blocked?
  {
    hide Kernel.Look, Sane, Placed;
    WaiterBlocked(k, Q.WaitersOf(f), u);
  }

  lemma WakeCalm(k: Kernel, c: CoreId, f: FutexId, all: bool)
    requires Placed(k) && c in k.current && f in k.futexes && k.futexes[f].kind.Plain?
    ensures Calls(k, c) && Calm(k, Wake(k, c, f, all).0, {})
  {
    hide Kernel.Look, Sane, Placed, WakeLoop, WakeFutex;
    CallerReady(k, c);
    WakeLoopCalm(k, f, all);
    WakePlain(k, f, all);
    PendingStep(WakeLoop(k, f, all), c);
  }

  lemma {:induction false} WakeDeferredCalm(k: Kernel, wakes: seq<(FutexId, bool)>)
    requires Placed(k) && PlainOnly(k, wakes)
    ensures Sane(k) && Calm(k, WakeDeferred(k, wakes), {})
    decreases |wakes|
  {
    hide Kernel.Look, Sane, Placed, Calm, WakeLoop, WakeFutex;
    PlacedSane(k);
    if wakes != [] {
      var f, all := wakes[0].0, wakes[0].1;
      WakePlain(k, f, all);
      WakeLoopCalm(k, f, all);
      WakeFutexPlaced(k, f, all);
      WakeDeferredCalm(WakeFutex(k, f, all), wakes[1..]);
      CalmTrans(k, WakeFutex(k, f, all), WakeDeferred(k, wakes));
    } else {
      CalmSame(k, k);
    }
  }

  lemma CalmSame(k: Kernel, k': Kernel)
    requires k'.owned == k.owned && k'.futexes == k.futexes && forall u :: k'.Look(u) == k.Look(u)
    ensures Calm(k, k', {})
  {
    hide Kernel.Look;
  }

  lemma ExpireAllCalm(k: Kernel)
    requires Placed(k)
    ensures Sane(k) && Calm(k, ExpireAll(k), {})
  {
    hide Kernel.Look, Sane, Placed, ExpireAll;
    PlacedSane(k);
    ExpireAllStep(k);
    forall u ensures CalmFace(k, k.Look(u), ExpireAll(k).Look(u), false, false) {
      Seen(k, u);
    }
  }

  lemma DispatchCalm(k: Kernel, c: CoreId, t: TaskId)
    requires Placed(k) && t in k.Ready()
    ensures Sane(k) && t in k.tasks && Calm(k, Dispatch(Dequeue(k, t), c, t), {})
  {
    hide Kernel.Look, Sane, Placed, Dequeue, Dispatch;
    PlacedSane(k);
    WaiterBlocked(k, Q.ReadyQueue, t);
    Seen(k, t);
    DequeueStep(k, t);
    DispatchStep(k, c, t);
  }

  lemma BuryCalm(k: Kernel, t: TaskId)
    requires Sane(k) && t in k.tasks
    ensures Calm(k, Bury(k, t), {})
  {
    hide Kernel.Look, Sane, Bury;
    BuryStep(k, t);
  }

  lemma RequeueCalm(k: Kernel, c: CoreId)
    requires Calls(k, c)
    ensures Calm(k, Requeue(k, c), {})
  {
    hide Kernel.Look, Sane, Requeue;
    RequeueStep(k, c);
    Seen(k, k.current[c]);
  }

  lemma RoundCalm(k: Kernel, c: CoreId, wakes: seq<(FutexId, bool)>, corrupt: set<TaskId>, started: bool)
    requires Placed(k) && PlainOnly(k, wakes)
    ensures Sane(k) && Calm(k, Round(k, c, wakes, corrupt, started).0, {})
  {
    hide Kernel.Look, Sane, Placed, WakeDeferred, ExpireAll, Dequeue, Dispatch, Evict, Bury, Calm;
    PlacedSane(k);
    WakeDeferredPlaced(k, wakes);
    WakeDeferredCalm(k, wakes);
    var k0 := WakeDeferred(k, wakes);
    ExpireAllPlaced(k0);
    ExpireAllCalm(k0);
    var k1 := ExpireAll(k0);
    CalmTrans(k, k0, k1);
    var i := Q.FirstIn(k1.Ready(), Eligible(k1, c));
    if i < |k1.Ready()| {
      var t := k1.Ready()[i];
      EvictPlaced(k1, t);
      DispatchCalm(k1, c, t);
      BuryCalm(k1, t);
      CalmTrans(k, k1, Round(k, c, wakes, corrupt, started).0);
    }
  }

  lemma SwitchCalm(k: Kernel, c: CoreId, wakes: seq<(FutexId, bool)>, corrupt: set<TaskId>, started: bool)
    requires Placed(k) && PlainOnly(k, wakes)
    ensures Sane(k) && (c in k.current ==> Calls(k, c)) && Calm(k, Switch(k, c, wakes, corrupt, started).0, {})
  {
    hide Kernel.Look, Sane, Placed, Round, Requeue, Calm;
    PlacedSane(k);
    if c in k.current {
      CallerReady(k, c);
    }
    var k0 := k.(pending := k.pending - {c});
    Unmoved(k, k0);
    SameLooks(k, k0);
    CalmSame(k, k0);
    var r := Switch(k, c, wakes, corrupt, started).0;
    if c !in k.current {
      RoundCalm(k0, c, wakes, corrupt, started);
      CalmTrans(k, k0, r);
    } else if k.locked >= 0 {
      RequeuePlaced(k0, c);
      RequeueStep(k0, c);
      RequeueCalm(k0, c);
      RoundCalm(Requeue(k0, c), c, wakes, corrupt, started);
      CalmTrans(k0, Requeue(k0, c), r);
      CalmTrans(k, k0, r);
    }
  }

  lemma SameLooks(k: Kernel, k': Kernel)
    requires k'.tasks == k.tasks && k'.queues == k.queues && k'.timers == k.timers
    ensures forall u :: k'.Look(u) == k.Look(u)
  {}

  lemma CreateCalm(k: Kernel, c: CoreId, t: TaskId, prio: nat, affinity: Option<CoreId>, daemon: bool, suspended: bool)
    requires Placed(k) && c in k.current && t !in k.tasks
    ensures Calls(k, c) && Calm(k, Create(k, c, t, prio, affinity, daemon, suspended), {t})
  {
    hide Kernel.Look, Sane, Placed, Create;
    CallerReady(k, c);
    Seen(k, t);
    CreateStep(k, c, t, prio, affinity, daemon, suspended);
  }

  lemma TerminateCalm(k: Kernel, c: CoreId, t: TaskId)
    requires Placed(k) && c in k.current
    ensures Calls(k, c) && Calm(k, Terminate(k, c, t).0, {})
  {
    hide Kernel.Look, Sane, Placed, Terminate;
    CallerReady(k, c);
    if t in k.tasks {
      TerminateStep(k, c, t);
    } else {
      NoSuchTask(k, c, t);
    }
  }

  lemma SetPriorityCalm(k: Kernel, c: CoreId, t: TaskId, p: nat)
    requires Placed(k) && c in k.current
    ensures Calls(k, c) && Calm(k, SetPriority(k, c, t, p).0, {}, {t})
  {
    hide Kernel.Look, Sane, Placed, SetPriority;
    CallerReady(k, c);
    Seen(k, t);
    if t in k.tasks {
      SetPriorityStep(k, c, t, p);
    } else {
      NoSuchTask(k, c, t);
    }
  }

  lemma TickCalm(k: Kernel, c: CoreId, sliced: bool)
    ensures Calm(k, Tick(k, c, sliced), {})
  {
    hide Kernel.Look, Sane, Tick;
    TickStep(k, c, sliced);
  }

  /** A context switch drops nobody but tasks with a damaged stack. */
  lemma SwitchAlive(k: Kernel, c: CoreId, wakes: seq<(FutexId, bool)>, corrupt: set<TaskId>, started: bool)
    requires Placed(k) && PlainOnly(k, wakes)
    ensures Sane(k) && (c in k.current ==> Calls(k, c))
    ensures forall u :: k.Look(u).Some? && u !in corrupt ==> Switch(k, c, wakes, corrupt, started).0.Look(u).Some?
  {
    hide Kernel.Look, Sane, Placed, Round, Requeue;
    PlacedSane(k);
    if c in k.current {
      CallerReady(k, c);
    }
    var k0 := k.(pending := k.pending - {c});
    Unmoved(k, k0);
    SameLooks(k, k0);
    if c !in k.current {
      RoundAlive(k0, c, wakes, corrupt, started);
    } else if k.locked >= 0 {
      RequeuePlaced(k0, c);
      RequeueStep(k0, c);
      RoundAlive(Requeue(k0, c), c, wakes, corrupt, started);
    }
  }

  lemma RoundAlive(k: Kernel, c: CoreId, wakes: seq<(FutexId, bool)>, corrupt: set<TaskId>, started: bool)
    requires Placed(k) && PlainOnly(k, wakes)
    ensures Sane(k)
    ensures forall u :: k.Look(u).Some? && u !in corrupt ==> Round(k, c, wakes, corrupt, started).0.Look(u).Some?
  {
    hide Kernel.Look, Sane, Placed, WakeDeferred, ExpireAll, Dequeue, Dispatch, Evict, Bury;
    PlacedSane(k);
    WakeDeferredPlaced(k, wakes);
    WakeDeferredAlive(k, wakes);
    var k0 := WakeDeferred(k, wakes);
    ExpireAllPlaced(k0);
    ExpireAllStep(k0);
    var k1 := ExpireAll(k0);
    var i := Q.FirstIn(k1.Ready(), Eligible(k1, c));
    if i < |k1.Ready()| {
      var t := k1.Ready()[i];
      EvictPlaced(k1, t);
      BuryStep(k1, t);
      DispatchAlive(k1, c, t);
    }
  }

  lemma DispatchAlive(k: Kernel, c: CoreId, t: TaskId)
    requires Placed(k) && t in k.Ready()
    ensures Sane(k) && t in k.tasks
    ensures forall u :: k.Look(u).Some? ==> Dispatch(Dequeue(k, t), c, t).Look(u).Some?
  {
    hide Kernel.Look, Sane, Placed, Dequeue, Dispatch;
    PlacedSane(k);
    WaiterBlocked(k, Q.ReadyQueue, t);
    Seen(k, t);
    DispatchStep(k, c, t);
  }

  lemma {:induction false} WakeDeferredAlive(k: Kernel, wakes: seq<(FutexId, bool)>)
    requires Placed(k) && PlainOnly(k, wakes)
    ensures Sane(k)
    ensures forall u :: k.Look(u).Some? ==> WakeDeferred(k, wakes).Look(u).Some?
    decreases |wakes|
  {
    hide Kernel.Look, Sane, Placed, WakeLoop, WakeFutex, Woken;
    PlacedSane(k);
    if wakes != [] {
      var f, all := wakes[0].0, wakes[0].1;
      WakePlain(k, f, all);
      WakeLoopStep(k, f, all);
      WakeFutexPlaced(k, f, all);
      WakeDeferredAlive(WakeFutex(k, f, all), wakes[1..]);
    }
  }
}
