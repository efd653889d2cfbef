/**
 The scheduler as a state machine. Every region that runs between `scheduler_spin_lock` and
 `scheduler_spin_unlock` is one function on the kernel state, with the branches of its C body.
 */
module Kernel {
  import opened Types
  import opened Sequences
  import Q = TaskQueues
  import Tm = TaskTimers
  import Ow = OwnedFutexes

  datatype TaskState = Blocked | Suspended | Ready | Running

  /** `result` is `r0` of the saved frame, `daemon` is SCHEDULER_IGNORE_VIABLE. */
  datatype Task = Task(state: TaskState, core: nat, base: nat, result: int, affinity: Option<CoreId>, daemon: bool)

  /**
   The three combinations of futex flags that the toolkit creates: none (semaphores, event flags,
   condition variables), and owner plus contention tracking without or with priority inheritance.
   */
  datatype Kind = Plain | Mutex(inherits: bool)
  datatype Futex = Futex(kind: Kind, value: int)

  /** Live tasks are the keys of `tasks`; a core that runs nobody is not a key of `current`. */
  datatype Kernel = Kernel(
    cores: nat,
    queues: Q.Queues,
    timers: Tm.Timers,
    owned: Ow.Owned,
    tasks: map<TaskId, Task>,
    futexes: map<FutexId, Futex>,
    current: map<CoreId, TaskId>,
    ticks: map<CoreId, nat>,
    locked: int,
    pending: set<CoreId>)
  {
    function Waiters(f: FutexId): seq<TaskId> { queues.List(Q.WaitersOf(f)) }

    function Ready(): seq<TaskId> { queues.List(Q.ReadyQueue) }

    /** The tick count of core 0 is the reference for every timeout. */
    function Now(): nat { if 0 in ticks then ticks[0] else 0 }

    function Prio(t: TaskId): nat { if t in queues.entry then queues.entry[t].prio else 0 }

    function Link(t: TaskId): Option<Q.QueueId> { if t in queues.entry then queues.entry[t].link else None }

    /** When the timeout of `t` runs out, if one is running. */
    function Timer(t: TaskId): Option<nat> {
      if t in timers.list && t in timers.expires then Some(timers.expires[t]) else None
    }

    /** All that the kernel knows about one task. */
    function Look(t: TaskId): Option<Face> {
      if t in tasks then Some(Face(tasks[t], Prio(t), Link(t), Timer(t))) else None
    }
  }

  datatype Face = Face(task: Task, prio: nat, link: Option<Q.QueueId>, timer: Option<nat>)

  const NO_CORE: nat := UINT_MAX

  // ----- the word of a mutex futex: owner address plus contention flag in bit 0

  function OwnerOf(v: int): int { v - v % 2 }
  predicate Contended(v: int) { v % 2 == 1 }
  function SetContended(v: int): int { if v % 2 == 1 then v else v + 1 }

  ghost predicate Sane(k: Kernel) {
    && (forall t :: t in k.queues.entry <==> t in k.tasks)
    && Q.Good(k.queues)
    && Tm.Good(k.timers)
    && Ow.Good(k.owned)
    && (forall t :: t in k.timers.list ==> t in k.tasks)
  }

  // ----- the steps the service handlers are made of

  function RequestSwitch(k: Kernel, c: CoreId): Kernel {
    k.(pending := k.pending + {c})
  }

  function SetTask(k: Kernel, t: TaskId, d: Task): (r: Kernel)
    requires t in k.tasks
    ensures Sane(k) ==> Sane(r)
  {
    k.(tasks := k.tasks[t := d])
  }

  /** `sched_queue_remove`: off whatever queue it is on. */
  function Dequeue(k: Kernel, t: TaskId): (r: Kernel)
    requires Sane(k) && t in k.tasks
    ensures Sane(r)
  {
    Q.RemoveGood(k.queues, t);
    k.(queues := Q.Remove(k.queues, t))
  }

  function Enqueue(k: Kernel, id: Q.QueueId, t: TaskId): (r: Kernel)
    requires Sane(k) && t in k.tasks && k.Link(t).None?
    ensures Sane(r)
  {
    Q.PushGood(k.queues, id, t);
    k.(queues := Q.Push(k.queues, id, t))
  }

  function Reprioritize(k: Kernel, t: TaskId, p: nat): (r: Kernel)
    requires Sane(k) && t in k.tasks
    ensures Sane(r)
  {
    Q.ReprioritizeGood(k.queues, t, p);
    k.(queues := Q.Reprioritize(k.queues, t, p))
  }

  function StartTimer(k: Kernel, t: TaskId, delay: nat): (r: Kernel)
    requires Sane(k) && t in k.tasks
    ensures Sane(r)
  {
    k.(timers := Tm.Push(k.timers, t, k.Now(), delay))
  }

  function StopTimer(k: Kernel, t: TaskId): (r: Kernel)
    requires Sane(k)
    ensures Sane(r)
  {
    k.(timers := Tm.Remove(k.timers, t))
  }

  function MakeReady(k: Kernel, t: TaskId): (r: Kernel)
    requires Sane(k) && t in k.tasks && k.Link(t).None?
    ensures Sane(r) && r.timers == k.timers && forall f :: r.Waiters(f) == k.Waiters(f)
  {
    Enqueue(SetTask(k, t, k.tasks[t].(state := Ready)), Q.ReadyQueue, t)
  }

  /** Off its queue and its timer, `t` is ready again and its wait returns `result`. */
  function Rouse(k: Kernel, t: TaskId, result: int): (r: Kernel)
    requires Sane(k) && t in k.tasks
    ensures Sane(r)
  {
    var off := Dequeue(StopTimer(k, t), t);
    MakeReady(SetTask(off, t, off.tasks[t].(result := result)), t)
  }

  // ----- service calls, made by the task running on core `c`

  ghost predicate Calls(k: Kernel, c: CoreId) {
    Sane(k) && c in k.current && k.current[c] in k.tasks && k.Link(k.current[c]).None?
  }

  const ESRCH: int := 3
  const EINVAL: int := 22

  /** The caller leaves the core: its frame is saved with `r0` = 0 and the core must switch. */
  function Leave(k: Kernel, c: CoreId): (r: Kernel)
    requires Sane(k) && c in k.current && k.current[c] in k.tasks
    ensures Sane(r)
  {
    var cur := k.current[c];
    RequestSwitch(SetTask(k, cur, k.tasks[cur].(result := 0)).(current := k.current - {c}), c)
  }

  function Born(k: Kernel, t: TaskId, prio: nat, affinity: Option<CoreId>, daemon: bool): (r: Kernel)
    requires Sane(k) && t !in k.tasks
    ensures Sane(r)
  {
    Q.AdmitGood(k.queues, t, prio);
    k.(queues := Q.Admit(k.queues, t, prio),
       tasks := k.tasks[t := Task(Suspended, NO_CORE, prio, 0, affinity, daemon)])
  }

  function Create(k: Kernel, c: CoreId, t: TaskId, prio: nat, affinity: Option<CoreId>, daemon: bool,
                  suspended: bool): (r: Kernel)
    requires Calls(k, c) && t !in k.tasks
    ensures Sane(r)
  {
    var born := Born(k, t, prio, affinity, daemon);
    if suspended then born
    else if prio < k.Prio(k.current[c]) then RequestSwitch(MakeReady(born, t), c)
    else MakeReady(born, t)
  }

  /** Park another task, wherever it was; the caller competes for the core again. */
  function ParkOther(k: Kernel, c: CoreId, t: TaskId): (r: Kernel)
    requires Calls(k, c) && t in k.tasks && t != k.current[c]
    ensures Sane(r)
  {
    var off := StopTimer(Dequeue(k, t), t);
    MakeReady(SetTask(off, t, off.tasks[t].(state := Suspended, core := NO_CORE)), k.current[c])
  }

  function Park(k: Kernel, c: CoreId): (r: Kernel)
    requires Calls(k, c)
    ensures Sane(r)
  {
    SetTask(k, k.current[c], k.tasks[k.current[c]].(state := Suspended, core := NO_CORE))
  }

  function Suspend(k: Kernel, c: CoreId, t: TaskId, delay: nat): (r: (Kernel, int))
    requires Calls(k, c)
    ensures Sane(r.0)
  {
    if t !in k.tasks then (k, -ESRCH)
    else
      var parked := if t != k.current[c] then ParkOther(k, c, t) else Park(k, c);
      (Leave(if delay < WAIT_FOREVER then StartTimer(parked, t, delay) else parked, c), 0)
  }

  function Resume(k: Kernel, c: CoreId, t: TaskId): (r: (Kernel, int))
    requires Calls(k, c)
    ensures Sane(r.0)
  {
    if t !in k.tasks then (k, -ESRCH)
    else if k.tasks[t].state.Blocked? || k.tasks[t].state.Suspended? then
      (RequestSwitch(Rouse(k, t, if k.tasks[t].state.Blocked? then -ECANCELED else k.tasks[t].result), c), 0)
    else (RequestSwitch(k, c), -EINVAL)
  }

  /** The word that a waiter who saw `expected` leaves in the futex. */
  function WaitValue(kind: Kind, expected: int): int {
    if kind.Mutex? then SetContended(expected) else expected
  }

  /** The compare-and-swap of the wait call, with its second clause. */
  predicate ShouldBlock(x: Futex, expected: int) {
    x.value == expected || x.value == WaitValue(x.kind, expected)
  }

  /** A priority-inheritance futex names its owner, which must be a live task. */
  predicate OwnerLive(k: Kernel, v: int) {
    OwnerOf(v) > 0 && OwnerOf(v) in k.tasks
  }

  function Block(k: Kernel, c: CoreId, f: FutexId, delay: nat): (r: Kernel)
    requires Calls(k, c)
    ensures Sane(r) && r.futexes == k.futexes
  {
    var cur := k.current[c];
    var timed := if delay < WAIT_FOREVER then StartTimer(k, cur, delay) else k;
    Enqueue(SetTask(timed, cur, k.tasks[cur].(state := Blocked, core := NO_CORE)), Q.WaitersOf(f), cur)
  }

  /** A contended futex with priority inheritance is linked to its owner, once. */
  function LinkToOwner(k: Kernel, f: FutexId, owner: TaskId): (r: Kernel)
    requires Sane(k)
    ensures Sane(r) && r.queues == k.queues && r.tasks == k.tasks
  {
    if f in k.owned.link then k
    else
      Ow.AddGood(k.owned, owner, f);
      k.(owned := Ow.Add(k.owned, owner, f))
  }

  function Boost(k: Kernel, t: TaskId, p: nat): (r: Kernel)
    requires Sane(k) && t in k.tasks
    ensures Sane(r) && r == k.(queues := r.queues)
  {
    if p < k.Prio(t) then Reprioritize(k, t, p) else k
  }

  /** Priority inheritance of a new waiter: link the futex to its owner and boost the owner. */
  function Inherit(k: Kernel, f: FutexId, owner: TaskId): (r: Kernel)
    requires Sane(k) && owner in k.tasks
    ensures Sane(r) && r.tasks == k.tasks && r.current == k.current
  {
    var k1 := LinkToOwner(k, f, owner);
    Boost(k1, owner, Q.HighestPriority(k1.queues, Q.WaitersOf(f)))
  }

  function SetWord(k: Kernel, f: FutexId, v: int): (r: Kernel)
    requires f in k.futexes
    ensures Sane(k) ==> Sane(r)
  {
    k.(futexes := k.futexes[f := k.futexes[f].(value := v)])
  }

  function JoinWaiters(k: Kernel, c: CoreId, f: FutexId, expected: int, delay: nat): (r: Kernel)
    requires Calls(k, c) && f in k.futexes
    requires k.futexes[f].kind == Mutex(true) ==> OwnerLive(k, k.futexes[f].value)
    ensures Sane(r) && r.current == k.current && k.current[c] in r.tasks
  {
    var x := k.futexes[f];
    var blocked := SetWord(Block(k, c, f, delay), f, WaitValue(x.kind, expected));
    if x.kind == Mutex(true) then Inherit(blocked, f, OwnerOf(x.value)) else blocked
  }

  function Wait(k: Kernel, c: CoreId, f: FutexId, expected: int, delay: nat): (r: Kernel)
    requires Calls(k, c) && f in k.futexes
    requires k.futexes[f].kind == Mutex(true) && ShouldBlock(k.futexes[f], expected) ==> OwnerLive(k, k.futexes[f].value)
    ensures Sane(r)
  {
    if ShouldBlock(k.futexes[f], expected) then Leave(JoinWaiters(k, c, f, expected, delay), c)
    else
      Leave(MakeReady(k, k.current[c]), c)
  }

  /** Most urgent of `best` and the head waiters of `fs`. */
  function MostUrgent(q: Q.Queues, fs: seq<FutexId>, best: nat): nat
    requires Q.Linked(q)
  {
    if fs == [] then best
    else
      var highest := Q.HighestPriority(q, Q.WaitersOf(fs[0]));
      MostUrgent(q, fs[1..], if highest < best then highest else best)
  }

  /** Before a wake, the owner gives back what this futex lent it. */
  function Deboost(k: Kernel, f: FutexId, owner: TaskId): (r: Kernel)
    requires Sane(k) && owner in k.tasks
    ensures Sane(r) && f !in r.owned.link
  {
    Ow.UnlinkGood(k.owned, f);
    var k1 := k.(owned := Ow.Unlink(k.owned, f));
    Reprioritize(k1, owner, MostUrgent(k1.queues, k1.owned.List(owner), k1.tasks[owner].base))
  }

  lemma HeadWaiter(k: Kernel, f: FutexId)
    requires Sane(k) && k.Waiters(f) != []
    ensures var t := k.Waiters(f)[0];
            && t in k.tasks
            && var r := Dequeue(k, t);
               r == k.(queues := r.queues) && t in r.queues.entry && r.Link(t).None? && r.Waiters(f) == k.Waiters(f)[1..]
  {
    hide Tm.Good, Ow.Good, Q.Sorted;
    var t := k.Waiters(f)[0];
    assert Q.ListLinked(k.queues.entry, Q.WaitersOf(f), k.Waiters(f));
    assert Without(k.Waiters(f), t) == k.Waiters(f)[1..];
  }

  /** Take the head waiter off the queue of `f`; a mutex is handed to it. */
  function HandOver(k: Kernel, f: FutexId): (r: Kernel)
    requires Sane(k) && f in k.futexes && k.Waiters(f) != []
    ensures k.Waiters(f)[0] in k.tasks && Sane(r) && k.Waiters(f)[0] in r.queues.entry && r.Link(k.Waiters(f)[0]).None?
    ensures r.Waiters(f) == k.Waiters(f)[1..] && r.owned == k.owned && r.tasks == k.tasks && r.current == k.current
    ensures f in r.futexes && r.futexes[f].kind == k.futexes[f].kind
  {
    HeadWaiter(k, f);
    var t := k.Waiters(f)[0];
    var off := Dequeue(k, t);
    if k.futexes[f].kind.Mutex? then off.(futexes := k.futexes[f := k.futexes[f].(value := t)]) else off
  }

  /** The new owner runs at the priority of the first of the remaining waiters, if there are any. */
  function Lend(k: Kernel, f: FutexId, t: TaskId): (r: Kernel)
    requires Sane(k) && t in k.tasks && k.Link(t).None? && f in k.futexes
    requires k.futexes[f].kind == Mutex(true) ==> f !in k.owned.link
    ensures Sane(r) && r.tasks == k.tasks && r.current == k.current && r.futexes == k.futexes
    ensures t in r.queues.entry && r.Link(t).None? && r.queues.lists == k.queues.lists
  {
    if k.futexes[f].kind == Mutex(true) && k.Waiters(f) != [] then
      Ow.AddGood(k.owned, t, f);
      var k1 := k.(owned := Ow.Add(k.owned, t, f));
      Reprioritize(k1, t, Q.HighestPriority(k1.queues, Q.WaitersOf(f)))
    else k
  }

  /** Wake the head waiter of `f`. */
  function WakeOne(k: Kernel, f: FutexId): (r: Kernel)
    requires Sane(k) && f in k.futexes && k.Waiters(f) != []
    requires k.futexes[f].kind == Mutex(true) ==> f !in k.owned.link
    ensures Sane(r) && f in r.futexes
    ensures r.futexes[f].kind == k.futexes[f].kind && r.Waiters(f) == k.Waiters(f)[1..]
  {
    var t := k.Waiters(f)[0];
    MakeReady(StopTimer(Lend(HandOver(k, f), f, t), t), t)
  }

  function WakeLoop(k: Kernel, f: FutexId, all: bool): (r: Kernel)
    requires Sane(k) && f in k.futexes
    requires k.futexes[f].kind == Mutex(true) ==> f !in k.owned.link
    ensures Sane(r) && f in r.futexes
    decreases |k.Waiters(f)|
  {
    if k.Waiters(f) == [] then k
    else
      var k1 := WakeOne(k, f);
      if !all || k.futexes[f].kind.Mutex? then k1 else WakeLoop(k1, f, all)
  }

  /** How many tasks a wake readies: everybody only for `all`, and never more than one for a mutex. */
  function WokenBy(k: Kernel, f: FutexId, all: bool): nat
    requires f in k.futexes
  {
    if k.Waiters(f) == [] then 0 else if all && k.futexes[f].kind.Plain? then |k.Waiters(f)| else 1
  }

  /** The contention flag says whether somebody still waits. */
  function TrackContention(k: Kernel, f: FutexId): (r: Kernel)
    requires f in k.futexes
    ensures Sane(k) ==> Sane(r)
  {
    var x := k.futexes[f];
    if x.kind.Plain? then k
    else k.(futexes := k.futexes[f := x.(value := if k.Waiters(f) == [] then OwnerOf(x.value) else SetContended(x.value))])
  }

  function WakeWaiters(k: Kernel, f: FutexId, all: bool): (r: Kernel)
    requires Sane(k) && f in k.futexes
    requires k.futexes[f].kind == Mutex(true) ==> f !in k.owned.link
    ensures Sane(r)
  {
    TrackContention(WakeLoop(k, f, all), f)
  }

  /** The owner of a futex with priority inheritance gives back what it was lent, before the wake proper. */
  function Lowered(k: Kernel, f: FutexId): (r: Kernel)
    requires Sane(k) && f in k.futexes
    requires k.futexes[f].kind == Mutex(true) ==> OwnerLive(k, k.futexes[f].value)
    ensures Sane(r) && r.futexes == k.futexes && (k.futexes[f].kind == Mutex(true) ==> f !in r.owned.link)
  {
    if k.futexes[f].kind == Mutex(true) then Deboost(k, f, OwnerOf(k.futexes[f].value)) else k
  }

  /** `scheduler_wake_futex`. */
  function WakeFutex(k: Kernel, f: FutexId, all: bool): (r: Kernel)
    requires Sane(k) && f in k.futexes
    requires k.futexes[f].kind == Mutex(true) ==> OwnerLive(k, k.futexes[f].value)
    ensures Sane(r)
  {
    WakeWaiters(Lowered(k, f), f, all)
  }

  function Wake(k: Kernel, c: CoreId, f: FutexId, all: bool): (r: (Kernel, int))
    requires Calls(k, c) && f in k.futexes
    requires k.futexes[f].kind == Mutex(true) ==> OwnerLive(k, k.futexes[f].value)
    ensures Sane(r.0)
  {
    var woken := WokenBy(k, f, all);
    var k1 := WakeFutex(k, f, all);
    (if woken > 0 then RequestSwitch(k1, c) else k1, woken)
  }

  /** Unlink a task from everything but the lists of what it owns. */
  function Bury(k: Kernel, t: TaskId): (r: Kernel)
    requires Sane(k) && t in k.tasks
    ensures Sane(r)
  {
    Q.RemoveGood(k.queues, t);
    Q.ForgetGood(Q.Remove(k.queues, t), t);
    k.(queues := Q.Forget(Q.Remove(k.queues, t), t), timers := Tm.Remove(k.timers, t), tasks := k.tasks - {t})
  }

  function Terminate(k: Kernel, c: CoreId, t: TaskId): (r: (Kernel, int))
    requires Calls(k, c)
    ensures Sane(r.0)
  {
    if t !in k.tasks then (k, -ESRCH)
    else if t == k.current[c] then (RequestSwitch(Bury(k, t).(current := k.current - {c}), c), 0)
    else (Bury(k, t), 0)
  }

  function SetPriority(k: Kernel, c: CoreId, t: TaskId, p: nat): (r: (Kernel, int))
    requires Calls(k, c)
    ensures Sane(r.0)
  {
    if t !in k.tasks then (k, -ESRCH)
    else (RequestSwitch(Reprioritize(SetTask(k, t, k.tasks[t].(base := p)), t, p), c), 0)
  }

  // ----- the tick and the context switch

  /** The tick interrupt of core `c`; `sliced` when the time slice runs out with it. */
  function Tick(k: Kernel, c: CoreId, sliced: bool): (r: Kernel)
    ensures Sane(k) ==> Sane(r)
  {
    var k1 := k.(ticks := k.ticks[c := ((if c in k.ticks then k.ticks[c] else 0) + 1) % WORD]);
    if k.timers.cached <= k1.Now() || sliced then RequestSwitch(k1, c) else k1
  }

  /** Interrupt handlers may wake only futexes without tracking. */
  predicate PlainOnly(k: Kernel, wakes: seq<(FutexId, bool)>) {
    forall i :: 0 <= i < |wakes| ==> wakes[i].0 in k.futexes && k.futexes[wakes[i].0].kind.Plain?
  }

  /** The wakes found in the deferred slots, in slot order. */
  function WakeDeferred(k: Kernel, wakes: seq<(FutexId, bool)>): (r: Kernel)
    requires Sane(k) && PlainOnly(k, wakes)
    ensures Sane(r) && r.futexes == k.futexes
    decreases |wakes|
  {
    if wakes == [] then k
    else
      WakePlain(k, wakes[0].0, wakes[0].1);
      WakeDeferred(WakeFutex(k, wakes[0].0, wakes[0].1), wakes[1..])
  }

  lemma WakePlain(k: Kernel, f: FutexId, all: bool)
    requires Sane(k) && f in k.futexes && k.futexes[f].kind.Plain?
    ensures WakeLoop(k, f, all).futexes == k.futexes
    ensures WakeFutex(k, f, all) == WakeLoop(k, f, all)
    decreases |k.Waiters(f)|
  {
    if k.Waiters(f) != [] {
      WakePlain(WakeOne(k, f), f, all);
    }
  }

  /** The head timer has expired: its task becomes ready with a timeout result. */
  function ExpireOne(k: Kernel): (r: Kernel)
    requires Sane(k) && Tm.HeadDue(k.timers, k.Now())
    ensures Sane(r) && r.timers.list == k.timers.list[1..] && r.Now() == k.Now()
  {
    var t := k.timers.list[0];
    assert t in k.timers.list;
    assert Without(k.timers.list, t) == k.timers.list[1..];
    Rouse(k, t, -ETIMEDOUT)
  }

  function ExpireAll(k: Kernel): (r: Kernel)
    requires Sane(k)
    ensures Sane(r) && r.Now() == k.Now()
    ensures !Tm.HeadDue(r.timers, r.Now())
    decreases |k.timers.list|
  {
    if Tm.HeadDue(k.timers, k.Now()) then ExpireAll(ExpireOne(k)) else k
  }

  function Eligible(k: Kernel, c: CoreId): set<TaskId> {
    set t | t in k.tasks && (k.tasks[t].affinity.None? || k.tasks[t].affinity == Some(c))
  }

  /** Is the first ready task that core `o` could run strictly more urgent than the task it runs? */
  predicate Outranked(k: Kernel, o: CoreId)
    requires Sane(k)
  {
    assert Q.ListLinked(k.queues.entry, Q.ReadyQueue, k.Ready());
    var i := Q.FirstIn(k.Ready(), Eligible(k, o));
    i < |k.Ready()| && o in k.current && k.current[o] in k.tasks && k.Prio(k.Ready()[i]) < k.Prio(k.current[o])
  }

  /** Run `t` on core `c` and kick the cores that should now switch. */
  function Dispatch(k: Kernel, c: CoreId, t: TaskId): (r: Kernel)
    requires Sane(k) && t in k.tasks
    ensures Sane(r)
  {
    var k1 := SetTask(k, t, k.tasks[t].(state := Running, core := c)).(current := k.current[c := t]);
    k1.(pending := k1.pending + set o | o in k1.current && o != c && Outranked(k1, o))
  }

  /** Drop a ready task whose stack is damaged; the cached deadline is left alone. */
  function Evict(k: Kernel, t: TaskId): (r: Kernel)
    requires Sane(k) && t in k.tasks
    ensures t !in k.timers.list ==> Sane(r)
  {
    Q.RemoveGood(k.queues, t);
    Q.ForgetGood(Q.Remove(k.queues, t), t);
    k.(queues := Q.Forget(Q.Remove(k.queues, t), t),
       timers := k.timers.(list := Without(k.timers.list, t)),
       tasks := k.tasks - {t})
  }

  predicate Viable(k: Kernel) {
    exists t :: t in k.tasks && !k.tasks[t].daemon
  }

  datatype Outcome = Kept | Dispatched(task: TaskId) | Idling | Exited

  /**
   One pass of the loop in `scheduler_switch`, up to the point where the lock is released: a task is
   dispatched, or the core idles and makes another pass later, or it leaves the scheduler.
   `corrupt` are the tasks whose stack marker is damaged; `started` says that this core can return
   to the caller of `scheduler_run`.
   */
  function Round(k: Kernel, c: CoreId, wakes: seq<(FutexId, bool)>, corrupt: set<TaskId>, started: bool)
    : (r: (Kernel, Outcome))
    requires Sane(k) && PlainOnly(k, wakes)
  {
    var k1 := ExpireAll(WakeDeferred(k, wakes));
    assert Q.ListLinked(k1.queues.entry, Q.ReadyQueue, k1.Ready());
    var i := Q.FirstIn(k1.Ready(), Eligible(k1, c));
    if i < |k1.Ready()| && k1.Ready()[i] !in corrupt then
      var t := k1.Ready()[i];
      (Dispatch(Dequeue(k1, t), c, t), Dispatched(t))
    else
      var k2 := if i < |k1.Ready()| then Evict(k1, k1.Ready()[i]) else k1;
      (k2, if !Viable(k2) && started then Exited else Idling)
  }

  /**
   `scheduler_switch` on core `c`. While the scheduler is locked a running task keeps its core;
   otherwise it competes for the core with everybody else.
   */
  function Switch(k: Kernel, c: CoreId, wakes: seq<(FutexId, bool)>, corrupt: set<TaskId>, started: bool)
    : (r: (Kernel, Outcome))
    requires Sane(k) && PlainOnly(k, wakes)
    requires c in k.current ==> Calls(k, c)
  {
    var k0 := k.(pending := k.pending - {c});
    if c !in k.current then Round(k0, c, wakes, corrupt, started)
    else if k.locked < 0 then (k0, Kept)
    else Round(Requeue(k0, c), c, wakes, corrupt, started)
  }

  /** The running task goes to the end of its priority class. */
  function Requeue(k: Kernel, c: CoreId): (r: Kernel)
    requires Calls(k, c)
    ensures Sane(r) && r.futexes == k.futexes
  {
    var t := k.current[c];
    MakeReady(SetTask(k, t, k.tasks[t].(core := NO_CORE)), t).(current := k.current - {c})
  }
}
