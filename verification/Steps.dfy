/** What each kernel step changes: the faces of the tasks it is about, and which parts of the record. */
module Steps {
  import opened Types
  import opened Sequences
  import opened Kernel
  import Q = TaskQueues
  import Tm = TaskTimers
  import Ow = OwnedFutexes

  /** A face that has become ready, and one whose pending call returns `result`. */
  function Readied(w: Face): Face { w.(task := w.task.(state := Ready), link := Some(Q.ReadyQueue)) }

  function Returning(w: Face, result: int): Face { w.(task := w.task.(result := result)) }

  function Parked(w: Face, timer: Option<nat>): Face {
    w.(task := w.task.(state := Suspended, core := NO_CORE), link := None, timer := timer)
  }

  lemma Seen(k: Kernel, t: TaskId)
    ensures k.Look(t) == if t in k.tasks then Some(Face(k.tasks[t], k.Prio(t), k.Link(t), k.Timer(t))) else None
  {}

  lemma Parts(k: Kernel)
    requires Sane(k)
    ensures Q.Good(k.queues) && Q.Linked(k.queues) && Tm.Good(k.timers) && Ow.Good(k.owned)
  {}

  /** Queue `id` holds exactly the tasks linked to it. */
  lemma OnQueue(k: Kernel, id: Q.QueueId, t: TaskId)
    requires Sane(k)
    ensures t in k.queues.List(id) <==> k.Look(t).Some? && k.Look(t).value.link == Some(id)
  {
    hide Tm.Good, Ow.Good, Q.Sorted;
    assert Q.ListLinked(k.queues.entry, id, k.queues.List(id));
    if t in k.queues.List(id) {
      var i :| 0 <= i < |k.queues.List(id)| && k.queues.List(id)[i] == t;
    }
  }

  lemma PendingStep(k: Kernel, c: CoreId)
    ensures var r := RequestSwitch(k, c); r == k.(pending := k.pending + {c}) && forall u :: r.Look(u) == k.Look(u)
  {}

  lemma SetTaskStep(k: Kernel, t: TaskId, d: Task)
    requires t in k.tasks
    ensures var r := SetTask(k, t, d);
            && r == k.(tasks := r.tasks)
            && forall u :: r.Look(u) == if u == t then Some(k.Look(t).value.(task := d)) else k.Look(u)
  {
    hide Sane;
  }

  lemma DequeueStep(k: Kernel, t: TaskId)
    requires Sane(k) && t in k.tasks
    ensures var r := Dequeue(k, t);
            && r == k.(queues := r.queues)
            && forall u :: r.Look(u) == if u == t then Some(k.Look(t).value.(link := None)) else k.Look(u)
  {
    hide Q.Good, Tm.Good, Ow.Good, Without;
  }

  lemma EnqueueStep(k: Kernel, id: Q.QueueId, t: TaskId)
    requires Sane(k) && t in k.tasks && k.Link(t).None?
    ensures var r := Enqueue(k, id, t);
            && r == k.(queues := r.queues)
            && forall u :: r.Look(u) == if u == t then Some(k.Look(t).value.(link := Some(id))) else k.Look(u)
  {
    hide Q.Good, Tm.Good, Ow.Good, InsertAt, Q.Slot;
  }

  lemma ReprioritizeStep(k: Kernel, t: TaskId, p: nat)
    requires Sane(k) && t in k.tasks
    ensures var r := Reprioritize(k, t, p);
            && r == k.(queues := r.queues)
            && forall u :: r.Look(u) == if u == t then Some(k.Look(t).value.(prio := p)) else k.Look(u)
  {
    hide Kernel.Timer, Q.Good, Tm.Good, Ow.Good, Without, InsertAt, Q.Slot;
    SameTimers(k, Reprioritize(k, t, p));
  }

  lemma SameTimers(k: Kernel, k': Kernel)
    requires k'.timers == k.timers
    ensures forall u :: k'.Timer(u) == k.Timer(u)
  {}

  lemma StartTimerStep(k: Kernel, t: TaskId, delay: nat)
    requires Sane(k) && t in k.tasks
    ensures var r := StartTimer(k, t, delay);
            && r == k.(timers := r.timers)
            && forall u :: r.Look(u) == if u == t then Some(k.Look(t).value.(timer := Some(Tm.Deadline(k.Now(), delay)))) else k.Look(u)
  {
    hide Q.Good, Ow.Good, Without, InsertAt, FirstLater;
  }

  lemma StopTimerStep(k: Kernel, t: TaskId)
    requires Sane(k) && t in k.tasks
    ensures var r := StopTimer(k, t);
            && r == k.(timers := r.timers)
            && forall u :: r.Look(u) == if u == t then Some(k.Look(t).value.(timer := None)) else k.Look(u)
  {
    hide Q.Good, Ow.Good, Without;
  }

  lemma MakeReadyStep(k: Kernel, t: TaskId)
    requires Sane(k) && t in k.tasks && k.Link(t).None?
    ensures var r := MakeReady(k, t);
            && r == k.(queues := r.queues, tasks := r.tasks)
            && forall u :: r.Look(u) == if u == t then Some(Readied(k.Look(t).value)) else k.Look(u)
  {
    hide Kernel.Look, Sane, SetTask, Enqueue;
    Seen(k, t);
    var d := k.tasks[t].(state := Ready);
    var k1 := SetTask(k, t, d);
    SetTaskStep(k, t, d);
    Seen(k1, t);
    EnqueueStep(k1, Q.ReadyQueue, t);
  }

  lemma RouseStep(k: Kernel, t: TaskId, result: int)
    requires Sane(k) && t in k.tasks
    ensures var r := Rouse(k, t, result);
            && r == k.(queues := r.queues, timers := r.timers, tasks := r.tasks)
            && forall u :: r.Look(u) ==
                 if u == t then Some(Returning(Readied(k.Look(t).value), result).(timer := None)) else k.Look(u)
  {
    hide Kernel.Look, Sane, StopTimer, Dequeue, SetTask, MakeReady;
    Seen(k, t);
    var k1 := StopTimer(k, t);
    StopTimerStep(k, t);
    var off := Dequeue(k1, t);
    DequeueStep(k1, t);
    var d := off.tasks[t].(result := result);
    var k2 := SetTask(off, t, d);
    SetTaskStep(off, t, d);
    Seen(k2, t);
    MakeReadyStep(k2, t);
  }

  lemma LeaveStep(k: Kernel, c: CoreId)
    requires Sane(k) && c in k.current && k.current[c] in k.tasks
    ensures var r := Leave(k, c); var cur := k.current[c];
            && r == k.(tasks := r.tasks, current := k.current - {c}, pending := k.pending + {c})
            && forall u :: r.Look(u) == if u == cur then Some(Returning(k.Look(cur).value, 0)) else k.Look(u)
  {
    hide Sane;
  }

  lemma BornStep(k: Kernel, t: TaskId, prio: nat, affinity: Option<CoreId>, daemon: bool)
    requires Sane(k) && t !in k.tasks
    ensures var r := Born(k, t, prio, affinity, daemon);
            && r == k.(queues := r.queues, tasks := r.tasks)
            && forall u :: r.Look(u) ==
                 if u == t then Some(Face(Task(Suspended, NO_CORE, prio, 0, affinity, daemon), prio, None, None)) else k.Look(u)
  {
    hide Q.Good, Tm.Good, Ow.Good;
  }

  lemma CreateStep(k: Kernel, c: CoreId, t: TaskId, prio: nat, affinity: Option<CoreId>, daemon: bool, suspended: bool)
    requires Calls(k, c) && t !in k.tasks
    ensures var r := Create(k, c, t, prio, affinity, daemon, suspended);
            var w := Face(Task(Suspended, NO_CORE, prio, 0, affinity, daemon), prio, None, None);
            && r == k.(queues := r.queues, tasks := r.tasks, pending := r.pending)
            && forall u :: r.Look(u) == if u != t then k.Look(u) else Some(if suspended then w else Readied(w))
  {
    hide Kernel.Look, Sane, Born, MakeReady, RequestSwitch;
    BornStep(k, t, prio, affinity, daemon);
    var born := Born(k, t, prio, affinity, daemon);
    if !suspended {
      Seen(born, t);
      MakeReadyStep(born, t);
      PendingStep(MakeReady(born, t), c);
    }
  }

  lemma ParkOtherStep(k: Kernel, c: CoreId, t: TaskId)
    requires Calls(k, c) && t in k.tasks && t != k.current[c]
    ensures var r := ParkOther(k, c, t); var cur := k.current[c];
            && r == k.(queues := r.queues, timers := r.timers, tasks := r.tasks)
            && forall u :: r.Look(u) ==
                 if u == t then Some(Parked(k.Look(t).value, None))
                 else if u == cur then Some(Readied(k.Look(cur).value)) else k.Look(u)
  {
    hide Kernel.Look, Sane, StopTimer, Dequeue, SetTask, MakeReady;
    Seen(k, t);
    DequeueStep(k, t);
    var k1 := Dequeue(k, t);
    StopTimerStep(k1, t);
    var off := StopTimer(k1, t);
    var d := off.tasks[t].(state := Suspended, core := NO_CORE);
    SetTaskStep(off, t, d);
    var parked := SetTask(off, t, d);
    Seen(k, k.current[c]);
    Seen(parked, k.current[c]);
    MakeReadyStep(parked, k.current[c]);
  }

  /** The timer of a task that starts to wait with timeout `delay`. */
  function Armed(k: Kernel, delay: nat, before: Option<nat>): Option<nat> {
    if delay < WAIT_FOREVER then Some(Tm.Deadline(k.Now(), delay)) else before
  }

  /** `t`, just parked, gets its timeout; the caller `cur` leaves the core. */
  function SuspendLook(k: Kernel, cur: TaskId, t: TaskId, delay: nat, u: TaskId): Option<Face> {
    if k.Look(u).None? then None
    else
      var w := k.Look(u).value;
      if u == cur == t then Some(Returning(Parked(w, Armed(k, delay, w.timer)), 0))
      else if u == t then Some(Parked(w, Armed(k, delay, None)))
      else if u == cur then Some(Returning(Readied(w), 0))
      else Some(w)
  }

  lemma SuspendStep(k: Kernel, c: CoreId, t: TaskId, delay: nat)
    requires Calls(k, c) && t in k.tasks
    ensures var r := Suspend(k, c, t, delay).0;
            && r == k.(queues := r.queues, timers := r.timers, tasks := r.tasks,
                       current := k.current - {c}, pending := k.pending + {c})
            && forall u :: r.Look(u) == SuspendLook(k, k.current[c], t, delay, u)
  {
    hide Kernel.Look, Sane, ParkOther, SetTask, StartTimer, Leave;
    Seen(k, t);
    Seen(k, k.current[c]);
    if t != k.current[c] {
      ParkOtherStep(k, c, t);
      LeaveParked(k, ParkOther(k, c, t), c, t, delay);
    } else {
      SetTaskStep(k, t, k.tasks[t].(state := Suspended, core := NO_CORE));
      LeaveParked(k, Park(k, c), c, t, delay);
    }
  }

  lemma LeaveParked(k: Kernel, parked: Kernel, c: CoreId, t: TaskId, delay: nat)
    requires Calls(k, c) && Sane(parked) && parked.current == k.current && parked.ticks == k.ticks
    requires parked.Look(t).Some? && parked.Look(k.current[c]).Some?
    ensures t in parked.tasks && k.current[c] in parked.tasks
    ensures var r := Leave(if delay < WAIT_FOREVER then StartTimer(parked, t, delay) else parked, c); var cur := k.current[c];
            && r == parked.(timers := r.timers, tasks := r.tasks, current := k.current - {c}, pending := parked.pending + {c})
            && forall u :: r.Look(u) ==
                 if u == t || u == cur then
                   var w := parked.Look(u).value;
                   var timed := if u == t then w.(timer := Armed(k, delay, w.timer)) else w;
                   Some(if u == cur then Returning(timed, 0) else timed)
                 else parked.Look(u)
  {
    hide Kernel.Look, Sane, StartTimer, Leave;
    Seen(parked, t);
    Seen(parked, k.current[c]);
    var k2 := if delay < WAIT_FOREVER then StartTimer(parked, t, delay) else parked;
    if delay < WAIT_FOREVER {
      StartTimerStep(parked, t, delay);
    }
    Seen(k2, k.current[c]);
    LeaveStep(k2, c);
  }

  /** How the tasks look once the caller has joined the queue of `f`. */
  function BlockLook(k: Kernel, c: CoreId, f: FutexId, delay: nat, u: TaskId): Option<Face>
    requires Calls(k, c)
  {
    if u != k.current[c] || k.Look(u).None? then k.Look(u)
    else
      var w := k.Look(u).value;
      Some(Face(w.task.(state := Blocked, core := NO_CORE), w.prio, Some(Q.WaitersOf(f)),
                Armed(k, delay, w.timer)))
  }

  lemma BlockStep(k: Kernel, c: CoreId, f: FutexId, delay: nat)
    requires Calls(k, c)
    ensures var r := Block(k, c, f, delay);
            && r == k.(queues := r.queues, timers := r.timers, tasks := r.tasks)
            && forall u :: r.Look(u) == BlockLook(k, c, f, delay, u)
  {
    hide Kernel.Look, Sane, StartTimer, SetTask, Enqueue;
    var cur := k.current[c];
    Seen(k, cur);
    var timed := if delay < WAIT_FOREVER then StartTimer(k, cur, delay) else k;
    if delay < WAIT_FOREVER {
      StartTimerStep(k, cur, delay);
    }
    var d := k.tasks[cur].(state := Blocked, core := NO_CORE);
    var k1 := SetTask(timed, cur, d);
    SetTaskStep(timed, cur, d);
    Seen(k1, cur);
    EnqueueStep(k1, Q.WaitersOf(f), cur);
  }

  /** The head of a queue is at least as urgent as everybody on it. */
  lemma HighestIsLowest(q: Q.Queues, id: Q.QueueId, t: TaskId)
    requires Q.Good(q) && t in q.List(id)
    ensures t in q.entry && Q.HighestPriority(q, id) <= q.entry[t].prio
  {
    assert Q.ListLinked(q.entry, id, q.List(id)) && Q.ListSorted(q.entry, q.List(id));
    var i :| 0 <= i < |q.List(id)| && q.List(id)[i] == t;
    if i > 0 { assert Q.Before(q.entry, q.List(id)[0], q.List(id)[i]); }
  }

  /** Inherited priorities only ever make a task more urgent. */
  function Boosted(w: Face, p: nat): Face {
    if p < w.prio then w.(prio := p) else w
  }

  lemma LinkToOwnerStep(k: Kernel, f: FutexId, owner: TaskId)
    requires Sane(k)
    ensures var r := LinkToOwner(k, f, owner);
            && r == k.(owned := if f in k.owned.link then k.owned else Ow.Add(k.owned, owner, f))
            && forall u :: r.Look(u) == k.Look(u)
  {
    hide Sane, Ow.Add;
  }

  lemma InheritStep(k: Kernel, f: FutexId, owner: TaskId)
    requires Sane(k) && owner in k.tasks
    ensures var r := Inherit(k, f, owner); var p := Q.HighestPriority(k.queues, Q.WaitersOf(f));
            && r == k.(queues := r.queues, owned := if f in k.owned.link then k.owned else Ow.Add(k.owned, owner, f))
            && forall u :: r.Look(u) == if u == owner then Some(Boosted(k.Look(u).value, p)) else k.Look(u)
  {
    hide Kernel.Look, LinkToOwner, Sane, Boost, Ow.Add, Q.HighestPriority, Q.Linked;
    LinkToOwnerStep(k, f, owner);
    var k1 := LinkToOwner(k, f, owner);
    Seen(k1, owner);
    Parts(k1);
    BoostStep(k1, owner, Q.HighestPriority(k1.queues, Q.WaitersOf(f)));
  }

  lemma BoostStep(k: Kernel, t: TaskId, p: nat)
    requires Sane(k) && t in k.tasks
    ensures var r := Boost(k, t, p);
            && r == k.(queues := r.queues)
            && forall u :: r.Look(u) == if u == t then Some(Boosted(k.Look(u).value, p)) else k.Look(u)
  {
    hide Kernel.Look, Sane, Reprioritize;
    Seen(k, t);
    if p < k.Prio(t) {
      ReprioritizeStep(k, t, p);
    }
  }

  /** Somebody has just blocked on `f`: the priority its owner is lent. */
  function Lent(k: Kernel, c: CoreId, f: FutexId, delay: nat): nat
    requires Calls(k, c)
  {
    Q.HighestPriority(Block(k, c, f, delay).queues, Q.WaitersOf(f))
  }

  /** ... and once the owner of `f` has inherited the priority of the most urgent waiter. */
  function JoinLook(k: Kernel, c: CoreId, f: FutexId, delay: nat, u: TaskId): Option<Face>
    requires Calls(k, c) && f in k.futexes
  {
    var w := BlockLook(k, c, f, delay, u);
    var p := Lent(k, c, f, delay);
    if k.futexes[f].kind == Mutex(true) && u == OwnerOf(k.futexes[f].value) && w.Some? then Some(Boosted(w.value, p)) else w
  }

  /** ... and once the caller has left the core. */
  function WaitLook(k: Kernel, c: CoreId, f: FutexId, delay: nat, u: TaskId): Option<Face>
    requires Calls(k, c) && f in k.futexes
  {
    var w := JoinLook(k, c, f, delay, u);
    if u == k.current[c] && w.Some? then Some(Returning(w.value, 0)) else w
  }

  /** The word that a blocking wait leaves names the same owner. */
  lemma SameOwner(x: Futex, expected: int)
    requires ShouldBlock(x, expected)
    ensures x.kind.Mutex? ==> OwnerOf(WaitValue(x.kind, expected)) == OwnerOf(x.value) && Contended(WaitValue(x.kind, expected))
  {}

  lemma SetWordStep(k: Kernel, f: FutexId, v: int)
    requires f in k.futexes
    ensures var r := SetWord(k, f, v);
            && r == k.(futexes := k.futexes[f := k.futexes[f].(value := v)])
            && forall u :: r.Look(u) == k.Look(u)
  {
    hide Sane;
  }

  lemma MarkedStep(k: Kernel, c: CoreId, f: FutexId, v: int, delay: nat)
    requires Calls(k, c) && f in k.futexes
    ensures var r := SetWord(Block(k, c, f, delay), f, v);
            && r == k.(queues := Block(k, c, f, delay).queues, timers := r.timers, tasks := r.tasks,
                       futexes := k.futexes[f := k.futexes[f].(value := v)])
            && forall u :: r.Look(u) == BlockLook(k, c, f, delay, u)
  {
    BlockStep(k, c, f, delay);
    SetWordStep(Block(k, c, f, delay), f, v);
    hide Kernel.Look, Sane, Block, BlockLook, SetWord;
  }

  lemma JoinLooks(k: Kernel, c: CoreId, f: FutexId, expected: int, delay: nat, u: TaskId)
    requires Calls(k, c) && f in k.futexes
    requires k.futexes[f].kind == Mutex(true) ==> OwnerLive(k, k.futexes[f].value)
    ensures JoinWaiters(k, c, f, expected, delay).Look(u) == JoinLook(k, c, f, delay, u)
  {
    var x := k.futexes[f];
    MarkedStep(k, c, f, WaitValue(x.kind, expected), delay);
    var k1 := SetWord(Block(k, c, f, delay), f, WaitValue(x.kind, expected));
    hide Kernel.Look, Sane, Block, BlockLook, SetWord, Ow.Add, Q.HighestPriority, Q.Linked, Inherit, WaitValue, OwnerOf, Boosted;
    assert k1.Look(u) == BlockLook(k, c, f, delay, u);
    if x.kind == Mutex(true) {
      InheritStep(k1, f, OwnerOf(x.value));
      assert JoinWaiters(k, c, f, expected, delay) == Inherit(k1, f, OwnerOf(x.value));
    } else {
      assert JoinWaiters(k, c, f, expected, delay) == k1;
    }
  }

  lemma JoinStep(k: Kernel, c: CoreId, f: FutexId, expected: int, delay: nat)
    requires Calls(k, c) && f in k.futexes
    requires k.futexes[f].kind == Mutex(true) ==> OwnerLive(k, k.futexes[f].value)
    ensures var r := JoinWaiters(k, c, f, expected, delay); var x := k.futexes[f];
            && r == k.(queues := r.queues, timers := r.timers, tasks := r.tasks, owned := r.owned,
                       futexes := k.futexes[f := x.(value := WaitValue(x.kind, expected))])
            && r.owned == (if x.kind == Mutex(true) && f !in k.owned.link then Ow.Add(k.owned, OwnerOf(x.value), f) else k.owned)
            && forall u :: r.Look(u) == JoinLook(k, c, f, delay, u)
  {
    var x := k.futexes[f];
    MarkedStep(k, c, f, WaitValue(x.kind, expected), delay);
    var k1 := SetWord(Block(k, c, f, delay), f, WaitValue(x.kind, expected));
    forall u ensures JoinWaiters(k, c, f, expected, delay).Look(u) == JoinLook(k, c, f, delay, u) {
      JoinLooks(k, c, f, expected, delay, u);
    }
    hide Kernel.Look, JoinLook, Sane, Block, BlockLook, SetWord, Ow.Add, Q.HighestPriority, Q.Linked, Inherit, WaitValue, OwnerOf;
    if x.kind == Mutex(true) {
      InheritStep(k1, f, OwnerOf(x.value));
    }
  }

  /** A wait that blocks. */
  lemma WaitStep(k: Kernel, c: CoreId, f: FutexId, expected: int, delay: nat)
    requires Calls(k, c) && f in k.futexes && ShouldBlock(k.futexes[f], expected)
    requires k.futexes[f].kind == Mutex(true) ==> OwnerLive(k, k.futexes[f].value)
    ensures var r := Wait(k, c, f, expected, delay); var x := k.futexes[f];
            && r == k.(queues := r.queues, timers := r.timers, tasks := r.tasks, current := k.current - {c}, owned := r.owned,
                       pending := k.pending + {c}, futexes := k.futexes[f := x.(value := WaitValue(x.kind, expected))])
            && r.owned == (if x.kind == Mutex(true) && f !in k.owned.link then Ow.Add(k.owned, OwnerOf(x.value), f) else k.owned)
            && forall u :: r.Look(u) == WaitLook(k, c, f, delay, u)
  {
    hide Kernel.Look, Sane, JoinWaiters, JoinLook, Leave, Ow.Add, Lent, WaitValue, OwnerOf;
    JoinStep(k, c, f, expected, delay);
    var k1 := JoinWaiters(k, c, f, expected, delay);
    Seen(k1, k.current[c]);
    LeaveStep(k1, c);
  }

  /** A wait whose word has moved on: the caller stays ready and its wait returns 0. */
  lemma WaitReadyStep(k: Kernel, c: CoreId, f: FutexId, expected: int, delay: nat)
    requires Calls(k, c) && f in k.futexes && !ShouldBlock(k.futexes[f], expected)
    ensures var r := Wait(k, c, f, expected, delay); var cur := k.current[c];
            && r == k.(queues := r.queues, tasks := r.tasks, current := k.current - {c}, pending := k.pending + {c})
            && forall u :: r.Look(u) == if u == cur then Some(Returning(Readied(k.Look(cur).value), 0)) else k.Look(u)
  {
    hide Kernel.Look, Sane, MakeReady, Leave, ShouldBlock;
    Seen(k, k.current[c]);
    MakeReadyStep(k, k.current[c]);
    var k1 := MakeReady(k, k.current[c]);
    Seen(k1, k.current[c]);
    LeaveStep(k1, c);
  }

  // ----- wake

  lemma UnlinkStep(k: Kernel, f: FutexId)
    requires Sane(k)
    ensures var r := k.(owned := Ow.Unlink(k.owned, f)); Sane(r) && forall u :: r.Look(u) == k.Look(u)
  {
    hide Kernel.Look, Q.Good, Tm.Good, Ow.Good, Ow.Unlink;
    Ow.UnlinkGood(k.owned, f);
    var r := k.(owned := Ow.Unlink(k.owned, f));
    forall u ensures r.Look(u) == k.Look(u) {
      Seen(k, u);
      Seen(r, u);
    }
  }

  lemma DeboostStep(k: Kernel, f: FutexId, owner: TaskId)
    requires Sane(k) && owner in k.tasks
    ensures var r := Deboost(k, f, owner); var p := MostUrgent(k.queues, Ow.Unlink(k.owned, f).List(owner), k.tasks[owner].base);
            && r == k.(queues := r.queues, owned := Ow.Unlink(k.owned, f))
            && forall u :: r.Look(u) == if u == owner then Some(k.Look(u).value.(prio := p)) else k.Look(u)
  {
    UnlinkStep(k, f);
    var k1 := k.(owned := Ow.Unlink(k.owned, f));
    var p := MostUrgent(k1.queues, k1.owned.List(owner), k1.tasks[owner].base);
    assert Deboost(k, f, owner) == Reprioritize(k1, owner, p);
    hide Kernel.Look, Sane, Deboost, Reprioritize, MostUrgent, Ow.Unlink;
    ReprioritizeStep(k1, owner, p);
  }

  /** The head waiter, off the queue. */
  lemma HandOverStep(k: Kernel, f: FutexId)
    requires Sane(k) && f in k.futexes && k.Waiters(f) != []
    ensures var r := HandOver(k, f); var t := k.Waiters(f)[0];
            && r == k.(queues := r.queues,
                       futexes := if k.futexes[f].kind.Mutex? then k.futexes[f := k.futexes[f].(value := t)] else k.futexes)
            && t in k.tasks
            && forall u :: r.Look(u) == if u == t then Some(k.Look(u).value.(link := None)) else k.Look(u)
  {
    assert Q.ListLinked(k.queues.entry, Q.WaitersOf(f), k.Waiters(f));
    DequeueStep(k, k.Waiters(f)[0]);
    hide Sane, Dequeue, Without;
  }

  predicate Lends(k: Kernel, f: FutexId) {
    f in k.futexes && k.futexes[f].kind == Mutex(true) && k.Waiters(f) != []
  }

  lemma LendStep(k: Kernel, f: FutexId, t: TaskId)
    requires Sane(k) && t in k.tasks && k.Link(t).None? && f in k.futexes
    requires k.futexes[f].kind == Mutex(true) ==> f !in k.owned.link
    ensures var r := Lend(k, f, t);
            && r == k.(queues := r.queues, owned := if Lends(k, f) then Ow.Add(k.owned, t, f) else k.owned)
            && forall u :: r.Look(u) ==
                 if u == t && Lends(k, f) then Some(k.Look(u).value.(prio := Q.HighestPriority(k.queues, Q.WaitersOf(f))))
                 else k.Look(u)
  {
    if Lends(k, f) {
      Ow.AddGood(k.owned, t, f);
      var k1 := k.(owned := Ow.Add(k.owned, t, f));
      assert forall u :: k1.Look(u) == k.Look(u);
      ReprioritizeStep(k1, t, Q.HighestPriority(k1.queues, Q.WaitersOf(f)));
    }
    hide Sane, Reprioritize, Q.HighestPriority, Q.Linked, Ow.Add, Ow.Good;
  }

  /** The priority of the head waiter `t` of `f` once it has been woken. */
  function NextPrio(k: Kernel, f: FutexId, t: TaskId): nat {
    if f in k.futexes && k.futexes[f].kind == Mutex(true) && |k.Waiters(f)| > 1 then k.Prio(k.Waiters(f)[1]) else k.Prio(t)
  }

  /** How a task looks once the head waiter of `f` has been woken. */
  function WakeLook(k: Kernel, f: FutexId, u: TaskId): Option<Face>
    requires k.Waiters(f) != []
  {
    if u == k.Waiters(f)[0] && k.Look(u).Some? then Some(Readied(k.Look(u).value).(prio := NextPrio(k, f, u), timer := None))
    else k.Look(u)
  }

  /** The head waiter `t`, off the queue and with what it inherits, but not yet ready. */
  lemma HandedStep(k: Kernel, f: FutexId)
    requires Sane(k) && f in k.futexes && k.Waiters(f) != []
    requires k.futexes[f].kind == Mutex(true) ==> f !in k.owned.link
    ensures var t := k.Waiters(f)[0]; var r := Lend(HandOver(k, f), f, t);
            && r == k.(queues := r.queues, owned := r.owned, futexes := r.futexes)
            && r.futexes == (if k.futexes[f].kind.Mutex? then k.futexes[f := k.futexes[f].(value := t)] else k.futexes)
            && r.owned == (if k.futexes[f].kind == Mutex(true) && |k.Waiters(f)| > 1 then Ow.Add(k.owned, t, f) else k.owned)
            && t in k.tasks
            && forall u :: r.Look(u) == if u == t then Some(k.Look(u).value.(link := None, prio := NextPrio(k, f, t))) else k.Look(u)
  {
    hide Kernel.Look, Sane, HandOver, Lend, Ow.Add, Q.HighestPriority, Q.Linked;
    var t := k.Waiters(f)[0];
    HandOverStep(k, f);
    NextWaiter(k, f);
    Seen(k, t);
    LendStep(HandOver(k, f), f, t);
  }

  lemma WakeOneStep(k: Kernel, f: FutexId)
    requires Sane(k) && f in k.futexes && k.Waiters(f) != []
    requires k.futexes[f].kind == Mutex(true) ==> f !in k.owned.link
    ensures var r := WakeOne(k, f); var t := k.Waiters(f)[0];
            && r == k.(queues := r.queues, timers := r.timers, tasks := r.tasks, owned := r.owned, futexes := r.futexes)
            && r.futexes == (if k.futexes[f].kind.Mutex? then k.futexes[f := k.futexes[f].(value := t)] else k.futexes)
            && r.owned == (if k.futexes[f].kind == Mutex(true) && |k.Waiters(f)| > 1 then Ow.Add(k.owned, t, f) else k.owned)
            && t in k.tasks
            && forall u :: r.Look(u) == WakeLook(k, f, u)
  {
    hide Kernel.Look, Sane, Lend, HandOver, StopTimer, MakeReady, Ow.Add, NextPrio;
    var t := k.Waiters(f)[0];
    HandedStep(k, f);
    var k1 := Lend(HandOver(k, f), f, t);
    StopTimerStep(k1, t);
    Seen(k, t);
    MakeReadyStep(StopTimer(k1, t), t);
    assert WakeOne(k, f) == MakeReady(StopTimer(k1, t), t);
  }

  lemma NextWaiter(k: Kernel, f: FutexId)
    requires Sane(k) && f in k.futexes && k.Waiters(f) != []
    ensures |k.Waiters(f)| > 1 ==>
              Q.HighestPriority(HandOver(k, f).queues, Q.WaitersOf(f)) == k.Prio(k.Waiters(f)[1])
  {
    assert Q.ListLinked(k.queues.entry, Q.WaitersOf(f), k.Waiters(f));
    HandOverStep(k, f);
    hide Sane, HandOver, Q.Good;
    if |k.Waiters(f)| > 1 {
      var u := k.Waiters(f)[1];
      assert HandOver(k, f).Look(u) == k.Look(u);
    }
  }

  /** Who a wake of a futex without tracking readies. */
  function Woken(k: Kernel, f: FutexId, all: bool): seq<TaskId> {
    if all || k.Waiters(f) == [] then k.Waiters(f) else k.Waiters(f)[..1]
  }

  /** ... and how a task looks afterwards. */
  function RousedLook(k: Kernel, s: seq<TaskId>, u: TaskId): Option<Face> {
    if u in s && k.Look(u).Some? then Some(Readied(k.Look(u).value).(timer := None)) else k.Look(u)
  }

  lemma {:induction false} WakeLoopStep(k: Kernel, f: FutexId, all: bool)
    requires Sane(k) && f in k.futexes && k.futexes[f].kind.Plain?
    ensures var r := WakeLoop(k, f, all);
            && r == k.(queues := r.queues, timers := r.timers, tasks := r.tasks)
            && forall u :: r.Look(u) == RousedLook(k, Woken(k, f, all), u)
    decreases |k.Waiters(f)|
  {
    hide Sane, WakeOne;
    if k.Waiters(f) != [] {
      var t := k.Waiters(f)[0];
      WakeOneStep(k, f);
      var k1 := WakeOne(k, f);
      if all {
        WakeLoopStep(k1, f, all);
        WakeLoopLooks(k, f);
      } else {
        assert forall u :: u in Woken(k, f, all) <==> u == t;
      }
    }
  }

  lemma WakeLoopLooks(k: Kernel, f: FutexId)
    requires Sane(k) && f in k.futexes && k.futexes[f].kind.Plain? && k.Waiters(f) != []
    ensures forall u :: RousedLook(WakeOne(k, f), k.Waiters(f)[1..], u) == RousedLook(k, k.Waiters(f), u)
  {
    WakeOneStep(k, f);
    hide Sane, WakeOne;
    var k1 := WakeOne(k, f);
    var w := k.Waiters(f);
    forall u ensures RousedLook(k1, w[1..], u) == RousedLook(k, w, u) {
      assert k1.Look(u) == WakeLook(k, f, u);
      assert u in w <==> u == w[0] || u in w[1..];
    }
  }

  /** With nobody waiting, a wake of a mutex only clears the contention flag. */
  lemma WakeNobodyStep(k: Kernel, f: FutexId, all: bool)
    requires Sane(k) && f in k.futexes && k.futexes[f].kind.Mutex? && k.Waiters(f) == []
    requires k.futexes[f].kind == Mutex(true) ==> f !in k.owned.link
    ensures var r := WakeWaiters(k, f, all); var x := k.futexes[f];
            r == k.(futexes := k.futexes[f := x.(value := OwnerOf(x.value))]) && forall u :: r.Look(u) == k.Look(u)
  {
    hide Sane;
  }

  /** Otherwise it hands the mutex to the first waiter. */
  lemma WakeMutexStep(k: Kernel, f: FutexId, all: bool)
    requires Sane(k) && f in k.futexes && k.futexes[f].kind.Mutex? && k.Waiters(f) != []
    requires k.futexes[f].kind == Mutex(true) ==> f !in k.owned.link
    ensures var r := WakeWaiters(k, f, all); var w := k.Waiters(f); var x := k.futexes[f];
            && r == k.(queues := r.queues, timers := r.timers, tasks := r.tasks, owned := r.owned,
                       futexes := k.futexes[f := x.(value := (w[0] as int) + (if |w| > 1 then 1 else 0))])
            && r.owned == (if x.kind.inherits && |w| > 1 then Ow.Add(k.owned, w[0], f) else k.owned)
            && w[0] in k.tasks
            && forall u :: r.Look(u) == WakeLook(k, f, u)
  {
    hide Kernel.Look, Sane, WakeOne, WakeLook, TrackContention, Ow.Add;
    var k1 := WakeOne(k, f);
    WakeOneStep(k, f);
    TrackStep(k1, f);
    assert k1.Waiters(f) == k.Waiters(f)[1..];
    hide Kernel.Waiters, OwnerOf, SetContended;
    OwnerEven(k.Waiters(f)[0]);
  }

  lemma OwnerEven(t: TaskId)
    ensures OwnerOf(t) == t && SetContended(t) == (t as int) + 1
  {}

  lemma TrackStep(k: Kernel, f: FutexId)
    requires f in k.futexes && k.futexes[f].kind.Mutex?
    ensures var r := TrackContention(k, f); var x := k.futexes[f];
            && r == k.(futexes := k.futexes[f := x.(value := if k.Waiters(f) == [] then OwnerOf(x.value) else SetContended(x.value))])
            && forall u :: r.Look(u) == k.Look(u)
  {
    hide Sane, OwnerOf, SetContended;
  }

  // ----- terminate, priority, resume

  lemma BuryStep(k: Kernel, t: TaskId)
    requires Sane(k) && t in k.tasks
    ensures var r := Bury(k, t);
            && r == k.(queues := r.queues, timers := r.timers, tasks := k.tasks - {t})
            && forall u :: r.Look(u) == if u == t then None else k.Look(u)
  {
    hide Q.Good, Ow.Good, Without;
  }

  lemma TerminateStep(k: Kernel, c: CoreId, t: TaskId)
    requires Calls(k, c) && t in k.tasks
    ensures var r := Terminate(k, c, t).0; var self := t == k.current[c];
            && r == k.(queues := r.queues, timers := r.timers, tasks := k.tasks - {t},
                       current := if self then k.current - {c} else k.current,
                       pending := if self then k.pending + {c} else k.pending)
            && forall u :: r.Look(u) == if u == t then None else k.Look(u)
  {
    BuryStep(k, t);
    hide Sane, Bury;
  }

  lemma SetPriorityStep(k: Kernel, c: CoreId, t: TaskId, p: nat)
    requires Calls(k, c) && t in k.tasks
    ensures var r := SetPriority(k, c, t, p).0;
            && r == k.(queues := r.queues, tasks := r.tasks, pending := k.pending + {c})
            && forall u :: r.Look(u) ==
                 if u == t then Some(k.Look(u).value.(task := k.Look(u).value.task.(base := p), prio := p)) else k.Look(u)
  {
    hide Kernel.Look, Sane, SetTask, Reprioritize, RequestSwitch;
    Seen(k, t);
    var d := k.tasks[t].(base := p);
    var k1 := SetTask(k, t, d);
    SetTaskStep(k, t, d);
    Seen(k1, t);
    ReprioritizeStep(k1, t, p);
    PendingStep(Reprioritize(k1, t, p), c);
  }

  lemma ResumeStep(k: Kernel, c: CoreId, t: TaskId)
    requires Calls(k, c) && t in k.tasks && (k.tasks[t].state.Blocked? || k.tasks[t].state.Suspended?)
    ensures var r := Resume(k, c, t).0; var result := if k.tasks[t].state.Blocked? then -ECANCELED else k.tasks[t].result;
            && r == k.(queues := r.queues, timers := r.timers, tasks := r.tasks, pending := k.pending + {c})
            && forall u :: r.Look(u) ==
                 if u == t then Some(Returning(Readied(k.Look(t).value), result).(timer := None)) else k.Look(u)
  {
    hide Kernel.Look, Sane, Rouse, RequestSwitch;
    var result := if k.tasks[t].state.Blocked? then -ECANCELED else k.tasks[t].result;
    RouseStep(k, t, result);
    PendingStep(Rouse(k, t, result), c);
  }

  // ----- the tick and the switch

  lemma TickStep(k: Kernel, c: CoreId, sliced: bool)
    ensures var r := Tick(k, c, sliced);
            && r == k.(ticks := r.ticks, pending := r.pending)
            && forall u :: r.Look(u) == k.Look(u)
  {
    hide Sane;
  }

  lemma RequeueStep(k: Kernel, c: CoreId)
    requires Calls(k, c)
    ensures var r := Requeue(k, c); var t := k.current[c];
            && r == k.(queues := r.queues, tasks := r.tasks, current := k.current - {c})
            && forall u :: r.Look(u) ==
                 if u == t then var w := Readied(k.Look(u).value); Some(w.(task := w.task.(core := NO_CORE))) else k.Look(u)
  {
    hide Kernel.Look, Sane, SetTask, MakeReady;
    var t := k.current[c];
    Seen(k, t);
    var k1 := SetTask(k, t, k.tasks[t].(core := NO_CORE));
    SetTaskStep(k, t, k.tasks[t].(core := NO_CORE));
    Seen(k1, t);
    MakeReadyStep(k1, t);
    CoreOff(MakeReady(k1, t), c);
  }

  lemma CoreOff(k: Kernel, c: CoreId)
    ensures forall u :: k.(current := k.current - {c}).Look(u) == k.Look(u)
  {}

  /** The tasks whose timers have run out. */
  predicate Lapsed(k: Kernel, t: TaskId) {
    k.Look(t).Some? && k.Look(t).value.timer.Some? && Tm.Due(k.Look(t).value.timer.value, k.Now())
  }

  function ExpireLook(k: Kernel, u: TaskId): Option<Face> {
    if Lapsed(k, u) then Some(Returning(Readied(k.Look(u).value), -ETIMEDOUT).(timer := None))
    else k.Look(u)
  }

  lemma ExpireOneStep(k: Kernel)
    requires Sane(k) && Tm.HeadDue(k.timers, k.Now())
    ensures var r := ExpireOne(k); var t := k.timers.list[0];
            && r == k.(queues := r.queues, timers := r.timers, tasks := r.tasks)
            && Lapsed(k, t)
            && forall u :: r.Look(u) == if u == t then ExpireLook(k, t) else k.Look(u)
  {
    hide Q.Good, Ow.Good, Rouse;
    var t := k.timers.list[0];
    assert t in k.timers.list;
    RouseStep(k, t, -ETIMEDOUT);
  }

  /** Exactly the tasks whose timers have run out become ready, with a timeout result. */
  lemma {:induction false} ExpireAllStep(k: Kernel)
    requires Sane(k)
    ensures var r := ExpireAll(k);
            && r == k.(queues := r.queues, timers := r.timers, tasks := r.tasks)
            && forall u :: r.Look(u) == ExpireLook(k, u)
    decreases |k.timers.list|
  {
    hide Kernel.Look, Sane, ExpireOne;
    Parts(k);
    if Tm.HeadDue(k.timers, k.Now()) {
      ExpireOneStep(k);
      ExpireAllStep(ExpireOne(k));
    } else {
      NoneLapsed(k);
    }
  }

  lemma NoneLapsed(k: Kernel)
    requires Sane(k) && !Tm.HeadDue(k.timers, k.Now())
    ensures forall u :: !Lapsed(k, u)
  {
    hide Q.Good, Ow.Good;
    forall u ensures !Lapsed(k, u) {
      if u in k.timers.list {
        var i :| 0 <= i < |k.timers.list| && k.timers.list[i] == u;
        assert k.timers.expires[k.timers.list[0]] <= k.timers.expires[k.timers.list[i]];
      }
    }
  }

  lemma DispatchStep(k: Kernel, c: CoreId, t: TaskId)
    requires Sane(k) && t in k.tasks
    ensures var r := Dispatch(Dequeue(k, t), c, t);
            && r == k.(queues := Dequeue(k, t).queues, tasks := r.tasks, current := k.current[c := t], pending := r.pending)
            && forall u :: r.Look(u) ==
                 if u == t then
                   var w := k.Look(u).value;
                   Some(w.(task := w.task.(state := Running, core := c), link := None))
                 else k.Look(u)
  {
    hide Sane, Dequeue, Outranked;
    DequeueStep(k, t);
    var k1 := Dequeue(k, t);
    Seen(k1, t);
    SetTaskStep(k1, t, k1.tasks[t].(state := Running, core := c));
  }
}
