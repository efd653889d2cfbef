/**
 The scheduler as the program runs it: nodes linked and unlinked in memory, lists walked from node to node, fields
 updated in place. Every handler is proved to compute the kernel step that specifies it and to leave every list - the
 ready queue, the waiters of every futex, the timers, the live tasks, what every task owns - well linked.
 */
module Scheduler {
  import opened Types
  import opened Sequences
  import opened Kernel
  import opened Steps
  import opened Rings
  import opened Wiring
  import opened Memory
  import opened Slots
  import Q = TaskQueues
  import Tm = TaskTimers
  import Ow = OwnedFutexes
  import D = DeferredWake

  // ----- where the loops stop

  lemma {:induction false} SlotIs(entry: map<TaskId, Q.Entry>, list: seq<TaskId>, p: nat, i: nat)
    requires forall k :: 0 <= k < |list| ==> list[k] in entry
    requires i <= |list| && (forall k :: 0 <= k < i ==> entry[list[k]].prio <= p) && (i < |list| ==> entry[list[i]].prio > p)
    ensures Q.Slot(entry, list, p) == i
  {
    if i > 0 { SlotIs(entry, list[1..], p, i - 1); }
  }

  lemma {:induction false} FirstInIs(list: seq<TaskId>, eligible: set<TaskId>, i: nat)
    requires i <= |list| && (forall k :: 0 <= k < i ==> list[k] !in eligible) && (i < |list| ==> list[i] in eligible)
    ensures Q.FirstIn(list, eligible) == i
  {
    if i > 0 { FirstInIs(list[1..], eligible, i - 1); }
  }

  lemma OnList(q: Q.Queues, id: Q.QueueId)
    requires Q.Linked(q)
    ensures forall k :: 0 <= k < |q.List(id)| ==> q.List(id)[k] in q.entry && q.entry[q.List(id)[k]].link == Some(id)
  {
    assert Q.ListLinked(q.entry, id, q.List(id));
  }

  lemma DequeueIs(k: Kernel, t: TaskId)
    requires Sane(k) && t in k.tasks
    ensures Q.Linked(k.queues) && t in k.queues.entry && Dequeue(k, t) == k.(queues := Q.Remove(k.queues, t))
    ensures forall u :: Dequeue(k, t).Link(u) == if u == t then None else k.Link(u)
  {}

  lemma RemoveThenSet(q: Q.Queues, t: TaskId, p: nat)
    requires Q.Linked(q) && t in q.entry
    ensures Q.Remove(Q.SetPrio(q, t, p), t) == Q.SetPrio(Q.Remove(q, t), t, p)
    ensures Q.Linked(Q.Remove(Q.SetPrio(q, t, p), t)) && Q.Remove(q, t).entry[t].link.None?
  {
    hide Q.Linked, Without;
    Q.RemoveLinked(q, t);
    Q.SetPrioLinked(Q.Remove(q, t), t, p);
    assert Q.Remove(Q.SetPrio(q, t, p), t).entry == Q.SetPrio(Q.Remove(q, t), t, p).entry;
  }

  lemma EnqueueIs(k: Kernel, id: Q.QueueId, t: TaskId)
    requires Sane(k) && t in k.tasks && k.Link(t).None?
    ensures Q.Linked(k.queues) && t in k.queues.entry && k.queues.entry[t].link.None?
    ensures Enqueue(k, id, t) == k.(queues := Q.Push(k.queues, id, t))
  {}

  lemma ReprioritizeIs(k: Kernel, t: TaskId)
    requires Sane(k) && t in k.tasks
    ensures Q.Linked(k.queues) && t in k.queues.entry
    ensures forall p: nat :: Reprioritize(k, t, p) == k.(queues := Q.Reprioritize(k.queues, t, p))
  {}

  lemma StartTimerIs(k: Kernel, t: TaskId, delay: nat)
    requires Sane(k) && t in k.tasks
    ensures StartTimer(k, t, delay) == k.(timers := Tm.Push(k.timers, t, k.Now(), delay))
  {}

  lemma StopTimerIs(k: Kernel, t: TaskId)
    requires Sane(k)
    ensures StopTimer(k, t) == k.(timers := Tm.Remove(k.timers, t))
  {}

  lemma CallerKnown(k: Kernel, c: CoreId)
    requires Calls(k, c)
    ensures k.current[c] in k.queues.entry && k.queues.entry[k.current[c]].link.None?
    ensures forall t :: t in k.tasks <==> t in k.queues.entry
  {}

  lemma LinkIs(k: Kernel, f: FutexId, owner: TaskId)
    requires Sane(k)
    ensures LinkToOwner(k, f, owner) == if f in k.owned.link then k else k.(owned := Ow.Add(k.owned, owner, f))
  {}

  /** The word may be marked before or after its waiter is queued: all of it is one step. */
  lemma BlockMarks(k: Kernel, c: CoreId, f: FutexId, v: int, delay: nat)
    requires Calls(k, c) && f in k.futexes
    ensures Calls(SetWord(k, f, v), c)
    ensures Block(SetWord(k, f, v), c, f, delay) == SetWord(Block(k, c, f, delay), f, v)
    ensures Block(k, c, f, delay).tasks.Keys == k.tasks.Keys
  {
    hide Sane, Q.Linked, Q.Push;
    var cur := k.current[c];
    if delay < WAIT_FOREVER {
      StartTimerIs(k, cur, delay);
      StartTimerIs(SetWord(k, f, v), cur, delay);
    }
  }

  lemma UnlinkIs(k: Kernel, f: FutexId)
    requires Sane(k)
    ensures Sane(k.(owned := Ow.Unlink(k.owned, f)))
  {
    Ow.UnlinkGood(k.owned, f);
  }

  lemma AddIs(k: Kernel, f: FutexId, t: TaskId)
    requires Sane(k) && f !in k.owned.link
    ensures Sane(k.(owned := Ow.Add(k.owned, t, f)))
  {
    Ow.AddGood(k.owned, t, f);
  }

  lemma HandOverIs(k: Kernel, f: FutexId)
    requires Sane(k) && f in k.futexes && k.Waiters(f) != []
    ensures var t := k.Waiters(f)[0]; var x := k.futexes[f];
            t in k.queues.entry &&
            HandOver(k, f) == k.(queues := Q.Remove(k.queues, t),
                                 futexes := if x.kind.Mutex? then k.futexes[f := x.(value := t)] else k.futexes)
  {
    HeadWaiter(k, f);
  }

  lemma WakeOneKeeps(k: Kernel, f: FutexId)
    requires Sane(k) && f in k.futexes && k.Waiters(f) != []
    requires k.futexes[f].kind == Mutex(true) ==> f !in k.owned.link
    ensures var r := WakeOne(k, f);
            && Sane(r) && f in r.futexes && r.futexes[f].kind == k.futexes[f].kind && r.Waiters(f) == k.Waiters(f)[1..]
            && (k.futexes[f].kind.Plain? ==> r.owned == k.owned)
  {
    WakeOneStep(k, f);
  }

  /** Lowering the owner may move it within a queue, but no queue gets longer or shorter. */
  lemma LoweredLengths(k: Kernel, f: FutexId, all: bool)
    requires Sane(k) && f in k.futexes
    requires k.futexes[f].kind == Mutex(true) ==> OwnerLive(k, k.futexes[f].value)
    ensures f in Lowered(k, f).futexes && WokenBy(Lowered(k, f), f, all) == WokenBy(k, f, all)
  {
    hide Sane, MostUrgent, Q.Reprioritize;
    if k.futexes[f].kind == Mutex(true) {
      var owner := OwnerOf(k.futexes[f].value);
      UnlinkIs(k, f);
      var k1 := k.(owned := Ow.Unlink(k.owned, f));
      Parts(k1);
      var p := MostUrgent(k1.queues, k1.owned.List(owner), k1.tasks[owner].base);
      ReprioritizeIs(k1, owner);
      SameLength(k1.queues, owner, p, Q.WaitersOf(f));
    }
  }

  lemma SameLength(q: Q.Queues, t: TaskId, p: nat, id: Q.QueueId)
    requires Q.Linked(q) && t in q.entry
    ensures |Q.Reprioritize(q, t, p).List(id)| == |q.List(id)|
  {
    if q.entry[t].link == Some(id) {
      assert t in q.List(id);
    }
  }

  lemma BuryIs(k: Kernel, t: TaskId)
    requires Sane(k) && t in k.tasks
    ensures Q.Linked(k.queues) && t in k.queues.entry
    ensures t in Q.Remove(k.queues, t).entry && Q.Remove(k.queues, t).entry[t].link.None?
    ensures Bury(k, t) == k.(queues := Q.Forget(Q.Remove(k.queues, t), t), timers := Tm.Remove(k.timers, t), tasks := k.tasks - {t})
  {}

  lemma ExpireOneIs(k: Kernel)
    requires Sane(k) && Tm.HeadDue(k.timers, k.Now())
    ensures var t := k.timers.list[0]; var k1 := k.(timers := Tm.Remove(k.timers, t));
            && t in k.tasks && Sane(k1)
            && ExpireOne(k) == Returned(k1, t, -ETIMEDOUT)
            && |ExpireOne(k).timers.list| < |k.timers.list|
  {
    assert k.timers.list[0] in k.timers.list;
  }

  /** `t` off its queue and ready, its call returns `result`. */
  function Returned(k: Kernel, t: TaskId, result: int): (r: Kernel)
    requires Sane(k) && t in k.tasks
  {
    var off := Dequeue(k, t);
    MakeReady(SetTask(off, t, off.tasks[t].(result := result)), t)
  }

  /** Requests to switch do not matter to who outranks whom. */
  lemma OutrankedIs(k: Kernel, k': Kernel, o: CoreId)
    requires Sane(k) && k' == k.(pending := k'.pending)
    ensures Sane(k') && Eligible(k', o) == Eligible(k, o) && Outranked(k', o) == Outranked(k, o)
  {
    assert Eligible(k', o) == Eligible(k, o);
  }

  /** The cores below `n` that a switch on core `c` kicks. */
  function Kicked(k: Kernel, c: CoreId, n: nat): set<CoreId>
    requires Sane(k)
  {
    set o | o in k.current && o < n && o != c && Outranked(k, o)
  }

  lemma KickedNext(k: Kernel, c: CoreId, n: nat)
    requires Sane(k)
    ensures Kicked(k, c, n + 1) == Kicked(k, c, n) + (if n in k.current && n != c && Outranked(k, n) then {n} else {})
  {
    hide Sane, Outranked;
  }

  lemma DispatchSane(k: Kernel, c: CoreId, t: TaskId)
    requires Sane(k) && t in k.tasks
    ensures Sane(SetTask(k, t, k.tasks[t].(state := Running, core := c)).(current := k.current[c := t]))
  {}

  lemma EvictIs(k: Kernel, t: TaskId)
    requires Sane(k) && t in k.tasks
    ensures Q.Linked(k.queues) && t in k.queues.entry
    ensures t in Q.Remove(k.queues, t).entry && Q.Remove(k.queues, t).entry[t].link.None? && NoDup(k.timers.list)
    ensures Evict(k, t) == k.(queues := Q.Forget(Q.Remove(k.queues, t), t),
                              timers := k.timers.(list := Without(k.timers.list, t)), tasks := k.tasks - {t})
  {}

  /** The pop has already unlinked the task that is evicted. */
  lemma EvictPopped(k: Kernel, t: TaskId)
    requires Sane(k) && t in k.tasks
    ensures Evict(Dequeue(k, t), t) == Evict(k, t)
  {
    EvictIs(k, t);
    EvictIs(Dequeue(k, t), t);
  }

  lemma SwitchReady(k: Kernel, k': Kernel, c: CoreId)
    requires Sane(k) && (c in k.current ==> Calls(k, c)) && k' == k.(pending := k'.pending)
    ensures Sane(k') && (c in k.current ==> Calls(k', c))
  {}

  lemma DeferredPlain(n: Nodes, known: set<TaskId>, roster: seq<TaskId>, plain: set<FutexId>, k: Kernel, d: Deferred)
    requires Spells(n, known, roster, plain, k) && Tallied(d, plain)
    ensures PlainOnly(k, Wakes(d.slots))
  {
    WakesArePlain(k, d.slots, plain);
  }

  lemma SlotPlain(n: Nodes, known: set<TaskId>, roster: seq<TaskId>, plain: set<FutexId>, k: Kernel, d: Deferred, i: nat)
    requires Spells(n, known, roster, plain, k) && Tallied(d, plain) && i < |d.slots| && Sane(k)
    ensures var w := d.slots[i];
            && (w != 0 ==> FutexOf(w) in k.futexes && k.futexes[FutexOf(w)].kind.Plain?)
            && PlainOnly(k, WakeOf(w))
            && WakeDeferred(k, WakeOf(w)) == if w == 0 then k else WakeFutex(k, FutexOf(w), w % 2 == 1)
  {
    WakeOfIs(k, d.slots[i]);
  }

  lemma ReadyIs(k: Kernel, t: TaskId)
    requires Sane(k) && t in k.tasks && k.Link(t).None?
    ensures var k1 := SetTask(k, t, k.tasks[t].(state := Ready)); Sane(k1) && t in k1.tasks && k1.Link(t).None?
  {}

  lemma ReturnIs(k: Kernel, t: TaskId, result: int)
    requires Sane(k) && t in k.tasks
    ensures var off := Dequeue(k, t); off.tasks == k.tasks && off.Link(t).None?
    ensures var off := Dequeue(k, t); var r := SetTask(off, t, off.tasks[t].(result := result)); r.Link(t).None? && t in r.tasks
  {}

  lemma RouseIs(k: Kernel, t: TaskId, result: int)
    requires Sane(k) && t in k.tasks
    ensures t in StopTimer(k, t).tasks && Returned(StopTimer(k, t), t, result) == Rouse(k, t, result)
  {}

  lemma ParkOtherIs(k: Kernel, c: CoreId, t: TaskId)
    requires Calls(k, c) && t in k.tasks && t != k.current[c]
    ensures t in Dequeue(k, t).tasks
    ensures var off := StopTimer(Dequeue(k, t), t);
            && off.tasks == k.tasks && off.current == k.current
            && var r := SetTask(off, t, off.tasks[t].(state := Suspended, core := NO_CORE));
               k.current[c] in r.tasks && r.Link(k.current[c]).None? && r.current == k.current
    ensures t in ParkOther(k, c, t).tasks && k.current[c] in ParkOther(k, c, t).tasks
  {}

  lemma BlockIs(k: Kernel, c: CoreId, delay: nat)
    requires Calls(k, c)
    ensures var timed := if delay < WAIT_FOREVER then StartTimer(k, k.current[c], delay) else k;
            && timed.tasks == k.tasks && timed.futexes == k.futexes && timed.current == k.current
            && var r := SetTask(timed, k.current[c], k.tasks[k.current[c]].(state := Blocked, core := NO_CORE));
               r.Link(k.current[c]).None? && r.futexes == k.futexes && k.current[c] in r.tasks
  {}

  lemma TimerPushIs(m: Tm.Timers, t: TaskId, now: nat, delay: nat)
    requires Tm.Good(m)
    ensures NoDup(m.list)
    ensures var e := (now + delay) % WORD; var list, expires := Without(m.list, t), m.expires[t := e];
            && (forall k :: 0 <= k < |list| ==> list[k] in expires)
            && var linked := InsertAt(list, FirstLater(expires, list, e), t);
               linked != [] && linked[0] in expires && Tm.Push(m, t, now, delay) == Tm.Timers(expires, linked, expires[linked[0]])
  {
    hide NoDup, Without, InsertAt, FirstLater, Tm.SortedBy;
    Tm.Rearmed(m, t, (now + delay) % WORD);
  }

  class SchedulerState {
    const cores: nat
    // the pointers in the nodes
    var nodes: Nodes
    // the other fields of tasks, futexes and scheduler
    var entry: map<TaskId, Q.Entry>
    var clock: nat
    var expires: map<TaskId, nat>
    var timerExpires: nat
    var tasks: map<TaskId, Task>
    var futexes: map<FutexId, Futex>
    var current: map<CoreId, TaskId>
    var ticks: map<CoreId, nat>
    var locked: int
    var pending: set<CoreId>
    // the deferred wakes of each core
    var deferred: seq<Deferred>
    // the lists that the nodes form
    ghost var lists: map<Q.QueueId, seq<TaskId>>
    ghost var timerList: seq<TaskId>
    ghost var roster: seq<TaskId>
    ghost var owned: Ow.Owned
    // the tasks whose nodes have been initialised, and the futexes that an interrupt handler may wake
    ghost var known: set<TaskId>
    ghost var plain: set<FutexId>

    ghost function Queues(): Q.Queues
      reads this`entry, this`lists, this`clock
    {
      Q.Queues(entry, lists, clock)
    }

    ghost function Timers(): Tm.Timers
      reads this`expires, this`timerList, this`timerExpires
    {
      Tm.Timers(expires, timerList, timerExpires)
    }

    ghost function View(): Kernel
      reads this
    {
      Kernel(cores, Queues(), Timers(), owned, tasks, futexes, current, ticks, locked, pending)
    }

    /** The nodes form exactly these lists. */
    ghost predicate Wired()
      reads this
    {
      Spells(nodes, known, roster, plain, View())
    }

    ghost predicate Valid()
      reads this
    {
      Wired() && |deferred| == cores && AllTallied(deferred, plain)
    }

    /** `scheduler_init`, for cores with `n` slots each. */
    constructor (cores: nat, n: nat)
      requires 0 < n < WORD - 1
      ensures View() == Kernel(cores, Q.Queues(map[], map[], 0), Tm.Timers(map[], [], UINT_MAX), Ow.Owned(map[], map[]),
                                 map[], map[], map[], map[], 0, {})
      ensures Valid() && Sane(View()) && this.cores == cores
    {
      this.cores := cores;
      nodes := Nodes(Init(Links(map[], map[]), Head(Q.ReadyQueue)), Init(Links(map[], map[]), Head(())),
                     Init(Links(map[], map[]), Head(())), Links(map[], map[]));
      entry, lists, clock := map[], map[], 0;
      expires, timerList, timerExpires := map[], [], UINT_MAX;
      roster, owned := [], Ow.Owned(map[], map[]);
      tasks, futexes, current, ticks := map[], map[], map[], map[];
      locked, pending := 0, {};
      deferred := seq(cores, _ => NoneDeferred(n));
      known, plain := {}, {};
      new;
      SpellsNothing(View());
      NoneTallied(n);
    }

    /** `scheduler_futex_init` */
    method InitFutex(f: FutexId, kind: Kind, value: int)
      requires Valid() && Sane(View()) && f !in futexes
      modifies this`nodes, this`futexes, this`plain
      ensures Valid() && View() == old(View()).(futexes := old(futexes)[f := Futex(kind, value)])
    {
      hide Sane, Spells, AllTallied, Init;
      SpellsFutex(nodes, known, roster, plain, View(), f, Futex(kind, value));
      TalliedMore(deferred, plain, f);
      nodes := nodes.(queue := Init(nodes.queue, Head(Q.WaitersOf(f))), owned := Init(nodes.owned, Elem(f)));
      futexes := futexes[f := Futex(kind, value)];
      plain := if kind.Plain? then plain + {f} else plain;
    }

    // ----- queues

    /** `sched_queue_empty` */
    method QueueEmpty(id: Q.QueueId) returns (empty: bool)
      requires Wired() && HasHead(futexes.Keys, id)
      ensures empty == (Queues().List(id) == [])
    {
      hide QueuesWired, ListWired, OwnedWired, Listed, Kinds;
      QueueStep(nodes.queue, futexes.Keys, known, Queues(), id, 0);
      empty := nodes.queue.next[Head(id)] == Head(id);
    }

    /** `sched_queue_remove`, of a task that is on a queue or on none */
    method QueueRemove(t: TaskId)
      requires Wired() && Q.Linked(Queues()) && t in entry
      modifies this`nodes, this`entry, this`lists
      ensures Wired() && View() == old(View()).(queues := Q.Remove(old(Queues()), t))
    {
      hide QueuesWired, ListWired, OwnedWired, Listed, Kinds, Unlink, Q.Linked, Without;
      WiredRemove(nodes.queue, futexes.Keys, known, Queues(), t);
      nodes := nodes.(queue := Unlink(nodes.queue, Elem(t)));
      if entry[t].link.Some? {
        lists := lists[entry[t].link.value := Without(Queues().List(entry[t].link.value), t)];
      }
      entry := entry[t := entry[t].(link := None)];
      assert Queues() == Q.Remove(old(Queues()), t);
    }

    /** The node that `sched_queue_push` inserts a task of priority `p` before: a less urgent task, or the head. */
    method FindPlace(id: Q.QueueId, p: nat, ghost list: seq<TaskId>) returns (at: QueueNode)
      requires Wired() && HasHead(futexes.Keys, id) && list == Queues().List(id)
      requires forall k :: 0 <= k < |list| ==> list[k] in entry
      ensures at == At(Chain(id, list), Q.Slot(entry, list, p) + 1)
    {
      hide QueuesWired, ListWired, OwnedWired, Listed, Kinds, Chain, At, Q.Slot;
      QueueStep(nodes.queue, futexes.Keys, known, Queues(), id, 0);
      at := nodes.queue.next[Head(id)];
      ghost var i := 0;
      while at != Head(id) && entry[at.elem].prio <= p
        invariant i <= |list| && at == if i < |list| then Elem(list[i]) else Head(id)
        invariant forall k :: 0 <= k < i ==> entry[list[k]].prio <= p
        decreases |list| - i
      {
        i := i + 1;
        QueueStep(nodes.queue, futexes.Keys, known, Queues(), id, i);
        at := nodes.queue.next[at];
      }
      SlotIs(entry, list, p, i);
      ChainAt(id, list, i);
    }

    /** The node of `t` goes to the place of its priority. */
    method QueueLink(id: Q.QueueId, t: TaskId)
      requires Wired() && HasHead(futexes.Keys, id) && Q.Linked(Queues()) && t in entry && entry[t].link.None?
      modifies this`nodes
      ensures Spells(nodes, known, roster, plain, View().(queues := Q.Push(Queues(), id, t)))
    {
      hide Spells, HasHead, Insert, Chain, At, Q.Linked, Q.ListLinked, Q.Push, Q.Slot;
      OnList(Queues(), id);
      ghost var list := Queues().List(id);
      SpellsPush(nodes, known, roster, plain, View(), id, t, list, Q.Slot(entry, list, entry[t].prio));
      var at := FindPlace(id, entry[t].prio, list);
      nodes := nodes.(queue := Insert(nodes.queue, at, Elem(t)));
    }

    /** `sched_queue_push` */
    method QueuePush(id: Q.QueueId, t: TaskId)
      requires Wired() && HasHead(futexes.Keys, id) && Q.Linked(Queues()) && t in entry && entry[t].link.None?
      modifies this`nodes, this`entry, this`lists, this`clock
      ensures Wired() && View() == old(View()).(queues := Q.Push(old(Queues()), id, t))
    {
      hide Spells, HasHead, Q.Linked, Q.ListLinked, InsertAt, Q.Slot;
      OnList(Queues(), id);
      ghost var k := View();
      QueueLink(id, t);
      lists := lists[id := InsertAt(Queues().List(id), Q.Slot(entry, Queues().List(id), entry[t].prio), t)];
      entry := entry[t := entry[t].(link := Some(id), stamp := clock)];
      clock := clock + 1;
      assert View() == k.(queues := Q.Push(k.queues, id, t));
    }

    /** `sched_queue_pop` for any core: the head of the queue. */
    method QueuePop(id: Q.QueueId) returns (t: Option<TaskId>)
      requires Wired() && HasHead(futexes.Keys, id) && Q.Linked(Queues())
      modifies this`nodes, this`entry, this`lists
      ensures Wired() && t == if old(Queues()).List(id) == [] then None else Some(old(Queues()).List(id)[0])
      ensures if t.None? then View() == old(View())
              else t.value in old(entry) && View() == old(View()).(queues := Q.Remove(old(Queues()), t.value))
    {
      hide QueuesWired, ListWired, OwnedWired, Listed, Kinds, Q.Linked, Q.ListLinked, Without;
      OnList(Queues(), id);
      QueueStep(nodes.queue, futexes.Keys, known, Queues(), id, 0);
      var first := nodes.queue.next[Head(id)];
      if first == Head(id) {
        t := None;
      } else {
        t := Some(first.elem);
        QueueRemove(t.value);
      }
    }

    /** The same for one core: the first task that may run there. */
    method QueuePopFor(c: CoreId) returns (t: Option<TaskId>)
      requires Wired() && Sane(View())
      modifies this`nodes, this`entry, this`lists
      ensures Wired() && var k := old(View()); var i := Q.FirstIn(k.Ready(), Eligible(k, c));
              && t == (if i < |k.Ready()| then Some(k.Ready()[i]) else None)
              && if t.None? then View() == k else t.value in k.tasks && View() == Dequeue(k, t.value)
    {
      hide Spells, Sane, Dequeue, Eligible, Q.FirstIn, Q.Remove;
      t := FirstFor(c);
      if t.Some? {
        Unqueue(t.value);
      }
    }

    /** The first ready task that may run on core `c`. */
    method FirstFor(c: CoreId) returns (t: Option<TaskId>)
      requires Wired() && Sane(View())
      ensures var k := View(); var i := Q.FirstIn(k.Ready(), Eligible(k, c));
              t == if i < |k.Ready()| then Some(k.Ready()[i]) else None
      ensures t.Some? ==> t.value in tasks && t.value in entry
    {
      hide QueuesWired, ListWired, OwnedWired, Listed, Kinds, Q.Linked, Q.ListLinked, Q.Good, Tm.Good, Ow.Good, Q.FirstIn;
      Parts(View());
      OnList(Queues(), Q.ReadyQueue);
      ghost var list := Queues().List(Q.ReadyQueue);
      assert list == View().Ready();
      ghost var i := 0;
      QueueStep(nodes.queue, futexes.Keys, known, Queues(), Q.ReadyQueue, 0);
      var node: QueueNode := nodes.queue.next[Head(Q.ReadyQueue)];
      while node != Head(Q.ReadyQueue)
        invariant i <= |list| && node == if i < |list| then Elem(list[i]) else Head(Q.ReadyQueue)
        invariant forall j :: 0 <= j < i ==> list[j] !in Eligible(View(), c)
        decreases |list| - i
      {
        var task := node.elem;
        if tasks[task].affinity.None? || tasks[task].affinity == Some(c) {
          FirstInIs(list, Eligible(View(), c), i);
          return Some(task);
        }
        i := i + 1;
        QueueStep(nodes.queue, futexes.Keys, known, Queues(), Q.ReadyQueue, i);
        node := nodes.queue.next[node];
      }
      FirstInIs(list, Eligible(View(), c), i);
      t := None;
    }

    /** `sched_queue_highest_priority` */
    method HighestPriority(id: Q.QueueId) returns (p: nat)
      requires Wired() && HasHead(futexes.Keys, id) && Q.Linked(Queues())
      ensures p == Q.HighestPriority(Queues(), id)
    {
      hide QueuesWired, ListWired, OwnedWired, Listed, Kinds, Q.Linked, Q.ListLinked;
      OnList(Queues(), id);
      QueueStep(nodes.queue, futexes.Keys, known, Queues(), id, 0);
      p := Q.NUM_PRIORITIES;
      if nodes.queue.next[Head(id)] != Head(id) {
        p := entry[nodes.queue.next[Head(id)].elem].prio;
      }
    }

    /** `sched_queue_reprioritize` */
    method QueueReprioritize(t: TaskId, p: nat)
      requires Wired() && Q.Linked(Queues()) && t in entry
      modifies this`nodes, this`entry, this`lists, this`clock
      ensures Wired() && View() == old(View()).(queues := Q.Reprioritize(old(Queues()), t, p))
    {
      hide Spells, HasHead, Q.Linked, Q.ListLinked, Without, Q.Push;
      ghost var q := Queues();
      SpellsPrio(nodes, known, roster, plain, View(), t, p);
      entry := entry[t := entry[t].(prio := p)];
      assert Queues() == Q.SetPrio(q, t, p);
      if entry[t].link.Some? {
        var id := entry[t].link.value;
        QueueRemove(t);
        RemoveThenSet(q, t, p);
        QueuePush(id, t);
      }
    }

    // ----- timers

    /** `scheduler_get_ticks` */
    function GetTicks(): nat
      reads this`ticks
    {
      if 0 in ticks then ticks[0] else 0
    }

    /** The timer at the head of the list, if there is one. */
    method FirstTimer() returns (t: Option<TaskId>)
      requires Wired()
      ensures t == (if timerList == [] then None else Some(timerList[0])) && (t.Some? ==> t.value in known)
    {
      hide QueuesWired, ListWired, OwnedWired, Listed, Kinds;
      ListStep(nodes.timer, known, timerList, 0);
      ListOfKnown(nodes.timer, known, timerList);
      var first := nodes.timer.next[Head(())];
      t := if first == Head(()) then None else Some(first.elem);
    }

    /** The node that `scheduler_timer_push` inserts a timer that expires at tick `e` before. */
    method FindTimerPlace(e: nat) returns (at: ListNode)
      requires Wired() && forall k :: 0 <= k < |timerList| ==> timerList[k] in expires
      ensures at == At(Chain((), timerList), FirstLater(expires, timerList, e) + 1)
    {
      hide QueuesWired, ListWired, OwnedWired, Listed, Kinds, Chain, At, FirstLater;
      ListStep(nodes.timer, known, timerList, 0);
      at := nodes.timer.next[Head(())];
      ghost var i := 0;
      while at != Head(()) && expires[at.elem] <= e
        invariant i <= |timerList| && at == if i < |timerList| then Elem(timerList[i]) else Head(())
        invariant forall k :: 0 <= k < i ==> expires[timerList[k]] <= e
        decreases |timerList| - i
      {
        i := i + 1;
        ListStep(nodes.timer, known, timerList, i);
        at := nodes.timer.next[at];
      }
      FirstLaterIs(expires, timerList, e, i);
      ChainAt((), timerList, i);
    }

    /** The node of `t` goes to the place of its deadline. */
    method TimerLink(t: TaskId)
      requires Wired() && t in known && t in expires && t !in timerList
      requires forall k :: 0 <= k < |timerList| ==> timerList[k] in expires
      modifies this`nodes, this`timerList
      ensures Wired() && timerList == InsertAt(old(timerList), FirstLater(expires, old(timerList), expires[t]), t)
    {
      hide QueuesWired, ListWired, OwnedWired, Listed, Kinds, Insert, Chain, At, InsertAt, FirstLater;
      var at := FindTimerPlace(expires[t]);
      ghost var i := FirstLater(expires, timerList, expires[t]);
      ListLinked(nodes.timer, known, timerList, i, t);
      nodes := nodes.(timer := Insert(nodes.timer, at, Elem(t)));
      timerList := InsertAt(timerList, i, t);
    }

    method SetDeadline(t: TaskId, e: nat)
      requires Wired()
      modifies this`expires
      ensures Wired() && expires == old(expires)[t := e]
    {
      hide Spells;
      ghost var k := View();
      expires := expires[t := e];
      SpellsSame(nodes, known, roster, plain, k, View());
    }

    /** The deadline of the first timer is cached. */
    method CacheDeadline()
      requires Wired() && (timerList != [] ==> timerList[0] in expires)
      modifies this`timerExpires
      ensures Wired() && timerExpires == if timerList == [] then UINT_MAX else expires[timerList[0]]
    {
      hide Spells;
      ghost var k := View();
      var first := FirstTimer();
      timerExpires := if first.None? then UINT_MAX else expires[first.value];
      SpellsSame(nodes, known, roster, plain, k, View());
    }

    /** `scheduler_timer_push`, of a timer that runs or not */
    method TimerPush(t: TaskId, delay: nat)
      requires Wired() && Tm.Good(Timers()) && t in known
      modifies this`nodes, this`expires, this`timerList, this`timerExpires
      ensures Wired() && View() == old(View()).(timers := Tm.Push(old(Timers()), t, GetTicks(), delay))
    {
      hide Spells, NoDup, Without, InsertAt, FirstLater, Tm.Good, Tm.Push;
      TimerPushIs(Timers(), t, GetTicks(), delay);
      TimerUnlink(t);
      SetDeadline(t, (GetTicks() + delay) % WORD);
      TimerLink(t);
      CacheDeadline();
    }

    /** `sched_list_remove` of a timer node */
    method TimerUnlink(t: TaskId)
      requires Wired() && NoDup(timerList) && t in known
      modifies this`nodes, this`timerList
      ensures Wired() && timerList == Without(old(timerList), t) && t !in timerList
    {
      hide QueuesWired, ListWired, OwnedWired, Listed, Kinds, Unlink, NoDup, Without;
      ListUnlinked(nodes.timer, known, timerList, t);
      nodes := nodes.(timer := Unlink(nodes.timer, Elem(t)));
      timerList := Without(timerList, t);
    }

    /** `scheduler_timer_remove` */
    method TimerRemove(t: TaskId)
      requires Wired() && Tm.Good(Timers()) && t in known
      modifies this`nodes, this`timerList, this`timerExpires
      ensures Wired() && View() == old(View()).(timers := Tm.Remove(old(Timers()), t))
    {
      hide Spells, NoDup, Without;
      Tm.UnlinkGood(expires, timerList, t);
      TimerUnlink(t);
      CacheDeadline();
    }

    /** `scheduler_timer_pop` */
    method TimerPop() returns (t: Option<TaskId>)
      requires Wired() && Tm.Good(Timers())
      modifies this`nodes, this`timerList, this`timerExpires
      ensures Wired() && (t.Some? <==> Tm.HeadDue(old(Timers()), GetTicks()))
      ensures if t.None? then View() == old(View())
              else t.value == old(timerList)[0] && View() == old(View()).(timers := Tm.Remove(old(Timers()), t.value))
    {
      hide Spells, NoDup, Without;
      t := FirstTimer();
      if t.Some? && expires[t.value] <= GetTicks() {
        TimerRemove(t.value);
      } else {
        t := None;
      }
    }

    // ----- the list of all tasks

    /** `scheduler_task_alive` */
    method IsAlive(t: TaskId) returns (alive: bool)
      requires Wired()
      ensures alive == (t in tasks)
    {
      hide QueuesWired, ListWired, OwnedWired, Kinds, NoDup;
      ghost var i := 0;
      ListStep(nodes.task, known, roster, 0);
      var node: ListNode := nodes.task.next[Head(())];
      while node != Head(())
        invariant i <= |roster| && node == if i < |roster| then Elem(roster[i]) else Head(())
        invariant forall j :: 0 <= j < i ==> roster[j] != t
        decreases |roster| - i
      {
        if node == Elem(t) {
          assert t in roster;
          return true;
        }
        i := i + 1;
        ListStep(nodes.task, known, roster, i);
        node := nodes.task.next[node];
      }
      assert t !in roster;
      alive := false;
    }

    /** A task that is on no queue leaves the list of all tasks. */
    method DropTask(t: TaskId)
      requires Wired() && t in tasks && t in entry && entry[t].link.None?
      modifies this`nodes, this`roster, this`entry, this`tasks
      ensures Wired() && View() == old(View()).(queues := Q.Forget(old(Queues()), t), tasks := old(tasks) - {t})
    {
      hide QueuesWired, ListWired, OwnedWired, Listed, Kinds, Unlink, Without;
      WiredForget(nodes.queue, futexes.Keys, known, Queues(), t);
      ListedDied(nodes.task, known, roster, tasks.Keys, t);
      nodes := nodes.(task := Unlink(nodes.task, Elem(t)));
      roster := Without(roster, t);
      entry, tasks := entry - {t}, tasks - {t};
      assert tasks.Keys == old(tasks).Keys - {t};
    }

    /** The nodes of a new task are initialised and it joins the list of all tasks. */
    method InitNodes(t: TaskId, prio: nat, affinity: Option<CoreId>, daemon: bool)
      requires Wired() && Sane(View()) && t !in tasks && owned.List(t) == []
      modifies this`nodes, this`roster, this`known
      ensures Spells(nodes, known, roster, plain, Born(View(), t, prio, affinity, daemon))
    {
      hide Sane, Spells, Insert, InsertAt, Born, Blank;
      SpellsBorn(nodes, known, roster, plain, View(), t, prio, affinity, daemon);
      var m := Blank(nodes, t);
      nodes := m.(task := Insert(m.task, Head(()), Elem(t)));
      roster, known := InsertAt(roster, |roster|, t), known + {t};
    }

    method AdmitTask(t: TaskId, prio: nat, affinity: Option<CoreId>, daemon: bool)
      requires Wired() && Sane(View()) && t !in tasks && owned.List(t) == []
      modifies this`nodes, this`roster, this`known, this`entry, this`clock, this`tasks
      ensures Wired() && View() == Born(old(View()), t, prio, affinity, daemon)
    {
      hide Sane, Spells, Born;
      BornIs(View(), t, prio, affinity, daemon);
      InitNodes(t, prio, affinity, daemon);
      entry, clock := entry[t := Q.Entry(prio, None, clock)], clock + 1;
      tasks := tasks[t := Task(Suspended, NO_CORE, prio, 0, affinity, daemon)];
    }

    // ----- the steps the handlers are made of

    /** `scheduler_request_switch` */
    method RequestSwitchOn(c: CoreId)
      requires Wired()
      modifies this`pending
      ensures Wired() && View() == RequestSwitch(old(View()), c)
    {
      hide QueuesWired, ListWired, OwnedWired, Listed, Kinds;
      pending := pending + {c};
    }

    /** The fields of a live task, but for those that the queues and timers use. */
    method UpdateTask(t: TaskId, d: Task)
      requires Wired() && t in tasks
      modifies this`tasks
      ensures Wired() && View() == SetTask(old(View()), t, d)
    {
      hide Spells, Sane;
      SpellsTask(nodes, known, roster, plain, View(), t, d);
      tasks := tasks[t := d];
    }

    method StoreWord(f: FutexId, v: int)
      requires Wired() && f in futexes
      modifies this`futexes
      ensures Wired() && View() == SetWord(old(View()), f, v)
    {
      hide Spells, Sane;
      SpellsWord(nodes, known, roster, plain, View(), f, v);
      futexes := futexes[f := futexes[f].(value := v)];
    }

    method SetCurrent(c: CoreId, t: Option<TaskId>)
      requires Wired()
      modifies this`current
      ensures Wired()
      ensures View() == old(View()).(current := if t.Some? then old(current)[c := t.value] else old(current) - {c})
    {
      hide QueuesWired, ListWired, OwnedWired, Listed, Kinds;
      current := if t.Some? then current[c := t.value] else current - {c};
    }

    /** Off whatever queue it is on. */
    method Unqueue(t: TaskId)
      requires Wired() && Sane(View()) && t in tasks
      modifies this`nodes, this`entry, this`lists
      ensures Wired() && View() == Dequeue(old(View()), t)
    {
      hide Spells, Sane, Dequeue, Q.Remove, Q.Linked;
      DequeueIs(View(), t);
      QueueRemove(t);
    }

    method Enter(id: Q.QueueId, t: TaskId)
      requires Wired() && Sane(View()) && t in tasks && View().Link(t).None? && HasHead(futexes.Keys, id)
      modifies this`nodes, this`entry, this`lists, this`clock
      ensures Wired() && View() == Enqueue(old(View()), id, t)
    {
      hide Spells, Sane, Enqueue, Q.Push, Q.Linked;
      EnqueueIs(View(), id, t);
      QueuePush(id, t);
    }

    method ChangePriority(t: TaskId, p: nat)
      requires Wired() && Sane(View()) && t in tasks
      modifies this`nodes, this`entry, this`lists, this`clock
      ensures Wired() && View() == Reprioritize(old(View()), t, p)
    {
      hide Spells, Sane, Reprioritize, Q.Reprioritize, Q.Linked;
      ReprioritizeIs(View(), t);
      QueueReprioritize(t, p);
    }

    method ClearTimer(t: TaskId)
      requires Wired() && Sane(View()) && t in tasks
      modifies this`nodes, this`timerList, this`timerExpires
      ensures Wired() && View() == StopTimer(old(View()), t)
    {
      hide Spells, Sane, StopTimer, Tm.Good, Tm.Remove;
      Parts(View());
      StopTimerIs(View(), t);
      SpellsTask(nodes, known, roster, plain, View(), t, tasks[t]);
      TimerRemove(t);
    }

    /** A timeout, if one was asked for. */
    method ArmTimer(t: TaskId, delay: nat)
      requires Wired() && Sane(View()) && t in tasks
      modifies this`nodes, this`expires, this`timerList, this`timerExpires
      ensures Wired() && View() == if delay < WAIT_FOREVER then StartTimer(old(View()), t, delay) else old(View())
    {
      hide Spells, Sane, Tm.Good, Tm.Push, StartTimer;
      if delay < WAIT_FOREVER {
        Parts(View());
        StartTimerIs(View(), t, delay);
        SpellsTask(nodes, known, roster, plain, View(), t, tasks[t]);
        TimerPush(t, delay);
      }
    }

    /** `t` competes for a core again. */
    method PushReady(t: TaskId)
      requires Wired() && Sane(View()) && t in tasks && View().Link(t).None?
      modifies this`nodes, this`entry, this`lists, this`clock, this`tasks
      ensures Wired() && View() == MakeReady(old(View()), t)
    {
      hide Spells, Sane, Enqueue, SetTask;
      ReadyIs(View(), t);
      UpdateTask(t, tasks[t].(state := Ready));
      Enter(Q.ReadyQueue, t);
    }

    /** The caller's frame is saved and its core must find another task. */
    method LeaveCore(c: CoreId)
      requires Wired() && Sane(View()) && c in current && current[c] in tasks
      modifies this`tasks, this`current, this`pending
      ensures Wired() && View() == Leave(old(View()), c)
    {
      hide Spells, Sane;
      UpdateTask(current[c], tasks[current[c]].(result := 0));
      SetCurrent(c, None);
      RequestSwitchOn(c);
    }

    /** A task leaves its queue with `result`, and is ready. */
    method ReturnWith(t: TaskId, result: int)
      requires Wired() && Sane(View()) && t in tasks
      modifies this`nodes, this`entry, this`lists, this`clock, this`tasks
      ensures Wired() && View() == Returned(old(View()), t, result)
    {
      hide Spells, Sane, Dequeue, MakeReady, SetTask;
      ReturnIs(View(), t, result);
      Unqueue(t);
      UpdateTask(t, tasks[t].(result := result));
      PushReady(t);
    }

    /** A task leaves its queue and its timer with `result`, and is ready. */
    method RouseTask(t: TaskId, result: int)
      requires Wired() && Sane(View()) && t in tasks
      modifies this`nodes, this`entry, this`lists, this`clock, this`timerList, this`timerExpires, this`tasks
      ensures Wired() && View() == Rouse(old(View()), t, result)
    {
      hide Spells, Sane, StopTimer, Dequeue, MakeReady, Rouse;
      RouseIs(View(), t, result);
      ClearTimer(t);
      ReturnWith(t, result);
    }

    // ----- service handlers, called by the task that runs on core `c`

    /** `scheduler_create_svc`, with the initialisation of the nodes by `scheduler_create` */
    method CreateSvc(c: CoreId, t: TaskId, prio: nat, affinity: Option<CoreId>, daemon: bool, suspended: bool)
      requires Valid() && Calls(View(), c) && t !in tasks && owned.List(t) == []
      modifies this
      ensures Valid() && deferred == old(deferred) && View() == Create(old(View()), c, t, prio, affinity, daemon, suspended)
    {
      hide Spells, AllTallied, Sane, MakeReady, Born;
      ghost var k := View();
      CallerKnown(k, c);
      BornIs(k, t, prio, affinity, daemon);
      AdmitTask(t, prio, affinity, daemon);
      if !suspended {
        var urgent := prio < entry[current[c]].prio;
        assert urgent == (prio < k.Prio(k.current[c]));
        PushReady(t);
        if urgent {
          RequestSwitchOn(c);
        }
      }
    }

    /** `scheduler_suspend_svc` */
    method SuspendSvc(c: CoreId, t: TaskId, delay: nat) returns (r0: int)
      requires Valid() && Calls(View(), c)
      modifies this
      ensures Valid() && deferred == old(deferred) && (View(), r0) == Suspend(old(View()), c, t, delay)
    {
      hide Spells, AllTallied, Sane, ParkOther, Park, StartTimer, Leave;
      var alive := IsAlive(t);
      if !alive {
        return -ESRCH;
      }
      ParkTask(c, t);
      ArmTimer(t, delay);
      LeaveCore(c);
      r0 := 0;
    }

    /** A task is suspended, the caller or another one. */
    method ParkTask(c: CoreId, t: TaskId)
      requires Wired() && Calls(View(), c) && t in tasks
      modifies this`nodes, this`entry, this`lists, this`clock, this`timerList, this`timerExpires, this`tasks
      ensures Wired() && View() == if t != old(View()).current[c] then ParkOther(old(View()), c, t) else Park(old(View()), c)
      ensures t in tasks && current[c] in tasks
    {
      hide Spells, Sane, ParkOther;
      if t != current[c] {
        SuspendOther(c, t);
      } else {
        UpdateTask(t, tasks[t].(state := Suspended, core := NO_CORE));
      }
    }

    /** ... on another task: it leaves its queue and its timer, the caller competes again. */
    method SuspendOther(c: CoreId, t: TaskId)
      requires Wired() && Calls(View(), c) && t in tasks && t != current[c]
      modifies this`nodes, this`entry, this`lists, this`clock, this`timerList, this`timerExpires, this`tasks
      ensures Wired() && View() == ParkOther(old(View()), c, t) && t in tasks && current[c] in tasks
    {
      hide Spells, Sane, Dequeue, StopTimer, MakeReady, SetTask;
      ParkOtherIs(View(), c, t);
      Unqueue(t);
      ClearTimer(t);
      UpdateTask(t, tasks[t].(state := Suspended, core := NO_CORE));
      PushReady(current[c]);
    }

    /** `scheduler_resume_svc` */
    method ResumeSvc(c: CoreId, t: TaskId) returns (r0: int)
      requires Valid() && Calls(View(), c)
      modifies this
      ensures Valid() && deferred == old(deferred) && (View(), r0) == Resume(old(View()), c, t)
    {
      hide Spells, AllTallied, Sane, Rouse;
      var alive := IsAlive(t);
      if !alive {
        return -ESRCH;
      }
      r0 := 0;
      if tasks[t].state.Blocked? || tasks[t].state.Suspended? {
        RouseTask(t, if tasks[t].state.Blocked? then -ECANCELED else tasks[t].result);
      } else {
        r0 := -EINVAL;
      }
      RequestSwitchOn(c);
    }

    /** The caller joins the queue of `f`, with a timeout if it asked for one. */
    method JoinQueue(c: CoreId, f: FutexId, delay: nat)
      requires Wired() && Calls(View(), c) && f in futexes
      modifies this`nodes, this`entry, this`lists, this`clock, this`expires, this`timerList, this`timerExpires, this`tasks
      ensures Wired() && View() == Block(old(View()), c, f, delay)
    {
      hide Spells, Sane, StartTimer, Enqueue, SetTask;
      BlockIs(View(), c, delay);
      var cur := current[c];
      ArmTimer(cur, delay);
      UpdateTask(cur, tasks[cur].(state := Blocked, core := NO_CORE));
      Enter(Q.WaitersOf(f), cur);
    }

    /** `sched_list_is_linked` of the owned node of `f` */
    method IsOwned(f: FutexId) returns (linked: bool)
      requires Wired() && Ow.Good(owned) && f in futexes
      ensures linked == (f in owned.link)
    {
      hide QueuesWired, ListWired, OwnedWired, Listed, Kinds, Ow.Good;
      OwnedLinkedTest(nodes.owned, futexes.Keys, known, owned, f);
      linked := nodes.owned.next[Elem(f)] != Elem(f);
    }

    /** `sched_list_add` to the owned futexes of `t`, of a futex whose node is not linked */
    method OwnedAdd(t: TaskId, f: FutexId)
      requires Wired() && Ow.Good(owned) && t in known && f in futexes && f !in owned.link
      modifies this`nodes, this`owned
      ensures Wired() && View() == old(View()).(owned := Ow.Add(old(owned), t, f))
    {
      hide QueuesWired, ListWired, OwnedWired, Listed, Kinds, Insert, Ow.Good, Ow.Add;
      OwnedAdded(nodes.owned, futexes.Keys, known, owned, t, f);
      nodes := nodes.(owned := Insert(nodes.owned, Head(t), Elem(f)));
      owned := Ow.Add(owned, t, f);
    }

    /** `sched_list_remove` of the owned node of `f`, linked or not */
    method OwnedRemove(f: FutexId)
      requires Wired() && Ow.Good(owned) && f in futexes
      modifies this`nodes, this`owned
      ensures Wired() && View() == old(View()).(owned := Ow.Unlink(old(owned), f))
    {
      hide QueuesWired, ListWired, OwnedWired, Listed, Kinds, Unlink, Ow.Good, Ow.Unlink;
      OwnedUnlinked(nodes.owned, futexes.Keys, known, owned, f);
      nodes := nodes.(owned := Unlink(nodes.owned, Elem(f)));
      owned := Ow.Unlink(owned, f);
    }

    /** The futex is linked to its owner, unless it already is. */
    method LinkOwner(f: FutexId, owner: TaskId)
      requires Wired() && Sane(View()) && owner in tasks && f in futexes
      modifies this`nodes, this`owned
      ensures Wired() && View() == LinkToOwner(old(View()), f, owner)
    {
      hide Spells, Sane, Ow.Add, Ow.Good;
      Parts(View());
      LinkIs(View(), f, owner);
      SpellsTask(nodes, known, roster, plain, View(), owner, tasks[owner]);
      var linked := IsOwned(f);
      if !linked {
        OwnedAdd(owner, f);
      }
    }

    /** Link the futex to its owner and lend the owner the priority of the head waiter. */
    method InheritFrom(f: FutexId, owner: TaskId)
      requires Wired() && Sane(View()) && owner in tasks && f in futexes
      modifies this`nodes, this`entry, this`lists, this`clock, this`owned
      ensures Wired() && View() == Inherit(old(View()), f, owner)
    {
      hide Spells, Sane, Q.Linked, Q.HighestPriority, Reprioritize, LinkToOwner;
      LinkOwner(f, owner);
      ReprioritizeIs(View(), owner);
      var highest := HighestPriority(Q.WaitersOf(f));
      if highest < entry[owner].prio {
        ChangePriority(owner, highest);
      }
    }

    /** `scheduler_wait_svc` */
    method WaitSvc(c: CoreId, f: FutexId, expected: int, delay: nat)
      requires Valid() && Calls(View(), c) && f in futexes
      requires futexes[f].kind == Mutex(true) && ShouldBlock(futexes[f], expected) ==> OwnerLive(View(), futexes[f].value)
      modifies this
      ensures Valid() && deferred == old(deferred) && View() == Wait(old(View()), c, f, expected, delay)
    {
      hide Spells, AllTallied, Sane, JoinWaiters, Leave, Q.Push;
      var value := if futexes[f].kind.Mutex? then SetContended(expected) else expected;
      if futexes[f].value == expected || futexes[f].value == value {
        JoinFutex(c, f, expected, value, delay);
      } else {
        PushReady(current[c]);
      }
      LeaveCore(c);
    }

    /** The word is marked, the caller joins the waiters, and the owner inherits its priority. */
    method JoinFutex(c: CoreId, f: FutexId, expected: int, value: int, delay: nat)
      requires Wired() && Calls(View(), c) && f in futexes && ShouldBlock(futexes[f], expected)
      requires value == WaitValue(futexes[f].kind, expected)
      requires futexes[f].kind == Mutex(true) ==> OwnerLive(View(), futexes[f].value)
      modifies this`nodes, this`entry, this`lists, this`clock, this`expires, this`timerList, this`timerExpires, this`owned,
               this`tasks, this`futexes
      ensures Wired() && View() == JoinWaiters(old(View()), c, f, expected, delay)
    {
      hide Spells, Sane, Block, Inherit;
      SameOwner(futexes[f], expected);
      BlockMarks(View(), c, f, value, delay);
      StoreWord(f, value);
      JoinQueue(c, f, delay);
      if futexes[f].kind == Mutex(true) {
        InheritFrom(f, OwnerOf(value));
      }
    }

    // ----- waking

    /** The most urgent of `best` and the head waiters of what `owner` owns. */
    method HighestWaiter(owner: TaskId, best: nat) returns (p: nat)
      requires Wired() && Q.Linked(Queues()) && Ow.Good(owned) && owner in known
      ensures p == MostUrgent(Queues(), owned.List(owner), best)
    {
      hide QueuesWired, ListWired, OwnedWired, Listed, Kinds, Q.Linked, Ow.Good, Q.HighestPriority;
      p := best;
      ghost var fs := owned.List(owner);
      ghost var i := 0;
      OwnedStep(nodes.owned, futexes.Keys, known, owned, owner, 0);
      var node: OwnedNode := nodes.owned.next[Head(owner)];
      while node != Head(owner)
        invariant i <= |fs| && node == if i < |fs| then Elem(fs[i]) else Head(owner)
        invariant MostUrgent(Queues(), fs[i..], p) == MostUrgent(Queues(), fs, best)
        decreases |fs| - i
      {
        OwnedHasHead(nodes.owned, futexes.Keys, known, owned, owner, i);
        var highest := HighestPriority(Q.WaitersOf(node.elem));
        if highest < p {
          p := highest;
        }
        i := i + 1;
        OwnedStep(nodes.owned, futexes.Keys, known, owned, owner, i);
        node := nodes.owned.next[node];
      }
    }

    /** The owner gives back what `f` lent it. */
    method LowerOwner(f: FutexId, owner: TaskId)
      requires Wired() && Sane(View()) && owner in tasks && f in futexes
      modifies this`nodes, this`entry, this`lists, this`clock, this`owned
      ensures Wired() && View() == Deboost(old(View()), f, owner)
    {
      hide Spells, Sane, Q.Linked, MostUrgent, Reprioritize, Ow.Unlink, Ow.Good;
      ghost var k := View();
      Parts(k);
      UnlinkIs(k, f);
      SpellsTask(nodes, known, roster, plain, k, owner, tasks[owner]);
      OwnedRemove(f);
      Parts(View());
      var p := HighestWaiter(owner, tasks[owner].base);
      ChangePriority(owner, p);
    }

    /** The new owner `t` inherits from those who still wait. */
    method LendTo(f: FutexId, t: TaskId)
      requires Wired() && Sane(View()) && t in tasks && View().Link(t).None? && f in futexes
      requires futexes[f].kind == Mutex(true) ==> f !in owned.link
      modifies this`nodes, this`entry, this`lists, this`clock, this`owned
      ensures Wired() && View() == Lend(old(View()), f, t)
    {
      hide Spells, Sane, Q.Linked, Q.HighestPriority, Reprioritize, Ow.Add, Ow.Good;
      ghost var k := View();
      Parts(k);
      var last := QueueEmpty(Q.WaitersOf(f));
      if futexes[f].kind == Mutex(true) && !last {
        AddIs(k, f, t);
        SpellsTask(nodes, known, roster, plain, k, t, tasks[t]);
        OwnedAdd(t, f);
        Parts(View());
        var p := HighestPriority(Q.WaitersOf(f));
        ChangePriority(t, p);
      }
    }

    /** The head waiter leaves the queue; a mutex is handed to it. */
    method TakeHead(f: FutexId) returns (t: Option<TaskId>)
      requires Wired() && Sane(View()) && f in futexes
      modifies this`nodes, this`entry, this`lists, this`futexes
      ensures Wired() && t == if old(View()).Waiters(f) == [] then None else Some(old(View()).Waiters(f)[0])
      ensures View() == if t.None? then old(View()) else HandOver(old(View()), f)
    {
      hide Spells, Sane, Q.Linked, Q.Remove, HandOver;
      ghost var k := View();
      Parts(k);
      t := QueuePop(Q.WaitersOf(f));
      if t.Some? {
        HandOverIs(k, f);
        if futexes[f].kind.Mutex? {
          StoreWord(f, t.value);
        }
      }
    }

    /** One turn of the loop in `scheduler_wake_futex`: the head waiter, if there is one, becomes ready. */
    method WakeHead(f: FutexId) returns (t: Option<TaskId>)
      requires Wired() && Sane(View()) && f in futexes
      requires futexes[f].kind == Mutex(true) ==> f !in owned.link
      modifies this`nodes, this`entry, this`lists, this`clock, this`timerList, this`timerExpires, this`owned, this`tasks,
               this`futexes
      ensures Wired() && (t.None? <==> old(View()).Waiters(f) == [])
      ensures View() == if t.None? then old(View()) else WakeOne(old(View()), f)
    {
      hide Spells, Sane, HandOver, Lend, MakeReady, StopTimer;
      t := TakeHead(f);
      if t.Some? {
        LendTo(f, t.value);
        StopTimerIs(View(), t.value);
        ClearTimer(t.value);
        PushReady(t.value);
      }
    }

    /** The loop, which stops after one task unless it is to wake all of them. */
    method WakeQueued(f: FutexId, all: bool) returns (woken: nat)
      requires Wired() && Sane(View()) && f in futexes
      requires futexes[f].kind == Mutex(true) ==> f !in owned.link
      modifies this`nodes, this`entry, this`lists, this`clock, this`timerList, this`timerExpires, this`owned, this`tasks,
               this`futexes
      ensures Wired() && View() == WakeLoop(old(View()), f, all) && woken == WokenBy(old(View()), f, all)
    {
      hide Spells, Sane, WakeOne;
      ghost var k := View();
      woken := 0;
      while true
        invariant Wired() && Sane(View()) && f in futexes && futexes[f].kind == k.futexes[f].kind
        invariant futexes[f].kind == Mutex(true) ==> f !in owned.link
        invariant WakeLoop(View(), f, all) == WakeLoop(k, f, all)
        invariant woken + WokenBy(View(), f, all) == WokenBy(k, f, all)
        invariant woken == 0 || (all && futexes[f].kind.Plain?)
        decreases |View().Waiters(f)|
      {
        ghost var before := View();
        var t := WakeHead(f);
        if t.None? {
          break;
        }
        WakeOneKeeps(before, f);
        woken := woken + 1;
        if !all || futexes[f].kind.Mutex? {
          break;
        }
      }
    }

    /** `scheduler_wake_futex` */
    method WakeTasks(f: FutexId, all: bool) returns (woken: nat)
      requires Wired() && Sane(View()) && f in futexes
      requires futexes[f].kind == Mutex(true) ==> OwnerLive(View(), futexes[f].value)
      modifies this`nodes, this`entry, this`lists, this`clock, this`timerList, this`timerExpires, this`owned, this`tasks,
               this`futexes
      ensures Wired() && View() == WakeFutex(old(View()), f, all) && woken == WokenBy(old(View()), f, all)
    {
      hide Spells, Sane, Deboost, WakeLoop, WokenBy;
      ghost var k := View();
      if futexes[f].kind == Mutex(true) {
        LowerOwner(f, OwnerOf(futexes[f].value));
      }
      assert View() == Lowered(k, f);
      LoweredLengths(k, f, all);
      woken := WakeQueued(f, all);
      if futexes[f].kind.Mutex? {
        var nobody := QueueEmpty(Q.WaitersOf(f));
        var v := futexes[f].value;
        StoreWord(f, if nobody then OwnerOf(v) else SetContended(v));
      }
    }

    /** `scheduler_wake_svc` */
    method WakeSvc(c: CoreId, f: FutexId, all: bool) returns (woken: nat)
      requires Valid() && Calls(View(), c) && f in futexes
      requires futexes[f].kind == Mutex(true) ==> OwnerLive(View(), futexes[f].value)
      modifies this
      ensures Valid() && deferred == old(deferred) && (View(), woken) == Wake(old(View()), c, f, all)
    {
      hide Spells, AllTallied, Sane, WakeFutex, WokenBy;
      woken := WakeTasks(f, all);
      if woken > 0 {
        RequestSwitchOn(c);
      }
    }

    /** `scheduler_terminate_svc` */
    method TerminateSvc(c: CoreId, t: TaskId) returns (r0: int)
      requires Valid() && Calls(View(), c)
      modifies this
      ensures Valid() && deferred == old(deferred) && (View(), r0) == Terminate(old(View()), c, t)
    {
      hide Spells, AllTallied, Sane, Bury;
      var alive := IsAlive(t);
      if !alive {
        return -ESRCH;
      }
      var self := t == current[c];
      BuryTask(t);
      if self {
        SetCurrent(c, None);
        RequestSwitchOn(c);
      }
      r0 := 0;
    }

    method BuryTask(t: TaskId)
      requires Wired() && Sane(View()) && t in tasks
      modifies this`nodes, this`entry, this`lists, this`timerList, this`timerExpires, this`roster, this`tasks
      ensures Wired() && View() == Bury(old(View()), t)
    {
      hide Spells, Sane, Q.Linked, Tm.Good, Tm.Remove, Q.Remove;
      Parts(View());
      BuryIs(View(), t);
      SpellsTask(nodes, known, roster, plain, View(), t, tasks[t]);
      QueueRemove(t);
      TimerRemove(t);
      DropTask(t);
    }

    /** `scheduler_priority_svc` */
    method PrioritySvc(c: CoreId, t: TaskId, p: nat) returns (r0: int)
      requires Valid() && Calls(View(), c)
      modifies this
      ensures Valid() && deferred == old(deferred) && (View(), r0) == SetPriority(old(View()), c, t, p)
    {
      hide Spells, AllTallied, Sane, Reprioritize;
      var alive := IsAlive(t);
      if !alive {
        return -ESRCH;
      }
      UpdateTask(t, tasks[t].(base := p));
      ChangePriority(t, p);
      RequestSwitchOn(c);
      r0 := 0;
    }

    // ----- interrupt handlers, the tick and the context switch

    /** `scheduler_futex_wake` from an interrupt handler on core `c`: the wake is put into a slot for the next switch. */
    method Defer(c: CoreId, f: FutexId, all: bool) returns (r: int)
      requires Valid() && c < cores && f in futexes && f > 0 && f % 2 == 0
      modifies this`deferred, this`pending
      ensures Valid() && |old(deferred)| == cores
      ensures futexes[f].kind.Mutex? ==> r == -EINVAL && View() == old(View()) && deferred == old(deferred)
      ensures futexes[f].kind.Plain? ==> var w := Tagged(f, all); var d := old(deferred)[c];
                forall s: D.State {:trigger D.Post(s, w)} :: s.slots == d.slots && s.given == d.given ==>
                  var (s', v) := D.Post(s, w);
                  && deferred == old(deferred)[c := d.(slots := s'.slots, given := s'.given)]
                  && r == (if v == D.NoSpace then -ENOSPC else 0)
                  && View() == if v == D.Stored then RequestSwitch(old(View()), c) else old(View())
    {
      hide QueuesWired, ListWired, OwnedWired, Listed, Sane, Tallied, D.Find;
      if futexes[f].kind.Mutex? {
        return -EINVAL;
      }
      var w := Tagged(f, all);
      assert FutexOf(w) == f && f in plain && Tallied(deferred[c], plain);
      var slots := deferred[c].slots;
      var i := 0;
      while i < |slots|
        invariant i <= |slots|
        invariant forall j :: 0 <= j < i ==> slots[j] != 0 && slots[j] != w
      {
        if slots[i] == 0 {
          D.FindAt(slots, w, i);
          SlotGiven(deferred[c], plain, i, w);
          deferred := deferred[c := deferred[c].(slots := slots[i := w], given := (deferred[c].given + 1) % WORD)];
          RequestSwitchOn(c);
          return 0;
        } else if slots[i] == w {
          D.FindAt(slots, w, i);
          return 0;
        }
        i := i + 1;
      }
      D.FindAt(slots, w, i);
      r := -ENOSPC;
    }

    /** `scheduler_tick` on core `c`; `sliced` when its time slice has run out. */
    method TickIrq(c: CoreId, sliced: bool)
      requires Valid()
      modifies this`ticks, this`pending
      ensures Valid() && View() == Tick(old(View()), c, sliced)
    {
      hide QueuesWired, ListWired, OwnedWired, Listed, Kinds, Sane, AllTallied;
      ticks := ticks[c := ((if c in ticks then ticks[c] else 0) + 1) % WORD];
      if timerExpires <= GetTicks() {
        RequestSwitchOn(c);
      }
      if sliced {
        RequestSwitchOn(c);
      }
    }

    /** Slot `i` is emptied, what it held is performed and counted. */
    method TakeSlot(c: CoreId, i: nat)
      requires Wired() && Sane(View()) && c < |deferred| && i < |deferred[c].slots| && Tallied(deferred[c], plain)
      modifies this`nodes, this`entry, this`lists, this`clock, this`timerList, this`timerExpires, this`owned, this`tasks,
               this`futexes, this`deferred
      ensures c < |old(deferred)| && i < |old(deferred)[c].slots|
      ensures Wired() && deferred == old(deferred)[c := Emptied(old(deferred)[c], i)]
      ensures var w := old(deferred)[c].slots[i];
              PlainOnly(old(View()), WakeOf(w)) && View() == WakeDeferred(old(View()), WakeOf(w))
    {
      hide Spells, Sane, Tallied, WakeFutex, WakeDeferred, PlainOnly;
      var w := deferred[c].slots[i];
      SlotPlain(nodes, known, roster, plain, View(), deferred[c], i);
      deferred := deferred[c := deferred[c].(slots := deferred[c].slots[i := 0])];
      if w != 0 {
        var woken := WakeTasks(FutexOf(w), w % 2 == 1);
        deferred := deferred[c := deferred[c].(taken := (deferred[c].taken + 1) % WORD)];
      }
    }

    /** The deferred wakes of core `c`, slot by slot until the counters agree. */
    method WakeSlots(c: CoreId)
      requires Valid() && Sane(View()) && c < cores
      modifies this`nodes, this`entry, this`lists, this`clock, this`timerList, this`timerExpires, this`owned, this`tasks,
               this`futexes, this`deferred
      ensures Valid() && |old(deferred)| == cores && PlainOnly(old(View()), Wakes(old(deferred)[c].slots))
      ensures View() == WakeDeferred(old(View()), Wakes(old(deferred)[c].slots))
      ensures deferred == old(deferred)[c := deferred[c]] && deferred[c].taken == deferred[c].given == old(deferred)[c].given
      ensures forall i :: 0 <= i < |deferred[c].slots| ==> deferred[c].slots[i] == 0
    {
      hide Spells, Sane, Tallied, WakeDeferred, PlainOnly, Wakes, WakeOf;
      ghost var k := View();
      ghost var d0 := deferred[c];
      DeferredPlain(nodes, known, roster, plain, k, d0);
      assert d0.slots == d0.slots[0..] && deferred == deferred[c := d0];
      var i := 0;
      while deferred[c].taken != deferred[c].given && i < |deferred[c].slots|
        invariant Wired() && Sane(View()) && |deferred| == cores && deferred == old(deferred)[c := deferred[c]]
        invariant Tallied(deferred[c], plain) && deferred[c].given == d0.given
        invariant i <= |deferred[c].slots| && forall j :: 0 <= j < i ==> deferred[c].slots[j] == 0
        invariant PlainOnly(View(), Wakes(deferred[c].slots[i..]))
        invariant WakeDeferred(View(), Wakes(deferred[c].slots[i..])) == WakeDeferred(k, Wakes(d0.slots))
        decreases |deferred[c].slots| - i
      {
        SlotTaken(deferred[c], plain, i);
        WakesFrom(View(), deferred[c].slots, i);
        TakeSlot(c, i);
        i := i + 1;
      }
      SlotsTold(deferred[c], plain);
      NoWakes(deferred[c].slots[i..]);
      NothingDeferred(View());
    }

    /** One turn of the loop over the expired timers: the first of them, if any, readies its task. */
    method ExpireHead() returns (t: Option<TaskId>)
      requires Wired() && Sane(View())
      modifies this`nodes, this`entry, this`lists, this`clock, this`timerList, this`timerExpires, this`tasks
      ensures Wired() && Tm.Good(old(Timers())) && (t.Some? <==> Tm.HeadDue(old(Timers()), GetTicks()))
      ensures View() == if t.None? then old(View()) else ExpireOne(old(View()))
    {
      hide Spells, Sane, Tm.Good, Tm.Remove, ExpireOne, Returned;
      ghost var k := View();
      Parts(k);
      t := TimerPop();
      if t.Some? {
        ExpireOneIs(k);
        ReturnWith(t.value, -ETIMEDOUT);
      }
    }

    /** Every expired timer readies its task. */
    method ExpireTimers()
      requires Wired() && Sane(View())
      modifies this`nodes, this`entry, this`lists, this`clock, this`timerList, this`timerExpires, this`tasks
      ensures Wired() && View() == ExpireAll(old(View()))
    {
      hide Spells, Sane, Tm.Good, Tm.HeadDue, ExpireOne;
      ghost var k := View();
      while true
        invariant Wired() && Sane(View()) && ExpireAll(View()) == ExpireAll(k)
        decreases |timerList|
      {
        ghost var before := View();
        Parts(before);
        var t := ExpireHead();
        if t.None? {
          break;
        }
        ExpireOneIs(before);
      }
    }

    method IsOutranked(o: CoreId) returns (outranked: bool)
      requires Wired() && Sane(View())
      ensures outranked == Outranked(View(), o)
    {
      hide Spells, Q.Good, Q.Linked, Tm.Good, Ow.Good, Q.FirstIn, Eligible;
      var first := FirstFor(o);
      outranked := first.Some? && o in current && current[o] in tasks && entry[first.value].prio < entry[current[o]].prio;
    }

    /** Every other core that runs a task less urgent than one that could take its place is kicked. */
    method KickOthers(c: CoreId)
      requires Wired() && Sane(View()) && forall o :: o in current ==> o < cores
      modifies this`pending
      ensures Wired() && View() == old(View()).(pending := pending)
      ensures pending == old(pending) + set o | o in current && o != c && Outranked(old(View()), o)
    {
      hide Spells, Sane, Outranked;
      ghost var k := View();
      for core := 0 to cores
        invariant Wired() && View() == k.(pending := pending)
        invariant pending == k.pending + Kicked(k, c, core)
      {
        KickedNext(k, c, core);
        if core != c && core in current {
          OutrankedIs(k, View(), core);
          var outranked := IsOutranked(core);
          if outranked {
            RequestSwitchOn(core);
          }
        }
      }
      assert Kicked(k, c, cores) == set o | o in current && o != c && Outranked(k, o);
    }

    /** `scheduler_is_viable` */
    method IsViable() returns (viable: bool)
      requires Wired()
      ensures viable == Viable(View())
    {
      hide QueuesWired, ListWired, OwnedWired, Kinds, NoDup;
      ghost var i := 0;
      ListStep(nodes.task, known, roster, 0);
      var node: ListNode := nodes.task.next[Head(())];
      while node != Head(())
        invariant i <= |roster| && node == if i < |roster| then Elem(roster[i]) else Head(())
        invariant forall j :: 0 <= j < i ==> roster[j] in tasks && tasks[roster[j]].daemon
        decreases |roster| - i
      {
        assert node.elem in roster;
        if !tasks[node.elem].daemon {
          return true;
        }
        i := i + 1;
        ListStep(nodes.task, known, roster, i);
        node := nodes.task.next[node];
      }
      assert forall t :: t in tasks ==> t in roster;
      viable := false;
    }

    /** The running task goes back to the ready queue. */
    method RequeueCurrent(c: CoreId)
      requires Wired() && Calls(View(), c)
      modifies this`nodes, this`entry, this`lists, this`clock, this`tasks, this`current
      ensures Wired() && View() == Requeue(old(View()), c)
    {
      hide Spells, Sane, MakeReady;
      var t := current[c];
      UpdateTask(t, tasks[t].(core := NO_CORE));
      PushReady(t);
      SetCurrent(c, None);
    }

    /** The popped task `t` takes the core. */
    method RunTask(c: CoreId, t: TaskId)
      requires Wired() && Sane(View()) && t in tasks && c < cores && forall o :: o in current ==> o < cores
      modifies this`tasks, this`current, this`pending
      ensures Wired() && View() == Dispatch(old(View()), c, t)
    {
      hide Spells, Sane, Outranked;
      DispatchSane(View(), c, t);
      UpdateTask(t, tasks[t].(state := Running, core := c));
      SetCurrent(c, Some(t));
      KickOthers(c);
    }

    /** A task with a damaged stack, just popped, is dropped. */
    method EvictTask(t: TaskId)
      requires Wired() && Sane(View()) && t in tasks
      modifies this`nodes, this`entry, this`lists, this`timerList, this`roster, this`tasks
      ensures Wired() && View() == Evict(old(View()), t)
    {
      hide Spells, Sane, Q.Linked, Q.Remove, Without, NoDup;
      EvictIs(View(), t);
      SpellsTask(nodes, known, roster, plain, View(), t, tasks[t]);
      QueueRemove(t);
      TimerUnlink(t);
      DropTask(t);
    }

    /** The deferred wakes and the expired timers of a pass. */
    method ReadyDue(c: CoreId)
      requires Valid() && Sane(View()) && c < cores
      modifies this`nodes, this`entry, this`lists, this`clock, this`timerList, this`timerExpires, this`owned, this`tasks,
               this`futexes, this`deferred
      ensures Valid() && |old(deferred)| == cores && PlainOnly(old(View()), Wakes(old(deferred)[c].slots))
      ensures View() == ExpireAll(WakeDeferred(old(View()), Wakes(old(deferred)[c].slots)))
      ensures deferred == old(deferred)[c := deferred[c]] && deferred[c].taken == deferred[c].given == old(deferred)[c].given
      ensures forall i :: 0 <= i < |deferred[c].slots| ==> deferred[c].slots[i] == 0
    {
      hide Spells, Sane, AllTallied, WakeDeferred, ExpireAll, PlainOnly, Wakes;
      WakeSlots(c);
      ExpireTimers();
    }

    /** One pass of the loop in `scheduler_switch`. */
    method SwitchPass(c: CoreId, corrupt: set<TaskId>, started: bool) returns (o: Outcome)
      requires Valid() && Sane(View()) && c < cores && forall o :: o in current ==> o < cores
      modifies this
      ensures Valid() && |old(deferred)| == cores && PlainOnly(old(View()), Wakes(old(deferred)[c].slots))
      ensures (View(), o) == Round(old(View()), c, Wakes(old(deferred)[c].slots), corrupt, started) && o != Kept
      ensures deferred == old(deferred)[c := deferred[c]] && deferred[c].taken == deferred[c].given == old(deferred)[c].given
      ensures forall i :: 0 <= i < |deferred[c].slots| ==> deferred[c].slots[i] == 0
    {
      hide Spells, Sane, AllTallied, WakeDeferred, ExpireAll, Dequeue, Evict, Dispatch, Viable, PlainOnly, Wakes;
      ReadyDue(c);
      ghost var k1 := View();
      var t := QueuePopFor(c);
      if t.Some? && t.value !in corrupt {
        RunTask(c, t.value);
        return Dispatched(t.value);
      }
      if t.Some? {
        EvictTask(t.value);
        EvictPopped(k1, t.value);
      }
      var viable := IsViable();
      o := if !viable && started then Exited else Idling;
    }

    /** `scheduler_switch`, up to the point where the lock is released. */
    method SwitchSvc(c: CoreId, corrupt: set<TaskId>, started: bool) returns (o: Outcome)
      requires Valid() && Sane(View()) && c < cores && forall o :: o in current ==> o < cores
      requires c in current ==> Calls(View(), c)
      modifies this
      ensures Valid() && |old(deferred)| == cores && PlainOnly(old(View()), Wakes(old(deferred)[c].slots))
      ensures (View(), o) == Switch(old(View()), c, Wakes(old(deferred)[c].slots), corrupt, started)
      ensures deferred == old(deferred)[c := deferred[c]] && deferred[c].given == old(deferred)[c].given
      ensures if o == Kept then deferred == old(deferred)
              else deferred[c].taken == deferred[c].given && forall i :: 0 <= i < |deferred[c].slots| ==> deferred[c].slots[i] == 0
    {
      hide Spells, Sane, Tallied, Round, MakeReady, PlainOnly, Wakes;
      DeferredPlain(nodes, known, roster, plain, View(), deferred[c]);
      assert deferred == deferred[c := deferred[c]];
      ghost var k := View();
      pending := pending - {c};
      SpellsSame(nodes, known, roster, plain, k, View());
      SwitchReady(k, View(), c);
      if c in current {
        if locked < 0 {
          return Kept;
        }
        RequeueCurrent(c);
      }
      o := SwitchPass(c, corrupt, started);
    }
  }
}
