/** The nodes of the scheduler in memory, and the kernel state whose lists they form. */
module Memory {
  import opened Types
  import opened Sequences
  import opened Kernel
  import opened Steps
  import opened Rings
  import opened Wiring
  import Q = TaskQueues
  import Tm = TaskTimers
  import Ow = OwnedFutexes

  lemma BornIs(k: Kernel, t: TaskId, prio: nat, affinity: Option<CoreId>, daemon: bool)
    requires Sane(k) && t !in k.tasks
    ensures t !in k.queues.entry && t !in k.timers.list
    ensures Born(k, t, prio, affinity, daemon)
            == k.(queues := Q.Admit(k.queues, t, prio), tasks := k.tasks[t := Task(Suspended, NO_CORE, prio, 0, affinity, daemon)])
  {}

  /** The list of all tasks: exactly the live ones. */
  ghost predicate Listed(l: ListLinks, known: set<TaskId>, roster: seq<TaskId>, alive: set<TaskId>) {
    && ListWired(l, known, roster) && NoDup(roster)
    && (forall t :: t in roster <==> t in alive)
    && alive <= known
  }

  lemma ListedInit(l: ListLinks, known: set<TaskId>, roster: seq<TaskId>, alive: set<TaskId>, t: TaskId)
    requires Listed(l, known, roster, alive) && t !in alive
    ensures Listed(Init(l, Elem(t)), known + {t}, roster, alive)
  {
    hide ListWired, Init, NoDup;
    ListKnown(l, known, roster, t);
  }

  lemma ListedJoined(l: ListLinks, known: set<TaskId>, roster: seq<TaskId>, alive: set<TaskId>, t: TaskId)
    requires Listed(l, known, roster, alive) && t !in alive && t in known
    ensures Head(()) in l.prev
    ensures Listed(Insert(l, Head(()), Elem(t)), known, InsertAt(roster, |roster|, t), alive + {t})
  {
    hide ListWired, Insert, NoDup, InsertAt, Chain, At;
    ChainAt((), roster, |roster|);
    ListLinked(l, known, roster, |roster|, t);
    InsertNoDup(roster, |roster|, t);
    InsertAtMembers(roster, |roster|, t);
  }

  lemma ListedDied(l: ListLinks, known: set<TaskId>, roster: seq<TaskId>, alive: set<TaskId>, t: TaskId)
    requires Listed(l, known, roster, alive) && t in alive
    ensures Elem(t) in l.next && Elem(t) in l.prev
    ensures Listed(Unlink(l, Elem(t)), known, Without(roster, t), alive - {t})
  {
    hide ListWired, Unlink, NoDup, Without;
    ListUnlinked(l, known, roster, t);
    WithoutMembers(roster, t);
  }

  /** `plain` are the futexes without tracking. */
  ghost predicate Kinds(futexes: map<FutexId, Futex>, plain: set<FutexId>) {
    forall f :: f in plain <==> f in futexes && futexes[f].kind.Plain?
  }

  /** The pointers in the nodes of each kind. */
  datatype Nodes = Nodes(queue: QueueLinks, timer: ListLinks, task: ListLinks, owned: OwnedLinks)

  /** The nodes form the lists of kernel state `k`, and no others. */
  ghost predicate Spells(n: Nodes, known: set<TaskId>, roster: seq<TaskId>, plain: set<FutexId>, k: Kernel) {
    && QueuesWired(n.queue, k.futexes.Keys, known, k.queues)
    && ListWired(n.timer, known, k.timers.list)
    && OwnedWired(n.owned, k.futexes.Keys, known, k.owned)
    && Listed(n.task, known, roster, k.tasks.Keys)
    && Kinds(k.futexes, plain)
  }

  lemma SpellsTask(n: Nodes, known: set<TaskId>, roster: seq<TaskId>, plain: set<FutexId>, k: Kernel, t: TaskId, d: Task)
    requires Spells(n, known, roster, plain, k) && t in k.tasks
    ensures Spells(n, known, roster, plain, SetTask(k, t, d)) && t in known
  {
    hide Sane, QueuesWired, ListWired, OwnedWired, Kinds;
    assert SetTask(k, t, d).tasks.Keys == k.tasks.Keys;
  }

  lemma SpellsWord(n: Nodes, known: set<TaskId>, roster: seq<TaskId>, plain: set<FutexId>, k: Kernel, f: FutexId, v: int)
    requires Spells(n, known, roster, plain, k) && f in k.futexes
    ensures Spells(n, known, roster, plain, SetWord(k, f, v))
  {
    hide Sane, QueuesWired, ListWired, OwnedWired, Listed;
    assert SetWord(k, f, v).futexes.Keys == k.futexes.Keys;
  }

  lemma SpellsFutex(n: Nodes, known: set<TaskId>, roster: seq<TaskId>, plain: set<FutexId>, k: Kernel, f: FutexId, x: Futex)
    requires Spells(n, known, roster, plain, k) && Sane(k) && f !in k.futexes
    ensures var m := n.(queue := Init(n.queue, Head(Q.WaitersOf(f))), owned := Init(n.owned, Elem(f)));
            Spells(m, known, roster, if x.kind.Plain? then plain + {f} else plain, k.(futexes := k.futexes[f := x]))
  {
    hide Sane, QueuesWired, ListWired, OwnedWired, Listed, Init;
    Parts(k);
    QueueInit(n.queue, k.futexes.Keys, known, k.queues, f);
    OwnedInit(n.owned, k.futexes.Keys, known, k.owned, f);
    assert k.futexes[f := x].Keys == k.futexes.Keys + {f};
  }

  /** The nodes of a new task, as `scheduler_create` leaves them. */
  function Blank(n: Nodes, t: TaskId): Nodes {
    Nodes(Init(n.queue, Elem(t)), Init(n.timer, Elem(t)), Init(n.task, Elem(t)), Init(n.owned, Head(t)))
  }

  lemma SpellsBorn(n: Nodes, known: set<TaskId>, roster: seq<TaskId>, plain: set<FutexId>, k: Kernel, t: TaskId,
                   prio: nat, affinity: Option<CoreId>, daemon: bool)
    requires Spells(n, known, roster, plain, k) && Sane(k) && t !in k.tasks && k.owned.List(t) == []
    ensures var m := Blank(n, t);
            && Head(()) in m.task.prev
            && Spells(m.(task := Insert(m.task, Head(()), Elem(t))), known + {t}, InsertAt(roster, |roster|, t), plain,
                      Born(k, t, prio, affinity, daemon))
  {
    hide Sane, QueuesWired, ListWired, OwnedWired, Listed, Kinds, Q.Linked, Init, Insert, InsertAt, Born;
    Parts(k);
    BornIs(k, t, prio, affinity, daemon);
    WiredAdmit(n.queue, k.futexes.Keys, known, k.queues, t, prio);
    ListKnown(n.timer, known, k.timers.list, t);
    OwnedKnown(n.owned, k.futexes.Keys, known, k.owned, t);
    ListedInit(n.task, known, roster, k.tasks.Keys, t);
    ListedJoined(Init(n.task, Elem(t)), known + {t}, roster, k.tasks.Keys, t);
    assert Born(k, t, prio, affinity, daemon).tasks.Keys == k.tasks.Keys + {t};
  }

  /** A task is queued: its node goes before the node where the walk for its place ends. */
  lemma SpellsPush(n: Nodes, known: set<TaskId>, roster: seq<TaskId>, plain: set<FutexId>, k: Kernel, id: Q.QueueId, t: TaskId,
                   list: seq<TaskId>, i: nat)
    requires Spells(n, known, roster, plain, k) && HasHead(k.futexes.Keys, id) && list == k.queues.List(id)
    requires Q.Linked(k.queues) && t in k.queues.entry && k.queues.entry[t].link.None?
    requires forall j :: 0 <= j < |list| ==> list[j] in k.queues.entry
    requires i <= |list| && i == Q.Slot(k.queues.entry, list, k.queues.entry[t].prio)
    ensures At(Chain(id, list), i + 1) in n.queue.prev
    ensures Spells(n.(queue := Insert(n.queue, At(Chain(id, list), i + 1), Elem(t))), known, roster, plain,
                   k.(queues := Q.Push(k.queues, id, t)))
  {
    hide QueuesWired, ListWired, OwnedWired, Listed, Kinds, HasHead, Q.Linked, Q.Push, Q.Slot, Chain, At, Insert;
    WiredPush(n.queue, k.futexes.Keys, known, k.queues, id, t);
  }

  lemma SpellsPrio(n: Nodes, known: set<TaskId>, roster: seq<TaskId>, plain: set<FutexId>, k: Kernel, t: TaskId, p: nat)
    requires Spells(n, known, roster, plain, k) && Q.Linked(k.queues) && t in k.queues.entry
    ensures Spells(n, known, roster, plain, k.(queues := Q.SetPrio(k.queues, t, p))) && Q.Linked(Q.SetPrio(k.queues, t, p))
    ensures k.queues.entry[t].link.Some? ==> HasHead(k.futexes.Keys, k.queues.entry[t].link.value)
  {
    hide QueuesWired, ListWired, OwnedWired, Listed, Kinds, Q.Linked, HasHead;
    WiredSetPrio(n.queue, k.futexes.Keys, known, k.queues, t, p);
    Q.SetPrioLinked(k.queues, t, p);
    if k.queues.entry[t].link.Some? { LinkHasHead(n.queue, k.futexes.Keys, known, k.queues, t); }
  }

  /** Deadlines, running tasks, ticks and requests are not in the nodes. */
  lemma SpellsSame(n: Nodes, known: set<TaskId>, roster: seq<TaskId>, plain: set<FutexId>, k: Kernel, k': Kernel)
    requires Spells(n, known, roster, plain, k)
    requires k'.queues == k.queues && k'.timers.list == k.timers.list && k'.owned == k.owned
    requires k'.tasks == k.tasks && k'.futexes == k.futexes
    ensures Spells(n, known, roster, plain, k')
  {}

  lemma SpellsNothing(k: Kernel)
    requires k.queues == Q.Queues(map[], map[], 0) && k.timers.list == [] && k.owned == Ow.Owned(map[], map[])
    requires k.tasks == map[] && k.futexes == map[]
    ensures Spells(Nodes(Init(Links(map[], map[]), Head(Q.ReadyQueue)), Init(Links(map[], map[]), Head(())),
                         Init(Links(map[], map[]), Head(())), Links(map[], map[])), {}, [], {}, k)
  {
    hide QueuesWired, ListWired, OwnedWired, Init;
    EmptyWired();
    assert k.futexes.Keys == {} && k.tasks.Keys == {};
  }
}
