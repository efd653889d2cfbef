/** The nodes in memory and the queues, timers and owned futexes that they stand for. */
module Wiring {
  import opened Types
  import opened Sequences
  import opened Rings
  import Q = TaskQueues
  import Ow = OwnedFutexes

  type QueueLinks = Links<QueueNode>
  type ListLinks = Links<ListNode>
  type OwnedLinks = Links<OwnedNode>

  type QueueNode = Node<Q.QueueId, TaskId>
  type ListNode = Node<(), TaskId>
  type OwnedNode = Node<TaskId, FutexId>

  /** The queues that have a head: the ready queue and those of the futexes `fs`. */
  predicate HasHead(fs: set<FutexId>, id: Q.QueueId) {
    id.ReadyQueue? || id.futex in fs
  }

  /**
   Each queue is the ring of its head, and every task that is on no queue is a ring of its own. `known` are the tasks
   whose nodes have been initialised, dead ones included.
   */
  ghost predicate QueuesWired(l: QueueLinks, fs: set<FutexId>, known: set<TaskId>, q: Q.Queues) {
    && (forall id :: HasHead(fs, id) ==> Ring(l, Chain(id, q.List(id))))
    && (forall t :: t in known && (t in q.entry ==> q.entry[t].link.None?) ==> Ring(l, [Elem(t)]))
    && (forall t :: t in q.entry ==> t in known && (q.entry[t].link.Some? ==> HasHead(fs, q.entry[t].link.value)))
  }

  /** A list of tasks with one head: the timers, or the live tasks. */
  ghost predicate ListWired(l: ListLinks, known: set<TaskId>, list: seq<TaskId>) {
    && Ring(l, Chain((), list))
    && (forall t :: t in known && t !in list ==> Ring(l, [Elem(t)]))
    && (forall t :: t in list ==> t in known)
  }

  ghost predicate OwnedWired(l: OwnedLinks, fs: set<FutexId>, known: set<TaskId>, o: Ow.Owned) {
    && (forall t :: t in known ==> Ring(l, Chain(t, o.List(t))))
    && (forall f :: f in fs && f !in o.link ==> Ring(l, [Elem(f)]))
    && (forall f :: f in o.link ==> f in fs && o.link[f] in known)
  }

  // ----- walks

  /** A walk that has passed `i` elements sees the next one, or is back at the head. */
  lemma Step<H, E>(l: Links<Node<H, E>>, h: H, list: seq<E>, i: nat)
    requires Ring(l, Chain(h, list)) && i <= |list|
    ensures var n := if i == 0 then Head(h) else Elem(list[i - 1]);
            n in l.next && l.next[n] == if i < |list| then Elem(list[i]) else Head(h)
  {
    RingKnows(l, Chain(h, list), i);
  }

  lemma QueueStep(l: QueueLinks, fs: set<FutexId>, known: set<TaskId>, q: Q.Queues, id: Q.QueueId, i: nat)
    requires QueuesWired(l, fs, known, q) && HasHead(fs, id) && i <= |q.List(id)|
    ensures var n := if i == 0 then Head(id) else Elem(q.List(id)[i - 1]);
            n in l.next && l.next[n] == if i < |q.List(id)| then Elem(q.List(id)[i]) else Head(id)
  {
    hide Ring, Chain;
    Step(l, id, q.List(id), i);
  }

  lemma ListStep(l: ListLinks, known: set<TaskId>, list: seq<TaskId>, i: nat)
    requires ListWired(l, known, list) && i <= |list|
    ensures var n := if i == 0 then Head(()) else Elem(list[i - 1]);
            n in l.next && l.next[n] == if i < |list| then Elem(list[i]) else Head(())
  {
    hide Ring, Chain;
    Step(l, (), list, i);
  }

  lemma OwnedStep(l: OwnedLinks, fs: set<FutexId>, known: set<TaskId>, o: Ow.Owned, t: TaskId, i: nat)
    requires OwnedWired(l, fs, known, o) && t in known && i <= |o.List(t)|
    ensures var n := if i == 0 then Head(t) else Elem(o.List(t)[i - 1]);
            n in l.next && l.next[n] == if i < |o.List(t)| then Elem(o.List(t)[i]) else Head(t)
  {
    hide Ring, Chain;
    Step(l, t, o.List(t), i);
  }

  /** `sched_list_is_linked`: a node is on a list exactly if it is not its own successor. */
  lemma OwnedLinkedTest(l: OwnedLinks, fs: set<FutexId>, known: set<TaskId>, o: Ow.Owned, f: FutexId)
    requires OwnedWired(l, fs, known, o) && Ow.Good(o) && f in fs
    ensures Elem(f) in l.next && (f in o.link <==> l.next[Elem(f)] != Elem(f))
  {
    hide Ring, Chain, Ow.Good;
    if f in o.link {
      var t := o.link[f];
      var list := o.List(t);
      OwnedOnce(o, t, f);
      var i := IndexOf(list, f);
      Step(l, t, list, i + 1);
      if i + 1 < |list| { ListOnce(o, t, i); }
    } else {
      RingKnows(l, [Elem(f)], 0);
    }
  }

  lemma ListOnce(o: Ow.Owned, t: TaskId, i: nat)
    requires Ow.Good(o) && i + 1 < |o.List(t)|
    ensures o.List(t)[i] != o.List(t)[i + 1]
  {
    assert Ow.ListLinked(o.link, t, o.List(t));
  }

  lemma OwnedHasHead(l: OwnedLinks, fs: set<FutexId>, known: set<TaskId>, o: Ow.Owned, t: TaskId, i: nat)
    requires OwnedWired(l, fs, known, o) && Ow.Good(o) && i < |o.List(t)|
    ensures o.List(t)[i] in fs
  {
    hide Ring, Chain, Ow.Good;
    OwnedOnce(o, t, o.List(t)[i]);
  }

  lemma LinkHasHead(l: QueueLinks, fs: set<FutexId>, known: set<TaskId>, q: Q.Queues, t: TaskId)
    requires QueuesWired(l, fs, known, q) && t in q.entry && q.entry[t].link.Some?
    ensures HasHead(fs, q.entry[t].link.value)
  {
    hide Ring, Chain, HasHead;
  }

  lemma ListOfKnown(l: ListLinks, known: set<TaskId>, list: seq<TaskId>)
    requires ListWired(l, known, list)
    ensures forall t :: t in list ==> t in known
  {
    hide Ring, Chain;
  }

  /** The heads that exist before there is a task or a futex. */
  lemma EmptyWired()
    ensures QueuesWired(Init(Links(map[], map[]), Head(Q.ReadyQueue)), {}, {}, Q.Queues(map[], map[], 0))
    ensures ListWired(Init(Links(map[], map[]), Head(())), {}, [])
    ensures OwnedWired(Links(map[], map[]), {}, {}, Ow.Owned(map[], map[]))
  {
    assert Chain<Q.QueueId, TaskId>(Q.ReadyQueue, []) == [Head(Q.ReadyQueue)];
    assert Chain<(), TaskId>((), []) == [Head(())];
  }

  // ----- queues

  lemma OnOneList(q: Q.Queues, id: Q.QueueId, t: TaskId)
    requires Q.Linked(q)
    ensures t in q.List(id) <==> t in q.entry && q.entry[t].link == Some(id)
  {
    assert Q.ListLinked(q.entry, id, q.List(id));
    if t in q.List(id) {
      var i :| 0 <= i < |q.List(id)| && q.List(id)[i] == t;
    }
  }

  lemma QueuesApart(q: Q.Queues, a: Q.QueueId, b: Q.QueueId)
    requires Q.Linked(q) && a != b
    ensures Apart(Chain(a, q.List(a)), Chain(b, q.List(b)))
  {
    forall t | t in q.List(a) ensures t !in q.List(b) {
      OnOneList(q, a, t);
      OnOneList(q, b, t);
    }
    ChainsApart(a, q.List(a), b, q.List(b));
  }

  /** `sched_queue_remove`, on a task that is on a queue or on none. */
  lemma WiredRemove(l: QueueLinks, fs: set<FutexId>, known: set<TaskId>, q: Q.Queues, t: TaskId)
    requires QueuesWired(l, fs, known, q) && Q.Linked(q) && t in q.entry
    ensures Elem(t) in l.next && Elem(t) in l.prev
    ensures QueuesWired(Unlink(l, Elem(t)), fs, known, Q.Remove(q, t))
  {
    hide Ring, Unlink, Apart, Q.Linked, Chain;
    var r := Q.Remove(q, t);
    if q.entry[t].link.None? {
      UnlinkAlone(l, Elem(t));
    } else {
      var id := q.entry[t].link.value;
      var list := q.List(id);
      OnOneList(q, id, t);
      var i := IndexOf(list, t);
      ChainAt(id, list, i);
      UnlinkRing(l, Chain(id, list), i + 1);
      ChainRemove(id, list, i);
      forall g | HasHead(fs, g) ensures Ring(Unlink(l, Elem(t)), Chain(g, r.List(g))) {
        if g != id {
          QueuesApart(q, g, id);
          UnlinkOther(l, Chain(id, list), i + 1, Chain(g, q.List(g)));
        }
      }
      forall u | u in known && (u in r.entry ==> r.entry[u].link.None?) ensures Ring(Unlink(l, Elem(t)), [Elem(u)]) {
        if u != t {
          OnOneList(q, id, u);
          AloneApart(u, id, list);
          UnlinkOther(l, Chain(id, list), i + 1, [Elem(u)]);
        }
      }
    }
  }

  lemma ChainAt<H, E>(h: H, list: seq<E>, i: nat)
    requires i <= |list|
    ensures |Chain(h, list)| == |list| + 1
    ensures Chain(h, list)[i] == if i == 0 then Head(h) else Elem(list[i - 1])
    ensures i < |list| ==> Chain(h, list)[i + 1] == Elem(list[i])
    ensures At(Chain(h, list), i + 1) == if i < |list| then Elem(list[i]) else Head(h)
  {
    hide Chain;
  }

  /** `sched_queue_push`: the node goes before the `i`th task of the queue, or to the end. */
  lemma WiredPush(l: QueueLinks, fs: set<FutexId>, known: set<TaskId>, q: Q.Queues, id: Q.QueueId, t: TaskId)
    requires QueuesWired(l, fs, known, q) && Q.Linked(q) && t in q.entry && q.entry[t].link.None? && HasHead(fs, id)
    requires forall k :: 0 <= k < |q.List(id)| ==> q.List(id)[k] in q.entry
    ensures var at := At(Chain(id, q.List(id)), Q.Slot(q.entry, q.List(id), q.entry[t].prio) + 1);
            at in l.prev && QueuesWired(Insert(l, at, Elem(t)), fs, known, Q.Push(q, id, t))
  {
    hide Ring, Insert, Apart, Q.Linked, Chain, At, Q.Slot, InsertAt, Q.Push;
    var list := q.List(id);
    var i := Q.Slot(q.entry, list, q.entry[t].prio);
    var r := Q.Push(q, id, t);
    ChainAt(id, list, i);
    OnOneList(q, id, t);
    AloneApart(t, id, list);
    InsertRing(l, Chain(id, list), i + 1, Elem(t));
    ChainInsert(id, list, i, t);
    var at := At(Chain(id, list), i + 1);
    PushLists(q, id, t);
    forall g | HasHead(fs, g) ensures Ring(Insert(l, at, Elem(t)), Chain(g, r.List(g))) {
      if g != id { PushedElsewhere(l, q, id, i, t, g); }
    }
    forall u | u in known && (u in r.entry ==> r.entry[u].link.None?) ensures Ring(Insert(l, at, Elem(t)), [Elem(u)]) {
      OnOneList(q, id, u);
      AloneApart(u, id, list);
      InsertOther(l, Chain(id, list), i + 1, Elem(t), [Elem(u)]);
    }
  }

  /** A push leaves the ring of another queue alone. */
  lemma PushedElsewhere(l: QueueLinks, q: Q.Queues, id: Q.QueueId, i: nat, t: TaskId, g: Q.QueueId)
    requires Ring(l, Chain(id, q.List(id))) && Ring(l, Chain(g, q.List(g))) && g != id && i <= |q.List(id)|
    requires Q.Linked(q) && t in q.entry && q.entry[t].link.None?
    ensures var at := At(Chain(id, q.List(id)), i + 1); at in l.prev && Ring(Insert(l, at, Elem(t)), Chain(g, q.List(g)))
  {
    hide Ring, Insert, Apart, Q.Linked, Chain, At;
    QueuesApart(q, g, id);
    OnOneList(q, g, t);
    AloneApart(t, g, q.List(g));
    InsertOther(l, Chain(id, q.List(id)), i + 1, Elem(t), Chain(g, q.List(g)));
  }

  lemma PushLists(q: Q.Queues, id: Q.QueueId, t: TaskId)
    requires Q.Linked(q) && t in q.entry && q.entry[t].link.None?
    requires forall k :: 0 <= k < |q.List(id)| ==> q.List(id)[k] in q.entry
    ensures var r := Q.Push(q, id, t);
            && r.List(id) == InsertAt(q.List(id), Q.Slot(q.entry, q.List(id), q.entry[t].prio), t)
            && (forall g :: g != id ==> r.List(g) == q.List(g))
            && (forall u :: u in r.entry <==> u in q.entry)
            && (forall u :: u in q.entry && u != t ==> r.entry[u] == q.entry[u]) && r.entry[t].link == Some(id)
  {
    hide Q.Linked, InsertAt, Q.Slot;
  }

  lemma WiredSetPrio(l: QueueLinks, fs: set<FutexId>, known: set<TaskId>, q: Q.Queues, t: TaskId, p: nat)
    requires QueuesWired(l, fs, known, q) && t in q.entry
    ensures QueuesWired(l, fs, known, Q.SetPrio(q, t, p))
  {
    hide Ring, Chain;
    var r := Q.SetPrio(q, t, p);
    forall id | HasHead(fs, id) ensures Ring(l, Chain(id, r.List(id))) {
      assert r.List(id) == q.List(id);
    }
  }

  /** A new task: its node is initialised. */
  lemma WiredAdmit(l: QueueLinks, fs: set<FutexId>, known: set<TaskId>, q: Q.Queues, t: TaskId, p: nat)
    requires QueuesWired(l, fs, known, q) && Q.Linked(q) && t !in q.entry
    ensures QueuesWired(Init(l, Elem(t)), fs, known + {t}, Q.Admit(q, t, p))
  {
    hide Ring, Init, Chain, Q.Linked;
    InitRing(l, Elem(t));
    var r := Q.Admit(q, t, p);
    forall id | HasHead(fs, id) ensures Ring(Init(l, Elem(t)), Chain(id, r.List(id))) {
      assert r.List(id) == q.List(id);
      OnOneList(q, id, t);
      AloneApart(t, id, q.List(id));
    }
  }

  lemma WiredForget(l: QueueLinks, fs: set<FutexId>, known: set<TaskId>, q: Q.Queues, t: TaskId)
    requires QueuesWired(l, fs, known, q) && t in q.entry && q.entry[t].link.None?
    ensures QueuesWired(l, fs, known, Q.Forget(q, t))
  {
    hide Ring, Chain;
    var r := Q.Forget(q, t);
    forall id | HasHead(fs, id) ensures Ring(l, Chain(id, r.List(id))) {
      assert r.List(id) == q.List(id);
    }
  }

  /** A new futex, whose queue is empty. */
  lemma QueueInit(l: QueueLinks, fs: set<FutexId>, known: set<TaskId>, q: Q.Queues, f: FutexId)
    requires QueuesWired(l, fs, known, q) && Q.Linked(q) && f !in fs
    ensures QueuesWired(Init(l, Head(Q.WaitersOf(f))), fs + {f}, known, q)
  {
    hide Ring, Init, Q.Linked;
    var id := Q.WaitersOf(f);
    if q.List(id) != [] { OnOneList(q, id, q.List(id)[0]); }
    assert q.List(id) == [];
    InitRing(l, Head(id));
    assert Chain<Q.QueueId, TaskId>(id, []) == [Head(id)];
    forall g | HasHead(fs + {f}, g) ensures Ring(Init(l, Head(id)), Chain(g, q.List(g))) {
      if g != id { HeadApart(id, g, q.List(g)); }
    }
  }

  // ----- lists of tasks

  lemma ListUnlinked(l: ListLinks, known: set<TaskId>, list: seq<TaskId>, t: TaskId)
    requires ListWired(l, known, list) && t in known && NoDup(list)
    ensures Elem(t) in l.next && Elem(t) in l.prev
    ensures ListWired(Unlink(l, Elem(t)), known, Without(list, t)) && t !in Without(list, t)
  {
    hide Ring, Unlink, Apart, Chain;
    WithoutMembers(list, t);
    if t !in list {
      UnlinkAlone(l, Elem(t));
    } else {
      var i := IndexOf(list, t);
      ChainAt((), list, i);
      UnlinkRing(l, Chain((), list), i + 1);
      ChainRemove((), list, i);
      forall u | u in known && u !in Without(list, t) ensures Ring(Unlink(l, Elem(t)), [Elem(u)]) {
        if u != t {
          AloneApart(u, (), list);
          UnlinkOther(l, Chain((), list), i + 1, [Elem(u)]);
        }
      }
    }
  }

  lemma ListLinked(l: ListLinks, known: set<TaskId>, list: seq<TaskId>, i: nat, t: TaskId)
    requires ListWired(l, known, list) && t in known && t !in list && i <= |list|
    ensures At(Chain((), list), i + 1) in l.prev
    ensures ListWired(Insert(l, At(Chain((), list), i + 1), Elem(t)), known, InsertAt(list, i, t))
  {
    hide Ring, Insert, Apart, Chain, At;
    ChainAt((), list, i);
    AloneApart(t, (), list);
    InsertRing(l, Chain((), list), i + 1, Elem(t));
    ChainInsert((), list, i, t);
    InsertAtMembers(list, i, t);
    forall u | u in known && u !in InsertAt(list, i, t) ensures Ring(Insert(l, At(Chain((), list), i + 1), Elem(t)), [Elem(u)]) {
      AloneApart(u, (), list);
      InsertOther(l, Chain((), list), i + 1, Elem(t), [Elem(u)]);
    }
  }

  lemma ListKnown(l: ListLinks, known: set<TaskId>, list: seq<TaskId>, t: TaskId)
    requires ListWired(l, known, list) && t !in list
    ensures ListWired(Init(l, Elem(t)), known + {t}, list)
  {
    hide Ring, Init, Chain;
    InitRing(l, Elem(t));
    AloneApart(t, (), list);
  }

  // ----- owned futexes

  lemma OwnedApart(o: Ow.Owned, a: TaskId, b: TaskId)
    requires Ow.Good(o) && a != b
    ensures Apart(Chain(a, o.List(a)), Chain(b, o.List(b)))
  {
    forall f | f in o.List(a) ensures f !in o.List(b) {
      OwnedOnce(o, a, f);
      OwnedOnce(o, b, f);
    }
    ChainsApart(a, o.List(a), b, o.List(b));
  }

  lemma OwnedOnce(o: Ow.Owned, t: TaskId, f: FutexId)
    requires Ow.Good(o)
    ensures f in o.List(t) <==> f in o.link && o.link[f] == t
  {
    assert Ow.ListLinked(o.link, t, o.List(t));
    if f in o.List(t) {
      var i :| 0 <= i < |o.List(t)| && o.List(t)[i] == f;
    }
  }

  lemma OwnedAdded(l: OwnedLinks, fs: set<FutexId>, known: set<TaskId>, o: Ow.Owned, t: TaskId, f: FutexId)
    requires OwnedWired(l, fs, known, o) && Ow.Good(o) && t in known && f in fs && f !in o.link
    ensures Head(t) in l.prev && OwnedWired(Insert(l, Head(t), Elem(f)), fs, known, Ow.Add(o, t, f))
  {
    hide Ring, Insert, Apart, Chain, Ow.Good, At;
    var list := o.List(t);
    var r := Ow.Add(o, t, f);
    ChainAt(t, list, |list|);
    OwnedOnce(o, t, f);
    AloneApart(f, t, list);
    InsertRing(l, Chain(t, list), |list| + 1, Elem(f));
    ChainInsert(t, list, |list|, f);
    assert InsertAt(list, |list|, f) == list + [f];
    forall u | u in known ensures Ring(Insert(l, Head(t), Elem(f)), Chain(u, r.List(u))) {
      if u != t {
        OwnedApart(o, u, t);
        OwnedOnce(o, u, f);
        AloneApart(f, u, o.List(u));
        InsertOther(l, Chain(t, list), |list| + 1, Elem(f), Chain(u, o.List(u)));
      }
    }
    forall g | g in fs && g !in r.link ensures Ring(Insert(l, Head(t), Elem(f)), [Elem(g)]) {
      OwnedOnce(o, t, g);
      AloneApart(g, t, list);
      InsertOther(l, Chain(t, list), |list| + 1, Elem(f), [Elem(g)]);
    }
  }

  lemma OwnedUnlinked(l: OwnedLinks, fs: set<FutexId>, known: set<TaskId>, o: Ow.Owned, f: FutexId)
    requires OwnedWired(l, fs, known, o) && Ow.Good(o) && f in fs
    ensures Elem(f) in l.next && Elem(f) in l.prev
    ensures OwnedWired(Unlink(l, Elem(f)), fs, known, Ow.Unlink(o, f))
  {
    hide Ring, Unlink, Apart, Chain, Ow.Good;
    var r := Ow.Unlink(o, f);
    if f !in o.link {
      UnlinkAlone(l, Elem(f));
    } else {
      var t := o.link[f];
      var list := o.List(t);
      OwnedOnce(o, t, f);
      var i := IndexOf(list, f);
      ChainAt(t, list, i);
      UnlinkRing(l, Chain(t, list), i + 1);
      ChainRemove(t, list, i);
      forall u | u in known ensures Ring(Unlink(l, Elem(f)), Chain(u, r.List(u))) {
        if u != t {
          OwnedApart(o, u, t);
          UnlinkOther(l, Chain(t, list), i + 1, Chain(u, o.List(u)));
        }
      }
      forall g | g in fs && g !in r.link ensures Ring(Unlink(l, Elem(f)), [Elem(g)]) {
        if g != f {
          OwnedOnce(o, t, g);
          AloneApart(g, t, list);
          UnlinkOther(l, Chain(t, list), i + 1, [Elem(g)]);
        }
      }
    }
  }

  /** A new task, at an address whose list of owned futexes is empty. */
  lemma OwnedKnown(l: OwnedLinks, fs: set<FutexId>, known: set<TaskId>, o: Ow.Owned, t: TaskId)
    requires OwnedWired(l, fs, known, o) && o.List(t) == []
    ensures OwnedWired(Init(l, Head(t)), fs, known + {t}, o)
  {
    hide Ring, Init;
    InitRing(l, Head(t));
    assert Chain<TaskId, FutexId>(t, []) == [Head(t)];
    forall u | u in known + {t} ensures Ring(Init(l, Head(t)), Chain(u, o.List(u))) {
      if u != t { HeadApart(t, u, o.List(u)); }
    }
  }

  /** A new futex, which is on nobody's list. */
  lemma OwnedInit(l: OwnedLinks, fs: set<FutexId>, known: set<TaskId>, o: Ow.Owned, f: FutexId)
    requires OwnedWired(l, fs, known, o) && Ow.Good(o) && f !in fs
    ensures OwnedWired(Init(l, Elem(f)), fs + {f}, known, o)
  {
    hide Ring, Init, Chain, Ow.Good;
    InitRing(l, Elem(f));
    forall u | u in known ensures Ring(Init(l, Elem(f)), Chain(u, o.List(u))) {
      OwnedOnce(o, u, f);
      AloneApart(f, u, o.List(u));
    }
  }

  lemma HeadApart<H, E>(g: H, h: H, b: seq<E>)
    requires g != h
    ensures Head(g) !in Chain(h, b)
  {}
}
