/**
 The scheduler's priority queues: one ready queue and one waiter queue per futex.
 A task is on at most one of them, the one its `current_queue` names.
 */
module TaskQueues {
  import opened Types
  import opened Sequences

  datatype QueueId = ReadyQueue | WaitersOf(futex: FutexId)

  /**
   `prio` is `current_priority` (smaller is more urgent), `link` is `current_queue`.
   `stamp` only records the order of the pushes: no operation consults it, it exists
   so that "first in, first out" can be stated.
   */
  datatype Entry = Entry(prio: nat, link: Option<QueueId>, stamp: nat)

  /** The queue fields of every live task, and the queues; a queue without an entry is empty. */
  datatype Queues = Queues(entry: map<TaskId, Entry>, lists: map<QueueId, seq<TaskId>>, clock: nat)
  {
    function List(id: QueueId): seq<TaskId> {
      if id in lists then lists[id] else []
    }
  }

  /** Everything on `list` is a live task linked to queue `id`, once. */
  ghost predicate ListLinked(entry: map<TaskId, Entry>, id: QueueId, list: seq<TaskId>) {
    NoDup(list) && forall i :: 0 <= i < |list| ==> list[i] in entry && entry[list[i]].link == Some(id)
  }

  /** Links and lists agree: a task is on exactly the list its link names, once. */
  ghost predicate Linked(q: Queues) {
    && (forall id :: ListLinked(q.entry, id, q.List(id)))
    && (forall t :: t in q.entry && q.entry[t].link.Some? ==> t in q.List(q.entry[t].link.value))
  }

  /** `t` is served before `u`: more urgent, or as urgent and queued earlier. */
  predicate Before(entry: map<TaskId, Entry>, t: TaskId, u: TaskId) {
    && t in entry && u in entry
    && (entry[t].prio < entry[u].prio || (entry[t].prio == entry[u].prio && entry[t].stamp < entry[u].stamp))
  }

  ghost predicate ListSorted(entry: map<TaskId, Entry>, list: seq<TaskId>) {
    forall i, j :: 0 <= i < j < |list| ==> Before(entry, list[i], list[j])
  }

  ghost predicate Sorted(q: Queues) {
    && (forall t :: t in q.entry ==> q.entry[t].stamp < q.clock)
    && (forall id :: ListSorted(q.entry, q.List(id)))
  }

  ghost predicate Good(q: Queues) {
    Linked(q) && Sorted(q)
  }

  /** Insertion point of a task of priority `p`: ahead of the first entry that is less urgent. */
  function Slot(entry: map<TaskId, Entry>, list: seq<TaskId>, p: nat): (i: nat)
    requires forall k :: 0 <= k < |list| ==> list[k] in entry
    ensures i <= |list|
    ensures forall k :: 0 <= k < i ==> entry[list[k]].prio <= p
    ensures i < |list| ==> entry[list[i]].prio > p
  {
    if list == [] || entry[list[0]].prio > p then 0 else 1 + Slot(entry, list[1..], p)
  }

  function Push(q: Queues, id: QueueId, t: TaskId): (r: Queues)
    requires Linked(q) && t in q.entry && q.entry[t].link.None?
  {
    assert ListLinked(q.entry, id, q.List(id));
    Queues(q.entry[t := q.entry[t].(link := Some(id), stamp := q.clock)],
           q.lists[id := InsertAt(q.List(id), Slot(q.entry, q.List(id), q.entry[t].prio), t)],
           q.clock + 1)
  }

  function Remove(q: Queues, t: TaskId): (r: Queues)
    requires t in q.entry
  {
    if q.entry[t].link.None? then q
    else
      var id := q.entry[t].link.value;
      q.(entry := q.entry[t := q.entry[t].(link := None)], lists := q.lists[id := Without(q.List(id), t)])
  }

  function SetPrio(q: Queues, t: TaskId, p: nat): Queues
    requires t in q.entry
  {
    q.(entry := q.entry[t := q.entry[t].(prio := p)])
  }

  /** A queued task moves to the place of its new priority, behind its equals. */
  function Reprioritize(q: Queues, t: TaskId, p: nat): Queues
    requires Linked(q) && t in q.entry
  {
    if q.entry[t].link.None? then SetPrio(q, t, p)
    else
      RemoveLinked(q, t);
      SetPrioLinked(Remove(q, t), t, p);
      Push(SetPrio(Remove(q, t), t, p), q.entry[t].link.value, t)
  }

  /** A new task, on no queue. */
  function Admit(q: Queues, t: TaskId, p: nat): Queues {
    Queues(q.entry[t := Entry(p, None, q.clock)], q.lists, q.clock + 1)
  }

  /** Forget a task that is on no queue. */
  function Forget(q: Queues, t: TaskId): Queues {
    q.(entry := q.entry - {t})
  }

  /** Position of the first task of `list` that may run, or the length of the list. */
  function FirstIn(list: seq<TaskId>, eligible: set<TaskId>): (i: nat)
    ensures i <= |list|
    ensures forall k :: 0 <= k < i ==> list[k] !in eligible
    ensures i < |list| ==> list[i] in eligible
  {
    if list == [] || list[0] in eligible then 0 else 1 + FirstIn(list[1..], eligible)
  }

  /** 64, one more than the least urgent priority, stands for "nobody is waiting". */
  const NUM_PRIORITIES: nat := 64

  function HighestPriority(q: Queues, id: QueueId): nat
    requires Linked(q)
  {
    assert ListLinked(q.entry, id, q.List(id));
    if q.List(id) == [] then NUM_PRIORITIES else q.entry[q.List(id)[0]].prio
  }

  // ----- the queues stay well formed and sorted

  lemma InsertPair(entry: map<TaskId, Entry>, entry': map<TaskId, Entry>, list: seq<TaskId>, t: TaskId, k: nat, j: nat)
    requires ListSorted(entry, list) && t in entry' && t !in list
    requires forall i :: 0 <= i < |list| ==>
               list[i] in entry && list[i] in entry' && entry'[list[i]] == entry[list[i]] && entry[list[i]].stamp < entry'[t].stamp
    requires k < j <= |list|
    ensures var r := InsertAt(list, Slot(entry, list, entry'[t].prio), t);
            Before(entry', r[k], r[j])
  {
    var i := Slot(entry, list, entry'[t].prio);
    if k == i {
      if j - 1 > i { assert Before(entry, list[i], list[j - 1]); }
    } else if j != i {
      assert Before(entry, list[if k < i then k else k - 1], list[if j < i then j else j - 1]);
    }
  }

  lemma InsertSorted(entry: map<TaskId, Entry>, entry': map<TaskId, Entry>, list: seq<TaskId>, t: TaskId)
    requires ListSorted(entry, list) && t in entry' && t !in list
    requires forall i :: 0 <= i < |list| ==>
               list[i] in entry && list[i] in entry' && entry'[list[i]] == entry[list[i]] && entry[list[i]].stamp < entry'[t].stamp
    ensures ListSorted(entry', InsertAt(list, Slot(entry, list, entry'[t].prio), t))
  {
    forall k, j | 0 <= k < j < |list| + 1 {
      InsertPair(entry, entry', list, t, k, j);
    }
  }

  lemma InsertLinked(entry: map<TaskId, Entry>, e: Entry, id: QueueId, list: seq<TaskId>, i: nat, t: TaskId)
    requires ListLinked(entry, id, list) && t !in list && i <= |list| && e.link == Some(id)
    ensures ListLinked(entry[t := e], id, InsertAt(list, i, t))
  {
    var r := InsertAt(list, i, t);
    assert forall k :: 0 <= k < |r| ==> r[k] == if k < i then list[k] else if k == i then t else list[k - 1];
  }

  lemma OffEveryList(q: Queues, t: TaskId)
    requires Linked(q) && (t in q.entry ==> q.entry[t].link.None?)
    ensures forall id :: t !in q.List(id)
  {
    forall id ensures t !in q.List(id) {
      assert ListLinked(q.entry, id, q.List(id));
    }
  }

  /** A list keeps its shape when only tasks that are not on it change. */
  lemma Untouched(entry: map<TaskId, Entry>, entry': map<TaskId, Entry>, id: QueueId, list: seq<TaskId>)
    requires ListLinked(entry, id, list)
    requires forall u :: u in list ==> u in entry && u in entry' && entry[u] == entry'[u]
    ensures ListLinked(entry', id, list)
    ensures ListSorted(entry, list) ==> ListSorted(entry', list)
  {
    assert forall i :: 0 <= i < |list| ==> list[i] in list;
  }

  lemma PushGood(q: Queues, id: QueueId, t: TaskId)
    requires Good(q) && t in q.entry && q.entry[t].link.None?
    ensures Good(Push(q, id, t))
    ensures forall u :: u in Push(q, id, t).List(id) <==> u == t || u in q.List(id)
  {
    hide InsertAt, Slot, NoDup, Before;
    var list := q.List(id);
    var r := Push(q, id, t);
    OffEveryList(q, t);
    assert ListLinked(q.entry, id, list) && ListSorted(q.entry, list);
    var i := Slot(q.entry, list, q.entry[t].prio);
    assert r.List(id) == InsertAt(list, i, t);
    InsertAtMembers(list, i, t);
    InsertLinked(q.entry, r.entry[t], id, list, i, t);
    assert forall j :: 0 <= j < |list| ==> list[j] in list;
    InsertSorted(q.entry, r.entry, list, t);
    forall id' | id' != id
      ensures ListLinked(r.entry, id', r.List(id')) && ListSorted(r.entry, r.List(id'))
    {
      assert ListLinked(q.entry, id', q.List(id')) && ListSorted(q.entry, q.List(id'));
      Untouched(q.entry, r.entry, id', q.List(id'));
    }
  }

  lemma RemoveSorted(entry: map<TaskId, Entry>, list: seq<TaskId>, t: TaskId)
    requires ListSorted(entry, list)
    ensures ListSorted(entry, Without(list, t))
  {
    if t in list {
      var i := IndexOf(list, t);
      var r := Without(list, t);
      forall k, j | 0 <= k < j < |r| ensures Before(entry, r[k], r[j]) {
        assert Before(entry, list[if k < i then k else k + 1], list[if j < i then j else j + 1]);
      }
    }
  }

  lemma RemoveLinked(q: Queues, t: TaskId)
    requires Linked(q) && t in q.entry
    ensures Linked(Remove(q, t)) && Remove(q, t).entry[t].link.None?
    ensures forall id, u :: u in Remove(q, t).List(id) <==> u in q.List(id) && u != t
  {
    var r := Remove(q, t);
    if q.entry[t].link.Some? {
      var id := q.entry[t].link.value;
      assert ListLinked(q.entry, id, q.List(id));
      WithoutMembers(q.List(id), t);
      forall id'
        ensures ListLinked(r.entry, id', r.List(id'))
        ensures forall u :: u in r.List(id') <==> u in q.List(id') && u != t
      {
        assert ListLinked(q.entry, id', q.List(id'));
      }
    } else {
      OffEveryList(q, t);
    }
  }

  lemma RemoveGood(q: Queues, t: TaskId)
    requires Good(q) && t in q.entry
    ensures Good(Remove(q, t)) && Remove(q, t).entry[t].link.None?
    ensures forall id, u :: u in Remove(q, t).List(id) <==> u in q.List(id) && u != t
  {
    RemoveLinked(q, t);
    if q.entry[t].link.Some? {
      var r := Remove(q, t);
      forall id ensures ListSorted(r.entry, r.List(id)) {
        assert ListSorted(q.entry, q.List(id));
        RemoveSorted(q.entry, q.List(id), t);
        assert forall i, j :: 0 <= i < j < |r.List(id)| ==> Before(q.entry, r.List(id)[i], r.List(id)[j]);
      }
    }
  }

  lemma SetPrioLinked(q: Queues, t: TaskId, p: nat)
    requires Linked(q) && t in q.entry
    ensures Linked(SetPrio(q, t, p))
  {
    var r := SetPrio(q, t, p);
    forall id ensures ListLinked(r.entry, id, r.List(id)) {
      assert ListLinked(q.entry, id, q.List(id));
    }
  }

  /** Changing the priority of a task that is on no list disturbs no list. */
  lemma SetPrioGood(q: Queues, t: TaskId, p: nat)
    requires Good(q) && t in q.entry && q.entry[t].link.None?
    ensures Good(SetPrio(q, t, p))
  {
    SetPrioLinked(q, t, p);
    OffEveryList(q, t);
    var r := SetPrio(q, t, p);
    forall id ensures ListSorted(r.entry, r.List(id)) {
      assert ListLinked(q.entry, id, q.List(id)) && ListSorted(q.entry, q.List(id));
      Untouched(q.entry, r.entry, id, q.List(id));
    }
  }

  lemma ReprioritizeGood(q: Queues, t: TaskId, p: nat)
    requires Good(q) && t in q.entry
    ensures Good(Reprioritize(q, t, p))
    ensures forall id, u :: u in Reprioritize(q, t, p).List(id) <==> u in q.List(id)
  {
    hide Without, InsertAt, Slot, ListLinked, ListSorted;
    if q.entry[t].link.Some? {
      RemoveGood(q, t);
      SetPrioGood(Remove(q, t), t, p);
      PushGood(SetPrio(Remove(q, t), t, p), q.entry[t].link.value, t);
    } else {
      SetPrioGood(q, t, p);
    }
  }

  lemma AdmitGood(q: Queues, t: TaskId, p: nat)
    requires Good(q) && t !in q.entry
    ensures Good(Admit(q, t, p))
  {
    OffEveryList(q, t);
    var r := Admit(q, t, p);
    forall id ensures ListLinked(r.entry, id, r.List(id)) && ListSorted(r.entry, r.List(id)) {
      assert ListLinked(q.entry, id, q.List(id)) && ListSorted(q.entry, q.List(id));
      Untouched(q.entry, r.entry, id, q.List(id));
    }
  }

  lemma ForgetGood(q: Queues, t: TaskId)
    requires Good(q) && t in q.entry && q.entry[t].link.None?
    ensures Good(Forget(q, t))
  {
    OffEveryList(q, t);
    var r := Forget(q, t);
    forall id ensures ListLinked(r.entry, id, r.List(id)) && ListSorted(r.entry, r.List(id)) {
      assert ListLinked(q.entry, id, q.List(id)) && ListSorted(q.entry, q.List(id));
      Untouched(q.entry, r.entry, id, q.List(id));
    }
  }
}
