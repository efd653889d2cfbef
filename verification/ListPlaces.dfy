/** The three ordered queues put a node where the list walk of `IntrusiveLists.InsertOrdered` puts it. */
module ListPlaces {
  import opened Types
  import opened Sequences
  import L = IntrusiveLists
  import Q = TaskQueues
  import Tm = TaskTimers
  import M = MessageQueue

  /** A task queue is walked by priority ... */
  lemma {:induction false} QueuePlace(entry: map<TaskId, Q.Entry>, list: seq<TaskId>, keys: seq<int>, p: nat)
    requires |keys| == |list| && forall i :: 0 <= i < |list| ==> list[i] in entry && keys[i] == entry[list[i]].prio
    ensures Q.Slot(entry, list, p) == L.Gap(keys, p)
  {
    L.GapAt(keys, p, Q.Slot(entry, list, p));
  }

  /** ... the timer list by deadline ... */
  lemma {:induction false} TimerPlace(expires: map<TaskId, nat>, list: seq<TaskId>, keys: seq<int>, e: nat)
    requires |keys| == |list| && forall i :: 0 <= i < |list| ==> list[i] in expires && keys[i] == expires[list[i]]
    ensures FirstLater(expires, list, e) == L.Gap(keys, e)
  {
    L.GapAt(keys, e, FirstLater(expires, list, e));
  }

  /** ... and the messages by descending priority. */
  lemma {:induction false} MessagePlace(q: seq<M.Message>, keys: seq<int>, prio: nat)
    requires |keys| == |q| && forall i :: 0 <= i < |q| ==> keys[i] == -(q[i].prio as int)
    ensures M.Place(q, prio) == L.Gap(keys, -(prio as int))
  {
    L.GapAt(keys, -(prio as int), M.Place(q, prio));
  }
}
