/**
 Who asks for a context switch, and whether everybody does who should: after each service call, a task that has newly
 become more urgent than the one that runs on the caller's core finds a switch of that core requested.
 */
module Preemption {
  import opened Types
  import opened Sequences
  import opened Kernel
  import opened Steps
  import opened Placement
  import opened MutexKernel
  import opened Inheritance
  import opened Dispatching
  import Q = TaskQueues
  import Ow = OwnedFutexes

  /** `u` is ready, may run on core `c`, and is more urgent than what runs there. */
  predicate Outranks(k: Kernel, c: CoreId, u: TaskId) {
    && c in k.current && Contends(k, c, u) && k.Look(k.current[c]).Some?
    && k.Look(u).value.prio < k.Look(k.current[c]).value.prio
  }

  /** Nobody has newly come to outrank what runs on core `c` without a request to switch. */
  ghost predicate Requested(k: Kernel, r: Kernel, c: CoreId) {
    forall u :: Outranks(r, c, u) && !Outranks(k, c, u) ==> c in r.pending
  }

  lemma SameRank(k: Kernel, r: Kernel, c: CoreId, u: TaskId)
    requires c in r.current ==> c in k.current && r.current[c] == k.current[c] && r.Look(r.current[c]) == k.Look(r.current[c])
    requires r.Look(u) == k.Look(u)
    ensures Outranks(r, c, u) ==> Outranks(k, c, u)
  {
    hide Kernel.Look;
  }

  lemma NobodyNew(k: Kernel, r: Kernel, c: CoreId)
    requires r.current == k.current && forall u :: r.Look(u) == k.Look(u)
    ensures forall u :: Outranks(r, c, u) ==> Outranks(k, c, u)
  {
    hide Kernel.Look, Outranks;
    forall u | Outranks(r, c, u) ensures Outranks(k, c, u) {
      SameRank(k, r, c, u);
    }
  }

  // ----- calls that ready one task at most

  /** A new task asks for a switch exactly if it is ready and more urgent than its creator. */
  lemma CreateRequests(k: Kernel, c: CoreId, t: TaskId, prio: nat, affinity: Option<CoreId>, daemon: bool, suspended: bool)
    requires Calls(k, c) && t !in k.tasks
    ensures var r := Create(k, c, t, prio, affinity, daemon, suspended);
            && r.pending == (if !suspended && prio < k.Prio(k.current[c]) then k.pending + {c} else k.pending)
            && Requested(k, r, c) && SameSetting(k, r)
  {
    hide Kernel.Look, Sane, Born, MakeReady;
    CreateStep(k, c, t, prio, affinity, daemon, suspended);
    var r := Create(k, c, t, prio, affinity, daemon, suspended);
    BornStep(k, t, prio, affinity, daemon);
    var born := Born(k, t, prio, affinity, daemon);
    Seen(born, t);
    MakeReadyPending(born, t);
    Seen(k, k.current[c]);
    Seen(k, t);
    forall u | Outranks(r, c, u) && !Outranks(k, c, u) ensures c in r.pending {
      if u != t { SameRank(k, r, c, u); }
    }
  }

  lemma MakeReadyPending(k: Kernel, t: TaskId)
    requires Sane(k) && t in k.tasks && k.Look(t).Some? && k.Look(t).value.link.None?
    ensures k.Link(t).None? && MakeReady(k, t).pending == k.pending
  {
    hide Sane;
  }

  /** A call on a task that is not there answers so and changes nothing. */
  lemma NobodyThere(k: Kernel, c: CoreId, t: TaskId, delay: nat, p: nat)
    requires Calls(k, c) && t !in k.tasks
    ensures Suspend(k, c, t, delay) == (k, -ESRCH) && Resume(k, c, t) == (k, -ESRCH)
    ensures Terminate(k, c, t) == (k, -ESRCH) && SetPriority(k, c, t, p) == (k, -ESRCH)
  {}

  lemma SuspendRequests(k: Kernel, c: CoreId, t: TaskId, delay: nat)
    requires Calls(k, c) && t in k.tasks
    ensures var (r, r0) := Suspend(k, c, t, delay);
            r0 == 0 && c !in r.current && r.pending == k.pending + {c} && Requested(k, r, c) && SameSetting(k, r)
  {
    hide Kernel.Look, Sane, ParkOther, Leave, StartTimer;
    SuspendStep(k, c, t, delay);
  }

  /** A resume answers whether it found its task waiting or suspended. */
  lemma ResumeRequests(k: Kernel, c: CoreId, t: TaskId)
    requires Calls(k, c) && t in k.tasks
    ensures var (r, r0) := Resume(k, c, t); var state := k.tasks[t].state;
            && r0 == (if state.Blocked? || state.Suspended? then 0 else -EINVAL)
            && (r0 != 0 ==> forall u :: r.Look(u) == k.Look(u))
            && r.pending == k.pending + {c} && Requested(k, r, c) && SameSetting(k, r)
  {
    hide Kernel.Look, Sane, Rouse;
    PendingStep(k, c);
    if k.tasks[t].state.Blocked? || k.tasks[t].state.Suspended? { ResumeStep(k, c, t); }
  }

  lemma WaitRequests(k: Kernel, c: CoreId, f: FutexId, expected: int, delay: nat)
    requires Calls(k, c) && f in k.futexes
    requires k.futexes[f].kind == Mutex(true) && ShouldBlock(k.futexes[f], expected) ==> OwnerLive(k, k.futexes[f].value)
    ensures var r := Wait(k, c, f, expected, delay);
            c !in r.current && r.pending == k.pending + {c} && Requested(k, r, c) && SameSetting(k, r)
  {
    hide Kernel.Look, Sane, Wait, ShouldBlock, WaitLook, OwnerLive;
    if ShouldBlock(k.futexes[f], expected) {
      WaitStep(k, c, f, expected, delay);
    } else {
      WaitReadyStep(k, c, f, expected, delay);
    }
  }

  lemma TerminateRequests(k: Kernel, c: CoreId, t: TaskId)
    requires Calls(k, c) && t in k.tasks
    ensures var (r, r0) := Terminate(k, c, t);
            && r0 == 0 && (c in r.current <==> t != k.current[c])
            && r.pending == (if t == k.current[c] then k.pending + {c} else k.pending)
            && Requested(k, r, c) && SameSetting(k, r)
  {
    hide Kernel.Look, Sane, Bury;
    TerminateStep(k, c, t);
    var r := Terminate(k, c, t).0;
    forall u | Outranks(r, c, u) && !Outranks(k, c, u) ensures c in r.pending {
      if u != t { SameRank(k, r, c, u); }
    }
  }

  lemma SetPriorityRequests(k: Kernel, c: CoreId, t: TaskId, p: nat)
    requires Calls(k, c) && t in k.tasks
    ensures var (r, r0) := SetPriority(k, c, t, p);
            r0 == 0 && r.pending == k.pending + {c} && Requested(k, r, c) && SameSetting(k, r)
  {
    hide Kernel.Look, Sane, Reprioritize, SetTask;
    SetPriorityStep(k, c, t, p);
  }

  // ----- wakes

  /** `t` has waited for `f` and is ready. */
  predicate Roused(k: Kernel, r: Kernel, f: FutexId, t: TaskId) {
    && k.Look(t).Some? && k.Look(t).value.link == Some(Q.WaitersOf(f))
    && r.Look(t).Some? && r.Look(t).value.link == Some(Q.ReadyQueue)
  }

  ghost function RousedBy(k: Kernel, r: Kernel, f: FutexId): set<TaskId> {
    set t | t in k.tasks && Roused(k, r, f, t)
  }

  lemma {:induction false} SetOf(s: seq<TaskId>, x: set<TaskId>)
    requires NoDup(s) && forall t :: t in x <==> t in s
    ensures |x| == |s|
  {
    if s == [] {
      assert x == {};
    } else {
      assert forall t :: t in s <==> t == s[0] || t in s[1..];
      SetOf(s[1..], x - {s[0]});
    }
  }

  /** Lowering the owner changes no link, so the queue keeps its members. */
  lemma LoweredLinks(k: Kernel, f: FutexId)
    requires Sane(k) && f in k.futexes
    requires k.futexes[f].kind == Mutex(true) ==> OwnerLive(k, k.futexes[f].value)
    ensures var l := Lowered(k, f);
            && l.pending == k.pending && l.current == k.current && l.futexes == k.futexes && SameSetting(k, l)
            && (forall u :: SamePlace(k.Look(u), l.Look(u)))
            && (l.Waiters(f) == [] <==> k.Waiters(f) == [])
  {
    hide Kernel.Look, Sane, Deboost, MostUrgent, Ow.Unlink;
    var l := Lowered(k, f);
    if k.futexes[f].kind == Mutex(true) {
      var owner: TaskId := OwnerOf(k.futexes[f].value);
      DeboostStep(k, f, owner);
      Seen(k, owner);
    }
    if l.Waiters(f) != [] { SameMember(l, k, f, l.Waiters(f)[0]); }
    if k.Waiters(f) != [] { SameMember(k, l, f, k.Waiters(f)[0]); }
  }

  lemma SameMember(k: Kernel, l: Kernel, f: FutexId, t: TaskId)
    requires Sane(k) && Sane(l) && t in k.Waiters(f) && SamePlace(k.Look(t), l.Look(t))
    ensures t in l.Waiters(f) && l.Waiters(f) != []
  {
    hide Kernel.Look, Sane;
    OnQueue(k, Q.WaitersOf(f), t);
    OnQueue(l, Q.WaitersOf(f), t);
  }

  lemma WaitersOnce(k: Kernel, f: FutexId)
    requires Sane(k)
    ensures NoDup(k.Waiters(f))
    ensures forall t :: t in k.Waiters(f) <==> k.Look(t).Some? && k.Look(t).value.link == Some(Q.WaitersOf(f))
  {
    hide Kernel.Look;
    assert Q.ListLinked(k.queues.entry, Q.WaitersOf(f), k.Waiters(f));
    forall t ensures t in k.Waiters(f) <==> k.Look(t).Some? && k.Look(t).value.link == Some(Q.WaitersOf(f)) {
      OnQueue(k, Q.WaitersOf(f), t);
    }
  }

  /** A wake of a plain futex: how many become ready. */
  lemma PlainRouses(k: Kernel, f: FutexId, all: bool)
    requires Sane(k) && f in k.futexes && k.futexes[f].kind.Plain?
    ensures var r := WakeFutex(k, f, all);
            && r.pending == k.pending && r.current == k.current && SameSetting(k, r)
            && |RousedBy(k, r, f)| == WokenBy(k, f, all)
            && (k.Waiters(f) == [] ==> forall u :: r.Look(u) == k.Look(u))
  {
    hide Kernel.Look, Sane, WakeFutex, WakeLoop;
    WakePlain(k, f, all);
    WakeLoopStep(k, f, all);
    WaitersOnce(k, f);
    var r := WakeFutex(k, f, all);
    var s := Woken(k, f, all);
    assert forall t :: t in s ==> t in k.Waiters(f);
    forall t ensures t in RousedBy(k, r, f) <==> t in s {
      Seen(k, t);
      assert r.Look(t) == RousedLook(k, s, t);
    }
    SetOf(s, RousedBy(k, r, f));
  }

  /** ... and of a mutex. */
  lemma MutexRouses(k: Kernel, f: FutexId, all: bool)
    requires Sane(k) && f in k.futexes && k.futexes[f].kind.Mutex?
    requires k.futexes[f].kind == Mutex(true) ==> OwnerLive(k, k.futexes[f].value)
    ensures var r := WakeFutex(k, f, all);
            && r.pending == k.pending && r.current == k.current && SameSetting(k, r)
            && |RousedBy(k, r, f)| == WokenBy(k, f, all)
            && (k.Waiters(f) == [] ==> forall u :: r.Look(u) == Lowered(k, f).Look(u))
  {
    hide Kernel.Look, Sane, Lowered, WakeWaiters, OwnerOf, OwnerLive, NextPrio;
    LoweredLinks(k, f);
    var l := Lowered(k, f);
    var r := WakeFutex(k, f, all);
    if l.Waiters(f) == [] {
      WakeNobodyStep(l, f, all);
      forall t ensures t !in RousedBy(k, r, f) {
        assert SamePlace(k.Look(t), l.Look(t)) && r.Look(t) == l.Look(t);
      }
      assert RousedBy(k, r, f) == {};
    } else {
      var head := l.Waiters(f)[0];
      WakeMutexStep(l, f, all);
      WaitersOnce(l, f);
      Seen(k, head);
      forall t ensures t in RousedBy(k, r, f) <==> t == head {
        assert SamePlace(k.Look(t), l.Look(t)) && r.Look(t) == WakeLook(l, f, t);
        Seen(l, t);
        Seen(k, t);
      }
      assert RousedBy(k, r, f) == {head};
    }
  }

  /**
   A wake returns how many tasks it has readied, and asks for a switch of its core exactly if there are any. Without any
   it changes nothing about any task but what the mutex lent its owner.
   */
  lemma WakeRequests(k: Kernel, c: CoreId, f: FutexId, all: bool)
    requires Calls(k, c) && f in k.futexes
    requires k.futexes[f].kind == Mutex(true) ==> OwnerLive(k, k.futexes[f].value)
    ensures var (r, woken) := Wake(k, c, f, all);
            && woken == |RousedBy(k, r, f)| && r.current == k.current && SameSetting(k, r)
            && r.pending == (if RousedBy(k, r, f) == {} then k.pending else k.pending + {c})
            && (RousedBy(k, r, f) == {} ==> forall u :: SamePlace(k.Look(u), r.Look(u)))
            && (RousedBy(k, r, f) == {} && k.futexes[f].kind != Mutex(true) ==> forall u :: r.Look(u) == k.Look(u))
  {
    hide Kernel.Look, Sane, WakeFutex, Lowered, OwnerOf, OwnerLive;
    var r := WakeFutex(k, f, all);
    PendingStep(r, c);
    if k.futexes[f].kind.Plain? {
      PlainRouses(k, f, all);
    } else {
      MutexRouses(k, f, all);
      LoweredLinks(k, f);
      if k.futexes[f].kind != Mutex(true) { NotLowered(k, f); }
    }
    assert RousedBy(k, Wake(k, c, f, all).0, f) == RousedBy(k, r, f);
    assert RousedBy(k, r, f) == {} <==> k.Waiters(f) == [];
  }

  lemma NotLowered(k: Kernel, f: FutexId)
    requires Sane(k) && f in k.futexes && k.futexes[f].kind != Mutex(true)
    ensures Lowered(k, f) == k
  {}

  /** So nobody is overlooked, except when a mutex that lends priority is released to nobody. */
  lemma WakePreempts(k: Kernel, c: CoreId, f: FutexId, all: bool)
    requires Calls(k, c) && f in k.futexes
    requires k.futexes[f].kind == Mutex(true) ==> OwnerLive(k, k.futexes[f].value)
    requires k.futexes[f].kind == Mutex(true) ==> k.Waiters(f) != []
    ensures Requested(k, Wake(k, c, f, all).0, c)
  {
    hide Kernel.Look, Sane, Wake, OwnerLive;
    WakeRequests(k, c, f, all);
    var r := Wake(k, c, f, all).0;
    if k.futexes[f].kind == Mutex(true) {
      assert WokenBy(k, f, all) == 1;
      WokenCount(k, c, f, all);
    } else if RousedBy(k, r, f) == {} {
      NobodyNew(k, r, c);
    }
  }

  lemma WokenCount(k: Kernel, c: CoreId, f: FutexId, all: bool)
    requires Calls(k, c) && f in k.futexes
    requires k.futexes[f].kind == Mutex(true) ==> OwnerLive(k, k.futexes[f].value)
    ensures Wake(k, c, f, all).1 == WokenBy(k, f, all)
  {
    hide Sane, WakeFutex;
  }

  // ----- a release to nobody

  /** The priority that the owner of `f` falls back to when it releases it. */
  function FallsBackTo(k: Kernel, f: FutexId, t: TaskId): nat
    requires Sane(k) && t in k.tasks
  {
    Parts(k);
    MostUrgent(k.queues, Ow.Unlink(k.owned, f).List(t), k.tasks[t].base)
  }

  /** `u` is ready for core `c`, as urgent at most as the running task now, but more urgent than it will be. */
  predicate Overlooked(k: Kernel, c: CoreId, f: FutexId, u: TaskId)
    requires Calls(k, c)
  {
    Contends(k, c, u) && k.Prio(k.current[c]) <= k.Look(u).value.prio < FallsBackTo(k, f, k.current[c])
  }

  /**
   The exact condition under which a switch is missed: the owner of a priority-inheriting mutex that nobody waits for any
   more gives back what it was lent, no switch is requested, and whoever is ready between the two priorities has to wait
   for the next one.
   */
  lemma OverlookedExactly(k: Kernel, c: CoreId, f: FutexId, all: bool)
    requires MutexesOk(k) && c in k.current && IsPi(k, f) && Names(k, f, k.current[c]) && k.Waiters(f) == []
    ensures Calls(k, c) && OwnerLive(k, k.futexes[f].value)
    ensures var r := Wake(k, c, f, all).0;
            && r.pending == k.pending && r.current == k.current
            && (forall u :: Outranks(r, c, u) && !Outranks(k, c, u) <==> Overlooked(k, c, f, u))
            && (Requested(k, r, c) <==> c in k.pending || !exists u :: Overlooked(k, c, f, u))
  {
    hide Kernel.Look, Sane, MutexesOk, Placed, Names, Wake, FallsBackTo, Contends, WakeFutex, OwnerOf, MostUrgent, Ow.Unlink;
    Word(k, f);
    OwnerWakes(k, c, f, all);
    CallerReady(k, c);
    var cur := k.current[c];
    var r := Wake(k, c, f, all).0;
    Seen(k, cur);
    WokenNobody(k, c, f, all);
    forall u ensures Outranks(r, c, u) && !Outranks(k, c, u) <==> Overlooked(k, c, f, u) {
      if u != cur {
        SameContender(k, r, c, u);
      } else {
        NotContending(k, c);
        NotContending(r, c);
      }
    }
  }

  lemma SameContender(k: Kernel, r: Kernel, c: CoreId, u: TaskId)
    requires r.Look(u) == k.Look(u)
    ensures Contends(r, c, u) <==> Contends(k, c, u)
    ensures Contends(k, c, u) ==> r.Look(u).Some? && r.Look(u).value.prio == k.Look(u).value.prio
  {
    hide Kernel.Look;
  }

  lemma NotContending(k: Kernel, c: CoreId)
    requires c in k.current && k.Look(k.current[c]).Some? && k.Look(k.current[c]).value.link.None?
    ensures !Contends(k, c, k.current[c])
  {
    hide Kernel.Look;
  }

  lemma WokenNobody(k: Kernel, c: CoreId, f: FutexId, all: bool)
    requires Calls(k, c) && IsPi(k, f) && Names(k, f, k.current[c]) && k.Waiters(f) == [] && k.Look(k.current[c]).Some?
    requires OwnerLive(k, k.futexes[f].value)
    ensures var r := Wake(k, c, f, all).0; var cur := k.current[c];
            && r.pending == k.pending && r.current == k.current
            && (forall u :: u != cur ==> r.Look(u) == k.Look(u))
            && r.Look(cur) == Some(k.Look(cur).value.(prio := FallsBackTo(k, f, cur)))
  {
    hide Kernel.Look, Sane, WakeFutex, MostUrgent, Ow.Unlink, Deboost, Q.Linked, Q.Good, Ow.Good;
    var cur := k.current[c];
    MutexRouses(k, f, all);
    DeboostStep(k, f, cur);
  }
}
