/**
 The mutexes of the RTOS layer and of the threads layer: every thread runs the same algorithm, one step
 per atomic operation on the word and one per service call, in any interleaving and with timer ticks,
 context switches and other service calls in between.
 */
module MutexProtocol {
  import opened Types
  import opened Sequences
  import opened Kernel
  import opened Steps
  import opened Placement
  import opened Calmness
  import opened MutexKernel
  import Q = TaskQueues
  import Tm = TaskTimers

  /**
   Where a thread is: `polls` is a zero timeout of the RTOS layer, which never waits; `expected` is the
   word that the failed compare-and-swap has seen.
   */
  datatype Pc =
    | Idle
    | TryLock(f: FutexId, delay: nat, polls: bool)
    | CallWait(f: FutexId, delay: nat, expected: int)
    | Waited(f: FutexId, delay: nat)
    | TestWord(f: FutexId, delay: nat)
    | TryUnlock(f: FutexId)
    | SwapBack(f: FutexId)
    | CallWake(f: FutexId)

  /** `held` counts, for each mutex, the successful acquires without a matching release. */
  datatype Thread = Thread(pc: Pc, held: multiset<FutexId>)

  /** `stale` is a history: the mutexes whose last release found nobody waiting, and that nobody has taken since. */
  datatype System = System(
    k: Kernel, threads: map<TaskId, Thread>, recursive: set<FutexId>, count: map<FutexId, int>, stale: set<FutexId>)
  {
    function Count(f: FutexId): int { if f in count then count[f] else 0 }

    /** `t` goes on at `pc`. */
    function Goto(t: TaskId, pc: Pc): System
      requires t in threads
    {
      this.(threads := threads[t := threads[t].(pc := pc)])
    }

    /** `t` is done, with `held` changed. */
    function Done(t: TaskId, held: multiset<FutexId>): System {
      this.(threads := threads[t := Thread(Idle, held)])
    }
  }

  datatype Status = Ok | ErrorParameter | ErrorResource | ErrorTimeout | Error

  // ----- the steps of acquire

  function Acquire(s: System, t: TaskId, f: FutexId, delay: nat, rtos: bool): (System, Option<Status>)
    requires t in s.threads
  {
    if !Names(s.k, f, t) then (s.Goto(t, TryLock(f, delay, rtos && delay == 0)), None)
    else if f !in s.recursive then (s, Some(ErrorParameter))
    else (s.Done(t, s.threads[t].held + multiset{f}).(count := s.count[f := s.Count(f) + 1], stale := s.stale - {f}), Some(Ok))
  }

  /** The lock is taken: the recursion count starts. */
  function Locked(s: System, t: TaskId, f: FutexId): System
    requires t in s.threads
  {
    s.Done(t, s.threads[t].held + multiset{f}).(count := if f in s.recursive then s.count[f := 1] else s.count,
                                                stale := s.stale - {f})
  }

  function Swap(s: System, t: TaskId): (System, Option<Status>)
    requires t in s.threads && s.threads[t].pc.TryLock? && s.threads[t].pc.f in s.k.futexes
  {
    var pc := s.threads[t].pc;
    var v := s.k.futexes[pc.f].value;
    if v == 0 then (Locked(s.(k := SetWord(s.k, pc.f, t)), t, pc.f), Some(Ok))
    else if pc.polls then (s.Goto(t, Idle), Some(ErrorResource))
    else (s.Goto(t, CallWait(pc.f, pc.delay, v)), None)
  }

  /** A wait that would make a thread inherit that is no more: the kernel's assertion about the owner fails. */
  predicate Forlorn(k: Kernel, f: FutexId, expected: int) {
    && f in k.futexes && k.futexes[f].kind == Mutex(true)
    && ShouldBlock(k.futexes[f], expected) && !OwnerLive(k, k.futexes[f].value)
  }

  function SvcWait(s: System, c: CoreId): System
    requires Calls(s.k, c) && s.k.current[c] in s.threads
    requires var pc := s.threads[s.k.current[c]].pc;
             pc.CallWait? && pc.f in s.k.futexes &&
             !Forlorn(s.k, pc.f, pc.expected)
  {
    var pc := s.threads[s.k.current[c]].pc;
    s.Goto(s.k.current[c], Waited(pc.f, pc.delay)).(k := Wait(s.k, c, pc.f, pc.expected, pc.delay))
  }

  /** Back from the wait, with its result. */
  function Returned(s: System, t: TaskId): (System, Option<Status>)
    requires t in s.threads && s.threads[t].pc.Waited? && t in s.k.tasks
  {
    var pc := s.threads[t].pc;
    var result := s.k.tasks[t].result;
    if result < 0 then (s.Goto(t, Idle), Some(if Broken(result) then ErrorTimeout else Error))
    else (s.Goto(t, TestWord(pc.f, pc.delay)), None)
  }

  /** Handed over meanwhile? If not, try again. */
  function Test(s: System, t: TaskId): (System, Option<Status>)
    requires t in s.threads && s.threads[t].pc.TestWord?
  {
    var pc := s.threads[t].pc;
    if Names(s.k, pc.f, t) then (Locked(s, t, pc.f), Some(Ok)) else (s.Goto(t, TryLock(pc.f, pc.delay, false)), None)
  }

  // ----- the steps of release

  function Release(s: System, t: TaskId, f: FutexId): (System, Option<Status>)
    requires t in s.threads
  {
    if !Names(s.k, f, t) then (s, Some(ErrorResource))
    else if f !in s.recursive then (s.Goto(t, TryUnlock(f)), None)
    else
      var s' := s.(count := s.count[f := s.Count(f) - 1]);
      if s.Count(f) - 1 > 0 then (s'.Done(t, s.threads[t].held - multiset{f}), Some(Ok))
      else (s'.Goto(t, TryUnlock(f)), None)
  }

  function ReadWord(s: System, t: TaskId): System
    requires t in s.threads && s.threads[t].pc.TryUnlock? && s.threads[t].pc.f in s.k.futexes
  {
    var f := s.threads[t].pc.f;
    s.Goto(t, if s.k.futexes[f].value == t then SwapBack(f) else CallWake(f))
  }

  function SwapOut(s: System, t: TaskId): (System, Option<Status>)
    requires t in s.threads && s.threads[t].pc.SwapBack? && s.threads[t].pc.f in s.k.futexes
  {
    var f := s.threads[t].pc.f;
    if s.k.futexes[f].value == t then (s.(k := SetWord(s.k, f, 0)).Done(t, s.threads[t].held - multiset{f}), Some(Ok))
    else (s.Goto(t, CallWake(f)), None)
  }

  function SvcWake(s: System, c: CoreId): (System, Option<Status>)
    requires Calls(s.k, c) && s.k.current[c] in s.threads
    requires var pc := s.threads[s.k.current[c]].pc;
             pc.CallWake? && pc.f in s.k.futexes && OwnerLive(s.k, s.k.futexes[pc.f].value)
  {
    var t := s.k.current[c];
    var f := s.threads[t].pc.f;
    (s.(k := Wake(s.k, c, f, false).0).Done(t, s.threads[t].held - multiset{f})
      .(stale := if s.k.Waiters(f) == [] then s.stale + {f} else s.stale - {f}), Some(Ok))
  }

  /** What a step of release does to the holds of its thread. */
  predicate GaveUp(s: System, s': System, t: TaskId, f: FutexId, status: Option<Status>) {
    && t in s.threads && t in s'.threads
    && (status == Some(Ok) ==> f in s.threads[t].held && s'.threads[t].held == s.threads[t].held - multiset{f})
    && (status == Some(ErrorResource) ==> f !in s.threads[t].held)
    && (status != Some(Ok) ==> s'.threads[t].held == s.threads[t].held)
    && (status.Some? ==> status == Some(Ok) || status == Some(ErrorResource))
  }

  // ----- the invariant

  predicate Queued(w: Face) {
    w.link.Some? && w.link.value.WaitersOf?
  }

  predicate OnMutex(k: Kernel, w: Face) {
    Queued(w) && IsMutex(k, w.link.value.futex)
  }

  /** What holds at each place of the algorithm. */
  predicate PcOk(k: Kernel, t: TaskId, pc: Pc, w: Face) {
    && (!pc.Idle? ==> IsMutex(k, pc.f))
    && match pc
       case Idle => !OnMutex(k, w)
       case TryLock(f, _, _) => !Queued(w) && !Names(k, f, t)
       case CallWait(f, _, expected) => !Queued(w) && !Names(k, f, t) && expected != 0
       case Waited(f, _) =>
         && (Queued(w) ==> w.link.value.futex == f)
         && (w.task.result == 0 || Broken(w.task.result))
         && (Names(k, f, t) ==> w.task.result == 0 && !Exposed(w))
       case TestWord(f, _) => !Queued(w)
       case _ => !Queued(w)
  }

  predicate Acquiring(pc: Pc, f: FutexId) {
    (pc.TryLock? || pc.CallWait? || pc.Waited? || pc.TestWord?) && pc.f == f
  }

  predicate Releasing(pc: Pc, f: FutexId) {
    (pc.TryUnlock? || pc.SwapBack? || pc.CallWake?) && pc.f == f
  }

  /** The thread may have been handed the mutex that it waited for, and does not know it yet. */
  predicate Inheriting(pc: Pc, f: FutexId) {
    (pc.Waited? || pc.TestWord?) && pc.f == f
  }

  /**
   Who holds a mutex is named by its word, and a recursive mutex counts the holds of the thread it names.
   A thread that is named without holding has just been handed the mutex, or has released it to nobody; a word
   that names a dead thread is of the second kind.
   */
  predicate HoldOk(s: System, t: TaskId, f: FutexId) {
    if t in s.threads then
      var th := s.threads[t];
      && (th.held[f] > 0 ==> Names(s.k, f, t) && (f in s.recursive || th.held[f] == 1))
      && (Names(s.k, f, t) && f in s.recursive ==> s.Count(f) + (if Releasing(th.pc, f) then 1 else 0) == th.held[f])
      && (Releasing(th.pc, f) ==> th.held[f] == 1)
      && (Acquiring(th.pc, f) ==> th.held[f] == 0)
      && (Names(s.k, f, t) ==> (f in s.stale <==> th.held[f] == 0 && !Inheriting(th.pc, f)))
    else Names(s.k, f, t) ==> f in s.stale && (f in s.recursive ==> s.Count(f) == 0)
  }

  /** The threads are the live tasks, each in order. */
  predicate ThreadOk(s: System, t: TaskId) {
    && (t in s.threads <==> s.k.Look(t).Some?)
    && (t in s.threads ==> PcOk(s.k, t, s.threads[t].pc, s.k.Look(t).value))
  }

  ghost predicate Inv(s: System) {
    && MutexesOk(s.k)
    && (forall t :: ThreadOk(s, t))
    && (forall t, f :: HoldOk(s, t, f))
  }

  // ----- what the invariant says

  /** Mutual exclusion: two threads that hold the same mutex are one, and the word names it. */
  lemma Exclusive(s: System, f: FutexId, t: TaskId, u: TaskId)
    requires Inv(s) && t in s.threads && u in s.threads && f in s.threads[t].held && f in s.threads[u].held
    ensures t == u && Names(s.k, f, t)
  {
    hide MutexesOk, Kernel.Look;
    assert HoldOk(s, t, f) && HoldOk(s, u, f);
  }

  /** No stranded waiter: a mutex somebody waits for has its contention flag set and names a thread. */
  lemma NotStranded(s: System, f: FutexId)
    requires Inv(s) && IsMutex(s.k, f)
    ensures s.k.Waiters(f) != [] ==> Contended(s.k.futexes[f].value) && OwnerOf(s.k.futexes[f].value) > 0
    ensures s.k.futexes[f].value == 0 ==> s.k.Waiters(f) == []
  {
    hide Kernel.Look, Placed;
    assert WordOk(s.k, f);
  }

  /** The running thread of core `c`. */
  lemma Running(s: System, c: CoreId)
    requires Inv(s) && c in s.k.current
    ensures Calls(s.k, c) && s.k.current[c] in s.threads && s.k.Look(s.k.current[c]).Some?
    ensures var w := s.k.Look(s.k.current[c]).value; !Queued(w) && !Exposed(w)
    ensures PcOk(s.k, s.k.current[c], s.threads[s.k.current[c]].pc, s.k.Look(s.k.current[c]).value)
  {
    hide Kernel.Look, Placed, Sane;
    CallerReady(s.k, c);
    assert ThreadOk(s, s.k.current[c]);
  }

  // ----- user steps

  /** The kernel state and the other threads stay as they were. */
  lemma OneThread(s: System, s': System, t: TaskId)
    requires Inv(s) && s'.k == s.k && s'.recursive == s.recursive && t in s.threads
    requires forall u :: u in s'.threads <==> u in s.threads
    requires forall u :: u in s.threads && u != t ==> s'.threads[u] == s.threads[u]
    requires forall f :: f in s.recursive && s'.Count(f) != s.Count(f) ==> Names(s.k, f, t)
    requires forall f :: (f in s'.stale <==> f in s.stale) || Names(s.k, f, t)
    requires s.k.Look(t).Some? && PcOk(s.k, t, s'.threads[t].pc, s.k.Look(t).value)
    requires forall f :: HoldOk(s', t, f)
    ensures Inv(s')
  {
    hide Kernel.Look, MutexesOk, PcOk;
    forall u ensures ThreadOk(s', u) {
      assert ThreadOk(s, u);
    }
    forall u, f ensures HoldOk(s', u, f) {
      assert HoldOk(s, u, f);
    }
  }

  lemma Holds(s: System, t: TaskId, f: FutexId)
    requires Inv(s)
    ensures HoldOk(s, t, f)
  {
    hide MutexesOk;
  }

  /** What the next place of a thread must allow, when it neither takes nor drops a mutex. */
  lemma GotoKeeps(s: System, c: CoreId, pc: Pc)
    requires Inv(s) && c in s.k.current && s.k.current[c] in s.threads
    requires var t := s.k.current[c];
             && s.k.Look(t).Some? && PcOk(s.k, t, pc, s.k.Look(t).value)
             && (forall f :: Releasing(pc, f) <==> Releasing(s.threads[t].pc, f))
             && (forall f :: Acquiring(pc, f) && !Acquiring(s.threads[t].pc, f) ==> s.threads[t].held[f] == 0)
             && (forall f :: Names(s.k, f, t) ==> (Inheriting(pc, f) <==> Inheriting(s.threads[t].pc, f)))
    ensures Inv(s.Goto(s.k.current[c], pc))
  {
    hide Kernel.Look, MutexesOk, Inv, PcOk;
    var t := s.k.current[c];
    var s' := s.Goto(t, pc);
    forall g ensures HoldOk(s', t, g) {
      Holds(s, t, g);
    }
    OneThread(s, s', t);
  }

  /** The running thread takes `f`, which already names it. */
  lemma TakeKeeps(s: System, c: CoreId, f: FutexId, n: int)
    requires Inv(s) && c in s.k.current && s.k.current[c] in s.threads && Names(s.k, f, s.k.current[c])
    requires var th := s.threads[s.k.current[c]];
             && (th.pc.Idle? || th.pc.TestWord?) && (th.pc.TestWord? ==> th.pc.f == f)
             && (if f in s.recursive then n == th.held[f] + 1 else th.held[f] == 0 && n == s.Count(f))
    ensures var t := s.k.current[c];
            Inv(s.Done(t, s.threads[t].held + multiset{f})
                 .(count := if f in s.recursive then s.count[f := n] else s.count, stale := s.stale - {f}))
  {
    hide Kernel.Look, MutexesOk, Inv;
    Running(s, c);
    var t := s.k.current[c];
    var s' := s.Done(t, s.threads[t].held + multiset{f})
               .(count := if f in s.recursive then s.count[f := n] else s.count, stale := s.stale - {f});
    forall g ensures HoldOk(s', t, g) {
      Holds(s, t, g);
    }
    OneThread(s, s', t);
  }

  lemma AcquireKeeps(s: System, c: CoreId, f: FutexId, delay: nat, rtos: bool)
    requires Inv(s) && c in s.k.current && IsMutex(s.k, f) && s.k.current[c] in s.threads
    requires s.threads[s.k.current[c]].pc.Idle?
    ensures var (s', status) := Acquire(s, s.k.current[c], f, delay, rtos);
            && Inv(s')
            && (status == Some(Ok) ==> f in s'.threads[s.k.current[c]].held)
            && (status == Some(ErrorParameter) ==> Names(s.k, f, s.k.current[c]) && f !in s.recursive)
  {
    hide Kernel.Look, MutexesOk, Inv;
    Running(s, c);
    var t := s.k.current[c];
    Holds(s, t, f);
    if !Names(s.k, f, t) {
      GotoKeeps(s, c, TryLock(f, delay, rtos && delay == 0));
    } else if f in s.recursive {
      TakeKeeps(s, c, f, s.Count(f) + 1);
    }
  }

  /** A wait returned: an error only to a thread that the word does not name. */
  lemma ReturnedKeeps(s: System, c: CoreId)
    requires Inv(s) && c in s.k.current && s.k.current[c] in s.threads
    requires s.threads[s.k.current[c]].pc.Waited?
    ensures s.k.current[c] in s.k.tasks
    ensures var t := s.k.current[c]; var (s', status) := Returned(s, t);
            && Inv(s')
            && (status.Some? ==> status == Some(ErrorTimeout) && !Names(s.k, s.threads[t].pc.f, t))
  {
    hide Kernel.Look, MutexesOk, Inv;
    Running(s, c);
    var t := s.k.current[c];
    Seen(s.k, t);
    var pc := s.threads[t].pc;
    if s.k.tasks[t].result < 0 {
      GotoKeeps(s, c, Idle);
    } else {
      GotoKeeps(s, c, TestWord(pc.f, pc.delay));
    }
  }

  lemma TestKeeps(s: System, c: CoreId)
    requires Inv(s) && c in s.k.current && s.k.current[c] in s.threads
    requires s.threads[s.k.current[c]].pc.TestWord?
    ensures var t := s.k.current[c]; var (s', status) := Test(s, t);
            && Inv(s')
            && (status.Some? ==> status == Some(Ok) && s.threads[t].pc.f in s'.threads[t].held)
  {
    hide Kernel.Look, MutexesOk, Inv;
    Running(s, c);
    var t := s.k.current[c];
    var pc := s.threads[t].pc;
    Holds(s, t, pc.f);
    if Names(s.k, pc.f, t) {
      TakeKeeps(s, c, pc.f, if pc.f in s.recursive then 1 else s.Count(pc.f));
    } else {
      GotoKeeps(s, c, TryLock(pc.f, pc.delay, false));
    }
  }

  lemma ReadWordKeeps(s: System, c: CoreId)
    requires Inv(s) && c in s.k.current && s.k.current[c] in s.threads
    requires s.threads[s.k.current[c]].pc.TryUnlock?
    ensures s.threads[s.k.current[c]].pc.f in s.k.futexes && Inv(ReadWord(s, s.k.current[c]))
  {
    hide Kernel.Look, MutexesOk, Inv;
    Running(s, c);
    var f := s.threads[s.k.current[c]].pc.f;
    GotoKeeps(s, c, SwapBack(f));
    GotoKeeps(s, c, CallWake(f));
  }

  /** Nobody releases a mutex that names him but that he does not hold. */
  lemma ReleaseKeeps(s: System, c: CoreId, f: FutexId)
    requires Inv(s) && c in s.k.current && s.k.current[c] in s.threads && IsMutex(s.k, f)
    requires s.threads[s.k.current[c]].pc.Idle?
    requires Names(s.k, f, s.k.current[c]) ==> f in s.threads[s.k.current[c]].held
    ensures var t := s.k.current[c]; var (s', status) := Release(s, t, f);
            && Inv(s')
            && GaveUp(s, s', t, f, status)
            && (status == Some(Ok) ==> Names(s'.k, f, t))
  {
    hide Kernel.Look, MutexesOk, Inv;
    Running(s, c);
    var t := s.k.current[c];
    Holds(s, t, f);
    if Names(s.k, f, t) {
      var s' := Release(s, t, f).0;
      forall g ensures HoldOk(s', t, g) {
        Holds(s, t, g);
      }
      OneThread(s, s', t);
    }
  }

  /** The running thread writes the word of an uncontended mutex that names nobody else. */
  lemma WriteKeeps(s: System, s': System, c: CoreId, f: FutexId, v: int)
    requires Inv(s) && c in s.k.current && s.k.current[c] in s.threads && IsMutex(s.k, f)
    requires s.k.futexes[f].value == 0 || s.k.futexes[f].value == s.k.current[c]
    requires v == 0 || v == s.k.current[c]
    requires s'.k == SetWord(s.k, f, v) && s'.recursive == s.recursive
    requires forall u :: u in s'.threads <==> u in s.threads
    requires forall u :: u in s.threads && u != s.k.current[c] ==> s'.threads[u] == s.threads[u]
    requires s'.threads[s.k.current[c]].pc.Idle?
    requires forall g :: g != f ==> s'.Count(g) == s.Count(g) && (g in s'.stale <==> g in s.stale)
    requires forall g :: HoldOk(s', s.k.current[c], g)
    ensures Inv(s')
  {
    hide Kernel.Look, MutexesOk, Placed;
    Running(s, c);
    var t := s.k.current[c];
    PlainWord(t);
    SetWordKeeps(s.k, f, v);
    SetWordStep(s.k, f, v);
    forall u ensures ThreadOk(s', u) {
      assert ThreadOk(s, u);
    }
    forall u, g ensures HoldOk(s', u, g) {
      assert HoldOk(s, u, g);
    }
  }

  lemma PlainWord(t: TaskId)
    ensures OwnerOf(t) == t && !Contended(t) && !Contended(0)
  {}

  /** The compare-and-swap of acquire: it takes the mutex, or finds it owned by somebody else. */
  lemma SwapKeeps(s: System, c: CoreId)
    requires Inv(s) && c in s.k.current && s.k.current[c] in s.threads
    requires s.threads[s.k.current[c]].pc.TryLock?
    ensures s.threads[s.k.current[c]].pc.f in s.k.futexes
    ensures var t := s.k.current[c]; var f := s.threads[t].pc.f; var (s', status) := Swap(s, t);
            && Inv(s')
            && (status.Some? ==> status == Some(Ok) || status == Some(ErrorResource))
            && (status == Some(Ok) ==> f in s'.threads[t].held && s.k.futexes[f].value == 0)
            && (status == Some(ErrorResource) ==> !Names(s'.k, f, t) && s.k.futexes[f].value != 0)
  {
    hide Kernel.Look, MutexesOk, Inv, Placed;
    Running(s, c);
    var t := s.k.current[c];
    var pc := s.threads[t].pc;
    Holds(s, t, pc.f);
    if s.k.futexes[pc.f].value == 0 {
      var s' := Swap(s, t).0;
      forall g ensures HoldOk(s', t, g) {
        Holds(s, t, g);
      }
      WriteKeeps(s, s', c, pc.f, t);
    } else {
      GotoKeeps(s, c, Idle);
      GotoKeeps(s, c, CallWait(pc.f, pc.delay, s.k.futexes[pc.f].value));
    }
  }

  /** The compare-and-swap of release. */
  lemma SwapOutKeeps(s: System, c: CoreId)
    requires Inv(s) && c in s.k.current && s.k.current[c] in s.threads
    requires s.threads[s.k.current[c]].pc.SwapBack?
    ensures s.threads[s.k.current[c]].pc.f in s.k.futexes
    ensures var t := s.k.current[c]; var f := s.threads[t].pc.f; var (s', status) := SwapOut(s, t);
            && Inv(s')
            && GaveUp(s, s', t, f, status)
            && (status == Some(Ok) ==> s'.k.futexes[f].value == 0 && f !in s'.threads[t].held)
  {
    hide Kernel.Look, MutexesOk, Inv, Placed;
    Running(s, c);
    var t := s.k.current[c];
    var f := s.threads[t].pc.f;
    Holds(s, t, f);
    if s.k.futexes[f].value == t {
      var s' := SwapOut(s, t).0;
      forall g ensures HoldOk(s', t, g) {
        Holds(s, t, g);
      }
      WriteKeeps(s, s', c, f, 0);
    } else {
      GotoKeeps(s, c, CallWake(f));
    }
  }

  // ----- service calls

  /** A thread that is not moved, and that no further word names, is still in order. */
  lemma PcKept(k: Kernel, k': Kernel, u: TaskId, pc: Pc, a: Option<Face>, b: Option<Face>)
    requires SamePlace(a, b) && a.Some? && PcOk(k, u, pc, a.value)
    requires forall f :: IsMutex(k', f) <==> IsMutex(k, f)
    requires forall f :: Names(k', f, u) ==> Names(k, f, u)
    ensures PcOk(k', u, pc, b.value)
  {}

  /** What a thread that calls for a wait knows: the kernel may refuse it only for a dead owner. */
  lemma WaitCallable(s: System, c: CoreId)
    requires Inv(s) && c in s.k.current && s.k.current[c] in s.threads
    requires s.threads[s.k.current[c]].pc.CallWait?
    ensures var pc := s.threads[s.k.current[c]].pc;
            && Calls(s.k, c) && pc.f in s.k.futexes && IsMutex(s.k, pc.f) && !Names(s.k, pc.f, s.k.current[c])
            && (ShouldBlock(s.k.futexes[pc.f], pc.expected) ==> s.k.futexes[pc.f].value != 0)
            && (ShouldBlock(s.k.futexes[pc.f], pc.expected) && !Forlorn(s.k, pc.f, pc.expected) ==> MayWait(s.k, pc.f))
  {
    hide Kernel.Look, Placed, Sane;
    Running(s, c);
    assert WordOk(s.k, s.threads[s.k.current[c]].pc.f);
  }

  lemma SameNames(k: Kernel, k': Kernel, f: FutexId)
    requires f in k.futexes && f in k'.futexes && k'.futexes == k.futexes[f := k'.futexes[f]]
    requires k'.futexes[f].kind == k.futexes[f].kind && OwnerOf(k'.futexes[f].value) == OwnerOf(k.futexes[f].value)
    ensures forall g :: IsMutex(k', g) <==> IsMutex(k, g)
    ensures forall g, u :: Names(k', g, u) <==> Names(k, g, u)
  {}

  lemma SvcWaitKeeps(s: System, c: CoreId)
    requires Inv(s) && c in s.k.current && s.k.current[c] in s.threads
    requires s.threads[s.k.current[c]].pc.CallWait?
    requires var pc := s.threads[s.k.current[c]].pc; !Forlorn(s.k, pc.f, pc.expected)
    ensures Calls(s.k, c) && s.threads[s.k.current[c]].pc.f in s.k.futexes && Inv(SvcWait(s, c))
  {
    hide Kernel.Look, MutexesOk, Placed, Sane, PcOk, Wait, ShouldBlock, OwnerLive, OwnerOf;
    WaitCallable(s, c);
    Running(s, c);
    var t := s.k.current[c];
    var pc := s.threads[t].pc;
    var s' := SvcWait(s, c);
    WaitKeeps(s.k, c, pc.f, pc.expected, pc.delay);
    WaitingPcOk(s, c);
    forall u ensures ThreadOk(s', u) {
      assert ThreadOk(s, u);
      if u != t && u in s.threads {
        PcKept(s.k, s'.k, u, s.threads[u].pc, s.k.Look(u), s'.k.Look(u));
      }
    }
    forall u, g ensures HoldOk(s', u, g) {
      assert HoldOk(s, u, g);
    }
  }

  /** The waiting thread itself, and what the others see of the wait. */
  lemma WaitingPcOk(s: System, c: CoreId)
    requires Inv(s) && c in s.k.current && s.k.current[c] in s.threads
    requires s.threads[s.k.current[c]].pc.CallWait?
    requires var pc := s.threads[s.k.current[c]].pc; !Forlorn(s.k, pc.f, pc.expected)
    ensures var t := s.k.current[c]; var pc := s.threads[t].pc;
            && Calls(s.k, c) && pc.f in s.k.futexes
            && var r := Wait(s.k, c, pc.f, pc.expected, pc.delay);
               && r.Look(t).Some? && PcOk(r, t, Waited(pc.f, pc.delay), r.Look(t).value)
               && (forall u :: u != t ==> SamePlace(s.k.Look(u), r.Look(u)))
               && (forall g :: IsMutex(r, g) <==> IsMutex(s.k, g))
               && (forall g, u :: Names(r, g, u) <==> Names(s.k, g, u))
  {
    hide Kernel.Look, MutexesOk, Placed, Sane, Wait, ShouldBlock, OwnerLive, OwnerOf, Lent, BlockLook, WaitValue;
    WaitCallable(s, c);
    Running(s, c);
    var t := s.k.current[c];
    var pc := s.threads[t].pc;
    var r := Wait(s.k, c, pc.f, pc.expected, pc.delay);
    if ShouldBlock(s.k.futexes[pc.f], pc.expected) {
      WaitStep(s.k, c, pc.f, pc.expected, pc.delay);
      WaitLookPlaces(s.k, c, pc.f, pc.delay);
      SameOwner(s.k.futexes[pc.f], pc.expected);
      SameNames(s.k, r, pc.f);
    } else {
      WaitReadyStep(s.k, c, pc.f, pc.expected, pc.delay);
    }
  }

  /** Who waits for a mutex is at that place of the algorithm. */
  lemma WaiterIsWaiting(s: System, f: FutexId, u: TaskId)
    requires Inv(s) && IsMutex(s.k, f) && s.k.Look(u).Some? && s.k.Look(u).value.link == Some(Q.WaitersOf(f))
    ensures u in s.threads && s.threads[u].pc.Waited? && s.threads[u].pc.f == f && s.threads[u].held[f] == 0
  {
    hide Kernel.Look, MutexesOk;
    assert ThreadOk(s, u) && HoldOk(s, u, f);
  }

  /**
   The owner's wake: the mutex goes to the first waiter, who has not been told of any timeout, or, with
   nobody waiting, keeps naming the thread that released it. Exactly then is the release without effect.
   */
  lemma SvcWakeKeeps(s: System, c: CoreId)
    requires Inv(s) && c in s.k.current && s.k.current[c] in s.threads
    requires s.threads[s.k.current[c]].pc.CallWake?
    ensures var t := s.k.current[c]; var f := s.threads[t].pc.f;
            && Calls(s.k, c) && f in s.k.futexes && OwnerLive(s.k, s.k.futexes[f].value)
            && var (s', status) := SvcWake(s, c);
               && Inv(s')
               && GaveUp(s, s', t, f, status) && status == Some(Ok) && f !in s'.threads[t].held
               && Names(s'.k, f, if s.k.Waiters(f) == [] then t else s.k.Waiters(f)[0])
               && (Names(s'.k, f, t) <==> s.k.Waiters(f) == [])
  {
    hide Kernel.Look, MutexesOk, Placed, Sane, Inv, PcOk, Handed, Wake, OwnerOf, OwnerLive;
    Running(s, c);
    var t := s.k.current[c];
    var f := s.threads[t].pc.f;
    CallWakeOk(s, c);
    OwnerWakes(s.k, c, f, false);
    var s' := SvcWake(s, c).0;
    HeadIsOther(s, c, f);
    forall u ensures ThreadOk(s', u) {
      WakeThreadOk(s, c, u);
    }
    forall u, g ensures HoldOk(s', u, g) {
      WakeHoldOk(s, c, u, g);
    }
    MakeInv(s');
  }

  lemma MakeInv(s: System)
    requires MutexesOk(s.k) && (forall u :: ThreadOk(s, u)) && (forall u, g :: HoldOk(s, u, g))
    ensures Inv(s)
  {}

  lemma CallWakeOk(s: System, c: CoreId)
    requires Inv(s) && c in s.k.current && s.k.current[c] in s.threads
    requires s.threads[s.k.current[c]].pc.CallWake?
    ensures var t := s.k.current[c]; Names(s.k, s.threads[t].pc.f, t) && s.threads[t].held[s.threads[t].pc.f] == 1
    ensures MutexesOk(s.k)
  {
    hide Kernel.Look, MutexesOk, Placed;
    Running(s, c);
    Holds(s, s.k.current[c], s.threads[s.k.current[c]].pc.f);
  }

  lemma HeadIsOther(s: System, c: CoreId, f: FutexId)
    requires Inv(s) && c in s.k.current && IsMutex(s.k, f)
    ensures s.k.Waiters(f) != [] ==>
              var u := s.k.Waiters(f)[0];
              u != s.k.current[c] && u in s.threads && s.threads[u].pc.Waited? && s.threads[u].pc.f == f && s.threads[u].held[f] == 0
  {
    hide Kernel.Look, MutexesOk, Inv, Placed, Sane;
    if s.k.Waiters(f) != [] {
      Running(s, c);
      CallerReadySane(s);
      OnQueue(s.k, Q.WaitersOf(f), s.k.Waiters(f)[0]);
      WaiterIsWaiting(s, f, s.k.Waiters(f)[0]);
    }
  }

  lemma CallerReadySane(s: System)
    requires Inv(s)
    ensures MutexesOk(s.k) && Placed(s.k) && Sane(s.k)
  {
    hide Kernel.Look, Sane;
    PlacedSane(s.k);
  }

  lemma WakeThreadOk(s: System, c: CoreId, u: TaskId)
    requires Inv(s) && c in s.k.current && s.k.current[c] in s.threads
    requires s.threads[s.k.current[c]].pc.CallWake?
    requires var f := s.threads[s.k.current[c]].pc.f;
             Calls(s.k, c) && f in s.k.futexes && OwnerLive(s.k, s.k.futexes[f].value)
    ensures ThreadOk(SvcWake(s, c).0, u)
  {
    hide Kernel.Look, MutexesOk, Placed, Sane, Inv, Wake, OwnerOf, OwnerLive;
    Running(s, c);
    var t := s.k.current[c];
    var f := s.threads[t].pc.f;
    CallWakeOk(s, c);
    OwnerWakes(s.k, c, f, false);
    HeadIsOther(s, c, f);
    var s' := SvcWake(s, c).0;
    Alive(s, u);
    assert Handed(s.k, s'.k, f, u);
  }

  lemma Alive(s: System, u: TaskId)
    requires Inv(s)
    ensures ThreadOk(s, u)
  {
    hide Kernel.Look, MutexesOk;
  }

  lemma WakeHoldOk(s: System, c: CoreId, u: TaskId, g: FutexId)
    requires Inv(s) && c in s.k.current && s.k.current[c] in s.threads
    requires s.threads[s.k.current[c]].pc.CallWake?
    requires var f := s.threads[s.k.current[c]].pc.f;
             Calls(s.k, c) && f in s.k.futexes && OwnerLive(s.k, s.k.futexes[f].value)
    ensures HoldOk(SvcWake(s, c).0, u, g)
  {
    hide Kernel.Look, MutexesOk, Placed, Sane, Inv, Wake, OwnerOf, OwnerLive, Handed, PcOk;
    var t := s.k.current[c];
    var f := s.threads[t].pc.f;
    CallWakeOk(s, c);
    OwnerWakes(s.k, c, f, false);
    HeadIsOther(s, c, f);
    Holds(s, u, g);
    Holds(s, t, f);
    NamesOne(s.k, f, t, u);
    NamesOne(SvcWake(s, c).0.k, f, if s.k.Waiters(f) == [] then t else s.k.Waiters(f)[0], u);
    NamesElsewhere(s.k, SvcWake(s, c).0.k, f, g, u);
  }

  lemma NamesElsewhere(k: Kernel, k': Kernel, f: FutexId, g: FutexId, u: TaskId)
    requires f in k.futexes && f in k'.futexes && k'.futexes == k.futexes[f := k'.futexes[f]]
    ensures g != f ==> (Names(k', g, u) <==> Names(k, g, u))
  {}

  // ----- everything else that the kernel does

  /** The threads follow the tasks of the kernel: newborn ones start idle. */
  function Follow(s: System, k: Kernel): System {
    s.(k := k, threads := map u | u in k.tasks :: if u in s.threads then s.threads[u] else Thread(Idle, multiset{}))
  }

  function PcOf(s: System, u: TaskId): Pc {
    if u in s.threads then s.threads[u].pc else Idle
  }

  lemma CalmNames(k: Kernel, k': Kernel, x: set<TaskId>, y: set<TaskId>)
    requires Calm(k, k', x, y)
    ensures forall f :: IsMutex(k', f) <==> IsMutex(k, f)
    ensures forall f, u :: Names(k', f, u) <==> Names(k, f, u)
  {
    hide Kernel.Look, CalmFace, OwnerOf;
  }

  lemma CalmPc(k: Kernel, k': Kernel, u: TaskId, pc: Pc, a: Option<Face>, b: Option<Face>, rebased: bool)
    requires CalmFace(k, a, b, false, rebased) && b.Some?
    requires forall f :: IsMutex(k', f) <==> IsMutex(k, f)
    requires forall f :: Names(k', f, u) <==> Names(k, f, u)
    ensures a.Some?
    ensures PcOk(k, u, pc, a.value) ==> PcOk(k', u, pc, b.value)
  {
    hide Names;
  }

  /** `t` holds no mutex, and has not just been handed one. Its name may still be on words that it has released. */
  predicate MayGo(s: System, t: TaskId) {
    t in s.threads ==>
      var th := s.threads[t];
      th.held == multiset{} && (th.pc.Waited? || th.pc.TestWord? ==> !Names(s.k, th.pc.f, t))
  }

  /** A kernel step that leaves the mutexes alone leaves the protocol in order. */
  lemma FollowKeeps(s: System, k': Kernel, x: set<TaskId>, y: set<TaskId>)
    requires Inv(s) && Placed(k') && Calm(s.k, k', x, y)
    requires forall t :: s.k.Look(t).Some? && k'.Look(t).None? ==> MayGo(s, t)
    requires forall u :: u in x && k'.Look(u).Some? ==> PcOk(k', u, PcOf(s, u), k'.Look(u).value)
    ensures Inv(Follow(s, k'))
  {
    hide Kernel.Look, MutexesOk, Placed, PcOk, CalmFace, CalmWords;
    CalmKeeps(s.k, k', x, y);
    CalmNames(s.k, k', x, y);
    var s' := Follow(s, k');
    forall u ensures ThreadOk(s', u) {
      Seen(k', u);
      assert ThreadOk(s, u) && CalmFace(s.k, s.k.Look(u), k'.Look(u), u in x, u in y);
      if k'.Look(u).Some? && u !in x {
        CalmPc(s.k, k', u, PcOf(s, u), s.k.Look(u), k'.Look(u), u in y);
      }
    }
    forall u, f ensures HoldOk(s', u, f) {
      assert HoldOk(s, u, f) && ThreadOk(s, u);
      Seen(k', u);
    }
  }

  /** A task that is taken off its queue may go on, with the result it has. */
  lemma UnqueuedPc(k: Kernel, k': Kernel, u: TaskId, pc: Pc, a: Face, b: Face)
    requires PcOk(k, u, pc, a) && !Queued(b)
    requires pc.Waited? ==> b.task.result == a.task.result && !Names(k, pc.f, u)
    requires forall f :: IsMutex(k', f) <==> IsMutex(k, f)
    requires forall f :: Names(k', f, u) <==> Names(k, f, u)
    ensures PcOk(k', u, pc, b)
  {
    hide Names;
  }

  /** Suspending oneself, or, on a single core and for good, another task. */
  lemma SuspendKeeps(s: System, c: CoreId, t: TaskId, delay: nat)
    requires Inv(s) && c in s.k.current && s.k.current[c] in s.threads && s.threads[s.k.current[c]].pc.Idle?
    requires t == s.k.current[c] || (s.k.cores == 1 && delay >= WAIT_FOREVER)
    ensures Calls(s.k, c) && Inv(Follow(s, Suspend(s.k, c, t, delay).0))
  {
    hide Kernel.Look, MutexesOk, Placed, Sane, Inv, PcOk, Calm, Suspend, Names;
    Running(s, c);
    CallerReadySane(s);
    var cur := s.k.current[c];
    var k' := Suspend(s.k, c, t, delay).0;
    var x := if delay < WAIT_FOREVER then {t, cur} else {cur};
    SuspendPlaced(s.k, c, t, delay);
    SuspendCalm(s.k, c, t, delay);
    CalmNames(s.k, k', x, {});
    Seen(s.k, t);
    Alive(s, t);
    if t in s.k.tasks {
      SuspendStep(s.k, c, t, delay);
    } else {
      NoSuchTask(s.k, c, t);
    }
    forall u | u in x && k'.Look(u).Some? ensures PcOk(k', u, PcOf(s, u), k'.Look(u).value) {
      UnqueuedPc(s.k, k', u, PcOf(s, u), s.k.Look(u).value, k'.Look(u).value);
    }
    FollowKeeps(s, k', x, {});
  }

  lemma ResumeKeeps(s: System, c: CoreId, t: TaskId)
    requires Inv(s) && c in s.k.current && s.k.current[c] in s.threads
    ensures Calls(s.k, c) && Inv(Follow(s, Resume(s.k, c, t).0))
  {
    hide Kernel.Look, MutexesOk, Placed, Sane, Inv, Calm, Rouse;
    Running(s, c);
    CallerReadySane(s);
    ResumePlaced(s.k, c, t);
    ResumeCalm(s.k, c, t);
    Seen(s.k, t);
    PendingStep(s.k, c);
    if t in s.k.tasks && (s.k.tasks[t].state.Blocked? || s.k.tasks[t].state.Suspended?) {
      ResumeStep(s.k, c, t);
    }
    FollowKeeps(s, Resume(s.k, c, t).0, {}, {});
  }

  /** Waiting on a futex without tracking: the caller ends up on no mutex queue. */
  lemma WaitPlainKeeps(s: System, c: CoreId, f: FutexId, expected: int, delay: nat)
    requires Inv(s) && c in s.k.current && s.k.current[c] in s.threads && s.threads[s.k.current[c]].pc.Idle?
    requires f in s.k.futexes && s.k.futexes[f].kind.Plain?
    ensures Calls(s.k, c) && Inv(Follow(s, Wait(s.k, c, f, expected, delay)))
  {
    hide Kernel.Look, MutexesOk, Placed, Sane, Inv, Calm, Wait, Lent, ShouldBlock;
    Running(s, c);
    CallerReadySane(s);
    var k' := Wait(s.k, c, f, expected, delay);
    WaitPlaced(s.k, c, f, expected, delay);
    WaitCalm(s.k, c, f, expected, delay);
    CalmNames(s.k, k', {s.k.current[c]}, {});
    if ShouldBlock(s.k.futexes[f], expected) {
      WaitStep(s.k, c, f, expected, delay);
    } else {
      WaitReadyStep(s.k, c, f, expected, delay);
    }
    FollowKeeps(s, k', {s.k.current[c]}, {});
  }

  lemma WakePlainKeeps(s: System, c: CoreId, f: FutexId, all: bool)
    requires Inv(s) && c in s.k.current && s.k.current[c] in s.threads
    requires f in s.k.futexes && s.k.futexes[f].kind.Plain?
    ensures Calls(s.k, c) && Inv(Follow(s, Wake(s.k, c, f, all).0))
  {
    hide Kernel.Look, MutexesOk, Placed, Sane, Inv, Calm, WakeLoop, WakeFutex, Woken;
    Running(s, c);
    CallerReadySane(s);
    WakePlaced(s.k, c, f, all);
    WakeCalm(s.k, c, f, all);
    WakePlain(s.k, f, all);
    WakeLoopStep(s.k, f, all);
    PendingStep(WakeLoop(s.k, f, all), c);
    FollowKeeps(s, Wake(s.k, c, f, all).0, {}, {});
  }

  lemma CreateKeeps(s: System, c: CoreId, t: TaskId, prio: nat, affinity: Option<CoreId>, daemon: bool, suspended: bool)
    requires Inv(s) && c in s.k.current && s.k.current[c] in s.threads && t !in s.k.tasks
    ensures Calls(s.k, c) && Inv(Follow(s, Create(s.k, c, t, prio, affinity, daemon, suspended)))
  {
    hide Kernel.Look, MutexesOk, Placed, Sane, Inv, Calm, Create;
    Running(s, c);
    CallerReadySane(s);
    var k' := Create(s.k, c, t, prio, affinity, daemon, suspended);
    CreatePlaced(s.k, c, t, prio, affinity, daemon, suspended);
    CreateCalm(s.k, c, t, prio, affinity, daemon, suspended);
    CreateStep(s.k, c, t, prio, affinity, daemon, suspended);
    Seen(s.k, t);
    Alive(s, t);
    FollowKeeps(s, k', {t}, {});
  }

  /** Terminating oneself, or another task on a single core, that holds nothing. */
  lemma TerminateKeeps(s: System, c: CoreId, t: TaskId)
    requires Inv(s) && c in s.k.current && s.k.current[c] in s.threads
    requires (t == s.k.current[c] || s.k.cores == 1) && MayGo(s, t)
    ensures Calls(s.k, c) && Inv(Follow(s, Terminate(s.k, c, t).0))
  {
    hide Kernel.Look, MutexesOk, Placed, Sane, Inv, Calm, Terminate;
    Running(s, c);
    CallerReadySane(s);
    TerminatePlaced(s.k, c, t);
    TerminateCalm(s.k, c, t);
    if t in s.k.tasks {
      TerminateStep(s.k, c, t);
    } else {
      NoSuchTask(s.k, c, t);
    }
    FollowKeeps(s, Terminate(s.k, c, t).0, {}, {});
  }

  lemma SetPriorityKeeps(s: System, c: CoreId, t: TaskId, p: nat)
    requires Inv(s) && c in s.k.current && s.k.current[c] in s.threads
    ensures Calls(s.k, c) && Inv(Follow(s, SetPriority(s.k, c, t, p).0))
  {
    hide Kernel.Look, MutexesOk, Placed, Sane, Inv, Calm, SetPriority;
    Running(s, c);
    CallerReadySane(s);
    SetPriorityPlaced(s.k, c, t, p);
    SetPriorityCalm(s.k, c, t, p);
    if t in s.k.tasks {
      SetPriorityStep(s.k, c, t, p);
    } else {
      NoSuchTask(s.k, c, t);
    }
    FollowKeeps(s, SetPriority(s.k, c, t, p).0, {}, {t});
  }

  lemma TickKeeps(s: System, c: CoreId, sliced: bool)
    requires Inv(s)
    ensures Inv(Follow(s, Tick(s.k, c, sliced)))
  {
    hide Kernel.Look, MutexesOk, Placed, Sane, Inv, Calm, Tick;
    CallerReadySane(s);
    TickPlaced(s.k, c, sliced);
    TickCalm(s.k, c, sliced);
    TickStep(s.k, c, sliced);
    FollowKeeps(s, Tick(s.k, c, sliced), {}, {});
  }

  lemma SwitchKeeps(s: System, c: CoreId, wakes: seq<(FutexId, bool)>, corrupt: set<TaskId>, started: bool)
    requires Inv(s) && c < s.k.cores && PlainOnly(s.k, wakes)
    requires forall t :: t in corrupt ==> MayGo(s, t)
    ensures Sane(s.k) && (c in s.k.current ==> Calls(s.k, c))
    ensures Inv(Follow(s, Switch(s.k, c, wakes, corrupt, started).0))
  {
    hide Kernel.Look, MutexesOk, Placed, Sane, Inv, Calm, Switch;
    CallerReadySane(s);
    SwitchPlaced(s.k, c, wakes, corrupt, started);
    SwitchCalm(s.k, c, wakes, corrupt, started);
    SwitchAlive(s.k, c, wakes, corrupt, started);
    FollowKeeps(s, Switch(s.k, c, wakes, corrupt, started).0, {}, {});
  }

  /** A plain word, written by any thread or interrupt handler. */
  lemma PokeKeeps(s: System, f: FutexId, v: int)
    requires Inv(s) && f in s.k.futexes && s.k.futexes[f].kind.Plain?
    ensures Inv(Follow(s, SetWord(s.k, f, v)))
  {
    hide Kernel.Look, MutexesOk, Placed, Sane, Inv;
    CallerReadySane(s);
    SetWordKeeps(s.k, f, v);
    SetWordStep(s.k, f, v);
    var s' := Follow(s, SetWord(s.k, f, v));
    forall u ensures ThreadOk(s', u) {
      Alive(s, u);
      Seen(s.k, u);
    }
    forall u, g ensures HoldOk(s', u, g) {
      Holds(s, u, g);
      Alive(s, u);
      Seen(s.k, u);
    }
    MakeInv(s');
  }

  /** The scheduler is locked or unlocked. */
  lemma LockKeeps(s: System, n: int)
    requires Inv(s)
    ensures Inv(Follow(s, s.k.(locked := n)))
  {
    hide Kernel.Look, MutexesOk, Placed, Sane, Inv, Calm;
    CallerReadySane(s);
    var k' := s.k.(locked := n);
    Unmoved(s.k, k');
    SameLooks(s.k, k');
    CalmSame(s.k, k');
    FollowKeeps(s, k', {}, {});
  }
}
