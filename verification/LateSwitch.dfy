/** A run on which the release of a mutex lowers the running thread below a ready one, and nothing asks for a switch. */
module LateSwitch {
  import opened Types
  import opened K = Kernel
  import opened Steps
  import opened Placement
  import opened MutexKernel
  import opened Inheritance
  import opened Dispatching
  import opened Preemption
  import opened MutexRuns
  import opened SwitchRuns
  import opened DeadOwners
  import P = MutexProtocol
  import Q = TaskQueues
  import Ow = OwnedFutexes

  /** The waiter lends the owner its priority, and neither changes in any other way. */
  lemma LendsOwn(k: K.Kernel, c: CoreId, f: FutexId, t: TaskId)
    requires Calls(k, c) && f in k.futexes && k.futexes[f].kind == Mutex(true) && OwnerOf(k.futexes[f].value) == t
    requires t in k.tasks && t != k.current[c]
    ensures var u := k.current[c]; var a, b := WaitLook(k, c, f, WAIT_FOREVER, t), WaitLook(k, c, f, WAIT_FOREVER, u);
            && a.Some? && a.value.task == k.tasks[t] && a.value.prio <= k.Prio(u)
            && b.Some? && b.value.prio == k.Prio(u) && b.value.task.base == k.tasks[u].base
            && b.value.task.affinity == k.tasks[u].affinity
  {
    hide K.Kernel.Look, Sane, Lent, OwnerOf, Armed;
    Seen(k, t);
    Seen(k, k.current[c]);
    BlockedBelow(k, c, f, WAIT_FOREVER, k.current[c]);
  }

  /** With no mutex on any owner's list, everybody runs at the base priority. */
  lemma NothingLent(k: K.Kernel, f: FutexId, t: TaskId)
    requires Sane(k) && t in k.tasks && forall g :: g in k.owned.link ==> g == f
    ensures FallsBackTo(k, f, t) == k.tasks[t].base
  {
    Ow.UnlinkGood(k.owned, f);
    var o := Ow.Unlink(k.owned, f);
    assert Ow.ListLinked(o.link, t, o.List(t));
  }

  /** What the looks before and after the wait and its end say of the two. */
  lemma BetweenTheTwo(k0: K.Kernel, k1: K.Kernel, k2: K.Kernel, k: K.Kernel, c: CoreId, d: CoreId, f: FutexId)
    requires Calls(k1, d) && c in k1.current && k1.current[c] in k1.tasks && k1.current[c] != k1.current[d]
    requires f in k1.futexes && k1.futexes[f].kind == Mutex(true) && OwnerOf(k1.futexes[f].value) == k1.current[c]
    requires f in k0.futexes && k1 == SetWord(k0, f, k1.futexes[f].value) && k0.owned.link == map[]
    requires var t, u := k0.current[c], k0.current[d];
             k0.tasks[u].affinity.None? && k0.Prio(t) == k0.tasks[t].base && k0.Prio(u) < k0.Prio(t)
    requires forall v :: k2.Look(v) == WaitLook(k1, d, f, WAIT_FOREVER, v)
    requires k2.Look(k1.current[d]).Some?
    requires var u := k1.current[d];
             forall v :: k.Look(v) ==
               if v == u then Some(Returning(Readied(k2.Look(u).value), -ECANCELED).(timer := None)) else k2.Look(v)
    requires Calls(k, c) && k.current[c] == k1.current[c] && forall g :: g in k.owned.link ==> g == f
    ensures Overlooked(k, c, f, k1.current[d])
  {
    hide K.Kernel.Look, Sane, FallsBackTo, WaitLook, OwnerOf;
    var t, u := k1.current[c], k1.current[d];
    LendsOwn(k1, d, f, t);
    NothingLent(k, f, t);
    Seen(k, t);
  }

  lemma StartsPlain(s: P.System, t: TaskId)
    requires Start(s) && t in s.threads
    ensures s.k.owned.link == map[] && s.k.Prio(t) == s.k.tasks[t].base
  {
    hide Placed;
  }

  /**
   From every start in which three cores run three idle threads, the second one more urgent than the first and bound to
   no core: the first takes the mutex, the second waits for it and lends its priority, the third cancels that wait, and
   the first releases the mutex. The second is then ready and more urgent, and no switch of the core has been requested.
   */
  lemma ReleaseMisses(s0: P.System, f: FutexId, c: CoreId, d: CoreId, e: CoreId) returns (run: seq<Action>, s: P.System)
    requires Start(s0) && Cast(s0, f, c, d, e) && c !in s0.k.pending
    requires var t, u := s0.k.current[c], s0.k.current[d]; s0.k.tasks[u].affinity.None? && s0.k.Prio(u) < s0.k.Prio(t)
    ensures Leads(s0, run, s) && Enabled(s, SvcWake(c)) && Asserted(s, SvcWake(c)) && Misses(s, SvcWake(c))
    ensures !Requested(s.k, Apply(s, SvcWake(c)).0.k, c)
  {
    hide K.Kernel.Look, MutexesOk, Placed, Sane, P.Inv, OnlyWaiter, Start, Leads, Enabled, Asserted, FallsBackTo, WaitLook, Names,
      Apply, Requested;
    var s1, s2, s3;
    run, s1 := Seeks(s0, f, c, d, e);
    var t, u := s1.k.current[c], s1.k.current[d];
    run, s2 := Waits(s0, run, s1, d, f, t);
    run, s3 := Cancels(s0, run, s2, e, f, u);
    run, s := Lets(s0, run, s3, c, f);
    StartsPlain(s0, t);
    P.CallerReadySane(s);
    P.Running(s, c);
    BetweenTheTwo(s0.k, s1.k, s2.k, s.k, c, d, f);
    CallsPreempt(s0, run, s, SvcWake(c));
  }

  /** Such a start exists. */
  lemma SomeRunMisses() returns (s0: P.System, run: seq<Action>, s: P.System, a: Action)
    ensures Start(s0) && Leads(s0, run, s) && Enabled(s, a) && Asserted(s, a) && a.SvcWake?
    ensures !Requested(s.k, Apply(s, a).0.k, a.c)
  {
    hide Leads, Enabled, Asserted, Start, Cast, Apply, Misses, Requested;
    StageStarts(4);
    s0 := Staged(4);
    a := SvcWake(0);
    run, s := ReleaseMisses(s0, 0, 0, 1, 2);
  }
}
